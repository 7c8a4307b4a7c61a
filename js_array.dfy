// The JavaScript Array built-ins the preference pages edit their lists with:
// indexOf, splice and filter by !==.
module JsArray {

  /** Array.prototype.indexOf: the first index holding x, or -1. */
  function IndexOf<T(==)>(l: seq<T>, x: T): (r: int)
    ensures -1 <= r < |l|
    ensures r == -1 <==> x !in l
    ensures r >= 0 ==> l[r] == x && x !in l[..r]
  {
    if |l| == 0 then -1
    else
      var k := IndexOf(l[..|l| - 1], x);
      if k >= 0 then assert l[..|l| - 1][..k] == l[..k]; k else if l[|l| - 1] == x then |l| - 1 else -1
  }

  function Max(a: int, b: int): int { if a < b then b else a }
  function Min(a: int, b: int): int { if a < b then a else b }

  /**
   * The array Array.prototype.splice(start, deleteCount, ...items) leaves: a
   * negative start counts from the end (and is clamped at 0), a start past
   * the end is clamped to the end, and no more than the rest is deleted.
   */
  function Splice<T>(l: seq<T>, start: int, deleteCount: int, items: seq<T>): (r: seq<T>)
    ensures var s := if start < 0 then Max(|l| + start, 0) else Min(start, |l|);
      var d := Min(Max(deleteCount, 0), |l| - s);
      && 0 <= s <= s + d <= |l|
      && |r| == |l| - d + |items|
      && r[..s] == l[..s] && r[s..s + |items|] == items && r[s + |items|..] == l[s + d..]
  {
    var s := if start < 0 then Max(|l| + start, 0) else Min(start, |l|);
    var d := Min(Max(deleteCount, 0), |l| - s);
    l[..s] + items + l[s + d..]
  }

  /** Array.prototype.filter(k => k !== x): every element but x, in order. */
  function Without<T(==)>(l: seq<T>, x: T): (r: seq<T>)
    ensures x !in r
    ensures forall y | y in l && y != x :: y in r
    ensures forall y | y in r :: y in l
    ensures |r| <= |l|
  {
    if |l| == 0 then []
    else Without(l[..|l| - 1], x) + (if l[|l| - 1] == x then [] else [l[|l| - 1]])
  }

  /** filter keeps every other element as often as it occurs, and no copy of x. */
  lemma {:induction false} WithoutCounts<T>(l: seq<T>, x: T)
    ensures forall y :: multiset(Without(l, x))[y] == if y == x then 0 else multiset(l)[y]
  {
    if |l| > 0 {
      var l', z := l[..|l| - 1], l[|l| - 1];
      WithoutCounts(l', x);
      assert l == l' + [z];
      assert multiset(l) == multiset(l') + multiset{z};
      assert multiset(Without(l, x)) == multiset(Without(l', x)) + multiset(if z == x then [] else [z]);
    }
  }

  /** filter works element by element: the kept elements stay in their order. */
  lemma {:induction false} WithoutAppend<T>(a: seq<T>, b: seq<T>, x: T)
    ensures Without(a + b, x) == Without(a, x) + Without(b, x)
  {
    if |b| > 0 {
      var b', y := b[..|b| - 1], b[|b| - 1];
      var kept := if y == x then [] else [y];
      WithoutAppend(a, b', x);
      assert (a + b)[..|a + b| - 1] == a + b';
      assert Without(a + b, x) == Without(a + b', x) + kept;
      assert Without(b, x) == Without(b', x) + kept;
    } else {
      assert a + b == a;
    }
  }

  /** Replacing one element in range with splice is updating it in place. */
  lemma SpliceOneIsUpdate<T>(l: seq<T>, k: int, x: T)
    requires 0 <= k < |l|
    ensures Splice(l, k, 1, [x]) == l[k := x]
  {
    var r := Splice(l, k, 1, [x]);
    assert r == l[..k] + [x] + l[k + 1..];
    assert forall i | 0 <= i < |l| :: r[i] == l[k := x][i];
  }

  /** splice(start, 1) removes at most one element and adds none. */
  lemma SpliceOneRemoves<T>(l: seq<T>, start: int)
    ensures multiset(Splice(l, start, 1, [])) <= multiset(l)
  {
    var s := if start < 0 then Max(|l| + start, 0) else Min(start, |l|);
    var d := Min(1, |l| - s);
    assert l == l[..s] + l[s..s + d] + l[s + d..];
    assert Splice(l, start, 1, []) == l[..s] + l[s + d..];
  }

  /** Filtering out an absent element changes nothing. */
  lemma {:induction false} WithoutAbsent<T>(l: seq<T>, x: T)
    requires x !in l
    ensures Without(l, x) == l
  {
    if |l| > 0 {
      WithoutAbsent(l[..|l| - 1], x);
      assert l == l[..|l| - 1] + [l[|l| - 1]];
    }
  }

  /** No element occurs twice. */
  predicate Distinct<T(==)>(l: seq<T>)
  {
    forall i, j | 0 <= i < j < |l| :: l[i] != l[j]
  }

  /** Putting an element that is not in a duplicate-free list in place of at most one of its elements keeps it duplicate-free. */
  lemma ReplaceKeepsDistinct<T>(l: seq<T>, s: int, d: int, x: T)
    requires Distinct(l) && x !in l && 0 <= s && 0 <= d <= 1 && s + d <= |l|
    ensures x in l[..s] + [x] + l[s + d..]
    ensures Distinct(l[..s] + [x] + l[s + d..])
  {
    var r := l[..s] + [x] + l[s + d..];
    assert r[s] == x;
    forall i, j | 0 <= i < j < |r|
      ensures r[i] != r[j]
    {
      if i == s {
        assert r[j] == l[j - 1 + d];
      } else if j == s {
        assert r[i] == l[i];
      } else {
        var i', j' := if i < s then i else i - 1 + d, if j < s then j else j - 1 + d;
        assert r[i] == l[i'] && r[j] == l[j'];
      }
    }
  }

  /** Deleting the one element at indexOf(x) of a duplicate-free list removes x and keeps everything else. */
  lemma DeleteAtIndexOf<T>(l: seq<T>, x: T)
    requires Distinct(l) && x in l
    ensures var r := Splice(l, IndexOf(l, x), 1, []);
      && |r| == |l| - 1
      && x !in r
      && (forall y | y in l && y != x :: y in r)
      && (forall y | y in r :: y in l)
      && Distinct(r)
  {
    var k := IndexOf(l, x);
    var r := Splice(l, k, 1, []);
    assert r == l[..k] + l[k + 1..];
    forall y | y != x && y in l
      ensures y in r
    {
      var j :| 0 <= j < |l| && l[j] == y;
      if j < k { assert r[j] == y; } else { assert r[j - 1] == y; }
    }
    forall i, j | 0 <= i < j < |r|
      ensures r[i] != r[j]
    {
      var i', j' := if i < k then i else i + 1, if j < k then j else j + 1;
      assert r[i] == l[i'] && r[j] == l[j'];
    }
  }

  /** An index of -1 (an absent element) makes splice(-1, 1) delete the last element. */
  lemma DeleteAtMissingIndex<T>(l: seq<T>, x: T)
    requires x !in l && |l| > 0
    ensures Splice(l, IndexOf(l, x), 1, []) == l[..|l| - 1]
  {
  }
}
