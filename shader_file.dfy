// Splitting a GLSL snippet file into declarations and the body of main
// (utils/file.ts, readShader). Reading the file is left out: the model starts
// from its text. The regular expression /^.*?main\(\s?\)\s?/m, the split
// algorithm of String.prototype.split, trim and the global, multiline
// replace of /^[{}]/ are written out over the characters of the text.
module ShaderFile {
  import opened Wrappers
  import opened Types

  /** The two arguments of add_glsl_snippet. */
  datatype Shader = Shader(declarations: string, code: string)

  /** JavaScript's WhiteSpace and LineTerminator characters: what `\s` matches and trim removes. */
  predicate IsSpace(c: char)
  {
    c == '\t' || c == '\U{000B}' || c == '\U{000C}' || c == ' ' || c == '\U{00A0}' || c == '\U{1680}'
    || ('\U{2000}' <= c <= '\U{200A}') || c == '\U{202F}' || c == '\U{205F}' || c == '\U{3000}'
    || c == '\U{FEFF}' || IsLineTerminator(c)
  }

  // ---- trim ----

  /** String.prototype.trimStart. */
  function TrimStart(s: string): (r: string)
    ensures |r| <= |s| && r == s[|s| - |r|..]
    ensures r == [] || !IsSpace(r[0])
    ensures forall i | 0 <= i < |s| - |r| :: IsSpace(s[i])
  {
    if s == [] || !IsSpace(s[0]) then s else TrimStart(s[1..])
  }

  /** String.prototype.trimEnd. */
  function TrimEnd(s: string): (r: string)
    ensures |r| <= |s| && r == s[..|r|]
    ensures r == [] || !IsSpace(r[|r| - 1])
    ensures forall i | |r| <= i < |s| :: IsSpace(s[i])
  {
    if s == [] || !IsSpace(s[|s| - 1]) then s else TrimEnd(s[..|s| - 1])
  }

  /** String.prototype.trim: a slice of s with only spaces cut off either end and none left at them. */
  function Trim(s: string): (r: string)
    ensures |r| <= |s|
    ensures r == [] || (!IsSpace(r[0]) && !IsSpace(r[|r| - 1]))
  {
    TrimEnd(TrimStart(s))
  }

  /** Everything outside the trimmed slice is space. */
  lemma TrimCutsOnlySpaces(s: string)
    ensures var i := |s| - |TrimStart(s)|;
      && Trim(s) == s[i..i + |Trim(s)|]
      && (forall k | 0 <= k < i :: IsSpace(s[k]))
      && (forall k | i + |Trim(s)| <= k < |s| :: IsSpace(s[k]))
  {
    TrimIsSlice(s);
    TrimEndCutsSpaces(s);
  }

  /** The trimmed text is the slice of s that starts where trimStart stopped. */
  lemma TrimIsSlice(s: string)
    ensures var i := |s| - |TrimStart(s)|; Trim(s) == s[i..i + |Trim(s)|]
  {
    var t := TrimStart(s);
    var i := |s| - |t|;
    var r := TrimEnd(t);
    assert r == t[..|r|] && t == s[i..];
    SliceOfSuffix(s, i, |r|);
  }

  /** Everything after the trimmed slice is space. */
  lemma TrimEndCutsSpaces(s: string)
    ensures var i := |s| - |TrimStart(s)|; forall k | i + |Trim(s)| <= k < |s| :: IsSpace(s[k])
  {
    var t := TrimStart(s);
    var i := |s| - |t|;
    var r := TrimEnd(t);
    assert Trim(s) == r;
    assert t == s[i..];
    forall k | i + |r| <= k < |s|
      ensures IsSpace(s[k])
    {
      assert |r| <= k - i < |t|;
      assert IsSpace(t[k - i]);
      assert s[k] == t[k - i];
    }
  }

  /** A prefix of a suffix is a slice. */
  lemma SliceOfSuffix(s: string, i: nat, n: nat)
    requires i + n <= |s|
    ensures s[i..][..n] == s[i..i + n]
  {
  }

  /** Trimming twice changes nothing more. */
  lemma TrimIdempotent(s: string)
    ensures Trim(Trim(s)) == Trim(s)
  {
    var r := Trim(s);
    assert TrimStart(r) == r;
  }

  // ---- the regular expression /^.*?main\(\s?\)\s?/m ----

  /** `^` under the multiline flag: the start of the text or just after a line terminator. */
  predicate LineStart(s: string, p: int)
  {
    p == 0 || (0 < p <= |s| && IsLineTerminator(s[p - 1]))
  }

  /**
   * `main\(\s?\)\s?` matched at i: the end of the match, or None. The first
   * \s? is tried with a space, then without, when no ')' follows; the last
   * one takes a space when there is one.
   */
  function MainTail(s: string, i: nat): (r: Option<nat>)
    ensures r.Some? ==> i + 6 <= r.value <= |s| && s[i..i + 5] == "main("
  {
    if i + 5 <= |s| && s[i..i + 5] == "main(" then
      var j := i + 5;
      var close :=
        if j + 1 < |s| && IsSpace(s[j]) && s[j + 1] == ')' then Some(j + 2)
        else if j < |s| && s[j] == ')' then Some(j + 1)
        else None;
      match close
      case None => None
      case Some(k) => Some(if k < |s| && IsSpace(s[k]) then k + 1 else k)
    else None
  }

  /**
   * The lazy `.*?` from i: the first k from i on, before any line terminator,
   * at which MainTail matches, together with the end of the match.
   */
  function LazyMain(s: string, i: nat): (r: Option<(nat, nat)>)
    decreases |s| - i
    ensures r.Some? ==> i <= r.value.0 && MainTail(s, r.value.0) == Some(r.value.1)
  {
    if MainTail(s, i).Some? then Some((i, MainTail(s, i).value))
    else if i < |s| && !IsLineTerminator(s[i]) then LazyMain(s, i + 1)
    else None
  }

  /** The lazy `.*?` stops at the first position where `main(...)` matches, with no line terminator before it. */
  lemma {:induction false} LazyMainIsFirst(s: string, i: nat)
    decreases |s| - i
    ensures var r := LazyMain(s, i);
      r.Some? ==> forall j | i <= j < r.value.0 :: !IsLineTerminator(s[j]) && MainTail(s, j).None?
  {
    if MainTail(s, i).None? && i < |s| && !IsLineTerminator(s[i]) {
      LazyMainIsFirst(s, i + 1);
    }
  }

  /** The lazy `.*?` misses only when every later position where `main(...)` matches lies past a line terminator. */
  lemma {:induction false} LazyMainMisses(s: string, i: nat)
    decreases |s| - i
    ensures LazyMain(s, i).None? ==>
      forall k | i <= k <= |s| && MainTail(s, k).Some? :: exists j | i <= j < k :: IsLineTerminator(s[j])
  {
    if MainTail(s, i).None? && i < |s| && !IsLineTerminator(s[i]) {
      LazyMainMisses(s, i + 1);
      if LazyMain(s, i).None? {
        forall k | i <= k <= |s| && MainTail(s, k).Some?
          ensures exists j | i <= j < k :: IsLineTerminator(s[j])
        {
          assert k != i;
          var j :| i + 1 <= j < k && IsLineTerminator(s[j]);
        }
      }
    }
  }

  /** The regular expression tried at q (the sticky match of the split algorithm): the end of its match. */
  function MatchAt(s: string, q: nat): (r: Option<nat>)
    ensures r.Some? ==> q + 6 <= r.value <= |s|
  {
    if LineStart(s, q) then
      match LazyMain(s, q)
      case None => None
      case Some((_, e)) => Some(e)
    else None
  }

  /**
   * The search of the split algorithm from position `from`: the first q
   * with from <= q < |s| at which the expression matches, and the end of
   * that match.
   */
  function NextMatch(s: string, from: nat): (r: Option<(nat, nat)>)
    decreases |s| - from
    ensures r.Some? ==> from <= r.value.0 < |s| && MatchAt(s, r.value.0) == Some(r.value.1)
    ensures r.Some? ==> r.value.0 + 6 <= r.value.1 <= |s|
  {
    if from >= |s| then None
    else
      var m := MatchAt(s, from);
      if m.Some? then Some((from, m.value)) else NextMatch(s, from + 1)
  }

  /** The search finds the first position at which the expression matches, and misses only when there is none. */
  lemma {:induction false} NextMatchIsFirst(s: string, from: nat)
    decreases |s| - from
    ensures var r := NextMatch(s, from);
      r.Some? ==> forall q | from <= q < r.value.0 :: MatchAt(s, q).None?
    ensures NextMatch(s, from).None? ==> forall q | from <= q < |s| :: MatchAt(s, q).None?
  {
    if from < |s| && MatchAt(s, from).None? {
      assert NextMatch(s, from) == NextMatch(s, from + 1);
      NextMatchIsFirst(s, from + 1);
    }
  }

  // ---- replace(/^[{}]/gm, '') ----

  predicate IsBrace(c: char)
  {
    c == '{' || c == '}'
  }

  /** Position i of t is a brace at the start of a line, which the replace deletes. */
  predicate Removed(t: string, i: nat)
    requires i < |t|
  {
    LineStart(t, i) && IsBrace(t[i])
  }

  /** What the replace leaves of t[i..]: every character except the braces at line starts of t. */
  function StripFrom(t: string, i: nat): (r: string)
    requires i <= |t|
    decreases |t| - i
    ensures |r| <= |t| - i
  {
    if i == |t| then [] else (if Removed(t, i) then [] else [t[i]]) + StripFrom(t, i + 1)
  }

  /** replace(/^[{}]/gm, ''): the replace only deletes. */
  function StripBraces(t: string): (r: string)
    ensures |r| <= |t|
  {
    StripFrom(t, 0)
  }

  /** The characters of s other than braces, in order. */
  function Unbraced(s: string): string
  {
    if s == [] then [] else (if IsBrace(s[0]) then [] else [s[0]]) + Unbraced(s[1..])
  }

  /** The number of line terminators in s. */
  function Terminators(s: string): nat
  {
    if s == [] then 0 else (if IsLineTerminator(s[0]) then 1 else 0) + Terminators(s[1..])
  }

  lemma {:induction false} UnbracedAppend(a: string, b: string)
    ensures Unbraced(a + b) == Unbraced(a) + Unbraced(b)
  {
    if a == [] {
      assert a + b == b;
    } else {
      assert (a + b)[1..] == a[1..] + b;
      UnbracedAppend(a[1..], b);
    }
  }

  /** Only braces go: every other character, line terminators included, stays in order. */
  lemma {:induction false} StripKeepsOtherCharacters(t: string)
    ensures Unbraced(StripBraces(t)) == Unbraced(t)
  {
    StripFromKeepsOtherCharacters(t, 0);
    assert t[0..] == t;
  }

  lemma {:induction false} StripFromKeepsOtherCharacters(t: string, i: nat)
    requires i <= |t|
    ensures Unbraced(StripFrom(t, i)) == Unbraced(t[i..])
    decreases |t| - i
  {
    if i < |t| {
      StripFromKeepsOtherCharacters(t, i + 1);
      var head := if Removed(t, i) then [] else [t[i]];
      UnbracedAppend(head, StripFrom(t, i + 1));
      assert t[i..][1..] == t[i + 1..];
    }
  }

  /** At most one character goes per line: the text loses no more than its number of lines. */
  lemma {:induction false} AtMostOnePerLine(t: string)
    ensures |t| - |StripBraces(t)| <= 1 + Terminators(t)
  {
    StripFromPerLine(t, 0);
    assert t[0..] == t;
  }

  lemma {:induction false} StripFromPerLine(t: string, i: nat)
    requires i <= |t|
    ensures |t| - i - |StripFrom(t, i)| <= (if LineStart(t, i) then 1 else 0) + Terminators(t[i..])
    decreases |t| - i
  {
    if i < |t| {
      StripFromPerLine(t, i + 1);
      assert t[i..][1..] == t[i + 1..];
      assert LineStart(t, i + 1) <==> IsLineTerminator(t[i]);
    }
  }

  /** A body without braces at its line starts comes through the replace unchanged. */
  lemma {:induction false} NoLineStartBraceUnchanged(t: string)
    requires forall i | 0 <= i < |t| :: !Removed(t, i)
    ensures StripBraces(t) == t
  {
    StripFromUnchanged(t, 0);
    assert t[0..] == t;
  }

  lemma {:induction false} StripFromUnchanged(t: string, i: nat)
    requires i <= |t|
    requires forall k | i <= k < |t| :: !Removed(t, k)
    ensures StripFrom(t, i) == t[i..]
    decreases |t| - i
  {
    if i < |t| {
      StripFromUnchanged(t, i + 1);
      assert t[i..] == [t[i]] + t[i + 1..];
    }
  }

  // ---- readShader ----

  /**
   * readShader on the text of the file: the declarations are the trimmed
   * text before the first match; the code is the text between the first and
   * the second match (or the end), trimmed, with the braces at its line
   * starts deleted, trimmed again. Without a match the second piece of the
   * split is undefined and trimming it throws: None.
   */
  function ReadShader(s: string): (r: Option<Shader>)
    ensures r.None? <==> forall q | 0 <= q < |s| :: MatchAt(s, q).None?
    ensures r.Some? ==> var d := r.value.declarations; d == [] || (!IsSpace(d[0]) && !IsSpace(d[|d| - 1]))
    ensures r.Some? ==> var c := r.value.code; c == [] || (!IsSpace(c[0]) && !IsSpace(c[|c| - 1]))
  {
    NextMatchIsFirst(s, 0);
    var m := NextMatch(s, 0);
    if m.None? then None
    else
      var (q1, e1) := m.value;
      var n := NextMatch(s, e1);
      var raw := if n.Some? then s[e1..n.value.0] else s[e1..];
      Some(Shader(Trim(s[..q1]), Trim(StripBraces(Trim(raw)))))
  }

  /** The declarations are the text before the first line that matches, trimmed. */
  lemma DeclarationsEndAtFirstMain(s: string)
    requires ReadShader(s).Some?
    ensures exists q | 0 <= q < |s| ::
      && MatchAt(s, q).Some?
      && (forall p | 0 <= p < q :: MatchAt(s, p).None?)
      && ReadShader(s).value.declarations == Trim(s[..q])
  {
    NextMatchIsFirst(s, 0);
    var q := NextMatch(s, 0).value.0;
    assert MatchAt(s, q).Some?;
  }
}
