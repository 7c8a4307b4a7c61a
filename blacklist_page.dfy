// The blacklist page (preferences/pages/blacklist.ts): the list of window
// classes the effect skips (or, in whitelist mode, the only ones it
// applies to), edited through its rows and written back with setPref.
module BlacklistPage {
  import opened Wrappers
  import opened Settings
  import opened JsArray
  import opened AppRow

  /** The toast shown when the new class is in the list already. */
  function DuplicateToast(wmClass: string): string
  {
    "Can't add " + wmClass + " to the list, because it already there"
  }

  /**
   * The list after a successful #changeWindow: a class for a new row ('' as
   * old class) is appended; otherwise the entry at indexOf(old) is replaced,
   * which for a class not in the list is index -1, the last entry.
   */
  function Changed(l: seq<string>, oldClass: string, newClass: string): (r: seq<string>)
    ensures newClass in r
    ensures |r| == |l| + (if oldClass == "" || l == [] then 1 else 0)
  {
    if oldClass == "" then l + [newClass] else Splice(l, IndexOf(l, oldClass), 1, [newClass])
  }

  /** A class that is listed is replaced where it stands; nothing else moves. */
  lemma ChangeReplacesInPlace(l: seq<string>, oldClass: string, newClass: string)
    requires oldClass != "" && oldClass in l
    ensures var r := Changed(l, oldClass, newClass);
      && |r| == |l|
      && r[IndexOf(l, oldClass)] == newClass
      && (forall i | 0 <= i < |l| && i != IndexOf(l, oldClass) :: r[i] == l[i])
  {
    var k := IndexOf(l, oldClass);
    SpliceOneIsUpdate(l, k, newClass);
  }

  /** A class that is not listed stands for index -1: the last entry is replaced (an empty list gets the new class). */
  lemma ChangeOfUnlistedReplacesLast(l: seq<string>, oldClass: string, newClass: string)
    requires oldClass != "" && oldClass !in l
    ensures |l| > 0 ==> Changed(l, oldClass, newClass) == l[..|l| - 1] + [newClass]
    ensures |l| == 0 ==> Changed(l, oldClass, newClass) == [newClass]
  {
  }

  /** The new class is listed afterwards, and a duplicate-free list stays duplicate-free. */
  lemma ChangeKeepsDistinct(l: seq<string>, oldClass: string, newClass: string)
    requires Distinct(l) && newClass !in l
    ensures newClass in Changed(l, oldClass, newClass)
    ensures Distinct(Changed(l, oldClass, newClass))
  {
    var r := Changed(l, oldClass, newClass);
    if oldClass == "" {
      assert r[|l|] == newClass;
    } else {
      var s := if IndexOf(l, oldClass) < 0 then Max(|l| + IndexOf(l, oldClass), 0) else IndexOf(l, oldClass);
      var d := Min(1, |l| - s);
      assert r == l[..s] + [newClass] + l[s + d..];
      ReplaceKeepsDistinct(l, s, d, newClass);
    }
  }

  /** The list after #deleteWindow as written: the entry at indexOf(row.title). */
  function DeletedAsWritten(l: seq<string>, row: Row): (r: seq<string>)
    reads row
    ensures |r| == |l| - (if l == [] then 0 else 1)
    ensures multiset(r) <= multiset(l)
  {
    SpliceOneRemoves(l, IndexOf(l, row.title));
    Splice(l, IndexOf(l, row.title), 1, [])
  }

  /** The list after the evidently intended delete: the entry at indexOf(row.subtitle). */
  function Deleted(l: seq<string>, wmClass: string): (r: seq<string>)
    ensures |r| == |l| - (if l == [] then 0 else 1)
    ensures multiset(r) <= multiset(l)
  {
    SpliceOneRemoves(l, IndexOf(l, wmClass));
    Splice(l, IndexOf(l, wmClass), 1, [])
  }

  /**
   * Rows show their class in the subtitle; their title is the placeholder.
   * Looking the title up finds nothing, and splice(-1, 1) drops the last
   * class of the list whatever row was deleted.
   */
  lemma AsWrittenDropsLastClass(l: seq<string>)
    requires PLACEHOLDER_TITLE !in l && |l| > 0
    ensures Splice(l, IndexOf(l, PLACEHOLDER_TITLE), 1, []) == l[..|l| - 1]
  {
    DeleteAtMissingIndex(l, PLACEHOLDER_TITLE);
  }

  /** Deleting the row for "a" from ["a", "b"] as written keeps "a" and drops "b". */
  lemma AsWrittenKeepsDeletedClass()
    ensures var l := ["a", "b"];
      Splice(l, IndexOf(l, PLACEHOLDER_TITLE), 1, []) == ["a"]
  {
    var l := ["a", "b"];
    assert PLACEHOLDER_TITLE != "a" && PLACEHOLDER_TITLE != "b";
    AsWrittenDropsLastClass(l);
  }

  /** The delete by subtitle removes that class and only that class. */
  lemma DeleteRemovesRowClass(l: seq<string>, wmClass: string)
    requires Distinct(l) && wmClass in l
    ensures var r := Deleted(l, wmClass);
      && |r| == |l| - 1
      && wmClass !in r
      && (forall y | y in l && y != wmClass :: y in r)
      && Distinct(r)
  {
    DeleteAtIndexOf(l, wmClass);
  }

  class Page {
    /** #blacklist: the page's copy of the blacklist setting. */
    var blacklist: seq<string>
    /** The rows of the blacklist group. */
    var rows: seq<Row>

    constructor (blacklist: seq<string>)
      ensures this.blacklist == blacklist && rows == []
    {
      this.blacklist := blacklist;
      rows := [];
    }

    /** #changeWindow: rejects a class already listed, else edits the list and writes it back. */
    method ChangeWindow(p: Prefs, oldClass: string, newClass: string) returns (ok: bool, toast: Option<string>)
      requires p.prefs != null
      modifies this`blacklist, p.prefs`user
      ensures ok <==> newClass !in old(blacklist)
      ensures !ok ==> blacklist == old(blacklist) && p.prefs.user == old(p.prefs.user) && toast == Some(DuplicateToast(newClass))
      ensures ok ==> blacklist == Changed(old(blacklist), oldClass, newClass) && toast == None
      ensures ok ==> p.prefs.user == old(p.prefs.user)["blacklist" := VStrings(blacklist)]
    {
      if newClass in blacklist {
        return false, Some(DuplicateToast(newClass));
      }
      if oldClass == "" {
        blacklist := blacklist + [newClass];
      } else {
        var oldId := IndexOf(blacklist, oldClass);
        blacklist := Splice(blacklist, oldId, 1, [newClass]);
      }
      p.SetPref(Blacklist, PStrings(blacklist));
      return true, None;
    }

    /** #deleteWindow as written: looks the row's title up in the list. */
    method DeleteWindowAsWritten(p: Prefs, row: Row)
      requires p.prefs != null
      modifies this`blacklist, this`rows, p.prefs`user
      ensures blacklist == DeletedAsWritten(old(blacklist), row)
      ensures rows == Without(old(rows), row)
      ensures p.prefs.user == old(p.prefs.user)["blacklist" := VStrings(blacklist)]
    {
      blacklist := Splice(blacklist, IndexOf(blacklist, row.title), 1, []);
      p.SetPref(Blacklist, PStrings(blacklist));
      rows := Without(rows, row);
    }

    /** #deleteWindow as intended: removes the row's class, the subtitle, then the row. */
    method DeleteWindow(p: Prefs, row: Row)
      requires p.prefs != null
      modifies this`blacklist, this`rows, p.prefs`user
      ensures blacklist == Deleted(old(blacklist), row.subtitle)
      ensures rows == Without(old(rows), row)
      ensures p.prefs.user == old(p.prefs.user)["blacklist" := VStrings(blacklist)]
    {
      blacklist := Splice(blacklist, IndexOf(blacklist, row.subtitle), 1, []);
      p.SetPref(Blacklist, PStrings(blacklist));
      rows := Without(rows, row);
    }

    /**
     * The row's apply button: onTitleChange hands (subtitle, entry) to
     * #changeWindow and takes the new class into its subtitle when accepted.
     */
    method OnApply(p: Prefs, row: Row) returns (toast: Option<string>)
      requires p.prefs != null
      modifies this`blacklist, p.prefs`user, row`subtitle, row`entryText
      ensures old(row.TitleChange()).None? ==> (
        && blacklist == old(blacklist) && p.prefs.user == old(p.prefs.user)
        && row.subtitle == old(row.subtitle) && row.entryText == old(row.entryText) && toast == None)
      ensures old(row.TitleChange()).Some? && old(row.entryText) in old(blacklist) ==> (
        && blacklist == old(blacklist) && p.prefs.user == old(p.prefs.user)
        && row.subtitle == old(row.subtitle) && row.entryText == old(row.entryText)
        && toast == Some(DuplicateToast(old(row.entryText))))
      ensures old(row.TitleChange()).Some? && old(row.entryText) !in old(blacklist) ==> (
        && blacklist == Changed(old(blacklist), old(row.subtitle), old(row.entryText))
        && p.prefs.user == old(p.prefs.user)["blacklist" := VStrings(blacklist)]
        && row.subtitle == old(row.entryText) && row.entryText == old(row.entryText) && toast == None)
    {
      var request := row.TitleChange();
      toast := None;
      if request.Some? {
        var ok;
        ok, toast := ChangeWindow(p, request.value.0, request.value.1);
        row.FinishTitleChange(ok);
      }
    }

    /** The row's remove button: onDelete hands the row to #deleteWindow, as written. */
    method OnDelete(p: Prefs, row: Row)
      requires p.prefs != null
      modifies this`blacklist, this`rows, p.prefs`user
      ensures blacklist == DeletedAsWritten(old(blacklist), row) && rows == Without(old(rows), row)
      ensures p.prefs.user == old(p.prefs.user)["blacklist" := VStrings(blacklist)]
    {
      DeleteWindowAsWritten(p, row);
    }
  }
}
