// The "Rounded Corners Settings..." entry of the desktop background's
// context menu (utils/background_menu.ts): added once to every background
// menu, removed again on disable.
module BackgroundMenu {
  import opened Wrappers

  /** Label of the entry that opens the preferences (translation not modelled). */
  const RWC_MENU_ITEM_NAME: string := "Rounded Corners Settings..."

  /** An item of a PopupMenu: its label text, if it has one, and whether it is a PopupMenuItem. */
  datatype MenuItem = MenuItem(labelText: Option<string>, isPopupMenuItem: bool)

  /** The item that PopupMenu.addAction appends for our label. */
  const RWC_ITEM: MenuItem := MenuItem(Some(RWC_MENU_ITEM_NAME), true)

  /**
   * Whether an item is the extension's entry; when requirePopup is set the
   * item must also be a PopupMenuItem.
   */
  predicate IsRwcItem(it: MenuItem, requirePopup: bool)
  {
    (it.isPopupMenuItem || !requirePopup) && it.labelText == Some(RWC_MENU_ITEM_NAME)
  }

  predicate HasRwcItem(items: seq<MenuItem>, requirePopup: bool)
  {
    exists i | 0 <= i < |items| :: IsRwcItem(items[i], requirePopup)
  }

  /** Number of entries of the extension in a menu. */
  function CountRwc(items: seq<MenuItem>, requirePopup: bool): (n: nat)
    ensures n <= |items|
    ensures n == 0 <==> !HasRwcItem(items, requirePopup)
  {
    if items == [] then 0
    else
      var rest := CountRwc(items[1..], requirePopup);
      assert forall i | 1 <= i < |items| :: items[i] == items[1..][i - 1];
      (if IsRwcItem(items[0], requirePopup) then 1 else 0) + rest
  }

  /** Index of the first entry of the extension, if any. */
  function FirstRwc(items: seq<MenuItem>, requirePopup: bool): (r: Option<nat>)
    ensures r.None? <==> !HasRwcItem(items, requirePopup)
    ensures r.Some? ==>
      (r.value < |items| && IsRwcItem(items[r.value], requirePopup)
       && forall j | 0 <= j < r.value :: !IsRwcItem(items[j], requirePopup))
  {
    if items == [] then None
    else if IsRwcItem(items[0], requirePopup) then Some(0)
    else
      var r := FirstRwc(items[1..], requirePopup);
      assert forall i | 1 <= i < |items| :: items[i] == items[1..][i - 1];
      if r.None? then None else Some(r.value + 1)
  }

  /** The menu after adding the entry: unchanged if it already has one, else with the entry appended. */
  function WithRwcItem(items: seq<MenuItem>, requirePopup: bool): (r: seq<MenuItem>)
    ensures HasRwcItem(r, requirePopup)
    ensures items <= r && |r| <= |items| + 1
  {
    if HasRwcItem(items, requirePopup) then items
    else
      assert IsRwcItem((items + [RWC_ITEM])[|items|], requirePopup);
      items + [RWC_ITEM]
  }

  /** The menu after removing the first entry of the extension, if there is one. */
  function WithoutFirstRwc(items: seq<MenuItem>, requirePopup: bool): (r: seq<MenuItem>)
    ensures |r| == |items| - (if HasRwcItem(items, requirePopup) then 1 else 0)
    ensures multiset(r) <= multiset(items)
  {
    match FirstRwc(items, requirePopup)
    case None => items
    case Some(k) =>
      assert items == items[..k] + [items[k]] + items[k + 1..];
      items[..k] + items[k + 1..]
  }

  /** Adding is idempotent and leaves exactly one entry in a menu that had at most one. */
  lemma AddIdempotent(items: seq<MenuItem>, requirePopup: bool)
    ensures HasRwcItem(WithRwcItem(items, requirePopup), requirePopup)
    ensures WithRwcItem(WithRwcItem(items, requirePopup), requirePopup) == WithRwcItem(items, requirePopup)
    ensures CountRwc(items, requirePopup) <= 1 ==> CountRwc(WithRwcItem(items, requirePopup), requirePopup) == 1
  {
    var added := WithRwcItem(items, requirePopup);
    if !HasRwcItem(items, requirePopup) {
      assert IsRwcItem(added[|items|], requirePopup);
      CountAppend(items, [RWC_ITEM], requirePopup);
      assert [RWC_ITEM][1..] == [];
    }
  }

  lemma {:induction false} CountAppend(a: seq<MenuItem>, b: seq<MenuItem>, requirePopup: bool)
    ensures CountRwc(a + b, requirePopup) == CountRwc(a, requirePopup) + CountRwc(b, requirePopup)
  {
    if a == [] {
      assert a + b == b;
    } else {
      assert (a + b)[1..] == a[1..] + b;
      CountAppend(a[1..], b, requirePopup);
    }
  }

  /** Removing the first entry lowers the count by exactly one, or changes nothing when there is none. */
  lemma RemoveDropsOne(items: seq<MenuItem>, requirePopup: bool)
    ensures var n := CountRwc(items, requirePopup);
      CountRwc(WithoutFirstRwc(items, requirePopup), requirePopup) == if n == 0 then 0 else n - 1
  {
    match FirstRwc(items, requirePopup)
    case None =>
    case Some(k) =>
      assert items == items[..k] + [items[k]] + items[k + 1..];
      CountAppend(items[..k] + [items[k]], items[k + 1..], requirePopup);
      CountAppend(items[..k], [items[k]], requirePopup);
      CountAppend(items[..k], items[k + 1..], requirePopup);
      assert !HasRwcItem(items[..k], requirePopup) by {
        forall j | 0 <= j < k ensures !IsRwcItem(items[..k][j], requirePopup) {
          assert items[..k][j] == items[j];
        }
      }
      assert [items[k]][1..] == [];
  }

  /** Disabling after enabling restores a menu that had no entry before. */
  lemma RemoveUndoesAdd(items: seq<MenuItem>, requirePopup: bool)
    requires !HasRwcItem(items, requirePopup)
    ensures WithoutFirstRwc(WithRwcItem(items, requirePopup), requirePopup) == items
  {
    var added := items + [RWC_ITEM];
    assert IsRwcItem(added[|items|], requirePopup);
    var r := FirstRwc(added, requirePopup);
    assert r.Some?;
    assert forall j | 0 <= j < |items| :: added[j] == items[j];
    assert r.value == |items|;
    assert added[..|items|] == items;
  }

  /** A background's PopupMenu; only its list of items is modelled. */
  class Menu {
    var items: seq<MenuItem>

    constructor (items: seq<MenuItem>)
      ensures this.items == items
    {
      this.items := items;
    }

    /**
     * Appends the entry unless an item already carries it (a PopupMenuItem
     * with the label when requirePopup, any item with the label otherwise).
     */
    method AddItem(requirePopup: bool)
      modifies this
      ensures items == WithRwcItem(old(items), requirePopup)
    {
      var i := 0;
      while i < |items|
        invariant 0 <= i <= |items|
        invariant forall j | 0 <= j < i :: !IsRwcItem(items[j], requirePopup)
      {
        if IsRwcItem(items[i], requirePopup) {
          return;
        }
        i := i + 1;
      }
      items := items + [RWC_ITEM];
    }

    /** Destroys the first item that is the entry, if any, and stops there. */
    method RemoveItem(requirePopup: bool)
      modifies this
      ensures items == WithoutFirstRwc(old(items), requirePopup)
    {
      var i := 0;
      while i < |items|
        invariant 0 <= i <= |items|
        invariant forall j | 0 <= j < i :: !IsRwcItem(items[j], requirePopup)
      {
        if IsRwcItem(items[i], requirePopup) {
          assert FirstRwc(items, requirePopup) == Some(i);
          items := items[..i] + items[i + 1..];
          return;
        }
        i := i + 1;
      }
    }
  }

  predicate Distinct(menus: seq<Menu>)
  {
    forall i, j | 0 <= i < j < |menus| :: menus[i] != menus[j]
  }

  /** Adds the entry (as a PopupMenuItem check) to the menu of every background. */
  method EnableBackgroundMenuItem(menus: seq<Menu>)
    requires Distinct(menus)
    modifies set m | m in menus
    ensures forall i | 0 <= i < |menus| :: menus[i].items == WithRwcItem(old(menus[i].items), true)
  {
    var k := 0;
    while k < |menus|
      invariant 0 <= k <= |menus|
      invariant forall i | 0 <= i < k :: menus[i].items == WithRwcItem(old(menus[i].items), true)
      invariant forall i | k <= i < |menus| :: menus[i].items == old(menus[i].items)
    {
      menus[k].AddItem(true);
      k := k + 1;
    }
  }

  /** Removes the first entry from the menu of every background. */
  method DisableBackgroundMenuItem(menus: seq<Menu>)
    requires Distinct(menus)
    modifies set m | m in menus
    ensures forall i | 0 <= i < |menus| :: menus[i].items == WithoutFirstRwc(old(menus[i].items), true)
  {
    var k := 0;
    while k < |menus|
      invariant 0 <= k <= |menus|
      invariant forall i | 0 <= i < k :: menus[i].items == WithoutFirstRwc(old(menus[i].items), true)
      invariant forall i | k <= i < |menus| :: menus[i].items == old(menus[i].items)
    {
      menus[k].RemoveItem(true);
      k := k + 1;
    }
  }
}
