// The older reset page (preferences/widgets/reset_page.ts): a reset flag per
// top-level key and per corner field, set by the switches; on confirmation
// the flagged keys are reset and the flagged corner fields of the global
// settings take their default values.
module ResetWidget {
  import opened Wrappers
  import opened Types
  import opened Settings
  import ResetPage

  /** The keys of _reset_keys, in the order the reset loop visits them. */
  const RESET_KEYS: seq<string> := [
    "skip-libadwaita-app", "skip-libhandy-app", "focused-shadow", "unfocused-shadow",
    "border-width", "border-color", "debug-mode"
  ]

  /** The fields of _reset_corners_cfg, in the order the reset loop visits them. */
  const CORNER_KEYS: seq<string> := ["borderRadius", "padding", "keepRoundedCorners", "smoothing"]

  /** Every flag starts off. */
  function AllOff(names: seq<string>): (m: map<string, bool>)
    ensures m.Keys == set n | n in names
    ensures forall n | n in m :: !m[n]
  {
    map n | n in names :: false
  }

  /** The names among `names` whose flag is on. */
  function Flagged(names: seq<string>, flags: map<string, bool>): set<string>
  {
    if names == [] then {}
    else
      var last := names[|names| - 1];
      Flagged(names[..|names| - 1], flags) + (if last in flags && flags[last] then {last} else {})
  }

  lemma {:induction false} FlaggedExactly(names: seq<string>, flags: map<string, bool>, k: string)
    ensures k in Flagged(names, flags) <==> k in names && k in flags && flags[k]
  {
    if names != [] {
      FlaggedExactly(names[..|names| - 1], flags, k);
      assert names == names[..|names| - 1] + [names[|names| - 1]];
    }
  }

  /** The corner settings after the corner loop: each flagged field copied from the defaults. */
  function FlaggedFields(current: RoundedCornerSettings, defaults: RoundedCornerSettings,
                         names: seq<string>, flags: map<string, bool>): RoundedCornerSettings
  {
    if names == [] then current
    else
      var c := FlaggedFields(current, defaults, names[..|names| - 1], flags);
      var last := names[|names| - 1];
      if last in flags && flags[last] then ResetPage.CopyField(c, defaults, last) else c
  }

  /** A flagged corner field takes its default; every other field, borderColor and enabled among them, keeps its value. */
  lemma {:induction false} FlaggedFieldsExactly(current: RoundedCornerSettings, defaults: RoundedCornerSettings,
                                                names: seq<string>, flags: map<string, bool>, f: string)
    ensures f in names && f in flags && flags[f] ==> ResetPage.Agrees(FlaggedFields(current, defaults, names, flags), defaults, f)
    ensures !(f in names && f in flags && flags[f]) ==> ResetPage.Agrees(FlaggedFields(current, defaults, names, flags), current, f)
  {
    if names != [] {
      var init := names[..|names| - 1];
      var last := names[|names| - 1];
      assert names == init + [last];
      FlaggedFieldsExactly(current, defaults, init, flags, f);
      var c := FlaggedFields(current, defaults, init, flags);
      if last in flags && flags[last] {
        ResetPage.CopyFieldExactly(c, defaults, last, f);
      }
    }
  }

  class Page {
    /** The reset flag of each entry of _reset_keys. */
    var keyFlags: map<string, bool>
    /** The reset flag of each entry of _reset_corners_cfg. */
    var cornerFlags: map<string, bool>

    /** Both tables hold exactly their fixed entries. */
    predicate Valid()
      reads this
    {
      keyFlags.Keys == (set n | n in RESET_KEYS) && cornerFlags.Keys == (set n | n in CORNER_KEYS)
    }

    constructor ()
      ensures Valid()
      ensures keyFlags == AllOff(RESET_KEYS) && cornerFlags == AllOff(CORNER_KEYS)
    {
      keyFlags := AllOff(RESET_KEYS);
      cornerFlags := AllOff(CORNER_KEYS);
    }

    /**
     * on_toggled: the corner-field entry of that name takes the switch state;
     * failing that, the top-level entry; an unknown name changes nothing.
     */
    method OnToggled(name: string, active: bool)
      requires Valid()
      modifies this`keyFlags, this`cornerFlags
      ensures Valid()
      ensures name in old(cornerFlags) ==> cornerFlags == old(cornerFlags)[name := active] && keyFlags == old(keyFlags)
      ensures name !in old(cornerFlags) && name in old(keyFlags) ==>
        keyFlags == old(keyFlags)[name := active] && cornerFlags == old(cornerFlags)
      ensures name !in old(cornerFlags) && name !in old(keyFlags) ==>
        keyFlags == old(keyFlags) && cornerFlags == old(cornerFlags)
    {
      if name in cornerFlags {
        cornerFlags := cornerFlags[name := active];
        return;
      }
      if name in keyFlags {
        keyFlags := keyFlags[name := active];
        return;
      }
    }

    /**
     * reset: a 'cancel' response does nothing. Otherwise the flagged keys are
     * reset, the flagged corner fields copied from the defaults into the
     * current global settings, and those are always written back.
     */
    method Reset(response: string, p: Settings.Prefs, current: RoundedCornerSettings, defaults: RoundedCornerSettings)
      requires p.prefs != null
      modifies p.prefs`user
      ensures response == "cancel" ==> p.prefs.user == old(p.prefs.user)
      ensures response != "cancel" ==>
        p.prefs.user == (old(p.prefs.user) - Flagged(RESET_KEYS, keyFlags))[KeyName(GlobalRoundedCornerSettings) :=
          PackRoundedCornerSettings(FlaggedFields(current, defaults, CORNER_KEYS, cornerFlags))]
    {
      if response == "cancel" {
        return;
      }
      for i := 0 to |RESET_KEYS|
        invariant p.prefs.user == old(p.prefs.user) - Flagged(RESET_KEYS[..i], keyFlags)
      {
        var k := RESET_KEYS[i];
        assert RESET_KEYS[..i + 1][..i] == RESET_KEYS[..i];
        if k in keyFlags && keyFlags[k] {
          p.prefs.Reset(k);
          RemoveOneMore(old(p.prefs.user), Flagged(RESET_KEYS[..i], keyFlags), k);
        }
      }
      assert RESET_KEYS[..|RESET_KEYS|] == RESET_KEYS;
      var cfg := current;
      for i := 0 to |CORNER_KEYS|
        invariant cfg == FlaggedFields(current, defaults, CORNER_KEYS[..i], cornerFlags)
      {
        var k := CORNER_KEYS[i];
        assert CORNER_KEYS[..i + 1][..i] == CORNER_KEYS[..i];
        if k in cornerFlags && cornerFlags[k] {
          cfg := ResetPage.CopyField(cfg, defaults, k);
        }
      }
      assert CORNER_KEYS[..|CORNER_KEYS|] == CORNER_KEYS;
      p.SetPref(GlobalRoundedCornerSettings, PCorners(cfg));
    }
  }

  /** With nothing switched on, reset only rewrites the current global settings. */
  lemma NothingFlaggedResetsNothing(current: RoundedCornerSettings, defaults: RoundedCornerSettings)
    ensures Flagged(RESET_KEYS, AllOff(RESET_KEYS)) == {}
    ensures FlaggedFields(current, defaults, CORNER_KEYS, AllOff(CORNER_KEYS)) == current
  {
    forall k | true
      ensures k !in Flagged(RESET_KEYS, AllOff(RESET_KEYS))
    {
      FlaggedExactly(RESET_KEYS, AllOff(RESET_KEYS), k);
    }
    UnflaggedFieldsKept(current, defaults, CORNER_KEYS, AllOff(CORNER_KEYS));
  }

  lemma {:induction false} UnflaggedFieldsKept(current: RoundedCornerSettings, defaults: RoundedCornerSettings,
                                               names: seq<string>, flags: map<string, bool>)
    requires forall n | n in flags :: !flags[n]
    ensures FlaggedFields(current, defaults, names, flags) == current
  {
    if names != [] {
      UnflaggedFieldsKept(current, defaults, names[..|names| - 1], flags);
    }
  }
}
