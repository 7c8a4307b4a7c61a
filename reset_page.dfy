// The reset page (preferences/pages/reset.ts): a switch per resettable
// preference; the switched-on names are collected in order, and on
// confirmation the top-level keys among them are reset and the corner
// fields among them take their default values in the global settings.
module ResetPage {
  import opened Wrappers
  import opened Types
  import opened Settings
  import opened JsArray

  /** #resetLabels: the top-level keys, then the fields of the global corner settings. */
  const LABELS: seq<(string, string)> := [
    ("skip-libadwaita-app", "Skip LibAdwaita Applications"),
    ("skip-libhandy-app", "Skip LibHandy Applications"),
    ("focused-shadow", "Focus Window Shadow Style"),
    ("unfocused-shadow", "Unfocus Window Shadow Style"),
    ("border-width", "Border Width"),
    ("debug-mode", "Enable Log"),
    ("borderRadius", "Border Radius"),
    ("borderColor", "Border Color"),
    ("padding", "Padding"),
    ("keepRoundedCorners", "Keep Rounded Corners when Maximized or Fullscreen"),
    ("smoothing", "Corner Smoothing")
  ]

  /** The table has six schema keys and five corner fields; only `enabled` of the corner fields is missing. */
  lemma LabelTable()
    ensures |LABELS| == 11
    ensures forall i | 0 <= i < 6 :: ParseKey(LABELS[i].0).Some?
    ensures forall i | 6 <= i < 11 :: ParseKey(LABELS[i].0).None? && LABELS[i].0 in CORNER_FIELDS
    ensures CORNER_FIELDS - (set i | 6 <= i < 11 :: LABELS[i].0) == {"enabled"}
  {
    var fields := set i | 6 <= i < 11 :: LABELS[i].0;
    assert fields == {"borderRadius", "borderColor", "padding", "keepRoundedCorners", "smoothing"} by {
      assert LABELS[6].0 in fields && LABELS[7].0 in fields && LABELS[8].0 in fields;
      assert LABELS[9].0 in fields && LABELS[10].0 in fields;
    }
  }

  /**
   * `current[name] = defaults[name]`: the named field takes its default
   * value. Any other name only adds a property the packer never reads.
   */
  function CopyField(current: RoundedCornerSettings, defaults: RoundedCornerSettings, name: string): (r: RoundedCornerSettings)
    ensures Agrees(r, defaults, name)
    ensures forall f | f != name :: Agrees(r, current, f)
  {
    if name == "padding" then current.(padding := defaults.padding)
    else if name == "keepRoundedCorners" then current.(keepRoundedCorners := defaults.keepRoundedCorners)
    else if name == "borderRadius" then current.(borderRadius := defaults.borderRadius)
    else if name == "smoothing" then current.(smoothing := defaults.smoothing)
    else if name == "borderColor" then current.(borderColor := defaults.borderColor)
    else if name == "enabled" then current.(enabled := defaults.enabled)
    else current
  }

  /** a and b agree on the field the name gives. */
  predicate Agrees(a: RoundedCornerSettings, b: RoundedCornerSettings, name: string)
  {
    && (name == "padding" ==> a.padding == b.padding)
    && (name == "keepRoundedCorners" ==> a.keepRoundedCorners == b.keepRoundedCorners)
    && (name == "borderRadius" ==> a.borderRadius == b.borderRadius)
    && (name == "smoothing" ==> a.smoothing == b.smoothing)
    && (name == "borderColor" ==> a.borderColor == b.borderColor)
    && (name == "enabled" ==> a.enabled == b.enabled)
  }

  /** Copying a field sets that field to its default and keeps every other one. */
  lemma CopyFieldExactly(current: RoundedCornerSettings, defaults: RoundedCornerSettings, name: string, f: string)
    ensures Agrees(CopyField(current, defaults, name), defaults, name)
    ensures f != name ==> Agrees(CopyField(current, defaults, name), current, f)
  {
  }

  /** The selected names that are schema keys: the ones prefs.reset is called on. */
  function TopKeys(selected: seq<string>): (r: set<string>)
    ensures forall k | k in r :: ParseKey(k).Some?
  {
    if selected == [] then {}
    else
      var last := selected[|selected| - 1];
      TopKeys(selected[..|selected| - 1]) + (if ParseKey(last).Some? then {last} else {})
  }

  lemma {:induction false} TopKeysExactly(selected: seq<string>, k: string)
    ensures k in TopKeys(selected) <==> k in selected && ParseKey(k).Some?
  {
    if selected != [] {
      TopKeysExactly(selected[..|selected| - 1], k);
      assert selected == selected[..|selected| - 1] + [selected[|selected| - 1]];
    }
  }

  /** The corner settings after the loop: each selected name that is not a schema key copied from the defaults, in order. */
  function ResetFields(current: RoundedCornerSettings, defaults: RoundedCornerSettings, selected: seq<string>): (r: RoundedCornerSettings)
    ensures forall f | f !in selected :: Agrees(r, current, f)
  {
    if selected == [] then current
    else
      var c := ResetFields(current, defaults, selected[..|selected| - 1]);
      var name := selected[|selected| - 1];
      assert forall f | f !in selected :: f !in selected[..|selected| - 1] && f != name by {
        assert selected == selected[..|selected| - 1] + [name];
      }
      if ParseKey(name).Some? then c else CopyField(c, defaults, name)
  }

  /** A selected corner field takes its default; an unselected one keeps its current value. */
  lemma {:induction false} ResetFieldsExactly(current: RoundedCornerSettings, defaults: RoundedCornerSettings,
                                              selected: seq<string>, f: string)
    requires f in CORNER_FIELDS
    ensures f in selected ==> Agrees(ResetFields(current, defaults, selected), defaults, f)
    ensures f !in selected ==> Agrees(ResetFields(current, defaults, selected), current, f)
  {
    if selected != [] {
      var init := selected[..|selected| - 1];
      var name := selected[|selected| - 1];
      assert selected == init + [name];
      ResetFieldsExactly(current, defaults, init, f);
      var c := ResetFields(current, defaults, init);
      CornerFieldsAreNotKeys(f);
      if ParseKey(name).None? {
        CopyFieldExactly(c, defaults, name, f);
      }
    }
  }

  /** One more selected name: a schema key joins the reset keys, any other name copies its field. */
  lemma SelectedStep(current: RoundedCornerSettings, defaults: RoundedCornerSettings, selected: seq<string>, i: nat)
    requires i < |selected|
    ensures TopKeys(selected[..i + 1]) == TopKeys(selected[..i]) + (if ParseKey(selected[i]).Some? then {selected[i]} else {})
    ensures ResetFields(current, defaults, selected[..i + 1])
      == (if ParseKey(selected[i]).Some? then ResetFields(current, defaults, selected[..i])
          else CopyField(ResetFields(current, defaults, selected[..i]), defaults, selected[i]))
  {
    assert selected[..i + 1][..i] == selected[..i];
  }

  lemma CornerFieldsAreNotKeys(f: string)
    requires f in CORNER_FIELDS
    ensures ParseKey(f).None?
  {
  }

  class Page {
    /** #resetPrefs: the names switched on, in the order they were switched on. */
    var resetPrefs: seq<string>

    constructor ()
      ensures resetPrefs == []
    {
      resetPrefs := [];
    }

    /** #onToggled: switching on appends the row's name, switching off removes every occurrence of it. */
    method OnToggled(name: string, active: bool)
      modifies this`resetPrefs
      ensures active ==> resetPrefs == old(resetPrefs) + [name]
      ensures !active ==> resetPrefs == Without(old(resetPrefs), name)
    {
      if active {
        resetPrefs := resetPrefs + [name];
      } else {
        resetPrefs := Without(resetPrefs, name);
      }
    }

    /**
     * reset: a 'cancel' response does nothing. Otherwise the selected schema
     * keys are reset, the selected corner fields copied from the defaults
     * into the current global settings, and those are written back, whether
     * or not a corner field was selected.
     */
    method Reset(response: string, p: Settings.Prefs, current: RoundedCornerSettings, defaults: RoundedCornerSettings)
      requires p.prefs != null
      modifies p.prefs`user
      ensures response == "cancel" ==> p.prefs.user == old(p.prefs.user)
      ensures response != "cancel" ==>
        p.prefs.user == (old(p.prefs.user) - TopKeys(resetPrefs))[KeyName(GlobalRoundedCornerSettings) :=
          PackRoundedCornerSettings(ResetFields(current, defaults, resetPrefs))]
    {
      if response == "cancel" {
        return;
      }
      var cfg := ResetSelected(p, current, defaults);
      p.SetPref(GlobalRoundedCornerSettings, PCorners(cfg));
    }

    /** The loop of reset: each selected name is a key reset in the store or a field copied from the defaults. */
    method ResetSelected(p: Settings.Prefs, current: RoundedCornerSettings, defaults: RoundedCornerSettings)
      returns (cfg: RoundedCornerSettings)
      requires p.prefs != null
      modifies p.prefs`user
      ensures p.prefs.user == old(p.prefs.user) - TopKeys(resetPrefs)
      ensures cfg == ResetFields(current, defaults, resetPrefs)
    {
      cfg := current;
      for i := 0 to |resetPrefs|
        invariant p.prefs.user == old(p.prefs.user) - TopKeys(resetPrefs[..i])
        invariant cfg == ResetFields(current, defaults, resetPrefs[..i])
      {
        var key := resetPrefs[i];
        SelectedStep(current, defaults, resetPrefs, i);
        if ParseKey(key).Some? {
          p.prefs.Reset(key);
          RemoveOneMore(old(p.prefs.user), TopKeys(resetPrefs[..i]), key);
        } else {
          cfg := CopyField(cfg, defaults, key);
        }
      }
      assert resetPrefs[..|resetPrefs|] == resetPrefs;
    }
  }
}
