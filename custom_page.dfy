// The custom-override page (preferences/pages/custom.ts): per-window-class
// corner settings, one row per class, renamed through the row's class entry
// and written back with setPref after every edit.
module CustomPage {
  import opened Wrappers
  import opened Types
  import opened Settings
  import opened JsArray
  import opened AppRow

  /** The toast shown when the new class has an override already. */
  function DuplicateToast(wmClass: string): string
  {
    "Can't add " + wmClass + " to the list, because it already there"
  }

  /**
   * The overrides after a successful #changeWindow: a new row's class starts
   * from the global settings; otherwise the old class's override moves to the
   * new class.
   */
  function Renamed(m: map<string, RoundedCornerSettings>, oldClass: string, newClass: string,
                   global: RoundedCornerSettings): (r: map<string, RoundedCornerSettings>)
    requires oldClass == "" || oldClass in m
    ensures r.Keys == (if oldClass == "" then m.Keys else m.Keys - {oldClass}) + {newClass}
    ensures r[newClass] == if oldClass == "" then global else m[oldClass]
  {
    if oldClass == "" then m[newClass := global] else (m - {oldClass})[newClass := m[oldClass]]
  }

  /** A rename moves the override: the old class is gone, the new one holds it, the rest is untouched, the size kept. */
  lemma RenameMovesOverride(m: map<string, RoundedCornerSettings>, oldClass: string, newClass: string,
                            global: RoundedCornerSettings)
    requires oldClass != "" && oldClass in m && newClass !in m
    ensures var r := Renamed(m, oldClass, newClass, global);
      && oldClass !in r && newClass in r && r[newClass] == m[oldClass]
      && (forall c | c in m && c != oldClass :: c in r && r[c] == m[c])
      && (forall c | c in r && c != newClass :: c in m)
      && |r| == |m|
  {
    var r := Renamed(m, oldClass, newClass, global);
    assert r.Keys == m.Keys - {oldClass} + {newClass};
    assert |m.Keys - {oldClass}| == |m.Keys| - 1;
  }

  /** A new row's class gets a copy of the global settings and the map gains that one key. */
  lemma NewClassStartsFromGlobal(m: map<string, RoundedCornerSettings>, newClass: string, global: RoundedCornerSettings)
    requires newClass !in m
    ensures var r := Renamed(m, "", newClass, global);
      && r[newClass] == global && r.Keys == m.Keys + {newClass} && |r| == |m| + 1
      && (forall c | c in m :: r[c] == m[c])
  {
  }

  /** A field of an override a row widget edits, with its new value. */
  datatype FieldValue =
    | Enabled(on: bool)
    | BorderColor(color: Color)
    | BorderRadius(radius: real)
    | Smoothing(smoothing: real)
    | KeepForMaximized(keepMaximized: bool)
    | KeepForFullscreen(keepFullscreen: bool)
    | PaddingTop(top: real)
    | PaddingBottom(bottom: real)
    | PaddingStart(left: real)
    | PaddingEnd(right: real)

  datatype Field =
    | FEnabled | FBorderColor | FBorderRadius | FSmoothing | FKeepForMaximized | FKeepForFullscreen
    | FPaddingTop | FPaddingBottom | FPaddingStart | FPaddingEnd

  function FieldOf(v: FieldValue): Field
  {
    match v
    case Enabled(_) => FEnabled
    case BorderColor(_) => FBorderColor
    case BorderRadius(_) => FBorderRadius
    case Smoothing(_) => FSmoothing
    case KeepForMaximized(_) => FKeepForMaximized
    case KeepForFullscreen(_) => FKeepForFullscreen
    case PaddingTop(_) => FPaddingTop
    case PaddingBottom(_) => FPaddingBottom
    case PaddingStart(_) => FPaddingStart
    case PaddingEnd(_) => FPaddingEnd
  }

  /** What a row widget shows for a field of an override. */
  function Read(c: RoundedCornerSettings, f: Field): (v: FieldValue)
    ensures FieldOf(v) == f
  {
    match f
    case FEnabled => Enabled(c.enabled)
    case FBorderColor => BorderColor(c.borderColor)
    case FBorderRadius => BorderRadius(c.borderRadius)
    case FSmoothing => Smoothing(c.smoothing)
    case FKeepForMaximized => KeepForMaximized(c.keepRoundedCorners.maximized)
    case FKeepForFullscreen => KeepForFullscreen(c.keepRoundedCorners.fullscreen)
    case FPaddingTop => PaddingTop(c.padding.top)
    case FPaddingBottom => PaddingBottom(c.padding.bottom)
    case FPaddingStart => PaddingStart(c.padding.left)
    case FPaddingEnd => PaddingEnd(c.padding.right)
  }

  /** The assignment a widget handler makes: exactly one field takes the widget's value. */
  function Write(c: RoundedCornerSettings, v: FieldValue): (r: RoundedCornerSettings)
    ensures Read(r, FieldOf(v)) == v
    ensures forall f | f != FieldOf(v) :: Read(r, f) == Read(c, f)
  {
    match v
    case Enabled(b) => c.(enabled := b)
    case BorderColor(col) => c.(borderColor := col)
    case BorderRadius(x) => c.(borderRadius := x)
    case Smoothing(x) => c.(smoothing := x)
    case KeepForMaximized(b) => c.(keepRoundedCorners := c.keepRoundedCorners.(maximized := b))
    case KeepForFullscreen(b) => c.(keepRoundedCorners := c.keepRoundedCorners.(fullscreen := b))
    case PaddingTop(x) => c.(padding := c.padding.(top := x))
    case PaddingBottom(x) => c.(padding := c.padding.(bottom := x))
    case PaddingStart(x) => c.(padding := c.padding.(left := x))
    case PaddingEnd(x) => c.(padding := c.padding.(right := x))
  }

  /** The ten widgets cover the override: two overrides that show alike on every one are equal. */
  lemma FieldsDetermineOverride(a: RoundedCornerSettings, b: RoundedCornerSettings)
    requires forall f :: Read(a, f) == Read(b, f)
    ensures a == b
  {
    assert Read(a, FEnabled) == Read(b, FEnabled);
    assert Read(a, FBorderColor) == Read(b, FBorderColor);
    assert Read(a, FBorderRadius) == Read(b, FBorderRadius);
    assert Read(a, FSmoothing) == Read(b, FSmoothing);
    assert Read(a, FKeepForMaximized) == Read(b, FKeepForMaximized);
    assert Read(a, FKeepForFullscreen) == Read(b, FKeepForFullscreen);
    assert Read(a, FPaddingTop) == Read(b, FPaddingTop);
    assert Read(a, FPaddingBottom) == Read(b, FPaddingBottom);
    assert Read(a, FPaddingStart) == Read(b, FPaddingStart);
    assert Read(a, FPaddingEnd) == Read(b, FPaddingEnd);
  }

  /** Writing back what a widget shows changes nothing. */
  lemma WriteOfReadIsIdentity(c: RoundedCornerSettings, f: Field)
    ensures Write(c, Read(c, f)) == c
  {
    FieldsDetermineOverride(Write(c, Read(c, f)), c);
  }

  /** A row of the page: an app row that also shows one override's values in its widgets. */
  class SettingsRow {
    const app: Row
    /** The values #bindRowSettings last loaded into the widgets, if any. */
    var shown: Option<RoundedCornerSettings>

    constructor (app: Row)
      ensures this.app == app && shown == None
    {
      this.app := app;
      shown := None;
    }
  }

  class Page {
    /** #customWindowSettings: the page's copy of the custom-rounded-corner-settings. */
    var overrides: map<string, RoundedCornerSettings>
    /** The rows of the custom group. */
    var rows: seq<SettingsRow>

    constructor (overrides: map<string, RoundedCornerSettings>)
      ensures this.overrides == overrides && rows == []
    {
      this.overrides := overrides;
      rows := [];
    }

    /** #deleteWindowConfig: the key equal to the row's subtitle goes, the map is written back, the row removed. */
    method DeleteWindowConfig(p: Settings.Prefs, row: SettingsRow)
      requires p.prefs != null
      modifies this`overrides, this`rows, p.prefs`user
      ensures overrides == old(overrides) - {row.app.subtitle}
      ensures rows == Without(old(rows), row)
      ensures p.prefs.user == old(p.prefs.user)[KeyName(CustomRoundedCornerSettings) := PackFor(CustomRoundedCornerSettings, PCustom(overrides))]
    {
      overrides := overrides - {row.app.subtitle};
      p.SetPref(CustomRoundedCornerSettings, PCustom(overrides));
      rows := Without(rows, row);
    }

    /**
     * #changeWindow: rejects a class that has an override already; otherwise
     * creates or moves the override, loads it into the row and writes the map
     * back. The old class is '' or one that has an override (the rows are
     * made for the map's keys and renamed only through here).
     */
    method ChangeWindow(p: Settings.Prefs, row: SettingsRow, oldClass: string, newClass: string, global: RoundedCornerSettings)
      returns (ok: bool, toast: Option<string>)
      requires p.prefs != null
      requires oldClass == "" || oldClass in overrides
      modifies this`overrides, row`shown, p.prefs`user
      ensures ok <==> newClass !in old(overrides)
      ensures !ok ==> (
        && overrides == old(overrides) && row.shown == old(row.shown) && p.prefs.user == old(p.prefs.user)
        && toast == Some(DuplicateToast(newClass)))
      ensures ok ==> (
        && overrides == Renamed(old(overrides), oldClass, newClass, global)
        && newClass in overrides && row.shown == Some(overrides[newClass]) && toast == None
        && p.prefs.user == old(p.prefs.user)[KeyName(CustomRoundedCornerSettings) := PackFor(CustomRoundedCornerSettings, PCustom(overrides))])
    {
      if newClass in overrides {
        return false, Some(DuplicateToast(newClass));
      }
      if oldClass == "" {
        overrides := overrides[newClass := global];
      } else {
        var cfg := overrides[oldClass];
        overrides := overrides - {oldClass};
        overrides := overrides[newClass := cfg];
      }
      BindRowSettings(row, newClass);
      p.SetPref(CustomRoundedCornerSettings, PCustom(overrides));
      return true, None;
    }

    /** #bindRowSettings: the row's widgets are set from the class's override. */
    method BindRowSettings(row: SettingsRow, wmClass: string)
      requires wmClass in overrides
      modifies row`shown
      ensures row.shown == Some(overrides[wmClass])
    {
      row.shown := Some(overrides[wmClass]);
    }

    /** A widget handler bound to a class: writes its one field of that class's override, then the map. */
    method OnFieldChanged(p: Settings.Prefs, wmClass: string, v: FieldValue)
      requires p.prefs != null && wmClass in overrides
      modifies this`overrides, p.prefs`user
      ensures overrides == old(overrides)[wmClass := Write(old(overrides)[wmClass], v)]
      ensures p.prefs.user == old(p.prefs.user)[KeyName(CustomRoundedCornerSettings) := PackFor(CustomRoundedCornerSettings, PCustom(overrides))]
    {
      overrides := overrides[wmClass := Write(overrides[wmClass], v)];
      p.SetPref(CustomRoundedCornerSettings, PCustom(overrides));
    }

    /** The row's apply button: onTitleChange hands (subtitle, entry) to #changeWindow. */
    method OnApply(p: Settings.Prefs, row: SettingsRow, global: RoundedCornerSettings) returns (toast: Option<string>)
      requires p.prefs != null
      requires row.app.subtitle == "" || row.app.subtitle in overrides
      modifies this`overrides, row`shown, row.app`subtitle, row.app`entryText, p.prefs`user
      ensures old(row.app.TitleChange()).None? ==> (
        && overrides == old(overrides) && p.prefs.user == old(p.prefs.user) && row.shown == old(row.shown)
        && row.app.subtitle == old(row.app.subtitle) && row.app.entryText == old(row.app.entryText) && toast == None)
      ensures old(row.app.TitleChange()).Some? && old(row.app.entryText) in old(overrides) ==> (
        && overrides == old(overrides) && p.prefs.user == old(p.prefs.user) && row.shown == old(row.shown)
        && row.app.subtitle == old(row.app.subtitle) && row.app.entryText == old(row.app.entryText)
        && toast == Some(DuplicateToast(old(row.app.entryText))))
      ensures old(row.app.TitleChange()).Some? && old(row.app.entryText) !in old(overrides) ==> (
        && overrides == Renamed(old(overrides), old(row.app.subtitle), old(row.app.entryText), global)
        && row.app.subtitle == old(row.app.entryText) && row.app.entryText == old(row.app.entryText)
        && row.app.subtitle in overrides && row.shown == Some(overrides[row.app.subtitle])
        && p.prefs.user == old(p.prefs.user)[KeyName(CustomRoundedCornerSettings) := PackFor(CustomRoundedCornerSettings, PCustom(overrides))]
        && toast == None)
    {
      var request := row.app.TitleChange();
      toast := None;
      if request.Some? {
        var ok;
        ok, toast := ChangeWindow(p, row, request.value.0, request.value.1, global);
        row.app.FinishTitleChange(ok);
      }
    }
  }
}
