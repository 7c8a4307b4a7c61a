// The settings layer (utils/settings.ts): the schema's keys and variant
// types, packing of values into variants, the one-time migration of
// outdated stored settings, and the module's settings object.
module Settings {
  import opened Wrappers
  import opened Types

  /** A stored GLib variant; leaves keep the number given to them, typed by their slot. */
  datatype Variant =
    | VU32(n: real)
    | VI32(n: real)
    | VDouble(n: real)
    | VBool(b: bool)
    | VStrings(ss: seq<string>)
    | VDict(sig: string, entries: map<string, Variant>)
    | VTuple(sig: string, items: seq<Variant>)

  /** The schema's keys. */
  datatype SchemaKey =
    | SettingsVersion | Blacklist | Whitelist | SkipLibadwaitaApp | SkipLibhandyApp | BorderWidth
    | GlobalRoundedCornerSettings | CustomRoundedCornerSettings | FocusedShadow | UnfocusedShadow
    | DebugMode | TweakKittyTerminal | EnablePreferencesEntry

  function KeyName(k: SchemaKey): string
  {
    match k
    case SettingsVersion => "settings-version"
    case Blacklist => "blacklist"
    case Whitelist => "whitelist"
    case SkipLibadwaitaApp => "skip-libadwaita-app"
    case SkipLibhandyApp => "skip-libhandy-app"
    case BorderWidth => "border-width"
    case GlobalRoundedCornerSettings => "global-rounded-corner-settings"
    case CustomRoundedCornerSettings => "custom-rounded-corner-settings"
    case FocusedShadow => "focused-shadow"
    case UnfocusedShadow => "unfocused-shadow"
    case DebugMode => "debug-mode"
    case TweakKittyTerminal => "tweak-kitty-terminal"
    case EnablePreferencesEntry => "enable-preferences-entry"
  }

  const ALL_KEYS: seq<SchemaKey> := [
    SettingsVersion, Blacklist, Whitelist, SkipLibadwaitaApp, SkipLibhandyApp, BorderWidth,
    GlobalRoundedCornerSettings, CustomRoundedCornerSettings, FocusedShadow, UnfocusedShadow,
    DebugMode, TweakKittyTerminal, EnablePreferencesEntry
  ]

  /** The Schema type-string table: its entry for each key. */
  function SchemaType(k: SchemaKey): string
  {
    match k
    case SettingsVersion => "u"
    case Blacklist => "as"
    case Whitelist => "b"
    case SkipLibadwaitaApp => "b"
    case SkipLibhandyApp => "b"
    case BorderWidth => "i"
    case GlobalRoundedCornerSettings => "a{sv}"
    case CustomRoundedCornerSettings => "a{sv}"
    case FocusedShadow => "a{si}"
    case UnfocusedShadow => "a{si}"
    case DebugMode => "b"
    case TweakKittyTerminal => "b"
    case EnablePreferencesEntry => "b"
  }

  /** The key named by a string, if any. */
  function ParseKey(s: string): (r: Option<SchemaKey>)
    ensures r.Some? ==> KeyName(r.value) == s
  {
    if s == "settings-version" then Some(SettingsVersion)
    else if s == "blacklist" then Some(Blacklist)
    else if s == "whitelist" then Some(Whitelist)
    else if s == "skip-libadwaita-app" then Some(SkipLibadwaitaApp)
    else if s == "skip-libhandy-app" then Some(SkipLibhandyApp)
    else if s == "border-width" then Some(BorderWidth)
    else if s == "global-rounded-corner-settings" then Some(GlobalRoundedCornerSettings)
    else if s == "custom-rounded-corner-settings" then Some(CustomRoundedCornerSettings)
    else if s == "focused-shadow" then Some(FocusedShadow)
    else if s == "unfocused-shadow" then Some(UnfocusedShadow)
    else if s == "debug-mode" then Some(DebugMode)
    else if s == "tweak-kitty-terminal" then Some(TweakKittyTerminal)
    else if s == "enable-preferences-entry" then Some(EnablePreferencesEntry)
    else None
  }

  /** The thirteen key names are distinct and every one of them is read back as its key. */
  lemma KeyNamesParse(k: SchemaKey)
    ensures ParseKey(KeyName(k)) == Some(k)
    ensures k in ALL_KEYS
  {
  }

  /** The type table covers the whole key list of distinct keys, and only the two corner keys have type a{sv}. */
  lemma SchemaTypesComplete()
    ensures |ALL_KEYS| == 13
    ensures forall i, j | 0 <= i < j < |ALL_KEYS| :: ALL_KEYS[i] != ALL_KEYS[j]
    ensures forall k :: SchemaType(k) == "a{sv}" <==> k in {GlobalRoundedCornerSettings, CustomRoundedCornerSettings}
  {
  }

  const CORNER_FIELDS: set<string> := {"padding", "keepRoundedCorners", "borderRadius", "smoothing", "borderColor", "enabled"}

  function PackPadding(p: Padding): Variant
  {
    VDict("a{su}", map["left" := VU32(p.left), "right" := VU32(p.right), "top" := VU32(p.top), "bottom" := VU32(p.bottom)])
  }

  function PackKeep(k: KeepRoundedCorners): Variant
  {
    VDict("a{sb}", map["maximized" := VBool(k.maximized), "fullscreen" := VBool(k.fullscreen)])
  }

  function PackColor(c: Color): Variant
  {
    VTuple("(dddd)", [VDouble(c.r), VDouble(c.g), VDouble(c.b), VDouble(c.a)])
  }

  /** packRoundedCornerSettings: each field packed into its own variant type, then the whole as a{sv}. */
  function PackRoundedCornerSettings(s: RoundedCornerSettings): (v: Variant)
    ensures v.VDict? && v.sig == "a{sv}" && v.entries.Keys == CORNER_FIELDS
  {
    VDict("a{sv}", map[
      "padding" := PackPadding(s.padding),
      "keepRoundedCorners" := PackKeep(s.keepRoundedCorners),
      "borderRadius" := VU32(s.borderRadius),
      "smoothing" := VDouble(s.smoothing),
      "borderColor" := PackColor(s.borderColor),
      "enabled" := VBool(s.enabled)])
  }

  function U32(v: Variant): Option<real>
  {
    if v.VU32? then Some(v.n) else None
  }

  function Dbl(v: Variant): Option<real>
  {
    if v.VDouble? then Some(v.n) else None
  }

  function Bool(v: Variant): Option<bool>
  {
    if v.VBool? then Some(v.b) else None
  }

  function UnpackPadding(v: Variant): Option<Padding>
  {
    if v.VDict? && v.sig == "a{su}" && v.entries.Keys == {"left", "right", "top", "bottom"}
       && U32(v.entries["left"]).Some? && U32(v.entries["right"]).Some?
       && U32(v.entries["top"]).Some? && U32(v.entries["bottom"]).Some?
    then Some(Padding(v.entries["left"].n, v.entries["right"].n, v.entries["top"].n, v.entries["bottom"].n))
    else None
  }

  function UnpackKeep(v: Variant): Option<KeepRoundedCorners>
  {
    if v.VDict? && v.sig == "a{sb}" && v.entries.Keys == {"maximized", "fullscreen"}
       && Bool(v.entries["maximized"]).Some? && Bool(v.entries["fullscreen"]).Some?
    then Some(KeepRoundedCorners(v.entries["maximized"].b, v.entries["fullscreen"].b))
    else None
  }

  function UnpackColor(v: Variant): Option<Color>
  {
    if v.VTuple? && v.sig == "(dddd)" && |v.items| == 4
       && Dbl(v.items[0]).Some? && Dbl(v.items[1]).Some? && Dbl(v.items[2]).Some? && Dbl(v.items[3]).Some?
    then Some(Color(v.items[0].n, v.items[1].n, v.items[2].n, v.items[3].n))
    else None
  }

  /** recursiveUnpack of a stored corner-settings variant, checked against its packed shape. */
  function UnpackRoundedCornerSettings(v: Variant): (r: Option<RoundedCornerSettings>)
    ensures r.Some? ==> v.VDict? && v.sig == "a{sv}" && v.entries.Keys == CORNER_FIELDS
  {
    if v.VDict? && v.sig == "a{sv}" && v.entries.Keys == CORNER_FIELDS
       && UnpackPadding(v.entries["padding"]).Some? && UnpackKeep(v.entries["keepRoundedCorners"]).Some?
       && U32(v.entries["borderRadius"]).Some? && Dbl(v.entries["smoothing"]).Some?
       && UnpackColor(v.entries["borderColor"]).Some? && Bool(v.entries["enabled"]).Some?
    then Some(RoundedCornerSettings(UnpackKeep(v.entries["keepRoundedCorners"]).value, v.entries["borderRadius"].n,
      v.entries["smoothing"].n, UnpackPadding(v.entries["padding"]).value,
      UnpackColor(v.entries["borderColor"]).value, v.entries["enabled"].b))
    else None
  }

  /** Unpacking a packed corner settings gives them back. */
  lemma CornerSettingsRoundTrip(s: RoundedCornerSettings)
    ensures UnpackRoundedCornerSettings(PackRoundedCornerSettings(s)) == Some(s)
  {
    var v := PackRoundedCornerSettings(s);
    assert UnpackPadding(v.entries["padding"]) == Some(s.padding);
    assert UnpackKeep(v.entries["keepRoundedCorners"]) == Some(s.keepRoundedCorners);
    assert UnpackColor(v.entries["borderColor"]) == Some(s.borderColor);
  }

  /** Every variant that unpacks is exactly the packing of what it unpacks to. */
  lemma CornerSettingsPackOfUnpack(v: Variant)
    requires UnpackRoundedCornerSettings(v).Some?
    ensures PackRoundedCornerSettings(UnpackRoundedCornerSettings(v).value) == v
  {
    var s := UnpackRoundedCornerSettings(v).value;
    var p := PackRoundedCornerSettings(s);
    var pad, keep, color := v.entries["padding"], v.entries["keepRoundedCorners"], v.entries["borderColor"];
    assert p.entries["padding"] == pad by {
      assert p.entries["padding"].entries == pad.entries;
    }
    assert p.entries["keepRoundedCorners"] == keep by {
      assert p.entries["keepRoundedCorners"].entries == keep.entries;
    }
    assert p.entries["borderColor"] == color by {
      assert p.entries["borderColor"].items == color.items;
    }
    assert p.entries == v.entries;
  }

  /** packCustomRoundedCornerSettings: one packed corner-settings entry per window class. */
  method PackCustomRoundedCornerSettings(settings: map<string, RoundedCornerSettings>) returns (v: Variant)
    ensures v == VDict("a{sv}", map c | c in settings :: PackRoundedCornerSettings(settings[c]))
  {
    var packed: map<string, Variant> := map[];
    var rest := settings.Keys;
    while rest != {}
      invariant rest <= settings.Keys
      invariant packed.Keys == settings.Keys - rest
      invariant forall c | c in packed :: packed[c] == PackRoundedCornerSettings(settings[c])
      decreases |rest|
    {
      var c :| c in rest;
      packed := packed[c := PackRoundedCornerSettings(settings[c])];
      rest := rest - {c};
    }
    PackedIsComprehension(settings, packed);
    v := VDict("a{sv}", packed);
  }

  /** A map holding the packing of every class, and nothing else, is the packing comprehension. */
  lemma PackedIsComprehension(settings: map<string, RoundedCornerSettings>, packed: map<string, Variant>)
    requires packed.Keys == settings.Keys
    requires forall c | c in packed :: packed[c] == PackRoundedCornerSettings(settings[c])
    ensures packed == map c | c in settings :: PackRoundedCornerSettings(settings[c])
  {
  }

  /** The custom packing keeps the class set, and each class's settings read back unchanged. */
  lemma CustomPackingKeepsClasses(settings: map<string, RoundedCornerSettings>, c: string)
    ensures (map k | k in settings :: PackRoundedCornerSettings(settings[k])).Keys == settings.Keys
    ensures c in settings ==>
      UnpackRoundedCornerSettings((map k | k in settings :: PackRoundedCornerSettings(settings[k]))[c]) == Some(settings[c])
  {
    if c in settings {
      CornerSettingsRoundTrip(settings[c]);
    }
  }

  /** The JavaScript value given for a key, of the key's Schema type. */
  datatype PrefValue =
    | PNumber(n: real)
    | PStrings(ss: seq<string>)
    | PBool(b: bool)
    | PCorners(corners: RoundedCornerSettings)
    | PCustom(custom: map<string, RoundedCornerSettings>)
    | PShadow(shadow: BoxShadow)

  /** The value has the JavaScript type the Schema gives its key. */
  predicate Fits(k: SchemaKey, v: PrefValue)
  {
    match SchemaType(k)
    case "u" => v.PNumber?
    case "i" => v.PNumber?
    case "b" => v.PBool?
    case "as" => v.PStrings?
    case "a{si}" => v.PShadow?
    case _ => if k == GlobalRoundedCornerSettings then v.PCorners? else v.PCustom?
  }

  /** `new GLib.Variant(type, value)` for the types that reach it. */
  function PackByType(t: string, v: PrefValue): Variant
  {
    match v
    case PNumber(n) => if t == "u" then VU32(n) else VI32(n)
    case PBool(b) => VBool(b)
    case PStrings(ss) => VStrings(ss)
    case PShadow(s) => VDict("a{si}", map["opacity" := VI32(s.opacity), "spreadRadius" := VI32(s.spreadRadius),
      "blurOffset" := VI32(s.blurOffset), "verticalOffset" := VI32(s.verticalOffset),
      "horizontalOffset" := VI32(s.horizontalOffset)])
    case PCorners(c) => PackRoundedCornerSettings(c)
    case PCustom(m) => VDict("a{sv}", map c | c in m :: PackRoundedCornerSettings(m[c]))
  }

  /** The setPref dispatch: the two corner keys use the custom packers, all others their Schema type. */
  function PackFor(k: SchemaKey, v: PrefValue): (r: Variant)
    requires Fits(k, v)
    ensures k == GlobalRoundedCornerSettings ==> r == PackRoundedCornerSettings(v.corners)
    ensures k == CustomRoundedCornerSettings ==> r == VDict("a{sv}", map c | c in v.custom :: PackRoundedCornerSettings(v.custom[c]))
    ensures k !in {GlobalRoundedCornerSettings, CustomRoundedCornerSettings} ==> r == PackByType(SchemaType(k), v)
  {
    if k == GlobalRoundedCornerSettings then PackRoundedCornerSettings(v.corners)
    else if k == CustomRoundedCornerSettings then VDict("a{sv}", map c | c in v.custom :: PackRoundedCornerSettings(v.custom[c]))
    else PackByType(SchemaType(k), v)
  }

  /** Numbers land in a slot of the key's declared width: unsigned for the version, signed for the border width. */
  lemma NumbersTypedBySchema(k: SchemaKey, n: real)
    requires Fits(k, PNumber(n))
    ensures PackFor(k, PNumber(n)) == if k == SettingsVersion then VU32(n) else VI32(n)
    ensures k in {SettingsVersion, BorderWidth}
  {
  }

  const LAST_VERSION: real := 7.0

  /** The stored version: the user value of settings-version, if set. */
  function StoredVersion(user: map<string, Variant>): Option<real>
  {
    if "settings-version" in user && user["settings-version"].VU32? then Some(user["settings-version"].n) else None
  }

  /** An absent, zero or older version means the stored settings are outdated. */
  predicate Outdated(user: map<string, Variant>)
  {
    var v := StoredVersion(user);
    v.None? || v.value == 0.0 || v.value < LAST_VERSION
  }

  /** What resetOutdated leaves of the user values: the changed keys reset (the old ones only when listed), the version set to 7. */
  function Migrated(user: map<string, Variant>, listed: set<string>): (r: map<string, Variant>)
    ensures !Outdated(user) ==> r == user
    ensures Outdated(user) ==> StoredVersion(r) == Some(LAST_VERSION) && !Outdated(r)
  {
    if !Outdated(user) then user
    else (user - ResetKeys(listed))["settings-version" := VU32(LAST_VERSION)]
  }

  /** The keys resetOutdated resets: the old ones only when the schema still lists them. */
  function ResetKeys(listed: set<string>): set<string>
  {
    (if "black-list" in listed then {"black-list"} else {})
    + {"global-rounded-corner-settings"} + {"custom-rounded-corner-settings"}
    + (if "border-color" in listed then {"border-color"} else {})
    + {"focused-shadow"} + {"unfocused-shadow"}
  }

  /** Migration touches nothing but the reset keys and the version. */
  lemma MigrationKeepsOthers(user: map<string, Variant>, listed: set<string>, k: string)
    requires k != "settings-version" && k !in ResetKeys(listed)
    ensures k in Migrated(user, listed) <==> k in user
    ensures k in user ==> Migrated(user, listed)[k] == user[k]
  {
  }

  /** Migration resets exactly the changed keys: the listed old ones, the new corner settings and shadows. */
  lemma MigrationResets(user: map<string, Variant>, listed: set<string>)
    requires Outdated(user)
    ensures forall k | k in {"global-rounded-corner-settings", "custom-rounded-corner-settings",
                             "focused-shadow", "unfocused-shadow"} :: k !in Migrated(user, listed)
    ensures "black-list" in listed ==> "black-list" !in Migrated(user, listed)
    ensures "border-color" !in listed && "border-color" in user ==> "border-color" in Migrated(user, listed)
    ensures "blacklist" in user ==> "blacklist" in Migrated(user, listed)
  {
  }

  /** Running the migration twice is running it once. */
  lemma MigrationIdempotent(user: map<string, Variant>, listed: set<string>)
    ensures Migrated(Migrated(user, listed), listed) == Migrated(user, listed)
  {
  }

  /** A GSettings object: the keys it lists and its user values (a reset key falls back to its default). */
  class Store {
    const listed: set<string>
    var user: map<string, Variant>

    constructor (listed: set<string>, user: map<string, Variant>)
      ensures this.listed == listed && this.user == user
    {
      this.listed := listed;
      this.user := user;
    }

    /** prefs.reset(key) */
    method Reset(key: string)
      modifies this`user
      ensures user == old(user) - {key}
    {
      user := user - {key};
    }

    /** resetOutdated: resets the keys whose type changed between releases when the stored version is outdated. */
    method ResetOutdated()
      modifies this`user
      ensures user == Migrated(old(user), listed)
    {
      var current := StoredVersion(user);
      if current.None? || current.value == 0.0 || current.value < LAST_VERSION {
        ResetChangedKeys();
        user := user["settings-version" := VU32(LAST_VERSION)];
      }
    }

    /** The resets of resetOutdated, in its order: the old keys only when the schema still lists them. */
    method ResetChangedKeys()
      modifies this`user
      ensures user == old(user) - ResetKeys(listed)
    {
      ghost var u0 := user;
      ghost var removed: set<string> := if "black-list" in listed then {"black-list"} else {};
      if "black-list" in listed {
        Reset("black-list");
        RemoveOneMore(u0, {}, "black-list");
      }
      Reset("global-rounded-corner-settings");
      RemoveOneMore(u0, removed, "global-rounded-corner-settings");
      removed := removed + {"global-rounded-corner-settings"};
      Reset("custom-rounded-corner-settings");
      RemoveOneMore(u0, removed, "custom-rounded-corner-settings");
      removed := removed + {"custom-rounded-corner-settings"};
      if "border-color" in listed {
        Reset("border-color");
        RemoveOneMore(u0, removed, "border-color");
      }
      removed := removed + (if "border-color" in listed then {"border-color"} else {});
      Reset("focused-shadow");
      RemoveOneMore(u0, removed, "focused-shadow");
      removed := removed + {"focused-shadow"};
      Reset("unfocused-shadow");
      RemoveOneMore(u0, removed, "unfocused-shadow");
      removed := removed + {"unfocused-shadow"};
    }

    /** set_value */
    method SetValue(key: string, v: Variant)
      modifies this`user
      ensures user == old(user)[key := v]
    {
      user := user[key := v];
    }
  }

  /** Removing the keys one at a time is removing them all at once. */
  lemma RemoveOneMore(m: map<string, Variant>, removed: set<string>, k: string)
    ensures (m - removed) - {k} == m - (removed + {k})
  {
  }

  /** The module's `prefs` binding. */
  class Prefs {
    var prefs: Store?

    constructor ()
      ensures prefs == null
    {
      prefs := null;
    }

    /** initPrefs: migrates the given settings before keeping them. */
    method InitPrefs(g: Store)
      modifies this`prefs, g`user
      ensures prefs == g && g.user == Migrated(old(g.user), g.listed)
    {
      g.ResetOutdated();
      prefs := g;
    }

    /** uninitPrefs */
    method UninitPrefs()
      modifies this`prefs
      ensures prefs == null
    {
      prefs := null;
    }

    /** setPref: packs the value for its key and stores it. */
    method SetPref(k: SchemaKey, v: PrefValue)
      requires prefs != null && Fits(k, v)
      modifies prefs`user
      ensures prefs.user == old(prefs.user)[KeyName(k) := PackFor(k, v)]
    {
      var variant: Variant;
      if k == GlobalRoundedCornerSettings {
        variant := PackRoundedCornerSettings(v.corners);
      } else if k == CustomRoundedCornerSettings {
        variant := PackCustomRoundedCornerSettings(v.custom);
      } else {
        variant := PackByType(SchemaType(k), v);
      }
      prefs.SetValue(KeyName(k), variant);
    }
  }
}
