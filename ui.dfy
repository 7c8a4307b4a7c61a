// The older generation of window helpers (utils/ui.ts), used by the event
// handlers: regex-based app-type probe, scale factor with an optional window,
// the background-menu entry matched by label only, a settings lookup that
// overwrites the override's border radius, and a blacklist-only verdict.
module Ui {
  import opened Wrappers
  import opened Types
  import M = ManagerUtils
  import BackgroundMenu

  /** One pattern character against one text character: `.` is a wildcard, any other character itself. */
  predicate CharMatches(pat: char, c: char)
  {
    if pat == '.' then !IsLineTerminator(c) else c == pat
  }

  /** The pattern (letters, digits, `-` and `.` only) matches s at index i. */
  predicate PatternAt(s: string, pat: string, i: int)
  {
    0 <= i <= |s| - |pat| && forall k | 0 <= k < |pat| :: CharMatches(pat[k], s[i + k])
  }

  /** String.prototype.match with a pattern made of literals and `.`: a match anywhere. */
  predicate PatternOccurs(s: string, pat: string)
  {
    exists i | 0 <= i <= |s| - |pat| :: PatternAt(s, pat, i)
  }

  /** A literal occurrence is always a match of the same text read as a pattern. */
  lemma LiteralIsMatch(s: string, pat: string)
    requires forall k | 0 <= k < |pat| :: !IsLineTerminator(pat[k])
    requires Contains(s, pat)
    ensures PatternOccurs(s, pat)
  {
    var i :| 0 <= i <= |s| - |pat| && OccursAt(s, pat, i);
    forall k | 0 <= k < |pat| ensures CharMatches(pat[k], s[i + k]) {
      assert s[i..i + |pat|][k] == s[i + k];
    }
    assert PatternAt(s, pat, i);
  }

  /**
   * Application type from the memory map, matching /libhandy-1.so/ before
   * /libadwaita-1.so/; Other when the map cannot be read.
   */
  function GetAppType(maps: Option<string>): (r: AppType)
    ensures r == LibHandy <==> maps.Some? && PatternOccurs(maps.value, "libhandy-1.so")
    ensures r == LibAdwaita <==>
      maps.Some? && !PatternOccurs(maps.value, "libhandy-1.so")
      && PatternOccurs(maps.value, "libadwaita-1.so")
  {
    match maps
    case None => Other
    case Some(contents) =>
      if PatternOccurs(contents, "libhandy-1.so") then LibHandy
      else if PatternOccurs(contents, "libadwaita-1.so") then LibAdwaita
      else Other
  }

  /**
   * The regex probe recognises every library the literal probe does: where
   * the literal probe finds libhandy so does this one, and where this one
   * finds nothing neither does the literal one.
   */
  lemma ProbeCoversLiteralProbe(maps: Option<string>)
    ensures M.GetAppType(maps) == LibHandy ==> GetAppType(maps) == LibHandy
    ensures GetAppType(maps) == Other ==> M.GetAppType(maps) == Other
  {
    if maps.Some? {
      if Contains(maps.value, "libhandy-1.so") {
        LiteralIsMatch(maps.value, "libhandy-1.so");
      }
      if Contains(maps.value, "libadwaita-1.so") {
        LiteralIsMatch(maps.value, "libadwaita-1.so");
      }
    }
  }

  /** The unescaped `.` lets a map that mentions "libhandy-1_so" count as libhandy. */
  lemma WildcardDotMatchesAnyCharacter()
    ensures GetAppType(Some("libhandy-1_so")) == LibHandy
    ensures M.GetAppType(Some("libhandy-1_so")) == Other
  {
    assert PatternAt("libhandy-1_so", "libhandy-1.so", 0);
    assert !Contains("libhandy-1_so", "libhandy-1.so") by {
      forall i | 0 <= i <= 0 ensures !OccursAt("libhandy-1_so", "libhandy-1.so", i) {
        assert "libhandy-1_so"[0..13][10] != "libhandy-1.so"[10];
      }
    }
    assert !Contains("libhandy-1_so", "libadwaita-1.so");
  }

  /**
   * Scale factor of a window, or of the current monitor when no window is
   * given; 1 under fractional scaling.
   */
  function WindowScaleFactor(d: Display, win: Option<MetaWindow>): (r: real)
    ensures M.FractionalScaling(d) ==> r == 1.0
    ensures !M.FractionalScaling(d) && win.Some? ==> r == d.monitorScale(win.value.monitor)
    ensures !M.FractionalScaling(d) && win.None? ==> r == d.monitorScale(d.currentMonitor)
  {
    if d.isWayland && d.scaleMonitorFramebuffer then 1.0
    else d.monitorScale(if win.Some? then win.value.monitor else d.currentMonitor)
  }

  /** With a window this is the same scale factor as the newer helper's. */
  lemma ScaleFactorAgrees(d: Display, w: MetaWindow)
    ensures WindowScaleFactor(d, Some(w)) == M.WindowScaleFactor(d, w)
  {
  }

  /** Adds the entry unless an item with its label (of any kind) is present. */
  method AddBackgroundMenuItem(menu: BackgroundMenu.Menu)
    modifies menu
    ensures menu.items == BackgroundMenu.WithRwcItem(old(menu.items), false)
  {
    menu.AddItem(false);
  }

  /** Adds the entry to the menu of every background. */
  method SetupBackgroundMenu(menus: seq<BackgroundMenu.Menu>)
    requires BackgroundMenu.Distinct(menus)
    modifies set m | m in menus
    ensures forall i | 0 <= i < |menus| ::
      menus[i].items == BackgroundMenu.WithRwcItem(old(menus[i].items), false)
  {
    var k := 0;
    while k < |menus|
      invariant 0 <= k <= |menus|
      invariant forall i | 0 <= i < k :: menus[i].items == BackgroundMenu.WithRwcItem(old(menus[i].items), false)
      invariant forall i | k <= i < |menus| :: menus[i].items == old(menus[i].items)
    {
      AddBackgroundMenuItem(menus[k]);
      k := k + 1;
    }
  }

  /** Destroys, in every background menu, the first item with the entry's label. */
  method RestoreBackgroundMenu(menus: seq<BackgroundMenu.Menu>)
    requires BackgroundMenu.Distinct(menus)
    modifies set m | m in menus
    ensures forall i | 0 <= i < |menus| ::
      menus[i].items == BackgroundMenu.WithoutFirstRwc(old(menus[i].items), false)
  {
    var k := 0;
    while k < |menus|
      invariant 0 <= k <= |menus|
      invariant forall i | 0 <= i < k :: menus[i].items == BackgroundMenu.WithoutFirstRwc(old(menus[i].items), false)
      invariant forall i | k <= i < |menus| :: menus[i].items == old(menus[i].items)
    {
      menus[k].RemoveItem(false);
      k := k + 1;
    }
  }

  /** A settings lookup: the settings returned, and the custom table afterwards. */
  datatype CfgRead = CfgRead(cfg: RoundedCornerSettings, custom: map<string, RoundedCornerSettings>)

  /**
   * Settings for a window. An enabled override is returned with its border
   * radius overwritten by the global one, and that overwrite is stored back
   * into the custom table; otherwise the global settings, table untouched.
   */
  function GetRoundedCornersCfg(w: MetaWindow, p: Prefs): (r: CfgRead)
    ensures M.HasEnabledOverride(w, p) ==>
      var k := w.wmClassInstance.value;
      r.cfg == p.custom[k].(borderRadius := p.global.borderRadius) && r.custom == p.custom[k := r.cfg]
    ensures !M.HasEnabledOverride(w, p) ==> r == CfgRead(p.global, p.custom)
  {
    var k := w.wmClassInstance;
    if k.None? || k.value !in p.custom || !p.custom[k.value].enabled then CfgRead(p.global, p.custom)
    else
      var customCfg := p.custom[k.value].(borderRadius := p.global.borderRadius);
      CfgRead(customCfg, p.custom[k.value := customCfg])
  }

  /**
   * Every window is rounded with the global border radius, and otherwise
   * with the settings the newer lookup picks.
   */
  lemma CfgIsNewerCfgWithGlobalRadius(w: MetaWindow, p: Prefs)
    ensures GetRoundedCornersCfg(w, p).cfg == M.GetRoundedCornersCfg(w, p).(borderRadius := p.global.borderRadius)
  {
  }

  /**
   * The overwrite stored by one lookup changes no later lookup, for any
   * window: which overrides are enabled and what every lookup returns stay
   * the same.
   */
  lemma StoredOverwriteInvisible(w: MetaWindow, v: MetaWindow, p: Prefs)
    ensures var p2 := p.(custom := GetRoundedCornersCfg(w, p).custom);
      (M.HasEnabledOverride(v, p2) <==> M.HasEnabledOverride(v, p))
      && GetRoundedCornersCfg(v, p2).cfg == GetRoundedCornersCfg(v, p).cfg
  {
  }

  /** Outcome of the older shouldEnableEffect: verdict, app-type cache, custom table afterwards. */
  datatype UiVerdict = UiVerdict(enable: bool, appTypeCache: Option<AppType>,
                                 custom: map<string, RoundedCornerSettings>)

  /** The checks before the app-type probe, with the list always a blacklist. */
  predicate PassesWindowFilters(w: MetaWindow, p: Prefs)
  {
    && w.gtkApplicationId != Some(DING_APP_ID)
    && w.wmClassInstance.Some?
    && w.wmClassInstance.value !in p.blacklist
    && M.EligibleType(w.windowType)
  }

  function EffectiveAppType(w: MetaWindow, cache: Option<AppType>): AppType
  {
    cache.GetOr(GetAppType(w.maps))
  }

  /**
   * Whether a window should have rounded corners: DING, a missing wm class,
   * a blacklisted class and non-normal window types are refused before the
   * app type is probed and cached; skipped app types are refused before the
   * settings are looked up (which stores the radius overwrite).
   */
  function ShouldEnableEffect(w: MetaWindow, cache: Option<AppType>, p: Prefs): (r: UiVerdict)
    ensures r.enable <==>
      PassesWindowFilters(w, p) && !M.SkippedAppType(p, EffectiveAppType(w, cache))
      && M.KeepsCornersInState(w, M.GetRoundedCornersCfg(w, p))
    ensures !PassesWindowFilters(w, p) ==> r.appTypeCache == cache && r.custom == p.custom
    ensures PassesWindowFilters(w, p) ==> r.appTypeCache == Some(EffectiveAppType(w, cache))
    ensures r.custom == if PassesWindowFilters(w, p) && !M.SkippedAppType(p, EffectiveAppType(w, cache))
      then GetRoundedCornersCfg(w, p).custom else p.custom
  {
    if w.gtkApplicationId == Some(DING_APP_ID) then UiVerdict(false, cache, p.custom)
    else if w.wmClassInstance.None? then UiVerdict(false, cache, p.custom)
    else if w.wmClassInstance.value in p.blacklist then UiVerdict(false, cache, p.custom)
    else if !M.EligibleType(w.windowType) then UiVerdict(false, cache, p.custom)
    else
      var appType := cache.GetOr(GetAppType(w.maps));
      if p.skipLibadwaitaApp && appType == LibAdwaita then UiVerdict(false, Some(appType), p.custom)
      else if p.skipLibhandyApp && appType == LibHandy then UiVerdict(false, Some(appType), p.custom)
      else
        var read := GetRoundedCornersCfg(w, p);
        UiVerdict(M.KeepsCornersInState(w, read.cfg), Some(appType), read.custom)
  }

  /**
   * With the app type known, the older verdict is the newer one in
   * blacklist mode.
   */
  lemma AgreesWithBlacklistMode(w: MetaWindow, t: AppType, p: Prefs)
    ensures ShouldEnableEffect(w, Some(t), p).enable
      == M.ShouldEnableEffect(w, Some(t), p.(whitelist := false)).enable
  {
  }

  /** Checking again with the cache and table the first check left behind gives the same verdict. */
  lemma ShouldEnableEffectStable(w: MetaWindow, cache: Option<AppType>, p: Prefs)
    ensures var r := ShouldEnableEffect(w, cache, p);
      var r2 := ShouldEnableEffect(w, r.appTypeCache, p.(custom := r.custom));
      r2.enable == r.enable && r2.appTypeCache == r.appTypeCache && r2.custom == r.custom
  {
    var r := ShouldEnableEffect(w, cache, p);
    StoredOverwriteInvisible(w, w, p);
    if PassesWindowFilters(w, p) {
      assert EffectiveAppType(w, r.appTypeCache) == EffectiveAppType(w, cache);
    }
  }
}
