// Window-level decisions and geometry of the runtime (manager/utils.ts):
// which settings apply to a window, whether it gets rounded corners, its
// scale factor, the bounds of the rounded area and the shadow's offsets.
module ManagerUtils {
  import opened Wrappers
  import opened Types

  /** The window has a custom override for its wm class and that override is enabled. */
  predicate HasEnabledOverride(w: MetaWindow, p: Prefs)
  {
    w.wmClassInstance.Some? && w.wmClassInstance.value in p.custom
    && p.custom[w.wmClassInstance.value].enabled
  }

  /**
   * The settings that apply to a window: its enabled custom override,
   * unchanged, or else the global settings.
   */
  function GetRoundedCornersCfg(w: MetaWindow, p: Prefs): (r: RoundedCornerSettings)
    ensures HasEnabledOverride(w, p) ==> r == p.custom[w.wmClassInstance.value] && r.enabled
    ensures !HasEnabledOverride(w, p) ==> r == p.global
  {
    if w.wmClassInstance.None? || w.wmClassInstance.value !in p.custom
       || !p.custom[w.wmClassInstance.value].enabled
    then p.global
    else p.custom[w.wmClassInstance.value]
  }

  /** An override the user has switched off never applies. */
  lemma DisabledOverrideIgnored(w: MetaWindow, p: Prefs, k: string)
    requires w.wmClassInstance == Some(k) && k in p.custom && !p.custom[k].enabled
    ensures GetRoundedCornersCfg(w, p) == p.global
  {
  }

  /** Whether mutter scales monitor framebuffers itself (fractional scaling). */
  predicate FractionalScaling(d: Display)
  {
    d.isWayland && d.scaleMonitorFramebuffer
  }

  /** Scale factor of a window: 1 under fractional scaling, else its monitor's scale. */
  function WindowScaleFactor(d: Display, w: MetaWindow): (r: real)
    ensures FractionalScaling(d) ==> r == 1.0
    ensures !FractionalScaling(d) ==> r == d.monitorScale(w.monitor)
  {
    if d.isWayland && d.scaleMonitorFramebuffer then 1.0 else d.monitorScale(w.monitor)
  }

  /** Offsets of the frame (the visible contents) inside the buffer, componentwise. */
  function ComputeWindowContentsOffset(w: MetaWindow): (r: Quad)
    ensures w.bufferRect.x + r.x == w.frameRect.x && w.bufferRect.y + r.y == w.frameRect.y
    ensures w.bufferRect.width + r.width == w.frameRect.width
    ensures w.bufferRect.height + r.height == w.frameRect.height
  {
    Quad(w.frameRect.x - w.bufferRect.x, w.frameRect.y - w.bufferRect.y,
         w.frameRect.width - w.bufferRect.width, w.frameRect.height - w.bufferRect.height)
  }

  /**
   * The rectangle a Clutter.BindConstraint set produces: the source
   * rectangle with offsets[i] added to coordinate i (x, y, width, height).
   */
  function Bind(source: Rect, offsets: Quad): Rect
  {
    Rect(source.x + offsets.x, source.y + offsets.y,
         source.width + offsets.width, source.height + offsets.height)
  }

  /** An actor allocated exactly over the window's buffer, offset by the contents offsets, covers the frame. */
  lemma ContentsOffsetMapsBufferToFrame(w: MetaWindow)
    ensures Bind(w.bufferRect, ComputeWindowContentsOffset(w)) == w.frameRect
  {
  }

  /** Kitty on Wayland draws its own shadow, which the tweak clips away. */
  predicate IsKittyTweaked(tweak: bool, w: MetaWindow)
  {
    tweak && w.clientType == Wayland && w.wmClassInstance == Some("kitty")
  }

  /** Bounds of the rounded area before any application-specific tweak. */
  function PlainBounds(a: WindowActor, off: Quad): Bounds
  {
    Bounds(off.x + 1.0, off.y + 1.0, off.x + a.width + off.width, off.y + a.height + off.height)
  }

  /**
   * Outer bounds of the rounded area inside the window actor; for kitty
   * under the tweak, inset by kitty's own shadow scaled by the window scale.
   */
  function ComputeBounds(a: WindowActor, off: Quad, tweakKitty: bool, scale: real): (r: Bounds)
    ensures !IsKittyTweaked(tweakKitty, a.win) ==> r == PlainBounds(a, off)
    ensures IsKittyTweaked(tweakKitty, a.win) ==>
      var b := PlainBounds(a, off);
      r.x1 - b.x1 == 11.0 * scale && r.y1 - b.y1 == 35.0 * scale
      && b.x2 - r.x2 == 11.0 * scale && b.y2 - r.y2 == 11.0 * scale
  {
    var b := Bounds(off.x + 1.0, off.y + 1.0, off.x + a.width + off.width, off.y + a.height + off.height);
    if tweakKitty && a.win.clientType == Wayland && a.win.wmClassInstance == Some("kitty") then
      Bounds(b.x1 + KITTY_SHADOW.x1 * scale, b.y1 + KITTY_SHADOW.y1 * scale,
             b.x2 - KITTY_SHADOW.x2 * scale, b.y2 - KITTY_SHADOW.y2 * scale)
    else b
  }

  /** The kitty tweak only ever shrinks the area, by 22 and 46 scaled pixels. */
  lemma KittyBoundsInsidePlain(a: WindowActor, off: Quad, scale: real)
    requires scale >= 0.0
    requires IsKittyTweaked(true, a.win)
    ensures var r, b := ComputeBounds(a, off, true, scale), PlainBounds(a, off);
      b.x1 <= r.x1 && r.x2 <= b.x2 && b.y1 <= r.y1 && r.y2 <= b.y2
      && (b.x2 - b.x1) - (r.x2 - r.x1) == 22.0 * scale
      && (b.y2 - b.y1) - (r.y2 - r.y1) == 46.0 * scale
  {
  }

  /**
   * Offsets that bind the shadow actor to the window actor: the contents
   * rectangle grown by SHADOW_PADDING * scale on every side.
   */
  function ComputeShadowActorOffset(off: Quad, scale: real): (r: Quad)
    ensures var pad := SHADOW_PADDING * scale;
      r.x == off.x - pad && r.y == off.y - pad
      && r.x + r.width == off.x + off.width + pad
      && r.y + r.height == off.y + off.height + pad
  {
    var pad := SHADOW_PADDING * scale;
    Quad(off.x - pad, off.y - pad, 2.0 * pad + off.width, 2.0 * pad + off.height)
  }

  /** A rectangle grown by d on every side. */
  function Outset(r: Rect, d: real): Rect
  {
    Rect(r.x - d, r.y - d, r.width + 2.0 * d, r.height + 2.0 * d)
  }

  /**
   * The shadow actor, bound to a window actor that covers the buffer, covers
   * the frame rectangle grown by the shadow padding on every side.
   */
  lemma ShadowSurroundsFrame(w: MetaWindow, scale: real)
    ensures var off := ComputeWindowContentsOffset(w);
      Bind(w.bufferRect, ComputeShadowActorOffset(off, scale))
        == Outset(w.frameRect, SHADOW_PADDING * scale)
  {
  }

  /** The style of a shadow's inner box (the St.Bin child). */
  datatype ChildStyle =
    | Transparent
    | Drawn(borderRadius: real, shadow: BoxShadow, shadowScale: real, margin: Padding)

  /** The numbers the CSS of a shadow actor is built from. */
  datatype ShadowStyle = ShadowStyle(padding: real, child: ChildStyle)

  /**
   * Style of a shadow actor: padded by SHADOW_PADDING at the CSS scale
   * (window scale over theme scale); transparent for a maximized or
   * fullscreen window, otherwise rounded with the radius enlarged by the
   * global smoothing and margins equal to the scaled padding.
   */
  function UpdateShadowActorStyle(w: MetaWindow, windowScale: real, themeScale: real,
                                  borderRadius: real, shadow: BoxShadow, padding: Padding,
                                  globalSmoothing: real): (r: ShadowStyle)
    requires themeScale != 0.0
    ensures r.child.Transparent? <==> (w.maximizedHorizontally || w.maximizedVertically || w.fullscreen)
    ensures r.child.Drawn? ==> r.child.shadow == shadow
  {
    var scale := windowScale / themeScale;
    var radius := borderRadius * (1.0 + globalSmoothing);
    ShadowStyle(
      SHADOW_PADDING * scale,
      if w.maximizedHorizontally || w.maximizedVertically || w.fullscreen then Transparent
      else Drawn(radius * scale, shadow, scale,
                 Padding(padding.left * scale, padding.right * scale,
                         padding.top * scale, padding.bottom * scale)))
  }

  /** The style's numbers: each is its CSS value times the theme scale over the window scale. */
  lemma ShadowStyleScales(w: MetaWindow, windowScale: real, themeScale: real,
                          borderRadius: real, shadow: BoxShadow, padding: Padding, globalSmoothing: real)
    requires themeScale != 0.0
    ensures var r := UpdateShadowActorStyle(w, windowScale, themeScale, borderRadius, shadow, padding, globalSmoothing);
      r.padding * themeScale == SHADOW_PADDING * windowScale
    ensures var r := UpdateShadowActorStyle(w, windowScale, themeScale, borderRadius, shadow, padding, globalSmoothing);
      r.child.Transparent? <==> (w.maximizedHorizontally || w.maximizedVertically || w.fullscreen)
    ensures var r := UpdateShadowActorStyle(w, windowScale, themeScale, borderRadius, shadow, padding, globalSmoothing);
      r.child.Drawn? ==>
        && r.child.shadow == shadow && r.child.shadowScale * themeScale == windowScale
        && r.child.borderRadius * themeScale == borderRadius * (1.0 + globalSmoothing) * windowScale
        && r.child.margin.top * themeScale == padding.top * windowScale
        && r.child.margin.right * themeScale == padding.right * windowScale
        && r.child.margin.bottom * themeScale == padding.bottom * windowScale
        && r.child.margin.left * themeScale == padding.left * windowScale
  {
  }

  /** Window types that may get rounded corners. */
  predicate EligibleType(t: WindowType)
  {
    t == Normal || t == Dialog || t == ModalDialog
  }

  /** Application type from the process's memory map; Other when it cannot be read. */
  function GetAppType(maps: Option<string>): (r: AppType)
    ensures r == LibHandy <==> maps.Some? && Contains(maps.value, "libhandy-1.so")
    ensures r == LibAdwaita <==>
      maps.Some? && !Contains(maps.value, "libhandy-1.so") && Contains(maps.value, "libadwaita-1.so")
  {
    match maps
    case None => Other
    case Some(contents) =>
      if Contains(contents, "libhandy-1.so") then LibHandy
      else if Contains(contents, "libadwaita-1.so") then LibAdwaita
      else Other
  }

  /**
   * Maximized and fullscreen windows keep rounded corners only when the
   * applicable settings ask for it.
   */
  predicate KeepsCornersInState(w: MetaWindow, cfg: RoundedCornerSettings)
  {
    var maximized := w.maximizedHorizontally || w.maximizedVertically;
    !(maximized || w.fullscreen)
    || (maximized && cfg.keepRoundedCorners.maximized)
    || (w.fullscreen && cfg.keepRoundedCorners.fullscreen)
  }

  /** In whitelist mode the list names the admitted classes, otherwise the excluded ones. */
  predicate ListAdmits(p: Prefs, wmClass: string)
  {
    if p.whitelist then wmClass in p.blacklist else wmClass !in p.blacklist
  }

  /** Outcome of shouldEnableEffect: the verdict and the window's cached app type afterwards. */
  datatype Verdict = Verdict(enable: bool, appTypeCache: Option<AppType>)

  /** The app type a check uses: the cached one, otherwise a fresh probe. */
  function EffectiveAppType(w: MetaWindow, cache: Option<AppType>): AppType
  {
    cache.GetOr(GetAppType(w.maps))
  }

  /** Whether a window passes the checks that come before the app-type probe. */
  predicate PassesWindowFilters(w: MetaWindow, p: Prefs)
  {
    && w.gtkApplicationId != Some(DING_APP_ID)
    && w.wmClassInstance.Some?
    && ListAdmits(p, w.wmClassInstance.value)
    && EligibleType(w.windowType)
  }

  /** The app type is skipped by the settings. */
  predicate SkippedAppType(p: Prefs, t: AppType)
  {
    (p.skipLibadwaitaApp && t == LibAdwaita) || (p.skipLibhandyApp && t == LibHandy)
  }

  /**
   * Whether a window should have rounded corners, with the app-type cache
   * it leaves behind: filled in once the window passes the DING, wm class,
   * list and window-type checks, and left untouched before that.
   */
  function ShouldEnableEffect(w: MetaWindow, cache: Option<AppType>, p: Prefs): (r: Verdict)
    ensures r.enable <==>
      PassesWindowFilters(w, p) && !SkippedAppType(p, EffectiveAppType(w, cache))
      && KeepsCornersInState(w, GetRoundedCornersCfg(w, p))
    ensures PassesWindowFilters(w, p) ==> r.appTypeCache == Some(EffectiveAppType(w, cache))
    ensures !PassesWindowFilters(w, p) ==> r.appTypeCache == cache
  {
    if w.gtkApplicationId == Some(DING_APP_ID) then Verdict(false, cache)
    else if w.wmClassInstance.None? then Verdict(false, cache)
    else if !p.whitelist && w.wmClassInstance.value in p.blacklist then Verdict(false, cache)
    else if p.whitelist && w.wmClassInstance.value !in p.blacklist then Verdict(false, cache)
    else if !EligibleType(w.windowType) then Verdict(false, cache)
    else
      var appType := cache.GetOr(GetAppType(w.maps));
      if p.skipLibadwaitaApp && appType == LibAdwaita then Verdict(false, Some(appType))
      else if p.skipLibhandyApp && appType == LibHandy then Verdict(false, Some(appType))
      else Verdict(KeepsCornersInState(w, GetRoundedCornersCfg(w, p)), Some(appType))
  }

  /**
   * The cache never changes a verdict: checking again with the cache the
   * first check left behind gives the same answer and the same cache.
   */
  lemma ShouldEnableEffectStable(w: MetaWindow, cache: Option<AppType>, p: Prefs)
    ensures var r := ShouldEnableEffect(w, cache, p);
      ShouldEnableEffect(w, r.appTypeCache, p) == r
  {
    var r := ShouldEnableEffect(w, cache, p);
    if PassesWindowFilters(w, p) {
      assert EffectiveAppType(w, r.appTypeCache) == EffectiveAppType(w, cache);
    }
  }

  /** A cached app type is never probed again. */
  lemma CachedAppTypeKept(w: MetaWindow, t: AppType, p: Prefs)
    ensures ShouldEnableEffect(w, Some(t), p).appTypeCache == Some(t)
  {
  }

  /** Whitelist and blacklist mode never both admit the same class. */
  lemma ListModesExclusive(p: Prefs, wmClass: string)
    ensures ListAdmits(p.(whitelist := true), wmClass) != ListAdmits(p.(whitelist := false), wmClass)
  {
  }

  /** With the list empty, whitelist mode rejects every window. */
  lemma EmptyWhitelistRejectsAll(w: MetaWindow, cache: Option<AppType>, p: Prefs)
    requires p.whitelist && p.blacklist == []
    ensures !ShouldEnableEffect(w, cache, p).enable
  {
  }
}
