// Handlers for the events the runtime reacts to (manager/event_handlers.ts):
// attaching and removing the rounded-corners effect and the shadow actor of
// a window, keeping the shadow's visibility, style and constraint offsets
// and the shader's uniforms up to date, and dispatching settings changes.
module EventHandlers {
  import opened Wrappers
  import opened Types
  import M = ManagerUtils
  import Ui
  import E = RoundedCornersEffect
  import MagicLamp

  /**
   * A window's shadow actor: its identity, visibility, the offsets of its
   * four BindConstraints (x, y, width, height) and its style (None until set).
   */
  datatype Shadow = Shadow(id: nat, visible: bool, offsets: seq<real>, style: Option<M.ShadowStyle>)

  /** The record stored on a window actor while it has rounded corners. */
  datatype WindowInfo = WindowInfo(shadow: Shadow, unminimizedTimeoutId: nat)

  /** What a settings change refreshes. */
  datatype Refresh = EffectState | AllShadows | AllRoundedCorners | NoRefresh

  /** The refresh a changed settings key triggers; any other key triggers none. */
  function RefreshFor(key: string): (r: Refresh)
    ensures r == EffectState <==> key in {"skip-libadwaita-app", "skip-libhandy-app", "black-list"}
    ensures r == AllShadows <==> key in {"focused-shadow", "unfocused-shadow"}
    ensures r == AllRoundedCorners <==> key in {"global-rounded-corner-settings",
      "custom-rounded-corner-settings", "border-color", "border-width", "tweak-kitty-terminal"}
  {
    match key
    case "skip-libadwaita-app" => EffectState
    case "skip-libhandy-app" => EffectState
    case "black-list" => EffectState
    case "focused-shadow" => AllShadows
    case "unfocused-shadow" => AllShadows
    case "global-rounded-corner-settings" => AllRoundedCorners
    case "custom-rounded-corner-settings" => AllRoundedCorners
    case "border-color" => AllRoundedCorners
    case "border-width" => AllRoundedCorners
    case "tweak-kitty-terminal" => AllRoundedCorners
    case _ => NoRefresh
  }

  /** The settings a window's corners follow. */
  function CfgFor(w: MetaWindow, p: Prefs): RoundedCornerSettings
  {
    Ui.GetRoundedCornersCfg(w, p).cfg
  }

  /**
   * The shadow style refreshShadow sets: focused or unfocused shadow, the
   * window's radius and padding. The source reaches the CSS through
   * `types.box_shadow_css` and its own copy of updateShadowActorStyle; this
   * is the helper of the manager utilities and its boxShadowCss.
   */
  function StyleFor(a: WindowActor, p: Prefs, d: Display): (r: M.ShadowStyle)
    requires d.themeScale != 0.0
    ensures r.child.Transparent? <==> (a.win.maximizedHorizontally || a.win.maximizedVertically || a.win.fullscreen)
    ensures r.child.Drawn? ==> r.child.shadow == if a.win.appearsFocused then p.focusedShadow else p.unfocusedShadow
  {
    var cfg := CfgFor(a.win, p);
    M.UpdateShadowActorStyle(a.win, Ui.WindowScaleFactor(d, Some(a.win)), d.themeScale, cfg.borderRadius,
      if a.win.appearsFocused then p.focusedShadow else p.unfocusedShadow, cfg.padding, p.global.smoothing)
  }

  function QuadValues(q: Quad): (s: seq<real>)
    ensures |s| == 4
  {
    [q.x, q.y, q.width, q.height]
  }

  /** The offsets the shadow's constraints receive: the contents offsets grown by the shadow padding. */
  function ShadowOffsetsFor(a: WindowActor, d: Display): (s: seq<real>)
    ensures |s| == 4
  {
    QuadValues(M.ComputeShadowActorOffset(M.ComputeWindowContentsOffset(a.win), Ui.WindowScaleFactor(d, Some(a.win))))
  }

  /** The environment the handlers run in has no zero scale, size or radius. */
  ghost predicate WellFormedEnv(windows: map<ActorId, WindowActor>, d: Display, p: Prefs)
  {
    && d.themeScale != 0.0
    && (forall m: int :: d.monitorScale(m) != 0.0)
    && p.global.borderRadius != 0.0
    && E.BaseExponent(p.global) != 0.0
    && (forall k | k in p.custom :: E.BaseExponent(p.custom[k]) != 0.0)
    && (forall a | a in windows :: windows[a].width != 0.0 && windows[a].height != 0.0)
  }

  /** The arguments of one RoundedCornersEffect.update_uniforms call. */
  datatype UniformsCall = UniformsCall(scale: real, cfg: RoundedCornerSettings, windowBounds: Bounds)

  /** The call refreshRoundedCorners makes for a window: its scale, settings and outer bounds. */
  function UniformsCallFor(a: WindowActor, d: Display, p: Prefs): UniformsCall
  {
    var scale := Ui.WindowScaleFactor(d, Some(a.win));
    UniformsCall(scale, CfgFor(a.win, p), M.ComputeBounds(a, M.ComputeWindowContentsOffset(a.win), p.tweakKittyTerminal, scale))
  }

  /**
   * Under a well-formed environment the effect accepts every call the
   * handlers make, and every window is rounded with the global radius.
   */
  lemma {:induction false} UniformsCallWellFormed(windows: map<ActorId, WindowActor>, d: Display, p: Prefs, a: ActorId)
    requires WellFormedEnv(windows, d, p) && a in windows
    ensures var w := windows[a]; var c := UniformsCallFor(w, d, p);
      E.WellFormedInputs(c.scale, c.cfg, w.width, w.height) && c.cfg.borderRadius == p.global.borderRadius
  {
    var w := windows[a];
    assert Ui.WindowScaleFactor(d, Some(w.win)) != 0.0;
    Ui.CfgIsNewerCfgWithGlobalRadius(w.win, p);
  }

  /**
   * The border of a recorded call. The handlers pass a fourth argument
   * with the border width and colour, but updateUniforms declares three
   * parameters and ignores it: the width is the border-width preference
   * times the scale and the colour is the window's own settings' colour.
   * UniformsCallWellFormed gives the requirement for every window.
   */
  lemma UniformsCallBorder(w: WindowActor, d: Display, p: Prefs)
    requires var c := UniformsCallFor(w, d, p); E.WellFormedInputs(c.scale, c.cfg, w.width, w.height)
    ensures var c := UniformsCallFor(w, d, p);
      var u := E.UniformsAsWritten(c.scale, p.borderWidth, c.cfg, c.windowBounds, w.width, w.height);
      u.borderWidth == p.borderWidth * c.scale && u.borderColor == CfgFor(w.win, p).borderColor
  {
  }

  /** With a cache that holds only probe results, the cache never changes a verdict. */
  lemma ConsistentCacheIrrelevant(w: MetaWindow, cache: Option<AppType>, p: Prefs)
    requires cache.Some? ==> cache.value == Ui.GetAppType(w.maps)
    ensures Ui.ShouldEnableEffect(w, cache, p).enable == Ui.ShouldEnableEffect(w, None, p).enable
  {
  }

  /** The actors that onRestacked places below their shadows' windows: visible and with a record. */
  function RestackOrder(actors: seq<ActorId>, windows: map<ActorId, WindowActor>,
                        infos: map<ActorId, WindowInfo>): (r: seq<ActorId>)
    requires forall a | a in actors :: a in windows
    ensures forall b | b in r :: b in actors && b in infos && windows[b].visible
    ensures forall b | b in actors && b in infos && windows[b].visible :: b in r
  {
    if actors == [] then []
    else
      var rest := RestackOrder(actors[1..], windows, infos);
      assert forall b | b in actors[1..] :: b in actors;
      assert forall b | b in actors :: b == actors[0] || b in actors[1..];
      if windows[actors[0]].visible && actors[0] in infos then [actors[0]] + rest else rest
  }

  /** A prefix one longer holds what the shorter one holds and the next element. */
  lemma PrefixStep(s: seq<ActorId>, i: nat)
    requires i < |s|
    ensures s[..i + 1] == s[..i] + [s[i]]
  {
  }

  /** Storing a second value under the same window overwrites the first. */
  lemma OverwriteTwice<V>(m: map<ActorId, V>, a: ActorId, x: V, y: V)
    ensures m[a := x][a := y] == m[a := y]
  {
  }

  /**
   * The per-window state the handlers maintain, over a fixed set of window
   * actors, display and settings.
   */
  class Handlers {
    /** global.get_window_actors(), in stacking order. */
    const actors: seq<ActorId>
    const windows: map<ActorId, WindowActor>
    const display: Display
    const prefs: Prefs

    /**
     * Windows whose memory map was read, in order; each carries the `_appType`
     * cache from then on, holding what that read reported.
     */
    var probes: seq<ActorId>
    /** Windows with the rounded-corners effect attached, and that effect's `enabled`. */
    var effects: map<ActorId, bool>
    /** `__rwcRoundedWindowInfo` of each window actor. */
    var infos: map<ActorId, WindowInfo>
    /** The last update_uniforms call made on each window's effect. */
    var uniforms: map<ActorId, UniformsCall>
    var nextShadowId: nat
    var destroyedShadows: set<nat>
    /** Timeout sources removed with GLib.source_remove. */
    var removedTimeouts: set<nat>
    /** Windows whose shadow was placed below them, one entry per set_child_below_sibling call. */
    var restacks: seq<ActorId>

    /** The fixed environment: every window actor known and well formed. */
    ghost predicate Env()
    {
      && WellFormedEnv(windows, display, prefs)
      && (forall a | a in actors :: a in windows)
    }

    /** The cache holds probe results only, and every record belongs to a known window. */
    ghost predicate Valid()
      reads this
    {
      && Env()
      && (forall a | a in probes :: a in windows)
      && (forall i, j | 0 <= i < j < |probes| :: probes[i] != probes[j])
      && (forall a | a in effects :: a in windows)
      && (forall a | a in infos :: a in windows && |infos[a].shadow.offsets| == 4)
      && (forall a | a in uniforms :: a in effects)
    }

    constructor (actors: seq<ActorId>, windows: map<ActorId, WindowActor>, display: Display, prefs: Prefs)
      requires WellFormedEnv(windows, display, prefs)
      requires forall a | a in actors :: a in windows
      ensures Valid()
      ensures this.actors == actors && this.windows == windows && this.display == display && this.prefs == prefs
      ensures probes == [] && effects == map[] && infos == map[] && uniforms == map[]
    {
      this.actors := actors;
      this.windows := windows;
      this.display := display;
      this.prefs := prefs;
      probes := [];
      effects := map[];
      infos := map[];
      uniforms := map[];
      nextShadowId := 0;
      destroyedShadows := {};
      removedTimeouts := {};
      restacks := [];
    }


    /** Whether a window should have rounded corners now (independent of the cache). */
    ghost function Desired(a: ActorId): bool
      requires a in windows
    {
      Ui.ShouldEnableEffect(windows[a].win, None, prefs).enable
    }

    ghost function Style(a: ActorId): M.ShadowStyle
      requires Env() && a in windows
    {
      StyleFor(windows[a], prefs, display)
    }

    ghost function TargetUniforms(a: ActorId): UniformsCall
      requires a in windows
    {
      UniformsCallFor(windows[a], display, prefs)
    }

    /** shouldEnableEffect on a window, probing and caching its app type when it gets that far. */
    method ShouldEnable(a: ActorId) returns (should: bool)
      requires Valid() && a in windows
      modifies this`probes
      ensures Valid()
      ensures should == Desired(a)
      ensures probes == old(probes) || (a !in old(probes) && probes == old(probes) + [a])
    {
      var w := windows[a].win;
      var cache := if a in probes then Some(Ui.GetAppType(w.maps)) else None;
      ConsistentCacheIrrelevant(w, cache, prefs);
      var v := Ui.ShouldEnableEffect(w, cache, prefs);
      should := v.enable;
      if v.appTypeCache.Some? && a !in probes {
        probes := probes + [a];
      }
    }

    /** refreshShadow: restyles the window's shadow, if it has one. */
    method RefreshShadow(a: ActorId)
      requires Valid() && a in windows
      modifies this`infos
      ensures Valid()
      ensures a !in old(infos) ==> infos == old(infos)
      ensures a in old(infos) ==>
        infos == old(infos)[a := old(infos)[a].(shadow := old(infos)[a].shadow.(style := Some(Style(a))))]
    {
      if a !in infos {
        return;
      }
      var info := infos[a];
      infos := infos[a := info.(shadow := info.shadow.(style := Some(StyleFor(windows[a], prefs, display))))];
    }

    /** Gives each of the shadow's constraints, in order, its offset. */
    method SetConstraintOffsets(a: ActorId, target: seq<real>)
      requires Valid() && a in infos && |target| == 4
      modifies this`infos
      ensures Valid()
      ensures infos == old(infos)[a := old(infos)[a].(shadow := old(infos)[a].shadow.(offsets := target))]
    {
      var info := infos[a];
      var constraints := info.shadow.offsets;
      var i := 0;
      while i < |constraints|
        invariant 0 <= i <= |constraints| == 4
        invariant constraints[..i] == target[..i]
        invariant constraints[i..] == info.shadow.offsets[i..]
      {
        constraints := constraints[i := target[i]];
        i := i + 1;
      }
      assert constraints == constraints[..4] && target == target[..4];
      infos := infos[a := info.(shadow := info.shadow.(offsets := constraints))];
    }

    /** A record after refreshRoundedCorners: constraints rebound, shadow restyled if the effect flipped. */
    ghost function Rebound(info: WindowInfo, a: ActorId, restyle: bool): WindowInfo
      requires Env() && a in windows
    {
      info.(shadow := info.shadow.(offsets := ShadowOffsetsFor(windows[a], display),
                                   style := if restyle then Some(Style(a)) else info.shadow.style))
    }

    /**
     * refreshRoundedCorners (also the size-changed handler): for a window with
     * both the effect and the record, sets the effect's enabled flag to the
     * verdict (restyling the shadow when it flips), pushes the uniforms and
     * rebinds the shadow around the window.
     */
    method RefreshRoundedCorners(a: ActorId)
      requires Valid() && a in windows
      modifies this`probes, this`effects, this`infos, this`uniforms
      ensures Valid()
      ensures forall b | b in old(probes) :: b in probes
      ensures !(a in old(effects) && a in old(infos)) ==>
        (effects == old(effects) && infos == old(infos) && uniforms == old(uniforms))
      ensures a in old(effects) && a in old(infos) ==>
        && effects == old(effects)[a := Desired(a)]
        && uniforms == old(uniforms)[a := TargetUniforms(a)]
        && infos == old(infos)[a := Rebound(old(infos)[a], a, old(effects)[a] != Desired(a))]
    {
      if !(a in effects && a in infos) {
        return;
      }
      ghost var info, flipped := infos[a], effects[a] != Desired(a);
      ghost var restyled := info.(shadow := info.shadow.(style := if flipped then Some(Style(a)) else info.shadow.style));
      SyncEnabled(a);
      ghost var i1 := infos;
      assert i1 == old(infos)[a := restyled];
      PushGeometry(a);
      assert infos == i1[a := Rebound(info, a, flipped)];
      OverwriteTwice(old(infos), a, restyled, Rebound(info, a, flipped));
    }

    /** The first half of refreshRoundedCorners: the effect follows the verdict, restyling the shadow on a flip. */
    method SyncEnabled(a: ActorId)
      requires Valid() && a in effects && a in infos
      modifies this`probes, this`effects, this`infos
      ensures Valid()
      ensures forall b | b in old(probes) :: b in probes
      ensures effects == old(effects)[a := Desired(a)]
      ensures infos == old(infos)[a := old(infos)[a].(shadow := old(infos)[a].shadow.(
        style := if old(effects)[a] != Desired(a) then Some(Style(a)) else old(infos)[a].shadow.style))]
    {
      var should := ShouldEnable(a);
      if effects[a] != should {
        effects := effects[a := should];
        RefreshShadow(a);
      } else {
        assert effects == effects[a := should];
        assert infos == infos[a := infos[a].(shadow := infos[a].shadow.(style := infos[a].shadow.style))];
      }
    }

    /** The second half of refreshRoundedCorners: new uniforms, shadow constraints rebound. */
    method PushGeometry(a: ActorId)
      requires Valid() && a in effects && a in infos
      modifies this`infos, this`uniforms
      ensures Valid()
      ensures uniforms == old(uniforms)[a := TargetUniforms(a)]
      ensures infos == old(infos)[a := old(infos)[a].(shadow := old(infos)[a].shadow.(
        offsets := ShadowOffsetsFor(windows[a], display)))]
    {
      uniforms := uniforms[a := UniformsCallFor(windows[a], display, prefs)];
      SetConstraintOffsets(a, ShadowOffsetsFor(windows[a], display));
    }

    /**
     * onAddEffect: for a window that should have rounded corners, attaches
     * the effect and a new shadow bound to the window's visibility, stores
     * the record, then refreshes corners and shadow once.
     */
    method OnAddEffect(a: ActorId) returns (added: bool)
      requires Valid() && a in windows
      modifies this`probes, this`effects, this`infos, this`uniforms, this`nextShadowId
      ensures Valid()
      ensures added == Desired(a)
      ensures forall b | b in old(probes) :: b in probes
      ensures !added ==>
        (effects == old(effects) && infos == old(infos) && uniforms == old(uniforms)
         && nextShadowId == old(nextShadowId))
      ensures added ==>
        && effects == old(effects)[a := true]
        && uniforms == old(uniforms)[a := TargetUniforms(a)]
        && nextShadowId == old(nextShadowId) + 1
        && infos == old(infos)[a := WindowInfo(Shadow(old(nextShadowId), windows[a].visible,
                                         ShadowOffsetsFor(windows[a], display), Some(Style(a))), 0)]
    {
      added := ShouldEnable(a);
      if !added {
        return;
      }
      AddEffect(a);
    }

    /** The body of onAddEffect once the verdict is to enable. */
    method AddEffect(a: ActorId)
      requires Valid() && a in windows && Desired(a)
      modifies this`probes, this`effects, this`infos, this`uniforms, this`nextShadowId
      ensures Valid()
      ensures forall b | b in old(probes) :: b in probes
      ensures effects == old(effects)[a := true]
      ensures uniforms == old(uniforms)[a := TargetUniforms(a)]
      ensures nextShadowId == old(nextShadowId) + 1
      ensures infos == old(infos)[a := WindowInfo(Shadow(old(nextShadowId), windows[a].visible,
                                         ShadowOffsetsFor(windows[a], display), Some(Style(a))), 0)]
    {
      ghost var i0 := infos;
      var bound := AttachAndBind(a);
      RefreshShadow(a);
      OverwriteTwice(i0, a, bound, bound.(shadow := bound.shadow.(style := Some(Style(a)))));
    }

    /** The effect and a new shadow attached, then refreshRoundedCorners, which finds nothing to flip. */
    method AttachAndBind(a: ActorId) returns (ghost bound: WindowInfo)
      requires Valid() && a in windows && Desired(a)
      modifies this`probes, this`effects, this`infos, this`uniforms, this`nextShadowId
      ensures Valid()
      ensures forall b | b in old(probes) :: b in probes
      ensures effects == old(effects)[a := true]
      ensures uniforms == old(uniforms)[a := TargetUniforms(a)]
      ensures nextShadowId == old(nextShadowId) + 1
      ensures bound == WindowInfo(Shadow(old(nextShadowId), windows[a].visible, ShadowOffsetsFor(windows[a], display), None), 0)
      ensures infos == old(infos)[a := bound]
    {
      ghost var (i0, e0) := (infos, effects);
      var shadow := AttachEffectAndShadow(a);
      ghost var created := WindowInfo(shadow, 0);
      ghost var i1 := infos;
      assert a in effects && effects[a] == Desired(a) && i1 == i0[a := created];
      RefreshRoundedCorners(a);
      bound := Rebound(created, a, false);
      assert infos == i1[a := bound];
      OverwriteTwice(i0, a, created, bound);
      OverwriteTwice(e0, a, true, true);
    }

    /** Attaches an enabled effect and a fresh shadow (createShadow), and stores the new record. */
    method AttachEffectAndShadow(a: ActorId) returns (shadow: Shadow)
      requires Valid() && a in windows
      modifies this`effects, this`infos, this`nextShadowId
      ensures Valid()
      ensures effects == old(effects)[a := true] && nextShadowId == old(nextShadowId) + 1
      ensures shadow == Shadow(old(nextShadowId), windows[a].visible, [0.0, 0.0, 0.0, 0.0], None)
      ensures infos == old(infos)[a := WindowInfo(shadow, 0)]
    {
      effects := effects[a := true];
      ghost var i0 := infos;
      // createShadow restyles whatever record the actor still carries before the new one replaces it.
      RefreshShadow(a);
      shadow := Shadow(nextShadowId, windows[a].visible, [0.0, 0.0, 0.0, 0.0], None);
      nextShadowId := nextShadowId + 1;
      if a in i0 {
        OverwriteTwice(i0, a, infos[a], WindowInfo(shadow, 0));
      }
      infos := infos[a := WindowInfo(shadow, 0)];
    }

    /**
     * onRemoveEffect: detaches the effect, destroys the shadow, removes a
     * pending timeout and deletes the record.
     */
    method OnRemoveEffect(a: ActorId)
      requires Valid()
      modifies this`effects, this`infos, this`uniforms, this`destroyedShadows, this`removedTimeouts
      ensures Valid()
      ensures effects == old(effects) - {a} && infos == old(infos) - {a} && uniforms == old(uniforms) - {a}
      ensures destroyedShadows == old(destroyedShadows) + (if a in old(infos) then {old(infos)[a].shadow.id} else {})
      ensures removedTimeouts == old(removedTimeouts)
        + (if a in old(infos) && old(infos)[a].unminimizedTimeoutId != 0 then {old(infos)[a].unminimizedTimeoutId} else {})
    {
      effects := effects - {a};
      uniforms := uniforms - {a};
      if a in infos {
        destroyedShadows := destroyedShadows + {infos[a].shadow.id};
        var timeoutId := infos[a].unminimizedTimeoutId;
        if timeoutId != 0 {
          removedTimeouts := removedTimeouts + {timeoutId};
        }
      }
      infos := infos - {a};
    }

    /** onMinimize: with the magic-lamp minimize effect present, hides the shadow. */
    method OnMinimize(a: ActorId, magicLamp: bool)
      requires Valid()
      modifies this`infos
      ensures Valid()
      ensures magicLamp && a in old(infos) ==>
        infos == old(infos)[a := old(infos)[a].(shadow := old(infos)[a].shadow.(visible := false))]
      ensures !(magicLamp && a in old(infos)) ==> infos == old(infos)
    {
      if magicLamp && a in infos {
        var info := infos[a];
        infos := infos[a := info.(shadow := info.shadow.(visible := false))];
      }
    }

    /**
     * onUnminimize: with the magic-lamp unminimize effect present, hides the
     * shadow and shows it again on the first animation frame past 98%.
     * progress lists the progress of the animation's frames as they arrive.
     */
    method OnUnminimize(a: ActorId, magicLamp: bool, progress: seq<real>) returns (shownAt: Option<nat>)
      requires Valid()
      modifies this`infos
      ensures Valid()
      ensures magicLamp && a in old(infos) ==>
        (shownAt == MagicLamp.FirstFinishedFrame(progress)
         && infos == old(infos)[a := old(infos)[a].(shadow := old(infos)[a].shadow.(visible := shownAt.Some?))])
      ensures !(magicLamp && a in old(infos)) ==> shownAt.None? && infos == old(infos)
    {
      shownAt := None;
      if magicLamp && a in infos {
        var info := infos[a];
        infos := infos[a := info.(shadow := info.shadow.(visible := false))];
        shownAt := MagicLamp.RunFrameHandler(progress);
        if shownAt.Some? {
          infos := infos[a := info.(shadow := info.shadow.(visible := true))];
        }
      }
    }

    /** onRestacked: places every visible window's shadow directly below its window. */
    method OnRestacked()
      requires Valid()
      modifies this`restacks
      ensures Valid()
      ensures restacks == old(restacks) + RestackOrder(actors, windows, infos)
    {
      var i := 0;
      while i < |actors|
        invariant 0 <= i <= |actors|
        invariant restacks == old(restacks) + RestackOrder(actors[..i], windows, infos)
      {
        var a := actors[i];
        RestackPrefix(actors, i);
        if windows[a].visible && a in infos {
          restacks := restacks + [a];
        }
        i := i + 1;
      }
      assert actors[..i] == actors;
    }

    lemma RestackPrefix(s: seq<ActorId>, i: nat)
      requires i < |s| && forall a | a in s :: a in windows
      ensures RestackOrder(s[..i + 1], windows, infos) == RestackOrder(s[..i], windows, infos)
        + (if windows[s[i]].visible && s[i] in infos then [s[i]] else [])
    {
      RestackAppend(s[..i], [s[i]]);
      assert s[..i] + [s[i]] == s[..i + 1];
    }

    lemma {:induction false} RestackAppend(s: seq<ActorId>, t: seq<ActorId>)
      requires forall a | a in s + t :: a in windows
      ensures RestackOrder(s + t, windows, infos) == RestackOrder(s, windows, infos) + RestackOrder(t, windows, infos)
    {
      if s == [] {
        assert s + t == t;
      } else {
        assert (s + t)[1..] == s[1..] + t;
        RestackAppend(s[1..], t);
      }
    }

    /** refreshAllShadows: restyles the shadow of every window. */
    method RefreshAllShadows()
      requires Valid()
      modifies this`infos
      ensures Valid()
      ensures infos.Keys == old(infos.Keys)
      ensures forall b | b in infos && b in actors ::
        infos[b] == old(infos)[b].(shadow := old(infos)[b].shadow.(style := Some(Style(b))))
      ensures forall b | b in infos && b !in actors :: infos[b] == old(infos)[b]
    {
      var i := 0;
      while i < |actors|
        invariant 0 <= i <= |actors|
        invariant Valid()
        invariant RestyledUpTo(old(infos), i)
      {
        RestyleNext(old(infos), i);
        i := i + 1;
      }
      assert actors[..i] == actors;
    }

    /** The records after refreshShadow on the first n windows: those restyled, the rest as in f0. */
    ghost predicate RestyledUpTo(f0: map<ActorId, WindowInfo>, n: nat)
      reads this
      requires Env() && n <= |actors|
    {
      && infos.Keys == f0.Keys
      && (forall b | b in infos && b in actors[..n] ::
            infos[b] == f0[b].(shadow := f0[b].shadow.(style := Some(Style(b)))))
      && (forall b | b in infos && b !in actors[..n] :: infos[b] == f0[b])
    }

    /** One step of refreshAllShadows: refreshShadow on the next window. */
    method RestyleNext(ghost f0: map<ActorId, WindowInfo>, i: nat)
      requires Valid() && i < |actors| && RestyledUpTo(f0, i)
      modifies this`infos
      ensures Valid() && RestyledUpTo(f0, i + 1)
    {
      var a := actors[i];
      ghost var f1 := infos;
      RefreshShadow(a);
      PrefixStep(actors, i);
      forall b | b in infos && b in actors[..i + 1]
        ensures infos[b] == f0[b].(shadow := f0[b].shadow.(style := Some(Style(b))))
      {
        if b != a {
          assert b in actors[..i] && infos[b] == f1[b];
        }
      }
      forall b | b in infos && b !in actors[..i + 1]
        ensures infos[b] == f0[b]
      {
        assert b !in actors[..i] && b != a;
      }
    }

    /** Whether a window's corners are as refreshRoundedCorners leaves them. */
    ghost predicate CornersRefreshed(a: ActorId)
      reads this
      requires a in windows
    {
      RefreshedIn(effects, infos, uniforms, a)
    }

    ghost predicate RefreshedIn(effects: map<ActorId, bool>, infos: map<ActorId, WindowInfo>,
                                uniforms: map<ActorId, UniformsCall>, a: ActorId)
      requires a in windows
    {
      a in effects && a in infos ==>
        effects[a] == Desired(a) && a in uniforms && uniforms[a] == TargetUniforms(a)
        && infos[a].shadow.offsets == ShadowOffsetsFor(windows[a], display)
    }

    /**
     * refreshAllRoundedCorners: refreshes the corners of every window, then
     * every shadow.
     */
    method RefreshAllRoundedCorners()
      requires Valid()
      modifies this`probes, this`effects, this`infos, this`uniforms
      ensures Valid()
      ensures effects.Keys == old(effects.Keys) && infos.Keys == old(infos.Keys)
      ensures forall b | b in actors :: CornersRefreshed(b)
      ensures forall b | b in infos && b in actors :: infos[b].shadow.style == Some(Style(b))
    {
      var i := 0;
      while i < |actors|
        invariant 0 <= i <= |actors|
        invariant Valid()
        invariant effects.Keys == old(effects.Keys) && infos.Keys == old(infos.Keys)
        invariant forall b | b in actors[..i] :: RefreshedIn(effects, infos, uniforms, b)
      {
        RefreshNext(i);
        i := i + 1;
      }
      assert actors[..i] == actors;
      ghost var f1 := infos;
      RefreshAllShadows();
      forall b | b in actors
        ensures CornersRefreshed(b)
      {
        assert RefreshedIn(effects, f1, uniforms, b);
      }
    }

    /** One step of refreshAllRoundedCorners: refreshRoundedCorners on the next window. */
    method RefreshNext(i: nat)
      requires Valid() && i < |actors|
      requires forall b | b in actors[..i] :: RefreshedIn(effects, infos, uniforms, b)
      modifies this`probes, this`effects, this`infos, this`uniforms
      ensures Valid()
      ensures effects.Keys == old(effects.Keys) && infos.Keys == old(infos.Keys)
      ensures forall b | b in actors[..i + 1] :: RefreshedIn(effects, infos, uniforms, b)
    {
      var a := actors[i];
      RefreshRoundedCorners(a);
      PrefixStep(actors, i);
      forall b | b in actors[..i + 1]
        ensures RefreshedIn(effects, infos, uniforms, b)
      {
        if b != a {
          assert b in actors[..i];
          assert RefreshedIn(old(effects), old(infos), old(uniforms), b);
        }
      }
    }

    /**
     * refreshEffectState: walks the windows and fixes the first one whose
     * effect disagrees with its verdict (adding or removing it), then stops.
     * Returns that window's position, if any.
     */
    method RefreshEffectState() returns (fixed: Option<nat>)
      requires Valid()
      modifies this`probes, this`effects, this`infos, this`uniforms, this`nextShadowId,
        this`destroyedShadows, this`removedTimeouts
      ensures Valid()
      ensures fixed.None? ==> (effects == old(effects) && infos == old(infos)
        && forall b | b in actors :: (b in effects) == Desired(b))
      ensures fixed.Some? ==> fixed.value < |actors|
      ensures fixed.Some? && fixed.value < |actors| ==>
        var a := actors[fixed.value];
        && (a in old(effects)) != Desired(a) && (a in effects) == Desired(a)
        && (forall b | b != a :: b in effects <==> b in old(effects))
        && (forall j | 0 <= j < fixed.value :: (actors[j] in old(effects)) == Desired(actors[j]))
    {
      var i := 0;
      while i < |actors|
        invariant 0 <= i <= |actors|
        invariant Valid()
        invariant effects == old(effects) && infos == old(infos)
        invariant forall j | 0 <= j < i :: (actors[j] in effects) == Desired(actors[j])
      {
        var a := actors[i];
        var shouldHaveEffect := ShouldEnable(a);
        var hasEffect := a in effects;
        if shouldHaveEffect != hasEffect {
          FixEffect(a, shouldHaveEffect);
          return Some(i);
        }
        i := i + 1;
      }
      return None;
    }

    /** The branches of refreshEffectState that fix a window: add and refresh the effect, or remove it. */
    method FixEffect(a: ActorId, shouldHaveEffect: bool)
      requires Valid() && a in windows && shouldHaveEffect == Desired(a) && (a in effects) != shouldHaveEffect
      modifies this`probes, this`effects, this`infos, this`uniforms, this`nextShadowId,
        this`destroyedShadows, this`removedTimeouts
      ensures Valid()
      ensures (a in effects) == Desired(a)
      ensures forall b | b != a :: b in effects <==> b in old(effects)
    {
      if shouldHaveEffect {
        var _ := OnAddEffect(a);
        RefreshRoundedCorners(a);
      } else {
        OnRemoveEffect(a);
      }
    }

    /** onSettingsChanged: the refresh, if any, that the changed key calls for. */
    method OnSettingsChanged(key: string)
      requires Valid()
      modifies this`probes, this`effects, this`infos, this`uniforms, this`nextShadowId,
        this`destroyedShadows, this`removedTimeouts
      ensures Valid()
      ensures RefreshFor(key) == NoRefresh ==>
        (effects == old(effects) && infos == old(infos) && uniforms == old(uniforms) && probes == old(probes))
      ensures RefreshFor(key) == AllShadows ==>
        (effects == old(effects) && uniforms == old(uniforms) && infos.Keys == old(infos.Keys)
         && forall b | b in infos && b in actors :: infos[b].shadow.style == Some(Style(b)))
      ensures RefreshFor(key) == AllRoundedCorners ==>
        (effects.Keys == old(effects.Keys) && forall b | b in actors :: CornersRefreshed(b))
    {
      match RefreshFor(key)
      case EffectState =>
        var _ := RefreshEffectState();
      case AllShadows =>
        RefreshAllShadows();
      case AllRoundedCorners =>
        RefreshAllRoundedCorners();
      case NoRefresh =>
    }
  }
}
