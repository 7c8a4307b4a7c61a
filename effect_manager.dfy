// The window-actor tracker (manager/effect_manager.ts): connects shell
// signals to a list of effect managers, attaches to each window once its
// surface and texture exist, filters size notifications that do not change
// the size, and releases everything on disable.
module EffectManager {
  import opened Wrappers
  import opened Types
  import MagicLamp

  /** An effect manager in the tracker's list. */
  type ManagerId = nat

  /** The objects whose signals the tracker connects. */
  datatype Source =
    | SettingsObj
    | DisplayObj
    | WindowManagerObj
    | ActorObj(actor: ActorId)
    | TextureObj(actor: ActorId)
    | MetaWindowObj(actor: ActorId)
    | FirstChildObj(actor: ActorId)

  /** A connection held by the tracker's Connections object. */
  datatype Connection = Connection(source: Source, signal: string)

  /** A connection made directly on an object, that disconnects itself after firing once. */
  datatype OneShot = OneShot(id: nat, source: Source, signal: string, actor: ActorId)

  /** A callback the tracker runs on a manager. */
  datatype Call =
    | OnSettingsChanged(key: string)
    | OnAddEffect(actor: ActorId)
    | OnSizeChanged(actor: ActorId)
    | OnFocusChanged(actor: ActorId)
    | OnMinimize(actor: ActorId)
    | OnUnminimize(actor: ActorId)
    | OnRemoveEffect(actor: ActorId)
    | OnRestacked(actor: ActorId)
    | OnSwitchWorkspace(actor: ActorId)

  datatype ManagerCall = ManagerCall(manager: ManagerId, call: Call)

  datatype Size = Size(width: real, height: real)

  /** `run(exec)`: the callback applied to every manager, in list order. */
  function RunCalls(managers: seq<ManagerId>, c: Call): (r: seq<ManagerCall>)
    ensures |r| == |managers|
  {
    if managers == [] then [] else [ManagerCall(managers[0], c)] + RunCalls(managers[1..], c)
  }

  /** The k-th callback run goes to the k-th manager. */
  lemma {:induction false} RunCallsAt(managers: seq<ManagerId>, c: Call, k: nat)
    requires k < |managers|
    ensures RunCalls(managers, c)[k] == ManagerCall(managers[k], c)
  {
    if k > 0 {
      RunCallsAt(managers[1..], c, k - 1);
    }
  }

  /** On a ready window each manager gets on_add_effect, on_size_changed and on_focus_changed, in turn. */
  function ReadyCalls(managers: seq<ManagerId>, a: ActorId): (r: seq<ManagerCall>)
    ensures |r| == 3 * |managers|
    ensures forall k | 0 <= k < |managers| ::
      r[3 * k] == ManagerCall(managers[k], OnAddEffect(a))
      && r[3 * k + 1] == ManagerCall(managers[k], OnSizeChanged(a))
      && r[3 * k + 2] == ManagerCall(managers[k], OnFocusChanged(a))
  {
    if managers == [] then []
    else
      var m := managers[0];
      var rest := ReadyCalls(managers[1..], a);
      assert forall k | 1 <= k < |managers| :: managers[k] == managers[1..][k - 1];
      [ManagerCall(m, OnAddEffect(a)), ManagerCall(m, OnSizeChanged(a)), ManagerCall(m, OnFocusChanged(a))] + rest
  }

  /** The connections actor_is_ready makes, in order. */
  function ReadyConnections(a: ActorId): seq<Connection>
  {
    [ Connection(TextureObj(a), "size-changed"),
      Connection(ActorObj(a), "notify::size"),
      Connection(MetaWindowObj(a), "notify::appears-focused"),
      Connection(MetaWindowObj(a), "workspace-changed") ]
  }

  /** The one-shot wait actor_is_ready leaves on the surface's first notify::size (shells from 43.1 on). */
  function SurfaceWait(a: ActorId, id: nat, shellAtLeast431: bool): (r: seq<OneShot>)
    ensures |r| <= 1
  {
    if shellAtLeast431 then [OneShot(id, FirstChildObj(a), "notify::size", a)] else []
  }

  /** The one-shot wait _add_effect leaves for a first child that is still missing. */
  function FirstChildWait(a: ActorId, id: nat): seq<OneShot>
  {
    [OneShot(id, ActorObj(a), "notify::first-child", a)]
  }

  /** The global connections enable makes after the windows (the settings one comes first). */
  const GLOBAL_CONNECTIONS: seq<Connection> := [
    Connection(DisplayObj, "window-created"),
    Connection(WindowManagerObj, "switch-workspace"),
    Connection(WindowManagerObj, "minimize"),
    Connection(WindowManagerObj, "unminimize"),
    Connection(WindowManagerObj, "destroy"),
    Connection(DisplayObj, "restacked")
  ]

  const SETTINGS_CONNECTION := Connection(SettingsObj, "changed")

  /**
   * The notify::size filter: the new stored size and whether the managers
   * are told. A missing stored size (the record was deleted) stops the
   * handler before it changes anything.
   */
  function SizeNotification(last: Option<Size>, current: Size): (r: (Option<Size>, bool))
    ensures last.None? ==> r == (None, false)
    ensures last.Some? ==> r.0 == Some(current) && (r.1 <==> last.value != current)
  {
    match last
    case None => (None, false)
    case Some(s) => if s != current then (Some(current), true) else (Some(s), false)
  }

  /** A second notification of the same size refreshes nothing. */
  lemma RepeatedSizeIsFiltered(last: Option<Size>, current: Size)
    ensures !SizeNotification(SizeNotification(last, current).0, current).1
    ensures SizeNotification(SizeNotification(last, current).0, current).0 == SizeNotification(last, current).0
  {
  }

  /** disconnect_all(object): drops every connection on that object, keeping the others in order. */
  function DisconnectAll(table: seq<Connection>, source: Source): (r: seq<Connection>)
    ensures |r| <= |table|
  {
    if table == [] then []
    else
      var rest := DisconnectAll(table[1..], source);
      if table[0].source == source then rest else [table[0]] + rest
  }

  lemma {:induction false} DisconnectAllExactly(table: seq<Connection>, source: Source, c: Connection)
    ensures c in DisconnectAll(table, source) <==> c in table && c.source != source
  {
    if table != [] {
      DisconnectAllExactly(table[1..], source, c);
      assert c in table <==> c == table[0] || c in table[1..];
    }
  }

  /** What _remove_effect leaves: nothing on the texture, the actor, its window or its first child. */
  function WithoutWindow(table: seq<Connection>, a: ActorId): seq<Connection>
  {
    DisconnectAll(DisconnectAll(DisconnectAll(DisconnectAll(table, TextureObj(a)), ActorObj(a)),
      MetaWindowObj(a)), FirstChildObj(a))
  }

  /** Unlike removeEffectFrom in the event manager, the tracker releases every window-owned connection. */
  lemma {:induction false} RemovalReleasesWindow(table: seq<Connection>, a: ActorId, c: Connection)
    ensures c in WithoutWindow(table, a) <==>
      c in table && c.source !in {TextureObj(a), ActorObj(a), MetaWindowObj(a), FirstChildObj(a)}
  {
    var t1 := DisconnectAll(table, TextureObj(a));
    var t2 := DisconnectAll(t1, ActorObj(a));
    var t3 := DisconnectAll(t2, MetaWindowObj(a));
    DisconnectAllExactly(table, TextureObj(a), c);
    DisconnectAllExactly(t1, ActorObj(a), c);
    DisconnectAllExactly(t2, MetaWindowObj(a), c);
    DisconnectAllExactly(t3, FirstChildObj(a), c);
  }

  /** Whether actor_is_ready attaches to a window: connections exist and the texture does. */
  predicate AttachesTo(connected: bool, a: ActorId, withTexture: set<ActorId>)
  {
    connected && a in withTexture
  }

  /**
   * The tracker's fields and the shell state it reads: which actors have a
   * texture, a first child, a WM class, their sizes and visibility, and
   * which managers implement on_switch_workspace.
   */
  class Tracker {
    /** global.get_window_actors() when the effect is enabled. */
    const actors: seq<ActorId>
    const withTexture: set<ActorId>
    const visible: set<ActorId>
    /** shell_version() >= 43.1 */
    const shellAtLeast431: bool
    /** Managers that implement on_switch_workspace. */
    const withSwitchHandler: set<ManagerId>

    var withFirstChild: set<ActorId>
    var withWmClass: set<ActorId>
    var sizes: map<ActorId, Size>

    var managers: seq<ManagerId>
    /** None while disabled (`connections = null`). */
    var connections: Option<seq<Connection>>
    /** `__rwc_last_size` of each actor. */
    var lastSize: map<ActorId, Size>
    var oneShots: seq<OneShot>
    var nextId: nat
    var calls: seq<ManagerCall>

    constructor (actors: seq<ActorId>, withTexture: set<ActorId>, visible: set<ActorId>, shellAtLeast431: bool,
                 withSwitchHandler: set<ManagerId>, withFirstChild: set<ActorId>, withWmClass: set<ActorId>,
                 sizes: map<ActorId, Size>)
      ensures this.actors == actors && this.withTexture == withTexture && this.visible == visible
      ensures this.shellAtLeast431 == shellAtLeast431 && this.withSwitchHandler == withSwitchHandler
      ensures this.withFirstChild == withFirstChild && this.withWmClass == withWmClass && this.sizes == sizes
      ensures managers == [] && connections == None && lastSize == map[] && oneShots == [] && calls == []
    {
      this.actors := actors;
      this.withTexture := withTexture;
      this.visible := visible;
      this.shellAtLeast431 := shellAtLeast431;
      this.withSwitchHandler := withSwitchHandler;
      this.withFirstChild := withFirstChild;
      this.withWmClass := withWmClass;
      this.sizes := sizes;
      managers := [];
      connections := None;
      lastSize := map[];
      oneShots := [];
      nextId := 0;
      calls := [];
    }

    /** run: applies a callback to every manager, in list order. */
    method Run(c: Call)
      modifies this`calls
      ensures calls == old(calls) + RunCalls(managers, c)
    {
      var i := 0;
      while i < |managers|
        invariant 0 <= i <= |managers|
        invariant calls == old(calls) + RunCalls(managers[..i], c)
      {
        RunCallsStep(managers, i, c);
        calls := calls + [ManagerCall(managers[i], c)];
        i := i + 1;
      }
      assert managers[..i] == managers;
    }

    lemma RunCallsStep(ms: seq<ManagerId>, i: nat, c: Call)
      requires i < |ms|
      ensures RunCalls(ms[..i + 1], c) == RunCalls(ms[..i], c) + [ManagerCall(ms[i], c)]
    {
      var l, r := RunCalls(ms[..i + 1], c), RunCalls(ms[..i], c) + [ManagerCall(ms[i], c)];
      assert |l| == |r|;
      forall k | 0 <= k < |l| ensures l[k] == r[k] {
        RunCallsAt(ms[..i + 1], c, k);
        if k < i {
          RunCallsAt(ms[..i], c, k);
        }
      }
    }

    /**
     * actor_is_ready: with connections and a texture, connects the texture's
     * and actor's size signals (storing a zero last size), the surface's
     * first notify::size on shells from 43.1 on, the window's focus and
     * workspace signals, then runs add, size and focus on every manager.
     */
    method ActorIsReady(a: ActorId)
      modifies this`connections, this`lastSize, this`oneShots, this`nextId, this`calls
      ensures var attach := AttachesTo(old(connections).Some?, a, withTexture);
        var waits := if attach then SurfaceWait(a, old(nextId), shellAtLeast431) else [];
        && connections == (if attach then Some(old(connections).value + ReadyConnections(a)) else old(connections))
        && lastSize == (if attach then old(lastSize)[a := Size(0.0, 0.0)] else old(lastSize))
        && oneShots == old(oneShots) + waits
        && nextId == old(nextId) + |waits|
        && calls == old(calls) + (if attach then ReadyCalls(managers, a) else [])
    {
      if !AttachesTo(connections.Some?, a, withTexture) {
        return;
      }
      ghost var before := connections.value;
      connections := Some(connections.value + [Connection(TextureObj(a), "size-changed")]);
      lastSize := lastSize[a := Size(0.0, 0.0)];
      connections := Some(connections.value + [Connection(ActorObj(a), "notify::size")]);
      if shellAtLeast431 {
        oneShots := oneShots + [OneShot(nextId, FirstChildObj(a), "notify::size", a)];
        nextId := nextId + 1;
      }
      connections := Some(connections.value + [Connection(MetaWindowObj(a), "notify::appears-focused")]);
      connections := Some(connections.value + [Connection(MetaWindowObj(a), "workspace-changed")]);
      assert connections.value == before + ReadyConnections(a);
      RunReadyHandlers(a);
    }

    /** The end of actorIsReady: onAddEffect, onSizeChanged and onFocusChanged on every manager, in order. */
    method RunReadyHandlers(a: ActorId)
      modifies this`calls
      ensures calls == old(calls) + ReadyCalls(managers, a)
    {
      var i := 0;
      while i < |managers|
        invariant 0 <= i <= |managers|
        invariant calls == old(calls) + ReadyCalls(managers[..i], a)
      {
        ReadyCallsStep(managers, i, a);
        var m := managers[i];
        calls := calls + [ManagerCall(m, OnAddEffect(a)), ManagerCall(m, OnSizeChanged(a)), ManagerCall(m, OnFocusChanged(a))];
        i := i + 1;
      }
      assert managers[..i] == managers;
    }

    lemma ReadyCallsStep(ms: seq<ManagerId>, i: nat, a: ActorId)
      requires i < |ms|
      ensures ReadyCalls(ms[..i + 1], a) == ReadyCalls(ms[..i], a)
        + [ManagerCall(ms[i], OnAddEffect(a)), ManagerCall(ms[i], OnSizeChanged(a)), ManagerCall(ms[i], OnFocusChanged(a))]
    {
      var l := ReadyCalls(ms[..i + 1], a);
      var r := ReadyCalls(ms[..i], a)
        + [ManagerCall(ms[i], OnAddEffect(a)), ManagerCall(ms[i], OnSizeChanged(a)), ManagerCall(ms[i], OnFocusChanged(a))];
      assert |l| == |r|;
      forall j | 0 <= j < |l| ensures l[j] == r[j] {
        var k := j / 3;
        assert j == 3 * k || j == 3 * k + 1 || j == 3 * k + 2;
        assert ms[..i + 1][k] == ms[k];
      }
    }

    /** _add_effect: attaches now if the actor has a first child, else once it gets one. */
    method AddEffect(a: ActorId)
      modifies this`connections, this`lastSize, this`oneShots, this`nextId, this`calls
      ensures var attach := a in withFirstChild && AttachesTo(old(connections).Some?, a, withTexture);
        var waits := AddEffectWaits(a, old(nextId), old(connections).Some?, withFirstChild, withTexture, shellAtLeast431);
        && connections == (if attach then Some(old(connections).value + ReadyConnections(a)) else old(connections))
        && lastSize == (if attach then old(lastSize)[a := Size(0.0, 0.0)] else old(lastSize))
        && oneShots == old(oneShots) + waits
        && nextId == old(nextId) + |waits|
        && calls == old(calls) + (if attach then ReadyCalls(managers, a) else [])
    {
      if a in withFirstChild {
        ActorIsReady(a);
      } else {
        oneShots := oneShots + [OneShot(nextId, ActorObj(a), "notify::first-child", a)];
        nextId := nextId + 1;
      }
    }

    /**
     * enable: new connections and the one manager, the settings connection,
     * the effect added to every current window, then the global connections.
     */
    method Enable(manager: ManagerId)
      modifies this`managers, this`connections, this`lastSize, this`oneShots, this`nextId, this`calls
      ensures managers == [manager]
      ensures connections == Some([SETTINGS_CONNECTION] + EnableConnections(actors, withFirstChild * withTexture)
                                  + GLOBAL_CONNECTIONS)
      ensures lastSize == ZeroSizes(old(lastSize), actors, withFirstChild * withTexture)
      ensures oneShots == old(oneShots) + EnableWaits(actors, withFirstChild, withTexture, shellAtLeast431, old(nextId))
      ensures nextId == old(nextId) + |EnableWaits(actors, withFirstChild, withTexture, shellAtLeast431, old(nextId))|
      ensures calls == old(calls) + EnableCalls(manager, actors, withFirstChild * withTexture)
    {
      connections := Some([]);
      managers := [manager];
      connections := Some(connections.value + [SETTINGS_CONNECTION]);
      ghost var ready := withFirstChild * withTexture;
      var i := 0;
      assert actors[..0] == [] && connections.value == [SETTINGS_CONNECTION] + EnableConnections(actors[..0], ready);
      while i < |actors|
        invariant 0 <= i <= |actors|
        invariant EnabledUpTo(manager, i, old(lastSize), old(oneShots), old(nextId), old(calls))
      {
        EnableStep(manager, i, old(lastSize), old(oneShots), old(nextId), old(calls));
        i := i + 1;
      }
      assert actors[..i] == actors;
      connections := Some(connections.value + GLOBAL_CONNECTIONS);
    }

    /** The state enable's loop has reached after adding the effect to the first i windows. */
    ghost predicate EnabledUpTo(manager: ManagerId, i: nat, lastSize0: map<ActorId, Size>, oneShots0: seq<OneShot>,
                                nextId0: nat, calls0: seq<ManagerCall>)
      requires i <= |actors|
      reads this
    {
      var ready := withFirstChild * withTexture;
      var waits := EnableWaits(actors[..i], withFirstChild, withTexture, shellAtLeast431, nextId0);
      && managers == [manager]
      && connections == Some([SETTINGS_CONNECTION] + EnableConnections(actors[..i], ready))
      && lastSize == ZeroSizes(lastSize0, actors[..i], ready)
      && oneShots == oneShots0 + waits
      && nextId == nextId0 + |waits|
      && calls == calls0 + EnableCalls(manager, actors[..i], ready)
    }

    /** One turn of enable's loop: _add_effect on the i-th window. */
    method EnableStep(manager: ManagerId, i: nat, ghost lastSize0: map<ActorId, Size>, ghost oneShots0: seq<OneShot>,
                      ghost nextId0: nat, ghost calls0: seq<ManagerCall>)
      requires i < |actors| && EnabledUpTo(manager, i, lastSize0, oneShots0, nextId0, calls0)
      modifies this`connections, this`lastSize, this`oneShots, this`nextId, this`calls
      ensures EnabledUpTo(manager, i + 1, lastSize0, oneShots0, nextId0, calls0)
    {
      ghost var ready := withFirstChild * withTexture;
      var a := actors[i];
      ghost var before := connections.value;
      AddEffect(a);
      assert actors[..i + 1][..i] == actors[..i];
      assert connections == Some([SETTINGS_CONNECTION] + EnableConnections(actors[..i + 1], ready)) by {
        assert connections.value == before + (if a in ready then ReadyConnections(a) else []);
        assert connections.value == [SETTINGS_CONNECTION] + EnableConnections(actors[..i + 1], ready);
      }
      assert lastSize == ZeroSizes(lastSize0, actors[..i + 1], ready) by {
        ZeroSizesStep(lastSize0, actors, i, ready);
      }
      assert oneShots == oneShots0 + EnableWaits(actors[..i + 1], withFirstChild, withTexture, shellAtLeast431, nextId0)
          && nextId == nextId0 + |EnableWaits(actors[..i + 1], withFirstChild, withTexture, shellAtLeast431, nextId0)| by {
        EnableWaitsStep(actors, withFirstChild, withTexture, shellAtLeast431, nextId0, i);
      }
      assert calls == calls0 + EnableCalls(manager, actors[..i + 1], ready) by {
        assert actors[..i + 1] == actors[..i] + [a];
        EnableCallsAppend(manager, actors[..i], [a], ready);
        assert EnableCalls(manager, [a], ready)
          == (if a in ready then ReadyCalls([manager], a) else []) by { assert [a][1..] == []; }
      }
    }

    /** _remove_effect: forgets the last size, releases the window's connections when it can, then tells the managers. */
    method RemoveEffect(a: ActorId)
      modifies this`lastSize, this`connections, this`calls
      ensures lastSize == old(lastSize) - {a}
      ensures connections == if old(connections).Some? && a in withTexture
        then Some(WithoutWindow(old(connections).value, a)) else old(connections)
      ensures calls == old(calls) + RunCalls(managers, OnRemoveEffect(a))
    {
      lastSize := lastSize - {a};
      if connections.Some? && a in withTexture {
        var t := connections.value;
        t := DisconnectAll(t, TextureObj(a));
        t := DisconnectAll(t, ActorObj(a));
        t := DisconnectAll(t, MetaWindowObj(a));
        t := DisconnectAll(t, FirstChildObj(a));
        connections := Some(t);
      }
      Run(OnRemoveEffect(a));
    }

    /**
     * disable: removes the effect from every current window, then drops all
     * connections. The windows are global.get_window_actors() at that moment.
     */
    method Disable(windows: seq<ActorId>)
      modifies this`lastSize, this`connections, this`calls
      ensures connections == None
      ensures lastSize == Forget(old(lastSize), windows)
      ensures calls == old(calls) + RemoveCalls(managers, windows)
    {
      var i := 0;
      while i < |windows|
        invariant 0 <= i <= |windows|
        invariant lastSize == Forget(old(lastSize), windows[..i])
        invariant calls == old(calls) + RemoveCalls(managers, windows[..i])
      {
        DisableStep(windows, i, old(lastSize), old(calls));
        i := i + 1;
      }
      assert windows[..i] == windows;
      connections := None;
    }

    /** One turn of the disable loop: the next window's effect is removed. */
    method DisableStep(windows: seq<ActorId>, i: nat, ghost lastSize0: map<ActorId, Size>, ghost calls0: seq<ManagerCall>)
      requires i < |windows|
      requires lastSize == Forget(lastSize0, windows[..i]) && calls == calls0 + RemoveCalls(managers, windows[..i])
      modifies this`lastSize, this`connections, this`calls
      ensures lastSize == Forget(lastSize0, windows[..i + 1]) && calls == calls0 + RemoveCalls(managers, windows[..i + 1])
    {
      var a := windows[i];
      RemoveEffect(a);
      RemoveCallsStep(managers, windows, i);
      assert windows[..i + 1][..i] == windows[..i];
    }

    /** The window-created handler: waits for a WM class with a one-shot connection, or adds the effect. */
    method OnWindowCreated(a: ActorId)
      modifies this`connections, this`lastSize, this`oneShots, this`nextId, this`calls
      ensures a !in withWmClass ==>
        (connections == old(connections) && lastSize == old(lastSize) && calls == old(calls)
         && oneShots == old(oneShots) + [OneShot(old(nextId), MetaWindowObj(a), "notify::wm-class", a)]
         && nextId == old(nextId) + 1)
      ensures a in withWmClass ==> (
        var attach := a in withFirstChild && AttachesTo(old(connections).Some?, a, withTexture);
        var waits := AddEffectWaits(a, old(nextId), old(connections).Some?, withFirstChild, withTexture, shellAtLeast431);
        && connections == (if attach then Some(old(connections).value + ReadyConnections(a)) else old(connections))
        && lastSize == (if attach then old(lastSize)[a := Size(0.0, 0.0)] else old(lastSize))
        && oneShots == old(oneShots) + waits
        && nextId == old(nextId) + |waits|
        && calls == old(calls) + (if attach then ReadyCalls(managers, a) else []))
    {
      if a !in withWmClass {
        oneShots := oneShots + [OneShot(nextId, MetaWindowObj(a), "notify::wm-class", a)];
        nextId := nextId + 1;
      } else {
        AddEffect(a);
      }
    }

    /** The actor's notify::size handler: tells the managers only when the size really changed. */
    method OnActorSize(a: ActorId)
      requires a in sizes
      modifies this`lastSize, this`calls
      ensures var (last, fire) := SizeNotification(if a in old(lastSize) then Some(old(lastSize)[a]) else None, sizes[a]);
        && lastSize == (if last.Some? then old(lastSize)[a := last.value] else old(lastSize))
        && calls == old(calls) + (if fire then RunCalls(managers, OnSizeChanged(a)) else [])
    {
      if a !in lastSize {
        return;
      }
      var lastSizeEntry := lastSize[a];
      if lastSizeEntry != sizes[a] {
        lastSize := lastSize[a := sizes[a]];
        Run(OnSizeChanged(a));
      } else {
        assert lastSize == lastSize[a := lastSizeEntry];
      }
    }

    /** The window's notify::appears-focused and workspace-changed handlers. */
    method FocusSignal(a: ActorId)
      modifies this`calls
      ensures calls == old(calls) + RunCalls(managers, OnFocusChanged(a))
    {
      Run(OnFocusChanged(a));
    }

    /** The texture's size-changed handler. */
    method OnTextureSize(a: ActorId)
      modifies this`calls
      ensures calls == old(calls) + RunCalls(managers, OnSizeChanged(a))
    {
      Run(OnSizeChanged(a));
    }

    /** The shell resizes an actor. */
    method Resize(a: ActorId, s: Size)
      modifies this`sizes
      ensures sizes == old(sizes)[a := s]
    {
      sizes := sizes[a := s];
    }

    method SettingsChangedSignal(key: string)
      modifies this`calls
      ensures calls == old(calls) + RunCalls(managers, OnSettingsChanged(key))
    {
      Run(OnSettingsChanged(key));
    }

    method MinimizeSignal(a: ActorId)
      modifies this`calls
      ensures calls == old(calls) + RunCalls(managers, OnMinimize(a))
    {
      Run(OnMinimize(a));
    }

    /**
     * The unminimize handler: with the magic-lamp effect, on_unminimize runs
     * once, on the first frame past 98% (never if none comes); without it,
     * at once.
     */
    method OnUnminimizeSignal(a: ActorId, magicLamp: bool, progress: seq<real>) returns (ranAt: Option<nat>)
      modifies this`calls
      ensures magicLamp ==> ranAt == MagicLamp.FirstFinishedFrame(progress)
      ensures !magicLamp ==> ranAt == Some(0)
      ensures calls == old(calls) + (if ranAt.Some? then RunCalls(managers, OnUnminimize(a)) else [])
    {
      if magicLamp {
        ranAt := MagicLamp.RunFrameHandler(progress);
        if ranAt.Some? {
          Run(OnUnminimize(a));
        }
        return;
      }
      Run(OnUnminimize(a));
      ranAt := Some(0);
    }

    /** The switch-workspace handler: every manager with on_switch_workspace gets each window of the target workspace. */
    method SwitchWorkspaceSignal(windows: seq<ActorId>)
      modifies this`calls
      ensures calls == old(calls) + SwitchCalls(managers, withSwitchHandler, windows)
    {
      var i := 0;
      while i < |managers|
        invariant 0 <= i <= |managers|
        invariant calls == old(calls) + SwitchCalls(managers[..i], withSwitchHandler, windows)
      {
        var m := managers[i];
        SwitchCallsAppend(managers[..i], [m], withSwitchHandler, windows);
        assert managers[..i + 1] == managers[..i] + [m];
        if m in withSwitchHandler {
          var j := 0;
          while j < |windows|
            invariant 0 <= j <= |windows|
            invariant calls == old(calls) + SwitchCalls(managers[..i], withSwitchHandler, windows)
              + WindowCalls(m, windows[..j])
          {
            assert windows[..j + 1] == windows[..j] + [windows[j]];
            WindowCallsAppend(m, windows[..j], [windows[j]]);
            calls := calls + [ManagerCall(m, OnSwitchWorkspace(windows[j]))];
            j := j + 1;
          }
          assert windows[..j] == windows;
          assert SwitchCalls([m], withSwitchHandler, windows) == WindowCalls(m, windows);
        } else {
          assert SwitchCalls([m], withSwitchHandler, windows) == [];
        }
        i := i + 1;
      }
      assert managers[..i] == managers;
    }

    /**
     * The restacked handler: on_restacked on every manager for each visible
     * window of global.get_window_actors() at that moment, in order.
     */
    method OnRestackedSignal(windows: seq<ActorId>)
      modifies this`calls
      ensures calls == old(calls) + RestackCalls(managers, windows, visible)
    {
      var i := 0;
      while i < |windows|
        invariant 0 <= i <= |windows|
        invariant calls == old(calls) + RestackCalls(managers, windows[..i], visible)
      {
        var a := windows[i];
        assert windows[..i + 1] == windows[..i] + [a];
        RestackCallsAppend(managers, windows[..i], [a], visible);
        assert RestackCalls(managers, [a], visible)
          == (if a in visible then RunCalls(managers, OnRestacked(a)) else []) by { assert [a][1..] == []; }
        if a in visible {
          Run(OnRestacked(a));
        }
        i := i + 1;
      }
      assert windows[..i] == windows;
    }

    /** The shell gives an actor its first child or a window its WM class. */
    method SetFirstChild(a: ActorId)
      modifies this`withFirstChild
      ensures withFirstChild == old(withFirstChild) + {a}
    {
      withFirstChild := withFirstChild + {a};
    }

    method SetWmClass(a: ActorId)
      modifies this`withWmClass
      ensures withWmClass == old(withWmClass) + {a}
    {
      withWmClass := withWmClass + {a};
    }

    /**
     * The one-shot connection at position k fires: a first child appearing
     * makes the actor ready, a WM class being set adds the effect, the
     * surface's first resize refreshes the managers; then it disconnects.
     */
    method FireOneShot(k: nat)
      requires k < |oneShots|
      modifies this`connections, this`lastSize, this`oneShots, this`nextId, this`calls
      ensures var w := old(oneShots)[k];
        var childWait, classWait := w.signal == "notify::first-child", w.signal == "notify::wm-class";
        var attach := (childWait || (classWait && w.actor in withFirstChild))
          && AttachesTo(old(connections).Some?, w.actor, withTexture);
        var waits := if childWait then (if attach then SurfaceWait(w.actor, old(nextId), shellAtLeast431) else [])
          else if classWait then AddEffectWaits(w.actor, old(nextId), old(connections).Some?, withFirstChild, withTexture, shellAtLeast431)
          else [];
        && connections == (if attach then Some(old(connections).value + ReadyConnections(w.actor)) else old(connections))
        && lastSize == (if attach then old(lastSize)[w.actor := Size(0.0, 0.0)] else old(lastSize))
        && oneShots == old(oneShots)[..k] + old(oneShots)[k + 1..] + waits
        && nextId == old(nextId) + |waits|
        && calls == old(calls) + (if attach then ReadyCalls(managers, w.actor)
                                  else if childWait || classWait then [] else RunCalls(managers, OnSizeChanged(w.actor)))
    {
      var w := oneShots[k];
      if w.signal == "notify::first-child" {
        ActorIsReady(w.actor);
      } else if w.signal == "notify::wm-class" {
        AddEffect(w.actor);
      } else {
        Run(OnSizeChanged(w.actor));
      }
      // the callbacks above only append, so the fired connection is still at position k
      RemoveBeforeAppended(old(oneShots), oneShots[|old(oneShots)|..], k);
      assert oneShots == old(oneShots) + oneShots[|old(oneShots)|..];
      oneShots := oneShots[..k] + oneShots[k + 1..];
    }
  }

  /** Removing an entry of s from s + t is removing it from s, then appending t. */
  lemma RemoveBeforeAppended<T>(s: seq<T>, t: seq<T>, k: nat)
    requires k < |s|
    ensures (s + t)[..k] + (s + t)[k + 1..] == s[..k] + s[k + 1..] + t
  {
    assert (s + t)[..k] == s[..k];
    assert (s + t)[k + 1..] == s[k + 1..] + t;
  }

  function WindowCalls(m: ManagerId, windows: seq<ActorId>): (r: seq<ManagerCall>)
    ensures |r| == |windows|
  {
    if windows == [] then [] else [ManagerCall(m, OnSwitchWorkspace(windows[0]))] + WindowCalls(m, windows[1..])
  }

  lemma {:induction false} WindowCallsAppend(m: ManagerId, s: seq<ActorId>, t: seq<ActorId>)
    ensures WindowCalls(m, s + t) == WindowCalls(m, s) + WindowCalls(m, t)
  {
    if s == [] {
      assert s + t == t;
    } else {
      assert (s + t)[1..] == s[1..] + t;
      WindowCallsAppend(m, s[1..], t);
    }
  }

  /** What switch-workspace runs: managers without on_switch_workspace are skipped. */
  function SwitchCalls(managers: seq<ManagerId>, withSwitchHandler: set<ManagerId>, windows: seq<ActorId>): seq<ManagerCall>
  {
    if managers == [] then []
    else
      (if managers[0] in withSwitchHandler then WindowCalls(managers[0], windows) else [])
      + SwitchCalls(managers[1..], withSwitchHandler, windows)
  }

  lemma {:induction false} SwitchCallsAppend(s: seq<ManagerId>, t: seq<ManagerId>, h: set<ManagerId>, windows: seq<ActorId>)
    ensures SwitchCalls(s + t, h, windows) == SwitchCalls(s, h, windows) + SwitchCalls(t, h, windows)
  {
    if s == [] {
      assert s + t == t;
    } else {
      assert (s + t)[1..] == s[1..] + t;
      SwitchCallsAppend(s[1..], t, h, windows);
    }
  }

  /** A manager without on_switch_workspace is never called for a workspace switch. */
  lemma {:induction false} SwitchSkipsManagersWithoutHandler(managers: seq<ManagerId>, h: set<ManagerId>,
                                             windows: seq<ActorId>, c: ManagerCall)
    requires c in SwitchCalls(managers, h, windows)
    ensures c.manager in h && c.manager in managers && c.call.OnSwitchWorkspace? && c.call.actor in windows
  {
    if managers != [] {
      var m := managers[0];
      var head := if m in h then WindowCalls(m, windows) else [];
      if c in head {
        WindowCallsMember(m, windows, c);
      } else {
        SwitchSkipsManagersWithoutHandler(managers[1..], h, windows, c);
      }
    }
  }

  lemma {:induction false} WindowCallsMember(m: ManagerId, windows: seq<ActorId>, c: ManagerCall)
    requires c in WindowCalls(m, windows)
    ensures c.manager == m && c.call.OnSwitchWorkspace? && c.call.actor in windows
  {
    if windows != [] && c != ManagerCall(m, OnSwitchWorkspace(windows[0])) {
      WindowCallsMember(m, windows[1..], c);
    }
  }

  /** What restacked runs: on_restacked on every manager for each visible window. */
  function RestackCalls(managers: seq<ManagerId>, actors: seq<ActorId>, visible: set<ActorId>): seq<ManagerCall>
  {
    if actors == [] then []
    else
      (if actors[0] in visible then RunCalls(managers, OnRestacked(actors[0])) else [])
      + RestackCalls(managers, actors[1..], visible)
  }

  lemma {:induction false} RestackCallsAppend(managers: seq<ManagerId>, s: seq<ActorId>, t: seq<ActorId>, visible: set<ActorId>)
    ensures RestackCalls(managers, s + t, visible) == RestackCalls(managers, s, visible) + RestackCalls(managers, t, visible)
  {
    if s == [] {
      assert s + t == t;
    } else {
      assert (s + t)[1..] == s[1..] + t;
      RestackCallsAppend(managers, s[1..], t, visible);
    }
  }

  /** The callbacks enable's loop over the current windows runs: the triple for each window that is ready. */
  function EnableCalls(manager: ManagerId, actors: seq<ActorId>, ready: set<ActorId>): seq<ManagerCall>
  {
    if actors == [] then []
    else
      (if actors[0] in ready then ReadyCalls([manager], actors[0]) else [])
      + EnableCalls(manager, actors[1..], ready)
  }

  lemma {:induction false} EnableCallsAppend(manager: ManagerId, s: seq<ActorId>, t: seq<ActorId>, ready: set<ActorId>)
    ensures EnableCalls(manager, s + t, ready) == EnableCalls(manager, s, ready) + EnableCalls(manager, t, ready)
  {
    if s == [] {
      assert s + t == t;
    } else {
      assert (s + t)[1..] == s[1..] + t;
      EnableCallsAppend(manager, s[1..], t, ready);
    }
  }

  /** Every callback enable runs is the new manager's, and on a ready window. */
  lemma {:induction false} EnableCallsOnReadyWindows(manager: ManagerId, actors: seq<ActorId>, ready: set<ActorId>, c: ManagerCall)
    requires c in EnableCalls(manager, actors, ready)
    ensures c.manager == manager
    ensures (c.call.OnAddEffect? || c.call.OnSizeChanged? || c.call.OnFocusChanged?)
    ensures c.call.actor in ready && c.call.actor in actors
  {
    if actors != [] {
      var head := if actors[0] in ready then ReadyCalls([manager], actors[0]) else [];
      if c !in head {
        EnableCallsOnReadyWindows(manager, actors[1..], ready, c);
      }
    }
  }

  /** The callbacks disable runs: on_remove_effect on every manager for each window, windows in order. */
  function RemoveCalls(managers: seq<ManagerId>, actors: seq<ActorId>): seq<ManagerCall>
  {
    if actors == [] then [] else RunCalls(managers, OnRemoveEffect(actors[0])) + RemoveCalls(managers, actors[1..])
  }

  /** One more window adds its on_remove_effect calls at the end. */
  lemma RemoveCallsStep(managers: seq<ManagerId>, actors: seq<ActorId>, i: nat)
    requires i < |actors|
    ensures RemoveCalls(managers, actors[..i + 1]) == RemoveCalls(managers, actors[..i]) + RunCalls(managers, OnRemoveEffect(actors[i]))
  {
    assert actors[..i + 1] == actors[..i] + [actors[i]];
    RemoveCallsAppend(managers, actors[..i], [actors[i]]);
    assert RemoveCalls(managers, [actors[i]]) == RunCalls(managers, OnRemoveEffect(actors[i])) + [] by { assert [actors[i]][1..] == []; }
  }

  lemma {:induction false} RemoveCallsAppend(managers: seq<ManagerId>, s: seq<ActorId>, t: seq<ActorId>)
    ensures RemoveCalls(managers, s + t) == RemoveCalls(managers, s) + RemoveCalls(managers, t)
  {
    if s == [] {
      assert s + t == t;
    } else {
      assert (s + t)[1..] == s[1..] + t;
      RemoveCallsAppend(managers, s[1..], t);
    }
  }

  /** The stored sizes left after deleting those of the given windows. */
  function Forget(m: map<ActorId, Size>, s: seq<ActorId>): map<ActorId, Size>
  {
    if s == [] then m else Forget(m, s[..|s| - 1]) - {s[|s| - 1]}
  }

  /** disable leaves no stored size for a current window and keeps every other one. */
  lemma {:induction false} ForgetExactly(m: map<ActorId, Size>, s: seq<ActorId>, a: ActorId)
    ensures a in Forget(m, s) <==> a in m && a !in s
    ensures a in Forget(m, s) ==> Forget(m, s)[a] == m[a]
  {
    if s != [] {
      ForgetExactly(m, s[..|s| - 1], a);
      assert a in s <==> a in s[..|s| - 1] || a == s[|s| - 1];
    }
  }

  /** The connections enable's loop makes: actor_is_ready's four for each window that is ready, windows in order. */
  function EnableConnections(actors: seq<ActorId>, ready: set<ActorId>): seq<Connection>
  {
    if actors == [] then []
    else
      var a := actors[|actors| - 1];
      EnableConnections(actors[..|actors| - 1], ready) + (if a in ready then ReadyConnections(a) else [])
  }

  /** Every connection enable's loop makes belongs to a ready window, and a ready window gets all four. */
  lemma {:induction false} EnableConnectionsExactly(actors: seq<ActorId>, ready: set<ActorId>, c: Connection)
    ensures c in EnableConnections(actors, ready) <==> exists a | a in actors :: a in ready && c in ReadyConnections(a)
  {
    if actors != [] {
      var init, a := actors[..|actors| - 1], actors[|actors| - 1];
      EnableConnectionsExactly(init, ready, c);
      assert forall b :: b in actors <==> b in init || b == a;
    }
  }

  /** The waits _add_effect leaves on a window: for its first child, or, once attached, for its surface's first resize. */
  function AddEffectWaits(a: ActorId, id: nat, connected: bool, withFirstChild: set<ActorId>, withTexture: set<ActorId>,
                          shellAtLeast431: bool): (r: seq<OneShot>)
    ensures |r| <= 1
  {
    if a !in withFirstChild then FirstChildWait(a, id)
    else if AttachesTo(connected, a, withTexture) then SurfaceWait(a, id, shellAtLeast431)
    else []
  }

  /** The one-shot waits enable's loop leaves, windows in order, numbered from id. */
  function EnableWaits(actors: seq<ActorId>, withFirstChild: set<ActorId>, withTexture: set<ActorId>,
                       shellAtLeast431: bool, id: nat): seq<OneShot>
  {
    if actors == [] then []
    else
      var init := EnableWaits(actors[..|actors| - 1], withFirstChild, withTexture, shellAtLeast431, id);
      init + AddEffectWaits(actors[|actors| - 1], id + |init|, true, withFirstChild, withTexture, shellAtLeast431)
  }

  lemma EnableWaitsStep(actors: seq<ActorId>, withFirstChild: set<ActorId>, withTexture: set<ActorId>,
                        shellAtLeast431: bool, id: nat, i: nat)
    requires i < |actors|
    ensures var init := EnableWaits(actors[..i], withFirstChild, withTexture, shellAtLeast431, id);
      EnableWaits(actors[..i + 1], withFirstChild, withTexture, shellAtLeast431, id)
        == init + AddEffectWaits(actors[i], id + |init|, true, withFirstChild, withTexture, shellAtLeast431)
  {
    assert actors[..i + 1][..i] == actors[..i];
  }

  /** enable numbers its waits consecutively, so their ids are distinct and all fresh. */
  lemma {:induction false} EnableWaitsNumbered(actors: seq<ActorId>, withFirstChild: set<ActorId>, withTexture: set<ActorId>,
                                               shellAtLeast431: bool, id: nat)
    ensures forall k | 0 <= k < |EnableWaits(actors, withFirstChild, withTexture, shellAtLeast431, id)| ::
      EnableWaits(actors, withFirstChild, withTexture, shellAtLeast431, id)[k].id == id + k
      && EnableWaits(actors, withFirstChild, withTexture, shellAtLeast431, id)[k].actor in actors
  {
    if actors != [] {
      var init, a := actors[..|actors| - 1], actors[|actors| - 1];
      EnableWaitsNumbered(init, withFirstChild, withTexture, shellAtLeast431, id);
      var wi := EnableWaits(init, withFirstChild, withTexture, shellAtLeast431, id);
      var last := AddEffectWaits(a, id + |wi|, true, withFirstChild, withTexture, shellAtLeast431);
      var w := EnableWaits(actors, withFirstChild, withTexture, shellAtLeast431, id);
      assert w == wi + last;
      forall k | 0 <= k < |w| ensures w[k].id == id + k && w[k].actor in actors {
        if k < |wi| {
          assert w[k] == wi[k];
          assert wi[k].actor in init;
        } else {
          assert w[k] == last[0] && k == |wi|;
        }
      }
    }
  }

  /** The stored sizes after enable's loop: a zero size for each ready window. */
  function ZeroSizes(m: map<ActorId, Size>, actors: seq<ActorId>, ready: set<ActorId>): map<ActorId, Size>
  {
    if actors == [] then m
    else
      var init, a := ZeroSizes(m, actors[..|actors| - 1], ready), actors[|actors| - 1];
      if a in ready then init[a := Size(0.0, 0.0)] else init
  }

  lemma ZeroSizesStep(m: map<ActorId, Size>, actors: seq<ActorId>, i: nat, ready: set<ActorId>)
    requires i < |actors|
    ensures ZeroSizes(m, actors[..i + 1], ready) ==
      if actors[i] in ready then ZeroSizes(m, actors[..i], ready)[actors[i] := Size(0.0, 0.0)] else ZeroSizes(m, actors[..i], ready)
  {
    assert actors[..i + 1][..i] == actors[..i];
  }

  /** enable stores a zero size for exactly the ready windows and keeps every other stored size. */
  lemma {:induction false} ZeroSizesExactly(m: map<ActorId, Size>, actors: seq<ActorId>, ready: set<ActorId>, a: ActorId)
    ensures a in ZeroSizes(m, actors, ready) <==> a in m || (a in actors && a in ready)
    ensures a in actors && a in ready ==> ZeroSizes(m, actors, ready)[a] == Size(0.0, 0.0)
    ensures !(a in actors && a in ready) && a in m ==> ZeroSizes(m, actors, ready)[a] == m[a]
  {
    if actors != [] {
      ZeroSizesExactly(m, actors[..|actors| - 1], ready, a);
      assert a in actors <==> a in actors[..|actors| - 1] || a == actors[|actors| - 1];
    }
  }
}
