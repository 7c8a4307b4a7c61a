// Connections between shell events and the handlers (manager/event_manager.ts):
// which signal of which object calls which handler, how they are made when a
// window gets the effect and dropped when it loses it.
module EventManager {
  import opened Wrappers
  import opened Types

  /** The objects whose signals are connected. */
  datatype Source =
    | SettingsObj
    | DisplayObj
    | WindowManagerObj
    | ActorObj(actor: ActorId)
    | TextureObj(actor: ActorId)
    | MetaWindowObj(actor: ActorId)

  /** The handler a connection calls. */
  datatype Handler =
    | SettingsChanged
    | WindowCreated
    | Minimize
    | Unminimize
    | RemoveEffect
    | Restacked
    | SizeChanged(actor: ActorId)
    | FocusChanged(actor: ActorId)

  /** One connection held by the connection manager. */
  datatype Subscription = Subscription(source: Source, signal: string, handler: Handler)

  /** A connection made directly on an object, that disconnects itself after its first emission. */
  datatype OneShot = OneShot(id: nat, source: Source, signal: string, actor: ActorId)

  /** A call into the event handlers. */
  datatype HandlerCall = AddEffectCall(actor: ActorId) | RemoveEffectCall(actor: ActorId)

  /** The four connections applyEffectTo makes for a window. */
  function WindowSubscriptions(a: ActorId): (s: seq<Subscription>)
    ensures |s| == 4
  {
    [ Subscription(ActorObj(a), "notify::size", SizeChanged(a)),
      Subscription(TextureObj(a), "size-changed", SizeChanged(a)),
      Subscription(MetaWindowObj(a), "notify::appears-focused", FocusChanged(a)),
      Subscription(MetaWindowObj(a), "workspace-changed", FocusChanged(a)) ]
  }

  /** The global connections enableEffect makes after the windows (the settings one comes first). */
  const GLOBAL_SUBSCRIPTIONS: seq<Subscription> := [
    Subscription(DisplayObj, "window-created", WindowCreated),
    Subscription(WindowManagerObj, "minimize", Minimize),
    Subscription(WindowManagerObj, "unminimize", Unminimize),
    Subscription(WindowManagerObj, "destroy", RemoveEffect),
    Subscription(DisplayObj, "restacked", Restacked)
  ]

  const SETTINGS_SUBSCRIPTION := Subscription(SettingsObj, "changed", SettingsChanged)

  /** The handlers an emission of `signal` on `source` calls, in connection order. */
  function Dispatch(table: seq<Subscription>, source: Source, signal: string): (r: seq<Handler>)
    ensures |r| <= |table|
  {
    if table == [] then []
    else
      var rest := Dispatch(table[1..], source, signal);
      if table[0].source == source && table[0].signal == signal then [table[0].handler] + rest else rest
  }

  /** disconnect_all(object): drops every connection on that object, keeping the others in order. */
  function DisconnectAll(table: seq<Subscription>, source: Source): (r: seq<Subscription>)
    ensures |r| <= |table|
  {
    if table == [] then []
    else
      var rest := DisconnectAll(table[1..], source);
      if table[0].source == source then rest else [table[0]] + rest
  }

  /** Every connected handler is called, and only connected ones. */
  lemma {:induction false} DispatchExactly(table: seq<Subscription>, source: Source, signal: string, h: Handler)
    ensures h in Dispatch(table, source, signal)
      <==> Subscription(source, signal, h) in table
  {
    if table != [] {
      DispatchExactly(table[1..], source, signal, h);
      assert Subscription(source, signal, h) in table
        <==> Subscription(source, signal, h) == table[0] || Subscription(source, signal, h) in table[1..];
    }
  }

  /** disconnect_all keeps exactly the connections on other objects. */
  lemma {:induction false} DisconnectAllExactly(table: seq<Subscription>, source: Source, s: Subscription)
    ensures s in DisconnectAll(table, source) <==> s in table && s.source != source
  {
    if table != [] {
      DisconnectAllExactly(table[1..], source, s);
      assert s in table <==> s == table[0] || s in table[1..];
    }
  }

  lemma {:induction false} DisconnectAllIdempotent(table: seq<Subscription>, source: Source)
    ensures DisconnectAll(DisconnectAll(table, source), source) == DisconnectAll(table, source)
  {
    if table != [] {
      DisconnectAllIdempotent(table[1..], source);
    }
  }

  lemma {:induction false} DisconnectAllAppend(s: seq<Subscription>, t: seq<Subscription>, source: Source)
    ensures DisconnectAll(s + t, source) == DisconnectAll(s, source) + DisconnectAll(t, source)
  {
    if s == [] {
      assert s + t == t;
    } else {
      assert (s + t)[1..] == s[1..] + t;
      DisconnectAllAppend(s[1..], t, source);
    }
  }

  /** What removeEffectFrom leaves of the connection table: nothing on the actor or its window. */
  function WithoutWindow(table: seq<Subscription>, a: ActorId): seq<Subscription>
  {
    DisconnectAll(DisconnectAll(table, ActorObj(a)), MetaWindowObj(a))
  }

  /** Removing a window's connections silences its actor's and its Meta.Window's signals. */
  lemma RemovalSilencesWindow(table: seq<Subscription>, a: ActorId, sig: string)
    ensures Dispatch(WithoutWindow(table, a), ActorObj(a), sig) == []
    ensures Dispatch(WithoutWindow(table, a), MetaWindowObj(a), sig) == []
  {
    var w := WithoutWindow(table, a);
    forall s | s in w ensures s.source != ActorObj(a) && s.source != MetaWindowObj(a) {
      DisconnectAllExactly(DisconnectAll(table, ActorObj(a)), MetaWindowObj(a), s);
      DisconnectAllExactly(table, ActorObj(a), s);
    }
    EmptyDispatch(w, ActorObj(a), sig);
    EmptyDispatch(w, MetaWindowObj(a), sig);
  }

  /**
   * The texture's size-changed connection is not removed with the window:
   * after a window got its connections and lost them again, a texture
   * resize still reaches the size handler.
   */
  lemma RemovalKeepsTextureConnection(table: seq<Subscription>, a: ActorId)
    ensures Dispatch(WithoutWindow(table + WindowSubscriptions(a), a), TextureObj(a), "size-changed")
      == Dispatch(WithoutWindow(table, a), TextureObj(a), "size-changed") + [SizeChanged(a)]
  {
    var subs := WindowSubscriptions(a);
    DisconnectAllAppend(table, subs, ActorObj(a));
    DisconnectAllAppend(DisconnectAll(table, ActorObj(a)), DisconnectAll(subs, ActorObj(a)), MetaWindowObj(a));
    assert WithoutWindow(subs, a) == [subs[1]] by {
      assert subs[3..][1..] == [] && subs[2..][1..] == subs[3..] && subs[1..][1..] == subs[2..];
      assert DisconnectAll(subs[3..], ActorObj(a)) == subs[3..];
      assert DisconnectAll(subs[2..], ActorObj(a)) == subs[2..];
      assert DisconnectAll(subs[1..], ActorObj(a)) == subs[1..];
      assert DisconnectAll(subs, ActorObj(a)) == subs[1..];
      assert DisconnectAll(subs[3..], MetaWindowObj(a)) == [];
      assert DisconnectAll(subs[2..], MetaWindowObj(a)) == [];
      assert DisconnectAll(subs[1..], MetaWindowObj(a)) == [subs[1]];
    }
    DispatchAppend(WithoutWindow(table, a), [subs[1]], TextureObj(a), "size-changed");
  }

  /** An object without connections calls no handler. */
  lemma {:induction false} EmptyDispatch(table: seq<Subscription>, source: Source, signal: string)
    requires forall s | s in table :: s.source != source
    ensures Dispatch(table, source, signal) == []
  {
    if table != [] {
      assert forall s | s in table[1..] :: s in table;
      EmptyDispatch(table[1..], source, signal);
    }
  }

  lemma {:induction false} DispatchAppend(s: seq<Subscription>, t: seq<Subscription>, source: Source, signal: string)
    ensures Dispatch(s + t, source, signal) == Dispatch(s, source, signal) + Dispatch(t, source, signal)
  {
    if s == [] {
      assert s + t == t;
    } else {
      assert (s + t)[1..] == s[1..] + t;
      DispatchAppend(s[1..], t, source, signal);
    }
  }

  /** What applyEffectTo does with a window. */
  datatype Outcome = WaitForFirstChild | NoTexture | Applied

  function ApplyOutcome(a: ActorId, withFirstChild: set<ActorId>, withTexture: set<ActorId>): (o: Outcome)
    ensures o == Applied <==> a in withFirstChild && a in withTexture
  {
    if a !in withFirstChild then WaitForFirstChild
    else if a !in withTexture then NoTexture
    else Applied
  }

  /** The actors applyEffectTo gives the effect to, in order. */
  function AppliedTo(s: seq<ActorId>, withFirstChild: set<ActorId>, withTexture: set<ActorId>): seq<ActorId>
  {
    if s == [] then []
    else
      var rest := AppliedTo(s[1..], withFirstChild, withTexture);
      if s[0] in withFirstChild && s[0] in withTexture then [s[0]] + rest else rest
  }

  /** Exactly the windows with a first child and a texture get the effect. */
  lemma {:induction false} AppliedToExactly(s: seq<ActorId>, fc: set<ActorId>, tex: set<ActorId>, a: ActorId)
    ensures a in AppliedTo(s, fc, tex) <==> a in s && ApplyOutcome(a, fc, tex) == Applied
  {
    if s != [] {
      AppliedToExactly(s[1..], fc, tex, a);
      assert a in s <==> a == s[0] || a in s[1..];
    }
  }

  lemma {:induction false} AppliedToAppend(s: seq<ActorId>, t: seq<ActorId>, fc: set<ActorId>, tex: set<ActorId>)
    ensures AppliedTo(s + t, fc, tex) == AppliedTo(s, fc, tex) + AppliedTo(t, fc, tex)
  {
    if s == [] {
      assert s + t == t;
    } else {
      assert (s + t)[1..] == s[1..] + t;
      AppliedToAppend(s[1..], t, fc, tex);
    }
  }

  lemma AppliedToStep(s: seq<ActorId>, i: nat, fc: set<ActorId>, tex: set<ActorId>)
    requires i < |s|
    ensures AppliedTo(s[..i + 1], fc, tex)
      == AppliedTo(s[..i], fc, tex) + (if s[i] in fc && s[i] in tex then [s[i]] else [])
  {
    assert s[..i + 1] == s[..i] + [s[i]];
    AppliedToAppend(s[..i], [s[i]], fc, tex);
  }

  lemma AppendAssoc<T>(x: seq<T>, y: seq<T>, z: seq<T>)
    ensures x + y + z == x + (y + z)
  {
  }

  /** The connections made for the given windows, window by window. */
  function SubscriptionsOf(s: seq<ActorId>): (r: seq<Subscription>)
    ensures |r| == 4 * |s|
  {
    if s == [] then [] else WindowSubscriptions(s[0]) + SubscriptionsOf(s[1..])
  }

  lemma {:induction false} SubscriptionsOfAppend(s: seq<ActorId>, t: seq<ActorId>)
    ensures SubscriptionsOf(s + t) == SubscriptionsOf(s) + SubscriptionsOf(t)
  {
    if s == [] {
      assert s + t == t;
    } else {
      assert (s + t)[1..] == s[1..] + t;
      SubscriptionsOfAppend(s[1..], t);
    }
  }

  function AddCalls(s: seq<ActorId>): (r: seq<HandlerCall>)
    ensures |r| == |s|
  {
    if s == [] then [] else [AddEffectCall(s[0])] + AddCalls(s[1..])
  }

  lemma {:induction false} AddCallsAppend(s: seq<ActorId>, t: seq<ActorId>)
    ensures AddCalls(s + t) == AddCalls(s) + AddCalls(t)
  {
    if s == [] {
      assert s + t == t;
    } else {
      assert (s + t)[1..] == s[1..] + t;
      AddCallsAppend(s[1..], t);
    }
  }

  /** The actors applyEffectTo has to wait for, in order: those without a first child. */
  function Unparented(s: seq<ActorId>, withFirstChild: set<ActorId>): seq<ActorId>
  {
    if s == [] then []
    else
      var rest := Unparented(s[1..], withFirstChild);
      if s[0] !in withFirstChild then [s[0]] + rest else rest
  }

  /** Exactly the windows without a first child are waited for. */
  lemma {:induction false} UnparentedExactly(s: seq<ActorId>, fc: set<ActorId>, a: ActorId)
    ensures a in Unparented(s, fc) <==> a in s && ApplyOutcome(a, fc, {}) == WaitForFirstChild
  {
    if s != [] {
      UnparentedExactly(s[1..], fc, a);
      assert a in s <==> a == s[0] || a in s[1..];
    }
  }

  lemma {:induction false} UnparentedAppend(s: seq<ActorId>, t: seq<ActorId>, fc: set<ActorId>)
    ensures Unparented(s + t, fc) == Unparented(s, fc) + Unparented(t, fc)
  {
    if s == [] {
      assert s + t == t;
    } else {
      assert (s + t)[1..] == s[1..] + t;
      UnparentedAppend(s[1..], t, fc);
    }
  }

  lemma UnparentedStep(s: seq<ActorId>, i: nat, fc: set<ActorId>)
    requires i < |s|
    ensures Unparented(s[..i + 1], fc) == Unparented(s[..i], fc) + (if s[i] !in fc then [s[i]] else [])
  {
    assert s[..i + 1] == s[..i] + [s[i]];
    UnparentedAppend(s[..i], [s[i]], fc);
  }

  /** One-shot notify::first-child connections for the given actors, numbered from id. */
  function FirstChildWaits(id: nat, s: seq<ActorId>): (r: seq<OneShot>)
    decreases |s|
    ensures |r| == |s|
  {
    if s == [] then [] else [OneShot(id, ActorObj(s[0]), "notify::first-child", s[0])] + FirstChildWaits(id + 1, s[1..])
  }

  /** The k-th wait is on the k-th actor and carries the k-th id. */
  lemma {:induction false} FirstChildWaitsAt(id: nat, s: seq<ActorId>, k: nat)
    requires k < |s|
    decreases |s|
    ensures FirstChildWaits(id, s)[k] == OneShot(id + k, ActorObj(s[k]), "notify::first-child", s[k])
  {
    if k > 0 {
      FirstChildWaitsAt(id + 1, s[1..], k - 1);
    }
  }

  lemma {:induction false} FirstChildWaitsAppend(id: nat, s: seq<ActorId>, t: seq<ActorId>)
    decreases |s|
    ensures FirstChildWaits(id, s + t) == FirstChildWaits(id, s) + FirstChildWaits(id + |s|, t)
  {
    if s == [] {
      assert s + t == t;
    } else {
      assert (s + t)[1..] == s[1..] + t;
      FirstChildWaitsAppend(id + 1, s[1..], t);
    }
  }

  /**
   * The connection manager's table, the direct one-shot connections and the
   * calls made into the handlers. Which actors have a first child and a
   * texture, and which windows have a WM class, is the shell's state.
   */
  class Manager {
    /** global.get_window_actors() when the effect is enabled. */
    const actors: seq<ActorId>
    /** Actors with a texture (get_texture() non-null). */
    const withTexture: set<ActorId>
    /** Actors whose first child (the surface actor) exists. */
    var withFirstChild: set<ActorId>
    /** Windows whose wm_class_instance is set. */
    var withWmClass: set<ActorId>

    var table: seq<Subscription>
    var oneShots: seq<OneShot>
    var nextId: nat
    var calls: seq<HandlerCall>

    constructor (actors: seq<ActorId>, withTexture: set<ActorId>, withFirstChild: set<ActorId>, withWmClass: set<ActorId>)
      ensures this.actors == actors && this.withTexture == withTexture
      ensures this.withFirstChild == withFirstChild && this.withWmClass == withWmClass
      ensures table == [] && oneShots == [] && calls == []
    {
      this.actors := actors;
      this.withTexture := withTexture;
      this.withFirstChild := withFirstChild;
      this.withWmClass := withWmClass;
      table := [];
      oneShots := [];
      nextId := 0;
      calls := [];
    }

    /**
     * applyEffectTo: without a first child, waits for one with a one-shot
     * notify::first-child connection; without a texture, does nothing;
     * otherwise makes the window's four connections and adds the effect.
     */
    method ApplyEffectTo(a: ActorId) returns (o: Outcome)
      modifies this`table, this`oneShots, this`nextId, this`calls
      ensures o == ApplyOutcome(a, withFirstChild, withTexture)
      ensures table == old(table) + SubscriptionsOf(if o == Applied then [a] else [])
      ensures calls == old(calls) + AddCalls(if o == Applied then [a] else [])
      ensures oneShots == old(oneShots) + FirstChildWaits(old(nextId), if o == WaitForFirstChild then [a] else [])
      ensures nextId == old(nextId) + (if o == WaitForFirstChild then 1 else 0)
    {
      o := ApplyOutcome(a, withFirstChild, withTexture);
      if a !in withFirstChild {
        oneShots := oneShots + [OneShot(nextId, ActorObj(a), "notify::first-child", a)];
        nextId := nextId + 1;
        assert FirstChildWaits(old(nextId), [a]) == [OneShot(old(nextId), ActorObj(a), "notify::first-child", a)];
        return;
      }
      if a !in withTexture {
        return;
      }
      table := table + [Subscription(ActorObj(a), "notify::size", SizeChanged(a))];
      table := table + [Subscription(TextureObj(a), "size-changed", SizeChanged(a))];
      table := table + [Subscription(MetaWindowObj(a), "notify::appears-focused", FocusChanged(a))];
      table := table + [Subscription(MetaWindowObj(a), "workspace-changed", FocusChanged(a))];
      calls := calls + [AddEffectCall(a)];
      assert SubscriptionsOf([a]) == WindowSubscriptions(a) by { assert [a][1..] == []; }
    }

    /** removeEffectFrom: drops the actor's and its window's connections, then removes the effect. */
    method RemoveEffectFrom(a: ActorId)
      modifies this`table, this`calls
      ensures table == WithoutWindow(old(table), a)
      ensures calls == old(calls) + [RemoveEffectCall(a)]
    {
      table := DisconnectAll(table, ActorObj(a));
      table := DisconnectAll(table, MetaWindowObj(a));
      calls := calls + [RemoveEffectCall(a)];
    }

    /**
     * enableEffect: the settings connection, the effect applied to every
     * current window in order, then the global connections.
     */
    method EnableEffect()
      modifies this`table, this`oneShots, this`nextId, this`calls
      ensures table == old(table) + [SETTINGS_SUBSCRIPTION]
        + SubscriptionsOf(AppliedTo(actors, withFirstChild, withTexture)) + GLOBAL_SUBSCRIPTIONS
      ensures calls == old(calls) + AddCalls(AppliedTo(actors, withFirstChild, withTexture))
      ensures oneShots == old(oneShots) + FirstChildWaits(old(nextId), Unparented(actors, withFirstChild))
      ensures nextId == old(nextId) + |Unparented(actors, withFirstChild)|
    {
      ghost var t0, c0, w0, id0 := table, calls, oneShots, nextId;
      table := table + [SETTINGS_SUBSCRIPTION];
      var i := 0;
      while i < |actors|
        invariant 0 <= i <= |actors|
        invariant AppliedUpTo(t0, c0, w0, id0, i)
      {
        ApplyNext(t0, c0, w0, id0, i);
        i := i + 1;
      }
      assert actors[..i] == actors;
      table := table + GLOBAL_SUBSCRIPTIONS;
    }

    /** The state after the loop of enableEffect has run over the first n windows. */
    ghost predicate AppliedUpTo(t0: seq<Subscription>, c0: seq<HandlerCall>, w0: seq<OneShot>, id0: nat, n: nat)
      reads this
      requires n <= |actors|
    {
      && table == t0 + [SETTINGS_SUBSCRIPTION] + SubscriptionsOf(AppliedTo(actors[..n], withFirstChild, withTexture))
      && calls == c0 + AddCalls(AppliedTo(actors[..n], withFirstChild, withTexture))
      && oneShots == w0 + FirstChildWaits(id0, Unparented(actors[..n], withFirstChild))
      && nextId == id0 + |Unparented(actors[..n], withFirstChild)|
    }

    /** One step of the loop of enableEffect: applyEffectTo on the next window. */
    method ApplyNext(ghost t0: seq<Subscription>, ghost c0: seq<HandlerCall>, ghost w0: seq<OneShot>, ghost id0: nat, i: nat)
      requires i < |actors| && AppliedUpTo(t0, c0, w0, id0, i)
      modifies this`table, this`oneShots, this`nextId, this`calls
      ensures AppliedUpTo(t0, c0, w0, id0, i + 1)
    {
      var a := actors[i];
      ghost var done := AppliedTo(actors[..i], withFirstChild, withTexture);
      ghost var waiting := Unparented(actors[..i], withFirstChild);
      AppliedToStep(actors, i, withFirstChild, withTexture);
      UnparentedStep(actors, i, withFirstChild);
      var o := ApplyEffectTo(a);
      ghost var applied := if o == Applied then [a] else [];
      ghost var waited := if o == WaitForFirstChild then [a] else [];
      assert AppliedTo(actors[..i + 1], withFirstChild, withTexture) == done + applied;
      assert Unparented(actors[..i + 1], withFirstChild) == waiting + waited;
      SubscriptionsOfAppend(done, applied);
      AppendAssoc(t0 + [SETTINGS_SUBSCRIPTION], SubscriptionsOf(done), SubscriptionsOf(applied));
      AddCallsAppend(done, applied);
      AppendAssoc(c0, AddCalls(done), AddCalls(applied));
      FirstChildWaitsAppend(id0, waiting, waited);
      AppendAssoc(w0, FirstChildWaits(id0, waiting), FirstChildWaits(id0 + |waiting|, waited));
    }

    /**
     * disableEffect: removes the effect from every current window, then drops
     * every connection. The windows are global.get_window_actors() at that moment.
     */
    method DisableEffect(windows: seq<ActorId>)
      modifies this`table, this`calls
      ensures table == []
      ensures calls == old(calls) + seq(|windows|, k requires 0 <= k < |windows| => RemoveEffectCall(windows[k]))
    {
      ghost var c0 := calls;
      var i := 0;
      while i < |windows|
        invariant 0 <= i <= |windows|
        invariant calls == c0 + seq(i, k requires 0 <= k < i => RemoveEffectCall(windows[k]))
      {
        RemoveEffectFrom(windows[i]);
        i := i + 1;
      }
      table := [];
    }

    /**
     * The window-created handler: a window without a WM class waits for one
     * with a one-shot notify::wm-class connection; any other gets the effect.
     */
    method OnWindowCreated(a: ActorId) returns (o: Option<Outcome>)
      modifies this`table, this`oneShots, this`nextId, this`calls
      ensures a !in withWmClass ==>
        (o == None && table == old(table) && calls == old(calls) && nextId == old(nextId) + 1
         && oneShots == old(oneShots) + [OneShot(old(nextId), MetaWindowObj(a), "notify::wm-class", a)])
      ensures a in withWmClass ==> (
        var r := ApplyOutcome(a, withFirstChild, withTexture);
        && o == Some(r)
        && table == old(table) + SubscriptionsOf(if r == Applied then [a] else [])
        && calls == old(calls) + AddCalls(if r == Applied then [a] else [])
        && oneShots == old(oneShots) + FirstChildWaits(old(nextId), if r == WaitForFirstChild then [a] else [])
        && nextId == old(nextId) + (if r == WaitForFirstChild then 1 else 0))
    {
      if a !in withWmClass {
        oneShots := oneShots + [OneShot(nextId, MetaWindowObj(a), "notify::wm-class", a)];
        nextId := nextId + 1;
        return None;
      }
      var outcome := ApplyEffectTo(a);
      return Some(outcome);
    }

    /** The shell sets an actor's first child. */
    method SetFirstChild(a: ActorId)
      modifies this`withFirstChild
      ensures withFirstChild == old(withFirstChild) + {a}
    {
      withFirstChild := withFirstChild + {a};
    }

    /** The shell sets a window's WM class. */
    method SetWmClass(a: ActorId)
      modifies this`withWmClass
      ensures withWmClass == old(withWmClass) + {a}
    {
      withWmClass := withWmClass + {a};
    }

    /**
     * The object of the one-shot connection at position k emits its signal:
     * the callback applies the effect to the window, then disconnects
     * itself, leaving any connection the application made.
     */
    method FireOneShot(k: nat) returns (o: Outcome)
      requires k < |oneShots|
      modifies this`table, this`oneShots, this`nextId, this`calls
      ensures var a := old(oneShots)[k].actor;
        && o == ApplyOutcome(a, withFirstChild, withTexture)
        && table == old(table) + SubscriptionsOf(if o == Applied then [a] else [])
        && calls == old(calls) + AddCalls(if o == Applied then [a] else [])
        && oneShots == old(oneShots)[..k] + old(oneShots)[k + 1..]
             + FirstChildWaits(old(nextId), if o == WaitForFirstChild then [a] else [])
        && nextId == old(nextId) + (if o == WaitForFirstChild then 1 else 0)
    {
      var first := oneShots[k];
      o := ApplyEffectTo(first.actor);
      // applyEffectTo only appends, so the fired connection is still at position k.
      oneShots := oneShots[..k] + oneShots[k + 1..];
    }
  }

  /** After the window's connections are made, a texture resize reaches the size handler once more. */
  lemma AppliedWindowReactsToResize(table: seq<Subscription>, a: ActorId)
    ensures Dispatch(table + WindowSubscriptions(a), TextureObj(a), "size-changed")
      == Dispatch(table, TextureObj(a), "size-changed") + [SizeChanged(a)]
  {
    var subs := WindowSubscriptions(a);
    DispatchAppend(table, subs, TextureObj(a), "size-changed");
    assert Dispatch(subs[3..], TextureObj(a), "size-changed") == [];
    assert Dispatch(subs[2..], TextureObj(a), "size-changed") == [];
    assert Dispatch(subs[1..], TextureObj(a), "size-changed") == [SizeChanged(a)];
  }
}
