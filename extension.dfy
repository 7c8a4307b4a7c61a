// The extension's entry points (extension.ts): enable saves three shell
// prototype methods and installs patched versions, starts the effects at
// once or when the shell finishes starting up, and disable restores the
// saved methods and releases what enable set up, except the closing and
// settings-changed handlers.
module Extension {
  import opened Wrappers
  import opened Types
  import M = ManagerUtils
  import O = OverviewShadow
  import W = WorkspaceSwitch

  /** What a patched prototype slot holds. */
  datatype Impl = Undefined | ShellOriginal | RwcPatched

  /** The three patched slots. */
  datatype Slot = AddWindow | PrepareWorkspaceSwitch | FinishWorkspaceSwitch

  /** What the extension does, in order, to the shell and to its own modules. */
  datatype Event =
    | InitPrefs
    | UninitPrefs
    | EnableEffect
    | DisableEffect
    | EnableBackgroundMenu
    | DisableBackgroundMenu
    | OriginalCalled(slot: Slot, impl: Impl)
    | ShadowClonesAdded
    | ShadowClonesRemoved
    | GetPrefThrew

  /** What one disable() logs. */
  const DisableEvents: seq<Event> := [DisableBackgroundMenu, DisableEffect, UninitPrefs]

  /** n copies of s back to back: what n handlers connected to one signal log, in turn, when it fires. */
  function Times<T>(s: seq<T>, n: nat): (r: seq<T>)
  {
    if n == 0 then [] else Times(s, n - 1) + s
  }

  /**
   * What one settings-changed handler logs for a key: the preference-entry
   * key shows or hides the menu item, except that once the settings are
   * released getPref reads a null binding and throws; other keys log nothing.
   */
  function SettingsReaction(key: string, prefsEntry: bool, prefsLive: bool): (r: seq<Event>)
    ensures r == [] <==> key != "enable-preferences-entry"
    ensures r == [GetPrefThrew] <==> key == "enable-preferences-entry" && !prefsLive
    ensures EnableBackgroundMenu in r <==> key == "enable-preferences-entry" && prefsLive && prefsEntry
  {
    if key != "enable-preferences-entry" then []
    else if !prefsLive then [GetPrefThrew]
    else [if prefsEntry then EnableBackgroundMenu else DisableBackgroundMenu]
  }

  /** The effects are started together with the background menu item when the preference entry is on. */
  function StartEvents(prefsEntry: bool): (r: seq<Event>)
    ensures |r| >= 1 && r[0] == EnableEffect
    ensures EnableBackgroundMenu in r <==> prefsEntry
  {
    [EnableEffect] + (if prefsEntry then [EnableBackgroundMenu] else [])
  }

  /**
   * The extension object and the prototype slots it patches: the saved
   * originals (undefined before the first enable), the startup-complete
   * connection id and the layout manager's live connections, the window
   * picker's export, the number of live closing and settings-changed
   * handlers (each enable connects one more of each), whether the settings
   * binding is set, and a log.
   */
  class Extension {
    var addWindowSlot: Impl
    var prepareSlot: Impl
    var finishSlot: Impl
    var origAddWindow: Impl
    var origPrepare: Impl
    var origFinish: Impl
    var startupConnection: Option<nat>
    var layoutConnections: set<nat>
    var pickerExported: bool
    var closingHandlers: nat
    var changedHandlers: nat
    var prefsLive: bool
    var nextId: nat
    var log: seq<Event>

    constructor ()
      ensures addWindowSlot == ShellOriginal && prepareSlot == ShellOriginal && finishSlot == ShellOriginal
      ensures origAddWindow == Undefined && origPrepare == Undefined && origFinish == Undefined
      ensures startupConnection == None && layoutConnections == {} && !pickerExported
      ensures closingHandlers == 0 && changedHandlers == 0 && !prefsLive && log == []
    {
      addWindowSlot, prepareSlot, finishSlot := ShellOriginal, ShellOriginal, ShellOriginal;
      origAddWindow, origPrepare, origFinish := Undefined, Undefined, Undefined;
      startupConnection := None;
      layoutConnections := {};
      pickerExported := false;
      closingHandlers := 0;
      changedHandlers := 0;
      prefsLive := false;
      nextId := 0;
      log := [];
    }

    /**
     * enable: initialises the settings, saves the three slots, exports the
     * window picker, defers the effects to a startup-complete handler while
     * the shell is starting up (starts them at once otherwise), patches the
     * slots and connects one more closing and one more settings handler.
     */
    method Enable(startingUp: bool, prefsEntry: bool)
      modifies this`origAddWindow, this`origPrepare, this`origFinish, this`addWindowSlot, this`prepareSlot,
        this`finishSlot, this`startupConnection, this`layoutConnections, this`pickerExported,
        this`closingHandlers, this`changedHandlers, this`prefsLive, this`nextId, this`log
      ensures origAddWindow == old(addWindowSlot) && origPrepare == old(prepareSlot) && origFinish == old(finishSlot)
      ensures addWindowSlot == RwcPatched && prepareSlot == RwcPatched && finishSlot == RwcPatched
      ensures startingUp ==>
        (startupConnection == Some(old(nextId)) && layoutConnections == old(layoutConnections) + {old(nextId)}
         && nextId == old(nextId) + 1 && log == old(log) + [InitPrefs])
      ensures !startingUp ==>
        (startupConnection == old(startupConnection) && layoutConnections == old(layoutConnections)
         && nextId == old(nextId) && log == old(log) + [InitPrefs] + StartEvents(prefsEntry))
      ensures pickerExported && prefsLive
      ensures closingHandlers == old(closingHandlers) + 1 && changedHandlers == old(changedHandlers) + 1
    {
      log := log + [InitPrefs];
      origAddWindow := addWindowSlot;
      origPrepare := prepareSlot;
      origFinish := finishSlot;
      pickerExported := true;
      if startingUp {
        startupConnection := Some(nextId);
        layoutConnections := layoutConnections + {nextId};
        nextId := nextId + 1;
      } else {
        log := log + StartEvents(prefsEntry);
      }
      addWindowSlot := RwcPatched;
      prepareSlot := RwcPatched;
      finishSlot := RwcPatched;
      ConnectHandlers();
    }

    /** initPrefs' binding, and the closing and settings-changed handlers each enable connects. */
    method ConnectHandlers()
      modifies this`closingHandlers, this`changedHandlers, this`prefsLive
      ensures prefsLive
      ensures closingHandlers == old(closingHandlers) + 1 && changedHandlers == old(changedHandlers) + 1
    {
      prefsLive := true;
      closingHandlers := closingHandlers + 1;
      changedHandlers := changedHandlers + 1;
    }

    /**
     * startup-complete: the effects start and the handler disconnects itself;
     * the stored connection id is left as it was.
     */
    method OnStartupComplete(id: nat, prefsEntry: bool)
      modifies this`log, this`layoutConnections
      ensures id in old(layoutConnections) ==>
        (log == old(log) + StartEvents(prefsEntry) && layoutConnections == old(layoutConnections) - {id})
      ensures id !in old(layoutConnections) ==> log == old(log) && layoutConnections == old(layoutConnections)
    {
      if id in layoutConnections {
        log := log + StartEvents(prefsEntry);
        layoutConnections := layoutConnections - {id};
      }
    }

    /**
     * disable: puts the saved methods back, removes the menu item, unexports
     * the picker, stops the effects, disconnects the startup handler when
     * its id is set and clears it, and releases the settings; the closing
     * and settings-changed handlers stay connected.
     */
    method Disable()
      modifies this`addWindowSlot, this`prepareSlot, this`finishSlot, this`pickerExported,
        this`startupConnection, this`layoutConnections, this`prefsLive, this`log
      ensures addWindowSlot == origAddWindow && prepareSlot == origPrepare && finishSlot == origFinish
      ensures !pickerExported && startupConnection == None && !prefsLive
      ensures layoutConnections == if old(startupConnection).Some?
        then old(layoutConnections) - {old(startupConnection).value} else old(layoutConnections)
      ensures log == old(log) + DisableEvents
    {
      addWindowSlot := origAddWindow;
      prepareSlot := origPrepare;
      finishSlot := origFinish;
      log := log + [DisableBackgroundMenu];
      pickerExported := false;
      log := log + [DisableEffect];
      if startupConnection.Some? {
        layoutConnections := layoutConnections - {startupConnection.value};
        startupConnection := None;
      }
      log := log + [UninitPrefs];
      prefsLive := false;
    }

    /** enable followed by disable leaves the three prototype slots as they were, and no startup handler behind. */
    method EnableThenDisable(startingUp: bool, prefsEntry: bool)
      modifies this
      ensures addWindowSlot == old(addWindowSlot) && prepareSlot == old(prepareSlot) && finishSlot == old(finishSlot)
      ensures startingUp ==> layoutConnections == old(layoutConnections) - {old(nextId)}
      ensures startupConnection == None && !pickerExported
    {
      Enable(startingUp, prefsEntry);
      Disable();
    }

    /**
     * closing: every closing handler enable connected runs in turn; each
     * disables the extension and disconnects itself.
     */
    method OnClosing()
      modifies this
      ensures closingHandlers == 0 && changedHandlers == old(changedHandlers)
      ensures log == old(log) + Times(DisableEvents, old(closingHandlers))
      ensures old(closingHandlers) > 0 ==>
        (addWindowSlot == old(origAddWindow) && prepareSlot == old(origPrepare) && finishSlot == old(origFinish)
         && !prefsLive && !pickerExported && startupConnection == None)
      ensures old(closingHandlers) == 0 ==>
        (addWindowSlot == old(addWindowSlot) && prepareSlot == old(prepareSlot) && finishSlot == old(finishSlot)
         && prefsLive == old(prefsLive))
    {
      var n := closingHandlers;
      var i := 0;
      while i < n
        invariant 0 <= i <= n && closingHandlers == n - i && changedHandlers == old(changedHandlers)
        invariant log == old(log) + Times(DisableEvents, i)
        invariant origAddWindow == old(origAddWindow) && origPrepare == old(origPrepare) && origFinish == old(origFinish)
        invariant i > 0 ==>
          (addWindowSlot == origAddWindow && prepareSlot == origPrepare && finishSlot == origFinish
           && !prefsLive && !pickerExported && startupConnection == None)
        invariant i == 0 ==>
          (addWindowSlot == old(addWindowSlot) && prepareSlot == old(prepareSlot) && finishSlot == old(finishSlot)
           && prefsLive == old(prefsLive))
      {
        Disable();
        closingHandlers := closingHandlers - 1;
        i := i + 1;
      }
    }

    /**
     * The settings-changed signal: every handler enable connected runs in
     * turn with the changed key.
     */
    method OnSettingsChanged(key: string, prefsEntry: bool)
      modifies this`log
      ensures log == old(log) + Times(SettingsReaction(key, prefsEntry, prefsLive), changedHandlers)
    {
      var i := 0;
      while i < changedHandlers
        invariant 0 <= i <= changedHandlers
        invariant log == old(log) + Times(SettingsReaction(key, prefsEntry, prefsLive), i)
      {
        log := log + SettingsReaction(key, prefsEntry, prefsLive);
        i := i + 1;
      }
    }

    /**
     * disable as evidently intended: as disable, and the closing and
     * settings-changed handlers enable connected are disconnected too.
     */
    method DisableIntended()
      modifies this`addWindowSlot, this`prepareSlot, this`finishSlot, this`pickerExported,
        this`startupConnection, this`layoutConnections, this`prefsLive, this`log,
        this`closingHandlers, this`changedHandlers
      ensures addWindowSlot == origAddWindow && prepareSlot == origPrepare && finishSlot == origFinish
      ensures !pickerExported && startupConnection == None && !prefsLive
      ensures layoutConnections == if old(startupConnection).Some?
        then old(layoutConnections) - {old(startupConnection).value} else old(layoutConnections)
      ensures log == old(log) + DisableEvents
      ensures closingHandlers == 0 && changedHandlers == 0
    {
      Disable();
      closingHandlers := 0;
      changedHandlers := 0;
    }

    /**
     * As written, a second enable after a disable (a screen lock, say)
     * leaves two closing handlers, so closing runs disable twice; and a
     * change of the preference entry after a disable reaches getPref with
     * the settings released.
     */
    method AsWrittenCycleClosesTwice(prefsEntry: bool)
      requires closingHandlers == 0 && changedHandlers == 0
      modifies this
      ensures log == old(log) + [InitPrefs] + StartEvents(prefsEntry) + DisableEvents
        + [GetPrefThrew]
        + [InitPrefs] + StartEvents(prefsEntry) + DisableEvents + DisableEvents
    {
      Enable(false, prefsEntry);
      Disable();
      OnSettingsChanged("enable-preferences-entry", prefsEntry);
      assert Times([GetPrefThrew], 1) == [GetPrefThrew];
      Enable(false, prefsEntry);
      OnClosing();
      assert Times(DisableEvents, 2) == DisableEvents + DisableEvents by {
        assert Times(DisableEvents, 1) == DisableEvents;
      }
    }

    /**
     * With the intended disable the same steps run disable once on closing,
     * and the preference change after the disable reaches no handler, so
     * nothing throws.
     */
    method IntendedCycleClosesOnce(prefsEntry: bool)
      requires closingHandlers == 0 && changedHandlers == 0
      modifies this
      ensures log == old(log) + [InitPrefs] + StartEvents(prefsEntry) + DisableEvents
        + [InitPrefs] + StartEvents(prefsEntry) + DisableEvents
    {
      Enable(false, prefsEntry);
      DisableIntended();
      OnSettingsChanged("enable-preferences-entry", prefsEntry);
      Enable(false, prefsEntry);
      OnClosing();
      assert Times(DisableEvents, 1) == DisableEvents;
    }

    /**
     * The patched _addWindow: the saved original first; then the stack guard;
     * shouldEnableEffect is asked only when the window has a shadow; a window
     * with both gets the overview shadow clone as in the overview patch.
     */
    method PatchedAddWindow(preview: O.Preview, stack: Option<string>, prefs: Prefs) returns (added: bool)
      requires O.WindowContainer in preview.children
      modifies this`log, preview`children, preview`scaleBindings, preview`linearFilter, preview`destroyConnected,
        preview`appTypeCache
      ensures log == old(log) + [OriginalCalled(AddWindow, origAddWindow)]
      ensures added <==>
        (O.StackAllows(stack) && preview.shadow.Some?
         && M.ShouldEnableEffect(preview.window, old(preview.appTypeCache), prefs).enable)
      ensures preview.appTypeCache == if O.StackAllows(stack) && preview.shadow.Some?
        then M.ShouldEnableEffect(preview.window, old(preview.appTypeCache), prefs).appTypeCache
        else old(preview.appTypeCache)
      ensures added ==> preview.children == O.InsertBelow(old(preview.children), O.WindowContainer, O.ShadowClone(preview.shadow.value))
      ensures !added ==> preview.children == old(preview.children) && preview.destroyConnected == old(preview.destroyConnected)
    {
      log := log + [OriginalCalled(AddWindow, origAddWindow)];
      if !O.StackAllows(stack) {
        return false;
      }
      var hasRoundedCorners := false;
      if preview.shadow.Some? {
        var verdict := M.ShouldEnableEffect(preview.window, preview.appTypeCache, prefs);
        preview.appTypeCache := verdict.appTypeCache;
        hasRoundedCorners := verdict.enable;
      }
      if !(hasRoundedCorners && preview.shadow.Some?) {
        return false;
      }
      if preview.hasFirstChild {
        preview.linearFilter := true;
      }
      preview.scaleBindings := preview.scaleBindings + ["scale-x", "scale-y"];
      preview.children := O.InsertBelow(preview.children, O.WindowContainer, O.ShadowClone(preview.shadow.value));
      preview.destroyConnected := true;
      added := true;
    }

    /** The patched _prepareWorkspaceSwitch: the saved original first, then the shadow clones. */
    method PatchedPrepareWorkspaceSwitch(sw: W.Switcher)
      modifies this`log, sw`shadowCloneOf, sw`restacked, sw`zWatch
      ensures log == old(log) + [OriginalCalled(PrepareWorkspaceSwitch, origPrepare), ShadowClonesAdded]
      ensures sw.shadowCloneOf == old(sw.shadowCloneOf) + W.AllClonesFor(sw.display, sw.groups)
      ensures sw.restacked == old(sw.restacked) + W.Upto(|sw.groups|)
    {
      log := log + [OriginalCalled(PrepareWorkspaceSwitch, origPrepare)];
      sw.AddShadows();
      log := log + [ShadowClonesAdded];
    }

    /** The patched _finishWorkspaceSwitch: the shadow clones are destroyed first, then the saved original runs. */
    method PatchedFinishWorkspaceSwitch(sw: W.Switcher)
      modifies this`log, sw`shadowCloneOf, sw`destroyed
      ensures log == old(log) + [ShadowClonesRemoved, OriginalCalled(FinishWorkspaceSwitch, origFinish)]
      ensures sw.shadowCloneOf == W.AllForget(old(sw.shadowCloneOf), sw.groups)
      ensures sw.destroyed == old(sw.destroyed) + W.AllDestroyLog(old(sw.shadowCloneOf), sw.groups)
    {
      sw.RemoveShadows();
      log := log + [ShadowClonesRemoved];
      log := log + [OriginalCalled(FinishWorkspaceSwitch, origFinish)];
    }
  }
}
