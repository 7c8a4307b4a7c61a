// Shadows in the overview (patch/add_shadow_in_overview.ts): a window
// preview of a window with rounded corners and a shadow gets a clone of the
// shadow below its window container, sized around the scaled-down window.
module OverviewShadow {
  import opened Wrappers
  import opened Types
  import M = ManagerUtils

  /** The call stack a preview is added from; attached dialogs are added from these functions. */
  const ATTACHED_DIALOG_FRAMES: seq<string> := ["_updateAttachedDialogs", "addDialog"]

  /** The stack guard: an unknown stack, or one through an attached-dialog path, skips the preview. */
  predicate StackAllows(stack: Option<string>): (b: bool)
    ensures b <==> stack.Some? && forall f | f in ATTACHED_DIALOG_FRAMES :: !Contains(stack.value, f)
  {
    stack.Some? && !Contains(stack.value, "_updateAttachedDialogs") && !Contains(stack.value, "addDialog")
  }

  lemma AttachedDialogsSkipped(stack: string, i: nat)
    requires i < |ATTACHED_DIALOG_FRAMES| && Contains(stack, ATTACHED_DIALOG_FRAMES[i])
    ensures !StackAllows(Some(stack))
  {
  }

  /** A child of a window preview. */
  datatype Child =
    | WindowContainer
    | ShadowClone(source: ActorId)
    | OtherChild(n: nat)

  /** The position of the first occurrence of x. */
  function IndexOf(s: seq<Child>, x: Child): (k: nat)
    requires x in s
    ensures k < |s| && s[k] == x
    ensures forall j | 0 <= j < k :: s[j] != x
  {
    if s[0] == x then 0 else 1 + IndexOf(s[1..], x)
  }

  /** insert_child_below: the new child goes directly below the first occurrence of the sibling. */
  function InsertBelow(s: seq<Child>, sibling: Child, x: Child): (r: seq<Child>)
    requires sibling in s
    ensures |r| == |s| + 1 && multiset(r) == multiset(s) + multiset{x}
  {
    var k := IndexOf(s, sibling);
    assert s == s[..k] + s[k..];
    s[..k] + [x] + s[k..]
  }

  /** The clone sits directly below the window container, which keeps its place above it; nothing else moves. */
  lemma CloneDirectlyBelowContainer(s: seq<Child>, x: Child)
    requires WindowContainer in s
    ensures var r, k := InsertBelow(s, WindowContainer, x), IndexOf(s, WindowContainer);
      |r| == |s| + 1 && r[k] == x && r[k + 1] == WindowContainer && r[..k] == s[..k] && r[k + 1..] == s[k..]
  {
    var r, k := InsertBelow(s, WindowContainer, x), IndexOf(s, WindowContainer);
    assert r[k + 1..] == s[k..];
  }

  /**
   * vfunc_allocate of the shadow clone: nothing without a meta window;
   * otherwise, with p = 80 x (container width / frame width) x window scale,
   * the box (-p, -p) of size (w + 2p, h + 2p) around the container box,
   * which is the container's own box when leaving the overview and the
   * preview's otherwise.
   */
  function ShadowAllocation(leavingOverview: bool, containerBox: Rect, previewBox: Rect,
                            frame: Option<Rect>, scale: real): (r: Option<Rect>)
    requires frame.Some? ==> frame.value.width != 0.0
    ensures r.None? <==> frame.None?
  {
    if frame.None? then None
    else
      var box := if leavingOverview then containerBox else previewBox;
      var paddings := SHADOW_PADDING * (box.width / frame.value.width) * scale;
      Some(Rect(-paddings, -paddings, box.width + 2.0 * paddings, box.height + 2.0 * paddings))
  }

  /** The allocation surrounds the window box by the same padding on every side, so it stays centred on it. */
  lemma AllocationCentredOnWindow(leavingOverview: bool, containerBox: Rect, previewBox: Rect, frame: Rect, scale: real)
    requires frame.width != 0.0
    ensures var box := if leavingOverview then containerBox else previewBox;
      var r := ShadowAllocation(leavingOverview, containerBox, previewBox, Some(frame), scale).value;
      r.x + r.width / 2.0 == box.width / 2.0 && r.y + r.height / 2.0 == box.height / 2.0
      && r.width - box.width == r.height - box.height
  {
  }

  /** A preview shown at the window's own width gets the desktop shadow's padding, 80 x scale. */
  lemma FullSizePreviewHasDesktopPadding(leavingOverview: bool, containerBox: Rect, previewBox: Rect, frame: Rect, scale: real)
    requires frame.width != 0.0
    requires (if leavingOverview then containerBox else previewBox).width == frame.width
    ensures ShadowAllocation(leavingOverview, containerBox, previewBox, Some(frame), scale).value.x
      == -(SHADOW_PADDING * scale)
  {
    var box := if leavingOverview then containerBox else previewBox;
    assert box.width / frame.width == 1.0;
  }

  /** The padding, and with it the shadow, shrinks in proportion to the preview. */
  lemma PaddingScalesWithPreview(c1: Rect, c2: Rect, frame: Rect, scale: real, f: real)
    requires frame.width != 0.0 && c2.width == f * c1.width
    ensures ShadowAllocation(true, c2, c2, Some(frame), scale).value.x
      == f * ShadowAllocation(true, c1, c1, Some(frame), scale).value.x
  {
    assert c2.width / frame.width == f * (c1.width / frame.width);
  }

  /**
   * A window preview: its window and that window's shadow actor (the
   * `rwcCustomData.shadow` of its actor), its children, the properties of
   * the window container bound onto the shadow clone, whether the container's
   * first child exists and carries the linear filter, whether the preview's
   * destroy handler is connected, and the window's `_appType` cache.
   */
  class Preview {
    const window: MetaWindow
    const shadow: Option<ActorId>
    const hasFirstChild: bool
    var children: seq<Child>
    var scaleBindings: seq<string>
    var linearFilter: bool
    var destroyConnected: bool
    var appTypeCache: Option<AppType>

    constructor (window: MetaWindow, shadow: Option<ActorId>, hasFirstChild: bool, children: seq<Child>,
                 appTypeCache: Option<AppType>)
      ensures this.window == window && this.shadow == shadow && this.hasFirstChild == hasFirstChild
      ensures this.children == children && this.appTypeCache == appTypeCache
      ensures scaleBindings == [] && !linearFilter && !destroyConnected
    {
      this.window := window;
      this.shadow := shadow;
      this.hasFirstChild := hasFirstChild;
      this.children := children;
      this.appTypeCache := appTypeCache;
      scaleBindings := [];
      linearFilter := false;
      destroyConnected := false;
    }

    /**
     * addShadowInOverview: past the stack guard, asks shouldEnableEffect
     * (which may fill the app-type cache); with rounded corners and a
     * shadow, filters the first child, binds scale-x and scale-y, puts the
     * shadow clone below the window container and connects destroy.
     */
    method AddShadowInOverview(stack: Option<string>, prefs: Prefs) returns (added: bool)
      requires WindowContainer in children
      modifies this`children, this`scaleBindings, this`linearFilter, this`destroyConnected, this`appTypeCache
      ensures added <==> StackAllows(stack) && M.ShouldEnableEffect(window, old(appTypeCache), prefs).enable && shadow.Some?
      ensures appTypeCache == if StackAllows(stack) then M.ShouldEnableEffect(window, old(appTypeCache), prefs).appTypeCache
        else old(appTypeCache)
      ensures !added ==>
        (children == old(children) && scaleBindings == old(scaleBindings)
         && linearFilter == old(linearFilter) && destroyConnected == old(destroyConnected))
      ensures added ==>
        (children == InsertBelow(old(children), WindowContainer, ShadowClone(shadow.value))
         && scaleBindings == old(scaleBindings) + ["scale-x", "scale-y"]
         && linearFilter == (old(linearFilter) || hasFirstChild)
         && destroyConnected)
    {
      if !StackAllows(stack) {
        return false;
      }
      var verdict := M.ShouldEnableEffect(window, appTypeCache, prefs);
      appTypeCache := verdict.appTypeCache;
      if !(verdict.enable && shadow.Some?) {
        return false;
      }
      if hasFirstChild {
        linearFilter := true;
      }
      var clone := ShadowClone(shadow.value);
      scaleBindings := scaleBindings + ["scale-x", "scale-y"];
      children := InsertBelow(children, WindowContainer, clone);
      destroyConnected := true;
      added := true;
    }

    /** The preview is destroyed: the clone goes, the first child's effects are cleared, the handler disconnects. */
    method OnDestroy()
      modifies this`children, this`linearFilter, this`destroyConnected
      ensures !old(destroyConnected) ==>
        (children == old(children) && linearFilter == old(linearFilter) && !destroyConnected)
      ensures old(destroyConnected) && shadow.Some? ==> children == RemoveFirst(old(children), ShadowClone(shadow.value))
      ensures old(destroyConnected) ==> !linearFilter && !destroyConnected
    {
      if destroyConnected {
        if shadow.Some? {
          children := RemoveFirst(children, ShadowClone(shadow.value));
        }
        linearFilter := false;
        destroyConnected := false;
      }
    }
  }

  /** Destroying a child removes it from its parent. */
  function RemoveFirst(s: seq<Child>, x: Child): (r: seq<Child>)
    ensures x in s ==> |r| == |s| - 1
    ensures x !in s ==> r == s
  {
    if s == [] then [] else if s[0] == x then s[1..] else [s[0]] + RemoveFirst(s[1..], x)
  }

  lemma {:induction false} RemoveAfterPrefix(a: seq<Child>, x: Child, b: seq<Child>)
    requires x !in a
    ensures RemoveFirst(a + [x] + b, x) == a + b
  {
    if a != [] {
      RemoveAfterPrefix(a[1..], x, b);
      assert (a + [x] + b)[1..] == a[1..] + [x] + b;
      assert a + b == [a[0]] + (a[1..] + b);
    }
  }

  /** Adding the clone and destroying it gives the preview its children back. */
  lemma RemoveUndoesInsert(s: seq<Child>, x: Child)
    requires WindowContainer in s && x !in s
    ensures RemoveFirst(InsertBelow(s, WindowContainer, x), x) == s
  {
    var k := IndexOf(s, WindowContainer);
    assert x !in s[..k];
    RemoveAfterPrefix(s[..k], x, s[k..]);
    assert s[..k] + s[k..] == s;
  }
}
