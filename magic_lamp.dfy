// Waiting for the "Compiz alike magic lamp" unminimize animation: the
// shadow comes back on the first timeline frame past 98% progress, and the
// frame handler disconnects itself there (manager/event_handlers.ts,
// manager/effect_manager.ts).
module MagicLamp {
  import opened Wrappers

  /** Progress past which the animation counts as finished. */
  const DONE_PROGRESS: real := 0.98

  /** Index of the first frame whose progress is past DONE_PROGRESS. */
  function FirstFinishedFrame(progress: seq<real>): (r: Option<nat>)
    ensures r.None? ==> forall j | 0 <= j < |progress| :: progress[j] <= DONE_PROGRESS
    ensures r.Some? ==>
      (r.value < |progress| && progress[r.value] > DONE_PROGRESS
       && forall j | 0 <= j < r.value :: progress[j] <= DONE_PROGRESS)
  {
    if progress == [] then None
    else if progress[0] > DONE_PROGRESS then Some(0)
    else
      var r := FirstFinishedFrame(progress[1..]);
      if r.None? then None else Some(r.value + 1)
  }

  /**
   * Delivers the new-frame signal for each frame in turn to a handler that
   * acts once and then disconnects: returns the frame at which it acted.
   */
  method RunFrameHandler(progress: seq<real>) returns (actedAt: Option<nat>)
    ensures actedAt == FirstFinishedFrame(progress)
  {
    var connected := true;
    actedAt := None;
    var k := 0;
    while k < |progress|
      invariant 0 <= k <= |progress|
      invariant connected <==> actedAt.None?
      invariant connected ==> forall j | 0 <= j < k :: progress[j] <= DONE_PROGRESS
      invariant !connected ==> actedAt.value < k && actedAt == FirstFinishedFrame(progress)
    {
      if connected && progress[k] > DONE_PROGRESS {
        actedAt := Some(k);
        connected := false;
        FirstIsUnique(progress, k);
      }
      k := k + 1;
    }
    if connected {
      FirstIsUnique(progress, |progress|);
    }
  }

  /** The first finished frame is determined by the frames before and at it. */
  lemma {:induction false} FirstIsUnique(progress: seq<real>, k: nat)
    requires k <= |progress|
    requires forall j | 0 <= j < k :: progress[j] <= DONE_PROGRESS
    ensures k < |progress| && progress[k] > DONE_PROGRESS ==> FirstFinishedFrame(progress) == Some(k)
    ensures k == |progress| ==> FirstFinishedFrame(progress) == None
  {
    if progress != [] && k > 0 {
      FirstIsUnique(progress[1..], k - 1);
    }
  }
}
