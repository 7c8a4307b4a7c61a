// Shadows during a workspace switch (patch/workspace_switch.ts): before the
// animation every window clone whose window has a shadow and an enabled
// effect gets a clone of that shadow, placed and sized around the window's
// frame; after it every shadow clone is destroyed.
module WorkspaceSwitch {
  import opened Wrappers
  import opened Types
  import M = ManagerUtils

  /** A window clone of the switch animation. */
  type CloneId = nat

  /**
   * One `_windowRecords` entry: the clone and its position, the window actor
   * it shows, whether that window has a shadow actor, and the `enabled` flag
   * of its rounded-corners effect (None without the effect).
   */
  datatype WindowRecord = WindowRecord(
    clone: CloneId, cloneX: real, cloneY: real,
    actor: WindowActor, hasShadow: bool, effectEnabled: Option<bool>)

  /** Only a window with a shadow and an enabled effect gets a shadow clone. */
  predicate GetsShadowClone(r: WindowRecord)
  {
    r.hasShadow && r.effectEnabled == Some(true)
  }

  /** The shadow clone's box: the frame moved along with the clone, padded by 80 times the window scale. */
  function ShadowCloneRect(r: WindowRecord, scale: real): Rect
  {
    var p := SHADOW_PADDING * scale;
    var frame := r.actor.win.frameRect;
    Rect(r.cloneX + frame.x - r.actor.x - p, r.cloneY + frame.y - r.actor.y - p,
         frame.width + p * 2.0, frame.height + p * 2.0)
  }

  function Translate(r: Rect, dx: real, dy: real): Rect
  {
    Rect(r.x + dx, r.y + dy, r.width, r.height)
  }

  /**
   * The shadow clone is the window's shadow box (the frame outset by the
   * shadow padding) carried over by the clone's displacement from the actor.
   */
  lemma CloneIsDisplacedShadow(r: WindowRecord, scale: real)
    ensures ShadowCloneRect(r, scale)
      == Translate(M.Outset(r.actor.win.frameRect, SHADOW_PADDING * scale), r.cloneX - r.actor.x, r.cloneY - r.actor.y)
  {
  }

  /** The shadow clone is centred on the window as the clone shows it. */
  lemma CloneCentredOnWindow(r: WindowRecord, scale: real)
    ensures var g, f := ShadowCloneRect(r, scale), r.actor.win.frameRect;
      g.x + g.width / 2.0 == r.cloneX - r.actor.x + f.x + f.width / 2.0
      && g.y + g.height / 2.0 == r.cloneY - r.actor.y + f.y + f.height / 2.0
  {
  }

  /** Desktop Cube compatibility: a shadow clone's translation-z follows its clone's, just behind it. */
  function ShadowTranslationZ(cloneZ: real): (r: real)
    ensures r < cloneZ
    ensures cloneZ - r == 0.05
  {
    cloneZ - 0.05
  }

  /** The `shadowClone` boxes a workspace group's records get, the later record winning for a repeated clone. */
  function ClonesFor(d: Display, recs: seq<WindowRecord>): map<CloneId, Rect>
  {
    if recs == [] then map[]
    else
      var r := recs[|recs| - 1];
      var m := ClonesFor(d, recs[..|recs| - 1]);
      if GetsShadowClone(r) then m[r.clone := ShadowCloneRect(r, M.WindowScaleFactor(d, r.actor.win))] else m
  }

  /** A clone gets a shadow clone exactly when one of its records qualifies; other records are untouched. */
  lemma {:induction false} ClonesForExactly(d: Display, recs: seq<WindowRecord>, c: CloneId)
    ensures c in ClonesFor(d, recs) <==>
      exists k | 0 <= k < |recs| :: recs[k].clone == c && GetsShadowClone(recs[k])
  {
    if recs != [] {
      var n := |recs| - 1;
      ClonesForExactly(d, recs[..n], c);
      if c in ClonesFor(d, recs) && !(recs[n].clone == c && GetsShadowClone(recs[n])) {
        var k :| 0 <= k < n && recs[..n][k].clone == c && GetsShadowClone(recs[..n][k]);
        assert recs[k] == recs[..n][k];
      }
      if exists k | 0 <= k < |recs| :: recs[k].clone == c && GetsShadowClone(recs[k]) {
        var k :| 0 <= k < |recs| && recs[k].clone == c && GetsShadowClone(recs[k]);
        if k < n {
          assert recs[..n][k] == recs[k];
        }
      }
    }
  }

  /** The boxes every workspace group's records get, groups in order. */
  function AllClonesFor(d: Display, groups: seq<seq<WindowRecord>>): map<CloneId, Rect>
  {
    if groups == [] then map[]
    else AllClonesFor(d, groups[..|groups| - 1]) + ClonesFor(d, groups[|groups| - 1])
  }

  /** `delete clone.shadowClone` over a workspace group's records. */
  function Forget(m: map<CloneId, Rect>, recs: seq<WindowRecord>): (r: map<CloneId, Rect>)
    ensures r.Keys <= m.Keys && forall c | c in r :: r[c] == m[c]
  {
    if recs == [] then m else Forget(m, recs[..|recs| - 1]) - {recs[|recs| - 1].clone}
  }

  function AllForget(m: map<CloneId, Rect>, groups: seq<seq<WindowRecord>>): map<CloneId, Rect>
  {
    if groups == [] then m else Forget(AllForget(m, groups[..|groups| - 1]), groups[|groups| - 1])
  }

  /** Whether some record of the groups shows the clone. */
  predicate Shows(groups: seq<seq<WindowRecord>>, c: CloneId)
  {
    exists i, k | 0 <= i < |groups| && 0 <= k < |groups[i]| :: groups[i][k].clone == c
  }

  lemma {:induction false} ForgetExactly(m: map<CloneId, Rect>, recs: seq<WindowRecord>, c: CloneId)
    ensures c in Forget(m, recs) <==> c in m && forall k | 0 <= k < |recs| :: recs[k].clone != c
    ensures c in Forget(m, recs) ==> Forget(m, recs)[c] == m[c]
  {
    if recs != [] {
      var n := |recs| - 1;
      ForgetExactly(m, recs[..n], c);
      assert forall k | 0 <= k < n :: recs[..n][k] == recs[k];
    }
  }

  /** After the switch no clone of any group keeps a shadow clone; clones outside the groups keep theirs. */
  lemma {:induction false} AllForgetExactly(m: map<CloneId, Rect>, groups: seq<seq<WindowRecord>>, c: CloneId)
    ensures c in AllForget(m, groups) <==> c in m && !Shows(groups, c)
    ensures c in AllForget(m, groups) ==> AllForget(m, groups)[c] == m[c]
  {
    if groups != [] {
      var n := |groups| - 1;
      AllForgetExactly(m, groups[..n], c);
      ForgetExactly(AllForget(m, groups[..n]), groups[n], c);
      assert forall i | 0 <= i < n :: groups[..n][i] == groups[i];
      if Shows(groups, c) {
        var i, k :| 0 <= i < |groups| && 0 <= k < |groups[i]| && groups[i][k].clone == c;
        if i < n {
          assert Shows(groups[..n], c) by { assert groups[..n][i][k].clone == c; }
        }
      }
      if Shows(groups[..n], c) {
        var i, k :| 0 <= i < n && 0 <= k < |groups[..n][i]| && groups[..n][i][k].clone == c;
        assert groups[i][k].clone == c;
      }
    }
  }

  /** Removing the shadow clones twice is removing them once. */
  lemma RemovalIdempotent(m: map<CloneId, Rect>, groups: seq<seq<WindowRecord>>)
    ensures AllForget(AllForget(m, groups), groups) == AllForget(m, groups)
  {
    var once := AllForget(m, groups);
    var twice := AllForget(once, groups);
    forall c ensures (c in twice <==> c in once) && (c in twice ==> twice[c] == once[c]) {
      AllForgetExactly(m, groups, c);
      AllForgetExactly(once, groups, c);
    }
  }

  /** The clones whose shadow clone `shadowClone?.destroy()` destroys, in order, over one group. */
  function DestroyLog(m: map<CloneId, Rect>, recs: seq<WindowRecord>): (r: seq<CloneId>)
    ensures |r| <= |recs|
  {
    if recs == [] then []
    else
      var n := |recs| - 1;
      DestroyLog(m, recs[..n]) + (if recs[n].clone in Forget(m, recs[..n]) then [recs[n].clone] else [])
  }

  /** Every destroyed shadow clone existed and belonged to a record of the group. */
  lemma {:induction false} DestroyLogExactly(m: map<CloneId, Rect>, recs: seq<WindowRecord>, c: CloneId)
    ensures c in DestroyLog(m, recs) <==> c in m && exists k | 0 <= k < |recs| :: recs[k].clone == c
  {
    if recs != [] {
      var n := |recs| - 1;
      DestroyLogExactly(m, recs[..n], c);
      ForgetExactly(m, recs[..n], c);
      assert forall k | 0 <= k < n :: recs[..n][k] == recs[k];
      if c in m && (exists k | 0 <= k < |recs| :: recs[k].clone == c) && c !in DestroyLog(m, recs[..n]) {
        assert forall k | 0 <= k < n :: recs[k].clone != c;
        assert recs[n].clone == c;
      }
    }
  }

  /** No shadow clone is destroyed twice. */
  lemma {:induction false} DestroyLogDistinct(m: map<CloneId, Rect>, recs: seq<WindowRecord>)
    ensures forall i, j | 0 <= i < j < |DestroyLog(m, recs)| :: DestroyLog(m, recs)[i] != DestroyLog(m, recs)[j]
  {
    if recs != [] {
      var n := |recs| - 1;
      DestroyLogDistinct(m, recs[..n]);
      var c := recs[n].clone;
      if c in Forget(m, recs[..n]) {
        ForgetExactly(m, recs[..n], c);
        DestroyLogExactly(m, recs[..n], c);
        assert c !in DestroyLog(m, recs[..n]) by {
          assert forall k | 0 <= k < n :: recs[..n][k].clone == recs[k].clone;
        }
      }
    }
  }

  function AllDestroyLog(m: map<CloneId, Rect>, groups: seq<seq<WindowRecord>>): seq<CloneId>
  {
    if groups == [] then []
    else
      var n := |groups| - 1;
      AllDestroyLog(m, groups[..n]) + DestroyLog(AllForget(m, groups[..n]), groups[n])
  }

  /** The clones of a group whose shadow clone is put directly below them on a restack, in record order. */
  function StackedBelow(recs: seq<WindowRecord>, m: map<CloneId, Rect>): seq<CloneId>
  {
    if recs == [] then []
    else
      var n := |recs| - 1;
      StackedBelow(recs[..n], m) + (if recs[n].clone in m then [recs[n].clone] else [])
  }

  lemma {:induction false} StackedBelowExactly(recs: seq<WindowRecord>, m: map<CloneId, Rect>, c: CloneId)
    ensures c in StackedBelow(recs, m) <==> c in m && exists k | 0 <= k < |recs| :: recs[k].clone == c
  {
    if recs != [] {
      var n := |recs| - 1;
      StackedBelowExactly(recs[..n], m, c);
      assert forall k | 0 <= k < n :: recs[..n][k] == recs[k];
      if c in m && (exists k | 0 <= k < |recs| :: recs[k].clone == c) && c !in StackedBelow(recs[..n], m) {
        assert recs[n].clone == c;
      }
    }
  }

  /** The group indices 0, 1, ..., n - 1. */
  function Upto(n: nat): (r: seq<nat>)
    ensures |r| == n
    ensures forall i | 0 <= i < n :: r[i] == i
  {
    if n == 0 then [] else Upto(n - 1) + [n - 1]
  }

  /** The list left after disconnecting every subscription of one workspace group. */
  function DropAll(s: seq<nat>, w: nat): seq<nat>
  {
    if s == [] then [] else (if s[0] == w then [] else [s[0]]) + DropAll(s[1..], w)
  }

  lemma {:induction false} DropAllExactly(s: seq<nat>, w: nat, x: nat)
    ensures x in DropAll(s, w) <==> x in s && x != w
  {
    if s != [] {
      DropAllExactly(s[1..], w, x);
      assert x in s <==> x == s[0] || x in s[1..];
    }
  }

  /** One more workspace group adds its shadow clones over those of the groups before it. */
  lemma AllClonesStep(d: Display, groups: seq<seq<WindowRecord>>, i: nat)
    requires i < |groups|
    ensures AllClonesFor(d, groups[..i + 1]) == AllClonesFor(d, groups[..i]) + ClonesFor(d, groups[i])
  {
    assert groups[..i + 1][..i] == groups[..i];
  }

  /** One more record adds its shadow clone when it qualifies. */
  lemma ClonesStep(d: Display, recs: seq<WindowRecord>, i: nat)
    requires i < |recs|
    ensures ClonesFor(d, recs[..i + 1])
      == (if GetsShadowClone(recs[i])
          then ClonesFor(d, recs[..i])[recs[i].clone := ShadowCloneRect(recs[i], M.WindowScaleFactor(d, recs[i].actor.win))]
          else ClonesFor(d, recs[..i]))
  {
    assert recs[..i + 1][..i] == recs[..i];
  }

  lemma UnionAssoc<K, V>(a: map<K, V>, b: map<K, V>, c: map<K, V>)
    ensures a + b + c == a + (b + c)
    ensures (a + b).Keys == a.Keys + b.Keys
  {
  }

  lemma UnionUpdate<K, V>(a: map<K, V>, b: map<K, V>, k: K, v: V)
    ensures (a + b)[k := v] == a + b[k := v]
    ensures b[k := v].Keys == b.Keys + {k}
  {
  }

  /**
   * The shell's workspace animation seen from the patch: the workspace
   * groups of every monitor, in order; the `shadowClone` property of each
   * clone; the clones whose shadow clone was destroyed, in order; the
   * global restacked subscriptions, each naming its workspace group; the
   * clones with a translation-z handler and the translation-z of shadow clones.
   */
  class Switcher {
    const display: Display
    const groups: seq<seq<WindowRecord>>
    var shadowCloneOf: map<CloneId, Rect>
    var destroyed: seq<CloneId>
    var restacked: seq<nat>
    var zWatch: set<CloneId>
    var shadowZ: map<CloneId, real>

    constructor (display: Display, groups: seq<seq<WindowRecord>>)
      ensures this.display == display && this.groups == groups
      ensures shadowCloneOf == map[] && destroyed == [] && restacked == [] && zWatch == {} && shadowZ == map[]
    {
      this.display := display;
      this.groups := groups;
      shadowCloneOf := map[];
      destroyed := [];
      restacked := [];
      zWatch := {};
      shadowZ := map[];
    }

    /** addShadowsInWorkspaceSwitch: one restacked subscription and the shadow clones for every group. */
    method AddShadows()
      modifies this`shadowCloneOf, this`restacked, this`zWatch
      ensures shadowCloneOf == old(shadowCloneOf) + AllClonesFor(display, groups)
      ensures restacked == old(restacked) + Upto(|groups|)
      ensures zWatch == old(zWatch) + AllClonesFor(display, groups).Keys
    {
      var i := 0;
      while i < |groups|
        invariant 0 <= i <= |groups|
        invariant shadowCloneOf == old(shadowCloneOf) + AllClonesFor(display, groups[..i])
        invariant restacked == old(restacked) + Upto(i)
        invariant zWatch == old(zWatch) + AllClonesFor(display, groups[..i]).Keys
      {
        ghost var before := AllClonesFor(display, groups[..i]);
        AddShadowsInGroup(i);
        AllClonesStep(display, groups, i);
        UnionAssoc(old(shadowCloneOf), before, ClonesFor(display, groups[i]));
        UnionAssoc(before, ClonesFor(display, groups[i]), map[]);
        i := i + 1;
      }
      assert groups[..i] == groups;
    }

    /** One workspace group: its restacked subscription, then a shadow clone for each qualifying record. */
    method AddShadowsInGroup(w: nat)
      requires w < |groups|
      modifies this`shadowCloneOf, this`restacked, this`zWatch
      ensures shadowCloneOf == old(shadowCloneOf) + ClonesFor(display, groups[w])
      ensures restacked == old(restacked) + [w]
      ensures zWatch == old(zWatch) + ClonesFor(display, groups[w]).Keys
    {
      restacked := restacked + [w];
      var recs := groups[w];
      var i := 0;
      while i < |recs|
        invariant 0 <= i <= |recs|
        invariant shadowCloneOf == old(shadowCloneOf) + ClonesFor(display, recs[..i])
        invariant zWatch == old(zWatch) + ClonesFor(display, recs[..i]).Keys
        invariant restacked == old(restacked) + [w]
      {
        var r := recs[i];
        ClonesStep(display, recs, i);
        if GetsShadowClone(r) {
          var g := ShadowCloneRect(r, M.WindowScaleFactor(display, r.actor.win));
          UnionUpdate(old(shadowCloneOf), ClonesFor(display, recs[..i]), r.clone, g);
          shadowCloneOf := shadowCloneOf[r.clone := g];
          zWatch := zWatch + {r.clone};
        }
        i := i + 1;
      }
      assert recs[..i] == recs;
    }

    /** removeShadowsAfterWorkspaceSwitch: every record's shadow clone is destroyed and the property deleted. */
    method RemoveShadows()
      modifies this`shadowCloneOf, this`destroyed
      ensures shadowCloneOf == AllForget(old(shadowCloneOf), groups)
      ensures destroyed == old(destroyed) + AllDestroyLog(old(shadowCloneOf), groups)
    {
      var i := 0;
      while i < |groups|
        invariant 0 <= i <= |groups|
        invariant shadowCloneOf == AllForget(old(shadowCloneOf), groups[..i])
        invariant destroyed == old(destroyed) + AllDestroyLog(old(shadowCloneOf), groups[..i])
      {
        RemoveShadowsInGroup(i);
        assert groups[..i + 1][..i] == groups[..i];
        i := i + 1;
      }
      assert groups[..i] == groups;
    }

    method RemoveShadowsInGroup(w: nat)
      requires w < |groups|
      modifies this`shadowCloneOf, this`destroyed
      ensures shadowCloneOf == Forget(old(shadowCloneOf), groups[w])
      ensures destroyed == old(destroyed) + DestroyLog(old(shadowCloneOf), groups[w])
    {
      var recs := groups[w];
      var i := 0;
      while i < |recs|
        invariant 0 <= i <= |recs|
        invariant shadowCloneOf == Forget(old(shadowCloneOf), recs[..i])
        invariant destroyed == old(destroyed) + DestroyLog(old(shadowCloneOf), recs[..i])
      {
        var c := recs[i].clone;
        assert recs[..i + 1][..i] == recs[..i];
        if c in shadowCloneOf {
          destroyed := destroyed + [c];
        }
        shadowCloneOf := shadowCloneOf - {c};
        i := i + 1;
      }
      assert recs[..i] == recs;
    }

    /** The k-th restacked subscription fires: each of its group's shadow clones goes directly below its clone. */
    method OnRestacked(k: nat) returns (below: seq<CloneId>)
      requires k < |restacked| && restacked[k] < |groups|
      ensures below == StackedBelow(groups[restacked[k]], shadowCloneOf)
    {
      var recs := groups[restacked[k]];
      below := [];
      var i := 0;
      while i < |recs|
        invariant 0 <= i <= |recs|
        invariant below == StackedBelow(recs[..i], shadowCloneOf)
      {
        assert recs[..i + 1][..i] == recs[..i];
        if recs[i].clone in shadowCloneOf {
          below := below + [recs[i].clone];
        }
        i := i + 1;
      }
      assert recs[..i] == recs;
    }

    /** A workspace group is destroyed: its restacked subscription and its own destroy handler are released. */
    method OnWorkspaceDestroyed(w: nat)
      modifies this`restacked
      ensures restacked == DropAll(old(restacked), w)
    {
      restacked := DropAll(restacked, w);
    }

    /** A clone's translation-z changes: its shadow clone follows it, just behind. */
    method OnCloneTranslationZ(c: CloneId, z: real)
      modifies this`shadowZ
      ensures shadowZ == if c in zWatch then old(shadowZ)[c := ShadowTranslationZ(z)] else old(shadowZ)
    {
      if c in zWatch {
        shadowZ := shadowZ[c := ShadowTranslationZ(z)];
      }
    }

    /** A clone is destroyed: its translation-z and destroy handlers are released. */
    method OnCloneDestroyed(c: CloneId)
      modifies this`zWatch
      ensures zWatch == old(zWatch) - {c}
    {
      zWatch := zWatch - {c};
    }
  }
}
