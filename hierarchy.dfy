/** The frame hierarchy: each frame of a table names its reference frame by
    index, or the world coordinate system (None). The hierarchy must be a
    forest: every chain of reference frames ends in the world. This module
    states that invariant, walks a chain the way
    settingAsReferenceFrameWillCreateALoop does, and proves which re-linkings
    keep the invariant. */
module Hierarchy {
  import opened Options

  /** links[i] is the reference frame of frame i. */
  type Links = seq<Option<nat>>

  predicate InRange(links: Links) {
    forall i: nat | 0 <= i < |links| :: links[i].Some? ==> links[i].value < |links|
  }

  /** The frame reached from i by following k reference-frame links: Some(i)
      for k == 0, and None once the chain has reached the world. */
  function Up(links: Links, i: nat, k: nat): (r: Option<nat>)
    requires InRange(links) && i < |links|
    ensures r.Some? ==> r.value < |links|
    decreases k
  {
    if k == 0 then Some(i)
    else match links[i]
      case None => None
      case Some(p) => Up(links, p, k - 1)
  }

  /** The chain of reference frames above i reaches the world. */
  ghost predicate ReachesWorld(links: Links, i: nat)
    requires InRange(links) && i < |links|
  {
    exists k: nat :: Up(links, i, k) == None
  }

  /** Every chain of reference frames reaches the world. */
  ghost predicate Acyclic(links: Links) {
    InRange(links) && forall i: nat | 0 <= i < |links| :: ReachesWorld(links, i)
  }

  /** a is i itself or one of the reference frames above i. */
  ghost predicate OnChain(links: Links, i: nat, a: nat)
    requires InRange(links) && i < |links|
  {
    exists k: nat :: Up(links, i, k) == Some(a)
  }

  /** The number of links from i to the world. */
  ghost function Depth(links: Links, i: nat): (d: nat)
    requires Acyclic(links) && i < |links|
    ensures Up(links, i, d) == None
    ensures forall k: nat :: Up(links, i, k) == None ==> d <= k
  {
    assert ReachesWorld(links, i);
    var k: nat :| Up(links, i, k) == None;
    FirstRoot(links, i, 0, k)
  }

  /** The least number of links, from m on, after which the chain above i has
      reached the world, knowing that k links suffice. */
  function FirstRoot(links: Links, i: nat, m: nat, k: nat): (d: nat)
    requires InRange(links) && i < |links| && m <= k && Up(links, i, k) == None
    requires forall m': nat :: m' < m ==> Up(links, i, m') != None
    ensures Up(links, i, d) == None
    ensures forall m': nat :: Up(links, i, m') == None ==> d <= m'
    decreases k - m
  {
    if Up(links, i, m) == None then m else FirstRoot(links, i, m + 1, k)
  }

  /** The reference frame of i is strictly closer to the world than i. */
  lemma DepthParent(links: Links, i: nat)
    requires Acyclic(links) && i < |links| && links[i].Some?
    ensures Depth(links, links[i].value) < Depth(links, i)
  {
    var d := Depth(links, i);
    assert d != 0;
    assert Up(links, links[i].value, d - 1) == None;
  }

  /** One step of the walk: a is on the chain of i exactly when a is i or a is
      on the chain of i's reference frame. */
  lemma OnChainStep(links: Links, i: nat, a: nat)
    requires InRange(links) && i < |links|
    ensures OnChain(links, i, a) <==>
            (i == a || (links[i].Some? && OnChain(links, links[i].value, a)))
  {
    if OnChain(links, i, a) && i != a {
      var k: nat :| Up(links, i, k) == Some(a);
      assert Up(links, links[i].value, k - 1) == Some(a);
    }
    if i == a {
      assert Up(links, i, 0) == Some(a);
    } else if links[i].Some? && OnChain(links, links[i].value, a) {
      var k: nat :| Up(links, links[i].value, k) == Some(a);
      assert Up(links, i, k + 1) == Some(a);
    }
  }

  /** settingAsReferenceFrameWillCreateALoop(refFrame) called on frame: walks
      up from refFrame and reports whether it meets frame. */
  method WillCreateALoop(links: Links, frame: nat, refFrame: Option<nat>) returns (loop: bool)
    requires Acyclic(links) && frame < |links|
    requires refFrame.Some? ==> refFrame.value < |links|
    ensures loop == (refFrame.Some? && OnChain(links, refFrame.value, frame))
  {
    var f := refFrame;
    while f.Some?
      invariant f.Some? ==> f.value < |links|
      invariant (refFrame.Some? && OnChain(links, refFrame.value, frame)) ==
                (f.Some? && OnChain(links, f.value, frame))
      decreases if f.Some? then Depth(links, f.value) + 1 else 0
    {
      OnChainStep(links, f.value, frame);
      if f.value == frame {
        return true;
      }
      if links[f.value].Some? {
        DepthParent(links, f.value);
      }
      f := links[f.value];
    }
    return false;
  }

  /** Re-linking i leaves unchanged, for k steps, every walk that does not
      meet i in its first k frames. */
  lemma {:induction false} AvoidUnchanged(links: Links, i: nat, r: Option<nat>, x: nat, k: nat)
    requires InRange(links) && i < |links| && x < |links|
    requires r.Some? ==> r.value < |links|
    requires forall m: nat :: m < k ==> Up(links, x, m) != Some(i)
    ensures InRange(links[i := r])
    ensures Up(links[i := r], x, k) == Up(links, x, k)
    decreases k
  {
    if k > 0 {
      assert Up(links, x, 0) == Some(x);
      if links[x].Some? {
        var p := links[x].value;
        forall m: nat | m < k - 1
          ensures Up(links, p, m) != Some(i)
        {
          assert Up(links, x, m + 1) == Up(links, p, m);
        }
        AvoidUnchanged(links, i, r, p, k - 1);
      }
    }
  }

  /** Following a links, then b more, is following a + b links. */
  lemma {:induction false} Compose(links: Links, x: nat, a: nat, b: nat)
    requires InRange(links) && x < |links|
    ensures Up(links, x, a).Some? ==> Up(links, x, a + b) == Up(links, Up(links, x, a).value, b)
    ensures Up(links, x, a).None? ==> Up(links, x, a + b).None?
    decreases a
  {
    if a > 0 && links[x].Some? {
      Compose(links, links[x].value, a - 1, b);
    }
  }

  ghost predicate SafeLink(links: Links, i: nat, r: Option<nat>)
    requires InRange(links) && i < |links|
  {
    match r
      case None => true
      case Some(f) => f < |links| && !OnChain(links, f, i)
  }

  lemma {:induction false} NewChainEnds(links: Links, i: nat, r: Option<nat>, j: nat, k: nat)
    requires Acyclic(links) && i < |links| && j < |links| && SafeLink(links, i, r)
    requires Up(links, j, k) == None
    ensures InRange(links[i := r])
    ensures ReachesWorld(links[i := r], j)
    decreases k
  {
    var after := links[i := r];
    AvoidUnchanged(links, i, r, j, 0);
    if j == i {
      match r
      case None =>
        assert Up(after, j, 1) == None;
      case Some(f) =>
        assert ReachesWorld(links, f);
        var kf: nat :| Up(links, f, kf) == None;
        AvoidUnchanged(links, i, r, f, kf);
        assert Up(after, j, kf + 1) == None;
    } else if links[j].None? {
      assert Up(after, j, 1) == None;
    } else {
      var p := links[j].value;
      assert Up(links, p, k - 1) == None;
      NewChainEnds(links, i, r, p, k - 1);
      var k'': nat :| Up(after, p, k'') == None;
      assert Up(after, j, k'' + 1) == None;
    }
  }

  /** setReferenceFrame(r) on frame i, when it passed the loop check (or r is
      the world), leaves a forest. */
  lemma ReparentKeepsAcyclic(links: Links, i: nat, r: Option<nat>)
    requires Acyclic(links) && i < |links| && SafeLink(links, i, r)
    ensures Acyclic(links[i := r])
  {
    var after := links[i := r];
    AvoidUnchanged(links, i, r, i, 0);
    forall j: nat | 0 <= j < |links|
      ensures ReachesWorld(after, j)
    {
      assert ReachesWorld(links, j);
      var k: nat :| Up(links, j, k) == None;
      NewChainEnds(links, i, r, j, k);
    }
  }

  /** The least number of links, from m on, after which the walk from x meets
      i, knowing that k links reach it. */
  function FirstHit(links: Links, x: nat, i: nat, m: nat, k: nat): (d: nat)
    requires InRange(links) && x < |links| && m <= k && Up(links, x, k) == Some(i)
    requires forall m': nat :: m' < m ==> Up(links, x, m') != Some(i)
    ensures Up(links, x, d) == Some(i)
    ensures forall m': nat :: m' < d ==> Up(links, x, m') != Some(i)
    decreases k - m
  {
    if Up(links, x, m) == Some(i) then m else FirstHit(links, x, i, m + 1, k)
  }

  /** The loop check is exact: linking i to itself or to a frame f below it
      (one whose chain contains i) leaves a chain that never reaches the
      world. */
  lemma ReparentOntoChainLoops(links: Links, i: nat, f: nat, after: Links)
    requires InRange(links) && i < |links| && f < |links| && OnChain(links, f, i)
    requires after == links[i := Some(f)]
    ensures InRange(after)
    ensures forall k: nat :: Up(after, i, k).Some?
    ensures !Acyclic(after)
  {
    var m: nat :| Up(links, f, m) == Some(i);
    var m0 := FirstHit(links, f, i, 0, m);
    AvoidUnchanged(links, i, Some(f), f, m0);
    assert Up(after, i, m0 + 1) == Some(i);
    forall k: nat
      ensures Up(after, i, k).Some?
    {
      LoopForever(links, i, f, m0, k);
    }
    assert !ReachesWorld(after, i);
  }

  lemma {:induction false} LoopForever(links: Links, i: nat, f: nat, m0: nat, k: nat)
    requires InRange(links) && i < |links| && f < |links|
    requires Up(links, f, m0) == Some(i)
    requires forall m': nat :: m' < m0 ==> Up(links, f, m') != Some(i)
    requires InRange(links[i := Some(f)]) && Up(links[i := Some(f)], i, m0 + 1) == Some(i)
    ensures Up(links[i := Some(f)], i, k).Some?
    decreases k
  {
    var after := links[i := Some(f)];
    if k == 0 {
    } else if k <= m0 + 1 {
      AvoidUnchanged(links, i, Some(f), f, k - 1);
      assert Up(after, i, k) == Up(links, f, k - 1);
      Compose(links, f, k - 1, m0 - (k - 1));
    } else {
      Compose(after, i, m0 + 1, k - (m0 + 1));
      LoopForever(links, i, f, m0, k - (m0 + 1));
    }
  }

  /** Adding a frame whose reference is the world or an existing frame leaves
      a forest, and the walks of the existing frames are unchanged. */
  lemma AppendKeepsAcyclic(links: Links, r: Option<nat>)
    requires Acyclic(links) && (r.Some? ==> r.value < |links|)
    ensures Acyclic(links + [r])
    ensures forall j: nat, k: nat :: 0 <= j < |links| ==> Up(links + [r], j, k) == Up(links, j, k)
  {
    var after := links + [r];
    assert InRange(after) by {
      forall i: nat | 0 <= i < |after| ensures after[i].Some? ==> after[i].value < |after| {
        if i < |links| { assert after[i] == links[i]; }
      }
    }
    forall j: nat, k: nat | 0 <= j < |links|
      ensures Up(after, j, k) == Up(links, j, k)
    {
      AppendUnchanged(links, r, j, k);
    }
    forall j: nat | 0 <= j < |links|
      ensures ReachesWorld(after, j)
    {
      assert ReachesWorld(links, j);
      var k: nat :| Up(links, j, k) == None;
      AppendUnchanged(links, r, j, k);
    }
    var n := |links|;
    match r
    case None =>
      assert Up(after, n, 1) == None;
    case Some(p) =>
      assert ReachesWorld(links, p);
      var kp: nat :| Up(links, p, kp) == None;
      AppendUnchanged(links, r, p, kp);
      assert Up(after, n, kp + 1) == None;
  }

  lemma {:induction false} AppendUnchanged(links: Links, r: Option<nat>, j: nat, k: nat)
    requires InRange(links) && (r.Some? ==> r.value < |links|) && j < |links|
    requires InRange(links + [r])
    ensures Up(links + [r], j, k) == Up(links, j, k)
    decreases k
  {
    assert (links + [r])[j] == links[j];
    if k > 0 && links[j].Some? {
      AppendUnchanged(links, r, links[j].value, k - 1);
    }
  }
}
