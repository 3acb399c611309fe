/** The scene boundary: how long a scene must last for frame numbers to be reused safely, and what
    loss can still do across one. */
module Scenes {
  import opened Merge
  import opened Wire
  import opened PeerSpec
  import opened Lockstep
  import opened Agreement
  import opened Runs
  import opened Deadlock

  lemma GuestLags(c: Config, len: nat) returns (s: Sys)
    requires 1 <= c.delay < RETAIN && len >= 2 * c.delay + 1
    ensures Reachable(c, s)
    ensures var k := len - 2 * c.delay - 1; Plain(c, s.h, 0, 0, k, k) && s.h.phase == Idle
    ensures s.h.lost == {} && s.h.peer.isHost
    ensures Plain(c, s.g, 0, 0, len - c.delay, len - 2 * c.delay - 1) && s.g.phase == Waiting && s.g.lost == {}
    ensures !s.g.peer.isHost
  {
    var k := len - 2 * c.delay - 1;
    s := Together(c, k);
    s := RunsOn(c, s, false, 0, 0, k, k, 0, len - c.delay - 1);
    s := StartsNext(c, s, false, 0, 0, len - c.delay - 1, k);
  }

  /** The host has completed a first scene of len frames; the guest still waits in it, for the
      host's frame len - 2 * delay - 1. */
  lemma Straddle(c: Config, len: nat) returns (s: Sys)
    requires 1 <= c.delay < RETAIN && len >= 2 * c.delay + 1
    ensures Reachable(c, s)
    ensures Plain(c, s.h, 0, 0, len, len - c.delay) && s.h.phase == Idle && s.h.lost == {} && s.h.peer.isHost
    ensures Plain(c, s.g, 0, 0, len - c.delay, len - 2 * c.delay - 1) && s.g.phase == Waiting && s.g.lost == {}
    ensures !s.g.peer.isHost
  {
    var k := len - 2 * c.delay - 1;
    s := GuestLags(c, len);
    s := RunsOn(c, s, true, 0, 0, k, len - c.delay, 0, len);
  }

  /** The host then crosses into its second scene and completes `delay` frames there. */
  lemma Crosses(c: Config, len: nat) returns (s: Sys)
    requires 1 <= c.delay < RETAIN && len >= 2 * c.delay + 1 && len >= c.minScene
    ensures Reachable(c, s)
    ensures Plain(c, s.h, 1, len, c.delay, 0) && s.h.phase == Idle && s.h.lost == {} && s.h.peer.isHost
    ensures |s.h.outs[0]| == len && |s.h.hist[0]| == len && forall f :: c.delay <= f < len ==> s.h.outs[0][f].Merged?
    ensures Plain(c, s.g, 0, 0, len - c.delay, len - 2 * c.delay - 1) && s.g.phase == Waiting && s.g.lost == {}
    ensures !s.g.peer.isHost
  {
    s := Straddle(c, len);
    Acts(c, s, true, Reset);
    s := s.(h := Do(c, s.h, s.g, Reset));
    s := RunsOn(c, s, true, 1, len, 0, 0, 0, c.delay);
  }

  lemma StartSends(c: Config, x: Side, y: Side, e: nat, b: nat, n: nat, m: int, w: Word)
    requires Plain(c, x, e, b, n, m) && x.phase == Idle
    ensures var a := Start(w, 0, false, IgcNone, [], 0);
            && Can(c, x, y, a)
            && var x' := Do(c, x, y, a);
               && SamePast(x, x') && |x'.sent| == b + n + 1
               && PlainPack(x'.sent[b + n].pack, e, n) && x'.sent[b + n].pack.ctrl.keys[0] == ReadFromInt(w)
  {
    var p := x.peer.(netFrame := n);
    ResyncFrame(p, n, false, Arrivals(y, [], 0));
    assert RunResync(p, n, false, Arrivals(y, [], 0)) == p.(resync := p.resync.(desyncRun := 0));
  }

  /** Handing a waiting machine the very slot it needs, whatever scene the packet is from, and
      letting it finish. */
  lemma ReadsTheNewestSlot(c: Config, x: Side, y: Side, n: nat, m: int, i: nat, e: nat, f: int, w: Word)
    requires Plain(c, x, 0, 0, n, m) && x.phase == Waiting && !x.peer.isHost && Deliverable(y, i)
    requires n - 1 - c.delay == f >= 0 && PlainPack(y.sent[i].pack, e, f) && y.sent[i].pack.ctrl.keys[0] == ReadFromInt(w)
    ensures Can(c, x, y, Deliver(i, 0))
    ensures var x1 := Do(c, x, y, Deliver(i, 0));
            && Can(c, x1, y, Finish)
            && var x2 := Do(c, x1, y, Finish);
               && |x2.outs| == 1 && |x2.outs[0]| == n && x2.outs[0][n - 1].Merged? && x2.outs[0][n - 1].p1 == w
               && x2.hist == x.hist
  {
    BitsRoundTrip(w, NO_KEYS);
  }

  /** The host has gone on to frame `delay` of its second scene with any word w there. */
  lemma CrossesHolding(c: Config, f: nat) returns (s: Sys, i: nat, w: Word)
    requires 1 <= c.delay < RETAIN && c.minScene < SafeScene(c.delay) && f == 2 * c.delay
    ensures Reachable(c, s) && Plain(c, s.g, 0, 0, f + 1, c.delay) && s.g.phase == Waiting && !s.g.peer.isHost
    ensures |s.h.outs| == 2 && |s.h.hist| == 2 && |s.h.outs[0]| == |s.h.hist[0]| == 3 * c.delay + 1
    ensures s.h.outs[0][f].Merged? && s.h.outs[0][f].p1 != w
    ensures Deliverable(s.h, i) && PlainPack(s.h.sent[i].pack, 1, c.delay)
    ensures s.h.sent[i].pack.ctrl.keys[0] == ReadFromInt(w)
  {
    var d, len := c.delay, 3 * c.delay + 1;
    s := Crosses(c, len);
    var v := s.h.outs[0][f].p1;
    Flipped(v);
    i, w := len + d, v ^ 1;
    var a := Start(w, 0, false, IgcNone, [], 0);
    StartSends(c, s.h, s.g, 1, len, d, 0, w);
    Acts(c, s, true, a);
    s := s.(h := Do(c, s.h, s.g, a));
  }

  /** With a scene of 3 * delay + 1 frames the guest can read, in the old scene, what the host
      recorded in the new one. */
  lemma ShortSceneDisagrees(c: Config) returns (s: Sys, f: nat)
    requires 1 <= c.delay < RETAIN && c.minScene < SafeScene(c.delay)
    ensures Reachable(c, s) && BothCompleted(s, 0, f) && !SamePair(s.h.outs[0][f], s.g.outs[0][f])
  {
    f := 2 * c.delay;
    var i, w;
    s, i, w := CrossesHolding(c, f);
    s := ReadsIt(c, s, f, i, w);
  }

  lemma ReadsIt(c: Config, s0: Sys, f: nat, i: nat, w: Word) returns (s: Sys)
    requires 1 <= c.delay < RETAIN && f == 2 * c.delay
    requires Reachable(c, s0) && Plain(c, s0.g, 0, 0, f + 1, c.delay) && s0.g.phase == Waiting && !s0.g.peer.isHost
    requires Deliverable(s0.h, i) && PlainPack(s0.h.sent[i].pack, 1, c.delay)
    requires s0.h.sent[i].pack.ctrl.keys[0] == ReadFromInt(w)
    ensures Reachable(c, s) && s.h == s0.h && |s.g.outs| == 1 && |s.g.hist| == 1 && |s.g.outs[0]| == |s.g.hist[0]| == f + 1
    ensures s.g.outs[0][f].Merged? && s.g.outs[0][f].p1 == w
  {
    ReadsTheNewestSlot(c, s0.g, s0.h, f + 1, c.delay, i, 1, c.delay, w);
    Acts(c, s0, false, Deliver(i, 0));
    s := s0.(g := Do(c, s0.g, s0.h, Deliver(i, 0)));
    Acts(c, s, false, Finish);
    s := s.(g := Do(c, s.g, s.h, Finish));
  }

  lemma Flipped(v: Word)
    ensures v ^ 1 != v
  {
  }

  ghost predicate AlwaysAgrees(c: Config) {
    forall s, e, f :: Reachable(c, s) && BothCompleted(s, e, f) ==> SamePair(s.h.outs[e][f], s.g.outs[e][f])
  }

  /** The exact bound: the machines agree on every completed frame of every run if and only if no
      scene is shorter than 3 * delay + 2 frames. */
  lemma AgreementIffScenesLast(c: Config)
    requires 1 <= c.delay < RETAIN
    ensures AlwaysAgrees(c) <==> c.minScene >= SafeScene(c.delay)
  {
    if c.minScene >= SafeScene(c.delay) {
      forall s, e, f | Reachable(c, s) && BothCompleted(s, e, f)
        ensures SamePair(s.h.outs[e][f], s.g.outs[e][f])
      {
        CompletedFramesAgree(c, s, e, f);
      }
    } else {
      var s, f := ShortSceneDisagrees(c);
    }
  }

  /** However long the scenes and whatever the delay, a scene boundary can wedge both machines under
      loss: crossing it clears the sender's history, so a frame lost before it is never sent again. */
  lemma BoundaryCanWedge(c: Config) returns (s: Sys)
    requires 1 <= c.delay < RETAIN
    ensures Reachable(c, s) && !InOneScene(s) && StuckForever(c, s)
  {
    var d, len := c.delay, if c.minScene > SafeScene(c.delay) then c.minScene else SafeScene(c.delay);
    s := Crosses(c, len);
    s := StartsNext(c, s, true, 1, len, d, 0);
    s := LoseFirst(c, s, true, len + d);
    WedgedAcross(c, s, len);
    WedgedIsStuck(c, s);
  }

  lemma WedgedAcross(c: Config, s: Sys, len: nat)
    requires 1 <= c.delay < RETAIN && len >= SafeScene(c.delay)
    requires Plain(c, s.h, 1, len, c.delay + 1, 0) && s.h.phase == Waiting
    requires forall i :: 0 <= i < len + c.delay ==> i in s.h.lost
    requires Plain(c, s.g, 0, 0, len - c.delay, len - 2 * c.delay - 1) && s.g.phase == Waiting
    ensures Wedged(s.h, s.g) && Wedged(s.g, s.h)
  {
    forall i | 0 <= i < |s.h.sent| && i !in s.h.lost ensures Harmless(s.h.sent[i].pack, 0, len - 2 * c.delay - 1) {
      assert i == len + c.delay;
    }
  }
}
