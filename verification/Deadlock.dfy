/** Whether two machines can end up blocking each other inside one scene.

    A blocked machine keeps re-sending the window of its own current frame. With a delay of at
    most 6 the frame the slower machine misses is always still in the faster one's window; from 7
    on it can have slid out, and then no packet either of them will ever send again helps. */
module Deadlock {
  import opened Wire
  import opened PeerSpec
  import opened Lockstep
  import opened LockstepInv
  import opened Agreement
  import opened Runs

  ghost predicate Blocked(x: Side) {
    x.phase == Waiting && x.hist != [] && NextFrame(x) > 0 && !Ready(x.peer, NextFrame(x) - 1)
  }

  predicate InOneScene(s: Sys) {
    s.h.peer.epoch == s.g.peer.epoch
  }

  /** A schedule that goes on from s, during which neither machine gives up. */
  ghost predicate GoesOn(c: Config, s: Sys, t: seq<Sys>) {
    && t != [] && t[0] == s
    && Steps(c, t)
    && (forall k | 0 <= k < |t| :: t[k].h.phase != Dropped && t[k].g.phase != Dropped)
  }

  /** However the schedule goes on short of a timeout, both machines stay blocked. */
  ghost predicate StuckForever(c: Config, s: Sys) {
    && GoesOn(c, s, [s])
    && forall t: seq<Sys> :: GoesOn(c, s, t) ==> Blocked(t[|t| - 1].h) && Blocked(t[|t| - 1].g)
  }

  // ---- delay at most 6: a re-ping of the faster machine frees the slower one ----

  lemma KeysMakeReady(p: Peer, a: Arrival, f: int)
    requires a.pack.ctrl.Keys? && a.pack.epoch >= p.epoch
    requires a.pack.ctrl.frame - WINDOW < f - p.delay <= a.pack.ctrl.frame
    ensures Ready(ReceiveOne(p, a), f)
  {
  }

  lemma RepingSends(c: Config, x: Side, y: Side, now: nat)
    requires Blocked(x) && |x.outs| == |x.hist|
    ensures Can(c, x, y, Reping(now))
    ensures var x', f := Do(c, x, y, Reping(now)), NextFrame(x) - 1;
            && x'.phase == Waiting && x'.lost == x.lost && |x'.sent| == |x.sent| + 1
            && var p := x'.sent[|x.sent|].pack;
               p.ctrl.Keys? && p.ctrl.frame == f && p.epoch == x.peer.epoch
  {
  }

  lemma DeliverFrees(c: Config, y: Side, x: Side, i: nat, now: nat)
    requires Blocked(y) && |y.outs| == |y.hist| && Deliverable(x, i)
    requires var p := x.sent[i].pack;
             && p.ctrl.Keys? && p.epoch >= y.peer.epoch
             && p.ctrl.frame - WINDOW < NextFrame(y) - 1 - y.peer.delay <= p.ctrl.frame
    ensures Can(c, y, x, Deliver(i, now))
    ensures var y' := Do(c, y, x, Deliver(i, now)); y'.phase == Waiting && !Blocked(y')
  {
    KeysMakeReady(y.peer, Arrival(x.sent[i].pack, now), NextFrame(y) - 1);
  }

  /** What one blocked machine sends again frees the other, when it reaches back far enough. */
  lemma RepingReaches(c: Config, x: Side, y: Side, now: nat)
    requires Blocked(x) && Blocked(y) && |x.outs| == |x.hist| && |y.outs| == |y.hist|
    requires x.peer.epoch >= y.peer.epoch && |x.sent| !in x.lost
    requires NextFrame(x) - 1 - WINDOW < NextFrame(y) - 1 - y.peer.delay <= NextFrame(x) - 1
    ensures Can(c, x, y, Reping(now))
    ensures var x' := Do(c, x, y, Reping(now));
            && x'.phase == Waiting && Can(c, y, x', Deliver(|x.sent|, now))
            && var y' := Do(c, y, x', Deliver(|x.sent|, now));
               y'.phase == Waiting && !Blocked(y')
  {
    RepingSends(c, x, y, now);
    DeliverFrees(c, y, Do(c, x, y, Reping(now)), |x.sent|, now);
  }

  /** The faster machine x sends its window again and y receives it: y can go on. */
  lemma RepingFrees(c: Config, x: Side, y: Side)
    requires Pair(c, x, y) && Pair(c, y, x) && 2 * c.delay <= 13
    requires Blocked(x) && Blocked(y) && x.peer.epoch == y.peer.epoch && NextFrame(y) <= NextFrame(x)
    ensures NextFrame(x) - 1 - WINDOW < NextFrame(y) - 1 - y.peer.delay <= NextFrame(x) - 1
  {
    SkewOneWay(c, x, y);
  }

  /** Indices only ever name packets already sent. */
  ghost predicate LossesOk(x: Side) {
    forall i | i in x.lost :: i < |x.sent|
  }

  lemma {:induction false} RunLosses(c: Config, t: seq<Sys>)
    requires IsRun(c, t)
    ensures LossesOk(t[|t| - 1].h) && LossesOk(t[|t| - 1].g)
  {
    if |t| > 1 {
      var u := t[..|t| - 1];
      LastStep(c, t);
      RunLosses(c, u);
    }
  }

  lemma IsMove(c: Config, x: Side, y: Side, a: Action)
    requires Can(c, x, y, a)
    ensures Moves(c, x, y, Do(c, x, y, a))
  {
  }

  lemma TwoMoves(c: Config, s: Sys, s1: Sys, s2: Sys)
    requires Next(c, s, s1) && Next(c, s1, s2)
    requires s.h.phase == s.g.phase == s1.h.phase == s1.g.phase == s2.h.phase == s2.g.phase == Waiting
    ensures GoesOn(c, s, [s, s1, s2]) && [s, s1, s2][|[s, s1, s2]| - 1] == s2
  {
  }

  /** The faster machine sends its window again. */
  lemma FastRepings(c: Config, s: Sys, slow: bool) returns (s1: Sys)
    requires Blocked(s.h) && Blocked(s.g) && |s.h.outs| == |s.h.hist| && |s.g.outs| == |s.g.hist|
    ensures s1 == With(s, !slow, Do(c, Other(s, slow), Me(s, slow), Reping(0))) && Can(c, Other(s, slow), Me(s, slow), Reping(0))
    ensures Next(c, s, s1) && s1.h.phase == s1.g.phase == Waiting
  {
    RepingSends(c, Other(s, slow), Me(s, slow), 0);
    IsMove(c, Other(s, slow), Me(s, slow), Reping(0));
    s1 := With(s, !slow, Do(c, Other(s, slow), Me(s, slow), Reping(0)));
  }

  lemma FastFreesSlow(c: Config, s: Sys, slow: bool) returns (t: seq<Sys>)
    requires Inv(c, s) && 2 * c.delay <= 13 && InOneScene(s) && LossesOk(Other(s, slow))
    requires Blocked(s.h) && Blocked(s.g) && NextFrame(Me(s, slow)) <= NextFrame(Other(s, slow))
    ensures GoesOn(c, s, t) && !Blocked(Me(t[|t| - 1], slow))
  {
    var x, y, i := Other(s, slow), Me(s, slow), |Other(s, slow).sent|;
    RepingFrees(c, x, y);
    RepingReaches(c, x, y, 0);
    var s1 := FastRepings(c, s, slow);
    var s2 := With(s1, slow, Do(c, y, Do(c, x, y, Reping(0)), Deliver(i, 0)));
    IsMove(c, y, Do(c, x, y, Reping(0)), Deliver(i, 0));
    t := [s, s1, s2];
    TwoMoves(c, s, s1, s2);
  }

  /** Inside one scene and with a delay of at most 6, some schedule always goes on. */
  lemma NoDeadlockUpToSix(c: Config, s: Sys)
    requires Reachable(c, s) && c.minScene >= SafeScene(c.delay) && 2 * c.delay <= 13 && InOneScene(s)
    ensures !StuckForever(c, s)
  {
    ReachableInv(c, s);
    var t :| IsRun(c, t) && t[|t| - 1] == s;
    RunLosses(c, t);
    if StuckForever(c, s) {
      assert Blocked([s][0].h) && Blocked([s][0].g);
      var u := FastFreesSlow(c, s, NextFrame(s.h) <= NextFrame(s.g));
    }
  }

  // ---- delay at least 7: a reachable mutual block ----

  /** A packet that cannot give slot k to a machine in scene e. */
  predicate Harmless(p: Pack, e: nat, k: int) {
    p.ctrl.Keys? && (p.epoch < e || !(p.ctrl.frame - WINDOW < k <= p.ctrl.frame))
  }

  /** Machine x waits for a slot that it does not hold, that no packet still on its way carries,
      and that its peer's window has left behind or not reached. */
  ghost predicate Wedged(x: Side, y: Side) {
    && x.phase == Waiting && x.hist != [] && y.hist != [] && NextFrame(x) > 0 && NextFrame(y) > 0
    && var e, k, f := x.peer.epoch, NextFrame(x) - 1 - x.peer.delay, NextFrame(y) - 1;
       && k >= 0 && k !in x.peer.rcved.bits
       && (y.peer.epoch < e || !(f - WINDOW < k <= f))
       && forall i :: 0 <= i < |y.sent| && i !in y.lost ==> Harmless(y.sent[i].pack, e, k)
  }

  /** Receiving a harmless packet gives neither what it waits for. */
  lemma WedgedReceives(c: Config, x: Side, y: Side, i: nat, now: nat)
    requires Wedged(x, y) && Wedged(y, x) && Can(c, x, y, Deliver(i, now))
    ensures Wedged(Do(c, x, y, Deliver(i, now)), y) && Wedged(y, Do(c, x, y, Deliver(i, now)))
  {
    assert Harmless(y.sent[i].pack, x.peer.epoch, NextFrame(x) - 1 - x.peer.delay);
    var x' := Do(c, x, y, Deliver(i, now));
    ReceiveFrame(x.peer, Arrival(y.sent[i].pack, now));
    assert x'.sent == x.sent && x'.lost == x.lost && x'.hist == x.hist && x'.phase == x.phase;
  }

  lemma WedgedMoves(c: Config, x: Side, y: Side, x': Side)
    requires Wedged(x, y) && Wedged(y, x) && Moves(c, x, y, x') && x'.phase != Dropped
    ensures Wedged(x', y) && Wedged(y, x')
  {
    var a :| Can(c, x, y, a) && x' == Do(c, x, y, a);
    if a.Deliver? { WedgedReceives(c, x, y, a.i, a.now); }
  }

  lemma {:induction false} WedgedForever(c: Config, s: Sys, t: seq<Sys>)
    requires Wedged(s.h, s.g) && Wedged(s.g, s.h) && GoesOn(c, s, t)
    ensures Wedged(t[|t| - 1].h, t[|t| - 1].g) && Wedged(t[|t| - 1].g, t[|t| - 1].h)
  {
    if |t| > 1 {
      var u := t[..|t| - 1];
      LastStep(c, t);
      WedgedForever(c, s, u);
      WedgedNext(c, t[|t| - 2], t[|t| - 1]);
    }
  }

  lemma WedgedNext(c: Config, v: Sys, w: Sys)
    requires Wedged(v.h, v.g) && Wedged(v.g, v.h) && Next(c, v, w)
    requires w.h.phase != Dropped && w.g.phase != Dropped
    ensures Wedged(w.h, w.g) && Wedged(w.g, w.h)
  {
    if w.g == v.g && Moves(c, v.h, v.g, w.h) {
      WedgedMoves(c, v.h, v.g, w.h);
    } else {
      WedgedMoves(c, v.g, v.h, w.g);
    }
  }

  lemma WedgedIsStuck(c: Config, s: Sys)
    requires Wedged(s.h, s.g) && Wedged(s.g, s.h)
    ensures StuckForever(c, s)
  {
    forall t: seq<Sys> | GoesOn(c, s, t) ensures Blocked(t[|t| - 1].h) && Blocked(t[|t| - 1].g) {
      WedgedForever(c, s, t);
    }
  }

  /** The guest stands at frame `delay`, the host at 2 * delay + 1; all but the last packet of each
      is lost. */
  lemma WedgedWhenFarApart(c: Config, s: Sys)
    requires 7 <= c.delay < RETAIN
    requires Plain(c, s.h, 0, 0, 2 * c.delay + 2, c.delay + 1) && s.h.phase == Waiting
    requires Plain(c, s.g, 0, 0, c.delay + 1, 0) && s.g.phase == Waiting
    requires forall i :: 0 <= i < 2 * c.delay + 1 ==> i in s.h.lost
    requires forall i :: 0 <= i < c.delay ==> i in s.g.lost
    ensures Wedged(s.h, s.g) && Wedged(s.g, s.h)
  {
  }

  lemma GuestAtDelay(c: Config) returns (s: Sys)
    requires 1 <= c.delay < RETAIN
    ensures Reachable(c, s) && Plain(c, s.h, 0, 0, 0, 0) && s.h.phase == Idle && s.h.lost == {}
    ensures Plain(c, s.g, 0, 0, c.delay + 1, 0) && s.g.phase == Waiting && s.g.lost == {}
  {
    s := Boot(c);
    s := RunsOn(c, s, false, 0, 0, 0, 0, 0, c.delay);
    s := StartsNext(c, s, false, 0, 0, c.delay, 0);
  }

  lemma FarApart(c: Config) returns (s: Sys)
    requires 1 <= c.delay < RETAIN
    ensures Reachable(c, s) && Plain(c, s.h, 0, 0, 2 * c.delay + 2, c.delay + 1) && s.h.phase == Waiting
    ensures Plain(c, s.g, 0, 0, c.delay + 1, 0) && s.g.phase == Waiting
  {
    s := GuestAtDelay(c);
    s := RunsOn(c, s, true, 0, 0, 0, c.delay + 1, 0, 2 * c.delay + 1);
    s := StartsNext(c, s, true, 0, 0, 2 * c.delay + 1, c.delay + 1);
  }

  /** From a delay of 7 on, loss alone can bring both machines, in their first scene, to a state
      in which no schedule whatever lets either go on before the five seconds are up. */
  lemma DeadlockFromSeven(c: Config) returns (s: Sys)
    requires 7 <= c.delay < RETAIN
    ensures Reachable(c, s) && InOneScene(s) && StuckForever(c, s)
  {
    s := FarApart(c);
    s := LoseFirst(c, s, true, 2 * c.delay + 1);
    s := LoseFirst(c, s, false, c.delay);
    WedgedWhenFarApart(c, s);
    WedgedIsStuck(c, s);
  }

  /** The exact bound. The launcher accepts delays up to 10. */
  lemma DeadlockIffSeven(c: Config)
    requires 1 <= c.delay < RETAIN && c.minScene >= SafeScene(c.delay)
    ensures (exists s :: Reachable(c, s) && InOneScene(s) && StuckForever(c, s)) <==> c.delay >= 7
  {
    if c.delay >= 7 {
      var s := DeadlockFromSeven(c);
    } else {
      forall s | Reachable(c, s) && InOneScene(s) ensures !StuckForever(c, s) {
        NoDeadlockUpToSix(c, s);
      }
    }
  }
}
