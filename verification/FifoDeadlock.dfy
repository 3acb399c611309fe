/** Mutual blocking on a perfect channel: nothing lost, nothing reordered, nothing twice. A realignment
    throws received slots away, and from a delay of 7 on the other machine may be past sending one
    of them again. */
module FifoDeadlock {
  import opened Wire
  import opened PeerSpec
  import opened Lockstep
  import opened LockstepInv
  import opened Agreement
  import opened Runs
  import opened Deadlock
  import opened ResyncTargets
  import opened ResyncTogether
  import opened ResyncRuns
  import opened Realignments

  /** Each has received a prefix of what the other sent, and nothing is lost. */
  ghost predicate Faithful(s: Sys) {
    InOrder(s.h) && InOrder(s.g) && s.h.lost == {} && s.g.lost == {}
  }

  ghost predicate GoesOnFaithfully(c: Config, s: Sys, t: seq<Sys>) {
    GoesOn(c, s, t) && forall k | 0 <= k < |t| :: Faithful(t[k])
  }

  /** However the schedule goes on over such a channel short of a timeout, both stay blocked. */
  ghost predicate StuckFaithfully(c: Config, s: Sys) {
    && GoesOnFaithfully(c, s, [s])
    && forall t: seq<Sys> :: GoesOnFaithfully(c, s, t) ==> Blocked(t[|t| - 1].h) && Blocked(t[|t| - 1].g)
  }

  // ---- delay at most 6 ----

  lemma GoesOnOne(c: Config, s: Sys, t: seq<Sys>, s': Sys)
    requires GoesOnFaithfully(c, s, t) && Next(c, t[|t| - 1], s') && Faithful(s')
    requires s'.h.phase != Dropped && s'.g.phase != Dropped
    ensures GoesOnFaithfully(c, s, t + [s'])
  {
    var u := t + [s'];
    forall k | 0 <= k < |u| - 1 ensures Next(c, u[k], u[k + 1]) {
      if k < |t| - 1 { assert Next(c, t[k], t[k + 1]); }
    }
    forall k | 0 <= k < |u| ensures Faithful(u[k]) && u[k].h.phase != Dropped && u[k].g.phase != Dropped {
      if k < |t| { assert u[k] == t[k]; }
    }
  }

  predicate Live(x: Side) {
    x.phase == Waiting && x.hist != [] && |x.outs| == |x.hist|
  }

  /** One machine receives what it has yet to receive, in order, up to the k-th packet. */
  lemma {:induction false} CatchesUp(c: Config, s0: Sys, who: bool, k: nat) returns (t: seq<Sys>)
    requires Faithful(s0) && Live(s0.h) && Live(s0.g) && |Me(s0, who).got| <= k <= |Other(s0, who).sent|
    ensures GoesOnFaithfully(c, s0, t)
    ensures var s := t[|t| - 1];
            && Other(s, who) == Other(s0, who) && Live(Me(s, who)) && |Me(s, who).got| == k
            && Me(s, who) == Me(s0, who).(peer := Me(s, who).peer, got := Me(s, who).got)
            && SameButReceived(Me(s0, who).peer, Me(s, who).peer)
            && (k > |Me(s0, who).got| ==> Deposited(Me(s, who).peer, Other(s, who).sent[k - 1].pack))
    decreases k
  {
    if k == |Me(s0, who).got| {
      t := [s0];
    } else {
      t := CatchesUp(c, s0, who, k - 1);
      var s := t[|t| - 1];
      var s' := OneMoreInOrder(c, s, who);
      GoesOnOne(c, s0, t, s');
      t := t + [s'];
    }
  }

  /** A key packet of this scene or a newer one has left its window behind. */
  predicate Deposited(p: Peer, k: Pack) {
    k.ctrl.Keys? && k.epoch >= p.epoch ==> forall f :: k.ctrl.frame - WINDOW < f <= k.ctrl.frame ==> f in p.rcved.bits
  }

  lemma OneMoreInOrder(c: Config, s: Sys, who: bool) returns (s': Sys)
    requires Faithful(s) && Live(s.h) && Live(s.g) && |Me(s, who).got| < |Other(s, who).sent|
    ensures Next(c, s, s') && Faithful(s') && Other(s', who) == Other(s, who) && Live(Me(s', who))
    ensures Me(s', who) == Me(s, who).(peer := Me(s', who).peer, got := Me(s, who).got + [|Me(s, who).got|])
    ensures SameButReceived(Me(s, who).peer, Me(s', who).peer)
    ensures Deposited(Me(s', who).peer, Other(s, who).sent[|Me(s, who).got|].pack)
  {
    var x, y, i := Me(s, who), Other(s, who), |Me(s, who).got|;
    ReceiveFrame(x.peer, Arrival(y.sent[i].pack, 0));
    IsMove(c, x, y, Deliver(i, 0));
    s' := With(s, who, Do(c, x, y, Deliver(i, 0)));
    assert InOrder(Me(s', who));
  }

  /** The faster of two blocked machines sends its window again; the other receives in order up to
      it, and can go on. */
  lemma FreesInOrder(c: Config, s: Sys, slow: bool) returns (t: seq<Sys>)
    requires Inv(c, s) && Faithful(s) && InOneScene(s) && 2 * c.delay <= 13 && Blocked(s.h) && Blocked(s.g)
    requires |Me(s, slow).got| <= |Other(s, slow).sent| && NextFrame(Me(s, slow)) <= NextFrame(Other(s, slow))
    ensures GoesOnFaithfully(c, s, t) && !Blocked(Me(t[|t| - 1], slow))
  {
    var x, y := Other(s, slow), Me(s, slow);
    RepingFrees(c, x, y);
    RepingSends(c, x, y, 0);
    IsMove(c, x, y, Reping(0));
    var s1 := if slow then s.(g := Do(c, x, y, Reping(0))) else s.(h := Do(c, x, y, Reping(0)));
    var u := CatchesUp(c, s1, slow, |x.sent| + 1);
    t := Before(c, s, s1, u);
    Frees(y.peer, Me(u[|u| - 1], slow).peer, Other(s1, slow).sent[|x.sent|].pack, NextFrame(y) - 1);
  }

  lemma Before(c: Config, s: Sys, s1: Sys, u: seq<Sys>) returns (t: seq<Sys>)
    requires Next(c, s, s1) && Faithful(s) && s.h.phase != Dropped && s.g.phase != Dropped && GoesOnFaithfully(c, s1, u)
    ensures GoesOnFaithfully(c, s, t) && t[|t| - 1] == u[|u| - 1]
  {
    t := [s] + u;
    forall k | 0 <= k < |t| - 1 ensures Next(c, t[k], t[k + 1]) {
      if k > 0 {
        var before := k - 1;
        assert Next(c, u[before], u[before + 1]);
      }
    }
    forall k | 0 <= k < |t| ensures Faithful(t[k]) && t[k].h.phase != Dropped && t[k].g.phase != Dropped {
      if k > 0 { assert t[k] == u[k - 1]; }
    }
  }

  lemma Frees(p: Peer, q: Peer, k: Pack, f: int)
    requires SameButReceived(p, q) && Deposited(q, k) && k.ctrl.Keys? && k.epoch >= p.epoch
    requires k.ctrl.frame - WINDOW < f - p.delay <= k.ctrl.frame
    ensures Ready(q, f)
  {
  }

  /** Only packets that were sent are received. */
  ghost predicate GotOk(x: Side, y: Side) {
    forall j :: 0 <= j < |x.got| ==> x.got[j] < |y.sent|
  }

  lemma ActKeepsGot(c: Config, x: Side, y: Side, a: Action)
    requires Can(c, x, y, a) && GotOk(x, y) && GotOk(y, x)
    ensures GotOk(Do(c, x, y, a), y) && GotOk(y, Do(c, x, y, a))
  {
  }

  lemma {:induction false} RunGot(c: Config, t: seq<Sys>)
    requires IsRun(c, t)
    ensures GotOk(t[|t| - 1].h, t[|t| - 1].g) && GotOk(t[|t| - 1].g, t[|t| - 1].h)
  {
    if |t| > 1 {
      var u := t[..|t| - 1];
      LastStep(c, t);
      RunGot(c, u);
      var v, w := t[|t| - 2], t[|t| - 1];
      assert u[|u| - 1] == v;
      if w.g == v.g && Moves(c, v.h, v.g, w.h) {
        var a :| Can(c, v.h, v.g, a) && w.h == Do(c, v.h, v.g, a);
        ActKeepsGot(c, v.h, v.g, a);
      } else {
        var a :| Can(c, v.g, v.h, a) && w.g == Do(c, v.g, v.h, a);
        ActKeepsGot(c, v.g, v.h, a);
      }
    }
  }

  lemma GotNoMore(x: Side, y: Side)
    requires InOrder(x) && GotOk(x, y)
    ensures |x.got| <= |y.sent|
  {
    assert x.got != [] ==> x.got[|x.got| - 1] == |x.got| - 1;
  }

  lemma NotStuckUpToSix(c: Config, s: Sys)
    requires Reachable(c, s) && c.minScene >= SafeScene(c.delay) && 2 * c.delay <= 13 && InOneScene(s) && Faithful(s)
    ensures !StuckFaithfully(c, s)
  {
    ReachableInv(c, s);
    var r :| IsRun(c, r) && r[|r| - 1] == s;
    RunGot(c, r);
    GotNoMore(s.h, s.g);
    GotNoMore(s.g, s.h);
    if StuckFaithfully(c, s) {
      assert Blocked([s][0].h) && Blocked([s][0].g);
      var t := FreesInOrder(c, s, NextFrame(s.h) <= NextFrame(s.g));
    }
  }

  // ---- delay at least 7: what keeps both blocked ----

  /** Machine x waits for a slot that it does not hold, that no packet still to come carries, and that
      its peer's window has left behind or not reached. */
  ghost predicate Jammed(x: Side, y: Side) {
    && x.phase == Waiting && x.hist != [] && y.hist != [] && NextFrame(x) > 0 && NextFrame(y) > 0
    && var e, k, f := x.peer.epoch, NextFrame(x) - 1 - x.peer.delay, NextFrame(y) - 1;
       && k >= 0 && k !in x.peer.rcved.bits
       && (y.peer.epoch < e || !(f - WINDOW < k <= f))
       && forall i :: |x.got| <= i < |y.sent| ==> Harmless(y.sent[i].pack, e, k)
  }

  lemma JammedReceives(c: Config, x: Side, y: Side, i: nat, now: nat)
    requires Jammed(x, y) && Jammed(y, x) && Can(c, x, y, Deliver(i, now)) && i == |x.got|
    ensures Jammed(Do(c, x, y, Deliver(i, now)), y) && Jammed(y, Do(c, x, y, Deliver(i, now)))
  {
    assert Harmless(y.sent[i].pack, x.peer.epoch, NextFrame(x) - 1 - x.peer.delay);
    var x' := Do(c, x, y, Deliver(i, now));
    ReceiveFrame(x.peer, Arrival(y.sent[i].pack, now));
    assert x'.sent == x.sent && x'.hist == x.hist && x'.phase == x.phase;
  }

  lemma JammedMoves(c: Config, x: Side, y: Side, x': Side)
    requires Jammed(x, y) && Jammed(y, x) && Moves(c, x, y, x') && x'.phase != Dropped && InOrder(x')
    ensures Jammed(x', y) && Jammed(y, x')
  {
    var a :| Can(c, x, y, a) && x' == Do(c, x, y, a);
    if a.Deliver? {
      assert x'.got[|x.got|] == a.i;
      JammedReceives(c, x, y, a.i, a.now);
    }
  }

  lemma JammedNext(c: Config, v: Sys, w: Sys)
    requires Jammed(v.h, v.g) && Jammed(v.g, v.h) && Next(c, v, w) && Faithful(w)
    requires w.h.phase != Dropped && w.g.phase != Dropped
    ensures Jammed(w.h, w.g) && Jammed(w.g, w.h)
  {
    if w.g == v.g && Moves(c, v.h, v.g, w.h) {
      JammedMoves(c, v.h, v.g, w.h);
    } else {
      JammedMoves(c, v.g, v.h, w.g);
    }
  }

  lemma {:induction false} JammedForGood(c: Config, s: Sys, t: seq<Sys>)
    requires Jammed(s.h, s.g) && Jammed(s.g, s.h) && GoesOnFaithfully(c, s, t)
    ensures Jammed(t[|t| - 1].h, t[|t| - 1].g) && Jammed(t[|t| - 1].g, t[|t| - 1].h)
  {
    if |t| > 1 {
      var u := t[..|t| - 1];
      LastStep(c, t);
      JammedForGood(c, s, u);
      assert Faithful(t[|t| - 1]);
      JammedNext(c, t[|t| - 2], t[|t| - 1]);
    }
  }

  lemma JammedIsStuck(c: Config, s: Sys)
    requires Jammed(s.h, s.g) && Jammed(s.g, s.h) && Faithful(s)
    ensures StuckFaithfully(c, s)
  {
    forall t: seq<Sys> | GoesOnFaithfully(c, s, t) ensures Blocked(t[|t| - 1].h) && Blocked(t[|t| - 1].g) {
      JammedForGood(c, s, t);
    }
  }

  // ---- from 15 on both realign at once, and no window reaches back to what they need ----

  function Stage(c: Config): Plan {
    ForkedStage(2 * c.delay + 2)
  }

  function Target(c: Config): nat
    requires c.delay >= 1
  {
    AskTarget(c, Stage(c))
  }

  lemma FiredIsJammed(c: Config, w: Plan, x: Side, y: Side, n: nat)
    requires c.delay >= 15 && n >= c.delay && Fired(c, w, x, n) && Fired(c, w, y, n)
    requires |y.sent| == |x.got| + 1 && IsKey(y.sent[|x.got|], w.e, n)
    ensures Jammed(x, y)
  {
  }

  lemma BothJam(c: Config) returns (s: Sys)
    requires 15 <= c.delay < RETAIN
    ensures Reachable(c, s) && InOneScene(s) && Faithful(s) && StuckFaithfully(c, s)
  {
    var w, n := Stage(c), Target(c);
    s := UpTo(c, w.threshold, n, true);
    s := HostRealigns(c, w, s, n);
    s := GuestRealigns(c, w, s, n);
    FiredIsJammed(c, w, s.h, s.g, n);
    FiredIsJammed(c, w, s.g, s.h, n);
    JammedIsStuck(c, s);
  }

  // ---- from 7 to 14 the host has to be ahead when the guest realigns ----

  /** The host, in scene e and past its realignment at frame t, holding the slots its frames up to
      t + delay - 1 need and none from t on. */
  ghost predicate Ahead(c: Config, x: Side, e: nat, t: nat, n: nat, done: nat) {
    && |x.hist| == |x.outs| == e + 1 && x.peer.epoch == e && x.peer.delay == c.delay && x.peer.connected && x.peer.isHost
    && x.peer.resync.enable && x.peer.resync.threshold == 2 * c.delay + 2 && !x.peer.resync.trigger
    && NextFrame(x) == n && |x.outs[e]| == done && x.lost == {} && x.peer.resync.desyncRun <= n - 1 - t
  }

  predicate HoldsBelow(c: Config, x: Side, t: nat) {
    (forall f :: t - c.delay <= f < t ==> f in x.peer.rcved.bits) && forall f :: f in x.peer.rcved.bits ==> f < t
  }

  predicate SmallDelay(c: Config) {
    7 <= c.delay <= 14
  }

  predicate AddsKey(x: Side, x': Side, e: nat, n: nat) {
    x'.got == x.got && |x'.sent| == |x.sent| + 1 && SentOn(x, x') && IsKey(x'.sent[|x.sent|], e, n)
  }

  lemma AheadOpens(c: Config, x: Side, y: Side, e: nat, t: nat, n: nat)
    requires SmallDelay(c) && t < n <= t + c.delay + 1 && Ahead(c, x, e, t, n, n) && x.phase == Idle
    ensures Can(c, x, y, STILL)
    ensures var x' := Do(c, x, y, STILL);
            && Ahead(c, x', e, t, n + 1, n) && x'.phase == Waiting && x'.peer.netFrame == n && AddsKey(x, x', e, n)
            && x'.peer.rcved == EraseAt(x.peer.rcved, n - RETAIN)
  {
    var p := x.peer.(netFrame := n);
    StartGrows(c, x, y, STILL);
    assert Arrivals(y, [], 0) == [];
    TopIdle(p, n, []);
    assert Do(c, x, y, STILL).outs == x.outs;
  }

  lemma AheadCloses(c: Config, x: Side, y: Side, e: nat, t: nat, n: nat)
    requires SmallDelay(c) && n >= c.delay && Ahead(c, x, e, t, n + 1, n) && x.phase == Waiting
    requires n - c.delay in x.peer.rcved.bits
    ensures Can(c, x, y, Finish)
    ensures var x' := Do(c, x, y, Finish);
            && Ahead(c, x', e, t, n + 1, n + 1) && x'.phase == Idle && x'.sent == x.sent && x'.got == x.got
            && x'.peer.rcved.bits == x.peer.rcved.bits
  {
    CompleteFrame(x.peer, n, CurUi(x));
  }

  /** The whole frame, as long as its slot is one of those held. */
  lemma AheadSteps(c: Config, s0: Sys, e: nat, t: nat, n: nat) returns (s: Sys)
    requires SmallDelay(c) && c.delay <= t < n < t + c.delay && Reachable(c, s0)
    requires Ahead(c, s0.h, e, t, n, n) && s0.h.phase == Idle && HoldsBelow(c, s0.h, t)
    ensures Reachable(c, s) && s.g == s0.g && Ahead(c, s.h, e, t, n + 1, n + 1) && s.h.phase == Idle
    ensures HoldsBelow(c, s.h, t) && AddsKey(s0.h, s.h, e, n)
  {
    AheadOpens(c, s0.h, s0.g, e, t, n);
    Acts(c, s0, true, STILL);
    s := s0.(h := Do(c, s0.h, s0.g, STILL));
    AheadCloses(c, s.h, s.g, e, t, n);
    Acts(c, s, true, Finish);
    s := s.(h := Do(c, s.h, s.g, Finish));
  }

  lemma {:induction false} AheadRuns(c: Config, s0: Sys, e: nat, t: nat, n: nat) returns (s: Sys)
    requires SmallDelay(c) && c.delay <= t < n <= t + c.delay && Reachable(c, s0)
    requires Ahead(c, s0.h, e, t, t + 1, t + 1) && s0.h.phase == Idle && HoldsBelow(c, s0.h, t)
    ensures Reachable(c, s) && s.g == s0.g && Ahead(c, s.h, e, t, n, n) && s.h.phase == Idle
    ensures HoldsBelow(c, s.h, t) && s.h.got == s0.h.got && SentOn(s0.h, s.h)
    decreases n
  {
    if n == t + 1 {
      s := s0;
    } else {
      s := AheadRuns(c, s0, e, t, n - 1);
      s := AheadSteps(c, s, e, t, n - 1);
    }
  }

  // the frame before the target: the guest's packet of it stays under way

  /** Both have completed the frames up to the target, and are armed for it; the guest has received all
      there is, the host all but the guest's last packet. */
  ghost predicate Poised(c: Config, w: Plan, s: Sys, t: nat) {
    && t > 0 && Reachable(c, s) && s.h.peer.isHost && !s.g.peer.isHost
    && Stands(c, w, s.h, t) && ArmedFor(s.h, t) && Stands(c, w, s.g, t) && ArmedFor(s.g, t)
    && GotUpTo(s.g, |s.h.sent|) && s.g.sent != [] && GotUpTo(s.h, |s.g.sent| - 1)
    && IsKey(s.g.sent[|s.g.sent| - 1], w.e, t - 1)
  }

  lemma GuestHears(c: Config, w: Plan, s0: Sys, n: nat, t: int) returns (s: Sys)
    requires BothWait(c, w, s0, n) && GuestIs(s0.g, t) && t >= 0 && GotUpTo(s0.g, |s0.h.sent| - 1)
    ensures Reachable(c, s) && s.h == s0.h && Waits(c, w, s.g, n) && ArmedFor(s.g, t) && !s.g.peer.isHost
    ensures GotUpTo(s.g, |s.h.sent|) && s.g.sent == s0.g.sent
  {
    var i := |s0.h.sent| - 1;
    TakesKey(c, w, s0.g, s0.h, n, i);
    Acts(c, s0, false, Deliver(i, 0));
    s := s0.(g := Do(c, s0.g, s0.h, Deliver(i, 0)));
  }

  lemma GuestEnds(c: Config, w: Plan, s0: Sys, n: nat, t: int) returns (s: Sys)
    requires Reachable(c, s0) && Waits(c, w, s0.g, n) && Waits(c, w, s0.h, n) && ArmedFor(s0.g, t)
    requires s0.h.peer.isHost && !s0.g.peer.isHost
    ensures Reachable(c, s) && s.h == s0.h && Stands(c, w, s.g, n + 1) && ArmedFor(s.g, t) && SameButEnded(s0.g, s.g)
  {
    ReachableSound(c, s0);
    Ends(c, w, s0.g, s0.h, n);
    Acts(c, s0, false, Finish);
    s := s0.(g := Do(c, s0.g, s0.h, Finish));
  }

  lemma HostEndsUnheard(c: Config, w: Plan, s0: Sys, n: nat) returns (s: Sys)
    requires Reachable(c, s0) && Waits(c, w, s0.h, n) && Stands(c, w, s0.g, n + 1) && s0.h.peer.isHost != s0.g.peer.isHost
    ensures Reachable(c, s) && s.g == s0.g && Stands(c, w, s.h, n + 1) && SameButEnded(s0.h, s.h)
  {
    ReachableSound(c, s0);
    Ends(c, w, s0.h, s0.g, n);
    Acts(c, s0, true, Finish);
    s := s0.(h := Do(c, s0.h, s0.g, Finish));
  }

  lemma ToldUnheard(c: Config) returns (s: Sys)
    requires SmallDelay(c)
    ensures var t := Target(c);
            && BothWait(c, Stage(c), s, t - 1) && GuestIs(s.g, t) && ArmedFor(s.h, t)
            && GotUpTo(s.g, |s.h.sent| - 1) && GotUpTo(s.h, |s.g.sent| - 1)
  {
    var w, t := Stage(c), Target(c);
    s := UpTo(c, w.threshold, t - 1, true);
    s := OpenAndTell(c, w, s, t - 1, t);
  }

  lemma BecomesPoised(c: Config) returns (s: Sys)
    requires SmallDelay(c)
    ensures Poised(c, Stage(c), s, Target(c))
  {
    var w, t := Stage(c), Target(c);
    s := ToldUnheard(c);
    s := GuestHears(c, w, s, t - 1, t);
    s := GuestEnds(c, w, s, t - 1, t);
    s := HostEndsUnheard(c, w, s, t - 1);
  }

  // the host realigns, then hears that packet, which takes it delay frames on

  lemma HearsTheLast(c: Config, w: Plan, x: Side, y: Side, t: nat, j: nat)
    requires SmallDelay(c) && t > c.delay && Fired(c, w, x, t) && Deliverable(y, j) && IsKey(y.sent[j], w.e, t - 1)
    requires x.peer.isHost && w.threshold == 2 * c.delay + 2
    ensures Can(c, x, y, Deliver(j, 0))
    ensures var x' := Do(c, x, y, Deliver(j, 0));
            && Ahead(c, x', w.e, t, t + 1, t) && x'.phase == Waiting && HoldsBelow(c, x', t) && x'.sent == x.sent
            && x'.got == x.got + [j]
  {
    var x' := Do(c, x, y, Deliver(j, 0));
    ReceiveFrame(x.peer, Arrival(y.sent[j].pack, 0));
    assert x'.hist == x.hist && x'.outs == x.outs;
  }

  lemma HostCloses(c: Config, s0: Sys, e: nat, t: nat, n: nat) returns (s: Sys)
    requires SmallDelay(c) && n >= c.delay && Reachable(c, s0) && Ahead(c, s0.h, e, t, n + 1, n) && s0.h.phase == Waiting
    requires n - c.delay in s0.h.peer.rcved.bits
    ensures Reachable(c, s) && s.g == s0.g && Ahead(c, s.h, e, t, n + 1, n + 1) && s.h.phase == Idle
    ensures s.h.sent == s0.h.sent && s.h.got == s0.h.got && s.h.peer.rcved.bits == s0.h.peer.rcved.bits
  {
    AheadCloses(c, s0.h, s0.g, e, t, n);
    Acts(c, s0, true, Finish);
    s := s0.(h := Do(c, s0.h, s0.g, Finish));
  }

  lemma HostHearsTheLast(c: Config, w: Plan, s0: Sys, t: nat) returns (s: Sys)
    requires SmallDelay(c) && t > c.delay && w.threshold == 2 * c.delay + 2 && Reachable(c, s0)
    requires Fired(c, w, s0.h, t) && s0.h.peer.isHost && s0.g.lost == {} && s0.g.sent != []
    requires GotUpTo(s0.h, |s0.g.sent| - 1) && IsKey(s0.g.sent[|s0.g.sent| - 1], w.e, t - 1)
    ensures Reachable(c, s) && s.g == s0.g && Ahead(c, s.h, w.e, t, t + 1, t + 1) && s.h.phase == Idle
    ensures HoldsBelow(c, s.h, t) && GotUpTo(s.h, |s.g.sent|) && s.h.sent == s0.h.sent
  {
    var j := |s0.g.sent| - 1;
    HearsTheLast(c, w, s0.h, s0.g, t, j);
    Acts(c, s0, true, Deliver(j, 0));
    s := s0.(h := Do(c, s0.h, s0.g, Deliver(j, 0)));
    s := HostCloses(c, s, w.e, t, t);
  }

  lemma HostGetsAhead(c: Config, s0: Sys) returns (s: Sys)
    requires SmallDelay(c) && Poised(c, Stage(c), s0, Target(c))
    ensures var t, e := Target(c), 1;
            && Reachable(c, s) && s.g == s0.g && Ahead(c, s.h, e, t, t + c.delay, t + c.delay) && s.h.phase == Idle
            && HoldsBelow(c, s.h, t) && GotUpTo(s.h, |s.g.sent|) && SentOn(s0.h, s.h)
  {
    var w, t := Stage(c), Target(c);
    s := HostRealigns(c, w, s0, t);
    s := HostHearsTheLast(c, w, s, t);
    s := AheadRuns(c, s, w.e, t, t + c.delay);
  }

  // the guest realigns, and throws away what the host has sent since

  /** A machine that has just realigned, whatever was waiting for it. */
  ghost predicate Cleared(c: Config, x: Side, e: nat, t: nat) {
    && |x.hist| == e + 1 && x.peer.epoch == e && x.peer.delay == c.delay && x.phase == Waiting && NextFrame(x) == t + 1
    && x.peer.rcved.bits == map[] && x.lost == {}
  }

  function Pending(x: Side, y: Side): seq<nat> {
    if |x.got| <= |y.sent| then seq(|y.sent| - |x.got|, i requires 0 <= i < |y.sent| - |x.got| => |x.got| + i) else []
  }

  function DrainAll(w: Plan, x: Side, y: Side): Action {
    Start(0, SeedOf(w, x.peer.isHost), w.ui, IgcNone, Pending(x, y), 0)
  }

  lemma GuestDrains(c: Config, w: Plan, x: Side, y: Side, t: nat)
    requires Stands(c, w, x, t) && !w.ui && ArmedFor(x, t) && |x.got| <= |y.sent| && y.lost == {}
    ensures Can(c, x, y, DrainAll(w, x, y))
    ensures var x' := Do(c, x, y, DrainAll(w, x, y));
            && Cleared(c, x', w.e, t) && x'.got == x.got + Pending(x, y) && SentOn(x, x') && |x'.sent| == |x.sent| + 1
            && IsKey(x'.sent[|x.sent|], w.e, t)
  {
    StartGrows(c, x, y, DrainAll(w, x, y));
    ResyncFrame(x.peer.(netFrame := t), t, w.ui, Arrivals(y, Pending(x, y), 0));
    DoesNotAnnounce(x.peer.(netFrame := t), t, w.ui);
  }

  lemma DoesNotAnnounce(p: Peer, t: nat, ui: bool)
    requires Fires(p, t, ui)
    ensures !Announces(p, t, ui)
  {
  }

  lemma GuestThrowsAway(c: Config, w: Plan, s0: Sys, t: nat) returns (s: Sys)
    requires Reachable(c, s0) && Stands(c, w, s0.g, t) && !w.ui && ArmedFor(s0.g, t)
    requires GotUpTo(s0.g, |s0.g.got|) && |s0.g.got| <= |s0.h.sent| && s0.h.lost == {}
    ensures Reachable(c, s) && s.h == s0.h && Cleared(c, s.g, w.e, t) && GotUpTo(s.g, |s.h.sent|)
    ensures |s.g.sent| == |s0.g.sent| + 1 && IsKey(s.g.sent[|s0.g.sent|], w.e, t)
  {
    GuestDrains(c, w, s0.g, s0.h, t);
    Acts(c, s0, false, DrainAll(w, s0.g, s0.h));
    s := s0.(g := Do(c, s0.g, s0.h, DrainAll(w, s0.g, s0.h)));
  }

  // the host hears of the guest's target frame, and goes one too far

  lemma HearsTheTarget(c: Config, x: Side, y: Side, e: nat, t: nat, j: nat)
    requires SmallDelay(c) && Ahead(c, x, e, t, t + c.delay + 1, t + c.delay) && x.phase == Waiting
    requires (forall f :: f in x.peer.rcved.bits ==> f < t) && Deliverable(y, j) && IsKey(y.sent[j], e, t)
    ensures Can(c, x, y, Deliver(j, 0))
    ensures var x' := Do(c, x, y, Deliver(j, 0));
            && Ahead(c, x', e, t, t + c.delay + 1, t + c.delay) && x'.phase == Waiting && x'.sent == x.sent
            && x'.got == x.got + [j] && t in x'.peer.rcved.bits && forall f :: f in x'.peer.rcved.bits ==> f <= t
  {
    ReceiveFrame(x.peer, Arrival(y.sent[j].pack, 0));
  }

  lemma HostStartsTheLast(c: Config, s0: Sys, e: nat, t: nat) returns (s: Sys)
    requires SmallDelay(c) && Reachable(c, s0) && Ahead(c, s0.h, e, t, t + c.delay, t + c.delay) && s0.h.phase == Idle
    requires HoldsBelow(c, s0.h, t)
    ensures Reachable(c, s) && s.g == s0.g && Ahead(c, s.h, e, t, t + c.delay + 1, t + c.delay) && s.h.phase == Waiting
    ensures (forall f :: f in s.h.peer.rcved.bits ==> f < t) && s.h.got == s0.h.got && SentOn(s0.h, s.h)
  {
    AheadOpens(c, s0.h, s0.g, e, t, t + c.delay);
    Acts(c, s0, true, STILL);
    s := s0.(h := Do(c, s0.h, s0.g, STILL));
  }

  lemma HostHearsTheTarget(c: Config, s0: Sys, e: nat, t: nat) returns (s: Sys)
    requires SmallDelay(c) && Reachable(c, s0) && Ahead(c, s0.h, e, t, t + c.delay + 1, t + c.delay) && s0.h.phase == Waiting
    requires forall f :: f in s0.h.peer.rcved.bits ==> f < t
    requires s0.g.lost == {} && s0.g.sent != [] && IsKey(s0.g.sent[|s0.g.sent| - 1], e, t) && GotUpTo(s0.h, |s0.g.sent| - 1)
    ensures Reachable(c, s) && s.g == s0.g && Ahead(c, s.h, e, t, t + c.delay + 1, t + c.delay + 1) && s.h.phase == Idle
    ensures (forall f :: f in s.h.peer.rcved.bits ==> f <= t) && s.h.sent == s0.h.sent && GotUpTo(s.h, |s.g.sent|)
  {
    var j := |s0.g.sent| - 1;
    HearsTheTarget(c, s0.h, s0.g, e, t, j);
    Acts(c, s0, true, Deliver(j, 0));
    s := s0.(h := Do(c, s0.h, s0.g, Deliver(j, 0)));
    s := HostCloses(c, s, e, t, t + c.delay);
  }

  lemma HostGoesTooFar(c: Config, s0: Sys, e: nat, t: nat) returns (s: Sys)
    requires SmallDelay(c) && Reachable(c, s0) && Ahead(c, s0.h, e, t, t + c.delay + 1, t + c.delay + 1) && s0.h.phase == Idle
    requires forall f :: f in s0.h.peer.rcved.bits ==> f <= t
    ensures Reachable(c, s) && s.g == s0.g && Ahead(c, s.h, e, t, t + c.delay + 2, t + c.delay + 1) && s.h.phase == Waiting
    ensures (forall f :: f in s.h.peer.rcved.bits ==> f <= t) && AddsKey(s0.h, s.h, e, t + c.delay + 1)
  {
    AheadOpens(c, s0.h, s0.g, e, t, t + c.delay + 1);
    Acts(c, s0, true, STILL);
    s := s0.(h := Do(c, s0.h, s0.g, STILL));
  }

  lemma TooFarIsJammed(c: Config, s: Sys, e: nat, t: nat)
    requires SmallDelay(c) && t > c.delay && Cleared(c, s.g, e, t) && s.h.phase == Waiting
    requires Ahead(c, s.h, e, t, t + c.delay + 2, t + c.delay + 1) && (forall f :: f in s.h.peer.rcved.bits ==> f <= t)
    requires s.h.sent != [] && IsKey(s.h.sent[|s.h.sent| - 1], e, t + c.delay + 1)
    requires |s.g.got| == |s.h.sent| - 1 && |s.h.got| == |s.g.sent|
    ensures Jammed(s.h, s.g) && Jammed(s.g, s.h)
  {
  }

  lemma OneJamsTheOther(c: Config) returns (s: Sys)
    requires SmallDelay(c)
    ensures Reachable(c, s) && InOneScene(s) && Faithful(s) && StuckFaithfully(c, s)
  {
    var w, t := Stage(c), Target(c);
    s := BecomesPoised(c);
    s := HostGetsAhead(c, s);
    s := HostStartsTheLast(c, s, 1, t);
    s := GuestThrowsAway(c, w, s, t);
    s := HostHearsTheTarget(c, s, 1, t);
    s := HostGoesTooFar(c, s, 1, t);
    TooFarIsJammed(c, s, 1, t);
    JammedIsStuck(c, s);
  }

  /** The exact bound, without any loss, reordering or duplication: within a scene two machines can end
      up blocking each other for good if and only if the delay is at least 7: up to 6 both
      get past the target of a realignment, from 7 on they may not. */
  lemma FifoDeadlockIffSeven(c: Config)
    requires 1 <= c.delay < RETAIN && c.minScene >= SafeScene(c.delay)
    ensures (exists s :: Reachable(c, s) && InOneScene(s) && Faithful(s) && StuckFaithfully(c, s)) <==> c.delay >= 7
  {
    if c.delay >= 15 {
      var s := BothJam(c);
    } else if c.delay >= 7 {
      var s := OneJamsTheOther(c);
    } else {
      forall s | Reachable(c, s) && InOneScene(s) && Faithful(s) ensures !StuckFaithfully(c, s) {
        NotStuckUpToSix(c, s);
      }
    }
  }
}
