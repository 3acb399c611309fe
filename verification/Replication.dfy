/** The lockstep as state-machine replication. Each machine drives its own copy of one
    deterministic game with the words the core returns; seed, menu flag and scene changes all
    come out of that copy. Started from one state, the two copies go through one history. */
module Replication {
  import opened Merge
  import opened PeerSpec
  import opened Lockstep
  import opened LockstepInv
  import opened Agreement

  /** Any deterministic game: its frame step, and what the co-op side reads off a state. `reseed`
      is what the host environment does to it when a resync has fired. */
  datatype Game<!S> = Game(
    step: (S, Word) -> S, seedOf: S -> Word, uiOf: S -> bool, sceneOf: S -> int, reseed: S -> S)

  /** A machine with the states its game has been through, the last one current, and the scene id it
      is in lockstep for. */
  datatype Machine<S> = Machine(side: Side, sceneId: int, trail: seq<S>)

  datatype World<S> = World(h: Machine<S>, g: Machine<S>)

  function Cur<S>(m: Machine<S>): S
    requires m.trail != []
  {
    m.trail[|m.trail| - 1]
  }

  function WordOf(out: Out): Word {
    if out.Merged? then out.word else 0
  }

  function Sides<S>(w: World<S>): Sys {
    Sys(w.h.side, w.g.side)
  }

  /** Scene change detected at the next tick. */
  predicate Pending<S>(g: Game<S>, m: Machine<S>)
    requires m.trail != []
  {
    g.sceneOf(Cur(m)) != m.sceneId
  }

  predicate Drives<S>(c: Config, g: Game<S>, m: Machine<S>, y: Side, a: Action) {
    && m.trail != [] && Can(c, m.side, y, a)
    && (a.Start? ==> !Pending(g, m) && a.ui == g.uiOf(Cur(m)) && a.seed == g.seedOf(Cur(m)))
    && (a.Reset? ==> Pending(g, m))
  }

  predicate FiredNow(x: Side)
    requires x.hist != []
  {
    x.fired != [] && x.fired[|x.fired| - 1] == NextFrame(x) - 1
  }

  function Drive<S>(c: Config, g: Game<S>, m: Machine<S>, y: Side, a: Action): Machine<S>
    requires Drives(c, g, m, y, a)
  {
    var x' := Do(c, m.side, y, a);
    if a.Finish? then
      var word := WordOf(OutOf(m.side.peer, NextFrame(m.side) - 1, CurUi(m.side)));
      var base := if FiredNow(m.side) then g.reseed(Cur(m)) else Cur(m);
      m.(side := x', trail := m.trail + [g.step(base, word)])
    else if a.Reset? then m.(side := x', sceneId := g.sceneOf(Cur(m)))
    else m.(side := x')
  }

  ghost predicate Starts<S>(c: Config, g: Game<S>, w: World<S>) {
    && Init(c, Sides(w)) && |w.h.trail| == 1 && w.g.trail == w.h.trail
    && w.h.sceneId == w.g.sceneId == g.sceneOf(w.h.trail[0])
  }

  ghost predicate Ticks<S(!new)>(c: Config, g: Game<S>, w: World<S>, w': World<S>) {
    || (w'.g == w.g && exists a :: Drives(c, g, w.h, w.g.side, a) && w'.h == Drive(c, g, w.h, w.g.side, a))
    || (w'.h == w.h && exists a :: Drives(c, g, w.g, w.h.side, a) && w'.g == Drive(c, g, w.g, w.h.side, a))
  }

  ghost predicate IsHistory<S(!new)>(c: Config, g: Game<S>, t: seq<World<S>>) {
    && t != [] && Starts(c, g, t[0])
    && forall k | 0 <= k < |t| - 1 :: Ticks(c, g, t[k], t[k + 1])
  }

  // ---- where in its scenes a game state stands ----

  /** Scene and frame of state k of a trail. */
  function Pos<S>(g: Game<S>, trail: seq<S>, k: nat): (int, int)
    requires k < |trail|
  {
    if k == 0 then (0, 0)
    else
      var p := Pos(g, trail, k - 1);
      if g.sceneOf(trail[k]) != g.sceneOf(trail[k - 1]) then (p.0 + 1, 0) else (p.0, p.1 + 1)
  }

  predicate Before(p: (int, int), q: (int, int)) {
    p.0 < q.0 || (p.0 == q.0 && p.1 < q.1)
  }

  lemma {:induction false} PosIncreases<S>(g: Game<S>, trail: seq<S>, j: nat, k: nat)
    requires j < k < |trail|
    ensures Before(Pos(g, trail, j), Pos(g, trail, k))
  {
    if j < k - 1 { PosIncreases(g, trail, j, k - 1); }
  }

  lemma {:induction false} PosOfPrefix<S>(g: Game<S>, u: seq<S>, v: seq<S>, k: nat)
    requires k < |u| && k < |v| && forall i :: 0 <= i <= k ==> u[i] == v[i]
    ensures Pos(g, u, k) == Pos(g, v, k)
  {
    if k > 0 { PosOfPrefix(g, u, v, k - 1); }
  }

  lemma {:induction false} PosBack<S>(g: Game<S>, trail: seq<S>, k: nat, d: nat)
    requires k < |trail| && d <= Pos(g, trail, k).1
    ensures d <= k && Pos(g, trail, k - d) == (Pos(g, trail, k).0, Pos(g, trail, k).1 - d)
  {
    if d > 0 { PosBack(g, trail, k - 1, d - 1); }
  }

  // ---- the invariant ----

  /** State k of the trail was the machine's at frame Pos(k), and led to the next through that
      frame's word. */
  ghost predicate StateOk<S>(g: Game<S>, m: Machine<S>, k: nat)
    requires k < |m.trail|
  {
    var p := Pos(g, m.trail, k);
    && Has(m.side.hist, p.0, p.1)
    && m.side.hist[p.0][p.1].ui == g.uiOf(m.trail[k])
    && m.side.hist[p.0][p.1].seed == g.seedOf(m.trail[k])
    && (k + 1 < |m.trail| ==>
          && 0 <= p.0 < |m.side.outs| && 0 <= p.1 < |m.side.outs[p.0]|
          && m.trail[k + 1] == g.step(m.trail[k], WordOf(m.side.outs[p.0][p.1])))
  }

  ghost predicate Recorded<S>(g: Game<S>, trail: seq<S>, e: int, f: int, k: nat) {
    k < |trail| && Pos(g, trail, k) == (e, f)
  }

  ghost predicate MachineOk<S>(g: Game<S>, m: Machine<S>) {
    && m.trail != [] && m.side.hist != []
    && var last := |m.trail| - 1;
       var p := Pos(g, m.trail, last);
       && (if m.side.phase == Idle then
             if Pending(g, m) then p == (m.side.peer.epoch + 1, 0) else p == (m.side.peer.epoch, NextFrame(m.side))
           else !Pending(g, m) && p == (m.side.peer.epoch, NextFrame(m.side) - 1) && StateOk(g, m, last))
       && (forall k :: 0 <= k < last ==> StateOk(g, m, k))
       && (forall e, f :: Has(m.side.hist, e, f) ==> exists k: nat :: Recorded(g, m.trail, e, f, k))
  }

  /** Nothing of the resync machine has stirred. */
  ghost predicate Quiet(x: Side) {
    && x.peer.isSync && !x.peer.resync.trigger && x.fired == []
    && forall k :: 0 <= k < |x.sent| ==> !x.sent[k].pack.ctrl.TryResync?
  }

  ghost predicate Comparable<S>(u: seq<S>, v: seq<S>) {
    forall k :: 0 <= k < |u| && k < |v| ==> u[k] == v[k]
  }

  ghost predicate WorldOk<S>(c: Config, g: Game<S>, w: World<S>) {
    && Inv(c, Sides(w)) && MachineOk(g, w.h) && MachineOk(g, w.g)
    && Quiet(w.h.side) && Quiet(w.g.side) && Comparable(w.h.trail, w.g.trail)
  }

  // ---- a quiet resync machine stays quiet while the seeds agree ----

  lemma QuietStart(c: Config, x: Side, y: Side, a: Action)
    requires a.Start? && Can(c, x, y, a) && Quiet(x)
    ensures Quiet(Do(c, x, y, a))
  {
    var n := NextFrame(x);
    var p := x.peer.(netFrame := n);
    assert !Fires(p, n, a.ui) && !Announces(p, n, a.ui);
    QuietTop(p, n, a.ui, Arrivals(y, a.drained, a.now));
  }

  lemma QuietTop(p: Peer, n: int, ui: bool, arr: seq<Arrival>)
    requires p.isSync && !p.resync.trigger
    ensures RunResync(p, n, ui, arr).isSync && !RunResync(p, n, ui, arr).resync.trigger
  {
  }

  lemma QuietDeliver(c: Config, x: Side, y: Side, a: Action)
    requires a.Deliver? && Can(c, x, y, a) && Quiet(x) && Quiet(y)
    ensures Quiet(Do(c, x, y, a))
  {
    ReceiveFrame(x.peer, Arrival(y.sent[a.i].pack, a.now));
  }

  lemma QuietStays(c: Config, x: Side, y: Side, a: Action)
    requires Can(c, x, y, a) && Quiet(x) && Quiet(y)
    requires a.Finish? ==> Complete(x.peer, NextFrame(x) - 1, CurUi(x)).isSync
    ensures Quiet(Do(c, x, y, a))
  {
    match a
    case Start(_, _, _, _, _, _) => QuietStart(c, x, y, a);
    case Deliver(_, _) => QuietDeliver(c, x, y, a);
    case _ =>
  }

  // ---- a machine's own history ----

  lemma StatesSurvive<S>(g: Game<S>, m: Machine<S>, m': Machine<S>, n: nat)
    requires n <= |m.trail| && n <= |m'.trail| && forall k :: 0 <= k < n ==> StateOk(g, m, k)
    requires forall k :: 0 <= k < |m.trail| && k < |m'.trail| ==> m'.trail[k] == m.trail[k]
    requires n < |m.trail| && n < |m'.trail|
    requires Extends(m.side.hist, m'.side.hist)
    requires |m.side.outs| <= |m'.side.outs|
    requires forall e, f :: 0 <= e < |m.side.outs| && 0 <= f < |m.side.outs[e]| ==>
               f < |m'.side.outs[e]| && m'.side.outs[e][f] == m.side.outs[e][f]
    ensures forall k :: 0 <= k < n ==> StateOk(g, m', k)
  {
    forall k | 0 <= k < n ensures StateOk(g, m', k) {
      assert StateOk(g, m, k);
      PosOfPrefix(g, m.trail, m'.trail, k);
    }
  }

  lemma RecordedSurvives<S>(g: Game<S>, u: seq<S>, v: seq<S>, e: int, f: int, k: nat)
    requires Recorded(g, u, e, f, k) && |u| <= |v| && forall i :: 0 <= i < |u| ==> v[i] == u[i]
    ensures Recorded(g, v, e, f, k)
  {
    PosOfPrefix(g, u, v, k);
  }

  lemma StartKeepsMachine<S>(c: Config, g: Game<S>, m: Machine<S>, y: Side, a: Action)
    requires a.Start? && MachineOk(g, m) && Drives(c, g, m, y, a) && ShapeOk(c, m.side)
    ensures MachineOk(g, Drive(c, g, m, y, a))
  {
    var m' := Drive(c, g, m, y, a);
    var last := |m.trail| - 1;
    var p := Pos(g, m.trail, last);
    ActExtends(c, m.side, y, a);
    StartKeepsEpoch(c, m.side, y, a);
    StatesSurvive(g, m, m', last);
    assert StateOk(g, m', last);
    forall e, f | Has(m'.side.hist, e, f) ensures exists k: nat :: Recorded(g, m'.trail, e, f, k) {
      if Has(m.side.hist, e, f) {
        var k: nat :| Recorded(g, m.trail, e, f, k);
        assert Recorded(g, m'.trail, e, f, k);
      } else {
        assert Recorded(g, m'.trail, e, f, last);
      }
    }
  }

  lemma StartKeepsEpoch(c: Config, x: Side, y: Side, a: Action)
    requires a.Start? && Can(c, x, y, a)
    ensures Do(c, x, y, a).peer.epoch == x.peer.epoch
  {
    ResyncFrame(x.peer.(netFrame := NextFrame(x)), NextFrame(x), a.ui, Arrivals(y, a.drained, a.now));
  }

  /** One more state at the end of a trail, one more output behind it. */
  lemma FinishKeepsMachine<S>(c: Config, g: Game<S>, m: Machine<S>, y: Side, a: Action)
    requires a.Finish? && MachineOk(g, m) && Drives(c, g, m, y, a) && ShapeOk(c, m.side) && m.side.fired == []
    ensures MachineOk(g, Drive(c, g, m, y, a))
  {
    var m' := Drive(c, g, m, y, a);
    var out := OutOf(m.side.peer, NextFrame(m.side) - 1, CurUi(m.side));
    MachineGrows(g, m, m', out);
  }

  lemma MachineGrows<S>(g: Game<S>, m: Machine<S>, m': Machine<S>, out: Out)
    requires MachineOk(g, m) && m.side.phase == Waiting && m'.side.phase == Idle
    requires m.side.hist != [] && |m.side.outs| == |m.side.hist| == m.side.peer.epoch + 1
    requires NextFrame(m.side) == |m.side.outs[m.side.peer.epoch]| + 1
    requires m'.side.hist == m.side.hist && m'.side.outs == AppendLast(m.side.outs, out)
    requires m'.side.peer.epoch == m.side.peer.epoch && m'.sceneId == m.sceneId
    requires m'.trail == m.trail + [g.step(Cur(m), WordOf(out))]
    ensures MachineOk(g, m')
  {
    var last := |m.trail| - 1;
    PosOfPrefix(g, m.trail, m'.trail, last);
    StatesSurvive(g, m, m', last);
    assert StateOk(g, m, last);
    assert StateOk(g, m', last);
    forall e, f | Has(m'.side.hist, e, f) ensures exists k: nat :: Recorded(g, m'.trail, e, f, k) {
      var k: nat :| Recorded(g, m.trail, e, f, k);
      RecordedSurvives(g, m.trail, m'.trail, e, f, k);
    }
  }

  lemma ResetKeepsMachine<S>(c: Config, g: Game<S>, m: Machine<S>, y: Side, a: Action)
    requires a.Reset? && MachineOk(g, m) && Drives(c, g, m, y, a) && ShapeOk(c, m.side)
    ensures MachineOk(g, Drive(c, g, m, y, a))
  {
    var m' := Drive(c, g, m, y, a);
    StatesSurvive(g, m, m', |m.trail| - 1);
    forall e, f | Has(m'.side.hist, e, f) ensures exists k: nat :: Recorded(g, m'.trail, e, f, k) {
      assert Has(m.side.hist, e, f);
      var k: nat :| Recorded(g, m.trail, e, f, k);
      assert Recorded(g, m'.trail, e, f, k);
    }
  }

  lemma OtherKeepsMachine<S>(c: Config, g: Game<S>, m: Machine<S>, y: Side, a: Action)
    requires a.Deliver? || a.Reping? || a.Timeout? || a.Lose?
    requires MachineOk(g, m) && Drives(c, g, m, y, a) && ShapeOk(c, m.side)
    ensures MachineOk(g, Drive(c, g, m, y, a))
  {
    var m' := Drive(c, g, m, y, a);
    var last := |m.trail| - 1;
    if a.Deliver? { ReceiveFrame(m.side.peer, Arrival(y.sent[a.i].pack, a.now)); }
    StatesSurvive(g, m, m', last);
    if m.side.phase != Idle { assert StateOk(g, m, last) && StateOk(g, m', last); }
    OtherKeepsRecords(c, g, m, y, a);
  }

  lemma OtherKeepsRecords<S>(c: Config, g: Game<S>, m: Machine<S>, y: Side, a: Action)
    requires a.Deliver? || a.Reping? || a.Timeout? || a.Lose?
    requires MachineOk(g, m) && Drives(c, g, m, y, a)
    ensures var m' := Drive(c, g, m, y, a);
            forall e, f :: Has(m'.side.hist, e, f) ==> exists k: nat :: Recorded(g, m'.trail, e, f, k)
  {
    var m' := Drive(c, g, m, y, a);
    forall e, f | Has(m'.side.hist, e, f) ensures exists k: nat :: Recorded(g, m'.trail, e, f, k) {
      assert Has(m.side.hist, e, f);
      var k: nat :| Recorded(g, m.trail, e, f, k);
      assert Recorded(g, m'.trail, e, f, k);
    }
  }

  lemma DriveKeepsMachine<S>(c: Config, g: Game<S>, m: Machine<S>, y: Side, a: Action)
    requires MachineOk(g, m) && Drives(c, g, m, y, a) && ShapeOk(c, m.side) && m.side.fired == []
    ensures MachineOk(g, Drive(c, g, m, y, a))
  {
    match a
    case Start(_, _, _, _, _, _) => StartKeepsMachine(c, g, m, y, a);
    case Finish => FinishKeepsMachine(c, g, m, y, a);
    case Reset => ResetKeepsMachine(c, g, m, y, a);
    case _ => OtherKeepsMachine(c, g, m, y, a);
  }

  // ---- the two histories against each other ----

  /** A frame both machines recorded is the same state of the same game on both. */
  lemma SameFrameSameState<S>(g: Game<S>, m: Machine<S>, n: Machine<S>, k: nat, e: int, f: int)
    requires MachineOk(g, n) && Comparable(m.trail, n.trail)
    requires Recorded(g, m.trail, e, f, k) && Has(n.side.hist, e, f)
    ensures Recorded(g, n.trail, e, f, k) && n.trail[k] == m.trail[k]
  {
    var j: nat :| Recorded(g, n.trail, e, f, j);
    if j < k {
      PosOfPrefix(g, m.trail, n.trail, j);
      PosIncreases(g, m.trail, j, k);
    } else if k < j {
      PosOfPrefix(g, m.trail, n.trail, k);
      PosIncreases(g, n.trail, k, j);
    }
  }

  lemma SeedAt<S>(g: Game<S>, m: Machine<S>, k: nat)
    requires MachineOk(g, m) && k < |m.trail| && |m.side.hist| == m.side.peer.epoch + 1
    requires var p := Pos(g, m.trail, k); Has(m.side.hist, p.0, p.1)
    ensures var p := Pos(g, m.trail, k);
            && m.side.hist[p.0][p.1].seed == g.seedOf(m.trail[k])
            && m.side.hist[p.0][p.1].ui == g.uiOf(m.trail[k])
  {
    if k == |m.trail| - 1 {
      assert m.side.phase != Idle;
      assert StateOk(g, m, k);
    } else {
      assert StateOk(g, m, k);
    }
  }

  /** A frame both machines recorded was recorded with the same seed and menu flag. */
  lemma SameSeed<S>(c: Config, g: Game<S>, m: Machine<S>, n: Machine<S>, k: nat, e: int, f: int)
    requires MachineOk(g, m) && MachineOk(g, n) && Comparable(m.trail, n.trail)
    requires ShapeOk(c, m.side) && ShapeOk(c, n.side)
    requires Recorded(g, m.trail, e, f, k) && Has(m.side.hist, e, f) && Has(n.side.hist, e, f)
    ensures m.side.hist[e][f].seed == n.side.hist[e][f].seed && m.side.hist[e][f].ui == n.side.hist[e][f].ui
  {
    SameFrameSameState(g, m, n, k, e, f);
    SeedAt(g, m, k);
    SeedAt(g, n, k);
  }

  /** The frame `delay` back, if both recorded it, was recorded with one seed. */
  predicate OneSeedBack(c: Config, x: Side, y: Side)
    requires x.hist != []
  {
    var f, e, d := NextFrame(x) - 1, x.peer.epoch, c.delay;
    f >= d && Has(y.hist, e, f - d) && Has(x.hist, e, f - d) ==> x.hist[e][f - d].seed == y.hist[e][f - d].seed
  }

  lemma SameSeedBack<S>(c: Config, g: Game<S>, m: Machine<S>, n: Machine<S>)
    requires MachineOk(g, m) && MachineOk(g, n) && Comparable(m.trail, n.trail)
    requires ShapeOk(c, m.side) && ShapeOk(c, n.side) && m.side.phase == Waiting
    ensures OneSeedBack(c, m.side, n.side)
  {
    var f, e, d := NextFrame(m.side) - 1, m.side.peer.epoch, c.delay;
    if f >= d && Has(n.side.hist, e, f - d) && Has(m.side.hist, e, f - d) {
      FrameBack(c, g, m, d);
      SameSeed(c, g, m, n, |m.trail| - 1 - d, e, f - d);
    }
  }

  lemma EarlyKeepsSync(p: Peer, f: int, ui: bool)
    requires f < p.delay
    ensures Ready(p, f) && Complete(p, f, ui) == p
  {
  }

  /** So the flag of a machine in sync stays so. */
  lemma FinishStaysInSync(c: Config, x: Side, y: Side)
    requires Pair(c, x, y) && Pair(c, y, x) && c.minScene >= SafeScene(c.delay) && x.peer.isSync
    requires Can(c, x, y, Finish) && OneSeedBack(c, x, y)
    ensures Complete(x.peer, NextFrame(x) - 1, CurUi(x)).isSync
  {
    var f, e, d := NextFrame(x) - 1, x.peer.epoch, c.delay;
    FinishReads(c, x, y);
    if f >= d {
      CompareSeeds(x.peer, f, CurUi(x), x.hist[e][f - d], y.hist[e][f - d]);
    } else {
      EarlyKeepsSync(x.peer, f, CurUi(x));
    }
  }

  lemma CompareSeeds(p: Peer, f: int, ui: bool, mine: Rec, theirs: Rec)
    requires f >= p.delay && Holds(p.self, f - p.delay, mine) && Holds(p.rcved, f - p.delay, theirs)
    ensures Complete(p, f, ui).isSync == (theirs.seed == mine.seed)
  {
    ReadsTheRecordedPair(p, f, ui, mine, theirs);
  }

  lemma FrameBack<S>(c: Config, g: Game<S>, m: Machine<S>, d: nat)
    requires MachineOk(g, m) && ShapeOk(c, m.side) && m.side.phase == Waiting && NextFrame(m.side) - 1 >= d
    ensures d < |m.trail|
    ensures Recorded(g, m.trail, m.side.peer.epoch, NextFrame(m.side) - 1 - d, |m.trail| - 1 - d)
  {
    PosBack(g, m.trail, |m.trail| - 1, d);
  }

  // ---- replication ----

  /** Equal states at equal places lead to equal states. */
  lemma NextStateSame<S>(c: Config, g: Game<S>, m: Machine<S>, n: Machine<S>, k: nat)
    requires k + 1 < |m.trail| && k + 1 < |n.trail| && m.trail[k] == n.trail[k]
    requires Pos(g, m.trail, k) == Pos(g, n.trail, k) && StateOk(g, m, k) && StateOk(g, n, k)
    requires DoneOk(c, m.side, n.side) && DoneOk(c, n.side, m.side) && m.side.peer.isHost != n.side.peer.isHost
    ensures m.trail[k + 1] == n.trail[k + 1]
  {
    var p := Pos(g, m.trail, k);
    if m.side.peer.isHost {
      OutsAgree(c, m.side, n.side, p.0, p.1);
    } else {
      OutsAgree(c, n.side, m.side, p.0, p.1);
    }
  }

  /** The state a finishing machine adds is the one the other already went through, if it did. */
  lemma FinishStaysComparable<S>(c: Config, g: Game<S>, m': Machine<S>, n: Machine<S>)
    requires MachineOk(g, m') && MachineOk(g, n) && |m'.trail| >= 2
    requires forall i :: 0 <= i < |m'.trail| - 1 && i < |n.trail| ==> m'.trail[i] == n.trail[i]
    requires DoneOk(c, m'.side, n.side) && DoneOk(c, n.side, m'.side) && m'.side.peer.isHost != n.side.peer.isHost
    ensures Comparable(m'.trail, n.trail)
  {
    var k := |m'.trail| - 1;
    if k < |n.trail| { LastStateSame(c, g, m', n, k); }
  }

  lemma LastStateSame<S>(c: Config, g: Game<S>, m': Machine<S>, n: Machine<S>, k: nat)
    requires MachineOk(g, m') && MachineOk(g, n) && |m'.trail| == k + 1 && 0 < k < |n.trail|
    requires forall i :: 0 <= i < k ==> m'.trail[i] == n.trail[i]
    requires DoneOk(c, m'.side, n.side) && DoneOk(c, n.side, m'.side) && m'.side.peer.isHost != n.side.peer.isHost
    ensures m'.trail[k] == n.trail[k]
  {
    PosOfPrefix(g, m'.trail, n.trail, k - 1);
    StateAt(g, m', k - 1);
    StateAt(g, n, k - 1);
    NextStateSame(c, g, m', n, k - 1);
  }

  lemma StateAt<S>(g: Game<S>, m: Machine<S>, k: nat)
    requires MachineOk(g, m) && k < |m.trail| - 1
    ensures StateOk(g, m, k)
  {
  }

  lemma DriveKeepsComparable<S>(c: Config, g: Game<S>, m: Machine<S>, n: Machine<S>, a: Action)
    requires Drives(c, g, m, n.side, a) && MachineOk(g, m) && MachineOk(g, n) && Comparable(m.trail, n.trail)
    requires Pair(c, m.side, n.side) && Pair(c, n.side, m.side) && c.minScene >= SafeScene(c.delay)
    requires m.side.peer.isHost != n.side.peer.isHost && m.side.fired == []
    ensures Comparable(Drive(c, g, m, n.side, a).trail, n.trail)
    ensures MachineOk(g, Drive(c, g, m, n.side, a))
  {
    var m' := Drive(c, g, m, n.side, a);
    DriveKeepsMachine(c, g, m, n.side, a);
    if a.Finish? {
      ActKeepsMine(c, m.side, n.side, a);
      ActKeepsTheirs(c, m.side, n.side, a);
      ActKeepsRole(c, m.side, n.side, a);
      FinishStaysComparable(c, g, m', n);
    }
  }

  lemma DriveKeepsQuiet<S>(c: Config, g: Game<S>, m: Machine<S>, n: Machine<S>, a: Action)
    requires Drives(c, g, m, n.side, a) && MachineOk(g, m) && MachineOk(g, n) && Comparable(m.trail, n.trail)
    requires Pair(c, m.side, n.side) && Pair(c, n.side, m.side) && c.minScene >= SafeScene(c.delay)
    requires Quiet(m.side) && Quiet(n.side)
    ensures Quiet(Drive(c, g, m, n.side, a).side)
  {
    if a.Finish? {
      SameSeedBack(c, g, m, n);
      FinishStaysInSync(c, m.side, n.side);
    }
    QuietStays(c, m.side, n.side, a);
  }

  lemma TickKeepsWorld<S(!new)>(c: Config, g: Game<S>, w: World<S>, w': World<S>)
    requires WorldOk(c, g, w) && Ticks(c, g, w, w') && c.minScene >= SafeScene(c.delay)
    ensures WorldOk(c, g, w')
  {
    TickIsNext(c, g, w, w');
    NextKeepsInv(c, Sides(w), Sides(w'));
    if w'.g == w.g && exists a :: Drives(c, g, w.h, w.g.side, a) && w'.h == Drive(c, g, w.h, w.g.side, a) {
      var a :| Drives(c, g, w.h, w.g.side, a) && w'.h == Drive(c, g, w.h, w.g.side, a);
      DriveKeepsQuiet(c, g, w.h, w.g, a);
      DriveKeepsComparable(c, g, w.h, w.g, a);
    } else {
      var a :| Drives(c, g, w.g, w.h.side, a) && w'.g == Drive(c, g, w.g, w.h.side, a);
      DriveKeepsQuiet(c, g, w.g, w.h, a);
      DriveKeepsComparable(c, g, w.g, w.h, a);
    }
  }

  lemma TickIsNext<S(!new)>(c: Config, g: Game<S>, w: World<S>, w': World<S>)
    requires Ticks(c, g, w, w')
    ensures Next(c, Sides(w), Sides(w'))
  {
    if w'.g == w.g && exists a :: Drives(c, g, w.h, w.g.side, a) && w'.h == Drive(c, g, w.h, w.g.side, a) {
      var a :| Drives(c, g, w.h, w.g.side, a) && w'.h == Drive(c, g, w.h, w.g.side, a);
      assert Moves(c, w.h.side, w.g.side, w'.h.side);
    } else {
      var a :| Drives(c, g, w.g, w.h.side, a) && w'.g == Drive(c, g, w.g, w.h.side, a);
      assert Moves(c, w.g.side, w.h.side, w'.g.side);
    }
  }

  lemma {:induction false} HistoryOk<S(!new)>(c: Config, g: Game<S>, t: seq<World<S>>)
    requires IsHistory(c, g, t) && c.minScene >= SafeScene(c.delay)
    ensures WorldOk(c, g, t[|t| - 1])
  {
    if |t| == 1 {
      InitInv(c, Sides(t[0]));
    } else {
      var u := t[..|t| - 1];
      forall k | 0 <= k < |u| - 1 ensures Ticks(c, g, u[k], u[k + 1]) {
        assert Ticks(c, g, t[k], t[k + 1]);
      }
      HistoryOk(c, g, u);
      assert Ticks(c, g, t[|t| - 2], t[|t| - 1]);
      TickKeepsWorld(c, g, u[|u| - 1], t[|t| - 1]);
    }
  }

  /** For every game and every schedule: the states the two copies go through are one sequence,
      as far as both have got; every frame both completed returned one and the same word, control
      action and pair; no desync is ever flagged and no resync ever stirs. */
  lemma Replicated<S(!new)>(c: Config, g: Game<S>, t: seq<World<S>>)
    requires IsHistory(c, g, t) && c.minScene >= SafeScene(c.delay)
    ensures var w := t[|t| - 1];
            && (forall k :: 0 <= k < |w.h.trail| && k < |w.g.trail| ==> w.h.trail[k] == w.g.trail[k])
            && (forall e, f :: BothCompleted(Sides(w), e, f) ==> w.h.side.outs[e][f] == w.g.side.outs[e][f])
            && w.h.side.peer.isSync && w.g.side.peer.isSync && w.h.side.fired == [] == w.g.side.fired
  {
    HistoryOk(c, g, t);
    var w := t[|t| - 1];
    forall e, f | BothCompleted(Sides(w), e, f) ensures w.h.side.outs[e][f] == w.g.side.outs[e][f] {
      assert Has(w.h.side.hist, e, f);
      var k: nat :| Recorded(g, w.h.trail, e, f, k);
      SameSeed(c, g, w.h, w.g, k, e, f);
      OutsAgree(c, w.h.side, w.g.side, e, f);
    }
  }

  /** Each copy runs by its own game: every state but the first is one step of the state before it
      on the word the core returned for it. */
  lemma TrailIsARun<S(!new)>(c: Config, g: Game<S>, t: seq<World<S>>, host: bool, k: nat)
    requires IsHistory(c, g, t) && c.minScene >= SafeScene(c.delay)
    requires k + 1 < |(if host then t[|t| - 1].h else t[|t| - 1].g).trail|
    ensures var m := if host then t[|t| - 1].h else t[|t| - 1].g;
            var p := Pos(g, m.trail, k);
            && 0 <= p.0 < |m.side.outs| && 0 <= p.1 < |m.side.outs[p.0]|
            && m.trail[k + 1] == g.step(m.trail[k], WordOf(m.side.outs[p.0][p.1]))
  {
    HistoryOk(c, g, t);
    StateAt(g, if host then t[|t| - 1].h else t[|t| - 1].g, k);
  }
}
