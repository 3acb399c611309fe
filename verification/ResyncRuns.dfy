/** Schedules with resync on: the two machines in step through a scene, menu or stage, with one seed
    or two. They show what the resync results speak of, and where they stop. */
module ResyncRuns {
  import opened Merge
  import opened Wire
  import opened PeerSpec
  import opened Lockstep
  import opened LockstepInv
  import opened Agreement
  import opened Runs
  import opened ResyncTargets

  /** Scene e, menu or stage, with the seeds the two machines record in all of it. */
  datatype Plan = Plan(threshold: int, e: nat, ui: bool, hostSeed: Word, guestSeed: Word)

  predicate Forked(w: Plan) {
    w.hostSeed != w.guestSeed
  }

  /** The first frame at which a host in a forked stage has counted its threshold. */
  function AskFrame(c: Config, w: Plan): int {
    c.delay + w.threshold
  }

  function AskTarget(c: Config, w: Plan): int {
    AskFrame(c, w) + Horizon(c)
  }

  predicate Asks(c: Config, w: Plan, n: int) {
    !w.ui && Forked(w) && n >= AskFrame(c, w)
  }

  /** The count after the top of frame n, as long as nothing has fired. */
  function CountAt(c: Config, w: Plan, n: int): nat {
    if w.ui || !Forked(w) || n <= c.delay then 0 else n - c.delay
  }

  ghost predicate InPlan(c: Config, w: Plan, x: Side, n: nat) {
    && |x.hist| == |x.outs| == w.e + 1 && x.peer.epoch == w.e && x.peer.delay == c.delay && x.peer.connected
    && x.peer.resync.enable && x.peer.resync.threshold == w.threshold > c.delay >= 1 && c.delay < RETAIN
    && NextFrame(x) == n && x.lost == {}
    && Records(c, w, x.peer.isHost, Cur(x))
  }

  function SeedOf(w: Plan, isHost: bool): Word {
    if isHost then w.hostSeed else w.guestSeed
  }

  predicate Records(c: Config, w: Plan, isHost: bool, h: seq<Rec>) {
    forall f :: 0 <= f < |h| ==>
      h[f].ui == w.ui && h[f].seed == SeedOf(w, isHost) && h[f].wasSync == (f <= c.delay || !Forked(w))
  }

  predicate FlagIs(c: Config, w: Plan, x: Side, n: nat) {
    x.peer.isSync == (n <= c.delay || !Forked(w))
  }

  /** Slots lo .. hi - 1 of the other machine are there. */
  predicate HoldsFrom(x: Side, lo: int, hi: int) {
    forall f :: 0 <= f < hi && lo <= f ==> f in x.peer.rcved.bits
  }

  /** n frames completed. */
  ghost predicate Stands(c: Config, w: Plan, x: Side, n: nat) {
    && InPlan(c, w, x, n) && x.phase == Idle && |x.outs[w.e]| == n && FlagIs(c, w, x, n)
    && x.peer.resync.desyncRun == CountAt(c, w, n - 1)
  }

  /** And the last RETAIN of the peer's slots there. */
  ghost predicate Rests(c: Config, w: Plan, x: Side, n: nat) {
    Stands(c, w, x, n) && HoldsFrom(x, n - RETAIN, n)
  }

  /** Inside frame n, having sent its packet. */
  ghost predicate Waits(c: Config, w: Plan, x: Side, n: nat) {
    && InPlan(c, w, x, n + 1) && x.phase == Waiting && x.peer.netFrame == n && |x.outs[w.e]| == n && FlagIs(c, w, x, n)
    && x.peer.resync.desyncRun == CountAt(c, w, n) && HoldsFrom(x, n + 1 - RETAIN, n)
  }

  predicate Calm(x: Side) {
    !x.peer.resync.trigger && x.fired == [] && x.inits == []
  }

  predicate ArmedFor(x: Side, t: int) {
    x.peer.resync.trigger && x.peer.resync.stageFrame == t && x.fired == []
  }

  predicate HostIs(c: Config, w: Plan, x: Side, n: nat) {
    if Asks(c, w, n - 1) then ArmedFor(x, AskTarget(c, w)) && x.inits == [AskFrame(c, w)] else Calm(x)
  }

  // ---- the pieces of a frame ----

  function Opening(w: Plan, x: Side): Action {
    Start(0, SeedOf(w, x.peer.isHost), w.ui, IgcNone, [], 0)
  }

  predicate IsKey(m: Msg, e: nat, n: nat) {
    PlainPack(m.pack, e, n) && m.at == n
  }

  /** The scenes gone by. */
  function Past(x: Side): seq<seq<Rec>>
    requires x.hist != []
  {
    x.hist[..|x.hist| - 1]
  }

  /** What a Start leaves alone. */
  predicate SameFrom(x: Side, x': Side) {
    && x.hist != [] && x'.hist != [] && Past(x') == Past(x)
    && x'.got == x.got && x'.base == x.base && x'.lost == x.lost && x'.peer.isHost == x.peer.isHost
  }

  /** The resync machine at the top of frame n of the plan. */
  function Top(w: Plan, x: Side, n: nat): Peer {
    RunResync(x.peer.(netFrame := n), n, w.ui, [])
  }

  predicate TopCounts(c: Config, w: Plan, x: Side, n: nat) {
    var q := Top(w, x, n);
    && q == x.peer.(netFrame := n, resync := q.resync) && q.resync.desyncRun == CountAt(c, w, n)
    && q.resync.enable == x.peer.resync.enable && q.resync.threshold == x.peer.resync.threshold
  }

  /** A frame that does not fire, once its top is known. */
  lemma StartOpens(c: Config, w: Plan, x: Side, y: Side, n: nat)
    requires Rests(c, w, x, n) && TopCounts(c, w, x, n) && !Fires(x.peer.(netFrame := n), n, w.ui)
    ensures Can(c, x, y, Opening(w, x))
    ensures var x' := Do(c, x, y, Opening(w, x));
            && Waits(c, w, x', n) && SameFrom(x, x') && x'.peer.resync == Top(w, x, n).resync && x'.fired == x.fired
  {
    var x' := Do(c, x, y, Opening(w, x));
    StartGrows(c, x, y, Opening(w, x));
    assert Arrivals(y, [], 0) == [];
    assert x'.outs == x.outs && Past(x') == Past(x);
  }

  lemma CalmTop(c: Config, w: Plan, x: Side, n: nat)
    requires Rests(c, w, x, n) && (x.peer.resync.trigger ==> x.peer.resync.stageFrame > n)
    requires !Asks(c, w, n) || !x.peer.isHost
    ensures TopCounts(c, w, x, n)
    ensures !Fires(x.peer.(netFrame := n), n, w.ui) && !Announces(x.peer.(netFrame := n), n, w.ui)
    ensures Top(w, x, n).resync == x.peer.resync.(desyncRun := CountAt(c, w, n))
  {
    if !w.ui { TopIdle(x.peer.(netFrame := n), n, []); }
  }

  lemma AskTop(c: Config, w: Plan, x: Side, n: nat)
    requires Rests(c, w, x, n) && HostIs(c, w, x, n) && x.peer.isHost && Asks(c, w, n) && n < AskTarget(c, w)
    ensures TopCounts(c, w, x, n)
    ensures !Fires(x.peer.(netFrame := n), n, w.ui) && Announces(x.peer.(netFrame := n), n, w.ui)
    ensures Target(x.peer.(netFrame := n), n) == AskTarget(c, w)
    ensures Top(w, x, n).resync
         == x.peer.resync.(desyncRun := CountAt(c, w, n), trigger := true, stageFrame := AskTarget(c, w))
  {
  }

  lemma StartsCalmly(c: Config, w: Plan, x: Side, y: Side, n: nat)
    requires Rests(c, w, x, n) && (x.peer.resync.trigger ==> x.peer.resync.stageFrame > n)
    requires !Asks(c, w, n) || !x.peer.isHost
    ensures Can(c, x, y, Opening(w, x))
    ensures var x' := Do(c, x, y, Opening(w, x));
            && Waits(c, w, x', n) && SameFrom(x, x') && x'.fired == x.fired && x'.inits == x.inits
            && x'.peer.resync.trigger == x.peer.resync.trigger && x'.peer.resync.stageFrame == x.peer.resync.stageFrame
            && |x'.sent| == |x.sent| + 1 && x'.sent[..|x.sent|] == x.sent && IsKey(x'.sent[|x.sent|], w.e, n)
  {
    CalmTop(c, w, x, n);
    StartOpens(c, w, x, y, n);
  }

  lemma StartsAsking(c: Config, w: Plan, x: Side, y: Side, n: nat)
    requires Rests(c, w, x, n) && HostIs(c, w, x, n) && x.peer.isHost && Asks(c, w, n) && n < AskTarget(c, w)
    ensures Can(c, x, y, Opening(w, x))
    ensures var x' := Do(c, x, y, Opening(w, x));
            && Waits(c, w, x', n) && SameFrom(x, x') && HostIs(c, w, x', n + 1)
            && |x'.sent| == |x.sent| + 2 && x'.sent[..|x.sent|] == x.sent && IsKey(x'.sent[|x.sent| + 1], w.e, n)
            && IsCurrent(x', x'.sent[|x.sent|], AskTarget(c, w))
  {
    AskTop(c, w, x, n);
    StartOpens(c, w, x, y, n);
  }

  lemma TakesKey(c: Config, w: Plan, x: Side, y: Side, n: nat, i: nat)
    requires Waits(c, w, x, n) && Deliverable(y, i) && IsKey(y.sent[i], w.e, n)
    ensures Can(c, x, y, Deliver(i, 0))
    ensures var x' := Do(c, x, y, Deliver(i, 0));
            && Waits(c, w, x', n) && n in x'.peer.rcved.bits && x'.peer.resync == x.peer.resync
            && x' == x.(peer := x'.peer, got := x.got + [i]) && x'.peer.isHost == x.peer.isHost
  {
    var x' := Do(c, x, y, Deliver(i, 0));
    ReceiveFrame(x.peer, Arrival(y.sent[i].pack, 0));
    assert Cur(x') == Cur(x);
  }

  lemma TakesAsk(c: Config, w: Plan, x: Side, y: Side, n: nat, i: nat, t: int)
    requires Waits(c, w, x, n) && Deliverable(y, i) && IsRequest(y.sent[i], t) && n < t <= n + Horizon(c)
    ensures Can(c, x, y, Deliver(i, 0))
    ensures var x' := Do(c, x, y, Deliver(i, 0));
            && Waits(c, w, x', n) && x'.peer.rcved == x.peer.rcved
            && x'.peer.resync == x.peer.resync.(trigger := true, stageFrame := t)
            && x' == x.(peer := x'.peer, got := x.got + [i]) && x'.peer.isHost == x.peer.isHost
  {
    var x' := Do(c, x, y, Deliver(i, 0));
    ReceiveFrame(x.peer, Arrival(y.sent[i].pack, 0));
    assert Cur(x') == Cur(x);
  }

  /** With the slot of this frame in, the delayed one is there, and compares the two seeds. */
  /** The other machine is in the same scene, with the plan's seeds. */
  ghost predicate Mirrors(c: Config, w: Plan, x: Side, y: Side) {
    |y.hist| == w.e + 1 && y.peer.isHost != x.peer.isHost && Records(c, w, y.peer.isHost, Cur(y))
  }

  /** What a Finish leaves alone. */
  predicate SameButEnded(x: Side, x': Side) {
    && x'.peer.resync == x.peer.resync && SameFrom(x, x') && x'.fired == x.fired && x'.inits == x.inits && x'.sent == x.sent
    && x'.peer.rcved == x.peer.rcved
  }

  lemma Ends(c: Config, w: Plan, x: Side, y: Side, n: nat)
    requires Waits(c, w, x, n) && Sound(c, x, y) && Mirrors(c, w, x, y)
    ensures Can(c, x, y, Finish)
    ensures var x' := Do(c, x, y, Finish);
            Stands(c, w, x', n + 1) && SameButEnded(x, x') && (n in x.peer.rcved.bits ==> Rests(c, w, x', n + 1))
  {
    if n >= c.delay { ComparesSeeds(c, w, x, y, n); }
    TouchesNothing(x.peer, n, CurUi(x));
    CompleteFrame(x.peer, n, CurUi(x));
    EndsAt(c, w, x, y, n);
  }

  /** The end of a frame, once the comparison is known. */
  lemma EndsAt(c: Config, w: Plan, x: Side, y: Side, n: nat)
    requires Waits(c, w, x, n) && Ready(x.peer, n)
    requires n >= c.delay ==> Complete(x.peer, n, CurUi(x)).isSync == !Forked(w)
    requires var q := Complete(x.peer, n, CurUi(x));
             q.rcved == x.peer.rcved && q == x.peer.(self := q.self, rcved := q.rcved, isSync := q.isSync,
                                                     lastP1 := q.lastP1, lastP2 := q.lastP2)
    ensures Can(c, x, y, Finish)
    ensures var x' := Do(c, x, y, Finish);
            Stands(c, w, x', n + 1) && SameButEnded(x, x') && (n in x.peer.rcved.bits ==> Rests(c, w, x', n + 1))
  {
    assert Cur(Do(c, x, y, Finish)) == Cur(x);
  }

  lemma ComparesSeeds(c: Config, w: Plan, x: Side, y: Side, n: nat)
    requires Waits(c, w, x, n) && Sound(c, x, y) && n >= c.delay && Mirrors(c, w, x, y)
    ensures var k := n - c.delay;
            k in x.peer.self.rng && k in x.peer.rcved.rng && k in x.peer.rcved.ctrl
    ensures Ready(x.peer, n) && Complete(x.peer, n, CurUi(x)).isSync == !Forked(w)
  {
    var k := n - c.delay;
    assert Holds(x.peer.self, k, x.hist[w.e][k]);
    assert k in x.peer.rcved.bits;
    var e' :| Origin(x.peer.rcved, w.e, y.hist, k, e');
    assert y.hist[e'] == Cur(y);
    ReadsTheRecordedPair(x.peer, n, CurUi(x), x.hist[w.e][k], y.hist[e'][k]);
  }

  /** A machine that has just realigned at frame n. */
  ghost predicate Fired(c: Config, w: Plan, x: Side, n: nat) {
    && InPlan(c, w, x, n + 1) && x.phase == Waiting && x.peer.netFrame == n && |x.outs[w.e]| == n && x.peer.isSync
    && x.fired == [n] && !x.peer.resync.trigger && x.peer.resync.desyncRun == 0 && x.peer.rcved == NO_FRAMES
  }

  lemma FiresNow(c: Config, w: Plan, x: Side, y: Side, n: nat)
    requires Stands(c, w, x, n) && !w.ui && ArmedFor(x, n)
    ensures Can(c, x, y, Opening(w, x))
    ensures var x' := Do(c, x, y, Opening(w, x));
            && Fired(c, w, x', n) && SameFrom(x, x') && x'.inits == x.inits
            && |x'.sent| == |x.sent| + 1 && x'.sent[..|x.sent|] == x.sent && IsKey(x'.sent[|x.sent|], w.e, n)
  {
    StartGrows(c, x, y, Opening(w, x));
    assert Arrivals(y, [], 0) == [];
    var x' := Do(c, x, y, Opening(w, x));
    assert x'.outs == x.outs && Past(x') == Past(x);
    assert EraseAt(NO_FRAMES, n - RETAIN) == NO_FRAMES;
  }

  // ---- the two machines frame by frame ----

  /** Both at rest after n frames, the host as the plan has it. */
  ghost predicate BothRest(c: Config, w: Plan, s: Sys, n: nat) {
    && Reachable(c, s) && s.h.peer.isHost && !s.g.peer.isHost
    && Rests(c, w, s.h, n) && Rests(c, w, s.g, n) && HostIs(c, w, s.h, n)
  }

  ghost predicate BothWait(c: Config, w: Plan, s: Sys, n: nat) {
    && Reachable(c, s) && s.h.peer.isHost && !s.g.peer.isHost
    && Waits(c, w, s.h, n) && Waits(c, w, s.g, n) && HostIs(c, w, s.h, n + 1)
    && s.h.sent != [] && IsKey(s.h.sent[|s.h.sent| - 1], w.e, n)
    && s.g.sent != [] && IsKey(s.g.sent[|s.g.sent| - 1], w.e, n)
  }

  /** The guest is armed for frame t, or not at all if t is negative. */
  predicate GuestIs(x: Side, t: int) {
    if t < 0 then Calm(x) else ArmedFor(x, t) && x.inits == []
  }

  /** What y's packets were, they still are. */
  predicate SentOn(x: Side, x': Side) {
    |x.sent| <= |x'.sent| && forall r :: 0 <= r < |x.sent| ==> x'.sent[r] == x.sent[r]
  }

  /** The host is inside frame n, the guest about to start it. */
  ghost predicate HostWaits(c: Config, w: Plan, s: Sys, n: nat) {
    && Reachable(c, s) && s.h.peer.isHost && !s.g.peer.isHost
    && Waits(c, w, s.h, n) && Rests(c, w, s.g, n) && HostIs(c, w, s.h, n + 1)
    && s.h.sent != [] && IsKey(s.h.sent[|s.h.sent| - 1], w.e, n)
  }

  lemma OpenHost(c: Config, w: Plan, s0: Sys, n: nat) returns (s: Sys)
    requires BothRest(c, w, s0, n) && (Asks(c, w, n) ==> n < AskTarget(c, w))
    ensures HostWaits(c, w, s, n) && s.g == s0.g && SameFrom(s0.h, s.h) && SentOn(s0.h, s.h)
    ensures |s.h.sent| == |s0.h.sent| + (if Asks(c, w, n) then 2 else 1)
    ensures Asks(c, w, n) ==> IsRequest(s.h.sent[|s0.h.sent|], AskTarget(c, w))
  {
    if Asks(c, w, n) { StartsAsking(c, w, s0.h, s0.g, n); } else { StartsCalmly(c, w, s0.h, s0.g, n); }
    Acts(c, s0, true, Opening(w, s0.h));
    s := s0.(h := Do(c, s0.h, s0.g, Opening(w, s0.h)));
  }

  lemma OpenGuest(c: Config, w: Plan, s0: Sys, n: nat, t: int) returns (s: Sys)
    requires HostWaits(c, w, s0, n) && GuestIs(s0.g, t) && (t >= 0 ==> n < t)
    ensures BothWait(c, w, s, n) && GuestIs(s.g, t) && s.h == s0.h && SameFrom(s0.g, s.g)
    ensures SentOn(s0.g, s.g) && |s.g.sent| == |s0.g.sent| + 1
  {
    StartsCalmly(c, w, s0.g, s0.h, n);
    Acts(c, s0, false, Opening(w, s0.g));
    s := s0.(g := Do(c, s0.g, s0.h, Opening(w, s0.g)));
  }

  lemma TellGuest(c: Config, w: Plan, s0: Sys, n: nat, i: nat, t: int) returns (s: Sys)
    requires BothWait(c, w, s0, n) && s0.g.fired == [] && s0.g.inits == []
    requires i < |s0.h.sent| && IsRequest(s0.h.sent[i], t) && n < t <= n + Horizon(c)
    ensures BothWait(c, w, s, n) && GuestIs(s.g, t) && s.h == s0.h && s.g.base == s0.g.base && s.g.got == s0.g.got + [i]
    ensures s.g.sent == s0.g.sent
  {
    TakesAsk(c, w, s0.g, s0.h, n, i, t);
    Acts(c, s0, false, Deliver(i, 0));
    s := s0.(g := Do(c, s0.g, s0.h, Deliver(i, 0)));
  }

  lemma ReachableSound(c: Config, s: Sys)
    requires Reachable(c, s)
    ensures BothSound(c, s)
  {
    var t :| IsRun(c, t) && t[|t| - 1] == s;
    RunSound(c, t);
  }

  /** Each takes the other's packet of the frame, and ends it. */
  lemma CloseBoth(c: Config, w: Plan, s0: Sys, n: nat, t: int) returns (s: Sys)
    requires BothWait(c, w, s0, n) && GuestIs(s0.g, t)
    ensures BothRest(c, w, s, n + 1) && GuestIs(s.g, t) && s.h.sent == s0.h.sent && s.g.sent == s0.g.sent
    ensures s.h.base == s0.h.base && s.g.base == s0.g.base && Past(s.h) == Past(s0.h)
    ensures s.h.got == s0.h.got + [|s0.g.sent| - 1] && s.g.got == s0.g.got + [|s0.h.sent| - 1]
  {
    s := HostHears(c, w, s0, n);
    s := GuestHears(c, w, s, n);
    s := EndBoth(c, w, s, n);
  }

  lemma HostHears(c: Config, w: Plan, s0: Sys, n: nat) returns (s: Sys)
    requires BothWait(c, w, s0, n)
    ensures BothWait(c, w, s, n) && n in s.h.peer.rcved.bits && s.g == s0.g
    ensures s.h.sent == s0.h.sent && s.h.base == s0.h.base && Past(s.h) == Past(s0.h)
    ensures s.h.got == s0.h.got + [|s0.g.sent| - 1]
  {
    TakesKey(c, w, s0.h, s0.g, n, |s0.g.sent| - 1);
    Acts(c, s0, true, Deliver(|s0.g.sent| - 1, 0));
    s := s0.(h := Do(c, s0.h, s0.g, Deliver(|s0.g.sent| - 1, 0)));
  }

  lemma GuestHears(c: Config, w: Plan, s0: Sys, n: nat) returns (s: Sys)
    requires BothWait(c, w, s0, n)
    ensures BothWait(c, w, s, n) && n in s.g.peer.rcved.bits && s.h == s0.h
    ensures s.g.peer.resync == s0.g.peer.resync && s.g.fired == s0.g.fired && s.g.inits == s0.g.inits
    ensures s.g.sent == s0.g.sent && s.g.base == s0.g.base && s.g.got == s0.g.got + [|s0.h.sent| - 1]
  {
    TakesKey(c, w, s0.g, s0.h, n, |s0.h.sent| - 1);
    Acts(c, s0, false, Deliver(|s0.h.sent| - 1, 0));
    s := s0.(g := Do(c, s0.g, s0.h, Deliver(|s0.h.sent| - 1, 0)));
  }

  lemma EndBoth(c: Config, w: Plan, s0: Sys, n: nat) returns (s: Sys)
    requires BothWait(c, w, s0, n) && n in s0.h.peer.rcved.bits && n in s0.g.peer.rcved.bits
    ensures BothRest(c, w, s, n + 1) && SameFrom(s0.h, s.h) && SameFrom(s0.g, s.g)
    ensures s.h.peer.resync == s0.h.peer.resync && s.g.peer.resync == s0.g.peer.resync
    ensures s.h.sent == s0.h.sent && s.g.sent == s0.g.sent
    ensures s.g.fired == s0.g.fired && s.g.inits == s0.g.inits
  {
    ReachableSound(c, s0);
    Ends(c, w, s0.h, s0.g, n);
    Acts(c, s0, true, Finish);
    s := s0.(h := Do(c, s0.h, s0.g, Finish));
    ReachableSound(c, s);
    Ends(c, w, s.g, s.h, n);
    Acts(c, s, false, Finish);
    s := s.(g := Do(c, s.g, s.h, Finish));
  }

  /** The guest's target after n frames: as at the scene's start, until the host asks and it is told. */
  function StatusAt(c: Config, w: Plan, n: int, t: int, tell: bool): int {
    if tell && Asks(c, w, n - 1) then AskTarget(c, w) else t
  }

  predicate GotUpTo(x: Side, m: nat) {
    |x.got| == m && forall k :: 0 <= k < m ==> x.got[k] == k
  }

  /** What one frame adds to the channels; `told` is whether the guest got all of it. */
  predicate Adds(asks: bool, told: bool, s0: Sys, s: Sys) {
    && s0.h.hist != [] && s.h.hist != [] && Past(s.h) == Past(s0.h)
    && SentOn(s0.h, s.h) && SentOn(s0.g, s.g) && s.h.base == s0.h.base && s.g.base == s0.g.base
    && s.h.got == s0.h.got + [|s0.g.sent|] && |s.g.sent| == |s0.g.sent| + 1
    && |s.h.sent| == |s0.h.sent| + (if asks then 2 else 1)
    && (!asks ==> s.g.got == s0.g.got + [|s0.h.sent|])
    && (asks && told ==> s.g.got == s0.g.got + [|s0.h.sent|] + [|s0.h.sent| + 1])
  }

  lemma OpenAll(c: Config, w: Plan, s0: Sys, n: nat, t: int) returns (s: Sys)
    requires BothRest(c, w, s0, n) && GuestIs(s0.g, t) && (t >= 0 ==> n < t) && (Asks(c, w, n) ==> n < AskTarget(c, w))
    ensures BothWait(c, w, s, n) && GuestIs(s.g, t) && SameFrom(s0.h, s.h) && SameFrom(s0.g, s.g)
    ensures SentOn(s0.h, s.h) && SentOn(s0.g, s.g) && |s.g.sent| == |s0.g.sent| + 1
    ensures |s.h.sent| == |s0.h.sent| + (if Asks(c, w, n) then 2 else 1)
    ensures Asks(c, w, n) ==> IsRequest(s.h.sent[|s0.h.sent|], AskTarget(c, w))
  {
    s := OpenHost(c, w, s0, n);
    s := OpenGuest(c, w, s, n, t);
  }

  lemma AddsUp(asks: bool, told: bool, s0: Sys, s1: Sys, s: Sys)
    requires SameFrom(s0.h, s1.h) && s1.g.base == s0.g.base && SentOn(s0.h, s1.h) && SentOn(s0.g, s1.g)
    requires |s1.g.sent| == |s0.g.sent| + 1 && |s1.h.sent| == |s0.h.sent| + (if asks then 2 else 1)
    requires s1.g.got == s0.g.got + (if asks && told then [|s0.h.sent|] else [])
    requires s.h.sent == s1.h.sent && s.g.sent == s1.g.sent && s.h.base == s1.h.base && s.g.base == s1.g.base
    requires s.h.hist != [] && Past(s.h) == Past(s1.h)
    requires s.h.got == s1.h.got + [|s1.g.sent| - 1] && s.g.got == s1.g.got + [|s1.h.sent| - 1]
    ensures Adds(asks, told, s0, s)
  {
  }

  lemma FrameUntold(c: Config, w: Plan, s0: Sys, n: nat, t: int) returns (s: Sys)
    requires BothRest(c, w, s0, n) && GuestIs(s0.g, t) && (t >= 0 ==> n < t) && (Asks(c, w, n) ==> n < AskTarget(c, w))
    ensures BothRest(c, w, s, n + 1) && GuestIs(s.g, t) && Adds(Asks(c, w, n), false, s0, s)
    ensures Asks(c, w, n) ==> IsRequest(s.h.sent[|s0.h.sent|], AskTarget(c, w))
  {
    var s1 := OpenAll(c, w, s0, n, t);
    s := CloseBoth(c, w, s1, n, t);
    AddsUp(Asks(c, w, n), false, s0, s1, s);
  }

  lemma OpenAndTell(c: Config, w: Plan, s0: Sys, n: nat, t: int) returns (s: Sys)
    requires BothRest(c, w, s0, n) && GuestIs(s0.g, t) && (t >= 0 ==> n < t) && Asks(c, w, n) && n < AskTarget(c, w)
    ensures BothWait(c, w, s, n) && GuestIs(s.g, AskTarget(c, w)) && SameFrom(s0.h, s.h)
    ensures s.g.base == s0.g.base && s.g.got == s0.g.got + [|s0.h.sent|]
    ensures SentOn(s0.h, s.h) && SentOn(s0.g, s.g) && |s.g.sent| == |s0.g.sent| + 1 && |s.h.sent| == |s0.h.sent| + 2
  {
    s := OpenAll(c, w, s0, n, t);
    s := TellGuest(c, w, s, n, |s0.h.sent|, AskTarget(c, w));
  }

  lemma FrameTold(c: Config, w: Plan, s0: Sys, n: nat, t: int) returns (s: Sys)
    requires BothRest(c, w, s0, n) && GuestIs(s0.g, t) && (t >= 0 ==> n < t) && Asks(c, w, n) && n < AskTarget(c, w)
    ensures BothRest(c, w, s, n + 1) && GuestIs(s.g, AskTarget(c, w)) && Adds(true, true, s0, s)
  {
    var s1 := OpenAndTell(c, w, s0, n, t);
    s := CloseBoth(c, w, s1, n, AskTarget(c, w));
    AddsUp(true, true, s0, s1, s);
  }

  /** Packets stay what they were, and a channel that delivered everything in order still has: to the
      host, and if `all` to the guest. */
  predicate Onward(s0: Sys, s: Sys, all: bool) {
    && s0.h.hist != [] && s.h.hist != [] && Past(s.h) == Past(s0.h)
    && SentOn(s0.h, s.h) && SentOn(s0.g, s.g) && s.h.base == s0.h.base && s.g.base == s0.g.base
    && (GotUpTo(s0.h, |s0.g.sent|) ==> GotUpTo(s.h, |s.g.sent|))
    && (all && GotUpTo(s0.g, |s0.h.sent|) ==> GotUpTo(s.g, |s.h.sent|))
  }

  lemma OnwardOn(s0: Sys, s1: Sys, s: Sys, all0: bool, all: bool)
    requires Onward(s0, s1, all0) && Onward(s1, s, all) && (all ==> all0)
    ensures Onward(s0, s, all)
  {
  }

  lemma AddsOnward(asks: bool, told: bool, s0: Sys, s: Sys)
    requires Adds(asks, told, s0, s)
    ensures Onward(s0, s, told || !asks)
  {
  }

  /** From frame n to frame k. */
  lemma {:induction false} Frames(c: Config, w: Plan, s0: Sys, n: nat, k: nat, t: int, tell: bool) returns (s: Sys)
    requires n <= k && BothRest(c, w, s0, n) && GuestIs(s0.g, StatusAt(c, w, n, t, tell))
    requires (t >= 0 ==> k <= t) && (Asks(c, w, k - 1) ==> k <= AskTarget(c, w))
    ensures BothRest(c, w, s, k) && GuestIs(s.g, StatusAt(c, w, k, t, tell))
    ensures Onward(s0, s, tell || !Asks(c, w, k - 1))
    decreases k
  {
    if n == k {
      s := s0;
    } else {
      s := Frames(c, w, s0, n, k - 1, t, tell);
      s := LastFrame(c, w, s0, s, k, t, tell);
    }
  }

  lemma LastFrame(c: Config, w: Plan, s0: Sys, s1: Sys, k: nat, t: int, tell: bool) returns (s: Sys)
    requires k > 0 && BothRest(c, w, s1, k - 1) && GuestIs(s1.g, StatusAt(c, w, k - 1, t, tell))
    requires (t >= 0 ==> k <= t) && (Asks(c, w, k - 1) ==> k <= AskTarget(c, w))
    requires Onward(s0, s1, tell || !Asks(c, w, k - 2))
    ensures BothRest(c, w, s, k) && GuestIs(s.g, StatusAt(c, w, k, t, tell))
    ensures Onward(s0, s, tell || !Asks(c, w, k - 1))
  {
    s := OneFrameOn(c, w, s1, k - 1, k, t, tell);
    AddsOnward(Asks(c, w, k - 1), tell, s1, s);
    OnwardOn(s0, s1, s, tell || !Asks(c, w, k - 2), tell || !Asks(c, w, k - 1));
  }

  lemma OneFrameOn(c: Config, w: Plan, s0: Sys, n: nat, k: nat, t: int, tell: bool) returns (s: Sys)
    requires k == n + 1 && BothRest(c, w, s0, n) && GuestIs(s0.g, StatusAt(c, w, n, t, tell))
    requires (t >= 0 ==> n < t) && (Asks(c, w, n) ==> n < AskTarget(c, w))
    ensures BothRest(c, w, s, k) && GuestIs(s.g, StatusAt(c, w, k, t, tell))
    ensures Adds(Asks(c, w, n), tell, s0, s)
  {
    if tell && Asks(c, w, n) {
      s := FrameTold(c, w, s0, n, StatusAt(c, w, n, t, tell));
    } else {
      s := FrameUntold(c, w, s0, n, t);
    }
  }

  // ---- scenes ----

  lemma BootPlan(c: Config, w: Plan) returns (s: Sys)
    requires w.e == 0 && w.threshold > c.delay >= 1 && c.delay < RETAIN
    ensures BothRest(c, w, s, 0) && GuestIs(s.g, -1) && GotUpTo(s.h, |s.g.sent|) && GotUpTo(s.g, |s.h.sent|)
  {
    var p := Peer(true, c.delay, true, true, 0, 0, NO_FRAMES, NO_FRAMES,
                  Resync(true, w.threshold, false, 0, 0, false, 0), 0, 0, Meta(0, -1, -1, -1));
    var x := Side(p, Idle, [[]], [[]], [], 0, [], [], [], {});
    s := Sys(x, x.(peer := p.(isHost := false)));
    assert IsRun(c, [s]) && [s][|[s]| - 1] == s;
  }

  /** Both cross into the next scene. */
  lemma CrossBoth(c: Config, w: Plan, w': Plan, s0: Sys, n: nat) returns (s: Sys)
    requires BothRest(c, w, s0, n) && n >= c.minScene && w'.e == w.e + 1 && w'.threshold == w.threshold
    ensures BothRest(c, w', s, 0) && GuestIs(s.g, -1) && s.h.sent == s0.h.sent && s.g.sent == s0.g.sent
    ensures s.h.got == s0.h.got && s.g.got == s0.g.got && s.g.base == |s.g.got| && Past(s.h) == s0.h.hist
  {
    Acts(c, s0, true, Reset);
    s := s0.(h := Do(c, s0.h, s0.g, Reset));
    Acts(c, s, false, Reset);
    s := s.(g := Do(c, s.g, s.h, Reset));
  }
}
