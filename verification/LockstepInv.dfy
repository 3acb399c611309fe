/** What every reachable state of the two machines satisfies. */
module LockstepInv {
  import opened Wire
  import opened PeerSpec
  import opened Lockstep

  predicate Has(h: seq<seq<Rec>>, e: int, f: int) {
    0 <= e < |h| && 0 <= f < |h[e]|
  }

  /** A history only grows. */
  ghost predicate Extends(h: seq<seq<Rec>>, h': seq<seq<Rec>>) {
    && |h| <= |h'|
    && forall e, f :: Has(h, e, f) ==> Has(h', e, f) && h'[e][f] == h[e][f]
  }

  // ---- the parts of the invariant ----

  predicate ShapeOk(c: Config, x: Side) {
    && |x.hist| == |x.outs| == x.peer.epoch + 1
    && x.peer.delay == c.delay && 1 <= c.delay < RETAIN
    && NextFrame(x) == |x.outs[|x.outs| - 1]| + (if x.phase == Idle then 0 else 1)
    && (x.phase != Idle ==> x.peer.netFrame == NextFrame(x) - 1)
    && x.peer.connected == (x.phase != Dropped)
  }

  /** A slot of some map triple holds what a record says. */
  predicate Holds(b: Buffers, f: int, r: Rec) {
    && f in b.bits && b.bits[f] == ReadFromInt(r.word)
    && f in b.rng && b.rng[f] == r.seed
    && f in b.ctrl && b.ctrl[f] == r.igc
  }

  /** The self maps hold exactly the last RETAIN frames of the current scene, truthfully. */
  ghost predicate SelfOk(b: Buffers, h: seq<Rec>) {
    && (forall f :: f in b.bits ==> 0 <= f < |h| && |h| - RETAIN <= f)
    && b.rng.Keys == b.bits.Keys && b.ctrl.Keys == b.bits.Keys
    && forall f | 0 <= f < |h| && |h| - RETAIN <= f :: Holds(b, f, h[f])
  }

  predicate SlotOk(k: CtrlPack, i: int, h: seq<Rec>)
    requires k.Keys? && 0 <= i < WINDOW
  {
    var s := k.frame - i;
    if s < 0 then k.keys[i] == NO_KEYS && k.rng[i] == 0 && k.igc[i] == IgcNone
    else s < |h| && k.keys[i] == ReadFromInt(h[s].word) && k.rng[i] == h[s].seed && k.igc[i] == h[s].igc
  }

  ghost predicate Truthful(p: Pack, h: seq<seq<Rec>>) {
    p.ctrl.Keys? ==>
      && Has(h, p.epoch, p.ctrl.frame)
      && forall i | 0 <= i < WINDOW :: SlotOk(p.ctrl, i, h[p.epoch])
  }

  ghost predicate SentOk(x: Side) {
    forall k | 0 <= k < |x.sent| :: Truthful(x.sent[k].pack, x.hist)
  }

  /** Received slot s of scene at least e comes from the sender's scene e'. */
  predicate Origin(b: Buffers, e: int, h: seq<seq<Rec>>, s: int, e': int) {
    e <= e' && Has(h, e', s) && Holds(b, s, h[e'][s])
  }

  ghost predicate HeardOk(b: Buffers, e: int, h: seq<seq<Rec>>) {
    forall s :: s in b.bits && s >= 0 ==> exists e' :: Origin(b, e, h, s, e')
  }

  function OutFor(isHost: bool, ui: bool, mine: Rec, theirs: Rec): Out {
    MergeOut(isHost, ui, mine.word, theirs.word, mine.igc, theirs.igc, mine.seed, theirs.seed)
  }

  /** Frame f of scene e was completed with the pair both machines recorded at f - delay. */
  predicate OutOk(c: Config, x: Side, y: Side, e: int, f: int)
    requires 0 <= e < |x.outs| && 0 <= f < |x.outs[e]|
  {
    && Has(x.hist, e, f)
    && if f < c.delay then x.outs[e][f] == Early
       else
         && Has(x.hist, e, f - c.delay) && Has(y.hist, e, f - c.delay)
         && x.outs[e][f] == OutFor(x.peer.isHost, x.hist[e][f].ui, x.hist[e][f - c.delay], y.hist[e][f - c.delay])
  }

  ghost predicate DoneOk(c: Config, x: Side, y: Side) {
    forall e, f :: 0 <= e < |x.outs| && 0 <= f < |x.outs[e]| ==> OutOk(c, x, y, e, f)
  }

  ghost predicate ScenesOk(c: Config, x: Side) {
    forall e :: 0 <= e < |x.outs| - 1 && e < |x.hist| ==> |x.hist[e]| == |x.outs[e]| >= c.minScene
  }

  /** What one machine keeps and sends is what it recorded, and what it holds of the other is what
      that one recorded. */
  ghost predicate Sound(c: Config, x: Side, y: Side) {
    && ShapeOk(c, x)
    && SelfOk(x.peer.self, x.hist[x.peer.epoch])
    && SentOk(x)
    && HeardOk(x.peer.rcved, x.peer.epoch, y.hist)
  }

  ghost predicate Pair(c: Config, x: Side, y: Side) {
    Sound(c, x, y) && ScenesOk(c, x) && DoneOk(c, x, y)
  }

  ghost predicate Inv(c: Config, s: Sys) {
    && s.h.peer.isHost && !s.g.peer.isHost
    && Pair(c, s.h, s.g) && Pair(c, s.g, s.h)
  }

  // ---- how a history grows ----

  lemma AppendExtends(h: seq<seq<Rec>>, r: Rec)
    requires h != []
    ensures Extends(h, AppendLast(h, r))
  {
  }

  lemma TruthfulStays(p: Pack, h: seq<seq<Rec>>, h': seq<seq<Rec>>)
    requires Truthful(p, h) && Extends(h, h')
    ensures Truthful(p, h')
  {
    if p.ctrl.Keys? {
      assert Has(h', p.epoch, p.ctrl.frame);
      forall i | 0 <= i < WINDOW ensures SlotOk(p.ctrl, i, h'[p.epoch]) {
        assert SlotOk(p.ctrl, i, h[p.epoch]);
        var s := p.ctrl.frame - i;
        if s >= 0 { assert Has(h, p.epoch, s); }
      }
    }
  }

  lemma HeardStays(b: Buffers, e: int, h: seq<seq<Rec>>, h': seq<seq<Rec>>)
    requires HeardOk(b, e, h) && Extends(h, h')
    ensures HeardOk(b, e, h')
  {
    forall s | s in b.bits && s >= 0 ensures exists e' :: Origin(b, e, h', s, e') {
      var e' :| Origin(b, e, h, s, e');
      assert Origin(b, e, h', s, e');
    }
  }

  lemma DoneStays(c: Config, x: Side, y: Side, y': Side)
    requires DoneOk(c, x, y) && Extends(y.hist, y'.hist)
    ensures DoneOk(c, x, y')
  {
    forall e, f | 0 <= e < |x.outs| && 0 <= f < |x.outs[e]| ensures OutOk(c, x, y', e, f) {
      assert OutOk(c, x, y, e, f);
    }
  }

  lemma ActExtends(c: Config, x: Side, y: Side, a: Action)
    requires Can(c, x, y, a)
    ensures Extends(x.hist, Do(c, x, y, a).hist)
  {
    match a
    case Start(_, _, _, _, _, _) =>
      AppendExtends(x.hist, Rec(a.word, a.seed, a.igc, a.ui, x.peer.isSync));
    case _ =>
  }

  lemma ActKeepsTheirSound(c: Config, x: Side, y: Side, a: Action)
    requires Can(c, x, y, a) && Sound(c, y, x)
    ensures Sound(c, y, Do(c, x, y, a))
  {
    ActExtends(c, x, y, a);
    HeardStays(y.peer.rcved, y.peer.epoch, x.hist, Do(c, x, y, a).hist);
  }

  /** What y knows of x survives any action of x. */
  lemma ActKeepsTheirs(c: Config, x: Side, y: Side, a: Action)
    requires Can(c, x, y, a) && Pair(c, y, x)
    ensures Pair(c, y, Do(c, x, y, a))
  {
    ActKeepsTheirSound(c, x, y, a);
    ActExtends(c, x, y, a);
    DoneStays(c, y, x, Do(c, x, y, a));
  }

  // ---- receiving keeps what was heard truthful ----

  lemma DepositKeepsHeard(b: Buffers, e: int, h: seq<seq<Rec>>, p: Pack)
    requires HeardOk(b, e, h) && p.ctrl.Keys? && Truthful(p, h) && e <= p.epoch
    ensures HeardOk(Deposit(b, p.ctrl), e, h)
  {
    var b' := Deposit(b, p.ctrl);
    forall s | s in b'.bits && s >= 0 ensures exists e' :: Origin(b', e, h, s, e') {
      var k := p.ctrl.frame;
      if k - WINDOW < s <= k {
        assert SlotOk(p.ctrl, k - s, h[p.epoch]);
        assert Origin(b', e, h, s, p.epoch);
      } else {
        var e' :| Origin(b, e, h, s, e');
        assert Origin(b', e, h, s, e');
      }
    }
  }

  lemma ReceiveKeepsHeard(p: Peer, a: Arrival, h: seq<seq<Rec>>)
    requires HeardOk(p.rcved, p.epoch, h) && Truthful(a.pack, h)
    ensures HeardOk(ReceiveOne(p, a).rcved, p.epoch, h)
  {
    if a.pack.ctrl.Keys? && p.epoch <= a.pack.epoch { DepositKeepsHeard(p.rcved, p.epoch, h, a.pack); }
  }

  lemma DeliverKeepsSound(c: Config, x: Side, y: Side, a: Action)
    requires a.Deliver? && Can(c, x, y, a) && Sound(c, x, y) && Sound(c, y, x)
    ensures Sound(c, Do(c, x, y, a), y)
  {
    var arr := Arrival(y.sent[a.i].pack, a.now);
    ReceiveFrame(x.peer, arr);
    assert Truthful(arr.pack, y.hist);
    ReceiveKeepsHeard(x.peer, arr, y.hist);
  }

  /** Completed frames depend only on the histories, the outputs and the role. */
  lemma DoneSame(c: Config, x: Side, x': Side, y: Side)
    requires DoneOk(c, x, y) && x'.outs == x.outs && Extends(x.hist, x'.hist) && x'.peer.isHost == x.peer.isHost
    ensures DoneOk(c, x', y)
  {
    forall e, f | 0 <= e < |x'.outs| && 0 <= f < |x'.outs[e]| ensures OutOk(c, x', y, e, f) {
      assert OutOk(c, x, y, e, f);
    }
  }

  // ---- sending is truthful ----

  lemma KeyPackTruthful(p: Peer, h: seq<seq<Rec>>, now: nat)
    requires |h| == p.epoch + 1 && h[p.epoch] != [] && SelfOk(p.self, h[p.epoch])
    ensures Truthful(KeyPack(p, |h[p.epoch]| - 1, now), h)
  {
    var cur := h[p.epoch];
    var k := KeyPack(p, |cur| - 1, now);
    forall i | 0 <= i < WINDOW ensures SlotOk(k.ctrl, i, cur) {
      var s := |cur| - 1 - i;
      if s >= 0 { assert Holds(p.self, s, cur[s]); }
    }
    assert Has(h, k.epoch, k.ctrl.frame);
  }

  lemma SentStays(x: Side, h': seq<seq<Rec>>)
    requires SentOk(x) && Extends(x.hist, h')
    ensures forall k | 0 <= k < |x.sent| :: Truthful(x.sent[k].pack, h')
  {
    forall k | 0 <= k < |x.sent| ensures Truthful(x.sent[k].pack, h') {
      TruthfulStays(x.sent[k].pack, x.hist, h');
    }
  }

  lemma RepingKeepsSound(c: Config, x: Side, y: Side, a: Action)
    requires a.Reping? && Can(c, x, y, a) && Sound(c, x, y)
    ensures Sound(c, Do(c, x, y, a), y)
  {
    KeyPackTruthful(x.peer, x.hist, a.now);
  }

  // ---- the top of a frame ----

  lemma RecordKeepsSelf(p: Peer, h: seq<Rec>, r: Rec)
    requires SelfOk(p.self, h)
    ensures SelfOk(Record(p, |h|, r.word, r.seed, r.igc).self, h + [r])
  {
    var b := Record(p, |h|, r.word, r.seed, r.igc).self;
    var h' := h + [r];
    forall f | 0 <= f < |h'| && |h'| - RETAIN <= f ensures Holds(b, f, h'[f]) {
      if f < |h| { assert Holds(p.self, f, h[f]); }
    }
  }

  lemma EraseKeepsHeard(b: Buffers, f: int, e: int, h: seq<seq<Rec>>)
    requires HeardOk(b, e, h)
    ensures HeardOk(EraseAt(b, f), e, h)
  {
    forall s | s in EraseAt(b, f).bits && s >= 0 ensures exists e' :: Origin(EraseAt(b, f), e, h, s, e') {
      var e' :| Origin(b, e, h, s, e');
      assert Origin(EraseAt(b, f), e, h, s, e');
    }
  }

  /** The parts of the core the invariant reads, at the end of the top of a frame. */
  lemma OpenedKeeps(c: Config, x: Side, y: Side, a: Action, r: Rec)
    requires a.Start? && Can(c, x, y, a) && Sound(c, x, y)
    requires r == Rec(a.word, a.seed, a.igc, a.ui, x.peer.isSync)
    ensures var q := Opened(x, y, a);
            && q.isHost == x.peer.isHost && q.delay == x.peer.delay && q.connected == x.peer.connected
            && q.epoch == x.peer.epoch && q.netFrame == NextFrame(x)
            && SelfOk(q.self, x.hist[x.peer.epoch] + [r])
            && HeardOk(q.rcved, q.epoch, y.hist)
  {
    var n := NextFrame(x);
    var p := x.peer.(netFrame := n);
    var arr := Arrivals(y, a.drained, a.now);
    var q := RunResync(p, n, a.ui, arr);
    ResyncFrame(p, n, a.ui, arr);
    RecordKeepsSelf(q, x.hist[x.peer.epoch], r);
    EraseKeepsHeard(q.rcved, n - RETAIN, x.peer.epoch, y.hist);
  }

  lemma StartKeepsSound(c: Config, x: Side, y: Side, a: Action)
    requires a.Start? && Can(c, x, y, a) && Sound(c, x, y)
    ensures Sound(c, Do(c, x, y, a), y)
  {
    var x' := Do(c, x, y, a);
    var r := Rec(a.word, a.seed, a.igc, a.ui, x.peer.isSync);
    OpenedKeeps(c, x, y, a, r);
    AppendExtends(x.hist, r);
    SentStays(x, x'.hist);
    KeyPackTruthful(x'.peer, x'.hist, a.now);
  }

  // ---- reading the delayed pair ----

  /** A machine a scene ahead of its peer is exactly one ahead and has not got past frame `delay`
      there, since that frame waits for the peer's first. */
  lemma AheadIsBlocked(c: Config, x: Side, y: Side)
    requires ShapeOk(c, x) && ShapeOk(c, y) && ScenesOk(c, y) && DoneOk(c, y, x)
    requires c.minScene > c.delay && y.peer.epoch > x.peer.epoch
    ensures y.peer.epoch == x.peer.epoch + 1 && NextFrame(y) <= c.delay + 1
  {
    var e := x.peer.epoch;
    assert |y.outs[e + 1]| > c.delay ==> OutOk(c, y, x, e + 1, c.delay);
  }

  /** The frame of x when y has finished x's scene: within delay + 1 of that scene's end. */
  lemma LaggardIsNearTheEnd(c: Config, x: Side, y: Side)
    requires ShapeOk(c, x) && ShapeOk(c, y) && ScenesOk(c, y) && DoneOk(c, y, x)
    requires c.minScene > c.delay && y.peer.epoch > x.peer.epoch
    ensures NextFrame(x) >= c.minScene - c.delay
  {
    var e := x.peer.epoch;
    assert OutOk(c, y, x, e, |y.outs[e]| - 1);
  }

  /** With scenes long enough, a slot the core is about to read was sent in this very scene. */
  lemma SlotIsOfThisScene(c: Config, x: Side, y: Side, e': int)
    requires Pair(c, x, y) && Pair(c, y, x) && c.minScene >= 3 * c.delay + 2
    requires x.phase == Waiting && NextFrame(x) - 1 >= c.delay
    requires Origin(x.peer.rcved, x.peer.epoch, y.hist, NextFrame(x) - 1 - c.delay, e')
    ensures e' == x.peer.epoch
  {
    if y.peer.epoch > x.peer.epoch {
      AheadIsBlocked(c, x, y);
      LaggardIsNearTheEnd(c, x, y);
    }
  }

  /** Reading slot f - delay when both maps hold what the histories say. */
  lemma ReadsTheRecordedPair(p: Peer, f: int, ui: bool, mine: Rec, theirs: Rec)
    requires f >= p.delay && Holds(p.self, f - p.delay, mine) && Holds(p.rcved, f - p.delay, theirs)
    ensures OutOf(p, f, ui) == OutFor(p.isHost, ui, mine, theirs)
  {
    WordRoundTrip(mine.word);
    WordRoundTrip(theirs.word);
  }

  /** Completing a frame changes no map that has the delayed slot already. */
  lemma TouchesNothing(p: Peer, f: int, ui: bool)
    requires Ready(p, f)
    requires f >= p.delay ==> f - p.delay in p.self.rng && f - p.delay in p.rcved.rng && f - p.delay in p.rcved.ctrl
    ensures Complete(p, f, ui).self == p.self && Complete(p, f, ui).rcved == p.rcved
  {
  }

  /** The pair is there and recorded; an earlier frame reads nothing. */
  lemma FinishReads(c: Config, x: Side, y: Side)
    requires Can(c, x, y, Finish) && Pair(c, x, y) && Pair(c, y, x) && c.minScene >= 3 * c.delay + 2
    ensures var f, e, d := NextFrame(x) - 1, x.peer.epoch, c.delay;
            f >= d ==> && Has(y.hist, e, f - d)
                       && Holds(x.peer.self, f - d, x.hist[e][f - d])
                       && Holds(x.peer.rcved, f - d, y.hist[e][f - d])
  {
    var f, e, d := NextFrame(x) - 1, x.peer.epoch, c.delay;
    if f >= d {
      var e' :| Origin(x.peer.rcved, e, y.hist, f - d, e');
      SlotIsOfThisScene(c, x, y, e');
    }
  }

  /** What completing a frame returns, over two lists of recorded frames. */
  lemma CompleteReads(p: Peer, f: nat, ui: bool, mine: seq<Rec>, theirs: seq<Rec>)
    requires f < |mine| && p.delay >= 1
    requires f >= p.delay ==> f - p.delay < |theirs|
    requires f >= p.delay ==> Holds(p.self, f - p.delay, mine[f - p.delay])
    requires f >= p.delay ==> Holds(p.rcved, f - p.delay, theirs[f - p.delay])
    ensures OutOf(p, f, ui) == if f < p.delay then Early
                               else OutFor(p.isHost, ui, mine[f - p.delay], theirs[f - p.delay])
  {
    if f >= p.delay { ReadsTheRecordedPair(p, f, ui, mine[f - p.delay], theirs[f - p.delay]); }
  }

  /** The same, of the frame a machine finishes. */
  lemma FinishLeaves(c: Config, x: Side, y: Side)
    requires Can(c, x, y, Finish) && Pair(c, x, y) && Pair(c, y, x) && c.minScene >= 3 * c.delay + 2
    ensures var f, e, d, ui := NextFrame(x) - 1, x.peer.epoch, c.delay, CurUi(x);
            if f < d then OutOf(x.peer, f, ui) == Early
               else Has(y.hist, e, f - d)
                    && OutOf(x.peer, f, ui) == OutFor(x.peer.isHost, ui, x.hist[e][f - d], y.hist[e][f - d])
  {
    var f, e := NextFrame(x) - 1, x.peer.epoch;
    FinishReads(c, x, y);
    var theirs := if f < c.delay then [] else y.hist[e];
    CompleteReads(x.peer, f, CurUi(x), x.hist[e], theirs);
  }

  lemma CompleteFrame(p: Peer, f: int, ui: bool)
    requires Ready(p, f)
    ensures var q := Complete(p, f, ui);
            q == p.(self := q.self, rcved := q.rcved, isSync := q.isSync, lastP1 := q.lastP1, lastP2 := q.lastP2)
  {
  }

  lemma FinishKeepsSound(c: Config, x: Side, y: Side, a: Action)
    requires a.Finish? && Can(c, x, y, a) && Sound(c, x, y)
    ensures Sound(c, Do(c, x, y, a), y)
  {
    var f, d := NextFrame(x) - 1, c.delay;
    if f >= d {
      assert Holds(x.peer.self, f - d, x.hist[x.peer.epoch][f - d]);
      var e' :| Origin(x.peer.rcved, x.peer.epoch, y.hist, f - d, e');
    }
    TouchesNothing(x.peer, f, CurUi(x));
    CompleteFrame(x.peer, f, CurUi(x));
    FinishShape(c, x, y);
  }

  lemma FinishShape(c: Config, x: Side, y: Side)
    requires Can(c, x, y, Finish) && ShapeOk(c, x)
    ensures ShapeOk(c, Do(c, x, y, Finish))
  {
    CompleteFrame(x.peer, NextFrame(x) - 1, CurUi(x));
  }

  lemma FinishKeepsDone(c: Config, x: Side, y: Side, a: Action)
    requires a.Finish? && Can(c, x, y, a) && Pair(c, x, y) && Pair(c, y, x) && c.minScene >= 3 * c.delay + 2
    ensures DoneOk(c, Do(c, x, y, a), y) && ScenesOk(c, Do(c, x, y, a))
  {
    FinishKeepsOuts(c, x, y);
    FinishKeepsScenes(c, x, y);
  }

  lemma FinishKeepsOuts(c: Config, x: Side, y: Side)
    requires Can(c, x, y, Finish) && Pair(c, x, y) && Pair(c, y, x) && c.minScene >= 3 * c.delay + 2
    ensures DoneOk(c, Do(c, x, y, Finish), y)
  {
    FinishFits(c, x, y);
    FinishAppends(c, x, y);
    FinishAdds(c, x, Do(c, x, y, Finish), y, OutOf(x.peer, NextFrame(x) - 1, CurUi(x)));
  }

  lemma FinishFits(c: Config, x: Side, y: Side)
    requires Can(c, x, y, Finish) && Pair(c, x, y) && Pair(c, y, x) && c.minScene >= 3 * c.delay + 2
    ensures var f, e, d := NextFrame(x) - 1, x.peer.epoch, c.delay;
            var out := OutOf(x.peer, f, CurUi(x));
            && f == |x.outs[e]|
            && if f < d then out == Early
               else Has(y.hist, e, f - d)
                    && out == OutFor(x.peer.isHost, x.hist[e][f].ui, x.hist[e][f - d], y.hist[e][f - d])
  {
    FinishLeaves(c, x, y);
  }

  lemma FinishAppends(c: Config, x: Side, y: Side)
    requires Can(c, x, y, Finish)
    ensures var x' := Do(c, x, y, Finish);
            && x'.hist == x.hist && x'.peer.isHost == x.peer.isHost
            && x'.outs == AppendLast(x.outs, OutOf(x.peer, NextFrame(x) - 1, CurUi(x)))
  {
    CompleteFrame(x.peer, NextFrame(x) - 1, CurUi(x));
  }

  lemma FinishKeepsScenes(c: Config, x: Side, y: Side)
    requires Can(c, x, y, Finish) && ShapeOk(c, x) && ScenesOk(c, x)
    ensures ScenesOk(c, Do(c, x, y, Finish))
  {
  }

  lemma FinishAdds(c: Config, x: Side, x': Side, y: Side, out: Out)
    requires DoneOk(c, x, y) && ShapeOk(c, x) && NextFrame(x) > 0
    requires NextFrame(x) - 1 == |x.outs[x.peer.epoch]|
    requires x'.hist == x.hist && x'.peer.isHost == x.peer.isHost && x'.outs == AppendLast(x.outs, out)
    requires var f, e, d := NextFrame(x) - 1, x.peer.epoch, c.delay;
             if f < d then out == Early
             else Has(y.hist, e, f - d)
                  && out == OutFor(x.peer.isHost, x.hist[e][f].ui, x.hist[e][f - d], y.hist[e][f - d])
    ensures DoneOk(c, x', y)
  {
    var f, e := NextFrame(x) - 1, x.peer.epoch;
    forall e1, f1 | 0 <= e1 < |x'.outs| && 0 <= f1 < |x'.outs[e1]| ensures OutOk(c, x', y, e1, f1) {
      if e1 < e || f1 < f { assert OutOk(c, x, y, e1, f1); }
    }
  }

  lemma ResetKeepsSound(c: Config, x: Side, y: Side, a: Action)
    requires a.Reset? && Can(c, x, y, a) && Sound(c, x, y)
    ensures Sound(c, Do(c, x, y, a), y)
  {
    SentStays(x, Do(c, x, y, a).hist);
  }

  lemma ResetKeepsDone(c: Config, x: Side, y: Side, a: Action)
    requires a.Reset? && Can(c, x, y, a) && Pair(c, x, y)
    ensures DoneOk(c, Do(c, x, y, a), y) && ScenesOk(c, Do(c, x, y, a))
  {
    var x' := Do(c, x, y, a);
    forall e, f | 0 <= e < |x'.outs| && 0 <= f < |x'.outs[e]| ensures OutOk(c, x', y, e, f) {
      assert OutOk(c, x, y, e, f);
    }
  }

  /** Truthfulness and retention do not depend on what is read, nor on how long scenes last. */
  lemma ActKeepsSound(c: Config, x: Side, y: Side, a: Action)
    requires Can(c, x, y, a) && Sound(c, x, y) && Sound(c, y, x)
    ensures Sound(c, Do(c, x, y, a), y)
  {
    match a
    case Start(_, _, _, _, _, _) => StartKeepsSound(c, x, y, a);
    case Deliver(_, _) => DeliverKeepsSound(c, x, y, a);
    case Reping(_) => RepingKeepsSound(c, x, y, a);
    case Finish => FinishKeepsSound(c, x, y, a);
    case Reset => ResetKeepsSound(c, x, y, a);
    case Timeout =>
    case Lose(_) =>
  }

  lemma ActKeepsDone(c: Config, x: Side, y: Side, a: Action)
    requires Can(c, x, y, a) && Pair(c, x, y) && Pair(c, y, x) && c.minScene >= 3 * c.delay + 2
    ensures DoneOk(c, Do(c, x, y, a), y) && ScenesOk(c, Do(c, x, y, a))
  {
    if a.Finish? {
      FinishKeepsDone(c, x, y, a);
    } else if a.Reset? {
      ResetKeepsDone(c, x, y, a);
    } else {
      OthersKeepDone(c, x, y, a);
    }
  }

  lemma OthersKeepDone(c: Config, x: Side, y: Side, a: Action)
    requires Can(c, x, y, a) && Pair(c, x, y) && !a.Finish? && !a.Reset?
    ensures DoneOk(c, Do(c, x, y, a), y) && ScenesOk(c, Do(c, x, y, a))
  {
    ActKeepsRole(c, x, y, a);
    ActExtends(c, x, y, a);
    DoneSame(c, x, Do(c, x, y, a), y);
  }

  lemma ActKeepsRole(c: Config, x: Side, y: Side, a: Action)
    requires Can(c, x, y, a)
    ensures Do(c, x, y, a).peer.isHost == x.peer.isHost
  {
    match a
    case Start(_, _, ui, _, drained, now) =>
      ResyncFrame(x.peer.(netFrame := NextFrame(x)), NextFrame(x), ui, Arrivals(y, drained, now));
    case Deliver(i, now) => ReceiveFrame(x.peer, Arrival(y.sent[i].pack, now));
    case _ =>
  }

  lemma ActKeepsMine(c: Config, x: Side, y: Side, a: Action)
    requires Can(c, x, y, a) && Pair(c, x, y) && Pair(c, y, x) && c.minScene >= 3 * c.delay + 2
    ensures Pair(c, Do(c, x, y, a), y)
  {
    ActKeepsSound(c, x, y, a);
    ActKeepsDone(c, x, y, a);
  }
}
