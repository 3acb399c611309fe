/** What a machine says of itself between its steps: the frame it is at, how far ahead the realignment
    is that it is armed for, and the pair by player it returned last. */
module Standing {
  import opened Merge
  import opened PeerSpec
  import opened Lockstep

  /** The pair of the last frame that returned one, in whatever scene; none yet is no keys. */
  function LastIn(outs: seq<Out>, before: (Word, Word)): (Word, Word) {
    if outs == [] then before
    else
      match outs[|outs| - 1]
      case Early => LastIn(outs[..|outs| - 1], before)
      case Merged(_, _, p1, p2, _) => (p1, p2)
  }

  function LastPair(outs: seq<seq<Out>>): (Word, Word) {
    if outs == [] then (0, 0) else LastIn(outs[|outs| - 1], LastPair(outs[..|outs| - 1]))
  }

  /** The last frame it started was in play, with resync on and the link up. */
  predicate InPlay(x: Side)
    requires x.hist != []
  {
    x.peer.resync.enable && x.phase != Dropped && NextFrame(x) > 0 && !CurUi(x)
  }

  predicate Stands(c: Config, x: Side) {
    && x.hist != [] && |x.outs| == |x.hist| && x.peer.delay == c.delay >= 1
    && x.peer.netFrame == (if NextFrame(x) == 0 then 0 else NextFrame(x) - 1)
    && (x.peer.resync.trigger ==> x.peer.resync.stageFrame <= x.peer.netFrame + 2 * c.delay + 2)
    && (x.peer.resync.trigger && InPlay(x) ==> x.peer.resync.stageFrame > x.peer.netFrame)
    && x.peer.connected == (x.phase != Dropped)
    && (x.peer.lastP1, x.peer.lastP2) == if x.phase == Dropped then (0, 0) else LastPair(x.outs)
  }

  lemma StartStands(c: Config, x: Side, y: Side, a: Action)
    requires Stands(c, x) && Can(c, x, y, a) && a.Start?
    ensures Stands(c, Do(c, x, y, a))
  {
    var n, x' := NextFrame(x), Do(c, x, y, a);
    TopStands(x.peer.(netFrame := n), n, a.ui, Arrivals(y, a.drained, a.now));
    assert NextFrame(x') == n + 1 && CurUi(x') == a.ui;
  }

  lemma TopStands(p: Peer, n: int, ui: bool, drained: seq<Arrival>)
    requires p.delay >= 0 && (p.resync.trigger ==> p.resync.stageFrame <= n + 2 * p.delay + 2)
    ensures var q := RunResync(p, n, ui, drained);
            && q == p.(rcved := q.rcved, resync := q.resync, meta := q.meta, isSync := q.isSync)
            && q.resync.enable == p.resync.enable
            && (q.resync.trigger ==> q.resync.stageFrame <= n + 2 * p.delay + 2)
            && (q.resync.trigger && p.resync.enable && p.connected && !ui ==> q.resync.stageFrame > n)
  {
    ResyncFrame(p, n, ui, drained);
    ReceiveAllFrame(CountDesync(p), drained);
  }

  lemma DeliverStands(c: Config, x: Side, y: Side, a: Action)
    requires Stands(c, x) && Can(c, x, y, a) && a.Deliver?
    ensures Stands(c, Do(c, x, y, a))
  {
    ReceiveFrame(x.peer, Arrival(y.sent[a.i].pack, a.now));
  }

  lemma FinishStands(c: Config, x: Side, y: Side, a: Action)
    requires Stands(c, x) && Can(c, x, y, a) && a.Finish?
    ensures Stands(c, Do(c, x, y, a))
  {
    LastPairOn(x.outs, OutOf(x.peer, NextFrame(x) - 1, CurUi(x)));
  }

  lemma LastPairOn(outs: seq<seq<Out>>, out: Out)
    requires outs != []
    ensures LastPair(AppendLast(outs, out)) == if out.Early? then LastPair(outs) else (out.p1, out.p2)
  {
    var last, more := |outs| - 1, AppendLast(outs, out);
    assert more[..last] == outs[..last];
    assert more[last][..|more[last]| - 1] == outs[last];
  }

  lemma ActStands(c: Config, x: Side, y: Side, a: Action)
    requires Stands(c, x) && Can(c, x, y, a)
    ensures Stands(c, Do(c, x, y, a))
  {
    match a
    case Start(_, _, _, _, _, _) => StartStands(c, x, y, a);
    case Deliver(_, _) => DeliverStands(c, x, y, a);
    case Finish => FinishStands(c, x, y, a);
    case Reset => ResetStands(c, x, y);
    case _ => OtherStands(c, x, y, a);
  }

  lemma ResetStands(c: Config, x: Side, y: Side)
    requires Stands(c, x) && Can(c, x, y, Reset)
    ensures Stands(c, Do(c, x, y, Reset))
  {
    assert Do(c, x, y, Reset).outs[..|x.outs|] == x.outs;
  }

  lemma OtherStands(c: Config, x: Side, y: Side, a: Action)
    requires Stands(c, x) && Can(c, x, y, a) && (a.Reping? || a.Timeout? || a.Lose?)
    ensures Stands(c, Do(c, x, y, a))
  {
  }

  /** Over every run from two machines at frame 0 that have returned nothing: the frame number is that
      of the current call, or of the last; an armed machine is armed for at most 2 * delay + 2 frames
      ahead, whatever requests arrived, and in play never for a frame that has gone by; and the pair by
      player is that of the last frame that returned one, and no keys once the link is dropped. */
  lemma {:induction false} RunStands(c: Config, t: seq<Sys>, host: bool)
    requires IsRun(c, t)
    requires var p := Me(t[0], host).peer; p.netFrame == 0 && p.lastP1 == p.lastP2 == 0
    ensures Stands(c, Me(t[|t| - 1], host))
  {
    if |t| == 1 {
      assert LastPair([[]]) == (0, 0);
    } else {
      LastStep(c, t);
      RunStands(c, t[..|t| - 1], host);
      var x, y, x' := Me(t[|t| - 2], host), Other(t[|t| - 2], host), Me(t[|t| - 1], host);
      if x' != x {
        var a :| Can(c, x, y, a) && x' == Do(c, x, y, a);
        ActStands(c, x, y, a);
      }
    }
  }
}
