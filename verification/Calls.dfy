/** Between the two levels: one call of the core, with its nested loops, is a sequence of the
    protocol's steps, between which the other machine goes on as it likes. So what holds of every
    reachable state holds before, during and after the calls of the code. */
module Calls {
  import opened Merge
  import opened Wire
  import opened PeerSpec
  import opened Lockstep
  import opened Session
  import opened Runs

  // ---- the other machine meanwhile ----

  ghost predicate PeerMoves(c: Config, host: bool, s: Sys, s': Sys) {
    Me(s', host) == Me(s, host) && Moves(c, Other(s, host), Me(s, host), Other(s', host))
  }

  ghost predicate IsPath(c: Config, host: bool, t: seq<Sys>) {
    t != [] && forall k {:trigger PeerMoves(c, host, t[k], t[k + 1])} | 0 <= k < |t| - 1 :: PeerMoves(c, host, t[k], t[k + 1])
  }

  /** The other machine takes any number of steps, this one none. */
  ghost predicate PeerGoesOn(c: Config, host: bool, s: Sys, s': Sys) {
    exists t :: IsPath(c, host, t) && t[0] == s && t[|t| - 1] == s'
  }

  lemma {:induction false} PathIsReachable(c: Config, host: bool, t: seq<Sys>)
    requires IsPath(c, host, t) && Reachable(c, t[0])
    ensures Reachable(c, t[|t| - 1]) && Me(t[|t| - 1], host) == Me(t[0], host)
  {
    if |t| > 1 {
      var u, last := t[..|t| - 1], |t| - 2;
      forall k | 0 <= k < |u| - 1 ensures PeerMoves(c, host, u[k], u[k + 1]) {
        assert PeerMoves(c, host, t[k], t[k + 1]);
      }
      PathIsReachable(c, host, u);
      assert PeerMoves(c, host, t[last], t[last + 1]);
      ReachStep(c, t[|t| - 2], t[|t| - 1]);
    }
  }

  lemma PeerStaysReachable(c: Config, host: bool, s: Sys, s': Sys)
    requires PeerGoesOn(c, host, s, s') && Reachable(c, s)
    ensures Reachable(c, s') && Me(s', host) == Me(s, host)
  {
    var t :| IsPath(c, host, t) && t[0] == s && t[|t| - 1] == s';
    PathIsReachable(c, host, t);
  }

  // ---- what the code does to its machine, piece by piece ----

  /** A receive, of the packets at these indices among the peer's, or a re-ping. */
  datatype Item = Polled(ks: seq<nat>, now: nat, at: nat) | Pinged(now: nat, at: nat)

  predicate HandedOver(y: Side, ks: seq<nat>) {
    forall k | 0 <= k < |ks| :: Deliverable(y, ks[k])
  }

  /** The network can hand over what an item polls, as the peer has sent it by then. */
  predicate ItemOk(y: Side, it: Item) {
    it.Polled? ==> HandedOver(y, it.ks)
  }

  function Pick(y: Side, ks: seq<nat>): seq<Pack>
    requires HandedOver(y, ks)
  {
    seq(|ks|, k requires 0 <= k < |ks| => y.sent[ks[k]].pack)
  }

  /** The item as the code sees it. */
  function EventAt(y: Side, it: Item): Event
    requires ItemOk(y, it)
  {
    match it
    case Polled(ks, now, at) => Came(Pick(y, ks), now, at)
    case Pinged(now, at) => Repinged(now, at)
  }

  function Took(x: Side, y: Side, it: Item): Side
    requires x.hist != [] && ItemOk(y, it)
  {
    OneEvent(x, EventAt(y, it), if it.Polled? then x.got + it.ks else x.got)
  }

  /** The pieces of a wait from s: ts[k] is the pair of machines just before piece k, the other one
      having gone on since the piece before, and us[k] just after it. */
  ghost predicate Interleaved(c: Config, host: bool, s: Sys, items: seq<Item>, ts: seq<Sys>, us: seq<Sys>) {
    |ts| == |us| == |items| && forall k | 0 <= k < |items| :: PieceOk(c, host, s, items, ts, us, k)
  }

  ghost predicate PieceOk(c: Config, host: bool, s: Sys, items: seq<Item>, ts: seq<Sys>, us: seq<Sys>, k: nat)
    requires k < |items| == |ts| == |us|
  {
    PieceAt(c, host, LastOf(s, us[..k]), items[k], ts[k], us[k])
  }

  ghost predicate PieceAt(c: Config, host: bool, s: Sys, it: Item, t: Sys, u: Sys) {
    && PeerGoesOn(c, host, s, t) && ItemOk(Other(t, host), it) && Me(t, host).hist != []
    && u == With(t, host, Took(Me(t, host), Other(t, host), it))
  }

  function LastOf(s: Sys, us: seq<Sys>): Sys {
    if us == [] then s else us[|us| - 1]
  }

  ghost predicate ItemsOk(host: bool, items: seq<Item>, ts: seq<Sys>) {
    |ts| == |items| && forall k | 0 <= k < |items| :: ItemOk(Other(ts[k], host), items[k])
  }

  function Events(host: bool, items: seq<Item>, ts: seq<Sys>): seq<Event>
    requires ItemsOk(host, items, ts)
  {
    seq(|items|, k requires 0 <= k < |items| => EventAt(Other(ts[k], host), items[k]))
  }

  function Msgs(packs: seq<Pack>, at: int): seq<Msg> {
    seq(|packs|, i requires 0 <= i < |packs| => Msg(packs[i], at))
  }

  lemma MsgsJoin(before: seq<Msg>, a: seq<Pack>, b: seq<Pack>, at: int)
    ensures (before + Msgs(a, at)) + Msgs(b, at) == before + Msgs(a + b, at)
  {
  }

  /** The slot was missing before each of the events. */
  ghost predicate Missing(p: Peer, f: int, evs: seq<Event>) {
    forall n | 0 <= n < |evs| :: !Ready(After(p, evs[..n]), f)
  }

  /** A machine after some events of its wait. */
  function Waited(x: Side, evs: seq<Event>, got: seq<nat>): Side
    requires x.hist != []
  {
    var f := NextFrame(x) - 1;
    x.(peer := After(x.peer, evs), got := got, sent := x.sent + Msgs(Emitted(x.peer, f, evs), f))
  }

  function OneEvent(x: Side, e: Event, got: seq<nat>): Side
    requires x.hist != []
  {
    match e
    case Came(batch, now, _) => x.(peer := ReceiveAll(x.peer, Stamped(batch, now)), got := got)
    case Repinged(now, _) =>
      x.(sent := x.sent + [Msg(KeyPack(x.peer, NextFrame(x) - 1, now), NextFrame(x) - 1)], got := got)
  }

  lemma WaitedMore(x: Side, evs: seq<Event>, e: Event, got0: seq<nat>, got: seq<nat>)
    requires x.hist != []
    ensures OneEvent(Waited(x, evs, got0), e, got) == Waited(x, evs + [e], got)
  {
    var f := NextFrame(x) - 1;
    assert (evs + [e])[..|evs|] == evs;
    if e.Repinged? {
      var pack := KeyPack(After(x.peer, evs), f, e.now);
      MsgsJoin(x.sent, Emitted(x.peer, f, evs), [pack], f);
      assert Msgs([pack], f) == [Msg(pack, f)];
    }
  }

  // ---- each piece is some steps of the protocol ----

  predicate InCall(x: Side) {
    x.phase == Waiting && x.hist != [] && |x.outs| == |x.hist| && NextFrame(x) > 0
  }

  /** The slot of the frame it is in is missing. */
  predicate Stalls(x: Side)
    requires x.hist != []
  {
    !Ready(x.peer, NextFrame(x) - 1)
  }

  /** A receive is a Deliver per packet. */
  lemma {:induction false} PollIsSteps(c: Config, host: bool, t: Sys, ks: seq<nat>, now: nat, at: nat)
    requires Reachable(c, t) && InCall(Me(t, host)) && HandedOver(Other(t, host), ks)
    ensures Reachable(c, With(t, host, Took(Me(t, host), Other(t, host), Polled(ks, now, at))))
  {
    var x, y := Me(t, host), Other(t, host);
    if ks == [] {
      assert Took(x, y, Polled(ks, now, at)) == x;
      assert With(t, host, x) == t;
    } else {
      var init, i := ks[..|ks| - 1], ks[|ks| - 1];
      PollIsSteps(c, host, t, init, now, at);
      var x1 := Took(x, y, Polled(init, now, at));
      var t1 := With(t, host, x1);
      Acts(c, t1, host, Deliver(i, now));
      OneMorePacket(x, y, ks, now, at);
      assert With(t1, host, Do(c, x1, y, Deliver(i, now))) == With(t, host, Took(x, y, Polled(ks, now, at)));
    }
  }

  lemma OneMorePacket(x: Side, y: Side, ks: seq<nat>, now: nat, at: nat)
    requires x.hist != [] && HandedOver(y, ks) && ks != []
    ensures var x1 := Took(x, y, Polled(ks[..|ks| - 1], now, at));
            Took(x, y, Polled(ks, now, at))
            == x1.(peer := ReceiveOne(x1.peer, Arrival(y.sent[ks[|ks| - 1]].pack, now)), got := x1.got + [ks[|ks| - 1]])
  {
    var n := |ks| - 1;
    assert Stamped(Pick(y, ks), now)[..n] == Stamped(Pick(y, ks[..n]), now);
    assert x.got + ks == (x.got + ks[..n]) + [ks[n]];
  }

  lemma ItemIsSteps(c: Config, host: bool, t: Sys, it: Item)
    requires Reachable(c, t) && InCall(Me(t, host)) && ItemOk(Other(t, host), it)
    requires it.Pinged? ==> Stalls(Me(t, host))
    ensures Reachable(c, With(t, host, Took(Me(t, host), Other(t, host), it)))
  {
    match it
    case Polled(ks, now, at) => PollIsSteps(c, host, t, ks, now, at);
    case Pinged(now, _) => Acts(c, t, host, Reping(now));
  }

  /** Re-pings go out only while the slot is missing. */
  ghost predicate PingsWhileMissing(p: Peer, f: int, evs: seq<Event>) {
    forall n | 0 <= n < |evs| :: evs[n].Repinged? ==> !Ready(After(p, evs[..n]), f)
  }

  lemma PingsBefore(p: Peer, f: int, evs: seq<Event>)
    requires PingsWhileMissing(p, f, evs) && evs != []
    ensures PingsWhileMissing(p, f, evs[..|evs| - 1])
    ensures evs[|evs| - 1].Repinged? ==> !Ready(After(p, evs[..|evs| - 1]), f)
  {
    var init := evs[..|evs| - 1];
    forall n | 0 <= n < |init| && init[n].Repinged? ensures !Ready(After(p, init[..n]), f) {
      assert init[..n] == evs[..n] && init[n] == evs[n];
    }
  }

  lemma InterleavedBefore(c: Config, host: bool, s: Sys, items: seq<Item>, ts: seq<Sys>, us: seq<Sys>, m: nat)
    requires Interleaved(c, host, s, items, ts, us) && m <= |items|
    ensures Interleaved(c, host, s, items[..m], ts[..m], us[..m])
  {
    forall k | 0 <= k < m ensures PieceOk(c, host, s, items[..m], ts[..m], us[..m], k) {
      assert PieceOk(c, host, s, items, ts, us, k);
      assert us[..m][..k] == us[..k];
    }
  }

  lemma EventsBefore(host: bool, items: seq<Item>, ts: seq<Sys>)
    requires ItemsOk(host, items, ts) && items != []
    ensures var m := |items| - 1;
            && ItemsOk(host, items[..m], ts[..m])
            && Events(host, items, ts) == Events(host, items[..m], ts[..m]) + [EventAt(Other(ts[m], host), items[m])]
            && Events(host, items, ts)[..m] == Events(host, items[..m], ts[..m])
  {
  }

  /** Whatever the other machine does between the pieces, the waiting one goes through the events. */
  lemma {:induction false} WaitUnfolds(c: Config, host: bool, s: Sys, items: seq<Item>, ts: seq<Sys>, us: seq<Sys>)
    requires Reachable(c, s) && InCall(Me(s, host)) && Interleaved(c, host, s, items, ts, us) && ItemsOk(host, items, ts)
    requires PingsWhileMissing(Me(s, host).peer, NextFrame(Me(s, host)) - 1, Events(host, items, ts))
    ensures var v := LastOf(s, us);
            Reachable(c, v) && Me(v, host) == Waited(Me(s, host), Events(host, items, ts), Me(v, host).got)
  {
    if items != [] {
      var m := |items| - 1;
      InterleavedBefore(c, host, s, items, ts, us, m);
      EventsBefore(host, items, ts);
      PingsBefore(Me(s, host).peer, NextFrame(Me(s, host)) - 1, Events(host, items, ts));
      WaitUnfolds(c, host, s, items[..m], ts[..m], us[..m]);
      LastItem(c, host, s, items, ts, us);
    }
  }

  /** The last piece, when the ones before it are done. */
  lemma LastItem(c: Config, host: bool, s: Sys, items: seq<Item>, ts: seq<Sys>, us: seq<Sys>)
    requires items != [] && InCall(Me(s, host)) && Interleaved(c, host, s, items, ts, us) && ItemsOk(host, items, ts)
    requires ItemsOk(host, items[..|items| - 1], ts[..|items| - 1])
    requires PingsWhileMissing(Me(s, host).peer, NextFrame(Me(s, host)) - 1, Events(host, items, ts))
    requires var m := |items| - 1;
             var v := LastOf(s, us[..m]);
             Reachable(c, v) && Me(v, host) == Waited(Me(s, host), Events(host, items[..m], ts[..m]), Me(v, host).got)
    ensures var v := LastOf(s, us);
            Reachable(c, v) && Me(v, host) == Waited(Me(s, host), Events(host, items, ts), Me(v, host).got)
  {
    var m := |items| - 1;
    var x, evs, got := Me(s, host), Events(host, items[..m], ts[..m]), Me(LastOf(s, us[..m]), host).got;
    assert PieceOk(c, host, s, items, ts, us, m);
    EventsBefore(host, items, ts);
    PingsBefore(x.peer, NextFrame(x) - 1, Events(host, items, ts));
    WaitedStays(x, evs, got);
    NextPiece(c, host, x, evs, got, LastOf(s, us[..m]), items[m], ts[m], us[m]);
  }

  lemma PieceIsSteps(c: Config, host: bool, s: Sys, it: Item, t: Sys, u: Sys)
    requires Reachable(c, s) && InCall(Me(s, host)) && PieceAt(c, host, s, it, t, u)
    requires it.Pinged? ==> Stalls(Me(s, host))
    ensures Reachable(c, u) && Me(u, host) == Took(Me(s, host), Other(t, host), it)
  {
    PeerStaysReachable(c, host, s, t);
    ItemIsSteps(c, host, t, it);
  }

  lemma NextPiece(c: Config, host: bool, x: Side, evs: seq<Event>, got: seq<nat>, s: Sys, it: Item, t: Sys, u: Sys)
    requires InCall(x) && Reachable(c, s) && Me(s, host) == Waited(x, evs, got) && PieceAt(c, host, s, it, t, u)
    requires it.Pinged? ==> Stalls(Waited(x, evs, got))
    ensures Reachable(c, u)
    ensures Me(u, host) == Waited(x, evs + [EventAt(Other(t, host), it)], Me(u, host).got)
  {
    WaitedStays(x, evs, got);
    PieceIsSteps(c, host, s, it, t, u);
    NextOnSide(x, evs, Other(t, host), it, got);
  }

  lemma WaitedStays(x: Side, evs: seq<Event>, got: seq<nat>)
    requires InCall(x)
    ensures var y := Waited(x, evs, got);
            && InCall(y) && NextFrame(y) == NextFrame(x) && CurUi(y) == CurUi(x) && y.peer == After(x.peer, evs)
            && Stalls(y) == !Ready(After(x.peer, evs), NextFrame(x) - 1)
  {
  }

  lemma NextOnSide(x: Side, evs: seq<Event>, y: Side, it: Item, got: seq<nat>)
    requires InCall(x) && ItemOk(y, it)
    ensures var x2 := Took(Waited(x, evs, got), y, it); x2 == Waited(x, evs + [EventAt(y, it)], x2.got)
  {
    WaitedMore(x, evs, EventAt(y, it), got, if it.Polled? then got + it.ks else got);
  }

  lemma DrainedOnlyIfFired(p: Peer, f: int, ui: bool, a: seq<Arrival>, b: seq<Arrival>)
    requires Fires(p, f, ui) ==> a == b
    ensures RunResync(p, f, ui, a) == RunResync(p, f, ui, b)
  {
  }

  /** The state after the top of a frame, of a Start that drains what the call polls. */
  lemma StartOpens(x: Side, y: Side, a: Action, inbox: seq<Option<Pack>>)
    requires x.hist != [] && a.Start? && a.igc == IgcNone && forall k | 0 <= k < |a.drained| :: a.drained[k] < |y.sent|
    requires Fires(x.peer.(netFrame := NextFrame(x)), NextFrame(x), a.ui) ==>
               && |a.drained| == |Batch(inbox)|
               && forall k | 0 <= k < |a.drained| :: y.sent[a.drained[k]].pack == Batch(inbox)[k]
    ensures Opened(x, y, a) == Opens(x.peer, NextFrame(x), a.ui, a.word, a.seed, inbox, a.now).begun
  {
    var p, n := x.peer.(netFrame := NextFrame(x)), NextFrame(x);
    assert Fires(p, n, a.ui) ==> Arrivals(y, a.drained, a.now) == Stamped(Batch(inbox), a.now);
    DrainedOnlyIfFired(p, n, a.ui, Arrivals(y, a.drained, a.now), Stamped(Batch(inbox), a.now));
  }

  lemma SentAtTheTop(x: Side, y: Side, a: Action, o: Opening)
    requires x.hist != [] && a.Start? && forall k | 0 <= k < |a.drained| :: a.drained[k] < |y.sent|
    requires var n := NextFrame(x);
             var p := x.peer.(netFrame := n);
             o.sent == (if Announces(p, n, a.ui) then [ResyncPack(p, Target(p, n), a.now)] else [])
                       + [KeyPack(Opened(x, y, a), n, a.now)]
    ensures DoStart(x, y, a).sent == x.sent + Msgs(o.sent, NextFrame(x))
  {
  }

  /** What a call returned, and the fields it left, are those of a completed frame. */
  predicate Says(out: Out, word: Word, ctrl: Igc, r: Peer) {
    if out == Early then word == 0 && ctrl == IgcNone
    else out == Merged(word, ctrl, r.lastP1, r.lastP2, r.isSync)
  }

  /** A call completes its frame and returns it, or drops the link and returns nothing. */
  ghost predicate HowItEnded(outs: seq<seq<Out>>, x': Side, word: Word, ctrl: Igc)
    requires outs != []
  {
    if x'.phase == Dropped then x'.outs == outs && word == 0 && ctrl == IgcNone && !x'.peer.connected
    else x'.phase == Idle && exists out :: x'.outs == AppendLast(outs, out) && Says(out, word, ctrl, x'.peer)
  }

  /** The machine after the top of a frame. */
  predicate Begun(x: Side, x': Side, o: Opening, ui: bool, local: Word, seed: Word)
    requires x.hist != []
  {
    x' == x.(peer := o.begun, phase := Waiting, sent := x.sent + Msgs(o.sent, NextFrame(x)),
             hist := AppendLast(x.hist, Rec(local, seed, IgcNone, ui, x.peer.isSync)),
             got := x'.got, fired := x'.fired, inits := x'.inits)
  }

  /** A Start that drains what the realigning call polls, and nothing if it does not realign. */
  predicate Drains(x: Side, y: Side, ui: bool, ks: seq<nat>, inbox: seq<Option<Pack>>)
    requires x.hist != []
  {
    && HandedOver(y, ks)
    && if Fires(x.peer.(netFrame := NextFrame(x)), NextFrame(x), ui) then Pick(y, ks) == Batch(inbox) else ks == []
  }

  lemma TopIsStart(c: Config, x: Side, y: Side, ui: bool, local: Word, seed: Word, ks: seq<nat>,
                   inbox: seq<Option<Pack>>, now: nat)
    requires x.phase == Idle && x.hist != [] && |x.outs| == |x.hist| && Drains(x, y, ui, ks, inbox)
    ensures Can(c, x, y, Start(local, seed, ui, IgcNone, ks, now))
    ensures Begun(x, Do(c, x, y, Start(local, seed, ui, IgcNone, ks, now)),
                  Opens(x.peer, NextFrame(x), ui, local, seed, inbox, now), ui, local, seed)
  {
    var a := Start(local, seed, ui, IgcNone, ks, now);
    StartOpens(x, y, a, inbox);
    SentAtTheTop(x, y, a, Opens(x.peer, NextFrame(x), ui, local, seed, inbox, now));
  }

  lemma AppendedFrame(x: Side, x': Side, r: Rec)
    requires x.hist != [] && x'.hist == AppendLast(x.hist, r)
    ensures NextFrame(x') == NextFrame(x) + 1 && CurUi(x') == r.ui
  {
  }

  function EndOf(x: Side): Action
    requires x.hist != []
  {
    if Stalls(x) then Timeout else Finish
  }

  /** The frame a machine is in ends like this. */
  predicate EndsSo(x: Side, r: Peer, word: Word, ctrl: Igc)
    requires InCall(x)
  {
    Ends(x.peer, r, NextFrame(x) - 1, CurUi(x), word, ctrl)
  }

  lemma FinishOnSide(c: Config, x: Side, y: Side, r: Peer, word: Word, ctrl: Igc)
    requires InCall(x) && EndsSo(x, r, word, ctrl) && !Stalls(x)
    ensures Can(c, x, y, Finish) && x.outs != []
    ensures var x' := Do(c, x, y, Finish);
            x' == x.(peer := r, phase := Idle, outs := x'.outs) && HowItEnded(x.outs, x', word, ctrl)
  {
    assert Do(c, x, y, Finish).outs == AppendLast(x.outs, OutOf(x.peer, NextFrame(x) - 1, CurUi(x)));
  }

  lemma TimeoutOnSide(c: Config, x: Side, y: Side, r: Peer, word: Word, ctrl: Igc)
    requires InCall(x) && EndsSo(x, r, word, ctrl) && Stalls(x)
    ensures Can(c, x, y, Timeout) && x.outs != []
    ensures var x' := Do(c, x, y, Timeout);
            x' == x.(peer := r, phase := Dropped) && HowItEnded(x.outs, x', word, ctrl)
  {
  }

  lemma EndOnSide(c: Config, x: Side, y: Side, r: Peer, word: Word, ctrl: Igc)
    requires InCall(x) && EndsSo(x, r, word, ctrl)
    ensures Can(c, x, y, EndOf(x)) && x.outs != []
    ensures var x' := Do(c, x, y, EndOf(x));
            x' == x.(peer := r, phase := x'.phase, outs := x'.outs) && HowItEnded(x.outs, x', word, ctrl)
  {
    if Stalls(x) { TimeoutOnSide(c, x, y, r, word, ctrl); } else { FinishOnSide(c, x, y, r, word, ctrl); }
  }

  lemma EndIsAStep(c: Config, host: bool, v: Sys, r: Peer, word: Word, ctrl: Igc) returns (s': Sys)
    requires Reachable(c, v) && InCall(Me(v, host)) && EndsSo(Me(v, host), r, word, ctrl)
    ensures Reachable(c, s') && Other(s', host) == Other(v, host)
    ensures var x, x' := Me(v, host), Me(s', host);
            x' == x.(peer := r, phase := x'.phase, outs := x'.outs) && x.outs != [] && HowItEnded(x.outs, x', word, ctrl)
  {
    EndOnSide(c, Me(v, host), Other(v, host), r, word, ctrl);
    Acts(c, v, host, EndOf(Me(v, host)));
    s' := With(v, host, Do(c, Me(v, host), Other(v, host), EndOf(Me(v, host))));
  }

  /** All that is sent by the end of a wait from p on, in the frame x is in. */
  function SentFrom(x: Side, p: Peer, evs: seq<Event>): seq<Msg>
    requires x.hist != []
  {
    x.sent + Msgs(Emitted(p, NextFrame(x) - 1, evs), NextFrame(x) - 1)
  }

  /** The wait of the frame x is in, from p on, and its end. */
  ghost predicate WaitsSo(x: Side, p: Peer, evs: seq<Event>, r: Peer, word: Word, ctrl: Igc)
    requires InCall(x)
  {
    Missing(p, NextFrame(x) - 1, evs) && Ends(After(p, evs), r, NextFrame(x) - 1, CurUi(x), word, ctrl)
  }

  /** The first receive of a call and the events of its wait, and then the end. */
  lemma WaitAndEnd(c: Config, host: bool, s: Sys, first: Item, t0: Sys, u0: Sys, items: seq<Item>, ts: seq<Sys>,
                   us: seq<Sys>, v: Sys, r: Peer, word: Word, ctrl: Igc) returns (s': Sys)
    requires Reachable(c, s) && InCall(Me(s, host)) && first.Polled? && PieceAt(c, host, s, first, t0, u0)
    requires Interleaved(c, host, u0, items, ts, us) && ItemsOk(host, items, ts) && PeerGoesOn(c, host, LastOf(u0, us), v)
    requires var x := Me(s, host);
             WaitsSo(x, ReceiveAll(x.peer, Stamped(Pick(Other(t0, host), first.ks), first.now)),
                     Events(host, items, ts), r, word, ctrl)
    ensures Reachable(c, s') && Other(s', host) == Other(v, host)
    ensures var x, x' := Me(s, host), Me(s', host);
            var p := ReceiveAll(x.peer, Stamped(Pick(Other(t0, host), first.ks), first.now));
            && x'.peer == r && x'.hist == x.hist && x'.sent == SentFrom(x, p, Events(host, items, ts))
            && x.outs != [] && HowItEnded(x.outs, x', word, ctrl)
  {
    FirstPoll(c, host, s, first, t0, u0);
    var x, evs := Me(s, host), Events(host, items, ts);
    var p := ReceiveAll(x.peer, Stamped(Pick(Other(t0, host), first.ks), first.now));
    HeardIsTheSameFrame(x, p, Me(u0, host).got, evs);
    SoItGoes(x, p, Me(u0, host).got, evs, r, word, ctrl);
    s' := RestAndEnd(c, host, u0, items, ts, us, v, r, word, ctrl);
  }

  lemma FirstPoll(c: Config, host: bool, s: Sys, first: Item, t0: Sys, u0: Sys)
    requires Reachable(c, s) && InCall(Me(s, host)) && first.Polled? && PieceAt(c, host, s, first, t0, u0)
    ensures Reachable(c, u0)
    ensures var x := Me(s, host);
            Me(u0, host) == x.(peer := ReceiveAll(x.peer, Stamped(Pick(Other(t0, host), first.ks), first.now)),
                               got := Me(u0, host).got)
  {
    PeerStaysReachable(c, host, s, t0);
    ItemIsSteps(c, host, t0, first);
  }

  /** How the rest of a call goes on from x: the events, and the end they lead to. */
  ghost predicate GoesSo(x: Side, evs: seq<Event>, r: Peer, word: Word, ctrl: Igc)
    requires InCall(x)
  {
    && PingsWhileMissing(x.peer, NextFrame(x) - 1, evs)
    && Ends(After(x.peer, evs), r, NextFrame(x) - 1, CurUi(x), word, ctrl)
  }

  lemma HeardIsTheSameFrame(x: Side, p: Peer, got: seq<nat>, evs: seq<Event>)
    requires InCall(x)
    ensures var x1 := x.(peer := p, got := got);
            && InCall(x1) && NextFrame(x1) == NextFrame(x) && CurUi(x1) == CurUi(x)
            && SentFrom(x1, x1.peer, evs) == SentFrom(x, p, evs)
  {
  }

  lemma SoItGoes(x: Side, p: Peer, got: seq<nat>, evs: seq<Event>, r: Peer, word: Word, ctrl: Igc)
    requires InCall(x) && WaitsSo(x, p, evs, r, word, ctrl)
    ensures InCall(x.(peer := p, got := got)) && GoesSo(x.(peer := p, got := got), evs, r, word, ctrl)
  {
    HeardIsTheSameFrame(x, p, got, evs);
  }

  lemma SoItEnds(x: Side, evs: seq<Event>, got: seq<nat>, r: Peer, word: Word, ctrl: Igc)
    requires InCall(x) && GoesSo(x, evs, r, word, ctrl)
    ensures InCall(Waited(x, evs, got)) && EndsSo(Waited(x, evs, got), r, word, ctrl)
  {
    WaitedStays(x, evs, got);
  }

  lemma RestAndEnd(c: Config, host: bool, s: Sys, items: seq<Item>, ts: seq<Sys>, us: seq<Sys>, v: Sys,
                   r: Peer, word: Word, ctrl: Igc) returns (s': Sys)
    requires Reachable(c, s) && InCall(Me(s, host)) && Interleaved(c, host, s, items, ts, us) && ItemsOk(host, items, ts)
    requires PeerGoesOn(c, host, LastOf(s, us), v)
    requires GoesSo(Me(s, host), Events(host, items, ts), r, word, ctrl)
    ensures Reachable(c, s') && Other(s', host) == Other(v, host)
    ensures var x, x' := Me(s, host), Me(s', host);
            && x'.peer == r && x'.hist == x.hist && x'.sent == SentFrom(x, x.peer, Events(host, items, ts))
            && x.outs != [] && HowItEnded(x.outs, x', word, ctrl)
  {
    WaitUnfolds(c, host, s, items, ts, us);
    SoItEnds(Me(s, host), Events(host, items, ts), Me(LastOf(s, us), host).got, r, word, ctrl);
    PeerStaysReachable(c, host, LastOf(s, us), v);
    s' := EndIsAStep(c, host, v, r, word, ctrl);
  }

  /** One call of GetInputNet on a live link, while the other machine goes on as it likes: each receive
      polls any packets the other has sent by then and the network has not lost. Whatever the pieces
      of the call and the moves between them, the pair stays reachable by the protocol's steps, and
      this machine ends with the state, the sent packets and the result the call leaves behind. */
  lemma CallIsSteps(c: Config, host: bool, s: Sys, ui: bool, local: Word, seed: Word, ks: seq<nat>,
                    inbox: seq<Option<Pack>>, now: nat, first: seq<nat>, t0: Sys, u0: Sys, items: seq<Item>,
                    ts: seq<Sys>, us: seq<Sys>, v: Sys, r: Peer, word: Word, ctrl: Igc,
                    inbox': seq<Option<Pack>>, sent': seq<Pack>)
    returns (s': Sys)
    requires Reachable(c, s) && Me(s, host).phase == Idle
    requires Me(s, host).hist != [] && |Me(s, host).outs| == |Me(s, host).hist|
    requires Drains(Me(s, host), Other(s, host), ui, ks, inbox)
    requires var x, y := Me(s, host), Other(s, host);
             var a := Start(local, seed, ui, IgcNone, ks, now);
             var polled := if Fires(x.peer.(netFrame := NextFrame(x)), NextFrame(x), ui) then Rest(inbox) else inbox;
             && Can(c, x, y, a) && PieceAt(c, host, With(s, host, Do(c, x, y, a)), Polled(first, now, 0), t0, u0)
             && Pick(Other(t0, host), first) == Batch(polled)
    requires Interleaved(c, host, u0, items, ts, us) && ItemsOk(host, items, ts) && PeerGoesOn(c, host, LastOf(u0, us), v)
    requires var n := NextFrame(Me(s, host));
             var o := Opens(Me(s, host).peer, n, ui, local, seed, inbox, now);
             Waits(o.heard, n, ui, Events(host, items, ts), r, word, ctrl, o.rest, inbox', o.sent, sent')
    ensures Reachable(c, s') && Other(s', host) == Other(v, host)
    ensures var x, x' := Me(s, host), Me(s', host);
            && x'.peer == r && x'.sent == x.sent + Msgs(sent', NextFrame(x))
            && x'.hist == AppendLast(x.hist, Rec(local, seed, IgcNone, ui, x.peer.isSync))
            && x.outs != [] && HowItEnded(x.outs, x', word, ctrl)
  {
    var x, y, n := Me(s, host), Other(s, host), NextFrame(Me(s, host));
    var a := Start(local, seed, ui, IgcNone, ks, now);
    var o := Opens(x.peer, n, ui, local, seed, inbox, now);
    TopIsStart(c, x, y, ui, local, seed, ks, inbox, now);
    Acts(c, s, host, a);
    var x1 := Do(c, x, y, a);
    AppendedFrame(x, x1, Rec(local, seed, IgcNone, ui, x.peer.isSync));
    s' := WaitAndEnd(c, host, With(s, host, x1), Polled(first, now, 0), t0, u0, items, ts, us, v, r, word, ctrl);
    MsgsJoin(x.sent, o.sent, Emitted(o.heard, n, Events(host, items, ts)), n);
  }

  // ---- a call that waits for what is yet to be sent ----

  lemma StandsStill(c: Config, host: bool, s: Sys)
    ensures PeerGoesOn(c, host, s, s)
  {
    assert IsPath(c, host, [s]) && [s][0] == s && [s][|[s]| - 1] == s;
  }

  lemma OneMoveOn(c: Config, host: bool, s: Sys, s': Sys)
    requires PeerMoves(c, host, s, s')
    ensures PeerGoesOn(c, host, s, s')
  {
    assert IsPath(c, host, [s, s']) && [s, s'][0] == s && [s, s'][|[s, s']| - 1] == s';
  }

  lemma PollsNothing(x: Side, y: Side)
    requires x.hist != []
    ensures Took(x, y, Polled([], 0, 0)) == x
  {
  }

  lemma PollsOne(c: Config, x: Side, y: Side, i: nat)
    requires x.hist != [] && Can(c, x, y, Deliver(i, 0))
    ensures Took(x, y, Polled([i], 0, 0)) == Do(c, x, y, Deliver(i, 0))
  {
    OneMorePacket(x, y, [i], 0, 0);
    PollsNothing(x, y);
    assert [i][..|[i]| - 1] == [];
  }

  /** The guest calls for frame `delay` before the host has sent anything at all. */
  lemma CallsTooEarly(c: Config) returns (s: Sys, t: Sys)
    requires 1 <= c.delay < RETAIN
    ensures Reachable(c, s) && s.g.phase == Idle && s.h.sent == [] && Plain(c, s.h, 0, 0, 0, 0) && s.h.phase == Idle
    ensures s.h.lost == {} && Can(c, s.g, s.h, STILL) && t == With(s, false, Do(c, s.g, s.h, STILL))
    ensures Plain(c, t.g, 0, 0, c.delay + 1, 0) && t.g.phase == Waiting && t.h == s.h
  {
    s := Boot(c);
    s := RunsOn(c, s, false, 0, 0, 0, 0, 0, c.delay);
    StartPlain(c, s.g, s.h, 0, 0, c.delay, 0);
    t := s.(g := Do(c, s.g, s.h, STILL));
  }

  /** The host starts its first frame while the guest waits, and the next receive brings the slot. */
  lemma SlotComes(c: Config, t0: Sys) returns (t: Sys, u: Sys)
    requires 1 <= c.delay < RETAIN && Plain(c, t0.h, 0, 0, 0, 0) && t0.h.phase == Idle && t0.h.lost == {}
    requires Plain(c, t0.g, 0, 0, c.delay + 1, 0) && t0.g.phase == Waiting
    ensures PeerMoves(c, false, t0, t) && t.h.sent != [] && 0 !in t.h.lost && t.g == t0.g
    ensures t.g.hist != [] && u == With(t, false, Took(t.g, t.h, Polled([0], 0, 0)))
    ensures InCall(t0.g) && Stalls(t0.g) && InCall(u.g) && !Stalls(u.g)
  {
    StartPlain(c, t0.h, t0.g, 0, 0, 0, 0);
    t := t0.(h := Do(c, t0.h, t0.g, STILL));
    assert Moves(c, t0.h, t0.g, t.h);
    DeliverPlain(c, t.g, t.h, 0, 0, c.delay + 1, 0, 0, 0);
    PollsOne(c, t.g, t.h, 0);
    u := With(t, false, Do(c, t.g, t.h, Deliver(0, 0)));
  }

  /** So a call can end with a slot that was not even sent when it began. */
  lemma TheSlotMayComeLater(c: Config) returns (s: Sys, t0: Sys, u0: Sys, t1: Sys, u1: Sys)
    requires 1 <= c.delay < RETAIN
    ensures Reachable(c, s) && s.g.phase == Idle && s.h.sent == [] && Can(c, s.g, s.h, STILL)
    ensures PieceAt(c, false, With(s, false, Do(c, s.g, s.h, STILL)), Polled([], 0, 0), t0, u0)
    ensures Interleaved(c, false, u0, [Polled([0], 0, 0)], [t1], [u1])
    ensures InCall(u0.g) && Stalls(u0.g) && InCall(u1.g) && !Stalls(u1.g)
  {
    s, t0 := CallsTooEarly(c);
    StandsStill(c, false, t0);
    PollsNothing(t0.g, t0.h);
    u0 := t0;
    t1, u1 := SlotComes(c, u0);
    OneMoveOn(c, false, u0, t1);
    OnlyPiece(c, u0, t1, u1);
  }

  lemma OnlyPiece(c: Config, s: Sys, t: Sys, u: Sys)
    requires PieceAt(c, false, s, Polled([0], 0, 0), t, u)
    ensures Interleaved(c, false, s, [Polled([0], 0, 0)], [t], [u])
  {
    assert PieceOk(c, false, s, [Polled([0], 0, 0)], [t], [u], 0);
  }
}
