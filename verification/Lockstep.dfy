/** Two machines in lockstep over a network that may lose, duplicate and reorder packets.

    A machine alternates between being idle and being inside one call of the per-frame entry,
    where it may block. What it ever sent stays deliverable, any number of times and in any
    order, until the network loses it. Local input, seed, menu flag and control action of every
    frame are arbitrary, and so is the schedule. */
module Lockstep {
  import opened Merge
  import opened Wire
  import opened PeerSpec

  /** The agreed delay, and the length below which no scene ends in the runs considered. */
  datatype Config = Config(delay: int, minScene: nat)

  /** What a machine recorded for one of its own frames, and the flag it entered the frame with. */
  datatype Rec = Rec(word: Word, seed: Word, igc: Igc, ui: bool, wasSync: bool)

  datatype Phase = Idle | Waiting | Dropped

  /** A packet sent, with the sender's frame at that moment. */
  datatype Msg = Msg(pack: Pack, at: int)

  /** One machine. `hist[e]` and `outs[e]` list the frames recorded and completed in scene e,
      `got` the indices of the packets it received, the first `base` of them in earlier scenes,
      `fired` and `inits` the frames of the current scene at which it executed and at which it
      initiated a resync; `sent` is all it ever sent and `lost` the indices among these the
      network has dropped. */
  datatype Side = Side(
    peer: Peer, phase: Phase, hist: seq<seq<Rec>>, outs: seq<seq<Out>>,
    got: seq<nat>, base: nat, fired: seq<int>, inits: seq<int>, sent: seq<Msg>, lost: set<nat>)

  datatype Sys = Sys(h: Side, g: Side)

  /** One machine of the two, and its peer. */
  function Me(s: Sys, host: bool): Side { if host then s.h else s.g }
  function Other(s: Sys, host: bool): Side { if host then s.g else s.h }
  function With(s: Sys, host: bool, x: Side): Sys { if host then s.(h := x) else s.(g := x) }

  datatype Action =
    | Start(word: Word, seed: Word, ui: bool, igc: Igc, drained: seq<nat>, now: nat)
    | Deliver(i: nat, now: nat)
    | Reping(now: nat)
    | Finish
    | Timeout
    | Reset
    | Lose(i: nat)

  /** The frame the next Start of a machine records, and the one its current call is in. */
  function NextFrame(x: Side): int
    requires x.hist != []
  {
    |x.hist[|x.hist| - 1]|
  }

  function CurUi(x: Side): bool
    requires x.hist != [] && NextFrame(x) > 0
  {
    x.hist[|x.hist| - 1][NextFrame(x) - 1].ui
  }

  predicate Deliverable(y: Side, i: nat) {
    i < |y.sent| && i !in y.lost
  }

  function Arrivals(y: Side, ks: seq<nat>, now: nat): seq<Arrival>
    requires forall k | 0 <= k < |ks| :: ks[k] < |y.sent|
  {
    seq(|ks|, k requires 0 <= k < |ks| => Arrival(y.sent[ks[k]].pack, now))
  }

  /** When machine x, whose peer is y, can take an action. */
  predicate Can(c: Config, x: Side, y: Side, a: Action) {
    && x.hist != [] && |x.outs| == |x.hist|
    && match a
       case Start(_, _, ui, _, drained, _) =>
         && x.phase == Idle
         && (forall k | 0 <= k < |drained| :: Deliverable(y, drained[k]))
         && (drained != [] ==> Fires(x.peer, NextFrame(x), ui))
       case Deliver(i, _) => x.phase == Waiting && Deliverable(y, i)
       case Reping(_) => x.phase == Waiting && NextFrame(x) > 0 && !Ready(x.peer, NextFrame(x) - 1)
       case Finish => x.phase == Waiting && NextFrame(x) > 0 && Ready(x.peer, NextFrame(x) - 1)
       case Timeout => x.phase == Waiting && NextFrame(x) > 0 && !Ready(x.peer, NextFrame(x) - 1)
       case Reset => x.phase == Idle && NextFrame(x) >= c.minScene
       case Lose(i) => i < |x.sent|
  }

  function AppendLast<T>(s: seq<seq<T>>, t: T): seq<seq<T>>
    requires s != []
  {
    s[|s| - 1 := s[|s| - 1] + [t]]
  }

  /** The state of the core after the top of a frame: resync machine, then the self slot. */
  function Opened(x: Side, y: Side, a: Action): Peer
    requires x.hist != [] && a.Start? && forall k | 0 <= k < |a.drained| :: a.drained[k] < |y.sent|
  {
    var n := NextFrame(x);
    Record(RunResync(x.peer.(netFrame := n), n, a.ui, Arrivals(y, a.drained, a.now)), n, a.word, a.seed, a.igc)
  }

  function DoStart(x: Side, y: Side, a: Action): Side
    requires x.hist != [] && a.Start? && forall k | 0 <= k < |a.drained| :: a.drained[k] < |y.sent|
  {
    var n := NextFrame(x);
    var p := x.peer.(netFrame := n);
    var q := Opened(x, y, a);
    var asks := if Announces(p, n, a.ui) then [Msg(ResyncPack(p, Target(p, n), a.now), n)] else [];
    x.(peer := q, phase := Waiting,
       hist := AppendLast(x.hist, Rec(a.word, a.seed, a.igc, a.ui, x.peer.isSync)),
       got := x.got + a.drained,
       fired := if Fires(p, n, a.ui) then x.fired + [n] else x.fired,
       inits := if Announces(p, n, a.ui) && !p.resync.trigger then x.inits + [n] else x.inits,
       sent := x.sent + asks + [Msg(KeyPack(q, n, a.now), n)])
  }

  function Do(c: Config, x: Side, y: Side, a: Action): Side
    requires Can(c, x, y, a)
  {
    match a
    case Start(_, _, _, _, _, _) => DoStart(x, y, a)
    case Deliver(i, now) =>
      x.(peer := ReceiveOne(x.peer, Arrival(y.sent[i].pack, now)), got := x.got + [i])
    case Reping(now) =>
      x.(sent := x.sent + [Msg(KeyPack(x.peer, NextFrame(x) - 1, now), NextFrame(x) - 1)])
    case Finish =>
      var f := NextFrame(x) - 1;
      x.(peer := Complete(x.peer, f, CurUi(x)), phase := Idle,
         outs := AppendLast(x.outs, OutOf(x.peer, f, CurUi(x))))
    case Timeout => x.(peer := Abandon(x.peer), phase := Dropped)
    case Reset =>
      x.(peer := NextScene(x.peer), hist := x.hist + [[]], outs := x.outs + [[]],
         base := |x.got|, fired := [], inits := [])
    case Lose(i) => x.(lost := x.lost + {i})
  }

  predicate FreshSide(c: Config, x: Side, isHost: bool) {
    && x.peer.isHost == isHost && x.peer.delay == c.delay && x.peer.connected && x.peer.isSync
    && x.peer.epoch == 0 && x.peer.self == NO_FRAMES && x.peer.rcved == NO_FRAMES
    && !x.peer.resync.trigger && x.peer.resync.desyncRun == 0
    && x.phase == Idle && x.hist == [[]] && x.outs == [[]] && x.got == [] && x.base == 0 && x.fired == [] && x.inits == []
    && x.sent == [] && x.lost == {}
  }

  /** The delay is at least 1 by construction; retention of the own slot asks for at most 79. */
  predicate Init(c: Config, s: Sys) {
    1 <= c.delay < RETAIN && FreshSide(c, s.h, true) && FreshSide(c, s.g, false)
  }

  ghost predicate Moves(c: Config, x: Side, y: Side, x': Side) {
    exists a :: Can(c, x, y, a) && x' == Do(c, x, y, a)
  }

  ghost predicate Next(c: Config, s: Sys, s': Sys) {
    || (s'.g == s.g && Moves(c, s.h, s.g, s'.h))
    || (s'.h == s.h && Moves(c, s.g, s.h, s'.g))
  }

  ghost predicate Steps(c: Config, t: seq<Sys>) {
    forall k {:trigger Next(c, t[k], t[k + 1])} | 0 <= k < |t| - 1 :: Next(c, t[k], t[k + 1])
  }

  ghost predicate IsRun(c: Config, t: seq<Sys>) {
    t != [] && Init(c, t[0]) && Steps(c, t)
  }

  lemma LastStep(c: Config, t: seq<Sys>)
    requires |t| > 1 && Steps(c, t)
    ensures Steps(c, t[..|t| - 1]) && Next(c, t[|t| - 2], t[|t| - 1])
  {
    var u, last := t[..|t| - 1], |t| - 2;
    forall k | 0 <= k < |u| - 1 ensures Next(c, u[k], u[k + 1]) {
      assert Next(c, t[k], t[k + 1]);
    }
    assert Next(c, t[last], t[last + 1]);
  }

  ghost predicate Reachable(c: Config, s: Sys) {
    exists t :: IsRun(c, t) && t[|t| - 1] == s
  }
}
