/** Building runs: concrete schedules of any length, with resync off. */
module Runs {
  import opened Wire
  import opened PeerSpec
  import opened Lockstep

  lemma ReachStep(c: Config, s: Sys, s': Sys)
    requires Reachable(c, s) && Next(c, s, s')
    ensures Reachable(c, s')
  {
    var t :| IsRun(c, t) && t[|t| - 1] == s;
    var u := t + [s'];
    forall k | 0 <= k < |u| - 1 ensures Next(c, u[k], u[k + 1]) {
      if k < |t| - 1 { assert Next(c, t[k], t[k + 1]); }
    }
    assert u[|u| - 1] == s';
  }

  lemma Acts(c: Config, s: Sys, host: bool, a: Action)
    requires Reachable(c, s) && Can(c, Me(s, host), Other(s, host), a)
    ensures Reachable(c, With(s, host, Do(c, Me(s, host), Other(s, host), a)))
  {
    var x' := Do(c, Me(s, host), Other(s, host), a);
    assert Moves(c, Me(s, host), Other(s, host), x');
    ReachStep(c, s, With(s, host, x'));
  }

  predicate PlainPack(p: Pack, e: nat, f: int) {
    p.epoch == e && p.ctrl.Keys? && p.ctrl.frame == f
  }

  /** A machine in scene e with n frames recorded and one packet sent for each after the first b;
      resync off; holding no slot of its peer from frame m on. */
  ghost predicate Plain(c: Config, x: Side, e: nat, b: nat, n: nat, m: int) {
    && x.peer.epoch == e && x.peer.delay == c.delay && !x.peer.resync.enable
    && |x.hist| == |x.outs| == e + 1 && NextFrame(x) == n
    && NextFrame(x) == |x.outs[e]| + (if x.phase == Idle then 0 else 1)
    && (forall f :: 0 <= f < |x.outs[e]| ==> (x.outs[e][f].Merged? <==> f >= c.delay))
    && |x.sent| == b + n && (forall j :: b <= j < b + n ==> PlainPack(x.sent[j].pack, e, j - b))
    && (forall k :: k in x.peer.rcved.bits ==> k < m)
  }

  /** What stays of a machine while its current scene goes on. */
  predicate SamePast(x: Side, x': Side) {
    && x'.peer.isHost == x.peer.isHost && x'.lost == x.lost
    && |x.hist| == |x'.hist| && |x.outs| == |x'.outs|
    && (forall e :: 0 <= e < |x.hist| - 1 ==> x'.hist[e] == x.hist[e])
    && (forall e :: 0 <= e < |x.outs| - 1 ==> x'.outs[e] == x.outs[e])
    && |x.sent| <= |x'.sent| && (forall j :: 0 <= j < |x.sent| ==> x'.sent[j] == x.sent[j])
  }

  const STILL := Start(0, 0, false, IgcNone, [], 0)

  lemma StartPlain(c: Config, x: Side, y: Side, e: nat, b: nat, n: nat, m: int)
    requires Plain(c, x, e, b, n, m) && x.phase == Idle
    ensures Can(c, x, y, STILL)
    ensures var x' := Do(c, x, y, STILL); Plain(c, x', e, b, n + 1, m) && x'.phase == Waiting && SamePast(x, x')
  {
    var p := x.peer.(netFrame := n);
    ResyncFrame(p, n, false, Arrivals(y, [], 0));
    assert RunResync(p, n, false, Arrivals(y, [], 0)) == p.(resync := p.resync.(desyncRun := 0));
  }

  lemma DeliverPlain(c: Config, x: Side, y: Side, e: nat, b: nat, n: nat, m: int, i: nat, f: int)
    requires Plain(c, x, e, b, n, m) && x.phase == Waiting && Deliverable(y, i)
    requires PlainPack(y.sent[i].pack, e, f)
    ensures Can(c, x, y, Deliver(i, 0))
    ensures var x' := Do(c, x, y, Deliver(i, 0));
            && Plain(c, x', e, b, n, if f < m then m else f + 1) && x'.phase == Waiting && SamePast(x, x')
            && f in x'.peer.rcved.bits
  {
  }

  lemma FinishPlain(c: Config, x: Side, y: Side, e: nat, b: nat, n: nat, m: int)
    requires Plain(c, x, e, b, n, m) && x.phase == Waiting && n > 0 && Ready(x.peer, n - 1)
    ensures Can(c, x, y, Finish)
    ensures var x' := Do(c, x, y, Finish); Plain(c, x', e, b, n, m) && x'.phase == Idle && SamePast(x, x')
  {
  }

  lemma Boot(c: Config) returns (s: Sys)
    requires 1 <= c.delay < RETAIN
    ensures Reachable(c, s) && Plain(c, s.h, 0, 0, 0, 0) && Plain(c, s.g, 0, 0, 0, 0)
    ensures s.h.phase == s.g.phase == Idle && s.h.lost == s.g.lost == {} && s.h.peer.isHost && !s.g.peer.isHost
  {
    var p := Peer(true, c.delay, true, true, 0, 0, NO_FRAMES, NO_FRAMES,
                  Resync(false, 180, false, 0, 0, false, 0), 0, 0, Meta(0, -1, -1, -1));
    var x := Side(p, Idle, [[]], [[]], [], 0, [], [], [], {});
    s := Sys(x, x.(peer := p.(isHost := false)));
    assert IsRun(c, [s]) && [s][|[s]| - 1] == s;
  }

  /** One machine completes one more frame: within the first `delay` of a scene on its own, later
      by receiving the one slot of its peer it needs. */
  lemma OneFrame(c: Config, s0: Sys, host: bool, e: nat, b: nat, n: nat, m: int, b': nat) returns (s: Sys)
    requires Reachable(c, s0) && Plain(c, Me(s0, host), e, b, n, m) && Me(s0, host).phase == Idle
    requires var y := Other(s0, host);
             n >= c.delay ==> && n - c.delay < m && b' + n - c.delay < |y.sent| && b' + n - c.delay !in y.lost
                              && PlainPack(y.sent[b' + n - c.delay].pack, e, n - c.delay)
    ensures Reachable(c, s) && Other(s, host) == Other(s0, host)
    ensures Plain(c, Me(s, host), e, b, n + 1, m) && Me(s, host).phase == Idle && SamePast(Me(s0, host), Me(s, host))
  {
    var y := Other(s0, host);
    StartPlain(c, Me(s0, host), y, e, b, n, m);
    Acts(c, s0, host, STILL);
    s := With(s0, host, Do(c, Me(s0, host), y, STILL));
    if n >= c.delay {
      var i := b' + n - c.delay;
      DeliverPlain(c, Me(s, host), y, e, b, n + 1, m, i, n - c.delay);
      Acts(c, s, host, Deliver(i, 0));
      s := With(s, host, Do(c, Me(s, host), y, Deliver(i, 0)));
    }
    FinishPlain(c, Me(s, host), y, e, b, n + 1, m);
    Acts(c, s, host, Finish);
    s := With(s, host, Do(c, Me(s, host), y, Finish));
  }

  /** One machine runs on to k frames, as far as what its peer has sent in the scene allows. */
  lemma {:induction false} RunsOn(c: Config, s0: Sys, host: bool, e: nat, b: nat, n: nat, m: int, b': nat, k: nat)
    returns (s: Sys)
    requires Reachable(c, s0) && Plain(c, Me(s0, host), e, b, n, m) && Me(s0, host).phase == Idle
    requires n <= k && k - c.delay <= m && Other(s0, host).lost == {} && b' + m <= |Other(s0, host).sent|
    requires forall j :: b' <= j < b' + m ==> PlainPack(Other(s0, host).sent[j].pack, e, j - b')
    ensures Reachable(c, s) && Other(s, host) == Other(s0, host)
    ensures Plain(c, Me(s, host), e, b, k, m) && Me(s, host).phase == Idle && SamePast(Me(s0, host), Me(s, host))
    decreases k
  {
    s := s0;
    if n < k {
      s := RunsOn(c, s0, host, e, b, n, m, b', k - 1);
      var before := Me(s, host);
      s := OneFrame(c, s, host, e, b, k - 1, m, b');
      assert SamePast(before, Me(s, host));
    }
  }

  lemma StartsNext(c: Config, s0: Sys, host: bool, e: nat, b: nat, n: nat, m: int) returns (s: Sys)
    requires Reachable(c, s0) && Plain(c, Me(s0, host), e, b, n, m) && Me(s0, host).phase == Idle
    ensures Reachable(c, s) && Other(s, host) == Other(s0, host)
    ensures Plain(c, Me(s, host), e, b, n + 1, m) && Me(s, host).phase == Waiting && SamePast(Me(s0, host), Me(s, host))
  {
    StartPlain(c, Me(s0, host), Other(s0, host), e, b, n, m);
    Acts(c, s0, host, STILL);
    s := With(s0, host, Do(c, Me(s0, host), Other(s0, host), STILL));
  }

  /** The network drops the first k packets of a machine. */
  lemma {:induction false} LoseFirst(c: Config, s0: Sys, host: bool, k: nat) returns (s: Sys)
    requires Reachable(c, s0)
    requires var x := Me(s0, host); k <= |x.sent| && x.hist != [] && |x.outs| == |x.hist|
    ensures Reachable(c, s) && Other(s, host) == Other(s0, host)
    ensures Me(s, host) == Me(s0, host).(lost := Me(s, host).lost)
    ensures forall i :: 0 <= i < k ==> i in Me(s, host).lost
    ensures forall i :: i in Me(s, host).lost ==> i in Me(s0, host).lost || i < k
  {
    s := s0;
    if k > 0 {
      s := LoseFirst(c, s0, host, k - 1);
      Acts(c, s, host, Lose(k - 1));
      s := With(s, host, Do(c, Me(s, host), Other(s, host), Lose(k - 1)));
    }
  }

  /** A machine that has completed n frames of the first scene and holds no slot from n on. */
  ghost predicate InStep(c: Config, x: Side, n: nat) {
    Plain(c, x, 0, 0, n, n) && x.phase == Idle && x.lost == {}
  }

  lemma OneMore(c: Config, s0: Sys, host: bool, n: nat, k: nat) returns (s: Sys)
    requires Reachable(c, s0) && InStep(c, Me(s0, host), n) && InStep(c, Other(s0, host), k) && n <= k <= n + 1
    ensures Reachable(c, s) && Other(s, host) == Other(s0, host)
    ensures InStep(c, Me(s, host), n + 1) && SamePast(Me(s0, host), Me(s, host))
  {
    var y := Other(s0, host);
    if n >= c.delay { assert PlainPack(y.sent[0 + n - c.delay].pack, 0, n - c.delay); }
    s := OneFrame(c, s0, host, 0, 0, n, n + 1, 0);
  }

  /** Both machines run in step for k frames of the first scene. */
  lemma {:induction false} Together(c: Config, k: nat) returns (s: Sys)
    requires 1 <= c.delay < RETAIN
    ensures Reachable(c, s) && InStep(c, s.h, k) && InStep(c, s.g, k) && s.h.peer.isHost && !s.g.peer.isHost
  {
    if k == 0 {
      s := Boot(c);
    } else {
      s := Together(c, k - 1);
      s := OneMore(c, s, true, k - 1, k - 1);
      s := OneMore(c, s, false, k - 1, k);
    }
  }
}
