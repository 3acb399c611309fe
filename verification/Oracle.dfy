/** The desync flag and the count of desynced frames, against what the two machines recorded. */
module Oracle {
  import opened PeerSpec
  import opened Lockstep
  import opened LockstepInv
  import opened Agreement

  /** The flag frame k of a scene leaves behind; the scene starts in sync. */
  predicate FlagAfter(outs: seq<Out>, k: int) {
    0 <= k < |outs| && outs[k].Merged? ==> outs[k].sync
  }

  /** Length of the unbroken run of desynced frames ending at frame k, none of them in a menu and
      none a realignment. */
  function RunAt(h: seq<Rec>, fired: seq<int>, k: int): nat
    requires k < |h|
    decreases k + 1
  {
    if k < 0 || h[k].ui || k in fired || h[k].wasSync then 0 else RunAt(h, fired, k - 1) + 1
  }

  /** The last frame up to k in a menu or entered in sync, and the last one that realigned; -1 if
      there is none. */
  function LastQuiet(h: seq<Rec>, k: int): int
    requires k < |h|
    decreases k + 1
  {
    if k < 0 then -1 else if h[k].ui || h[k].wasSync then k else LastQuiet(h, k - 1)
  }

  function LastRealigned(fired: seq<int>, k: int): int
    decreases k + 1
  {
    if k < 0 then -1 else if k in fired then k else LastRealigned(fired, k - 1)
  }

  function Max(a: int, b: int): int { if a < b then b else a }

  lemma {:induction false} RunSinceLastBreak(h: seq<Rec>, fired: seq<int>, k: int)
    requires -1 <= k < |h|
    ensures RunAt(h, fired, k) == k - Max(LastQuiet(h, k), LastRealigned(fired, k))
    ensures LastQuiet(h, k) <= k && LastRealigned(fired, k) <= k
    decreases k + 1
  {
    if k >= 0 { RunSinceLastBreak(h, fired, k - 1); }
  }

  ghost predicate FlagsOk(x: Side) {
    && |x.hist| == |x.outs| == x.peer.epoch + 1
    && var h, o, n := x.hist[x.peer.epoch], x.outs[x.peer.epoch], NextFrame(x);
       && (forall f :: 0 <= f < n ==> h[f].wasSync == FlagAfter(o, f - 1))
       && (forall i :: 0 <= i < |x.fired| ==> x.fired[i] < n)
       && (if x.phase == Idle then x.peer.isSync == FlagAfter(o, n - 1)
           else n >= 1 && x.peer.isSync == (h[n - 1].wasSync || n - 1 in x.fired))
       && x.peer.resync.desyncRun == (if x.peer.resync.enable then RunAt(h, x.fired, n - 1) else 0)
  }

  predicate SameJudgement(a: Rec, b: Rec) {
    a.ui == b.ui && a.wasSync == b.wasSync
  }

  lemma {:induction false} RunOfPrefix(h: seq<Rec>, h': seq<Rec>, fired: seq<int>, fired': seq<int>, k: int)
    requires k < |h| && k < |h'|
    requires forall i :: 0 <= i <= k ==> SameJudgement(h[i], h'[i])
    requires forall i :: 0 <= i <= k ==> (i in fired <==> i in fired')
    ensures RunAt(h, fired, k) == RunAt(h', fired', k)
    decreases k + 1
  {
    if k >= 0 { RunOfPrefix(h, h', fired, fired', k - 1); }
  }

  lemma {:induction false} QuietOfPrefix(h: seq<Rec>, h': seq<Rec>, k: int)
    requires k < |h| && k < |h'|
    requires forall i :: 0 <= i <= k ==> SameJudgement(h[i], h'[i])
    ensures LastQuiet(h, k) == LastQuiet(h', k)
    decreases k + 1
  {
    if k >= 0 { QuietOfPrefix(h, h', k - 1); }
  }

  lemma StartKeepsFlags(c: Config, x: Side, y: Side, a: Action)
    requires a.Start? && Can(c, x, y, a) && ShapeOk(c, x) && FlagsOk(x)
    ensures FlagsOk(Do(c, x, y, a))
  {
    var x' := Do(c, x, y, a);
    var n, e := NextFrame(x), x.peer.epoch;
    var p := x.peer.(netFrame := n);
    var arr := Arrivals(y, a.drained, a.now);
    ResyncFrame(p, n, a.ui, arr);
    TopFlag(p, n, a.ui, arr);
    RunOfPrefix(x.hist[e], x'.hist[e], x.fired, x'.fired, n - 1);
    assert x'.hist[e][n] == Rec(a.word, a.seed, a.igc, a.ui, x.peer.isSync);
    forall f | 0 <= f < n + 1 ensures x'.hist[e][f].wasSync == FlagAfter(x'.outs[e], f - 1) {
      if f < n { assert x'.hist[e][f] == x.hist[e][f]; }
    }
  }

  lemma TopFlag(p: Peer, n: int, ui: bool, arr: seq<Arrival>)
    requires p.connected
    ensures var q := RunResync(p, n, ui, arr);
            && q.isSync == (p.isSync || Fires(p, n, ui)) && q.resync.enable == p.resync.enable
            && q.resync.desyncRun ==
                 (if !p.resync.enable || ui || Fires(p, n, ui) || p.isSync then 0 else p.resync.desyncRun + 1)
  {
    ReceiveAllFrame(CountDesync(p), arr);
  }

  lemma FinishKeepsFlags(c: Config, x: Side, y: Side, a: Action)
    requires a.Finish? && Can(c, x, y, a) && ShapeOk(c, x) && FlagsOk(x)
    requires forall f :: 0 <= f < |x.outs[x.peer.epoch]| ==> (f < c.delay ==> x.outs[x.peer.epoch][f] == Early)
    ensures FlagsOk(Do(c, x, y, a))
  {
    var x' := Do(c, x, y, a);
    var e, f := x.peer.epoch, NextFrame(x) - 1;
    assert x'.outs[e] == x.outs[e] + [OutOf(x.peer, f, CurUi(x))];
    forall k | 0 <= k < f + 1 ensures x'.hist[e][k].wasSync == FlagAfter(x'.outs[e], k - 1) {
      assert x.hist[e][k].wasSync == FlagAfter(x.outs[e], k - 1);
    }
  }

  lemma ActKeepsFlags(c: Config, x: Side, y: Side, a: Action)
    requires Can(c, x, y, a) && ShapeOk(c, x) && DoneOk(c, x, y) && FlagsOk(x)
    ensures FlagsOk(Do(c, x, y, a))
  {
    if a.Start? {
      StartKeepsFlags(c, x, y, a);
    } else if a.Finish? {
      EarlyFrames(c, x, y);
      FinishKeepsFlags(c, x, y, a);
    } else if a.Deliver? {
      ReceiveFrame(x.peer, Arrival(y.sent[a.i].pack, a.now));
    }
  }

  lemma EarlyFrames(c: Config, x: Side, y: Side)
    requires ShapeOk(c, x) && DoneOk(c, x, y)
    ensures forall f :: 0 <= f < |x.outs[x.peer.epoch]| ==> (f < c.delay ==> x.outs[x.peer.epoch][f] == Early)
  {
    forall f | 0 <= f < |x.outs[x.peer.epoch]| && f < c.delay ensures x.outs[x.peer.epoch][f] == Early {
      assert OutOk(c, x, y, x.peer.epoch, f);
    }
  }

  lemma {:induction false} RunFlags(c: Config, t: seq<Sys>)
    requires IsRun(c, t) && c.minScene >= SafeScene(c.delay)
    ensures Inv(c, t[|t| - 1]) && FlagsOk(t[|t| - 1].h) && FlagsOk(t[|t| - 1].g)
  {
    RunInv(c, t);
    if |t| > 1 {
      var u := t[..|t| - 1];
      LastStep(c, t);
      RunFlags(c, u);
      var v, w := t[|t| - 2], t[|t| - 1];
      assert u[|u| - 1] == v;
      if w.g == v.g && Moves(c, v.h, v.g, w.h) {
        var a :| Can(c, v.h, v.g, a) && w.h == Do(c, v.h, v.g, a);
        ActKeepsFlags(c, v.h, v.g, a);
      } else {
        var a :| Can(c, v.g, v.h, a) && w.g == Do(c, v.g, v.h, a);
        ActKeepsFlags(c, v.g, v.h, a);
      }
    }
  }

  lemma ReachableFlags(c: Config, s: Sys)
    requires Reachable(c, s) && c.minScene >= SafeScene(c.delay)
    ensures Inv(c, s) && FlagsOk(s.h) && FlagsOk(s.g)
  {
    var t: seq<Sys> :| IsRun(c, t) && t[|t| - 1] == s;
    RunFlags(c, t);
  }

  /** The flag a machine enters a frame with is false if and only if the frame before it compared
      two different seeds: those both machines recorded delay + 1 frames earlier. */
  lemma FlagIsExact(c: Config, s: Sys, host: bool, f: int)
    requires Reachable(c, s) && c.minScene >= SafeScene(c.delay)
    requires Me(s, host).hist != [] && 0 <= f < NextFrame(Me(s, host))
    ensures var x, y := Me(s, host), Other(s, host);
            var e, k := |x.hist| - 1, f - 1 - c.delay;
            && (k >= 0 ==> Has(y.hist, e, k))
            && (!x.hist[e][f].wasSync <==> k >= 0 && x.hist[e][k].seed != y.hist[e][k].seed)
  {
    ReachableFlags(c, s);
    FlagIsCompared(c, Me(s, host), Other(s, host), f);
  }

  lemma FlagIsCompared(c: Config, x: Side, y: Side, f: int)
    requires ShapeOk(c, x) && DoneOk(c, x, y) && FlagsOk(x) && 0 <= f < NextFrame(x)
    ensures var e, k := |x.hist| - 1, f - 1 - c.delay;
            && (k >= 0 ==> Has(y.hist, e, k))
            && (!x.hist[e][f].wasSync <==> k >= 0 && x.hist[e][k].seed != y.hist[e][k].seed)
  {
    var e := x.peer.epoch;
    assert x.hist[e][f].wasSync == FlagAfter(x.outs[e], f - 1);
    if f > 0 { assert OutOk(c, x, y, e, f - 1); }
  }

  /** Two machines at one frame of one scene, both with resync on and in the same modes so far. Each
      counts the frames since it last realigned or was last in a menu or in sync; so they count
      the same if and only if that last break is the same frame, which it is unless one of them
      realigned without the other since the last frame that was quiet on both. */
  lemma RunsAgree(c: Config, s: Sys)
    requires Reachable(c, s) && c.minScene >= SafeScene(c.delay)
    requires s.h.hist != [] && s.g.hist != [] && |s.h.hist| == |s.g.hist| && NextFrame(s.h) == NextFrame(s.g)
    requires s.h.peer.resync.enable && s.g.peer.resync.enable
    requires SameModes(s)
    ensures var n, q := NextFrame(s.h), LastQuiet(s.h.hist[|s.h.hist| - 1], NextFrame(s.h) - 1);
            var a, b := LastRealigned(s.h.fired, n - 1), LastRealigned(s.g.fired, n - 1);
            && s.h.peer.resync.desyncRun == n - 1 - Max(q, a)
            && s.g.peer.resync.desyncRun == n - 1 - Max(q, b)
            && (s.h.peer.resync.desyncRun == s.g.peer.resync.desyncRun <==> a == b || (a <= q && b <= q))
  {
    ReachableFlags(c, s);
    CountsAgree(c, s);
    var n, q := NextFrame(s.h), LastQuiet(s.h.hist[|s.h.hist| - 1], NextFrame(s.h) - 1);
    SameMax(q, LastRealigned(s.h.fired, n - 1), LastRealigned(s.g.fired, n - 1));
  }

  lemma SameMax(q: int, a: int, b: int)
    ensures Max(q, a) == Max(q, b) <==> a == b || (a <= q && b <= q)
  {
  }

  predicate SameModes(s: Sys)
    requires s.h.hist != [] && s.g.hist != [] && |s.h.hist| == |s.g.hist| && NextFrame(s.h) == NextFrame(s.g)
  {
    UiAgree(s.h.hist[|s.h.hist| - 1], s.g.hist[|s.g.hist| - 1])
  }

  predicate UiAgree(h: seq<Rec>, g: seq<Rec>) {
    forall f :: 0 <= f < |h| && f < |g| ==> h[f].ui == g[f].ui
  }

  lemma CountsAgree(c: Config, s: Sys)
    requires Inv(c, s) && FlagsOk(s.h) && FlagsOk(s.g)
    requires s.h.peer.epoch == s.g.peer.epoch && NextFrame(s.h) == NextFrame(s.g)
    requires s.h.peer.resync.enable && s.g.peer.resync.enable && SameModes(s)
    ensures var n, q := NextFrame(s.h), LastQuiet(s.h.hist[s.h.peer.epoch], NextFrame(s.h) - 1);
            && s.h.peer.resync.desyncRun == n - 1 - Max(q, LastRealigned(s.h.fired, n - 1))
            && s.g.peer.resync.desyncRun == n - 1 - Max(q, LastRealigned(s.g.fired, n - 1))
  {
    var n, h, g := NextFrame(s.h), s.h.hist[s.h.peer.epoch], s.g.hist[s.g.peer.epoch];
    JudgementsAgree(c, s);
    RunSinceLastBreak(h, s.h.fired, n - 1);
    RunSinceLastBreak(g, s.g.fired, n - 1);
    QuietOfPrefix(h, g, n - 1);
  }

  lemma JudgementsAgree(c: Config, s: Sys)
    requires Inv(c, s) && FlagsOk(s.h) && FlagsOk(s.g) && s.h.peer.epoch == s.g.peer.epoch
    requires NextFrame(s.h) == NextFrame(s.g) && SameModes(s)
    ensures var h, g := s.h.hist[s.h.peer.epoch], s.g.hist[s.g.peer.epoch];
            forall f | 0 <= f < |h| && f < |g| :: SameJudgement(h[f], g[f])
  {
    var h, g := s.h.hist[s.h.peer.epoch], s.g.hist[s.g.peer.epoch];
    forall f | 0 <= f < |h| && f < |g| ensures SameJudgement(h[f], g[f]) {
      SameFlag(c, s, f);
      assert h[f].ui == g[f].ui;
    }
  }

  lemma SameFlag(c: Config, s: Sys, f: int)
    requires Inv(c, s) && FlagsOk(s.h) && FlagsOk(s.g) && s.h.peer.epoch == s.g.peer.epoch
    requires 0 <= f < NextFrame(s.h) && f < NextFrame(s.g)
    ensures s.h.hist[s.h.peer.epoch][f].wasSync == s.g.hist[s.g.peer.epoch][f].wasSync
  {
    var e := s.h.peer.epoch;
    assert s.h.hist[e][f].wasSync == FlagAfter(s.h.outs[e], f - 1);
    assert s.g.hist[e][f].wasSync == FlagAfter(s.g.outs[e], f - 1);
    if f > 0 { OutsAgree(c, s.h, s.g, e, f - 1); }
  }
}
