/** What the lockstep guarantees in every reachable state, whatever the network did. */
module Agreement {
  import opened Merge
  import opened Wire
  import opened PeerSpec
  import opened Lockstep
  import opened LockstepInv

  /** The shortest scene for which frame numbers can be reused safely. */
  function SafeScene(delay: int): int {
    3 * delay + 2
  }

  lemma InitInv(c: Config, s: Sys)
    requires Init(c, s)
    ensures Inv(c, s)
  {
  }

  lemma NextKeepsInv(c: Config, s: Sys, s': Sys)
    requires Inv(c, s) && Next(c, s, s') && c.minScene >= SafeScene(c.delay)
    ensures Inv(c, s')
  {
    if s'.g == s.g && Moves(c, s.h, s.g, s'.h) {
      var a :| Can(c, s.h, s.g, a) && s'.h == Do(c, s.h, s.g, a);
      ActKeepsMine(c, s.h, s.g, a);
      ActKeepsTheirs(c, s.h, s.g, a);
      ActKeepsRole(c, s.h, s.g, a);
    } else {
      var a :| Can(c, s.g, s.h, a) && s'.g == Do(c, s.g, s.h, a);
      ActKeepsMine(c, s.g, s.h, a);
      ActKeepsTheirs(c, s.g, s.h, a);
      ActKeepsRole(c, s.g, s.h, a);
    }
  }

  lemma {:induction false} RunInv(c: Config, t: seq<Sys>)
    requires IsRun(c, t) && c.minScene >= SafeScene(c.delay)
    ensures Inv(c, t[|t| - 1])
  {
    if |t| == 1 {
      InitInv(c, t[0]);
    } else {
      var u := t[..|t| - 1];
      LastStep(c, t);
      RunInv(c, u);
      NextKeepsInv(c, u[|u| - 1], t[|t| - 1]);
    }
  }

  lemma ReachableInv(c: Config, s: Sys)
    requires Reachable(c, s) && c.minScene >= SafeScene(c.delay)
    ensures Inv(c, s)
  {
    var t :| IsRun(c, t) && t[|t| - 1] == s;
    RunInv(c, t);
  }

  lemma ReachablePair(c: Config, s: Sys, host: bool)
    requires Reachable(c, s) && c.minScene >= SafeScene(c.delay)
    ensures Pair(c, Me(s, host), Other(s, host)) && Pair(c, Other(s, host), Me(s, host))
    ensures Me(s, host).peer.isHost == host
  {
    ReachableInv(c, s);
  }

  // ---- agreement ----

  predicate BothCompleted(s: Sys, e: int, f: int) {
    && 0 <= e < |s.h.outs| && e < |s.g.outs| && e < |s.h.hist| && e < |s.g.hist|
    && 0 <= f < |s.h.outs[e]| && f < |s.g.outs[e]| && f < |s.h.hist[e]| && f < |s.g.hist[e]|
  }

  lemma PairIsSymmetric(ui: bool, host: Rec, guest: Rec)
    ensures OutFor(true, ui, host, guest) == OutFor(false, ui, guest, host)
  {
    MergeAgrees(ui, host.word, guest.word);
  }

  /** The de-merged pair, the control action and the desync flag depend on no menu flag. */
  predicate SamePair(a: Out, b: Out) {
    a.Early? == b.Early? && (a.Merged? && b.Merged? ==> a.ctrl == b.ctrl && a.p1 == b.p1 && a.p2 == b.p2 && a.sync == b.sync)
  }

  /** Before frame `delay` nothing is returned, on either machine. */
  lemma EarlyAgree(c: Config, x: Side, y: Side, e: int, f: int)
    requires 0 <= e < |x.outs| && e < |y.outs| && 0 <= f < |x.outs[e]| && f < |y.outs[e]|
    requires OutOk(c, x, y, e, f) && OutOk(c, y, x, e, f) && f < c.delay
    ensures x.outs[e][f] == y.outs[e][f] == Early
  {
  }

  /** From frame `delay` on both read the same two records, each from its own side. */
  lemma MergedAgree(c: Config, x: Side, y: Side, e: int, f: int)
    requires 0 <= e < |x.outs| && e < |y.outs| && 0 <= f < |x.outs[e]| && f < |y.outs[e]|
    requires OutOk(c, x, y, e, f) && OutOk(c, y, x, e, f) && f >= c.delay && x.peer.isHost && !y.peer.isHost
    ensures SamePair(x.outs[e][f], y.outs[e][f])
    ensures x.hist[e][f].ui == y.hist[e][f].ui ==> x.outs[e][f] == y.outs[e][f]
  {
    var a, b := x.hist[e][f - c.delay], y.hist[e][f - c.delay];
    PairIsSymmetric(x.hist[e][f].ui, a, b);
    SamePairEitherMode(x.hist[e][f].ui, y.hist[e][f].ui, a, b);
  }

  lemma SamePairEitherMode(u: bool, v: bool, host: Rec, guest: Rec)
    ensures SamePair(OutFor(true, u, host, guest), OutFor(false, v, guest, host))
  {
  }

  /** Two machines in opposite roles that completed a frame returned the same for it. */
  lemma OutsAgree(c: Config, x: Side, y: Side, e: int, f: int)
    requires DoneOk(c, x, y) && DoneOk(c, y, x) && x.peer.isHost && !y.peer.isHost
    requires 0 <= e < |x.outs| && e < |y.outs| && 0 <= f < |x.outs[e]| && f < |y.outs[e]|
    ensures Has(x.hist, e, f) && Has(y.hist, e, f)
    ensures SamePair(x.outs[e][f], y.outs[e][f])
    ensures x.hist[e][f].ui == y.hist[e][f].ui ==> x.outs[e][f] == y.outs[e][f]
  {
    assert OutOk(c, x, y, e, f) && OutOk(c, y, x, e, f);
    if f < c.delay { EarlyAgree(c, x, y, e, f); } else { MergedAgree(c, x, y, e, f); }
  }

  /** At every frame both machines have completed, in any scene and after any loss, duplication,
      reordering, resync or later timeout: the pair by player, the control action and the flag
      are the same on both, and so is the merged word when both were in the same mode. */
  lemma CompletedFramesAgree(c: Config, s: Sys, e: int, f: int)
    requires Reachable(c, s) && c.minScene >= SafeScene(c.delay) && BothCompleted(s, e, f)
    ensures SamePair(s.h.outs[e][f], s.g.outs[e][f])
    ensures s.h.hist[e][f].ui == s.g.hist[e][f].ui ==> s.h.outs[e][f] == s.g.outs[e][f]
  {
    ReachableInv(c, s);
    OutsAgree(c, s.h, s.g, e, f);
  }

  /** What a frame has to return for the records of host and guest `delay` frames earlier: their words
      as P1's and P2's, the host's control action before the guest's, and whether their seeds were
      the same. In a menu every button either of them held; in play the host's low nine bits with
      the guest's MENU and SKIP, and above these the guest's seven buttons over the host's own. */
  predicate Reads(out: Out, ui: bool, host: Rec, guest: Rec) {
    && out.Merged? && out.p1 == host.word && out.p2 == guest.word
    && out.ctrl == (if host.igc != IgcNone then host.igc else guest.igc)
    && (out.sync <==> host.seed == guest.seed)
    && if ui then out.word == host.word | guest.word else IsPlayWord(out.word, host.word, guest.word)
  }

  predicate IsPlayWord(word: Word, host: Word, guest: Word) {
    && word & LOW9 == (host & LOW9) | (guest & (MENU | SKIP))
    && word & !LOW9 == PackP2(guest) | (host & !LOW9)
  }

  lemma LaidIsPlayWord(host: Word, guest: Word)
    ensures IsPlayWord(Lay(host, guest), host, guest)
  {
    MergeLowHalf(host, guest);
    MergeHighHalf(host, guest);
  }

  lemma MergedReads(isHost: bool, ui: bool, host: Rec, guest: Rec)
    ensures Reads(OutFor(isHost, ui, if isHost then host else guest, if isHost then guest else host), ui, host, guest)
  {
    LaidIsPlayWord(host.word, guest.word);
    if !isHost { assert guest.word | host.word == host.word | guest.word; }
  }

  /** What a completed frame returned, on either machine: nothing before frame `delay`, then the
      words both recorded `delay` frames earlier. */
  lemma CompletedFrameReads(c: Config, s: Sys, host: bool, e: int, f: int)
    requires Reachable(c, s) && c.minScene >= SafeScene(c.delay)
    requires 0 <= e < |Me(s, host).outs| && 0 <= f < |Me(s, host).outs[e]|
    ensures f < c.delay ==> Me(s, host).outs[e][f] == Early
    ensures f >= c.delay ==>
              && Has(s.h.hist, e, f - c.delay) && Has(s.g.hist, e, f - c.delay) && Has(Me(s, host).hist, e, f)
              && Reads(Me(s, host).outs[e][f], Me(s, host).hist[e][f].ui,
                       s.h.hist[e][f - c.delay], s.g.hist[e][f - c.delay])
  {
    ReachablePair(c, s, host);
    assert OutOk(c, Me(s, host), Other(s, host), e, f);
    if f >= c.delay {
      MergedReads(host, Me(s, host).hist[e][f].ui, s.h.hist[e][f - c.delay], s.g.hist[e][f - c.delay]);
    }
  }

  // ---- how far apart the machines can be ----

  lemma SkewOneWay(c: Config, x: Side, y: Side)
    requires ShapeOk(c, x) && ShapeOk(c, y) && DoneOk(c, x, y) && x.peer.epoch == y.peer.epoch
    ensures NextFrame(x) - NextFrame(y) <= c.delay + 1
  {
    var e := x.peer.epoch;
    if |x.outs[e]| > c.delay { assert OutOk(c, x, y, e, |x.outs[e]| - 1); }
  }

  /** Neither machine ever starts a frame more than delay + 1 ahead, nor is more than one scene
      ahead; and a machine a scene ahead is blocked within its first delay + 1 frames there. */
  lemma Skew(c: Config, s: Sys)
    requires Reachable(c, s) && c.minScene >= SafeScene(c.delay)
    ensures s.h.hist != [] && s.g.hist != []
    ensures -1 <= s.h.peer.epoch - s.g.peer.epoch <= 1
    ensures s.h.peer.epoch == s.g.peer.epoch ==> -c.delay - 1 <= NextFrame(s.h) - NextFrame(s.g) <= c.delay + 1
    ensures s.h.peer.epoch > s.g.peer.epoch ==> NextFrame(s.h) <= c.delay + 1
    ensures s.g.peer.epoch > s.h.peer.epoch ==> NextFrame(s.g) <= c.delay + 1
  {
    ReachableInv(c, s);
    if s.h.peer.epoch == s.g.peer.epoch {
      SkewOneWay(c, s.h, s.g);
      SkewOneWay(c, s.g, s.h);
    } else if s.h.peer.epoch > s.g.peer.epoch {
      AheadIsBlocked(c, s.g, s.h);
    } else {
      AheadIsBlocked(c, s.h, s.g);
    }
  }

  // ---- retention and truthfulness of the windows ----

  ghost predicate BothSound(c: Config, s: Sys) {
    Sound(c, s.h, s.g) && Sound(c, s.g, s.h)
  }

  lemma NextKeepsSound(c: Config, s: Sys, s': Sys)
    requires BothSound(c, s) && Next(c, s, s')
    ensures BothSound(c, s')
  {
    if s'.g == s.g && Moves(c, s.h, s.g, s'.h) {
      var a :| Can(c, s.h, s.g, a) && s'.h == Do(c, s.h, s.g, a);
      ActKeepsSound(c, s.h, s.g, a);
      ActKeepsTheirSound(c, s.h, s.g, a);
    } else {
      var a :| Can(c, s.g, s.h, a) && s'.g == Do(c, s.g, s.h, a);
      ActKeepsSound(c, s.g, s.h, a);
      ActKeepsTheirSound(c, s.g, s.h, a);
    }
  }

  lemma {:induction false} RunSound(c: Config, t: seq<Sys>)
    requires IsRun(c, t)
    ensures BothSound(c, t[|t| - 1])
  {
    if |t| > 1 {
      var u := t[..|t| - 1];
      LastStep(c, t);
      RunSound(c, u);
      NextKeepsSound(c, u[|u| - 1], t[|t| - 1]);
    }
  }

  /** Whatever the scenes' lengths: each self map holds exactly the last 80 recorded frames of the
      scene; every key packet ever sent carries, in each slot of a frame that exists, what was
      recorded for it; and every slot the peer holds from this machine is one of its records. */
  lemma WindowsAreTruthful(c: Config, s: Sys, host: bool)
    requires Reachable(c, s)
    ensures Me(s, host).hist != []
    ensures var n := NextFrame(Me(s, host));
            forall f :: f in Me(s, host).peer.self.bits <==> 0 <= f < n && n - RETAIN <= f
    ensures SentOk(Me(s, host))
    ensures HeardOk(Other(s, host).peer.rcved, Other(s, host).peer.epoch, Me(s, host).hist)
  {
    var t :| IsRun(c, t) && t[|t| - 1] == s;
    RunSound(c, t);
    OwnMapsAre(c, Me(s, host), Other(s, host));
  }

  lemma OwnMapsAre(c: Config, x: Side, y: Side)
    requires Sound(c, x, y)
    ensures forall f :: f in x.peer.self.bits <==> 0 <= f < NextFrame(x) && NextFrame(x) - RETAIN <= f
  {
    var n := NextFrame(x);
    forall f | 0 <= f < n && n - RETAIN <= f ensures f in x.peer.self.bits {
      assert Holds(x.peer.self, f, x.hist[x.peer.epoch][f]);
    }
  }

  /** The slot a machine is about to read, though packets of a newer scene are let into the same
      maps, is the peer's record of that frame of this scene. */
  lemma NoOtherSceneIsRead(c: Config, s: Sys, host: bool)
    requires Reachable(c, s) && c.minScene >= SafeScene(c.delay)
    requires var x := Me(s, host);
             x.phase == Waiting && x.hist != [] && NextFrame(x) - 1 >= c.delay && Ready(x.peer, NextFrame(x) - 1)
    ensures var x, y := Me(s, host), Other(s, host);
            var e, k := x.peer.epoch, NextFrame(x) - 1 - c.delay;
            Has(y.hist, e, k) && Holds(x.peer.rcved, k, y.hist[e][k])
  {
    ReachablePair(c, s, host);
    FinishReads(c, Me(s, host), Other(s, host));
  }
}
