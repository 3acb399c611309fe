/** Runs in which machines realign: both together, as they should; the host alone, its announcements
    all lost; and the guest alone, on an announcement from a scene long over. */
module Realignments {
  import opened PeerSpec
  import opened Lockstep
  import opened LockstepInv
  import opened Agreement
  import opened Runs
  import opened ResyncTargets
  import opened ResyncTogether
  import opened ResyncRuns
  import Oracle

  /** A menu for a first scene, then a stage in which the two machines record different seeds. */
  function MenuFirst(threshold: int): Plan {
    Plan(threshold, 0, true, 0, 0)
  }

  function ForkedStage(threshold: int): Plan {
    Plan(threshold, 1, false, 1, 0)
  }

  ghost predicate AfterAMenu(s: Sys) {
    && s.h.hist != [] && |Past(s.h)| == 1 && forall f :: 0 <= f < |Past(s.h)[0]| ==> Past(s.h)[0][f].ui
  }

  /** Through the menu and into the stage. */
  lemma IntoTheStage(c: Config, threshold: int) returns (s: Sys)
    requires 1 <= c.delay < RETAIN && threshold > c.delay
    ensures BothRest(c, ForkedStage(threshold), s, 0) && GuestIs(s.g, -1) && AfterAMenu(s)
    ensures GotUpTo(s.g, |s.h.sent|) && GotUpTo(s.h, |s.g.sent|)
  {
    var m := MenuFirst(threshold);
    s := BootPlan(c, m);
    s := Frames(c, m, s, 0, c.minScene, -1, true);
    s := CrossBoth(c, m, ForkedStage(threshold), s, c.minScene);
  }

  /** The stage, up to frame n, at most the one the host asks for. */
  lemma UpTo(c: Config, threshold: int, n: nat, tell: bool) returns (s: Sys)
    requires 1 <= c.delay < RETAIN && threshold > c.delay && n <= AskTarget(c, ForkedStage(threshold))
    ensures BothRest(c, ForkedStage(threshold), s, n) && AfterAMenu(s)
    ensures GuestIs(s.g, StatusAt(c, ForkedStage(threshold), n, -1, tell))
    ensures GotUpTo(s.h, |s.g.sent|) && (tell ==> GotUpTo(s.g, |s.h.sent|))
  {
    s := IntoTheStage(c, threshold);
    s := Frames(c, ForkedStage(threshold), s, 0, n, -1, tell);
  }

  /** Both realign at one frame of a stage entered from a menu, over a channel that kept everything in
      order: all that FireTogether asks for can be had. */
  lemma BothRealign(c: Config) returns (s: Sys, f: int)
    requires 1 <= c.delay < RETAIN && c.minScene >= SafeScene(c.delay)
    ensures Reachable(c, s) && BothInStage(c, s) && InOrder(s.g) && Unstale(s.g, s.h) && |s.h.hist| == 2
    ensures f in s.h.inits && Desynced(s.h, f, f + c.delay + 1)
    ensures NextFrame(s.h) > f + Horizon(c) && NextFrame(s.g) > f + Horizon(c)
    ensures s.h.fired == s.g.fired == [f + Horizon(c)]
  {
    var w := ForkedStage(c.delay + 1);
    var n := AskTarget(c, w);
    f := AskFrame(c, w);
    s := UpTo(c, c.delay + 1, n, true);
    s := HostRealigns(c, w, s, n);
    s := GuestRealigns(c, w, s, n);
    EarlierMenus(c, s);
    MenusAskForNothing(c, s);
  }

  lemma HostRealigns(c: Config, w: Plan, s0: Sys, n: nat) returns (s: Sys)
    requires Reachable(c, s0) && Stands(c, w, s0.h, n) && !w.ui && ArmedFor(s0.h, n)
    ensures Reachable(c, s) && Fired(c, w, s.h, n) && s.g == s0.g && SameFrom(s0.h, s.h) && s.h.inits == s0.h.inits
    ensures |s.h.sent| == |s0.h.sent| + 1 && SentOn(s0.h, s.h) && IsKey(s.h.sent[|s0.h.sent|], w.e, n)
  {
    FiresNow(c, w, s0.h, s0.g, n);
    Acts(c, s0, true, Opening(w, s0.h));
    s := s0.(h := Do(c, s0.h, s0.g, Opening(w, s0.h)));
  }

  lemma GuestRealigns(c: Config, w: Plan, s0: Sys, n: nat) returns (s: Sys)
    requires Reachable(c, s0) && Stands(c, w, s0.g, n) && !w.ui && ArmedFor(s0.g, n)
    ensures Reachable(c, s) && Fired(c, w, s.g, n) && s.h == s0.h && SameFrom(s0.g, s.g) && s.g.inits == s0.g.inits
    ensures |s.g.sent| == |s0.g.sent| + 1 && SentOn(s0.g, s.g) && IsKey(s.g.sent[|s0.g.sent|], w.e, n)
  {
    FiresNow(c, w, s0.g, s0.h, n);
    Acts(c, s0, false, Opening(w, s0.g));
    s := s0.(g := Do(c, s0.g, s0.h, Opening(w, s0.g)));
  }

  lemma EarlierMenus(c: Config, s: Sys)
    requires AfterAMenu(s) && s.h.peer.epoch == 1
    ensures forall e, f :: Has(s.h.hist, e, f) && e < s.h.peer.epoch ==> s.h.hist[e][f].ui
  {
    assert Past(s.h)[0] == s.h.hist[0];
  }

  lemma GuestGoesOn(c: Config, w: Plan, s0: Sys, n: nat) returns (s: Sys)
    requires Reachable(c, s0) && Rests(c, w, s0.g, n) && Calm(s0.g) && !s0.g.peer.isHost
    ensures Reachable(c, s) && Waits(c, w, s.g, n) && Calm(s.g) && s.h == s0.h
  {
    StartsCalmly(c, w, s0.g, s0.h, n);
    Acts(c, s0, false, Opening(w, s0.g));
    s := s0.(g := Do(c, s0.g, s0.h, Opening(w, s0.g)));
  }

  /** The host alone: all its announcements are lost, and at the target it starts counting afresh
      while the guest counts on. Both stand at one frame, in the same modes all along. */
  lemma HostRealignsAlone(c: Config) returns (s: Sys)
    requires 1 <= c.delay < RETAIN && c.minScene >= SafeScene(c.delay)
    ensures Reachable(c, s) && BothInStage(c, s) && |s.h.hist| == |s.g.hist| && NextFrame(s.h) == NextFrame(s.g)
    ensures s.g.peer.resync.enable && Oracle.SameModes(s)
    ensures s.h.fired != [] && s.g.fired == []
    ensures s.h.peer.resync.desyncRun == 0 < s.g.peer.resync.desyncRun
  {
    var w := ForkedStage(c.delay + 1);
    var n := AskTarget(c, w);
    s := UpTo(c, c.delay + 1, n, false);
    s := HostRealigns(c, w, s, n);
    s := GuestGoesOn(c, w, s, n);
    assert s.h.hist[1] == Cur(s.h) && s.g.hist[1] == Cur(s.g);
  }

  // ---- stage after stage ----

  /** A forked stage that ends just after the host's first announcement, and one in sync after it. */
  function FirstStage(c: Config): Plan {
    Plan(c.minScene, 0, false, 1, 0)
  }

  function SecondStage(c: Config): Plan {
    Plan(c.minScene, 1, false, 0, 0)
  }

  /** The announcement is sent in the first stage; the second is begun without its being received. */
  lemma LeavesARequest(c: Config) returns (s: Sys, i: nat)
    requires 1 <= c.delay < RETAIN && c.minScene >= SafeScene(c.delay)
    ensures BothRest(c, SecondStage(c), s, 0) && GuestIs(s.g, -1)
    ensures i < |s.h.sent| && IsRequest(s.h.sent[i], AskTarget(c, FirstStage(c)))
  {
    var w, f := FirstStage(c), AskFrame(c, FirstStage(c));
    s := BootPlan(c, w);
    s := Frames(c, w, s, 0, f, -1, false);
    i := |s.h.sent|;
    s := FrameUntold(c, w, s, f, -1);
    s := CrossBoth(c, w, SecondStage(c), s, f + 1);
  }

  /** In the second stage the old announcement arrives within its horizon. */
  lemma OldRequestComes(c: Config) returns (s: Sys, f: nat)
    requires 1 <= c.delay < RETAIN && c.minScene >= SafeScene(c.delay)
    ensures f == AskFrame(c, FirstStage(c)) && BothRest(c, SecondStage(c), s, f + 1)
    ensures GuestIs(s.g, AskTarget(c, FirstStage(c)))
  {
    var w, i := SecondStage(c), 0;
    f := AskFrame(c, FirstStage(c));
    s, i := LeavesARequest(c);
    s := Frames(c, w, s, 0, f, -1, false);
    s := OpenAll(c, w, s, f, -1);
    s := TellGuest(c, w, s, f, i, AskTarget(c, FirstStage(c)));
    s := CloseBoth(c, w, s, f, AskTarget(c, FirstStage(c)));
  }

  lemma OldRequestArms(c: Config) returns (s: Sys, n: nat)
    requires 1 <= c.delay < RETAIN && c.minScene >= SafeScene(c.delay)
    ensures n == AskTarget(c, FirstStage(c)) && BothRest(c, SecondStage(c), s, n) && GuestIs(s.g, n)
  {
    var f;
    s, f := OldRequestComes(c);
    n := AskTarget(c, FirstStage(c));
    s := Frames(c, SecondStage(c), s, f + 1, n, n, false);
  }

  lemma HostGoesOn(c: Config, w: Plan, s0: Sys, n: nat) returns (s: Sys)
    requires Reachable(c, s0) && Rests(c, w, s0.h, n) && Calm(s0.h) && !Asks(c, w, n)
    ensures Reachable(c, s) && Waits(c, w, s.h, n) && Calm(s.h) && s.g == s0.g
  {
    StartsCalmly(c, w, s0.h, s0.g, n);
    Acts(c, s0, true, Opening(w, s0.h));
    s := s0.(h := Do(c, s0.h, s0.g, Opening(w, s0.h)));
  }

  /** So in a stage that follows a stage the guest can realign alone, both machines being in sync. */
  lemma StaleRequestRealigns(c: Config) returns (s: Sys)
    requires 1 <= c.delay < RETAIN && c.minScene >= SafeScene(c.delay)
    ensures Reachable(c, s) && BothInStage(c, s) && s.h.fired == []
    ensures |s.g.fired| == 1 && !RealignsAt(s.h, s.g.fired[0])
  {
    var n;
    s, n := OldRequestArms(c);
    s := GuestRealigns(c, SecondStage(c), s, n);
    s := HostGoesOn(c, SecondStage(c), s, n);
  }
}
