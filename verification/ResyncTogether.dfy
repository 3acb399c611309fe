/** On a channel that delivers the host's packets in order and loses none, a desync that lasts makes
    both machines realign at one frame, 2 * delay + 2 after the host first noticed: the
    announcement the host repeats delay + 1 frames in reaches the guest neither too early to be
    accepted nor too late to be acted on. */
module ResyncTogether {
  import opened PeerSpec
  import opened Lockstep
  import opened LockstepInv
  import opened Agreement
  import opened ResyncTargets

  /** Everything x has received so far is a prefix of what was sent to it, each packet once. */
  ghost predicate InOrder(x: Side) {
    forall k :: 0 <= k < |x.got| ==> x.got[k] == k
  }

  predicate CarriesUpTo(m: Msg, e: int, s: int) {
    m.pack.ctrl.Keys? && m.pack.epoch >= e && m.pack.ctrl.frame >= s
  }

  ghost predicate GotFrame(x: Side, h: Side, s: int) {
    exists j :: 0 <= j < |x.got| && x.got[j] < |h.sent| && CarriesUpTo(h.sent[x.got[j]], x.peer.epoch, s)
  }

  /** The slot completing frame f read had come in. */
  ghost predicate Used(c: Config, x: Side, h: Side, f: int) {
    GotFrame(x, h, f - c.delay)
  }

  /** The frames completed in the current scene. */
  function Done(x: Side): seq<Out>
    requires x.outs != []
  {
    x.outs[|x.outs| - 1]
  }

  /** Whatever the guest holds or has used in this scene came in some packet it received, of this
      scene or a newer one. */
  ghost predicate KeyGot(c: Config, x: Side, h: Side) {
    && x.outs != []
    && (forall j :: 0 <= j < |x.got| ==> x.got[j] < |h.sent|)
    && (forall s :: s in x.peer.rcved.bits ==> GotFrame(x, h, s))
    && (forall f :: c.delay <= f < |Done(x)| ==> Used(c, x, h, f))
  }

  /** The announcement repeated delay + 1 frames after initiation. */
  predicate Timely(c: Config, m: Msg) {
    m.pack.ctrl.TryResync? && m.at == m.pack.ctrl.frameToResync - c.delay - 1
  }

  predicate TimelyNow(c: Config, m: Msg, e: int) {
    Timely(c, m) && m.pack.epoch == e
  }

  predicate Settled(x: Side, t: int) {
    t in x.fired || (x.peer.resync.trigger && x.peer.resync.stageFrame == t)
  }

  ghost predicate Adopted(c: Config, x: Side, h: Side) {
    forall r :: 0 <= r < |x.got| && r < |h.sent| && TimelyNow(c, h.sent[r], x.peer.epoch)
      ==> Settled(x, h.sent[r].pack.ctrl.frameToResync)
  }

  /** If the desync that began target i lasts to frame f, and f is not past it, it is announced at f. */
  ghost predicate AnnouncesThrough(c: Config, x: Side, i: int, f: int)
    requires x.hist != [] && 0 <= i < |x.inits|
  {
    f < x.inits[i] + Horizon(c) && Desynced(x, x.inits[i], f) ==> AnnouncedAt(x, x.inits[i] + Horizon(c), f)
  }

  /** The host keeps announcing a target through every frame it enters desynced. */
  ghost predicate InitsOk(c: Config, x: Side)
    requires x.hist != []
  {
    var n, q := |Cur(x)|, x.peer.resync;
    && (forall i :: 0 <= i < |x.inits| ==> 0 <= x.inits[i] < n && IsTarget(x, x.inits[i] + Horizon(c)))
    && (forall i, f :: 0 <= i < |x.inits| && x.inits[i] <= f < n ==> AnnouncesThrough(c, x, i, f))
    && (q.trigger && Desynced(x, q.stageFrame - Horizon(c), n - 1) ==> q.desyncRun >= q.threshold)
  }

  ghost predicate FifoInv(c: Config, s: Sys) {
    && KeyGot(c, s.g, s.h)
    && (InStage(s.h) && s.h.peer.resync.threshold > c.delay ==> InitsOk(c, s.h))
    && (BothInStage(c, s) && InOrder(s.g) && Unstale(s.g, s.h) ==> Adopted(c, s.g, s.h))
  }

  // ---- what was received ----

  lemma GotStays(x: Side, x': Side, h: Side, h': Side, s: int)
    requires GotFrame(x, h, s) && x'.peer.epoch == x.peer.epoch && |x.got| <= |x'.got| && |h.sent| <= |h'.sent|
    requires forall j :: 0 <= j < |x.got| ==> x'.got[j] == x.got[j]
    requires forall j :: 0 <= j < |h.sent| ==> h'.sent[j] == h.sent[j]
    ensures GotFrame(x', h', s)
  {
    var j :| 0 <= j < |x.got| && x.got[j] < |h.sent| && CarriesUpTo(h.sent[x.got[j]], x.peer.epoch, s);
    assert CarriesUpTo(h'.sent[x'.got[j]], x'.peer.epoch, s);
  }

  lemma UsedStays(c: Config, x: Side, x': Side, h: Side, h': Side, n: int)
    requires forall f :: c.delay <= f < n ==> Used(c, x, h, f)
    requires x'.peer.epoch == x.peer.epoch && |x.got| <= |x'.got| && |h.sent| <= |h'.sent|
    requires forall j :: 0 <= j < |x.got| ==> x'.got[j] == x.got[j]
    requires forall j :: 0 <= j < |h.sent| ==> h'.sent[j] == h.sent[j]
    ensures forall f :: c.delay <= f < n ==> Used(c, x', h', f)
  {
    forall f | c.delay <= f < n ensures Used(c, x', h', f) {
      assert Used(c, x, h, f);
      GotStays(x, x', h, h', f - c.delay);
    }
  }

  lemma KeyGotHostActs(c: Config, x: Side, h: Side, a: Action)
    requires Can(c, h, x, a) && KeyGot(c, x, h)
    ensures KeyGot(c, x, Do(c, h, x, a))
  {
    var h' := Do(c, h, x, a);
    forall s | s in x.peer.rcved.bits ensures GotFrame(x, h', s) { GotStays(x, x, h, h', s); }
    UsedStays(c, x, x, h, h', |Done(x)|);
  }

  /** The received maps shrink, or gain the window of one more packet received. */
  lemma KeyGotDelivers(c: Config, x: Side, h: Side, a: Action)
    requires a.Deliver? && Can(c, x, h, a) && KeyGot(c, x, h)
    ensures KeyGot(c, Do(c, x, h, a), h)
  {
    var x' := Do(c, x, h, a);
    var k := h.sent[a.i].pack.ctrl;
    assert x'.got[|x.got|] == a.i;
    forall s | s in x'.peer.rcved.bits ensures GotFrame(x', h, s) {
      if s in x.peer.rcved.bits {
        GotStays(x, x', h, h, s);
      } else {
        assert CarriesUpTo(h.sent[x'.got[|x.got|]], x'.peer.epoch, s);
      }
    }
    UsedStays(c, x, x', h, h, |Done(x)|);
  }

  lemma KeyGotStarts(c: Config, x: Side, h: Side, a: Action)
    requires a.Start? && Can(c, x, h, a) && KeyGot(c, x, h)
    ensures KeyGot(c, Do(c, x, h, a), h)
  {
    var x' := Do(c, x, h, a);
    ResyncFrame(x.peer.(netFrame := NextFrame(x)), NextFrame(x), a.ui, Arrivals(h, a.drained, a.now));
    forall s | s in x'.peer.rcved.bits ensures GotFrame(x', h, s) { GotStays(x, x', h, h, s); }
    UsedStays(c, x, x', h, h, |Done(x)|);
  }

  lemma KeyGotFinishes(c: Config, x: Side, h: Side, a: Action)
    requires a.Finish? && Can(c, x, h, a) && KeyGot(c, x, h) && ShapeOk(c, x)
    ensures KeyGot(c, Do(c, x, h, a), h)
  {
    var x' := Do(c, x, h, a);
    var n := |Done(x)|;
    UsedStays(c, x, x', h, h, n);
    if n >= c.delay {
      GotStays(x, x', h, h, n - c.delay);
      assert Used(c, x', h, n);
    }
    forall s | s in x'.peer.rcved.bits ensures GotFrame(x', h, s) { GotStays(x, x', h, h, s); }
  }

  lemma KeyGotActs(c: Config, x: Side, h: Side, a: Action)
    requires Can(c, x, h, a) && KeyGot(c, x, h) && ShapeOk(c, x)
    ensures KeyGot(c, Do(c, x, h, a), h)
  {
    if a.Start? {
      KeyGotStarts(c, x, h, a);
    } else if a.Deliver? {
      KeyGotDelivers(c, x, h, a);
    } else if a.Finish? {
      KeyGotFinishes(c, x, h, a);
    } else if !a.Reset? {
      var x' := Do(c, x, h, a);
      forall s | s in x'.peer.rcved.bits ensures GotFrame(x', h, s) { GotStays(x, x', h, h, s); }
      UsedStays(c, x, x', h, h, |Done(x)|);
    }
  }

  // ---- a timely announcement arrives in time ----

  /** What completed a frame of an in-order receiver came before any packet it has yet to receive. */
  lemma UsedCameBefore(c: Config, x: Side, h: Side, f: int, r: nat)
    requires InOrder(x) && |x.got| <= r
    ensures Used(c, x, h, f) ==> exists j :: 0 <= j < r && j < |h.sent| && CarriesUpTo(h.sent[j], x.peer.epoch, f - c.delay)
  {
    if Used(c, x, h, f) {
      var j :| 0 <= j < |x.got| && x.got[j] < |h.sent| && CarriesUpTo(h.sent[x.got[j]], x.peer.epoch, f - c.delay);
      assert x.got[j] == j;
    }
  }

  /** Before a request no packet of the host reaches its frame. */
  lemma NothingBefore(c: Config, h: Side, r: nat)
    requires SentOk(h) && |h.hist| == h.peer.epoch + 1 && r < |h.sent| && h.sent[r].pack.ctrl.TryResync?
    requires RequestOk(c, h, r)
    ensures forall j :: 0 <= j < r ==> !CarriesUpTo(h.sent[j], h.peer.epoch, h.sent[r].at)
  {
    forall j | 0 <= j < r ensures !CarriesUpTo(h.sent[j], h.peer.epoch, h.sent[r].at) {
      assert Truthful(h.sent[j].pack, h.hist);
    }
  }

  /** Until the guest has received a timely announcement it has not started its target frame. */
  lemma NotYetAtTarget(c: Config, s: Sys, r: nat)
    requires Inv(c, s) && ResyncInv(c, s) && BothInStage(c, s) && KeyGot(c, s.g, s.h) && InOrder(s.g)
    requires |s.g.got| <= r < |s.h.sent| && TimelyNow(c, s.h.sent[r], s.g.peer.epoch)
    ensures NextFrame(s.g) <= s.h.sent[r].pack.ctrl.frameToResync
  {
    var t := s.h.sent[r].pack.ctrl.frameToResync;
    assert RequestOk(c, s.h, r);
    assert NextFrame(s.g) > t ==> Used(c, s.g, s.h, t - 1);
    UsedCameBefore(c, s.g, s.h, t - 1, r);
    NothingBefore(c, s.h, r);
  }

  /** It is accepted: the guest is within the horizon of the target and not yet there. */
  lemma TimelyIsAccepted(c: Config, s: Sys, r: nat)
    requires Inv(c, s) && ResyncInv(c, s) && BothInStage(c, s) && KeyGot(c, s.g, s.h) && InOrder(s.g)
    requires |s.g.got| <= r < |s.h.sent| && TimelyNow(c, s.h.sent[r], s.g.peer.epoch) && s.g.phase == Waiting
    ensures AcceptsResync(s.g.peer, s.h.sent[r].pack.ctrl.frameToResync)
  {
    NotYetAtTarget(c, s, r);
    assert RequestOk(c, s.h, r);
    SkewOneWay(c, s.h, s.g);
  }

  lemma AdoptDelivers(c: Config, s: Sys, a: Action)
    requires Inv(c, s) && ResyncInv(c, s) && BothInStage(c, s) && KeyGot(c, s.g, s.h)
    requires a.Deliver? && Can(c, s.g, s.h, a) && InOrder(Do(c, s.g, s.h, a)) && Adopted(c, s.g, s.h)
    requires Unstale(Do(c, s.g, s.h, a), s.h)
    ensures Adopted(c, Do(c, s.g, s.h, a), s.h)
  {
    var x' := Do(c, s.g, s.h, a);
    var m := |s.g.got|;
    assert forall k :: 0 <= k < m ==> s.g.got[k] == x'.got[k];
    assert x'.got[m] == a.i;
    if TimelyNow(c, s.h.sent[a.i], s.g.peer.epoch) { TimelyIsAccepted(c, s, a.i); }
    ReceiveFrame(s.g.peer, Arrival(s.h.sent[a.i].pack, a.now));
    forall r | 0 <= r < |x'.got| && r < |s.h.sent| && TimelyNow(c, s.h.sent[r], x'.peer.epoch)
      ensures Settled(x', s.h.sent[r].pack.ctrl.frameToResync)
    {
      if r < m && s.h.sent[r].pack.ctrl.frameToResync !in s.g.fired {
        assert Settled(s.g, s.h.sent[r].pack.ctrl.frameToResync);
        RearmedAlike(c, s, a.i, a.now);
      }
    }
  }

  /** A timely announcement still to come when the guest realigns is one for this very frame. */
  lemma ComesForThisFrame(c: Config, s: Sys, r: nat)
    requires Inv(c, s) && ResyncInv(c, s) && BothInStage(c, s) && KeyGot(c, s.g, s.h) && InOrder(s.g) && Unstale(s.g, s.h)
    requires Fires(s.g.peer.(netFrame := NextFrame(s.g)), NextFrame(s.g), false)
    requires |s.g.got| <= r < |s.h.sent| && TimelyNow(c, s.h.sent[r], s.g.peer.epoch)
    ensures s.h.sent[r].pack.ctrl.frameToResync == NextFrame(s.g)
  {
    var t := s.h.sent[r].pack.ctrl.frameToResync;
    NotYetAtTarget(c, s, r);
    assert IsCurrent(s.h, s.h.sent[r], t);
    ReceivedIsAnnounced(s.g, s.h, NextFrame(s.g));
    OnePendingTarget(c, s, t, NextFrame(s.g));
  }

  lemma AdoptFires(c: Config, s: Sys, a: Action)
    requires Inv(c, s) && ResyncInv(c, s) && BothInStage(c, s) && KeyGot(c, s.g, s.h)
    requires a.Start? && !a.ui && Can(c, s.g, s.h, a) && InOrder(Do(c, s.g, s.h, a)) && Adopted(c, s.g, s.h)
    requires Unstale(Do(c, s.g, s.h, a), s.h)
    requires Fires(s.g.peer.(netFrame := NextFrame(s.g)), NextFrame(s.g), false)
    ensures Adopted(c, Do(c, s.g, s.h, a), s.h)
  {
    var x' := Do(c, s.g, s.h, a);
    StartGrows(c, s.g, s.h, a);
    WasInOrder(c, s.g, s.h, a);
    WasUnstale(s.g, x', s.h);
    assert x'.fired == s.g.fired + [NextFrame(s.g)];
    forall r | 0 <= r < |x'.got| && r < |s.h.sent| && TimelyNow(c, s.h.sent[r], x'.peer.epoch)
      ensures Settled(x', s.h.sent[r].pack.ctrl.frameToResync)
    {
      if r < |s.g.got| {
        assert Settled(s.g, s.h.sent[r].pack.ctrl.frameToResync);
      } else {
        ComesForThisFrame(c, s, r);
      }
    }
  }

  lemma AdoptStarts(c: Config, s: Sys, a: Action)
    requires Inv(c, s) && ResyncInv(c, s) && BothInStage(c, s) && KeyGot(c, s.g, s.h)
    requires a.Start? && !a.ui && Can(c, s.g, s.h, a) && InOrder(Do(c, s.g, s.h, a)) && Adopted(c, s.g, s.h)
    requires Unstale(Do(c, s.g, s.h, a), s.h)
    ensures Adopted(c, Do(c, s.g, s.h, a), s.h)
  {
    var p, n := s.g.peer.(netFrame := NextFrame(s.g)), NextFrame(s.g);
    if Fires(p, n, false) {
      AdoptFires(c, s, a);
    } else {
      TopIdle(p, n, Arrivals(s.h, a.drained, a.now));
      AdoptSame(c, s.g, Do(c, s.g, s.h, a), s.h);
    }
  }

  lemma AdoptSame(c: Config, x: Side, x': Side, h: Side)
    requires Adopted(c, x, h) && x'.got == x.got && x'.fired == x.fired && x'.peer.epoch == x.peer.epoch
    requires x'.peer.resync.trigger == x.peer.resync.trigger && x'.peer.resync.stageFrame == x.peer.resync.stageFrame
    ensures Adopted(c, x', h)
  {
  }

  lemma AdoptActs(c: Config, s: Sys, a: Action)
    requires Inv(c, s) && ResyncInv(c, s) && BothInStage(c, s) && KeyGot(c, s.g, s.h) && Can(c, s.g, s.h, a)
    requires !a.Reset? && (a.Start? ==> !a.ui)
    requires InOrder(Do(c, s.g, s.h, a)) && Adopted(c, s.g, s.h) && Unstale(Do(c, s.g, s.h, a), s.h)
    ensures Adopted(c, Do(c, s.g, s.h, a), s.h)
  {
    if a.Start? { AdoptStarts(c, s, a); }
    else if a.Deliver? { AdoptDelivers(c, s, a); }
    else { AdoptSame(c, s.g, Do(c, s.g, s.h, a), s.h); }
  }

  lemma WasInOrder(c: Config, x: Side, y: Side, a: Action)
    requires Can(c, x, y, a) && InOrder(Do(c, x, y, a))
    ensures InOrder(x)
  {
    var x' := Do(c, x, y, a);
    assert forall k :: 0 <= k < |x.got| ==> x.got[k] == x'.got[k];
  }

  lemma AdoptHostActs(c: Config, x: Side, h: Side, a: Action)
    requires Can(c, h, x, a) && KeyGot(c, x, h) && InOrder(x) && Adopted(c, x, h)
    ensures Adopted(c, x, Do(c, h, x, a))
  {
    var h' := Do(c, h, x, a);
    forall r | 0 <= r < |x.got| && r < |h'.sent| && TimelyNow(c, h'.sent[r], x.peer.epoch)
      ensures Settled(x, h'.sent[r].pack.ctrl.frameToResync)
    {
      assert x.got[r] == r;
      assert h'.sent[r] == h.sent[r];
    }
  }

  // ---- the host announces as long as the desync lasts ----

  lemma AnnouncedAtStays(x: Side, x': Side, t: int, f: int)
    requires AnnouncedAt(x, t, f) && x'.peer.epoch == x.peer.epoch
    requires |x.sent| <= |x'.sent| && forall r :: 0 <= r < |x.sent| ==> x'.sent[r] == x.sent[r]
    ensures AnnouncedAt(x', t, f)
  {
    var r :| 0 <= r < |x.sent| && IsCurrent(x, x.sent[r], t) && x.sent[r].at == f;
    assert IsCurrent(x', x'.sent[r], t);
  }

  /** Announcements up to frame n - 1 are kept; what frame n adds is for the caller to show. */
  lemma InitsAnnounced(c: Config, x: Side, x': Side, n: int)
    requires x.hist != [] && x'.hist != [] && n == |Cur(x)| && |Cur(x')| >= n && x'.peer.epoch == x.peer.epoch
    requires forall i, f :: 0 <= i < |x.inits| && x.inits[i] <= f < n ==> AnnouncesThrough(c, x, i, f)
    requires forall k :: 0 <= k < |Cur(x)| ==> Cur(x')[k] == Cur(x)[k]
    requires |x.sent| <= |x'.sent| && forall r :: 0 <= r < |x.sent| ==> x'.sent[r] == x.sent[r]
    requires x'.inits == x.inits || x'.inits == x.inits + [n]
    ensures forall i, f :: 0 <= i < |x'.inits| && x'.inits[i] <= f < n ==> AnnouncesThrough(c, x', i, f)
  {
    forall i, f | 0 <= i < |x'.inits| && x'.inits[i] <= f < n ensures AnnouncesThrough(c, x', i, f) {
      if f < x'.inits[i] + Horizon(c) && Desynced(x', x'.inits[i], f) {
        assert AnnouncesThrough(c, x, i, f);
        assert Desynced(x, x.inits[i], f);
        AnnouncedAtStays(x, x', x.inits[i] + Horizon(c), f);
      }
    }
  }

  /** The next frame of a machine in its scene, in the fields that matter here. */
  ghost predicate OneMoreFrame(x: Side, x': Side) {
    && x.hist != [] && x'.hist != [] && x'.peer.epoch == x.peer.epoch
    && |Cur(x')| == |Cur(x)| + 1
    && (forall k :: 0 <= k < |Cur(x)| ==> Cur(x')[k] == Cur(x)[k])
    && Cur(x')[|Cur(x)|].wasSync == x.peer.isSync
    && |x.sent| <= |x'.sent| && (forall r :: 0 <= r < |x.sent| ==> x'.sent[r] == x.sent[r])
  }

  lemma StartAddsFrame(c: Config, x: Side, y: Side, a: Action)
    requires a.Start? && Can(c, x, y, a)
    ensures OneMoreFrame(x, Do(c, x, y, a))
  {
    StartGrows(c, x, y, a);
  }

  lemma InitsFire(c: Config, x: Side, x': Side)
    requires OneMoreFrame(x, x') && InitsOk(c, x) && x.peer.resync.trigger && x.peer.resync.stageFrame == |Cur(x)|
    requires x'.fired == x.fired + [|Cur(x)|] && x'.inits == x.inits && !x'.peer.resync.trigger
    requires forall i :: 0 <= i < |x.fired| ==> x.fired[i] < |Cur(x)|
    ensures InitsOk(c, x')
  {
    var n := |Cur(x)|;
    InitsAnnounced(c, x, x', n);
    forall i | 0 <= i < |x'.inits| ensures AnnouncesThrough(c, x', i, n) && IsTarget(x', x'.inits[i] + Horizon(c)) {
      assert IsTarget(x, x.inits[i] + Horizon(c));
      if x.inits[i] + Horizon(c) == n { assert x'.fired[|x.fired|] == n; }
    }
  }

  lemma InitsAnnounce(c: Config, x: Side, x': Side)
    requires OneMoreFrame(x, x') && InitsOk(c, x) && c.delay >= 1
    requires var n, t := |Cur(x)|, x'.peer.resync.stageFrame;
             && x'.peer.resync.trigger && AnnouncedAt(x', t, n)
             && (if x.peer.resync.trigger then t == x.peer.resync.stageFrame && x'.inits == x.inits
                 else t == n + Horizon(c) && x'.inits == x.inits + [n])
    requires x'.fired == x.fired && x'.peer.resync.desyncRun >= x'.peer.resync.threshold
    requires forall i :: 0 <= i < |x.fired| ==> x.fired[i] < |Cur(x)|
    ensures InitsOk(c, x')
  {
    var n := |Cur(x)|;
    InitsAnnounced(c, x, x', n);
    forall i | 0 <= i < |x'.inits| ensures AnnouncesThrough(c, x', i, n) && IsTarget(x', x'.inits[i] + Horizon(c)) {
      if i < |x.inits| { assert IsTarget(x, x.inits[i] + Horizon(c)); }
    }
  }

  /** The flag was true, or the run of desynced frames is still below the threshold. */
  lemma InitsIdle(c: Config, x: Side, x': Side)
    requires OneMoreFrame(x, x') && InitsOk(c, x) && x'.fired == x.fired && x'.inits == x.inits
    requires x'.peer.resync.trigger == x.peer.resync.trigger && x'.peer.resync.stageFrame == x.peer.resync.stageFrame
    requires x.peer.resync.trigger ==> x.peer.resync.stageFrame <= |Cur(x)| - 1 + Horizon(c)
    requires x.peer.isSync || x.peer.resync.desyncRun + 1 < x.peer.resync.threshold
    requires forall i :: 0 <= i < |x.fired| ==> x.fired[i] < |Cur(x)|
    ensures InitsOk(c, x')
  {
    var n, q := |Cur(x)|, x.peer.resync;
    InitsAnnounced(c, x, x', n);
    if q.trigger { DesyncIsOver(c, x, x', q.stageFrame - Horizon(c)); }
    forall i | 0 <= i < |x'.inits| ensures AnnouncesThrough(c, x', i, n) && IsTarget(x', x'.inits[i] + Horizon(c)) {
      assert IsTarget(x, x.inits[i] + Horizon(c));
    }
  }

  lemma DesyncIsOver(c: Config, x: Side, x': Side, i: int)
    requires OneMoreFrame(x, x') && InitsOk(c, x) && x.peer.resync.trigger && i == x.peer.resync.stageFrame - Horizon(c)
    requires i <= |Cur(x)| - 1 && (x.peer.isSync || x.peer.resync.desyncRun + 1 < x.peer.resync.threshold)
    ensures !Desynced(x', i, |Cur(x)|)
  {
    var n := |Cur(x)|;
    assert Cur(x')[n].wasSync == x.peer.isSync;
    ShorterDesync(x, x', i, n - 1);
  }

  lemma ShorterDesync(x: Side, x': Side, i: int, f: int)
    requires OneMoreFrame(x, x') && f < |Cur(x)|
    ensures Desynced(x', i, f + 1) ==> Desynced(x, i, f)
  {
    forall k | i <= k <= f && 0 <= k < |Cur(x)| ensures Cur(x')[k] == Cur(x)[k] {
    }
  }

  lemma InitsStartFires(c: Config, x: Side, y: Side, a: Action)
    requires HostStartsWith(c, x, y, a) && x.peer.isHost && Sound(c, x, y) && HostOk(c, x) && InitsOk(c, x)
    requires Fires(x.peer.(netFrame := NextFrame(x)), NextFrame(x), false)
    ensures InitsOk(c, Do(c, x, y, a))
  {
    StartAddsFrame(c, x, y, a);
    TopFires(x.peer.(netFrame := NextFrame(x)), NextFrame(x), Arrivals(y, a.drained, a.now));
    InitsFire(c, x, Do(c, x, y, a));
  }

  lemma InitsStartAnnounces(c: Config, x: Side, y: Side, a: Action)
    requires HostStartsWith(c, x, y, a) && x.peer.isHost && Sound(c, x, y) && HostOk(c, x) && InitsOk(c, x)
    requires Announces(x.peer.(netFrame := NextFrame(x)), NextFrame(x), false)
    ensures InitsOk(c, Do(c, x, y, a))
  {
    StartAddsFrame(c, x, y, a);
    TopAnnounces(x.peer.(netFrame := NextFrame(x)), NextFrame(x), Arrivals(y, a.drained, a.now));
    HostAnnounces(c, x, y, a);
    InitsAnnounce(c, x, Do(c, x, y, a));
  }

  lemma InitsStartIdles(c: Config, x: Side, y: Side, a: Action)
    requires HostStartsWith(c, x, y, a) && x.peer.isHost && Sound(c, x, y) && HostOk(c, x) && InitsOk(c, x)
    requires !Fires(x.peer.(netFrame := NextFrame(x)), NextFrame(x), false)
    requires !Announces(x.peer.(netFrame := NextFrame(x)), NextFrame(x), false)
    ensures InitsOk(c, Do(c, x, y, a))
  {
    StartAddsFrame(c, x, y, a);
    TopIdle(x.peer.(netFrame := NextFrame(x)), NextFrame(x), Arrivals(y, a.drained, a.now));
    InitsIdle(c, x, Do(c, x, y, a));
  }

  lemma InitsStart(c: Config, x: Side, y: Side, a: Action)
    requires HostStartsWith(c, x, y, a) && x.peer.isHost && Sound(c, x, y) && HostOk(c, x) && InitsOk(c, x)
    ensures InitsOk(c, Do(c, x, y, a))
  {
    var p, n := x.peer.(netFrame := NextFrame(x)), NextFrame(x);
    if Fires(p, n, false) { InitsStartFires(c, x, y, a); }
    else if Announces(p, n, false) { InitsStartAnnounces(c, x, y, a); }
    else { InitsStartIdles(c, x, y, a); }
  }

  lemma InitsSame(c: Config, x: Side, x': Side)
    requires x.hist != [] && InitsOk(c, x) && x'.hist == x.hist && x'.fired == x.fired && x'.inits == x.inits
    requires x'.peer.resync == x.peer.resync && x'.peer.epoch == x.peer.epoch
    requires |x.sent| <= |x'.sent| && forall r :: 0 <= r < |x.sent| ==> x'.sent[r] == x.sent[r]
    ensures InitsOk(c, x')
  {
    InitsAnnounced(c, x, x', |Cur(x)|);
    forall i | 0 <= i < |x'.inits| ensures IsTarget(x', x'.inits[i] + Horizon(c)) {
      assert IsTarget(x, x.inits[i] + Horizon(c));
    }
  }

  lemma InitsActs(c: Config, x: Side, y: Side, a: Action)
    requires Can(c, x, y, a) && Sound(c, x, y) && HostOk(c, x) && InitsOk(c, x) && NoRequests(y)
    requires !a.Reset? && (a.Start? ==> !a.ui) && x.peer.isHost
    requires x.peer.resync.enable && x.peer.resync.threshold > c.delay
    ensures InitsOk(c, Do(c, x, y, a))
  {
    if a.Start? { InitsStart(c, x, y, a); }
    else { InitsSame(c, x, Do(c, x, y, a)); }
  }

  // ---- over runs ----

  lemma HostKeepsFifo(c: Config, s: Sys, s': Sys, a: Action)
    requires Inv(c, s) && ResyncInv(c, s) && FifoInv(c, s) && s'.g == s.g
    requires Can(c, s.h, s.g, a) && s'.h == Do(c, s.h, s.g, a)
    ensures FifoInv(c, s')
  {
    KeyGotHostActs(c, s.g, s.h, a);
    if a.Reset? {
      NothingAnnouncedYet(c, s.h, s.g, a);
    } else {
      if InStage(s'.h) && s'.h.peer.resync.threshold > c.delay {
        WasInStage(c, s.h, s.g, a);
        InitsActs(c, s.h, s.g, a);
      }
      if BothInStage(c, s') && InOrder(s.g) && Unstale(s.g, s'.h) { HostKeepsAdopted(c, s, s', a); }
    }
  }

  lemma HostKeepsAdopted(c: Config, s: Sys, s': Sys, a: Action)
    requires FifoInv(c, s) && s'.g == s.g && Can(c, s.h, s.g, a) && s'.h == Do(c, s.h, s.g, a) && !a.Reset?
    requires BothInStage(c, s') && InOrder(s.g) && Unstale(s.g, s'.h)
    ensures Adopted(c, s.g, s'.h)
  {
    WasInStage(c, s.h, s.g, a);
    EpochStays(c, s.h, s.g, a);
    forall k | s.g.base <= k < |s.g.got| && s.g.got[k] < |s.h.sent| && s.h.sent[s.g.got[k]].pack.ctrl.TryResync?
      ensures s.h.sent[s.g.got[k]].pack.epoch == s.g.peer.epoch
    {
      assert s'.h.sent[s.g.got[k]] == s.h.sent[s.g.got[k]];
    }
    AdoptHostActs(c, s.g, s.h, a);
  }

  lemma EpochStays(c: Config, x: Side, y: Side, a: Action)
    requires Can(c, x, y, a) && !a.Reset?
    ensures Do(c, x, y, a).peer.epoch == x.peer.epoch && Do(c, x, y, a).base == x.base
  {
    if a.Start? { StartGrows(c, x, y, a); }
    else if a.Deliver? { ReceiveFrame(x.peer, Arrival(y.sent[a.i].pack, a.now)); }
  }

  /** A scene just begun has no announcement, received or not. */
  lemma NothingAnnouncedYet(c: Config, h: Side, x: Side, a: Action)
    requires a.Reset? && Can(c, h, x, a) && ShapeOk(c, h) && RequestsInPlay(h)
    ensures var h' := Do(c, h, x, a);
            && InitsOk(c, h') && forall r :: 0 <= r < |h'.sent| ==> !TimelyNow(c, h'.sent[r], h'.peer.epoch)
  {
    forall r | 0 <= r < |h.sent| && h.sent[r].pack.ctrl.TryResync? ensures h.sent[r].pack.epoch <= h.peer.epoch {
      assert InPlay(h.hist, h.sent[r]);
    }
  }

  /** A host not past its threshold in a scene has announced nothing there. */
  lemma TooEarlyToAnnounce(c: Config, h: Side)
    requires h.hist != [] && RequestsOk(c, h) && |Cur(h)| <= h.peer.resync.threshold
    ensures forall r :: 0 <= r < |h.sent| ==> !TimelyNow(c, h.sent[r], h.peer.epoch)
  {
  }

  /** Nor has the host announced anything by the time its peer follows into the scene. */
  lemma FollowsIntoSilence(c: Config, s: Sys, a: Action)
    requires Inv(c, s) && ResyncInv(c, s) && a.Reset? && Can(c, s.g, s.h, a) && c.minScene > c.delay
    requires InStage(s.h) && s.h.peer.resync.threshold > c.delay && s.h.peer.epoch == s.g.peer.epoch + 1
    ensures Adopted(c, Do(c, s.g, s.h, a), s.h)
  {
    AheadIsBlocked(c, s.g, s.h);
    TooEarlyToAnnounce(c, s.h);
  }

  lemma GuestKeepsFifo(c: Config, s: Sys, s': Sys, a: Action)
    requires Inv(c, s) && ResyncInv(c, s) && FifoInv(c, s) && s'.h == s.h && c.minScene >= SafeScene(c.delay)
    requires Can(c, s.g, s.h, a) && s'.g == Do(c, s.g, s.h, a)
    ensures FifoInv(c, s')
  {
    KeyGotActs(c, s.g, s.h, a);
    if BothInStage(c, s') && InOrder(s'.g) && Unstale(s'.g, s.h) {
      if a.Reset? {
        FollowsIntoSilence(c, s, a);
      } else {
        GuestKeepsAdopted(c, s, s', a);
      }
    }
  }

  lemma GuestKeepsAdopted(c: Config, s: Sys, s': Sys, a: Action)
    requires Inv(c, s) && ResyncInv(c, s) && FifoInv(c, s) && s'.h == s.h && !a.Reset?
    requires Can(c, s.g, s.h, a) && s'.g == Do(c, s.g, s.h, a)
    requires BothInStage(c, s') && InOrder(s'.g) && Unstale(s'.g, s.h)
    ensures Adopted(c, s'.g, s.h)
  {
    WasInStage(c, s.g, s.h, a);
    WasInOrder(c, s.g, s.h, a);
    EpochStays(c, s.g, s.h, a);
    WasUnstale(s.g, s'.g, s.h);
    AdoptActs(c, s, a);
  }

  lemma {:induction false} RunFifo(c: Config, t: seq<Sys>)
    requires IsRun(c, t) && c.minScene >= SafeScene(c.delay)
    ensures Inv(c, t[|t| - 1]) && ResyncInv(c, t[|t| - 1]) && FifoInv(c, t[|t| - 1])
  {
    RunResyncInv(c, t);
    if |t| > 1 {
      var u := t[..|t| - 1];
      LastStep(c, t);
      RunFifo(c, u);
      var v, w := t[|t| - 2], t[|t| - 1];
      assert u[|u| - 1] == v;
      RunResyncInv(c, u);
      if w.g == v.g && Moves(c, v.h, v.g, w.h) {
        var a :| Can(c, v.h, v.g, a) && w.h == Do(c, v.h, v.g, a);
        HostKeepsFifo(c, v, w, a);
      } else {
        var a :| Can(c, v.g, v.h, a) && w.g == Do(c, v.g, v.h, a);
        GuestKeepsFifo(c, v, w, a);
      }
    }
  }

  lemma ReachableFifo(c: Config, s: Sys)
    requires Reachable(c, s) && c.minScene >= SafeScene(c.delay)
    ensures Inv(c, s) && ResyncInv(c, s) && FifoInv(c, s)
  {
    var t: seq<Sys> :| IsRun(c, t) && t[|t| - 1] == s;
    RunFifo(c, t);
  }

  /** The host notices at frame f a desync that has lasted its threshold, the desync lasts delay + 1
      frames more, and the guest receives the host's packets in order without loss: both realign at
      frame f + 2 * delay + 2, by the time each has started that frame. */
  lemma FireTogether(c: Config, s: Sys, f: int)
    requires Reachable(c, s) && c.minScene >= SafeScene(c.delay) && BothInStage(c, s)
    requires InOrder(s.g) && Unstale(s.g, s.h)
    requires f in s.h.inits && Desynced(s.h, f, f + c.delay + 1)
    requires NextFrame(s.h) > f + Horizon(c) && NextFrame(s.g) > f + Horizon(c)
    ensures f + Horizon(c) in s.h.fired && f + Horizon(c) in s.g.fired
  {
    ReachableFifo(c, s);
    BothTargets(c, s, f);
  }

  lemma BothTargets(c: Config, s: Sys, f: int)
    requires Inv(c, s) && ResyncInv(c, s) && FifoInv(c, s) && BothInStage(c, s) && InOrder(s.g) && Unstale(s.g, s.h)
    requires f in s.h.inits && Desynced(s.h, f, f + c.delay + 1)
    requires NextFrame(s.h) > f + Horizon(c) && NextFrame(s.g) > f + Horizon(c)
    ensures f + Horizon(c) in s.h.fired && f + Horizon(c) in s.g.fired
  {
    HostTarget(c, s.h, f);
    GuestTarget(c, s, f);
  }

  lemma GuestTarget(c: Config, s: Sys, f: int)
    requires Inv(c, s) && ResyncInv(c, s) && FifoInv(c, s) && BothInStage(c, s) && InOrder(s.g) && Unstale(s.g, s.h)
    requires f in s.h.inits && Desynced(s.h, f, f + c.delay + 1)
    requires NextFrame(s.h) > f + Horizon(c) && NextFrame(s.g) > f + Horizon(c)
    ensures f + Horizon(c) in s.g.fired
  {
    var r := TimelyAnnouncement(c, s.h, f);
    TimelyIsActedOn(c, s, r);
  }

  lemma HostTarget(c: Config, x: Side, f: int)
    requires x.hist != [] && f in x.inits && NextFrame(x) > f + Horizon(c)
    requires x.peer.resync.trigger ==> NextFrame(x) <= x.peer.resync.stageFrame
    requires forall i :: 0 <= i < |x.inits| ==> IsTarget(x, x.inits[i] + Horizon(c))
    ensures f + Horizon(c) in x.fired
  {
    var i :| 0 <= i < |x.inits| && x.inits[i] == f;
    assert IsTarget(x, x.inits[i] + Horizon(c));
  }

  lemma TimelyAnnouncement(c: Config, x: Side, f: int) returns (r: nat)
    requires x.hist != [] && InitsOk(c, x) && f in x.inits && NextFrame(x) > f + Horizon(c) && c.delay >= 1
    requires Desynced(x, f, f + c.delay + 1)
    ensures r < |x.sent| && TimelyNow(c, x.sent[r], x.peer.epoch) && x.sent[r].pack.ctrl.frameToResync == f + Horizon(c)
  {
    var i :| 0 <= i < |x.inits| && x.inits[i] == f;
    assert AnnouncesThrough(c, x, i, f + c.delay + 1);
    r :| 0 <= r < |x.sent| && IsCurrent(x, x.sent[r], f + Horizon(c)) && x.sent[r].at == f + c.delay + 1;
  }

  lemma TimelyIsActedOn(c: Config, s: Sys, r: nat)
    requires Inv(c, s) && ResyncInv(c, s) && FifoInv(c, s) && BothInStage(c, s) && InOrder(s.g) && Unstale(s.g, s.h)
    requires r < |s.h.sent| && TimelyNow(c, s.h.sent[r], s.g.peer.epoch)
    requires NextFrame(s.g) > s.h.sent[r].pack.ctrl.frameToResync
    ensures s.h.sent[r].pack.ctrl.frameToResync in s.g.fired
  {
    if r >= |s.g.got| { NotYetAtTarget(c, s, r); }
    assert Settled(s.g, s.h.sent[r].pack.ctrl.frameToResync);
  }
}
