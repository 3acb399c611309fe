/** The resync handshake, within a scene that stays in a stage, whatever scenes came before. The
    host picks a frame ahead of both machines and keeps announcing it; each machine realigns when
    its own frame gets there. */
module ResyncTargets {
  import opened Wire
  import opened PeerSpec
  import opened Lockstep
  import opened LockstepInv
  import opened Agreement

  /** The frames recorded in the current scene. */
  function Cur(x: Side): seq<Rec>
    requires x.hist != []
  {
    x.hist[|x.hist| - 1]
  }

  /** Resync on, and no frame of the current scene in a menu. */
  ghost predicate InStage(x: Side) {
    x.hist != [] && x.peer.resync.enable && forall f :: 0 <= f < |Cur(x)| ==> !Cur(x)[f].ui
  }

  /** Both in one scene, a stage. */
  ghost predicate BothInStage(c: Config, s: Sys) {
    InStage(s.h) && InStage(s.g) && s.h.peer.epoch == s.g.peer.epoch && s.h.peer.resync.threshold > c.delay
  }

  predicate IsRequest(m: Msg, target: int) {
    m.pack.ctrl == TryResync(target)
  }

  /** A request sent in the sender's current scene. */
  predicate IsCurrent(x: Side, m: Msg, target: int) {
    IsRequest(m, target) && m.pack.epoch == x.peer.epoch
  }

  ghost predicate Announced(x: Side, target: int) {
    exists r :: 0 <= r < |x.sent| && IsCurrent(x, x.sent[r], target)
  }

  ghost predicate AnnouncedAt(x: Side, target: int, f: int) {
    exists r :: 0 <= r < |x.sent| && IsCurrent(x, x.sent[r], target) && x.sent[r].at == f
  }

  /** Machine x received, in its current scene, a request of h's for the target, from whatever scene. */
  ghost predicate Received(x: Side, h: Side, target: int) {
    exists k :: x.base <= k < |x.got| && x.got[k] < |h.sent| && IsRequest(h.sent[x.got[k]], target)
  }

  /** Every request x received in its current scene was of that scene. */
  ghost predicate Unstale(x: Side, h: Side) {
    forall k :: x.base <= k < |x.got| && x.got[k] < |h.sent| && h.sent[x.got[k]].pack.ctrl.TryResync?
      ==> h.sent[x.got[k]].pack.epoch == x.peer.epoch
  }

  /** How far ahead of its initiation a target lies. */
  function Horizon(c: Config): int {
    2 * c.delay + 2
  }

  predicate IsTarget(x: Side, t: int) {
    (x.peer.resync.trigger && x.peer.resync.stageFrame == t) || t in x.fired
  }

  /** The last realignment; a scene starts as if realigned at its first frame. */
  function LastFired(x: Side): int {
    if x.fired == [] then 0 else x.fired[|x.fired| - 1]
  }

  ghost predicate NoRequests(x: Side) {
    forall r :: 0 <= r < |x.sent| ==> !x.sent[r].pack.ctrl.TryResync?
  }

  /** Requests go out from frames recorded outside menus only. */
  ghost predicate RequestsInPlay(x: Side) {
    forall r :: 0 <= r < |x.sent| && x.sent[r].pack.ctrl.TryResync? ==> InPlay(x.hist, x.sent[r])
  }

  predicate InPlay(h: seq<seq<Rec>>, m: Msg) {
    Has(h, m.pack.epoch, m.at) && !h[m.pack.epoch][m.at].ui
  }

  predicate RequestOk(c: Config, x: Side, r: int)
    requires 0 <= r < |x.sent| && x.sent[r].pack.ctrl.TryResync? && x.hist != []
  {
    var t, f := x.sent[r].pack.ctrl.frameToResync, x.sent[r].at;
    && 0 <= f < |Cur(x)| && f < t <= f + Horizon(c) && IsTarget(x, t)
    && x.peer.resync.threshold <= f
    && forall j :: 0 <= j < r && x.sent[j].pack.ctrl.Keys? && x.sent[j].pack.epoch == x.peer.epoch
         ==> x.sent[j].pack.ctrl.frame < f
  }

  ghost predicate RequestsOk(c: Config, x: Side)
    requires x.hist != []
  {
    forall r :: 0 <= r < |x.sent| && x.sent[r].pack.ctrl.TryResync? && x.sent[r].pack.epoch == x.peer.epoch
      ==> RequestOk(c, x, r)
  }

  /** All flags the machine entered frames a .. b of the scene with were false. */
  ghost predicate Desynced(x: Side, a: int, b: int)
    requires x.hist != []
  {
    forall f :: a <= f <= b && 0 <= f < |Cur(x)| ==> !Cur(x)[f].wasSync
  }

  ghost predicate HostOk(c: Config, x: Side)
    requires x.hist != []
  {
    var n, q := |Cur(x)|, x.peer.resync;
    && RequestsOk(c, x)
    && (forall t :: IsTarget(x, t) ==> Announced(x, t))
    && (q.trigger ==> n <= q.stageFrame < n + Horizon(c) && LastFired(x) + q.threshold + Horizon(c) <= q.stageFrame)
    && (forall i :: 0 <= i < |x.fired| ==> Horizon(c) <= x.fired[i] < n)
    && (forall i, j :: 0 <= i < j < |x.fired| ==> x.fired[i] + q.threshold + Horizon(c) <= x.fired[j])
    && (if n == 0 then x.peer.isSync && q.desyncRun == 0 else q.desyncRun <= n - 1 - LastFired(x))
  }

  ghost predicate GuestOk(c: Config, x: Side, h: Side)
    requires x.hist != []
  {
    var n, q := |Cur(x)|, x.peer.resync;
    && (q.trigger ==> n <= q.stageFrame && Received(x, h, q.stageFrame))
    && (forall i :: 0 <= i < |x.fired| ==> x.fired[i] < n && Received(x, h, x.fired[i]))
    && (forall i, j :: 0 <= i < j < |x.fired| ==> x.fired[i] < x.fired[j])
  }

  ghost predicate ResyncInv(c: Config, s: Sys) {
    && NoRequests(s.g) && RequestsInPlay(s.h) && s.g.base <= |s.g.got|
    && (InStage(s.h) && s.h.peer.resync.threshold > c.delay ==> HostOk(c, s.h))
    && (InStage(s.g) ==> GuestOk(c, s.g, s.h))
  }

  // ---- the top of a frame, seen from the resync fields ----

  lemma TopIdle(p: Peer, n: int, arr: seq<Arrival>)
    requires Judges(p, false) && !Fires(p, n, false) && !Announces(p, n, false)
    ensures RunResync(p, n, false, arr) == CountDesync(p)
  {
  }

  lemma TopFires(p: Peer, n: int, arr: seq<Arrival>)
    requires Fires(p, n, false)
    ensures var q := RunResync(p, n, false, arr).resync;
            !q.trigger && q.desyncRun == 0 && q.enable == p.resync.enable && q.threshold == p.resync.threshold
  {
    ReceiveAllFrame(CountDesync(p), arr);
  }

  lemma TopAnnounces(p: Peer, n: int, arr: seq<Arrival>)
    requires Announces(p, n, false)
    ensures var q := RunResync(p, n, false, arr).resync;
            && q.trigger && q.stageFrame == Target(p, n) && q.desyncRun == p.resync.desyncRun + 1
            && q.enable == p.resync.enable && q.threshold == p.resync.threshold
  {
  }

  // ---- staying in a stage, backwards ----

  /** A Start seen in the current scene: one frame more, and packets after those already sent. */
  lemma StartGrows(c: Config, x: Side, y: Side, a: Action)
    requires a.Start? && Can(c, x, y, a)
    ensures var x' := Do(c, x, y, a);
            && |x'.hist| == |x.hist| && Cur(x') == Cur(x) + [Rec(a.word, a.seed, a.igc, a.ui, x.peer.isSync)]
            && x'.got == x.got + a.drained && x'.base == x.base && x'.peer.epoch == x.peer.epoch
            && x'.peer.isHost == x.peer.isHost && |x.sent| <= |x'.sent|
            && forall r :: 0 <= r < |x.sent| ==> x'.sent[r] == x.sent[r]
  {
    ResyncFrame(x.peer.(netFrame := NextFrame(x)), NextFrame(x), a.ui, Arrivals(y, a.drained, a.now));
  }

  lemma StartWasInStage(c: Config, x: Side, y: Side, a: Action)
    requires a.Start? && Can(c, x, y, a) && InStage(Do(c, x, y, a))
    ensures InStage(x) && !a.ui && Do(c, x, y, a).peer.resync.threshold == x.peer.resync.threshold
  {
    var x' := Do(c, x, y, a);
    StartGrows(c, x, y, a);
    assert Cur(x')[|Cur(x)|].ui == a.ui;
    assert forall f :: 0 <= f < |Cur(x)| ==> Cur(x')[f] == Cur(x)[f];
    KeepsSettings(x.peer.(netFrame := NextFrame(x)), NextFrame(x), a.ui, Arrivals(y, a.drained, a.now));
  }

  lemma WasInStage(c: Config, x: Side, y: Side, a: Action)
    requires Can(c, x, y, a) && InStage(Do(c, x, y, a)) && !a.Reset?
    ensures InStage(x) && (a.Start? ==> !a.ui)
    ensures Do(c, x, y, a).peer.resync.threshold == x.peer.resync.threshold
  {
    if a.Start? {
      StartWasInStage(c, x, y, a);
    } else {
      assert Do(c, x, y, a).hist == x.hist && Cur(Do(c, x, y, a)) == Cur(x);
      if a.Deliver? { ReceiveFrame(x.peer, Arrival(y.sent[a.i].pack, a.now)); }
    }
  }

  lemma KeepsSettings(p: Peer, n: int, ui: bool, arr: seq<Arrival>)
    ensures var q := RunResync(p, n, ui, arr).resync; q.enable == p.resync.enable && q.threshold == p.resync.threshold
  {
    ReceiveAllFrame(CountDesync(p), arr);
  }

  // ---- the host ----

  lemma KeyFrames(x: Side)
    requires SentOk(x) && |x.hist| == x.peer.epoch + 1
    ensures forall j :: 0 <= j < |x.sent| && x.sent[j].pack.ctrl.Keys? && x.sent[j].pack.epoch == x.peer.epoch
              ==> x.sent[j].pack.ctrl.frame < |Cur(x)|
  {
    forall j | 0 <= j < |x.sent| && x.sent[j].pack.ctrl.Keys? && x.sent[j].pack.epoch == x.peer.epoch
      ensures x.sent[j].pack.ctrl.frame < |Cur(x)|
    {
      assert Truthful(x.sent[j].pack, x.hist);
    }
  }

  /** x' is x in the same scene, later: more frames, more packets, and no target forgotten. */
  ghost predicate Later(x: Side, x': Side) {
    && x.hist != [] && x'.hist != [] && |Cur(x)| <= |Cur(x')| && x'.peer.epoch == x.peer.epoch
    && x'.peer.resync.threshold == x.peer.resync.threshold
    && |x.sent| <= |x'.sent| && (forall r :: 0 <= r < |x.sent| ==> x'.sent[r] == x.sent[r])
    && (forall t :: IsTarget(x, t) ==> IsTarget(x', t))
  }

  lemma RequestsStay(c: Config, x: Side, x': Side)
    requires Later(x, x') && RequestsOk(c, x)
    ensures forall r :: 0 <= r < |x.sent| && x'.sent[r].pack.ctrl.TryResync? && x'.sent[r].pack.epoch == x'.peer.epoch
              ==> RequestOk(c, x', r)
  {
    forall r | 0 <= r < |x.sent| && x'.sent[r].pack.ctrl.TryResync? && x'.sent[r].pack.epoch == x'.peer.epoch
      ensures RequestOk(c, x', r)
    {
      assert RequestOk(c, x, r);
    }
  }

  lemma AnnouncedStays(x: Side, x': Side, t: int)
    requires Later(x, x') && Announced(x, t)
    ensures Announced(x', t)
  {
    var r :| 0 <= r < |x.sent| && IsCurrent(x, x.sent[r], t);
    assert IsCurrent(x', x'.sent[r], t);
  }

  predicate HostStartsWith(c: Config, x: Side, y: Side, a: Action) {
    a.Start? && !a.ui && Can(c, x, y, a) && x.peer.resync.enable && x.peer.resync.threshold > c.delay >= 1
  }

  lemma HostFires(c: Config, x: Side, y: Side, a: Action)
    requires HostStartsWith(c, x, y, a) && Sound(c, x, y) && HostOk(c, x)
    requires Fires(x.peer.(netFrame := NextFrame(x)), NextFrame(x), false)
    ensures HostOk(c, Do(c, x, y, a)) && Do(c, x, y, a).fired == x.fired + [NextFrame(x)]
  {
    var x' := Do(c, x, y, a);
    var n := NextFrame(x);
    StartGrows(c, x, y, a);
    TopFires(x.peer.(netFrame := n), n, Arrivals(y, a.drained, a.now));
    assert x'.fired == x.fired + [n] && x.peer.resync.stageFrame == n;
    assert Later(x, x');
    RequestsStay(c, x, x');
    forall t | IsTarget(x', t) ensures Announced(x', t) {
      assert IsTarget(x, t);
      AnnouncedStays(x, x', t);
    }
  }

  lemma HostAnnounces(c: Config, x: Side, y: Side, a: Action)
    requires HostStartsWith(c, x, y, a) && Sound(c, x, y) && HostOk(c, x)
    requires Announces(x.peer.(netFrame := NextFrame(x)), NextFrame(x), false)
    ensures HostOk(c, Do(c, x, y, a)) && Do(c, x, y, a).fired == x.fired
    ensures AnnouncedAt(Do(c, x, y, a), Do(c, x, y, a).peer.resync.stageFrame, NextFrame(x))
  {
    var x' := Do(c, x, y, a);
    var n := NextFrame(x);
    StartGrows(c, x, y, a);
    TopAnnounces(x.peer.(netFrame := n), n, Arrivals(y, a.drained, a.now));
    RequestsStay(c, x, x');
    KeyFrames(x);
    assert RequestOk(c, x', |x.sent|);
    assert IsCurrent(x', x'.sent[|x.sent|], x'.peer.resync.stageFrame);
    forall t | IsTarget(x', t) ensures Announced(x', t) {
      if t != x'.peer.resync.stageFrame { AnnouncedStays(x, x', t); }
    }
  }

  lemma HostIdles(c: Config, x: Side, y: Side, a: Action)
    requires HostStartsWith(c, x, y, a) && Sound(c, x, y) && HostOk(c, x)
    requires var p := x.peer.(netFrame := NextFrame(x)); !Fires(p, NextFrame(x), false) && !Announces(p, NextFrame(x), false)
    ensures HostOk(c, Do(c, x, y, a)) && Do(c, x, y, a).fired == x.fired
  {
    var n := NextFrame(x);
    StartGrows(c, x, y, a);
    TopIdle(x.peer.(netFrame := n), n, Arrivals(y, a.drained, a.now));
    RequestsStay(c, x, Do(c, x, y, a));
    forall t | IsTarget(Do(c, x, y, a), t) ensures Announced(Do(c, x, y, a), t) {
      AnnouncedStays(x, Do(c, x, y, a), t);
    }
  }

  lemma HostStarts(c: Config, x: Side, y: Side, a: Action)
    requires HostStartsWith(c, x, y, a) && Sound(c, x, y) && HostOk(c, x)
    ensures HostOk(c, Do(c, x, y, a))
  {
    var p, n := x.peer.(netFrame := NextFrame(x)), NextFrame(x);
    if Fires(p, n, false) { HostFires(c, x, y, a); }
    else if Announces(p, n, false) { HostAnnounces(c, x, y, a); }
    else { HostIdles(c, x, y, a); }
  }

  /** The fields the host part of the invariant reads, unchanged but for what was sent since. */
  lemma HostSame(c: Config, x: Side, x': Side)
    requires x.hist != [] && HostOk(c, x) && x'.hist == x.hist && x'.fired == x.fired
    requires x'.peer.resync == x.peer.resync && x'.peer.epoch == x.peer.epoch
    requires |Cur(x)| == 0 ==> x'.peer.isSync == x.peer.isSync
    requires |x.sent| <= |x'.sent| && forall r :: 0 <= r < |x'.sent| ==>
               if r < |x.sent| then x'.sent[r] == x.sent[r] else x'.sent[r].pack.ctrl.Keys?
    ensures HostOk(c, x')
  {
    RequestsStay(c, x, x');
    forall t | IsTarget(x', t) ensures Announced(x', t) {
      AnnouncedStays(x, x', t);
    }
  }

  /** A scene begins with nothing announced, nothing pending and the flag up. */
  lemma HostResets(c: Config, x: Side, y: Side, a: Action)
    requires a.Reset? && Can(c, x, y, a) && ShapeOk(c, x) && RequestsInPlay(x)
    ensures HostOk(c, Do(c, x, y, a))
  {
    forall r | 0 <= r < |x.sent| && x.sent[r].pack.ctrl.TryResync? ensures x.sent[r].pack.epoch <= x.peer.epoch {
      assert InPlay(x.hist, x.sent[r]);
    }
  }

  lemma HostActs(c: Config, x: Side, y: Side, a: Action)
    requires Can(c, x, y, a) && Sound(c, x, y) && HostOk(c, x) && NoRequests(y)
    requires !a.Reset? && (a.Start? ==> !a.ui) && x.peer.resync.enable && x.peer.resync.threshold > c.delay
    ensures HostOk(c, Do(c, x, y, a))
  {
    if a.Start? { HostStarts(c, x, y, a); }
    else { HostSame(c, x, Do(c, x, y, a)); }
  }

  lemma HostStaysInPlay(c: Config, x: Side, y: Side, a: Action)
    requires Can(c, x, y, a) && ShapeOk(c, x) && RequestsInPlay(x)
    ensures RequestsInPlay(Do(c, x, y, a))
  {
    var x' := Do(c, x, y, a);
    ActExtends(c, x, y, a);
    if a.Start? { StartGrows(c, x, y, a); }
    forall r | 0 <= r < |x'.sent| && x'.sent[r].pack.ctrl.TryResync? ensures InPlay(x'.hist, x'.sent[r]) {
      if r < |x.sent| {
        assert InPlay(x.hist, x.sent[r]);
      } else {
        assert x'.hist[x.peer.epoch] == Cur(x');
      }
    }
  }

  // ---- the guest ----

  lemma GuestSendsNoRequest(c: Config, x: Side, y: Side, a: Action)
    requires Can(c, x, y, a) && NoRequests(x) && !x.peer.isHost
    ensures NoRequests(Do(c, x, y, a))
  {
  }

  lemma ReceivedStays(x: Side, x': Side, h: Side, h': Side, t: int)
    requires Received(x, h, t) && x'.base == x.base && |x.got| <= |x'.got| && |h.sent| <= |h'.sent|
    requires forall k :: 0 <= k < |x.got| ==> x'.got[k] == x.got[k]
    requires forall r :: 0 <= r < |h.sent| ==> h'.sent[r] == h.sent[r]
    ensures Received(x', h', t)
  {
    var k :| x.base <= k < |x.got| && x.got[k] < |h.sent| && IsRequest(h.sent[x.got[k]], t);
    assert IsRequest(h'.sent[x'.got[k]], t);
  }

  /** The guest part, when its firings go on by one or stay, and its target was already received. */
  lemma GuestLater(c: Config, x: Side, x': Side, h: Side, h': Side)
    requires x.hist != [] && x'.hist != [] && GuestOk(c, x, h) && |Cur(x)| <= |Cur(x')|
    requires x'.base == x.base && |x.got| <= |x'.got| && |h.sent| <= |h'.sent|
    requires forall k :: 0 <= k < |x.got| ==> x'.got[k] == x.got[k]
    requires forall r :: 0 <= r < |h.sent| ==> h'.sent[r] == h.sent[r]
    requires x'.fired == x.fired
             || (x'.fired == x.fired + [|Cur(x)|] && |Cur(x')| > |Cur(x)| && Received(x, h, |Cur(x)|))
    requires var q := x'.peer.resync;
             q.trigger ==> |Cur(x')| <= q.stageFrame && (Received(x, h, q.stageFrame) || Received(x', h', q.stageFrame))
    ensures GuestOk(c, x', h')
  {
    if x'.peer.resync.trigger && Received(x, h, x'.peer.resync.stageFrame) {
      ReceivedStays(x, x', h, h', x'.peer.resync.stageFrame);
    }
    forall i | 0 <= i < |x'.fired| ensures x'.fired[i] < |Cur(x')| && Received(x', h', x'.fired[i]) {
      if i < |x.fired| { assert x'.fired[i] == x.fired[i]; }
      ReceivedStays(x, x', h, h', x'.fired[i]);
    }
  }

  lemma GuestFires(c: Config, x: Side, h: Side, a: Action)
    requires a.Start? && !a.ui && Can(c, x, h, a) && ShapeOk(c, x) && x.peer.resync.enable && GuestOk(c, x, h)
    requires Fires(x.peer.(netFrame := NextFrame(x)), NextFrame(x), false)
    ensures GuestOk(c, Do(c, x, h, a), h)
  {
    StartGrows(c, x, h, a);
    TopFires(x.peer.(netFrame := NextFrame(x)), NextFrame(x), Arrivals(h, a.drained, a.now));
    GuestLater(c, x, Do(c, x, h, a), h, h);
  }

  lemma GuestIdles(c: Config, x: Side, h: Side, a: Action)
    requires a.Start? && !a.ui && Can(c, x, h, a) && ShapeOk(c, x) && x.peer.resync.enable && GuestOk(c, x, h)
    requires !x.peer.isHost && !Fires(x.peer.(netFrame := NextFrame(x)), NextFrame(x), false)
    ensures GuestOk(c, Do(c, x, h, a), h)
  {
    StartGrows(c, x, h, a);
    TopIdle(x.peer.(netFrame := NextFrame(x)), NextFrame(x), Arrivals(h, a.drained, a.now));
    GuestLater(c, x, Do(c, x, h, a), h, h);
  }

  lemma GuestDelivers(c: Config, x: Side, h: Side, a: Action)
    requires a.Deliver? && Can(c, x, h, a) && ShapeOk(c, x) && GuestOk(c, x, h) && x.base <= |x.got|
    ensures GuestOk(c, Do(c, x, h, a), h)
  {
    var x' := Do(c, x, h, a);
    if h.sent[a.i].pack.ctrl.TryResync? && AcceptsResync(x.peer, h.sent[a.i].pack.ctrl.frameToResync) {
      assert x'.got[|x.got|] == a.i;
      assert IsRequest(h.sent[x'.got[|x.got|]], x'.peer.resync.stageFrame);
    }
    GuestLater(c, x, x', h, h);
  }

  lemma GuestActs(c: Config, x: Side, h: Side, a: Action)
    requires Can(c, x, h, a) && ShapeOk(c, x) && x.peer.resync.enable && GuestOk(c, x, h) && !x.peer.isHost
    requires !a.Reset? && (a.Start? ==> !a.ui) && x.base <= |x.got|
    ensures GuestOk(c, Do(c, x, h, a), h)
  {
    if a.Start? {
      if Fires(x.peer.(netFrame := NextFrame(x)), NextFrame(x), false) { GuestFires(c, x, h, a); }
      else { GuestIdles(c, x, h, a); }
    } else if a.Deliver? {
      GuestDelivers(c, x, h, a);
    } else {
      GuestLater(c, x, Do(c, x, h, a), h, h);
    }
  }

  lemma HostActsForGuest(c: Config, x: Side, h: Side, a: Action)
    requires Can(c, h, x, a) && x.hist != [] && GuestOk(c, x, h)
    ensures GuestOk(c, x, Do(c, h, x, a))
  {
    GuestLater(c, x, x, h, Do(c, h, x, a));
  }

  // ---- over runs ----

  lemma HostKeepsResync(c: Config, s: Sys, s': Sys, a: Action)
    requires Inv(c, s) && ResyncInv(c, s) && s'.g == s.g && Can(c, s.h, s.g, a) && s'.h == Do(c, s.h, s.g, a)
    ensures ResyncInv(c, s')
  {
    HostStaysInPlay(c, s.h, s.g, a);
    if InStage(s.g) { HostActsForGuest(c, s.g, s.h, a); }
    if InStage(s'.h) && s'.h.peer.resync.threshold > c.delay {
      if a.Reset? {
        HostResets(c, s.h, s.g, a);
      } else {
        WasInStage(c, s.h, s.g, a);
        HostActs(c, s.h, s.g, a);
      }
    }
  }

  lemma GuestKeepsResync(c: Config, s: Sys, s': Sys, a: Action)
    requires Inv(c, s) && ResyncInv(c, s) && s'.h == s.h && Can(c, s.g, s.h, a) && s'.g == Do(c, s.g, s.h, a)
    ensures ResyncInv(c, s')
  {
    GuestSendsNoRequest(c, s.g, s.h, a);
    if InStage(s'.g) && !a.Reset? {
      WasInStage(c, s.g, s.h, a);
      GuestActs(c, s.g, s.h, a);
    }
  }

  lemma {:induction false} RunResyncInv(c: Config, t: seq<Sys>)
    requires IsRun(c, t) && c.minScene >= SafeScene(c.delay)
    ensures Inv(c, t[|t| - 1]) && ResyncInv(c, t[|t| - 1])
  {
    if |t| == 1 {
      InitInv(c, t[0]);
    } else {
      var u := t[..|t| - 1];
      LastStep(c, t);
      RunResyncInv(c, u);
      var v, w := t[|t| - 2], t[|t| - 1];
      assert u[|u| - 1] == v;
      NextKeepsInv(c, v, w);
      if w.g == v.g && Moves(c, v.h, v.g, w.h) {
        var a :| Can(c, v.h, v.g, a) && w.h == Do(c, v.h, v.g, a);
        HostKeepsResync(c, v, w, a);
      } else {
        var a :| Can(c, v.g, v.h, a) && w.g == Do(c, v.g, v.h, a);
        GuestKeepsResync(c, v, w, a);
      }
    }
  }

  lemma ReachableResync(c: Config, s: Sys)
    requires Reachable(c, s) && c.minScene >= SafeScene(c.delay)
    ensures Inv(c, s) && ResyncInv(c, s)
  {
    var t: seq<Sys> :| IsRun(c, t) && t[|t| - 1] == s;
    RunResyncInv(c, t);
  }

  // ---- what it means ----

  /** The host is armed for the frame or has realigned at it, whichever its own frame says. */
  predicate RealignsAt(x: Side, t: int)
    requires x.hist != []
  {
    if t < NextFrame(x) then t in x.fired else x.peer.resync.trigger && x.peer.resync.stageFrame == t
  }

  /** The host realigns at a frame if and only if it announced it in this scene. */
  lemma RealignsWhereAnnounced(c: Config, x: Side, t: int)
    requires x.hist != [] && HostOk(c, x)
    ensures RealignsAt(x, t) <==> Announced(x, t)
  {
    if Announced(x, t) {
      var r :| 0 <= r < |x.sent| && IsCurrent(x, x.sent[r], t);
      assert RequestOk(c, x, r);
    }
    if RealignsAt(x, t) { assert IsTarget(x, t); }
  }

  lemma ReceivedIsAnnounced(x: Side, h: Side, t: int)
    requires Received(x, h, t) && Unstale(x, h) && h.peer.epoch == x.peer.epoch
    ensures Announced(h, t)
  {
    var k :| x.base <= k < |x.got| && x.got[k] < |h.sent| && IsRequest(h.sent[x.got[k]], t);
    assert IsCurrent(h, h.sent[x.got[k]], t);
  }

  /** In any stage and over any network, a guest that has received no request of an older scene in it
      realigns only at frames where the host does: the host has realigned there if it has started
      that frame, and is armed for it otherwise. No frame is realigned at twice. */
  lemma RealignsAtTheHostsFrame(c: Config, s: Sys, i: int)
    requires Reachable(c, s) && c.minScene >= SafeScene(c.delay) && BothInStage(c, s) && Unstale(s.g, s.h)
    requires 0 <= i < |s.g.fired|
    ensures RealignsAt(s.h, s.g.fired[i])
    ensures forall j :: 0 <= j < i ==> s.g.fired[j] < s.g.fired[i]
  {
    ReachableResync(c, s);
    ReceivedIsAnnounced(s.g, s.h, s.g.fired[i]);
    RealignsWhereAnnounced(c, s.h, s.g.fired[i]);
  }

  /** A request of an older scene, and that target, received by x in its current one. */
  ghost predicate ReceivedStale(x: Side, h: Side, t: int) {
    exists k :: x.base <= k < |x.got| && x.got[k] < |h.sent| && IsRequest(h.sent[x.got[k]], t)
                && h.sent[x.got[k]].pack.epoch != x.peer.epoch
  }

  /** Without that premise: a guest's realignment is the host's too if and only if the host announced
      the frame in this scene, and one that is not was set off by a request of an older scene. */
  lemma RealignsTogetherIffAnnounced(c: Config, s: Sys, i: int)
    requires Reachable(c, s) && c.minScene >= SafeScene(c.delay) && BothInStage(c, s) && 0 <= i < |s.g.fired|
    ensures RealignsAt(s.h, s.g.fired[i]) <==> Announced(s.h, s.g.fired[i])
    ensures !RealignsAt(s.h, s.g.fired[i]) ==> ReceivedStale(s.g, s.h, s.g.fired[i])
  {
    ReachableResync(c, s);
    var t := s.g.fired[i];
    RealignsWhereAnnounced(c, s.h, t);
    var k :| s.g.base <= k < |s.g.got| && s.g.got[k] < |s.h.sent| && IsRequest(s.h.sent[s.g.got[k]], t);
    if s.h.sent[s.g.got[k]].pack.epoch == s.g.peer.epoch { assert IsCurrent(s.h, s.h.sent[s.g.got[k]], t); }
  }

  /** The premise comes for free in the first stage: a host whose earlier scenes were all menus has
      sent no request of an older scene. */
  lemma MenusAskForNothing(c: Config, s: Sys)
    requires Reachable(c, s) && c.minScene >= SafeScene(c.delay) && s.h.peer.epoch == s.g.peer.epoch
    requires forall e, f :: Has(s.h.hist, e, f) && e < s.h.peer.epoch ==> s.h.hist[e][f].ui
    ensures Unstale(s.g, s.h)
  {
    ReachableResync(c, s);
    forall k | s.g.base <= k < |s.g.got| && s.g.got[k] < |s.h.sent| && s.h.sent[s.g.got[k]].pack.ctrl.TryResync?
      ensures s.h.sent[s.g.got[k]].pack.epoch == s.g.peer.epoch
    {
      assert InPlay(s.h.hist, s.h.sent[s.g.got[k]]);
    }
  }

  lemma AnnouncedIsTarget(c: Config, x: Side, t: int)
    requires x.hist != [] && HostOk(c, x) && Announced(x, t)
    ensures IsTarget(x, t) && t - Horizon(c) < NextFrame(x) && x.peer.resync.threshold < NextFrame(x)
  {
    var r :| 0 <= r < |x.sent| && IsCurrent(x, x.sent[r], t);
    assert RequestOk(c, x, r);
  }

  /** Two targets of the host lie so far apart that the guest is past the first when the second
      is announced. This is where the threshold must exceed the delay. */
  lemma OnePendingTarget(c: Config, s: Sys, t: int, u: int)
    requires Inv(c, s) && ResyncInv(c, s) && BothInStage(c, s) && Announced(s.h, t) && Announced(s.h, u)
    requires t >= NextFrame(s.g) && u >= NextFrame(s.g)
    ensures t == u
  {
    AnnouncedIsTarget(c, s.h, t);
    AnnouncedIsTarget(c, s.h, u);
    SkewOneWay(c, s.h, s.g);
    if t < u { TargetsApart(c, s.h, t, u); }
    if u < t { TargetsApart(c, s.h, u, t); }
  }

  lemma FiredUpTo(c: Config, x: Side, t: int)
    requires x.hist != [] && HostOk(c, x) && t in x.fired && x.peer.resync.threshold > 0 && c.delay >= 1
    ensures t <= LastFired(x)
  {
    var i :| 0 <= i < |x.fired| && x.fired[i] == t;
    if i < |x.fired| - 1 { assert x.fired[i] < x.fired[|x.fired| - 1]; }
  }

  lemma TargetsApart(c: Config, x: Side, t: int, u: int)
    requires x.hist != [] && HostOk(c, x) && IsTarget(x, t) && IsTarget(x, u) && t < u
    requires x.peer.resync.threshold > 0 && c.delay >= 1
    ensures t + x.peer.resync.threshold + Horizon(c) <= u
  {
    if t in x.fired && u in x.fired {
      var i :| 0 <= i < |x.fired| && x.fired[i] == t;
      var j :| 0 <= j < |x.fired| && x.fired[j] == u;
    } else if t in x.fired {
      FiredUpTo(c, x, t);
    } else if u in x.fired {
      FiredUpTo(c, x, u);
    }
  }

  /** A guest already armed is not re-armed for another frame, whatever arrives of its own scene. */
  lemma ArmedStaysArmed(c: Config, s: Sys, i: nat, now: nat)
    requires Reachable(c, s) && c.minScene >= SafeScene(c.delay) && BothInStage(c, s)
    requires s.g.peer.resync.trigger && Can(c, s.g, s.h, Deliver(i, now))
    requires Unstale(Do(c, s.g, s.h, Deliver(i, now)), s.h)
    ensures var q := Do(c, s.g, s.h, Deliver(i, now)).peer.resync;
            q.trigger && q.stageFrame == s.g.peer.resync.stageFrame
  {
    ReachableResync(c, s);
    RearmedAlike(c, s, i, now);
  }

  lemma RearmedAlike(c: Config, s: Sys, i: nat, now: nat)
    requires Inv(c, s) && ResyncInv(c, s) && BothInStage(c, s)
    requires s.g.peer.resync.trigger && Can(c, s.g, s.h, Deliver(i, now))
    requires Unstale(Do(c, s.g, s.h, Deliver(i, now)), s.h)
    ensures var q := Do(c, s.g, s.h, Deliver(i, now)).peer.resync;
            q.trigger && q.stageFrame == s.g.peer.resync.stageFrame
  {
    var x' := Do(c, s.g, s.h, Deliver(i, now));
    var k := s.h.sent[i].pack.ctrl;
    WasUnstale(s.g, x', s.h);
    ReceivedIsAnnounced(s.g, s.h, s.g.peer.resync.stageFrame);
    if k.TryResync? && AcceptsResync(s.g.peer, k.frameToResync) {
      assert x'.got[|s.g.got|] == i;
      assert IsCurrent(s.h, s.h.sent[i], k.frameToResync);
      OnePendingTarget(c, s, k.frameToResync, s.g.peer.resync.stageFrame);
    }
  }

  lemma WasUnstale(x: Side, x': Side, h: Side)
    requires Unstale(x', h) && x'.base == x.base && x'.peer.epoch == x.peer.epoch && |x.got| <= |x'.got|
    requires forall k :: 0 <= k < |x.got| ==> x'.got[k] == x.got[k]
    ensures Unstale(x, h)
  {
    forall k | x.base <= k < |x.got| && x.got[k] < |h.sent| && h.sent[x.got[k]].pack.ctrl.TryResync?
      ensures h.sent[x.got[k]].pack.epoch == x.peer.epoch
    {
      assert x'.got[k] == x.got[k];
    }
  }
}
