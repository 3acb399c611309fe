/** The latch a realignment raises for the environment, which polls it to reseed the game, and the
    count of realignments. */
module Latch {
  import opened PeerSpec
  import opened Lockstep

  // ---- one machine, with the environment polling between its steps ----

  /** A step of the protocol against whatever peer, or a poll, which takes the latch down. */
  datatype Deed = Acts(y: Side, a: Action) | Polls

  predicate CanDo(c: Config, x: Side, d: Deed) {
    d.Acts? ==> Can(c, x, d.y, d.a)
  }

  function Done(c: Config, x: Side, d: Deed): Side
    requires CanDo(c, x, d)
  {
    match d
    case Acts(y, a) => Do(c, x, y, a)
    case Polls => x.(peer := LatchDown(x.peer))
  }

  /** The states before, between and after some deeds. */
  ghost predicate IsLife(c: Config, xs: seq<Side>, ds: seq<Deed>) {
    |xs| == |ds| + 1 && forall k | 0 <= k < |ds| :: CanDo(c, xs[k], ds[k]) && xs[k + 1] == Done(c, xs[k], ds[k])
  }

  /** The machine realigned at this step: one more frame is among those it did so at. */
  predicate Realigns(xs: seq<Side>, k: nat)
    requires k + 1 < |xs|
  {
    |xs[k + 1].fired| > |xs[k].fired|
  }

  predicate Clears(d: Deed) {
    d.Polls? || d.a.Reset?
  }

  /** A realignment since the last poll, and in this scene. */
  ghost predicate RealignedSince(xs: seq<Side>, ds: seq<Deed>)
    requires |xs| == |ds| + 1
  {
    exists k: nat :: k < |ds| && Realigns(xs, k) && forall j | k < j < |ds| :: !Clears(ds[j])
  }

  function Realignments(xs: seq<Side>): nat {
    if |xs| < 2 then 0
    else Realignments(xs[..|xs| - 1]) + (if Realigns(xs, |xs| - 2) then 1 else 0)
  }

  lemma StepLatches(c: Config, x: Side, y: Side, a: Action)
    requires Can(c, x, y, a)
    ensures var x', r, r' := Do(c, x, y, a), x.peer.resync, Do(c, x, y, a).peer.resync;
            if a.Reset? then !r'.didFire && x'.fired == [] && r'.fireCount == r.fireCount
            else
              && (r'.didFire <==> r.didFire || |x'.fired| > |x.fired|) && |x.fired| <= |x'.fired| <= |x.fired| + 1
              && r'.fireCount == r.fireCount + |x'.fired| - |x.fired|
  {
    match a
    case Start(_, _, _, _, _, _) => StartLatches(c, x, y, a);
    case Deliver(i, now) => ReceiveFrame(x.peer, Arrival(y.sent[i].pack, now));
    case _ =>
  }

  lemma StartLatches(c: Config, x: Side, y: Side, a: Action)
    requires Can(c, x, y, a) && a.Start?
    ensures var x', r, r' := Do(c, x, y, a), x.peer.resync, Do(c, x, y, a).peer.resync;
            && (r'.didFire <==> r.didFire || |x'.fired| > |x.fired|) && |x.fired| <= |x'.fired| <= |x.fired| + 1
            && r'.fireCount == r.fireCount + |x'.fired| - |x.fired|
  {
    var p := x.peer.(netFrame := NextFrame(x));
    ReceiveAllFrame(CountDesync(p), Arrivals(y, a.drained, a.now));
  }

  /** A poll answers yes exactly when the machine has realigned since the last poll and in this
      scene, and the count is that of all realignments in all scenes. */
  lemma {:induction false} PollAnswers(c: Config, xs: seq<Side>, ds: seq<Deed>)
    requires IsLife(c, xs, ds) && !xs[0].peer.resync.didFire
    ensures xs[|ds|].peer.resync.didFire <==> RealignedSince(xs, ds)
    ensures xs[|ds|].peer.resync.fireCount == xs[0].peer.resync.fireCount + Realignments(xs)
  {
    if ds != [] {
      var n := |ds| - 1;
      Shorter(c, xs, ds);
      PollAnswers(c, xs[..n + 1], ds[..n]);
      SinceOn(xs, ds);
      if ds[n].Acts? { StepLatches(c, xs[n], ds[n].y, ds[n].a); }
    }
  }

  lemma Shorter(c: Config, xs: seq<Side>, ds: seq<Deed>)
    requires IsLife(c, xs, ds) && ds != []
    ensures IsLife(c, xs[..|ds|], ds[..|ds| - 1])
  {
    var us, es := xs[..|ds|], ds[..|ds| - 1];
    forall k | 0 <= k < |es| ensures CanDo(c, us[k], es[k]) && us[k + 1] == Done(c, us[k], es[k]) {
      assert CanDo(c, xs[k], ds[k]) && xs[k + 1] == Done(c, xs[k], ds[k]);
    }
  }

  lemma SinceOn(xs: seq<Side>, ds: seq<Deed>)
    requires |xs| == |ds| + 1 && ds != []
    ensures var n := |ds| - 1;
            RealignedSince(xs, ds) <==> Realigns(xs, n) || (!Clears(ds[n]) && RealignedSince(xs[..n + 1], ds[..n]))
  {
    var n := |ds| - 1;
    var us, es := xs[..n + 1], ds[..n];
    if k: nat :| k < |ds| && Realigns(xs, k) && forall j | k < j < |ds| :: !Clears(ds[j]) {
      if k < n {
        assert Realigns(us, k);
        assert !Clears(ds[n]);
        forall j | k < j < |es| ensures !Clears(es[j]) { assert es[j] == ds[j]; }
      }
    }
    if Realigns(xs, n) { assert n + 1 == |ds|; }
    if k: nat :| !Clears(ds[n]) && k < |es| && Realigns(us, k) && forall j | k < j < |es| :: !Clears(es[j]) {
      assert Realigns(xs, k);
      forall j | k < j < |ds| ensures !Clears(ds[j]) { if j < n { assert es[j] == ds[j]; } }
    }
  }

  // ---- two machines nobody polls ----

  function Firings(t: seq<Sys>, host: bool): nat {
    if |t| < 2 then 0
    else
      var more := |Me(t[|t| - 1], host).fired| > |Me(t[|t| - 2], host).fired|;
      Firings(t[..|t| - 1], host) + if more then 1 else 0
  }

  /** Over every run that begins with the latch down: it is up exactly when the machine has realigned
      in the current scene, and the count has grown by its realignments in all scenes. */
  lemma {:induction false} LatchIffRealigned(c: Config, t: seq<Sys>, host: bool)
    requires IsRun(c, t) && !Me(t[0], host).peer.resync.didFire
    ensures var x := Me(t[|t| - 1], host);
            && (x.peer.resync.didFire <==> x.fired != [])
            && x.peer.resync.fireCount == Me(t[0], host).peer.resync.fireCount + Firings(t, host)
  {
    if |t| > 1 {
      LastStep(c, t);
      LatchIffRealigned(c, t[..|t| - 1], host);
      NextLatches(c, t[|t| - 2], t[|t| - 1], host);
    }
  }

  lemma NextLatches(c: Config, s: Sys, s': Sys, host: bool)
    requires Next(c, s, s')
    ensures var x, x' := Me(s, host), Me(s', host);
            var r, r' := x.peer.resync, x'.peer.resync;
            ((r.didFire <==> x.fired != []) ==> (r'.didFire <==> x'.fired != []))
            && r'.fireCount == r.fireCount + if |x'.fired| > |x.fired| then 1 else 0
  {
    var x, y, x' := Me(s, host), Other(s, host), Me(s', host);
    if x' != x {
      var a :| Can(c, x, y, a) && x' == Do(c, x, y, a);
      StepLatches(c, x, y, a);
    }
  }
}
