/** The smoothed round trip: what it measures, where it lies among the samples, and where it comes to
    rest; and the other thing a packet says of its sender, the difficulty. */
module Ping {
  import opened PeerSpec

  /** A key packet sent at tick a, and the next key packet its receiver sends: when that one is polled
      at tick d of the first machine's clock, the sample is d - a. The receiver's clock and the two
      frames play no part. */
  lemma EchoTimesTheTrip(x: Peer, f: int, a: nat, y: Peer, b: nat, g: int, c: nat, d: nat)
    requires 0 < a <= d
    ensures var y1 := ReceiveOne(y, Arrival(KeyPack(x, f, a), b));
            SampleOf(Arrival(KeyPack(y1, g, c), d)) == [d - a]
  {
  }

  /** The difficulty the last key packet of this scene or a newer one gave, if any did. */
  function LastDifficulty(epoch: nat, arrivals: seq<Arrival>, was: int): int {
    if arrivals == [] then was
    else
      var a := arrivals[|arrivals| - 1].pack;
      if a.ctrl.Keys? && a.epoch >= epoch && a.ctrl.senderDiff >= 0 then a.ctrl.senderDiff
      else LastDifficulty(epoch, arrivals[..|arrivals| - 1], was)
  }

  /** What a machine knows of the peer's difficulty, and that the peer's packets say what it is. */
  lemma {:induction false} DifficultyIsTheLast(p: Peer, arrivals: seq<Arrival>, x: Peer, f: int, now: nat)
    ensures ReceiveAll(p, arrivals).meta.peerDiff == LastDifficulty(p.epoch, arrivals, p.meta.peerDiff)
    ensures KeyPack(x, f, now).ctrl.senderDiff == x.meta.localDiff
  {
    if arrivals != [] {
      var init := arrivals[..|arrivals| - 1];
      DifficultyIsTheLast(p, init, x, f, now);
      ReceiveAllFrame(p, init);
      OneDifficulty(ReceiveAll(p, init), arrivals[|arrivals| - 1]);
    }
  }

  lemma OneDifficulty(p: Peer, a: Arrival)
    ensures var k := a.pack.ctrl;
            ReceiveOne(p, a).meta.peerDiff
            == if k.Keys? && a.pack.epoch >= p.epoch && k.senderDiff >= 0 then k.senderDiff else p.meta.peerDiff
  {
  }

  function SmoothAll(ping: int, samples: seq<nat>): int {
    if samples == [] then ping
    else Smooth(SmoothAll(ping, samples[..|samples| - 1]), samples[|samples| - 1])
  }

  /** The round trips measured by a batch of arrivals: those that echo a clock of ours not ahead of now. */
  function Samples(arrivals: seq<Arrival>): seq<nat> {
    if arrivals == [] then []
    else Samples(arrivals[..|arrivals| - 1]) + SampleOf(arrivals[|arrivals| - 1])
  }

  function SampleOf(a: Arrival): seq<nat> {
    if a.pack.echoTick != 0 && a.now >= a.pack.echoTick then [a.now - a.pack.echoTick] else []
  }

  lemma OnePacket(p: Peer, a: Arrival)
    ensures ReceiveOne(p, a).meta.pingMs == NoteTicks(p.meta, a).pingMs == SmoothAll(p.meta.pingMs, SampleOf(a))
  {
    if SampleOf(a) != [] { assert SampleOf(a)[..0] == []; }
  }

  lemma {:induction false} SmoothOn(ping: int, s: seq<nat>, t: seq<nat>)
    requires |t| <= 1
    ensures SmoothAll(ping, s + t) == SmoothAll(SmoothAll(ping, s), t)
  {
    if |t| == 1 { assert (s + t)[..|s|] == s && t[..0] == []; } else { assert s + t == s; }
  }

  /** What the receive loop leaves in the readout is the smoothing of the samples it saw, in order;
      packets of another scene count too, and the lockstep plays no part. */
  lemma {:induction false} ReadoutIsSmoothed(p: Peer, arrivals: seq<Arrival>)
    ensures ReceiveAll(p, arrivals).meta.pingMs == SmoothAll(p.meta.pingMs, Samples(arrivals))
  {
    if arrivals != [] {
      var init, a := arrivals[..|arrivals| - 1], arrivals[|arrivals| - 1];
      ReadoutIsSmoothed(p, init);
      OnePacket(ReceiveAll(p, init), a);
      SmoothOn(p.meta.pingMs, Samples(init), SampleOf(a));
    }
  }

  /** From unknown, after at least one sample, the readout lies between the least and the greatest. */
  lemma {:induction false} StaysAmongSamples(samples: seq<nat>, lo: nat, hi: nat)
    requires samples != [] && forall k | 0 <= k < |samples| :: lo <= samples[k] <= hi
    ensures lo <= SmoothAll(-1, samples) <= hi
  {
    var init := samples[..|samples| - 1];
    if init != [] { StaysAmongSamples(init, lo, hi); }
  }

  /** The values a constant round trip r leaves alone are exactly r - 3 .. r: the division rounds down. */
  lemma RestingPoints(v: nat, r: nat)
    ensures Smooth(v, r) == v <==> r - 3 <= v <= r
  {
  }

  /** Towards r, never past it. */
  lemma MovesTowards(v: nat, r: nat)
    ensures v <= r ==> v <= Smooth(v, r) <= r
    ensures v >= r ==> r <= Smooth(v, r) <= v
  {
  }

  function Constant(r: nat, n: nat): (s: seq<nat>)
    ensures |s| == n
  {
    seq(n, _ => r)
  }

  /** Under a constant round trip r the readout goes monotonically towards r, is within r - 3 .. r
      after at most |v - r| samples, and never leaves. */
  lemma {:induction false} SettlesNear(v: nat, r: nat, n: nat)
    ensures v <= r ==> v <= SmoothAll(v, Constant(r, n)) <= r
    ensures v >= r ==> r <= SmoothAll(v, Constant(r, n)) <= v
    ensures n >= (if v < r then r - v else v - r) ==> r - 3 <= SmoothAll(v, Constant(r, n)) <= r
  {
    Progress(v, r, n);
  }

  /** Each sample that does not find it at rest brings it one closer at least. */
  lemma {:induction false} Progress(v: nat, r: nat, n: nat)
    ensures var w := SmoothAll(v, Constant(r, n));
            && (v <= r ==> v <= w <= r && (w >= r - 3 || w >= v + n))
            && (v >= r ==> r <= w <= v && (w <= r || w <= v - n))
  {
    if n > 0 {
      assert Constant(r, n)[..n - 1] == Constant(r, n - 1);
      Progress(v, r, n - 1);
      var w := SmoothAll(v, Constant(r, n - 1));
      MovesTowards(w, r);
      RestingPoints(w, r);
    }
  }
}
