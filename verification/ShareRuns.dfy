/** The donated life over every run. The rule asks both players to stand together for 90 frames in a
    row; what the counter counts is narrower and wider than that: the frames in which nobody is
    a ghost, with the ghost's frames left out and not starting it over. */
module ShareRuns {
  import opened Merge
  import opened Ledger
  import opened Ghosts
  import opened GhostRuns

  // ---- one frame ----

  /** Both players are in play when the channels are driven. */
  predicate Duet(u: Team) {
    !u.runOver && !u.p1.isGhost && !u.p2.isGhost
  }

  function Spares(t: Team): int {
    t.p1.stock.lives + t.p2.stock.lives
  }

  /** The donor confirms with a spare to give; P1 goes first. */
  predicate Confirms(u: Team, f: Frame, in2: Word) {
    if u.p1.focus && !Held(f.in1) then u.p1.stock.lives >= 1
    else u.p2.focus && !Held(in2) && u.p2.stock.lives >= 1
  }

  lemma ChannelShares(u: Team, f: Frame, in2: Word)
    ensures var v := Channel(u, f, in2);
            && (Duet(u) ==>
                  && (Spares(v) < Spares(u) <==> Sharing(f, in2) && u.share + 1 >= SHARE_FRAMES && Confirms(u, f, in2))
                  && v.share == if Sharing(f, in2) && Spares(v) == Spares(u) then u.share + 1 else 0)
            && (!Duet(u) ==> v.share == u.share)
  {
  }

  lemma UpdatesKeepShare(t: Team, f: Frame)
    ensures Updated(t, f).share == t.share
  {
  }

  // ---- over a run ----

  function AtChannel(t: Team, r: Round): Team {
    Updated(Collected(t, r), r.frame)
  }

  predicate DuetIn(t: Team, r: Round) {
    Duet(AtChannel(t, r))
  }

  /** Both in play, close to each other, able to act, and neither shoots. */
  predicate SharesIn(t: Team, r: Round) {
    && DuetIn(t, r) && r.frame.st1 in {0, 3, 4} && r.frame.st2 in {0, 3, 4}
    && -32.0 < r.frame.dx < 32.0 && -32.0 < r.frame.dy < 32.0
    && r.frame.in1 & SHOOT == 0 && (t.p2.isGhost || r.frame.in2 & SHOOT == 0)
  }

  /** A player gives a life. */
  predicate DonatesIn(t: Team, r: Round) {
    DuetIn(t, r) && Spares(Play(Collected(t, r), r.frame)) < Spares(AtChannel(t, r))
  }

  predicate ConfirmsIn(t: Team, r: Round) {
    Confirms(AtChannel(t, r), r.frame, Fed2(Collected(t, r), r.frame))
  }

  predicate GoesOnSharing(t: Team, r: Round) {
    SharesIn(t, r) && !DonatesIn(t, r)
  }

  lemma RoundShares(t: Team, r: Round, u: Team)
    requires Plays(t, r, u)
    ensures DonatesIn(t, r) <==> SharesIn(t, r) && t.share + 1 >= SHARE_FRAMES && ConfirmsIn(t, r)
    ensures u.share == CountOne(DuetIn(t, r), GoesOnSharing(t, r), t.share)
  {
    var s, f := Collected(t, r), r.frame;
    UpdatesKeepShare(s, f);
    ChannelShares(Updated(s, f), f, Fed2(s, f));
  }

  /** Per round, whether both are in play, and whether it goes on with the sharing. */
  function DuetMarks(ts: seq<Team>, rs: seq<Round>): (d: seq<bool>)
    requires |rs| <= |ts|
    ensures |d| == |rs|
  {
    seq(|rs|, i requires 0 <= i < |rs| => DuetIn(ts[i], rs[i]))
  }

  function ShareMarks(ts: seq<Team>, rs: seq<Round>): (g: seq<bool>)
    requires |rs| <= |ts|
    ensures |g| == |rs|
  {
    seq(|rs|, i requires 0 <= i < |rs| => GoesOnSharing(ts[i], rs[i]))
  }

  /** From k to m, every round of the duet goes on with the sharing. */
  predicate SharedFrom(duet: seq<bool>, shared: seq<bool>, k: nat, m: nat)
    requires m <= |duet| == |shared|
  {
    k <= m && forall i | k <= i < m :: duet[i] ==> shared[i]
  }

  /** How many rounds of k .. m have both players in play. */
  function Count(duet: seq<bool>, k: nat, m: nat): nat
    requires k <= m <= |duet|
  {
    if k == m then 0 else Count(duet, k, m - 1) + if duet[m - 1] then 1 else 0
  }

  lemma {:induction false} CountFewer(duet: seq<bool>, j: nat, k: nat, m: nat)
    requires j <= k <= m <= |duet|
    ensures Count(duet, k, m) <= Count(duet, j, m) && Count(duet, k, m) <= m - k
  {
    if k < m { CountFewer(duet, j, k, m - 1); }
  }

  /** A counter that goes up at each shared round of the duet, starts over at an unshared one, and
      stays in the rounds between. */
  predicate CountsOn(duet: seq<bool>, shared: seq<bool>, counts: seq<nat>) {
    && |counts| == |duet| + 1 == |shared| + 1 && counts[0] == 0
    && forall i | 0 <= i < |duet| :: counts[i + 1] == CountOne(duet[i], shared[i], counts[i])
  }

  function CountOne(duet: bool, shared: bool, count: nat): nat {
    if !duet then count else if shared then count + 1 else 0
  }

  lemma {:induction false} CountsTheRun(duet: seq<bool>, shared: seq<bool>, counts: seq<nat>, m: nat) returns (k: nat)
    requires CountsOn(duet, shared, counts) && m <= |duet|
    ensures SharedFrom(duet, shared, k, m) && Count(duet, k, m) == counts[m]
    ensures k > 0 ==> duet[k - 1] && !shared[k - 1]
  {
    if m == 0 {
      k := 0;
    } else {
      k := CountsTheRun(duet, shared, counts, m - 1);
      assert counts[m - 1 + 1] == counts[m];
      if duet[m - 1] && !shared[m - 1] { k := m; }
    }
  }

  function Shares(ts: seq<Team>): (counts: seq<nat>)
    ensures |counts| == |ts|
  {
    seq(|ts|, i requires 0 <= i < |ts| => ts[i].share)
  }

  lemma RoundsCountOn(ts: seq<Team>, rs: seq<Round>)
    requires IsRun(ts, rs) && Fresh(ts[0])
    ensures CountsOn(DuetMarks(ts, rs), ShareMarks(ts, rs), Shares(ts))
  {
    var duet, shared, counts := DuetMarks(ts, rs), ShareMarks(ts, rs), Shares(ts);
    forall i | 0 <= i < |duet| ensures counts[i + 1] == CountOne(duet[i], shared[i], counts[i]) {
      assert Plays(ts[i], rs[i], ts[i + 1]);
      RoundShares(ts[i], rs[i], ts[i + 1]);
    }
  }

  /** The counter is the number of rounds with both in play since the last of these that broke off
      the sharing, or ended it with a donation. */
  lemma CounterIsTheSharing(ts: seq<Team>, rs: seq<Round>, m: nat) returns (k: nat)
    requires IsRun(ts, rs) && Fresh(ts[0]) && m <= |rs|
    ensures var duet, shared := DuetMarks(ts, rs), ShareMarks(ts, rs);
            && SharedFrom(duet, shared, k, m) && Count(duet, k, m) == ts[m].share
            && (k > 0 ==> duet[k - 1] && !shared[k - 1])
  {
    RoundsCountOn(ts, rs);
    k := CountsTheRun(DuetMarks(ts, rs), ShareMarks(ts, rs), Shares(ts), m);
  }

  /** A life is given exactly in a frame of sharing in which a donor with a spare lets go of focus,
      after at least 89 frames of sharing between which only frames with a ghost may lie. */
  lemma DonateIff(ts: seq<Team>, rs: seq<Round>, m: nat)
    requires IsRun(ts, rs) && Fresh(ts[0]) && m < |rs|
    ensures DonatesIn(ts[m], rs[m])
       <==> && SharesIn(ts[m], rs[m]) && ConfirmsIn(ts[m], rs[m])
            && exists k: nat :: SharedFrom(DuetMarks(ts, rs), ShareMarks(ts, rs), k, m)
                                && Count(DuetMarks(ts, rs), k, m) >= 89
  {
    var duet, shared := DuetMarks(ts, rs), ShareMarks(ts, rs);
    var k := CounterIsTheSharing(ts, rs, m);
    assert Plays(ts[m], rs[m], ts[m + 1]);
    RoundShares(ts[m], rs[m], ts[m + 1]);
    forall j: nat | SharedFrom(duet, shared, j, m) ensures Count(duet, j, m) <= Count(duet, k, m) {
      MaximalRun(duet, shared, k, j, m);
    }
  }

  lemma MaximalRun(duet: seq<bool>, shared: seq<bool>, k: nat, j: nat, m: nat)
    requires k <= m <= |duet| == |shared| && SharedFrom(duet, shared, j, m)
    requires k > 0 ==> duet[k - 1] && !shared[k - 1]
    ensures Count(duet, j, m) <= Count(duet, k, m)
  {
    if j >= k { CountFewer(duet, k, j, m); }
  }

  /** A donation is paid with one spare by P1 if P1 has let go of focus, and else by P2, and becomes
      a 1up that either can take. */
  lemma DonorPays(t: Team, r: Round, u: Team)
    requires Plays(t, r, u) && DonatesIn(t, r)
    ensures var s := AtChannel(t, r);
            && u.oneUps == s.oneUps + 1
            && if s.p1.focus && r.frame.in1 & FOCUS == 0
               then u.p1.stock == s.p1.stock.(lives := s.p1.stock.lives - 1) && u.p2.stock == s.p2.stock
               else u.p2.stock == s.p2.stock.(lives := s.p2.stock.lives - 1) && u.p1.stock == s.p1.stock
  {
    var s, f := Collected(t, r), r.frame;
    UpdatesKeepItems(s, f);
    ChannelDonates(AtChannel(t, r), f, Fed2(s, f));
  }

  lemma UpdatesKeepItems(t: Team, f: Frame)
    ensures Updated(t, f).itemsSeen == t.itemsSeen
  {
  }

  lemma ChannelDonates(s: Team, f: Frame, in2: Word)
    requires Duet(s) && s.itemsSeen && Spares(Channel(s, f, in2)) < Spares(s)
    ensures var u := Channel(s, f, in2);
            && u.oneUps == s.oneUps + 1
            && if s.p1.focus && f.in1 & FOCUS == 0
               then u.p1.stock == s.p1.stock.(lives := s.p1.stock.lives - 1) && u.p2.stock == s.p2.stock
               else u.p2.stock == s.p2.stock.(lives := s.p2.stock.lives - 1) && u.p1.stock == s.p1.stock
  {
  }

  /** The rule's own promise: the 89 rounds before this one are all of sharing. */
  predicate LastNinety(ts: seq<Team>, rs: seq<Round>, m: nat)
    requires m < |rs| <= |ts|
  {
    m >= 89 && forall i | m - 89 <= i < m :: ShareMarks(ts, rs)[i]
  }

  /** Of a donation that promise holds if and only if nobody was a ghost in those frames. */
  lemma InARowIffNoGhost(ts: seq<Team>, rs: seq<Round>, m: nat)
    requires IsRun(ts, rs) && Fresh(ts[0]) && m < |rs| && DonatesIn(ts[m], rs[m])
    ensures LastNinety(ts, rs, m)
       <==> m >= 89 && forall i | m - 89 <= i < m :: DuetMarks(ts, rs)[i]
  {
    DonateIff(ts, rs, m);
    var duet, shared := DuetMarks(ts, rs), ShareMarks(ts, rs);
    var k: nat :| SharedFrom(duet, shared, k, m) && Count(duet, k, m) >= 89;
    CountFewer(duet, k, k, m);
    SharedAreDuets(ts, rs);
  }

  lemma SharedAreDuets(ts: seq<Team>, rs: seq<Round>)
    requires |rs| <= |ts|
    ensures forall i | 0 <= i < |rs| :: ShareMarks(ts, rs)[i] ==> DuetMarks(ts, rs)[i]
  {
  }

  // ---- a run in which it is not 90 in a row ----

  /** A frame in which the two stand together: P2's engine update is `run2`, P1's input `in1`. */
  function Together(run2: Stock -> Stock, in1: Word): Round {
    Round(s => s, s => s, 0, Frame(s => s, _ => false, run2, _ => false, 3, 3, 0.0, 0.0, in1, 0, 0))
  }

  function Dies(s: Stock): Stock {
    s.(lives := 0)
  }

  function Lives2(s: Stock): Stock { s }

  /** P1 with two spares, P2 with none: `n` frames of sharing, or of channelling. */
  function Pair(share: nat, focus: bool): Team {
    Team(Player(Stock(2, 0, 0.0), false, focus, 0), Player(Stock(0, 0, 0.0), false, false, 0),
         false, false, 0, share, 0, true)
  }

  function Haunted(share: nat, revive: nat, focus: bool): Team {
    Team(Player(Stock(2, 0, 0.0), false, focus, 0), Player(Stock(0, 0, 0.0), true, false, 0),
         false, false, revive, share, 1, true)
  }

  lemma PairShares(share: nat)
    ensures Plays(Pair(share, false), Together(Lives2, 0), Pair(share + 1, false))
  {
  }

  lemma PairDies(share: nat)
    ensures Plays(Pair(share, false), Together(Dies, 0), Haunted(share, 1, false))
  {
  }

  lemma HauntedGrazes(share: nat, revive: nat, focus: bool, in1: Word)
    requires in1 & SHOOT == 0 && !focus
    ensures Plays(Haunted(share, revive, focus), Together(Lives2, in1), Haunted(share, revive + 1, Held(in1)))
  {
  }

  /** After the revive P1 has one spare left. */
  function Again(share: nat, focus: bool): Team {
    Team(Player(Stock(1, 0, 0.0), false, focus, 0), Player(Stock(0, 0, 0.0), false, false, 0),
         false, false, 0, share, 1, true)
  }

  lemma HauntedRevives(share: nat, revive: nat)
    requires revive + 1 >= REVIVE_FRAMES
    ensures Plays(Haunted(share, revive, true), Together(Lives2, 0), Again(share, false))
  {
  }

  lemma AgainHolds(share: nat)
    ensures Plays(Again(share, false), Together(Lives2, FOCUS), Again(share + 1, true))
  {
  }

  lemma AgainDonates(share: nat)
    requires share + 1 >= SHARE_FRAMES
    ensures DonatesIn(Again(share, true), Together(Lives2, 0))
    ensures var r := Together(Lives2, 0);
            Plays(Again(share, true), r, Play(Collected(Again(share, true), r), r.frame))
  {
  }

  lemma Longer(ts: seq<Team>, rs: seq<Round>, r: Round, u: Team)
    requires IsRun(ts, rs) && Plays(ts[|rs|], r, u)
    ensures IsRun(ts + [u], rs + [r])
  {
    var ts', rs' := ts + [u], rs + [r];
    forall k | 0 <= k < |rs'| ensures Plays(ts'[k], rs'[k], ts'[k + 1]) {
      if k < |rs| { assert Plays(ts[k], rs[k], ts[k + 1]); }
    }
  }

  lemma {:induction false} SharesFor(n: nat) returns (ts: seq<Team>, rs: seq<Round>)
    ensures IsRun(ts, rs) && ts[0] == Pair(0, false) && ts[|rs|] == Pair(n, false)
  {
    if n == 0 {
      ts, rs := [Pair(0, false)], [];
    } else {
      ts, rs := SharesFor(n - 1);
      PairShares(n - 1);
      Longer(ts, rs, Together(Lives2, 0), Pair(n, false));
      ts, rs := ts + [Pair(n, false)], rs + [Together(Lives2, 0)];
    }
  }

  lemma {:induction false} HauntedFor(share: nat, n: nat) returns (ts: seq<Team>, rs: seq<Round>)
    ensures IsRun(ts, rs) && ts[0] == Pair(0, false) && ts[|rs|] == Haunted(share, n + 1, false)
  {
    if n == 0 {
      ts, rs := SharesFor(share);
      PairDies(share);
      Longer(ts, rs, Together(Dies, 0), Haunted(share, 1, false));
      ts, rs := ts + [Haunted(share, 1, false)], rs + [Together(Dies, 0)];
    } else {
      ts, rs := HauntedFor(share, n - 1);
      HauntedGrazes(share, n, false, 0);
      Longer(ts, rs, Together(Lives2, 0), Haunted(share, n + 1, false));
      ts, rs := ts + [Haunted(share, n + 1, false)], rs + [Together(Lives2, 0)];
    }
  }

  /** 88 frames of sharing, a death, a channel of 91 frames that brings P2 back, and then two frames
      of sharing are enough. */
  lemma GhostFramesDoNotBreakTheCount() returns (ts: seq<Team>, rs: seq<Round>, m: nat)
    ensures IsRun(ts, rs) && Fresh(ts[0]) && m < |rs| && DonatesIn(ts[m], rs[m])
    ensures m >= 2 && !DuetMarks(ts, rs)[m - 2] && !LastNinety(ts, rs, m)
  {
    ts, rs := HauntedFor(88, 88);
    HauntedGrazes(88, 89, false, FOCUS);
    Longer(ts, rs, Together(Lives2, FOCUS), Haunted(88, 90, true));
    ts, rs := ts + [Haunted(88, 90, true)], rs + [Together(Lives2, FOCUS)];
    HauntedRevives(88, 90);
    Longer(ts, rs, Together(Lives2, 0), Again(88, false));
    ts, rs := ts + [Again(88, false)], rs + [Together(Lives2, 0)];
    AgainHolds(88);
    Longer(ts, rs, Together(Lives2, FOCUS), Again(89, true));
    ts, rs := ts + [Again(89, true)], rs + [Together(Lives2, FOCUS)];
    AgainDonates(89);
    m := |rs|;
    var r := Together(Lives2, 0);
    var u := Play(Collected(Again(89, true), r), r.frame);
    Longer(ts, rs, r, u);
    ts, rs := ts + [u], rs + [r];
    SharedAreDuets(ts, rs);
  }
}
