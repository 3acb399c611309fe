/** What holds over every run of the two-player rules. */
module GhostRuns {
  import opened Merge
  import opened Ledger
  import opened Ghosts

  /** The items collected since the last update, and then a frame: what the credits make of each
      stock, and how many of the dropped 1ups were among them. */
  datatype Round = Round(gain1: Stock -> Stock, gain2: Stock -> Stock, taken: nat, frame: Frame)

  function Collected(t: Team, r: Round): Team {
    t.(p1 := t.p1.(stock := r.gain1(t.p1.stock)), p2 := t.p2.(stock := r.gain2(t.p2.stock)),
       oneUps := if r.taken <= t.oneUps then t.oneUps - r.taken else 0, itemsSeen := true)
  }

  predicate Plays(t: Team, r: Round, u: Team) {
    u == Play(Collected(t, r), r.frame)
  }

  /** The states before, between and after some rounds. */
  ghost predicate IsRun(ts: seq<Team>, rs: seq<Round>) {
    |ts| == |rs| + 1 && forall k | 0 <= k < |rs| :: Plays(ts[k], rs[k], ts[k + 1])
  }

  /** A stage begins with no ghost, nothing charged and no game over. */
  predicate Fresh(t: Team) {
    !t.p1.isGhost && !t.p2.isGhost && !t.runOver && !t.gameOver && t.revive == 0 && t.share == 0
  }

  // ---- never two ghosts; game over exactly at the second player down ----

  /** A player in play without a spare is updated with one, and the update leaves none. */
  predicate GoesDown(over: bool, p: Player, run: Stock -> Stock) {
    !over && !p.isGhost && p.stock.lives < 1 && run(p.stock.(lives := 1)).lives < 1
  }

  predicate Down1(t: Team, f: Frame) {
    GoesDown(t.runOver, t.p1, f.run1)
  }

  predicate Down2(t: Team, f: Frame) {
    GoesDown(t.runOver, t.p2, f.run2)
  }

  /** A player goes down in the frame while its partner is a ghost. */
  predicate BothDown(t: Team, f: Frame) {
    (Down1(t, f) && t.p2.isGhost) || (Down2(Update1(t, f), f) && Update1(t, f).p1.isGhost)
  }

  predicate OneGhost(t: Team) {
    !(t.p1.isGhost && t.p2.isGhost)
  }

  lemma Update1Ghosts(t: Team, f: Frame)
    ensures var u := Update1(t, f);
            && u.p2 == t.p2 && u.p1.isGhost == (t.p1.isGhost || (Down1(t, f) && !t.p2.isGhost))
            && u.runOver == (t.runOver || (Down1(t, f) && t.p2.isGhost))
            && u.revive == if Down1(t, f) && !t.p2.isGhost then 0 else t.revive
  {
  }

  lemma Update2Ghosts(t: Team, f: Frame)
    ensures var u := Update2(t, f);
            && u.p1 == t.p1 && u.p2.isGhost == (t.p2.isGhost || (Down2(t, f) && !t.p1.isGhost))
            && u.runOver == (t.runOver || (Down2(t, f) && t.p1.isGhost))
            && u.revive == if Down2(t, f) && !t.p1.isGhost then 0 else t.revive
  {
  }

  lemma DriveGhosts(t: Team, f: Frame, in2: Word)
    ensures var u := Drive(t, f, in2);
            && (u.p1.isGhost ==> t.p1.isGhost) && (u.p2.isGhost ==> t.p2.isGhost)
            && u.runOver == t.runOver && u.gameOver == t.gameOver
  {
  }

  lemma ChannelGhosts(t: Team, f: Frame, in2: Word)
    ensures var u := Channel(t, f, in2);
            && (u.p1.isGhost ==> t.p1.isGhost) && (u.p2.isGhost ==> t.p2.isGhost)
            && u.runOver == t.runOver && u.gameOver == t.gameOver
  {
    DriveGhosts(t, f, in2);
  }

  lemma PlayGhosts(t: Team, f: Frame)
    requires OneGhost(t)
    ensures OneGhost(Updated(t, f)) && OneGhost(Play(t, f))
    ensures Play(t, f).runOver == Updated(t, f).runOver == (t.runOver || BothDown(t, f))
    ensures Play(t, f).gameOver == Updated(t, f).gameOver
  {
    Update1Ghosts(t, f);
    Update2Ghosts(Update1(t, f), f);
    ChannelGhosts(Updated(t, f), f, Fed2(t, f));
  }

  lemma {:induction false} NeverBothGhosts(ts: seq<Team>, rs: seq<Round>, n: nat)
    requires IsRun(ts, rs) && OneGhost(ts[0]) && n <= |rs|
    ensures OneGhost(ts[n])
  {
    if n > 0 {
      NeverBothGhosts(ts, rs, n - 1);
      assert Plays(ts[n - 1], rs[n - 1], ts[n - 1 + 1]);
      PlayGhosts(Collected(ts[n - 1], rs[n - 1]), rs[n - 1].frame);
    }
  }

  predicate DownIn(t: Team, r: Round) {
    BothDown(Collected(t, r), r.frame)
  }

  /** The run is declared over in exactly the frames in which a player goes down while its partner
      is a ghost: after any frame it is over if and only if there was such a frame. */
  lemma {:induction false} OverIffBothDown(ts: seq<Team>, rs: seq<Round>, n: nat)
    requires IsRun(ts, rs) && Fresh(ts[0]) && n <= |rs|
    ensures ts[n].runOver <==> exists k :: 0 <= k < n && DownIn(ts[k], rs[k])
  {
    if n > 0 {
      OverIffBothDown(ts, rs, n - 1);
      NeverBothGhosts(ts, rs, n - 1);
      assert Plays(ts[n - 1], rs[n - 1], ts[n - 1 + 1]);
      PlayGhosts(Collected(ts[n - 1], rs[n - 1]), rs[n - 1].frame);
    }
  }

  /** The engine's own game over is the path of a player killed without a spare; a ghost is not
      killed. */
  ghost predicate EngineRule(f: Frame, t: Team) {
    forall s: Stock :: f.over1(s) ==> s.lives < 1 && !t.p1.isGhost
  }

  /** What the phantom spare is for: a player in play is updated with a life at least. */
  predicate NobodyStartsDead(t: Team, f: Frame) {
    var u := Update1(t, f);
    && (t.runOver || t.p1.isGhost || StartStock(t.runOver, t.p1).lives >= 1)
    && (u.runOver || u.p2.isGhost || StartStock(u.runOver, u.p2).lives >= 1)
  }

  lemma FrameFlag(t: Team, f: Frame)
    requires OneGhost(t) && (t.gameOver <==> t.runOver) && (!t.runOver ==> EngineRule(f, t))
    ensures NobodyStartsDead(t, f)
    ensures Play(t, f).gameOver <==> Play(t, f).runOver
  {
    PlayGhosts(t, f);
    Update1Ghosts(t, f);
    if !t.runOver { Update1Flag(t, f); }
    Update2Flag(Update1(t, f), f);
  }

  predicate NobodyStartsDeadIn(t: Team, r: Round) {
    NobodyStartsDead(Collected(t, r), r.frame)
  }

  ghost predicate RuleIn(t: Team, r: Round) {
    t.runOver || EngineRule(r.frame, t)
  }

  lemma RoundFlag(t: Team, r: Round, u: Team)
    requires OneGhost(t) && (t.gameOver <==> t.runOver) && RuleIn(t, r) && Plays(t, r, u)
    ensures NobodyStartsDeadIn(t, r) && (u.gameOver <==> u.runOver)
  {
    FrameFlag(Collected(t, r), r.frame);
  }

  /** Over every run: the game-over flag is up exactly when the run has been declared over, never by
      the engine's own doing, and in every frame up to then each player in play is updated with a
      life at least. */
  lemma {:induction false} FlagIsOurs(ts: seq<Team>, rs: seq<Round>, n: nat)
    requires IsRun(ts, rs) && Fresh(ts[0]) && n <= |rs| && forall k | 0 <= k < |rs| :: RuleIn(ts[k], rs[k])
    ensures ts[n].gameOver <==> ts[n].runOver
    ensures forall k | 0 <= k < n :: NobodyStartsDeadIn(ts[k], rs[k])
  {
    if n > 0 {
      FlagIsOurs(ts, rs, n - 1);
      NeverBothGhosts(ts, rs, n - 1);
      assert Plays(ts[n - 1], rs[n - 1], ts[n - 1 + 1]);
      RoundFlag(ts[n - 1], rs[n - 1], ts[n]);
    }
  }

  lemma Update1Flag(t: Team, f: Frame)
    requires !t.runOver && EngineRule(f, t)
    ensures Update1(t, f).gameOver <==> t.gameOver || Update1(t, f).runOver
  {
  }

  lemma Update2Flag(t: Team, f: Frame)
    requires t.runOver ==> t.gameOver
    ensures Update2(t, f).gameOver <==> t.gameOver || Update2(t, f).runOver
  {
  }

  // ---- lives ----

  function Count(alive: bool): int { if alive then 1 else 0 }

  /** Spares, players in play, and 1ups dropped and not yet taken. */
  function Lives(t: Team): int {
    t.p1.stock.lives + t.p2.stock.lives + Count(!t.p1.isGhost) + Count(!t.p2.isGhost) + t.oneUps
  }

  /** What the engine's update itself adds to or takes from a player's spares; a last-life death
      takes nothing that is counted. */
  function Net1(t: Team, f: Frame): int {
    var s := StartStock(t.runOver, t.p1);
    if Down1(t, f) then 0 else f.run1(s).lives - s.lives
  }

  function Net2(t: Team, f: Frame): int {
    var s := StartStock(t.runOver, t.p2);
    if Down2(t, f) then 0 else f.run2(s).lives - s.lives
  }

  ghost predicate Sane(run: Stock -> Stock) {
    forall s: Stock :: s.lives >= 0 ==> run(s).lives >= 0
  }

  /** The engine leaves nobody with less than none. */
  ghost predicate EngineSane(f: Frame) {
    Sane(f.run1) && Sane(f.run2)
  }

  ghost predicate RoundSane(t: Team, r: Round) {
    Sane(r.gain1) && Sane(r.gain2) && r.taken <= t.oneUps && EngineSane(r.frame)
  }

  predicate SparesOk(t: Team) {
    t.p1.stock.lives >= 0 && t.p2.stock.lives >= 0 && t.itemsSeen && OneGhost(t)
  }

  lemma Update1Lives(t: Team, f: Frame)
    requires SparesOk(t) && EngineSane(f)
    ensures SparesOk(Update1(t, f)) && Lives(Update1(t, f)) == Lives(t) + Net1(t, f)
  {
  }

  lemma Update2Lives(t: Team, f: Frame)
    requires SparesOk(t) && EngineSane(f)
    ensures SparesOk(Update2(t, f)) && Lives(Update2(t, f)) == Lives(t) + Net2(t, f)
  {
  }

  /** Before the engine's items have been seen once, a 1up cannot be dropped and its life is lost. */
  lemma UnseenIsLost(t: Team, f: Frame)
    requires t.p1.stock.lives >= 0 && t.p2.stock.lives >= 0 && EngineSane(f) && !t.itemsSeen && OneGhost(t)
    ensures Down1(t, f) && !t.p2.isGhost ==> Lives(Update1(t, f)) == Lives(t) - 1
    ensures Down2(t, f) && !t.p1.isGhost ==> Lives(Update2(t, f)) == Lives(t) - 1
  {
  }

  /** A revive gives the donor's spare to the ghost, and a donated life becomes a 1up. */
  lemma ChannelLives(t: Team, f: Frame, in2: Word)
    requires SparesOk(t)
    ensures SparesOk(Channel(t, f, in2)) && Lives(Channel(t, f, in2)) == Lives(t)
  {
  }

  /** What the items add, a dropped 1up that is taken being nothing new. */
  function NetItems(t: Team, r: Round): int {
    r.gain1(t.p1.stock).lives - t.p1.stock.lives + r.gain2(t.p2.stock).lives - t.p2.stock.lives - r.taken
  }

  lemma CollectedLives(t: Team, r: Round)
    requires t.p1.stock.lives >= 0 && t.p2.stock.lives >= 0 && OneGhost(t) && RoundSane(t, r)
    ensures SparesOk(Collected(t, r)) && Lives(Collected(t, r)) == Lives(t) + NetItems(t, r)
  {
  }

  function Net(t: Team, r: Round): int {
    var s := Collected(t, r);
    NetItems(t, r) + Net1(s, r.frame) + Net2(Update1(s, r.frame), r.frame)
  }

  function NetAll(ts: seq<Team>, rs: seq<Round>, n: nat): int
    requires n <= |rs| <= |ts|
  {
    if n == 0 then 0 else NetAll(ts, rs, n - 1) + Net(ts[n - 1], rs[n - 1])
  }

  lemma PlayLives(t: Team, f: Frame)
    requires SparesOk(t) && EngineSane(f)
    ensures SparesOk(Play(t, f)) && Lives(Play(t, f)) == Lives(t) + Net1(t, f) + Net2(Update1(t, f), f)
  {
    Update1Lives(t, f);
    Update2Lives(Update1(t, f), f);
    ChannelLives(Updated(t, f), f, Fed2(t, f));
  }

  /** Over every run, revives, donations, last-life deaths and dropped 1ups taken conserve lives: the
      total changes by what items and the engine's own updates add and take, and by nothing else. */
  lemma {:induction false} LivesAreConserved(ts: seq<Team>, rs: seq<Round>, n: nat)
    requires IsRun(ts, rs) && SparesOk(ts[0]) && n <= |rs| && forall k | 0 <= k < |rs| :: RoundSane(ts[k], rs[k])
    ensures SparesOk(ts[n]) && Lives(ts[n]) == Lives(ts[0]) + NetAll(ts, rs, n)
  {
    if n > 0 {
      LivesAreConserved(ts, rs, n - 1);
      assert Plays(ts[n - 1], rs[n - 1], ts[n - 1 + 1]);
      CollectedLives(ts[n - 1], rs[n - 1]);
      PlayLives(Collected(ts[n - 1], rs[n - 1]), rs[n - 1].frame);
    }
  }

  // ---- reviving ----

  /** The frame is one of a channel: at its end there is a ghost, and the other player is close to it
      in a state that can act. */
  predicate GrazesAs(u: Team, f: Frame) {
    && !u.runOver && -32.0 < f.dx < 32.0 && -32.0 < f.dy < 32.0
    && if u.p2.isGhost then f.st1 in {0, 3, 4} else u.p1.isGhost && f.st2 in {0, 3, 4}
  }

  /** The player who would give a life lets go of focus, with a spare to give. */
  predicate ReleasesAs(u: Team, f: Frame, in2: Word) {
    if u.p2.isGhost then u.p1.focus && !Held(f.in1) && u.p1.stock.lives >= 1
    else u.p2.focus && !Held(in2) && u.p2.stock.lives >= 1
  }

  predicate Returns(u: Team, v: Team) {
    (u.p1.isGhost && !v.p1.isGhost) || (u.p2.isGhost && !v.p2.isGhost)
  }

  predicate Grazes(t: Team, f: Frame) {
    GrazesAs(Updated(t, f), f)
  }

  predicate Releases(t: Team, f: Frame) {
    ReleasesAs(Updated(t, f), f, Fed2(t, f))
  }

  /** A ghost came back in the frame. */
  predicate Revives(t: Team, f: Frame) {
    Returns(Updated(t, f), Play(t, f))
  }

  lemma ChannelCounts(u: Team, f: Frame, in2: Word)
    requires OneGhost(u)
    ensures var v := Channel(u, f, in2);
            && (Returns(u, v) <==> GrazesAs(u, f) && u.revive + 1 >= REVIVE_FRAMES && ReleasesAs(u, f, in2))
            && (GrazesAs(u, f) ==> v.revive == if Returns(u, v) then 0 else u.revive + 1)
            && (!u.runOver && !GrazesAs(u, f) ==> v.revive == if u.p1.isGhost || u.p2.isGhost then 0 else u.revive)
  {
  }

  predicate Counting(t: Team) {
    OneGhost(t) && (!t.p1.isGhost && !t.p2.isGhost && !t.runOver ==> t.revive == 0)
  }

  /** Before the first frame of a channel the counter is 0: entering ghost mode sets it so. */
  lemma UpdatesKeepTheCounter(t: Team, f: Frame)
    requires Counting(t) && !Updated(t, f).runOver
    ensures Updated(t, f).revive == t.revive && Counting(Updated(t, f))
  {
    Update1Ghosts(t, f);
    Update2Ghosts(Update1(t, f), f);
  }

  lemma StepCounts(t: Team, f: Frame)
    requires Counting(t)
    ensures Counting(Play(t, f)) && (t.runOver ==> Play(t, f).runOver)
    ensures !Play(t, f).runOver ==>
              && Play(t, f).revive == (if Grazes(t, f) && !Revives(t, f) then t.revive + 1 else 0)
              && (Revives(t, f) <==> Grazes(t, f) && t.revive + 1 >= REVIVE_FRAMES && Releases(t, f))
  {
    PlayGhosts(t, f);
    if !Play(t, f).runOver {
      UpdatesKeepTheCounter(t, f);
      ChannelCounts(Updated(t, f), f, Fed2(t, f));
      ChannelGhosts(Updated(t, f), f, Fed2(t, f));
      NoGhostNoCharge(Updated(t, f), f, Fed2(t, f));
    }
  }

  lemma NoGhostNoCharge(u: Team, f: Frame, in2: Word)
    requires Counting(u) && !u.runOver
    ensures Counting(Channel(u, f, in2))
  {
    ChannelGhosts(u, f, in2);
    ChannelCounts(u, f, in2);
  }

  predicate GrazesIn(t: Team, r: Round) {
    Grazes(Collected(t, r), r.frame)
  }

  predicate RevivesIn(t: Team, r: Round) {
    Revives(Collected(t, r), r.frame)
  }

  predicate ReleasesIn(t: Team, r: Round) {
    Releases(Collected(t, r), r.frame)
  }

  /** The round is of a channel and brings nobody back. */
  predicate GoesOn(t: Team, r: Round) {
    GrazesIn(t, r) && !RevivesIn(t, r)
  }

  /** The n rounds before the m-th are all of a channel, with nobody back yet. */
  predicate Channelled(ts: seq<Team>, rs: seq<Round>, m: nat, n: nat)
    requires m <= |rs| <= |ts|
  {
    n <= m && forall k | m - n <= k < m :: GoesOn(ts[k], rs[k])
  }

  lemma RoundCounts(t: Team, r: Round, u: Team)
    requires Counting(t) && Plays(t, r, u)
    ensures Counting(u) && (t.runOver ==> u.runOver)
    ensures !u.runOver ==>
              && u.revive == (if GoesOn(t, r) then t.revive + 1 else 0)
              && (RevivesIn(t, r) <==> GrazesIn(t, r) && t.revive + 1 >= REVIVE_FRAMES && ReleasesIn(t, r))
  {
    StepCounts(Collected(t, r), r.frame);
  }

  /** The counter is the length of the current run of channel frames: so many last frames are all
      of one, and the frame before them is not, or brought a ghost back. */
  lemma {:induction false} CounterIsTheChannel(ts: seq<Team>, rs: seq<Round>, m: nat)
    requires IsRun(ts, rs) && Fresh(ts[0]) && m <= |rs|
    ensures Counting(ts[m])
    ensures !ts[m].runOver ==> forall n :: n >= 0 ==> (Channelled(ts, rs, m, n) <==> n <= ts[m].revive)
  {
    if m > 0 {
      CounterIsTheChannel(ts, rs, m - 1);
      var t, r := ts[m - 1], rs[m - 1];
      assert Plays(t, r, ts[m - 1 + 1]);
      RoundCounts(t, r, ts[m]);
      if !ts[m].runOver {
        forall n | n >= 0 ensures Channelled(ts, rs, m, n) <==> n <= ts[m].revive {
          if n > 0 { OneMore(ts, rs, m, n); }
        }
      }
    }
  }

  lemma OneMore(ts: seq<Team>, rs: seq<Round>, m: nat, n: nat)
    requires 0 < m <= |rs| <= |ts| && n > 0
    ensures Channelled(ts, rs, m, n) <==> GoesOn(ts[m - 1], rs[m - 1]) && Channelled(ts, rs, m - 1, n - 1)
  {
  }

  /** A ghost comes back exactly in a frame that makes at least 90 in a row of channelling, in which
      the other player lets go of focus with a spare to give. */
  lemma ReviveIffFullChannel(ts: seq<Team>, rs: seq<Round>, m: nat)
    requires IsRun(ts, rs) && Fresh(ts[0]) && m < |rs| && !ts[m + 1].runOver
    ensures RevivesIn(ts[m], rs[m])
       <==> Channelled(ts, rs, m, 89) && GrazesIn(ts[m], rs[m]) && ReleasesIn(ts[m], rs[m])
  {
    CounterIsTheChannel(ts, rs, m);
    assert Plays(ts[m], rs[m], ts[m + 1]);
    RoundCounts(ts[m], rs[m], ts[m + 1]);
  }

  /** Letting go is an edge: the focus remembered is the key of the round before. */
  lemma ReleaseIsAnEdge(ts: seq<Team>, rs: seq<Round>, m: nat)
    requires IsRun(ts, rs) && OneGhost(ts[0]) && 0 < m <= |rs| && !ts[m].runOver
    ensures ts[m].p1.focus <==> rs[m - 1].frame.in1 & FOCUS != 0
    ensures ts[m].p2.focus <==> !ts[m - 1].p2.isGhost && rs[m - 1].frame.in2 & FOCUS != 0
  {
    var t, r := ts[m - 1], rs[m - 1];
    NeverBothGhosts(ts, rs, m - 1);
    assert Plays(t, r, ts[m - 1 + 1]);
    PlayGhosts(Collected(t, r), r.frame);
    NoKeyIsHeld();
    FocusIsKept(Collected(t, r), r.frame);
  }

  lemma FocusIsKept(t: Team, f: Frame)
    requires !Updated(t, f).runOver
    ensures Play(t, f).p1.focus == Held(f.in1) && Play(t, f).p2.focus == Held(Fed2(t, f))
  {
  }

  lemma NoKeyIsHeld()
    ensures !Held(0)
  {
  }

  /** A revive is paid by the other player, with one spare; the ghost comes back with what it has. */
  lemma ReviveIsPaid(ts: seq<Team>, rs: seq<Round>, m: nat)
    requires IsRun(ts, rs) && Fresh(ts[0]) && m < |rs| && RevivesIn(ts[m], rs[m])
    ensures var u, v := Updated(Collected(ts[m], rs[m]), rs[m].frame), ts[m + 1];
            && !v.p1.isGhost && !v.p2.isGhost && v.oneUps == u.oneUps
            && if u.p2.isGhost then
                 && v.p1.stock == u.p1.stock.(lives := u.p1.stock.lives - 1)
                 && v.p2.stock == u.p2.stock.(lives := if u.p2.stock.lives < 0 then 0 else u.p2.stock.lives)
               else v.p2.stock == u.p2.stock.(lives := u.p2.stock.lives - 1) && v.p1.stock == u.p1.stock
  {
    var s, f := Collected(ts[m], rs[m]), rs[m].frame;
    NeverBothGhosts(ts, rs, m);
    PlayGhosts(s, f);
    assert Plays(ts[m], rs[m], ts[m + 1]);
    ChannelPays(Updated(s, f), f, Fed2(s, f));
  }

  lemma ChannelPays(u: Team, f: Frame, in2: Word)
    requires OneGhost(u)
    ensures var v := Channel(u, f, in2);
            Returns(u, v) ==>
              && !v.p1.isGhost && !v.p2.isGhost && v.oneUps == u.oneUps
              && if u.p2.isGhost then
                   && v.p1.stock == u.p1.stock.(lives := u.p1.stock.lives - 1)
                   && v.p2.stock == u.p2.stock.(lives := if u.p2.stock.lives < 0 then 0 else u.p2.stock.lives)
                 else v.p2.stock == u.p2.stock.(lives := u.p2.stock.lives - 1) && v.p1.stock == u.p1.stock
  {
  }

  // ---- what a player goes on with ----

  /** Whether a player is lent a spare in a run that goes on, what the engine's update starts from, and
      how many lives of its end are the player's own. */
  predicate IsLent(p: Player) {
    !p.isGhost && p.stock.lives < 1
  }

  function EndOf(p: Player, run: Stock -> Stock): Stock {
    run(if IsLent(p) then p.stock.(lives := 1) else p.stock)
  }

  function Own(p: Player, run: Stock -> Stock): Stock {
    var end := EndOf(p, run);
    end.(lives := if IsLent(p) then end.lives - 1 else end.lives)
  }

  /** A frame leaves each player what the engine's update of that player left, less the loan. A new
      ghost has its last bombs, and P2 after losing a spare of its own its character's. */
  lemma StocksAreTheEngines(t: Team, f: Frame)
    requires SparesOk(t) && EngineSane(f) && !Updated(t, f).runOver
    ensures var u := Updated(t, f);
            && u.p1.stock == (if u.p1.isGhost && !t.p1.isGhost then EndOf(t.p1, f.run1).(bombs := t.p1.alive)
                              else Own(t.p1, f.run1))
            && u.p2.stock == (if u.p2.isGhost && !t.p2.isGhost then EndOf(t.p2, f.run2).(bombs := t.p2.alive)
                              else if !t.p2.isGhost && !IsLent(t.p2) && EndOf(t.p2, f.run2).lives < t.p2.stock.lives
                              then Own(t.p2, f.run2).(bombs := f.charBombs)
                              else Own(t.p2, f.run2))
  {
    Update1Ghosts(t, f);
    Update2Ghosts(Update1(t, f), f);
  }

  // ---- the bombs a ghost comes back with ----

  /** The player is no ghost after its update and in a state that acts. */
  predicate ActsAlive1(t: Team, r: Round) {
    !Update1(Collected(t, r), r.frame).p1.isGhost && r.frame.st1 in {0, 4}
  }

  predicate ActsAlive2(t: Team, r: Round) {
    !Updated(Collected(t, r), r.frame).p2.isGhost && r.frame.st2 in {0, 4}
  }

  function Alive1(ts: seq<Team>, rs: seq<Round>): (marks: seq<bool>)
    requires |rs| <= |ts|
    ensures |marks| == |rs|
  {
    seq(|rs|, i requires 0 <= i < |rs| => ActsAlive1(ts[i], rs[i]))
  }

  function Alive2(ts: seq<Team>, rs: seq<Round>): (marks: seq<bool>)
    requires |rs| <= |ts|
    ensures |marks| == |rs|
  {
    seq(|rs|, i requires 0 <= i < |rs| => ActsAlive2(ts[i], rs[i]))
  }

  /** The bombs at the end of the last marked round before n, or at the start. */
  function LastBombs(marks: seq<bool>, bombs: seq<int>, start: int, n: nat): int
    requires n <= |marks| < |bombs|
  {
    if n == 0 then start else if marks[n - 1] then bombs[n] else LastBombs(marks, bombs, start, n - 1)
  }

  function Bombs1(ts: seq<Team>): (b: seq<int>)
    ensures |b| == |ts|
  {
    seq(|ts|, i requires 0 <= i < |ts| => ts[i].p1.stock.bombs)
  }

  function Bombs2(ts: seq<Team>): (b: seq<int>)
    ensures |b| == |ts|
  {
    seq(|ts|, i requires 0 <= i < |ts| => ts[i].p2.stock.bombs)
  }

  /** The player goes down in the round, and its partner is no ghost. */
  predicate Haunts1(t: Team, r: Round) {
    Down1(Collected(t, r), r.frame) && !t.p2.isGhost
  }

  predicate Haunts2(t: Team, r: Round) {
    var u := Update1(Collected(t, r), r.frame);
    Down2(u, r.frame) && !u.p1.isGhost
  }

  lemma RoundBombs1(t: Team, r: Round, u: Team)
    requires Plays(t, r, u)
    ensures u.p1.alive == if ActsAlive1(t, r) then u.p1.stock.bombs else t.p1.alive
    ensures Haunts1(t, r) ==> u.p1.stock.bombs == t.p1.alive
  {
    var s, f := Collected(t, r), r.frame;
    ChannelBombs(Updated(s, f), f, Fed2(s, f));
    Update2Ghosts(Update1(s, f), f);
  }

  lemma RoundBombs2(t: Team, r: Round, u: Team)
    requires Plays(t, r, u)
    ensures u.p2.alive == if ActsAlive2(t, r) then u.p2.stock.bombs else t.p2.alive
    ensures Haunts2(t, r) ==> u.p2.stock.bombs == t.p2.alive
  {
    var s, f := Collected(t, r), r.frame;
    ChannelBombs(Updated(s, f), f, Fed2(s, f));
    Update1Ghosts(s, f);
  }

  lemma ChannelBombs(t: Team, f: Frame, in2: Word)
    ensures var v := Channel(t, f, in2);
            && v.p1.stock.bombs == t.p1.stock.bombs && v.p2.stock.bombs == t.p2.stock.bombs
            && v.p1.alive == t.p1.alive && v.p2.alive == t.p2.alive
  {
  }

  lemma {:induction false} AliveIsTheLastStock1(ts: seq<Team>, rs: seq<Round>, n: nat)
    requires IsRun(ts, rs) && n <= |rs|
    ensures ts[n].p1.alive == LastBombs(Alive1(ts, rs), Bombs1(ts), ts[0].p1.alive, n)
  {
    if n > 0 {
      AliveIsTheLastStock1(ts, rs, n - 1);
      assert Plays(ts[n - 1], rs[n - 1], ts[n - 1 + 1]);
      RoundBombs1(ts[n - 1], rs[n - 1], ts[n]);
    }
  }

  lemma {:induction false} AliveIsTheLastStock2(ts: seq<Team>, rs: seq<Round>, n: nat)
    requires IsRun(ts, rs) && n <= |rs|
    ensures ts[n].p2.alive == LastBombs(Alive2(ts, rs), Bombs2(ts), ts[0].p2.alive, n)
  {
    if n > 0 {
      AliveIsTheLastStock2(ts, rs, n - 1);
      assert Plays(ts[n - 1], rs[n - 1], ts[n - 1 + 1]);
      RoundBombs2(ts[n - 1], rs[n - 1], ts[n]);
    }
  }

  /** A player that becomes a ghost has the bombs it had when it last acted alive, whatever the
      engine's respawn filled up. */
  lemma GhostKeepsItsBombs(ts: seq<Team>, rs: seq<Round>, m: nat)
    requires IsRun(ts, rs) && m < |rs|
    ensures Haunts1(ts[m], rs[m]) ==>
              ts[m + 1].p1.stock.bombs == LastBombs(Alive1(ts, rs), Bombs1(ts), ts[0].p1.alive, m)
    ensures Haunts2(ts[m], rs[m]) ==>
              ts[m + 1].p2.stock.bombs == LastBombs(Alive2(ts, rs), Bombs2(ts), ts[0].p2.alive, m)
  {
    AliveIsTheLastStock1(ts, rs, m);
    AliveIsTheLastStock2(ts, rs, m);
    assert Plays(ts[m], rs[m], ts[m + 1]);
    RoundBombs1(ts[m], rs[m], ts[m + 1]);
    RoundBombs2(ts[m], rs[m], ts[m + 1]);
  }
}
