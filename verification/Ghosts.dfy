/** Two players sharing one run: the phantom spare that turns a last-life death into a ghost, the
    revive by grazing, and the donated life. First as functions on a value, then the program's
    fields and methods, then what holds over every run. */
module Ghosts {
  import opened Merge
  import opened Ledger

  const REVIVE_FRAMES := 90
  const SHARE_FRAMES := 90
  const RADIUS := 32.0

  /** A player: its stock, whether it is a ghost, last frame's focus key, the bombs last held alive. */
  datatype Player = Player(stock: Stock, isGhost: bool, focus: bool, alive: int)

  /** `revive` and `share` count frames, `oneUps` the 1ups dropped and not yet taken. */
  datatype Team = Team(p1: Player, p2: Player, runOver: bool, gameOver: bool, revive: nat, share: nat,
                       oneUps: nat, itemsSeen: bool)

  /** A frame: what the engine's update makes of each player's stock and whether it raises the
      game-over flag, the states and distance after it, and the input words. */
  datatype Frame = Frame(run1: Stock -> Stock, over1: Stock -> bool, run2: Stock -> Stock, over2: Stock -> bool,
                         st1: int, st2: int, dx: real, dy: real, in1: Word, in2: Word, charBombs: int)

  // ---- the engine's update and its end ----

  function Spawned(t: Team): nat {
    if t.itemsSeen then t.oneUps + 1 else t.oneUps
  }

  function Spend(s: Stock): Stock {
    s.(lives := s.lives - 1)
  }

  /** A player without a spare, alive in a run that goes on, is lent one for the update. */
  predicate Lent(over: bool, p: Player) {
    !over && !p.isGhost && p.stock.lives < 1
  }

  /** The stock the engine's update starts from. */
  function StartStock(over: bool, p: Player): Stock {
    if Lent(over, p) then p.stock.(lives := 1) else p.stock
  }

  /** The stock after an update that ended with `after`, the loan taken back. */
  function Repaid(over: bool, p: Player, after: Stock): Stock {
    if Lent(over, p) then Spend(after) else after
  }

  /** The loan is gone: the last life. */
  predicate Falls(over: bool, p: Player, after: Stock) {
    Lent(over, p) && after.lives < 1
  }

  predicate Acts(st: int) {
    st == 0 || st == 4
  }

  function Track(p: Player, st: int): Player {
    if !p.isGhost && Acts(st) then p.(alive := p.stock.bombs) else p
  }

  function Ghost(p: Player, s: Stock): Player {
    p.(isGhost := true, stock := s.(bombs := p.alive))
  }

  function Update1(t: Team, f: Frame): Team {
    var s := StartStock(t.runOver, t.p1);
    var after := f.run1(s);
    var flag := t.gameOver || f.over1(s);
    if !Falls(t.runOver, t.p1, after) then
      t.(p1 := Track(t.p1.(stock := Repaid(t.runOver, t.p1, after)), f.st1), gameOver := flag)
    else if t.p2.isGhost then
      t.(p1 := Track(t.p1.(stock := after), f.st1), gameOver := true, runOver := true)
    else
      t.(p1 := Ghost(t.p1, after), gameOver := flag, revive := 0, oneUps := Spawned(t))
  }

  /** On an ordinary respawn P2 gets its own character's bombs. */
  function Refill(p: Player, was: Stock, bombs: int): Player {
    if !p.isGhost && p.stock.lives < was.lives then p.(stock := p.stock.(bombs := bombs)) else p
  }

  /** The flag raised in P2's update is not the engine's to raise. */
  function Update2(t: Team, f: Frame): Team {
    var was := t.p2.stock;
    var after := f.run2(StartStock(t.runOver, t.p2));
    if !Falls(t.runOver, t.p2, after) then
      var p := t.p2.(stock := Repaid(t.runOver, t.p2, after));
      t.(p2 := Track(Refill(p, was, f.charBombs), f.st2),
         gameOver := t.gameOver || (f.over2(StartStock(t.runOver, t.p2)) && t.runOver))
    else if t.p1.isGhost then
      var p := t.p2.(stock := after.(lives := 0));
      t.(p2 := Track(Refill(p, was, f.charBombs), f.st2), gameOver := true, runOver := true)
    else
      t.(p2 := Ghost(t.p2, after.(lives := 0)), revive := 0, oneUps := Spawned(t))
  }

  // ---- reviving and sharing ----

  predicate Controllable(st: int) {
    st == 0 || st == 3 || st == 4
  }

  predicate Close(f: Frame) {
    -RADIUS < f.dx < RADIUS && -RADIUS < f.dy < RADIUS
  }

  function Give(p: Player): Player {
    p.(stock := Spend(p.stock))
  }

  /** A ghost back in play, with no spare but never less. */
  function Back(p: Player): Player {
    p.(isGhost := false, stock := if p.stock.lives < 0 then p.stock.(lives := 0) else p.stock)
  }

  /** Frames of a channel so far, this one included. */
  predicate Charged(n: nat, donor: Player, release: bool) {
    n + 1 >= REVIVE_FRAMES && release && donor.stock.lives >= 1
  }

  /** P1 grazes the ghost of P2, or P2 that of P1. */
  function Revive2(t: Team, near: bool, release: bool): Team {
    if !near then t.(revive := 0)
    else if Charged(t.revive, t.p1, release) then t.(p1 := Give(t.p1), p2 := Back(t.p2), revive := 0)
    else t.(revive := t.revive + 1)
  }

  function Revive1(t: Team, near: bool, release: bool): Team {
    if !near then t.(revive := 0)
    else if Charged(t.revive, t.p2, release) then t.(p2 := Give(t.p2), p1 := t.p1.(isGhost := false), revive := 0)
    else t.(revive := t.revive + 1)
  }

  function Share(t: Team, near: bool, rel1: bool, rel2: bool): Team {
    if !near then t.(share := 0)
    else if t.share + 1 >= SHARE_FRAMES && rel1 && t.p1.stock.lives >= 1 then
      t.(p1 := Give(t.p1), oneUps := Spawned(t), share := 0)
    else if t.share + 1 >= SHARE_FRAMES && !rel1 && rel2 && t.p2.stock.lives >= 1 then
      t.(p2 := Give(t.p2), oneUps := Spawned(t), share := 0)
    else t.(share := t.share + 1)
  }

  predicate Held(w: Word) {
    w & FOCUS != 0
  }

  predicate Sharing(f: Frame, in2: Word) {
    Controllable(f.st1) && Controllable(f.st2) && f.in1 & SHOOT == 0 && in2 & SHOOT == 0 && Close(f)
  }

  function Drive(t: Team, f: Frame, in2: Word): Team {
    var rel1, rel2 := t.p1.focus && !Held(f.in1), t.p2.focus && !Held(in2);
    if t.p2.isGhost then Revive2(t, Controllable(f.st1) && Close(f), rel1)
    else if t.p1.isGhost then Revive1(t, Controllable(f.st2) && Close(f), rel2)
    else Share(t, Sharing(f, in2), rel1, rel2)
  }

  /** After both updates: revive, or share, then remember the focus keys. */
  function Channel(t: Team, f: Frame, in2: Word): Team {
    if t.runOver then t
    else
      var u := Drive(t, f, in2);
      u.(p1 := u.p1.(focus := Held(f.in1)), p2 := u.p2.(focus := Held(in2)))
  }

  /** A player who was a ghost when its update began has no input in that frame. */
  function Fed2(t: Team, f: Frame): Word {
    if t.p2.isGhost then 0 else f.in2
  }

  function Updated(t: Team, f: Frame): Team {
    Update2(Update1(t, f), f)
  }

  function Play(t: Team, f: Frame): Team {
    Channel(Updated(t, f), f, Fed2(t, f))
  }

  // ---- the program ----

  class Coop {
    /** The engine's struct holds P1's stock; P2's is swapped in for its update. */
    var res: Stock
    var p2: Stock
    var ghost1: bool
    var ghost2: bool
    var runOver: bool
    var gameOver: bool
    var reviveFrames: nat
    var shareFrames: nat
    var prevFocus1: bool
    var prevFocus2: bool
    var aliveBombs1: int
    var aliveBombs2: int
    var oneUps: nat
    var itemsSeen: bool

    constructor (p1: Stock, p2: Stock)
      ensures State() == Team(Player(p1, false, false, 0), Player(p2, false, false, 0), false, false, 0, 0, 0, false)
    {
      res, this.p2, ghost1, ghost2, runOver, gameOver := p1, p2, false, false, false, false;
      reviveFrames, shareFrames, prevFocus1, prevFocus2 := 0, 0, false, false;
      aliveBombs1, aliveBombs2, oneUps, itemsSeen := 0, 0, 0, false;
    }

    function State(): Team
      reads this
    {
      Team(Player(res, ghost1, prevFocus1, aliveBombs1), Player(p2, ghost2, prevFocus2, aliveBombs2),
           runOver, gameOver, reviveFrames, shareFrames, oneUps, itemsSeen)
    }

    method DropOneUp()
      modifies this`oneUps
      ensures oneUps == Spawned(old(State()))
    {
      if itemsSeen { oneUps := oneUps + 1; }
    }

    method EnterGhostP1()
      modifies this
      ensures var t := old(State());
              State() == if t.p2.isGhost then t.(gameOver := true, runOver := true)
                         else t.(p1 := Ghost(t.p1, t.p1.stock), revive := 0, oneUps := Spawned(t))
    {
      if ghost2 {
        gameOver, runOver := true, true;
        return;
      }
      ghost1, reviveFrames, res := true, 0, res.(bombs := aliveBombs1);
      DropOneUp();
    }

    method EnterGhostP2()
      modifies this
      ensures var t := old(State());
              State() == if t.p1.isGhost then t.(gameOver := true, runOver := true)
                         else t.(p2 := Ghost(t.p2, t.p2.stock), revive := 0, oneUps := Spawned(t))
    {
      if ghost1 {
        gameOver, runOver := true, true;
        return;
      }
      ghost2, reviveFrames, p2 := true, 0, p2.(bombs := aliveBombs2);
      DropOneUp();
    }

    method UpdateP1(f: Frame)
      modifies this
      ensures State() == Update1(old(State()), f)
    {
      var fake := false;
      if !runOver && !ghost1 && res.lives < 1 {
        res := res.(lives := 1);
        fake := true;
      }
      gameOver := gameOver || f.over1(res);
      res := f.run1(res);
      if fake {
        if res.lives < 1 { EnterGhostP1(); } else { res := res.(lives := res.lives - 1); }
      }
      if !ghost1 && (f.st1 == 0 || f.st1 == 4) { aliveBombs1 := res.bombs; }
    }

    /** The engine's update of P2 between the swaps: P2's stock in, P2's stock out, P1's back. */
    method SwappedUpdate(f: Frame, fake: bool)
      modifies this`res, this`p2, this`gameOver
      ensures var s := if fake then old(p2).(lives := 1) else old(p2);
              p2 == f.run2(s) && gameOver == (old(gameOver) || f.over2(s)) && res == old(res)
    {
      var saved := res;
      res := if fake then p2.(lives := 1) else p2;
      gameOver := gameOver || f.over2(res);
      res := f.run2(res);
      p2 := res;
      res := saved;
    }

    /** P2's half of a frame; a game over that is not the team's own is taken back. */
    method UpdateP2(f: Frame)
      modifies this
      ensures State() == Update2(old(State()), f)
    {
      var goBefore, before := gameOver, p2.lives;
      var fake := !ghost2 && !runOver && p2.lives < 1;
      SwappedUpdate(f, fake);
      if fake {
        if p2.lives < 1 {
          p2 := p2.(lives := 0);
          EnterGhostP2();
        } else {
          p2 := p2.(lives := p2.lives - 1);
        }
      }
      if !ghost2 && p2.lives < before { p2 := p2.(bombs := f.charBombs); }
      if !goBefore && gameOver && !runOver { gameOver := false; }
      if !ghost2 && (f.st2 == 0 || f.st2 == 4) { aliveBombs2 := p2.bombs; }
    }

    method ReviveByGraze(first: bool, st: int, close: bool, release: bool)
      modifies this
      ensures State() == if first then Revive2(old(State()), Controllable(st) && close, release)
                         else Revive1(old(State()), Controllable(st) && close, release)
    {
      if (st == 0 || st == 3 || st == 4) && close {
        reviveFrames := reviveFrames + 1;
        if reviveFrames >= REVIVE_FRAMES && release {
          if first {
            if res.lives >= 1 {
              res := res.(lives := res.lives - 1);
              ghost2 := false;
              if p2.lives < 0 { p2 := p2.(lives := 0); }
              reviveFrames := 0;
            }
          } else if p2.lives >= 1 {
            p2 := p2.(lives := p2.lives - 1);
            ghost1 := false;
            reviveFrames := 0;
          }
        }
      } else {
        reviveFrames := 0;
      }
    }

    method LifeShare(near: bool, rel1: bool, rel2: bool)
      modifies this
      ensures State() == Share(old(State()), near, rel1, rel2)
    {
      if !near {
        shareFrames := 0;
        return;
      }
      shareFrames := shareFrames + 1;
      if shareFrames >= SHARE_FRAMES && (rel1 || rel2) {
        if rel1 {
          if res.lives < 1 { return; }
          res := res.(lives := res.lives - 1);
        } else {
          if p2.lives < 1 { return; }
          p2 := p2.(lives := p2.lives - 1);
        }
        DropOneUp();
        shareFrames := 0;
      }
    }

    method DriveChannel(f: Frame, in2: Word)
      modifies this
      ensures State() == Channel(old(State()), f, in2)
    {
      if runOver { return; }
      var rel1, rel2 := prevFocus1 && !Held(f.in1), prevFocus2 && !Held(in2);
      if ghost2 { ReviveByGraze(true, f.st1, Close(f), rel1); }
      else if ghost1 { ReviveByGraze(false, f.st2, Close(f), rel2); }
      else { LifeShare(Sharing(f, in2), rel1, rel2); }
      prevFocus1, prevFocus2 := Held(f.in1), Held(in2);
    }

    method HookedUpdate(f: Frame)
      modifies this
      ensures State() == Play(old(State()), f)
    {
      UpdateP1(f);
      var in2 := if ghost2 then 0 else f.in2;
      UpdateP2(f);
      DriveChannel(f, in2);
    }
  }
}
