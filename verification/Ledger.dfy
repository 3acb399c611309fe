/** Which player an item is credited to. The engine credits whatever the shared struct holds; the
    hooks swap P2's stock in when P2 collects and swap it out only at the next item, or at the
    end of the loop. The simple form is two accounts and a fold over the items. */
module Ledger {
  /** Spare lives and bombs, which the engine keeps as whole floats, and power. */
  datatype Stock = Stock(lives: int, bombs: int, power: real)

  /** The struct's extend tier goes with the stock it is credited from. */
  datatype Credited = Credited(stock: Stock, tier: nat)

  /** One turn of the engine's loop: whether each player overlaps the item, and what collecting it
      does to the stock and the tier the engine finds. */
  datatype Item = Item(hits1: bool, hits2: bool, credit: (Stock, nat) -> Credited)

  const MAX_LIVES := 8
  const MAX_BOMBS := 8

  /** What cannot change while the loop runs. */
  datatype Mode = Mode(hasP2: bool, separate: bool, ghost1: bool, ghost2: bool)

  // ---- the simple form: two accounts ----

  datatype Books = Books(p1: Stock, p2: Stock, tier: nat)

  datatype Collector = Nobody | First | Second

  function WhoCollects(m: Mode, it: Item): Collector {
    if !m.ghost1 && it.hits1 then First
    else if m.hasP2 && !m.ghost2 && it.hits2 then Second
    else Nobody
  }

  /** An extend for a partner: a life below 8, else a bomb below 8, else nothing. */
  function Extend(s: Stock): Stock {
    if s.lives < MAX_LIVES then s.(lives := s.lives + 1)
    else if s.bombs < MAX_BOMBS then s.(bombs := s.bombs + 1)
    else s
  }

  function Extends(s: Stock, n: nat): Stock {
    if n == 0 then s else Extend(Extends(s, n - 1))
  }

  /** How many tiers were reached; a tier set back is none. */
  function Tiers(was: int, now: int): nat {
    if now > was then now - was else 0
  }

  /** One item in the books: its collector is credited, and each tier reached extends the partner. */
  function Enter(m: Mode, b: Books, it: Item): Books {
    var c := WhoCollects(m, it);
    if c == Nobody then b
    else if c == Second && m.separate then
      var r := it.credit(b.p2, b.tier);
      Books(Extends(b.p1, Tiers(b.tier, r.tier)), r.stock, r.tier)
    else
      var r := it.credit(b.p1, b.tier);
      Books(r.stock, if m.hasP2 && m.separate then Extends(b.p2, Tiers(b.tier, r.tier)) else b.p2, r.tier)
  }

  function EnterAll(m: Mode, b: Books, items: seq<Item>): Books {
    if items == [] then b else Enter(m, EnterAll(m, b, items[..|items| - 1]), items[|items| - 1])
  }

  /** A tier reached since the last check, before the loop began, is mirrored to P2. */
  function Opened(m: Mode, b: Books, lastTier: int): Books {
    if lastTier >= 0 && m.hasP2 && m.separate then b.(p2 := Extends(b.p2, Tiers(lastTier, b.tier))) else b
  }

  // ---- the program ----

  class Items {
    /** The shared struct, P2's own stock, and P1's while P2's is held in the struct. */
    var res: Stock
    var tier: nat
    var p2: Stock
    var held: bool
    var heldP1: Stock
    var lastTier: int
    var mode: Mode

    constructor (res: Stock, p2: Stock, tier: nat, mode: Mode)
      ensures AtRest() && Accounts() == Books(res, p2, tier) && lastTier == -1 && this.mode == mode
    {
      this.res, this.p2, this.tier, this.mode := res, p2, tier, mode;
      held, heldP1, lastTier := false, res, -1;
    }

    predicate AtRest()
      reads this
    {
      !held
    }

    /** The two accounts wherever they are. */
    function Accounts(): Books
      reads this
    {
      if held then Books(heldP1, res, tier) else Books(res, p2, tier)
    }

    /** The accounts once the extends of the last item are mirrored. */
    function Settled(): Books
      reads this
    {
      var b := Accounts();
      if lastTier < 0 || !mode.hasP2 || !mode.separate then b
      else if held then b.(p1 := Extends(b.p1, Tiers(lastTier, tier)))
      else b.(p2 := Extends(b.p2, Tiers(lastTier, tier)))
    }

    method RestoreHeldRes()
      modifies this
      ensures AtRest() && Accounts() == old(Accounts()) && mode == old(mode) && lastTier == old(lastTier)
    {
      if !held { return; }
      held := false;
      p2 := res;
      res := heldP1;
    }

    method CheckPartnerExtend()
      modifies this
      ensures held == old(held) && mode == old(mode) && tier == old(tier) && lastTier == tier
      ensures Accounts() == old(Settled())
    {
      if lastTier < 0 {
        lastTier := tier;
        return;
      }
      if tier > lastTier && mode.hasP2 && mode.separate {
        var n := tier - lastTier;
        ghost var was := Accounts();
        ghost var todo := n;
        while n > 0
          invariant 0 <= n <= todo && held == old(held) && mode == old(mode) && tier == old(tier)
          invariant lastTier == old(lastTier)
          invariant Accounts() == if held then was.(p1 := Extends(was.p1, todo - n))
                                  else was.(p2 := Extends(was.p2, todo - n))
        {
          if held {
            if heldP1.lives < MAX_LIVES { heldP1 := heldP1.(lives := heldP1.lives + 1); }
            else if heldP1.bombs < MAX_BOMBS { heldP1 := heldP1.(bombs := heldP1.bombs + 1); }
          } else {
            if p2.lives < MAX_LIVES { p2 := p2.(lives := p2.lives + 1); }
            else if p2.bombs < MAX_BOMBS { p2 := p2.(bombs := p2.bombs + 1); }
          }
          n := n - 1;
        }
      }
      lastTier := tier;
    }

    /** The overlap test of one item, hooked. */
    method CollectOverlap(it: Item) returns (r: bool)
      modifies this
      ensures mode == old(mode) && tier == old(tier) && lastTier == tier
      ensures Accounts() == old(Settled())
      ensures r == (WhoCollects(mode, it) != Nobody)
      ensures held == (WhoCollects(mode, it) == Second && mode.separate)
    {
      CheckPartnerExtend();
      RestoreHeldRes();
      r := !mode.ghost1 && it.hits1;
      if !r && mode.hasP2 && !mode.ghost2 {
        r := it.hits2;
        if r && mode.separate {
          heldP1 := res;
          res := p2;
          held := true;
        }
      }
    }

    /** What the engine does with a collected item: credit the struct. */
    method EngineCredits(it: Item)
      modifies this`res, this`tier
      ensures Credited(res, tier) == it.credit(old(res), old(tier))
    {
      var r := it.credit(res, tier);
      res, tier := r.stock, r.tier;
    }

    /** The engine's loop over the items between the hooks. */
    method HookedItemLoop(items: seq<Item>)
      requires AtRest()
      modifies this
      ensures AtRest() && mode == old(mode) && lastTier == tier
      ensures Books(res, p2, tier) == EnterAll(mode, Opened(mode, old(Accounts()), old(lastTier)), items)
    {
      ghost var start := Opened(mode, Accounts(), lastTier);
      for i := 0 to |items|
        invariant mode == old(mode) && Settled() == EnterAll(mode, start, items[..i])
      {
        assert items[..i + 1][..i] == items[..i];
        var r := CollectOverlap(items[i]);
        if r { EngineCredits(items[i]); }
      }
      assert items[..|items|] == items;
      CheckPartnerExtend();
      RestoreHeldRes();
    }
  }

  // ---- what the books promise ----

  /** How far the tier has gone up, and by how much the partner's extends follow. */
  function Mirrored(s: Stock, was: nat, now: nat): Stock {
    if now > was then Extends(s, now - was) else s
  }

  /** Who is credited with an item: P1 if it is in play and touches it, whether or not P2 does too;
      else P2 if there is one in play that touches it, in its own stock or in the shared one; and
      nobody otherwise. The other player gets one extend for each tier the credit reached. */
  lemma WhoIsCredited(m: Mode, b: Books, it: Item)
    ensures var b', r1, r2 := Enter(m, b, it), it.credit(b.p1, b.tier), it.credit(b.p2, b.tier);
            if !m.ghost1 && it.hits1 then
              b' == Books(r1.stock, if m.hasP2 && m.separate then Mirrored(b.p2, b.tier, r1.tier) else b.p2, r1.tier)
            else if m.hasP2 && !m.ghost2 && it.hits2 then
              b' == if m.separate then Books(Mirrored(b.p1, b.tier, r2.tier), r2.stock, r2.tier)
                    else Books(r1.stock, b.p2, r1.tier)
            else b' == b
  {
    assert Extends(b.p1, 0) == b.p1 && Extends(b.p2, 0) == b.p2;
  }

  /** Mirrored extends give a partner exactly that many lives and bombs, until both are full. */
  lemma {:induction false} ExtendsAddUp(s: Stock, n: nat)
    ensures var t := Extends(s, n);
            && t.power == s.power && t.lives >= s.lives && t.bombs >= s.bombs
            && t.lives + t.bombs <= s.lives + s.bombs + n
            && (t.lives < 8 || t.bombs < 8 ==> t.lives + t.bombs == s.lives + s.bombs + n)
            && (t.bombs > s.bombs ==> t.lives >= 8)
  {
    if n > 0 { ExtendsAddUp(s, n - 1); }
  }

  /** Splitting a run of extends anywhere gives the same: it does not matter at which items the
      tiers were reached. */
  lemma {:induction false} ExtendsCompose(s: Stock, m: nat, n: nat)
    ensures Extends(Extends(s, m), n) == Extends(s, m + n)
  {
    if n > 0 { ExtendsCompose(s, m, n - 1); }
  }

  /** The credit of an item that reaches no tier. */
  ghost predicate Plain(it: Item) {
    forall s, t: nat :: it.credit(s, t).tier == t
  }

  /** Items that one player collects and that reach no tier leave the other's account alone. */
  lemma {:induction false} PartnerUntouched(m: Mode, b: Books, items: seq<Item>)
    requires m.separate && forall i | 0 <= i < |items| :: Plain(items[i])
    ensures (forall i | 0 <= i < |items| :: WhoCollects(m, items[i]) != Second) ==> EnterAll(m, b, items).p2 == b.p2
    ensures (forall i | 0 <= i < |items| :: WhoCollects(m, items[i]) != First) ==> EnterAll(m, b, items).p1 == b.p1
    ensures EnterAll(m, b, items).tier == b.tier
  {
    if items != [] {
      var init, it := items[..|items| - 1], items[|items| - 1];
      forall i | 0 <= i < |init| ensures Plain(init[i]) && WhoCollects(m, init[i]) == WhoCollects(m, items[i]) {
        assert init[i] == items[i];
      }
      PartnerUntouched(m, b, init);
      assert Plain(it);
    }
  }

  /** Without separate stocks, or without P2, P2's own account never moves. */
  lemma {:induction false} OneAccount(m: Mode, b: Books, items: seq<Item>)
    requires !m.hasP2 || !m.separate
    ensures EnterAll(m, b, items).p2 == b.p2
  {
    if items != [] { OneAccount(m, b, items[..|items| - 1]); }
  }

  /** A point item whose credit is the engine's own extend, one life below 8 and else one bomb
      below 8, gives both players the same number of extends whoever collects it. */
  lemma BothGetTheExtend(m: Mode, b: Books, it: Item)
    requires m.hasP2 && m.separate && WhoCollects(m, it) != Nobody
    requires forall s, t: nat :: it.credit(s, t) == Credited(Extend(s), t + 1)
    ensures Enter(m, b, it) == Books(Extend(b.p1), Extend(b.p2), b.tier + 1)
  {
    assert Extends(b.p1, 1) == Extend(Extends(b.p1, 0)) && Extends(b.p2, 1) == Extend(Extends(b.p2, 0));
  }
}
