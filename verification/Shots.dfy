/** P2's shots handed over to P1's array, in place. */
module Shots {
  const SHOT_COUNT := 96

  /** One slot: the active halfword, and the rest of the record. */
  datatype Shot = Shot(active: int, data: int)

  /** The active shots of an array, however they are placed. */
  function Live(s: seq<Shot>): multiset<Shot> {
    if s == [] then multiset{}
    else Live(s[..|s| - 1]) + One(s[|s| - 1])
  }

  function One(x: Shot): multiset<Shot> {
    if x.active != 0 then multiset{x} else multiset{}
  }

  lemma Regroup(a: multiset<Shot>, b: multiset<Shot>, c: multiset<Shot>, d: multiset<Shot>, e: multiset<Shot>)
    requires a + b == c + d
    ensures (a + e) + b == (c + e) + d
  {
    assert (a + e) + b == (a + b) + e && (c + e) + d == (c + d) + e;
  }

  lemma LiveLast(s: seq<Shot>, x: Shot)
    requires s != []
    ensures var n := |s| - 1; Live(s[n := x]) + One(s[n]) == Live(s) + One(x)
  {
    var n := |s| - 1;
    assert s[n := x][..n] == s[..n];
    assert Live(s[n := x]) == Live(s[..n]) + One(x);
  }

  /** Overwriting one slot exchanges what that slot contributes. */
  lemma {:induction false} LiveUpdate(s: seq<Shot>, i: nat, x: Shot)
    requires i < |s|
    ensures Live(s[i := x]) + One(s[i]) == Live(s) + One(x)
  {
    var n := |s| - 1;
    if i == n {
      LiveLast(s, x);
    } else {
      assert s[i := x][..n] == s[..n][i := x];
      LiveUpdate(s[..n], i, x);
      assert Live(s[i := x]) == Live(s[..n][i := x]) + One(s[n]);
      Regroup(Live(s[..n][i := x]), One(s[i]), Live(s[..n]), One(x), One(s[n]));
    }
  }

  /** What no active slot can be lost from: the shots of both arrays together. */
  function Both(p1: seq<Shot>, p2: seq<Shot>): multiset<Shot> {
    Live(p1) + Live(p2)
  }

  /** Copying a shot into a free slot and clearing its own keeps the shots of both together. */
  lemma MoveKeepsBoth(p1: seq<Shot>, p2: seq<Shot>, i: nat, j: nat)
    requires i < |p2| && j < |p1| && p1[j].active == 0
    ensures Both(p1[j := p2[i]], p2[i := p2[i].(active := 0)]) == Both(p1, p2)
  {
    LiveUpdate(p1, j, p2[i]);
    LiveUpdate(p2, i, p2[i].(active := 0));
    var a, b := Live(p1[j := p2[i]]), Live(p2[i := p2[i].(active := 0)]);
    assert a == Live(p1) + One(p2[i]) && b + One(p2[i]) == Live(p2);
    assert a + b == Live(p1) + (b + One(p2[i]));
  }

  lemma {:induction false} NoneLive(s: seq<Shot>)
    requires forall k | 0 <= k < |s| :: s[k].active == 0
    ensures Live(s) == multiset{}
  {
    if s != [] { NoneLive(s[..|s| - 1]); }
  }

  /** After P2's first i slots: what is in P1 below `free` is active, P1's own shots are where they
      were, and P2's slots are as before or cleared. */
  ghost predicate Handed(was1: seq<Shot>, was2: seq<Shot>, p1: seq<Shot>, p2: seq<Shot>, i: nat, free: nat) {
    Both(p1, p2) == Both(was1, was2) && SlotsHanded(was1, was2, p1, p2, i, free)
  }

  predicate SlotsHanded(was1: seq<Shot>, was2: seq<Shot>, p1: seq<Shot>, p2: seq<Shot>, i: nat, free: nat) {
    && |p1| == |was1| && |p2| == |was2| && i <= |p2| && free <= |p1|
    && (forall k | 0 <= k < |p1| && was1[k].active != 0 :: p1[k] == was1[k])
    && (forall k | 0 <= k < free :: p1[k].active != 0)
    && (forall k | free <= k < |p1| :: p1[k] == was1[k])
    && (forall k | 0 <= k < i :: p2[k] == was2[k].(active := 0))
    && (forall k | i <= k < |p2| :: p2[k] == was2[k])
  }

  lemma HandedOn(was1: seq<Shot>, was2: seq<Shot>, p1: seq<Shot>, p2: seq<Shot>, i: nat, free: nat)
    requires Handed(was1, was2, p1, p2, i, free) && i < |p2| && free < |p1| && p1[free].active == 0 && p2[i].active != 0
    ensures Handed(was1, was2, p1[free := p2[i]], p2[i := p2[i].(active := 0)], i + 1, free + 1)
  {
    MoveKeepsBoth(p1, p2, i, free);
    SlotsHandedOn(was1, was2, p1, p2, i, free);
  }

  lemma SlotsHandedOn(was1: seq<Shot>, was2: seq<Shot>, p1: seq<Shot>, p2: seq<Shot>, i: nat, free: nat)
    requires SlotsHanded(was1, was2, p1, p2, i, free)
    requires i < |p2| && free < |p1| && p1[free].active == 0 && p2[i].active != 0
    ensures SlotsHanded(was1, was2, p1[free := p2[i]], p2[i := p2[i].(active := 0)], i + 1, free + 1)
  {
  }

  // ---- where the shots go ----

  /** The active shots in the order of their slots. */
  function Actives(s: seq<Shot>): seq<Shot> {
    if s == [] then [] else (if s[0].active != 0 then [s[0]] else []) + Actives(s[1..])
  }

  /** A queue of shots put into the free slots, in order, while there are any. */
  function Fill(slots: seq<Shot>, queue: seq<Shot>): seq<Shot> {
    if slots == [] then []
    else if queue == [] || slots[0].active != 0 then [slots[0]] + Fill(slots[1..], queue)
    else [queue[0]] + Fill(slots[1..], queue[1..])
  }

  /** What is placed below `free` and what is still to come. */
  ghost predicate Placed(was1: seq<Shot>, was2: seq<Shot>, p1: seq<Shot>, i: nat, free: nat) {
    && i <= |was2| && free <= |was1| == |p1|
    && p1[..free] + Fill(was1[free..], Actives(was2[i..])) == Fill(was1, Actives(was2))
  }

  lemma {:induction false} FillSkips(slots: seq<Shot>, queue: seq<Shot>, n: nat)
    requires n <= |slots| && forall k | 0 <= k < n :: slots[k].active != 0
    ensures Fill(slots, queue) == slots[..n] + Fill(slots[n..], queue)
  {
    if n > 0 {
      FillSkips(slots[1..], queue, n - 1);
      assert slots[1..][n - 1..] == slots[n..];
      assert slots[..n] == [slots[0]] + slots[1..][..n - 1];
    }
  }

  lemma {:induction false} FillNothing(slots: seq<Shot>)
    ensures Fill(slots, []) == slots
  {
    if slots != [] { FillNothing(slots[1..]); }
  }

  lemma NothingPlaced(was1: seq<Shot>, was2: seq<Shot>)
    ensures Placed(was1, was2, was1, 0, 0)
  {
    assert was1[0..] == was1 && was2[0..] == was2 && was1[..0] == [];
    assert [] + Fill(was1, Actives(was2)) == Fill(was1, Actives(was2));
  }

  /** The search for a free slot passes over slots that stay as they are. */
  lemma PlacedToFree(was1: seq<Shot>, was2: seq<Shot>, p1: seq<Shot>, i: nat, free: nat, next: nat)
    requires Placed(was1, was2, p1, i, free) && free <= next <= |p1|
    requires forall k | free <= k < next :: p1[k] == was1[k] && p1[k].active != 0
    ensures Placed(was1, was2, p1, i, next)
  {
    var n, queue := next - free, Actives(was2[i..]);
    FillSkips(was1[free..], queue, n);
    assert was1[free..][n..] == was1[next..];
    Rejoin(p1[..free], was1[free..][..n], Fill(was1[next..], queue), Fill(was1, Actives(was2)));
    assert p1[..next] == p1[..free] + was1[free..][..n];
  }

  lemma Rejoin(a: seq<Shot>, b: seq<Shot>, c: seq<Shot>, all: seq<Shot>)
    requires a + (b + c) == all
    ensures (a + b) + c == all
  {
  }

  lemma PlacedOn(was1: seq<Shot>, was2: seq<Shot>, p1: seq<Shot>, i: nat, free: nat)
    requires Placed(was1, was2, p1, i, free) && i < |was2| && free < |p1|
    requires was1[free].active == 0 && was2[i].active != 0
    ensures Placed(was1, was2, p1[free := was2[i]], i + 1, free + 1)
  {
    assert was2[i..][0] == was2[i] && was2[i..][1..] == was2[i + 1..];
    assert Actives(was2[i..]) == [was2[i]] + Actives(was2[i + 1..]);
    assert was1[free..][0] == was1[free] && was1[free..][1..] == was1[free + 1..];
    Rejoin(p1[..free], [was2[i]], Fill(was1[free + 1..], Actives(was2[i + 1..])), Fill(was1, Actives(was2)));
    assert p1[free := was2[i]][..free + 1] == p1[..free] + [was2[i]];
  }

  lemma PlacedPast(was1: seq<Shot>, was2: seq<Shot>, p1: seq<Shot>, i: nat, free: nat)
    requires Placed(was1, was2, p1, i, free) && i < |was2| && was2[i].active == 0
    ensures Placed(was1, was2, p1, i + 1, free)
  {
    assert was2[i..][0] == was2[i] && was2[i..][1..] == was2[i + 1..];
    assert [] + Actives(was2[i + 1..]) == Actives(was2[i + 1..]);
  }

  /** Nothing left to place, or no slot left to place it in. */
  lemma PlacedAll(was1: seq<Shot>, was2: seq<Shot>, p1: seq<Shot>, i: nat, free: nat)
    requires Placed(was1, was2, p1, i, free) && (i == |was2| || free == |p1|)
    requires forall k | free <= k < |p1| :: p1[k] == was1[k]
    ensures p1 == Fill(was1, Actives(was2))
  {
    if i == |was2| {
      assert was2[i..] == [];
      FillNothing(was1[free..]);
      assert p1 == p1[..free] + was1[free..];
    } else {
      assert was1[free..] == [] && p1[..free] == p1;
    }
  }

  method NextFree(p1: array<Shot>, start: nat, ghost was1: seq<Shot>, ghost was2: seq<Shot>, p2: array<Shot>, ghost i: nat)
    returns (free: nat)
    requires Handed(was1, was2, p1[..], p2[..], i, start) && Placed(was1, was2, p1[..], i, start)
    ensures start <= free <= p1.Length && (free < p1.Length ==> p1[free].active == 0)
    ensures Handed(was1, was2, p1[..], p2[..], i, free) && Placed(was1, was2, p1[..], i, free)
  {
    free := start;
    while free < p1.Length && p1[free].active != 0
      invariant start <= free <= p1.Length
      invariant forall k | start <= k < free :: p1[k].active != 0
    {
      free := free + 1;
    }
    PlacedToFree(was1, was2, p1[..], i, start, free);
  }

  /** What a transfer is to leave: no active shot is lost or made up; P1's slots are its own shots where
      they were and P2's in order in the free ones; P2's slots are as before or cleared; and either
      all of P2's are handed over or P1 has no free slot. */
  ghost predicate Transferred(was1: seq<Shot>, was2: seq<Shot>, p1: seq<Shot>, p2: seq<Shot>) {
    && |p1| == |was1| && |p2| == |was2|
    && Both(p1, p2) == Both(was1, was2) && p1 == Fill(was1, Actives(was2))
    && (forall k | 0 <= k < |p1| && was1[k].active != 0 :: p1[k] == was1[k])
    && (forall k | 0 <= k < |p2| :: p2[k] == was2[k] || p2[k] == was2[k].(active := 0))
    && ((forall k | 0 <= k < |p2| :: p2[k].active == 0) || (forall k | 0 <= k < |p1| :: p1[k].active != 0))
  }

  lemma HandedAll(was1: seq<Shot>, was2: seq<Shot>, p1: seq<Shot>, p2: seq<Shot>, i: nat, free: nat)
    requires Handed(was1, was2, p1, p2, i, free) && Placed(was1, was2, p1, i, free) && (i == |p2| || free == |p1|)
    ensures Transferred(was1, was2, p1, p2)
  {
    PlacedAll(was1, was2, p1, i, free);
  }

  lemma HandedPast(was1: seq<Shot>, was2: seq<Shot>, p1: seq<Shot>, p2: seq<Shot>, i: nat, free: nat)
    requires Handed(was1, was2, p1, p2, i, free) && Placed(was1, was2, p1, i, free) && i < |p2| && p2[i].active == 0
    ensures Handed(was1, was2, p1, p2, i + 1, free) && Placed(was1, was2, p1, i + 1, free)
  {
    PlacedPast(was1, was2, p1, i, free);
  }

  method Hand(p1: array<Shot>, p2: array<Shot>, i: nat, free: nat, ghost was1: seq<Shot>, ghost was2: seq<Shot>)
    requires p1 != p2 && i < p2.Length && free < p1.Length && p1[free].active == 0 && p2[i].active != 0
    requires Handed(was1, was2, p1[..], p2[..], i, free) && Placed(was1, was2, p1[..], i, free)
    modifies p1, p2
    ensures Handed(was1, was2, p1[..], p2[..], i + 1, free + 1) && Placed(was1, was2, p1[..], i + 1, free + 1)
  {
    HandedOn(was1, was2, p1[..], p2[..], i, free);
    PlacedOn(was1, was2, p1[..], i, free);
    Move(p1, p2, i, free);
  }

  /** One of P2's slots: passed over if it is free, and else put into P1's next free slot. */
  method HandOver(p1: array<Shot>, p2: array<Shot>, i: nat, free: nat, ghost was1: seq<Shot>, ghost was2: seq<Shot>)
    returns (next: nat, full: bool)
    requires p1 != p2 && i < p2.Length
    requires Handed(was1, was2, p1[..], p2[..], i, free) && Placed(was1, was2, p1[..], i, free)
    modifies p1, p2
    ensures full ==> next == p1.Length
    ensures full ==> Handed(was1, was2, p1[..], p2[..], i, next) && Placed(was1, was2, p1[..], i, next)
    ensures !full ==> Handed(was1, was2, p1[..], p2[..], i + 1, next) && Placed(was1, was2, p1[..], i + 1, next)
  {
    if p2[i].active == 0 {
      HandedPast(was1, was2, p1[..], p2[..], i, free);
      return free, false;
    }
    next := NextFree(p1, free, was1, was2, p2, i);
    if next >= p1.Length { return next, true; }
    Hand(p1, p2, i, next, was1, was2);
    return next + 1, false;
  }

  /** Every active shot of P2 goes to the next free slot of P1, in order, while there is one. */
  method TransferP2Shots(p1: array<Shot>, p2: array<Shot>)
    requires p1 != p2 && p1.Length == p2.Length == SHOT_COUNT
    modifies p1, p2
    ensures Transferred(old(p1[..]), old(p2[..]), p1[..], p2[..])
  {
    ghost var was1, was2 := p1[..], p2[..];
    NothingPlaced(was1, was2);
    var free := 0;
    for i := 0 to SHOT_COUNT
      invariant Handed(was1, was2, p1[..], p2[..], i, free) && Placed(was1, was2, p1[..], i, free)
    {
      var full;
      free, full := HandOver(p1, p2, i, free, was1, was2);
      if full {
        HandedAll(was1, was2, p1[..], p2[..], i, free);
        return;
      }
    }
    HandedAll(was1, was2, p1[..], p2[..], SHOT_COUNT, free);
  }

  /** The copy of one record, and the removal from P2's array. */
  method Move(p1: array<Shot>, p2: array<Shot>, i: nat, j: nat)
    requires p1 != p2 && i < p2.Length && j < p1.Length && p1[j].active == 0
    modifies p1, p2
    ensures p1[..] == old(p1[..])[j := old(p2[i])]
    ensures p2[..] == old(p2[..])[i := old(p2[i]).(active := 0)]
    ensures Both(p1[..], p2[..]) == old(Both(p1[..], p2[..]))
  {
    MoveKeepsBoth(p1[..], p2[..], i, j);
    p1[j] := p2[i];
    p2[i] := p2[i].(active := 0);
    assert p1[..] == old(p1[..])[j := old(p2[i])];
    assert p2[..] == old(p2[..])[i := old(p2[i]).(active := 0)];
  }
}
