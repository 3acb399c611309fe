/** A second player with another character's sprites: the tables are loaded over P1's, the
    differences captured, P1's put back, and the captured entries exchanged in and out. */
module AnmOverlay {
  /** ANM_MAX_IDS: the window of ids a player's character uses. */
  const IDS := 0xA0

  type Sprite = seq<bv8>

  /** One id's row in the three tables. */
  datatype Entry = Entry(script: int, rev: int, sprite: Sprite)

  /** A captured row and the id it is for. */
  datatype Slot = Slot(id: nat, entry: Entry)

  /** What the capture compares: the script and the sprite, not the reverse base. */
  predicate Differs(a: Entry, b: Entry) {
    a.script != b.script || a.sprite != b.sprite
  }

  /** The rows among the first n ids in which the second table differs from the first. */
  function Capture(p1: seq<Entry>, p2: seq<Entry>, n: nat): seq<Slot>
    requires n <= |p1| == |p2|
  {
    if n == 0 then []
    else
      Capture(p1, p2, n - 1) + if Differs(p1[n - 1], p2[n - 1]) then [Slot(n - 1, p2[n - 1])] else []
  }

  /** Table and capture together, and the first n captured rows exchanged with the table's. */
  datatype Pair = Pair(table: seq<Entry>, cap: seq<Slot>)

  predicate Fits(p: Pair) {
    && (forall i | 0 <= i < |p.cap| :: p.cap[i].id < |p.table|)
    && (forall i, j | 0 <= i < j < |p.cap| :: p.cap[i].id < p.cap[j].id)
  }

  function Swap(p: Pair, n: nat): (r: Pair)
    requires Fits(p) && n <= |p.cap|
    ensures |r.table| == |p.table| && |r.cap| == |p.cap| && Fits(r)
    ensures forall i | 0 <= i < |p.cap| :: r.cap[i].id == p.cap[i].id
  {
    if n == 0 then p
    else
      var q := Swap(p, n - 1);
      var id := q.cap[n - 1].id;
      Pair(q.table[id := q.cap[n - 1].entry], q.cap[n - 1 := Slot(id, q.table[id])])
  }

  function SwapAll(p: Pair): Pair
    requires Fits(p)
  {
    Swap(p, |p.cap|)
  }

  // ---- what a swap does, row by row ----

  /** Captured rows from n on have not been touched. */
  lemma {:induction false} SwapLeavesRest(p: Pair, n: nat)
    requires Fits(p) && n <= |p.cap|
    ensures forall i | n <= i < |p.cap| :: Swap(p, n).cap[i] == p.cap[i]
  {
    if n > 0 { SwapLeavesRest(p, n - 1); }
  }

  /** Rows of no captured id below n have not been touched. */
  lemma {:induction false} SwapLeavesOthers(p: Pair, n: nat, k: nat)
    requires Fits(p) && n <= |p.cap| && k < |p.table| && forall i | 0 <= i < n :: p.cap[i].id != k
    ensures Swap(p, n).table[k] == p.table[k]
  {
    if n > 0 { SwapLeavesOthers(p, n - 1, k); }
  }

  /** A captured row below n has changed places with the table's. */
  lemma {:induction false} SwapExchanges(p: Pair, n: nat, i: nat)
    requires Fits(p) && i < n <= |p.cap|
    ensures Swap(p, n).table[p.cap[i].id] == p.cap[i].entry && Swap(p, n).cap[i].entry == p.table[p.cap[i].id]
  {
    if i == n - 1 {
      SwapLeavesRest(p, n - 1);
      SwapLeavesOthers(p, n - 1, p.cap[i].id);
    } else {
      SwapExchanges(p, n - 1, i);
    }
  }

  /** The captured rows have changed places with the table's, and nothing else has moved. */
  lemma SwapAt(p: Pair)
    requires Fits(p)
    ensures var q := SwapAll(p);
            && (forall i | 0 <= i < |p.cap| :: q.table[p.cap[i].id] == p.cap[i].entry && q.cap[i].entry == p.table[p.cap[i].id])
            && (forall k | 0 <= k < |p.table| && (forall i | 0 <= i < |p.cap| :: p.cap[i].id != k) :: q.table[k] == p.table[k])
  {
    var q := SwapAll(p);
    forall i | 0 <= i < |p.cap|
      ensures q.table[p.cap[i].id] == p.cap[i].entry && q.cap[i].entry == p.table[p.cap[i].id]
    {
      SwapExchanges(p, |p.cap|, i);
    }
    forall k | 0 <= k < |p.table| && (forall i | 0 <= i < |p.cap| :: p.cap[i].id != k) ensures q.table[k] == p.table[k] {
      SwapLeavesOthers(p, |p.cap|, k);
    }
  }

  /** Swapping twice is doing nothing: tables and capture are back exactly. */
  lemma SwapUndoesItself(p: Pair)
    requires Fits(p)
    ensures SwapAll(SwapAll(p)) == p
  {
    var q := SwapAll(p);
    var r := SwapAll(q);
    SwapAt(p);
    SwapAt(q);
    forall i | 0 <= i < |p.cap| ensures r.cap[i] == p.cap[i] {
      assert r.cap[i].id == q.cap[i].id == p.cap[i].id;
    }
    forall k | 0 <= k < |p.table| ensures r.table[k] == p.table[k] {
      if i :| 0 <= i < |p.cap| && p.cap[i].id == k {
        assert r.table[q.cap[i].id] == q.cap[i].entry;
      } else {
        assert forall i | 0 <= i < |q.cap| :: q.cap[i].id == p.cap[i].id != k;
      }
    }
    assert r.cap == p.cap && r.table == p.table;
  }

  // ---- capture, then swap ----

  /** What is captured: rows that differ, in order, with what they differ by. */
  predicate Genuine(p1: seq<Entry>, p2: seq<Entry>, n: nat, s: Slot)
    requires n <= |p1| == |p2|
  {
    s.id < n && Differs(p1[s.id], p2[s.id]) && s.entry == p2[s.id]
  }

  lemma {:induction false} CaptureIsGenuine(p1: seq<Entry>, p2: seq<Entry>, n: nat)
    requires n <= |p1| == |p2|
    ensures var c := Capture(p1, p2, n);
            && |c| <= n
            && (forall i | 0 <= i < |c| :: Genuine(p1, p2, n, c[i]))
            && (forall i, j | 0 <= i < j < |c| :: c[i].id < c[j].id)
  {
    if n > 0 {
      CaptureIsGenuine(p1, p2, n - 1);
      var b := Capture(p1, p2, n - 1);
      assert forall i | 0 <= i < |b| :: Genuine(p1, p2, n - 1, b[i]);
    }
  }

  predicate IsCaptured(c: seq<Slot>, k: int) {
    exists i :: 0 <= i < |c| && c[i].id == k
  }

  lemma {:induction false} CaptureIsComplete(p1: seq<Entry>, p2: seq<Entry>, n: nat, k: nat)
    requires k < n <= |p1| == |p2| && Differs(p1[k], p2[k])
    ensures IsCaptured(Capture(p1, p2, n), k)
  {
    var b, c := Capture(p1, p2, n - 1), Capture(p1, p2, n);
    if k == n - 1 {
      assert c[|c| - 1].id == k;
    } else {
      CaptureIsComplete(p1, p2, n - 1, k);
      var i :| 0 <= i < |b| && b[i].id == k;
      assert c[i].id == k;
    }
  }

  /** The capture fits its table and has exactly the rows that differ. */
  lemma CaptureFits(p1: seq<Entry>, p2: seq<Entry>)
    requires |p1| == |p2|
    ensures var c := Capture(p1, p2, |p1|);
            && Fits(Pair(p1, c)) && |c| <= |p1|
            && (forall i | 0 <= i < |c| :: Genuine(p1, p2, |p1|, c[i]))
            && (forall k | 0 <= k < |p1| :: IsCaptured(c, k) <==> Differs(p1[k], p2[k]))
  {
    var c := Capture(p1, p2, |p1|);
    CaptureIsGenuine(p1, p2, |p1|);
    forall k | 0 <= k < |p1| ensures IsCaptured(c, k) <==> Differs(p1[k], p2[k]) {
      if Differs(p1[k], p2[k]) { CaptureIsComplete(p1, p2, |p1|, k); }
      if i :| 0 <= i < |c| && c[i].id == k { assert Genuine(p1, p2, |p1|, c[i]); }
    }
  }

  function Overlaid(p1: seq<Entry>, p2: seq<Entry>): Pair
    requires |p1| == |p2|
  {
    CaptureFits(p1, p2);
    SwapAll(Pair(p1, Capture(p1, p2, |p1|)))
  }

  /** With P1's tables in place again, swapping the captured rows in gives every row the loader's
      script and sprite, and the loader's reverse base too wherever the row was captured. */
  lemma SwapShowsTheLoad(p1: seq<Entry>, p2: seq<Entry>)
    requires |p1| == |p2|
    ensures var t := Overlaid(p1, p2).table;
            |t| == |p1| && forall k | 0 <= k < |p1| :: t[k] == if Differs(p1[k], p2[k]) then p2[k] else p1[k]
  {
    var c := Capture(p1, p2, |p1|);
    CaptureFits(p1, p2);
    SwapAt(Pair(p1, c));
    var t := Overlaid(p1, p2).table;
    forall k | 0 <= k < |p1| ensures t[k] == if Differs(p1[k], p2[k]) then p2[k] else p1[k] {
      if Differs(p1[k], p2[k]) {
        assert IsCaptured(c, k);
        var i :| 0 <= i < |c| && c[i].id == k;
        assert Genuine(p1, p2, |p1|, c[i]) && t[c[i].id] == c[i].entry;
      } else {
        assert !IsCaptured(c, k);
        assert forall i | 0 <= i < |c| :: c[i].id != k;
      }
    }
  }

  /** The overlay is the full load, reverse bases included, if and only if no row changed its reverse
      base alone. */
  lemma OverlayIsTheLoadIff(p1: seq<Entry>, p2: seq<Entry>)
    requires |p1| == |p2|
    ensures Overlaid(p1, p2).table == p2
       <==> forall k | 0 <= k < |p1| && p1[k].rev != p2[k].rev :: Differs(p1[k], p2[k])
  {
    SwapShowsTheLoad(p1, p2);
    var t := Overlaid(p1, p2).table;
    if forall k | 0 <= k < |p1| && p1[k].rev != p2[k].rev :: Differs(p1[k], p2[k]) {
      assert forall k | 0 <= k < |p1| :: t[k] == p2[k];
    }
  }

  /** A loader that changed one row's reverse base and nothing else would not be shown. */
  lemma ReverseBaseAloneIsMissed() returns (p1: seq<Entry>, p2: seq<Entry>)
    ensures |p1| == |p2| == 1 && p1[0].rev != p2[0].rev && Overlaid(p1, p2).table == p1 != p2
  {
    p1, p2 := [Entry(0, 0, [])], [Entry(0, 1, [])];
    assert p1[0].rev != p2[0].rev;
    SwapShowsTheLoad(p1, p2);
  }

  // ---- the tables in place ----

  class Overlay {
    const table: array<Entry>
    const cap: array<Slot>
    var anmChar: int
    var slot: int
    var file: int
    var count: nat
    var active: bool
    var swapped: bool

    constructor (table: array<Entry>)
      requires table.Length == IDS
      ensures Valid(table[..], table[..]) && this.table == table && !swapped && !active && fresh(cap)
    {
      this.table, cap := table, new Slot[IDS];
      anmChar, slot, file, count, active, swapped := -1, -1, 0, 0, false, false;
      new;
      NothingDiffers(table[..], IDS);
    }

    function Now(): Pair
      reads this, table, cap
      requires count <= cap.Length
    {
      Pair(table[..], cap[..count])
    }

    /** P1's tables are p1, and what is captured is where the load p2 differs from them: at rest when
        the flag is off, exchanged when it is on. */
    ghost predicate Valid(p1: seq<Entry>, p2: seq<Entry>)
      reads this, table, cap
    {
      && table.Length == cap.Length == IDS == |p1| == |p2| && count <= IDS
      && var rest := Pair(p1, Capture(p1, p2, IDS));
         Fits(rest) && Now() == if swapped then SwapAll(rest) else rest
    }

    method Put(rows: array<Entry>)
      requires rows.Length == table.Length && rows != table
      modifies table
      ensures table[..] == rows[..]
    {
      for i := 0 to table.Length
        invariant forall k | 0 <= k < i :: table[k] == rows[k]
      {
        table[i] := rows[i];
      }
    }

    method Snapshot() returns (rows: array<Entry>)
      ensures fresh(rows) && rows[..] == table[..]
    {
      rows := new Entry[table.Length](i requires 0 <= i < table.Length reads table => table[i]);
    }

    /** Frees the slot; the engine's own free leaves whatever `wiped` says in the window. */
    method FreeP2CharAnm(wiped: seq<Entry>)
      requires table.Length == |wiped| == IDS == cap.Length && !swapped
      modifies this, table
      ensures table[..] == old(table[..])
      ensures anmChar == slot == -1 && file == 0 && count == 0 && !active && !swapped
    {
      if slot >= 0 {
        var mine := Snapshot();
        forall i | 0 <= i < table.Length { table[i] := wiped[i]; }
        Put(mine);
      }
      anmChar, slot, file, count, active, swapped := -1, -1, 0, 0, false, false;
    }

    /** Loads a character over the window and captures the difference. `loaded` is what the engine's
        loader writes there, whatever its return code; `free` is a free slot, negative for none. */
    method LoadP2CharAnm(charId: int, free: int, loaded: seq<Entry>, rc: int, newFile: int, wiped: seq<Entry>)
      returns (ok: bool)
      requires table.Length == |loaded| == |wiped| == IDS == cap.Length && count <= IDS && !swapped
      modifies this, table, cap
      ensures table[..] == old(table[..]) && !swapped && count <= IDS
      ensures var had := old(anmChar) == charId && old(count) > 0;
              if charId < 0 || charId > 2 || had then
                && (ok <==> 0 <= charId <= 2 && had) && Now() == old(Now()) && active == old(active)
                && anmChar == old(anmChar) && slot == old(slot) && file == old(file)
              else if free < 0 || rc != 0 then !ok && count == 0 && !active && anmChar == slot == -1 && file == 0
              else && Valid(table[..], loaded) && slot == free && file == newFile && anmChar == charId && !active
                   && (ok <==> count > 0)
    {
      if charId < 0 || charId > 2 { return false; }
      if anmChar == charId && count > 0 { return true; }
      FreeP2CharAnm(wiped);
      if free < 0 { return false; }
      var mine := Snapshot();
      forall i | 0 <= i < table.Length { table[i] := loaded[i]; }
      if rc != 0 {
        Put(mine);
        return false;
      }
      CaptureDifference(mine, loaded);
      anmChar, slot, file := charId, free, newFile;
      return count > 0;
    }

    /** The loop over the window: capture a row that differs, and put P1's row back. */
    method CaptureDifference(mine: array<Entry>, ghost loaded: seq<Entry>)
      requires mine.Length == table.Length == IDS == cap.Length == |loaded| && mine != table && table[..] == loaded
      requires !swapped
      modifies this`count, table, cap
      ensures table[..] == mine[..] == old(mine[..]) && Valid(table[..], loaded)
    {
      ghost var p1 := mine[..];
      var n := 0;
      for i := 0 to IDS
        invariant n <= i && mine[..] == p1
        invariant forall k | 0 <= k < i :: table[k] == p1[k]
        invariant forall k | i <= k < IDS :: table[k] == loaded[k]
        invariant cap[..n] == Capture(p1, loaded, i)
      {
        if Differs(mine[i], table[i]) {
          cap[n] := Slot(i, table[i]);
          n := n + 1;
        }
        table[i] := mine[i];
      }
      count := n;
      CaptureFits(p1, loaded);
      assert table[..] == p1;
    }

    /** Installs P2's rows or takes them out. `cur` is the file the slot holds by now: if the engine
        has reused it, the overlay is retired instead of installed. */
    method SwapAnm(enter: bool, cur: int, ghost p1: seq<Entry>, ghost p2: seq<Entry>)
      requires Valid(p1, p2)
      modifies this, table, cap
      ensures Valid(p1, p2) && count == old(count) && anmChar == old(anmChar) && slot == old(slot) && file == old(file)
      ensures var acts := old(active) && count > 0 && enter != old(swapped);
              var retires := acts && enter && old(slot) >= 0 && cur != old(file);
              && swapped == (if acts then enter && !retires else old(swapped))
              && active == (old(active) && !retires)
      ensures !swapped ==> table[..] == p1
      ensures swapped ==> forall k | 0 <= k < IDS :: table[k] == if Differs(p1[k], p2[k]) then p2[k] else p1[k]
    {
      SwapShowsTheLoad(p1, p2);
      if !active || count == 0 || enter == swapped { return; }
      if enter && slot >= 0 && cur != file {
        active, swapped := false, false;
        return;
      }
      SwapUndoesItself(Pair(p1, Capture(p1, p2, IDS)));
      Exchange();
      swapped := enter;
    }

    method Exchange()
      requires count <= cap.Length && Fits(Now())
      modifies table, cap
      ensures Now() == SwapAll(old(Now()))
    {
      ghost var was := Now();
      for i := 0 to count
        invariant Now() == Swap(was, i)
      {
        var id := cap[i].id;
        assert Now().cap[i].id == id;
        var row := table[id];
        table[id] := cap[i].entry;
        cap[i] := Slot(id, row);
      }
    }
  }

  lemma {:induction false} NothingDiffers(p: seq<Entry>, n: nat)
    requires n <= |p|
    ensures Capture(p, p, n) == []
  {
    if n > 0 { NothingDiffers(p, n - 1); }
  }
}
