/** Hold-to-scroll in the menus, recomputed from the merged word so that both machines scroll
    together: the counter and the flag, and their closed form. */
module MenuRepeat {
  import opened Merge

  datatype Scroll = Scroll(ctr: nat, flag: bool)

  function Sync(s: Scroll, same: bool): Scroll {
    if !same then Scroll(0, false)
    else if s.ctr > 0x1D then Scroll((if s.ctr > 0x25 then 0x1E else s.ctr) + 1, s.ctr % 8 == 0)
    else Scroll(s.ctr + 1, false)
  }

  /** The counter, the two words the engine holds, and the flag its menu cursor reads. */
  class Menu {
    var prev: Word
    var ctr: nat
    var flag: bool

    constructor (prev: Word)
      ensures this.prev == prev && ctr == 0 && !flag
    {
      this.prev, ctr, flag := prev, 0, false;
    }

    method SyncMenuRepeat(merged: Word)
      modifies this`ctr, this`flag
      ensures Scroll(ctr, flag) == Sync(old(Scroll(ctr, flag)), prev == merged)
    {
      flag := false;
      if prev == merged {
        if ctr > 0x1D {
          flag := ctr % 8 == 0;
          if ctr > 0x25 { ctr := 0x1E; }
        }
        ctr := ctr + 1;
      } else {
        ctr := 0;
      }
    }

    /** A menu frame: the repeat from the merged word, which the engine then keeps as the last one. */
    method Frame(merged: Word)
      modifies this
      ensures Scroll(ctr, flag) == Sync(old(Scroll(ctr, flag)), old(prev) == merged) && prev == merged
    {
      SyncMenuRepeat(merged);
      prev := merged;
    }

    /** A stretch of menu frames. */
    method Frames(words: seq<Word>)
      modifies this
      ensures Scroll(ctr, flag) == SyncAll(old(prev), old(Scroll(ctr, flag)), words)
    {
      for i := 0 to |words|
        invariant prev == (if i == 0 then old(prev) else words[i - 1])
        invariant Scroll(ctr, flag) == SyncAll(old(prev), old(Scroll(ctr, flag)), words[..i])
      {
        assert words[..i + 1][..i] == words[..i];
        Frame(words[i]);
      }
      assert words[..|words|] == words;
    }
  }

  function SyncAll(prev: Word, s: Scroll, words: seq<Word>): Scroll {
    if words == [] then s
    else
      var n := |words| - 1;
      Sync(SyncAll(prev, s, words[..n]), (if n == 0 then prev else words[n - 1]) == words[n])
  }

  /** For how many frames up to the last the word has been what it was the frame before. */
  function Held(prev: Word, words: seq<Word>): nat {
    if words == [] then 0
    else
      var n := |words| - 1;
      if (if n == 0 then prev else words[n - 1]) == words[n] then Held(prev, words[..n]) + 1 else 0
  }

  /** The length of a held run, read off the words alone. */
  lemma {:induction false} HeldIsTheUnchangedTail(prev: Word, words: seq<Word>)
    ensures var n := Held(prev, words);
            var all := [prev] + words;
            && n <= |words|
            && (forall i | |words| - n <= i <= |words| :: all[i] == all[|words|])
            && (n < |words| ==> all[|words| - n - 1] != all[|words| - n])
  {
    if words != [] {
      var m := |words| - 1;
      HeldIsTheUnchangedTail(prev, words[..m]);
      assert forall i | 0 <= i <= m :: ([prev] + words)[i] == ([prev] + words[..m])[i];
    }
  }

  /** From a fresh scene, the counter is a function of how long the word has been held, stays in
      0..38, and the repeat flag is set at the 33rd held frame and every 8th after it, only. */
  lemma {:induction false} ClosedForm(prev: Word, words: seq<Word>)
    ensures var s, n := SyncAll(prev, Scroll(0, false), words), Held(prev, words);
            && s.ctr == (if n <= 38 then n else 31 + (n - 39) % 8) && s.ctr <= 38
            && (s.flag <==> n >= 33 && (n - 1) % 8 == 0)
  {
    if words != [] {
      var m := |words| - 1;
      ClosedForm(prev, words[..m]);
      Cycle(Held(prev, words[..m]));
    }
  }

  /** One more held frame. */
  lemma Cycle(n: nat)
    ensures var c := if n <= 38 then n else 31 + (n - 39) % 8;
            var s := Sync(Scroll(c, false), true);
            && s.ctr == (if n + 1 <= 38 then n + 1 else 31 + (n + 1 - 39) % 8)
            && (s.flag <==> n + 1 >= 33 && n % 8 == 0)
  {
    if n >= 39 {
      Eighths((n - 39) / 8, (n - 39) % 8);
    }
  }

  lemma Eighths(q: nat, k: nat)
    requires k < 8
    ensures (39 + 8 * q + k) % 8 == (k + 7) % 8
    ensures (8 * q + k + 1) % 8 == (k + 1) % 8
  {
    assert 39 + 8 * q + k == 8 * (q + 4) + (k + 7);
    if k < 7 { assert 8 * q + k + 1 == 8 * q + (k + 1); } else { assert 8 * q + k + 1 == 8 * (q + 1); }
  }
}
