/** The one 16-bit word both machines act on: P1 in the low nine bits, P2 in the
    high seven, plus the co-op side's packing of P2 into and out of those bits. */
module Merge {
  /** An `unsigned short`. */
  type Word = bv16

  const SHOOT: Word := 0x0001
  const BOMB: Word := 0x0002
  const FOCUS: Word := 0x0004
  const MENU: Word := 0x0008
  const UP: Word := 0x0010
  const DOWN: Word := 0x0020
  const LEFT: Word := 0x0040
  const RIGHT: Word := 0x0080
  const SKIP: Word := 0x0100
  const SHOOT2: Word := 0x0200
  const BOMB2: Word := 0x0400
  const FOCUS2: Word := 0x0800
  const UP2: Word := 0x1000
  const DOWN2: Word := 0x2000
  const LEFT2: Word := 0x4000
  const RIGHT2: Word := 0x8000

  /** The nine bits the game reads for one player, and the seven of them P2 has a copy of. */
  const LOW9: Word := 0x01FF
  const GAMEPLAY: Word := 0x00F7

  function IsDown(a: Word, mask: Word, b: Word): Word {
    if a & mask != 0 then b else 0
  }

  /** The other player's word laid over P1's: seven buttons move up, MENU and SKIP stay. */
  function Lay(p1: Word, p2: Word): Word {
    p1
    | IsDown(p2, LEFT, LEFT2)
    | IsDown(p2, RIGHT, RIGHT2)
    | IsDown(p2, UP, UP2)
    | IsDown(p2, DOWN, DOWN2)
    | IsDown(p2, SHOOT, SHOOT2)
    | IsDown(p2, BOMB, BOMB2)
    | IsDown(p2, FOCUS, FOCUS2)
    | IsDown(p2, MENU, MENU)
    | IsDown(p2, SKIP, SKIP)
  }

  function MergeKeys(isHost: bool, isInUI: bool, selfKey: Word, rcvKey: Word): Word {
    if isInUI then selfKey | rcvKey
    else if isHost then Lay(selfKey, rcvKey)
    else Lay(rcvKey, selfKey)
  }

  /** P2's buttons out of the merged word, in the layout the player update reads. */
  function UnpackP2(m: Word): Word {
    IsDown(m, SHOOT2, SHOOT)
    | IsDown(m, BOMB2, BOMB)
    | IsDown(m, FOCUS2, FOCUS)
    | IsDown(m, UP2, UP)
    | IsDown(m, DOWN2, DOWN)
    | IsDown(m, LEFT2, LEFT)
    | IsDown(m, RIGHT2, RIGHT)
  }

  function PackP2(w: Word): Word {
    IsDown(w, SHOOT, SHOOT2)
    | IsDown(w, BOMB, BOMB2)
    | IsDown(w, FOCUS, FOCUS2)
    | IsDown(w, UP, UP2)
    | IsDown(w, DOWN, DOWN2)
    | IsDown(w, LEFT, LEFT2)
    | IsDown(w, RIGHT, RIGHT2)
  }

  /** Host and guest, each with the other's word, compute one word in either mode. */
  lemma MergeAgrees(ui: bool, host: Word, guest: Word)
    ensures MergeKeys(true, ui, host, guest) == MergeKeys(false, ui, guest, host)
  {
  }

  /** In a menu any button held on either machine is held in the word, and no other. */
  lemma EitherMovesTheMenu(isHost: bool, mine: Word, theirs: Word, m: Word)
    ensures MergeKeys(isHost, true, mine, theirs) & m != 0 <==> mine & m != 0 || theirs & m != 0
  {
    if (mine | theirs) & m == 0 { MissesBoth(mine, theirs, m); }
    if mine & m == 0 && theirs & m == 0 { BothMiss(mine, theirs, m); }
  }

  lemma MissesBoth(a: Word, b: Word, m: Word)
    requires (a | b) & m == 0
    ensures a & m == 0 && b & m == 0
  {
  }

  lemma BothMiss(a: Word, b: Word, m: Word)
    requires a & m == 0 && b & m == 0
    ensures (a | b) & m == 0
  {
  }

  /** P1's half of the merged word: the host's nine bits, plus the MENU and SKIP both share. */
  lemma MergeLowHalf(host: Word, guest: Word)
    ensures MergeKeys(true, false, host, guest) & LOW9 == (host & LOW9) | (guest & (MENU | SKIP))
  {
  }

  /** P2's half of the merged word: the guest's seven gameplay buttons moved up, over whatever
      the host itself holds above SKIP. */
  lemma MergeHighHalf(host: Word, guest: Word)
    ensures MergeKeys(true, false, host, guest) & !LOW9 == PackP2(guest) | (host & !LOW9)
  {
  }

  /** Unpacking P2 gives exactly the guest's gameplay buttons if and only if the host's own high
      bits add none the guest is not already holding. */
  lemma MergeRecoversGuest(host: Word, guest: Word)
    ensures UnpackP2(MergeKeys(true, false, host, guest)) == guest & GAMEPLAY
       <==> PackP2(guest) | (host & !LOW9) == PackP2(guest)
  {
    if PackP2(guest) | (host & !LOW9) == PackP2(guest) { NoStrayBits(host, guest); }
    if UnpackP2(Lay(host, guest)) == guest & GAMEPLAY { RecoveredMeansNoStray(host, guest); }
  }

  /** A host word with SHOOT2 set and an idle guest: P2 shoots. */
  lemma AStrayBitIsTaken()
    ensures UnpackP2(MergeKeys(true, false, SHOOT2, 0)) == SHOOT != 0 & GAMEPLAY
  {
  }

  lemma NoStrayBits(host: Word, guest: Word)
    requires PackP2(guest) | (host & !LOW9) == PackP2(guest)
    ensures UnpackP2(Lay(host, guest)) == guest & GAMEPLAY
  {
  }

  lemma RecoveredMeansNoStray(host: Word, guest: Word)
    requires UnpackP2(Lay(host, guest)) == guest & GAMEPLAY
    ensures PackP2(guest) | (host & !LOW9) == PackP2(guest)
  {
  }

  /** Where P2's buttons lie: SHOOT, BOMB and FOCUS nine bits up, the directions eight bits up. */
  lemma PackIsTwoShifts(w: Word)
    ensures PackP2(w) == ((w & 0x0007) << 9) | ((w & 0x00F0) << 8)
    ensures UnpackP2(w) == ((w >> 9) & 0x0007) | ((w >> 8) & 0x00F0)
  {
  }

  /** Packing P2 into the high bits of any word keeps exactly its gameplay buttons. */
  lemma PackUnpack(low: Word, w: Word)
    ensures UnpackP2((low & LOW9) | PackP2(w)) == w & GAMEPLAY
  {
  }

  lemma UnpackPack(m: Word)
    ensures PackP2(UnpackP2(m)) == m & !LOW9
  {
  }
}
