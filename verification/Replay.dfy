/** Two players in one recorded word per frame, with the frame's seed beside it, and the tag that
    tells playback there is a second player. */
module Replay {
  import opened Merge
  import opened Wire

  // ---- the input stream ----

  /** P2's local keys, which only ever set gameplay bits. */
  datatype Keys2 = Keys2(up: bool, down: bool, left: bool, right: bool, shoot: bool, focus: bool, bomb: bool)

  function ReadLocal(k: Keys2): Word {
    (if k.up then UP else 0) | (if k.down then DOWN else 0) | (if k.left then LEFT else 0)
    | (if k.right then RIGHT else 0) | (if k.shoot then SHOOT else 0) | (if k.focus then FOCUS else 0)
    | (if k.bomb then BOMB else 0)
  }

  lemma LocalIsGameplay(k: Keys2)
    ensures ReadLocal(k) & GAMEPLAY == ReadLocal(k)
    ensures var w := ReadLocal(k);
            && (w & UP != 0 <==> k.up) && (w & DOWN != 0 <==> k.down) && (w & LEFT != 0 <==> k.left)
            && (w & RIGHT != 0 <==> k.right) && (w & SHOOT != 0 <==> k.shoot) && (w & FOCUS != 0 <==> k.focus)
            && (w & BOMB != 0 <==> k.bomb)
  {
  }

  /** Local play, or play over the net, where the scene task has already put the merged word in. */
  datatype Source = Local | Net

  /** One frame of the run: the word at the record seam, P2's keys, whether P2 takes no input (absent
      or a ghost), the seed the frame starts from, and whether the game runs or is paused. */
  datatype Frame = Frame(menu: Word, keys: Keys2, idle: bool, seed: Word, running: bool)

  datatype Entry = Entry(input: Word, flags: Word)

  /** What P2's update acts on in the live run. */
  function LiveP2(src: Source, f: Frame): Word {
    if f.idle then 0 else if src == Net then UnpackP2(f.menu) else ReadLocal(f.keys)
  }

  function Recorded(src: Source, f: Frame): Entry {
    Entry(if src == Local && !f.idle then (f.menu & LOW9) | PackP2(ReadLocal(f.keys)) else f.menu,
          if src == Net then f.seed else 0)
  }

  class Recorder {
    const src: Source
    var inputMenu: Word
    var p2Local: Word
    var stream: seq<Entry>

    constructor (src: Source)
      ensures this.src == src && stream == []
    {
      this.src, inputMenu, p2Local, stream := src, 0, 0, [];
    }

    /** The engine's record task: a fresh entry with its second half zero, unless paused. */
    method OrigFrameTask(running: bool)
      modifies this`stream
      ensures stream == old(stream) + if running then [Entry(inputMenu, 0)] else []
    {
      if running { stream := stream + [Entry(inputMenu, 0)]; }
    }

    method HookedFrameTask(f: Frame)
      modifies this
      ensures stream == old(stream) + if f.running then [Recorded(src, f)] else []
      ensures p2Local == if src == Local && !f.idle then ReadLocal(f.keys) else 0
    {
      inputMenu := f.menu;
      if src == Local && !f.idle {
        p2Local := ReadLocal(f.keys);
        inputMenu := (inputMenu & LOW9) | PackP2(p2Local);
      } else {
        p2Local := 0;
      }
      var head := |stream|;
      OrigFrameTask(f.running);
      if src == Net && |stream| == head + 1 {
        stream := stream[head := stream[head].(flags := f.seed)];
      }
    }

    /** P2's input for this frame's update. */
    method P2Input(f: Frame) returns (w: Word)
      requires p2Local == if src == Local && !f.idle then ReadLocal(f.keys) else 0
      ensures w == LiveP2(src, f)
    {
      w := if src == Net then UnpackP2(f.menu) else p2Local;
      if f.idle { w := 0; }
    }
  }

  function RunningFrames(fs: seq<Frame>): seq<Frame> {
    if fs == [] then []
    else RunningFrames(fs[..|fs| - 1]) + if fs[|fs| - 1].running then [fs[|fs| - 1]] else []
  }

  function RecordAll(src: Source, fs: seq<Frame>): seq<Entry> {
    if fs == [] then []
    else RecordAll(src, fs[..|fs| - 1]) + if fs[|fs| - 1].running then [Recorded(src, fs[|fs| - 1])] else []
  }

  /** The stream is one entry per frame that ran, wherever the pauses were. */
  lemma {:induction false} StreamOfTheRunningFrames(src: Source, fs: seq<Frame>)
    ensures |RecordAll(src, fs)| == |RunningFrames(fs)|
    ensures forall k | 0 <= k < |RunningFrames(fs)| :: RecordAll(src, fs)[k] == Recorded(src, RunningFrames(fs)[k])
  {
    if fs != [] { StreamOfTheRunningFrames(src, fs[..|fs| - 1]); }
  }

  // ---- playing back ----

  /** A frame of playback: whether P2 takes no input, and whether the game runs. */
  datatype Show = Show(idle: bool, running: bool)

  /** What one running frame of playback feeds P2 and, with per-frame seeds, sets the seed to. */
  datatype Fed = Fed(p2: Word, seed: Option<Word>)

  class Player {
    const perFrameSeed: bool
    const stream: seq<Entry>
    var head: nat
    var rngSeed: Word

    constructor (stream: seq<Entry>, perFrameSeed: bool)
      ensures this.stream == stream && this.perFrameSeed == perFrameSeed && head == 0
    {
      this.stream, this.perFrameSeed, head, rngSeed := stream, perFrameSeed, 0, 0;
    }

    /** P2's update reads the entry the playback task is about to apply. */
    method P2Input(s: Show) returns (w: Word)
      requires head < |stream|
      ensures w == if s.idle then 0 else UnpackP2(stream[head].input)
    {
      w := UnpackP2(stream[head].input);
      if s.idle { w := 0; }
    }

    method OrigPlayTask(running: bool)
      modifies this`head
      ensures head == old(head) + if running then 1 else 0
    {
      if running { head := head + 1; }
    }

    method HookedPlayTask(s: Show)
      requires head < |stream|
      modifies this
      ensures head == old(head) + if s.running then 1 else 0
      ensures rngSeed == if perFrameSeed && s.running then stream[old(head)].flags else old(rngSeed)
    {
      var head0 := head;
      OrigPlayTask(s.running);
      if perFrameSeed && head == head0 + 1 { rngSeed := stream[head0].flags; }
    }

    /** A whole frame of playback; a paused one feeds nobody. */
    method PlayFrame(s: Show) returns (fed: seq<Fed>)
      requires head < |stream|
      modifies this
      ensures head == old(head) + |fed|
      ensures fed == Feed(stream, old(head), perFrameSeed, s)
    {
      fed := [];
      if s.running {
        var w := P2Input(s);
        HookedPlayTask(s);
        fed := [Fed(w, if perFrameSeed then Some(rngSeed) else None)];
      } else {
        HookedPlayTask(s);
      }
    }
  }

  function Feed(stream: seq<Entry>, head: nat, perFrameSeed: bool, s: Show): seq<Fed>
    requires head < |stream|
  {
    if !s.running then []
    else
      [Fed(if s.idle then 0 else UnpackP2(stream[head].input),
           if perFrameSeed then Some(stream[head].flags) else None)]
  }

  /** Everything fed to P2 over some frames of playback, which stops where the stream ends. */
  function PlayAll(stream: seq<Entry>, perFrameSeed: bool, shows: seq<Show>): (fed: seq<Fed>)
    ensures |fed| <= |stream|
  {
    if shows == [] then []
    else
      var fed := PlayAll(stream, perFrameSeed, shows[..|shows| - 1]);
      if |fed| == |stream| then fed else fed + Feed(stream, |fed|, perFrameSeed, shows[|shows| - 1])
  }

  /** P2's idle flags in playback, at its running frames, follow those of the run. */
  function RunningShows(shows: seq<Show>): seq<Show> {
    if shows == [] then []
    else RunningShows(shows[..|shows| - 1]) + if shows[|shows| - 1].running then [shows[|shows| - 1]] else []
  }

  predicate SameGhosts(shows: seq<Show>, fs: seq<Frame>) {
    forall k | 0 <= k < |RunningShows(shows)| && k < |RunningFrames(fs)| ::
      RunningShows(shows)[k].idle == RunningFrames(fs)[k].idle
  }

  lemma {:induction false} FedOnePerRunningShow(stream: seq<Entry>, pfs: bool, shows: seq<Show>)
    ensures var n := |RunningShows(shows)|;
            |PlayAll(stream, pfs, shows)| == if n <= |stream| then n else |stream|
    ensures forall k | 0 <= k < |PlayAll(stream, pfs, shows)| ::
              k < |RunningShows(shows)| && [PlayAll(stream, pfs, shows)[k]] == Feed(stream, k, pfs, RunningShows(shows)[k])
  {
    if shows != [] { FedOnePerRunningShow(stream, pfs, shows[..|shows| - 1]); }
  }

  /** The entry of a frame gives P2 back exactly what it acted on live. */
  lemma EntryRecoversP2(src: Source, f: Frame)
    ensures (if f.idle then 0 else UnpackP2(Recorded(src, f).input)) == LiveP2(src, f)
  {
    PackUnpack(f.menu, ReadLocal(f.keys));
    LocalIsGameplay(f.keys);
  }

  /** P2's keys go beside P1's, over nothing of them, and only where P2 has keys of its own here. */
  lemma EntryKeepsP1(src: Source, f: Frame)
    ensures Recorded(src, f).input & LOW9 == f.menu & LOW9
    ensures src == Net || f.idle ==> Recorded(src, f).input == f.menu
  {
    PackIsHigh(f.menu, ReadLocal(f.keys));
  }

  lemma PackIsHigh(low: Word, w: Word)
    ensures ((low & LOW9) | PackP2(w)) & LOW9 == low & LOW9
  {
  }

  /** With P2 idle in the same frames, the k-th running frame of playback feeds it what the k-th
      running frame of the run did, and over the net sets the seed that frame started from. */
  lemma FedBack(src: Source, fs: seq<Frame>, shows: seq<Show>, k: nat)
    requires SameGhosts(shows, fs)
    requires k < |RunningShows(shows)| && k < |RunningFrames(fs)|
    ensures var fed := PlayAll(RecordAll(src, fs), src == Net, shows);
            && k < |fed| && fed[k].p2 == LiveP2(src, RunningFrames(fs)[k])
            && fed[k].seed == if src == Net then Some(RunningFrames(fs)[k].seed) else None
  {
    var stream := RecordAll(src, fs);
    StreamOfTheRunningFrames(src, fs);
    FedOnePerRunningShow(stream, src == Net, shows);
    EntryRecoversP2(src, RunningFrames(fs)[k]);
    assert [PlayAll(stream, src == Net, shows)[k]][0] == Feed(stream, k, src == Net, RunningShows(shows)[k])[0];
  }

  // ---- the game behind it ----

  /** Any deterministic game: its frame, on the recorded word and P2's input; whether P2 takes no input
      in a state; and the seed, read and set. Setting the seed a state has already changes nothing. */
  datatype Sim<!S> = Sim(step: (S, Word, Word) -> S, idle: S -> bool, seedOf: S -> Word, reseed: (S, Word) -> S)

  ghost predicate Honest<S(!new)>(g: Sim<S>) {
    forall s :: g.reseed(s, g.seedOf(s)) == s
  }

  /** The live run: each running frame acts on the word at the seam and P2's live input. */
  function LiveState<S>(g: Sim<S>, s0: S, src: Source, rs: seq<Frame>, k: nat): S
    requires k <= |rs|
  {
    if k == 0 then s0
    else g.step(LiveState(g, s0, src, rs, k - 1), Recorded(src, rs[k - 1]).input, LiveP2(src, rs[k - 1]))
  }

  /** What the frames say of ghosts and seeds is what the game's states say. */
  ghost predicate LiveBy<S>(g: Sim<S>, s0: S, src: Source, fs: seq<Frame>) {
    var rs := RunningFrames(fs);
    forall k | 0 <= k < |rs| ::
      rs[k].idle == g.idle(LiveState(g, s0, src, rs, k)) && rs[k].seed == g.seedOf(LiveState(g, s0, src, rs, k))
  }

  /** Playback: each running frame sets the seed, if there is one, and acts on the entry's word and on
      P2's input out of it, a P2 that takes none having none. */
  function PlayState<S>(g: Sim<S>, s0: S, stream: seq<Entry>, perFrameSeed: bool, k: nat): S
    requires k <= |stream|
  {
    if k == 0 then s0
    else
      var s, e := PlayState(g, s0, stream, perFrameSeed, k - 1), stream[k - 1];
      g.step(if perFrameSeed then g.reseed(s, e.flags) else s, e.input, if g.idle(s) then 0 else UnpackP2(e.input))
  }

  ghost predicate PlayedBy<S>(g: Sim<S>, s0: S, stream: seq<Entry>, perFrameSeed: bool, shows: seq<Show>) {
    var rs := RunningShows(shows);
    forall k | 0 <= k < |rs| && k < |stream| :: rs[k].idle == g.idle(PlayState(g, s0, stream, perFrameSeed, k))
  }

  /** Playback goes through the states of the run. */
  lemma {:induction false} Retraces<S(!new)>(g: Sim<S>, s0: S, src: Source, fs: seq<Frame>, k: nat)
    requires Honest(g) && LiveBy(g, s0, src, fs) && k <= |RunningFrames(fs)| && |RecordAll(src, fs)| == |RunningFrames(fs)|
    ensures PlayState(g, s0, RecordAll(src, fs), src == Net, k) == LiveState(g, s0, src, RunningFrames(fs), k)
  {
    if k > 0 {
      var f := RunningFrames(fs)[k - 1];
      Retraces(g, s0, src, fs, k - 1);
      StreamOfTheRunningFrames(src, fs);
      EntryRecoversP2(src, f);
      var s := LiveState(g, s0, src, RunningFrames(fs), k - 1);
      assert f.idle == g.idle(s) && g.reseed(s, f.seed) == s;
    }
  }

  lemma GhostsFollow<S(!new)>(g: Sim<S>, s0: S, src: Source, fs: seq<Frame>, shows: seq<Show>)
    requires Honest(g) && LiveBy(g, s0, src, fs) && PlayedBy(g, s0, RecordAll(src, fs), src == Net, shows)
    ensures SameGhosts(shows, fs)
  {
    StreamOfTheRunningFrames(src, fs);
    forall k | 0 <= k < |RunningShows(shows)| && k < |RunningFrames(fs)|
      ensures RunningShows(shows)[k].idle == RunningFrames(fs)[k].idle
    {
      Retraces(g, s0, src, fs, k);
    }
  }

  /** Record any run of any game, with any pauses, and play it back from the same state with any other
      pauses: the k-th running frame of playback starts from the state the k-th running frame of the
      run started from, feeds P2 what it did there, and over the net sets the seed it had. */
  lemma RoundTrip<S(!new)>(g: Sim<S>, s0: S, src: Source, fs: seq<Frame>, shows: seq<Show>, k: nat)
    requires Honest(g) && LiveBy(g, s0, src, fs) && PlayedBy(g, s0, RecordAll(src, fs), src == Net, shows)
    requires k < |RunningShows(shows)| && k < |RunningFrames(fs)|
    ensures |RecordAll(src, fs)| == |RunningFrames(fs)|
    ensures PlayState(g, s0, RecordAll(src, fs), src == Net, k) == LiveState(g, s0, src, RunningFrames(fs), k)
    ensures var fed := PlayAll(RecordAll(src, fs), src == Net, shows);
            && k < |fed| && fed[k].p2 == LiveP2(src, RunningFrames(fs)[k])
            && fed[k].seed == if src == Net then Some(RunningFrames(fs)[k].seed) else None
  {
    StreamOfTheRunningFrames(src, fs);
    Retraces(g, s0, src, fs, k);
    GhostsFollow(g, s0, src, fs, shows);
    FedBack(src, fs, shows, k);
  }

  /** Over the net, what P2 does live and in playback is what the guest pressed, if and only if the
      host's word has no bit above SKIP that the guest's buttons do not set anyway. */
  lemma TheGuestIsReplayed(host: Word, guest: Word, f: Frame)
    requires f.menu == MergeKeys(true, false, host, guest) && !f.idle
    ensures UnpackP2(Recorded(Net, f).input) == guest & GAMEPLAY <==> PackP2(guest) | (host & !LOW9) == PackP2(guest)
  {
    MergeRecoversGuest(host, guest);
  }

  // ---- the tag ----

  const HEADER := 0xE8
  const BLOCK := 0x2C
  const OFF := 0x58
  const MAG0: bv8 := 0xC2
  const MAG1: bv8 := 0x07

  /** What is known when the header is initialised; P2's selection is the char it is stored as. */
  datatype Run = Run(suppressP2: bool, p2Sel: bv8, diffChar: bool, net: bool, initSeed: Word)

  function Bit(on: bool, b: bv8): bv8 {
    if on then b else 0
  }

  function SeedAt(b: seq<bv8>, i: nat): Word
    requires i + 1 < |b|
  {
    WriteToInt(Bits16(b[i], b[i + 1]))
  }

  predicate HeaderTagged(h: seq<bv8>, r: Run)
    requires |h| == HEADER
  {
    && h[OFF] == MAG0 && h[OFF + 1] == MAG1 && h[OFF + 2] == r.p2Sel && h[OFF + 3] == Bit(r.diffChar, 1)
    && h[OFF + 4] == Bit(r.net, 1) | Bit(r.net, 2) && h[OFF + 5] == 0
  }

  predicate BlockTagged(b: seq<bv8>, r: Run)
    requires |b| >= BLOCK
  {
    && b[0x28] == MAG0 && b[0x29] == r.p2Sel
    && b[0x2A] == Bit(r.diffChar, 1) | Bit(r.net, 2) | Bit(r.net, 4) && b[0x2B] == 0
    && (r.net && r.initSeed != 0 ==> SeedAt(b, 0x20) == r.initSeed)
  }

  /** Tags the header, and the stage's block when the engine has allocated one. */
  method HeaderInit(hdr: array<bv8>, sb: array?<bv8>, r: Run)
    requires hdr.Length == HEADER && (sb != null ==> sb.Length >= BLOCK && sb != hdr)
    modifies hdr, sb
    ensures r.suppressP2 ==> hdr[..] == old(hdr[..]) && (sb != null ==> sb[..] == old(sb[..]))
    ensures !r.suppressP2 ==> HeaderTagged(hdr[..], r) && (sb != null ==> BlockTagged(sb[..], r))
    ensures forall i | 0 <= i < HEADER && !(OFF <= i < OFF + 6) :: hdr[i] == old(hdr[i])
    ensures sb != null ==> forall i | 0 <= i < sb.Length && !(0x28 <= i < 0x2C) && !(0x20 <= i < 0x22) :: sb[i] == old(sb[i])
    ensures sb != null && !(r.net && r.initSeed != 0) ==> sb[0x20] == old(sb[0x20]) && sb[0x21] == old(sb[0x21])
  {
    if r.suppressP2 { return; }
    hdr[OFF], hdr[OFF + 1], hdr[OFF + 2] := MAG0, MAG1, r.p2Sel;
    hdr[OFF + 3], hdr[OFF + 4], hdr[OFF + 5] := Bit(r.diffChar, 1), Bit(r.net, 1) | Bit(r.net, 2), 0;
    if sb != null {
      if r.net && r.initSeed != 0 {
        var seed := ReadFromInt(r.initSeed);
        BitsRoundTrip(r.initSeed, seed);
        sb[0x20], sb[0x21] := seed.b0, seed.b1;
      }
      sb[0x28], sb[0x29] := MAG0, r.p2Sel;
      sb[0x2A], sb[0x2B] := Bit(r.diffChar, 1) | Bit(r.net, 2) | Bit(r.net, 4), 0;
    }
  }

  /** What playback finds. */
  datatype Found = Solo | Coop(p2Sel: bv8, diffChar: bool, netRecorded: bool, perFrameSeed: bool)

  predicate TaggedBlock(sb: Option<seq<bv8>>) {
    sb.Some? && |sb.value| >= BLOCK && sb.value[0x28] == MAG0
  }

  predicate TaggedHeader(h: seq<bv8>)
    requires |h| == HEADER
  {
    h[OFF] == MAG0 && h[OFF + 1] == MAG1
  }

  /** The load: the block's tag first, then the header's, then the user's override. */
  function Load(h: seq<bv8>, sb: Option<seq<bv8>>, playback: bool, force: Option<bv8>): Found
    requires |h| == HEADER
  {
    if TaggedBlock(sb) then
      var b := sb.value;
      Coop(b[0x29], b[0x2A] & 1 != 0, b[0x2A] & 2 != 0, b[0x2A] & 4 != 0)
    else if TaggedHeader(h) then
      Coop(h[OFF + 2], h[OFF + 3] != 0, h[OFF + 4] & 1 != 0, h[OFF + 4] & 2 != 0)
    else if playback && force.Some? then Coop(force.value, force.value / 2 != h[0x56], false, false)
    else Solo
  }

  /** From a block that was tagged, everything comes back whatever the header says by then: the
      character, the flags and, over the net, the seed. */
  lemma TagSurvivesInTheBlock(h: seq<bv8>, b: seq<bv8>, r: Run, playback: bool, force: Option<bv8>)
    requires |h| == HEADER && |b| >= BLOCK && BlockTagged(b, r)
    ensures Load(h, Some(b), playback, force) == Coop(r.p2Sel, r.diffChar, r.net, r.net)
    ensures r.net && r.initSeed != 0 ==> SeedAt(b, 0x20) == r.initSeed
  {
    FlagBits(r.diffChar, r.net);
  }

  lemma FlagBits(diff: bool, net: bool)
    ensures var f := Bit(diff, 1) | Bit(net, 2) | Bit(net, 4);
            (f & 1 != 0 <==> diff) && (f & 2 != 0 <==> net) && (f & 4 != 0 <==> net)
    ensures var f := Bit(net, 1) | Bit(net, 2); (f & 1 != 0 <==> net) && (f & 2 != 0 <==> net)
  {
  }

  /** Without a tagged block, the header's own tag gives the same, as long as nothing overwrote it. */
  lemma TagInTheHeader(h: seq<bv8>, sb: Option<seq<bv8>>, r: Run, playback: bool, force: Option<bv8>)
    requires |h| == HEADER && HeaderTagged(h, r) && !TaggedBlock(sb)
    ensures Load(h, sb, playback, force) == Coop(r.p2Sel, r.diffChar, r.net, r.net)
  {
    FlagBits(r.diffChar, r.net);
  }

  /** A saved file: the engine's block was not tagged before the run initialised the header, and the
      header has been written over since. It shows a second player if and only if the run had one,
      and then with that run's character and flags. */
  lemma SavedFileShowsP2Iff(h: seq<bv8>, b0: seq<bv8>, b: seq<bv8>, r: Run)
    requires |h| == HEADER && !TaggedHeader(h) && !TaggedBlock(Some(b0)) && |b| >= BLOCK
    requires if r.suppressP2 then b == b0 else BlockTagged(b, r)
    ensures Load(h, Some(b), true, None).Coop? <==> !r.suppressP2
    ensures !r.suppressP2 ==> Load(h, Some(b), true, None) == Coop(r.p2Sel, r.diffChar, r.net, r.net)
  {
    if !r.suppressP2 { TagSurvivesInTheBlock(h, b, r, true, None); }
  }

  function SourceOf(r: Run): Source {
    if r.net then Net else Local
  }

  /** Recording, saving with the header clobbered, and playing back: the tag turns the per-frame seed
      on exactly for net recordings, and every frame gets P2's input and its seed back. */
  lemma SavedReplayRoundTrips<S(!new)>(g: Sim<S>, s0: S, r: Run, h: seq<bv8>, b: seq<bv8>, fs: seq<Frame>,
                                       shows: seq<Show>, k: nat)
    requires |h| == HEADER && |b| >= BLOCK && BlockTagged(b, r) && Honest(g) && LiveBy(g, s0, SourceOf(r), fs)
    requires var found := Load(h, Some(b), true, None);
             found.Coop? ==> PlayedBy(g, s0, RecordAll(SourceOf(r), fs), found.perFrameSeed, shows)
    requires k < |RunningShows(shows)| && k < |RunningFrames(fs)|
    ensures var found := Load(h, Some(b), true, None);
            && found.Coop? && found.p2Sel == r.p2Sel
            && var fed := PlayAll(RecordAll(SourceOf(r), fs), found.perFrameSeed, shows);
               && k < |fed| && fed[k].p2 == LiveP2(SourceOf(r), RunningFrames(fs)[k])
               && fed[k].seed == if r.net then Some(RunningFrames(fs)[k].seed) else None
  {
    TagSurvivesInTheBlock(h, b, r, true, None);
    RoundTrip(g, s0, SourceOf(r), fs, shows, k);
  }
}
