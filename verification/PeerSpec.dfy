/** The state one machine keeps for the lockstep, as a value, and what each routine of the
    netcode core does to it. The class Session holds the same state in mutable fields and its
    methods are proved equal to these functions; the two-machine system runs these functions. */
module PeerSpec {
  import opened Merge
  import opened Wire

  /** Frames older than this many are erased from every map. */
  const RETAIN: int := 80

  /** The delay-buffer maps of one side, keyed by logic-frame index. */
  datatype Buffers = Buffers(bits: map<int, Bits16>, rng: map<int, Word>, ctrl: map<int, Igc>)

  const NO_FRAMES := Buffers(map[], map[], map[])

  datatype Resync = Resync(enable: bool, threshold: int, trigger: bool, stageFrame: int,
                           desyncRun: nat, didFire: bool, fireCount: nat)

  /** What every packet carries besides the lockstep itself: the ping clock and the difficulty. */
  datatype Meta = Meta(peerLastSendTick: nat, pingMs: int, localDiff: int, peerDiff: int)

  datatype Peer = Peer(
    isHost: bool, delay: int, connected: bool, isSync: bool, netFrame: int, epoch: nat,
    self: Buffers, rcved: Buffers, resync: Resync, lastP1: Word, lastP2: Word, meta: Meta)

  /** A packet a poll returned, with the tick count at that moment. */
  datatype Arrival = Arrival(pack: Pack, now: nat)

  // ---- receiving ----

  /** Smoothed round trip: the first sample as it is, then three parts old to one part new. */
  function Smooth(ping: int, rtt: nat): int {
    if ping < 0 then rtt else (ping * 3 + rtt) / 4
  }

  function NoteTicks(m: Meta, a: Arrival): Meta {
    m.(peerLastSendTick := if a.pack.sendTick != 0 then a.pack.sendTick else m.peerLastSendTick,
       pingMs := if a.pack.echoTick != 0 && a.now >= a.pack.echoTick
                 then Smooth(m.pingMs, a.now - a.pack.echoTick) else m.pingMs)
  }

  /** The first n slots of a window, for frame, frame-1, ..., written over a map in that order. */
  function Overlay<T>(m: map<int, T>, frame: int, w: seq<T>, n: nat): (r: map<int, T>)
    requires n <= |w|
    ensures forall s :: s in r <==> s in m || frame - n < s <= frame
    ensures forall s :: s in r ==> r[s] == if frame - n < s <= frame then w[frame - s] else m[s]
  {
    if n == 0 then m else Overlay(m, frame, w, n - 1)[frame - (n - 1) := w[n - 1]]
  }

  function Deposit(b: Buffers, k: CtrlPack): Buffers
    requires k.Keys?
  {
    Buffers(Overlay(b.bits, k.frame, k.keys, |k.keys|), Overlay(b.rng, k.frame, k.rng, |k.rng|),
            Overlay(b.ctrl, k.frame, k.igc, |k.igc|))
  }

  /** The n-th slot of a key packet into a map triple, and the first n in turn. */
  function PutSlot(b: Buffers, k: CtrlPack, n: nat): Buffers
    requires k.Keys? && n < WINDOW
  {
    var s := k.frame - n;
    Buffers(b.bits[s := k.keys[n]], b.rng[s := k.rng[n]], b.ctrl[s := k.igc[n]])
  }

  function PutSlots(b: Buffers, k: CtrlPack, n: nat): Buffers
    requires k.Keys? && n <= WINDOW
  {
    if n == 0 then b else PutSlot(PutSlots(b, k, n - 1), k, n - 1)
  }

  lemma {:induction false} SlotsAreOverlaid(b: Buffers, k: CtrlPack, n: nat)
    requires k.Keys? && n <= WINDOW
    ensures PutSlots(b, k, n)
         == Buffers(Overlay(b.bits, k.frame, k.keys, n), Overlay(b.rng, k.frame, k.rng, n),
                    Overlay(b.ctrl, k.frame, k.igc, n))
  {
    if n > 0 { SlotsAreOverlaid(b, k, n - 1); }
  }

  predicate AcceptsResync(p: Peer, target: int) {
    target > p.netFrame && target <= p.netFrame + p.delay * 2 + 2
  }

  function Noted(p: Peer, a: Arrival): Peer {
    p.(meta := NoteTicks(p.meta, a))
  }

  /** A key packet of this scene or a newer one. */
  function Absorb(p: Peer, k: CtrlPack): Peer
    requires k.Keys?
  {
    p.(meta := if k.senderDiff >= 0 then p.meta.(peerDiff := k.senderDiff) else p.meta,
       rcved := Deposit(p.rcved, k))
  }

  function Arm(p: Peer, target: int): Peer {
    p.(resync := p.resync.(trigger := true, stageFrame := target))
  }

  /** One turn of the receive loop. */
  function ReceiveOne(p: Peer, a: Arrival): Peer {
    var k := a.pack.ctrl;
    if k.Keys? && a.pack.epoch >= p.epoch then Absorb(Noted(p, a), k)
    else if k.TryResync? && AcceptsResync(p, k.frameToResync) then Arm(Noted(p, a), k.frameToResync)
    else Noted(p, a)
  }

  function ReceiveAll(p: Peer, arrivals: seq<Arrival>): Peer {
    if arrivals == [] then p
    else ReceiveOne(ReceiveAll(p, arrivals[..|arrivals| - 1]), arrivals[|arrivals| - 1])
  }

  /** Receiving touches the received maps, the resync target and what is known of the peer, nothing else. */
  predicate SameButReceived(p: Peer, q: Peer) {
    && q.isHost == p.isHost && q.delay == p.delay && q.connected == p.connected && q.isSync == p.isSync
    && q.netFrame == p.netFrame && q.epoch == p.epoch && q.self == p.self
    && q.lastP1 == p.lastP1 && q.lastP2 == p.lastP2 && q.meta.localDiff == p.meta.localDiff
    && q.resync.enable == p.resync.enable && q.resync.threshold == p.resync.threshold
    && q.resync.desyncRun == p.resync.desyncRun
    && q.resync.didFire == p.resync.didFire && q.resync.fireCount == p.resync.fireCount
  }

  lemma NotedFrame(p: Peer, a: Arrival)
    ensures SameButReceived(p, Noted(p, a))
  {
  }

  lemma ReceiveFrame(p: Peer, a: Arrival)
    ensures SameButReceived(p, ReceiveOne(p, a))
  {
    NotedFrame(p, a);
  }

  lemma {:induction false} ReceiveAllFrame(p: Peer, arrivals: seq<Arrival>)
    ensures SameButReceived(p, ReceiveAll(p, arrivals))
  {
    if arrivals != [] {
      ReceiveAllFrame(p, arrivals[..|arrivals| - 1]);
      ReceiveFrame(ReceiveAll(p, arrivals[..|arrivals| - 1]), arrivals[|arrivals| - 1]);
    }
  }

  // ---- sending ----

  /** The last WINDOW slots of a map, the default standing in for a missing one. */
  function Snapshot<T>(m: map<int, T>, frame: int, default: T): (w: seq<T>)
    ensures |w| == WINDOW
  {
    seq(WINDOW, i requires 0 <= i < WINDOW => if frame - i in m then m[frame - i] else default)
  }

  function KeyPack(p: Peer, frame: int, now: nat): Pack {
    Pack(PK_USUAL, 0, now, p.meta.peerLastSendTick, p.epoch,
         Keys(frame, Snapshot(p.self.bits, frame, NO_KEYS), Snapshot(p.self.ctrl, frame, IgcNone),
              Snapshot(p.self.rng, frame, 0), p.meta.localDiff))
  }

  function ResyncPack(p: Peer, target: int, now: nat): Pack {
    Pack(PK_USUAL, 0, now, 0, p.epoch, TryResync(target))
  }

  // ---- the resync machine at the top of a frame ----

  predicate Judges(p: Peer, ui: bool) {
    p.resync.enable && p.connected && !ui
  }

  function CountDesync(p: Peer): Peer {
    p.(resync := p.resync.(desyncRun := if p.isSync then 0 else p.resync.desyncRun + 1))
  }

  predicate Fires(p: Peer, frame: int, ui: bool) {
    Judges(p, ui) && p.resync.trigger && p.resync.stageFrame <= frame
  }

  predicate Announces(p: Peer, frame: int, ui: bool) {
    && Judges(p, ui) && !Fires(p, frame, ui)
    && p.isHost && !p.isSync && CountDesync(p).resync.desyncRun >= p.resync.threshold
  }

  /** The target a host announces: the one already pending, or a fresh one. */
  function Target(p: Peer, frame: int): int {
    if p.resync.trigger then p.resync.stageFrame else frame + p.delay * 2 + 2
  }

  /** What firing leaves: the received maps empty, and the latch the environment polls. */
  function Realigned(q: Peer): Peer {
    q.(rcved := NO_FRAMES, isSync := true,
       resync := q.resync.(trigger := false, desyncRun := 0, didFire := true, fireCount := q.resync.fireCount + 1))
  }

  /** What a poll of the latch leaves. */
  function LatchDown(p: Peer): Peer {
    p.(resync := p.resync.(didFire := false))
  }

  /** `drained` is what the receive at the firing frame finds waiting. */
  function RunResync(p: Peer, frame: int, ui: bool, drained: seq<Arrival>): Peer {
    if !Judges(p, ui) then p.(resync := p.resync.(desyncRun := 0))
    else if Fires(p, frame, ui) then Realigned(ReceiveAll(CountDesync(p), drained))
    else if Announces(p, frame, ui) then Arm(CountDesync(p), Target(p, frame))
    else CountDesync(p)
  }

  lemma ResyncFrame(p: Peer, frame: int, ui: bool, drained: seq<Arrival>)
    ensures var q := RunResync(p, frame, ui, drained);
            q == p.(rcved := q.rcved, resync := q.resync, meta := q.meta, isSync := q.isSync)
    ensures RunResync(p, frame, ui, drained).rcved == if Fires(p, frame, ui) then NO_FRAMES else p.rcved
  {
    ReceiveAllFrame(CountDesync(p), drained);
  }

  // ---- recording this frame's own input ----

  function EraseAt(b: Buffers, f: int): Buffers {
    Buffers(b.bits - {f}, b.rng - {f}, b.ctrl - {f})
  }

  /** The self slot of a frame, after eviction of the frame RETAIN before it. */
  function Record(p: Peer, frame: int, word: Word, seed: Word, igc: Igc): Peer {
    var self := EraseAt(p.self.(bits := p.self.bits[frame := ReadFromInt(word)], rng := p.self.rng[frame := seed]),
                        frame - RETAIN);
    p.(self := self.(ctrl := self.ctrl[frame := igc]), rcved := EraseAt(p.rcved, frame - RETAIN))
  }

  // ---- reading the delayed pair ----

  /** What one frame returned: nothing yet in the first `delay` frames of a scene, else the
      merged word, the control action, the pair by player and the seed comparison. */
  datatype Out = Early | Merged(word: Word, ctrl: Igc, p1: Word, p2: Word, sync: bool)

  predicate Ready(p: Peer, frame: int) {
    frame - p.delay < 0 || frame - p.delay in p.rcved.bits
  }

  function Lookup<T>(m: map<int, T>, k: int, default: T): T {
    if k in m then m[k] else default
  }

  /** std::map's operator[]: a missing key comes into being with a value-initialised entry. */
  function Touch<T>(m: map<int, T>, k: int, zero: T): map<int, T> {
    if k in m then m else m[k := zero]
  }

  function Resolve(isHost: bool, selfCtrl: Igc, rcvCtrl: Igc): Igc {
    if selfCtrl != IgcNone && rcvCtrl != IgcNone then (if isHost then selfCtrl else rcvCtrl)
    else if selfCtrl == IgcNone then rcvCtrl
    else selfCtrl
  }

  function MergeOut(isHost: bool, ui: bool, selfKey: Word, rcvKey: Word, selfCtrl: Igc, rcvCtrl: Igc,
                    selfSeed: Word, rcvSeed: Word): Out
  {
    Merged(MergeKeys(isHost, ui, selfKey, rcvKey), Resolve(isHost, selfCtrl, rcvCtrl),
           if isHost then selfKey else rcvKey, if isHost then rcvKey else selfKey, rcvSeed == selfSeed)
  }

  function OutOf(p: Peer, frame: int, ui: bool): Out
    requires Ready(p, frame)
  {
    if frame - p.delay < 0 then Early
    else
      var k := frame - p.delay;
      MergeOut(p.isHost, ui, WriteToInt(Lookup(p.self.bits, k, NO_KEYS)), WriteToInt(p.rcved.bits[k]),
               Lookup(p.self.ctrl, k, IgcNone), Lookup(p.rcved.ctrl, k, QuickQuit),
               Lookup(p.self.rng, k, 0), Lookup(p.rcved.rng, k, 0))
  }

  function Touched(p: Peer, k: int): Peer {
    p.(self := p.self.(rng := Touch(p.self.rng, k, 0)),
       rcved := p.rcved.(rng := Touch(p.rcved.rng, k, 0), ctrl := Touch(p.rcved.ctrl, k, QuickQuit)))
  }

  function Complete(p: Peer, frame: int, ui: bool): Peer
    requires Ready(p, frame)
  {
    if frame - p.delay < 0 then p
    else
      var out := OutOf(p, frame, ui);
      Touched(p, frame - p.delay).(isSync := out.sync, lastP1 := out.p1, lastP2 := out.p2)
  }

  /** Five seconds without the slot: the link is dropped and the pair reads as zero. */
  function Abandon(p: Peer): Peer {
    p.(connected := false, lastP1 := 0, lastP2 := 0)
  }

  // ---- scene boundary ----

  function NextScene(p: Peer): Peer {
    p.(self := NO_FRAMES, rcved := NO_FRAMES, netFrame := 0, isSync := true, epoch := p.epoch + 1,
       resync := p.resync.(trigger := false, desyncRun := 0, didFire := false))
  }
}
