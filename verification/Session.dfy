/** The netcode core as the program keeps it: mutable maps and flags, and the loops that receive,
    send and wait. Each method is proved to do to the state what PeerSpec says. */
module Session {
  import opened Merge
  import opened Wire
  import opened PeerSpec

  type Rate = n: nat | n > 0 witness 1

  /** The socket and the clock as one call sees them: what successive polls will return (None for a
      poll that finds nothing), what has been sent, and a counter that every sleep advances. */
  class Link {
    var inbox: seq<Option<Pack>>
    var sent: seq<Pack>
    var clock: nat
    var sleeps: nat
    const freq: Rate
    const lag: nat -> nat

    constructor (inbox: seq<Option<Pack>>, freq: Rate, lag: nat -> nat)
      ensures this.inbox == inbox && this.sent == [] && this.freq == freq
    {
      this.inbox, this.sent, this.clock, this.sleeps := inbox, [], 0, 0;
      this.freq, this.lag := freq, lag;
    }

    /** GetTickCount64: milliseconds of the same counter. */
    function Tick(): nat
      reads this
    {
      clock * 1000 / freq
    }

    method Poll() returns (p: Option<Pack>)
      modifies this`inbox
      ensures p == (if old(inbox) == [] then None else old(inbox)[0])
      ensures inbox == (if old(inbox) == [] then [] else old(inbox)[1..])
    {
      if inbox == [] { return None; }
      p := inbox[0];
      inbox := inbox[1..];
    }

    method Send(p: Pack)
      modifies this`sent
      ensures sent == old(sent) + [p]
    {
      sent := sent + [p];
    }

    method Sleep()
      modifies this`clock, this`sleeps
      ensures clock == old(clock) + 1 + lag(old(sleeps))
    {
      clock := clock + 1 + lag(sleeps);
      sleeps := sleeps + 1;
    }
  }

  /** What polling until the first empty poll brings in, and how many polls it takes. */
  function Batch(inbox: seq<Option<Pack>>): seq<Pack> {
    if inbox == [] || inbox[0].None? then [] else [inbox[0].value] + Batch(inbox[1..])
  }

  function Rest(inbox: seq<Option<Pack>>): seq<Option<Pack>> {
    if inbox == [] then [] else if inbox[0].None? then inbox[1..] else Rest(inbox[1..])
  }

  function Stamped(packs: seq<Pack>, now: nat): seq<Arrival> {
    seq(|packs|, i requires 0 <= i < |packs| => Arrival(packs[i], now))
  }

  /** A poll loop so far: the packets done, what is left to poll, and the state. */
  ghost predicate Draining(p: Peer, now: nat, inbox: seq<Option<Pack>>, done: seq<Pack>, left: seq<Option<Pack>>, q: Peer) {
    && q == ReceiveAll(p, Stamped(done, now))
    && Batch(inbox) == done + Batch(left) && Rest(inbox) == Rest(left)
  }

  lemma DrainingOn(p: Peer, now: nat, inbox: seq<Option<Pack>>, done: seq<Pack>, left: seq<Option<Pack>>, q: Peer)
    requires Draining(p, now, inbox, done, left, q) && left != [] && left[0].Some?
    ensures Draining(p, now, inbox, done + [left[0].value], left[1..],
                     ReceiveOne(q, Arrival(left[0].value, now)))
  {
    var more := done + [left[0].value];
    assert Stamped(more, now)[..|more| - 1] == Stamped(done, now);
  }

  /** What can happen while a call waits: a receive brings in a batch, often an empty one, or the own
      window is sent again. `at` is the counter the waiting loop reads, `now` the tick count then. */
  datatype Event = Came(batch: seq<Pack>, now: nat, at: nat) | Repinged(now: nat, at: nat)

  function After(p: Peer, evs: seq<Event>): Peer {
    if evs == [] then p
    else
      var q := After(p, evs[..|evs| - 1]);
      match evs[|evs| - 1]
      case Came(batch, now, _) => ReceiveAll(q, Stamped(batch, now))
      case Repinged(_, _) => q
  }

  function Emitted(p: Peer, frame: int, evs: seq<Event>): seq<Pack> {
    if evs == [] then []
    else
      var init := evs[..|evs| - 1];
      match evs[|evs| - 1]
      case Came(_, _, _) => Emitted(p, frame, init)
      case Repinged(now, _) => Emitted(p, frame, init) + [KeyPack(After(p, init), frame, now)]
  }

  function Taken(evs: seq<Event>): seq<Pack> {
    if evs == [] then []
    else Taken(evs[..|evs| - 1]) + (if evs[|evs| - 1].Came? then evs[|evs| - 1].batch else [])
  }

  /** Every packet the polls will return, in order. */
  function Packs(inbox: seq<Option<Pack>>): seq<Pack> {
    if inbox == [] then []
    else (if inbox[0].Some? then [inbox[0].value] else []) + Packs(inbox[1..])
  }

  lemma BatchFirst(inbox: seq<Option<Pack>>)
    ensures Packs(inbox) == Batch(inbox) + Packs(Rest(inbox))
  {
  }

  /** A receive takes the polls up to the first that finds nothing, and that one. */
  lemma {:induction false} BatchIsUpToTheEmptyPoll(inbox: seq<Option<Pack>>)
    ensures var n := |Batch(inbox)|;
            && n <= |inbox| && (forall k | 0 <= k < n :: inbox[k] == Some(Batch(inbox)[k]))
            && if n == |inbox| then Rest(inbox) == [] else inbox[n].None? && Rest(inbox) == inbox[n + 1..]
  {
    if inbox != [] && inbox[0].Some? { BatchIsUpToTheEmptyPoll(inbox[1..]); }
  }

  /** From p, while waiting at a frame, the events led to q: no packet polled is lost or made up,
      only re-pings were sent, and the slot was missing before each event. */
  ghost predicate Trace(p: Peer, frame: int, evs: seq<Event>, q: Peer, inbox: seq<Option<Pack>>,
                        inbox': seq<Option<Pack>>, sent: seq<Pack>, sent': seq<Pack>)
  {
    && q == After(p, evs) && SameButReceived(p, q)
    && Packs(inbox) == Taken(evs) + Packs(inbox')
    && sent' == sent + Emitted(p, frame, evs)
    && forall n | 0 <= n < |evs| :: !Ready(After(p, evs[..n]), frame)
  }

  lemma TraceCame(p: Peer, frame: int, evs: seq<Event>, q: Peer, inbox: seq<Option<Pack>>,
                  inbox': seq<Option<Pack>>, sent: seq<Pack>, sent': seq<Pack>, now: nat, at: nat)
    requires Trace(p, frame, evs, q, inbox, inbox', sent, sent') && !Ready(q, frame)
    ensures Trace(p, frame, evs + [Came(Batch(inbox'), now, at)], ReceiveAll(q, Stamped(Batch(inbox'), now)),
                  inbox, Rest(inbox'), sent, sent')
  {
    var more := evs + [Came(Batch(inbox'), now, at)];
    assert more[..|evs|] == evs;
    forall n | 0 <= n < |more| ensures !Ready(After(p, more[..n]), frame) {
      assert more[..n] == evs[..n];
    }
    BatchFirst(inbox');
    ReceiveAllFrame(q, Stamped(Batch(inbox'), now));
  }

  lemma TraceReping(p: Peer, frame: int, evs: seq<Event>, q: Peer, inbox: seq<Option<Pack>>,
                    inbox': seq<Option<Pack>>, sent: seq<Pack>, sent': seq<Pack>, now: nat, at: nat)
    requires Trace(p, frame, evs, q, inbox, inbox', sent, sent') && !Ready(q, frame)
    ensures Trace(p, frame, evs + [Repinged(now, at)], q, inbox, inbox', sent, sent' + [KeyPack(q, frame, now)])
  {
    var more := evs + [Repinged(now, at)];
    assert more[..|evs|] == evs;
    forall n | 0 <= n < |more| ensures !Ready(After(p, more[..n]), frame) {
      assert more[..n] == evs[..n];
    }
  }

  // ---- the clock of a wait ----

  /** The counter at the last re-ping, or at the start of the call. */
  function LastPing(start: nat, evs: seq<Event>): nat {
    if evs == [] then start
    else if evs[|evs| - 1].Repinged? then evs[|evs| - 1].at
    else LastPing(start, evs[..|evs| - 1])
  }

  predicate Quiet(e: Event) {
    e.Came? ==> e.batch == []
  }

  ghost predicate Slept(link: Link, a: nat, b: nat) {
    exists k: nat :: b == a + 1 + link.lag(k)
  }

  /** The counter when the loop goes on after some events: one sleep later, but for a re-ping. */
  ghost predicate Resumes(link: Link, start: nat, evs: seq<Event>, at: nat) {
    if evs == [] then at == start
    else if evs[|evs| - 1].Repinged? then at == evs[|evs| - 1].at
    else Slept(link, evs[|evs| - 1].at, at)
  }

  /** The clock, read after a receive that brought nothing, is not past a tenth of a second after
      the last re-ping, nor five seconds after the start. */
  predicate InTime(link: Link, start: nat, evs: seq<Event>, at: nat) {
    at <= LastPing(start, evs) + link.freq / 10 && at < start + 5 * link.freq
  }

  /** Whether an event can come next: a re-ping when the clock is past the tenth of a second, and
      else a receive. After a receive that brought something the clock is not looked at. */
  ghost predicate Follows(link: Link, start: nat, evs: seq<Event>, e: Event) {
    && Resumes(link, start, evs, e.at) && e.now == e.at * 1000 / link.freq
    && if e.Repinged? then
         && evs != [] && evs[|evs| - 1].Came? && Quiet(evs[|evs| - 1])
         && e.at > LastPing(start, evs) + link.freq / 10
       else (evs != [] && !Quiet(evs[|evs| - 1])) || InTime(link, start, evs, e.at)
  }

  ghost predicate Paced(link: Link, start: nat, evs: seq<Event>) {
    evs == [] || (Paced(link, start, evs[..|evs| - 1]) && Follows(link, start, evs[..|evs| - 1], evs[|evs| - 1]))
  }

  /** Five seconds are up at this reading of the clock, the first that is past them. */
  ghost predicate GivesUp(link: Link, start: nat, evs: seq<Event>, at: nat) {
    && evs != [] && Quiet(evs[|evs| - 1]) && Resumes(link, start, evs, at)
    && start + 5 * link.freq <= at <= LastPing(start, evs) + link.freq / 10
  }

  lemma PacedOn(link: Link, start: nat, evs: seq<Event>, e: Event)
    requires Paced(link, start, evs) && Follows(link, start, evs, e)
    ensures Paced(link, start, evs + [e])
    ensures LastPing(start, evs + [e]) == if e.Repinged? then e.at else LastPing(start, evs)
  {
    assert (evs + [e])[..|evs|] == evs;
  }

  /** The two ways a frame ends: with the slot, or without the link. */
  predicate Ends(q: Peer, r: Peer, frame: int, ui: bool, word: Word, ctrl: Igc) {
    if !Ready(q, frame) then r == Abandon(q) && word == 0 && ctrl == IgcNone
    else
      && r == Complete(q, frame, ui)
      && match OutOf(q, frame, ui)
         case Early => word == 0 && ctrl == IgcNone
         case Merged(w, a, _, _, _) => word == w && ctrl == a
  }

  /** The part of a call before it waits: the state after the own slot is recorded and after the
      receive that follows, what that leaves to be polled, and what was sent. */
  datatype Opening = Opening(begun: Peer, heard: Peer, rest: seq<Option<Pack>>, sent: seq<Pack>)

  function Opens(p0: Peer, frame: int, ui: bool, local: Word, seed: Word, inbox: seq<Option<Pack>>, now: nat): Opening {
    var p := p0.(netFrame := frame);
    var rest := if Fires(p, frame, ui) then Rest(inbox) else inbox;
    var asks := if Announces(p, frame, ui) then [ResyncPack(p, Target(p, frame), now)] else [];
    var begun := Record(PeerSpec.RunResync(p, frame, ui, Stamped(Batch(inbox), now)), frame, local, seed, IgcNone);
    Opening(begun, ReceiveAll(begun, Stamped(Batch(rest), now)), Rest(rest), asks + [KeyPack(begun, frame, now)])
  }

  lemma SentInTurn(sent: seq<Pack>, asks: seq<Pack>, keys: Pack)
    ensures sent + (asks + [keys]) == sent + asks + [keys]
  {
  }

  /** A wait from p at a frame, its events and its end. */
  ghost predicate Waits(p: Peer, frame: int, ui: bool, evs: seq<Event>, r: Peer, word: Word, ctrl: Igc,
                        inbox: seq<Option<Pack>>, inbox': seq<Option<Pack>>, sent: seq<Pack>, sent': seq<Pack>)
  {
    Trace(p, frame, evs, After(p, evs), inbox, inbox', sent, sent') && Ends(After(p, evs), r, frame, ui, word, ctrl)
  }

  /** A frame without a link records nothing but its control action. */
  function Alone(p: Peer, frame: int): Peer {
    p.(self := p.self.(ctrl := p.self.ctrl[frame := IgcNone]))
  }

  function Idles(p: Peer, frame: int): Peer {
    p.(netFrame := frame, resync := p.resync.(desyncRun := 0))
  }

  lemma ResyncKeepsLink(p: Peer, frame: int, ui: bool, drained: seq<Arrival>)
    ensures PeerSpec.RunResync(p, frame, ui, drained).connected == p.connected
    ensures !p.connected ==> PeerSpec.RunResync(p, frame, ui, drained) == p.(resync := p.resync.(desyncRun := 0))
                             && !Fires(p, frame, ui) && !Announces(p, frame, ui)
  {
    ResyncFrame(p, frame, ui, drained);
  }

  /** Completing a frame, in terms of the words read and the seeds compared after the touch. */
  lemma CompleteIs(p: Peer, frame: int, ui: bool, selfKey: Word, rcvKey: Word, same: bool)
    requires Ready(p, frame) && frame - p.delay >= 0
    requires var k := frame - p.delay;
             && selfKey == WriteToInt(Lookup(p.self.bits, k, NO_KEYS)) && rcvKey == WriteToInt(p.rcved.bits[k])
             && (same <==> Touched(p, k).rcved.rng[k] == Touched(p, k).self.rng[k])
    ensures Complete(p, frame, ui)
         == Touched(p, frame - p.delay).(isSync := same, lastP1 := if p.isHost then selfKey else rcvKey,
                                         lastP2 := if p.isHost then rcvKey else selfKey)
    ensures var k := frame - p.delay;
            OutOf(p, frame, ui) == Merged(MergeKeys(p.isHost, ui, selfKey, rcvKey),
                                          Resolve(p.isHost, Lookup(p.self.ctrl, k, IgcNone), Touched(p, k).rcved.ctrl[k]),
                                          if p.isHost then selfKey else rcvKey, if p.isHost then rcvKey else selfKey, same)
  {
  }

  /** What a call of GetKeys found when it began. */
  datatype Call = Call(frame: int, start: nat, p: Peer, inbox: seq<Option<Pack>>, sent: seq<Pack>)

  class Netcode {
    const link: Link
    var isHost: bool
    var delay: int
    var isConnected: bool
    var isSync: bool
    var netFrame: int
    var epoch: nat
    var own: Buffers
    var rcved: Buffers
    var resync: Resync
    var lastP1: Word
    var lastP2: Word
    var meta: Meta

    constructor (link: Link, isHost: bool, delay: int)
      requires delay >= 1
      ensures this.link == link
      ensures State() == Peer(isHost, delay, true, true, 0, 0, NO_FRAMES, NO_FRAMES,
                              Resync(false, 180, false, 0, 0, false, 0), 0, 0, Meta(0, -1, -1, -1))
    {
      this.link, this.isHost, this.delay, this.isConnected, this.isSync := link, isHost, delay, true, true;
      netFrame, epoch, own, rcved, lastP1, lastP2 := 0, 0, NO_FRAMES, NO_FRAMES, 0, 0;
      resync, meta := Resync(false, 180, false, 0, 0, false, 0), Meta(0, -1, -1, -1);
    }

    /** All of the state as one value. */
    function State(): Peer
      reads this
    {
      Peer(isHost, delay, isConnected, isSync, netFrame, epoch, own, rcved, resync, lastP1, lastP2, meta)
    }

    /** Ping: remember the peer's clock, and smooth the round trip of an echo of ours. */
    method NoteEcho(pack: Pack)
      modifies this`meta
      ensures State() == Noted(old(State()), Arrival(pack, link.Tick()))
    {
      if pack.sendTick != 0 { meta := meta.(peerLastSendTick := pack.sendTick); }
      if pack.echoTick != 0 {
        var now := link.Tick();
        if now >= pack.echoTick {
          var rtt := now - pack.echoTick;
          meta := meta.(pingMs := if meta.pingMs < 0 then rtt else (meta.pingMs * 3 + rtt) / 4);
        }
      }
    }

    /** The slots of a key packet over the received maps, newest first. */
    method WriteWindow(k: CtrlPack)
      requires k.Keys?
      modifies this`rcved
      ensures rcved == Deposit(old(rcved), k)
    {
      var i := 0;
      while i < WINDOW
        invariant 0 <= i <= WINDOW && rcved == PutSlots(old(rcved), k, i)
      {
        var slot := k.frame - i;
        rcved := Buffers(rcved.bits[slot := k.keys[i]], rcved.rng[slot := k.rng[i]], rcved.ctrl[slot := k.igc[i]]);
        i := i + 1;
      }
      SlotsAreOverlaid(old(rcved), k, WINDOW);
    }

    /** A key packet that is not from an older scene. */
    method AcceptKeys(k: CtrlPack)
      requires k.Keys?
      modifies this`meta, this`rcved
      ensures State() == Absorb(old(State()), k)
    {
      if k.senderDiff >= 0 { meta := meta.(peerDiff := k.senderDiff); }
      WriteWindow(k);
    }

    method ConsiderResync(target: int)
      modifies this`resync
      ensures resync == if netFrame < target <= netFrame + 2 * delay + 2
                        then old(resync).(trigger := true, stageFrame := target) else old(resync)
    {
      if target > netFrame && target <= netFrame + delay * 2 + 2 {
        resync := resync.(trigger := true, stageFrame := target);
      }
    }

    /** One packet of the receive loop. */
    method Receive(pack: Pack)
      modifies this
      ensures State() == ReceiveOne(old(State()), Arrival(pack, link.Tick()))
    {
      NoteEcho(pack);
      if pack.ctrl.Keys? {
        if pack.epoch >= epoch { AcceptKeys(pack.ctrl); }
      } else if pack.ctrl.TryResync? {
        ConsiderResync(pack.ctrl.frameToResync);
      }
    }

    /** Polls until a poll finds nothing. */
    method RcvPacks() returns (hasData: bool)
      modifies this, link`inbox
      ensures State() == ReceiveAll(old(State()), Stamped(Batch(old(link.inbox)), old(link.Tick())))
      ensures link.inbox == Rest(old(link.inbox))
      ensures hasData <==> Batch(old(link.inbox)) != []
      ensures hasData ==> |link.inbox| < |old(link.inbox)|
    {
      hasData := false;
      ghost var was, inbox, now := State(), link.inbox, link.Tick();
      ghost var done: seq<Pack> := [];
      while true
        invariant link.Tick() == now && Draining(was, now, inbox, done, link.inbox, State())
        invariant hasData <==> done != []
        invariant |link.inbox| <= |inbox| && (hasData ==> |link.inbox| < |inbox|)
        decreases |link.inbox|
      {
        ghost var q, left := State(), link.inbox;
        var p := link.Poll();
        if p.None? {
          assert done + [] == done;
          return;
        }
        hasData := true;
        DrainingOn(was, now, inbox, done, left, q);
        Receive(p.value);
        done := done + [p.value];
      }
    }

    /** The window of a frame, taken out of the self maps. */
    method SendKeys(frame: int)
      modifies link`sent
      ensures link.sent == old(link.sent) + [KeyPack(State(), frame, link.Tick())]
    {
      var keys, igc, rng := [], [], [];
      var i := 0;
      while i < WINDOW
        invariant 0 <= i <= WINDOW && |keys| == |igc| == |rng| == i
        invariant forall j | 0 <= j < i :: keys[j] == Snapshot(own.bits, frame, NO_KEYS)[j]
        invariant forall j | 0 <= j < i :: igc[j] == Snapshot(own.ctrl, frame, IgcNone)[j]
        invariant forall j | 0 <= j < i :: rng[j] == Snapshot(own.rng, frame, 0)[j]
      {
        keys := keys + [if frame - i in own.bits then own.bits[frame - i] else NO_KEYS];
        rng := rng + [if frame - i in own.rng then own.rng[frame - i] else 0];
        igc := igc + [if frame - i in own.ctrl then own.ctrl[frame - i] else IgcNone];
        i := i + 1;
      }
      assert keys == Snapshot(own.bits, frame, NO_KEYS);
      assert igc == Snapshot(own.ctrl, frame, IgcNone);
      assert rng == Snapshot(own.rng, frame, 0);
      link.Send(Pack(PK_USUAL, 0, link.Tick(), meta.peerLastSendTick, epoch, Keys(frame, keys, igc, rng, meta.localDiff)));
    }

    method SendResyncRequest(target: int)
      modifies link`sent
      ensures link.sent == old(link.sent) + [ResyncPack(State(), target, link.Tick())]
    {
      link.Send(Pack(PK_USUAL, 0, link.Tick(), 0, epoch, TryResync(target)));
    }

    /** Drops what was received, so that both machines refill from the agreed frame. */
    method ClearReceived()
      modifies this
      ensures State() == Realigned(old(State()))
    {
      rcved, isSync := NO_FRAMES, true;
      resync := resync.(trigger := false, desyncRun := 0, didFire := true, fireCount := resync.fireCount + 1);
    }

    method Announce(frame: int)
      modifies this`resync, link`sent
      ensures State() == Arm(old(State()), Target(old(State()), frame))
      ensures link.sent == old(link.sent) + [ResyncPack(old(State()), Target(old(State()), frame), link.Tick())]
    {
      if !resync.trigger {
        resync := resync.(stageFrame := frame + delay * 2 + 2, trigger := true);
      }
      SendResyncRequest(resync.stageFrame);
    }

    /** The resync machine, at the top of a frame. */
    method RunResync(frame: int, isInUI: bool)
      modifies this, link`inbox, link`sent
      ensures State() == PeerSpec.RunResync(old(State()), frame, isInUI, Stamped(Batch(old(link.inbox)), old(link.Tick())))
      ensures link.inbox == if Fires(old(State()), frame, isInUI) then Rest(old(link.inbox)) else old(link.inbox)
      ensures link.sent == old(link.sent)
                         + if Announces(old(State()), frame, isInUI)
                           then [ResyncPack(old(State()), Target(old(State()), frame), link.Tick())] else []
    {
      if !resync.enable || !isConnected || isInUI {
        resync := resync.(desyncRun := 0);
        return;
      }
      if isSync { resync := resync.(desyncRun := 0); } else { resync := resync.(desyncRun := resync.desyncRun + 1); }
      if resync.trigger && resync.stageFrame <= frame {
        var _ := RcvPacks();
        ClearReceived();
        return;
      }
      if isHost && !isSync && resync.desyncRun >= resync.threshold { Announce(frame); }
    }

    method HandleControlKeys(frame: int)
      modifies this`own
      ensures own == old(own).(ctrl := old(own.ctrl)[frame := IgcNone])
    {
      own := own.(ctrl := own.ctrl[frame := IgcNone]);
    }

    /** The own slot of this frame, and the eviction of the frame RETAIN before it. */
    method RecordInput(frame: int, word: Word, seed: Word)
      modifies this`own, this`rcved
      ensures State() == Record(old(State()), frame, word, seed, IgcNone)
    {
      own := own.(bits := own.bits[frame := ReadFromInt(word)]);
      own := own.(rng := own.rng[frame := seed]);
      own, rcved := EraseAt(own, frame - RETAIN), EraseAt(rcved, frame - RETAIN);
      HandleControlKeys(frame);
    }

    /** operator[] on the three maps that the delayed frame is read from. */
    method TouchSlots(k: int)
      modifies this`own, this`rcved
      ensures State() == Touched(old(State()), k)
    {
      own := own.(rng := Touch(own.rng, k, 0));
      rcved := rcved.(rng := Touch(rcved.rng, k, 0), ctrl := Touch(rcved.ctrl, k, QuickQuit));
    }

    /** The pair of words of the frame, by player. */
    method Demerge(selfKey: Word, rcvKey: Word, same: bool)
      modifies this`isSync, this`lastP1, this`lastP2
      ensures State() == old(State()).(isSync := same, lastP1 := if isHost then selfKey else rcvKey,
                                       lastP2 := if isHost then rcvKey else selfKey)
    {
      isSync := same;
      lastP1 := if isHost then selfKey else rcvKey;
      lastP2 := if isHost then rcvKey else selfKey;
    }

    method SlotKeys(k: int) returns (selfKey: Word, selfCtrl: Igc, rcvKey: Word)
      requires k in rcved.bits
      ensures selfKey == WriteToInt(Lookup(own.bits, k, NO_KEYS)) && selfCtrl == Lookup(own.ctrl, k, IgcNone)
      ensures rcvKey == WriteToInt(rcved.bits[k])
    {
      selfKey, selfCtrl := 0, IgcNone;
      if k in own.bits { selfKey := WriteToInt(own.bits[k]); }
      if k in own.ctrl { selfCtrl := own.ctrl[k]; }
      rcvKey := WriteToInt(rcved.bits[k]);
    }

    /** The slot of the delayed frame is there: compare the seeds, merge the words. */
    method ReadSlot(frame: int, isInUI: bool) returns (word: Word, ctrl: Igc)
      requires frame - delay >= 0 && frame - delay in rcved.bits
      modifies this`own, this`rcved, this`isSync, this`lastP1, this`lastP2
      ensures State() == Complete(old(State()), frame, isInUI)
      ensures OutOf(old(State()), frame, isInUI) == Merged(word, ctrl, lastP1, lastP2, isSync)
    {
      ghost var was := State();
      var k := frame - delay;
      var selfKey, selfCtrl, rcvKey := SlotKeys(k);
      TouchSlots(k);
      ctrl := Resolve(isHost, selfCtrl, rcved.ctrl[k]);
      CompleteIs(was, frame, isInUI, selfKey, rcvKey, rcved.rng[k] == own.rng[k]);
      Demerge(selfKey, rcvKey, rcved.rng[k] == own.rng[k]);
      word := MergeKeys(isHost, isInUI, selfKey, rcvKey);
    }

    method Disconnect()
      modifies this`isConnected, this`lastP1, this`lastP2
      ensures State() == Abandon(old(State()))
    {
      isConnected, lastP1, lastP2 := false, 0, 0;
    }

    /** All that has happened since the call described by w began is these events. */
    ghost predicate Accounts(w: Call, evs: seq<Event>)
      reads this, link
    {
      && Trace(w.p, w.frame, evs, State(), w.inbox, link.inbox, w.sent, link.sent)
      && Paced(link, w.start, evs) && Resumes(link, w.start, evs, link.clock)
    }

    /** One receive of the inner wait, and the millisecond after it. */
    method PollOnce(ghost w: Call, ghost past: seq<Event>) returns (hasData: bool, ghost evs: seq<Event>)
      requires Accounts(w, past) && !Ready(State(), w.frame)
      requires (past != [] && !Quiet(past[|past| - 1])) || InTime(link, w.start, past, link.clock)
      modifies this, link`inbox, link`clock, link`sleeps
      ensures Accounts(w, evs) && evs != [] && evs[|evs| - 1].Came? && LastPing(w.start, evs) == LastPing(w.start, past)
      ensures hasData <==> !Quiet(evs[|evs| - 1])
      ensures !hasData ==> !Ready(State(), w.frame)
      ensures hasData ==> |link.inbox| < |old(link.inbox)|
      ensures |link.inbox| <= |old(link.inbox)| && link.clock > old(link.clock)
    {
      ghost var e := Came(Batch(link.inbox), link.Tick(), link.clock);
      TraceCame(w.p, w.frame, past, State(), w.inbox, link.inbox, w.sent, link.sent, e.now, e.at);
      PacedOn(link, w.start, past, e);
      evs := past + [e];
      ghost var was := State();
      hasData := RcvPacks();
      assert !hasData ==> State() == was;
      link.Sleep();
    }

    /** The loops' variables: when the next re-ping is due, and that the clock last read is the clock
        now unless something has just come. */
    ghost predicate OnTime(w: Call, evs: seq<Event>, cur: nat, pingTime: int)
      reads link
    {
      && cur <= link.clock && pingTime == LastPing(w.start, evs) + link.freq / 10
      && if evs == [] || Quiet(evs[|evs| - 1]) then cur == link.clock <= pingTime
         else cur < w.start + 5 * link.freq
    }

    /** The own window again. */
    method Reping(frame: int, ghost w: Call, ghost past: seq<Event>) returns (ghost evs: seq<Event>)
      requires Accounts(w, past) && !Ready(State(), w.frame) && frame == w.frame
      requires past != [] && past[|past| - 1].Came? && Quiet(past[|past| - 1])
      requires link.clock > LastPing(w.start, past) + link.freq / 10
      modifies link`sent
      ensures Accounts(w, evs) && evs != [] && Quiet(evs[|evs| - 1]) && LastPing(w.start, evs) == link.clock
    {
      ghost var e := Repinged(link.Tick(), link.clock);
      TraceReping(w.p, w.frame, past, State(), w.inbox, link.inbox, w.sent, link.sent, e.now, e.at);
      PacedOn(link, w.start, past, e);
      evs := past + [e];
      SendKeys(frame);
    }

    /** A re-ping if the clock is past the tenth of a second. */
    method RepingIfDue(frame: int, cur: nat, due: int, ghost w: Call, ghost past: seq<Event>)
      returns (pingTime: int, ghost evs: seq<Event>)
      requires Accounts(w, past) && !Ready(State(), w.frame) && frame == w.frame
      requires past != [] && past[|past| - 1].Came? && Quiet(past[|past| - 1])
      requires cur == link.clock && due == LastPing(w.start, past) + link.freq / 10
      modifies link`sent
      ensures Accounts(w, evs) && OnTime(w, evs, cur, pingTime) && evs != [] && Quiet(evs[|evs| - 1])
    {
      pingTime, evs := due, past;
      if cur > pingTime {
        pingTime := cur + link.freq / 10;
        evs := Reping(frame, w, past);
      }
    }

    /** One turn of the inner wait: a receive, the millisecond after it, and a re-ping when due. */
    method WaitTurn(frame: int, from: nat, firstPing: int, ghost w: Call, ghost past: seq<Event>)
      returns (hasData: bool, cur: nat, pingTime: int, ghost evs: seq<Event>)
      requires Accounts(w, past) && OnTime(w, past, from, firstPing) && !Ready(State(), w.frame) && frame == w.frame
      requires from < w.start + 5 * link.freq
      modifies this, link`inbox, link`sent, link`clock, link`sleeps
      ensures Accounts(w, evs) && OnTime(w, evs, cur, pingTime) && evs != [] && (hasData <==> !Quiet(evs[|evs| - 1]))
      ensures if hasData then |link.inbox| < |old(link.inbox)| && cur == from
              else |link.inbox| <= |old(link.inbox)| && cur > from && !Ready(State(), w.frame)
    {
      cur, pingTime := from, firstPing;
      hasData, evs := PollOnce(w, past);
      if hasData { return; }
      cur := link.clock;
      pingTime, evs := RepingIfDue(frame, cur, pingTime, w, evs);
    }

    /** The inner wait: polls once a millisecond until something came or the time is up, and sends
        the own window again every tenth of a second. */
    method AwaitPacket(frame: int, from: nat, maxWait: nat, firstPing: int, ghost w: Call, ghost past: seq<Event>)
      returns (cur: nat, pingTime: int, ghost evs: seq<Event>)
      requires Accounts(w, past) && OnTime(w, past, from, firstPing) && !Ready(State(), w.frame) && frame == w.frame
      requires from < maxWait == w.start + 5 * link.freq
      modifies this, link`inbox, link`sent, link`clock, link`sleeps
      ensures Accounts(w, evs) && OnTime(w, evs, cur, pingTime) && from <= cur
      ensures if cur < maxWait then |link.inbox| < |old(link.inbox)| && evs != [] && !Quiet(evs[|evs| - 1])
              else !Ready(State(), w.frame) && GivesUp(link, w.start, evs, link.clock)
    {
      cur, pingTime, evs := from, firstPing, past;
      while cur < maxWait
        invariant Accounts(w, evs) && OnTime(w, evs, cur, pingTime) && from <= cur
        invariant !Ready(State(), w.frame) && |link.inbox| <= |old(link.inbox)|
        invariant cur >= maxWait ==> evs != [] && Quiet(evs[|evs| - 1])
        decreases maxWait - cur
      {
        var hasData;
        hasData, cur, pingTime, evs := WaitTurn(frame, cur, pingTime, w, evs);
        if hasData { break; }
      }
    }

    /** Blocks until the slot of the delayed frame is there or five seconds are up. */
    method AwaitSlot(frame: int, ghost w: Call) returns (found: bool, ghost evs: seq<Event>)
      requires w == Call(frame, link.clock, State(), link.inbox, link.sent) && frame - delay >= 0
      modifies this, link`inbox, link`sent, link`clock, link`sleeps
      ensures Accounts(w, evs) && (found <==> Ready(State(), frame))
      ensures !found ==> GivesUp(link, w.start, evs, link.clock)
    {
      evs := [];
      var cur := link.clock;
      var maxWait := cur + 5 * link.freq;
      var pingTime: int := cur + link.freq / 10;
      while cur < maxWait
        invariant Accounts(w, evs) && OnTime(w, evs, cur, pingTime)
        invariant maxWait == w.start + 5 * link.freq
        invariant cur >= maxWait ==> !Ready(State(), frame) && GivesUp(link, w.start, evs, link.clock)
        decreases maxWait - cur, |link.inbox|
      {
        if frame - delay in rcved.bits { return true, evs; }
        cur, pingTime, evs := AwaitPacket(frame, cur, maxWait, pingTime, w, evs);
      }
      return false, evs;
    }

    /** The delayed pair, merged, or after five seconds without it the end of the link. */
    method GetKeys(frame: int, isInUI: bool) returns (word: Word, ctrl: Igc, ghost evs: seq<Event>)
      modifies this, link`inbox, link`sent, link`clock, link`sleeps
      ensures var q := After(old(State()), evs);
              && Waits(old(State()), frame, isInUI, evs, State(), word, ctrl,
                       old(link.inbox), link.inbox, old(link.sent), link.sent)
              && Paced(link, old(link.clock), evs)
              && (!Ready(q, frame) ==> GivesUp(link, old(link.clock), evs, link.clock))
    {
      if frame - delay < 0 { return 0, IgcNone, []; }
      var found;
      found, evs := AwaitSlot(frame, Call(frame, link.clock, State(), link.inbox, link.sent));
      if found {
        word, ctrl := ReadSlot(frame, isInUI);
      } else {
        Disconnect();
        word, ctrl := 0, IgcNone;
      }
    }

    method SetFrame(frame: int)
      modifies this`netFrame
      ensures State() == old(State()).(netFrame := frame)
    {
      netFrame := frame;
    }

    /** The rest of a frame on a live link: record, send, receive, and wait for the delayed pair. */
    method PlayFrame(frame: int, isInUI: bool, local: Word, seed: Word)
      returns (word: Word, ctrl: Igc, ghost evs: seq<Event>)
      modifies this, link`inbox, link`sent, link`clock, link`sleeps
      ensures var now := old(link.Tick());
              var begun := Record(old(State()), frame, local, seed, IgcNone);
              var heard := ReceiveAll(begun, Stamped(Batch(old(link.inbox)), now));
              Waits(heard, frame, isInUI, evs, State(), word, ctrl, Rest(old(link.inbox)), link.inbox,
                    old(link.sent) + [KeyPack(begun, frame, now)], link.sent)
              && Paced(link, old(link.clock), evs)
              && (!Ready(After(heard, evs), frame) ==> GivesUp(link, old(link.clock), evs, link.clock))
    {
      RecordInput(frame, local, seed);
      SendKeys(frame);
      var _ := RcvPacks();
      word, ctrl, evs := GetKeys(frame, isInUI);
    }

    method Solo(frame: int, local: Word) returns (word: Word, ctrl: Igc)
      modifies this`own
      ensures State() == Alone(old(State()), frame) && word == local && ctrl == IgcNone
    {
      HandleControlKeys(frame);
      return local, own.ctrl[frame];
    }

    /** One logic frame: the resync machine, the own slot, send, receive, and the delayed pair.
        Local input and seed are what the callbacks return. */
    method GetInputNet(frame: int, isInUI: bool, local: Word, seed: Word)
      returns (word: Word, ctrl: Igc, ghost evs: seq<Event>)
      modifies this, link`inbox, link`sent, link`clock, link`sleeps
      ensures old(isConnected) ==>
                var o := Opens(old(State()), frame, isInUI, local, seed, old(link.inbox), old(link.Tick()));
                && Waits(o.heard, frame, isInUI, evs, State(), word, ctrl, o.rest, link.inbox,
                         old(link.sent) + o.sent, link.sent)
                && Paced(link, old(link.clock), evs)
                && (!Ready(After(o.heard, evs), frame) ==> GivesUp(link, old(link.clock), evs, link.clock))
      ensures !old(isConnected) ==>
                && State() == Alone(Idles(old(State()), frame), frame) && word == local && ctrl == IgcNone
                && link.inbox == old(link.inbox) && link.sent == old(link.sent) && link.clock == old(link.clock)
    {
      SetFrame(frame);
      ghost var p, was, polls, now := State(), link.sent, link.inbox, link.Tick();
      RunResync(frame, isInUI);
      ResyncKeepsLink(p, frame, isInUI, Stamped(Batch(polls), now));
      if isConnected {
        ghost var asks := link.sent[|was|..];
        word, ctrl, evs := PlayFrame(frame, isInUI, local, seed);
        SentInTurn(was, asks, KeyPack(Opens(old(State()), frame, isInUI, local, seed, polls, now).begun, frame, now));
      } else {
        word, ctrl := Solo(frame, local);
        evs := [];
      }
    }

    /** Whether a realignment was executed since the last poll; the environment then reseeds the game. */
    method PollResyncFired() returns (fired: bool)
      modifies this`resync
      ensures fired == old(resync.didFire) && State() == LatchDown(old(State()))
    {
      if !resync.didFire { return false; }
      resync := resync.(didFire := false);
      return true;
    }

    method Reset()
      modifies this
      ensures State() == NextScene(old(State()))
    {
      own, rcved, netFrame, isSync := NO_FRAMES, NO_FRAMES, 0, true;
      resync := resync.(trigger := false, desyncRun := 0, didFire := false);
      epoch := epoch + 1;
    }
  }
}
