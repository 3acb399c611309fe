/** Bringing the link up: PING and PONG with the settings on board, the version check, and the
    guest's adoption of the host's delay and seed. First one machine's routine as a value and as
    the program's loop, then two machines over any network. */
module Handshake {
  import opened Merge
  import opened Wire
  import PeerSpec
  import opened Session

  /** One machine while it links up, with the packets it has sent. `learned` is whether the host
      knows where to send: it does from the first packet it polls. */
  datatype Hs = Hs(isHost: bool, ver: int, delay: int, seed: Word, epoch: nat, connected: bool, active: bool,
                   no: nat, lastPing: nat, verBad: bool, learned: bool, sent: seq<Pack>)

  function Hello(s: Hs, kind: int, no: nat, now: nat): Pack {
    Pack(kind, no, now, 0, s.epoch, InitSetting(s.delay, s.ver, s.seed))
  }

  function Say(s: Hs, kind: int, no: nat, now: nat): Hs {
    if s.isHost && !s.learned then s else s.(sent := s.sent + [Hello(s, kind, no, now)])
  }

  /** Due 200 ms after the last one; the difference is unsigned, so a clock gone back is due too. */
  predicate PingDue(s: Hs, now: nat) {
    s.lastPing == 0 || now < s.lastPing || now - s.lastPing >= 200
  }

  function PingOnce(s: Hs, now: nat): Hs {
    if PingDue(s, now) then Say(s, PK_PING, s.no, now).(no := s.no + 1, lastPing := now) else s
  }

  function Adopt(s: Hs, p: Pack): Hs {
    if !s.isHost && p.ctrl.InitSetting?
    then s.(delay := if p.ctrl.delay > 0 then p.ctrl.delay else s.delay, seed := p.ctrl.seed)
    else s
  }

  function Answer(s: Hs, p: Pack, now: nat): Hs {
    if p.kind == PK_PING then Say(s, PK_PONG, p.no, now) else s
  }

  predicate Foreign(s: Hs, p: Pack) {
    p.ctrl.InitSetting? && p.ctrl.ver != s.ver
  }

  function Hear(s: Hs, p: Pack, now: nat): Hs {
    var t := s.(learned := true);
    if Foreign(s, p) then t.(verBad := true) else Adopt(Answer(t, p, now), p).(connected := true)
  }

  function HearAll(s: Hs, packs: seq<Pack>, now: nat): Hs {
    if packs == [] then s else Hear(HearAll(s, packs[..|packs| - 1], now), packs[|packs| - 1], now)
  }

  lemma HearMore(s: Hs, packs: seq<Pack>, p: Pack, now: nat)
    ensures HearAll(s, packs + [p], now) == Hear(HearAll(s, packs, now), p, now)
  {
    assert (packs + [p])[..|packs|] == packs;
  }

  function Pumped(s: Hs, packs: seq<Pack>, now: nat): Hs {
    if s.connected || !s.active then s
    else
      var t := HearAll(PingOnce(s, now), packs, now);
      t.(active := t.active && !t.connected)
  }

  /** A poll loop so far: the packets done, what is left to poll, and the state. */
  ghost predicate Polling(was: Hs, now: nat, inbox: seq<Option<Pack>>, done: seq<Pack>, left: seq<Option<Pack>>,
                          more: bool, s: Hs)
  {
    && s == HearAll(was, done, now)
    && if more then Batch(inbox) == done + Batch(left) && Rest(inbox) == Rest(left)
       else Batch(inbox) == done && Rest(inbox) == left
  }

  lemma PollingOn(was: Hs, now: nat, inbox: seq<Option<Pack>>, done: seq<Pack>, left: seq<Option<Pack>>, s: Hs)
    requires Polling(was, now, inbox, done, left, true, s) && left != [] && left[0].Some?
    ensures Polling(was, now, inbox, done + [left[0].value], left[1..], true, Hear(s, left[0].value, now))
  {
    HearMore(was, done, left[0].value, now);
  }

  /** The same over the program's variables. */
  class Connector {
    const link: Link
    const isHost: bool
    const ver: int
    const epoch: nat
    var delay: int
    var seed: Word
    var isConnected: bool
    var isSync: bool
    var active: bool
    var no: nat
    var lastPing: nat
    var verBad: bool
    var learned: bool

    constructor (link: Link, isHost: bool, ver: int)
      ensures this.link == link && this.isHost == isHost && this.ver == ver && delay == 1
      ensures !isConnected && !active && !learned
    {
      this.link, this.isHost, this.ver, epoch, delay, seed := link, isHost, ver, 0, 1, 0;
      isConnected, isSync, active, no, lastPing, verBad, learned := false, true, false, 0, 0, false, false;
    }

    function State(): Hs
      reads this, link`sent
    {
      Hs(isHost, ver, delay, seed, epoch, isConnected, active, no, lastPing, verBad, learned, link.sent)
    }

    method BeginHandshake(newDelay: int, newSeed: Word)
      modifies this
      ensures State() == old(State()).(delay := if newDelay > 0 then newDelay else old(delay), seed := newSeed,
                                       connected := false, active := true, no := 0, lastPing := 0, verBad := false)
      ensures isSync
    {
      if newDelay > 0 { delay := newDelay; }
      seed, isConnected, isSync, active, no, lastPing, verBad := newSeed, false, true, true, 0, 0, false;
    }

    method HsSend(kind: int, n: nat)
      modifies link`sent
      ensures State() == Say(old(State()), kind, n, link.Tick())
    {
      if !isHost || learned { link.Send(Pack(kind, n, link.Tick(), 0, epoch, InitSetting(delay, ver, seed))); }
    }

    /** One packet of the poll loop. */
    method Handle(p: Pack)
      modifies this, link`sent
      ensures State() == Hear(old(State()), p, link.Tick())
    {
      learned := true;
      if p.ctrl.InitSetting? && p.ctrl.ver != ver {
        verBad := true;
        return;
      }
      if p.kind == PK_PING { HsSend(PK_PONG, p.no); }
      if !isHost && p.ctrl.InitSetting? {
        if p.ctrl.delay > 0 { delay := p.ctrl.delay; }
        seed := p.ctrl.seed;
      }
      isConnected := true;
    }

    method PingIfDue()
      modifies this`no, this`lastPing, link`sent
      ensures State() == PingOnce(old(State()), link.Tick())
    {
      if lastPing == 0 || link.Tick() < lastPing || link.Tick() - lastPing >= 200 {
        HsSend(PK_PING, no);
        no, lastPing := no + 1, link.Tick();
      }
    }

    /** One poll, and what to do with a packet if there is one. */
    method PollOne() returns (got: bool)
      modifies this, link`sent, link`inbox
      ensures got == (old(link.inbox) != [] && old(link.inbox)[0].Some?)
      ensures link.inbox == if old(link.inbox) == [] then [] else old(link.inbox)[1..]
      ensures State() == if got then Hear(old(State()), old(link.inbox)[0].value, link.Tick()) else old(State())
    {
      var p := link.Poll();
      got := p.Some?;
      if got { Handle(p.value); }
    }

    /** Polls until a poll finds nothing. */
    method PollAll()
      modifies this, link`sent, link`inbox
      ensures State() == HearAll(old(State()), Batch(old(link.inbox)), old(link.Tick()))
      ensures link.inbox == Rest(old(link.inbox))
    {
      ghost var was, inbox, now := State(), link.inbox, link.Tick();
      ghost var done: seq<Pack> := [];
      var more := true;
      while more
        invariant link.Tick() == now && Polling(was, now, inbox, done, link.inbox, more, State())
        decreases more, |link.inbox|
      {
        ghost var s, left := State(), link.inbox;
        more := PollOne();
        if more {
          PollingOn(was, now, inbox, done, left, s);
          done := done + [left[0].value];
        } else {
          assert done + [] == done;
        }
      }
    }

    /** Called once a front-end frame until it returns true. */
    method PumpHandshake() returns (up: bool)
      modifies this, link`sent, link`inbox
      ensures up == isConnected && (old(isConnected) ==> up)
      ensures State() == Pumped(old(State()), Batch(old(link.inbox)), old(link.Tick()))
      ensures link.inbox == if old(isConnected) || !old(active) then old(link.inbox) else Rest(old(link.inbox))
    {
      if isConnected { return true; }
      if !active { return false; }
      PingIfDue();
      PollAll();
      if isConnected { active := false; }
      return isConnected;
    }
  }

  // ---- two machines ----

  /** What each machine was started with: the two builds' versions and the two settings. */
  datatype Setup = Setup(hostVer: int, hostDelay: int, hostSeed: Word, guestVer: int, guestDelay: int, guestSeed: Word)

  /** A machine with the indices of the packets it has polled: all of them, and those polled by the
      handshake rather than by the lockstep after it. */
  datatype End = End(hs: Hs, got: seq<nat>, pumped: seq<nat>)

  datatype Net = Net(h: End, g: End)

  /** Pump is one front-end frame, in which the network hands over any of the packets the peer ever
      sent, in any order and any number of times. A machine whose link is up sends anything but
      settings, and polls without looking at settings. */
  datatype Move = Pump(ks: seq<nat>, now: nat) | Talk(p: Pack) | Read(ks: seq<nat>)

  predicate Known(y: End, ks: seq<nat>) {
    forall k | 0 <= k < |ks| :: ks[k] < |y.hs.sent|
  }

  function Polled(y: End, ks: seq<nat>): seq<Pack>
    requires Known(y, ks)
  {
    seq(|ks|, k requires 0 <= k < |ks| => y.hs.sent[ks[k]])
  }

  predicate CanMove(x: End, y: End, m: Move) {
    match m
    case Pump(ks, _) => Known(y, ks) && !x.hs.connected && x.hs.active
    case Talk(p) => x.hs.connected && !p.ctrl.InitSetting?
    case Read(ks) => Known(y, ks) && x.hs.connected
  }

  function Moved(x: End, y: End, m: Move): End
    requires CanMove(x, y, m)
  {
    match m
    case Pump(ks, now) => End(Pumped(x.hs, Polled(y, ks), now), x.got + ks, x.pumped + ks)
    case Talk(p) => x.(hs := x.hs.(sent := x.hs.sent + [p]))
    case Read(ks) => x.(got := x.got + ks)
  }

  function Begun(isHost: bool, ver: int, delay: int, seed: Word): End {
    End(Hs(isHost, ver, delay, seed, 0, false, true, 0, 0, false, false, []), [], [])
  }

  function Start(u: Setup): Net {
    Net(Begun(true, u.hostVer, u.hostDelay, u.hostSeed), Begun(false, u.guestVer, u.guestDelay, u.guestSeed))
  }

  ghost predicate Turn(n: Net, n': Net) {
    || (exists m :: CanMove(n.h, n.g, m) && n' == n.(h := Moved(n.h, n.g, m)))
    || (exists m :: CanMove(n.g, n.h, m) && n' == n.(g := Moved(n.g, n.h, m)))
  }

  ghost predicate IsHistory(u: Setup, t: seq<Net>) {
    t != [] && t[0] == Start(u) && u.hostDelay > 0 && u.guestDelay > 0
    && forall k | 0 <= k < |t| - 1 :: Turn(t[k], t[k + 1])
  }

  /** Host to guest is FIFO and nothing is lost: the guest has polled the host's first packets. */
  predicate InOrder(n: Net) {
    forall k | 0 <= k < |n.g.got| :: n.g.got[k] == k
  }

  // ---- what one pump does ----

  predicate OwnHello(s: Hs, p: Pack) {
    p.ctrl.InitSetting? && p.ctrl.ver == s.ver && (s.isHost ==> p.ctrl.delay == s.delay && p.ctrl.seed == s.seed)
  }

  /** From s to t only settings went out, in its own name; a host's settings stayed as they were. */
  ghost predicate Grown(s: Hs, t: Hs) {
    && t.isHost == s.isHost && t.ver == s.ver && (s.isHost ==> t.delay == s.delay && t.seed == s.seed)
    && (s.connected ==> t.connected)
    && |s.sent| <= |t.sent| && (forall k | 0 <= k < |s.sent| :: t.sent[k] == s.sent[k])
    && forall k | |s.sent| <= k < |t.sent| :: OwnHello(s, t.sent[k])
  }

  lemma GrownOn(s: Hs, t: Hs, r: Hs)
    requires Grown(s, t) && Grown(t, r)
    ensures Grown(s, r)
  {
    forall k | |s.sent| <= k < |r.sent| ensures OwnHello(s, r.sent[k]) {
      if k < |t.sent| { assert OwnHello(s, t.sent[k]); } else { assert OwnHello(t, r.sent[k]); }
    }
  }

  lemma SayGrows(s: Hs, kind: int, no: nat, now: nat)
    ensures Grown(s, Say(s, kind, no, now))
  {
  }

  lemma HearGrows(s: Hs, p: Pack, now: nat)
    ensures Grown(s, Hear(s, p, now))
  {
    SayGrows(s.(learned := true), PK_PONG, p.no, now);
  }

  lemma {:induction false} HearAllGrows(s: Hs, packs: seq<Pack>, now: nat)
    ensures Grown(s, HearAll(s, packs, now))
  {
    if packs != [] {
      var t := HearAll(s, packs[..|packs| - 1], now);
      HearAllGrows(s, packs[..|packs| - 1], now);
      HearGrows(t, packs[|packs| - 1], now);
      GrownOn(s, t, HearAll(s, packs, now));
    }
  }

  lemma PumpGrows(s: Hs, packs: seq<Pack>, now: nat)
    ensures Grown(s, Pumped(s, packs, now))
  {
    var t := PingOnce(s, now);
    SayGrows(s, PK_PING, s.no, now);
    assert Grown(s, t);
    HearAllGrows(t, packs, now);
    GrownOn(s, t, HearAll(t, packs, now));
  }

  /** Packets of another build neither connect nor get an answer. */
  lemma {:induction false} ForeignIsRefused(s: Hs, packs: seq<Pack>, now: nat)
    requires forall k | 0 <= k < |packs| :: Foreign(s, packs[k])
    ensures HearAll(s, packs, now).connected == s.connected && HearAll(s, packs, now).sent == s.sent
    ensures HearAll(s, packs, now).ver == s.ver
    ensures HearAll(s, packs, now).verBad == (s.verBad || packs != [])
  {
    if packs != [] {
      var init := packs[..|packs| - 1];
      forall k | 0 <= k < |init| ensures Foreign(s, init[k]) { assert packs[k] == init[k]; }
      ForeignIsRefused(s, init, now);
      assert Foreign(s, packs[|packs| - 1]);
    }
  }

  predicate AnySettings(packs: seq<Pack>) {
    exists k :: 0 <= k < |packs| && packs[k].ctrl.InitSetting?
  }

  lemma AnySettingsMore(packs: seq<Pack>)
    requires packs != []
    ensures AnySettings(packs) == (AnySettings(packs[..|packs| - 1]) || packs[|packs| - 1].ctrl.InitSetting?)
  {
    var init := packs[..|packs| - 1];
    if k :| 0 <= k < |init| && init[k].ctrl.InitSetting? { assert packs[k].ctrl.InitSetting?; }
    if k :| 0 <= k < |packs| && packs[k].ctrl.InitSetting? {
      if k < |init| { assert init[k].ctrl.InitSetting?; }
    }
  }

  predicate OneSetting(packs: seq<Pack>, ctrl: CtrlPack) {
    forall k | 0 <= k < |packs| && packs[k].ctrl.InitSetting? :: packs[k].ctrl == ctrl
  }

  predicate AnyForeign(s: Hs, packs: seq<Pack>) {
    exists k :: 0 <= k < |packs| && Foreign(s, packs[k])
  }

  lemma AnyForeignMore(s: Hs, packs: seq<Pack>)
    requires packs != []
    ensures AnyForeign(s, packs) == (AnyForeign(s, packs[..|packs| - 1]) || Foreign(s, packs[|packs| - 1]))
  {
    var init := packs[..|packs| - 1];
    if k :| 0 <= k < |init| && Foreign(s, init[k]) { assert Foreign(s, packs[k]); }
    if k :| 0 <= k < |packs| && Foreign(s, packs[k]) {
      if k < |init| { assert Foreign(s, init[k]); }
    }
  }

  lemma HearVersion(s: Hs, p: Pack, now: nat)
    ensures Hear(s, p, now).ver == s.ver && Hear(s, p, now).verBad == (s.verBad || Foreign(s, p))
  {
  }

  /** The mismatch is latched exactly when a packet of another build was among those polled. */
  lemma {:induction false} VersionBadIffForeign(s: Hs, packs: seq<Pack>, now: nat)
    ensures HearAll(s, packs, now).ver == s.ver
    ensures HearAll(s, packs, now).verBad == (s.verBad || AnyForeign(s, packs))
  {
    if packs != [] {
      VersionBadIffForeign(s, packs[..|packs| - 1], now);
      HearVersion(HearAll(s, packs[..|packs| - 1], now), packs[|packs| - 1], now);
      AnyForeignMore(s, packs);
    }
  }

  /** Packets whose settings are all the same: the guest takes these over at the first one. */
  lemma {:induction false} GuestAdopts(s: Hs, packs: seq<Pack>, now: nat, delay: int, seed: Word)
    requires !s.isHost && delay > 0 && OneSetting(packs, InitSetting(delay, s.ver, seed))
    ensures var t := HearAll(s, packs, now);
            && !t.isHost && t.ver == s.ver && t.connected == (s.connected || packs != [])
            && t.delay == (if AnySettings(packs) then delay else s.delay)
            && t.seed == if AnySettings(packs) then seed else s.seed
  {
    if packs != [] {
      var init, last := packs[..|packs| - 1], packs[|packs| - 1];
      forall k | 0 <= k < |init| && init[k].ctrl.InitSetting? ensures init[k].ctrl == InitSetting(delay, s.ver, seed) {
        assert packs[k] == init[k];
      }
      GuestAdopts(s, init, now, delay, seed);
      AnySettingsMore(packs);
      HearAdopts(HearAll(s, init, now), last, now);
    }
  }

  /** Whatever packets come, the delay stays at least 1: settings that say otherwise do not change it. */
  lemma {:induction false} DelayStaysPositive(s: Hs, packs: seq<Pack>, now: nat)
    requires s.delay > 0
    ensures HearAll(s, packs, now).delay > 0
  {
    if packs != [] { DelayStaysPositive(s, packs[..|packs| - 1], now); }
  }

  lemma HearAdopts(s: Hs, p: Pack, now: nat)
    requires !s.isHost && (p.ctrl.InitSetting? ==> p.ctrl.ver == s.ver && p.ctrl.delay > 0)
    ensures var t := Hear(s, p, now);
            && !t.isHost && t.ver == s.ver && t.connected
            && if p.ctrl.InitSetting? then t.delay == p.ctrl.delay && t.seed == p.ctrl.seed
               else t.delay == s.delay && t.seed == s.seed
  {
  }

  /** A host that has sent nothing answers the first PING of its own build before it connects. */
  lemma {:induction false} HostAnswersFirst(s: Hs, packs: seq<Pack>, now: nat)
    requires s.isHost && !s.connected
    requires forall k | 0 <= k < |packs| :: packs[k].kind == PK_PING
    ensures HearAll(s, packs, now).connected ==> HearAll(s, packs, now).sent != []
  {
    if packs != [] {
      var init := packs[..|packs| - 1];
      forall k | 0 <= k < |init| ensures init[k].kind == PK_PING { assert packs[k] == init[k]; }
      HostAnswersFirst(s, init, now);
      HearAllGrows(s, init, now);
      assert packs[|packs| - 1].kind == PK_PING;
    }
  }

  // ---- different builds ----

  ghost predicate OnlyHellos(x: End, ver: int) {
    && x.hs.ver == ver && !x.hs.connected
    && forall k | 0 <= k < |x.hs.sent| :: x.hs.sent[k].ctrl.InitSetting? && x.hs.sent[k].ctrl.ver == ver
  }

  lemma MoveStaysApart(x: End, y: End, m: Move)
    requires OnlyHellos(x, x.hs.ver) && OnlyHellos(y, y.hs.ver) && x.hs.ver != y.hs.ver && CanMove(x, y, m)
    ensures OnlyHellos(Moved(x, y, m), x.hs.ver)
  {
    if m.Pump? {
      var packs := Polled(y, m.ks);
      var s := PingOnce(x.hs, m.now);
      forall k | 0 <= k < |packs| ensures Foreign(s, packs[k]) {
        assert packs[k] == y.hs.sent[m.ks[k]];
      }
      ForeignIsRefused(s, packs, m.now);
    }
  }

  /** If the two builds' versions differ, neither machine ever connects, whatever the network does. */
  lemma {:induction false} DifferentBuildsNeverConnect(u: Setup, t: seq<Net>)
    requires IsHistory(u, t) && u.hostVer != u.guestVer
    ensures !t[|t| - 1].h.hs.connected && !t[|t| - 1].g.hs.connected
    ensures OnlyHellos(t[|t| - 1].h, u.hostVer) && OnlyHellos(t[|t| - 1].g, u.guestVer)
  {
    if |t| > 1 {
      var v := t[..|t| - 1];
      forall k | 0 <= k < |v| - 1 ensures Turn(v[k], v[k + 1]) { assert Turn(t[k], t[k + 1]); }
      DifferentBuildsNeverConnect(u, v);
      var n, n' := t[|t| - 2], t[|t| - 1];
      assert Turn(n, n');
      if m :| CanMove(n.h, n.g, m) && n' == n.(h := Moved(n.h, n.g, m)) {
        MoveStaysApart(n.h, n.g, m);
      } else {
        var m :| CanMove(n.g, n.h, m) && n' == n.(g := Moved(n.g, n.h, m));
        MoveStaysApart(n.g, n.h, m);
      }
    }
  }

  // ---- the same build ----

  /** The host's settings are its own for ever, every setting it sends is them, and the first
      packet it ever sends is one. */
  ghost predicate HostSteady(u: Setup, x: End) {
    && x.hs.isHost && x.hs.ver == u.hostVer && x.hs.delay == u.hostDelay && x.hs.seed == u.hostSeed
    && (forall k | 0 <= k < |x.hs.sent| && x.hs.sent[k].ctrl.InitSetting? ::
          x.hs.sent[k].ctrl == InitSetting(u.hostDelay, u.hostVer, u.hostSeed))
    && (x.hs.sent != [] ==> x.hs.sent[0].ctrl.InitSetting?)
    && (x.hs.connected ==> x.hs.sent != [])
  }

  predicate HeardSettings(x: End, y: End) {
    exists k :: 0 <= k < |x.pumped| && x.pumped[k] < |y.hs.sent| && y.hs.sent[x.pumped[k]].ctrl.InitSetting?
  }

  /** The guest has the host's settings if its handshake polled any, and else its own. */
  ghost predicate GuestSteady(u: Setup, x: End, y: End) {
    && !x.hs.isHost && x.hs.ver == u.guestVer
    && Known(y, x.got) && Known(y, x.pumped) && x.hs.connected == (x.pumped != [])
    && (if HeardSettings(x, y) then x.hs.delay == u.hostDelay && x.hs.seed == u.hostSeed
        else x.hs.delay == u.guestDelay && x.hs.seed == u.guestSeed)
  }

  /** Until the host has sent something, the guest is alone with its own PINGs. */
  ghost predicate GuestAlone(x: End) {
    !x.hs.connected && x.got == [] && forall k | 0 <= k < |x.hs.sent| :: x.hs.sent[k].kind == PK_PING
  }

  /** What the handshake polled comes first in what was polled. */
  predicate PumpedFirst(x: End) {
    && |x.pumped| <= |x.got| && (forall k | 0 <= k < |x.pumped| :: x.got[k] == x.pumped[k])
    && (x.got != [] ==> x.pumped != [])
  }

  ghost predicate Linking(u: Setup, n: Net) {
    && HostSteady(u, n.h) && GuestSteady(u, n.g, n.h) && PumpedFirst(n.g)
    && (n.h.hs.sent == [] ==> GuestAlone(n.g))
  }

  lemma PumpedHeard(x: End, y: End, ks: seq<nat>)
    requires Known(y, ks) && x.pumped == ks
    ensures HeardSettings(x, y) == AnySettings(Polled(y, ks))
  {
    if k :| 0 <= k < |ks| && y.hs.sent[ks[k]].ctrl.InitSetting? { assert Polled(y, ks)[k].ctrl.InitSetting?; }
    if k :| 0 <= k < |ks| && Polled(y, ks)[k].ctrl.InitSetting? { assert y.hs.sent[ks[k]].ctrl.InitSetting?; }
  }

  lemma PolledAreTheHosts(u: Setup, h: End, ks: seq<nat>)
    requires HostSteady(u, h) && Known(h, ks)
    ensures OneSetting(Polled(h, ks), InitSetting(u.hostDelay, u.hostVer, u.hostSeed))
  {
    var packs := Polled(h, ks);
    forall k | 0 <= k < |packs| && packs[k].ctrl.InitSetting?
      ensures packs[k].ctrl == InitSetting(u.hostDelay, u.hostVer, u.hostSeed)
    {
      assert packs[k] == h.hs.sent[ks[k]];
    }
  }

  lemma GuestPumps(u: Setup, n: Net, ks: seq<nat>, now: nat)
    requires u.hostDelay > 0 && u.hostVer == u.guestVer && Linking(u, n) && CanMove(n.g, n.h, Pump(ks, now))
    ensures GuestSteady(u, Moved(n.g, n.h, Pump(ks, now)), n.h)
  {
    assert n.g.pumped == [] && !HeardSettings(n.g, n.h);
    PolledAreTheHosts(u, n.h, ks);
    GuestAdopts(PingOnce(n.g.hs, now), Polled(n.h, ks), now, u.hostDelay, u.hostSeed);
    PumpedHeard(Moved(n.g, n.h, Pump(ks, now)), n.h, ks);
  }

  lemma GuestMoves(u: Setup, n: Net, m: Move)
    requires u.hostDelay > 0 && u.hostVer == u.guestVer && Linking(u, n) && CanMove(n.g, n.h, m)
    ensures Linking(u, n.(g := Moved(n.g, n.h, m)))
  {
    GuestStaysSteady(u, n, m);
    PumpedStaysFirst(n.g, n.h, m);
    if n.h.hs.sent == [] { GuestStaysAlone(n.g, n.h, m); }
  }

  lemma GuestStaysSteady(u: Setup, n: Net, m: Move)
    requires u.hostDelay > 0 && u.hostVer == u.guestVer && Linking(u, n) && CanMove(n.g, n.h, m)
    ensures GuestSteady(u, Moved(n.g, n.h, m), n.h)
  {
    if m.Pump? { GuestPumps(u, n, m.ks, m.now); }
  }

  lemma PumpedStaysFirst(x: End, y: End, m: Move)
    requires PumpedFirst(x) && CanMove(x, y, m) && x.hs.connected == (x.pumped != [])
    ensures PumpedFirst(Moved(x, y, m))
  {
  }

  /** Before the host has sent there is nothing to poll. */
  lemma GuestStaysAlone(x: End, y: End, m: Move)
    requires GuestAlone(x) && y.hs.sent == [] && CanMove(x, y, m)
    ensures GuestAlone(Moved(x, y, m))
  {
    match m
    case Pump(ks, _) => SentIfKnown(y, ks);
    case Read(ks) => SentIfKnown(y, ks);
    case _ =>
  }

  lemma SentIfKnown(y: End, ks: seq<nat>)
    requires Known(y, ks)
    ensures ks != [] ==> y.hs.sent != []
  {
    if ks != [] { assert ks[0] < |y.hs.sent|; }
  }

  /** More packets from the host change nothing of what the guest has polled. */
  lemma HeardStays(u: Setup, x: End, y: End, y': End)
    requires GuestSteady(u, x, y) && |y.hs.sent| <= |y'.hs.sent|
    requires forall k | 0 <= k < |y.hs.sent| :: y'.hs.sent[k] == y.hs.sent[k]
    ensures GuestSteady(u, x, y')
  {
    if k :| 0 <= k < |x.pumped| && x.pumped[k] < |y.hs.sent| && y.hs.sent[x.pumped[k]].ctrl.InitSetting? {
      assert y'.hs.sent[x.pumped[k]].ctrl.InitSetting?;
    }
    if k :| 0 <= k < |x.pumped| && x.pumped[k] < |y'.hs.sent| && y'.hs.sent[x.pumped[k]].ctrl.InitSetting? {
      assert y.hs.sent[x.pumped[k]].ctrl.InitSetting?;
    }
  }

  lemma HostMoves(u: Setup, n: Net, m: Move)
    requires u.hostVer == u.guestVer && Linking(u, n) && CanMove(n.h, n.g, m)
    ensures Linking(u, n.(h := Moved(n.h, n.g, m)))
  {
    var h' := Moved(n.h, n.g, m);
    if m.Pump? {
      var packs := Polled(n.g, m.ks);
      PumpGrows(n.h.hs, packs, m.now);
      assert forall k | |n.h.hs.sent| <= k < |h'.hs.sent| :: OwnHello(n.h.hs, h'.hs.sent[k]);
      if n.h.hs.sent == [] {
        forall k | 0 <= k < |packs| ensures packs[k].kind == PK_PING { assert packs[k] == n.g.hs.sent[m.ks[k]]; }
        HostAnswersFirst(PingOnce(n.h.hs, m.now), packs, m.now);
      }
    }
    HeardStays(u, n.g, n.h, h');
  }

  lemma {:induction false} HistoryLinks(u: Setup, t: seq<Net>)
    requires IsHistory(u, t) && u.hostVer == u.guestVer
    ensures Linking(u, t[|t| - 1])
  {
    if |t| > 1 {
      var v := t[..|t| - 1];
      forall k | 0 <= k < |v| - 1 ensures Turn(v[k], v[k + 1]) { assert Turn(t[k], t[k + 1]); }
      HistoryLinks(u, v);
      var n, n' := t[|t| - 2], t[|t| - 1];
      assert Turn(n, n');
      if m :| CanMove(n.h, n.g, m) && n' == n.(h := Moved(n.h, n.g, m)) {
        HostMoves(u, n, m);
      } else {
        var m :| CanMove(n.g, n.h, m) && n' == n.(g := Moved(n.g, n.h, m));
        GuestMoves(u, n, m);
      }
    }
  }

  /** Same build: over a host-to-guest channel that is FIFO and loses nothing, a connected guest has
      the host's delay and seed whatever its own were. */
  lemma ConnectedGuestHasTheHostsSettings(u: Setup, t: seq<Net>)
    requires IsHistory(u, t) && u.hostVer == u.guestVer
    requires InOrder(t[|t| - 1]) && t[|t| - 1].g.hs.connected
    ensures t[|t| - 1].g.hs.delay == u.hostDelay && t[|t| - 1].g.hs.seed == u.hostSeed
  {
    HistoryLinks(u, t);
    var n := t[|t| - 1];
    assert n.g.pumped[0] == n.g.got[0] == 0;
    assert n.h.hs.sent[n.g.pumped[0]].ctrl.InitSetting?;
  }

  /** Same build, any network: a connected guest whose settings differ from the host's has them if
      and only if its handshake polled a packet with settings. */
  lemma AdoptedIffPolled(u: Setup, t: seq<Net>)
    requires IsHistory(u, t) && u.hostVer == u.guestVer
    requires u.guestDelay != u.hostDelay || u.guestSeed != u.hostSeed
    ensures var n := t[|t| - 1];
            n.g.hs.delay == u.hostDelay && n.g.hs.seed == u.hostSeed <==> HeardSettings(n.g, n.h)
  {
    HistoryLinks(u, t);
  }

  /** Any builds, any network: the host's settings never change. */
  lemma {:induction false} HostKeepsItsSettings(u: Setup, t: seq<Net>)
    requires IsHistory(u, t)
    ensures var h := t[|t| - 1].h.hs; h.isHost && h.delay == u.hostDelay && h.seed == u.hostSeed
  {
    if |t| > 1 {
      var v := t[..|t| - 1];
      forall k | 0 <= k < |v| - 1 ensures Turn(v[k], v[k + 1]) { assert Turn(t[k], t[k + 1]); }
      HostKeepsItsSettings(u, v);
      var n, n' := t[|t| - 2], t[|t| - 1];
      assert Turn(n, n');
      if m :| CanMove(n.h, n.g, m) && n' == n.(h := Moved(n.h, n.g, m)) {
        if m.Pump? { PumpGrows(n.h.hs, Polled(n.g, m.ks), m.now); }
      }
    }
  }

  // ---- PINGs go out again ----

  function PingsIn(sent: seq<Pack>): nat {
    if sent == [] then 0 else PingsIn(sent[..|sent| - 1]) + if sent[|sent| - 1].kind == PK_PING then 1 else 0
  }

  lemma PingsMore(sent: seq<Pack>, p: Pack)
    ensures PingsIn(sent + [p]) == PingsIn(sent) + if p.kind == PK_PING then 1 else 0
  {
    assert (sent + [p])[..|sent|] == sent;
  }

  lemma HearingPingsNot(s: Hs, p: Pack, now: nat)
    ensures var t := Hear(s, p, now);
            PingsIn(t.sent) == PingsIn(s.sent) && t.lastPing == s.lastPing && t.active == s.active
            && t.no == s.no && s.sent <= t.sent
  {
    HearingSends(s, p, now);
    AnsweringPingsNot(s.(learned := true), p, now);
  }

  lemma HearingSends(s: Hs, p: Pack, now: nat)
    ensures var t := Hear(s, p, now);
            && t.lastPing == s.lastPing && t.active == s.active && t.no == s.no
            && t.sent == if Foreign(s, p) then s.sent else Answer(s.(learned := true), p, now).sent
  {
  }

  lemma AnsweringPingsNot(s: Hs, p: Pack, now: nat)
    ensures var t := Answer(s, p, now);
            t == s.(sent := t.sent) && PingsIn(t.sent) == PingsIn(s.sent) && s.sent <= t.sent
  {
    PingsMore(s.sent, Hello(s, PK_PONG, p.no, now));
  }

  /** Listening sends no PING and leaves the time of the last one. */
  lemma {:induction false} ListeningPingsNot(s: Hs, packs: seq<Pack>, now: nat)
    ensures var t := HearAll(s, packs, now);
            PingsIn(t.sent) == PingsIn(s.sent) && t.lastPing == s.lastPing && t.active == s.active
            && t.no == s.no && s.sent <= t.sent
  {
    if packs != [] {
      ListeningPingsNot(s, packs[..|packs| - 1], now);
      HearingPingsNot(HearAll(s, packs[..|packs| - 1], now), packs[|packs| - 1], now);
    }
  }

  /** A pump of a machine that is linking up and may send sends one PING if it is the first, or if
      200 ms have gone by since the last, or the clock has gone back; and else none. PINGs are numbered. */
  lemma PumpPingsAgain(s: Hs, packs: seq<Pack>, now: nat)
    requires s.active && !s.connected && (!s.isHost || s.learned)
    ensures var t := Pumped(s, packs, now);
            if s.lastPing == 0 || now >= s.lastPing + 200 || now < s.lastPing
            then && PingsIn(t.sent) == PingsIn(s.sent) + 1 && t.lastPing == now
                 && |t.sent| > |s.sent| && t.sent[|s.sent|].kind == PK_PING && t.sent[|s.sent|].sendTick == now
                 && t.sent[|s.sent|].no == s.no && t.no == s.no + 1
            else PingsIn(t.sent) == PingsIn(s.sent) && t.lastPing == s.lastPing
  {
    ListeningPingsNot(PingOnce(s, now), packs, now);
    PingsMore(s.sent, Hello(s, PK_PING, s.no, now));
  }

  // ---- what can still come of a run ----

  lemma Acting(u: Setup, t: seq<Net>, host: bool, m: Move) returns (t': seq<Net>)
    requires IsHistory(u, t)
    requires var n := t[|t| - 1]; if host then CanMove(n.h, n.g, m) else CanMove(n.g, n.h, m)
    ensures IsHistory(u, t') && t <= t'
    ensures var n := t[|t| - 1];
            t'[|t'| - 1] == if host then n.(h := Moved(n.h, n.g, m)) else n.(g := Moved(n.g, n.h, m))
  {
    var n := t[|t| - 1];
    var n' := if host then n.(h := Moved(n.h, n.g, m)) else n.(g := Moved(n.g, n.h, m));
    t' := t + [n'];
    assert Turn(n, n');
    forall k | 0 <= k < |t'| - 1 ensures Turn(t'[k], t'[k + 1]) {
      if k < |t| - 1 { assert Turn(t[k], t[k + 1]); }
    }
  }

  lemma PumpOne(s: Hs, p: Pack, now: nat)
    ensures HearAll(s, [p], now) == Hear(s, p, now)
  {
    HearMore(s, [], p, now);
  }

  /** Every packet polled since the last state of t was sent since then. */
  ghost predicate Afresh(t: seq<Net>, t': seq<Net>)
    requires t != [] && t' != []
  {
    var n, n' := t[|t| - 1], t'[|t'| - 1];
    && t <= t'
    && (forall k | |n.h.got| <= k < |n'.h.got| :: n'.h.got[k] >= |n.g.hs.sent|)
    && (forall k | |n.g.got| <= k < |n'.g.got| :: n'.g.got[k] >= |n.h.hs.sent|)
  }

  /** A machine is linking up until it is connected and no longer; and it knows where to send from the
      first packet it polls, so a host that has sent anything has polled something. */
  predicate LinksUp(x: End) {
    && x.hs.active == !x.hs.connected && x.hs.learned == (x.got != [])
    && (x.hs.connected || (x.hs.isHost && x.hs.sent != []) ==> x.got != [])
  }

  lemma {:induction false} StillLinking(u: Setup, t: seq<Net>)
    requires IsHistory(u, t)
    ensures var n := t[|t| - 1]; LinksUp(n.h) && LinksUp(n.g) && n.h.hs.isHost && !n.g.hs.isHost
  {
    if |t| > 1 {
      var v := t[..|t| - 1];
      forall k | 0 <= k < |v| - 1 ensures Turn(v[k], v[k + 1]) { assert Turn(t[k], t[k + 1]); }
      StillLinking(u, v);
      var n, n' := t[|t| - 2], t[|t| - 1];
      assert Turn(n, n');
      if m :| CanMove(n.h, n.g, m) && n' == n.(h := Moved(n.h, n.g, m)) {
        MoveKeepsLinking(n.h, n.g, m);
      } else {
        var m :| CanMove(n.g, n.h, m) && n' == n.(g := Moved(n.g, n.h, m));
        MoveKeepsLinking(n.g, n.h, m);
      }
    }
  }

  lemma MoveKeepsLinking(x: End, y: End, m: Move)
    requires CanMove(x, y, m) && LinksUp(x)
    ensures LinksUp(Moved(x, y, m)) && Moved(x, y, m).hs.isHost == x.hs.isHost
  {
    if m.Pump? {
      ListeningPingsNot(PingOnce(x.hs, m.now), Polled(y, m.ks), m.now);
      ListeningLearns(PingOnce(x.hs, m.now), Polled(y, m.ks), m.now);
    }
  }

  lemma {:induction false} ListeningLearns(s: Hs, packs: seq<Pack>, now: nat)
    ensures var t := HearAll(s, packs, now);
            && t.isHost == s.isHost && t.learned == (s.learned || packs != [])
            && (t.connected ==> s.connected || packs != []) && (packs == [] ==> t == s)
  {
    if packs != [] { ListeningLearns(s, packs[..|packs| - 1], now); }
  }

  lemma HostAnswers(h: End, g: End, i: nat, now: nat)
    requires h.hs.isHost && !h.hs.connected && h.hs.active && i < |g.hs.sent|
    requires g.hs.sent[i].kind == PK_PING && g.hs.sent[i].ctrl.InitSetting? && g.hs.sent[i].ctrl.ver == h.hs.ver
    ensures var s := Moved(h, g, Pump([i], now)).hs;
            && s.connected && |s.sent| > |h.hs.sent|
            && s.sent[|s.sent| - 1].ctrl == InitSetting(h.hs.delay, h.hs.ver, h.hs.seed)
  {
    var s := PingOnce(h.hs, now);
    assert Polled(g, [i]) == [g.hs.sent[i]];
    PumpOne(s, g.hs.sent[i], now);
  }

  lemma GuestLinks(g: End, h: End, j: nat, now: nat)
    requires !g.hs.isHost && !g.hs.connected && g.hs.active && j < |h.hs.sent|
    requires h.hs.sent[j].ctrl.InitSetting? && h.hs.sent[j].ctrl.ver == g.hs.ver && h.hs.sent[j].ctrl.delay > 0
    ensures var s := Moved(g, h, Pump([j], now)).hs;
            s.connected && s.delay == h.hs.sent[j].ctrl.delay && s.seed == h.hs.sent[j].ctrl.seed
  {
    assert Polled(h, [j]) == [h.hs.sent[j]];
    PumpOne(PingOnce(g.hs, now), h.hs.sent[j], now);
  }

  /** Whatever was lost before, as long as neither is connected both can be, with the host's settings,
      by packets yet to be sent: a PING, after 200 ms if it is not the first, and its PONG. */
  lemma StillComesUp(u: Setup, t: seq<Net>) returns (t': seq<Net>)
    requires IsHistory(u, t) && u.hostVer == u.guestVer
    requires !t[|t| - 1].h.hs.connected && !t[|t| - 1].g.hs.connected
    ensures IsHistory(u, t') && Afresh(t, t')
    ensures var n := t'[|t'| - 1];
            n.h.hs.connected && n.g.hs.connected && n.g.hs.delay == u.hostDelay && n.g.hs.seed == u.hostSeed
  {
    var t1, now := PingedAfresh(u, t);
    var n := t1[|t1| - 1];
    HistoryLinks(u, t1);
    var i := |n.g.hs.sent| - 1;
    HostAnswers(n.h, n.g, i, now);
    var t2 := Acting(u, t1, true, Pump([i], now));
    n := t2[|t2| - 1];
    var j := |n.h.hs.sent| - 1;
    HistoryLinks(u, t2);
    GuestLinks(n.g, n.h, j, now);
    t' := Acting(u, t2, false, Pump([j], now));
  }

  /** The guest's next PING is due at some tick, and goes out. */
  lemma PingedAfresh(u: Setup, t: seq<Net>) returns (t': seq<Net>, now: nat)
    requires IsHistory(u, t) && u.hostVer == u.guestVer
    requires !t[|t| - 1].h.hs.connected && !t[|t| - 1].g.hs.connected
    ensures IsHistory(u, t') && t <= t'
    ensures var n, n' := t[|t| - 1], t'[|t'| - 1];
            && n'.h == n.h && n.h.hs.active && n'.g.got == n.g.got && n'.g.hs.active && !n'.g.hs.connected
            && |n'.g.hs.sent| > |n.g.hs.sent|
            && n'.g.hs.sent[|n'.g.hs.sent| - 1].kind == PK_PING && OwnHello(n'.g.hs, n'.g.hs.sent[|n'.g.hs.sent| - 1])
  {
    StillLinking(u, t);
    var n := t[|t| - 1];
    now := n.g.hs.lastPing + 200;
    PumpPingsAgain(n.g.hs, [], now);
    t' := Acting(u, t, false, Pump([], now));
  }

  /** A connected host sends settings no more. */
  lemma {:induction false} ConnectedHostOnlyTalks(u: Setup, t: seq<Net>, t': seq<Net>)
    requires IsHistory(u, t') && t != [] && t <= t' && t[|t| - 1].h.hs.connected
    ensures var s, s' := t[|t| - 1].h.hs, t'[|t'| - 1].h.hs;
            s'.connected && s.sent <= s'.sent && forall k | |s.sent| <= k < |s'.sent| :: !s'.sent[k].ctrl.InitSetting?
  {
    if |t'| > |t| {
      var v := t'[..|t'| - 1];
      forall k | 0 <= k < |v| - 1 ensures Turn(v[k], v[k + 1]) { assert Turn(t'[k], t'[k + 1]); }
      assert t <= v;
      ConnectedHostOnlyTalks(u, t, v);
      assert Turn(t'[|t'| - 2], t'[|t'| - 1]);
    }
  }

  lemma OnlyOwnSettings(u: Setup, t: seq<Net>, t': seq<Net>)
    requires t != [] && IsHistory(u, t) && IsHistory(u, t') && u.hostVer == u.guestVer && Afresh(t, t')
    requires t[|t| - 1].h.hs.connected && !t[|t| - 1].g.hs.connected
    ensures t'[|t'| - 1].g.hs.delay == u.guestDelay && t'[|t'| - 1].g.hs.seed == u.guestSeed
  {
    HistoryLinks(u, t);
    HistoryLinks(u, t');
    ConnectedHostOnlyTalks(u, t, t');
    var n, n' := t[|t| - 1], t'[|t'| - 1];
    assert n.g.got == [];
    forall k | 0 <= k < |n'.g.pumped| ensures n'.g.pumped[k] >= |n.h.hs.sent| {
      assert n'.g.got[k] == n'.g.pumped[k];
    }
  }

  /** Some continuation, by packets yet to be sent, connects the guest with the host's settings. */
  ghost predicate CanStillAdopt(u: Setup, t: seq<Net>)
    requires t != []
  {
    exists t': seq<Net> :: IsHistory(u, t') && Afresh(t, t') && t'[|t'| - 1].g.hs.connected
                 && t'[|t'| - 1].g.hs.delay == u.hostDelay && t'[|t'| - 1].g.hs.seed == u.hostSeed
  }

  /** A guest that is not connected can still get the host's settings by packets yet to be sent if
      and only if the host is not connected: a host that is up answers no PING. */
  lemma CanStillAdoptIff(u: Setup, t: seq<Net>)
    requires IsHistory(u, t) && u.hostVer == u.guestVer && !t[|t| - 1].g.hs.connected
    requires u.guestDelay != u.hostDelay || u.guestSeed != u.hostSeed
    ensures CanStillAdopt(u, t) <==> !t[|t| - 1].h.hs.connected
  {
    if t[|t| - 1].h.hs.connected {
      forall t': seq<Net> | IsHistory(u, t') && Afresh(t, t')
        ensures t'[|t'| - 1].g.hs.delay == u.guestDelay && t'[|t'| - 1].g.hs.seed == u.guestSeed
      {
        OnlyOwnSettings(u, t, t');
      }
    } else {
      var t' := StillComesUp(u, t);
      assert IsHistory(u, t') && Afresh(t, t');
    }
  }

  // ---- two runs ----

  /** PING one way and PONG the other: both machines connect, the guest with the host's settings. */
  lemma TheLinkComesUp(u: Setup) returns (t: seq<Net>)
    requires u.hostVer == u.guestVer && u.hostDelay > 0 && u.guestDelay > 0
    ensures IsHistory(u, t) && InOrder(t[|t| - 1])
    ensures t[|t| - 1].h.hs.connected && t[|t| - 1].g.hs.connected
  {
    t := [Start(u)];
    t := Acting(u, t, false, Pump([], 1));
    var n := t[|t| - 1];
    PumpOne(PingOnce(n.h.hs, 1), n.g.hs.sent[0], 1);
    assert Polled(n.g, [0]) == [n.g.hs.sent[0]];
    t := Acting(u, t, true, Pump([0], 1));
    n := t[|t| - 1];
    PumpOne(PingOnce(n.g.hs, 1), n.h.hs.sent[0], 1);
    assert Polled(n.h, [0]) == [n.h.hs.sent[0]];
    t := Acting(u, t, false, Pump([0], 1));
  }

  /** If the PONG is lost, a first key packet connects the guest on its own settings. */
  lemma AKeyPacketConnectsToo(u: Setup, p: PeerSpec.Peer, f: int, now: nat) returns (t: seq<Net>)
    requires u.hostVer == u.guestVer && u.hostDelay > 0 && u.guestDelay > 0
    ensures IsHistory(u, t)
    ensures t[|t| - 1].h.hs.connected && t[|t| - 1].g.hs.connected
    ensures t[|t| - 1].g.hs.delay == u.guestDelay && t[|t| - 1].g.hs.seed == u.guestSeed
  {
    t := [Start(u)];
    t := Acting(u, t, false, Pump([], 1));
    var n := t[|t| - 1];
    PumpOne(PingOnce(n.h.hs, 1), n.g.hs.sent[0], 1);
    assert Polled(n.g, [0]) == [n.g.hs.sent[0]];
    t := Acting(u, t, true, Pump([0], 1));
    t := Acting(u, t, true, Talk(PeerSpec.KeyPack(p, f, now)));
    n := t[|t| - 1];
    PumpOne(PingOnce(n.g.hs, 1), n.h.hs.sent[1], 1);
    assert Polled(n.h, [1]) == [n.h.hs.sent[1]];
    t := Acting(u, t, false, Pump([1], 1));
  }
}
