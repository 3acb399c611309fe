/** What a waiting call sends: how often at least and at most its window goes out again, read off the
    packets sent and the clock. */
module Repings {
  import opened Wire
  import opened PeerSpec
  import opened Session

  function Pings(evs: seq<Event>): nat {
    if evs == [] then 0 else Pings(evs[..|evs| - 1]) + (if evs[|evs| - 1].Repinged? then 1 else 0)
  }

  /** No sleep takes longer than this many counts. */
  ghost predicate SleepsWithin(link: Link, most: nat) {
    forall k: nat :: 1 + link.lag(k) <= most
  }

  lemma OneMore(n: nat, gap: int)
    ensures (n + 1) * gap == n * gap + gap
  {
  }

  /** Re-pings lie more than a tenth of a second apart. */
  lemma {:induction false} PingsAreSpaced(link: Link, start: nat, evs: seq<Event>)
    requires Paced(link, start, evs)
    ensures Pings(evs) * (link.freq / 10 + 1) <= LastPing(start, evs) - start
    ensures evs != [] ==> LastPing(start, evs) <= evs[|evs| - 1].at
  {
    if evs != [] {
      PingsAreSpaced(link, start, evs[..|evs| - 1]);
      OneMore(Pings(evs[..|evs| - 1]), link.freq / 10 + 1);
    }
  }

  /** While nothing comes, the clock is not past a tenth of a second after the last re-ping but by
      the one sleep before the next. */
  lemma SilentNext(link: Link, start: nat, evs: seq<Event>, e: Event, most: nat)
    requires Paced(link, start, evs) && Follows(link, start, evs, e)
    requires SleepsWithin(link, most) && Taken(evs) == []
    requires evs != [] && evs[|evs| - 1].Came? ==> InTime(link, start, evs, evs[|evs| - 1].at)
    ensures e.at < start + 5 * link.freq + most && e.at <= LastPing(start, evs) + link.freq / 10 + most
    ensures e.Came? ==> InTime(link, start, evs, e.at)
  {
    if evs != [] { NothingTaken(evs); }
    if e.Repinged? {
      var k: nat :| e.at == evs[|evs| - 1].at + 1 + link.lag(k);
      assert 1 + link.lag(k) <= most;
    }
  }

  /** While nothing comes, the next re-ping is no later than one sleep after it is due. */
  lemma {:induction false} PingsGoOn(link: Link, start: nat, evs: seq<Event>, most: nat)
    requires Paced(link, start, evs) && SleepsWithin(link, most) && Taken(evs) == []
    ensures LastPing(start, evs) - start <= Pings(evs) * (link.freq / 10 + most)
    ensures evs != [] ==> evs[|evs| - 1].at < start + 5 * link.freq + most
    ensures evs != [] && evs[|evs| - 1].Came? ==> InTime(link, start, evs, evs[|evs| - 1].at)
  {
    if evs != [] {
      var init := evs[..|evs| - 1];
      PingsGoOn(link, start, init, most);
      SilentNext(link, start, init, evs[|evs| - 1], most);
      OneMore(Pings(init), link.freq / 10 + most);
    }
  }

  lemma NothingTaken(evs: seq<Event>)
    requires evs != [] && Taken(evs) == []
    ensures Quiet(evs[|evs| - 1])
  {
  }

  lemma {:induction false} EachPingIsSent(p: Peer, frame: int, evs: seq<Event>)
    ensures |Emitted(p, frame, evs)| == Pings(evs)
    ensures forall i | 0 <= i < |Emitted(p, frame, evs)| ::
              Emitted(p, frame, evs)[i].ctrl == KeyPack(p, frame, 0).ctrl && Emitted(p, frame, evs)[i].epoch == p.epoch
  {
    if evs != [] {
      EachPingIsSent(p, frame, evs[..|evs| - 1]);
      AfterFrame(p, evs[..|evs| - 1]);
    }
  }

  /** Nothing that arrives changes the own slots. */
  lemma {:induction false} AfterFrame(p: Peer, evs: seq<Event>)
    ensures After(p, evs).self == p.self && After(p, evs).epoch == p.epoch
    ensures After(p, evs).meta.localDiff == p.meta.localDiff
  {
    if evs != [] {
      var q := After(p, evs[..|evs| - 1]);
      AfterFrame(p, evs[..|evs| - 1]);
      if evs[|evs| - 1].Came? {
        ReceiveAllFrame(q, Stamped(evs[|evs| - 1].batch, evs[|evs| - 1].now));
      }
    }
  }

  /** A call that gives up has sent its window again in its last tenth of a second, and all it sent
      while it waited are windows of its own unchanged slots. */
  lemma GaveUpAfterReping(link: Link, start: nat, p: Peer, frame: int, evs: seq<Event>, q: Peer, end: nat,
                          inbox: seq<Option<Pack>>, inbox': seq<Option<Pack>>, sent: seq<Pack>, sent': seq<Pack>)
    requires Trace(p, frame, evs, q, inbox, inbox', sent, sent')
    requires Paced(link, start, evs) && GivesUp(link, start, evs, end)
    ensures |sent'| > |sent| && end - LastPing(start, evs) <= link.freq / 10
    ensures (|sent'| - |sent|) * (link.freq / 10 + 1) <= end - start
    ensures forall i | |sent| <= i < |sent'| :: sent'[i].ctrl == KeyPack(p, frame, 0).ctrl && sent'[i].epoch == p.epoch
  {
    PingsAreSpaced(link, start, evs);
    EachPingIsSent(p, frame, evs);
    if Pings(evs) == 0 { NoPingYet(start, evs); }
  }

  /** A call in which nothing comes sends so many windows before it gives up that their tenths of a
      second, each longer by one sleep, fill the five seconds up to the last tenth. With a counter
      of milliseconds and sleeps of one, that is 49 windows. */
  lemma SilentCallRepings(link: Link, start: nat, p: Peer, frame: int, evs: seq<Event>, q: Peer, end: nat, most: nat,
                          inbox: seq<Option<Pack>>, inbox': seq<Option<Pack>>, sent: seq<Pack>, sent': seq<Pack>)
    requires Trace(p, frame, evs, q, inbox, inbox', sent, sent') && Packs(inbox) == Packs(inbox')
    requires Paced(link, start, evs) && GivesUp(link, start, evs, end) && SleepsWithin(link, most)
    ensures (|sent'| - |sent|) * (link.freq / 10 + most) + link.freq / 10 >= 5 * link.freq
    ensures link.freq == 1000 && most == 1 ==> |sent'| - |sent| == 49
  {
    PingsGoOn(link, start, evs, most);
    PingsAreSpaced(link, start, evs);
    EachPingIsSent(p, frame, evs);
    if link.freq == 1000 && most == 1 { FortyNine(|sent'| - |sent|); }
  }

  lemma FortyNine(n: nat)
    requires n * 101 <= 5000 && n * 101 + 100 >= 5000
    ensures n == 49
  {
  }

  lemma {:induction false} NoPingYet(start: nat, evs: seq<Event>)
    requires Pings(evs) == 0
    ensures LastPing(start, evs) == start
  {
    if evs != [] { NoPingYet(start, evs[..|evs| - 1]); }
  }
}
