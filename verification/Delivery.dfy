/** What a subscriber is given: a contiguous stretch of the log, each event once, with the right state. */
module Delivery {
  import opened Types
  import opened Log
  import opened Registry
  import opened Subscriptions
  import opened Engine
  import opened Serving

  // ---- reachable states ----

  ghost predicate IsRun(c: Config, run: seq<System>, steps: seq<Step>) {
    && |run| == |steps| + 1
    && Init(run[0])
    && forall i {:trigger steps[i]} :: 0 <= i < |steps| ==> Next(c, run[i], steps[i], run[i + 1])
  }

  ghost predicate Reachable(c: Config, s: System) {
    exists run: seq<System>, steps: seq<Step> :: IsRun(c, run, steps) && run[|steps|] == s
  }

  lemma InitOk(c: Config, s: System)
    requires Init(s)
    ensures ServerInv(c, s)
  {
    forall t: string ensures TopicInv(c, s, t) {
      assert Td(s, t) == FRESH && Flight(s, t) == None;
    }
  }

  lemma {:induction false} RunInv(c: Config, run: seq<System>, steps: seq<Step>, i: nat)
    requires IsRun(c, run, steps) && i < |run|
    ensures ServerInv(c, run[i])
  {
    if i == 0 {
      InitOk(c, run[0]);
    } else {
      RunInv(c, run, steps, i - 1);
      NextKeeps(c, run[i - 1], steps[i - 1], run[i]);
    }
  }

  lemma ReachableInv(c: Config, s: System)
    requires Reachable(c, s)
    ensures ServerInv(c, s)
  {
    var run: seq<System>, steps: seq<Step> :| IsRun(c, run, steps) && run[|steps|] == s;
    RunInv(c, run, steps, |steps|);
  }

  // ---- the stretch of the log ----

  /** Events as stored: without the state that live copies carry. */
  function Stripped(events: seq<Event>): (r: seq<Event>)
    ensures |r| == |events|
    ensures forall i :: 0 <= i < |r| ==> r[i] == events[i].(state := None)
  {
    seq(|events|, i requires 0 <= i < |events| => events[i].(state := None))
  }

  /** All that a subscription has issued or will issue if nothing more is published. */
  function Promised(q: Sub): seq<Event> { q.backfill + Beyond(q.offered, q.fence) }

  /** What is still on its way: the rest of the backfill, then what the fence passes of hand and queue. */
  function InTransit(q: Sub): seq<Event> {
    (if q.pc.Replaying? && q.pc.sent <= |q.backfill| then q.backfill[q.pc.sent..] else [])
    + Beyond(Hand(q.pc) + q.queue, q.fence)
  }

  /** Where the stretch begins in the log. */
  function Start(b: Backend, events: seq<Event>, q: Sub): nat
    requires q.readLen <= |events|
  {
    if q.backfill == [] then q.base else BackfillStart(b, events[..q.readLen], q.from)
  }

  /** Where it ends: with the last backfilled event, or the last one the hub offered. */
  function End(q: Sub): nat {
    var offered := q.base + |q.offered|;
    if q.backfill == [] || offered > q.readLen then offered else q.readLen
  }

  /** The fence keeps of a run of fan-out copies exactly those after the last backfilled event. */
  lemma {:induction false} BeyondFence(fans: seq<Event>, lo: nat, hi: nat, m: nat, fence: nat)
    requires lo <= hi <= |fans| && lo <= m
    requires forall k :: 0 <= k < |fans| ==> (fans[k].seqno > fence <==> k >= m)
    ensures Beyond(fans[lo..hi], fence) == if hi <= m then [] else fans[m..hi]
  {
    if lo < hi {
      assert fans[lo..hi][..hi - lo - 1] == fans[lo..hi - 1];
      BeyondFence(fans, lo, hi - 1, m, fence);
    }
  }

  /** Nothing has sequence number 0, so without a backfill the fence passes everything. */
  lemma {:induction false} BeyondZero(events: seq<Event>)
    requires forall k :: 0 <= k < |events| ==> events[k].seqno >= 1
    ensures Beyond(events, 0) == events
  {
    if events != [] {
      BeyondZero(events[..|events| - 1]);
      assert events == events[..|events| - 1] + [events[|events| - 1]];
    }
  }

  /** fans are copies of the front of the log, whose events are numbered from 1 up and carry no state. */
  ghost predicate Copies(events: seq<Event>, fans: seq<Event>) {
    && Increasing(events)
    && |fans| <= |events|
    && (forall k :: 0 <= k < |events| ==> events[k].seqno >= 1 && events[k].state == None)
    && (forall k :: 0 <= k < |fans| ==> fans[k].(state := None) == events[k])
  }

  lemma FansAreCopies(rs: Reducers, t: string, td: TopicData)
    requires LogInv(t, td) && FansInv(rs, td)
    ensures Copies(td.events, td.fans)
  {
    forall k | 0 <= k < |td.fans| ensures td.fans[k].(state := None) == td.events[k] {
      assert td.events[k].state == None;
    }
  }

  lemma StrippedFans(events: seq<Event>, fans: seq<Event>, lo: nat, hi: nat)
    requires Copies(events, fans) && lo <= hi <= |fans|
    ensures Stripped(fans[lo..hi]) == events[lo..hi]
  {
  }

  lemma FenceSplits(events: seq<Event>, fans: seq<Event>, m: nat)
    requires Copies(events, fans) && 0 < m <= |events|
    ensures forall k :: 0 <= k < |fans| ==> (fans[k].seqno > events[m - 1].seqno <==> k >= m)
  {
    forall k | 0 <= k < |fans| ensures fans[k].seqno > events[m - 1].seqno <==> k >= m {
      assert fans[k].seqno == events[k].seqno;
    }
  }

  lemma StrippedAppend(a: seq<Event>, b: seq<Event>)
    ensures Stripped(a + b) == Stripped(a) + Stripped(b)
  {
  }

  /** A backfill ends where the log ended when it was read. */
  lemma BackfillSlice(b: Backend, events: seq<Event>, q: Sub)
    requires Increasing(events) && ReplayInv(b, events, q) && HasRead(q.pc)
    ensures var lo := BackfillStart(b, events[..q.readLen], q.from);
      && lo <= q.readLen <= |events| && q.backfill == events[lo..q.readLen]
      && (q.backfill != [] ==> q.fence == events[q.readLen - 1].seqno)
  {
    BackfillIsSuffix(b, events[..q.readLen], q.from);
  }

  lemma PromisedWithout(events: seq<Event>, fans: seq<Event>, q: Sub, n: nat)
    requires Copies(events, fans) && q.base <= n <= |fans| && q.offered == fans[q.base..n]
    requires q.backfill == [] && q.fence == 0
    ensures Stripped(Promised(q)) == events[q.base..n]
  {
    forall k | 0 <= k < |fans| ensures fans[k].seqno >= 1 {
      assert fans[k].seqno == events[k].seqno;
    }
    BeyondZero(q.offered);
    assert Promised(q) == q.offered;
    StrippedFans(events, fans, q.base, n);
  }

  lemma PromisedWith(events: seq<Event>, fans: seq<Event>, q: Sub, lo: nat, n: nat)
    requires Copies(events, fans) && q.base <= n <= |fans| && q.offered == fans[q.base..n]
    requires lo < q.readLen <= |events| && q.base <= q.readLen
    requires q.backfill == events[lo..q.readLen] && q.fence == events[q.readLen - 1].seqno
    ensures Stripped(Promised(q)) == events[lo..if n > q.readLen then n else q.readLen]
  {
    var live := Beyond(q.offered, q.fence);
    assert live == if n <= q.readLen then [] else fans[q.readLen..n] by {
      FenceSplits(events, fans, q.readLen);
      BeyondFence(fans, q.base, n, q.readLen, q.fence);
    }
    StrippedAppend(q.backfill, live);
    assert Stripped(q.backfill) == q.backfill;
    if n > q.readLen {
      StrippedFans(events, fans, q.readLen, n);
      Joined(events, lo, q.readLen, n);
    }
  }

  lemma Joined(events: seq<Event>, lo: nat, mid: nat, hi: nat)
    requires lo <= mid <= hi <= |events|
    ensures events[lo..mid] + events[mid..hi] == events[lo..hi]
  {
  }

  lemma PromisedIsSlice(c: Config, t: string, td: TopicData, pending: bool, checked: bool, q: Sub)
    requires LogInv(t, td) && FansInv(c.reducers, td)
    requires FlowInv(td.fans, pending, checked, q) && ReplayInv(c.backend, td.events, q) && HasRead(q.pc)
    ensures Start(c.backend, td.events, q) <= End(q) <= |td.events|
    ensures Stripped(Promised(q)) == td.events[Start(c.backend, td.events, q)..End(q)]
  {
    FansAreCopies(c.reducers, t, td);
    PromisedSlice(c.backend, td.events, td.fans, q);
  }

  lemma PromisedSlice(b: Backend, events: seq<Event>, fans: seq<Event>, q: Sub)
    requires Copies(events, fans) && ReplayInv(b, events, q) && HasRead(q.pc)
    requires q.base + |q.offered| <= |fans| && q.offered == fans[q.base..q.base + |q.offered|]
    ensures Start(b, events, q) <= End(q) <= |events|
    ensures Stripped(Promised(q)) == events[Start(b, events, q)..End(q)]
  {
    BackfillSlice(b, events, q);
    if q.backfill == [] {
      PromisedWithout(events, fans, q, q.base + |q.offered|);
    } else {
      PromisedWith(events, fans, q, BackfillStart(b, events[..q.readLen], q.from), q.base + |q.offered|);
    }
  }

  lemma IssuedWhileReplaying(q: Sub)
    requires q.pc.Replaying? && q.pc.sent <= |q.backfill| && q.replayed == ReplayFrames(q.backfill[..q.pc.sent])
    requires q.lives == [] && q.offered == q.queue
    ensures EventsOf(Frames(q)) + InTransit(q) == Promised(q)
  {
    EventsOfReplay(q.backfill[..q.pc.sent]);
    assert Frames(q) == q.replayed && Hand(q.pc) + q.queue == q.queue;
    assert q.backfill == q.backfill[..q.pc.sent] + q.backfill[q.pc.sent..];
  }

  lemma Regroup(a: seq<Event>, b: seq<Event>, c: seq<Event>)
    ensures (a + b) + c == a + (b + c)
  {
  }

  lemma IssuedReplay(q: Sub)
    requires q.replayed == ReplayFrames(q.backfill) + [Ack(q.fence)]
    ensures EventsOf(q.replayed) == q.backfill
  {
    EventsOfReplay(q.backfill);
    EventsOfSnoc(ReplayFrames(q.backfill), Ack(q.fence));
  }

  lemma IssuedOnceStarted(q: Sub)
    requires Started(q.pc) && q.replayed == ReplayFrames(q.backfill) + [Ack(q.fence)]
    requires EventsOf(q.lives) == Beyond(q.taken, q.fence) && q.offered == q.taken + (Hand(q.pc) + q.queue)
    ensures EventsOf(Frames(q)) + InTransit(q) == Promised(q)
  {
    var done, rest := Beyond(q.taken, q.fence), Beyond(Hand(q.pc) + q.queue, q.fence);
    calc {
      EventsOf(Frames(q)) + InTransit(q);
      { IssuedReplay(q); EventsOfAppend(q.replayed, q.lives); }
      (q.backfill + done) + InTransit(q);
      { assert InTransit(q) == rest; }
      (q.backfill + done) + rest;
      { Regroup(q.backfill, done, rest); }
      q.backfill + (done + rest);
      { BeyondAppend(q.taken, Hand(q.pc) + q.queue, q.fence); }
      Promised(q);
    }
  }

  /** Issued frames and what is in transit make up the promise, provided nothing was dropped. */
  lemma IssuedPlusTransit(b: Backend, events: seq<Event>, q: Sub)
    requires QueueInv(q) && ReplayInv(b, events, q) && LiveInv(q) && HasRead(q.pc) && q.lag == 0
    ensures EventsOf(Frames(q)) + InTransit(q) == Promised(q)
  {
    assert Accepted(q) == q.taken + (Hand(q.pc) + q.queue);
    if q.pc.Replaying? {
      IssuedWhileReplaying(q);
    } else {
      IssuedOnceStarted(q);
    }
  }

  /** What is known of one subscription and its topic in a reachable state. */
  lemma Facts(c: Config, s: System, id: nat)
    requires Reachable(c, s) && id in s.subs
    ensures var q := s.subs[id]; var td := Td(s, q.topic);
      && LogInv(q.topic, td) && FansInv(c.reducers, td)
      && StateInv(c.reducers, td, Flight(s, q.topic))
      && SubOk(c.backend, td, Pending(s, id), Checked(s, id), q)
  {
    ReachableInv(c, s);
    assert TopicInv(c, s, s.subs[id].topic) && SubInv(c, s, id);
  }

  /** The part of those facts that positions a subscription in its topic's log. */
  lemma FlowFacts(c: Config, s: System, id: nat)
    requires Reachable(c, s) && id in s.subs
    ensures var q := s.subs[id]; var td := Td(s, q.topic);
      && LogInv(q.topic, td) && FansInv(c.reducers, td)
      && FlowInv(td.fans, Pending(s, id), Checked(s, id), q)
      && ReplayInv(c.backend, td.events, q)
  {
    Facts(c, s, id);
  }

  /**
   No gap, no duplicate. In every reachable state, a subscription that lost nothing to a full queue
   has issued, and still has in transit, exactly a contiguous stretch of its topic's log.
   */
  lemma GapFree(c: Config, s: System, id: nat)
    requires Reachable(c, s) && id in s.subs
    requires HasRead(s.subs[id].pc) && s.subs[id].lag == 0
    ensures var q := s.subs[id]; var events := Td(s, q.topic).events;
      && q.readLen <= |events|
      && Start(c.backend, events, q) <= End(q) <= |events|
      && Stripped(EventsOf(Frames(q)) + InTransit(q)) == events[Start(c.backend, events, q)..End(q)]
  {
    Facts(c, s, id);
    var q := s.subs[id];
    IssuedPlusTransit(c.backend, Td(s, q.topic).events, q);
    PromisedIsSlice(c, q.topic, Td(s, q.topic), Pending(s, id), Checked(s, id), q);
  }

  /**
   The stretch is complete at its end: for an open subscription it stops short of the log by at most
   the one event still being published, and by nothing when there is none.
   */
  lemma ReachesTheEnd(c: Config, s: System, id: nat)
    requires Reachable(c, s) && id in s.subs && HasRead(s.subs[id].pc) && !s.subs[id].closed
    ensures var q := s.subs[id]; var events := Td(s, q.topic).events;
      && |events| - 1 <= End(q) <= |events|
      && (Flight(s, q.topic).None? ==> End(q) == |events|)
  {
    ReachableInv(c, s);
    Facts(c, s, id);
    var q := s.subs[id];
    PromisedIsSlice(c, q.topic, Td(s, q.topic), Pending(s, id), Checked(s, id), q);
  }

  /** Seeding from a sequence number: no event at or above it is missing from the stretch's front. */
  lemma CoversFromSeq(c: Config, s: System, id: nat)
    requires Reachable(c, s) && id in s.subs && HasRead(s.subs[id].pc) && s.subs[id].from.FromSeq?
    ensures var q := s.subs[id]; var events := Td(s, q.topic).events;
      && q.readLen <= |events|
      && (forall k :: 0 <= k < Start(c.backend, events, q) && k < |events| ==> events[k].seqno < q.from.s)
      && (q.backfill != [] ==> forall k :: Start(c.backend, events, q) <= k < |events| ==> events[k].seqno >= q.from.s)
      && (q.backfill == [] ==> forall k :: 0 <= k < q.readLen ==> events[k].seqno < q.from.s)
  {
    Facts(c, s, id);
    var q := s.subs[id];
    BackfillSlice(c.backend, Td(s, q.topic).events, q);
    SeedBounds(Td(s, q.topic).events, q.readLen, q.from.s);
  }

  /** The cut of a log's prefix separates the whole log. */
  lemma SeedBounds(events: seq<Event>, n: nat, from: nat)
    requires Increasing(events) && n <= |events|
    ensures var cut := LowerBound(events[..n], from);
      && (forall k :: 0 <= k < cut ==> events[k].seqno < from)
      && (cut < n ==> forall k :: cut <= k < |events| ==> events[k].seqno >= from)
  {
    var cut := LowerBound(events[..n], from);
    assert forall k :: 0 <= k < n ==> events[..n][k] == events[k];
  }

  /** Seeding with the newest n >= 1: exactly min(n, length) events precede those appended after the read. */
  lemma CoversLastN(c: Config, s: System, id: nat)
    requires Reachable(c, s) && id in s.subs && HasRead(s.subs[id].pc)
    requires s.subs[id].from.FromLastN? && 1 <= s.subs[id].from.n < TWO63
    ensures var q := s.subs[id]; var events := Td(s, q.topic).events;
      && q.readLen <= |events|
      && Start(c.backend, events, q) == (if q.readLen > q.from.n then q.readLen - q.from.n else 0)
  {
    Facts(c, s, id);
    BackfillSlice(c.backend, Td(s, s.subs[id].topic).events, s.subs[id]);
  }

  /** Without a backfill the stretch is what was offered; with one, it starts at the first backfilled event. */
  lemma StartAndEnd(c: Config, s: System, id: nat)
    requires Reachable(c, s) && id in s.subs && HasRead(s.subs[id].pc)
    ensures var q := s.subs[id]; var events := Td(s, q.topic).events;
      && q.readLen <= |events| && Increasing(events)
      && var lo, hi := Start(c.backend, events, q), End(q);
      && lo <= hi <= |events|
      && (q.backfill == [] ==> lo == q.base && hi == q.base + |q.offered|)
      && (q.backfill != [] ==> lo < hi && q.backfill[0] == events[lo])
      && (q.offered != [] ==> q.base < |events| && q.offered[0].seqno == events[q.base].seqno)
  {
    FlowFacts(c, s, id);
    var q := s.subs[id];
    var td := Td(s, q.topic);
    FansAreCopies(c.reducers, q.topic, td);
    EndsOf(c.backend, td.events, td.fans, q);
  }

  lemma EndsOf(b: Backend, events: seq<Event>, fans: seq<Event>, q: Sub)
    requires Copies(events, fans) && ReplayInv(b, events, q) && HasRead(q.pc)
    requires q.base + |q.offered| <= |fans| && q.offered == fans[q.base..q.base + |q.offered|]
    ensures var lo, hi := Start(b, events, q), End(q);
      && lo <= hi <= |events|
      && (q.backfill == [] ==> lo == q.base && hi == q.base + |q.offered|)
      && (q.backfill != [] ==> lo < hi && q.backfill[0] == events[lo])
      && (q.offered != [] ==> q.base < |events| && q.offered[0].seqno == events[q.base].seqno)
  {
    BackfillSlice(b, events, q);
    if q.offered != [] {
      assert q.offered[0] == fans[q.base] && fans[q.base].(state := None) == events[q.base];
    }
  }

  /**
   When a sequence seed is overrun: an event below it is delivered iff the log, as read, ended below
   the seed, and the place the subscription had in the log at registration lies below it too, and
   the event there was fanned out to it. There is then no backfill and so no fence.
   */
  lemma ExactSeedIff(c: Config, s: System, id: nat)
    requires Reachable(c, s) && id in s.subs && HasRead(s.subs[id].pc) && s.subs[id].from.FromSeq?
    ensures var q := s.subs[id]; var events := Td(s, q.topic).events;
      && q.readLen <= |events| && End(q) <= |events| && (q.offered != [] ==> q.base < |events|)
      && ((exists k :: Start(c.backend, events, q) <= k < End(q) && events[k].seqno < q.from.s)
          <==> (&& (q.readLen == 0 || events[q.readLen - 1].seqno < q.from.s)
                && q.offered != [] && events[q.base].seqno < q.from.s))
  {
    var q := s.subs[id]; var events := Td(s, q.topic).events;
    SeedFacts(c, s, id);
    OverrunIff(events, Start(c.backend, events, q), End(q), q.base, q.readLen, |q.offered|, q.backfill == [], q.from.s);
  }

  lemma SeedFacts(c: Config, s: System, id: nat)
    requires Reachable(c, s) && id in s.subs && HasRead(s.subs[id].pc) && s.subs[id].from.FromSeq?
    ensures var q := s.subs[id]; var events := Td(s, q.topic).events;
      && Increasing(events) && q.base <= q.readLen <= |events|
      && var lo, hi := Start(c.backend, events, q), End(q);
      && lo <= hi <= |events|
      && (q.backfill == [] ==> lo == q.base && hi == q.base + |q.offered|)
      && (q.backfill == [] ==> forall k :: 0 <= k < q.readLen ==> events[k].seqno < q.from.s)
      && (q.backfill != [] ==> lo < q.readLen && events[lo].seqno >= q.from.s)
      && (q.offered != [] ==> q.base < |events|)
  {
    CoversFromSeq(c, s, id);
    StartAndEnd(c, s, id);
    FlowFacts(c, s, id);
    BackfillSlice(c.backend, Td(s, s.subs[id].topic).events, s.subs[id]);
  }

  lemma OverrunIff(events: seq<Event>, lo: nat, hi: nat, base: nat, readLen: nat, offered: nat, live: bool, seed: nat)
    requires Increasing(events) && lo <= hi <= |events| && base <= readLen <= |events|
    requires live ==> lo == base && hi == base + offered && forall k :: 0 <= k < readLen ==> events[k].seqno < seed
    requires !live ==> lo < readLen && events[lo].seqno >= seed
    requires offered > 0 ==> base < |events|
    ensures (exists k :: lo <= k < hi && events[k].seqno < seed)
      <==> (readLen == 0 || events[readLen - 1].seqno < seed) && offered > 0 && events[base].seqno < seed
  {
    if live {
      if offered > 0 && events[base].seqno < seed { assert lo <= base < hi; }
      if k :| lo <= k < hi && events[k].seqno < seed { assert events[base].seqno <= events[k].seqno; }
    } else {
      assert events[lo].seqno <= events[readLen - 1].seqno;
    }
  }

  // ---- the guarantee as a subscriber sees it ----

  /** Everything the subscription has issued or still will if nothing more is published. */
  function Delivered(q: Sub): seq<Event> { Stripped(EventsOf(Frames(q)) + InTransit(q)) }

  /** Of the log's events, exactly those between the subscription's start and end: none before, none after. */
  lemma DeliversIff(c: Config, s: System, id: nat, k: nat)
    requires Reachable(c, s) && id in s.subs && HasRead(s.subs[id].pc) && s.subs[id].lag == 0
    requires k < |Td(s, s.subs[id].topic).events|
    ensures var q := s.subs[id]; var events := Td(s, q.topic).events;
      q.readLen <= |events| && (events[k] in Delivered(q) <==> Start(c.backend, events, q) <= k < End(q))
  {
    LogIncreases(c, s, id);
    GapFree(c, s, id);
    var q := s.subs[id]; var events := Td(s, q.topic).events;
    InStretchIff(events, Start(c.backend, events, q), End(q), k);
  }

  /**
   Where a subscription joins on, against the place it should, which has p events of the log before it:
   it skips events iff it starts beyond the place, and delivers earlier ones iff it starts before.
   */
  lemma JoinsIff(c: Config, s: System, id: nat, p: nat)
    requires Reachable(c, s) && id in s.subs && HasRead(s.subs[id].pc) && s.subs[id].lag == 0
    requires p <= |Td(s, s.subs[id].topic).events|
    ensures var q := s.subs[id]; var events := Td(s, q.topic).events;
      && q.readLen <= |events| && End(q) <= |events|
      && ((exists k :: p <= k < End(q) && events[k] !in Delivered(q)) <==> p < Start(c.backend, events, q))
      && ((exists k :: 0 <= k < p && events[k] in Delivered(q)) <==>
            Start(c.backend, events, q) < p && Start(c.backend, events, q) < End(q))
  {
    GapFree(c, s, id);
    var q := s.subs[id]; var events := Td(s, q.topic).events;
    var lo, hi := Start(c.backend, events, q), End(q);
    forall k | 0 <= k < |events| ensures events[k] in Delivered(q) <==> lo <= k < hi { DeliversIff(c, s, id, k); }
    if p < lo { assert p < hi && events[p] !in Delivered(q); }
    if lo < p && lo < hi { assert events[lo] in Delivered(q); }
  }

  lemma InStretchIff(events: seq<Event>, lo: nat, hi: nat, k: nat)
    requires Increasing(events) && lo <= hi <= |events| && k < |events|
    ensures events[k] in events[lo..hi] <==> lo <= k < hi
  {
    if lo <= k < hi { assert events[lo..hi][k - lo] == events[k]; }
  }

  /** Undropped, open, and with no publish of its topic under way. */
  predicate Settled(s: System, id: nat) {
    && id in s.subs && HasRead(s.subs[id].pc) && s.subs[id].lag == 0 && !s.subs[id].closed
    && Flight(s, s.subs[id].topic).None?
  }

  /** A settled subscription delivers the log from its start on, each event once and in order. */
  lemma DeliversToTheEnd(c: Config, s: System, id: nat)
    requires Reachable(c, s) && Settled(s, id)
    ensures var q := s.subs[id]; var events := Td(s, q.topic).events;
      && Increasing(events) && Increasing(Delivered(q)) && q.readLen <= |events|
      && Start(c.backend, events, q) <= |events|
      && Delivered(q) == events[Start(c.backend, events, q)..]
  {
    LogIncreases(c, s, id);
    GapFree(c, s, id);
    ReachesTheEnd(c, s, id);
    IncreasingSuffix(Td(s, s.subs[id].topic).events, Start(c.backend, Td(s, s.subs[id].topic).events, s.subs[id]));
  }

  lemma LogIncreases(c: Config, s: System, id: nat)
    requires Reachable(c, s) && id in s.subs
    ensures Increasing(Td(s, s.subs[id].topic).events)
  {
    FlowFacts(c, s, id);
  }

  lemma IncreasingSuffix(events: seq<Event>, lo: nat)
    requires Increasing(events) && lo <= |events|
    ensures Increasing(events[lo..]) && events[lo..|events|] == events[lo..]
  {
  }

  lemma InSuffix(events: seq<Event>, lo: nat, k: nat)
    requires lo <= k < |events|
    ensures events[k] in events[lo..]
  {
    assert events[lo..][k - lo] == events[k];
  }

  /** Subscribe from a sequence number: every logged event from it on is delivered, once and in order. */
  lemma DeliversFromSeq(c: Config, s: System, id: nat)
    requires Reachable(c, s) && Settled(s, id) && s.subs[id].from.FromSeq?
    ensures var q := s.subs[id]; var events := Td(s, q.topic).events;
      && Increasing(Delivered(q))
      && forall k :: 0 <= k < |events| && events[k].seqno >= q.from.s ==> events[k] in Delivered(q)
  {
    DeliversToTheEnd(c, s, id);
    CoversFromSeq(c, s, id);
    var q := s.subs[id]; var events := Td(s, q.topic).events;
    forall k | 0 <= k < |events| && events[k].seqno >= q.from.s ensures events[k] in Delivered(q) {
      InSuffix(events, Start(c.backend, events, q), k);
    }
  }

  /** Start at exactly the number asked for: that and nothing below it is delivered iff the seed is not overrun. */
  lemma DeliversExactlyIff(c: Config, s: System, id: nat)
    requires Reachable(c, s) && Settled(s, id) && s.subs[id].from.FromSeq?
    ensures var q := s.subs[id]; var events := Td(s, q.topic).events;
      && q.readLen <= |events| && (q.offered != [] ==> q.base < |events|)
      && (Delivered(q) == AtLeast(events, q.from.s) <==>
            !(&& (q.readLen == 0 || events[q.readLen - 1].seqno < q.from.s)
              && q.offered != [] && events[q.base].seqno < q.from.s))
  {
    DeliversToTheEnd(c, s, id);
    CoversFromSeq(c, s, id);
    ExactSeedIff(c, s, id);
    ReachesTheEnd(c, s, id);
    var q := s.subs[id]; var events := Td(s, q.topic).events;
    AtLeastCut(events, q.from.s);
    SuffixesIff(events, Start(c.backend, events, q), q.from.s);
  }

  /** A suffix that contains all events from a bound on is exactly those iff nothing in it lies below. */
  lemma SuffixesIff(events: seq<Event>, lo: nat, from: nat)
    requires Increasing(events) && lo <= |events| && forall k :: 0 <= k < lo ==> events[k].seqno < from
    ensures events[lo..] == events[LowerBound(events, from)..]
      <==> !exists k :: lo <= k < |events| && events[k].seqno < from
  {
    var cut := LowerBound(events, from);
    assert |events[lo..]| == |events| - lo && |events[cut..]| == |events| - cut;
    if lo < cut { assert events[lo].seqno < from; }
  }

  /** Subscribe from the newest n: those n, fewer only if the log was shorter, and everything after, nothing else. */
  lemma DeliversLastN(c: Config, s: System, id: nat)
    requires Reachable(c, s) && Settled(s, id) && s.subs[id].from.FromLastN? && 1 <= s.subs[id].from.n < TWO63
    ensures var q := s.subs[id]; var events := Td(s, q.topic).events;
      && q.readLen <= |events|
      && Delivered(q) == events[if q.readLen > q.from.n then q.readLen - q.from.n else 0..]
  {
    DeliversToTheEnd(c, s, id);
    CoversLastN(c, s, id);
    Facts(c, s, id);
  }

  /** Subscribe from now: everything fanned out after registration, which misses nothing appended later. */
  lemma DeliversLatest(c: Config, s: System, id: nat)
    requires Reachable(c, s) && Settled(s, id) && s.subs[id].from.FromLatest?
    ensures var q := s.subs[id]; var events := Td(s, q.topic).events;
      && q.base <= q.length <= |events| && q.length <= q.base + 1
      && Delivered(q) == events[q.base..]
  {
    DeliversToTheEnd(c, s, id);
    StartAndEnd(c, s, id);
    Facts(c, s, id);
  }

  // ---- states ----

  /** Whenever no publish on the topic is between Append and return, its stored state is the fold of its log. */
  lemma StateIsFold(c: Config, s: System, t: string)
    requires Reachable(c, s) && Flight(s, t).None?
    ensures Td(s, t).state == Fold(c.reducers, Td(s, t).events)
  {
    ReachableInv(c, s);
    assert TopicInv(c, s, t);
  }

  /** Every copy offered to a subscription carries the fold of the log up to and including its event. */
  lemma LiveFrameCarriesFold(c: Config, s: System, id: nat, i: nat)
    requires Reachable(c, s) && id in s.subs
    requires i < |s.subs[id].offered|
    ensures var q := s.subs[id]; var events := Td(s, q.topic).events; var k := q.base + i;
      && k < |events|
      && q.offered[i] == events[k].(state := Fold(c.reducers, events[..k + 1]))
  {
    Facts(c, s, id);
    var q := s.subs[id];
    assert q.offered[i] == Td(s, q.topic).fans[q.base + i];
  }

  /** Stored events never gain a state, so neither do backfill frames. */
  lemma StoredEventsStayRaw(c: Config, s: System, id: nat)
    requires Reachable(c, s) && id in s.subs
    ensures forall e :: e in Td(s, s.subs[id].topic).events ==> e.state == None
    ensures forall e :: e in s.subs[id].backfill ==> e.state == None
  {
    FlowFacts(c, s, id);
    if HasRead(s.subs[id].pc) {
      BackfillSlice(c.backend, Td(s, s.subs[id].topic).events, s.subs[id]);
    }
  }

  // ---- accounting ----

  /** Every event the hub offered is finished with, in hand, buffered or counted as lag. */
  lemma DropAccounting(c: Config, s: System, id: nat)
    requires Reachable(c, s) && id in s.subs
    ensures var q := s.subs[id];
      && |q.offered| == |q.taken| + |Hand(q.pc)| + |q.queue| + q.lag
      && |q.queue| <= 256
      && Missed(q.lives) == q.lastLag <= q.lag
      && (q.pc.Emitting? ==> Missed(q.lives) == q.pc.lag)
  {
    Facts(c, s, id);
  }
}
