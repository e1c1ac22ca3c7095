/** No lost updates: what concurrent publishers are acknowledged, and what their increments add up to. */
module Ledger {
  import opened Types
  import opened Topics
  import opened Log
  import opened Sequences
  import opened Registry
  import opened Subscriptions
  import opened Engine
  import opened Serving
  import opened Delivery
  import Catalog
  import Counters

  /** The publishers acknowledged on a topic. */
  function AckedOn(s: System, t: string): set<nat> {
    set pid | pid in s.pubs && s.pubs[pid].Acked? && s.pubs[pid].e.topic == t
  }

  lemma OwnerFacts(c: Config, s: System, t: string)
    requires Reachable(c, s)
    ensures var td := Td(s, t);
      && LogInv(t, td) && StateInv(c.reducers, td, Flight(s, t)) && OwnersOk(s.pubs, td)
      && (c.backend.Memory? ==> td.counter == |td.events|)
    ensures forall pid :: pid in s.pubs ==> PlaceOk(s, pid)
    ensures LockInv(s)
  {
    ReachableInv(c, s);
    assert TopicInv(c, s, t);
    if t in s.topics { assert OwnersOk(s.pubs, s.topics[t]); }
    forall pid | pid in s.pubs ensures PlaceOk(s, pid) { }
  }

  /** With either back end and failed appends included, a topic's numbers strictly rise and stay within its counter. */
  lemma LogRises(c: Config, s: System, t: string)
    requires Reachable(c, s)
    ensures Increasing(Td(s, t).events)
    ensures forall e :: e in Td(s, t).events ==> 1 <= e.seqno <= Td(s, t).counter
  {
    OwnerFacts(c, s, t);
  }

  /** Two acknowledgements on one topic never carry the same sequence number, and each names a stored event. */
  lemma AcksAreDistinct(c: Config, s: System, t: string, a: nat, b: nat)
    requires Reachable(c, s) && a in AckedOn(s, t) && b in AckedOn(s, t)
    ensures s.pubs[a].at < |Td(s, t).events| && Td(s, t).events[s.pubs[a].at] == s.pubs[a].e
    ensures a != b ==> s.pubs[a].e.seqno != s.pubs[b].e.seqno
  {
    OwnerFacts(c, s, t);
    assert PlaceOk(s, a) && PlaceOk(s, b);
  }

  /** With nothing in flight, the owners of the log are exactly the acknowledged publishers. */
  lemma OwnersAreAcked(c: Config, s: System, t: string)
    requires Reachable(c, s) && Flight(s, t).None?
    ensures var td := Td(s, t);
      && |td.owners| == |td.events| && Distinct(td.owners)
      && Elements(td.owners) == AckedOn(s, t)
      && forall k :: 0 <= k < |td.owners| ==> td.owners[k] in s.pubs && s.pubs[td.owners[k]].e == td.events[k]
  {
    OwnerFacts(c, s, t);
    var td := Td(s, t);
    forall k | 0 <= k < |td.owners| ensures td.owners[k] in AckedOn(s, t) {
      var p := s.pubs[td.owners[k]];
      assert Critical(p) <==> s.lock == Some(td.owners[k]);
    }
    forall pid | pid in AckedOn(s, t) ensures pid in td.owners {
      assert PlaceOk(s, pid);
    }
  }

  function Elements(s: seq<nat>): set<nat> { set x | x in s }

  lemma ElementsSnoc(s: seq<nat>, x: nat)
    ensures Elements(s + [x]) == Elements(s) + {x}
  {
  }

  lemma {:induction false} DistinctSize(s: seq<nat>)
    requires Distinct(s)
    ensures |Elements(s)| == |s|
  {
    if s != [] {
      var front, last := s[..|s| - 1], s[|s| - 1];
      DistinctSize(front);
      ElementsSnoc(front, last);
      assert s == front + [last] && last !in front;
    }
  }

  /** An increasing log of counter-many events from 1 to the counter is numbered without gaps. */
  lemma {:induction false} DenseFrom(events: seq<Event>, k: nat)
    requires Increasing(events) && k < |events|
    requires forall i :: 0 <= i < |events| ==> 1 <= events[i].seqno <= |events|
    ensures events[k].seqno >= k + 1
  {
    if k > 0 { DenseFrom(events, k - 1); }
  }

  lemma {:induction false} DenseTo(events: seq<Event>, k: nat)
    requires Increasing(events) && k < |events|
    requires forall i :: 0 <= i < |events| ==> 1 <= events[i].seqno <= |events|
    ensures events[k].seqno <= k + 1
    decreases |events| - k
  {
    if k + 1 < |events| { DenseTo(events, k + 1); }
  }

  lemma MemoryIsDense(c: Config, s: System, t: string, k: nat)
    requires Reachable(c, s) && c.backend.Memory? && k < |Td(s, t).events|
    ensures Td(s, t).events[k].seqno == k + 1
  {
    OwnerFacts(c, s, t);
    DenseFrom(Td(s, t).events, k);
    DenseTo(Td(s, t).events, k);
  }

  /**
   N publishers, whatever their interleaving, are acknowledged exactly the sequence numbers 1 to N.
   */
  lemma AcksAreOneToN(c: Config, s: System, t: string, n: nat)
    requires Reachable(c, s) && c.backend.Memory? && Flight(s, t).None?
    ensures |AckedOn(s, t)| == |Td(s, t).events|
    ensures 1 <= n <= |AckedOn(s, t)| <==> exists pid :: pid in AckedOn(s, t) && s.pubs[pid].e.seqno == n
  {
    OwnersAreAcked(c, s, t);
    var td := Td(s, t);
    DistinctSize(td.owners);
    if 1 <= n <= |td.events| {
      MemoryIsDense(c, s, t, n - 1);
      assert td.owners[n - 1] in td.owners;
      assert td.owners[n - 1] in AckedOn(s, t) && s.pubs[td.owners[n - 1]].e.seqno == n;
    }
    forall pid | pid in AckedOn(s, t) && s.pubs[pid].e.seqno == n ensures 1 <= n <= |td.events| {
      AcksAreDistinct(c, s, t, pid, pid);
      MemoryIsDense(c, s, t, s.pubs[pid].at);
    }
  }

  // ---- what dense numbering makes of a sequence seed ----

  /** A seed beyond the log as read backfills nothing; events k + 1 < seed from the place at registration on slip by. */
  lemma FutureSeed(c: Config, s: System, id: nat)
    requires Reachable(c, s) && c.backend.Memory? && id in s.subs && HasRead(s.subs[id].pc)
    requires s.subs[id].from.FromSeq? && s.subs[id].readLen < s.subs[id].from.s
    ensures var q := s.subs[id]; var events := Td(s, q.topic).events;
      && q.readLen <= |events| && q.backfill == []
      && Start(c.backend, events, q) == q.base && End(q) == q.base + |q.offered| <= |events|
      && forall k :: q.base <= k < End(q) ==> (events[k].seqno < q.from.s <==> k + 1 < q.from.s)
  {
    SeedFacts(c, s, id);
    var q := s.subs[id]; var events := Td(s, q.topic).events;
    if q.backfill != [] {
      var lo := Start(c.backend, events, q);
      MemoryIsDense(c, s, q.topic, lo);
    }
    forall k | 0 <= k < |events| ensures events[k].seqno == k + 1 { MemoryIsDense(c, s, q.topic, k); }
  }

  /**
   On the memory store a seed is overrun iff it lies beyond the log as read, more than one beyond the
   place at registration, and something was fanned out since.
   */
  lemma ExactSeedMemoryIff(c: Config, s: System, id: nat)
    requires Reachable(c, s) && c.backend.Memory? && id in s.subs && HasRead(s.subs[id].pc)
    requires s.subs[id].from.FromSeq?
    ensures var q := s.subs[id]; var events := Td(s, q.topic).events;
      && q.readLen <= |events| && End(q) <= |events|
      && ((exists k :: Start(c.backend, events, q) <= k < End(q) && events[k].seqno < q.from.s)
          <==> q.readLen < q.from.s && q.base + 1 < q.from.s && q.offered != [])
  {
    ExactSeedIff(c, s, id);
    var q := s.subs[id]; var events := Td(s, q.topic).events;
    if q.readLen > 0 { MemoryIsDense(c, s, q.topic, q.readLen - 1); }
    if q.offered != [] { MemoryIsDense(c, s, q.topic, q.base); }
    if q.from.s == 0 { SeedFacts(c, s, id); }
  }

  /** No step changes what a publisher submitted, so the acknowledged events are the submitted ones. */
  lemma SubmissionKept(c: Config, s: System, step: Step, s': System, pid: nat)
    requires Next(c, s, step, s') && pid in s.pubs
    ensures pid in s'.pubs
    ensures var e, e' := s.pubs[pid].e, s'.pubs[pid].e;
      e'.topic == e.topic && e'.kind == e.kind && e'.payload == e.payload && e'.actor == e.actor
  {
  }

  // ---- counters ----

  /** The sum of the publishers' signed deltas, in no particular order. */
  ghost function SumOver(pubs: map<nat, Publisher>, ids: set<nat>): int
    requires ids <= pubs.Keys
  {
    if ids == {} then 0 else
      var id :| id in ids;
      Counters.Delta(pubs[id].e) + SumOver(pubs, ids - {id})
  }

  lemma {:induction false} SumOverTake(pubs: map<nat, Publisher>, ids: set<nat>, id: nat)
    requires ids <= pubs.Keys && id in ids
    ensures SumOver(pubs, ids) == Counters.Delta(pubs[id].e) + SumOver(pubs, ids - {id})
  {
    var first :| first in ids && SumOver(pubs, ids) == Counters.Delta(pubs[first].e) + SumOver(pubs, ids - {first});
    if first != id {
      SumOverTake(pubs, ids - {first}, id);
      SumOverTake(pubs, ids - {id}, first);
      assert ids - {first} - {id} == ids - {id} - {first};
    }
  }

  ghost predicate Owns(pubs: map<nat, Publisher>, owners: seq<nat>, events: seq<Event>) {
    |owners| == |events| && forall k :: 0 <= k < |owners| ==> owners[k] in pubs && pubs[owners[k]].e == events[k]
  }

  lemma {:induction false} TotalIsSum(pubs: map<nat, Publisher>, owners: seq<nat>, events: seq<Event>)
    requires Owns(pubs, owners, events) && Distinct(owners)
    requires forall k :: 0 <= k < |events| ==> !Counters.Anchors(events[k])
    ensures Elements(owners) <= pubs.Keys
    ensures Counters.Total(events) == SumOver(pubs, Elements(owners))
  {
    if owners != [] {
      var front, last := owners[..|owners| - 1], owners[|owners| - 1];
      TotalIsSum(pubs, front, events[..|front|]);
      assert owners == front + [last] && last !in front;
      ElementsSnoc(front, last);
      assert Elements(owners) - {last} == Elements(front);
      SumOverTake(pubs, Elements(owners), last);
    }
  }

  /**
   Increments are atomic: once every publisher has returned, the stored value is the sum of all
   acknowledged deltas wrapped to 64 bits. The right-hand side does not mention the schedule.
   */
  lemma CounterSums(c: Config, s: System, t: string)
    requires Reachable(c, s) && Flight(s, t).None?
    requires Catalog.Standard(c.reducers, "int")
    requires ParseObjectType(t) == Some("int")
    requires AckedOn(s, t) != {}
    requires forall pid :: pid in AckedOn(s, t) ==> Counters.Counts(s.pubs[pid].e)
    ensures var st := Td(s, t).state;
      st.Some? && st.value.IntField? && st.value.num.value == Wrap64(SumOver(s.pubs, AckedOn(s, t)))
  {
    var td := Td(s, t);
    StateIsFold(c, s, t);
    OwnersAreAcked(c, s, t);
    assert td.events != [] by { assert Elements(td.owners) != {}; }
    SumOfLog(s.pubs, td.owners, td.events, AckedOn(s, t));
    assert forall k :: 0 <= k < |td.events| ==> td.events[k].topic == t by { OwnerFacts(c, s, t); }
    Catalog.FoldIsMeaning(c.reducers, t, "int", td.events);
  }

  /** Without a number under "delta" each increment counts one. */
  lemma {:induction false} PlainSum(pubs: map<nat, Publisher>, ids: set<nat>)
    requires ids <= pubs.Keys
    requires forall id :: id in ids ==> pubs[id].e.kind == "int_incr" && !Counters.Numeric(pubs[id].e.payload, "delta")
    ensures SumOver(pubs, ids) == |ids|
  {
    if ids != {} {
      var id :| id in ids;
      PlainSum(pubs, ids - {id});
      SumOverTake(pubs, ids, id);
    }
  }

  /** N plain increments, published by anyone in any order, leave N. */
  lemma PlainIncrementsCount(c: Config, s: System, t: string)
    requires Reachable(c, s) && Flight(s, t).None?
    requires Catalog.Standard(c.reducers, "int") && ParseObjectType(t) == Some("int")
    requires AckedOn(s, t) != {}
    requires forall pid :: pid in AckedOn(s, t) ==>
      s.pubs[pid].e.kind == "int_incr" && "delta" !in s.pubs[pid].e.payload
    ensures var st := Td(s, t).state;
      st.Some? && st.value.IntField? && st.value.num.value == Wrap64(|AckedOn(s, t)|)
  {
    CounterSums(c, s, t);
    PlainSum(s.pubs, AckedOn(s, t));
  }

  lemma SumOfLog(pubs: map<nat, Publisher>, owners: seq<nat>, events: seq<Event>, ids: set<nat>)
    requires Owns(pubs, owners, events) && Distinct(owners) && Elements(owners) == ids
    requires forall id :: id in ids && id in pubs ==> Counters.Counts(pubs[id].e)
    ensures ids <= pubs.Keys
    ensures Counters.Run(events).value == Wrap64(SumOver(pubs, ids))
  {
    forall k | 0 <= k < |events| ensures !Counters.Anchors(events[k]) {
      assert owners[k] in ids;
    }
    TotalIsSum(pubs, owners, events);
    Counters.RunIsWrappedTotal(events);
  }
}
