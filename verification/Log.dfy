/** The log every store implements: one topic's events in sequence order. */
module Log {
  import opened Types

  predicate Increasing(events: seq<Event>) {
    forall i, j :: 0 <= i < j < |events| ==> events[i].seqno < events[j].seqno
  }

  /** The event a store keeps: numbered, and with an id and a time if it came without. */
  function Filled(e: Event, seqno: nat, id: string, now: Time): Event {
    e.(seqno := seqno,
       id := if e.id == "" then id else e.id,
       occurredAt := if e.occurredAt == 0 then now else e.occurredAt)
  }

  /** The same, field by field, as both stores write it. */
  method Fill(e: Event, seqno: nat, id: string, now: Time) returns (stored: Event)
    ensures stored == Filled(e, seqno, id, now)
    ensures stored.id == if e.id != "" then e.id else id
    ensures stored.occurredAt == if e.occurredAt != 0 then e.occurredAt else now
    ensures stored == e.(seqno := seqno, id := stored.id, occurredAt := stored.occurredAt)
  {
    stored := e.(seqno := seqno);
    if stored.id == "" { stored := stored.(id := id); }
    if stored.occurredAt == 0 { stored := stored.(occurredAt := now); }
  }

  /** The events with seqno >= from, in order. */
  function AtLeast(events: seq<Event>, from: nat): seq<Event> {
    if events == [] then []
    else (if events[0].seqno >= from then [events[0]] else []) + AtLeast(events[1..], from)
  }

  /** At most limit events; a limit of 0 or less means no limit. */
  function Limited(events: seq<Event>, limit: int): seq<Event> {
    if 0 < limit < |events| then events[..limit] else events
  }

  function ReadSpec(events: seq<Event>, from: nat, limit: int): seq<Event> {
    Limited(AtLeast(events, from), limit)
  }

  /** The newest n events, oldest first. */
  function Newest(events: seq<Event>, n: nat): seq<Event> {
    if |events| > n then events[|events| - n..] else events
  }

  lemma {:induction false} AtLeastAppend(a: seq<Event>, b: seq<Event>, from: nat)
    ensures AtLeast(a + b, from) == AtLeast(a, from) + AtLeast(b, from)
  {
    if a == [] {
      assert a + b == b;
    } else {
      assert (a + b)[1..] == a[1..] + b;
      AtLeastAppend(a[1..], b, from);
    }
  }

  lemma {:induction false} AtLeastAll(events: seq<Event>, from: nat)
    requires forall i :: 0 <= i < |events| ==> events[i].seqno >= from
    ensures AtLeast(events, from) == events
  {
    if events != [] { AtLeastAll(events[1..], from); }
  }

  lemma {:induction false} AtLeastNone(events: seq<Event>, from: nat)
    requires forall i :: 0 <= i < |events| ==> events[i].seqno < from
    ensures AtLeast(events, from) == []
  {
    if events != [] { AtLeastNone(events[1..], from); }
  }

  /** In a sequence-ordered log the filter is the suffix cut at the first index that qualifies. */
  lemma AtLeastIsSuffix(events: seq<Event>, from: nat, cut: nat)
    requires cut <= |events|
    requires forall i :: 0 <= i < cut ==> events[i].seqno < from
    requires forall i :: cut <= i < |events| ==> events[i].seqno >= from
    ensures AtLeast(events, from) == events[cut..]
  {
    assert events == events[..cut] + events[cut..];
    AtLeastAppend(events[..cut], events[cut..], from);
    AtLeastNone(events[..cut], from);
    AtLeastAll(events[cut..], from);
  }

  /** The number of leading events below from. */
  function LowerBound(events: seq<Event>, from: nat): (cut: nat)
    ensures cut <= |events|
    ensures forall i :: 0 <= i < cut ==> events[i].seqno < from
    ensures cut < |events| ==> events[cut].seqno >= from
  {
    if events == [] || events[0].seqno >= from then 0 else 1 + LowerBound(events[1..], from)
  }

  lemma {:induction false} LowerBoundUnique(events: seq<Event>, from: nat, i: nat)
    requires i <= |events|
    requires forall k :: 0 <= k < i ==> events[k].seqno < from
    requires forall k :: i <= k < |events| ==> events[k].seqno >= from
    ensures LowerBound(events, from) == i
  {
    if i > 0 { LowerBoundUnique(events[1..], from, i - 1); }
  }

  lemma AtLeastCut(events: seq<Event>, from: nat)
    requires Increasing(events)
    ensures AtLeast(events, from) == events[LowerBound(events, from)..]
  {
    AtLeastIsSuffix(events, from, LowerBound(events, from));
  }

  /** A read in terms of the log alone: the run of events from the first at or above from, cut at a positive limit. */
  lemma ReadIsSlice(events: seq<Event>, from: nat, limit: int) returns (lo: nat, hi: nat)
    requires Increasing(events)
    ensures lo <= hi <= |events| && ReadSpec(events, from, limit) == events[lo..hi]
    ensures forall i :: 0 <= i < lo ==> events[i].seqno < from
    ensures forall i :: lo <= i < |events| ==> events[i].seqno >= from
    ensures hi == if 0 < limit < |events| - lo then lo + limit else |events|
  {
    lo := LowerBound(events, from);
    hi := if 0 < limit < |events| - lo then lo + limit else |events|;
    AtLeastCut(events, from);
    assert events[lo..][..hi - lo] == events[lo..hi];
  }

  // ---- what a subscription is seeded with ----

  /** Go's int(v) on a 64-bit platform: values of 2^63 and up come out negative. */
  function AsInt(n: uint64): (r: int64)
    ensures r >= 0 <==> n < TWO63
    ensures (n - r) % TWO64 == 0
  {
    if n < TWO63 then n else n - TWO64
  }

  datatype Backend = Memory | Redis

  /** Latest(n): the back ends differ when n <= 0, where memory returns everything and Redis nothing. */
  function LatestSpec(b: Backend, events: seq<Event>, n: int): seq<Event> {
    if n > 0 then Newest(events, n) else if b.Memory? then events else []
  }

  /** Latest in terms of the log alone: its end, of n events or all there are; nothing or everything for n <= 0. */
  lemma LatestIsSuffix(b: Backend, events: seq<Event>, n: int)
    ensures var r := LatestSpec(b, events, n);
      && |r| <= |events| && events[|events| - |r|..] == r
      && (0 < n <= |events| ==> |r| == n) && (n > |events| ==> |r| == |events|)
      && (n <= 0 ==> |r| == match b case Memory => |events| case Redis => 0)
  {
  }

  function Backfill(b: Backend, events: seq<Event>, from: From): seq<Event> {
    match from
    case FromLatest => []
    case FromLastN(n) => LatestSpec(b, events, AsInt(n))
    case FromSeq(s) => ReadSpec(events, s, 0)
  }

  /** The fence is the last backfilled sequence number, 0 when nothing was backfilled. */
  function Fence(backfill: seq<Event>): nat {
    if backfill == [] then 0 else backfill[|backfill| - 1].seqno
  }

  /** Where a backfill begins in the log it was read from. */
  function BackfillStart(b: Backend, events: seq<Event>, from: From): (cut: nat)
    ensures cut <= |events|
  {
    match from
    case FromLatest => |events|
    case FromLastN(n) =>
      var k := AsInt(n);
      if k > 0 then (if |events| > k then |events| - k else 0)
      else if b.Memory? then 0 else |events|
    case FromSeq(s) => LowerBound(events, s)
  }

  /** Whatever the seed, a backfill is a suffix of the log. */
  lemma BackfillIsSuffix(b: Backend, events: seq<Event>, from: From)
    requires Increasing(events)
    ensures Backfill(b, events, from) == events[BackfillStart(b, events, from)..]
  {
    if from.FromSeq? { AtLeastCut(events, from.s); }
  }
}
