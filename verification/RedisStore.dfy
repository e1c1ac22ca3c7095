/** The Redis store over an atomic counter and an append-only stream per topic. */
module RedisStore {
  import opened Types
  import opened Log
  import MemoryStore

  /** A stream entry decodes to an event or, when damaged, to nothing. */
  type Entry = Option<Event>

  function DecodedOne(en: Entry): seq<Event> { if en.Some? then [en.value] else [] }

  /** The decodable events of a stream, in order. */
  function Decoded(stream: seq<Entry>): seq<Event> {
    if stream == [] then [] else Decoded(stream[..|stream| - 1]) + DecodedOne(stream[|stream| - 1])
  }

  lemma {:induction false} DecodedAppend(a: seq<Entry>, b: seq<Entry>)
    ensures Decoded(a + b) == Decoded(a) + Decoded(b)
  {
    if b == [] {
      assert a + b == a;
    } else {
      assert (a + b)[..|a + b| - 1] == a + b[..|b| - 1];
      DecodedAppend(a, b[..|b| - 1]);
    }
  }

  /** Sequence numbers rise along a stream and never pass the counter. */
  ghost predicate StreamOk(stream: seq<Entry>, counter: nat) {
    Increasing(Decoded(stream)) && forall i :: 0 <= i < |Decoded(stream)| ==> Decoded(stream)[i].seqno <= counter
  }

  lemma DecodedSnoc(stream: seq<Entry>, e: Event)
    ensures Decoded(stream + [Some(e)]) == Decoded(stream) + [e]
  {
    assert (stream + [Some(e)])[..|stream|] == stream;
  }

  lemma StreamGrows(stream: seq<Entry>, counter: nat, e: Event)
    requires StreamOk(stream, counter) && e.seqno == counter + 1
    ensures StreamOk(stream + [Some(e)], counter + 1)
  {
    DecodedSnoc(stream, e);
  }

  /** Where an append can fail: before the counter moves, or after. */
  datatype Fault = NoFault | IncrFails | ExecFails

  lemma DecodedStep(stream: seq<Entry>, i: nat)
    requires i < |stream|
    ensures Decoded(stream[..i + 1]) == Decoded(stream[..i]) + DecodedOne(stream[i])
  {
    assert stream[..i + 1][..i] == stream[..i];
  }

  /** What a scan from a sequence number on keeps. */
  function Kept(stream: seq<Entry>, from: nat): seq<Event> { AtLeast(Decoded(stream), from) }

  lemma KeptStep(stream: seq<Entry>, i: nat, from: nat)
    requires i < |stream|
    ensures Kept(stream[..i + 1], from)
         == Kept(stream[..i], from)
            + (if stream[i].Some? && stream[i].value.seqno >= from then [stream[i].value] else [])
  {
    DecodedStep(stream, i);
    AtLeastAppend(Decoded(stream[..i]), DecodedOne(stream[i]), from);
  }

  lemma KeptPrefix(stream: seq<Entry>, i: nat, from: nat)
    requires i <= |stream|
    ensures Kept(stream[..i], from) <= Kept(stream, from)
  {
    assert stream == stream[..i] + stream[i..];
    DecodedAppend(stream[..i], stream[i..]);
    AtLeastAppend(Decoded(stream[..i]), Decoded(stream[i..]), from);
  }

  type Counters = map<string, nat>

  type Streams = map<string, seq<Entry>>

  function CounterOf(counters: Counters, t: string): nat { if t in counters then counters[t] else 0 }

  function StreamOf(streams: Streams, t: string): seq<Entry> { if t in streams then streams[t] else [] }

  ghost predicate AllOk(counters: Counters, streams: Streams) {
    forall t: string {:trigger StreamOf(streams, t)} :: StreamOk(StreamOf(streams, t), CounterOf(counters, t))
  }

  /** The counter of a topic moves up; the streams are as they were. */
  lemma CounterKeepsOk(counters: Counters, streams: Streams, t: string, n: nat)
    requires AllOk(counters, streams) && n >= CounterOf(counters, t)
    ensures AllOk(counters[t := n], streams)
  {
    forall u: string ensures StreamOk(StreamOf(streams, u), CounterOf(counters[t := n], u)) {
      assert StreamOk(StreamOf(streams, u), CounterOf(counters, u));
    }
  }

  /** One more entry, numbered as the counter now stands. */
  lemma EntryKeepsOk(counters: Counters, streams: Streams, t: string, e: Event)
    requires AllOk(counters, streams) && e.seqno == CounterOf(counters, t) + 1
    ensures AllOk(counters[t := e.seqno], streams[t := StreamOf(streams, t) + [Some(e)]])
  {
    var streams' := streams[t := StreamOf(streams, t) + [Some(e)]];
    forall u: string ensures StreamOk(StreamOf(streams', u), CounterOf(counters[t := e.seqno], u)) {
      assert StreamOk(StreamOf(streams, u), CounterOf(counters, u));
      if u == t { StreamGrows(StreamOf(streams, t), CounterOf(counters, t), e); }
    }
  }

  class Store {
    var counters: map<string, nat>
    var streams: map<string, seq<Entry>>

    function Counter(t: string): nat
      reads this
    {
      CounterOf(counters, t)
    }

    function Stream(t: string): seq<Entry>
      reads this
    {
      StreamOf(streams, t)
    }

    function Events(t: string): seq<Event>
      reads this
    {
      Decoded(Stream(t))
    }

    ghost predicate Valid()
      reads this
    {
      AllOk(counters, streams)
    }

    constructor ()
      ensures Valid() && counters == map[] && streams == map[]
    {
      counters, streams := map[], map[];
    }

    /** INCR, then one transaction; a fault after INCR leaves a gap in the numbering, never a repeat. */
    method Append(e: Event, id: string, now: Time, fault: Fault) returns (stored: Option<Event>)
      requires Valid()
      modifies this
      ensures Valid()
      ensures stored == if !fault.NoFault? then None else
        Some(Filled(e, old(Counter(e.topic)) + 1, id, now))
      ensures stored.Some? <==> fault.NoFault?
      ensures stored.Some? ==> var body := stored.value;
        && body.seqno == old(Counter(e.topic)) + 1
        && body.id == (if e.id != "" then e.id else id)
        && body.occurredAt == (if e.occurredAt != 0 then e.occurredAt else now)
        && body == e.(seqno := body.seqno, id := body.id, occurredAt := body.occurredAt)
      ensures Events(e.topic) == old(Events(e.topic)) + (if stored.Some? then [stored.value] else [])
      ensures Counter(e.topic) == old(Counter(e.topic)) + if fault.IncrFails? then 0 else 1
      ensures forall t :: t != e.topic ==> Counter(t) == old(Counter(t)) && Stream(t) == old(Stream(t))
    {
      if fault.IncrFails? { return None; }
      var seqno := Counter(e.topic) + 1;
      var stream := Stream(e.topic);
      CounterKeepsOk(counters, streams, e.topic, seqno);
      var body := Fill(e, seqno, id, now);
      EntryKeepsOk(counters, streams, e.topic, body);
      counters := counters[e.topic := seqno];
      if fault.ExecFails? { return None; }
      streams := streams[e.topic := stream + [Some(body)]];
      stored := Some(body);
      DecodedSnoc(stream, body);
    }

    /** XRANGE - +, keeping what decodes and reaches from, until limit is reached. */
    method Read(t: string, from: nat, limit: int) returns (out: seq<Event>)
      ensures out == ReadSpec(Events(t), from, limit)
    {
      var entries := Stream(t);
      out := [];
      var i := 0;
      while i < |entries|
        invariant 0 <= i <= |entries|
        invariant out == Kept(entries[..i], from)
        invariant limit > 0 ==> |out| < limit
      {
        var en := entries[i];
        KeptStep(entries, i, from);
        i := i + 1;
        if en.None? || en.value.seqno < from {
          continue;
        }
        out := out + [en.value];
        if limit > 0 && |out| >= limit {
          KeptPrefix(entries, i, from);
          return;
        }
      }
      assert entries[..i] == entries;
    }

    /** XREVRANGE + - COUNT n is newest first; the loop walks it backwards to oldest first. */
    method Latest(t: string, n: int) returns (out: seq<Event>)
      ensures out == if n <= 0 then [] else Decoded(NewestEntries(Stream(t), n))
    {
      if n <= 0 { return []; }
      var entries := RevRange(Stream(t), n);
      ghost var newest := NewestEntries(Stream(t), n);
      out := [];
      var i := |entries| - 1;
      ghost var k := 0;
      while i >= 0
        invariant k <= |newest| && i == |newest| - 1 - k && |entries| == |newest|
        invariant out == Decoded(newest[..k])
      {
        RevRangeAt(Stream(t), n, k);
        DecodedStep(newest, k);
        if entries[i].Some? {
          out := out + [entries[i].value];
        }
        i, k := i - 1, k + 1;
      }
      assert newest[..k] == newest;
    }
  }

  function NewestEntries(stream: seq<Entry>, n: nat): seq<Entry> {
    if |stream| > n then stream[|stream| - n..] else stream
  }

  /** The newest n entries, newest first. */
  function RevRange(stream: seq<Entry>, n: nat): (r: seq<Entry>)
    ensures |r| == |NewestEntries(stream, n)|
  {
    var newest := NewestEntries(stream, n);
    seq(|newest|, i requires 0 <= i < |newest| => newest[|newest| - 1 - i])
  }

  lemma RevRangeAt(stream: seq<Entry>, n: nat, k: nat)
    requires k < |NewestEntries(stream, n)|
    ensures var newest := NewestEntries(stream, n); RevRange(stream, n)[|newest| - 1 - k] == newest[k]
  {
  }

  predicate Undamaged(stream: seq<Entry>) {
    forall i :: 0 <= i < |stream| ==> stream[i].Some?
  }

  lemma {:induction false} DecodedUndamaged(stream: seq<Entry>)
    requires Undamaged(stream)
    ensures |Decoded(stream)| == |stream|
    ensures forall i :: 0 <= i < |stream| ==> Decoded(stream)[i] == stream[i].value
  {
    if stream != [] { DecodedUndamaged(stream[..|stream| - 1]); }
  }

  /** On an undamaged stream, Latest meets the store's contract. */
  lemma LatestOfUndamaged(stream: seq<Entry>, n: int)
    requires Undamaged(stream) && n > 0
    ensures Decoded(NewestEntries(stream, n)) == LatestSpec(Redis, Decoded(stream), n)
  {
    DecodedUndamaged(stream);
    DecodedUndamaged(NewestEntries(stream, n));
  }

  /** The two back ends agree on Latest exactly when asked for at least one event, or the log is empty. */
  lemma LatestAgreesIff(events: seq<Event>, n: int)
    ensures LatestSpec(Memory, events, n) == LatestSpec(Redis, events, n) <==> n > 0 || events == []
  {
  }

  // ---- both back ends over one run of appends ----

  /** The memory store's log after appends in order. */
  function MemoryLog(added: seq<Event>): (log: seq<Event>)
    ensures |log| == |added|
  {
    if added == [] then []
    else
      var log := MemoryLog(added[..|added| - 1]);
      log + [added[|added| - 1].(seqno := |log| + 1)]
  }

  datatype Ledger = Ledger(counter: nat, events: seq<Event>)

  /** The Redis counter and log after appends in order, some of which fail. */
  function RedisLog(added: seq<(Event, Fault)>): Ledger {
    if added == [] then Ledger(0, [])
    else
      var l := RedisLog(added[..|added| - 1]);
      var (e, fault) := added[|added| - 1];
      match fault
      case NoFault => Ledger(l.counter + 1, l.events + [e.(seqno := l.counter + 1)])
      case IncrFails => l
      case ExecFails => Ledger(l.counter + 1, l.events)
  }

  /** Whatever fails, sequence numbers strictly rise and stay at or below the counter. */
  lemma {:induction false} RedisRises(added: seq<(Event, Fault)>)
    ensures Increasing(RedisLog(added).events)
    ensures forall i :: 0 <= i < |RedisLog(added).events| ==>
      1 <= RedisLog(added).events[i].seqno <= RedisLog(added).counter
  {
    if added != [] { RedisRises(added[..|added| - 1]); }
  }

  function Survivors(added: seq<(Event, Fault)>): seq<Event> {
    if added == [] then []
    else Survivors(added[..|added| - 1]) + (if added[|added| - 1].1.NoFault? then [added[|added| - 1].0] else [])
  }

  /** The back ends number the stored events alike iff no append failed after its INCR before a stored one. */
  ghost predicate NoGap(added: seq<(Event, Fault)>) {
    forall i, j :: 0 <= i < j < |added| && added[i].1.ExecFails? ==> !added[j].1.NoFault?
  }

  lemma {:induction false} CounterIsDense(added: seq<(Event, Fault)>)
    requires forall i :: 0 <= i < |added| ==> !added[i].1.ExecFails?
    ensures RedisLog(added) == Ledger(|Survivors(added)|, MemoryLog(Survivors(added)))
  {
    if added != [] {
      var front := added[..|added| - 1];
      CounterIsDense(front);
      if added[|added| - 1].1.NoFault? {
        assert Survivors(added)[..|Survivors(front)|] == Survivors(front);
      } else {
        assert Survivors(added) == Survivors(front);
      }
    }
  }

  lemma {:induction false} GapShows(added: seq<(Event, Fault)>)
    ensures RedisLog(added).counter >= |RedisLog(added).events|
    ensures |RedisLog(added).events| == |Survivors(added)|
    ensures (exists i :: 0 <= i < |added| && added[i].1.ExecFails?) ==>
      RedisLog(added).counter > |RedisLog(added).events|
  {
    if added != [] {
      GapShows(added[..|added| - 1]);
      if exists i :: 0 <= i < |added| && added[i].1.ExecFails? {
        var i :| 0 <= i < |added| && added[i].1.ExecFails?;
        assert i < |added| - 1 ==> added[..|added| - 1][i].1.ExecFails?;
      }
    }
  }

  lemma SameSnoc(r: seq<Event>, m: seq<Event>, x: Event, y: Event)
    ensures r + [x] == m + [y] <==> r == m && x == y
  {
    if r + [x] == m + [y] {
      assert (r + [x])[..|r|] == r && (m + [y])[..|m|] == m;
      assert (r + [x])[|r|] == x && (m + [y])[|m|] == y;
    }
  }

  /** One more stored event: the numbering still agrees iff it agreed and nothing has gone missing. */
  lemma StoredAgrees(front: seq<(Event, Fault)>, e: Event)
    ensures var added := front + [(e, NoFault)];
      RedisLog(added).events == MemoryLog(Survivors(added)) <==>
        RedisLog(front).events == MemoryLog(Survivors(front)) && RedisLog(front).counter == |Survivors(front)|
  {
    RedisLogSnoc(front, e);
    SurvivorsSnoc(front, e);
    MemoryLogSnoc(Survivors(front), e);
    var r, m := RedisLog(front), MemoryLog(Survivors(front));
    SameSnoc(r.events, m, e.(seqno := r.counter + 1), e.(seqno := |m| + 1));
  }

  lemma RedisLogSnoc(front: seq<(Event, Fault)>, e: Event)
    ensures var r := RedisLog(front);
      RedisLog(front + [(e, NoFault)]) == Ledger(r.counter + 1, r.events + [e.(seqno := r.counter + 1)])
  {
    assert (front + [(e, NoFault)])[..|front|] == front;
  }

  lemma SurvivorsSnoc(front: seq<(Event, Fault)>, e: Event)
    ensures Survivors(front + [(e, NoFault)]) == Survivors(front) + [e]
  {
    assert (front + [(e, NoFault)])[..|front|] == front;
  }

  lemma MemoryLogSnoc(front: seq<Event>, e: Event)
    ensures MemoryLog(front + [e]) == MemoryLog(front) + [e.(seqno := |front| + 1)]
  {
    assert (front + [e])[..|front|] == front;
  }

  lemma NoGapSnoc(front: seq<(Event, Fault)>, e: Event, fault: Fault)
    ensures NoGap(front + [(e, fault)]) <==>
      NoGap(front) && (fault.NoFault? ==> forall i :: 0 <= i < |front| ==> !front[i].1.ExecFails?)
  {
    var added := front + [(e, fault)];
    if NoGap(added) {
      forall i, j | 0 <= i < j < |front| && front[i].1.ExecFails? ensures !front[j].1.NoFault? {
        assert added[i] == front[i] && added[j] == front[j];
      }
      forall i | 0 <= i < |front| && fault.NoFault? ensures !front[i].1.ExecFails? {
        assert added[i] == front[i] && added[|front|] == (e, fault);
      }
    }
  }

  /** The counter equals the number of stored events iff no append failed after its INCR. */
  lemma CounterDenseIff(added: seq<(Event, Fault)>)
    ensures RedisLog(added).counter == |Survivors(added)| <==> forall i :: 0 <= i < |added| ==> !added[i].1.ExecFails?
  {
    GapShows(added);
    if forall i :: 0 <= i < |added| ==> !added[i].1.ExecFails? { CounterIsDense(added); }
  }

  lemma {:induction false} BackendsAgreeIff(added: seq<(Event, Fault)>)
    ensures RedisLog(added).events == MemoryLog(Survivors(added)) <==> NoGap(added)
  {
    if added != [] {
      var front, last := added[..|added| - 1], added[|added| - 1];
      BackendsAgreeIff(front);
      CounterDenseIff(front);
      assert added == front + [last] && last == (last.0, last.1);
      NoGapSnoc(front, last.0, last.1);
      if last.1.NoFault? {
        StoredAgrees(front, last.0);
      } else {
        assert Survivors(added) == Survivors(front) && RedisLog(added).events == RedisLog(front).events;
      }
    }
  }

  // ---- those folds are what calls of Append leave behind ----

  /** One call of Append: the event, the identifier and clock reading it finds, and how it fares. */
  datatype Call = Call(e: Event, id: string, now: Time, fault: Fault)

  /** The events as stored, up to their numbers. */
  function Filling(calls: seq<Call>): (r: seq<(Event, Fault)>)
    ensures |r| == |calls|
  {
    seq(|calls|, i requires 0 <= i < |calls| => (Filled(calls[i].e, 0, calls[i].id, calls[i].now), calls[i].fault))
  }

  lemma FillingSnoc(calls: seq<Call>, i: nat)
    requires i < |calls|
    ensures Filling(calls[..i + 1])
         == Filling(calls[..i]) + [(Filled(calls[i].e, 0, calls[i].id, calls[i].now), calls[i].fault)]
  {
  }

  lemma RedisLogStep(front: seq<(Event, Fault)>, e: Event, fault: Fault)
    ensures var l, l' := RedisLog(front), RedisLog(front + [(e, fault)]);
      && l'.counter == l.counter + (if fault.IncrFails? then 0 else 1)
      && l'.events == l.events + (if fault.NoFault? then [e.(seqno := l.counter + 1)] else [])
  {
    assert (front + [(e, fault)])[..|front|] == front;
  }

  /** Any run of appends to a topic of the Redis store, failed ones included. */
  method AppendAll(store: Store, t: string, calls: seq<Call>)
    requires store.Valid() && store.Counter(t) == 0 && store.Events(t) == []
    requires forall i :: 0 <= i < |calls| ==> calls[i].e.topic == t
    modifies store
    ensures store.Valid() && Ledger(store.Counter(t), store.Events(t)) == RedisLog(Filling(calls))
  {
    var i := 0;
    while i < |calls|
      invariant 0 <= i <= |calls| && store.Valid()
      invariant store.Counter(t) == RedisLog(Filling(calls[..i])).counter
      invariant store.Events(t) == RedisLog(Filling(calls[..i])).events
    {
      var call := calls[i];
      var stored := store.Append(call.e, call.id, call.now, call.fault);
      FillingSnoc(calls, i);
      RedisLogStep(Filling(calls[..i]), Filled(call.e, 0, call.id, call.now), call.fault);
      i := i + 1;
    }
    assert calls[..i] == calls;
  }

  function FillingAll(calls: seq<Call>): (r: seq<Event>)
    ensures |r| == |calls|
  {
    seq(|calls|, i requires 0 <= i < |calls| => Filled(calls[i].e, 0, calls[i].id, calls[i].now))
  }

  /** The same calls on the memory store, where none can fail. */
  method AppendAllInMemory(store: MemoryStore.Store, t: string, calls: seq<Call>)
    requires store.Valid() && store.Events(t) == []
    requires forall i :: 0 <= i < |calls| ==> calls[i].e.topic == t
    modifies store
    ensures store.Valid() && store.Events(t) == MemoryLog(FillingAll(calls))
  {
    var i := 0;
    while i < |calls|
      invariant 0 <= i <= |calls| && store.Valid()
      invariant store.Events(t) == MemoryLog(FillingAll(calls[..i]))
    {
      var call := calls[i];
      var stored := store.Append(call.e, call.id, call.now);
      assert FillingAll(calls[..i + 1]) == FillingAll(calls[..i]) + [Filled(call.e, 0, call.id, call.now)];
      MemoryLogSnoc(FillingAll(calls[..i]), Filled(call.e, 0, call.id, call.now));
      i := i + 1;
    }
    assert calls[..i] == calls;
  }

  /** The calls that stored their event. */
  function Stored(calls: seq<Call>): seq<Call> {
    if calls == [] then []
    else Stored(calls[..|calls| - 1]) + (if calls[|calls| - 1].fault.NoFault? then [calls[|calls| - 1]] else [])
  }

  lemma {:induction false} SurvivorsAreStored(calls: seq<Call>)
    ensures Survivors(Filling(calls)) == FillingAll(Stored(calls))
  {
    if calls != [] {
      var n := |calls| - 1;
      SurvivorsAreStored(calls[..n]);
      FillingSnoc(calls, n);
      assert calls[..n + 1] == calls && Filling(calls)[..n] == Filling(calls[..n]);
      if calls[n].fault.NoFault? {
        assert FillingAll(Stored(calls)) == FillingAll(Stored(calls[..n])) + [Filling(calls)[n].0];
      } else {
        assert Stored(calls) == Stored(calls[..n]);
      }
    }
  }

  /**
   The same run of calls against both stores: they hold the same log iff no call that failed after
   INCR precedes one that stored its event.
   */
  method AppendBoth(redis: Store, memory: MemoryStore.Store, t: string, calls: seq<Call>)
    requires redis.Valid() && redis.Counter(t) == 0 && redis.Events(t) == []
    requires memory.Valid() && memory.Events(t) == []
    requires forall i :: 0 <= i < |calls| ==> calls[i].e.topic == t
    modifies redis, memory
    ensures Increasing(redis.Events(t))
    ensures forall e :: e in redis.Events(t) ==> 1 <= e.seqno <= redis.Counter(t)
    ensures redis.Events(t) == memory.Events(t) <==> NoGap(Filling(calls))
  {
    AppendAll(redis, t, calls);
    StoredOnTopic(calls, t);
    AppendAllInMemory(memory, t, Stored(calls));
    SurvivorsAreStored(calls);
    RedisRises(Filling(calls));
    BackendsAgreeIff(Filling(calls));
  }

  lemma {:induction false} StoredOnTopic(calls: seq<Call>, t: string)
    requires forall i :: 0 <= i < |calls| ==> calls[i].e.topic == t
    ensures forall i :: 0 <= i < |Stored(calls)| ==> Stored(calls)[i].e.topic == t
  {
    if calls != [] { StoredOnTopic(calls[..|calls| - 1], t); }
  }
}
