/** The in-memory store: one entry a topic, searched by bisection. */
module MemoryStore {
  import opened Types
  import opened Topics
  import opened Log

  datatype Meta = Meta(objectType: string, ttl: int, createdAt: Time, lastEventAt: Time, lastSeq: nat)

  datatype Entry = Entry(events: seq<Event>, state: Option<State>, meta: Meta)

  /** Event number i of a topic carries sequence number i + 1. */
  ghost predicate Numbered(events: seq<Event>) {
    forall i :: 0 <= i < |events| ==> events[i].seqno == i + 1
  }

  ghost predicate EntryOk(td: Entry) { Numbered(td.events) && td.meta.lastSeq == |td.events| }

  /** The topic's record after an append: the newest number and time. */
  ghost predicate Recorded(meta: Meta, stored: Event) {
    meta.lastSeq == stored.seqno && meta.lastEventAt == stored.occurredAt
  }

  /** What an append leaves of the record; a missing object type is the only thing it fills. */
  ghost predicate Carried(was: Meta, meta: Meta) {
    && meta.ttl == was.ttl && meta.createdAt == was.createdAt
    && (was.objectType != "" ==> meta.objectType == was.objectType)
  }

  /** Every other topic's entry is as it was. */
  ghost predicate Elsewhere(before: map<string, Entry>, after: map<string, Entry>, t: string) {
    forall u :: u != t ==> (u in after <==> u in before) && (u in after ==> after[u] == before[u])
  }

  class Store {
    var topics: map<string, Entry>

    /** What the stored topics have in common between calls. */
    ghost predicate Valid()
      reads this
    {
      forall t :: t in topics ==> EntryOk(topics[t])
    }

    function Events(t: string): seq<Event>
      reads this
    {
      if t in topics then topics[t].events else []
    }

    function StateOf(t: string): Option<State>
      reads this
    {
      if t in topics then topics[t].state else None
    }

    constructor ()
      ensures Valid() && topics == map[]
    {
      topics := map[];
    }

    /** The entry of a topic, created on first use. */
    method Get(t: string, now: Time)
      modifies this
      ensures topics == if t in old(topics) then old(topics)
                        else old(topics)[t := Entry([], None, Meta("", 0, now, 0, 0))]
    {
      if t !in topics {
        topics := topics[t := Entry([], None, Meta("", 0, now, 0, 0))];
      }
    }

    /** Append numbers the event, fills what the caller left unset, and stores it last. */
    method Append(e: Event, id: string, now: Time) returns (stored: Event)
      requires Valid()
      modifies this
      ensures Valid()
      ensures stored == Filled(e, |old(Events(e.topic))| + 1, id, now)
      ensures stored.seqno == |old(Events(e.topic))| + 1
      ensures stored.id == if e.id != "" then e.id else id
      ensures stored.occurredAt == if e.occurredAt != 0 then e.occurredAt else now
      ensures stored == e.(seqno := stored.seqno, id := stored.id, occurredAt := stored.occurredAt)
      ensures e.topic in topics && Recorded(topics[e.topic].meta, stored)
      ensures e.topic in old(topics) ==> Carried(old(topics)[e.topic].meta, topics[e.topic].meta)
      ensures Events(e.topic) == old(Events(e.topic)) + [stored]
      ensures StateOf(e.topic) == old(StateOf(e.topic))
      ensures Elsewhere(old(topics), topics, e.topic)
      ensures forall t :: t != e.topic ==> Events(t) == old(Events(t)) && StateOf(t) == old(StateOf(t))
    {
      Get(e.topic, now);
      var td := topics[e.topic];
      var seqno := |td.events| + 1;
      stored := Fill(e, seqno, id, now);
      td := td.(events := td.events + [stored]);
      td := td.(meta := td.meta.(lastEventAt := stored.occurredAt, lastSeq := seqno));
      if td.meta.objectType == "" {
        var ot := ParseObjectType(e.topic);
        if ot.Some? { td := td.(meta := td.meta.(objectType := ot.value)); }
      }
      assert EntryOk(td);
      topics := topics[e.topic := td];
    }

    /** sort.Search: the least index whose event reaches from, by bisection. */
    method Search(events: seq<Event>, from: nat) returns (i: nat)
      requires Increasing(events)
      ensures i == LowerBound(events, from)
    {
      var lo, hi := 0, |events|;
      while lo < hi
        invariant 0 <= lo <= hi <= |events|
        invariant forall k :: 0 <= k < lo ==> events[k].seqno < from
        invariant forall k :: hi <= k < |events| ==> events[k].seqno >= from
      {
        var mid := lo + (hi - lo) / 2;
        if !(events[mid].seqno >= from) {
          lo := mid + 1;
        } else {
          hi := mid;
        }
      }
      i := lo;
      LowerBoundUnique(events, from, i);
    }

    /** Read returns the events at or above from, oldest first, at most limit of them. */
    method Read(t: string, from: nat, limit: int) returns (out: seq<Event>)
      requires Valid()
      ensures out == ReadSpec(Events(t), from, limit)
    {
      if t !in topics { return []; }
      var events := topics[t].events;
      var i := Search(events, from);
      AtLeastCut(events, from);
      out := events[i..];
      if limit > 0 && |out| > limit {
        out := out[..limit];
      }
    }

    method Latest(t: string, n: int) returns (out: seq<Event>)
      ensures out == LatestSpec(Memory, Events(t), n)
    {
      if t !in topics { return []; }
      var events := topics[t].events;
      var start := 0;
      if n > 0 && |events| > n {
        start := |events| - n;
      }
      out := events[start..];
    }

    method GetState(t: string) returns (state: Option<State>)
      ensures state == StateOf(t)
    {
      if t !in topics { return None; }
      state := topics[t].state;
    }

    method SetState(t: string, state: State, now: Time)
      requires Valid()
      modifies this
      ensures Valid()
      ensures StateOf(t) == Some(state) && Events(t) == old(Events(t))
      ensures t in topics && (t in old(topics) ==> topics[t].meta == old(topics)[t].meta)
      ensures Elsewhere(old(topics), topics, t)
      ensures forall u :: u != t ==> Events(u) == old(Events(u)) && StateOf(u) == old(StateOf(u))
    {
      Get(t, now);
      topics := topics[t := topics[t].(state := Some(state))];
    }

    /** Object type and TTL are taken when given; what Append recorded stays. */
    method UpsertMeta(t: string, objectType: string, ttl: int, now: Time)
      requires Valid()
      modifies this
      ensures Valid()
      ensures t in topics && Events(t) == old(Events(t)) && StateOf(t) == old(StateOf(t))
      ensures t in old(topics) ==> topics[t].meta.lastSeq == old(topics)[t].meta.lastSeq
      ensures t in old(topics) ==> topics[t].meta.lastEventAt == old(topics)[t].meta.lastEventAt
      ensures objectType != "" ==> topics[t].meta.objectType == objectType
      ensures ttl != 0 ==> topics[t].meta.ttl == ttl
      ensures t in old(topics) && objectType == "" ==> topics[t].meta.objectType == old(topics)[t].meta.objectType
      ensures t in old(topics) && ttl == 0 ==> topics[t].meta.ttl == old(topics)[t].meta.ttl
      ensures t in old(topics) && old(topics)[t].meta.createdAt != 0 ==>
        topics[t].meta.createdAt == old(topics)[t].meta.createdAt
      ensures Elsewhere(old(topics), topics, t)
      ensures forall u :: u != t ==> Events(u) == old(Events(u)) && StateOf(u) == old(StateOf(u))
    {
      Get(t, now);
      var m := topics[t].meta;
      if m.createdAt == 0 { m := m.(createdAt := now); }
      if objectType != "" { m := m.(objectType := objectType); }
      if ttl != 0 { m := m.(ttl := ttl); }
      topics := topics[t := topics[t].(meta := m)];
    }
  }
}
