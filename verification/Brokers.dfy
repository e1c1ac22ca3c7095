/** The ingest path and the subscription gauge, over the in-memory store. */
module Brokers {
  import opened Types
  import opened Topics
  import opened Log
  import opened Registry
  import opened Hubs
  import MemoryStore

  datatype Result<+T> = Ok(value: T) | Err(why: string)

  /** The subscriptions of one object type. */
  ghost function OfType(open: set<Subscription>, ot: string): set<Subscription> {
    set s | s in open && ParseObjectType(s.topic) == Some(ot)
  }

  ghost predicate GaugeCounts(gauge: map<string, int>, open: set<Subscription>) {
    forall ot {:trigger OfType(open, ot)} :: Count(gauge, ot) == |OfType(open, ot)|
  }

  function Count(gauge: map<string, int>, ot: string): int { if ot in gauge then gauge[ot] else 0 }

  lemma GaugeUp(gauge: map<string, int>, open: set<Subscription>, s: Subscription, ot: string)
    requires GaugeCounts(gauge, open) && s !in open && ParseObjectType(s.topic) == Some(ot)
    ensures GaugeCounts(gauge[ot := Count(gauge, ot) + 1], open + {s})
  {
    forall u ensures Count(gauge[ot := Count(gauge, ot) + 1], u) == |OfType(open + {s}, u)| {
      if u == ot {
        assert OfType(open + {s}, u) == OfType(open, u) + {s};
      } else {
        assert OfType(open + {s}, u) == OfType(open, u);
      }
    }
  }

  lemma GaugeDown(gauge: map<string, int>, open: set<Subscription>, s: Subscription, ot: string)
    requires GaugeCounts(gauge, open) && s in open && ParseObjectType(s.topic) == Some(ot)
    ensures GaugeCounts(gauge[ot := Count(gauge, ot) - 1], open - {s})
  {
    forall u ensures Count(gauge[ot := Count(gauge, ot) - 1], u) == |OfType(open - {s}, u)| {
      if u == ot {
        assert OfType(open - {s}, u) == OfType(open, u) - {s};
      } else {
        assert OfType(open - {s}, u) == OfType(open, u);
      }
    }
  }

  /** Saving an outcome only when it is good and non-empty saves exactly what Apply returned. */
  lemma Kept(reducers: Reducers, prev: Option<State>, e: Event)
    ensures var r := Apply(reducers, prev, e); r.next == if r.ok && r.next.Some? then r.next else prev
  {
  }

  /** The topic's record names its object type and its TTL, where these are given. */
  ghost predicate Typed(topics: map<string, MemoryStore.Entry>, t: string, objectType: string, ttl: int) {
    && t in topics
    && (objectType != "" ==> topics[t].meta.objectType == objectType)
    && (ttl != 0 ==> topics[t].meta.ttl == ttl)
  }

  /** And the number and the time of its newest event. */
  ghost predicate Dated(topics: map<string, MemoryStore.Entry>, t: string, seqno: nat, time: Time) {
    t in topics && topics[t].meta.lastSeq == seqno && topics[t].meta.lastEventAt == time
  }

  class Broker {
    const store: MemoryStore.Store
    const hub: Hub
    const reducers: Reducers
    const ttl: int
    var gauge: map<string, int>

    /** Every topic's stored state is the fold of its stored events. */
    ghost predicate StateOk()
      reads store
    {
      forall t {:trigger store.StateOf(t)} :: store.StateOf(t) == Fold(reducers, store.Events(t))
    }

    ghost predicate Valid()
      reads this, store, hub, hub.made
    {
      && store.Valid() && hub.Valid() && StateOk()
      && (forall s {:trigger ValidTopic(s.topic)} :: s in hub.made ==> ValidTopic(s.topic))
      && GaugeCounts(gauge, hub.open)
    }

    constructor (reducers: Reducers, ttl: int)
      ensures Valid() && hub.open == {} && store.topics == map[] && fresh(store) && fresh(hub)
    {
      store := new MemoryStore.Store();
      hub := new Hub();
      this.reducers, this.ttl, gauge := reducers, ttl, map[];
    }

    /** What Publish stores: the event numbered next and with its unset fields filled. */
    function Stamped(e: Event, id: string, now: Time): Event
      reads store
    {
      Filled(e, |store.Events(e.topic)| + 1, id, now)
    }

    /** The reducer's outcome is saved unless it failed or is empty; the topic's record is touched either way. */
    method Save(topic: string, r: Applied, objectType: string, now: Time)
      requires store.Valid()
      modifies store
      ensures store.Valid()
      ensures forall t :: store.Events(t) == old(store.Events(t))
      ensures forall t :: t != topic ==> store.StateOf(t) == old(store.StateOf(t))
      ensures store.StateOf(topic) == if r.ok && r.next.Some? then r.next else old(store.StateOf(topic))
      ensures Typed(store.topics, topic, objectType, ttl)
      ensures forall n, time :: old(Dated(store.topics, topic, n, time)) ==> Dated(store.topics, topic, n, time)
    {
      if r.ok && r.next.Some? {
        store.SetState(topic, r.next.value, now);
      }
      store.UpsertMeta(topic, objectType, ttl, now);
    }

    /** Reduce and save, for an event just appended to a log whose state was its fold. */
    method Reduce(stored: Event, ghost before: seq<Event>, objectType: string, now: Time) returns (next: Option<State>)
      requires store.Valid() && store.Events(stored.topic) == before + [stored]
      requires store.StateOf(stored.topic) == Fold(reducers, before)
      modifies store
      ensures store.Valid() && forall t :: store.Events(t) == old(store.Events(t))
      ensures forall t :: t != stored.topic ==> store.StateOf(t) == old(store.StateOf(t))
      ensures store.StateOf(stored.topic) == next == Fold(reducers, before + [stored])
      ensures Typed(store.topics, stored.topic, objectType, ttl)
      ensures forall n, time :: old(Dated(store.topics, stored.topic, n, time)) ==>
        Dated(store.topics, stored.topic, n, time)
    {
      var prev := store.GetState(stored.topic);
      var r := Apply(reducers, prev, stored);
      FoldSnoc(reducers, before, stored);
      Kept(reducers, prev, stored);
      Save(stored.topic, r, objectType, now);
      next := r.next;
    }

    /** Append, reduce, save. The copy to fan out carries the fold of the whole log, itself included. */
    method Ingest(e: Event, id: string, now: Time, objectType: string) returns (fanout: Event)
      requires store.Valid() && StateOk()
      modifies store
      ensures store.Valid() && StateOk()
      ensures store.Events(e.topic) == old(store.Events(e.topic)) + [old(Stamped(e, id, now))]
      ensures fanout == old(Stamped(e, id, now)).(state := Fold(reducers, store.Events(e.topic)))
      ensures fanout.seqno == |store.Events(e.topic)|
      ensures fanout.id == if e.id != "" then e.id else id
      ensures fanout.occurredAt == if e.occurredAt != 0 then e.occurredAt else now
      ensures fanout.topic == e.topic && fanout.kind == e.kind && fanout.actor == e.actor && fanout.payload == e.payload
      ensures Typed(store.topics, e.topic, objectType, ttl)
      ensures Dated(store.topics, e.topic, fanout.seqno, fanout.occurredAt)
      ensures forall t :: t != e.topic ==> store.Events(t) == old(store.Events(t))
    {
      ghost var before := store.Events(e.topic);
      var stored := store.Append(e, id, now);
      var next := Reduce(stored, before, objectType, now);
      fanout := stored.(state := next);
    }

    /** A rejected event leaves no trace; an accepted one is stored, folded and offered to every subscriber. */
    method Publish(e: Event, id: string, now: Time) returns (r: Result<nat>)
      requires Valid()
      modifies store, hub.Listed(e.topic)
      ensures Valid()
      ensures r.Ok? <==> ValidTopic(e.topic) && e.kind != ""
      ensures r.Err? ==> store.topics == old(store.topics)
      ensures r.Err? ==> forall s :: s in hub.Listed(e.topic) ==> s.View() == old(s.View())
      ensures r.Ok? ==> store.Events(e.topic) == old(store.Events(e.topic)) + [old(Stamped(e, id, now))]
      ensures r.Ok? ==> r.value == |store.Events(e.topic)| > 0
      ensures r.Ok? ==> var stored := store.Events(e.topic)[r.value - 1];
        && stored.seqno == r.value
        && stored.id == (if e.id != "" then e.id else id)
        && stored.occurredAt == (if e.occurredAt != 0 then e.occurredAt else now)
        && stored.topic == e.topic && stored.kind == e.kind && stored.actor == e.actor && stored.payload == e.payload
        && Dated(store.topics, e.topic, r.value, stored.occurredAt)
      ensures r.Ok? ==> Typed(store.topics, e.topic, Split(e.topic)[0], ttl)
      ensures forall t :: t != e.topic ==> store.Events(t) == old(store.Events(t))
      ensures r.Ok? ==> forall s :: s in hub.Listed(e.topic) ==>
        Offered(old(Stamped(e, id, now)).(state := Fold(reducers, store.Events(e.topic))), old(s.View()), s.View())
    {
      if !ValidTopic(e.topic) { return Err("invalid topic"); }
      if e.kind == "" { return Err("event type required"); }
      ValidTopicHasObjectType(e.topic);
      var ot := ParseObjectType(e.topic);
      var fanout := Ingest(e, id, now, ot.value);
      hub.Publish(fanout);
      r := Ok(fanout.seqno);
    }

    method Seed(topic: string, from: From) returns (backfill: seq<Event>, fence: nat)
      requires store.Valid()
      ensures backfill == Backfill(Memory, store.Events(topic), from) && fence == Fence(backfill)
    {
      backfill, fence := [], 0;
      match from {
        case FromLatest =>
        case FromLastN(n) => backfill := store.Latest(topic, AsInt(n));
        case FromSeq(v) => backfill := store.Read(topic, v, 0);
      }
      if |backfill| > 0 {
        fence := backfill[|backfill| - 1].seqno;
      }
    }

    method CountUp(s: Subscription, ot: string)
      requires s in hub.open && GaugeCounts(gauge, hub.open - {s}) && ParseObjectType(s.topic) == Some(ot)
      modifies this`gauge
      ensures GaugeCounts(gauge, hub.open)
    {
      GaugeUp(gauge, hub.open - {s}, s, ot);
      gauge := gauge[ot := Count(gauge, ot) + 1];
      assert hub.open == hub.open - {s} + {s};
    }

    /**
     Register first, then read. readFails is the store's answer, which FromLatest never asks for.
     A failed read leaves nothing open.
     */
    method Subscribe(topic: string, from: From, readFails: bool)
      returns (sub: Option<Subscription>, backfill: seq<Event>, fence: nat)
      requires Valid()
      modifies this`gauge, hub
      ensures Valid()
      ensures sub.Some? <==> ValidTopic(topic) && (from.FromLatest? || !readFails)
      ensures fresh(hub.made - old(hub.made)) && old(hub.made) <= hub.made
      ensures sub.Some? ==> fresh(sub.value) && sub.value.topic == topic && sub.value.View() == OPEN
      ensures hub.open == old(hub.open) + (if sub.Some? then {sub.value} else {})
      ensures sub.Some? ==> backfill == Backfill(Memory, store.Events(topic), from) && fence == Fence(backfill)
      ensures sub.None? ==> backfill == [] && fence == 0
    {
      sub, backfill, fence := None, [], 0;
      if !ValidTopic(topic) { return; }
      ValidTopicHasObjectType(topic);
      var ot := ParseObjectType(topic);
      var s := hub.Subscribe(topic);
      assert hub.open - {s} == old(hub.open);
      if !from.FromLatest? && readFails {
        s.Close();
        return;
      }
      backfill, fence := Seed(topic, from);
      CountUp(s, ot.value);
      sub := Some(s);
    }

    /** Each subscription that Subscribe returned is given back once, while still open. */
    method Unsubscribe(sub: Subscription)
      requires Valid() && sub in hub.open
      modifies this`gauge, hub`topics, hub`open, sub`closed, sub`done
      ensures Valid()
      ensures hub.open == old(hub.open) - {sub}
    {
      ValidTopicHasObjectType(sub.topic);
      var ot := ParseObjectType(sub.topic);
      if ot.Some? {
        GaugeDown(gauge, hub.open, sub, ot.value);
        gauge := gauge[ot.value := Count(gauge, ot.value) - 1];
      }
      sub.Close();
    }
  }
}
