/** The in-process fan-out registry and its bounded, non-blocking deliveries. */
module Hubs {
  import opened Types
  import S = Subscriptions

  const BUFFER := S.BUFFER

  /** What a publisher and a consumer can see of a subscription. */
  datatype Channel = Channel(queue: seq<Event>, closed: bool, done: bool, lag: nat)

  const OPEN := Channel([], false, false, 0)

  /** One turn of the fan-out loop: a closed subscription is passed by, a full one counts a lag. */
  predicate Offered(e: Event, c: Channel, c': Channel) {
    || (c.closed && c' == c)
    || (!c.closed && |c.queue| < 256 && c' == c.(queue := c.queue + [e]))
    || (!c.closed && c.done && c' == c)
    || (!c.closed && !c.done && |c.queue| >= 256 && c' == c.(lag := c.lag + 1))
  }

  /** A subscription of the step machine, seen as a channel. */
  function ChannelOf(q: S.Sub): Channel { Channel(q.queue, q.closed, q.done, q.lag) }

  /** A turn of the loop on an open subscription is exactly one Offer of the step machine. */
  lemma OfferedIff(e: Event, q: S.Sub, c': Channel)
    requires !q.closed
    ensures Offered(e, ChannelOf(q), c') <==> exists outcome, q' :: S.Offer(outcome, e, q, q') && ChannelOf(q') == c'
  {
    if Offered(e, ChannelOf(q), c') {
      if |q.queue| < BUFFER && c'.queue == q.queue + [e] {
        assert S.Offer(S.Accept, e, q, q.(queue := q.queue + [e], offered := q.offered + [e]));
      } else if q.done {
        assert S.Offer(S.Abandon, e, q, q);
      } else {
        assert S.Offer(S.Drop, e, q, q.(lag := q.lag + 1, offered := q.offered + [e]));
      }
    }
  }

  // ---- the two-level table ----

  type Table<V> = map<string, map<nat, V>>

  predicate Has<V>(t: Table<V>, topic: string, id: nat) { topic in t && id in t[topic] }

  /** No topic keeps an empty inner map. */
  ghost predicate Tidy<V>(t: Table<V>) { forall topic :: topic in t ==> t[topic] != map[] }

  function Inserted<V>(t: Table<V>, topic: string, id: nat, v: V): Table<V> {
    t[topic := (if topic in t then t[topic] else map[])[id := v]]
  }

  function Deleted<V>(t: Table<V>, topic: string, id: nat): Table<V> {
    if topic !in t then t
    else if t[topic] - {id} == map[] then t - {topic}
    else t[topic := t[topic] - {id}]
  }

  lemma InsertedHas<V>(t: Table<V>, topic: string, id: nat, v: V)
    requires Tidy(t)
    ensures var t' := Inserted(t, topic, id, v);
      && Tidy(t') && Has(t', topic, id) && t'[topic][id] == v
      && forall u, i {:trigger Has(t', u, i)} {:trigger Has(t, u, i)} :: u != topic || i != id ==>
           (Has(t', u, i) <==> Has(t, u, i)) && (Has(t, u, i) ==> t'[u][i] == t[u][i])
  {
    assert id in Inserted(t, topic, id, v)[topic];
  }

  lemma DeletedHas<V>(t: Table<V>, topic: string, id: nat)
    requires Tidy(t)
    ensures var t' := Deleted(t, topic, id);
      && Tidy(t') && !Has(t', topic, id)
      && forall u, i {:trigger Has(t', u, i)} {:trigger Has(t, u, i)} :: u != topic || i != id ==>
           (Has(t', u, i) <==> Has(t, u, i)) && (Has(t, u, i) ==> t'[u][i] == t[u][i])
  {
    if topic in t && t[topic] - {id} == map[] {
      forall i | i in t[topic] ensures i == id {
        assert i !in t[topic] - {id};
      }
    }
  }

  /** Tables hold what was made here under its own topic and id; ids are never reused; no table is empty. */
  ghost predicate Shape(hub: Hub, topics: Table<Subscription>, made: set<Subscription>, next: nat) {
    && Tidy(topics)
    && (forall t, i {:trigger Has(topics, t, i)} :: Has(topics, t, i) ==>
          var s := topics[t][i]; s in made && s.topic == t && s.id == i)
    && (forall s {:trigger s.hub} {:trigger s.id} :: s in made ==> s.hub == hub && 1 <= s.id <= next)
    && (forall s, u {:trigger SameId(s, u)} :: s in made && u in made && SameId(s, u) ==> s == u)
  }

  predicate SameId(s: Subscription, u: Subscription) { s.id == u.id }

  ghost predicate Registered(topics: Table<Subscription>, s: Subscription) {
    Has(topics, s.topic, s.id) && topics[s.topic][s.id] == s
  }

  /** The table holds exactly the open subscriptions. */
  ghost predicate Holds(topics: Table<Subscription>, made: set<Subscription>, open: set<Subscription>) {
    && open <= made
    && forall s {:trigger Registered(topics, s)} :: s in made ==> (Registered(topics, s) <==> s in open)
  }

  lemma InsertKeepsShape(hub: Hub, topics: Table<Subscription>, made: set<Subscription>,
                         open: set<Subscription>, next: nat, s: Subscription)
    requires Shape(hub, topics, made, next) && Holds(topics, made, open)
    requires s !in made && s.hub == hub && s.id == next + 1
    ensures var topics' := Inserted(topics, s.topic, s.id, s);
      Shape(hub, topics', made + {s}, next + 1) && Holds(topics', made + {s}, open + {s})
  {
    InsertedHas(topics, s.topic, s.id, s);
    var topics' := Inserted(topics, s.topic, s.id, s);
    forall u | u in made ensures Registered(topics', u) <==> u in open {
      assert u.id != s.id && Registered(topics, u) <==> u in open;
    }
  }

  lemma DeleteKeepsShape(hub: Hub, topics: Table<Subscription>, made: set<Subscription>,
                         open: set<Subscription>, next: nat, s: Subscription)
    requires Shape(hub, topics, made, next) && Holds(topics, made, open) && s in made
    ensures var topics' := Deleted(topics, s.topic, s.id);
      Shape(hub, topics', made, next) && Holds(topics', made, open - {s})
  {
    DeletedHas(topics, s.topic, s.id);
    var topics' := Deleted(topics, s.topic, s.id);
    forall u | u in made ensures Registered(topics', u) <==> u in open - {s} {
      assert SameId(s, u) <==> u == s;
      assert Registered(topics, u) <==> u in open;
    }
  }

  class Subscription {
    const topic: string
    const hub: Hub
    const id: nat
    var queue: seq<Event>
    var closed: bool
    var done: bool
    var lag: nat

    constructor (topic: string, hub: Hub, id: nat)
      ensures this.topic == topic && this.hub == hub && this.id == id
      ensures View() == OPEN
    {
      this.topic, this.hub, this.id := topic, hub, id;
      queue, closed, done, lag := [], false, false, 0;
    }

    function View(): Channel
      reads this
    {
      Channel(queue, closed, done, lag)
    }

    /** Closing again changes nothing. */
    method Close()
      requires this in hub.made && hub.Valid()
      modifies this`closed, this`done, hub`topics, hub`open
      ensures hub.Valid() && hub.open == old(hub.open) - {this}
      ensures closed && done
      ensures old(closed) ==> hub.topics == old(hub.topics)
    {
      if closed { return; }
      closed := true;
      DeleteKeepsShape(hub, hub.topics, hub.made, hub.open, hub.next, this);
      hub.Remove(topic, id);
      done := true;
      hub.open := hub.open - {this};
    }
  }

  class Hub {
    var next: nat
    var topics: map<string, map<nat, Subscription>>
    ghost var made: set<Subscription>   // every subscription this hub has handed out
    ghost var open: set<Subscription>   // those not closed since

    /** Between calls the hub holds exactly the open subscriptions. */
    ghost predicate Valid()
      reads this, made
    {
      && Shape(this, topics, made, next) && Holds(topics, made, open)
      && (forall s {:trigger s.closed} {:trigger s.done} :: s in made ==> s.closed == s.done == (s !in open))
    }

    constructor ()
      ensures Valid() && made == open == {}
    {
      next, topics, made, open := 0, map[], {}, {};
    }

    method Subscribe(topic: string) returns (sub: Subscription)
      requires Valid()
      modifies this
      ensures Valid() && fresh(sub) && made == old(made) + {sub} && open == old(open) + {sub}
      ensures sub.topic == topic && sub.hub == this && sub.id == next == old(next) + 1 && sub.View() == OPEN
    {
      next := next + 1;
      sub := new Subscription(topic, this, next);
      InsertKeepsShape(this, topics, made, open, next - 1, sub);
      var subs: map<nat, Subscription> := if topic in topics then topics[topic] else map[];
      subs := subs[sub.id := sub];
      topics := topics[topic := subs];
      made, open := made + {sub}, open + {sub};
    }

    method Remove(topic: string, id: nat)
      modifies this`topics
      ensures topics == Deleted(old(topics), topic, id)
    {
      if topic !in topics { return; }
      var subs: map<nat, Subscription> := topics[topic] - {id};
      if subs == map[] {
        topics := topics - {topic};
      } else {
        topics := topics[topic := subs];
      }
    }

    /** The subscriptions registered for a topic. */
    ghost function Listed(topic: string): set<Subscription>
      reads this
    {
      if topic in topics then topics[topic].Values else {}
    }

    lemma ListedAreRegistered(topic: string)
      requires Shape(this, topics, made, next)
      ensures Listed(topic) == set s | s in made && Registered(topics, s) && s.topic == topic
    {
      if topic in topics {
        forall s | s in Listed(topic) ensures s in made && Registered(topics, s) && s.topic == topic {
          var i :| i in topics[topic] && topics[topic][i] == s;
          assert Has(topics, topic, i);
        }
      }
    }

    /** Every subscription registered for the topic gets one turn; the rest are untouched. */
    method Publish(e: Event)
      requires Shape(this, topics, made, next)
      modifies Listed(e.topic)
      ensures forall s :: s in Listed(e.topic) ==> Offered(e, old(s.View()), s.View())
      ensures old(Valid()) ==> Valid()
    {
      ListedAreRegistered(e.topic);
      var list := if e.topic in topics then topics[e.topic].Values else {};
      FanOut(list, e);
    }
  }

  /** The loop over the snapshot, in whatever order the map gives. */
  method FanOut(list: set<Subscription>, e: Event)
    modifies list
    ensures forall s :: s in list ==> Offered(e, old(s.View()), s.View())
    ensures forall s :: s in list ==> s.closed == old(s.closed) && s.done == old(s.done)
    ensures forall s :: s in list && !s.closed && !s.done && old(|s.queue|) < 256 ==>
      s.queue == old(s.queue) + [e] && s.lag == old(s.lag)
    ensures forall s :: s in list && !s.closed && !s.done && old(|s.queue|) >= 256 ==>
      s.queue == old(s.queue) && s.lag == old(s.lag) + 1
  {
    var todo := list;
    while todo != {}
      invariant todo <= list
      invariant forall s :: s in list - todo ==> Offered(e, old(s.View()), s.View())
      invariant forall s :: s in todo ==> s.View() == old(s.View())
      decreases todo
    {
      var s :| s in todo;
      if !s.closed {
        if
        case |s.queue| < BUFFER => s.queue := s.queue + [e];
        case s.done =>
        case |s.queue| >= BUFFER && !s.done => s.lag := s.lag + 1;
      }
      todo := todo - {s};
    }
  }
}
