/** The Go client's subscriptions: callbacks on one topic share a single upstream subscription. */
module GoClient {
  import opened Types
  import opened Topics
  import opened CallbackTable
  import opened WireFrom

  /** What the send channel holds; a Request is a publish or a get_state. */
  datatype OutFrame = Subscribe(topic: string, seed: Seed) | Unsubscribe(topic: string) | Request

  /** The send channel's capacity. */
  const CHANNEL := 256

  /** The frame that resumes a topic after a reconnect. */
  function Resubscribe(topic: string, e: Entry): OutFrame {
    OutFrame.Subscribe(topic, SubscribeSeed(e.from, ResumePoint(e.lastSeen)))
  }

  class Client {
    var topics: Table
    var nextID: nat
    var sent: seq<OutFrame>   // what has been put on the send channel

    constructor ()
      ensures topics == map[] && nextID == 0 && sent == []
    {
      topics, nextID, sent := map[], 0, [];
    }

    /** Register a callback; only a topic's first one opens the upstream subscription. */
    method Subscribe(topic: string, from: From) returns (id: Option<nat>)
      modifies this
      ensures id.None? <==> !ValidTopic(topic)
      ensures id.None? ==> topics == old(topics) && nextID == old(nextID) && sent == old(sent)
      ensures id.Some? ==> id.value == nextID == old(nextID) + 1 && topics == Added(old(topics), topic, from, nextID)
      ensures id.Some? && topic in old(topics) ==> sent == old(sent)
      ensures id.Some? && topic !in old(topics) ==>
        sent == old(sent) + [OutFrame.Subscribe(topic, SubscribeSeed(from, 0))]
      ensures Session(topics, nextID, sent) == Do(old(Session(topics, nextID, sent)), Open(topic, from))
    {
      if !ValidTopic(topic) { return None; }
      nextID := nextID + 1;
      var firstCB := topic !in topics;
      if firstCB {
        topics := topics[topic := Entry(from, {}, 0)];
      }
      topics := topics[topic := topics[topic].(callbacks := topics[topic].callbacks + {nextID})];
      if firstCB {
        var seed := SubscribeFrame(from, 0);
        sent := sent + [OutFrame.Subscribe(topic, seed)];
      }
      id := Some(nextID);
    }

    /** Handle.Close: the last callback of a topic closes the upstream subscription. */
    method RemoveCallback(topic: string, id: nat)
      modifies this
      ensures nextID == old(nextID)
      ensures topics == Removed(old(topics), topic, id)
      ensures sent == old(sent) + (if IsLast(old(topics), topic, id) then [Unsubscribe(topic)] else [])
      ensures Session(topics, nextID, sent) == Do(old(Session(topics, nextID, sent)), Close(topic, id))
    {
      if topic !in topics { return; }
      topics := topics[topic := topics[topic].(callbacks := topics[topic].callbacks - {id})];
      var last := topics[topic].callbacks == {};
      if last {
        topics := topics - {topic};
        sent := sent + [Unsubscribe(topic)];
      }
    }

    /** An event frame: advance the mark and return the callbacks to run. */
    method Dispatch(topic: string, seqno: uint64) returns (run: set<nat>)
      modifies this
      ensures topics == Marked(old(topics), topic, seqno)
      ensures run == if topic in topics then topics[topic].callbacks else {}
      ensures nextID == old(nextID) && sent == old(sent)
      ensures Session(topics, nextID, sent) == Do(old(Session(topics, nextID, sent)), Op.Event(topic, seqno))
    {
      run := {};
      if topic in topics {
        if seqno > topics[topic].lastSeen {
          topics := topics[topic := topics[topic].(lastSeen := seqno)];
        }
        run := topics[topic].callbacks;
      }
    }

    /**
     After a reconnect: one subscribe per topic, each from just after the last event it saw. No writer
     is running yet, so with queued frames still in the channel the loop gets through iff all fit;
     otherwise it stops for good at the frame that finds the channel full.
     */
    method ResubscribeAll(queued: nat) returns (ghost order: seq<string>, finished: bool)
      requires queued <= CHANNEL
      modifies this`sent
      ensures finished <==> queued + |topics| <= 256
      ensures |order| == if finished then |topics| else 256 - queued
      ensures (forall t :: t in order ==> t in topics) && (finished ==> forall t :: t in topics ==> t in order)
      ensures forall i, j :: 0 <= i < j < |order| ==> order[i] != order[j]
      ensures |sent| == |old(sent)| + |order| && old(sent) <= sent
      ensures forall i :: 0 <= i < |order| ==>
        sent[|old(sent)| + i] == Resubscribe(order[i], topics[order[i]])
    {
      order, finished := [], true;
      var left := topics.Keys;
      var room := CHANNEL - queued;
      assert |left| == |topics|;
      while left != {}
        invariant left <= topics.Keys
        invariant forall t :: t in order <==> t in topics.Keys - left
        invariant forall i, j :: 0 <= i < j < |order| ==> order[i] != order[j]
        invariant |order| + |left| == |topics| && room + |order| == CHANNEL - queued && room >= 0
        invariant |sent| == |old(sent)| + |order| && old(sent) <= sent
        invariant forall i :: 0 <= i < |order| ==> order[i] in topics
        invariant forall i :: 0 <= i < |order| ==>
          sent[|old(sent)| + i] == Resubscribe(order[i], topics[order[i]])
        decreases left
      {
        if room == 0 {
          finished := false;
          return;
        }
        room := room - 1;
        var topic :| topic in left;
        var resume := 0;
        if topics[topic].lastSeen > 0 { resume := (topics[topic].lastSeen + 1) % TWO64; }
        var seed := SubscribeFrame(topics[topic].from, resume);
        sent := sent + [OutFrame.Subscribe(topic, seed)];
        assert topic !in order;
        order := order + [topic];
        left := left - {topic};
      }
    }
  }

  // ---- the refcount protocol ----

  datatype Session = Session(topics: Table, nextID: nat, sent: seq<OutFrame>)

  function Do(s: Session, op: Op): Session {
    match op
    case Open(topic, from) =>
      if !ValidTopic(topic) then s
      else Session(Added(s.topics, topic, from, s.nextID + 1), s.nextID + 1,
                   s.sent + if topic in s.topics then [] else [OutFrame.Subscribe(topic, SubscribeSeed(from, 0))])
    case Close(topic, id) =>
      Session(Removed(s.topics, topic, id), s.nextID,
              s.sent + if IsLast(s.topics, topic, id) then [Unsubscribe(topic)] else [])
    case Event(topic, seqno) => s.(topics := Marked(s.topics, topic, seqno))
  }

  function DoAll(ops: seq<Op>): Session {
    if ops == [] then Session(map[], 0, []) else Do(DoAll(ops[..|ops| - 1]), ops[|ops| - 1])
  }

  lemma {:induction false} DoAllTurns(ops: seq<Op>)
    ensures Turns(ops, ValidTopic) == Book(DoAll(ops).topics, DoAll(ops).nextID)
  {
    if ops != [] { DoAllTurns(ops[..|ops| - 1]); }
  }

  /** An event on t runs exactly the callbacks of the handles open on t. */
  lemma CallbacksAreHeld(ops: seq<Op>, t: string, id: nat)
    ensures t in DoAll(ops).topics && id in DoAll(ops).topics[t].callbacks <==> Held(ops, ValidTopic, t, id)
    ensures DoAll(ops).nextID == Admitted(ops, ValidTopic)
  {
    DoAllTurns(ops);
    HeldIff(ops, ValidTopic, t, id);
    TurnsCount(ops, ValidTopic);
  }

  /**
   A subscribe goes out exactly with the first handle opened on a valid topic, an unsubscribe exactly
   when the last open one is closed, and nothing otherwise.
   */
  lemma FramesWithFirstAndLast(ops: seq<Op>, op: Op)
    ensures DoAll(ops + [op]).sent == DoAll(ops).sent +
      if op.Open? && ValidTopic(op.topic) && !SomeHeld(ops, ValidTopic, op.topic) then
        [OutFrame.Subscribe(op.topic, SubscribeSeed(op.from, 0))]
      else if op.Close? && Held(ops, ValidTopic, op.topic, op.id) && !SomeHeld(ops + [op], ValidTopic, op.topic) then
        [Unsubscribe(op.topic)]
      else []
  {
    assert (ops + [op])[..|ops|] == ops;
    DoAllTurns(ops);
    EnteredIff(ops, ValidTopic, op.topic);
    if op.Close? { ClosesLastIff(ops, ValidTopic, op.topic, op.id); }
  }

  /** The entry keeps the seed of the open that entered the topic, and the highest number seen since. */
  lemma EntryKept(ops: seq<Op>, t: string) returns (i: nat)
    requires t in DoAll(ops).topics
    ensures EnteredAt(ops, ValidTopic, t, i)
    ensures DoAll(ops).topics[t].from == ops[i].from
    ensures DoAll(ops).topics[t].lastSeen == HighestSeen(ops[i..], t)
  {
    DoAllTurns(ops);
    i := EntryOf(ops, ValidTopic, t);
  }

  /** The frames of one topic: true for subscribe, false for unsubscribe. */
  function OnTopic(sent: seq<OutFrame>, topic: string): seq<bool> {
    if sent == [] then []
    else
      var f := sent[|sent| - 1];
      OnTopic(sent[..|sent| - 1], topic) + (if !f.Request? && f.topic == topic then [f.Subscribe?] else [])
  }

  lemma OnTopicSnoc(sent: seq<OutFrame>, f: OutFrame, topic: string)
    ensures OnTopic(sent + [f], topic)
         == OnTopic(sent, topic) + (if !f.Request? && f.topic == topic then [f.Subscribe?] else [])
  {
    assert (sent + [f])[..|sent|] == sent;
  }

  /** Subscribe, unsubscribe, subscribe, ... */
  ghost predicate Alternates(fs: seq<bool>) {
    forall i :: 0 <= i < |fs| ==> (fs[i] <==> i % 2 == 0)
  }

  /** A topic's frames alternate, and its entry exists exactly while the last one is a subscribe. */
  ghost predicate TopicOk(s: Session, t: string) {
    var fs := OnTopic(s.sent, t);
    Alternates(fs) && (t in s.topics <==> |fs| % 2 == 1)
  }

  ghost predicate SessionOk(s: Session) {
    && TableOk(s.topics)
    && (forall t: string {:trigger TopicOk(s, t)} :: TopicOk(s, t))
    && (forall t :: t in s.topics ==> forall id :: id in s.topics[t].callbacks ==> id <= s.nextID)
  }

  lemma OpenKeepsTopic(s: Session, topic: string, from: From, t: string)
    requires TopicOk(s, t)
    ensures TopicOk(Do(s, Open(topic, from)), t)
  {
    OnTopicSnoc(s.sent, OutFrame.Subscribe(topic, SubscribeSeed(from, 0)), t);
    assert s.sent + [] == s.sent;
  }

  lemma CloseKeepsTopic(s: Session, topic: string, id: nat, t: string)
    requires TopicOk(s, t)
    ensures TopicOk(Do(s, Close(topic, id)), t)
  {
    RemovedKeys(s.topics, topic, id);
    OnTopicSnoc(s.sent, Unsubscribe(topic), t);
    assert s.sent + [] == s.sent;
  }

  lemma DoKeeps(s: Session, op: Op)
    requires SessionOk(s)
    ensures SessionOk(Do(s, op))
  {
    forall t: string ensures TopicOk(Do(s, op), t) {
      assert TopicOk(s, t);
      match op {
        case Open(topic, from) => OpenKeepsTopic(s, topic, from, t);
        case Close(topic, id) => CloseKeepsTopic(s, topic, id, t);
        case Event(topic, seqno) =>
      }
    }
  }

  /**
   Per topic, the frames that Subscribe and Close send strictly alternate, subscribe first; and a
   topic has an entry, with at least one callback, exactly while its last frame is a subscribe.
   */
  lemma FramesAlternate(ops: seq<Op>, t: string)
    ensures Alternates(OnTopic(DoAll(ops).sent, t))
    ensures t in DoAll(ops).topics <==> |OnTopic(DoAll(ops).sent, t)| % 2 == 1
    ensures t in DoAll(ops).topics ==> DoAll(ops).topics[t].callbacks != {}
  {
    AllOk(ops);
    assert TopicOk(DoAll(ops), t);
  }

  lemma {:induction false} AllOk(ops: seq<Op>)
    ensures SessionOk(DoAll(ops))
  {
    if ops == [] {
      assert forall t: string :: TopicOk(DoAll(ops), t);
    } else {
      AllOk(ops[..|ops| - 1]);
      DoKeeps(DoAll(ops[..|ops| - 1]), ops[|ops| - 1]);
    }
  }

  /** Closing a handle again, however much later, changes nothing and sends nothing. */
  lemma CloseAgain(ops: seq<Op>, later: seq<Op>, topic: string, id: nat)
    requires id <= DoAll(ops).nextID
    ensures var s := DoAll((ops + [Close(topic, id)]) + later); Do(s, Close(topic, id)) == s
  {
    var closed := ops + [Close(topic, id)];
    assert closed[..|ops|] == ops;
    StaysGone(closed, later, topic, id);
    AllOk(closed + later);
    RemovedAbsent(DoAll(closed + later).topics, topic, id);
  }

  lemma {:induction false} StaysGone(ops: seq<Op>, later: seq<Op>, topic: string, id: nat)
    requires id <= DoAll(ops).nextID
    requires topic in DoAll(ops).topics ==> id !in DoAll(ops).topics[topic].callbacks
    ensures id <= DoAll(ops + later).nextID
    ensures topic in DoAll(ops + later).topics ==> id !in DoAll(ops + later).topics[topic].callbacks
  {
    if later == [] {
      assert ops + later == ops;
    } else {
      StaysGone(ops, later[..|later| - 1], topic, id);
      assert (ops + later)[..|ops + later| - 1] == ops + later[..|later| - 1];
    }
  }
}
