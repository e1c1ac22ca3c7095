/**
 The browser client: an offline send queue whose replay must leave the server subscribed to exactly
 the topics in the client's table. Each handler runs to completion, as JavaScript handlers do.
 */
module BrowserClient {
  import opened Types
  import opened Topics
  import opened CallbackTable

  /** Frames that bear on subscriptions; Request stands for publish and get_state frames. */
  datatype Frame = Sub(topic: string, from: From, resume: nat) | Unsub(topic: string) | Request

  datatype Socket = Absent | Ready | Closing

  // ---- the client's own state ----

  datatype Local = Local(topics: Table, nextId: nat, queue: seq<Frame>, ws: Socket, sent: seq<Frame>)

  /** _send: straight to an open socket, otherwise to the queue. */
  function Send(c: Local, f: Frame): Local {
    if c.ws.Ready? then c.(sent := c.sent + [f]) else c.(queue := c.queue + [f])
  }

  function Subscribed(c: Local, topic: string, from: From): Local {
    if '/' !in topic then c
    else
      var c' := c.(topics := Added(c.topics, topic, from, c.nextId + 1), nextId := c.nextId + 1);
      if topic in c.topics then c' else Send(c', Sub(topic, from, 0))
  }

  function Closed(c: Local, topic: string, id: nat): Local {
    var c' := c.(topics := Removed(c.topics, topic, id));
    if IsLast(c.topics, topic, id) then Send(c', Unsub(topic)) else c'
  }

  /** The subscribe frames of _resubscribeAll, in the order the table is walked. */
  function Resubscriptions(t: Table, order: seq<string>): (fs: seq<Frame>)
    requires forall i :: 0 <= i < |order| ==> order[i] in t
    ensures |fs| == |order|
    ensures forall i :: 0 <= i < |fs| ==> fs[i] == Sub(order[i], t[order[i]].from, After(t[order[i]].lastSeen))
  {
    seq(|order|, i requires 0 <= i < |order| => Sub(order[i], t[order[i]].from, After(t[order[i]].lastSeen)))
  }

  /** order walks the whole table and nothing else. */
  ghost predicate Walks(order: seq<string>, t: Table) { forall x :: x in order <==> x in t }

  /** onOpen: resubscribe everything, then flush the queue in order. */
  ghost predicate Opened(c: Local, order: seq<string>, c': Local) {
    && Walks(order, c.topics)
    && c' == c.(ws := Ready, queue := [], sent := Resubscriptions(c.topics, order) + c.queue)
  }

  class Client {
    var topics: Table
    var nextId: nat
    var sendQueue: seq<Frame>
    var ws: Socket
    var sent: seq<Frame>      // what the current socket has been handed

    function State(): Local
      reads this
    {
      Local(topics, nextId, sendQueue, ws, sent)
    }

    constructor ()
      ensures State() == Local(map[], 0, [], Absent, [])
    {
      topics, nextId, sendQueue, ws, sent := map[], 0, [], Absent, [];
    }

    method SendFrame(f: Frame)
      modifies this
      ensures State() == Send(old(State()), f)
      ensures sent + sendQueue == old(sent) + (if old(ws).Ready? then [f] + old(sendQueue) else old(sendQueue) + [f])
      ensures if old(ws).Ready? then sendQueue == old(sendQueue) else sent == old(sent)
    {
      if ws.Ready? {
        sent := sent + [f];
        return;
      }
      sendQueue := sendQueue + [f];
    }

    method FlushQueue()
      modifies this
      ensures old(ws).Ready? ==> State() == old(State()).(queue := [], sent := old(sent) + old(sendQueue))
      ensures !old(ws).Ready? ==> State() == old(State())
    {
      if !ws.Ready? { return; }
      var n := 0;
      while sendQueue != []
        invariant 0 <= n <= |old(sendQueue)| && sendQueue == old(sendQueue)[n..]
        invariant sent == old(sent) + old(sendQueue)[..n]
        invariant ws == old(ws) && topics == old(topics) && nextId == old(nextId)
        decreases |sendQueue|
      {
        sent := sent + [sendQueue[0]];
        sendQueue := sendQueue[1..];
        n := n + 1;
      }
      assert old(sendQueue)[..n] == old(sendQueue);
    }

    /** The handle's id, or nothing when the topic is refused. */
    method Subscribe(topic: string, from: From) returns (id: Option<nat>)
      modifies this
      ensures State() == Subscribed(old(State()), topic, from)
      ensures id == if '/' in topic then Some(old(nextId) + 1) else None
    {
      if '/' !in topic { return None; }
      nextId := nextId + 1;
      var first := topic !in topics;
      if first {
        topics := topics[topic := Entry(from, {}, 0)];
      }
      topics := topics[topic := topics[topic].(callbacks := topics[topic].callbacks + {nextId})];
      if first { SendFrame(Sub(topic, from, 0)); }
      id := Some(nextId);
    }

    method RemoveCallback(topic: string, id: nat)
      modifies this
      ensures State() == Closed(old(State()), topic, id)
    {
      if topic !in topics { return; }
      topics := topics[topic := topics[topic].(callbacks := topics[topic].callbacks - {id})];
      if topics[topic].callbacks == {} {
        topics := topics - {topic};
        SendFrame(Unsub(topic));
      }
    }

    method ResubscribeAll() returns (ghost order: seq<string>)
      requires ws.Ready?
      modifies this
      ensures Walks(order, topics)
      ensures State() == old(State()).(sent := old(sent) + Resubscriptions(topics, order))
    {
      order := [];
      var left := topics.Keys;
      while left != {}
        invariant left <= topics.Keys
        invariant forall x :: x in order <==> x in topics.Keys - left
        invariant topics == old(topics) && nextId == old(nextId) && sendQueue == old(sendQueue) && ws == old(ws)
        invariant forall i :: 0 <= i < |order| ==> order[i] in topics
        invariant sent == old(sent) + Resubscriptions(topics, order)
        decreases left
      {
        var topic :| topic in left;
        var ts := topics[topic];
        var resume := if ts.lastSeen > 0 then ts.lastSeen + 1 else 0;
        assert Resubscriptions(topics, order + [topic])
            == Resubscriptions(topics, order) + [Sub(topic, ts.from, resume)];
        SendFrame(Sub(topic, ts.from, resume));
        order := order + [topic];
        left := left - {topic};
      }
    }

    /** An event frame: the mark moves forward and the topic's callbacks run. */
    method Dispatch(topic: string, seqno: nat) returns (run: set<nat>)
      modifies this
      ensures State() == old(State()).(topics := Marked(old(topics), topic, seqno))
      ensures run == if topic in topics then topics[topic].callbacks else {}
    {
      run := {};
      if topic in topics {
        if seqno > topics[topic].lastSeen {
          topics := topics[topic := topics[topic].(lastSeen := seqno)];
        }
        run := topics[topic].callbacks;
      }
    }

    /** A new socket opened. */
    method OnOpen() returns (ghost order: seq<string>)
      modifies this
      ensures Opened(old(State()), order, State())
    {
      ws, sent := Ready, [];
      order := ResubscribeAll();
      FlushQueue();
    }

    /** The socket's close event. */
    method Drop()
      modifies this
      ensures State() == old(State()).(ws := Absent, sent := [])
    {
      ws, sent := Absent, [];
    }
  }

  // ---- the client with its server session ----

  /** What a session does with a frame: a valid subscribe adds, a repeated or invalid one changes nothing. */
  function Handle(subs: set<string>, f: Frame): set<string> {
    match f
    case Sub(topic, _, _) => if ValidTopic(topic) then subs + {topic} else subs
    case Unsub(topic) => subs - {topic}
    case Request => subs
  }

  function HandleAll(subs: set<string>, fs: seq<Frame>): set<string> {
    if fs == [] then subs else Handle(HandleAll(subs, fs[..|fs| - 1]), fs[|fs| - 1])
  }

  /** Seeding this subscribe makes the server read the store, which may fail. */
  predicate Reads(f: Frame) { f.Sub? && (f.resume > 0 || f.from.FromLastN?) }

  /**
   handled counts the frames of this socket that the session has dealt with. refused holds the topics
   whose subscribe failed on the server's side and was not followed by another try or an unsubscribe;
   the client ignores the error frame.
   */
  datatype World = World(c: Local, handled: nat, subs: set<string>, refused: set<string>)

  predicate Refuses(subs: set<string>, f: Frame, fails: bool) {
    fails && Reads(f) && ValidTopic(f.topic) && f.topic !in subs
  }

  function Refusals(refused: set<string>, f: Frame, refuses: bool): set<string> {
    if f.Request? then refused
    else if refuses then refused + {f.topic}
    else refused - {f.topic}
  }

  datatype Step =
    | Subscribe(topic: string, from: From)
    | Close(topic: string, id: nat)
    | Ask                                   // publish or get_state
    | See(topic: string, seqno: nat)        // an event arrives
    | SocketCloses                          // readyState leaves OPEN
    | SocketDrops                           // the close event
    | SocketOpens(order: seq<string>)
    | ServerHandles(fails: bool)            // fails: should the store be read for it, the read fails

  ghost predicate Next(w: World, step: Step, w': World) {
    match step
    case Subscribe(topic, from) => w' == w.(c := Subscribed(w.c, topic, from))
    case Close(topic, id) => w' == w.(c := Closed(w.c, topic, id))
    case Ask => w' == w.(c := Send(w.c, Request))
    case See(topic, seqno) => w' == w.(c := w.c.(topics := Marked(w.c.topics, topic, seqno)))
    case SocketCloses => w.c.ws.Ready? && w' == w.(c := w.c.(ws := Closing))
    case SocketDrops => !w.c.ws.Absent? && w' == World(w.c.(ws := Absent, sent := []), 0, {}, {})
    case SocketOpens(order) =>
      w.c.ws.Absent? && Opened(w.c, order, w'.c) && w'.handled == 0 && w'.subs == w'.refused == {}
    case ServerHandles(fails) =>
      && w.handled < |w.c.sent|
      && var f := w.c.sent[w.handled]; var refuses := Refuses(w.subs, f, fails);
      && w' == w.(handled := w.handled + 1, subs := if refuses then w.subs else Handle(w.subs, f),
                  refused := Refusals(w.refused, f, refuses))
  }

  predicate Init(w: World) { w == World(Local(map[], 0, [], Absent, []), 0, {}, {}) }

  /** The topics the server should end up subscribed to: those of the table that it accepts. */
  function Wanted(t: Table): set<string> { set x | x in t && ValidTopic(x) }

  predicate About(f: Frame, t: string) { !f.Request? && f.topic == t }

  ghost predicate Newest(fs: seq<Frame>, t: string, i: int) {
    0 <= i < |fs| && About(fs[i], t) && forall j :: i < j < |fs| ==> !About(fs[j], t)
  }

  /** The newest queued frame of a topic, if any, says what the table says. */
  ghost predicate QueueTells(c: Local, t: string) {
    forall i :: Newest(c.queue, t, i) ==> (c.queue[i].Sub? <==> t in c.topics)
  }

  ghost predicate Inv(w: World) {
    && TableOk(w.c.topics)
    && w.handled <= |w.c.sent|
    && (w.c.ws.Ready? ==> w.c.queue == [])
    && (w.c.ws.Absent? ==> w.c.sent == [] && w.subs == w.refused == {})
    && (!w.c.ws.Absent? ==> HandleAll({}, w.c.sent + w.c.queue) == Wanted(w.c.topics))
    && w.subs !! w.refused && w.subs + w.refused == HandleAll({}, w.c.sent[..w.handled])
    && (forall t: string {:trigger QueueTells(w.c, t)} :: QueueTells(w.c, t))
  }

  lemma HandleSnoc(subs: set<string>, fs: seq<Frame>, f: Frame)
    ensures HandleAll(subs, fs + [f]) == Handle(HandleAll(subs, fs), f)
  {
    assert (fs + [f])[..|fs|] == fs;
  }

  lemma {:induction false} HandleAppend(subs: set<string>, a: seq<Frame>, b: seq<Frame>)
    ensures HandleAll(subs, a + b) == HandleAll(HandleAll(subs, a), b)
  {
    if b == [] {
      assert a + b == a;
    } else {
      assert (a + b)[..|a + b| - 1] == a + b[..|b| - 1];
      HandleAppend(subs, a, b[..|b| - 1]);
    }
  }

  /** Replaying a queue: a topic ends as its newest frame says, and untouched topics stay as they were. */
  lemma {:induction false} ReplayDecides(subs: set<string>, fs: seq<Frame>, t: string, wanted: bool)
    requires ValidTopic(t)
    requires forall i :: Newest(fs, t, i) ==> (fs[i].Sub? <==> wanted)
    requires (forall i :: 0 <= i < |fs| ==> !About(fs[i], t)) ==> (t in subs <==> wanted)
    ensures t in HandleAll(subs, fs) <==> wanted
  {
    if fs != [] && !About(fs[|fs| - 1], t) {
      var front := fs[..|fs| - 1];
      forall i | Newest(front, t, i) ensures front[i].Sub? <==> wanted {
        assert fs[i] == front[i] && forall j :: i < j < |front| ==> fs[j] == front[j];
        assert Newest(fs, t, i);
      }
      if forall i :: 0 <= i < |front| ==> !About(front[i], t) {
        assert forall i :: 0 <= i < |fs| ==> !About(fs[i], t);
      }
      ReplayDecides(subs, front, t, wanted);
    }
  }

  lemma {:induction false} OnlyValid(subs: set<string>, fs: seq<Frame>)
    requires forall t :: t in subs ==> ValidTopic(t)
    ensures forall t :: t in HandleAll(subs, fs) ==> ValidTopic(t)
  {
    if fs != [] { OnlyValid(subs, fs[..|fs| - 1]); }
  }

  lemma {:induction false} Resubscribes(t: Table, order: seq<string>)
    requires forall i :: 0 <= i < |order| ==> order[i] in t
    ensures HandleAll({}, Resubscriptions(t, order)) == set x | x in order && ValidTopic(x)
  {
    var fs := Resubscriptions(t, order);
    if order != [] {
      var front := order[..|order| - 1];
      Resubscribes(t, front);
      assert fs[..|fs| - 1] == Resubscriptions(t, front);
      assert order == front + [order[|order| - 1]];
    }
  }

  /** The heart of it: resubscribing the table and then replaying the stale queue restores exactly the table. */
  lemma ReplayConverges(c: Local, order: seq<string>)
    requires Walks(order, c.topics)
    requires forall t: string :: QueueTells(c, t)
    ensures HandleAll({}, Resubscriptions(c.topics, order) + c.queue) == Wanted(c.topics)
  {
    var first := Resubscriptions(c.topics, order);
    Resubscribes(c.topics, order);
    HandleAppend({}, first, c.queue);
    OnlyValid(HandleAll({}, first), c.queue);
    forall t: string | ValidTopic(t)
      ensures t in HandleAll(HandleAll({}, first), c.queue) <==> t in Wanted(c.topics)
    {
      assert QueueTells(c, t);
      ReplayDecides(HandleAll({}, first), c.queue, t, t in c.topics);
    }
  }

  // ---- steps ----

  /** Queueing a frame that says what the table now says keeps the queue honest. */
  lemma QueueSnoc(c: Local, c': Local, f: Frame)
    requires forall t: string :: QueueTells(c, t)
    requires c'.queue == c.queue + [f]
    requires forall t: string :: !About(f, t) ==> (t in c'.topics <==> t in c.topics)
    requires !f.Request? ==> (f.Sub? <==> f.topic in c'.topics)
    ensures forall t: string :: QueueTells(c', t)
  {
    forall t: string ensures QueueTells(c', t) {
      assert QueueTells(c, t);
      var n := |c.queue|;
      forall i | Newest(c'.queue, t, i) ensures c'.queue[i].Sub? <==> t in c'.topics {
        if i < n {
          assert !About(c'.queue[n], t);
          assert forall j :: i < j < n ==> c'.queue[j] == c.queue[j];
          assert Newest(c.queue, t, i);
        }
      }
    }
  }

  /** Sent or queued, the frame comes after all others, and the session will follow the table. */
  lemma SendFollows(c: Local, topics: Table, f: Frame, c': Local)
    requires HandleAll({}, c.sent + c.queue) == Wanted(c.topics)
    requires c'.sent + c'.queue == c.sent + c.queue + [f]
    requires forall t: string :: !About(f, t) ==> (t in topics <==> t in c.topics)
    requires !f.Request? ==> (f.Sub? <==> f.topic in topics)
    ensures HandleAll({}, c'.sent + c'.queue) == Wanted(topics)
  {
    HandleSnoc({}, c.sent + c.queue, f);
    forall t: string ensures t in HandleAll({}, c'.sent + c'.queue) <==> t in Wanted(topics) {
      assert t in HandleAll({}, c.sent + c.queue) <==> t in Wanted(c.topics);
    }
  }

  /** Sending a frame that matches what just changed in the table, online or offline. */
  lemma SendKeeps(w: World, topics: Table, nextId: nat, f: Frame)
    requires Inv(w) && TableOk(topics)
    requires forall t: string :: !About(f, t) ==> (t in topics <==> t in w.c.topics)
    requires !f.Request? ==> (f.Sub? <==> f.topic in topics)
    ensures Inv(w.(c := Send(w.c.(topics := topics, nextId := nextId), f)))
  {
    var c' := Send(w.c.(topics := topics, nextId := nextId), f);
    assert c'.sent[..w.handled] == w.c.sent[..w.handled];
    assert c'.sent + c'.queue == w.c.sent + w.c.queue + [f];
    if !w.c.ws.Absent? { SendFollows(w.c, topics, f, c'); }
    if w.c.ws.Ready? {
      forall t: string ensures QueueTells(c', t) { }
    } else {
      QueueSnoc(w.c, c', f);
    }
  }

  /** A change that keeps the table's topics needs no frame. */
  lemma SilentKeeps(w: World, topics: Table, nextId: nat)
    requires Inv(w) && TableOk(topics) && topics.Keys == w.c.topics.Keys
    ensures Inv(w.(c := w.c.(topics := topics, nextId := nextId)))
  {
    var c' := w.c.(topics := topics, nextId := nextId);
    assert Wanted(topics) == Wanted(w.c.topics);
    forall t: string ensures QueueTells(c', t) { assert QueueTells(w.c, t); }
  }

  lemma SubscribeKeeps(w: World, topic: string, from: From)
    requires Inv(w)
    ensures Inv(w.(c := Subscribed(w.c, topic, from)))
  {
    if '/' in topic {
      var topics := Added(w.c.topics, topic, from, w.c.nextId + 1);
      if topic in w.c.topics {
        SilentKeeps(w, topics, w.c.nextId + 1);
      } else {
        SendKeeps(w, topics, w.c.nextId + 1, Sub(topic, from, 0));
      }
    }
  }

  lemma CloseKeeps(w: World, topic: string, id: nat)
    requires Inv(w)
    ensures Inv(w.(c := Closed(w.c, topic, id)))
  {
    var topics := Removed(w.c.topics, topic, id);
    RemovedKeys(w.c.topics, topic, id);
    if IsLast(w.c.topics, topic, id) {
      SendKeeps(w, topics, w.c.nextId, Unsub(topic));
    } else {
      SilentKeeps(w, topics, w.c.nextId);
    }
  }

  lemma SocketKeeps(w: World, step: Step, w': World)
    requires Inv(w) && Next(w, step, w') && (step.SocketCloses? || step.SocketDrops? || step.SocketOpens?)
    ensures Inv(w')
  {
    if step.SocketOpens? {
      ReplayConverges(w.c, step.order);
      assert w'.c.sent + w'.c.queue == w'.c.sent;
      forall t: string ensures QueueTells(w'.c, t) { }
    } else {
      forall t: string ensures QueueTells(w'.c, t) { assert QueueTells(w.c, t); }
    }
  }

  lemma HandleKeeps(w: World, fails: bool, w': World)
    requires Inv(w) && Next(w, ServerHandles(fails), w')
    ensures Inv(w')
  {
    var before, f := w.c.sent[..w.handled], w.c.sent[w.handled];
    assert w.c.sent[..w.handled + 1] == before + [f];
    HandleSnoc({}, before, f);
    OnlyValid({}, before);
    Accounts(w.subs, w.refused, f, fails);
  }

  /** Subscribed and refused topics together are what a session that never fails would hold. */
  lemma Accounts(subs: set<string>, refused: set<string>, f: Frame, fails: bool)
    requires subs !! refused && forall t :: t in refused ==> ValidTopic(t)
    ensures var refuses := Refuses(subs, f, fails);
      var subs', refused' := (if refuses then subs else Handle(subs, f)), Refusals(refused, f, refuses);
      subs' !! refused' && subs' + refused' == Handle(subs + refused, f)
  {
  }

  lemma NextKeeps(w: World, step: Step, w': World)
    requires Inv(w) && Next(w, step, w')
    ensures Inv(w')
  {
    match step {
      case Subscribe(topic, from) => SubscribeKeeps(w, topic, from);
      case Close(topic, id) => CloseKeeps(w, topic, id);
      case Ask => SendKeeps(w, w.c.topics, w.c.nextId, Request);
      case See(topic, seqno) => SilentKeeps(w, Marked(w.c.topics, topic, seqno), w.c.nextId);
      case ServerHandles(fails) => HandleKeeps(w, fails, w');
      case _ => SocketKeeps(w, step, w');
    }
  }

  ghost predicate IsRun(run: seq<World>, steps: seq<Step>) {
    && |run| == |steps| + 1
    && Init(run[0])
    && forall i {:trigger steps[i]} :: 0 <= i < |steps| ==> Next(run[i], steps[i], run[i + 1])
  }

  lemma {:induction false} RunInv(run: seq<World>, steps: seq<Step>, i: nat)
    requires IsRun(run, steps) && i < |run|
    ensures Inv(run[i])
  {
    if i == 0 {
      forall t: string ensures QueueTells(run[0].c, t) { }
      assert Wanted(map[]) == {};
    } else {
      RunInv(run, steps, i - 1);
      NextKeeps(run[i - 1], steps[i - 1], run[i]);
    }
  }

  /**
   Convergence. In every run of subscribing, closing, dropping and reconnecting, nothing is left in the
   queue while the socket is open, and once the server has handled all it was sent, the session's
   topics are exactly the table's, except those the server does not accept: the invalid ones, and
   those for which a failing store made it refuse the subscribe.
   */
  lemma Converges(run: seq<World>, steps: seq<Step>, i: nat)
    requires IsRun(run, steps) && i < |run|
    requires run[i].c.ws.Ready?
    ensures run[i].c.queue == []
    ensures run[i].handled == |run[i].c.sent| ==> run[i].subs == Wanted(run[i].c.topics) - run[i].refused
    ensures run[i].handled == |run[i].c.sent| ==> run[i].refused <= Wanted(run[i].c.topics)
    ensures run[i].handled == |run[i].c.sent| ==>
      (run[i].subs == run[i].c.topics.Keys
       <==> run[i].refused == {} && forall t :: t in run[i].c.topics ==> ValidTopic(t))
  {
    RunInv(run, steps, i);
    var w := run[i];
    if w.handled == |w.c.sent| {
      assert w.c.sent[..w.handled] == w.c.sent && w.c.sent + w.c.queue == w.c.sent;
      assert w.subs + w.refused == Wanted(w.c.topics);
      if w.refused == {} && forall t :: t in w.c.topics ==> ValidTopic(t) {
        assert Wanted(w.c.topics) == w.c.topics.Keys;
      }
    }
  }

  // ---- the table over a run ----

  predicate Slashed(t: string) { '/' in t }

  /** The step as a call on the table. */
  function OpOf(step: Step): seq<Op> {
    match step
    case Subscribe(topic, from) => [Open(topic, from)]
    case Close(topic, id) => [Op.Close(topic, id)]
    case See(topic, seqno) => [Op.Event(topic, seqno)]
    case _ => []
  }

  function OpsOf(steps: seq<Step>): seq<Op> {
    if steps == [] then [] else OpsOf(steps[..|steps| - 1]) + OpOf(steps[|steps| - 1])
  }

  lemma OpsSnoc(steps: seq<Step>, i: nat)
    requires i < |steps|
    ensures OpsOf(steps[..i + 1]) == OpsOf(steps[..i]) + OpOf(steps[i])
  {
    assert steps[..i + 1][..i] == steps[..i];
  }

  lemma NextTurns(w: World, step: Step, w': World)
    requires Next(w, step, w')
    ensures var b, b' := Book(w.c.topics, w.c.nextId), Book(w'.c.topics, w'.c.nextId);
      b' == if OpOf(step) == [] then b else Turn(b, OpOf(step)[0], Slashed)
  {
  }

  lemma {:induction false} RunTurns(run: seq<World>, steps: seq<Step>, i: nat)
    requires IsRun(run, steps) && i < |run|
    ensures Turns(OpsOf(steps[..i]), Slashed) == Book(run[i].c.topics, run[i].c.nextId)
  {
    if i > 0 {
      RunTurns(run, steps, i - 1);
      OpsSnoc(steps, i - 1);
      assert Next(run[i - 1], steps[i - 1], run[i]);
      StepTurns(OpsOf(steps[..i - 1]), run[i - 1], steps[i - 1], run[i]);
    }
  }

  lemma StepTurns(ops: seq<Op>, w: World, step: Step, w': World)
    requires Next(w, step, w') && Turns(ops, Slashed) == Book(w.c.topics, w.c.nextId)
    ensures Turns(ops + OpOf(step), Slashed) == Book(w'.c.topics, w'.c.nextId)
  {
    NextTurns(w, step, w');
    if OpOf(step) == [] { assert ops + [] == ops; } else { assert (ops + OpOf(step))[..|ops|] == ops; }
  }

  /** In every run, a topic's callbacks are those of the handles open on it, and an event runs just these. */
  lemma CallbacksAreHeld(run: seq<World>, steps: seq<Step>, i: nat, t: string, id: nat)
    requires IsRun(run, steps) && i < |run|
    ensures t in run[i].c.topics && id in run[i].c.topics[t].callbacks <==> Held(OpsOf(steps[..i]), Slashed, t, id)
  {
    RunTurns(run, steps, i);
    HeldIff(OpsOf(steps[..i]), Slashed, t, id);
  }

  /** An entry keeps the seed of the subscribe that entered the topic, and the highest number seen since. */
  lemma EntryKept(run: seq<World>, steps: seq<Step>, i: nat, t: string) returns (k: nat)
    requires IsRun(run, steps) && i < |run| && t in run[i].c.topics
    ensures EnteredAt(OpsOf(steps[..i]), Slashed, t, k)
    ensures run[i].c.topics[t].from == OpsOf(steps[..i])[k].from
    ensures run[i].c.topics[t].lastSeen == HighestSeen(OpsOf(steps[..i])[k..], t)
  {
    RunTurns(run, steps, i);
    k := EntryOf(OpsOf(steps[..i]), Slashed, t);
  }

  /** All frames of the present connection, and those that wait. */
  function Outgoing(c: Local): seq<Frame> { c.sent + c.queue }

  /**
   A subscribe goes out, or waits, exactly with the first handle opened on a topic with a slash, an
   unsubscribe exactly when the last open one is closed; no other such call adds a frame.
   */
  lemma FramesWithFirstAndLast(run: seq<World>, steps: seq<Step>, i: nat)
    requires IsRun(run, steps) && i < |steps|
    requires steps[i].Subscribe? || steps[i].Close?
    ensures var ops, ops', step := OpsOf(steps[..i]), OpsOf(steps[..i + 1]), steps[i];
      Outgoing(run[i + 1].c) == Outgoing(run[i].c) +
        if step.Subscribe? && '/' in step.topic && !SomeHeld(ops, Slashed, step.topic) then
          [Sub(step.topic, step.from, 0)]
        else if step.Close? && Held(ops, Slashed, step.topic, step.id) && !SomeHeld(ops', Slashed, step.topic) then
          [Unsub(step.topic)]
        else []
  {
    RunInv(run, steps, i);
    RunTurns(run, steps, i);
    var ops, step := OpsOf(steps[..i]), steps[i];
    OpsSnoc(steps, i);
    assert Next(run[i], step, run[i + 1]);
    if step.Subscribe? {
      EnteredIff(ops, Slashed, step.topic);
      SendAppends(run[i].c, Sub(step.topic, step.from, 0));
    } else if step.Close? {
      ClosesLastIff(ops, Slashed, step.topic, step.id);
      SendAppends(run[i].c, Unsub(step.topic));
    }
    assert Outgoing(run[i].c) + [] == Outgoing(run[i].c);
  }

  lemma SendAppends(c: Local, f: Frame)
    requires c.ws.Ready? ==> c.queue == []
    ensures Outgoing(Send(c, f)) == Outgoing(c) + [f]
  {
  }
}
