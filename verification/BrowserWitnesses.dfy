/**
 A run of the browser client on which an unsubscribe queued while offline is replayed after the
 resubscription: an event published between the two subscriptions never reaches the callbacks.
 */
module BrowserWitnesses {
  import opened Types
  import opened Topics
  import opened Log
  import opened Subscriptions
  import opened Engine
  import opened Outboxes
  import opened Scenes
  import opened CallbackTable
  import opened BrowserResume
  import B = BrowserClient
  import R = Resume

  ghost predicate Reachable(t: string, w: World) {
    exists run: seq<World>, moves: seq<Move> :: IsRun(CONFIG, t, run, moves) && run[|moves|] == w
  }

  /** The client and the server have come to this, whatever clean says. */
  ghost predicate At(sc: Scene, b: B.World, sid: nat, k: R.Client) {
    exists clean: bool :: Reachable(sc.t, World(b, Server(sc), sid, k, clean))
  }

  lemma Moved(t: string, w: World, move: Move, w': World)
    requires Reachable(t, w) && Moves(CONFIG, t, w, move, w')
    ensures Reachable(t, w')
  {
    var run: seq<World>, moves: seq<Move> :| IsRun(CONFIG, t, run, moves) && run[|moves|] == w;
    var run', moves' := run + [w'], moves + [move];
    forall i | 0 <= i < |moves'| ensures Moves(CONFIG, t, run'[i], moves'[i], run'[i + 1]) {
      if i < |moves| { assert moves'[i] == moves[i] && Moves(CONFIG, t, run[i], moves[i], run[i + 1]); }
    }
    assert IsRun(CONFIG, t, run', moves') && run'[|moves'|] == w';
  }

  lemma {:induction false} FollowsRun(t: string, run: seq<System>, steps: seq<Step>, w: World)
    requires Steps(run, steps) && Reachable(t, w) && run[0] == w.s
    ensures Reachable(t, w.(s := run[|steps|]))
  {
    if steps != [] {
      var n := |steps| - 1;
      assert forall i :: 0 <= i < n ==> steps[..n][i] == steps[i];
      FollowsRun(t, run[..n + 1], steps[..n], w);
      assert Next(CONFIG, run[n], steps[n], run[n + 1]);
      Moved(t, w.(s := run[n]), Serve(steps[n]), w.(s := run[n + 1]));
    }
  }

  /** The client waits while the server goes on. */
  lemma Awaits(sc: Scene, sc': Scene, b: B.World, sid: nat, k: R.Client)
    requires At(sc, b, sid, k) && Reached(Server(sc), sc') && sc'.t == sc.t
    ensures At(sc', b, sid, k)
  {
    var clean :| Reachable(sc.t, World(b, Server(sc), sid, k, clean));
    var run: seq<System>, steps: seq<Step> :|
      Steps(run, steps) && run[0] == Server(sc) && run[|steps|] == Server(sc');
    FollowsRun(sc.t, run, steps, World(b, Server(sc), sid, k, clean));
  }

  /** A step of the client that neither enters the topic nor changes its connection. */
  lemma Does(sc: Scene, b: B.World, sid: nat, k: R.Client, step: B.Step, b': B.World)
    requires At(sc, b, sid, k) && B.Next(b, step, b')
    requires step.Close? || (step.ServerHandles? && !(sc.t !in b.subs && sc.t in b'.subs))
    ensures At(sc, b', sid, k)
  {
    var clean :| Reachable(sc.t, World(b, Server(sc), sid, k, clean));
    Moved(sc.t, World(b, Server(sc), sid, k, clean), Browse(step), World(b', Server(sc), sid, k, clean));
  }

  lemma Enters(sc: Scene, b: B.World, sid: nat, k: R.Client, from: From, b': B.World)
    requires At(sc, b, sid, k) && B.Next(b, B.Subscribe(sc.t, from), b') && sc.t !in b.c.topics
    ensures At(sc, b', sid, R.Newcomer(sc.t, ReadAs(from)))
  {
    var clean :| Reachable(sc.t, World(b, Server(sc), sid, k, clean));
    Moved(sc.t, World(b, Server(sc), sid, k, clean), Browse(B.Subscribe(sc.t, from)),
          World(b', Server(sc), sid, R.Newcomer(sc.t, ReadAs(from)), NoneAhead(b, sc.t)));
  }

  lemma Drops(sc: Scene, b: B.World, sid: nat, k: R.Client, b': B.World)
    requires At(sc, b, sid, k) && B.Next(b, B.SocketDrops, b')
    ensures At(sc, b', sid, k.(current := None))
  {
    var clean :| Reachable(sc.t, World(b, Server(sc), sid, k, clean));
    Moved(sc.t, World(b, Server(sc), sid, k, clean), Browse(B.SocketDrops),
          World(b', Server(sc), sid, k.(current := None), clean));
  }

  lemma Opens(sc: Scene, b: B.World, sid: nat, k: R.Client, order: seq<string>, b': B.World, sid': nat)
    requires At(sc, b, sid, k) && B.Next(b, B.SocketOpens(order), b') && sid' !in sc.sessions
    ensures At(sc.(sessions := sc.sessions[sid' := NOTHING]), b', sid', k)
  {
    var clean :| Reachable(sc.t, World(b, Server(sc), sid, k, clean));
    var s' := Server(sc.(sessions := sc.sessions[sid' := NOTHING]));
    assert DoConnect(Server(sc), sid', s');
    Moved(sc.t, World(b, Server(sc), sid, k, clean), Browse(B.SocketOpens(order)), World(b', s', sid', k, clean));
  }

  /** The session subscribes to the topic. */
  lemma Handles(sc: Scene, b: B.World, sid: nat, k: R.Client, b': B.World, from: From)
    requires At(sc, b, sid, k) && B.Next(b, B.ServerHandles(false), b') && sc.t !in b.subs && sc.t in b'.subs
    requires b.c.sent[b.handled] == B.Sub(sc.t, from, 0) && !from.FromSeq?
    requires ValidTopic(sc.t) && sid in sc.sessions && (sc.log == [] ==> sc.fans == [])
    ensures At(Subscribed(sc, sid, from), b', sid, R.Attached(k, sc.next + 1))
  {
    var clean :| Reachable(sc.t, World(b, Server(sc), sid, k, clean));
    Subscribes(sc, sid, from);
    Moved(sc.t, World(b, Server(sc), sid, k, clean), Browse(B.ServerHandles(false)),
          World(b', Server(Subscribed(sc, sid, from)), sid, R.Attached(k, sc.next + 1), clean));
  }

  lemma Receives(sc: Scene, b: B.World, sid: nat, k: R.Client, id: nat, m: Msg)
    requires At(sc, b, sid, k) && b.c.ws.Ready? && sc.t in b.c.topics && k.current == Some(id)
    requires k.pos < |R.Wire(Server(sc), id)| && R.Wire(Server(sc), id)[k.pos] == m
    ensures At(sc, if IsEvent(m) then Marks(b, sc.t, m.e.seqno) else b, sid, R.Dispatch(k, m))
  {
    var clean :| Reachable(sc.t, World(b, Server(sc), sid, k, clean));
    var b' := if IsEvent(m) then Marks(b, sc.t, m.e.seqno) else b;
    Moved(sc.t, World(b, Server(sc), sid, k, clean), Move.Receive, World(b', Server(sc), sid, R.Dispatch(k, m), clean));
  }

  // ---- a client of one topic, subscribed from latest ----

  function Table1(t: string, id: nat, lastSeen: nat): Table { map[t := Entry(FromLatest, {id}, lastSeen)] }

  function Offline(topics: Table, nextId: nat, queue: seq<B.Frame>): B.World {
    B.World(B.Local(topics, nextId, queue, B.Absent, []), 0, {}, {})
  }

  /** Of the frames sent the session has handled some; it holds these topics. */
  function Online(topics: Table, nextId: nat, sent: seq<B.Frame>, handled: nat, subs: set<string>): B.World {
    B.World(B.Local(topics, nextId, [], B.Ready, sent), handled, subs, {})
  }

  lemma Begins(t: string)
    ensures At(Idling(t), Offline(map[], 0, []), 0, R.Newcomer(t, FromLatest))
  {
    var moves: seq<Move> := [];
    var w := World(Offline(map[], 0, []), Server(Idling(t)), 0, R.Newcomer(t, FromLatest), true);
    assert IsRun(CONFIG, t, [w], moves) && [w][|moves|] == w;
    assert Reachable(t, w);
  }

  /** The first connection, and the subscribe on it. */
  lemma Arrives(t: string)
    requires ValidTopic(t)
    ensures At(Idling(t).(sessions := map[1 := NOTHING]), Online(Table1(t, 1, 0), 1, [B.Sub(t, FromLatest, 0)], 0, {}),
               1, R.Newcomer(t, FromLatest))
  {
    var k := R.Newcomer(t, FromLatest);
    var sc, b := Idling(t).(sessions := map[1 := NOTHING]), Online(map[], 0, [], 0, {});
    Begins(t);
    assert B.Resubscriptions(map[], []) + [] == [] && B.Walks([], map[]);
    assert Idling(t).sessions[1 := NOTHING] == sc.sessions;
    Opens(Idling(t), Offline(map[], 0, []), 0, k, [], b, 1);
    ValidTopicHasSlash(t);
    assert Added(map[], t, FromLatest, 1) == Table1(t, 1, 0) by { assert {} + {1} == {1}; }
    assert [] + [B.Sub(t, FromLatest, 0)] == [B.Sub(t, FromLatest, 0)];
    Enters(sc, b, 1, k, FromLatest, Online(Table1(t, 1, 0), 1, [B.Sub(t, FromLatest, 0)], 0, {}));
  }

  function Queued(t: string): seq<B.Frame> { [B.Unsub(t), B.Sub(t, FromLatest, 0)] }

  function Flushed(t: string): seq<B.Frame> { [B.Sub(t, FromLatest, 0), B.Unsub(t), B.Sub(t, FromLatest, 0)] }

  /** Offline, the topic's only callback is closed and another one subscribes. */
  lemma Requeues(t: string)
    requires ValidTopic(t)
    ensures At(Idling(t).(sessions := map[1 := NOTHING]), Offline(Table1(t, 2, 0), 2, Queued(t)), 1,
               R.Newcomer(t, FromLatest))
  {
    var sc, k := Idling(t).(sessions := map[1 := NOTHING]), R.Newcomer(t, FromLatest);
    var b0 := Online(Table1(t, 1, 0), 1, [B.Sub(t, FromLatest, 0)], 0, {});
    var b1, b2 := Offline(Table1(t, 1, 0), 1, []), Offline(map[], 1, [B.Unsub(t)]);
    Arrives(t);
    assert k.(current := None) == k;
    Drops(sc, b0, 1, k, b1);
    assert {1} - {1} == {} && Removed(Table1(t, 1, 0), t, 1) == map[] && [] + [B.Unsub(t)] == [B.Unsub(t)];
    Does(sc, b1, 1, k, B.Close(t, 1), b2);
    ValidTopicHasSlash(t);
    assert Added(map[], t, FromLatest, 2) == Table1(t, 2, 0) by { assert {} + {2} == {2}; }
    assert [B.Unsub(t)] + [B.Sub(t, FromLatest, 0)] == Queued(t);
    Enters(sc, b2, 1, k, FromLatest, Offline(Table1(t, 2, 0), 2, Queued(t)));
  }

  /** Back online, the resubscription goes before the queue. */
  lemma Flushes(t: string)
    requires ValidTopic(t)
    ensures At(Idling(t).(sessions := map[1 := NOTHING, 2 := NOTHING]), Online(Table1(t, 2, 0), 2, Flushed(t), 0, {}),
               2, R.Newcomer(t, FromLatest))
  {
    var sc, topics := Idling(t).(sessions := map[1 := NOTHING]), Table1(t, 2, 0);
    Requeues(t);
    assert forall x :: x in topics <==> x == t;
    assert B.Walks([t], topics) && B.Resubscriptions(topics, [t]) == [B.Sub(t, FromLatest, 0)];
    assert [B.Sub(t, FromLatest, 0)] + Queued(t) == Flushed(t);
    assert sc.sessions[2 := NOTHING] == map[1 := NOTHING, 2 := NOTHING];
    Opens(sc, Offline(topics, 2, Queued(t)), 1, R.Newcomer(t, FromLatest), [t],
          Online(topics, 2, Flushed(t), 0, {}), 2);
  }

  /** The session opens the topic from latest, e is published, and the client gets it. */
  lemma Hears1(sc: Scene, seen: nat, handled: nat, k: R.Client, fs: seq<Frame>, e: Event, id: string, now: Time)
    requires At(sc, Online(Table1(sc.t, 2, seen), 2, Flushed(sc.t), handled, {}), 2, k)
    requires (handled == 0 || handled == 2) && seen <= |sc.log|
    requires Rested(sc) && Publishable(e) && e.topic == sc.t && Enrolled(sc, {})
    requires 2 in sc.sessions && sc.sessions[2] == Sent(fs) && Of(fs, sc.next + 1) == []
    ensures var stored := Numbered(sc, e, id, now);
      At(AfterHearing(sc, 2, fs, stored),
         Online(Table1(sc.t, 2, stored.seqno), 2, Flushed(sc.t), handled + 1, {sc.t}), 2,
         Told(k, sc.next + 1, stored))
  {
    var t, sub, stored := sc.t, sc.next + 1, Numbered(sc, e, id, now);
    var b := Online(Table1(t, 2, seen), 2, Flushed(t), handled + 1, {t});
    assert {} + {t} == {t} && {} - {t} == {};
    Handles(sc, Online(Table1(t, 2, seen), 2, Flushed(t), handled, {}), 2, k, b, FromLatest);
    Hears(sc, e, id, now, 2, fs);
    Awaits(Subscribed(sc, 2, FromLatest), AfterHearing(sc, 2, fs, stored), b, 2, R.Attached(k, sub));
    HearingIsWritten(sc, 2, fs, stored);
    IsTold(AfterHearing(sc, 2, fs, stored), seen, handled + 1, k, sub, stored);
  }

  lemma IsTold(sc: Scene, seen: nat, handled: nat, k: R.Client, id: nat, e: Event)
    requires At(sc, Online(Table1(sc.t, 2, seen), 2, Flushed(sc.t), handled, {sc.t}), 2, R.Attached(k, id))
    requires R.Wire(Server(sc), id) == [Ack(0), Live(e)] && seen < e.seqno
    ensures At(sc, Online(Table1(sc.t, 2, e.seqno), 2, Flushed(sc.t), handled, {sc.t}), 2, Told(k, id, e))
  {
    var b, k1 := Online(Table1(sc.t, 2, seen), 2, Flushed(sc.t), handled, {sc.t}), R.Attached(k, id);
    Receives(sc, b, 2, k1, id, Ack(0));
    Receives(sc, b, 2, R.Dispatch(k1, Ack(0)), id, Live(e));
    assert Marked(Table1(sc.t, 2, seen), sc.t, e.seqno) == Table1(sc.t, 2, e.seqno);
    TellsBoth(k, id, e);
  }

  lemma HearsFirst(submitted: Event, id: string, now: Time)
    requires Publishable(submitted)
    ensures var e1, t := Filled(submitted, 1, id, now), submitted.topic;
      At(Sees1(e1), Online(Table1(t, 2, 1), 2, Flushed(t), 1, {t}), 2, Knows1(e1))
  {
    var t := submitted.topic;
    Flushes(t);
    Hears1(Idling(t).(sessions := map[1 := NOTHING, 2 := NOTHING]), 0, 0, R.Newcomer(t, FromLatest), [],
           submitted, id, now);
  }

  /** The queued unsubscribe ends the first subscription, and event 2 is published. */
  lemma Misses(submitted: Event, id: string, now: Time)
    requires Publishable(submitted)
    ensures var e1, e2, t := Filled(submitted, 1, id, now), Filled(submitted, 2, id, now), submitted.topic;
      At(AfterLeaving(Sees1(e1), 1, e2), Online(Table1(t, 2, 1), 2, Flushed(t), 2, {}), 2, Knows1(e1))
  {
    var e1, e2, t := Filled(submitted, 1, id, now), Filled(submitted, 2, id, now), submitted.topic;
    HearsFirst(submitted, id, now);
    var b := Online(Table1(t, 2, 1), 2, Flushed(t), 2, {});
    assert {t} - {t} == {} && {} - {t} == {};
    Does(Sees1(e1), Online(Table1(t, 2, 1), 2, Flushed(t), 1, {t}), 2, Knows1(e1), B.ServerHandles(false), b);
    assert Numbered(Sees1(e1), submitted, id, now) == e2;
    LeavesBefore(Sees1(e1), submitted, id, now, 1, 2);
    Awaits(Sees1(e1), AfterLeaving(Sees1(e1), 1, e2), b, 2, Knows1(e1));
  }

  function Written(e1: Event): seq<Frame> { [Frame(1, Ack(0)), Frame(1, Live(e1))] }

  function Heard3(e1: Event, e2: Event, e3: Event): Scene {
    AfterHearing(AfterLeaving(Sees1(e1), 1, e2), 2, Written(e1), e3)
  }

  function Knows3(e1: Event, e3: Event): R.Client { Told(Knows1(e1), 2, e3) }

  lemma HearsThird(submitted: Event, id: string, now: Time)
    requires Publishable(submitted)
    ensures var e1, e2 := Filled(submitted, 1, id, now), Filled(submitted, 2, id, now);
      var e3, t := Filled(submitted, 3, id, now), submitted.topic;
      At(Heard3(e1, e2, e3), Online(Table1(t, 2, 3), 2, Flushed(t), 3, {t}), 2, Knows3(e1, e3))
  {
    var e1, e2 := Filled(submitted, 1, id, now), Filled(submitted, 2, id, now);
    var sc := AfterLeaving(Sees1(e1), 1, e2);
    Misses(submitted, id, now);
    assert Numbered(sc, submitted, id, now) == Filled(submitted, 3, id, now);
    NotWritten(e1);
    MissedIsReady(e1, e2);
    Hears1(sc, 1, 2, Knows1(e1), Written(e1), submitted, id, now);
  }

  lemma MissedIsReady(e1: Event, e2: Event)
    ensures var sc := AfterLeaving(Sees1(e1), 1, e2);
      && sc.next == 1 && |sc.log| == 2 && Rested(sc) && Enrolled(sc, {})
      && 2 in sc.sessions && sc.sessions[2] == Sent(Written(e1))
  {
    assert [] + Written(e1) == Written(e1);
  }

  lemma NotWritten(e1: Event)
    ensures Of(Written(e1), 2) == []
  {
    OfSnoc([], Frame(1, Ack(0)), 2);
    OfSnoc([Frame(1, Ack(0))], Frame(1, Live(e1)), 2);
    assert [] + [Frame(1, Ack(0))] == [Frame(1, Ack(0))];
    assert [Frame(1, Ack(0))] + [Frame(1, Live(e1))] == Written(e1);
  }

  lemma Heard3Facts(e1: Event, e2: Event, e3: Event)
    requires e3.topic == e1.topic && e1.seqno == 1 && e3.seqno == 3
    ensures var s, k := Server(Heard3(e1, e2, e3)), Knows3(e1, e3);
      && R.Clean(s, k) && R.Calm(s, k)
      && Td(s, e1.topic).events == [e1, e2, e3] && k.seen == [e1, e3]
  {
    assert [e1] + [e2] + [e3] == [e1, e2, e3] && [e1] + [e3] == [e1, e3];
    assert Knows3(e1, e3).used == {1, 2};
  }

  /**
   Reconnect without a gap: the promise fails in the browser too. Whatever is published, there is a run,
   with nothing lost on the server's side and no publish in flight at any registration, in which the
   topic is in the table all along from before event 1 to after event 3, and the callbacks never get 2.
   */
  lemma StaleUnsubscribeSkips(submitted: Event, id: string, now: Time)
    requires Publishable(submitted)
    ensures var e1, e2 := Filled(submitted, 1, id, now), Filled(submitted, 2, id, now);
      var e3, t := Filled(submitted, 3, id, now), submitted.topic;
      exists w: World ::
        && Reachable(t, w) && t in w.b.c.topics && R.Clean(w.s, w.k) && R.Calm(w.s, w.k)
        && Td(w.s, t).events == [e1, e2, e3] && w.k.seen == [e1, e3]
  {
    var e1, e2 := Filled(submitted, 1, id, now), Filled(submitted, 2, id, now);
    var e3, t := Filled(submitted, 3, id, now), submitted.topic;
    HearsThird(submitted, id, now);
    Heard3Facts(e1, e2, e3);
    var b := Online(Table1(t, 2, 3), 2, Flushed(t), 3, {t});
    var clean :| Reachable(t, World(b, Server(Heard3(e1, e2, e3)), 2, Knows3(e1, e3), clean));
    assert t in World(b, Server(Heard3(e1, e2, e3)), 2, Knows3(e1, e3), clean).b.c.topics;
  }
}
