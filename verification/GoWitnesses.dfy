/**
 Runs of the Go client on which a subscribe left on the send channel comes before the one that resumes:
 in one the callbacks never get an event published while the client was away, in the other they are
 handed again what they had. Nothing is lost on the server's side in either.
 */
module GoWitnesses {
  import opened Types
  import opened Topics
  import opened Log
  import opened Subscriptions
  import opened Engine
  import opened Outboxes
  import opened Scenes
  import opened CallbackTable
  import opened GoResume
  import W = WireFrom
  import G = GoClient
  import R = Resume

  ghost predicate Reachable(t: string, w: World) {
    exists run: seq<World>, moves: seq<Move> :: IsRun(CONFIG, t, run, moves) && run[|moves|] == w
  }

  /** The client and the server have come to this, whatever clean says. */
  ghost predicate At(sc: Scene, g: Local, sid: nat, k: R.Client) {
    exists clean: bool :: Reachable(sc.t, World(g, Server(sc), sid, k, clean))
  }

  lemma Moved(t: string, w: World, move: Move, w': World)
    requires Reachable(t, w) && Moves(CONFIG, t, w, move, w')
    ensures Reachable(t, w')
  {
    var run: seq<World>, moves: seq<Move> :| IsRun(CONFIG, t, run, moves) && run[|moves|] == w;
    var run', moves' := run + [w'], moves + [move];
    forall i | 0 <= i < |moves'| ensures Moves(CONFIG, t, run'[i], moves'[i], run'[i + 1]) {
      if i < |moves| { assert moves'[i] == moves[i] && Moves(CONFIG, t, run[i], moves[i], run[i + 1]); }
    }
    assert IsRun(CONFIG, t, run', moves') && run'[|moves'|] == w';
  }

  lemma {:induction false} FollowsRun(t: string, run: seq<System>, steps: seq<Step>, w: World)
    requires Steps(run, steps) && Reachable(t, w) && run[0] == w.s
    ensures Reachable(t, w.(s := run[|steps|]))
  {
    if steps != [] {
      var n := |steps| - 1;
      assert forall i :: 0 <= i < n ==> steps[..n][i] == steps[i];
      FollowsRun(t, run[..n + 1], steps[..n], w);
      assert Next(CONFIG, run[n], steps[n], run[n + 1]);
      Moved(t, w.(s := run[n]), Serve(steps[n]), w.(s := run[n + 1]));
    }
  }

  /** The client waits while the server goes on. */
  lemma Awaits(sc: Scene, sc': Scene, g: Local, sid: nat, k: R.Client)
    requires At(sc, g, sid, k) && Reached(Server(sc), sc') && sc'.t == sc.t
    ensures At(sc', g, sid, k)
  {
    var clean :| Reachable(sc.t, World(g, Server(sc), sid, k, clean));
    var run: seq<System>, steps: seq<Step> :|
      Steps(run, steps) && run[0] == Server(sc) && run[|steps|] == Server(sc');
    FollowsRun(sc.t, run, steps, World(g, Server(sc), sid, k, clean));
  }

  lemma Does(sc: Scene, g: Local, sid: nat, k: R.Client, move: Move, g': Local)
    requires At(sc, g, sid, k) && DoLocal(g, move, g')
    ensures At(sc, g', sid, k)
  {
    var clean :| Reachable(sc.t, World(g, Server(sc), sid, k, clean));
    Moved(sc.t, World(g, Server(sc), sid, k, clean), move, World(g', Server(sc), sid, k, clean));
  }

  lemma Begins(t: string, k: R.Client)
    requires k.current.None?
    ensures At(Idling(t), Local(map[], 0, None, [], Down, false, [], 0, false), 0, k)
  {
    var moves: seq<Move> := [];
    var w := World(Local(map[], 0, None, [], Down, false, [], 0, false), Server(Idling(t)), 0, k, true);
    assert IsRun(CONFIG, t, [w], moves) && [w][|moves|] == w;
    assert Reachable(t, w);
  }

  lemma Starts(sc: Scene, g: Local, sid: nat, k: R.Client, sid': nat)
    requires At(sc, g, sid, k) && g.phase == Dialled([]) && g.handled <= |g.sent| && sid' !in sc.sessions
    ensures At(sc.(sessions := sc.sessions[sid' := NOTHING]), g.(phase := Up, writing := true), sid', k)
  {
    var clean :| Reachable(sc.t, World(g, Server(sc), sid, k, clean));
    var g', s' := g.(phase := Up, writing := true), Server(sc.(sessions := sc.sessions[sid' := NOTHING]));
    assert DoConnect(Server(sc), sid', s');
    Moved(sc.t, World(g, Server(sc), sid, k, clean), Start, World(g', s', sid', k, clean && Fresh(g', k, sc.t)));
  }

  lemma IsCut(sc: Scene, g: Local, sid: nat, k: R.Client)
    requires At(sc, g, sid, k) && g.phase.Up?
    ensures At(sc, g.(phase := Down, sent := [], handled := 0, held := false), sid, k.(current := None))
  {
    var clean :| Reachable(sc.t, World(g, Server(sc), sid, k, clean));
    var g' := g.(phase := Down, sent := [], handled := 0, held := false);
    Moved(sc.t, World(g, Server(sc), sid, k, clean), Cut, World(g', Server(sc), sid, k.(current := None), clean));
  }

  // ---- a client of one topic ----

  function AskFrame(t: string, from: From): G.OutFrame { G.OutFrame.Subscribe(t, W.SubscribeSeed(from, 0)) }

  function Table1(t: string, from: From, lastSeen: nat): Table { map[t := CallbackTable.Entry(from, {1}, lastSeen)] }

  /** Connected, its writer running; of the frames sent the session has handled all or none. */
  function Conn(topics: Table, chan: seq<G.OutFrame>, sent: seq<G.OutFrame>, held: bool): Local {
    Local(topics, 1, None, chan, Up, true, sent, if held then |sent| else 0, held)
  }

  /** It has subscribed on its first connection, and the frame waits for the writer. */
  lemma Arrives(t: string, from: From)
    requires ValidTopic(t)
    ensures At(Idling(t).(sessions := map[1 := NOTHING]), Conn(Table1(t, from, 0), [AskFrame(t, from)], [], false), 1,
               R.Newcomer(t, from))
  {
    var g0, k0 := Local(map[], 0, None, [], Down, false, [], 0, false), R.Newcomer(t, from);
    Begins(t, k0);
    var g1 := g0.(phase := Dialled([]));
    assert Resubscriptions(map[], []) == [] && Walks([], map[]);
    Does(Idling(t), g0, 0, k0, Dial([]), g1);
    Starts(Idling(t), g1, 0, k0, 1);
    var sc := Idling(t).(sessions := map[1 := NOTHING]);
    assert Idling(t).sessions[1 := NOTHING] == sc.sessions;
    var g2 := g1.(phase := Up, writing := true);
    Calls(sc, g2, 1, k0, from);
    var g3 := g2.(topics := Table1(t, from, 0), nextID := 1, pending := Some(AskFrame(t, from)));
    assert [] + [AskFrame(t, from)] == [AskFrame(t, from)];
    Does(sc, g3, 1, k0, Push, Conn(Table1(t, from, 0), [AskFrame(t, from)], [], false));
  }

  lemma Calls(sc: Scene, g: Local, sid: nat, k: R.Client, from: From)
    requires At(sc, g, sid, k) && g.topics == map[] && g.nextID == 0 && g.pending.None? && ValidTopic(sc.t)
    ensures At(sc, g.(topics := Table1(sc.t, from, 0), nextID := 1, pending := Some(AskFrame(sc.t, from))), sid,
               R.Newcomer(sc.t, from))
  {
    var clean :| Reachable(sc.t, World(g, Server(sc), sid, k, clean));
    var g' := g.(topics := Table1(sc.t, from, 0), nextID := 1, pending := Some(AskFrame(sc.t, from)));
    assert {} + {1} == {1} && Added(g.topics, sc.t, from, 1) == Table1(sc.t, from, 0);
    assert [] + [AskFrame(sc.t, from)] == [AskFrame(sc.t, from)];
    assert Called(g, Open(sc.t, from)) == g';
    Moved(sc.t, World(g, Server(sc), sid, k, clean), Call(Open(sc.t, from)),
          World(g', Server(sc), sid, R.Newcomer(sc.t, from), Quiet(g, sc.t)));
  }

  /** The connection dies with f still on the channel; the next one's writer sends f first. */
  lemma Reconnects(sc: Scene, g: Local, sid: nat, k: R.Client, from: From, seen: nat, f: G.OutFrame, sid': nat)
    requires At(sc, g, sid, k) && g == Conn(Table1(sc.t, from, seen), [f], g.sent, g.held) && sid' !in sc.sessions
    ensures var topics := Table1(sc.t, from, seen);
      At(sc.(sessions := sc.sessions[sid' := NOTHING]),
         Conn(topics, [G.Resubscribe(sc.t, topics[sc.t])], [f], false), sid', k.(current := None))
  {
    var topics, k' := Table1(sc.t, from, seen), k.(current := None);
    var again := G.Resubscribe(sc.t, topics[sc.t]);
    Does(sc, g, sid, k, PingFails, g.(writing := false));
    IsCut(sc, g.(writing := false), sid, k);
    var g1 := Local(topics, 1, None, [f], Down, false, [], 0, false);
    Redials(sc, g1, sid, k', again);
    assert [f] + [again] == [f, again];
    var g2 := g1.(phase := Dialled([]), chan := [f, again]);
    Starts(sc, g2, sid, k', sid');
    assert [f, again][1..] == [again] && [] + [f] == [f];
    Does(sc.(sessions := sc.sessions[sid' := NOTHING]), g2.(phase := Up, writing := true), sid', k', Take(true),
         Conn(topics, [again], [f], false));
  }

  lemma Redials(sc: Scene, g: Local, sid: nat, k: R.Client, again: G.OutFrame)
    requires At(sc, g, sid, k) && g.phase.Down? && !g.writing && |g.chan| == 1
    requires g.topics.Keys == {sc.t} && again == G.Resubscribe(sc.t, g.topics[sc.t])
    ensures At(sc, g.(phase := Dialled([]), chan := g.chan + [again]), sid, k)
  {
    assert forall x :: x in g.topics <==> x in g.topics.Keys;
    assert Walks([sc.t], g.topics);
    assert Resubscriptions(g.topics, [sc.t]) == [again];
    Does(sc, g, sid, k, Dial([sc.t]), g.(phase := Dialled([again])));
    assert [again][1..] == [];
    Does(sc, g.(phase := Dialled([again])), sid, k, Resend, g.(phase := Dialled([]), chan := g.chan + [again]));
  }

  lemma Asked(t: string, from: From, topics: Table, chan: seq<G.OutFrame>)
    requires from != FromSeq(0)
    ensures Opens(Conn(topics, chan, [AskFrame(t, from)], false), t, false)
    ensures W.Meaning(AskFrame(t, from).seed) == from
  {
    W.RoundTripIff(from);
  }

  /** The session subscribes at the seed of the frame. */
  lemma Handles(sc: Scene, topics: Table, chan: seq<G.OutFrame>, sid: nat, k: R.Client, from: From)
    requires At(sc, Conn(topics, chan, [AskFrame(sc.t, from)], false), sid, k) && from != FromSeq(0)
    requires ValidTopic(sc.t) && sid in sc.sessions && (sc.log == [] ==> sc.fans == [])
    ensures At(Subscribed(sc, sid, from), Conn(topics, chan, [AskFrame(sc.t, from)], true), sid,
               R.Attached(k, sc.next + 1))
  {
    var g := Conn(topics, chan, [AskFrame(sc.t, from)], false);
    var clean :| Reachable(sc.t, World(g, Server(sc), sid, k, clean));
    Asked(sc.t, from, topics, chan);
    Subscribes(sc, sid, from);
    var w := World(g, Server(sc), sid, k, clean);
    var w' := World(g.(handled := 1, held := true), Server(Subscribed(sc, sid, from)), sid, R.Attached(k, sc.next + 1),
                    clean);
    assert DoHandle(sc.t, w, false, w');
    Moved(sc.t, w, Handle(false), w');
  }

  lemma Receives(sc: Scene, g: Local, sid: nat, k: R.Client, id: nat, m: Msg)
    requires At(sc, g, sid, k) && g.phase.Up? && sc.t in g.topics && k.current == Some(id)
    requires k.pos < |R.Wire(Server(sc), id)| && R.Wire(Server(sc), id)[k.pos] == m
    ensures At(sc, if IsEvent(m) then g.(topics := Marked(g.topics, sc.t, m.e.seqno)) else g, sid, R.Dispatch(k, m))
  {
    var clean :| Reachable(sc.t, World(g, Server(sc), sid, k, clean));
    var g' := if IsEvent(m) then g.(topics := Marked(g.topics, sc.t, m.e.seqno)) else g;
    Moved(sc.t, World(g, Server(sc), sid, k, clean), Move.Receive, World(g', Server(sc), sid, R.Dispatch(k, m), clean));
  }

  lemma MarkedAt(t: string, from: From, lastSeen: nat, seqno: nat)
    ensures Marked(Table1(t, from, lastSeen), t, seqno) == Table1(t, from, if seqno > lastSeen then seqno else lastSeen)
  {
  }

  // ---- an event that is never delivered ----

  lemma IsTold(sc: Scene, seen: nat, chan: seq<G.OutFrame>, sid: nat, k: R.Client, id: nat, e: Event)
    requires var t := sc.t;
      At(sc, Conn(Table1(t, FromLatest, seen), chan, [AskFrame(t, FromLatest)], true), sid, R.Attached(k, id))
    requires R.Wire(Server(sc), id) == [Ack(0), Live(e)] && seen <= e.seqno
    ensures var t := sc.t;
      At(sc, Conn(Table1(t, FromLatest, e.seqno), chan, [AskFrame(t, FromLatest)], true), sid, Told(k, id, e))
  {
    var g, k1 := Conn(Table1(sc.t, FromLatest, seen), chan, [AskFrame(sc.t, FromLatest)], true), R.Attached(k, id);
    Receives(sc, g, sid, k1, id, Ack(0));
    Receives(sc, g, sid, R.Dispatch(k1, Ack(0)), id, Live(e));
    MarkedAt(sc.t, FromLatest, seen, e.seqno);
    TellsBoth(k, id, e);
  }

  /** The session opens the topic from latest, e is published, and the client gets it. */
  lemma HearsLatest(sc: Scene, seen: nat, chan: seq<G.OutFrame>, sid: nat, k: R.Client, e: Event, id: string, now: Time)
    requires At(sc, Conn(Table1(sc.t, FromLatest, seen), chan, [AskFrame(sc.t, FromLatest)], false), sid, k)
    requires Rested(sc) && Publishable(e) && e.topic == sc.t && Enrolled(sc, {})
    requires sid in sc.sessions && sc.sessions[sid] == Sent([]) && seen <= |sc.log|
    ensures var stored := Numbered(sc, e, id, now);
      At(AfterHearing(sc, sid, [], stored),
         Conn(Table1(sc.t, FromLatest, stored.seqno), chan, [AskFrame(sc.t, FromLatest)], true), sid,
         Told(k, sc.next + 1, stored))
  {
    var t, sub, stored := sc.t, sc.next + 1, Numbered(sc, e, id, now);
    Handles(sc, Table1(t, FromLatest, seen), chan, sid, k, FromLatest);
    Hears(sc, e, id, now, sid, []);
    Awaits(Subscribed(sc, sid, FromLatest), AfterHearing(sc, sid, [], stored),
           Conn(Table1(t, FromLatest, seen), chan, [AskFrame(t, FromLatest)], true), sid, R.Attached(k, sub));
    HearingIsWritten(sc, sid, [], stored);
    IsTold(AfterHearing(sc, sid, [], stored), seen, chan, sid, k, sub, stored);
  }

  lemma HearsFirst(submitted: Event, id: string, now: Time)
    requires Publishable(submitted)
    ensures var t, f, e := submitted.topic, AskFrame(submitted.topic, FromLatest), Filled(submitted, 1, id, now);
      At(Sees1(e), Conn(Table1(t, FromLatest, 1), [f], [f], true), 2, Knows1(e))
  {
    var t, k := submitted.topic, R.Newcomer(submitted.topic, FromLatest);
    var f := AskFrame(t, FromLatest);
    Arrives(t, FromLatest);
    var sc := Idling(t).(sessions := map[1 := NOTHING]);
    Reconnects(sc, Conn(Table1(t, FromLatest, 0), [f], [], false), 1, k, FromLatest, 0, f, 2);
    var sc' := Idling(t).(sessions := map[1 := NOTHING, 2 := NOTHING]);
    assert sc.sessions[2 := NOTHING] == sc'.sessions && k.(current := None) == k;
    HearsLatest(sc', 0, [f], 2, k, submitted, id, now);
  }

  /** Cut off; event 2 was published meanwhile; the third connection is up. */
  function Missed2(e1: Event, e2: Event): Scene {
    var sc := AfterLeaving(Sees1(e1), 1, e2); sc.(sessions := sc.sessions[3 := NOTHING])
  }

  lemma Misses(submitted: Event, id: string, now: Time)
    requires Publishable(submitted)
    ensures var t, f := submitted.topic, AskFrame(submitted.topic, FromLatest);
      var e1, e2 := Filled(submitted, 1, id, now), Filled(submitted, 2, id, now);
      var topics := Table1(t, FromLatest, 1);
      At(Missed2(e1, e2), Conn(topics, [G.Resubscribe(t, topics[t])], [f], false), 3, Knows1(e1).(current := None))
  {
    var t, f := submitted.topic, AskFrame(submitted.topic, FromLatest);
    var e1, e2 := Filled(submitted, 1, id, now), Filled(submitted, 2, id, now);
    var g := Conn(Table1(t, FromLatest, 1), [f], [f], true);
    HearsFirst(submitted, id, now);
    assert Numbered(Sees1(e1), submitted, id, now) == e2;
    LeavesBefore(Sees1(e1), submitted, id, now, 1, 2);
    Awaits(Sees1(e1), AfterLeaving(Sees1(e1), 1, e2), g, 2, Knows1(e1));
    Reconnects(AfterLeaving(Sees1(e1), 1, e2), g, 2, Knows1(e1), FromLatest, 1, f, 3);
  }

  /** The topic was opened afresh from latest, event 3 was published, and the client got it. */
  function Heard3(e1: Event, e2: Event, e3: Event): Scene { AfterHearing(Missed2(e1, e2), 3, [], e3) }

  function Knows3(e1: Event, e3: Event): R.Client { Told(Knows1(e1).(current := None), 2, e3) }

  lemma HearsThird(submitted: Event, id: string, now: Time)
    requires Publishable(submitted)
    ensures var t, f := submitted.topic, AskFrame(submitted.topic, FromLatest);
      var e1, e2 := Filled(submitted, 1, id, now), Filled(submitted, 2, id, now);
      var e3, again := Filled(submitted, 3, id, now), G.Resubscribe(t, Table1(t, FromLatest, 1)[t]);
      At(Heard3(e1, e2, e3), Conn(Table1(t, FromLatest, 3), [again], [f], true), 3, Knows3(e1, e3))
  {
    var t := submitted.topic;
    var e1, e2 := Filled(submitted, 1, id, now), Filled(submitted, 2, id, now);
    var sc, again := Missed2(e1, e2), G.Resubscribe(t, Table1(t, FromLatest, 1)[t]);
    Misses(submitted, id, now);
    assert Numbered(sc, submitted, id, now) == Filled(submitted, 3, id, now);
    HearsLatest(sc, 1, [again], 3, Knows1(e1).(current := None), submitted, id, now);
  }

  lemma Heard3Facts(e1: Event, e2: Event, e3: Event)
    requires e3.topic == e1.topic && e1.seqno == 1 && e3.seqno == 3
    ensures var s, k := Server(Heard3(e1, e2, e3)), Knows3(e1, e3);
      && R.Clean(s, k) && R.Calm(s, k)
      && Td(s, e1.topic).events == [e1, e2, e3] && k.seen == [e1, e3]
  {
    assert [e1] + [e2] + [e3] == [e1, e2, e3] && [e1] + [e3] == [e1, e3];
    assert Knows3(e1, e3).used == {1, 2};
  }

  /**
   Reconnect without a gap: the promise fails. Whatever is published, there is a run of one caller and one
   topic, with nothing lost on the server's side and no publish in flight at any registration, in which
   the callbacks get events 1 and 3 and never event 2: the client's first subscribe was still on the
   channel when it reconnected after event 1, so the topic was opened from latest.
   */
  lemma StaleSubscribeSkips(submitted: Event, id: string, now: Time)
    requires Publishable(submitted)
    ensures var e1, e2 := Filled(submitted, 1, id, now), Filled(submitted, 2, id, now);
      var e3, t := Filled(submitted, 3, id, now), submitted.topic;
      exists w: World ::
        && Reachable(t, w) && t in w.g.topics && R.Clean(w.s, w.k) && R.Calm(w.s, w.k)
        && Td(w.s, t).events == [e1, e2, e3] && w.k.seen == [e1, e3]
  {
    var e1, e2 := Filled(submitted, 1, id, now), Filled(submitted, 2, id, now);
    var e3, t := Filled(submitted, 3, id, now), submitted.topic;
    HearsThird(submitted, id, now);
    Heard3Facts(e1, e2, e3);
    var again := G.Resubscribe(t, Table1(t, FromLatest, 1)[t]);
    var g := Conn(Table1(t, FromLatest, 3), [again], [AskFrame(t, FromLatest)], true);
    var clean :| Reachable(t, World(g, Server(Heard3(e1, e2, e3)), 3, Knows3(e1, e3), clean));
    assert t in World(g, Server(Heard3(e1, e2, e3)), 3, Knows3(e1, e3), clean).g.topics;
  }

  // ---- events delivered again ----

  /** A session has subscribed from the first number of a log of two, and written the first n of its events. */
  function AfterReplaying(sc: Scene, sid: nat, e1: Event, e2: Event, n: nat): Scene
    requires n <= 2
  {
    var id := sc.next + 1;
    var q := NewSub(sc.t, sid, FromSeq(1), |sc.fans|, |sc.log|);
    sc.(subs := sc.subs[id := Reading(q, [e1, e2], 2, n)], next := id,
        sessions := sc.sessions[sid := Sent([Frame(id, Replayed(e1)), Frame(id, Replayed(e2))][..n])])
  }

  function AfterReplay(sc: Scene, sid: nat, e1: Event, e2: Event): Scene { AfterReplaying(sc, sid, e1, e2, 2) }

  predicate Holds2(sc: Scene, e1: Event, e2: Event) {
    sc.log == [e1, e2] && e1.seqno == 1 && e2.seqno == 2
  }

  lemma ReadsBoth(sc: Scene, sid: nat, e1: Event, e2: Event)
    requires Holds2(sc, e1, e2) && sid in sc.sessions && sc.sessions[sid] == Sent([])
    ensures Reached(Server(Subscribed(sc, sid, FromSeq(1))), AfterReplaying(sc, sid, e1, e2, 0))
  {
    var sc0, id := Subscribed(sc, sid, FromSeq(1)), sc.next + 1;
    Stays(Server(sc0));
    AtLeastAll([e1, e2], 1);
    Reads(Server(sc0), sc0, id, sid, FromSeq(1), [e1, e2]);
    var sc1 := AfterReplaying(sc, sid, e1, e2, 0);
    assert sc0.subs[id := sc1.subs[id]] == sc1.subs && sc0.sessions == sc1.sessions;
  }

  lemma ReplaysOne(a: System, sc: Scene, sid: nat, e1: Event, e2: Event, n: nat)
    requires n < 2 && Holds2(sc, e1, e2) && Reached(a, AfterReplaying(sc, sid, e1, e2, n))
    ensures Reached(a, AfterReplaying(sc, sid, e1, e2, n + 1))
  {
    var sc1, sc2, id := AfterReplaying(sc, sid, e1, e2, n), AfterReplaying(sc, sid, e1, e2, n + 1), sc.next + 1;
    var fs := [Frame(id, Replayed(e1)), Frame(id, Replayed(e2))];
    Replays(a, sc1, id, sid, fs[..n], NewSub(sc.t, sid, FromSeq(1), |sc.fans|, |sc.log|), [e1, e2], n);
    assert fs[..n] + [Frame(id, Replayed([e1, e2][n]))] == fs[..n + 1];
    assert sc1.subs[id := sc2.subs[id]] == sc2.subs && sc1.sessions[sid := sc2.sessions[sid]] == sc2.sessions;
  }

  lemma ReplaysBoth(sc: Scene, sid: nat, e1: Event, e2: Event)
    requires Holds2(sc, e1, e2) && sid in sc.sessions && sc.sessions[sid] == Sent([])
    ensures Reached(Server(Subscribed(sc, sid, FromSeq(1))), AfterReplay(sc, sid, e1, e2))
  {
    ReadsBoth(sc, sid, e1, e2);
    ReplaysOne(Server(Subscribed(sc, sid, FromSeq(1))), sc, sid, e1, e2, 0);
    ReplaysOne(Server(Subscribed(sc, sid, FromSeq(1))), sc, sid, e1, e2, 1);
  }

  /** What the client is after a subscription handed it both. */
  function Told2(k: R.Client, id: nat, e1: Event, e2: Event): R.Client {
    k.(current := Some(id), pos := 2, mark := |k.seen|, used := k.used + {id}, seen := k.seen + [e1, e2], lastSeen := 2)
  }

  lemma IsTold2(sc: Scene, seen: nat, chan: seq<G.OutFrame>, sid: nat, k: R.Client, id: nat, e1: Event, e2: Event)
    requires At(sc, Conn(Table1(sc.t, FromSeq(1), seen), chan, [AskFrame(sc.t, FromSeq(1))], true), sid,
                R.Attached(k, id))
    requires R.Wire(Server(sc), id) == [Replayed(e1), Replayed(e2)] && k.lastSeen == seen <= 2
    requires e1.seqno == 1 && e2.seqno == 2
    ensures At(sc, Conn(Table1(sc.t, FromSeq(1), 2), chan, [AskFrame(sc.t, FromSeq(1))], true), sid,
               Told2(k, id, e1, e2))
  {
    var t, f, k1 := sc.t, AskFrame(sc.t, FromSeq(1)), R.Attached(k, id);
    Receives(sc, Conn(Table1(t, FromSeq(1), seen), chan, [f], true), sid, k1, id, Replayed(e1));
    MarkedAt(t, FromSeq(1), seen, 1);
    var g := Conn(Table1(t, FromSeq(1), if seen == 0 then 1 else seen), chan, [f], true);
    Receives(sc, g, sid, R.Dispatch(k1, Replayed(e1)), id, Replayed(e2));
    MarkedAt(t, FromSeq(1), if seen == 0 then 1 else seen, 2);
    assert k.seen + [e1] + [e2] == k.seen + [e1, e2];
    assert R.Dispatch(R.Dispatch(k1, Replayed(e1)), Replayed(e2)) == Told2(k, id, e1, e2);
  }

  /** The session opens the topic from 1 and the client gets both events. */
  lemma RereadsBoth(sc: Scene, seen: nat, chan: seq<G.OutFrame>, sid: nat, k: R.Client, e1: Event, e2: Event)
    requires At(sc, Conn(Table1(sc.t, FromSeq(1), seen), chan, [AskFrame(sc.t, FromSeq(1))], false), sid, k)
    requires Holds2(sc, e1, e2) && sid in sc.sessions && sc.sessions[sid] == Sent([]) && ValidTopic(sc.t)
    requires k.lastSeen == seen <= 2
    ensures At(AfterReplay(sc, sid, e1, e2),
               Conn(Table1(sc.t, FromSeq(1), 2), chan, [AskFrame(sc.t, FromSeq(1))], true), sid,
               Told2(k, sc.next + 1, e1, e2))
  {
    var t, id := sc.t, sc.next + 1;
    Handles(sc, Table1(t, FromSeq(1), seen), chan, sid, k, FromSeq(1));
    ReplaysBoth(sc, sid, e1, e2);
    var sc' := AfterReplay(sc, sid, e1, e2);
    Awaits(Subscribed(sc, sid, FromSeq(1)), sc',
           Conn(Table1(t, FromSeq(1), seen), chan, [AskFrame(t, FromSeq(1))], true), sid, R.Attached(k, id));
    ReplayIsWritten(sc, sid, e1, e2);
    IsTold2(sc', seen, chan, sid, k, id, e1, e2);
  }

  lemma ReplayIsWritten(sc: Scene, sid: nat, e1: Event, e2: Event)
    ensures R.Wire(Server(AfterReplay(sc, sid, e1, e2)), sc.next + 1) == [Replayed(e1), Replayed(e2)]
  {
    var id := sc.next + 1;
    var fs := [Frame(id, Replayed(e1)), Frame(id, Replayed(e2))];
    assert fs[..2] == fs;
    OfPair(id, Replayed(e1), Replayed(e2));
  }

  lemma OfPair(id: nat, m1: Msg, m2: Msg)
    ensures Of([Frame(id, m1), Frame(id, m2)], id) == [m1, m2]
  {
    OfTwo([], id, m1, m2);
    assert [] + [Frame(id, m1), Frame(id, m2)] == [Frame(id, m1), Frame(id, m2)];
  }

  /** Two events are in the log and nobody is subscribed. */
  function Logged(e1: Event, e2: Event): Scene {
    Published(Published(Idling(e1.topic).(sessions := map[1 := NOTHING]), e1), e2)
  }

  lemma Logs(submitted: Event, id: string, now: Time)
    requires Publishable(submitted)
    ensures var e1, e2 := Filled(submitted, 1, id, now), Filled(submitted, 2, id, now);
      Reached(Server(Idling(submitted.topic).(sessions := map[1 := NOTHING])), Logged(e1, e2))
  {
    var sc, e1 := Idling(submitted.topic).(sessions := map[1 := NOTHING]), Filled(submitted, 1, id, now);
    Stays(Server(sc));
    PublishesUnheard(Server(sc), sc, submitted, id, now);
    LoggedOne(submitted.topic, e1);
    PublishesUnheard(Server(sc), Published(sc, e1), submitted, id, now);
  }

  lemma LoggedOne(t: string, e: Event)
    ensures var sc := Published(Idling(t).(sessions := map[1 := NOTHING]), e);
      Rested(sc) && Enrolled(sc, {}) && |sc.log| == 1 && sc.t == t
  {
  }

  /** The second connection is up. */
  function Reached2(e1: Event, e2: Event): Scene {
    var sc := Logged(e1, e2); sc.(sessions := sc.sessions[2 := NOTHING])
  }

  /** Both events came over it; the client's first subscribe is still on the channel. */
  function Read2(e1: Event, e2: Event): Scene { AfterReplay(Reached2(e1, e2), 2, e1, e2) }

  function Knows2(e1: Event, e2: Event): R.Client { Told2(R.Newcomer(e1.topic, FromSeq(1)), 1, e1, e2) }

  lemma Returns2(submitted: Event, id: string, now: Time)
    requires Publishable(submitted)
    ensures var t, f := submitted.topic, AskFrame(submitted.topic, FromSeq(1));
      var e1, e2 := Filled(submitted, 1, id, now), Filled(submitted, 2, id, now);
      At(Reached2(e1, e2), Conn(Table1(t, FromSeq(1), 0), [f], [f], false), 2, R.Newcomer(t, FromSeq(1)))
  {
    var t, f, k := submitted.topic, AskFrame(submitted.topic, FromSeq(1)), R.Newcomer(submitted.topic, FromSeq(1));
    var e1, e2 := Filled(submitted, 1, id, now), Filled(submitted, 2, id, now);
    var sc, g := Logged(e1, e2), Conn(Table1(t, FromSeq(1), 0), [f], [], false);
    Arrives(t, FromSeq(1));
    Logs(submitted, id, now);
    Awaits(Idling(t).(sessions := map[1 := NOTHING]), sc, g, 1, k);
    Reconnects(sc, g, 1, k, FromSeq(1), 0, f, 2);
  }

  lemma Reached2Holds(e1: Event, e2: Event)
    requires e1.seqno == 1 && e2.seqno == 2
    ensures var sc := Reached2(e1, e2);
      Holds2(sc, e1, e2) && sc.next == 0 && sc.t == e1.topic && 2 in sc.sessions && sc.sessions[2] == Sent([])
  {
    assert [] + [e1] + [e2] == [e1, e2];
  }

  lemma ReadsOnce(submitted: Event, id: string, now: Time)
    requires Publishable(submitted)
    ensures var t, f := submitted.topic, AskFrame(submitted.topic, FromSeq(1));
      var e1, e2 := Filled(submitted, 1, id, now), Filled(submitted, 2, id, now);
      At(Read2(e1, e2), Conn(Table1(t, FromSeq(1), 2), [f], [f], true), 2, Knows2(e1, e2))
  {
    var t, f := submitted.topic, AskFrame(submitted.topic, FromSeq(1));
    var e1, e2 := Filled(submitted, 1, id, now), Filled(submitted, 2, id, now);
    Returns2(submitted, id, now);
    Reached2Holds(e1, e2);
    RereadsBoth(Reached2(e1, e2), 0, [f], 2, R.Newcomer(t, FromSeq(1)), e1, e2);
  }

  /** And again over the third. */
  function ReadAgain(e1: Event, e2: Event): Scene {
    AfterReplay(Redialled(e1, e2), 3, e1, e2)
  }

  function KnowsAgain(e1: Event, e2: Event): R.Client { Told2(Knows2(e1, e2).(current := None), 2, e1, e2) }

  /** The third connection is up. */
  function Redialled(e1: Event, e2: Event): Scene {
    var sc := Read2(e1, e2); sc.(sessions := sc.sessions[3 := NOTHING])
  }

  lemma Returns3(submitted: Event, id: string, now: Time)
    requires Publishable(submitted)
    ensures var t, f := submitted.topic, AskFrame(submitted.topic, FromSeq(1));
      var e1, e2 := Filled(submitted, 1, id, now), Filled(submitted, 2, id, now);
      var again := G.Resubscribe(t, Table1(t, FromSeq(1), 2)[t]);
      At(Redialled(e1, e2), Conn(Table1(t, FromSeq(1), 2), [again], [f], false), 3, Knows2(e1, e2).(current := None))
  {
    var t, f := submitted.topic, AskFrame(submitted.topic, FromSeq(1));
    var e1, e2 := Filled(submitted, 1, id, now), Filled(submitted, 2, id, now);
    ReadsOnce(submitted, id, now);
    Reconnects(Read2(e1, e2), Conn(Table1(t, FromSeq(1), 2), [f], [f], true), 2, Knows2(e1, e2), FromSeq(1), 2, f, 3);
  }

  lemma ReadsTwice(submitted: Event, id: string, now: Time)
    requires Publishable(submitted)
    ensures var t, f := submitted.topic, AskFrame(submitted.topic, FromSeq(1));
      var e1, e2 := Filled(submitted, 1, id, now), Filled(submitted, 2, id, now);
      var again := G.Resubscribe(t, Table1(t, FromSeq(1), 2)[t]);
      At(ReadAgain(e1, e2), Conn(Table1(t, FromSeq(1), 2), [again], [f], true), 3, KnowsAgain(e1, e2))
  {
    var t, sc := submitted.topic, Redialled(Filled(submitted, 1, id, now), Filled(submitted, 2, id, now));
    var e1, e2 := Filled(submitted, 1, id, now), Filled(submitted, 2, id, now);
    Returns3(submitted, id, now);
    RedialledHolds(e1, e2);
    RereadsBoth(sc, 2, [G.Resubscribe(t, Table1(t, FromSeq(1), 2)[t])], 3, Knows2(e1, e2).(current := None), e1, e2);
  }

  lemma RedialledHolds(e1: Event, e2: Event)
    requires e1.seqno == 1 && e2.seqno == 2
    ensures var sc := Redialled(e1, e2);
      Holds2(sc, e1, e2) && sc.next == 1 && sc.t == e1.topic && 3 in sc.sessions && sc.sessions[3] == Sent([])
  {
    assert [] + [e1] + [e2] == [e1, e2];
  }

  lemma ReadAgainFacts(e1: Event, e2: Event)
    requires e1.topic == e2.topic && e1.seqno == 1 && e2.seqno == 2
    ensures var s, k := Server(ReadAgain(e1, e2)), KnowsAgain(e1, e2);
      R.Clean(s, k) && R.Calm(s, k) && k.seen == [e1, e2, e1, e2]
  {
    assert [e1, e2] + [e1, e2] == [e1, e2, e1, e2] && KnowsAgain(e1, e2).used == {1, 2};
  }

  /**
   No duplicates on reconnect: the promise fails by whole ranges. Whatever is published, there is a run
   of one caller and one topic, with nothing lost on the server's side and no publish in flight at any
   registration, in which the callbacks get events 1 and 2 and then both again.
   */
  lemma StaleSubscribeReplays(submitted: Event, id: string, now: Time)
    requires Publishable(submitted)
    ensures var e1, e2 := Filled(submitted, 1, id, now), Filled(submitted, 2, id, now);
      var t := submitted.topic;
      exists w: World ::
        && Reachable(t, w) && t in w.g.topics && R.Clean(w.s, w.k) && R.Calm(w.s, w.k)
        && w.k.seen == [e1, e2, e1, e2]
  {
    var e1, e2, t := Filled(submitted, 1, id, now), Filled(submitted, 2, id, now), submitted.topic;
    ReadsTwice(submitted, id, now);
    ReadAgainFacts(e1, e2);
    var again := G.Resubscribe(t, Table1(t, FromSeq(1), 2)[t]);
    var g := Conn(Table1(t, FromSeq(1), 2), [again], [AskFrame(t, FromSeq(1))], true);
    var clean :| Reachable(t, World(g, Server(ReadAgain(e1, e2)), 3, KnowsAgain(e1, e2), clean));
    assert t in World(g, Server(ReadAgain(e1, e2)), 3, KnowsAgain(e1, e2), clean).g.topics;
  }
}
