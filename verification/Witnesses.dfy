/**
 Runs on which two promises of the documentation fail, for any event.

 A resumed topic is promised no duplicate: a client that reads an event which is stored but not yet
 fanned out, is cut off, and resubscribes before the fan-out is handed the event twice. A subscription
 is promised to start exactly at its sequence number: one that asks for a number beyond the log is
 handed the events below it as they come.
 */
module Witnesses {
  import opened Types
  import opened Topics
  import opened Log
  import opened Subscriptions
  import opened Engine
  import opened Outboxes
  import opened Scenes
  import R = Resume

  ghost predicate Client(sc: Scene, k: R.Client) { R.ClientReachable(CONFIG, R.World(Server(sc), k)) }

  lemma {:induction false} FollowsRun(run: seq<System>, steps: seq<Step>, k: R.Client)
    requires Steps(run, steps) && R.ClientReachable(CONFIG, R.World(run[0], k))
    ensures R.ClientReachable(CONFIG, R.World(run[|steps|], k))
  {
    if steps != [] {
      var n := |steps| - 1;
      assert forall i :: 0 <= i < n ==> steps[..n][i] == steps[i];
      FollowsRun(run[..n + 1], steps[..n], k);
      assert Next(CONFIG, run[n], steps[n], run[n + 1]);
      R.MoveReachable(CONFIG, R.World(run[n], k), R.Serve(steps[n]), R.World(run[n + 1], k));
    }
  }

  /** The client waits while the server goes on. */
  lemma Waits(sc: Scene, sc': Scene, k: R.Client)
    requires Client(sc, k) && Reached(Server(sc), sc')
    ensures Client(sc', k)
  {
    var run: seq<System>, steps: seq<Step> :|
      Steps(run, steps) && run[0] == Server(sc) && run[|steps|] == Server(sc');
    FollowsRun(run, steps, k);
  }

  lemma Begins(t: string, from: From)
    ensures Client(Idling(t), R.Newcomer(t, from))
  {
    var moves: seq<R.Move> := [];
    var run := [R.World(Server(Idling(t)), R.Newcomer(t, from))];
    assert R.IsClientRun(CONFIG, run, moves) && run[|moves|] == run[0];
  }

  lemma Attaches(sc: Scene, sid: nat, k: R.Client)
    requires Client(sc, k) && ValidTopic(sc.t) && k.topic == sc.t && k.current.None? && sid in sc.sessions
    requires sc.log == [] ==> sc.fans == []
    ensures Client(Subscribed(sc, sid, R.ResumeFrom(k)), R.Attached(k, sc.next + 1))
  {
    var sc' := Subscribed(sc, sid, R.ResumeFrom(k));
    Subscribes(sc, sid, R.ResumeFrom(k));
    R.MoveReachable(CONFIG, R.World(Server(sc), k), R.Attach(sid),
                    R.World(Server(sc'), R.Attached(k, sc.next + 1)));
  }

  lemma Receives(sc: Scene, k: R.Client, id: nat, m: Msg)
    requires Client(sc, k) && k.current == Some(id)
    requires k.pos < |R.Wire(Server(sc), id)| && R.Wire(Server(sc), id)[k.pos] == m
    ensures Client(sc, R.Dispatch(k, m))
  {
    R.MoveReachable(CONFIG, R.World(Server(sc), k), R.Move.Receive, R.World(Server(sc), R.Dispatch(k, m)));
  }

  lemma IsCut(sc: Scene, k: R.Client)
    requires Client(sc, k)
    ensures Client(sc, k.(current := None))
  {
    R.MoveReachable(CONFIG, R.World(Server(sc), k), R.Cut, R.World(Server(sc), k.(current := None)));
  }

  // ---- the same event twice ----

  /** e is stored and its publisher is about to go on; one session is connected. */
  function Storing(e: Event): Scene { Staged(Idling(e.topic).(log := [e], sessions := map[0 := NOTHING]), e, Appended) }

  lemma Stores(submitted: Event, id: string, now: Time, from: From)
    requires Publishable(submitted)
    ensures Client(Storing(Filled(submitted, 1, id, now)), R.Newcomer(submitted.topic, from))
  {
    var sc, t, e := Idling(submitted.topic), submitted.topic, Filled(submitted, 1, id, now);
    var a := Server(sc);
    Stays(a);
    Connects(a, sc, 0);
    var sc1 := sc.(sessions := map[0 := NOTHING]);
    assert sc.sessions[0 := NOTHING] == sc1.sessions;
    Locks(a, sc1, submitted);
    Appends(a, sc1, submitted, id, now);
    assert [] + [e] == [e] && Storing(e) == Publishing(sc1.(log := sc1.log + [e]), Ingesting(e, 0, Appended));
    Begins(t, from);
    Waits(sc, Storing(e), R.Newcomer(t, from));
  }

  function First(e: Event): Sub { NewSub(e.topic, 0, FromLastN(1), 0, 1) }

  function Reader(e: Event): R.Client { R.Client(e.topic, FromLastN(1), 1, None, 1, [e], 0, {1}) }

  /** The client has seen the stored event by way of its backfill, and its connection is gone. */
  function SeenOnce(e: Event): Scene {
    Storing(e).(subs := map[1 := Reading(First(e), [e], 1, 1)], next := 1,
                sessions := map[0 := Sent([Frame(1, Replayed(e))])])
  }

  lemma SeesOnce(e: Event)
    requires Client(Storing(e), R.Newcomer(e.topic, FromLastN(1))) && ValidTopic(e.topic) && e.seqno == 1
    ensures Client(SeenOnce(e), Reader(e))
  {
    var sc, k := Storing(e), R.Newcomer(e.topic, FromLastN(1));
    Attaches(sc, 0, k);
    var sc1, k1 := Subscribed(sc, 0, FromLastN(1)), R.Attached(k, 1);
    Backfills(sc1, e);
    Waits(sc1, SeenOnce(e), k1);
    OfSnoc([], Frame(1, Replayed(e)), 1);
    assert [] + [Frame(1, Replayed(e))] == [Frame(1, Replayed(e))];
    assert R.Wire(Server(SeenOnce(e)), 1) == [Replayed(e)];
    Receives(SeenOnce(e), k1, 1, Replayed(e));
    IsCut(SeenOnce(e), R.Dispatch(k1, Replayed(e)));
    assert R.Dispatch(k1, Replayed(e)).(current := None) == Reader(e);
  }

  lemma Backfills(sc: Scene, e: Event)
    requires sc == Subscribed(Storing(e), 0, FromLastN(1))
    ensures Reached(Server(sc), SeenOnce(e))
  {
    Stays(Server(sc));
    assert sc.subs == map[1 := First(e)];
    Reads(Server(sc), sc, 1, 0, FromLastN(1), [e]);
    var sc1 := sc.(subs := map[1 := Reading(First(e), [e], 1, 0)]);
    assert sc.subs[1 := Reading(First(e), [e], 1, 0)] == sc1.subs;
    Replays(Server(sc), sc1, 1, 0, [], First(e), [e], 0);
    assert sc1.subs[1 := Reading(First(e), [e], 1, 1)] == SeenOnce(e).subs;
    assert [] + [Frame(1, Replayed(e))] == [Frame(1, Replayed(e))];
    assert sc1.sessions[0 := Sent([Frame(1, Replayed(e))])] == SeenOnce(e).sessions;
  }

  function Second(e: Event): Sub { Listening(NewSub(e.topic, 0, FromSeq(2), 0, 1), 1) }

  /** It has resubscribed from the next number; nothing was replayed. */
  function Resubscribed(e: Event): Scene {
    SeenOnce(e).(subs := map[1 := Reading(First(e), [e], 1, 1), 2 := Second(e)], next := 2,
                 sessions := map[0 := Sent([Frame(1, Replayed(e)), Frame(2, Ack(0))])])
  }

  lemma Resubscribes(e: Event)
    requires Client(SeenOnce(e), Reader(e)) && ValidTopic(e.topic) && e.seqno == 1
    ensures Client(Resubscribed(e), R.Attached(Reader(e), 2))
  {
    Attaches(SeenOnce(e), 0, Reader(e));
    Reopens(e);
    Waits(Subscribed(SeenOnce(e), 0, FromSeq(2)), Resubscribed(e), R.Attached(Reader(e), 2));
  }

  lemma Reopens(e: Event)
    requires e.seqno == 1
    ensures Reached(Server(Subscribed(SeenOnce(e), 0, FromSeq(2))), Resubscribed(e))
  {
    var sc := Subscribed(SeenOnce(e), 0, FromSeq(2));
    Stays(Server(sc));
    AtLeastNone([e], 2);
    Listens(Server(sc), sc, 2, 0, [Frame(1, Replayed(e))]);
    assert sc.subs[2 := Second(e)] == Resubscribed(e).subs;
    assert [Frame(1, Replayed(e))] + [Frame(2, Ack(0))] == [Frame(1, Replayed(e)), Frame(2, Ack(0))];
    assert sc.sessions[0 := Sent([Frame(1, Replayed(e)), Frame(2, Ack(0))])] == Resubscribed(e).sessions;
  }

  function Offered(e: Event): Sub { Second(e).(queue := [e], offered := [e]) }

  /** The publisher goes on, and the event arrives live. */
  function Delivered(e: Event): Scene {
    Fanned(Resubscribed(e), e, {1}, None).(
      subs := map[1 := Reading(First(e), [e], 1, 1), 2 := HandedOn(Offered(e), e)],
      sessions := map[0 := Sent([Frame(1, Replayed(e)), Frame(2, Ack(0)), Frame(2, Live(e))])])
  }

  /** The publisher offers it to the second subscription first. */
  lemma FansOut(e: Event)
    requires e.state == None
    ensures var sc := Resubscribed(e);
      Reached(Server(sc), Fanned(sc.(subs := sc.subs[2 := Offered(e)]), e, {1}, None))
  {
    var sc := Resubscribed(e);
    Stays(Server(sc));
    assert sc == Staged(sc, e, Appended);
    Saves(Server(sc), sc, e);
    Snapshots(Server(sc), sc, e, {1, 2});
    Offers(Server(sc), sc, e, {1, 2}, 2);
    assert {1, 2} - {2} == {1} && [] + [e] == [e];
  }

  lemma Delivers(e: Event)
    requires e.seqno == 1 && e.state == None
    ensures Reached(Server(Resubscribed(e)), Delivered(e))
  {
    var sc, fs := Resubscribed(e), [Frame(1, Replayed(e)), Frame(2, Ack(0))];
    FansOut(e);
    var sc1 := Fanned(sc.(subs := sc.subs[2 := Offered(e)]), e, {1}, None);
    HandsOn(Server(sc), sc1, 2, 0, fs, e);
    assert sc1.subs[2 := HandedOn(Offered(e), e)] == Delivered(e).subs;
    assert fs + [Frame(2, Live(e))] == [Frame(1, Replayed(e)), Frame(2, Ack(0)), Frame(2, Live(e))];
    assert sc1.sessions[0 := Sent(fs + [Frame(2, Live(e))])] == Delivered(e).sessions;
  }

  function Again(e: Event): R.Client { R.Client(e.topic, FromLastN(1), 1, Some(2), 2, [e, e], 1, {1, 2}) }

  lemma SeesAgain(e: Event)
    requires Client(Resubscribed(e), R.Attached(Reader(e), 2)) && e.seqno == 1 && e.state == None
    ensures Client(Delivered(e), Again(e))
  {
    var sc, k := Delivered(e), R.Attached(Reader(e), 2);
    Delivers(e);
    Waits(Resubscribed(e), sc, k);
    OfList([Frame(1, Replayed(e)), Frame(2, Ack(0)), Frame(2, Live(e))], 2);
    assert R.Wire(Server(sc), 2) == [Ack(0), Live(e)];
    Receives(sc, k, 2, Ack(0));
    Receives(sc, R.Dispatch(k, Ack(0)), 2, Live(e));
    assert {1} + {2} == {1, 2} && [e] + [e] == [e, e] && R.Dispatch(R.Dispatch(k, Ack(0)), Live(e)) == Again(e);
  }

  /**
   No duplicates on resume: the promise fails. Whatever event is published, there is a run, free of
   losses, in which a client that resumed after it is handed it a second time.
   */
  lemma ResumeCanRepeat(submitted: Event, id: string, now: Time)
    requires Publishable(submitted)
    ensures var e := Filled(submitted, 1, id, now);
      exists w: R.World :: R.ClientReachable(CONFIG, w) && R.Clean(w.s, w.k) && w.k.seen == [e, e]
  {
    var e := Filled(submitted, 1, id, now);
    Stores(submitted, id, now, FromLastN(1));
    SeesOnce(e);
    Resubscribes(e);
    SeesAgain(e);
    var w := R.World(Server(Delivered(e)), Again(e));
    assert R.Clean(w.s, w.k) && w.k.seen == [e, e];
  }

  // ---- an event below the seed ----

  function Early(t: string, seed: uint64): Sub { Listening(NewSub(t, 0, FromSeq(seed), 0, 0), 0) }

  /** A client has subscribed to the empty topic from a number beyond it, and been acknowledged. */
  function Asked(t: string, seed: uint64): Scene {
    Idling(t).(subs := map[1 := Early(t, seed)], next := 1, sessions := map[0 := Sent([Frame(1, Ack(0))])])
  }

  function Open(t: string): Scene { Idling(t).(sessions := map[0 := NOTHING]) }

  lemma Opened(t: string, from: From)
    ensures Client(Open(t), R.Newcomer(t, from))
  {
    Begins(t, from);
    Stays(Server(Idling(t)));
    Connects(Server(Idling(t)), Idling(t), 0);
    assert Idling(t).sessions[0 := NOTHING] == Open(t).sessions;
    Waits(Idling(t), Open(t), R.Newcomer(t, from));
  }

  lemma Answers(t: string, seed: uint64)
    ensures Reached(Server(Subscribed(Open(t), 0, FromSeq(seed))), Asked(t, seed))
  {
    var sc := Subscribed(Open(t), 0, FromSeq(seed));
    Stays(Server(sc));
    Listens(Server(sc), sc, 1, 0, []);
    assert [] + [Frame(1, Ack(0))] == [Frame(1, Ack(0))];
    assert sc.subs[1 := Early(t, seed)] == Asked(t, seed).subs;
    assert sc.sessions[0 := Sent([Frame(1, Ack(0))])] == Asked(t, seed).sessions;
  }

  lemma Asks(t: string, seed: uint64)
    requires ValidTopic(t) && seed > 0
    ensures Client(Asked(t, seed), R.Attached(R.Newcomer(t, FromSeq(seed)), 1))
  {
    var k := R.Newcomer(t, FromSeq(seed));
    Opened(t, FromSeq(seed));
    Attaches(Open(t), 0, k);
    Answers(t, seed);
    Waits(Subscribed(Open(t), 0, FromSeq(seed)), Asked(t, seed), R.Attached(k, 1));
  }

  /** The topic's first event was published and delivered to it. */
  function Overrun(e: Event, seed: uint64): Scene {
    Published(Asked(e.topic, seed), e).(
      subs := map[1 := Heard(Early(e.topic, seed), e)],
      sessions := map[0 := Sent([Frame(1, Ack(0)), Frame(1, Live(e))])])
  }

  lemma Overruns(submitted: Event, id: string, now: Time, seed: uint64)
    requires Publishable(submitted)
    ensures var t, e := submitted.topic, Filled(submitted, 1, id, now);
      Reached(Server(Asked(t, seed)), Overrun(e, seed))
  {
    var t, e := submitted.topic, Filled(submitted, 1, id, now);
    var sc := Asked(t, seed);
    Stays(Server(sc));
    PublishesTo(Server(sc), sc, submitted, id, now, 1, 0, [Frame(1, Ack(0))]);
    assert sc.subs[1 := Heard(Early(t, seed), e)] == Overrun(e, seed).subs;
    assert [Frame(1, Ack(0))] + [Frame(1, Live(e))] == [Frame(1, Ack(0)), Frame(1, Live(e))];
    assert sc.sessions[0 := Sent([Frame(1, Ack(0)), Frame(1, Live(e))])] == Overrun(e, seed).sessions;
  }

  function Handed(e: Event, seed: uint64): R.Client {
    R.Client(e.topic, FromSeq(seed), 1, Some(1), 2, [e], 0, {1})
  }

  lemma SeesEarly(submitted: Event, id: string, now: Time, seed: uint64)
    requires Publishable(submitted) && seed > 0
    ensures var e := Filled(submitted, 1, id, now); Client(Overrun(e, seed), Handed(e, seed))
  {
    var t, e := submitted.topic, Filled(submitted, 1, id, now);
    var sc, k := Overrun(e, seed), R.Attached(R.Newcomer(t, FromSeq(seed)), 1);
    Asks(t, seed);
    Overruns(submitted, id, now, seed);
    Waits(Asked(t, seed), sc, k);
    OfList([Frame(1, Ack(0)), Frame(1, Live(e))], 1);
    assert R.Wire(Server(sc), 1) == [Ack(0), Live(e)];
    Receives(sc, k, 1, Ack(0));
    Receives(sc, R.Dispatch(k, Ack(0)), 1, Live(e));
    assert R.Dispatch(R.Dispatch(k, Ack(0)), Live(e)) == Handed(e, seed);
  }

  /**
   Start at exactly the number asked for: the promise fails. For every seed above 1 and every event
   there is a run, free of losses and with no publish in flight at registration, in which the
   subscriber is handed the topic's first event.
   */
  lemma SeedCanBeOverrun(submitted: Event, id: string, now: Time, seed: uint64)
    requires Publishable(submitted) && seed > 1
    ensures var e := Filled(submitted, 1, id, now);
      exists w: R.World ::
        && R.ClientReachable(CONFIG, w) && R.Clean(w.s, w.k) && R.Calm(w.s, w.k)
        && w.k.from == FromSeq(seed) && w.k.seen == [e] && e.seqno < seed
  {
    var e := Filled(submitted, 1, id, now);
    SeesEarly(submitted, id, now, seed);
    var w := R.World(Server(Overrun(e, seed)), Handed(e, seed));
    assert R.Clean(w.s, w.k) && R.Calm(w.s, w.k);
    assert w.k.from == FromSeq(seed) && w.k.seen == [e];
  }

  /** The messages of one subscription among two or three frames. */
  lemma OfList(fs: seq<Frame>, id: nat)
    requires 2 <= |fs| <= 3
    ensures Of(fs, id) == MsgFor(fs[0], id) + MsgFor(fs[1], id) + (if |fs| == 3 then MsgFor(fs[2], id) else [])
  {
    OfSnoc([], fs[0], id);
    OfSnoc([fs[0]], fs[1], id);
    assert [] + [fs[0]] == [fs[0]] && fs[..2] == [fs[0]] + [fs[1]];
    if |fs| == 3 { OfSnoc(fs[..2], fs[2], id); }
    assert fs == if |fs| == 3 then fs[..2] + [fs[2]] else fs[..2];
  }
}
