/**
 Runs of the step machine, built step by step: one topic on the memory store, any number of sessions and
 subscriptions, and publishers that go one after another. What a sequence of steps leads to is said by
 the scene it ends in.
 */
module Scenes {
  import opened Types
  import opened Topics
  import opened Log
  import opened Registry
  import opened Subscriptions
  import opened Engine
  import opened Outboxes
  import R = Resume

  const CONFIG := Config(Memory, map[])

  /** Some steps of the server take it from s to s'. */
  ghost predicate Reaches(s: System, s': System) {
    exists run: seq<System>, steps: seq<Step> :: Steps(run, steps) && run[0] == s && run[|steps|] == s'
  }

  ghost predicate Steps(run: seq<System>, steps: seq<Step>) {
    && |run| == |steps| + 1
    && forall i {:trigger steps[i]} :: 0 <= i < |steps| ==> Next(CONFIG, run[i], steps[i], run[i + 1])
  }

  lemma Stays(s: System)
    ensures Reaches(s, s)
  {
    var steps: seq<Step> := [];
    assert Steps([s], steps);
  }

  lemma Then(a: System, s: System, step: Step, s': System)
    requires Reaches(a, s) && Next(CONFIG, s, step, s')
    ensures Reaches(a, s')
  {
    var run: seq<System>, steps: seq<Step> :| Steps(run, steps) && run[0] == a && run[|steps|] == s;
    var run', steps' := run + [s'], steps + [step];
    forall i | 0 <= i < |steps'| ensures Next(CONFIG, run'[i], steps'[i], run'[i + 1]) {
      if i < |steps| { assert Next(CONFIG, run[i], steps[i], run[i + 1]); }
    }
    assert Steps(run', steps');
  }

  /** Event i of the log was published by publisher i. */
  datatype Scene = Scene(
    t: string, log: seq<Event>, fans: seq<Event>, pubs: map<nat, Publisher>, lock: Option<nat>,
    subs: map<nat, Sub>, next: nat, sessions: map<nat, Outbox>)

  function Owners(n: nat): seq<nat> { seq(n, i requires 0 <= i < n => i) }

  function Server(sc: Scene): System {
    System(if sc.log == [] then map[] else map[sc.t := TopicData(|sc.log|, sc.log, None, Owners(|sc.log|), sc.fans)],
           sc.pubs, sc.lock, sc.subs, sc.next, sc.sessions)
  }

  /** A server that has just started. */
  function Idling(t: string): Scene { Scene(t, [], [], map[], None, map[], 0, map[]) }

  const NOTHING := Outbox([], [], [], 0)

  /** A session whose writer is up to date. */
  function Sent(fs: seq<Frame>): Outbox { Outbox([], fs, fs, 0) }

  ghost predicate Reached(a: System, sc: Scene) {
    Reaches(a, Server(sc)) && (sc.log == [] ==> sc.fans == [])
  }

  // ---- sessions ----

  lemma Connects(a: System, sc: Scene, sid: nat)
    requires Reached(a, sc) && sid !in sc.sessions
    ensures Reached(a, sc.(sessions := sc.sessions[sid := NOTHING]))
  {
    Then(a, Server(sc), Connect(sid), Server(sc.(sessions := sc.sessions[sid := NOTHING])));
  }

  /** The scene after a session's subscribe. */
  function Subscribed(sc: Scene, sid: nat, from: From): Scene {
    sc.(subs := sc.subs[sc.next + 1 := NewSub(sc.t, sid, from, |sc.fans|, |sc.log|)], next := sc.next + 1)
  }

  lemma Subscribes(sc: Scene, sid: nat, from: From)
    requires ValidTopic(sc.t) && sid in sc.sessions && (sc.log == [] ==> sc.fans == [])
    ensures DoSubscribe(Server(sc), sid, sc.t, from, Server(Subscribed(sc, sid, from)))
  {
    assert Td(Server(sc), sc.t).events == sc.log && Td(Server(sc), sc.t).fans == sc.fans;
  }

  predicate Serves(sc: Scene, id: nat, sid: nat) {
    id in sc.subs && sc.subs[id].session == sid && sid in sc.sessions && sc.subs[id].topic == sc.t
  }

  /** A session or its forwarder takes a silent step. */
  lemma Acts(a: System, sc: Scene, id: nat, sid: nat, act: Act, q: Sub)
    requires Reached(a, sc) && Serves(sc, id, sid) && Local(Memory, sc.log, act, sc.subs[id], q, [])
    ensures Reached(a, sc.(subs := sc.subs[id := q]))
  {
    var sc' := sc.(subs := sc.subs[id := q]);
    assert Td(Server(sc), sc.t).events == sc.log;
    assert sc.sessions == sc.sessions[sid := sc.sessions[sid]];
    assert Replaces(Server(sc), id, q, [], Server(sc'));
    Then(a, Server(sc), Session(id, act, []), Server(sc'));
  }

  /** It issues a frame and the writer takes it at once. */
  lemma Issues(a: System, sc: Scene, id: nat, sid: nat, fs: seq<Frame>, act: Act, q: Sub, m: Msg)
    requires Reached(a, sc) && Serves(sc, id, sid) && Local(Memory, sc.log, act, sc.subs[id], q, [m])
    requires sc.sessions[sid] == Sent(fs)
    ensures Reached(a, sc.(subs := sc.subs[id := q], sessions := sc.sessions[sid := Sent(fs + [Frame(id, m)])]))
  {
    var o := Put(Sent(fs), Frame(id, m));
    var sc1 := sc.(subs := sc.subs[id := q], sessions := sc.sessions[sid := o]);
    assert Td(Server(sc), sc.t).events == sc.log;
    assert Replaces(Server(sc), id, q, [m], Server(sc1));
    Then(a, Server(sc), Session(id, act, [m]), Server(sc1));
    assert o.out == [Frame(id, m)] && o.out[1..] == [];
    var sc2 := sc1.(sessions := sc1.sessions[sid := Sent(fs + [Frame(id, m)])]);
    Then(a, Server(sc1), Write(sid), Server(sc2));
    assert sc2.sessions == sc.sessions[sid := Sent(fs + [Frame(id, m)])];
  }

  /** The forwarder takes the queued event e, which the fence passes, and the writer gets it. */
  function HandedOn(q: Sub, e: Event): Sub {
    q.(queue := [], taken := q.taken + [e], lives := q.lives + [Live(e)])
  }

  lemma HandsOn(a: System, sc: Scene, id: nat, sid: nat, fs: seq<Frame>, e: Event)
    requires Reached(a, sc) && Serves(sc, id, sid) && sc.sessions[sid] == Sent(fs)
    requires var q := sc.subs[id]; q.pc.Idle? && q.queue == [e] && q.lag == q.lastLag == 0 && e.seqno > q.fence
    ensures Reached(a, sc.(subs := sc.subs[id := HandedOn(sc.subs[id], e)],
                           sessions := sc.sessions[sid := Sent(fs + [Frame(id, Live(e))])]))
  {
    var q := sc.subs[id];
    var held := q.(pc := Holding(e), queue := []);
    assert q.queue[1..] == [];
    Acts(a, sc, id, sid, Act.Receive, held);
    var emitting := held.(pc := Emitting(e, 0));
    Acts(a, sc.(subs := sc.subs[id := held]), id, sid, LoadLag, emitting);
    var subs := sc.subs[id := held][id := emitting];
    assert HandedOn(q, e) == emitting.(pc := Idle, taken := q.taken + [e], lives := q.lives + [Live(e)]);
    Issues(a, sc.(subs := subs), id, sid, fs, Emit, HandedOn(q, e), Live(e));
    assert subs[id := HandedOn(q, e)] == sc.subs[id := HandedOn(q, e)];
  }

  /** Sub.Close, up to leaving the hub's table. */
  function Gone(q: Sub): Sub { q.(closed := true, registered := false) }

  lemma Leaves(a: System, sc: Scene, id: nat, sid: nat)
    requires Reached(a, sc) && Serves(sc, id, sid) && !sc.subs[id].closed && sc.subs[id].registered
    ensures Reached(a, sc.(subs := sc.subs[id := Gone(sc.subs[id])]))
  {
    var closed := sc.subs[id].(closed := true);
    Acts(a, sc, id, sid, SetClosed, closed);
    Acts(a, sc.(subs := sc.subs[id := closed]), id, sid, Remove, Gone(sc.subs[id]));
    assert sc.subs[id := closed][id := Gone(sc.subs[id])] == sc.subs[id := Gone(sc.subs[id])];
  }

  // ---- publishing ----

  /** The publisher that holds the mutex is here; e is the log's newest event once appended. */
  function Publishing(sc: Scene, p: Publisher): Scene {
    sc.(pubs := sc.pubs[|sc.fans| := p], lock := Some(|sc.fans|))
  }

  lemma Locks(a: System, sc: Scene, e: Event)
    requires Reached(a, sc) && sc.lock.None? && |sc.fans| !in sc.pubs && Publishable(e)
    ensures Reached(a, Publishing(sc, Locked(e)))
  {
    var n := |sc.fans|;
    var sc1 := sc.(pubs := sc.pubs[n := Waiting(e)]);
    Then(a, Server(sc), Spawn(n, e), Server(sc1));
    assert sc1.pubs[n := Locked(e)] == sc.pubs[n := Locked(e)];
    Then(a, Server(sc1), Acquire(n), Server(Publishing(sc, Locked(e))));
  }

  /** e as event number n + 1. */
  lemma Appends(a: System, sc: Scene, e: Event, id: string, now: Time)
    requires Reached(a, Publishing(sc, Locked(e))) && e.topic == sc.t && |sc.log| == |sc.fans|
    ensures var stored := Filled(e, |sc.log| + 1, id, now);
      Reached(a, Publishing(sc.(log := sc.log + [stored]), Ingesting(stored, |sc.log|, Appended)))
  {
    var n, stored := |sc.log|, Filled(e, |sc.log| + 1, id, now);
    var s := Server(Publishing(sc, Locked(e)));
    var sc' := Publishing(sc.(log := sc.log + [stored]), Ingesting(stored, n, Appended));
    assert Owners(n) + [n] == Owners(n + 1);
    assert Td(s, sc.t).owners == Owners(n) && Td(s, sc.t).events == sc.log && Td(s, sc.t).fans == sc.fans;
    assert sc'.pubs == s.pubs[n := Ingesting(stored, n, Appended)];
    assert Ingest(CONFIG, Append(n, id, now), n, Td(s, sc.t), Locked(e),
                  Server(sc').topics[sc.t], Ingesting(stored, n, Appended));
    assert DoIngest(CONFIG, s, Append(n, id, now), n, Server(sc'));
    Then(a, s, Append(n, id, now), Server(sc'));
  }

  /** The newest event is stored and not yet fanned out; its publisher is at this stage. */
  predicate NewestIs(sc: Scene, e: Event) {
    |sc.log| == |sc.fans| + 1 && sc.log[|sc.fans|] == e && e.topic == sc.t && e.state.None?
  }

  function Staged(sc: Scene, e: Event, stage: Stage): Scene { Publishing(sc, Ingesting(e, |sc.fans|, stage)) }

  lemma Turns(a: System, sc: Scene, e: Event, stage: Stage, step: Step, stage': Stage)
    requires Reached(a, Staged(sc, e, stage)) && NewestIs(sc, e)
    requires step == Load(|sc.fans|) || step == Reduce(|sc.fans|) || step == Save(|sc.fans|)
    requires var td := TopicData(|sc.log|, sc.log, None, Owners(|sc.log|), sc.fans);
      Ingest(CONFIG, step, |sc.fans|, td, Ingesting(e, |sc.fans|, stage), td, Ingesting(e, |sc.fans|, stage'))
    ensures Reached(a, Staged(sc, e, stage'))
  {
    var s, s' := Server(Staged(sc, e, stage)), Server(Staged(sc, e, stage'));
    var n := |sc.fans|;
    assert s'.pubs == s.pubs[n := Ingesting(e, n, stage')] && s'.topics == s.topics[sc.t := s.topics[sc.t]];
    assert DoIngest(CONFIG, s, step, n, s');
    Then(a, s, step, s');
  }

  /** Load, Reduce and Save: no reducer is registered, so there is no state. */
  lemma Saves(a: System, sc: Scene, e: Event)
    requires Reached(a, Staged(sc, e, Appended)) && NewestIs(sc, e)
    ensures Reached(a, Staged(sc, e, Saved(None)))
  {
    var r := Apply(map[], None, e);
    assert r.next == None;
    Turns(a, sc, e, Appended, Load(|sc.fans|), Loaded(None));
    Turns(a, sc, e, Loaded(None), Reduce(|sc.fans|), Reduced(None, r.ok));
    Turns(a, sc, e, Reduced(None, r.ok), Save(|sc.fans|), Saved(None));
  }

  /** The newest event has been fanned out. */
  function Fanned(sc: Scene, e: Event, todo: set<nat>, checked: Option<nat>): Scene {
    sc.(pubs := sc.pubs[|sc.fans| := Ingesting(e, |sc.fans|, Sending(None, todo, checked))],
        lock := Some(|sc.fans|), fans := sc.fans + [e])
  }

  ghost predicate Enrolled(sc: Scene, todo: set<nat>) {
    forall id :: id in todo <==> id in sc.subs && sc.subs[id].registered && sc.subs[id].topic == sc.t
  }

  lemma Snapshots(a: System, sc: Scene, e: Event, todo: set<nat>)
    requires Reached(a, Staged(sc, e, Saved(None))) && NewestIs(sc, e) && Enrolled(sc, todo)
    ensures Reached(a, Fanned(sc, e, todo, None))
  {
    var s, s' := Server(Staged(sc, e, Saved(None))), Server(Fanned(sc, e, todo, None));
    var n := |sc.fans|;
    var p := s.pubs[n];
    var listed := set id | id in s.subs && s.subs[id].registered && s.subs[id].topic == p.e.topic;
    assert listed == todo;
    assert s'.pubs == s.pubs[n := p.(stage := Sending(None, listed, None))];
    assert e.(state := None) == e && s'.topics == s.topics[sc.t := Td(s, sc.t).(fans := sc.fans + [e])];
    assert DoSnapshot(s, n, s');
    Then(a, s, Snapshot(n), s');
  }

  /** One registered subscription is found open and offered the event. */
  lemma Offers(a: System, sc: Scene, e: Event, todo: set<nat>, id: nat)
    requires Reached(a, Fanned(sc, e, todo, None)) && e.state.None?
    requires id in todo && id in sc.subs && !sc.subs[id].closed && |sc.subs[id].queue| < BUFFER
    ensures var q := sc.subs[id].(queue := sc.subs[id].queue + [e], offered := sc.subs[id].offered + [e]);
      Reached(a, Fanned(sc.(subs := sc.subs[id := q]), e, todo - {id}, None))
  {
    var n := |sc.fans|;
    var q := sc.subs[id].(queue := sc.subs[id].queue + [e], offered := sc.subs[id].offered + [e]);
    var sc1, sc2 := Fanned(sc, e, todo, None), Fanned(sc, e, todo - {id}, Some(id));
    var sc3 := Fanned(sc.(subs := sc.subs[id := q]), e, todo - {id}, None);
    assert sc2.pubs == sc1.pubs[n := Ingesting(e, n, Sending(None, todo - {id}, Some(id)))];
    Then(a, Server(sc1), Check(n, id), Server(sc2));
    assert sc3.pubs == sc2.pubs[n := Ingesting(e, n, Sending(None, todo - {id}, None))];
    assert e.(state := None) == e && Offer(Accept, e, sc.subs[id], q);
    assert DoDeliver(Server(sc2), n, Accept, Server(sc3));
    Then(a, Server(sc2), Deliver(n, Accept), Server(sc3));
  }

  /** Everyone has had a turn. */
  function Done(sc: Scene, e: Event): Scene {
    sc.(pubs := sc.pubs[|sc.fans| := Acked(e, |sc.fans|)], lock := None, fans := sc.fans + [e])
  }

  lemma Releases(a: System, sc: Scene, e: Event)
    requires Reached(a, Fanned(sc, e, {}, None))
    ensures Reached(a, Done(sc, e))
  {
    var n := |sc.fans|;
    assert Done(sc, e).pubs == Fanned(sc, e, {}, None).pubs[n := Acked(e, n)];
    Then(a, Server(Fanned(sc, e, {}, None)), Release(n), Server(Done(sc, e)));
  }

  /** A whole log was published and nothing is in flight. */
  predicate Rested(sc: Scene) { sc.lock.None? && |sc.log| == |sc.fans| && |sc.fans| !in sc.pubs }

  function Numbered(sc: Scene, e: Event, id: string, now: Time): Event { Filled(e, |sc.log| + 1, id, now) }

  function Published(sc: Scene, e: Event): Scene { Done(sc.(log := sc.log + [e]), e) }

  /** A publish that nobody hears. */
  lemma PublishesUnheard(a: System, sc: Scene, e: Event, id: string, now: Time)
    requires Reached(a, sc) && Rested(sc) && Publishable(e) && e.topic == sc.t && Enrolled(sc, {})
    ensures Reached(a, Published(sc, Numbered(sc, e, id, now)))
  {
    var stored := Numbered(sc, e, id, now);
    Locks(a, sc, e);
    Appends(a, sc, e, id, now);
    var sc1 := sc.(log := sc.log + [stored]);
    Saves(a, sc1, stored);
    Snapshots(a, sc1, stored, {});
    Releases(a, sc1, stored);
  }

  function Heard(q: Sub, e: Event): Sub {
    q.(offered := q.offered + [e], taken := q.taken + [e], lives := q.lives + [Live(e)])
  }

  /** A publish that one idle subscription hears, up to the writer. */
  lemma PublishesTo(a: System, sc: Scene, e: Event, id: string, now: Time, sub: nat, sid: nat, fs: seq<Frame>)
    requires Reached(a, sc) && Rested(sc) && Publishable(e) && e.topic == sc.t && Enrolled(sc, {sub})
    requires Serves(sc, sub, sid) && sc.sessions[sid] == Sent(fs) && sub in sc.subs
    requires sc.subs[sub].pc.Idle? && !sc.subs[sub].closed && sc.subs[sub].queue == []
    requires sc.subs[sub].lag == sc.subs[sub].lastLag == 0 && sc.subs[sub].fence <= |sc.log|
    ensures var stored := Numbered(sc, e, id, now);
      Reached(a, Published(sc, stored).(subs := sc.subs[sub := Heard(sc.subs[sub], stored)],
                                        sessions := sc.sessions[sid := Sent(fs + [Frame(sub, Live(stored))])]))
  {
    var stored := Numbered(sc, e, id, now);
    Locks(a, sc, e);
    Appends(a, sc, e, id, now);
    var sc1 := sc.(log := sc.log + [stored]);
    Saves(a, sc1, stored);
    Snapshots(a, sc1, stored, {sub});
    Offers(a, sc1, stored, {sub}, sub);
    var q := sc.subs[sub];
    var q1 := q.(queue := q.queue + [stored], offered := q.offered + [stored]);
    assert {sub} - {sub} == {};
    var sc2 := sc1.(subs := sc.subs[sub := q1]);
    Releases(a, sc2, stored);
    HandsOn(a, Done(sc2, stored), sub, sid, fs, stored);
    assert HandedOn(q1, stored) == Heard(q, stored);
    assert sc2.subs[sub := Heard(q, stored)] == sc.subs[sub := Heard(q, stored)];
  }

  // ---- replaying ----

  /** A subscription that has read its backfill and issued the first events of it. */
  function Reading(q: Sub, backfill: seq<Event>, length: nat, sent: nat): Sub
    requires sent <= |backfill|
  {
    q.(pc := Replaying(sent), backfill := backfill, fence := Fence(backfill), readLen := length,
       replayed := q.replayed + ReplayFrames(backfill[..sent]))
  }

  lemma Reads(a: System, sc: Scene, id: nat, sid: nat, from: From, backfill: seq<Event>)
    requires Reached(a, sc) && Serves(sc, id, sid) && sc.subs[id].pc.Registered? && sc.subs[id].from == from
    requires Backfill(Memory, sc.log, from) == backfill
    ensures Reached(a, sc.(subs := sc.subs[id := Reading(sc.subs[id], backfill, |sc.log|, 0)]))
  {
    assert sc.subs[id].replayed + [] == sc.subs[id].replayed && backfill[..0] == [];
    Acts(a, sc, id, sid, Read, Reading(sc.subs[id], backfill, |sc.log|, 0));
  }

  lemma Replays(a: System, sc: Scene, id: nat, sid: nat, fs: seq<Frame>, q: Sub, backfill: seq<Event>, sent: nat)
    requires Reached(a, sc) && Serves(sc, id, sid) && sc.sessions[sid] == Sent(fs) && sent < |backfill|
    requires sc.subs[id] == Reading(q, backfill, |sc.log|, sent)
    ensures Reached(a, sc.(subs := sc.subs[id := Reading(q, backfill, |sc.log|, sent + 1)],
                           sessions := sc.sessions[sid := Sent(fs + [Frame(id, Replayed(backfill[sent]))])]))
  {
    ReplayFramesSnoc(backfill, sent);
    var q' := Reading(q, backfill, |sc.log|, sent + 1);
    assert q'.replayed == sc.subs[id].replayed + [Replayed(backfill[sent])];
    Issues(a, sc, id, sid, fs, Replay, q', Replayed(backfill[sent]));
  }

  /** A subscription that found nothing to replay is acknowledged and waits. */
  function Listening(q: Sub, length: nat): Sub { q.(pc := Idle, readLen := length, replayed := [Ack(0)]) }

  lemma Listens(a: System, sc: Scene, id: nat, sid: nat, fs: seq<Frame>)
    requires Reached(a, sc) && Serves(sc, id, sid) && sc.sessions[sid] == Sent(fs)
    requires sc.subs[id] == NewSub(sc.t, sid, sc.subs[id].from, sc.subs[id].base, sc.subs[id].length)
    requires Backfill(Memory, sc.log, sc.subs[id].from) == []
    ensures Reached(a, sc.(subs := sc.subs[id := Listening(sc.subs[id], |sc.log|)],
                           sessions := sc.sessions[sid := Sent(fs + [Frame(id, Ack(0))])]))
  {
    var q := sc.subs[id];
    Reads(a, sc, id, sid, q.from, []);
    var read, q' := Reading(q, [], |sc.log|, 0), Listening(q, |sc.log|);
    assert q' == read.(pc := Idle, replayed := read.replayed + [Ack(0)]);
    Issues(a, sc.(subs := sc.subs[id := read]), id, sid, fs, Acknowledge, q', Ack(0));
    assert sc.subs[id := read][id := q'] == sc.subs[id := q'];
  }

  // ---- a subscription from latest, its publish, and its end ----

  /** What the next subscription is when it has heard e. */
  function Hearing(sc: Scene, sid: nat, e: Event): Sub {
    Heard(Listening(NewSub(sc.t, sid, FromLatest, |sc.fans|, |sc.log|), |sc.log|), e)
  }

  /** A session subscribes from latest, e is published, and both frames are written. */
  function AfterHearing(sc: Scene, sid: nat, fs: seq<Frame>, e: Event): Scene {
    var id := sc.next + 1;
    Published(sc, e).(subs := sc.subs[id := Hearing(sc, sid, e)], next := id,
                      sessions := sc.sessions[sid := Sent(fs + [Frame(id, Ack(0)), Frame(id, Live(e))])])
  }

  /** The same before e is published. */
  function Awake(sc: Scene, sid: nat, fs: seq<Frame>): Scene {
    var id := sc.next + 1;
    sc.(subs := sc.subs[id := Listening(NewSub(sc.t, sid, FromLatest, |sc.fans|, |sc.log|), |sc.log|)], next := id,
        sessions := sc.sessions[sid := Sent(fs + [Frame(id, Ack(0))])])
  }

  lemma Awakes(sc: Scene, sid: nat, fs: seq<Frame>)
    requires sid in sc.sessions && sc.sessions[sid] == Sent(fs) && (sc.log == [] ==> sc.fans == [])
    ensures Reached(Server(Subscribed(sc, sid, FromLatest)), Awake(sc, sid, fs))
  {
    var sc0, id := Subscribed(sc, sid, FromLatest), sc.next + 1;
    Stays(Server(sc0));
    Listens(Server(sc0), sc0, id, sid, fs);
    assert sc0.subs[id := Awake(sc, sid, fs).subs[id]] == Awake(sc, sid, fs).subs;
  }

  lemma AwakeIsReady(sc: Scene, sid: nat, fs: seq<Frame>)
    requires Rested(sc) && Enrolled(sc, {}) && sid in sc.sessions
    ensures var sc', id := Awake(sc, sid, fs), sc.next + 1;
      Rested(sc') && Enrolled(sc', {id}) && Serves(sc', id, sid) && sc'.sessions[sid] == Sent(fs + [Frame(id, Ack(0))])
  {
  }

  lemma AwakeHears(sc: Scene, sid: nat, fs: seq<Frame>, e: Event)
    ensures var sc', id, fs' := Awake(sc, sid, fs), sc.next + 1, fs + [Frame(sc.next + 1, Ack(0))];
      Published(sc', e).(subs := sc'.subs[id := Heard(sc'.subs[id], e)],
                         sessions := sc'.sessions[sid := Sent(fs' + [Frame(id, Live(e))])])
      == AfterHearing(sc, sid, fs, e)
  {
    var sc', id := Awake(sc, sid, fs), sc.next + 1;
    assert sc'.subs[id := Heard(sc'.subs[id], e)] == sc.subs[id := Hearing(sc, sid, e)];
    assert fs + [Frame(id, Ack(0))] + [Frame(id, Live(e))] == fs + [Frame(id, Ack(0)), Frame(id, Live(e))];
  }

  lemma Hears(sc: Scene, e: Event, id: string, now: Time, sid: nat, fs: seq<Frame>)
    requires Rested(sc) && Publishable(e) && e.topic == sc.t && Enrolled(sc, {})
    requires sid in sc.sessions && sc.sessions[sid] == Sent(fs)
    ensures Reached(Server(Subscribed(sc, sid, FromLatest)), AfterHearing(sc, sid, fs, Numbered(sc, e, id, now)))
  {
    var sub := sc.next + 1;
    Awakes(sc, sid, fs);
    AwakeIsReady(sc, sid, fs);
    PublishesTo(Server(Subscribed(sc, sid, FromLatest)), Awake(sc, sid, fs), e, id, now, sub, sid,
                fs + [Frame(sub, Ack(0))]);
    AwakeHears(sc, sid, fs, Numbered(sc, e, id, now));
  }

  lemma OfTwo(fs: seq<Frame>, id: nat, m1: Msg, m2: Msg)
    ensures Of(fs + [Frame(id, m1), Frame(id, m2)], id) == Of(fs, id) + [m1, m2]
  {
    OfSnoc(fs, Frame(id, m1), id);
    OfSnoc(fs + [Frame(id, m1)], Frame(id, m2), id);
    assert fs + [Frame(id, m1)] + [Frame(id, m2)] == fs + [Frame(id, m1), Frame(id, m2)];
    assert Of(fs, id) + [m1] + [m2] == Of(fs, id) + [m1, m2];
  }

  /** The two messages on the wire. */
  lemma HearingIsWritten(sc: Scene, sid: nat, fs: seq<Frame>, e: Event)
    requires Of(fs, sc.next + 1) == []
    ensures R.Wire(Server(AfterHearing(sc, sid, fs, e)), sc.next + 1) == [Ack(0), Live(e)]
  {
    OfTwo(fs, sc.next + 1, Ack(0), Live(e));
  }

  /** What the client is after a subscription handed it e. */
  function Told(k: R.Client, id: nat, e: Event): R.Client {
    k.(current := Some(id), pos := 2, mark := |k.seen|, used := k.used + {id}, seen := k.seen + [e],
       lastSeen := if e.seqno > k.lastSeen then e.seqno else k.lastSeen)
  }

  lemma TellsBoth(k: R.Client, id: nat, e: Event)
    ensures R.Dispatch(R.Dispatch(R.Attached(k, id), Ack(0)), Live(e)) == Told(k, id, e)
  {
  }

  /** The subscription is closed, and then e is published. */
  function AfterLeaving(sc: Scene, id: nat, e: Event): Scene
    requires id in sc.subs
  {
    Published(sc, e).(subs := sc.subs[id := Gone(sc.subs[id])])
  }

  lemma LeavesAlone(sc: Scene, sub: nat)
    requires sub in sc.subs && Enrolled(sc, {sub}) && Rested(sc)
    ensures var sc' := sc.(subs := sc.subs[sub := Gone(sc.subs[sub])]); Rested(sc') && Enrolled(sc', {})
  {
    assert sub in {sub};
  }

  lemma LeavesBefore(sc: Scene, e: Event, id: string, now: Time, sub: nat, sid: nat)
    requires Rested(sc) && Publishable(e) && e.topic == sc.t && Enrolled(sc, {sub})
    requires Serves(sc, sub, sid) && !sc.subs[sub].closed && (sc.log == [] ==> sc.fans == [])
    ensures Reached(Server(sc), AfterLeaving(sc, sub, Numbered(sc, e, id, now)))
  {
    Stays(Server(sc));
    assert sub in {sub} && sc.subs[sub].registered;
    Leaves(Server(sc), sc, sub, sid);
    LeavesAlone(sc, sub);
    PublishesUnheard(Server(sc), sc.(subs := sc.subs[sub := Gone(sc.subs[sub])]), e, id, now);
  }

  /** The first connection saw nothing; the second subscribed from latest and was handed event 1. */
  function Sees1(e: Event): Scene {
    AfterHearing(Idling(e.topic).(sessions := map[1 := NOTHING, 2 := NOTHING]), 2, [], e)
  }

  function Knows1(e: Event): R.Client { Told(R.Newcomer(e.topic, FromLatest), 1, e) }
}
