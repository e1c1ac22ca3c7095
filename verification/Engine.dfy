/**
 The whole server as a step machine: any number of publishers serialised by one ingest mutex, any
 number of subscriptions that never take it, and one bounded outgoing queue per session.

 A run is any interleaving of the atomic actions below. Topics are never deleted in a run.
 */
module Engine {
  import opened Types
  import opened Topics
  import opened Log
  import opened Registry
  import opened Subscriptions

  datatype Config = Config(backend: Backend, reducers: Reducers)

  datatype TopicData = TopicData(
    counter: nat, events: seq<Event>, state: Option<State>,
    // history
    owners: seq<nat>,     // the publisher of each event
    fans: seq<Event>)     // the copies handed to the hub

  const FRESH := TopicData(0, [], None, [], [])

  /** Where a publisher that holds the mutex has got to. */
  datatype Stage =
    | Appended
    | Loaded(prev: Option<State>)
    | Reduced(next: Option<State>, ok: bool)
    | Saved(next: Option<State>)
    | Sending(next: Option<State>, todo: set<nat>, checked: Option<nat>)

  datatype Publisher =
    | Waiting(e: Event)
    | Locked(e: Event)
    | Ingesting(e: Event, at: nat, stage: Stage)   // at: the index of e in its topic's log
    | Acked(e: Event, at: nat)
    | Rejected(e: Event)

  /** Reply stands for the frames no subscription issues: pongs, publish acknowledgements, states, errors. */
  datatype Frame = Frame(sub: nat, msg: Msg) | Reply

  /** A session's bounded queue; issued and lost are history. */
  datatype Outbox = Outbox(out: seq<Frame>, written: seq<Frame>, issued: seq<Frame>, lost: nat)

  datatype System = System(
    topics: map<string, TopicData>, pubs: map<nat, Publisher>, lock: Option<nat>,
    subs: map<nat, Sub>, next: nat, sessions: map<nat, Outbox>)

  function Td(s: System, t: string): TopicData {
    if t in s.topics then s.topics[t] else FRESH
  }

  predicate Critical(p: Publisher) { p.Locked? || p.Ingesting? }

  predicate Stored(p: Publisher) { p.Ingesting? || p.Acked? }

  predicate Holds(s: System, pid: nat) { s.lock == Some(pid) && pid in s.pubs }

  /** The event of topic t that is past Append and whose publisher has not returned. */
  function Flight(s: System, t: string): Option<Publisher> {
    if s.lock.Some? && s.lock.value in s.pubs
       && s.pubs[s.lock.value].Ingesting? && s.pubs[s.lock.value].e.topic == t
    then Some(s.pubs[s.lock.value]) else None
  }

  /** The hub's snapshot still has to be offered to subscription id. */
  predicate Pending(s: System, id: nat) {
    && s.lock.Some? && s.lock.value in s.pubs
    && var p := s.pubs[s.lock.value];
    && p.Ingesting? && p.stage.Sending? && id in p.stage.todo
  }

  /** The hub has found subscription id open and is about to select on its channel. */
  predicate Checked(s: System, id: nat) {
    && s.lock.Some? && s.lock.value in s.pubs
    && var p := s.pubs[s.lock.value];
    && p.Ingesting? && p.stage.Sending? && p.stage.checked == Some(id)
  }

  // ---- steps ----

  datatype Step =
    | Spawn(pid: nat, e: Event)
    | Acquire(pid: nat)
    | Append(pid: nat, id: string, now: Time)
    | AppendFails(pid: nat, counted: bool)
    | Load(pid: nat) | Reduce(pid: nat) | Save(pid: nat) | Snapshot(pid: nat)
    | Check(pid: nat, sub: nat)
    | Deliver(pid: nat, outcome: Outcome)
    | Release(pid: nat)
    | Connect(sid: nat)
    | Subscribe(sid: nat, topic: string, from: From)
    | Session(sub: nat, act: Act, out: seq<Msg>)
    | Answer(sid: nat)
    | Write(sid: nat)

  /** Publish rejects these before taking the mutex; every caller leaves seqno and state unset. */
  predicate Publishable(e: Event) { ValidTopic(e.topic) && e.kind != "" && e.state.None? }

  /** The effect of a mutex holder's next action on its topic's data, and its next stage. */
  ghost predicate Ingest(c: Config, step: Step, pid: nat, td: TopicData, p: Publisher, td': TopicData, p': Publisher) {
    match step
    case Append(_, id, now) =>
      && p.Locked?
      && var e := Filled(p.e, td.counter + 1, id, now);
      && td' == td.(counter := td.counter + 1, events := td.events + [e], owners := td.owners + [pid])
      && p' == Ingesting(e, |td.events|, Appended)
    case Load(_) =>
      && p.Ingesting? && p.stage.Appended? && td' == td
      && p' == p.(stage := Loaded(td.state))
    case Reduce(_) =>
      && p.Ingesting? && p.stage.Loaded? && td' == td
      && var r := Apply(c.reducers, p.stage.prev, p.e);
      && p' == p.(stage := Reduced(r.next, r.ok))
    case Save(_) =>
      && p.Ingesting? && p.stage.Reduced?
      && td' == (if p.stage.ok && p.stage.next.Some? then td.(state := p.stage.next) else td)
      && p' == p.(stage := Saved(p.stage.next))
    case _ => false
  }

  /** Queue a session's frame, or drop it when the writer is stuck. */
  function Put(o: Outbox, f: Frame): (o': Outbox)
    ensures o'.issued == o.issued + [f] && o'.written == o.written
    ensures |o.out| < 512 ==> o'.out == o.out + [f] && o'.lost == o.lost
    ensures |o.out| >= 512 ==> o'.out == o.out && o'.lost == o.lost + 1
  {
    if |o.out| < OUTBUF then o.(out := o.out + [f], issued := o.issued + [f])
    else o.(issued := o.issued + [f], lost := o.lost + 1)
  }

  /** The publisher holding the mutex, in its fan-out loop. */
  predicate Fanning(s: System, pid: nat) {
    Holds(s, pid) && s.pubs[pid].Ingesting? && s.pubs[pid].stage.Sending?
  }

  ghost predicate DoSpawn(s: System, pid: nat, e: Event, s': System) {
    pid !in s.pubs && Publishable(e) && s' == s.(pubs := s.pubs[pid := Waiting(e)])
  }

  ghost predicate DoAcquire(s: System, pid: nat, s': System) {
    && pid in s.pubs && s.pubs[pid].Waiting? && s.lock.None?
    && s' == s.(lock := Some(pid), pubs := s.pubs[pid := Locked(s.pubs[pid].e)])
  }

  ghost predicate DoIngest(c: Config, s: System, step: Step, pid: nat, s': System) {
    && Holds(s, pid)
    && var t := s.pubs[pid].e.topic;
    && pid in s'.pubs && t in s'.topics
    && Ingest(c, step, pid, Td(s, t), s.pubs[pid], s'.topics[t], s'.pubs[pid])
    && s' == s.(topics := s.topics[t := s'.topics[t]], pubs := s.pubs[pid := s'.pubs[pid]])
  }

  /** Redis only: INCR fails, or (counted) succeeds and the write after it fails. */
  ghost predicate DoAppendFails(c: Config, s: System, pid: nat, counted: bool, s': System) {
    && c.backend.Redis? && Holds(s, pid) && s.pubs[pid].Locked?
    && var e := s.pubs[pid].e; var td := Td(s, e.topic);
    && s' == s.(lock := None, pubs := s.pubs[pid := Rejected(e)],
                topics := if counted then s.topics[e.topic := td.(counter := td.counter + 1)] else s.topics)
  }

  /** The hub copies the registered subscriptions of the topic under its own lock. */
  ghost predicate DoSnapshot(s: System, pid: nat, s': System) {
    && Holds(s, pid) && s.pubs[pid].Ingesting? && s.pubs[pid].stage.Saved?
    && var p := s.pubs[pid]; var td := Td(s, p.e.topic);
    && var todo := set id | id in s.subs && s.subs[id].registered && s.subs[id].topic == p.e.topic;
    && s' == s.(pubs := s.pubs[pid := p.(stage := Sending(p.stage.next, todo, None))],
                topics := s.topics[p.e.topic := td.(fans := td.fans + [p.e.(state := p.stage.next)])])
  }

  /** The fan-out loop visits the snapshot in any order and skips what it finds closed. */
  ghost predicate DoCheck(s: System, pid: nat, id: nat, s': System) {
    && Fanning(s, pid) && id in s.subs
    && var p := s.pubs[pid];
    && id in p.stage.todo && p.stage.checked.None?
    && s' == s.(pubs := s.pubs[pid := p.(stage := Sending(p.stage.next, p.stage.todo - {id},
                                           if s.subs[id].closed then None else Some(id)))])
  }

  ghost predicate DoDeliver(s: System, pid: nat, outcome: Outcome, s': System) {
    && Fanning(s, pid) && s.pubs[pid].stage.checked.Some? && s.pubs[pid].stage.checked.value in s.subs
    && var p := s.pubs[pid]; var id := p.stage.checked.value;
    && id in s'.subs
    && Offer(outcome, p.e.(state := p.stage.next), s.subs[id], s'.subs[id])
    && s' == s.(subs := s.subs[id := s'.subs[id]],
                pubs := s.pubs[pid := p.(stage := Sending(p.stage.next, p.stage.todo, None))])
  }

  ghost predicate DoRelease(s: System, pid: nat, s': System) {
    && Fanning(s, pid)
    && var p := s.pubs[pid];
    && p.stage.todo == {} && p.stage.checked.None?
    && s' == s.(lock := None, pubs := s.pubs[pid := Acked(p.e, p.at)])
  }

  ghost predicate DoConnect(s: System, sid: nat, s': System) {
    sid !in s.sessions && s' == s.(sessions := s.sessions[sid := Outbox([], [], [], 0)])
  }

  ghost predicate DoSubscribe(s: System, sid: nat, topic: string, from: From, s': System) {
    && ValidTopic(topic) && sid in s.sessions
    && s' == s.(next := s.next + 1,
                subs := s.subs[s.next + 1 := NewSub(topic, sid, from, |Td(s, topic).fans|, |Td(s, topic).events|)])
  }

  /** Subscription id becomes q and its session is handed the frame it issued, if any. */
  ghost predicate Replaces(s: System, id: nat, q: Sub, out: seq<Msg>, s': System) {
    && id in s.subs && s.subs[id].session in s.sessions && |out| <= 1
    && var sid := s.subs[id].session; var o := s.sessions[sid];
    && s' == s.(subs := s.subs[id := q],
                sessions := s.sessions[sid := if out == [] then o else Put(o, Frame(id, out[0]))])
  }

  ghost predicate DoSession(c: Config, s: System, id: nat, act: Act, out: seq<Msg>, s': System) {
    && id in s.subs && id in s'.subs
    && Local(c.backend, Td(s, s.subs[id].topic).events, act, s.subs[id], s'.subs[id], out)
    && Replaces(s, id, s'.subs[id], out, s')
  }

  /** The read loop queues a reply; it shares the queue and its fate with the event frames. */
  ghost predicate DoAnswer(s: System, sid: nat, s': System) {
    sid in s.sessions && s' == s.(sessions := s.sessions[sid := Put(s.sessions[sid], Reply)])
  }

  ghost predicate DoWrite(s: System, sid: nat, s': System) {
    && sid in s.sessions && s.sessions[sid].out != []
    && var o := s.sessions[sid];
    && s' == s.(sessions := s.sessions[sid := o.(out := o.out[1..], written := o.written + [o.out[0]])])
  }

  ghost predicate Next(c: Config, s: System, step: Step, s': System) {
    match step
    case Spawn(pid, e) => DoSpawn(s, pid, e, s')
    case Acquire(pid) => DoAcquire(s, pid, s')
    case Append(pid, _, _) => DoIngest(c, s, step, pid, s')
    case AppendFails(pid, counted) => DoAppendFails(c, s, pid, counted, s')
    case Load(pid) => DoIngest(c, s, step, pid, s')
    case Reduce(pid) => DoIngest(c, s, step, pid, s')
    case Save(pid) => DoIngest(c, s, step, pid, s')
    case Snapshot(pid) => DoSnapshot(s, pid, s')
    case Check(pid, id) => DoCheck(s, pid, id, s')
    case Deliver(pid, outcome) => DoDeliver(s, pid, outcome, s')
    case Release(pid) => DoRelease(s, pid, s')
    case Connect(sid) => DoConnect(s, sid, s')
    case Subscribe(sid, topic, from) => DoSubscribe(s, sid, topic, from, s')
    case Session(id, act, out) => DoSession(c, s, id, act, out, s')
    case Answer(sid) => DoAnswer(s, sid, s')
    case Write(sid) => DoWrite(s, sid, s')
  }

  predicate Init(s: System) {
    s == System(map[], map[], None, map[], 0, map[])
  }

  // ---- invariants ----

  /** Exactly the mutex holder is inside the critical section. */
  ghost predicate LockInv(s: System) {
    && (s.lock.Some? ==> s.lock.value in s.pubs)
    && (forall pid :: pid in s.pubs ==> (Critical(s.pubs[pid]) <==> s.lock == Some(pid)))
    && (forall pid :: pid in s.pubs && !Stored(s.pubs[pid]) ==> Publishable(s.pubs[pid].e))
  }

  /** Every stored event is sequenced, on its own topic and without a state. */
  ghost predicate LogInv(t: string, td: TopicData) {
    && Increasing(td.events)
    && |td.owners| == |td.events|
    && (forall k :: 0 <= k < |td.events| ==>
          var e := td.events[k]; e.topic == t && 1 <= e.seqno <= td.counter && e.state.None?)
  }

  /** Fan-out copy k carries the fold of the first k + 1 events. */
  ghost predicate FansInv(rs: Reducers, td: TopicData) {
    && |td.fans| <= |td.events|
    && forall k :: 0 <= k < |td.fans| ==> td.fans[k] == td.events[k].(state := Fold(rs, td.events[..k + 1]))
  }

  /** The stored state is the fold of the log, one event behind between Append and SetState. */
  ghost predicate StateInv(rs: Reducers, td: TopicData, flight: Option<Publisher>) {
    match flight
    case None => |td.fans| == |td.events| && td.state == Fold(rs, td.events)
    case Some(p) =>
      && p.Ingesting? && |td.events| > 0 && p.at == |td.events| - 1 && td.events[p.at] == p.e
      && |td.fans| == (if p.stage.Sending? then |td.events| else p.at)
      && var before, after := Fold(rs, td.events[..p.at]), Fold(rs, td.events);
      match p.stage
      case Appended => td.state == before
      case Loaded(prev) => td.state == before && prev == before
      case Reduced(next, ok) => td.state == before && next == after && ((ok && next.Some?) || next == before)
      case Saved(next) => td.state == after && next == after
      case Sending(next, _, _) => td.state == after && next == after
  }

  ghost predicate TopicInv(c: Config, s: System, t: string) {
    && LogInv(t, Td(s, t))
    && (c.backend.Memory? ==> Td(s, t).counter == |Td(s, t).events|)
    && FansInv(c.reducers, Td(s, t))
    && StateInv(c.reducers, Td(s, t), Flight(s, t))
  }

  ghost predicate TopicsInv(c: Config, s: System) {
    forall t: string :: TopicInv(c, s, t)
  }

  /** Each event of a log belongs to one stored publisher, which knows its place. */
  ghost predicate OwnersOk(pubs: map<nat, Publisher>, td: TopicData) {
    |td.owners| == |td.events| &&
    forall k :: 0 <= k < |td.owners| ==>
      var pid := td.owners[k];
      pid in pubs && Stored(pubs[pid]) && pubs[pid].at == k && pubs[pid].e == td.events[k]
  }

  /** Each stored publisher owns the event at its place. */
  ghost predicate PlaceOk(s: System, pid: nat)
    requires pid in s.pubs
  {
    Stored(s.pubs[pid]) ==>
      var p := s.pubs[pid]; var td := Td(s, p.e.topic);
      p.at < |td.owners| && td.owners[p.at] == pid
  }

  ghost predicate OwnerInv(s: System) {
    && (forall t {:trigger OwnersOk(s.pubs, s.topics[t])} :: t in s.topics ==> OwnersOk(s.pubs, s.topics[t]))
    && (forall pid {:trigger PlaceOk(s, pid)} :: pid in s.pubs ==> PlaceOk(s, pid))
  }

  /** The hub's snapshot holds only subscriptions of the event's topic, each at most once. */
  ghost predicate SendInv(s: System) {
    s.lock.Some? && s.lock.value in s.pubs && s.pubs[s.lock.value].Ingesting? && s.pubs[s.lock.value].stage.Sending? ==>
      var p := s.pubs[s.lock.value];
      && (forall id :: id in p.stage.todo ==> id in s.subs && s.subs[id].topic == p.e.topic)
      && (p.stage.checked.Some? ==>
            && p.stage.checked.value in s.subs && s.subs[p.stage.checked.value].topic == p.e.topic
            && p.stage.checked.value !in p.stage.todo)
  }

  /** The invariants of one subscription against its topic's data. */
  ghost predicate SubOk(b: Backend, td: TopicData, pending: bool, checked: bool, q: Sub) {
    FlowInv(td.fans, pending, checked, q) && QueueInv(q) && ReplayInv(b, td.events, q) && LiveInv(q)
  }

  ghost predicate SubInv(c: Config, s: System, id: nat)
    requires id in s.subs
  {
    && 1 <= id <= s.next && s.subs[id].session in s.sessions
    && SubOk(c.backend, Td(s, s.subs[id].topic), Pending(s, id), Checked(s, id), s.subs[id])
  }

  ghost predicate SubsInv(c: Config, s: System) {
    forall id {:trigger SubInv(c, s, id)} :: id in s.subs ==> SubInv(c, s, id)
  }

  ghost predicate ServerInv(c: Config, s: System) {
    && LockInv(s) && SendInv(s) && OwnerInv(s)
    && TopicsInv(c, s)
    && SubsInv(c, s)
  }
}
