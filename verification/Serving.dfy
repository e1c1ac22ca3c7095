/** Every step of the server keeps its invariants, so every reachable state has them. */
module Serving {
  import opened Types
  import opened Topics
  import opened Log
  import opened Registry
  import opened Subscriptions
  import opened Engine

  // ---- one topic ----

  /** A registered reducer's answer becomes the state; otherwise the state stands. */
  lemma ApplyKeepsOrSets(rs: Reducers, prev: Option<State>, e: Event)
    ensures var r := Apply(rs, prev, e); (r.ok && r.next.Some?) || r.next == prev
  {
  }

  lemma FansOnLongerLog(rs: Reducers, td: TopicData, e: Event)
    requires FansInv(rs, td)
    ensures forall k :: 0 <= k < |td.fans| ==>
      td.fans[k] == (td.events + [e])[k].(state := Fold(rs, (td.events + [e])[..k + 1]))
  {
    forall k | 0 <= k < |td.fans|
      ensures td.fans[k] == (td.events + [e])[k].(state := Fold(rs, (td.events + [e])[..k + 1]))
    {
      assert (td.events + [e])[..k + 1] == td.events[..k + 1];
    }
  }

  lemma AppendKeepsTopic(c: Config, t: string, td: TopicData, p: Publisher, pid: nat, id: string, now: Time,
                         td': TopicData, p': Publisher)
    requires LogInv(t, td) && FansInv(c.reducers, td) && StateInv(c.reducers, td, None)
    requires Ingest(c, Append(pid, id, now), pid, td, p, td', p')
    requires p.e.topic == t && Publishable(p.e)
    ensures LogInv(t, td') && FansInv(c.reducers, td') && StateInv(c.reducers, td', Some(p'))
  {
    assert td'.events[..|td.events|] == td.events;
    FansOnLongerLog(c.reducers, td, td'.events[|td.events|]);
  }

  lemma IngestKeepsTopic(c: Config, t: string, step: Step, pid: nat, td: TopicData, p: Publisher,
                         td': TopicData, p': Publisher)
    requires p.Ingesting?
    requires LogInv(t, td) && FansInv(c.reducers, td) && StateInv(c.reducers, td, Some(p))
    requires Ingest(c, step, pid, td, p, td', p')
    ensures LogInv(t, td') && FansInv(c.reducers, td') && StateInv(c.reducers, td', Some(p'))
    ensures td'.events == td.events && td'.owners == td.owners && td'.fans == td.fans
    ensures p'.Ingesting? && p'.e == p.e && p'.at == p.at && !p'.stage.Sending?
  {
    if step.Reduce? {
      ApplyKeepsOrSets(c.reducers, p.stage.prev, p.e);
      assert td.events[|td.events| - 1] == p.e;
    }
  }

  lemma SnapshotKeepsTopic(c: Config, t: string, td: TopicData, p: Publisher, todo: set<nat>)
    requires p.Ingesting? && p.stage.Saved?
    requires LogInv(t, td) && FansInv(c.reducers, td) && StateInv(c.reducers, td, Some(p))
    ensures var td' := td.(fans := td.fans + [p.e.(state := p.stage.next)]);
      && LogInv(t, td') && FansInv(c.reducers, td')
      && StateInv(c.reducers, td', Some(p.(stage := Sending(p.stage.next, todo, None))))
  {
    var td' := td.(fans := td.fans + [p.e.(state := p.stage.next)]);
    assert td.events[..p.at + 1] == td.events;
    forall k | 0 <= k < |td'.fans|
      ensures td'.fans[k] == td'.events[k].(state := Fold(c.reducers, td'.events[..k + 1]))
    {
      if k < |td.fans| { assert td'.fans[k] == td.fans[k]; }
    }
  }

  lemma FansIncrease(rs: Reducers, t: string, td: TopicData)
    requires LogInv(t, td) && FansInv(rs, td)
    ensures Increasing(td.fans)
  {
  }

  // ---- what a step leaves alone ----

  /** Topic invariants survive on every topic but the one a step works on. */
  lemma OtherTopics(c: Config, s: System, s': System, topic: string)
    requires TopicsInv(c, s)
    requires forall t: string :: t != topic ==> Td(s', t) == Td(s, t) && Flight(s', t) == Flight(s, t)
    requires TopicInv(c, s', topic)
    ensures TopicsInv(c, s')
  {
    forall t: string ensures TopicInv(c, s', t) {
      assert TopicInv(c, s, t);
    }
  }

  lemma SameTopics(c: Config, s: System, s': System)
    requires TopicsInv(c, s)
    requires s'.topics == s.topics
    requires forall t: string :: Flight(s', t) == Flight(s, t)
    ensures TopicsInv(c, s')
  {
    forall t: string ensures TopicInv(c, s', t) {
      assert TopicInv(c, s, t);
      assert Td(s', t) == Td(s, t);
    }
  }

  lemma SameSubs(c: Config, s: System, s': System)
    requires SubsInv(c, s)
    requires s'.subs == s.subs && s'.next == s.next && s.sessions.Keys <= s'.sessions.Keys
    requires forall t: string :: Td(s', t).events == Td(s, t).events && Td(s', t).fans == Td(s, t).fans
    requires forall id :: id in s.subs ==> Pending(s', id) == Pending(s, id) && Checked(s', id) == Checked(s, id)
    ensures SubsInv(c, s')
  {
    forall id | id in s'.subs ensures SubInv(c, s', id) {
      assert SubInv(c, s, id);
    }
  }

  /** Subscription invariants survive for every subscription but the one a step works on. */
  lemma OtherSubs(c: Config, s: System, s': System, id: nat)
    requires SubsInv(c, s)
    requires id in s'.subs && s'.subs == s.subs[id := s'.subs[id]]
    requires s.next <= s'.next && s.sessions.Keys <= s'.sessions.Keys
    requires forall t: string :: Td(s', t).events == Td(s, t).events && Td(s', t).fans == Td(s, t).fans
    requires forall i :: i in s.subs && i != id ==> Pending(s', i) == Pending(s, i) && Checked(s', i) == Checked(s, i)
    requires SubInv(c, s', id)
    ensures SubsInv(c, s')
  {
    forall i | i in s'.subs ensures SubInv(c, s', i) {
      if i != id { assert SubInv(c, s, i); }
    }
  }

  /** A publisher may change stage as long as it keeps its event and place, and its logs keep their owners. */
  lemma SameOwners(s: System, s': System, pid: nat)
    requires OwnerInv(s) && pid in s'.pubs && s'.pubs == s.pubs[pid := s'.pubs[pid]]
    requires forall t :: t in s'.topics ==>
      Td(s', t).owners == Td(s, t).owners && Td(s', t).events == Td(s, t).events
    requires forall t :: t in s.topics ==> t in s'.topics
    requires Stored(s'.pubs[pid]) <==> pid in s.pubs && Stored(s.pubs[pid])
    requires Stored(s'.pubs[pid]) ==> s'.pubs[pid].e == s.pubs[pid].e && s'.pubs[pid].at == s.pubs[pid].at
    ensures OwnerInv(s')
  {
    forall t | t in s'.topics ensures OwnersOk(s'.pubs, s'.topics[t]) {
      assert t in s.topics ==> OwnersOk(s.pubs, s.topics[t]);
      assert Td(s', t) == s'.topics[t];
    }
    forall i | i in s'.pubs ensures PlaceOk(s', i) {
      assert i in s.pubs ==> PlaceOk(s, i);
      if Stored(s'.pubs[i]) {
        var t := s'.pubs[i].e.topic;
        assert t in s.topics;
      }
    }
  }

  lemma OwnersUntouched(s: System, s': System)
    requires OwnerInv(s) && s'.topics == s.topics && s'.pubs == s.pubs
    ensures OwnerInv(s')
  {
    forall i | i in s'.pubs ensures PlaceOk(s', i) { assert PlaceOk(s, i); }
  }

  // ---- publishers ----

  lemma SpawnKeeps(c: Config, s: System, pid: nat, e: Event, s': System)
    requires ServerInv(c, s) && DoSpawn(s, pid, e, s')
    ensures ServerInv(c, s')
  {
    SameTopics(c, s, s');
    SameOwners(s, s', pid);
    SameSubs(c, s, s');
  }

  lemma AcquireKeeps(c: Config, s: System, pid: nat, s': System)
    requires ServerInv(c, s) && DoAcquire(s, pid, s')
    ensures ServerInv(c, s')
  {
    SameTopics(c, s, s');
    SameOwners(s, s', pid);
    SameSubs(c, s, s');
  }

  lemma AppendFailsKeepsTopics(c: Config, s: System, pid: nat, counted: bool, s': System)
    requires LockInv(s) && TopicsInv(c, s) && DoAppendFails(c, s, pid, counted, s')
    ensures TopicsInv(c, s')
  {
    var topic := s.pubs[pid].e.topic;
    assert TopicInv(c, s, topic) && Flight(s, topic) == None && Flight(s', topic) == None;
    OtherTopics(c, s, s', topic);
  }

  lemma AppendFailsKeeps(c: Config, s: System, pid: nat, counted: bool, s': System)
    requires ServerInv(c, s) && DoAppendFails(c, s, pid, counted, s')
    ensures ServerInv(c, s')
  {
    AppendFailsKeepsTopics(c, s, pid, counted, s');
    assert forall t :: t in s'.topics ==> Td(s', t).owners == Td(s, t).owners && Td(s', t).events == Td(s, t).events;
    SameOwners(s, s', pid);
    SameSubs(c, s, s');
  }

  lemma AppendKeepsOwners(c: Config, s: System, pid: nat, id: string, now: Time, s': System)
    requires LockInv(s) && OwnerInv(s) && DoIngest(c, s, Append(pid, id, now), pid, s')
    ensures OwnerInv(s')
  {
    var topic := s.pubs[pid].e.topic;
    forall t | t in s'.topics ensures OwnersOk(s'.pubs, s'.topics[t]) {
      assert t in s.topics ==> OwnersOk(s.pubs, s.topics[t]);
    }
    forall i | i in s'.pubs ensures PlaceOk(s', i) {
      if i != pid { assert PlaceOk(s, i); }
    }
  }

  lemma AppendKeepsTopics(c: Config, s: System, pid: nat, id: string, now: Time, s': System)
    requires LockInv(s) && TopicsInv(c, s) && DoIngest(c, s, Append(pid, id, now), pid, s')
    ensures TopicsInv(c, s')
  {
    var topic := s.pubs[pid].e.topic;
    assert TopicInv(c, s, topic) && Flight(s, topic) == None && Flight(s', topic) == Some(s'.pubs[pid]);
    AppendKeepsTopic(c, topic, Td(s, topic), s.pubs[pid], pid, id, now, Td(s', topic), s'.pubs[pid]);
    OtherTopics(c, s, s', topic);
  }

  lemma AppendKeepsSubs(c: Config, s: System, pid: nat, id: string, now: Time, s': System)
    requires LockInv(s) && SubsInv(c, s) && DoIngest(c, s, Append(pid, id, now), pid, s')
    ensures SubsInv(c, s')
  {
    var topic := s.pubs[pid].e.topic;
    forall i | i in s'.subs ensures SubInv(c, s', i) {
      assert SubInv(c, s, i);
      if s.subs[i].topic == topic {
        LogGrows(c.backend, Td(s, topic).events, s'.pubs[pid].e, s.subs[i]);
      }
    }
  }

  lemma AppendKeeps(c: Config, s: System, pid: nat, id: string, now: Time, s': System)
    requires ServerInv(c, s) && DoIngest(c, s, Append(pid, id, now), pid, s')
    ensures ServerInv(c, s')
  {
    AppendKeepsTopics(c, s, pid, id, now, s');
    AppendKeepsOwners(c, s, pid, id, now, s');
    AppendKeepsSubs(c, s, pid, id, now, s');
  }

  lemma IngestKeeps(c: Config, s: System, step: Step, pid: nat, s': System)
    requires ServerInv(c, s) && DoIngest(c, s, step, pid, s') && !step.Append?
    ensures ServerInv(c, s')
  {
    var topic := s.pubs[pid].e.topic;
    assert TopicInv(c, s, topic) && Flight(s, topic) == Some(s.pubs[pid]);
    IngestKeepsTopic(c, topic, step, pid, Td(s, topic), s.pubs[pid], Td(s', topic), s'.pubs[pid]);
    assert Flight(s', topic) == Some(s'.pubs[pid]);
    OtherTopics(c, s, s', topic);
    SameOwners(s, s', pid);
    SameSubs(c, s, s');
  }

  lemma SnapshotKeepsSubs(c: Config, s: System, pid: nat, s': System)
    requires SubsInv(c, s) && DoSnapshot(s, pid, s')
    ensures SubsInv(c, s')
  {
    var p := s.pubs[pid];
    forall i | i in s'.subs ensures SubInv(c, s', i) {
      assert SubInv(c, s, i) && !Pending(s, i) && !Checked(s, i) && !Checked(s', i);
      if s.subs[i].topic == p.e.topic {
        FansGrow(Td(s, p.e.topic).fans, p.e.(state := p.stage.next), s.subs[i]);
        assert Pending(s', i) == s.subs[i].registered;
      } else {
        assert !Pending(s', i);
      }
    }
  }

  lemma SnapshotKeeps(c: Config, s: System, pid: nat, s': System)
    requires ServerInv(c, s) && DoSnapshot(s, pid, s')
    ensures ServerInv(c, s')
  {
    var p := s.pubs[pid];
    var topic := p.e.topic;
    assert TopicInv(c, s, topic) && Flight(s, topic) == Some(p);
    SnapshotKeepsTopic(c, topic, Td(s, topic), p, s'.pubs[pid].stage.todo);
    assert Flight(s', topic) == Some(s'.pubs[pid]);
    OtherTopics(c, s, s', topic);
    SameOwners(s, s', pid);
    SnapshotKeepsSubs(c, s, pid, s');
  }

  lemma CheckFlags(s: System, pid: nat, id: nat, s': System)
    requires DoCheck(s, pid, id, s')
    ensures Pending(s, id) && !Checked(s, id) && !Pending(s', id) && Checked(s', id) == !s.subs[id].closed
    ensures forall i: nat :: i != id ==> Pending(s', i) == Pending(s, i) && Checked(s', i) == Checked(s, i)
    ensures s'.topics == s.topics && s'.subs == s.subs && s'.next == s.next && s'.sessions == s.sessions
  {
  }

  lemma CheckKeepsSubs(c: Config, s: System, pid: nat, id: nat, s': System)
    requires SubsInv(c, s) && DoCheck(s, pid, id, s')
    ensures SubsInv(c, s')
  {
    CheckFlags(s, pid, id, s');
    assert SubInv(c, s, id);
    CheckKeepsFlow(Td(s, s.subs[id].topic).fans, s.subs[id]);
    assert SubInv(c, s', id);
    OtherSubs(c, s, s', id);
  }

  lemma CheckKeepsTopics(c: Config, s: System, pid: nat, id: nat, s': System)
    requires TopicsInv(c, s) && DoCheck(s, pid, id, s')
    ensures TopicsInv(c, s')
  {
    var topic := s.pubs[pid].e.topic;
    assert TopicInv(c, s, topic) && Flight(s', topic) == Some(s'.pubs[pid]);
    OtherTopics(c, s, s', topic);
  }

  lemma CheckKeeps(c: Config, s: System, pid: nat, id: nat, s': System)
    requires ServerInv(c, s) && DoCheck(s, pid, id, s')
    ensures ServerInv(c, s')
  {
    CheckKeepsTopics(c, s, pid, id, s');
    CheckKeepsSubs(c, s, pid, id, s');
    SameOwners(s, s', pid);
  }

  /** While an event is being offered, its fan-out copy is the newest. */
  lemma NewestCopy(c: Config, s: System, pid: nat)
    requires TopicsInv(c, s) && Fanning(s, pid)
    ensures var p := s.pubs[pid]; var fans := Td(s, p.e.topic).fans;
      |fans| > 0 && fans[|fans| - 1] == p.e.(state := p.stage.next) && Increasing(fans)
  {
    var p := s.pubs[pid];
    var td := Td(s, p.e.topic);
    assert TopicInv(c, s, p.e.topic) && Flight(s, p.e.topic) == Some(p);
    assert td.events[..p.at + 1] == td.events;
    FansIncrease(c.reducers, p.e.topic, td);
  }

  lemma DeliverKeepsSubs(c: Config, s: System, pid: nat, outcome: Outcome, s': System)
    requires TopicsInv(c, s) && SendInv(s) && SubsInv(c, s) && DoDeliver(s, pid, outcome, s')
    ensures SubsInv(c, s')
  {
    var id := s.pubs[pid].stage.checked.value;
    var q, q' := s.subs[id], s'.subs[id];
    var td := Td(s, q.topic);
    assert SubInv(c, s, id) && !Pending(s, id) && Checked(s, id);
    NewestCopy(c, s, pid);
    OfferKeepsFlow(td.fans, outcome, q, q');
    OfferKeepsQueue(td.fans, outcome, q, q');
    OfferKeepsFrames(c.backend, td.events, outcome, td.fans[|td.fans| - 1], q, q');
    assert !Pending(s', id) && !Checked(s', id) && Td(s', q'.topic) == td;
    OtherSubs(c, s, s', id);
  }

  lemma DeliverKeepsTopics(c: Config, s: System, pid: nat, outcome: Outcome, s': System)
    requires TopicsInv(c, s) && DoDeliver(s, pid, outcome, s')
    ensures TopicsInv(c, s')
  {
    var topic := s.pubs[pid].e.topic;
    assert TopicInv(c, s, topic) && Flight(s', topic) == Some(s'.pubs[pid]);
    OtherTopics(c, s, s', topic);
  }

  lemma DeliverKeeps(c: Config, s: System, pid: nat, outcome: Outcome, s': System)
    requires ServerInv(c, s) && DoDeliver(s, pid, outcome, s')
    ensures ServerInv(c, s')
  {
    DeliverKeepsTopics(c, s, pid, outcome, s');
    DeliverKeepsSubs(c, s, pid, outcome, s');
    SameOwners(s, s', pid);
    var id := s.pubs[pid].stage.checked.value;
    assert s'.subs[id].topic == s.subs[id].topic;
  }

  lemma ReleaseKeepsTopics(c: Config, s: System, pid: nat, s': System)
    requires TopicsInv(c, s) && DoRelease(s, pid, s')
    ensures TopicsInv(c, s')
  {
    var topic := s.pubs[pid].e.topic;
    assert TopicInv(c, s, topic) && Flight(s, topic) == Some(s.pubs[pid]) && Flight(s', topic) == None;
    OtherTopics(c, s, s', topic);
  }

  lemma ReleaseKeeps(c: Config, s: System, pid: nat, s': System)
    requires ServerInv(c, s) && DoRelease(s, pid, s')
    ensures ServerInv(c, s')
  {
    ReleaseKeepsTopics(c, s, pid, s');
    SameOwners(s, s', pid);
    SameSubs(c, s, s');
  }

  // ---- subscriptions and sessions ----

  /** Fan-out is at most the event in flight behind the log. */
  lemma FansBehind(c: Config, s: System, t: string)
    requires TopicInv(c, s, t)
    ensures |Td(s, t).fans| <= |Td(s, t).events| <= |Td(s, t).fans| + 1
  {
  }

  /** The next id is nobody's. */
  lemma NextIsFresh(c: Config, s: System)
    requires SubsInv(c, s)
    ensures s.next + 1 !in s.subs
  {
    assert s.next + 1 in s.subs ==> SubInv(c, s, s.next + 1);
  }

  lemma SubscribeKeepsSubs(c: Config, s: System, sid: nat, topic: string, from: From, s': System)
    requires SendInv(s) && SubsInv(c, s) && DoSubscribe(s, sid, topic, from, s')
    requires |Td(s, topic).fans| <= |Td(s, topic).events| <= |Td(s, topic).fans| + 1
    ensures SubsInv(c, s')
  {
    var id := s.next + 1;
    NextIsFresh(c, s);
    NewSubOk(c.backend, Td(s, topic).events, Td(s, topic).fans, topic, sid, from);
    assert !Pending(s', id) && !Checked(s', id) && Td(s', topic) == Td(s, topic);
    assert SubInv(c, s', id);
    OtherSubs(c, s, s', id);
  }

  lemma SubscribeKeeps(c: Config, s: System, sid: nat, topic: string, from: From, s': System)
    requires ServerInv(c, s) && DoSubscribe(s, sid, topic, from, s')
    ensures ServerInv(c, s')
  {
    assert TopicInv(c, s, topic);
    FansBehind(c, s, topic);
    SubscribeKeepsSubs(c, s, sid, topic, from, s');
    SameTopics(c, s, s');
    NextIsFresh(c, s);
    OwnersUntouched(s, s');
  }

  lemma LocalKeepsSub(b: Backend, td: TopicData, pending: bool, checked: bool, act: Act, q: Sub, q': Sub, out: seq<Msg>)
    requires SubOk(b, td, pending, checked, q) && Local(b, td.events, act, q, q', out)
    ensures SubOk(b, td, pending, checked, q')
    ensures q'.topic == q.topic && q'.session == q.session
  {
    LocalFrame(b, td.events, act, q, q', out);
    LocalKeepsFlow(b, td.events, td.fans, pending, checked, act, q, q', out);
    LocalKeepsQueue(b, td.events, act, q, q', out);
    LocalKeepsReplay(b, td.events, act, q, q', out);
    LocalKeepsLive(b, td.events, act, q, q', out);
  }

  lemma ReplacesFlags(s: System, id: nat, q: Sub, out: seq<Msg>, s': System)
    requires Replaces(s, id, q, out, s')
    ensures s'.topics == s.topics && s'.pubs == s.pubs && s'.lock == s.lock && s'.next == s.next
    ensures s'.subs == s.subs[id := q] && s'.sessions.Keys == s.sessions.Keys
    ensures forall i: nat :: Pending(s', i) == Pending(s, i) && Checked(s', i) == Checked(s, i)
  {
  }

  lemma ReplacesKeepsSubs(c: Config, s: System, id: nat, q: Sub, out: seq<Msg>, s': System)
    requires SubsInv(c, s) && Replaces(s, id, q, out, s')
    requires q.topic == s.subs[id].topic && q.session == s.subs[id].session
    requires SubOk(c.backend, Td(s, q.topic), Pending(s, id), Checked(s, id), q)
    ensures SubsInv(c, s')
  {
    ReplacesFlags(s, id, q, out, s');
    assert SubInv(c, s, id);
    assert SubInv(c, s', id);
    OtherSubs(c, s, s', id);
  }

  lemma ReplacesKeeps(c: Config, s: System, id: nat, q: Sub, out: seq<Msg>, s': System)
    requires ServerInv(c, s) && Replaces(s, id, q, out, s')
    requires q.topic == s.subs[id].topic && q.session == s.subs[id].session
    requires SubOk(c.backend, Td(s, q.topic), Pending(s, id), Checked(s, id), q)
    ensures ServerInv(c, s')
  {
    ReplacesKeepsSubs(c, s, id, q, out, s');
    ReplacesFlags(s, id, q, out, s');
    SameTopics(c, s, s');
    OwnersUntouched(s, s');
  }

  lemma SessionKeeps(c: Config, s: System, id: nat, act: Act, out: seq<Msg>, s': System)
    requires ServerInv(c, s) && DoSession(c, s, id, act, out, s')
    ensures ServerInv(c, s')
  {
    var topic := s.subs[id].topic;
    assert TopicInv(c, s, topic) && SubInv(c, s, id);
    LocalKeepsSub(c.backend, Td(s, topic), Pending(s, id), Checked(s, id), act, s.subs[id], s'.subs[id], out);
    ReplacesKeeps(c, s, id, s'.subs[id], out, s');
  }

  lemma OutboxKeeps(c: Config, s: System, sid: nat, s': System)
    requires ServerInv(c, s) && (DoConnect(s, sid, s') || DoAnswer(s, sid, s') || DoWrite(s, sid, s'))
    ensures ServerInv(c, s')
  {
    SameTopics(c, s, s');
    SameSubs(c, s, s');
    OwnersUntouched(s, s');
  }

  // ---- runs ----

  lemma NextKeeps(c: Config, s: System, step: Step, s': System)
    requires ServerInv(c, s) && Next(c, s, step, s')
    ensures ServerInv(c, s')
  {
    match step {
      case Spawn(pid, e) => SpawnKeeps(c, s, pid, e, s');
      case Acquire(pid) => AcquireKeeps(c, s, pid, s');
      case Append(pid, id, now) => AppendKeeps(c, s, pid, id, now, s');
      case AppendFails(pid, counted) => AppendFailsKeeps(c, s, pid, counted, s');
      case Load(pid) => IngestKeeps(c, s, step, pid, s');
      case Reduce(pid) => IngestKeeps(c, s, step, pid, s');
      case Save(pid) => IngestKeeps(c, s, step, pid, s');
      case Snapshot(pid) => SnapshotKeeps(c, s, pid, s');
      case Check(pid, id) => CheckKeeps(c, s, pid, id, s');
      case Deliver(pid, outcome) => DeliverKeeps(c, s, pid, outcome, s');
      case Release(pid) => ReleaseKeeps(c, s, pid, s');
      case Connect(sid) => OutboxKeeps(c, s, sid, s');
      case Subscribe(sid, topic, from) => SubscribeKeeps(c, s, sid, topic, from, s');
      case Session(id, act, out) => SessionKeeps(c, s, id, act, out, s');
      case Answer(sid) => OutboxKeeps(c, s, sid, s');
      case Write(sid) => OutboxKeeps(c, s, sid, s');
    }
  }
}
