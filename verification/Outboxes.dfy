/** Order survives loss: what a session's writer is handed keeps each subscription's frames in order. */
module Outboxes {
  import opened Types
  import opened Log
  import opened Sequences
  import opened Subscriptions
  import opened Engine
  import opened Serving
  import opened Delivery

  predicate IsFor(f: Frame, id: nat) { f.Frame? && f.sub == id }

  function MsgFor(f: Frame, id: nat): seq<Msg> { if IsFor(f, id) then [f.msg] else [] }

  /** The messages of one subscription among a session's frames. */
  function Of(fs: seq<Frame>, id: nat): seq<Msg> {
    if fs == [] then []
    else Of(fs[..|fs| - 1], id) + MsgFor(fs[|fs| - 1], id)
  }

  lemma OfSnoc(fs: seq<Frame>, f: Frame, id: nat)
    ensures Of(fs + [f], id) == Of(fs, id) + MsgFor(f, id)
  {
    assert (fs + [f])[..|fs|] == fs;
  }

  lemma {:induction false} OfSubseq(a: seq<Frame>, b: seq<Frame>, id: nat)
    requires Subseq(a, b)
    ensures Subseq(Of(a, id), Of(b, id))
  {
    if a != [] {
      var a', b', f := a[..|a| - 1], b[..|b| - 1], b[|b| - 1];
      assert Of(b, id) == Of(b', id) + MsgFor(f, id);
      if a[|a| - 1] == f && Subseq(a', b') {
        OfSubseq(a', b', id);
        assert Of(a, id) == Of(a', id) + MsgFor(f, id);
        if IsFor(f, id) {
          SubseqTake(Of(a', id), Of(b', id), f.msg);
        } else {
          assert Of(a, id) == Of(a', id) && Of(b, id) == Of(b', id);
        }
      } else {
        OfSubseq(a, b', id);
        if IsFor(f, id) {
          SubseqSkip(Of(a, id), Of(b', id), f.msg);
        } else {
          assert Of(b, id) == Of(b', id);
        }
      }
    }
  }

  // ---- ordered frames ----

  predicate IsEvent(m: Msg) { m.Replayed? || m.Live? }

  /** y may follow x: sequence numbers rise, and no backfill frame comes after a live one. */
  predicate Follows(x: Msg, y: Msg) {
    IsEvent(x) && IsEvent(y) ==> x.e.seqno < y.e.seqno && (x.Live? ==> y.Live?)
  }

  ghost predicate Ordered(ms: seq<Msg>) {
    forall i, j :: 0 <= i < j < |ms| ==> Follows(ms[i], ms[j])
  }

  lemma {:induction false} SubseqOrdered(a: seq<Msg>, b: seq<Msg>)
    requires Subseq(a, b) && Ordered(b)
    ensures Ordered(a)
  {
    if a != [] {
      var a', b' := a[..|a| - 1], b[..|b| - 1];
      if a[|a| - 1] == b[|b| - 1] && Subseq(a', b') {
        SubseqOrdered(a', b');
        forall i | 0 <= i < |a'| ensures Follows(a[i], a[|a| - 1]) {
          SubseqMember(a', b', a'[i]);
        }
      } else {
        SubseqOrdered(a, b');
      }
    }
  }

  lemma {:induction false} EventsOfMember(ms: seq<Msg>, i: nat)
    requires i < |ms| && IsEvent(ms[i])
    ensures ms[i].e in EventsOf(ms)
  {
    if i < |ms| - 1 { EventsOfMember(ms[..|ms| - 1], i); }
  }

  /** Frames are ordered when the events they carry increase. */
  lemma {:induction false} IncreasingIsOrdered(ms: seq<Msg>)
    requires Increasing(EventsOf(ms))
    ensures forall i, j :: 0 <= i < j < |ms| && IsEvent(ms[i]) && IsEvent(ms[j]) ==> ms[i].e.seqno < ms[j].e.seqno
  {
    if ms != [] {
      var n := |ms| - 1;
      var before := EventsOf(ms[..n]);
      assert EventsOf(ms) == before + EventIn(ms[n]);
      assert forall i :: 0 <= i < |before| ==> before[i] == EventsOf(ms)[i];
      IncreasingIsOrdered(ms[..n]);
      forall i | 0 <= i < n && IsEvent(ms[i]) && IsEvent(ms[n]) ensures ms[i].e.seqno < ms[n].e.seqno {
        EventsOfMember(ms[..n], i);
        assert EventsOf(ms)[|before|] == ms[n].e;
      }
    }
  }

  lemma {:induction false} BeyondIncreases(events: seq<Event>, fence: nat)
    requires Increasing(events)
    ensures Increasing(Beyond(events, fence))
    ensures forall e :: e in Beyond(events, fence) ==> e in events && e.seqno > fence
  {
    if events != [] {
      BeyondIncreases(events[..|events| - 1], fence);
    }
  }

  lemma IncreasingAppend(a: seq<Event>, b: seq<Event>, fence: nat)
    requires Increasing(a) && Increasing(b)
    requires forall e :: e in a ==> e.seqno <= fence
    requires forall e :: e in b ==> e.seqno > fence
    ensures Increasing(a + b)
  {
  }

  /** The events of the replayed part: some front of the backfill. */
  lemma ReplayedEvents(b: Backend, events: seq<Event>, q: Sub)
    requires ReplayInv(b, events, q)
    ensures EventsOf(q.replayed) <= q.backfill
    ensures forall i :: 0 <= i < |q.replayed| ==> !q.replayed[i].Live?
  {
    if q.pc.Replaying? {
      EventsOfReplay(q.backfill[..q.pc.sent]);
    } else if Started(q.pc) {
      IssuedReplay(q);
    }
  }

  /** The fence is the greatest sequence number of the backfill. */
  lemma BackfillIncreases(b: Backend, events: seq<Event>, q: Sub)
    requires Increasing(events) && ReplayInv(b, events, q)
    ensures Increasing(q.backfill)
    ensures forall i :: 0 <= i < |q.backfill| ==> q.backfill[i].seqno <= q.fence
  {
    if HasRead(q.pc) {
      BackfillSlice(b, events, q);
      var lo := BackfillStart(b, events[..q.readLen], q.from);
      assert forall i :: 0 <= i < |q.backfill| ==> q.backfill[i] == events[lo + i];
    }
  }

  lemma FrontOfIncreasing(front: seq<Event>, whole: seq<Event>, fence: nat)
    requires front <= whole && Increasing(whole)
    requires forall i :: 0 <= i < |whole| ==> whole[i].seqno <= fence
    ensures Increasing(front) && forall e :: e in front ==> e.seqno <= fence
  {
    assert forall i :: 0 <= i < |front| ==> front[i] == whole[i];
  }

  lemma FrontIncreases(b: Backend, events: seq<Event>, q: Sub)
    requires Increasing(events) && ReplayInv(b, events, q)
    ensures Increasing(EventsOf(q.replayed))
    ensures forall e :: e in EventsOf(q.replayed) ==> e.seqno <= q.fence
  {
    ReplayedEvents(b, events, q);
    BackfillIncreases(b, events, q);
    FrontOfIncreasing(EventsOf(q.replayed), q.backfill, q.fence);
  }

  lemma IssuedIncreases(b: Backend, events: seq<Event>, q: Sub)
    requires Increasing(events) && ReplayInv(b, events, q)
    requires Increasing(Accepted(q)) && EventsOf(q.lives) == Beyond(q.taken, q.fence)
    ensures Increasing(EventsOf(Frames(q)))
  {
    FrontIncreases(b, events, q);
    assert Increasing(q.taken) by {
      assert forall i :: 0 <= i < |q.taken| ==> q.taken[i] == Accepted(q)[i];
    }
    BeyondIncreases(q.taken, q.fence);
    IncreasingAppend(EventsOf(q.replayed), EventsOf(q.lives), q.fence);
    EventsOfAppend(q.replayed, q.lives);
  }

  /** Everything one subscription issues is ordered, with or without losses before it. */
  lemma FramesOrdered(b: Backend, events: seq<Event>, q: Sub)
    requires Increasing(events) && ReplayInv(b, events, q) && LiveInv(q) && QueueInv(q)
    ensures Ordered(Frames(q))
  {
    ReplayedEvents(b, events, q);
    IssuedIncreases(b, events, q);
    IncreasingIsOrdered(Frames(q));
    assert forall j :: |q.replayed| <= j < |Frames(q)| ==> !Frames(q)[j].Replayed?;
  }

  // ---- outboxes ----

  /** What the writer has been handed or will be: all that was issued, minus what overflowed. */
  ghost predicate BoxOk(o: Outbox) {
    && |o.out| <= OUTBUF
    && Subseq(o.written + o.out, o.issued)
    && |o.issued| == |o.written| + |o.out| + o.lost
    && (o.lost == 0 ==> o.written + o.out == o.issued)
  }

  /** A session's frames come from its own subscriptions. */
  ghost predicate SourcesOk(s: System, sid: nat)
    requires sid in s.sessions
  {
    forall f :: f in s.sessions[sid].issued && f.Frame? ==> f.sub in s.subs && s.subs[f.sub].session == sid
  }

  ghost predicate IssuedOk(s: System, id: nat)
    requires id in s.subs
  {
    s.subs[id].session in s.sessions && Of(s.sessions[s.subs[id].session].issued, id) == Frames(s.subs[id])
  }

  ghost predicate OutInv(s: System) {
    && (forall sid {:trigger BoxOk(s.sessions[sid])} :: sid in s.sessions ==> BoxOk(s.sessions[sid]))
    && (forall sid {:trigger SourcesOk(s, sid)} :: sid in s.sessions ==> SourcesOk(s, sid))
    && (forall id {:trigger IssuedOk(s, id)} :: id in s.subs ==> IssuedOk(s, id))
  }

  lemma PutKeepsBox(o: Outbox, f: Frame)
    requires BoxOk(o)
    ensures BoxOk(Put(o, f)) && Put(o, f).issued == o.issued + [f]
  {
    if |o.out| < OUTBUF {
      assert o.written + (o.out + [f]) == (o.written + o.out) + [f];
      SubseqTake(o.written + o.out, o.issued, f);
    } else {
      SubseqSkip(o.written + o.out, o.issued, f);
    }
  }

  lemma {:induction false} OfNone(fs: seq<Frame>, id: nat)
    requires forall f :: f in fs ==> !IsFor(f, id)
    ensures Of(fs, id) == []
  {
    if fs != [] { OfNone(fs[..|fs| - 1], id); }
  }

  /** The replaced subscription's session is handed out, every other session keeps its box. */
  lemma ReplacesIssues(s: System, id: nat, q: Sub, out: seq<Msg>, s': System)
    requires Replaces(s, id, q, out, s')
    ensures var sid := s.subs[id].session;
      && s'.sessions.Keys == s.sessions.Keys
      && (forall i :: i in s.sessions && i != sid ==> s'.sessions[i] == s.sessions[i])
      && s'.sessions[sid] == (if out == [] then s.sessions[sid] else Put(s.sessions[sid], Frame(id, out[0])))
      && s'.sessions[sid].issued == s.sessions[sid].issued + (if out == [] then [] else [Frame(id, out[0])])
    ensures s'.subs.Keys == s.subs.Keys && s'.subs[id] == q
    ensures forall i :: i in s.subs && i != id ==> s'.subs[i] == s.subs[i]
  {
  }

  lemma IssuedExtends(issued: seq<Frame>, ms: seq<Msg>, id: nat, out: seq<Msg>, i: nat)
    requires Of(issued, i) == ms && |out| <= 1
    ensures Of(issued + (if out == [] then [] else [Frame(id, out[0])]), i) == if i == id then ms + out else ms
  {
    if out == [] {
      assert issued + [] == issued && ms + [] == ms;
    } else {
      OfSnoc(issued, Frame(id, out[0]), i);
      assert out == [out[0]];
    }
  }

  lemma SessionKeepsSources(s: System, id: nat, q: Sub, out: seq<Msg>, s': System, sid: nat)
    requires Replaces(s, id, q, out, s') && q.session == s.subs[id].session
    requires sid in s'.sessions && sid in s.sessions && SourcesOk(s, sid)
    ensures SourcesOk(s', sid)
  {
    ReplacesIssues(s, id, q, out, s');
  }

  lemma SessionKeepsIssued(s: System, id: nat, q: Sub, out: seq<Msg>, s': System, i: nat)
    requires Replaces(s, id, q, out, s') && q.session == s.subs[id].session
    requires Frames(q) == Frames(s.subs[id]) + out
    requires i in s'.subs && i in s.subs && IssuedOk(s, i)
    ensures IssuedOk(s', i)
  {
    ReplacesIssues(s, id, q, out, s');
    if s.subs[i].session == q.session {
      IssuedExtends(s.sessions[q.session].issued, Frames(s.subs[i]), id, out, i);
    }
  }

  lemma SessionKeepsBox(s: System, id: nat, q: Sub, out: seq<Msg>, s': System, sid: nat)
    requires Replaces(s, id, q, out, s')
    requires sid in s'.sessions && sid in s.sessions && BoxOk(s.sessions[sid])
    ensures BoxOk(s'.sessions[sid])
  {
    ReplacesIssues(s, id, q, out, s');
    if sid == s.subs[id].session && out != [] { PutKeepsBox(s.sessions[sid], Frame(id, out[0])); }
  }

  lemma SessionKeepsOut(s: System, id: nat, q: Sub, out: seq<Msg>, s': System)
    requires OutInv(s) && Replaces(s, id, q, out, s')
    requires q.session == s.subs[id].session && Frames(q) == Frames(s.subs[id]) + out
    ensures OutInv(s')
  {
    assert s'.sessions.Keys == s.sessions.Keys && s'.subs.Keys == s.subs.Keys;
    forall i | i in s'.sessions ensures BoxOk(s'.sessions[i]) {
      assert BoxOk(s.sessions[i]);
      SessionKeepsBox(s, id, q, out, s', i);
    }
    forall i | i in s'.sessions ensures SourcesOk(s', i) {
      assert SourcesOk(s, i);
      SessionKeepsSources(s, id, q, out, s', i);
    }
    forall i | i in s'.subs ensures IssuedOk(s', i) {
      assert IssuedOk(s, i);
      SessionKeepsIssued(s, id, q, out, s', i);
    }
  }

  lemma SubscribeKeepsOut(c: Config, s: System, sid: nat, topic: string, from: From, s': System)
    requires OutInv(s) && SubsInv(c, s) && DoSubscribe(s, sid, topic, from, s')
    ensures OutInv(s')
  {
    var id := s.next + 1;
    assert !(id in s.subs && SubInv(c, s, id));
    forall i | i in s'.sessions ensures BoxOk(s'.sessions[i]) && SourcesOk(s', i) {
      assert BoxOk(s.sessions[i]) && SourcesOk(s, i);
    }
    forall i | i in s'.subs ensures IssuedOk(s', i) {
      if i == id {
        assert SourcesOk(s, sid);
        OfNone(s.sessions[sid].issued, id);
      } else {
        assert IssuedOk(s, i);
      }
    }
  }

  /** A reply fills the queue like any frame and belongs to no subscription. */
  lemma AnswerKeepsOut(s: System, sid: nat, s': System)
    requires OutInv(s) && DoAnswer(s, sid, s')
    ensures OutInv(s')
  {
    assert BoxOk(s.sessions[sid]) && SourcesOk(s, sid);
    PutKeepsBox(s.sessions[sid], Reply);
    forall i | i in s'.sessions ensures BoxOk(s'.sessions[i]) && SourcesOk(s', i) {
      assert BoxOk(s.sessions[i]) && SourcesOk(s, i);
    }
    forall i | i in s'.subs ensures IssuedOk(s', i) {
      assert IssuedOk(s, i);
      if s.subs[i].session == sid { OfSnoc(s.sessions[sid].issued, Reply, i); }
    }
  }

  lemma BoxesKeepOut(c: Config, s: System, sid: nat, s': System)
    requires OutInv(s) && SubsInv(c, s) && (DoConnect(s, sid, s') || DoWrite(s, sid, s'))
    ensures OutInv(s')
  {
    if DoWrite(s, sid, s') {
      var o := s.sessions[sid];
      assert (o.written + [o.out[0]]) + o.out[1..] == o.written + o.out;
    }
    forall i | i in s'.sessions ensures BoxOk(s'.sessions[i]) && SourcesOk(s', i) {
      assert i in s.sessions ==> BoxOk(s.sessions[i]) && SourcesOk(s, i);
    }
    forall i | i in s'.subs ensures IssuedOk(s', i) {
      assert IssuedOk(s, i) && SubInv(c, s, i);
    }
  }

  /** Publishers never touch a session; an offer changes a queue or a lag, and issues nothing. */
  lemma OthersKeepOut(s: System, s': System)
    requires OutInv(s) && s'.sessions == s.sessions && s'.subs.Keys == s.subs.Keys
    requires forall id :: id in s.subs ==>
      s'.subs[id].session == s.subs[id].session && Frames(s'.subs[id]) == Frames(s.subs[id])
    ensures OutInv(s')
  {
    forall i | i in s'.sessions ensures BoxOk(s'.sessions[i]) && SourcesOk(s', i) {
      assert BoxOk(s.sessions[i]) && SourcesOk(s, i);
    }
    forall i | i in s'.subs ensures IssuedOk(s', i) { assert IssuedOk(s, i); }
  }

  lemma SessionActKeepsOut(c: Config, s: System, id: nat, act: Act, out: seq<Msg>, s': System)
    requires OutInv(s) && SubsInv(c, s) && DoSession(c, s, id, act, out, s')
    ensures OutInv(s')
  {
    var events := Td(s, s.subs[id].topic).events;
    assert SubInv(c, s, id);
    LocalFrame(c.backend, events, act, s.subs[id], s'.subs[id], out);
    LocalIssues(c.backend, events, act, s.subs[id], s'.subs[id], out);
    SessionKeepsOut(s, id, s'.subs[id], out, s');
  }

  lemma NextKeepsOut(c: Config, s: System, step: Step, s': System)
    requires OutInv(s) && ServerInv(c, s) && Next(c, s, step, s')
    ensures OutInv(s')
  {
    match step {
      case Connect(sid) => BoxesKeepOut(c, s, sid, s');
      case Answer(sid) => AnswerKeepsOut(s, sid, s');
      case Write(sid) => BoxesKeepOut(c, s, sid, s');
      case Subscribe(sid, topic, from) => SubscribeKeepsOut(c, s, sid, topic, from, s');
      case Session(id, act, out) =>
        SessionActKeepsOut(c, s, id, act, out, s');
      case _ => OthersKeepOut(s, s');
    }
  }

  lemma {:induction false} RunOut(c: Config, run: seq<System>, steps: seq<Step>, i: nat)
    requires IsRun(c, run, steps) && i < |run|
    ensures OutInv(run[i])
  {
    if i > 0 {
      RunOut(c, run, steps, i - 1);
      RunInv(c, run, steps, i - 1);
      NextKeepsOut(c, run[i - 1], steps[i - 1], run[i]);
    }
  }

  lemma ReachableOut(c: Config, s: System)
    requires Reachable(c, s)
    ensures OutInv(s)
  {
    var run: seq<System>, steps: seq<Step> :| IsRun(c, run, steps) && run[|steps|] == s;
    RunOut(c, run, steps, |steps|);
  }

  /**
   Order survives loss. Whatever the hub dropped and whatever overflowed the session's queue, the
   frames of one subscription that reached the writer are ordered.
   */
  lemma OrderSurvivesLoss(c: Config, s: System, id: nat)
    requires Reachable(c, s) && id in s.subs
    ensures s.subs[id].session in s.sessions
    ensures Ordered(Of(s.sessions[s.subs[id].session].written, id))
  {
    ReachableOut(c, s);
    Facts(c, s, id);
    var q := s.subs[id];
    assert IssuedOk(s, id);
    var o := s.sessions[q.session];
    assert BoxOk(o);
    FramesOrdered(c.backend, Td(s, q.topic).events, q);
    SubseqFront(o.written, o.out, o.issued);
    OfSubseq(o.written, o.issued, id);
    SubseqOrdered(Of(o.written, id), Frames(q));
  }

  /** A session that never overflowed has written, up to what is queued, all that its subscriptions issued. */
  lemma NothingLost(c: Config, s: System, id: nat)
    requires Reachable(c, s) && id in s.subs && s.subs[id].session in s.sessions
    requires s.sessions[s.subs[id].session].lost == 0
    ensures var o := s.sessions[s.subs[id].session];
      Of(o.written, id) + Of(o.out, id) == Frames(s.subs[id])
  {
    ReachableOut(c, s);
    var o := s.sessions[s.subs[id].session];
    assert IssuedOk(s, id) && BoxOk(o);
    OfAppend(o.written, o.out, id);
  }

  lemma {:induction false} OfAppend(a: seq<Frame>, b: seq<Frame>, id: nat)
    ensures Of(a + b, id) == Of(a, id) + Of(b, id)
  {
    if b == [] {
      assert a + b == a;
    } else {
      assert (a + b)[..|a + b| - 1] == a + b[..|b| - 1];
      OfAppend(a, b[..|b| - 1], id);
    }
  }
}
