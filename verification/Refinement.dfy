/**
 The imperative code against the step machine: what one call does is what a run of the machine's
 atomic steps does when nothing comes between them.
 */
module Refinement {
  import opened Types
  import opened Log
  import opened Registry
  import opened Subscriptions
  import E = Engine
  import Sessions

  // ---- runs of one session's own actions ----

  datatype Action = Action(act: Act, out: seq<Msg>)

  ghost predicate Path(b: Backend, events: seq<Event>, moves: seq<Action>, q: Sub, q': Sub) {
    if moves == [] then q' == q
    else
      var n := |moves| - 1;
      exists p :: Path(b, events, moves[..n], q, p) && Local(b, events, moves[n].act, p, q', moves[n].out)
  }

  /** The frames of a run, in order. */
  function Issued(moves: seq<Action>): seq<Msg> {
    if moves == [] then [] else Issued(moves[..|moves| - 1]) + moves[|moves| - 1].out
  }

  ghost predicate Only(moves: seq<Action>, acts: set<Act>) {
    forall i :: 0 <= i < |moves| ==> moves[i].act in acts
  }

  /** One of the given actions more. */
  lemma PathSnoc(b: Backend, events: seq<Event>, moves: seq<Action>, q: Sub, p: Sub, m: Action, q': Sub,
                  acts: set<Act>)
    requires Path(b, events, moves, q, p) && Local(b, events, m.act, p, q', m.out)
    requires Only(moves, acts) && m.act in acts
    ensures Path(b, events, moves + [m], q, q') && Only(moves + [m], acts)
    ensures Issued(moves + [m]) == Issued(moves) + m.out
  {
    assert (moves + [m])[..|moves|] == moves;
  }

  // ---- SendReplay is Replay, as often as there are events, then Acknowledge ----

  const REPLAYING := {Replay, Acknowledge}

  function ReplayedTo(q: Sub, k: nat): Sub
    requires k <= |q.backfill|
  {
    q.(pc := Replaying(k), replayed := ReplayFrames(q.backfill[..k]))
  }

  lemma {:induction false} ReplaysTo(b: Backend, events: seq<Event>, q: Sub, k: nat) returns (moves: seq<Action>)
    requires q.pc == Replaying(0) && q.replayed == [] && k <= |q.backfill|
    ensures Path(b, events, moves, q, ReplayedTo(q, k)) && Only(moves, REPLAYING)
    ensures Issued(moves) == ReplayFrames(q.backfill[..k])
  {
    if k == 0 {
      moves := [];
    } else {
      var before := ReplaysTo(b, events, q, k - 1);
      var m := Action(Replay, [Replayed(q.backfill[k - 1])]);
      ReplayFramesSnoc(q.backfill, k - 1);
      PathSnoc(b, events, before, q, ReplayedTo(q, k - 1), m, ReplayedTo(q, k), REPLAYING);
      moves := before + [m];
    }
  }

  /** What Session.SendReplay sends is issued by Replay steps and one Acknowledge, and nothing else. */
  lemma SendReplayIsSteps(b: Backend, events: seq<Event>, q: Sub) returns (moves: seq<Action>)
    requires q.pc == Replaying(0) && q.replayed == []
    ensures Only(moves, REPLAYING) && Issued(moves) == ReplayFrames(q.backfill) + [Ack(q.fence)]
    ensures Path(b, events, moves, q, q.(pc := Idle, replayed := ReplayFrames(q.backfill) + [Ack(q.fence)]))
  {
    var n := |q.backfill|;
    var before := ReplaysTo(b, events, q, n);
    assert q.backfill[..n] == q.backfill;
    var m := Action(Acknowledge, [Ack(q.fence)]);
    var q' := q.(pc := Idle, replayed := ReplayFrames(q.backfill) + [Ack(q.fence)]);
    PathSnoc(b, events, before, q, ReplayedTo(q, n), m, q', REPLAYING);
    moves := before + [m];
  }

  // ---- Forward is Receive, then Skip or LoadLag, Report and Emit, event by event ----

  const FORWARDING := {Act.Receive, Skip, LoadLag, Report, Emit}

  /** The lag standing still. */
  function Steady(lag: nat, n: nat): (lags: seq<nat>)
    ensures |lags| == n
  {
    seq(n, i => lag)
  }

  function FramesAt(q: Sub, k: nat): seq<Msg>
    requires k <= |q.queue|
  {
    Sessions.Forwarded(q.queue[..k], q.fence, Steady(q.lag, k), q.lastLag)
  }

  function LagAt(q: Sub, k: nat): nat
    requires k <= |q.queue|
  {
    Sessions.Reported(q.queue[..k], q.fence, Steady(q.lag, k), q.lastLag)
  }

  /** q after k of its queued events. */
  function After(q: Sub, k: nat): Sub
    requires k <= |q.queue|
  {
    q.(queue := q.queue[k..], taken := q.taken + q.queue[..k],
       lives := q.lives + FramesAt(q, k), lastLag := LagAt(q, k))
  }

  lemma FramesNext(q: Sub, k: nat)
    requires k < |q.queue|
    ensures FramesAt(q, k + 1) == FramesAt(q, k) + Sessions.ForwardedOne(q.queue[k], q.fence, q.lag, LagAt(q, k))
    ensures LagAt(q, k + 1) == if q.queue[k].seqno > q.fence && q.lag > LagAt(q, k) then q.lag else LagAt(q, k)
  {
    var n := k + 1;
    assert q.queue[..n][..k] == q.queue[..k] && Steady(q.lag, n)[..k] == Steady(q.lag, k);
  }

  // the middle of event k: taken from the channel, lag read and to be reported, ready to be issued

  function Held(q: Sub, k: nat): Sub
    requires k < |q.queue|
  {
    After(q, k).(pc := Holding(q.queue[k]), queue := q.queue[k + 1..])
  }

  function Loaded(q: Sub, k: nat): Sub
    requires k < |q.queue|
  {
    Held(q, k).(pc := Reporting(q.queue[k], q.lag))
  }

  function ReportAt(q: Sub, k: nat): seq<Msg>
    requires k < |q.queue|
  {
    if q.lag > LagAt(q, k) then [Lagging(q.lag - LagAt(q, k))] else []
  }

  function Ready(q: Sub, k: nat): Sub
    requires k < |q.queue|
  {
    Held(q, k).(pc := Emitting(q.queue[k], q.lag), lives := q.lives + (FramesAt(q, k) + ReportAt(q, k)),
                lastLag := if q.lag > LagAt(q, k) then q.lag else LagAt(q, k))
  }

  /** Where a forwarder can be, and what it has issued by then. */
  ghost predicate At(q: Sub, k: nat, p: Sub, out: seq<Msg>) {
    && k <= |q.queue|
    && (|| (p == After(q, k) && out == FramesAt(q, k))
        || (k < |q.queue| && p == Held(q, k) && out == FramesAt(q, k))
        || (&& k < |q.queue| && p == Loaded(q, k) && out == FramesAt(q, k)
            && q.queue[k].seqno > q.fence && q.lag > LagAt(q, k))
        || (&& k < |q.queue| && p == Ready(q, k) && out == FramesAt(q, k) + ReportAt(q, k)
            && q.queue[k].seqno > q.fence))
  }

  lemma FromSelect(b: Backend, events: seq<Event>, q: Sub, k: nat, m: Action, p': Sub)
    requires q.pc.Idle? && k <= |q.queue| && m.act in FORWARDING && Local(b, events, m.act, After(q, k), p', m.out)
    ensures k < |q.queue| && p' == Held(q, k) && m.out == []
  {
    assert k < |q.queue| ==> q.queue[k..][1..] == q.queue[k + 1..];
  }

  lemma FromHeld(b: Backend, events: seq<Event>, q: Sub, k: nat, m: Action, p': Sub)
    requires k < |q.queue| && m.act in FORWARDING && Local(b, events, m.act, Held(q, k), p', m.out)
    ensures m.out == []
    ensures q.queue[k].seqno <= q.fence ==> p' == Held(q, k).(pc := Idle, taken := Held(q, k).taken + [q.queue[k]])
    ensures q.queue[k].seqno > q.fence ==> p' == if q.lag > LagAt(q, k) then Loaded(q, k) else Ready(q, k)
  {
    assert FramesAt(q, k) + [] == FramesAt(q, k);
  }

  lemma FromLoaded(b: Backend, events: seq<Event>, q: Sub, k: nat, m: Action, p': Sub)
    requires k < |q.queue| && m.act in FORWARDING && Local(b, events, m.act, Loaded(q, k), p', m.out)
    requires q.lag > LagAt(q, k)
    ensures p' == Ready(q, k) && m.out == ReportAt(q, k)
  {
    assert q.lives + FramesAt(q, k) + ReportAt(q, k) == q.lives + (FramesAt(q, k) + ReportAt(q, k));
  }

  lemma FromReady(b: Backend, events: seq<Event>, q: Sub, k: nat, m: Action, p': Sub)
    requires q.pc.Idle? && k < |q.queue| && q.queue[k].seqno > q.fence
    requires m.act in FORWARDING && Local(b, events, m.act, Ready(q, k), p', m.out)
    ensures p' == After(q, k + 1) && FramesAt(q, k) + ReportAt(q, k) + m.out == FramesAt(q, k + 1)
  {
    Emitted(q, k);
  }

  /** An issued event completes its turn. */
  lemma Emitted(q: Sub, k: nat)
    requires q.pc.Idle? && k < |q.queue| && q.queue[k].seqno > q.fence
    ensures var p := Ready(q, k);
      p.(pc := Idle, taken := p.taken + [q.queue[k]], lives := p.lives + [Live(q.queue[k])]) == After(q, k + 1)
    ensures FramesAt(q, k) + ReportAt(q, k) + [Live(q.queue[k])] == FramesAt(q, k + 1)
  {
    FramesNext(q, k);
    TakenNext(q, k);
    assert FramesAt(q, k) + ReportAt(q, k) + [Live(q.queue[k])] == FramesAt(q, k + 1);
    assert q.lives + (FramesAt(q, k) + ReportAt(q, k)) + [Live(q.queue[k])] == q.lives + FramesAt(q, k + 1);
  }

  lemma Skipped(q: Sub, k: nat)
    requires q.pc.Idle? && k < |q.queue| && q.queue[k].seqno <= q.fence
    ensures Held(q, k).(pc := Idle, taken := Held(q, k).taken + [q.queue[k]]) == After(q, k + 1)
    ensures FramesAt(q, k) == FramesAt(q, k + 1)
  {
    FramesNext(q, k);
    TakenNext(q, k);
    assert FramesAt(q, k) + [] == FramesAt(q, k);
  }

  /** The forwarder's next action is determined by where it is, and so is what it issues. */
  lemma AtStep(b: Backend, events: seq<Event>, q: Sub, k: nat, p: Sub, out: seq<Msg>, m: Action, p': Sub)
    requires q.pc.Idle? && At(q, k, p, out) && m.act in FORWARDING && Local(b, events, m.act, p, p', m.out)
    ensures At(q, k, p', out + m.out) || At(q, k + 1, p', out + m.out)
  {
    assert out + [] == out;
    if p.pc.Idle? {
      FromSelect(b, events, q, k, m, p');
    } else if p.pc.Holding? {
      FromHeld(b, events, q, k, m, p');
      if q.queue[k].seqno <= q.fence { Skipped(q, k); }
      assert FramesAt(q, k) + [] == FramesAt(q, k);
    } else if p.pc.Reporting? {
      FromLoaded(b, events, q, k, m, p');
    } else {
      FromReady(b, events, q, k, m, p');
    }
  }

  lemma TakenNext(q: Sub, k: nat)
    requires k < |q.queue|
    ensures q.taken + q.queue[..k] + [q.queue[k]] == q.taken + q.queue[..k + 1]
  {
  }

  lemma {:induction false} PathIsAt(b: Backend, events: seq<Event>, moves: seq<Action>, q: Sub, p: Sub)
    returns (k: nat)
    requires q.pc.Idle? && Path(b, events, moves, q, p) && Only(moves, FORWARDING)
    ensures At(q, k, p, Issued(moves))
  {
    if moves == [] {
      k := 0;
      assert q.queue[0..] == q.queue && q.taken + q.queue[..0] == q.taken && q.lives + FramesAt(q, 0) == q.lives;
    } else {
      var n := |moves| - 1;
      var mid :| Path(b, events, moves[..n], q, mid) && Local(b, events, moves[n].act, mid, p, moves[n].out);
      k := PathIsAt(b, events, moves[..n], q, mid);
      AtStep(b, events, q, k, mid, Issued(moves[..n]), moves[n], p);
      if !At(q, k, p, Issued(moves)) { k := k + 1; }
    }
  }

  /**
   Whatever the forwarder's own steps do to a queue, once it is back at its select with the queue
   empty and the lag has not moved, it has issued what Session.Forward sends, and holds its lastLag.
   */
  lemma ForwardIsSteps(b: Backend, events: seq<Event>, moves: seq<Action>, q: Sub, p: Sub)
    requires q.pc.Idle? && Path(b, events, moves, q, p) && Only(moves, FORWARDING)
    requires p.pc.Idle? && p.queue == []
    ensures var lags := Steady(q.lag, |q.queue|);
      && Issued(moves) == Sessions.Forwarded(q.queue, q.fence, lags, q.lastLag)
      && p.lastLag == Sessions.Reported(q.queue, q.fence, lags, q.lastLag)
      && p.taken == q.taken + q.queue && p.lives == q.lives + Issued(moves)
  {
    var k := PathIsAt(b, events, moves, q, p);
    assert p == After(q, k) && |p.queue| == |q.queue| - k;
    assert q.queue[..k] == q.queue;
  }

  /** And it can always get there. */
  lemma {:induction false} ForwardCanFinish(b: Backend, events: seq<Event>, q: Sub, k: nat) returns (moves: seq<Action>)
    requires q.pc.Idle? && k <= |q.queue|
    ensures Path(b, events, moves, q, After(q, k)) && Only(moves, FORWARDING)
  {
    if k == 0 {
      moves := [];
      assert q.queue[0..] == q.queue && q.taken + q.queue[..0] == q.taken && q.lives + FramesAt(q, 0) == q.lives;
    } else {
      var before := ForwardCanFinish(b, events, q, k - 1);
      moves := TurnSteps(b, events, before, q, k - 1);
    }
  }

  lemma TurnSteps(b: Backend, events: seq<Event>, before: seq<Action>, q: Sub, k: nat) returns (moves: seq<Action>)
    requires q.pc.Idle? && k < |q.queue| && Path(b, events, before, q, After(q, k)) && Only(before, FORWARDING)
    ensures Path(b, events, moves, q, After(q, k + 1)) && Only(moves, FORWARDING)
  {
    assert q.queue[k..][1..] == q.queue[k + 1..];
    PathSnoc(b, events, before, q, After(q, k), Action(Act.Receive, []), Held(q, k), FORWARDING);
    moves := before + [Action(Act.Receive, [])];
    if q.queue[k].seqno <= q.fence {
      Skipped(q, k);
      PathSnoc(b, events, moves, q, Held(q, k), Action(Skip, []), After(q, k + 1), FORWARDING);
      moves := moves + [Action(Skip, [])];
    } else {
      moves := LoadSteps(b, events, moves, q, k);
      Emitted(q, k);
      PathSnoc(b, events, moves, q, Ready(q, k), Action(Emit, [Live(q.queue[k])]), After(q, k + 1), FORWARDING);
      moves := moves + [Action(Emit, [Live(q.queue[k])])];
    }
  }

  lemma LoadSteps(b: Backend, events: seq<Event>, before: seq<Action>, q: Sub, k: nat) returns (moves: seq<Action>)
    requires k < |q.queue| && q.queue[k].seqno > q.fence
    requires Path(b, events, before, q, Held(q, k)) && Only(before, FORWARDING)
    ensures Path(b, events, moves, q, Ready(q, k)) && Only(moves, FORWARDING)
  {
    HeldLoads(b, events, q, k);
    moves := before + [Action(LoadLag, [])];
    if q.lag > LagAt(q, k) {
      PathSnoc(b, events, before, q, Held(q, k), Action(LoadLag, []), Loaded(q, k), FORWARDING);
      LoadedReports(b, events, q, k);
      PathSnoc(b, events, moves, q, Loaded(q, k), Action(Report, ReportAt(q, k)), Ready(q, k), FORWARDING);
      moves := moves + [Action(Report, ReportAt(q, k))];
    } else {
      PathSnoc(b, events, before, q, Held(q, k), Action(LoadLag, []), Ready(q, k), FORWARDING);
    }
  }

  lemma HeldLoads(b: Backend, events: seq<Event>, q: Sub, k: nat)
    requires k < |q.queue| && q.queue[k].seqno > q.fence
    ensures Local(b, events, LoadLag, Held(q, k), if q.lag > LagAt(q, k) then Loaded(q, k) else Ready(q, k), [])
  {
    assert FramesAt(q, k) + [] == FramesAt(q, k);
  }

  lemma LoadedReports(b: Backend, events: seq<Event>, q: Sub, k: nat)
    requires k < |q.queue| && q.lag > LagAt(q, k)
    ensures Local(b, events, Report, Loaded(q, k), Ready(q, k), ReportAt(q, k))
  {
    assert q.lives + FramesAt(q, k) + ReportAt(q, k) == q.lives + (FramesAt(q, k) + ReportAt(q, k));
  }

  // ---- Session.Send is the machine's Put ----

  /** A frame of the session as the machine has it, given each topic's subscription; errors are replies. */
  function Framed(ids: map<string, nat>, f: Sessions.Out): E.Frame {
    if f.Note? && f.topic in ids then E.Frame(ids[f.topic], f.msg) else E.Reply
  }

  function AllFramed(ids: map<string, nat>, fs: seq<Sessions.Out>): (r: seq<E.Frame>)
    ensures |r| == |fs|
    ensures forall i :: 0 <= i < |fs| ==> r[i] == Framed(ids, fs[i])
  {
    seq(|fs|, i requires 0 <= i < |fs| => Framed(ids, fs[i]))
  }

  /** One frame: it enters, or is lost, on the one side exactly when it is on the other. */
  lemma SendIsPut(ids: map<string, nat>, o: E.Outbox, out: seq<Sessions.Out>, f: Sessions.Out)
    requires o.out == AllFramed(ids, out)
    ensures var o' := E.Put(o, Framed(ids, f));
      && o'.out == AllFramed(ids, if |out| < 512 then out + [f] else out)
      && o'.out == AllFramed(ids, Sessions.Push(out, f))
      && (o'.lost == o.lost <==> |out| < 512)
  {
  }

  function PutAll(o: E.Outbox, fs: seq<E.Frame>): E.Outbox {
    if fs == [] then o else E.Put(PutAll(o, fs[..|fs| - 1]), fs[|fs| - 1])
  }

  /** Any run of sends. */
  lemma {:induction false} SendsArePuts(ids: map<string, nat>, o: E.Outbox,
                                        out: seq<Sessions.Out>, fs: seq<Sessions.Out>)
    requires o.out == AllFramed(ids, out)
    ensures PutAll(o, AllFramed(ids, fs)).out == AllFramed(ids, Sessions.PushAll(out, fs))
  {
    if fs == [] {
      Sessions.PushOne(out, [], Sessions.Refused(""));
    } else {
      var n := |fs| - 1;
      SendsArePuts(ids, o, out, fs[..n]);
      assert fs == fs[..n] + [fs[n]];
      Sessions.PushOne(out, fs[..n], fs[n]);
      assert AllFramed(ids, fs)[..n] == AllFramed(ids, fs[..n]);
      SendIsPut(ids, PutAll(o, AllFramed(ids, fs[..n])), Sessions.PushAll(out, fs[..n]), fs[n]);
    }
  }

  // ---- Ingest is Append, Load, Reduce and Save ----

  /**
   A publisher that holds the mutex with nothing else in flight takes exactly these four steps, and
   they leave the log, the state and the copy to fan out as Broker.Ingest does.
   */
  lemma IngestIsSteps(c: E.Config, td: E.TopicData, e: Event, pid: nat, id: string, now: Time,
                      td1: E.TopicData, p1: E.Publisher, td2: E.TopicData, p2: E.Publisher,
                      td3: E.TopicData, p3: E.Publisher, td4: E.TopicData, p4: E.Publisher)
    requires td.counter == |td.events| && td.state == Fold(c.reducers, td.events)
    requires E.Ingest(c, E.Append(pid, id, now), pid, td, E.Locked(e), td1, p1)
    requires E.Ingest(c, E.Load(pid), pid, td1, p1, td2, p2)
    requires E.Ingest(c, E.Reduce(pid), pid, td2, p2, td3, p3)
    requires E.Ingest(c, E.Save(pid), pid, td3, p3, td4, p4)
    ensures var stored := Filled(e, |td.events| + 1, id, now);
      && td4.events == td.events + [stored]
      && td4.state == Fold(c.reducers, td4.events)
      && p4.Ingesting? && p4.stage.Saved?
      && p4.e.(state := p4.stage.next) == stored.(state := Fold(c.reducers, td4.events))
  {
    var stored := Filled(e, |td.events| + 1, id, now);
    FoldSnoc(c.reducers, td.events, stored);
  }

  /** The four steps can be taken, one after another, from any such state. */
  lemma IngestCanRun(c: E.Config, td: E.TopicData, e: Event, pid: nat, id: string, now: Time)
    ensures exists td1, p1, td2, p2, td3, p3, td4, p4 ::
      && E.Ingest(c, E.Append(pid, id, now), pid, td, E.Locked(e), td1, p1)
      && E.Ingest(c, E.Load(pid), pid, td1, p1, td2, p2)
      && E.Ingest(c, E.Reduce(pid), pid, td2, p2, td3, p3)
      && E.Ingest(c, E.Save(pid), pid, td3, p3, td4, p4)
  {
    var stored := Filled(e, td.counter + 1, id, now);
    var td1 := td.(counter := td.counter + 1, events := td.events + [stored], owners := td.owners + [pid]);
    var p1 := E.Ingesting(stored, |td.events|, E.Appended);
    assert E.Ingest(c, E.Append(pid, id, now), pid, td, E.Locked(e), td1, p1);
    var p2 := p1.(stage := E.Loaded(td.state));
    assert E.Ingest(c, E.Load(pid), pid, td1, p1, td1, p2);
    var r := Apply(c.reducers, td.state, stored);
    var p3 := p2.(stage := E.Reduced(r.next, r.ok));
    assert E.Ingest(c, E.Reduce(pid), pid, td1, p2, td1, p3);
    var td4 := if r.ok && r.next.Some? then td1.(state := r.next) else td1;
    assert E.Ingest(c, E.Save(pid), pid, td1, p3, td4, p3.(stage := E.Saved(r.next)));
  }
}
