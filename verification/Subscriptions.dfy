/**
 One hub subscription as a small state machine: the hub offers events into a bounded queue, the
 session replays a backfill, acknowledges it, then forwards the queue behind the fence.

 Every step below is one atomic action of the goroutines involved. Fields under "history" are never
 read by a step; they record what has happened so that properties can be stated.
 */
module Subscriptions {
  import opened Types
  import opened Log

  const BUFFER := 256   // a hub channel's
  const OUTBUF := 512   // a session's queue of outgoing frames

  /** The frames a subscription issues. Replayed and Live are both "event" frames on the wire. */
  datatype Msg = Replayed(e: Event) | Ack(fence: nat) | Lagging(missed: nat) | Live(e: Event)

  datatype Pc =
    | Registered                       // in the hub, history not yet read
    | Replaying(sent: nat)             // history read, this many backfill frames issued
    | Idle                             // forwarder at its select
    | Holding(e: Event)                // forwarder took e from the queue
    | Reporting(e: Event, lag: nat)    // read a lag above lastLag, report not yet issued
    | Emitting(e: Event, lag: nat)     // lag as read is fully reported, e not yet issued
    | Stopped                          // forwarder returned
    | Failed                           // the history read failed; nothing was issued

  datatype Sub = Sub(
    topic: string, session: nat, from: From,
    pc: Pc,
    closed: bool, registered: bool, done: bool,
    queue: seq<Event>, lag: nat, lastLag: nat,
    backfill: seq<Event>, fence: nat,
    // history
    base: nat,              // events of the topic already fanned out at registration
    length: nat,            // events of the topic already stored at registration
    readLen: nat,           // length of the log when the backfill was read
    offered: seq<Event>,    // events the hub queued here or counted as lag
    taken: seq<Event>,      // events the forwarder has finished with
    replayed: seq<Msg>, lives: seq<Msg>)

  function NewSub(topic: string, session: nat, from: From, base: nat, length: nat): Sub {
    Sub(topic, session, from, Registered, false, true, false, [], 0, 0, [], 0, base, length, 0, [], [], [], [])
  }

  function Hand(pc: Pc): seq<Event> {
    if pc.Holding? || pc.Reporting? || pc.Emitting? then [pc.e] else []
  }

  /** Everything the queue ever accepted, oldest first. */
  function Accepted(q: Sub): seq<Event> { q.taken + Hand(q.pc) + q.queue }

  function Frames(q: Sub): seq<Msg> { q.replayed + q.lives }

  // ---- steps ----

  datatype Outcome = Accept | Drop | Abandon

  /** The hub's non-blocking select: send, or done, or count a lag when neither is ready. */
  ghost predicate Offer(outcome: Outcome, e: Event, q: Sub, q': Sub) {
    match outcome
    case Accept => |q.queue| < BUFFER && q' == q.(queue := q.queue + [e], offered := q.offered + [e])
    case Drop => |q.queue| >= BUFFER && !q.done && q' == q.(lag := q.lag + 1, offered := q.offered + [e])
    case Abandon => q.done && q' == q
  }

  datatype Act =
    | Read | ReadFailed | Replay | Acknowledge
    | Receive | Skip | LoadLag | Report | Emit | Stop
    | SetClosed | Remove | CloseDone

  /** A step of the session or its forwarder; out is the frame it issues, if any. */
  ghost predicate Local(b: Backend, events: seq<Event>, act: Act, q: Sub, q': Sub, out: seq<Msg>) {
    match act
    case Read =>
      var backfill := Backfill(b, events, q.from);
      && q.pc.Registered? && out == []
      && q' == q.(pc := Replaying(0), backfill := backfill, fence := Fence(backfill), readLen := |events|)
    case ReadFailed => q.pc.Registered? && out == [] && q' == q.(pc := Failed)
    case Replay =>
      && q.pc.Replaying? && q.pc.sent < |q.backfill|
      && out == [Replayed(q.backfill[q.pc.sent])]
      && q' == q.(pc := Replaying(q.pc.sent + 1), replayed := q.replayed + out)
    case Acknowledge =>
      && q.pc.Replaying? && q.pc.sent == |q.backfill|
      && out == [Ack(q.fence)]
      && q' == q.(pc := Idle, replayed := q.replayed + out)
    case Receive =>
      && q.pc.Idle? && q.queue != [] && out == []
      && q' == q.(pc := Holding(q.queue[0]), queue := q.queue[1..])
    case Skip =>
      && q.pc.Holding? && q.pc.e.seqno <= q.fence && out == []
      && q' == q.(pc := Idle, taken := q.taken + [q.pc.e])
    case LoadLag =>
      && q.pc.Holding? && q.pc.e.seqno > q.fence && out == []
      && q' == q.(pc := if q.lag > q.lastLag then Reporting(q.pc.e, q.lag) else Emitting(q.pc.e, q.lag))
    case Report =>
      && q.pc.Reporting? && q.pc.lag >= q.lastLag
      && out == [Lagging(q.pc.lag - q.lastLag)]
      && q' == q.(pc := Emitting(q.pc.e, q.pc.lag), lastLag := q.pc.lag, lives := q.lives + out)
    case Emit =>
      && q.pc.Emitting? && out == [Live(q.pc.e)]
      && q' == q.(pc := Idle, taken := q.taken + [q.pc.e], lives := q.lives + out)
    case Stop => q.pc.Idle? && out == [] && q' == q.(pc := Stopped)
    case SetClosed => !q.closed && out == [] && q' == q.(closed := true)
    case Remove => q.closed && q.registered && out == [] && q' == q.(registered := false)
    case CloseDone => !q.registered && !q.done && out == [] && q' == q.(done := true)
  }

  // ---- what a frame sequence carries ----

  function EventIn(m: Msg): seq<Event> {
    if m.Replayed? || m.Live? then [m.e] else []
  }

  function MissedIn(m: Msg): nat {
    if m.Lagging? then m.missed else 0
  }

  function EventsOf(ms: seq<Msg>): seq<Event> {
    if ms == [] then []
    else EventsOf(ms[..|ms| - 1]) + EventIn(ms[|ms| - 1])
  }

  /** The sum of the missed counts reported. */
  function Missed(ms: seq<Msg>): nat {
    if ms == [] then 0
    else Missed(ms[..|ms| - 1]) + MissedIn(ms[|ms| - 1])
  }

  function ReplayFrames(backfill: seq<Event>): (ms: seq<Msg>)
    ensures |ms| == |backfill|
  {
    seq(|backfill|, i requires 0 <= i < |backfill| => Replayed(backfill[i]))
  }

  /** The events the fence lets through. */
  function Beyond(events: seq<Event>, fence: nat): seq<Event> {
    if events == [] then []
    else
      var e := events[|events| - 1];
      Beyond(events[..|events| - 1], fence) + (if e.seqno > fence then [e] else [])
  }

  lemma EventsOfSnoc(ms: seq<Msg>, m: Msg)
    ensures EventsOf(ms + [m]) == EventsOf(ms) + EventIn(m)
    ensures Missed(ms + [m]) == Missed(ms) + MissedIn(m)
  {
    assert (ms + [m])[..|ms|] == ms;
  }

  lemma BeyondSnoc(events: seq<Event>, e: Event, fence: nat)
    ensures Beyond(events + [e], fence) == Beyond(events, fence) + (if e.seqno > fence then [e] else [])
  {
    assert (events + [e])[..|events|] == events;
  }

  lemma {:induction false} BeyondAppend(a: seq<Event>, b: seq<Event>, fence: nat)
    ensures Beyond(a + b, fence) == Beyond(a, fence) + Beyond(b, fence)
  {
    if b == [] {
      assert a + b == a;
    } else {
      assert (a + b)[..|a + b| - 1] == a + b[..|b| - 1];
      BeyondAppend(a, b[..|b| - 1], fence);
    }
  }

  lemma {:induction false} EventsOfAppend(a: seq<Msg>, b: seq<Msg>)
    ensures EventsOf(a + b) == EventsOf(a) + EventsOf(b)
  {
    if b == [] {
      assert a + b == a;
    } else {
      assert (a + b)[..|a + b| - 1] == a + b[..|b| - 1];
      EventsOfAppend(a, b[..|b| - 1]);
    }
  }

  lemma {:induction false} EventsOfReplay(backfill: seq<Event>)
    ensures EventsOf(ReplayFrames(backfill)) == backfill
  {
    if backfill != [] {
      var n := |backfill| - 1;
      EventsOfReplay(backfill[..n]);
      assert ReplayFrames(backfill) == ReplayFrames(backfill[..n]) + [Replayed(backfill[n])];
      EventsOfSnoc(ReplayFrames(backfill[..n]), Replayed(backfill[n]));
    }
  }

  // ---- invariants ----

  /**
   The hub side. fans lists the topic's fan-out copies, one for each event whose subscriber snapshot
   has been taken; pending says that the newest of them has yet to be offered here, checked that
   moreover the closed flag was found unset for it.
   */
  ghost predicate FlowInv(fans: seq<Event>, pending: bool, checked: bool, q: Sub) {
    && q.base + |q.offered| <= |fans|
    && (checked ==> q.base + |q.offered| + 1 == |fans|)
    && (!q.closed && !checked ==> q.base + |q.offered| + (if pending then 1 else 0) == |fans|)
    && q.offered == fans[q.base..q.base + |q.offered|]
    && (q.done ==> !q.registered) && (!q.registered ==> q.closed)
  }

  /** The queue side: exact accounting, order, and the identity when nothing was lost. */
  ghost predicate QueueInv(q: Sub) {
    var accepted := Accepted(q);
    && |q.queue| <= BUFFER
    && |q.offered| == |accepted| + q.lag
    && (q.lag == 0 ==> accepted == q.offered)
    && (forall i :: 0 <= i < |accepted| ==> accepted[i] in q.offered)
    && Increasing(accepted)
    && Increasing(q.offered)
  }

  /** The history has been read. */
  predicate HasRead(pc: Pc) { !pc.Registered? && !pc.Failed? }

  /** The forwarder has been started. */
  predicate Started(pc: Pc) { HasRead(pc) && !pc.Replaying? }

  /** The backfill frames issued so far, and the acknowledgement that ends them. */
  ghost predicate ReplayInv(b: Backend, events: seq<Event>, q: Sub) {
    && q.readLen <= |events| && q.base <= q.length <= |events| && q.length <= q.base + 1
    && q.fence == Fence(q.backfill)
    && (HasRead(q.pc) ==> q.backfill == Backfill(b, events[..q.readLen], q.from) && q.length <= q.readLen)
    && (!HasRead(q.pc) ==> q.replayed == [] && q.backfill == [])
    && (q.pc.Replaying? ==> q.pc.sent <= |q.backfill| && q.replayed == ReplayFrames(q.backfill[..q.pc.sent]))
    && (Started(q.pc) ==> q.replayed == ReplayFrames(q.backfill) + [Ack(q.fence)])
  }

  /** The forwarder's frames: the taken events beyond the fence, and reports that add up. */
  ghost predicate LiveInv(q: Sub) {
    && (!Started(q.pc) ==> q.lives == [] && q.taken == [])
    && (forall i :: 0 <= i < |q.lives| ==> q.lives[i].Live? || q.lives[i].Lagging?)
    && EventsOf(q.lives) == Beyond(q.taken, q.fence)
    && Missed(q.lives) == q.lastLag <= q.lag
    && (q.pc.Reporting? ==> q.lastLag < q.pc.lag <= q.lag && q.pc.e.seqno > q.fence)
    && (q.pc.Emitting? ==> q.lastLag == q.pc.lag && q.pc.e.seqno > q.fence)
  }

  // ---- preservation ----

  /** Growing the log and nothing else leaves a subscription's invariants alone. */
  lemma LogGrows(b: Backend, events: seq<Event>, e: Event, q: Sub)
    requires ReplayInv(b, events, q)
    ensures ReplayInv(b, events + [e], q)
  {
    assert (events + [e])[..q.readLen] == events[..q.readLen];
  }

  /** Taking a snapshot makes the new copy pending for every registered subscription. */
  lemma FansGrow(fans: seq<Event>, e: Event, q: Sub)
    requires FlowInv(fans, false, false, q)
    ensures FlowInv(fans + [e], q.registered, false, q)
  {
    assert (fans + [e])[q.base..q.base + |q.offered|] == q.offered;
  }

  /** Looking at the closed flag settles whether the pending copy will be offered. */
  lemma CheckKeepsFlow(fans: seq<Event>, q: Sub)
    requires FlowInv(fans, true, false, q)
    ensures q.base + |q.offered| < |fans| ==> FlowInv(fans, false, !q.closed, q)
    ensures q.closed ==> FlowInv(fans, false, false, q)
    ensures !q.closed ==> q.base + |q.offered| < |fans|
  {
  }

  lemma OfferKeepsFlow(fans: seq<Event>, outcome: Outcome, q: Sub, q': Sub)
    requires FlowInv(fans, false, true, q)
    requires Offer(outcome, fans[|fans| - 1], q, q')
    ensures FlowInv(fans, false, false, q')
  {
  }

  lemma IncreasingSnoc(events: seq<Event>, e: Event)
    requires Increasing(events) && forall i :: 0 <= i < |events| ==> events[i].seqno < e.seqno
    ensures Increasing(events + [e])
  {
  }

  /** A copy not yet offered is newer than all that were. */
  lemma OfferIsNewer(fans: seq<Event>, q: Sub)
    requires FlowInv(fans, false, true, q) && Increasing(fans)
    ensures forall i :: 0 <= i < |q.offered| ==> q.offered[i].seqno < fans[|fans| - 1].seqno
  {
    forall i | 0 <= i < |q.offered| ensures q.offered[i].seqno < fans[|fans| - 1].seqno {
      assert q.offered[i] == fans[q.base + i];
    }
  }

  lemma AcceptKeepsQueue(e: Event, q: Sub, q': Sub)
    requires QueueInv(q) && Offer(Accept, e, q, q')
    requires forall i :: 0 <= i < |q.offered| ==> q.offered[i].seqno < e.seqno
    ensures QueueInv(q')
  {
    var accepted := Accepted(q);
    assert Accepted(q') == accepted + [e];
    forall i | 0 <= i < |accepted| ensures accepted[i].seqno < e.seqno && accepted[i] in q'.offered {
      assert accepted[i] in q.offered;
      var j :| 0 <= j < |q.offered| && q.offered[j] == accepted[i];
      assert q'.offered[j] == accepted[i];
    }
    IncreasingSnoc(accepted, e);
    IncreasingSnoc(q.offered, e);
  }

  lemma DropKeepsQueue(e: Event, q: Sub, q': Sub)
    requires QueueInv(q) && Offer(Drop, e, q, q')
    requires forall i :: 0 <= i < |q.offered| ==> q.offered[i].seqno < e.seqno
    ensures QueueInv(q')
  {
    assert Accepted(q') == Accepted(q);
    IncreasingSnoc(q.offered, e);
  }

  lemma OfferKeepsQueue(fans: seq<Event>, outcome: Outcome, q: Sub, q': Sub)
    requires FlowInv(fans, false, true, q) && QueueInv(q) && Increasing(fans)
    requires Offer(outcome, fans[|fans| - 1], q, q')
    ensures QueueInv(q')
  {
    OfferIsNewer(fans, q);
    match outcome {
      case Accept => AcceptKeepsQueue(fans[|fans| - 1], q, q');
      case Drop => DropKeepsQueue(fans[|fans| - 1], q, q');
      case Abandon =>
    }
  }

  lemma OfferKeepsFrames(b: Backend, events: seq<Event>, outcome: Outcome, e: Event, q: Sub, q': Sub)
    requires ReplayInv(b, events, q) && LiveInv(q) && Offer(outcome, e, q, q')
    ensures ReplayInv(b, events, q') && LiveInv(q') && Frames(q') == Frames(q)
  {
  }

  /** What no session step touches, and how closing progresses. */
  lemma LocalFrame(b: Backend, events: seq<Event>, act: Act, q: Sub, q': Sub, out: seq<Msg>)
    requires Local(b, events, act, q, q', out)
    ensures q'.topic == q.topic && q'.session == q.session && q'.from == q.from
    ensures q'.base == q.base && q'.length == q.length && q'.offered == q.offered && q'.lag == q.lag
    ensures q.closed ==> q'.closed
    ensures q'.registered == (q.registered && !act.Remove?) && q'.done == (q.done || act.CloseDone?)
    ensures act.Remove? ==> q.closed
    ensures act.CloseDone? ==> !q.registered
  {
  }

  lemma LocalKeepsFlow(b: Backend, events: seq<Event>, fans: seq<Event>, pending: bool, checked: bool,
                       act: Act, q: Sub, q': Sub, out: seq<Msg>)
    requires FlowInv(fans, pending, checked, q) && Local(b, events, act, q, q', out)
    ensures FlowInv(fans, pending, checked, q')
  {
    LocalFrame(b, events, act, q, q', out);
  }

  lemma LocalKeepsQueue(b: Backend, events: seq<Event>, act: Act, q: Sub, q': Sub, out: seq<Msg>)
    requires QueueInv(q) && Local(b, events, act, q, q', out)
    ensures QueueInv(q')
  {
    assert Accepted(q') == Accepted(q);
  }

  lemma ReplayFramesSnoc(backfill: seq<Event>, n: nat)
    requires n < |backfill|
    ensures ReplayFrames(backfill[..n + 1]) == ReplayFrames(backfill[..n]) + [Replayed(backfill[n])]
  {
  }

  lemma LocalKeepsReplay(b: Backend, events: seq<Event>, act: Act, q: Sub, q': Sub, out: seq<Msg>)
    requires ReplayInv(b, events, q) && Local(b, events, act, q, q', out)
    ensures ReplayInv(b, events, q')
  {
    match act {
      case Read => assert events[..|events|] == events;
      case Replay => ReplayFramesSnoc(q.backfill, q.pc.sent);
      case Acknowledge => assert q.backfill[..q.pc.sent] == q.backfill;
      case _ => assert q'.replayed == q.replayed && q'.backfill == q.backfill && HasRead(q'.pc) == HasRead(q.pc);
    }
  }

  lemma SkipKeepsLive(b: Backend, events: seq<Event>, q: Sub, q': Sub)
    requires LiveInv(q) && Local(b, events, Skip, q, q', [])
    ensures LiveInv(q')
  {
    BeyondSnoc(q.taken, q.pc.e, q.fence);
  }

  lemma ReportKeepsLive(b: Backend, events: seq<Event>, q: Sub, q': Sub, out: seq<Msg>)
    requires LiveInv(q) && Local(b, events, Report, q, q', out)
    ensures LiveInv(q')
  {
    EventsOfSnoc(q.lives, out[0]);
  }

  lemma LiveSnoc(lives: seq<Msg>, taken: seq<Event>, e: Event, fence: nat)
    requires EventsOf(lives) == Beyond(taken, fence) && e.seqno > fence
    ensures EventsOf(lives + [Live(e)]) == Beyond(taken + [e], fence)
    ensures Missed(lives + [Live(e)]) == Missed(lives)
  {
    EventsOfSnoc(lives, Live(e));
    BeyondSnoc(taken, e, fence);
  }

  lemma EmitKeepsLive(b: Backend, events: seq<Event>, q: Sub, q': Sub, out: seq<Msg>)
    requires LiveInv(q) && Local(b, events, Emit, q, q', out)
    ensures LiveInv(q')
  {
    LiveSnoc(q.lives, q.taken, q.pc.e, q.fence);
  }

  lemma LocalKeepsLive(b: Backend, events: seq<Event>, act: Act, q: Sub, q': Sub, out: seq<Msg>)
    requires LiveInv(q) && Local(b, events, act, q, q', out)
    ensures LiveInv(q')
  {
    match act {
      case Skip => SkipKeepsLive(b, events, q, q');
      case Report => ReportKeepsLive(b, events, q, q', out);
      case Emit => EmitKeepsLive(b, events, q, q', out);
      case _ => assert q'.lives == q.lives && q'.taken == q.taken && q'.lastLag == q.lastLag;
    }
  }

  lemma LocalIssues(b: Backend, events: seq<Event>, act: Act, q: Sub, q': Sub, out: seq<Msg>)
    requires LiveInv(q) && Local(b, events, act, q, q', out)
    ensures Frames(q') == Frames(q) + out
  {
    match act {
      case Replay => assert Frames(q') == Frames(q) + out;
      case Acknowledge => assert Frames(q') == Frames(q) + out;
      case Report => assert Frames(q') == Frames(q) + out;
      case Emit => assert Frames(q') == Frames(q) + out;
      case _ => assert q'.replayed == q.replayed && q'.lives == q.lives;
    }
  }

  /** A new subscription starts with all its invariants, whatever the topic's position. */
  lemma NewSubOk(b: Backend, events: seq<Event>, fans: seq<Event>, topic: string, session: nat, from: From)
    requires |fans| <= |events| <= |fans| + 1
    ensures var q := NewSub(topic, session, from, |fans|, |events|);
      && FlowInv(fans, false, false, q) && QueueInv(q)
      && ReplayInv(b, events, q) && LiveInv(q) && Frames(q) == []
  {
    var q := NewSub(topic, session, from, |fans|, |events|);
    assert q.offered == fans[q.base..q.base + |q.offered|];
    assert Accepted(q) == [] && EventsOf(q.lives) == [] && Missed(q.lives) == 0 && Beyond(q.taken, q.fence) == [];
  }
}
