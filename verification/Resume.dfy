/**
 The resume protocol as documented, on top of the server machine: one topic of a client that is cut off
 any number of times and each time subscribes from the sequence number after the last one it saw. A
 connection is the stream of frames the session's writer was handed, cut at any point. Which clients keep
 to the protocol, and when, is the subject of GoResume and BrowserResume.
 */
module Resume {
  import opened Types
  import opened Topics
  import opened Log
  import opened Sequences
  import opened Subscriptions
  import opened Engine
  import opened Serving
  import opened Delivery
  import opened Outboxes
  import opened CallbackTable
  import W = WireFrom

  datatype Client = Client(
    topic: string, from: From, lastSeen: nat,
    current: Option<nat>,        // the server-side subscription of the open connection
    pos: nat,                    // how many of its frames have been dispatched
    // history
    seen: seq<Event>,            // the events handed to callbacks, in order
    mark: nat,                   // |seen| when the connection subscribed
    used: set<nat>)              // every subscription this client ever had

  datatype World = World(s: System, k: Client)

  /** A client that has not subscribed yet. */
  function Newcomer(topic: string, from: From): Client { Client(topic, from, 0, None, 0, [], 0, {}) }

  /** The seed of a (re)subscription as the server reads it. */
  function ResumeFrom(k: Client): From {
    var point := ResumePoint(k.lastSeen);
    if point > 0 then FromSeq(point) else if k.from == FromSeq(0) then FromLatest else k.from
  }

  /** That is what the subscribe frame, printed by the client and parsed by the server, means. */
  lemma ResumeFromIsWire(k: Client)
    ensures ResumeFrom(k) == W.Meaning(W.SubscribeSeed(k.from, ResumePoint(k.lastSeen)))
  {
    var point := ResumePoint(k.lastSeen);
    if point > 0 { W.ResumeRoundTrip(k.from, point); } else { W.RoundTripIff(k.from); }
  }

  function Dispatch(k: Client, m: Msg): Client {
    if IsEvent(m) then
      k.(pos := k.pos + 1, seen := k.seen + [m.e],
         lastSeen := if m.e.seqno > k.lastSeen then m.e.seqno else k.lastSeen)
    else k.(pos := k.pos + 1)
  }

  /** What a new connection starts from. */
  function Attached(k: Client, id: nat): Client {
    k.(current := Some(id), pos := 0, mark := |k.seen|, used := k.used + {id})
  }

  /** The frames of the open connection, as far as the writer has got. */
  function Wire(s: System, id: nat): seq<Msg> {
    if id in s.subs && s.subs[id].session in s.sessions then Of(s.sessions[s.subs[id].session].written, id) else []
  }

  datatype Move = Serve(step: Step) | Attach(sid: nat) | Receive | Cut

  ghost predicate Moves(c: Config, w: World, move: Move, w': World) {
    match move
    case Serve(step) => Next(c, w.s, step, w'.s) && w'.k == w.k
    case Attach(sid) =>
      && w.k.current.None? && DoSubscribe(w.s, sid, w.k.topic, ResumeFrom(w.k), w'.s)
      && w'.k == Attached(w.k, w.s.next + 1)
    case Receive =>
      && w'.s == w.s && w.k.current.Some? && w.k.pos < |Wire(w.s, w.k.current.value)|
      && w'.k == Dispatch(w.k, Wire(w.s, w.k.current.value)[w.k.pos])
    case Cut => w'.s == w.s && w'.k == w.k.(current := None)
  }

  /** No frame of this client was lost to a full queue so far, and sequence numbers fit 64 bits. */
  predicate Clean(s: System, k: Client) {
    && k.lastSeen < TWO64 - 1
    && forall id :: id in k.used && id in s.subs && s.subs[id].session in s.sessions ==>
      s.subs[id].lag == 0 && s.sessions[s.subs[id].session].lost == 0
  }

  /** No publish was between its Append and its hub snapshot when any of the subscriptions registered. */
  predicate Calm(s: System, k: Client) {
    forall id :: id in k.used && id in s.subs ==> s.subs[id].base == s.subs[id].length
  }

  /** Nothing in the log lies strictly between a and b, and b does not go back. */
  ghost predicate Adjacent(events: seq<Event>, a: nat, b: nat) {
    a <= b && forall k :: 0 <= k < |events| ==> !(a < events[k].seqno < b)
  }

  ghost predicate Chain(events: seq<Event>, seen: seq<Event>) {
    forall j :: 0 < j < |seen| ==> Adjacent(events, seen[j - 1].seqno, seen[j].seqno)
  }

  ghost predicate Strict(seen: seq<Event>) {
    forall j :: 0 < j < |seen| ==> seen[j - 1].seqno < seen[j].seqno
  }

  /** The open connection: which subscription it is and how much of it has been dispatched. */
  ghost predicate Linked(s: System, k: Client, id: nat) {
    && id in s.subs && s.subs[id].topic == k.topic && id in k.used
    && k.mark <= |k.seen| && k.pos <= |Wire(s, id)|
    && EventsOf(Wire(s, id)[..k.pos]) == k.seen[k.mark..]
  }

  /** The open connection was seeded just after the last event seen before it. */
  ghost predicate Seeded(s: System, k: Client, id: nat)
    requires id in s.subs && 0 < k.mark <= |k.seen|
  {
    var last := k.seen[k.mark - 1].seqno;
    var q := s.subs[id];
    var events := Td(s, k.topic).events;
    && q.from.FromSeq? && q.from.s == last + 1
    && 0 < q.length <= |events| && last <= events[q.length - 1].seqno
  }

  ghost predicate Known(events: seq<Event>, n: nat) {
    exists j :: 0 <= j < |events| && events[j].seqno == n
  }

  ghost predicate SeenInv(s: System, k: Client) {
    && (forall i :: 0 <= i < |k.seen| ==> Known(Td(s, k.topic).events, k.seen[i].seqno))
    && (forall i :: 0 <= i < |k.seen| ==> 1 <= k.seen[i].seqno <= k.lastSeen)
    && (k.seen == [] ==> k.lastSeen == 0)
    && (forall id :: id in k.used ==> id in s.subs)
    && (k.current.Some? ==> Linked(s, k, k.current.value))
  }

  ghost predicate ChainInv(s: System, k: Client) {
    && Chain(Td(s, k.topic).events, k.seen)
    && (k.seen != [] ==> k.seen[|k.seen| - 1].seqno == k.lastSeen)
    && (Calm(s, k) ==> Strict(k.seen))
    && (k.current.Some? && k.mark > 0 && Linked(s, k, k.current.value) ==> Seeded(s, k, k.current.value))
  }

  ghost predicate ClientInv(s: System, k: Client) {
    SeenInv(s, k) && (Clean(s, k) ==> ChainInv(s, k))
  }

  // ---- the server only adds ----

  ghost predicate Extends(s: System, s': System) {
    && (forall id :: id in s.subs ==>
          id in s'.subs && var q, q' := s.subs[id], s'.subs[id];
          q'.topic == q.topic && q'.session == q.session && q'.from == q.from
          && q'.base == q.base && q'.length == q.length && q.lag <= q'.lag)
    && (forall sid :: sid in s.sessions ==>
          sid in s'.sessions && s.sessions[sid].written <= s'.sessions[sid].written
          && s.sessions[sid].lost <= s'.sessions[sid].lost)
    && (forall t: string :: Td(s, t).events <= Td(s', t).events)
  }

  lemma SessionExtends(c: Config, s: System, id: nat, act: Act, out: seq<Msg>, s': System)
    requires DoSession(c, s, id, act, out, s')
    ensures Extends(s, s')
  {
    LocalFrame(c.backend, Td(s, s.subs[id].topic).events, act, s.subs[id], s'.subs[id], out);
    ReplacesIssues(s, id, s'.subs[id], out, s');
    ReplacesFlags(s, id, s'.subs[id], out, s');
  }

  lemma DeliverExtends(s: System, pid: nat, outcome: Outcome, s': System)
    requires DoDeliver(s, pid, outcome, s')
    ensures Extends(s, s')
  {
  }

  lemma SubscribeExtends(c: Config, s: System, sid: nat, topic: string, from: From, s': System)
    requires SubsInv(c, s) && DoSubscribe(s, sid, topic, from, s')
    ensures Extends(s, s') && s.next + 1 !in s.subs
  {
    assert !(s.next + 1 in s.subs && SubInv(c, s, s.next + 1));
  }

  lemma IngestExtends(c: Config, s: System, step: Step, pid: nat, s': System)
    requires DoIngest(c, s, step, pid, s')
    ensures Extends(s, s')
  {
    var t := s.pubs[pid].e.topic;
    assert Td(s, t).events <= Td(s', t).events;
    forall u: string ensures Td(s, u).events <= Td(s', u).events {
      if u != t { assert Td(s', u) == Td(s, u); }
    }
  }

  lemma WriteExtends(s: System, sid: nat, s': System)
    requires DoWrite(s, sid, s') || DoAnswer(s, sid, s')
    ensures Extends(s, s')
  {
  }

  /** The remaining steps leave every log, subscription and written stream as it was. */
  lemma QuietExtends(s: System, s': System)
    requires s'.subs == s.subs && s.sessions.Keys <= s'.sessions.Keys
    requires forall sid :: sid in s.sessions ==> s'.sessions[sid] == s.sessions[sid]
    requires forall t: string :: Td(s', t).events == Td(s, t).events
    ensures Extends(s, s')
  {
  }

  lemma NextExtends(c: Config, s: System, step: Step, s': System)
    requires SubsInv(c, s) && Next(c, s, step, s')
    ensures Extends(s, s')
  {
    match step {
      case Session(id, act, out) => SessionExtends(c, s, id, act, out, s');
      case Subscribe(sid, topic, from) => SubscribeExtends(c, s, sid, topic, from, s');
      case Deliver(pid, outcome) => DeliverExtends(s, pid, outcome, s');
      case Append(pid, _, _) => IngestExtends(c, s, step, pid, s');
      case Load(pid) => IngestExtends(c, s, step, pid, s');
      case Reduce(pid) => IngestExtends(c, s, step, pid, s');
      case Save(pid) => IngestExtends(c, s, step, pid, s');
      case Answer(sid) => WriteExtends(s, sid, s');
      case Write(sid) => WriteExtends(s, sid, s');
      case _ => QuietExtends(s, s');
    }
  }

  lemma OfPrefix(a: seq<Frame>, b: seq<Frame>, id: nat)
    requires a <= b
    ensures Of(a, id) <= Of(b, id)
  {
    assert b == a + b[|a|..];
    OfAppend(a, b[|a|..], id);
  }

  lemma WireGrows(s: System, s': System, id: nat)
    requires Extends(s, s') && id in s.subs
    ensures Wire(s, id) <= Wire(s', id)
  {
    if s.subs[id].session in s.sessions {
      OfPrefix(s.sessions[s.subs[id].session].written, s'.sessions[s.subs[id].session].written, id);
    }
  }

  // ---- steps ----

  /** Appending to an ordered log puts nothing between events already in it. */
  lemma ChainGrows(events: seq<Event>, events': seq<Event>, seen: seq<Event>)
    requires events <= events' && Increasing(events') && Chain(events, seen)
    requires forall i :: 0 <= i < |seen| ==> Known(events, seen[i].seqno)
    ensures Chain(events', seen)
  {
    forall j | 0 < j < |seen| ensures Adjacent(events', seen[j - 1].seqno, seen[j].seqno) {
      assert Adjacent(events, seen[j - 1].seqno, seen[j].seqno);
      assert Known(events, seen[j].seqno);
      var m :| 0 <= m < |events| && events[m].seqno == seen[j].seqno;
      forall k | 0 <= k < |events'| ensures !(seen[j - 1].seqno < events'[k].seqno < seen[j].seqno) {
        if k < |events| { assert events'[k] == events[k]; } else { assert events'[m] == events[m]; }
      }
    }
  }

  lemma SeenGrows(s: System, s': System, k: Client)
    requires SeenInv(s, k) && Extends(s, s')
    ensures SeenInv(s', k)
  {
    forall i | 0 <= i < |k.seen| ensures Known(Td(s', k.topic).events, k.seen[i].seqno) {
      assert Known(Td(s, k.topic).events, k.seen[i].seqno);
      var j :| 0 <= j < |Td(s, k.topic).events| && Td(s, k.topic).events[j].seqno == k.seen[i].seqno;
      assert Td(s', k.topic).events[j] == Td(s, k.topic).events[j];
    }
    if k.current.Some? {
      WireGrows(s, s', k.current.value);
      assert Wire(s', k.current.value)[..k.pos] == Wire(s, k.current.value)[..k.pos];
    }
  }

  lemma SeededGrows(s: System, s': System, k: Client, id: nat)
    requires Extends(s, s') && id in s.subs && 0 < k.mark <= |k.seen| && Seeded(s, k, id)
    ensures id in s'.subs && Seeded(s', k, id)
  {
    assert Td(s, k.topic).events <= Td(s', k.topic).events;
  }

  lemma ChainInvGrows(s: System, s': System, k: Client)
    requires ChainInv(s, k) && Extends(s, s') && Increasing(Td(s', k.topic).events)
    requires forall i :: 0 <= i < |k.seen| ==> Known(Td(s, k.topic).events, k.seen[i].seqno)
    requires forall id :: id in k.used ==> id in s.subs
    requires k.current.Some? ==> Linked(s, k, k.current.value)
    ensures ChainInv(s', k)
  {
    ChainGrows(Td(s, k.topic).events, Td(s', k.topic).events, k.seen);
    assert Calm(s', k) ==> Calm(s, k);
    if k.current.Some? && k.mark > 0 {
      SeededGrows(s, s', k, k.current.value);
    }
  }

  lemma CleanBefore(s: System, s': System, k: Client)
    requires Extends(s, s') && Clean(s', k)
    requires forall id :: id in k.used && id in s.subs ==> s.subs[id].session in s.sessions
    ensures Clean(s, k)
  {
  }

  lemma ServeKeeps(c: Config, s: System, s': System, k: Client)
    requires ClientInv(s, k) && Extends(s, s') && Increasing(Td(s', k.topic).events)
    requires forall id :: id in k.used && id in s.subs ==> s.subs[id].session in s.sessions
    ensures ClientInv(s', k)
  {
    SeenGrows(s, s', k);
    if Clean(s', k) {
      CleanBefore(s, s', k);
      ChainInvGrows(s, s', k);
    }
  }

  lemma AttachKeepsSeen(s: System, k: Client, id: nat)
    requires SeenInv(s, k) && id in s.subs && s.subs[id].topic == k.topic
    ensures SeenInv(s, Attached(k, id))
  {
    assert Attached(k, id).seen[|k.seen|..] == [] && Wire(s, id)[..0] == [];
  }

  lemma KnownIsInside(events: seq<Event>, n: nat)
    requires Known(events, n) && Increasing(events)
    ensures |events| > 0 && n <= events[|events| - 1].seqno
  {
  }

  lemma AttachKeepsChain(s: System, k: Client, id: nat)
    requires SeenInv(s, k) && ChainInv(s, k) && Clean(s, k) && Increasing(Td(s, k.topic).events)
    requires id in s.subs && s.subs[id].from == ResumeFrom(k) && s.subs[id].length == |Td(s, k.topic).events|
    ensures ChainInv(s, Attached(k, id))
  {
    var k' := Attached(k, id);
    if k'.mark > 0 {
      KnownIsInside(Td(s, k.topic).events, k.seen[|k.seen| - 1].seqno);
      assert Seeded(s, k', id);
    }
    assert Calm(s, k') ==> Calm(s, k);
  }

  lemma AttachKeeps(c: Config, s: System, sid: nat, s': System, k: Client)
    requires ClientInv(s', k) && SubsInv(c, s) && Increasing(Td(s', k.topic).events)
    requires DoSubscribe(s, sid, k.topic, ResumeFrom(k), s')
    ensures ClientInv(s', Attached(k, s.next + 1))
  {
    var id := s.next + 1;
    AttachKeepsSeen(s', k, id);
    if Clean(s', Attached(k, id)) {
      assert forall i :: i in k.used ==> i in Attached(k, id).used;
      assert Clean(s', k);
      AttachKeepsChain(s', k, id);
    }
  }

  // ---- receiving ----

  lemma EventsOfNext(ms: seq<Msg>, n: nat)
    requires n < |ms|
    ensures EventsOf(ms[..n + 1]) == EventsOf(ms[..n]) + EventIn(ms[n])
  {
    assert ms[..n + 1] == ms[..n] + [ms[n]];
    EventsOfSnoc(ms[..n], ms[n]);
  }

  lemma EventsOfPrefix(a: seq<Msg>, b: seq<Msg>)
    requires a <= b
    ensures EventsOf(a) <= EventsOf(b)
  {
    assert b == a + b[|a|..];
    EventsOfAppend(a, b[|a|..]);
  }

  /** The frames of one subscription carry events of its topic's log. */
  lemma WireEventKnown(c: Config, s: System, id: nat, i: nat)
    requires Reachable(c, s) && id in s.subs && i < |Wire(s, id)| && IsEvent(Wire(s, id)[i])
    ensures Known(Td(s, s.subs[id].topic).events, Wire(s, id)[i].e.seqno)
    ensures Wire(s, id)[i].e.seqno >= 1
  {
    var q := s.subs[id];
    var m := Wire(s, id)[i];
    WireIsIssued(c, s, id, m);
    var j :| 0 <= j < |Frames(q)| && Frames(q)[j] == m;
    EventsOfMember(Frames(q), j);
    IssuedKnown(c, s, id, m.e);
  }

  lemma WireIsIssued(c: Config, s: System, id: nat, m: Msg)
    requires Reachable(c, s) && id in s.subs && m in Wire(s, id)
    ensures m in Frames(s.subs[id])
  {
    ReachableOut(c, s);
    assert IssuedOk(s, id);
    var o := s.sessions[s.subs[id].session];
    assert BoxOk(o);
    SubseqFront(o.written, o.out, o.issued);
    OfSubseq(o.written, o.issued, id);
    SubseqMember(Of(o.written, id), Of(o.issued, id), m);
  }

  /** Events offered are copies of events logged, so they share their sequence numbers. */
  lemma OfferedKnown(events: seq<Event>, fans: seq<Event>, q: Sub, e: Event)
    requires Copies(events, fans)
    requires q.base + |q.offered| <= |fans| && q.offered == fans[q.base..q.base + |q.offered|]
    requires e in q.offered
    ensures Known(events, e.seqno) && e.seqno >= 1
  {
    var j :| 0 <= j < |q.offered| && q.offered[j] == e;
    assert e == fans[q.base + j];
    assert fans[q.base + j].(state := None) == events[q.base + j];
  }

  lemma TakenOffered(q: Sub, e: Event)
    requires forall i :: 0 <= i < |Accepted(q)| ==> Accepted(q)[i] in q.offered
    requires e in q.taken
    ensures e in q.offered
  {
    var i :| 0 <= i < |q.taken| && q.taken[i] == e;
    assert Accepted(q)[i] == e;
  }

  lemma TakenIncreases(q: Sub)
    requires Increasing(Accepted(q))
    ensures Increasing(q.taken)
  {
    assert forall i :: 0 <= i < |q.taken| ==> q.taken[i] == Accepted(q)[i];
  }

  lemma LiveIsOffered(c: Config, s: System, id: nat, e: Event)
    requires Reachable(c, s) && id in s.subs && e in EventsOf(s.subs[id].lives)
    ensures e in s.subs[id].offered
  {
    Facts(c, s, id);
    var q := s.subs[id];
    TakenIncreases(q);
    BeyondIncreases(q.taken, q.fence);
    TakenOffered(q, e);
  }

  lemma LiveKnown(c: Config, s: System, id: nat, e: Event)
    requires Reachable(c, s) && id in s.subs && e in EventsOf(s.subs[id].lives)
    ensures Known(Td(s, s.subs[id].topic).events, e.seqno) && e.seqno >= 1
  {
    LiveIsOffered(c, s, id, e);
    FlowFacts(c, s, id);
    var q := s.subs[id];
    FansAreCopies(c.reducers, q.topic, Td(s, q.topic));
    OfferedKnown(Td(s, q.topic).events, Td(s, q.topic).fans, q, e);
  }

  lemma ReplayedKnown(c: Config, s: System, id: nat, e: Event)
    requires Reachable(c, s) && id in s.subs && e in EventsOf(s.subs[id].replayed)
    ensures Known(Td(s, s.subs[id].topic).events, e.seqno) && e.seqno >= 1
  {
    FlowFacts(c, s, id);
    var q := s.subs[id];
    var events := Td(s, q.topic).events;
    ReplayedEvents(c.backend, events, q);
    BackfillSlice(c.backend, events, q);
    assert e in q.backfill;
    var j :| 0 <= j < |events| && events[j] == e;
  }

  lemma IssuedKnown(c: Config, s: System, id: nat, e: Event)
    requires Reachable(c, s) && id in s.subs && e in EventsOf(Frames(s.subs[id]))
    ensures Known(Td(s, s.subs[id].topic).events, e.seqno) && e.seqno >= 1
  {
    var q := s.subs[id];
    EventsOfAppend(q.replayed, q.lives);
    if e in EventsOf(q.replayed) { ReplayedKnown(c, s, id, e); } else { LiveKnown(c, s, id, e); }
  }

  /** Where a subscription stands against its topic's log. */
  lemma Placed(c: Config, s: System, id: nat)
    requires Reachable(c, s) && id in s.subs
    ensures var q := s.subs[id]; var events := Td(s, q.topic).events;
      && Increasing(events) && q.base <= q.length <= |events| && q.length <= q.base + 1 && q.readLen <= |events|
      && (if HasRead(q.pc) then q.length <= q.readLen else Frames(q) == [])
  {
    Facts(c, s, id);
  }

  lemma IssuedMeansRead(c: Config, s: System, id: nat)
    requires Reachable(c, s) && id in s.subs && Frames(s.subs[id]) != []
    ensures HasRead(s.subs[id].pc)
  {
    Placed(c, s, id);
  }

  /** w is numbered as the log is from index lo on. */
  ghost predicate Follows(w: seq<Event>, events: seq<Event>, lo: nat) {
    lo + |w| <= |events| && forall i :: 0 <= i < |w| ==> w[i].seqno == events[lo + i].seqno
  }

  lemma PrefixSeqnos(w: seq<Event>, rest: seq<Event>, events: seq<Event>, lo: nat, hi: nat)
    requires lo <= hi <= |events| && Stripped(w + rest) == events[lo..hi]
    ensures lo + |w| <= hi && Follows(w, events, lo)
  {
    forall i | 0 <= i < |w| ensures w[i].seqno == events[lo + i].seqno {
      assert Stripped(w + rest)[i] == w[i].(state := None);
    }
  }

  lemma WireIsFront(c: Config, s: System, id: nat)
    requires Reachable(c, s) && id in s.subs && s.subs[id].session in s.sessions
    requires s.sessions[s.subs[id].session].lost == 0
    ensures Wire(s, id) <= Frames(s.subs[id]) && EventsOf(Wire(s, id)) <= EventsOf(Frames(s.subs[id]))
  {
    NothingLost(c, s, id);
    EventsOfPrefix(Wire(s, id), Frames(s.subs[id]));
  }

  /** Without losses, a connection delivers its stretch of the log from the start, event by event. */
  lemma WireIsStretch(c: Config, s: System, id: nat)
    requires Reachable(c, s) && id in s.subs && s.subs[id].session in s.sessions
    requires s.subs[id].lag == 0 && s.sessions[s.subs[id].session].lost == 0
    requires EventsOf(Wire(s, id)) != []
    ensures var q := s.subs[id]; var events := Td(s, q.topic).events; var w := EventsOf(Wire(s, id));
      && HasRead(q.pc) && q.readLen <= |events|
      && var lo := Start(c.backend, events, q);
      && lo + |w| <= End(q) <= |events|
      && Follows(w, events, lo)
  {
    var q := s.subs[id];
    WireIsFront(c, s, id);
    IssuedMeansRead(c, s, id);
    GapFree(c, s, id);
    var events := Td(s, q.topic).events;
    WirePlaced(EventsOf(Wire(s, id)), EventsOf(Frames(q)), InTransit(q), events, Start(c.backend, events, q), End(q));
  }

  lemma WirePlaced(w: seq<Event>, all: seq<Event>, rest: seq<Event>, events: seq<Event>, lo: nat, hi: nat)
    requires w <= all && lo <= hi <= |events| && Stripped(all + rest) == events[lo..hi]
    ensures lo + |w| <= hi && Follows(w, events, lo)
  {
    Resplit(w, all, rest);
    PrefixSeqnos(w, all[|w|..] + rest, events, lo, hi);
  }

  lemma Resplit(w: seq<Event>, all: seq<Event>, rest: seq<Event>)
    requires w <= all
    ensures all + rest == w + (all[|w|..] + rest)
  {
  }

  /**
   The front of a resumed stretch joins on to what was seen: nothing is skipped, and only the last
   event seen can come again. It does not when no publish was in flight at registration.
   */
  lemma ResumeJoins(c: Config, s: System, id: nat, last: nat)
    requires Reachable(c, s) && id in s.subs && HasRead(s.subs[id].pc)
    requires var q := s.subs[id]; var events := Td(s, q.topic).events;
      && q.from.FromSeq? && q.from.s == last + 1
      && 0 < q.length <= |events| && last <= events[q.length - 1].seqno
      && q.readLen <= |events| && Start(c.backend, events, q) < End(q) <= |events|
    ensures var q := s.subs[id]; var events := Td(s, q.topic).events;
      var first := events[Start(c.backend, events, q)].seqno;
      && Adjacent(events, last, first)
      && (q.base == q.length ==> last < first)
  {
    Placed(c, s, id);
    StartAndEnd(c, s, id);
    CoversFromSeq(c, s, id);
    var q := s.subs[id]; var events := Td(s, q.topic).events;
    SeedJoins(events, Start(c.backend, events, q), q.base, q.length, q.backfill == [], last);
  }

  /**
   Exactly when a resumed subscription repeats: nothing was backfilled, a publish was between Append
   and the hub's snapshot at registration, and its event was offered. It is the last event seen.
   */
  lemma RepeatIff(c: Config, s: System, id: nat, last: nat)
    requires Reachable(c, s) && id in s.subs && HasRead(s.subs[id].pc)
    requires var q := s.subs[id]; var events := Td(s, q.topic).events;
      && q.from.FromSeq? && q.from.s == last + 1
      && 0 < q.length <= |events| && last <= events[q.length - 1].seqno
    ensures var q := s.subs[id]; var events := Td(s, q.topic).events;
      && q.readLen <= |events| && Start(c.backend, events, q) <= End(q) <= |events|
      && var lo := Start(c.backend, events, q);
      && (lo < End(q) && events[lo].seqno <= last <==> q.backfill == [] && q.base < q.length && q.offered != [])
      && (lo < End(q) && events[lo].seqno <= last ==> events[lo].seqno == last)
  {
    Placed(c, s, id);
    StartAndEnd(c, s, id);
    CoversFromSeq(c, s, id);
    var q := s.subs[id]; var events := Td(s, q.topic).events;
    if q.backfill == [] && q.offered != [] {
      if q.base < q.length {
        assert q.base == q.length - 1 && events[q.base].seqno < last + 1;
      } else {
        assert events[q.length - 1].seqno < events[q.base].seqno;
      }
    }
  }

  lemma SeedJoins(events: seq<Event>, lo: nat, base: nat, length: nat, live: bool, last: nat)
    requires Increasing(events) && lo < |events| && 0 < length <= |events| && length <= base + 1
    requires last <= events[length - 1].seqno
    requires forall k :: 0 <= k < lo ==> events[k].seqno <= last
    requires if live then lo == base else events[lo].seqno > last
    ensures Adjacent(events, last, events[lo].seqno)
    ensures base == length ==> last < events[lo].seqno
  {
    if live { assert events[length - 1].seqno <= events[lo].seqno; }
    forall k | 0 <= k < |events| ensures !(last < events[k].seqno < events[lo].seqno) {
      if k > lo { assert events[lo].seqno < events[k].seqno; }
    }
  }

  lemma ChainSnoc(events: seq<Event>, seen: seq<Event>, e: Event)
    requires Chain(events, seen)
    requires seen != [] ==> Adjacent(events, seen[|seen| - 1].seqno, e.seqno)
    ensures Chain(events, seen + [e])
  {
    forall j | 0 < j < |seen + [e]| ensures Adjacent(events, (seen + [e])[j - 1].seqno, (seen + [e])[j].seqno) {
      if j < |seen| { assert Adjacent(events, seen[j - 1].seqno, seen[j].seqno); }
    }
  }

  /** Within a lossless connection each event follows on from the one before. */
  lemma NextInside(c: Config, s: System, id: nat, n: nat)
    requires Reachable(c, s) && id in s.subs && s.subs[id].session in s.sessions
    requires s.subs[id].lag == 0 && s.sessions[s.subs[id].session].lost == 0
    requires 0 < n < |EventsOf(Wire(s, id))|
    ensures var w := EventsOf(Wire(s, id));
      Adjacent(Td(s, s.subs[id].topic).events, w[n - 1].seqno, w[n].seqno) && w[n - 1].seqno < w[n].seqno
  {
    WireIsStretch(c, s, id);
    Placed(c, s, id);
    var events := Td(s, s.subs[id].topic).events;
    NextIsAdjacent(events, Start(c.backend, events, s.subs[id]) + n - 1);
  }

  /** The first event of a lossless connection follows on from the last one seen before it. */
  lemma FirstJoins(c: Config, s: System, id: nat, last: nat)
    requires Reachable(c, s) && id in s.subs && s.subs[id].session in s.sessions
    requires s.subs[id].lag == 0 && s.sessions[s.subs[id].session].lost == 0
    requires EventsOf(Wire(s, id)) != []
    requires var q := s.subs[id]; var events := Td(s, q.topic).events;
      q.from.FromSeq? && q.from.s == last + 1 && 0 < q.length <= |events| && last <= events[q.length - 1].seqno
    ensures var q := s.subs[id]; var first := EventsOf(Wire(s, id))[0].seqno;
      Adjacent(Td(s, q.topic).events, last, first) && (q.base == q.length ==> last < first)
  {
    WireIsStretch(c, s, id);
    ResumeJoins(c, s, id, last);
  }

  /** The next event of a lossless connection follows on from the last one seen. */
  lemma NextJoins(c: Config, s: System, k: Client, id: nat)
    requires Reachable(c, s) && Linked(s, k, id) && k.seen != []
    requires k.mark > 0 ==> Seeded(s, k, id)
    requires s.subs[id].session in s.sessions && s.subs[id].lag == 0 && s.sessions[s.subs[id].session].lost == 0
    requires k.pos < |Wire(s, id)| && IsEvent(Wire(s, id)[k.pos])
    ensures var last, e := k.seen[|k.seen| - 1].seqno, Wire(s, id)[k.pos].e;
      && Adjacent(Td(s, k.topic).events, last, e.seqno)
      && (s.subs[id].base == s.subs[id].length ==> last < e.seqno)
  {
    if k.mark < |k.seen| { JoinsInside(c, s, k, id); } else { JoinsFirst(c, s, k, id); }
  }

  lemma JoinsInside(c: Config, s: System, k: Client, id: nat)
    requires Reachable(c, s) && Linked(s, k, id) && k.mark < |k.seen|
    requires s.subs[id].session in s.sessions && s.subs[id].lag == 0 && s.sessions[s.subs[id].session].lost == 0
    requires k.pos < |Wire(s, id)| && IsEvent(Wire(s, id)[k.pos])
    ensures var last, e := k.seen[|k.seen| - 1].seqno, Wire(s, id)[k.pos].e;
      Adjacent(Td(s, k.topic).events, last, e.seqno) && last < e.seqno
  {
    WireAt(k.seen, k.mark, Wire(s, id), k.pos);
    NextInside(c, s, id, |k.seen| - k.mark);
  }

  /** Where the last event seen and the next one stand among the frames of a connection. */
  lemma WireAt(seen: seq<Event>, mark: nat, wire: seq<Msg>, pos: nat)
    requires mark < |seen| && pos < |wire| && IsEvent(wire[pos]) && EventsOf(wire[..pos]) == seen[mark..]
    ensures var w, n := EventsOf(wire), |seen| - mark;
      n < |w| && w[n] == wire[pos].e && w[n - 1] == seen[|seen| - 1]
  {
    WireFront(wire, pos, seen[mark..]);
    LastOfTail(seen, mark);
  }

  lemma JoinsFirst(c: Config, s: System, k: Client, id: nat)
    requires Reachable(c, s) && Linked(s, k, id) && 0 < k.mark == |k.seen| && Seeded(s, k, id)
    requires s.subs[id].session in s.sessions && s.subs[id].lag == 0 && s.sessions[s.subs[id].session].lost == 0
    requires k.pos < |Wire(s, id)| && IsEvent(Wire(s, id)[k.pos])
    ensures var last, e := k.seen[|k.seen| - 1].seqno, Wire(s, id)[k.pos].e;
      && Adjacent(Td(s, k.topic).events, last, e.seqno)
      && (s.subs[id].base == s.subs[id].length ==> last < e.seqno)
  {
    assert k.seen[k.mark..] == [];
    WireFront(Wire(s, id), k.pos, []);
    FirstJoins(c, s, id, k.seen[k.mark - 1].seqno);
  }

  lemma LastOfTail<T>(s: seq<T>, n: nat)
    requires n < |s|
    ensures s[n..][|s[n..]| - 1] == s[|s| - 1]
  {
  }

  lemma WireFront(wire: seq<Msg>, pos: nat, before: seq<Event>)
    requires pos < |wire| && IsEvent(wire[pos]) && EventsOf(wire[..pos]) == before
    ensures var w := EventsOf(wire); |before| < |w| && w[|before|] == wire[pos].e
    ensures before != [] ==> EventsOf(wire)[|before| - 1] == before[|before| - 1]
  {
    EventsOfNext(wire, pos);
    EventsOfPrefix(wire[..pos + 1], wire);
    var w := EventsOf(wire);
    assert before + [wire[pos].e] <= w;
    assert forall i :: 0 <= i < |before| + 1 ==> w[i] == (before + [wire[pos].e])[i];
  }

  lemma NextIsAdjacent(events: seq<Event>, i: nat)
    requires Increasing(events) && i + 1 < |events|
    ensures Adjacent(events, events[i].seqno, events[i + 1].seqno) && events[i].seqno < events[i + 1].seqno
  {
  }

  lemma DispatchKeepsLinked(s: System, k: Client, id: nat)
    requires Linked(s, k, id) && k.pos < |Wire(s, id)|
    ensures Linked(s, Dispatch(k, Wire(s, id)[k.pos]), id)
  {
    var m := Wire(s, id)[k.pos];
    EventsOfNext(Wire(s, id), k.pos);
    if IsEvent(m) {
      assert (k.seen + [m.e])[k.mark..] == k.seen[k.mark..] + [m.e];
    }
  }

  lemma ReceiveKeepsSeen(c: Config, s: System, k: Client, id: nat)
    requires Reachable(c, s) && SeenInv(s, k) && k.current == Some(id) && k.pos < |Wire(s, id)|
    ensures SeenInv(s, Dispatch(k, Wire(s, id)[k.pos]))
  {
    DispatchKeepsLinked(s, k, id);
    if IsEvent(Wire(s, id)[k.pos]) { WireEventKnown(c, s, id, k.pos); }
  }

  lemma StrictSnoc(seen: seq<Event>, e: Event)
    requires Strict(seen) && (seen != [] ==> seen[|seen| - 1].seqno < e.seqno)
    ensures Strict(seen + [e])
  {
    forall j | 0 < j < |seen + [e]| ensures (seen + [e])[j - 1].seqno < (seen + [e])[j].seqno {
      if j < |seen| { assert seen[j - 1].seqno < seen[j].seqno; }
    }
  }

  /** One more event: the chain invariant, given that it joins on. */
  lemma DispatchKeepsChain(s: System, k: Client, id: nat, m: Msg)
    requires ChainInv(s, k) && k.current == Some(id) && IsEvent(m) && k.mark <= |k.seen|
    requires Linked(s, k, id) && id in k.used
    requires k.seen == [] ==> k.lastSeen == 0
    requires k.seen != [] ==> Adjacent(Td(s, k.topic).events, k.lastSeen, m.e.seqno)
    requires k.seen != [] && s.subs[id].base == s.subs[id].length ==> k.lastSeen < m.e.seqno
    ensures ChainInv(s, Dispatch(k, m))
  {
    var k' := Dispatch(k, m);
    assert k'.seen == k.seen + [m.e] && k'.lastSeen == m.e.seqno;
    ChainSnoc(Td(s, k.topic).events, k.seen, m.e);
    if Calm(s, k') {
      assert Calm(s, k);
      StrictSnoc(k.seen, m.e);
    }
    if k.mark > 0 {
      assert Seeded(s, k, id) && k'.seen[k'.mark - 1] == k.seen[k.mark - 1];
    }
  }

  lemma ReceiveKeepsChain(c: Config, s: System, k: Client, id: nat)
    requires Reachable(c, s) && Linked(s, k, id) && ChainInv(s, k) && k.current == Some(id) && k.pos < |Wire(s, id)|
    requires k.seen == [] ==> k.lastSeen == 0
    requires s.subs[id].session in s.sessions && s.subs[id].lag == 0 && s.sessions[s.subs[id].session].lost == 0
    ensures ChainInv(s, Dispatch(k, Wire(s, id)[k.pos]))
  {
    var m := Wire(s, id)[k.pos];
    if IsEvent(m) {
      if k.seen != [] { NextJoins(c, s, k, id); }
      DispatchKeepsChain(s, k, id, m);
    }
  }

  lemma ReceiveKeeps(c: Config, s: System, k: Client, id: nat)
    requires Reachable(c, s) && ClientInv(s, k) && k.current == Some(id) && k.pos < |Wire(s, id)|
    ensures ClientInv(s, Dispatch(k, Wire(s, id)[k.pos]))
  {
    var k' := Dispatch(k, Wire(s, id)[k.pos]);
    ReceiveKeepsSeen(c, s, k, id);
    if Clean(s, k') {
      ReachableInv(c, s);
      assert SubInv(c, s, id);
      assert Clean(s, k);
      ReceiveKeepsChain(c, s, k, id);
    }
  }

  // ---- runs ----

  /** Any interleaving of the server with one client's connecting, receiving and being cut off. */
  ghost predicate IsClientRun(c: Config, run: seq<World>, moves: seq<Move>) {
    && |run| == |moves| + 1
    && Init(run[0].s)
    && run[0].k == Newcomer(run[0].k.topic, run[0].k.from)
    && forall i {:trigger moves[i]} :: 0 <= i < |moves| ==> Moves(c, run[i], moves[i], run[i + 1])
  }

  lemma NextReachable(c: Config, s: System, step: Step, s': System)
    requires Reachable(c, s) && Next(c, s, step, s')
    ensures Reachable(c, s')
  {
    var run: seq<System>, steps: seq<Step> :| IsRun(c, run, steps) && run[|steps|] == s;
    var run', steps' := run + [s'], steps + [step];
    forall i | 0 <= i < |steps'| ensures Next(c, run'[i], steps'[i], run'[i + 1]) {
      if i < |steps| { assert Next(c, run[i], steps[i], run[i + 1]); }
    }
    assert IsRun(c, run', steps') && run'[|steps'|] == s';
  }

  /** What every state of a client's run satisfies. */
  ghost predicate Held(c: Config, w: World) {
    Reachable(c, w.s) && ClientInv(w.s, w.k)
  }

  lemma ServerServes(c: Config, s: System, step: Step, s': System, k: Client)
    requires Reachable(c, s) && ClientInv(s, k) && Next(c, s, step, s')
    ensures Reachable(c, s') && ClientInv(s', k)
  {
    NextReachable(c, s, step, s');
    ReachableInv(c, s);
    ReachableInv(c, s');
    NextExtends(c, s, step, s');
    assert TopicInv(c, s', k.topic);
    assert forall id :: id in k.used && id in s.subs ==> SubInv(c, s, id);
    ServeKeeps(c, s, s', k);
  }

  lemma AttachServes(c: Config, s: System, sid: nat, s': System, k: Client)
    requires Reachable(c, s) && ClientInv(s, k) && DoSubscribe(s, sid, k.topic, ResumeFrom(k), s')
    ensures Reachable(c, s') && ClientInv(s', Attached(k, s.next + 1))
  {
    ServerServes(c, s, Subscribe(sid, k.topic, ResumeFrom(k)), s', k);
    ReachableInv(c, s);
    assert TopicInv(c, s', k.topic) by { ReachableInv(c, s'); }
    AttachKeeps(c, s, sid, s', k);
  }

  lemma ServerMoves(c: Config, w: World, step: Step, s': System)
    requires Held(c, w) && Next(c, w.s, step, s')
    ensures Held(c, World(s', w.k))
  {
    ServerServes(c, w.s, step, s', w.k);
  }

  lemma AttachMoves(c: Config, w: World, sid: nat, s': System)
    requires Held(c, w) && DoSubscribe(w.s, sid, w.k.topic, ResumeFrom(w.k), s')
    ensures Held(c, World(s', Attached(w.k, w.s.next + 1)))
  {
    AttachServes(c, w.s, sid, s', w.k);
  }

  lemma ReceiveMoves(c: Config, w: World)
    requires Held(c, w) && w.k.current.Some? && w.k.pos < |Wire(w.s, w.k.current.value)|
    ensures Held(c, World(w.s, Dispatch(w.k, Wire(w.s, w.k.current.value)[w.k.pos])))
  {
    ReceiveKeeps(c, w.s, w.k, w.k.current.value);
  }

  lemma CutMoves(c: Config, w: World)
    requires Held(c, w)
    ensures Held(c, World(w.s, w.k.(current := None)))
  {
    var k' := w.k.(current := None);
    if Clean(w.s, k') {
      assert Clean(w.s, w.k);
      assert Calm(w.s, k') ==> Calm(w.s, w.k);
    }
  }

  ghost predicate HeldUpTo(c: Config, run: seq<World>, i: nat) {
    i < |run| && forall j {:trigger run[j]} :: 0 <= j <= i ==> Held(c, run[j])
  }

  lemma ServeKeepsHeld(c: Config, run: seq<World>, moves: seq<Move>, i: nat)
    requires IsClientRun(c, run, moves) && i < |moves| && HeldUpTo(c, run, i) && moves[i].Serve?
    ensures HeldUpTo(c, run, i + 1)
  {
    var w, w' := run[i], run[i + 1];
    assert w' == World(w'.s, w.k);
    ServerMoves(c, w, moves[i].step, w'.s);
  }

  lemma AttachKeepsHeld(c: Config, run: seq<World>, moves: seq<Move>, i: nat)
    requires IsClientRun(c, run, moves) && i < |moves| && HeldUpTo(c, run, i) && moves[i].Attach?
    ensures HeldUpTo(c, run, i + 1)
  {
    var w, w' := run[i], run[i + 1];
    assert w' == World(w'.s, Attached(w.k, w.s.next + 1));
    AttachMoves(c, w, moves[i].sid, w'.s);
  }

  lemma ReceiveKeepsHeld(c: Config, run: seq<World>, moves: seq<Move>, i: nat)
    requires IsClientRun(c, run, moves) && i < |moves| && HeldUpTo(c, run, i) && moves[i].Receive?
    ensures HeldUpTo(c, run, i + 1)
  {
    var w, w' := run[i], run[i + 1];
    assert w' == World(w.s, Dispatch(w.k, Wire(w.s, w.k.current.value)[w.k.pos]));
    ReceiveMoves(c, w);
  }

  lemma CutKeepsHeld(c: Config, run: seq<World>, moves: seq<Move>, i: nat)
    requires IsClientRun(c, run, moves) && i < |moves| && HeldUpTo(c, run, i) && moves[i].Cut?
    ensures HeldUpTo(c, run, i + 1)
  {
    var w, w' := run[i], run[i + 1];
    assert w' == World(w.s, w.k.(current := None));
    CutMoves(c, w);
  }

  lemma {:induction false} ClientRunInv(c: Config, run: seq<World>, moves: seq<Move>, i: nat)
    requires IsClientRun(c, run, moves) && i < |run|
    ensures HeldUpTo(c, run, i)
  {
    if i == 0 {
      assert IsRun(c, [run[0].s], []);
      assert Reachable(c, run[0].s) && Held(c, run[0]);
    } else {
      ClientRunInv(c, run, moves, i - 1);
      match moves[i - 1] {
        case Serve(_) => ServeKeepsHeld(c, run, moves, i - 1);
        case Attach(_) => AttachKeepsHeld(c, run, moves, i - 1);
        case Receive => ReceiveKeepsHeld(c, run, moves, i - 1);
        case Cut => CutKeepsHeld(c, run, moves, i - 1);
      }
    }
  }

  /** Some run of the server and the client ends in w. */
  ghost predicate ClientReachable(c: Config, w: World) {
    exists run: seq<World>, moves: seq<Move> :: IsClientRun(c, run, moves) && run[|moves|] == w
  }

  lemma ClientReachableInv(c: Config, w: World)
    requires ClientReachable(c, w)
    ensures Held(c, w)
  {
    var run: seq<World>, moves: seq<Move> :| IsClientRun(c, run, moves) && run[|moves|] == w;
    ClientRunInv(c, run, moves, |moves|);
  }

  /** A client that has not connected yet fits any state of the server. */
  lemma NewcomerReachable(c: Config, s: System, topic: string, from: From)
    requires Reachable(c, s)
    ensures ClientReachable(c, World(s, Newcomer(topic, from)))
  {
    var run: seq<System>, steps: seq<Step> :| IsRun(c, run, steps) && run[|steps|] == s;
    var k := Newcomer(topic, from);
    var worlds := seq(|run|, i requires 0 <= i < |run| => World(run[i], k));
    var moves := seq(|steps|, i requires 0 <= i < |steps| => Serve(steps[i]));
    forall i | 0 <= i < |moves| ensures Moves(c, worlds[i], moves[i], worlds[i + 1]) {
      assert Next(c, run[i], steps[i], run[i + 1]);
    }
    assert IsClientRun(c, worlds, moves) && worlds[|moves|] == World(s, k);
  }

  lemma MoveReachable(c: Config, w: World, move: Move, w': World)
    requires ClientReachable(c, w) && Moves(c, w, move, w')
    ensures ClientReachable(c, w')
  {
    var run: seq<World>, moves: seq<Move> :| IsClientRun(c, run, moves) && run[|moves|] == w;
    var run', moves' := run + [w'], moves + [move];
    forall i | 0 <= i < |moves'| ensures Moves(c, run'[i], moves'[i], run'[i + 1]) {
      if i < |moves| { assert moves'[i] == moves[i] && Moves(c, run[i], moves[i], run[i + 1]); }
    }
    assert IsClientRun(c, run', moves') && run'[|moves'|] == w';
  }

  /**
   Resume covers. Over every run with any number of disconnects and no lost frame, every event of
   the log from the first seen to the last seen was handed to the callbacks.
   */
  lemma ResumeCovers(c: Config, w: World, n: nat)
    requires ClientReachable(c, w) && Clean(w.s, w.k) && w.k.seen != []
    requires Known(Td(w.s, w.k.topic).events, n)
    requires w.k.seen[0].seqno <= n <= w.k.lastSeen
    ensures exists j :: 0 <= j < |w.k.seen| && w.k.seen[j].seqno == n
  {
    ClientReachableInv(c, w);
    ChainCovers(Td(w.s, w.k.topic).events, w.k.seen, n);
  }

  lemma {:induction false} ChainCovers(events: seq<Event>, seen: seq<Event>, n: nat)
    requires Chain(events, seen) && Known(events, n) && seen != []
    requires seen[0].seqno <= n <= seen[|seen| - 1].seqno
    ensures exists j :: 0 <= j < |seen| && seen[j].seqno == n
  {
    var k := |seen| - 1;
    if k > 0 && n <= seen[k - 1].seqno {
      ChainCovers(events, seen[..k], n);
      var j :| 0 <= j < k && seen[..k][j].seqno == n;
      assert seen[j].seqno == n;
    } else if k > 0 {
      assert Adjacent(events, seen[k - 1].seqno, seen[k].seqno);
      assert seen[k].seqno == n;
    } else {
      assert seen[0].seqno == n;
    }
  }

  /**
   Exactly once. If moreover no publish was between its Append and its hub snapshot when a
   subscription of this client registered, sequence numbers strictly rise: nothing comes twice.
   Otherwise they never fall, so all that can come again is the last event seen before a cut.
   */
  lemma ResumeExactlyOnce(c: Config, w: World)
    requires ClientReachable(c, w) && Clean(w.s, w.k)
    ensures var seen := w.k.seen;
      && (forall j :: 0 < j < |seen| ==> seen[j - 1].seqno <= seen[j].seqno)
      && (Calm(w.s, w.k) ==> forall j :: 0 < j < |seen| ==> seen[j - 1].seqno < seen[j].seqno)
  {
    ClientReachableInv(c, w);
    var seen := w.k.seen;
    forall j | 0 < j < |seen| ensures seen[j - 1].seqno <= seen[j].seqno {
      assert Adjacent(Td(w.s, w.k.topic).events, seen[j - 1].seqno, seen[j].seqno);
    }
  }
}
