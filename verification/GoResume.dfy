/**
 The Go client's resume. Every frame it sends goes through one channel that outlives connections: a
 reconnect appends its subscribes behind whatever the last connection's writer left there, and the
 session keeps the first subscribe of a topic and refuses the others. One topic of the client with its
 table, channel, writer and session, on top of the step machine: exactly when a connection opens at the
 resume point, and that the client then covers the log as those of Resume do.
 */
module GoResume {
  import opened Types
  import opened Topics
  import opened CallbackTable
  import W = WireFrom
  import G = GoClient
  import E = Engine
  import D = Delivery
  import O = Outboxes
  import R = Resume

  /** Dialled: a new connection is there and resubscribeAll still has todo to put on the channel. */
  datatype Phase = Down | Dialled(todo: seq<G.OutFrame>) | Up

  /**
   The client and the session behind its connection. pending is what the caller is about to put on the
   channel; writing says that a writer goroutine runs, which may outlive its connection; of the frames
   sent on the open connection the session has handled some, and held says that it has a subscription
   of the topic followed.
   */
  datatype Local = Local(
    topics: Table, nextID: nat, pending: Option<G.OutFrame>, chan: seq<G.OutFrame>,
    phase: Phase, writing: bool,
    sent: seq<G.OutFrame>, handled: nat, held: bool)

  /**
   k follows the topic since it was last entered in the table. clean says that nothing about it was
   under way then, and that ever since, whenever a writer started or a read failed, the first subscribe
   of it still to come asked for the resume point.
   */
  datatype World = World(g: Local, s: E.System, sid: nat, k: R.Client, clean: bool)

  predicate About(f: G.OutFrame, t: string) { !f.Request? && f.topic == t }

  predicate Asks(f: G.OutFrame, t: string) { f.Subscribe? && f.topic == t }

  /** The seed of the first subscribe of t among the frames. */
  function First(fs: seq<G.OutFrame>, t: string): Option<W.Seed> {
    if fs == [] then None else if Asks(fs[0], t) then Some(fs[0].seed) else First(fs[1..], t)
  }

  lemma {:induction false} FirstAppend(a: seq<G.OutFrame>, b: seq<G.OutFrame>, t: string)
    ensures First(a + b, t) == if First(a, t).Some? then First(a, t) else First(b, t)
  {
    if a == [] {
      assert a + b == b;
    } else {
      assert (a + b)[1..] == a[1..] + b;
      FirstAppend(a[1..], b, t);
    }
  }

  function Late(g: Local): seq<G.OutFrame> { if g.pending.Some? then [g.pending.value] else [] }

  function Todo(g: Local): seq<G.OutFrame> { if g.phase.Dialled? then g.phase.todo else [] }

  /** Every frame not yet handled, lost ones apart. */
  function Ahead(g: Local): seq<G.OutFrame>
    requires g.handled <= |g.sent|
  {
    g.sent[g.handled..] + g.chan + Todo(g) + Late(g)
  }

  /** Of these, what the session of the open connection may still be handed. */
  function Coming(g: Local): seq<G.OutFrame>
    requires g.handled <= |g.sent|
  {
    g.sent[g.handled..] + if g.writing then g.chan + Late(g) else []
  }

  /** The first subscribe of t to come, if any, asks for what the client needs next. */
  predicate Fresh(g: Local, k: R.Client, t: string)
    requires g.handled <= |g.sent|
  {
    var f := First(Coming(g), t); f.None? || W.Meaning(f.value) == R.ResumeFrom(k)
  }

  /** Nothing about t is under way and the session lacks it. */
  ghost predicate Quiet(g: Local, t: string) {
    g.handled <= |g.sent| && !g.held && forall f :: f in Ahead(g) ==> !About(f, t)
  }

  // ---- steps ----

  datatype Move =
    | Serve(served: E.Step)
    | Call(op: Op)              // Subscribe or Close by the one caller, or an event of another topic
    | Ask                         // a publish or get_state, which may time out
    | Push                        // the caller's frame enters the channel
    | Take(ok: bool)              // the writer takes the head of the channel; not ok: its write fails
    | PingFails                   // the writer's ping fails
    | Handle(fails: bool)         // the session; fails: should the store be read for it, the read fails
    | Receive
    | Cut                         // the reader ends
    | Dial(order: seq<string>)    // connected again; resubscribeAll walks the table in this order
    | Resend                      // one frame of resubscribeAll enters the channel
    | Start                       // the new connection's writer and reader start

  /** A call of Subscribe or Close as GoClient has it; its frame, if any, is pending. */
  function Called(g: Local, op: Op): Local {
    var r := G.Do(G.Session(g.topics, g.nextID, []), op);
    g.(topics := r.topics, nextID := r.nextID, pending := if r.sent == [] then g.pending else Some(r.sent[0]))
  }

  function Resubscriptions(topics: Table, order: seq<string>): (fs: seq<G.OutFrame>)
    requires forall i :: 0 <= i < |order| ==> order[i] in topics
    ensures |fs| == |order|
    ensures forall i :: 0 <= i < |fs| ==> fs[i] == G.Resubscribe(order[i], topics[order[i]])
  {
    seq(|order|, i requires 0 <= i < |order| => G.Resubscribe(order[i], topics[order[i]]))
  }

  /** order walks the whole table, each topic once. */
  ghost predicate Walks(order: seq<string>, topics: Table) {
    (forall x :: x in order <==> x in topics) && forall i, j :: 0 <= i < j < |order| ==> order[i] != order[j]
  }

  /** Steps of the client alone. */
  ghost predicate DoLocal(g: Local, move: Move, g': Local) {
    match move
    case Ask => g.pending.None? && g' == g.(pending := Some(G.Request))
    case Push =>
      && g.pending.Some? && |g.chan| < G.CHANNEL
      && g' == g.(chan := g.chan + [g.pending.value], pending := None)
    case Take(ok) =>
      && g.writing && g.chan != []
      && g' == g.(chan := g.chan[1..], writing := ok,
                  sent := if ok && g.phase.Up? then g.sent + [g.chan[0]] else g.sent)
    case PingFails => g.writing && g' == g.(writing := false)
    case Dial(order) =>
      && g.phase.Down? && !g.writing && Walks(order, g.topics)
      && g' == g.(phase := Dialled(Resubscriptions(g.topics, order)))
    case Resend =>
      && g.phase.Dialled? && g.phase.todo != [] && |g.chan| < G.CHANNEL
      && g' == g.(chan := g.chan + [g.phase.todo[0]], phase := Dialled(g.phase.todo[1..]))
    case _ => false
  }

  ghost predicate DoCall(t: string, w: World, op: Op, w': World) {
    && (if op.Event? then op.topic != t else w.g.pending.None?)
    && w' == if op.Open? && op.topic == t && t !in w.g.topics
             then World(Called(w.g, op), w.s, w.sid, R.Newcomer(t, op.from), Quiet(w.g, t))
             else w.(g := Called(w.g, op))
  }

  /** A connection cut off takes with it what was sent on it and not handled. */
  predicate DoCut(w: World, w': World) {
    && w.g.phase.Up?
    && w' == w.(g := w.g.(phase := Down, sent := [], handled := 0, held := false), k := w.k.(current := None))
  }

  ghost predicate DoStart(t: string, w: World, w': World) {
    && w.g.phase == Dialled([]) && w.g.handled <= |w.g.sent| && E.DoConnect(w.s, w'.sid, w'.s)
    && var g' := w.g.(phase := Up, writing := true);
    && w' == World(g', w'.s, w'.sid, w.k, w.clean && Fresh(g', w.k, t))
  }

  /** The session handles this frame by subscribing to t. */
  predicate Opens(g: Local, t: string, fails: bool) {
    && g.handled < |g.sent| && !g.held && Asks(g.sent[g.handled], t)
    && !Refuses(g.sent[g.handled], fails)
  }

  predicate Refuses(f: G.OutFrame, fails: bool) { f.Subscribe? && fails && !W.Meaning(f.seed).FromLatest? }

  ghost predicate DoHandle(t: string, w: World, fails: bool, w': World) {
    && w.g.phase.Up? && w.g.handled < |w.g.sent|
    && var f := w.g.sent[w.g.handled]; var g := w.g.(handled := w.g.handled + 1);
    && if Opens(w.g, t, fails)
       then && E.DoSubscribe(w.s, w.sid, t, W.Meaning(f.seed), w'.s)
            && w' == w.(g := g.(held := true), s := w'.s, k := R.Attached(w.k, w.s.next + 1))
       else if !w.g.held && Asks(f, t)
       then w' == w.(g := g, clean := w.clean && Fresh(g, w.k, t))
       else w' == w.(g := g.(held := w.g.held && f != G.Unsubscribe(t)))
  }

  /** A frame of t's subscription arrives; an event marks the table. */
  ghost predicate DoReceive(t: string, w: World, w': World) {
    && w.g.phase.Up? && t in w.g.topics && w.k.current.Some?
    && w.k.pos < |R.Wire(w.s, w.k.current.value)|
    && var m := R.Wire(w.s, w.k.current.value)[w.k.pos];
    && w' == w.(k := R.Dispatch(w.k, m),
                g := if O.IsEvent(m) then w.g.(topics := Marked(w.g.topics, t, m.e.seqno)) else w.g)
  }

  ghost predicate Moves(c: E.Config, t: string, w: World, move: Move, w': World) {
    match move
    case Serve(step) => E.Next(c, w.s, step, w'.s) && w' == w.(s := w'.s)
    case Call(op) => DoCall(t, w, op, w')
    case Handle(fails) => DoHandle(t, w, fails, w')
    case Receive => DoReceive(t, w, w')
    case Cut => DoCut(w, w')
    case Start => DoStart(t, w, w')
    case _ => DoLocal(w.g, move, w'.g) && w' == w.(g := w'.g)
  }

  ghost predicate Init(w: World) {
    && w.g == Local(map[], 0, None, [], Down, false, [], 0, false)
    && E.Init(w.s) && w.k.current.None?
  }

  // ---- the invariant ----

  predicate LocalOk(g: Local) {
    && g.handled <= |g.sent|
    && (!g.phase.Up? ==> g.sent == [] && g.handled == 0 && !g.held)
    && (g.phase.Dialled? ==> !g.writing)
    && |g.chan| <= G.CHANNEL
  }

  /** The table's entry of t is what k knows of it. */
  predicate EntryOk(g: Local, k: R.Client, t: string) {
    && t in g.topics
    && k.topic == t && k.from == g.topics[t].from && k.lastSeen == g.topics[t].lastSeen
  }

  /** What holds of a topic in the table while clean. */
  ghost predicate OnCourse(g: Local, k: R.Client, t: string) {
    && g.handled <= |g.sent| && EntryOk(g, k, t)
    && G.Unsubscribe(t) !in Ahead(g)
    && (g.phase.Up? && !g.held ==> Fresh(g, k, t))
    && (k.current.Some? <==> g.held)
  }

  ghost predicate Inv(c: E.Config, t: string, w: World) {
    && LocalOk(w.g) && D.Reachable(c, w.s)
    && (!w.g.phase.Up? ==> w.k.current.None?)
    && (t in w.g.topics ==> EntryOk(w.g, w.k, t))
    && (w.clean && t in w.g.topics ==> OnCourse(w.g, w.k, t) && R.ClientReachable(c, R.World(w.s, w.k)))
  }

  /** The resubscription of t asks for the event after the last one seen. */
  lemma EntryAsks(g: Local, k: R.Client, t: string)
    requires EntryOk(g, k, t)
    ensures Asks(G.Resubscribe(t, g.topics[t]), t)
    ensures W.Meaning(G.Resubscribe(t, g.topics[t]).seed) == R.ResumeFrom(k)
  {
    R.ResumeFromIsWire(k);
  }

  /** More frames to come matter only if nothing before them asks. */
  lemma FreshLonger(g: Local, g': Local, k: R.Client, t: string, fs: seq<G.OutFrame>)
    requires g.handled <= |g.sent| && g'.handled <= |g'.sent|
    requires Fresh(g, k, t) && Coming(g') == Coming(g) + fs && First(fs, t).None?
    ensures Fresh(g', k, t)
  {
    FirstAppend(Coming(g), fs, t);
  }

  lemma FreshShorter(g: Local, g': Local, k: R.Client, t: string)
    requires g.handled <= |g.sent| && g'.handled <= |g'.sent|
    requires Fresh(g, k, t) && Coming(g') <= Coming(g)
    ensures Fresh(g', k, t)
  {
    FirstAppend(Coming(g'), Coming(g)[|Coming(g')|..], t);
    assert Coming(g) == Coming(g') + Coming(g)[|Coming(g')|..];
  }

  // ---- the caller ----

  /** What a call leaves of t, which stays in the table. */
  lemma CallFacts(g: Local, op: Op, t: string)
    requires t in g.topics && t in Called(g, op).topics && (op.Event? ==> op.topic != t)
    ensures var g' := Called(g, op);
      && g'.topics[t].from == g.topics[t].from && g'.topics[t].lastSeen == g.topics[t].lastSeen
      && (g'.pending == g.pending || (g'.pending.Some? && !About(g'.pending.value, t)))
    ensures op.Event? ==> Called(g, op).pending == g.pending
  {
  }

  lemma QueueKeeps(g: Local, g': Local, k: R.Client, t: string)
    requires OnCourse(g, k, t)
    requires g'.sent == g.sent && g'.handled == g.handled && g'.chan == g.chan && g'.phase == g.phase
    requires g'.writing == g.writing && g'.held == g.held
    requires t in g'.topics && g'.topics[t].from == g.topics[t].from && g'.topics[t].lastSeen == g.topics[t].lastSeen
    requires g'.pending == g.pending
      || (g.pending.None? && g'.pending.Some? && !About(g'.pending.value, t))
    ensures OnCourse(g', k, t)
  {
    if g'.pending == g.pending {
      assert Ahead(g') == Ahead(g) && Coming(g') == Coming(g);
    } else {
      assert Ahead(g') == Ahead(g) + Late(g');
      if g.writing {
        assert Coming(g') == Coming(g) + Late(g');
        if g.phase.Up? && !g.held { FreshLonger(g, g', k, t, Late(g')); }
      } else {
        assert Coming(g') == Coming(g);
      }
    }
  }

  lemma EnterKeeps(g: Local, from: From, t: string)
    requires ValidTopic(t) && LocalOk(g) && Quiet(g, t) && t !in g.topics && g.pending.None?
    ensures OnCourse(Called(g, Open(t, from)), R.Newcomer(t, from), t)
  {
    var g', k := Called(g, Open(t, from)), R.Newcomer(t, from);
    assert Ahead(g') == Ahead(g) + Late(g');
    R.ResumeFromIsWire(k);
    NothingAsks(Coming(g), t);
    if g.writing {
      assert Coming(g') == Coming(g) + Late(g');
      FirstAppend(Coming(g), Late(g'), t);
    } else {
      assert Coming(g') == Coming(g);
    }
  }

  lemma {:induction false} NothingAsks(fs: seq<G.OutFrame>, t: string)
    requires forall f :: f in fs ==> !About(f, t)
    ensures First(fs, t).None?
  {
    if fs != [] {
      assert fs[0] in fs;
      NothingAsks(fs[1..], t);
    }
  }

  lemma CallKeeps(c: E.Config, t: string, w: World, op: Op, w': World)
    requires ValidTopic(t) && Inv(c, t, w) && DoCall(t, w, op, w')
    ensures Inv(c, t, w')
  {
    if t in w'.g.topics && t in w.g.topics { CallFacts(w.g, op, t); }
    if w'.clean && t in w'.g.topics {
      if t in w.g.topics {
        CallFacts(w.g, op, t);
        QueueKeeps(w.g, w'.g, w.k, t);
      } else {
        assert op.Open? && op.topic == t;
        EnterKeeps(w.g, op.from, t);
        R.NewcomerReachable(c, w.s, t, op.from);
      }
    }
  }

  // ---- the channel ----

  lemma LocalKeeps(g: Local, move: Move, g': Local, k: R.Client, t: string)
    requires LocalOk(g) && OnCourse(g, k, t) && DoLocal(g, move, g')
    ensures OnCourse(g', k, t)
  {
    match move {
      case Ask => QueueKeeps(g, g', k, t);
      case Push =>
        assert forall f :: f in Ahead(g') ==> f in Ahead(g);
        assert Coming(g') == Coming(g);
      case Take(_) => TakeKeeps(g, g', k, t, move);
      case PingFails =>
        assert Ahead(g') == Ahead(g) && Coming(g') <= Coming(g);
        if g.phase.Up? && !g.held { FreshShorter(g, g', k, t); }
      case Dial(order) =>
        assert forall f :: f in Ahead(g') ==> f in Ahead(g) || f in g'.phase.todo;
      case Resend =>
        assert forall f :: f in Ahead(g') ==> f in Ahead(g);
      case _ =>
    }
  }

  lemma TakeKeeps(g: Local, g': Local, k: R.Client, t: string, move: Move)
    requires LocalOk(g) && OnCourse(g, k, t) && DoLocal(g, move, g') && move.Take?
    ensures OnCourse(g', k, t)
  {
    TakeSplits(g, move, g');
    if g.phase.Up? && !g.held { FreshShorter(g, g', k, t); }
  }

  /** Taking adds no frame; what may still come shrinks only with the writer. */
  lemma TakeSplits(g: Local, move: Move, g': Local)
    requires LocalOk(g) && DoLocal(g, move, g') && move.Take?
    ensures forall f :: f in Ahead(g') ==> f in Ahead(g)
    ensures g.phase.Up? ==> Coming(g') <= Coming(g)
  {
    assert g.chan == [g.chan[0]] + g.chan[1..];
    if g.phase.Up? && move.ok {
      assert g'.sent[g'.handled..] == g.sent[g.handled..] + [g.chan[0]];
      assert Coming(g') == Coming(g);
    }
  }

  lemma ChannelKeeps(c: E.Config, t: string, w: World, move: Move, w': World)
    requires Inv(c, t, w) && DoLocal(w.g, move, w'.g) && w' == w.(g := w'.g)
    ensures Inv(c, t, w')
  {
    if w.clean && t in w.g.topics { LocalKeeps(w.g, move, w'.g, w.k, t); }
  }

  // ---- connections ----

  lemma CutKeeps(c: E.Config, t: string, w: World, w': World)
    requires Inv(c, t, w) && DoCut(w, w')
    ensures Inv(c, t, w')
  {
    if w.clean && t in w.g.topics {
      assert forall f :: f in Ahead(w'.g) ==> f in Ahead(w.g);
      R.MoveReachable(c, R.World(w.s, w.k), R.Cut, R.World(w.s, w'.k));
    }
  }

  lemma StartKeeps(c: E.Config, t: string, w: World, w': World)
    requires Inv(c, t, w) && DoStart(t, w, w')
    ensures Inv(c, t, w')
  {
    var step := E.Connect(w'.sid);
    R.NextReachable(c, w.s, step, w'.s);
    if w'.clean && t in w.g.topics {
      assert Ahead(w'.g) == Ahead(w.g);
      R.MoveReachable(c, R.World(w.s, w.k), R.Serve(step), R.World(w'.s, w.k));
    }
  }

  // ---- the session and the stream ----

  lemma HandledAhead(g: Local, g': Local, k: R.Client, t: string)
    requires g.handled < |g.sent| && g' == g.(handled := g.handled + 1, held := g'.held)
    requires G.Unsubscribe(t) !in Ahead(g)
    ensures var f := g.sent[g.handled];
      && f != G.Unsubscribe(t) && G.Unsubscribe(t) !in Ahead(g')
      && (Fresh(g, k, t) && !Asks(f, t) ==> Fresh(g', k, t))
      && (Fresh(g, k, t) && Asks(f, t) ==> W.Meaning(f.seed) == R.ResumeFrom(k))
  {
    var f := g.sent[g.handled];
    assert g.sent[g.handled..] == [f] + g.sent[g.handled + 1..];
    assert Ahead(g) == [f] + Ahead(g');
    assert Coming(g) == [f] + Coming(g');
    assert Coming(g)[1..] == Coming(g');
  }

  /** Whichever frame the session handles, t stays followed. */
  lemma HandleFollows(t: string, w: World, fails: bool, w': World)
    requires LocalOk(w.g) && OnCourse(w.g, w.k, t) && DoHandle(t, w, fails, w') && w'.clean
    ensures OnCourse(w'.g, w'.k, t)
    ensures Opens(w.g, t, fails) ==> W.Meaning(w.g.sent[w.g.handled].seed) == R.ResumeFrom(w.k)
  {
    var g' := w.g.(handled := w.g.handled + 1, held := w'.g.held);
    HandledAhead(w.g, g', w.k, t);
    assert w'.g == g';
  }

  lemma HandleKeeps(c: E.Config, t: string, w: World, fails: bool, w': World)
    requires ValidTopic(t) && Inv(c, t, w) && DoHandle(t, w, fails, w')
    ensures Inv(c, t, w')
  {
    var opens := Opens(w.g, t, fails);
    if opens {
      R.NextReachable(c, w.s, E.Subscribe(w.sid, t, W.Meaning(w.g.sent[w.g.handled].seed)), w'.s);
    }
    if w'.clean && t in w.g.topics {
      HandleFollows(t, w, fails, w');
      if opens {
        assert R.Moves(c, R.World(w.s, w.k), R.Attach(w.sid), R.World(w'.s, w'.k));
        R.MoveReachable(c, R.World(w.s, w.k), R.Attach(w.sid), R.World(w'.s, w'.k));
      }
    }
  }

  lemma ReceiveKeeps(c: E.Config, t: string, w: World, w': World)
    requires Inv(c, t, w) && DoReceive(t, w, w')
    ensures Inv(c, t, w')
  {
    if w.clean {
      assert Ahead(w'.g) == Ahead(w.g);
      R.MoveReachable(c, R.World(w.s, w.k), R.Move.Receive, R.World(w'.s, w'.k));
    }
  }

  lemma ServeKeeps(c: E.Config, t: string, w: World, step: E.Step, w': World)
    requires Inv(c, t, w) && E.Next(c, w.s, step, w'.s) && w' == w.(s := w'.s)
    ensures Inv(c, t, w')
  {
    R.NextReachable(c, w.s, step, w'.s);
    if w.clean && t in w.g.topics {
      R.MoveReachable(c, R.World(w.s, w.k), R.Serve(step), R.World(w'.s, w.k));
    }
  }

  lemma MoveKeeps(c: E.Config, t: string, w: World, move: Move, w': World)
    requires ValidTopic(t) && Inv(c, t, w) && Moves(c, t, w, move, w')
    ensures Inv(c, t, w')
  {
    match move {
      case Serve(step) => ServeKeeps(c, t, w, step, w');
      case Call(op) => CallKeeps(c, t, w, op, w');
      case Handle(fails) => HandleKeeps(c, t, w, fails, w');
      case Receive => ReceiveKeeps(c, t, w, w');
      case Cut => CutKeeps(c, t, w, w');
      case Start => StartKeeps(c, t, w, w');
      case _ => ChannelKeeps(c, t, w, move, w');
    }
  }

  ghost predicate IsRun(c: E.Config, t: string, run: seq<World>, moves: seq<Move>) {
    && |run| == |moves| + 1
    && Init(run[0])
    && forall i {:trigger moves[i]} :: 0 <= i < |moves| ==> Moves(c, t, run[i], moves[i], run[i + 1])
  }

  lemma {:induction false} RunInv(c: E.Config, t: string, run: seq<World>, moves: seq<Move>, i: nat)
    requires ValidTopic(t) && IsRun(c, t, run, moves) && i < |run|
    ensures Inv(c, t, run[i])
  {
    if i == 0 {
      var w := run[0];
      assert D.IsRun(c, [w.s], []) && D.Reachable(c, w.s);
    } else {
      RunInv(c, t, run, moves, i - 1);
      MoveKeeps(c, t, run[i - 1], moves[i - 1], run[i]);
    }
  }

  /**
   Resume covers, when no stale subscribe comes first. Over every run with any number of disconnects,
   while a topic stays in the table and no frame was lost to a full queue of the server: every event of
   the log from the first seen since to the last seen was handed to the callbacks, in order, and once
   each if no publish was in flight at any registration.
   */
  lemma Covers(c: E.Config, t: string, run: seq<World>, moves: seq<Move>, i: nat)
    requires ValidTopic(t) && IsRun(c, t, run, moves) && i < |run|
    requires run[i].clean && t in run[i].g.topics && R.Clean(run[i].s, run[i].k)
    ensures var w := run[i]; var seen := w.k.seen;
      && w.k.lastSeen == w.g.topics[t].lastSeen
      && (forall n: nat :: seen != [] && R.Known(E.Td(w.s, t).events, n) && seen[0].seqno <= n <= w.k.lastSeen ==>
            exists j :: 0 <= j < |seen| && seen[j].seqno == n)
      && (forall j :: 0 < j < |seen| ==> seen[j - 1].seqno <= seen[j].seqno)
      && (R.Calm(w.s, w.k) ==> forall j :: 0 < j < |seen| ==> seen[j - 1].seqno < seen[j].seqno)
  {
    RunInv(c, t, run, moves, i);
    var w := run[i];
    R.ResumeExactlyOnce(c, R.World(w.s, w.k));
    forall n: nat | w.k.seen != [] && R.Known(E.Td(w.s, t).events, n) && w.k.seen[0].seqno <= n <= w.k.lastSeen
      ensures exists j :: 0 <= j < |w.k.seen| && w.k.seen[j].seqno == n
    {
      R.ResumeCovers(c, R.World(w.s, w.k), n);
    }
  }

  // ---- at which seed a connection opens the topic ----

  /** A step at which t neither leaves the table nor is answered for, and the connection stays. */
  ghost predicate Passes(w: World, move: Move, t: string) {
    && t in w.g.topics && !move.Cut?
    && (move.Handle? && w.g.handled < |w.g.sent| ==> !Asks(w.g.sent[w.g.handled], t))
  }

  /** From the reconnect at step i to state n, t stays in the table and no session answers for it. */
  ghost predicate Waits(t: string, run: seq<World>, moves: seq<Move>, i: nat, n: nat) {
    && i < n <= |moves| < |run| && moves[i].Dial? && t in run[i].g.topics
    && (forall j {:trigger run[j]} :: i < j < n ==> Passes(run[j], moves[j], t))
    && t in run[n].g.topics
  }

  /** What the client reconnects with: an older subscribe left on the channel, or else the resubscription. */
  function Foremost(g: Local, t: string): W.Seed
    requires t in g.topics
  {
    var older := First(g.chan, t);
    if older.Some? then older.value else G.Resubscribe(t, g.topics[t]).seed
  }

  /** That seed is still the first to come, unless it was lost, and then nothing more comes. */
  ghost predicate Leads(g: Local, t: string, seed: W.Seed) {
    && LocalOk(g) && !g.held && First(Late(g), t).None?
    && match g.phase
       case Down => false
       case Dialled(todo) => First(g.chan + todo, t) == Some(seed)
       case Up =>
         if g.writing then First(g.sent[g.handled..] + g.chan, t) == Some(seed)
         else First(g.sent[g.handled..], t).None? || First(g.sent[g.handled..], t) == Some(seed)
  }

  lemma {:induction false} ResubscriptionsAsk(topics: Table, order: seq<string>, t: string)
    requires forall i :: 0 <= i < |order| ==> order[i] in topics
    requires t in order
    ensures First(Resubscriptions(topics, order), t) == Some(G.Resubscribe(t, topics[t]).seed)
  {
    var fs := Resubscriptions(topics, order);
    if order[0] != t {
      ResubscriptionsAsk(topics, order[1..], t);
      assert fs[1..] == Resubscriptions(topics, order[1..]);
    }
  }

  lemma DialLeads(g: Local, order: seq<string>, g': Local, t: string)
    requires LocalOk(g) && DoLocal(g, Dial(order), g') && t in g.topics && First(Late(g), t).None?
    ensures Leads(g', t, Foremost(g, t))
  {
    ResubscriptionsAsk(g.topics, order, t);
    FirstAppend(g.chan, g'.phase.todo, t);
  }

  lemma PushLeads(g: Local, g': Local, t: string, seed: W.Seed)
    requires Leads(g, t, seed) && DoLocal(g, Push, g')
    ensures Leads(g', t, seed)
  {
    var late := Late(g);
    assert g'.chan == g.chan + late;
    match g.phase {
      case Dialled(todo) =>
        FirstAppend(g.chan, todo, t);
        FirstAppend(g.chan, late, t);
        FirstAppend(g'.chan, todo, t);
      case Up =>
        assert g.sent[g.handled..] + g'.chan == g.sent[g.handled..] + g.chan + late;
        FirstAppend(g.sent[g.handled..] + g.chan, late, t);
    }
  }

  lemma TakeLeads(g: Local, move: Move, g': Local, t: string, seed: W.Seed)
    requires Leads(g, t, seed) && (move.Take? || move.PingFails?) && DoLocal(g, move, g')
    ensures Leads(g', t, seed)
  {
    FirstAppend(g.sent[g.handled..], g.chan, t);
    if move.Take? && move.ok {
      assert g'.sent[g'.handled..] + g'.chan == g.sent[g.handled..] + g.chan;
    } else {
      assert g'.sent[g'.handled..] == g.sent[g.handled..];
    }
  }

  lemma ResendLeads(g: Local, g': Local, t: string, seed: W.Seed)
    requires Leads(g, t, seed) && DoLocal(g, Resend, g')
    ensures Leads(g', t, seed)
  {
    assert g'.chan + g'.phase.todo == g.chan + g.phase.todo;
  }

  lemma HandleLeads(g: Local, g': Local, t: string, seed: W.Seed)
    requires Leads(g, t, seed) && g.phase.Up? && g.handled < |g.sent| && !Asks(g.sent[g.handled], t)
    requires g' == g.(handled := g.handled + 1)
    ensures Leads(g', t, seed)
  {
    var rest := g.sent[g.handled..];
    assert rest[1..] == g'.sent[g'.handled..];
    assert (rest + g.chan)[1..] == rest[1..] + g.chan;
  }

  /** Calls add no subscribe of a topic that stays in the table. */
  lemma CallLeads(g: Local, op: Op, t: string, seed: W.Seed)
    requires Leads(g, t, seed) && t in g.topics && t in Called(g, op).topics
    requires if op.Event? then op.topic != t else g.pending.None?
    ensures Leads(Called(g, op), t, seed)
  {
    CallFacts(g, op, t);
  }

  lemma StepLeads(c: E.Config, t: string, w: World, move: Move, w': World, seed: W.Seed)
    requires Inv(c, t, w) && Moves(c, t, w, move, w') && Passes(w, move, t) && t in w'.g.topics
    requires Leads(w.g, t, seed) && w.k.current.None?
    ensures Leads(w'.g, t, seed) && w'.k.current.None? && R.ResumeFrom(w'.k) == R.ResumeFrom(w.k)
  {
    match move {
      case Call(op) => CallLeads(w.g, op, t, seed);
      case Push => PushLeads(w.g, w'.g, t, seed);
      case Take(_) => TakeLeads(w.g, move, w'.g, t, seed);
      case PingFails => TakeLeads(w.g, move, w'.g, t, seed);
      case Resend => ResendLeads(w.g, w'.g, t, seed);
      case Handle(_) => HandleLeads(w.g, w'.g, t, seed);
      case Start =>
        assert w.g.chan + [] == w.g.chan && w.g.sent[w.g.handled..] + w.g.chan == w.g.chan;
      case _ =>
    }
  }

  /** Since the reconnect at w0, its foremost subscribe still leads, and the client is where it was. */
  ghost predicate Led(w0: World, w: World, t: string)
    requires t in w0.g.topics
  {
    Leads(w.g, t, Foremost(w0.g, t)) && w.k.current.None? && R.ResumeFrom(w.k) == R.ResumeFrom(w0.k)
  }

  ghost predicate LedUpTo(run: seq<World>, t: string, i: nat, n: nat) {
    && i < n < |run| && t in run[i].g.topics
    && forall j {:trigger run[j]} :: i < j <= n ==> Led(run[i], run[j], t)
  }

  lemma DialLed(c: E.Config, t: string, run: seq<World>, moves: seq<Move>, i: nat)
    requires ValidTopic(t) && IsRun(c, t, run, moves) && i < |moves| && moves[i].Dial?
    requires t in run[i].g.topics && First(Late(run[i].g), t).None?
    ensures LedUpTo(run, t, i, i + 1)
  {
    RunInv(c, t, run, moves, i);
    DialLeads(run[i].g, moves[i].order, run[i + 1].g, t);
  }

  lemma StepLed(c: E.Config, t: string, run: seq<World>, moves: seq<Move>, i: nat, n: nat)
    requires ValidTopic(t) && IsRun(c, t, run, moves) && 0 < n < |run| && LedUpTo(run, t, i, n - 1)
    requires Passes(run[n - 1], moves[n - 1], t) && t in run[n].g.topics
    ensures LedUpTo(run, t, i, n)
  {
    RunInv(c, t, run, moves, n - 1);
    StepLeads(c, t, run[n - 1], moves[n - 1], run[n], Foremost(run[i].g, t));
  }

  lemma WaitsBefore(t: string, run: seq<World>, moves: seq<Move>, i: nat, n: nat)
    requires Waits(t, run, moves, i, n) && i + 1 < n
    ensures Waits(t, run, moves, i, n - 1)
    ensures Passes(run[n - 1], moves[n - 1], t) && t in run[n].g.topics
  {
  }

  lemma {:induction false} StaysForemost(c: E.Config, t: string, run: seq<World>, moves: seq<Move>, i: nat, n: nat)
    requires ValidTopic(t) && IsRun(c, t, run, moves) && Waits(t, run, moves, i, n)
    requires First(Late(run[i].g), t).None?
    ensures LedUpTo(run, t, i, n)
  {
    if n == i + 1 {
      DialLed(c, t, run, moves, i);
    } else {
      WaitsBefore(t, run, moves, i, n);
      StaysForemost(c, t, run, moves, i, n - 1);
      StepLed(c, t, run, moves, i, n);
    }
  }

  /** The older subscribe left on the channel, if any, asks for just what the client needs next. */
  predicate NoneStale(g: Local, k: R.Client, t: string) {
    var older := First(g.chan, t); older.None? || W.Meaning(older.value) == R.ResumeFrom(k)
  }

  lemma ForemostFreshIff(g: Local, k: R.Client, t: string)
    requires EntryOk(g, k, t)
    ensures W.Meaning(Foremost(g, t)) == R.ResumeFrom(k) <==> NoneStale(g, k, t)
  {
    EntryAsks(g, k, t);
  }

  /**
   At which seed a reconnected topic opens: that of the first older subscribe still on the channel at
   the reconnect, if there is one. So the connection resumes where it should iff there is none or it
   asks for just that.
   */
  lemma OpensFreshIff(c: E.Config, t: string, run: seq<World>, moves: seq<Move>, i: nat, m: nat)
    requires ValidTopic(t) && IsRun(c, t, run, moves) && Waits(t, run, moves, i, m)
    requires First(Late(run[i].g), t).None?
    requires m < |moves| && moves[m].Handle? && Opens(run[m].g, t, moves[m].fails)
    ensures var seed := run[m].g.sent[run[m].g.handled].seed;
      && seed == Foremost(run[i].g, t)
      && (W.Meaning(seed) == R.ResumeFrom(run[m].k) <==> NoneStale(run[i].g, run[i].k, t))
  {
    StaysForemost(c, t, run, moves, i, m);
    assert Led(run[i], run[m], t);
    RunInv(c, t, run, moves, i);
    ForemostFreshIff(run[i].g, run[i].k, t);
    assert Moves(c, t, run[m], moves[m], run[m + 1]);
    OpensFirst(run[m].g, t, Foremost(run[i].g, t));
  }

  lemma OpensFirst(g: Local, t: string, seed: W.Seed)
    requires Leads(g, t, seed) && g.phase.Up? && g.handled < |g.sent| && Asks(g.sent[g.handled], t)
    ensures g.sent[g.handled].seed == seed
  {
    FirstAppend(g.sent[g.handled..], g.chan, t);
    assert g.sent[g.handled..][0] == g.sent[g.handled];
  }

  /** When the connection starts, the topic stays on course iff no stale subscribe was left at the reconnect. */
  lemma StartsCleanIff(c: E.Config, t: string, run: seq<World>, moves: seq<Move>, i: nat, n: nat)
    requires ValidTopic(t) && IsRun(c, t, run, moves) && Waits(t, run, moves, i, n)
    requires First(Late(run[i].g), t).None?
    requires n < |moves| && moves[n].Start?
    ensures run[n + 1].clean <==> run[n].clean && NoneStale(run[i].g, run[i].k, t)
  {
    StaysForemost(c, t, run, moves, i, n);
    assert Led(run[i], run[n], t);
    RunInv(c, t, run, moves, i);
    ForemostFreshIff(run[i].g, run[i].k, t);
    assert Moves(c, t, run[n], moves[n], run[n + 1]);
    StartsFirst(run[n].g, run[n + 1].g, t, Foremost(run[i].g, t));
  }

  lemma StartsFirst(g: Local, g': Local, t: string, seed: W.Seed)
    requires Leads(g, t, seed) && g.phase == Dialled([]) && g' == g.(phase := Up, writing := true)
    ensures First(Coming(g'), t) == Some(seed)
  {
    assert g.chan + [] == g.chan && Coming(g') == g.chan + Late(g);
    FirstAppend(g.chan, Late(g), t);
  }

  // ---- a reconnect that does not fit the channel ----

  ghost predicate Overfull(g: Local) { g.phase.Dialled? && |g.chan| + |g.phase.todo| > 256 }

  lemma OverfullStays(c: E.Config, t: string, w: World, move: Move, w': World)
    requires Inv(c, t, w) && Overfull(w.g) && Moves(c, t, w, move, w')
    ensures Overfull(w'.g)
  {
  }

  /**
   Reconnecting is for ever stuck when the frames left on the channel and one for each topic of the
   table come to more than it holds: no later state has a connection up.
   */
  lemma {:induction false} StuckForever(c: E.Config, t: string, run: seq<World>, moves: seq<Move>, i: nat, j: nat)
    requires ValidTopic(t) && IsRun(c, t, run, moves) && i < j < |run| && moves[i].Dial?
    requires |run[i].g.chan| + |run[i].g.topics| > 256
    ensures Overfull(run[j].g)
  {
    RunInv(c, t, run, moves, j - 1);
    assert Moves(c, t, run[j - 1], moves[j - 1], run[j]);
    if j == i + 1 {
      WalkLength(moves[i].order, run[i].g.topics);
    } else {
      StuckForever(c, t, run, moves, i, j - 1);
      OverfullStays(c, t, run[j - 1], moves[j - 1], run[j]);
    }
  }

  lemma WalkLength(order: seq<string>, topics: Table)
    requires Walks(order, topics)
    ensures |order| == |topics|
  {
    DistinctCount(order);
    assert (set x | x in order) == topics.Keys;
  }

  lemma {:induction false} DistinctCount(order: seq<string>)
    requires forall i, j :: 0 <= i < j < |order| ==> order[i] != order[j]
    ensures |set x | x in order| == |order|
  {
    if order != [] {
      var n := |order| - 1;
      DistinctCount(order[..n]);
      assert (set x | x in order) == (set x | x in order[..n]) + {order[n]};
    }
  }
}
