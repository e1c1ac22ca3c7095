/**
 The browser client's resume. One topic of the browser client, its queue and the server session, on top
 of the step machine: while the topic stays in the table, and provided no unsubscribe of it was still
 under way when it was entered, the client is one of those of Resume, and covers the log as they do.
 */
module BrowserResume {
  import opened Types
  import opened Topics
  import opened CallbackTable
  import B = BrowserClient
  import E = Engine
  import D = Delivery
  import O = Outboxes
  import R = Resume

  /**
   k follows the topic since it was last entered in the table; clean says that no unsubscribe of it
   was queued or unhandled then. sid is the session behind the current socket.
   */
  datatype World = World(b: B.World, s: E.System, sid: nat, k: R.Client, clean: bool)

  /** The seed text as the server reads it: "seq:N" means latest. */
  function ReadAs(from: From): From { if from.FromSeq? then FromLatest else from }

  /** The seed of a subscribe frame; the number is 64-bit. */
  function SeedOf(f: B.Frame): From
    requires f.Sub?
  {
    if f.resume % TWO64 > 0 then FromSeq(f.resume % TWO64) else ReadAs(f.from)
  }

  /** The frames not yet handled, sent or queued. */
  function Ahead(b: B.World): seq<B.Frame>
    requires b.handled <= |b.c.sent|
  {
    b.c.sent[b.handled..] + b.c.queue
  }

  /** No unsubscribe of t is queued or unhandled: what a caller can wait for before subscribing again. */
  ghost predicate NoneAhead(b: B.World, t: string) {
    b.handled <= |b.c.sent| && forall i :: 0 <= i < |Ahead(b)| ==> Ahead(b)[i] != B.Unsub(t)
  }

  datatype Move = Serve(served: E.Step) | Browse(done: B.Step) | Receive

  /** The session subscribes to t: the moment at which the machine's Subscribe step is taken. */
  predicate OpensTopic(w: World, t: string, b': B.World) { t !in w.b.subs && t in b'.subs }

  ghost predicate DoBrowse(t: string, w: World, step: B.Step, w': World) {
    && B.Next(w.b, step, w'.b)
    && match step
       case Subscribe(topic, from) =>
         if topic == t && t !in w.b.c.topics
         then w' == World(w'.b, w.s, w.sid, R.Newcomer(t, ReadAs(from)), NoneAhead(w.b, t))
         else w' == w.(b := w'.b)
       case See(topic, _) => topic != t && w' == w.(b := w'.b)
       case SocketDrops => w' == w.(b := w'.b, k := w.k.(current := None))
       case SocketOpens(_) => E.DoConnect(w.s, w'.sid, w'.s) && w' == w.(b := w'.b, s := w'.s, sid := w'.sid)
       case ServerHandles(_) =>
         if OpensTopic(w, t, w'.b)
         then && w.b.c.sent[w.b.handled].Sub?
              && E.DoSubscribe(w.s, w.sid, t, SeedOf(w.b.c.sent[w.b.handled]), w'.s)
              && w' == w.(b := w'.b, s := w'.s, k := R.Attached(w.k, w.s.next + 1))
         else w' == w.(b := w'.b)
       case _ => w' == w.(b := w'.b)
  }

  /** A frame of t's subscription arrives; an event marks the table. */
  ghost predicate DoReceive(t: string, w: World, w': World) {
    && w.b.c.ws.Ready? && t in w.b.c.topics && w.k.current.Some?
    && w.k.pos < |R.Wire(w.s, w.k.current.value)|
    && var m := R.Wire(w.s, w.k.current.value)[w.k.pos];
    && w' == w.(k := R.Dispatch(w.k, m), b := if O.IsEvent(m) then Marks(w.b, t, m.e.seqno) else w.b)
  }

  function Marks(b: B.World, t: string, seqno: nat): B.World {
    b.(c := b.c.(topics := Marked(b.c.topics, t, seqno)))
  }

  ghost predicate Moves(c: E.Config, t: string, w: World, move: Move, w': World) {
    match move
    case Serve(step) => E.Next(c, w.s, step, w'.s) && w' == w.(s := w'.s)
    case Browse(step) => DoBrowse(t, w, step, w')
    case Receive => DoReceive(t, w, w')
  }

  ghost predicate Init(w: World) { B.Init(w.b) && E.Init(w.s) }

  // ---- the invariant ----

  /** A subscribe of t among the frames ahead asks for what the client needs next. */
  ghost predicate Asks(b: B.World, k: R.Client, f: B.Frame, t: string) {
    f.Sub? && f.topic == t ==> SeedOf(f) == R.ResumeFrom(k)
  }

  ghost predicate EntryOk(b: B.World, t: string, k: R.Client) {
    && t in b.c.topics
    && k.topic == t && k.from == ReadAs(b.c.topics[t].from) && k.lastSeen == b.c.topics[t].lastSeen
  }

  /** While t is unsubscribed, whatever subscribe comes first asks for the right place. */
  ghost predicate AheadOk(b: B.World, t: string, k: R.Client) {
    && NoneAhead(b, t)
    && (t !in b.subs ==> forall i :: 0 <= i < |Ahead(b)| ==> Asks(b, k, Ahead(b)[i], t))
    && (forall i :: 0 <= i < |b.c.queue| && b.c.queue[i].Sub? && b.c.queue[i].topic == t ==>
          k.lastSeen == 0 && Asks(b, k, b.c.queue[i], t))
    && (k.current.Some? <==> t in b.subs)
  }

  ghost predicate Inv(c: E.Config, t: string, w: World) {
    && B.Inv(w.b) && D.Reachable(c, w.s)
    && (w.clean && t in w.b.c.topics ==>
          EntryOk(w.b, t, w.k) && AheadOk(w.b, t, w.k) && R.ClientReachable(c, R.World(w.s, w.k)))
  }

  // ---- steps that leave t's frames alone ----

  /** Same sockets and frames, and t's entry keeps its seed and mark. */
  lemma QuietKeeps(b: B.World, b': B.World, t: string, k: R.Client)
    requires b.handled <= |b.c.sent| && EntryOk(b, t, k) && AheadOk(b, t, k)
    requires b'.c.sent == b.c.sent && b'.c.queue == b.c.queue && b'.handled == b.handled && b'.subs == b.subs
    requires t in b'.c.topics && b'.c.topics[t].from == b.c.topics[t].from
    requires b'.c.topics[t].lastSeen == b.c.topics[t].lastSeen
    ensures EntryOk(b', t, k) && AheadOk(b', t, k)
  {
    assert Ahead(b') == Ahead(b);
  }

  /** A frame about something else, sent or queued. */
  lemma FrameKeeps(b: B.World, b': B.World, t: string, k: R.Client, topics: Table, nextId: nat, f: B.Frame)
    requires B.Inv(b) && EntryOk(b, t, k) && AheadOk(b, t, k) && !B.About(f, t)
    requires b' == b.(c := B.Send(b.c.(topics := topics, nextId := nextId), f))
    requires t in topics && topics[t] == b.c.topics[t]
    ensures EntryOk(b', t, k) && AheadOk(b', t, k)
  {
    assert Ahead(b') == Ahead(b) + [f];
    forall i | 0 <= i < |b'.c.queue| && b'.c.queue[i].Sub? && b'.c.queue[i].topic == t
      ensures k.lastSeen == 0 && Asks(b', k, b'.c.queue[i], t)
    {
      assert b'.c.queue[i] == b.c.queue[i];
    }
  }

  lemma CallKeeps(c: E.Config, t: string, w: World, step: B.Step, w': World)
    requires ValidTopic(t) && Inv(c, t, w) && DoBrowse(t, w, step, w')
    requires w'.clean && t in w.b.c.topics && t in w'.b.c.topics
    requires step.Subscribe? || step.Close? || step.Ask? || step.See?
    ensures w'.k == w.k && w'.clean == w.clean && EntryOk(w'.b, t, w.k) && AheadOk(w'.b, t, w.k)
  {
    match step {
      case Subscribe(topic, from) =>
        if '/' !in topic || topic in w.b.c.topics {
          QuietKeeps(w.b, w'.b, t, w.k);
        } else {
          FrameKeeps(w.b, w'.b, t, w.k, Added(w.b.c.topics, topic, from, w.b.c.nextId + 1), w.b.c.nextId + 1,
                     B.Sub(topic, from, 0));
        }
      case Close(topic, id) =>
        if IsLast(w.b.c.topics, topic, id) {
          FrameKeeps(w.b, w'.b, t, w.k, Removed(w.b.c.topics, topic, id), w.b.c.nextId, B.Unsub(topic));
        } else {
          QuietKeeps(w.b, w'.b, t, w.k);
        }
      case Ask => FrameKeeps(w.b, w'.b, t, w.k, w.b.c.topics, w.b.c.nextId, B.Request);
      case See(_, _) => QuietKeeps(w.b, w'.b, t, w.k);
    }
  }

  // ---- entering the table ----

  /** With no unsubscribe of t ahead and t not in the table, nothing about t is ahead and the session lacks it. */
  lemma NothingAhead(b: B.World, t: string)
    requires B.Inv(b) && ValidTopic(t) && t !in b.c.topics && NoneAhead(b, t)
    ensures t !in b.subs && forall i :: 0 <= i < |Ahead(b)| ==> !B.About(Ahead(b)[i], t)
  {
    if b.c.ws.Absent? {
      assert Ahead(b) == b.c.queue;
      NoneQueued(b.c, t);
    } else {
      var before := B.HandleAll({}, b.c.sent[..b.handled]);
      assert b.c.sent + b.c.queue == b.c.sent[..b.handled] + Ahead(b);
      B.HandleAppend({}, b.c.sent[..b.handled], Ahead(b));
      OnlySubs(before, Ahead(b), t);
    }
  }

  lemma QueueIsAhead(b: B.World, i: nat)
    requires b.handled <= |b.c.sent| && i < |b.c.queue|
    ensures exists j :: 0 <= j < |Ahead(b)| && Ahead(b)[j] == b.c.queue[i]
  {
    assert Ahead(b)[|b.c.sent| - b.handled + i] == b.c.queue[i];
  }

  lemma NoneQueued(c: B.Local, t: string)
    requires B.QueueTells(c, t) && t !in c.topics
    requires forall i :: 0 <= i < |c.queue| ==> c.queue[i] != B.Unsub(t)
    ensures forall i :: 0 <= i < |c.queue| ==> !B.About(c.queue[i], t)
  {
    if i :| 0 <= i < |c.queue| && B.About(c.queue[i], t) {
      var n := LastAbout(c.queue, t, i);
    }
  }

  lemma {:induction false} LastAbout(fs: seq<B.Frame>, t: string, i: nat) returns (n: nat)
    requires i < |fs| && B.About(fs[i], t)
    ensures n < |fs| && B.About(fs[n], t) && forall j :: n < j < |fs| ==> !B.About(fs[j], t)
    decreases |fs| - i
  {
    if j :| i < j < |fs| && B.About(fs[j], t) { n := LastAbout(fs, t, j); } else { n := i; }
  }

  /** Frames without an unsubscribe of t only ever add it. */
  lemma {:induction false} OnlySubs(subs: set<string>, fs: seq<B.Frame>, t: string)
    requires ValidTopic(t) && forall i :: 0 <= i < |fs| ==> fs[i] != B.Unsub(t)
    ensures t in B.HandleAll(subs, fs) <==> t in subs || exists i :: 0 <= i < |fs| && B.About(fs[i], t)
  {
    if fs != [] {
      var n := |fs| - 1;
      OnlySubs(subs, fs[..n], t);
      if B.About(fs[n], t) { assert fs[n].Sub?; }
      assert (exists i :: 0 <= i < |fs| && B.About(fs[i], t))
        <==> B.About(fs[n], t) || exists i :: 0 <= i < n && B.About(fs[..n][i], t);
    }
  }

  lemma EnterKeeps(c: E.Config, t: string, w: World, from: From, w': World)
    requires ValidTopic(t) && Inv(c, t, w) && DoBrowse(t, w, B.Subscribe(t, from), w') && t !in w.b.c.topics && w'.clean
    ensures EntryOk(w'.b, t, w'.k) && AheadOk(w'.b, t, w'.k)
  {
    NothingAhead(w.b, t);
    ValidTopicHasSlash(t);
    var f := B.Sub(t, from, 0);
    var k, b' := R.Newcomer(t, ReadAs(from)), w'.b;
    assert w'.k == k && SeedOf(f) == R.ResumeFrom(k);
    assert Ahead(b') == Ahead(w.b) + [f];
    forall i | 0 <= i < |b'.c.queue| && b'.c.queue[i].Sub? && b'.c.queue[i].topic == t
      ensures k.lastSeen == 0 && Asks(b', k, b'.c.queue[i], t)
    {
      if i < |w.b.c.queue| { QueueIsAhead(w.b, i); }
    }
    forall i | 0 <= i < |Ahead(b')| ensures Asks(b', k, Ahead(b')[i], t) && Ahead(b')[i] != B.Unsub(t) {
      if i < |Ahead(w.b)| { assert !B.About(Ahead(w.b)[i], t); }
    }
  }

  lemma ValidTopicHasSlash(t: string)
    requires ValidTopic(t)
    ensures '/' in t
  {
  }

  // ---- sockets ----

  lemma DropKeeps(b: B.World, b': B.World, t: string, k: R.Client)
    requires B.Inv(b) && B.Next(b, B.SocketDrops, b') && EntryOk(b, t, k) && AheadOk(b, t, k)
    ensures EntryOk(b', t, k.(current := None)) && AheadOk(b', t, k.(current := None))
  {
    var k' := k.(current := None);
    assert R.ResumeFrom(k') == R.ResumeFrom(k);
    assert Ahead(b') == b.c.queue;
    forall i | 0 <= i < |Ahead(b')| ensures Ahead(b')[i] != B.Unsub(t) && Asks(b', k', Ahead(b')[i], t) {
      QueueIsAhead(b, i);
      assert Asks(b, k, b.c.queue[i], t);
    }
    forall i | 0 <= i < |b'.c.queue| && b'.c.queue[i].Sub? && b'.c.queue[i].topic == t
      ensures k'.lastSeen == 0 && Asks(b', k', b'.c.queue[i], t)
    {
      assert Asks(b, k, b.c.queue[i], t);
    }
  }

  /** The resubscription of t asks for the event after the last one seen. */
  lemma EntryAsks(b: B.World, t: string, k: R.Client)
    requires EntryOk(b, t, k)
    ensures SeedOf(B.Sub(t, b.c.topics[t].from, After(b.c.topics[t].lastSeen))) == R.ResumeFrom(k)
  {
  }

  lemma OpenKeeps(b: B.World, order: seq<string>, b': B.World, t: string, k: R.Client)
    requires B.Inv(b) && B.Next(b, B.SocketOpens(order), b') && EntryOk(b, t, k) && AheadOk(b, t, k)
    ensures EntryOk(b', t, k) && AheadOk(b', t, k)
  {
    assert Ahead(b) == b.c.queue && Ahead(b') == B.Resubscriptions(b.c.topics, order) + b.c.queue;
    forall i | 0 <= i < |Ahead(b')| ensures Ahead(b')[i] != B.Unsub(t) && Asks(b', k, Ahead(b')[i], t) {
      if i < |order| { ResubscriptionAsks(b, order, t, k, i); } else { QueuedAsks(b, t, k, i - |order|); }
    }
  }

  lemma ResubscriptionAsks(b: B.World, order: seq<string>, t: string, k: R.Client, i: nat)
    requires B.Walks(order, b.c.topics) && EntryOk(b, t, k) && i < |order|
    ensures var f := B.Resubscriptions(b.c.topics, order)[i]; f.Sub? && Asks(b, k, f, t)
  {
    assert order[i] in order;
    EntryAsks(b, t, k);
  }

  lemma QueuedAsks(b: B.World, t: string, k: R.Client, i: nat)
    requires b.handled <= |b.c.sent| && Ahead(b) == b.c.queue && AheadOk(b, t, k) && i < |b.c.queue|
    ensures b.c.queue[i] != B.Unsub(t) && Asks(b, k, b.c.queue[i], t)
  {
    assert Ahead(b)[i] == b.c.queue[i];
  }

  // ---- the session and the stream ----

  /** What handling the next frame does to t, seen from the client. */
  lemma HandleFacts(b: B.World, fails: bool, b': B.World, t: string, k: R.Client)
    requires B.Inv(b) && B.Next(b, B.ServerHandles(fails), b') && AheadOk(b, t, k)
    ensures var f := b.c.sent[b.handled];
      && (t in b.subs ==> t in b'.subs)
      && (t !in b.subs && t in b'.subs ==> f.Sub? && SeedOf(f) == R.ResumeFrom(k))
    ensures b'.handled <= |b'.c.sent| && NoneAhead(b', t)
    ensures t !in b.subs ==> forall i :: 0 <= i < |Ahead(b')| ==> Asks(b', k, Ahead(b')[i], t)
  {
    assert Ahead(b)[0] == b.c.sent[b.handled];
    assert Ahead(b') == Ahead(b)[1..];
    forall i | 0 <= i < |Ahead(b')| && t !in b.subs ensures Asks(b', k, Ahead(b')[i], t) {
      assert Asks(b, k, Ahead(b)[i + 1], t);
    }
    if t !in b.subs { assert Asks(b, k, Ahead(b)[0], t); }
  }

  lemma HandleKeeps(c: E.Config, t: string, w: World, fails: bool, w': World)
    requires Inv(c, t, w) && DoBrowse(t, w, B.ServerHandles(fails), w') && w.clean && t in w.b.c.topics
    ensures w'.b.c == w.b.c && EntryOk(w'.b, t, w'.k) && AheadOk(w'.b, t, w'.k)
    ensures R.ClientReachable(c, R.World(w'.s, w'.k))
  {
    HandleFacts(w.b, fails, w'.b, t, w.k);
    assert R.ResumeFrom(w'.k) == R.ResumeFrom(w.k);
    forall i | 0 <= i < |w'.b.c.queue| && w'.b.c.queue[i].Sub? && w'.b.c.queue[i].topic == t
      ensures w'.k.lastSeen == 0 && Asks(w'.b, w'.k, w'.b.c.queue[i], t)
    {
      assert Asks(w.b, w.k, w.b.c.queue[i], t);
    }
    if OpensTopic(w, t, w'.b) {
      assert R.Moves(c, R.World(w.s, w.k), R.Attach(w.sid), R.World(w'.s, w'.k));
      R.MoveReachable(c, R.World(w.s, w.k), R.Attach(w.sid), R.World(w'.s, w'.k));
    }
  }

  lemma ReceiveKeeps(c: E.Config, t: string, w: World, w': World)
    requires Inv(c, t, w) && DoReceive(t, w, w')
    ensures B.Inv(w'.b)
    ensures w.clean ==> EntryOk(w'.b, t, w'.k) && AheadOk(w'.b, t, w'.k)
    ensures w.clean ==> R.ClientReachable(c, R.World(w'.s, w'.k))
  {
    var m := R.Wire(w.s, w.k.current.value)[w.k.pos];
    if O.IsEvent(m) { B.SilentKeeps(w.b, Marked(w.b.c.topics, t, m.e.seqno), w.b.c.nextId); }
    assert Ahead(w'.b) == Ahead(w.b);
    if w.clean { R.MoveReachable(c, R.World(w.s, w.k), R.Move.Receive, R.World(w'.s, w'.k)); }
  }

  // ---- all steps ----

  lemma ServeKeeps(c: E.Config, t: string, w: World, step: E.Step, w': World)
    requires Inv(c, t, w) && E.Next(c, w.s, step, w'.s) && w' == w.(s := w'.s)
    ensures Inv(c, t, w')
  {
    R.NextReachable(c, w.s, step, w'.s);
    if w.clean && t in w.b.c.topics {
      R.MoveReachable(c, R.World(w.s, w.k), R.Serve(step), R.World(w'.s, w.k));
    }
  }

  lemma SocketKeeps(c: E.Config, t: string, w: World, step: B.Step, w': World)
    requires Inv(c, t, w) && DoBrowse(t, w, step, w')
    requires step.SocketCloses? || step.SocketDrops? || step.SocketOpens?
    ensures Inv(c, t, w')
  {
    B.NextKeeps(w.b, step, w'.b);
    var live := w.clean && t in w.b.c.topics;
    match step {
      case SocketCloses => if live { QuietKeeps(w.b, w'.b, t, w.k); }
      case SocketDrops =>
        if live {
          DropKeeps(w.b, w'.b, t, w.k);
          R.MoveReachable(c, R.World(w.s, w.k), R.Cut, R.World(w.s, w'.k));
        }
      case SocketOpens(order) =>
        var step := E.Connect(w'.sid);
        R.NextReachable(c, w.s, step, w'.s);
        if live {
          OpenKeeps(w.b, order, w'.b, t, w.k);
          R.MoveReachable(c, R.World(w.s, w.k), R.Serve(step), R.World(w'.s, w.k));
        }
    }
  }

  lemma BrowseKeeps(c: E.Config, t: string, w: World, step: B.Step, w': World)
    requires ValidTopic(t) && Inv(c, t, w) && DoBrowse(t, w, step, w')
    requires step.Subscribe? || step.Close? || step.Ask? || step.See?
    ensures Inv(c, t, w')
  {
    B.NextKeeps(w.b, step, w'.b);
    if w'.clean && t in w'.b.c.topics {
      if t in w.b.c.topics {
        CallKeeps(c, t, w, step, w');
      } else {
        assert step.Subscribe? && step.topic == t;
        EnterKeeps(c, t, w, step.from, w');
        R.NewcomerReachable(c, w.s, t, ReadAs(step.from));
      }
    }
  }

  lemma SessionKeeps(c: E.Config, t: string, w: World, fails: bool, w': World)
    requires Inv(c, t, w) && DoBrowse(t, w, B.ServerHandles(fails), w')
    ensures Inv(c, t, w')
  {
    B.NextKeeps(w.b, B.ServerHandles(fails), w'.b);
    if OpensTopic(w, t, w'.b) {
      R.NextReachable(c, w.s, E.Subscribe(w.sid, t, SeedOf(w.b.c.sent[w.b.handled])), w'.s);
    }
    if w.clean && t in w.b.c.topics { HandleKeeps(c, t, w, fails, w'); }
  }

  lemma MoveKeeps(c: E.Config, t: string, w: World, move: Move, w': World)
    requires ValidTopic(t) && Inv(c, t, w) && Moves(c, t, w, move, w')
    ensures Inv(c, t, w')
  {
    match move {
      case Serve(step) => ServeKeeps(c, t, w, step, w');
      case Receive => ReceiveKeeps(c, t, w, w');
      case Browse(step) =>
        match step {
          case Subscribe(_, _) => BrowseKeeps(c, t, w, step, w');
          case Close(_, _) => BrowseKeeps(c, t, w, step, w');
          case Ask => BrowseKeeps(c, t, w, step, w');
          case See(_, _) => BrowseKeeps(c, t, w, step, w');
          case ServerHandles(fails) => SessionKeeps(c, t, w, fails, w');
          case _ => SocketKeeps(c, t, w, step, w');
        }
    }
  }

  ghost predicate IsRun(c: E.Config, t: string, run: seq<World>, moves: seq<Move>) {
    && |run| == |moves| + 1
    && Init(run[0])
    && forall i {:trigger moves[i]} :: 0 <= i < |moves| ==> Moves(c, t, run[i], moves[i], run[i + 1])
  }

  lemma {:induction false} RunInv(c: E.Config, t: string, run: seq<World>, moves: seq<Move>, i: nat)
    requires ValidTopic(t) && IsRun(c, t, run, moves) && i < |run|
    ensures Inv(c, t, run[i])
  {
    if i == 0 {
      var w := run[0];
      assert D.IsRun(c, [w.s], []) && D.Reachable(c, w.s);
      forall u: string ensures B.QueueTells(w.b.c, u) { }
      assert B.Wanted(map[]) == {};
    } else {
      RunInv(c, t, run, moves, i - 1);
      MoveKeeps(c, t, run[i - 1], moves[i - 1], run[i]);
    }
  }

  /**
   The browser client's resume covers. Over every run with any number of disconnects, while a topic
   stays in the table: if no unsubscribe of it was queued or unhandled when it was entered, and no
   frame was lost, every event of the log from the first seen since to the last seen was handed to the
   callbacks, in order, and once each if no publish was in flight at any registration.
   */
  lemma Covers(c: E.Config, t: string, run: seq<World>, moves: seq<Move>, i: nat)
    requires ValidTopic(t) && IsRun(c, t, run, moves) && i < |run|
    requires run[i].clean && t in run[i].b.c.topics && R.Clean(run[i].s, run[i].k)
    ensures var w := run[i]; var seen := w.k.seen;
      && w.k.lastSeen == w.b.c.topics[t].lastSeen
      && (forall n: nat :: seen != [] && R.Known(E.Td(w.s, t).events, n) && seen[0].seqno <= n <= w.k.lastSeen ==>
            exists j :: 0 <= j < |seen| && seen[j].seqno == n)
      && (forall j :: 0 < j < |seen| ==> seen[j - 1].seqno <= seen[j].seqno)
      && (R.Calm(w.s, w.k) ==> forall j :: 0 < j < |seen| ==> seen[j - 1].seqno < seen[j].seqno)
  {
    RunInv(c, t, run, moves, i);
    var w := run[i];
    R.ResumeExactlyOnce(c, R.World(w.s, w.k));
    forall n: nat | w.k.seen != [] && R.Known(E.Td(w.s, t).events, n) && w.k.seen[0].seqno <= n <= w.k.lastSeen
      ensures exists j :: 0 <= j < |w.k.seen| && w.k.seen[j].seqno == n
    {
      R.ResumeCovers(c, R.World(w.s, w.k), n);
    }
  }

  /** A topic the session holds is given up somewhere along the frames iff an unsubscribe is among them. */
  lemma GivesUpIff(subs: set<string>, fs: seq<B.Frame>, t: string)
    requires ValidTopic(t) && t in subs
    ensures (exists n: nat :: n <= |fs| && t !in B.HandleAll(subs, fs[..n]))
      <==> exists i :: 0 <= i < |fs| && fs[i] == B.Unsub(t)
  {
    if i :| 0 <= i < |fs| && fs[i] == B.Unsub(t) {
      B.HandleSnoc(subs, fs[..i], fs[i]);
      assert fs[..i] + [fs[i]] == fs[..i + 1];
      assert t !in B.HandleAll(subs, fs[..i + 1]);
    } else {
      forall n: nat | n <= |fs| ensures t in B.HandleAll(subs, fs[..n]) { OnlySubs(subs, fs[..n], t); }
    }
  }

  /** The condition of Covers, on a topic the session holds: nothing ahead makes it give the topic up. */
  lemma NoneAheadIff(b: B.World, t: string)
    requires ValidTopic(t) && b.handled <= |b.c.sent| && t in b.subs
    ensures NoneAhead(b, t) <==> forall n: nat :: n <= |Ahead(b)| ==> t in B.HandleAll(b.subs, Ahead(b)[..n])
  {
    GivesUpIff(b.subs, Ahead(b), t);
  }

  /**
   Why the condition: after a reconnection the session opens a table topic and then gives it up iff an
   unsubscribe of it was queued; the queued subscribe behind that opens it afresh. What comes between
   the end of the one subscription and the start of the other is in neither (Delivery.DeliversIff).
   */
  lemma ReopensIff(c: B.Local, order: seq<string>, c': B.Local, t: string)
    requires ValidTopic(t) && t in c.topics && B.Opened(c, order, c')
    ensures var n := |order|;
      && n <= |c'.sent| && c'.sent[n..] == c.queue && t in B.HandleAll({}, c'.sent[..n])
      && ((exists m: nat :: n <= m <= |c'.sent| && t !in B.HandleAll({}, c'.sent[..m]))
          <==> exists i :: 0 <= i < |c.queue| && c.queue[i] == B.Unsub(t))
  {
    var first, n := B.Resubscriptions(c.topics, order), |order|;
    var held := B.HandleAll({}, first);
    B.Resubscribes(c.topics, order);
    assert c'.sent[..n] == first && c'.sent[n..] == c.queue;
    GivesUpIff(held, c.queue, t);
    forall m: nat | n <= m <= |c'.sent|
      ensures B.HandleAll({}, c'.sent[..m]) == B.HandleAll(held, c.queue[..m - n])
    {
      assert c'.sent[..m] == first + c.queue[..m - n];
      B.HandleAppend({}, first, c.queue[..m - n]);
    }
    if m: nat :| m <= |c.queue| && t !in B.HandleAll(held, c.queue[..m]) {
      assert t !in B.HandleAll({}, c'.sent[..n + m]);
    }
  }
}
