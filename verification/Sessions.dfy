/**
 One WebSocket session: its table of subscriptions, its bounded outbox, and the forwarder's loop.
 Calls are taken one at a time; the interleaved picture is the step machine of Engine.
 */
module Sessions {
  import opened Types
  import opened Topics
  import opened Log
  import opened Hubs
  import opened Brokers
  import S = Subscriptions

  const OUTBUF := S.OUTBUF

  datatype Out = Note(topic: string, msg: S.Msg) | Refused(topic: string)

  /** A full outbox swallows the frame. */
  function Push(out: seq<Out>, f: Out): seq<Out> {
    if |out| < OUTBUF then out + [f] else out
  }

  /** An outbox of 512 places was sent frames: all of them if they fit, else those that fill it up. */
  ghost predicate Took(before: seq<Out>, fs: seq<Out>, after: seq<Out>) {
    && after <= before + fs
    && |after| == if |before| + |fs| <= 512 then |before| + |fs| else if |before| < 512 then 512 else |before|
  }

  /** Pushing frames one by one keeps the longest prefix of them that fits. */
  function PushAll(out: seq<Out>, fs: seq<Out>): (r: seq<Out>)
    ensures Took(out, fs, r)
  {
    if |out| >= OUTBUF then out
    else if |out| + |fs| <= OUTBUF then out + fs
    else out + fs[..OUTBUF - |out|]
  }

  lemma PushOne(out: seq<Out>, fs: seq<Out>, f: Out)
    ensures PushAll(out, fs + [f]) == Push(PushAll(out, fs), f)
    ensures PushAll(out, []) == out
  {
    if |out| + |fs| < OUTBUF {
      assert out + (fs + [f]) == out + fs + [f];
    } else if |out| < OUTBUF {
      assert (fs + [f])[..OUTBUF - |out|] == fs[..OUTBUF - |out|];
    }
  }

  function Notes(topic: string, ms: seq<S.Msg>): (r: seq<Out>)
    ensures |r| == |ms|
    ensures forall i :: 0 <= i < |ms| ==> r[i] == Note(topic, ms[i])
  {
    seq(|ms|, i requires 0 <= i < |ms| => Note(topic, ms[i]))
  }

  lemma NotesAppend(topic: string, a: seq<S.Msg>, b: seq<S.Msg>)
    ensures Notes(topic, a + b) == Notes(topic, a) + Notes(topic, b)
  {
  }

  /** lastLag after taking the queue, where the lag reads lags[i] when event i is handled. */
  function Reported(queue: seq<Event>, fence: nat, lags: seq<nat>, lastLag: nat): nat
    requires |lags| == |queue|
  {
    if queue == [] then lastLag
    else
      var n := |queue| - 1;
      var before := Reported(queue[..n], fence, lags[..n], lastLag);
      if queue[n].seqno > fence && lags[n] > before then lags[n] else before
  }

  /** What the forwarder makes of the events it takes: fenced ones vanish, a grown lag is reported first. */
  function Forwarded(queue: seq<Event>, fence: nat, lags: seq<nat>, lastLag: nat): seq<S.Msg>
    requires |lags| == |queue|
  {
    if queue == [] then []
    else
      var n := |queue| - 1;
      Forwarded(queue[..n], fence, lags[..n], lastLag)
      + ForwardedOne(queue[n], fence, lags[n], Reported(queue[..n], fence, lags[..n], lastLag))
  }

  function ForwardedOne(e: Event, fence: nat, lag: nat, lastLag: nat): seq<S.Msg> {
    if e.seqno <= fence then []
    else if lag > lastLag then [S.Lagging(lag - lastLag), S.Live(e)]
    else [S.Live(e)]
  }

  lemma ForwardedSnoc(queue: seq<Event>, fence: nat, lags: seq<nat>, lastLag: nat, n: nat)
    requires n < |queue| && |lags| == |queue|
    ensures var before := Reported(queue[..n], fence, lags[..n], lastLag);
      && Forwarded(queue[..n + 1], fence, lags[..n + 1], lastLag)
         == Forwarded(queue[..n], fence, lags[..n], lastLag) + ForwardedOne(queue[n], fence, lags[n], before)
      && Reported(queue[..n + 1], fence, lags[..n + 1], lastLag)
         == if queue[n].seqno > fence && lags[n] > before then lags[n] else before
  {
    assert queue[..n + 1][..n] == queue[..n] && lags[..n + 1][..n] == lags[..n];
  }

  /**
   Forwarding loses nothing beyond the fence, and its reports add up to the growth of the lag: from
   lastLag to the highest reading taken with an event that passed.
   */
  lemma {:induction false} ForwardedFacts(queue: seq<Event>, fence: nat, lags: seq<nat>, lastLag: nat)
    requires |lags| == |queue|
    ensures S.EventsOf(Forwarded(queue, fence, lags, lastLag)) == S.Beyond(queue, fence)
    ensures lastLag + S.Missed(Forwarded(queue, fence, lags, lastLag)) == Reported(queue, fence, lags, lastLag)
    ensures Highest(queue, fence, lags, lastLag, Reported(queue, fence, lags, lastLag))
  {
    if queue != [] {
      var n := |queue| - 1;
      var before := Reported(queue[..n], fence, lags[..n], lastLag);
      ForwardedFacts(queue[..n], fence, lags[..n], lastLag);
      OneFacts(Forwarded(queue[..n], fence, lags[..n], lastLag), queue[n], fence, lags[n], before);
      HighestSnoc(queue, fence, lags, lastLag, before);
    }
  }

  /** m is the highest of lastLag and the readings taken with an event that passed. */
  ghost predicate Highest(queue: seq<Event>, fence: nat, lags: seq<nat>, lastLag: nat, m: nat)
    requires |lags| == |queue|
  {
    && lastLag <= m
    && (forall i :: 0 <= i < |queue| && queue[i].seqno > fence ==> lags[i] <= m)
    && (m == lastLag || exists i :: 0 <= i < |queue| && queue[i].seqno > fence && lags[i] == m)
  }

  lemma HighestSnoc(queue: seq<Event>, fence: nat, lags: seq<nat>, lastLag: nat, m: nat)
    requires |lags| == |queue| > 0
    requires Highest(queue[..|queue| - 1], fence, lags[..|queue| - 1], lastLag, m)
    ensures var n := |queue| - 1;
      Highest(queue, fence, lags, lastLag, if queue[n].seqno > fence && lags[n] > m then lags[n] else m)
  {
    var n := |queue| - 1;
    forall i | 0 <= i < n && queue[i].seqno > fence ensures lags[i] <= m {
      assert queue[..n][i] == queue[i] && lags[..n][i] == lags[i];
    }
    if i :| 0 <= i < n && queue[..n][i].seqno > fence && lags[..n][i] == m {
      assert queue[i].seqno > fence && lags[i] == m;
    }
  }

  lemma OneFacts(ms: seq<S.Msg>, e: Event, fence: nat, lag: nat, lastLag: nat)
    ensures var all := ms + ForwardedOne(e, fence, lag, lastLag);
      && S.EventsOf(all) == S.EventsOf(ms) + (if e.seqno > fence then [e] else [])
      && S.Missed(all) == S.Missed(ms) + (if e.seqno > fence && lag > lastLag then lag - lastLag else 0)
  {
    if e.seqno <= fence {
      assert ms + [] == ms;
    } else if lag > lastLag {
      S.EventsOfSnoc(ms, S.Lagging(lag - lastLag));
      S.EventsOfSnoc(ms + [S.Lagging(lag - lastLag)], S.Live(e));
      assert ms + [S.Lagging(lag - lastLag), S.Live(e)] == ms + [S.Lagging(lag - lastLag)] + [S.Live(e)];
    } else {
      S.EventsOfSnoc(ms, S.Live(e));
    }
  }

  /** Table keys and the session's open hub subscriptions match one to one. */
  ghost predicate Owns(subs: map<string, Subscription>, mine: set<Subscription>, open: set<Subscription>) {
    && (forall t :: t in subs ==> subs[t] in mine && subs[t] in open && subs[t].topic == t)
    && (forall s :: s in mine && s in open ==> s.topic in subs && subs[s.topic] == s)
  }

  lemma OwnsMore(subs: map<string, Subscription>, mine: set<Subscription>, open: set<Subscription>,
                 topic: string, s: Subscription)
    requires Owns(subs, mine, open) && topic !in subs && s !in mine && s !in open && s.topic == topic
    ensures Owns(subs[topic := s], mine + {s}, open + {s})
    ensures open + {s} - (mine + {s}) == open - mine
  {
  }

  lemma OwnsLess(subs: map<string, Subscription>, mine: set<Subscription>, open: set<Subscription>, topic: string)
    requires Owns(subs, mine, open) && topic in subs
    ensures Owns(subs - {topic}, mine, open - {subs[topic]})
    ensures open - {subs[topic]} - mine == open - mine
  {
  }

  lemma OwnsNone(subs: map<string, Subscription>, mine: set<Subscription>, open: set<Subscription>)
    requires Owns(subs, mine, open)
    ensures subs.Values <= open && open - subs.Values == open - mine
  {
  }

  class Session {
    const broker: Broker
    var subs: map<string, Subscription>
    var out: seq<Out>
    var cancelled: set<Subscription>    // those whose forwarder's context was cancelled
    ghost var mine: set<Subscription>   // every subscription this session ever opened

    constructor (broker: Broker)
      ensures this.broker == broker && subs == map[] && out == [] && cancelled == mine == {}
    {
      this.broker := broker;
      subs, out, cancelled, mine := map[], [], {}, {};
    }

    method Send(f: Out)
      modifies this`out
      ensures out == Push(old(out), f)
      ensures out == if |old(out)| < 512 then old(out) + [f] else old(out)
    {
      if |out| < OUTBUF {
        out := out + [f];
      }
    }

    method SendReplay(topic: string, backfill: seq<Event>, fence: nat)
      modifies this`out
      ensures out == PushAll(old(out), Notes(topic, S.ReplayFrames(backfill) + [S.Ack(fence)]))
      ensures Took(old(out), Notes(topic, S.ReplayFrames(backfill) + [S.Ack(fence)]), out)
    {
      PushOne(out, [], Refused(topic));
      var i := 0;
      while i < |backfill|
        invariant 0 <= i <= |backfill|
        invariant out == PushAll(old(out), Notes(topic, S.ReplayFrames(backfill[..i])))
      {
        PushOne(old(out), Notes(topic, S.ReplayFrames(backfill[..i])), Note(topic, S.Replayed(backfill[i])));
        assert Notes(topic, S.ReplayFrames(backfill[..i + 1]))
            == Notes(topic, S.ReplayFrames(backfill[..i])) + [Note(topic, S.Replayed(backfill[i]))];
        Send(Note(topic, S.Replayed(backfill[i])));
        i := i + 1;
      }
      assert backfill[..i] == backfill;
      PushOne(old(out), Notes(topic, S.ReplayFrames(backfill)), Note(topic, S.Ack(fence)));
      assert Notes(topic, S.ReplayFrames(backfill) + [S.Ack(fence)])
          == Notes(topic, S.ReplayFrames(backfill)) + [Note(topic, S.Ack(fence))];
      Send(Note(topic, S.Ack(fence)));
    }

    /** A subscription the broker just opened: replay, acknowledge, enter in the table. */
    method Admit(sub: Subscription, backfill: seq<Event>, fence: nat)
      modifies this`out, this`subs, this`mine
      ensures out == PushAll(old(out), Notes(sub.topic, S.ReplayFrames(backfill) + [S.Ack(fence)]))
      ensures Took(old(out), Notes(sub.topic, S.ReplayFrames(backfill) + [S.Ack(fence)]), out)
      ensures subs == old(subs)[sub.topic := sub] && mine == old(mine) + {sub}
    {
      SendReplay(sub.topic, backfill, fence);
      mine := mine + {sub};
      subs := subs[sub.topic := sub];
    }

    /** The second half of a subscribe, for a topic the session does not have. */
    method Enter(topic: string, from: From, readFails: bool) returns (sub: Option<Subscription>)
      requires topic !in subs && broker.Valid() && Owns(subs, mine, broker.hub.open)
      modifies this`out, this`subs, this`mine, broker`gauge, broker.hub
      ensures broker.Valid() && Owns(subs, mine, broker.hub.open)
      ensures sub.Some? <==> ValidTopic(topic) && (from.FromLatest? || !readFails)
      ensures sub.None? ==> subs == old(subs) && mine == old(mine)
      ensures sub.None? ==> out == if |old(out)| < 512 then old(out) + [Refused(topic)] else old(out)
      ensures sub.Some? ==> sub.value.topic == topic && fresh(sub.value) && sub.value.View() == OPEN
      ensures sub.Some? ==> subs == old(subs)[topic := sub.value] && mine == old(mine) + {sub.value}
      ensures sub.Some? ==>
        var backfill := Backfill(Memory, broker.store.Events(topic), from);
        var fs := Notes(topic, S.ReplayFrames(backfill) + [S.Ack(Fence(backfill))]);
        out == PushAll(old(out), fs) && Took(old(out), fs, out)
      ensures broker.hub.open - mine == old(broker.hub.open - mine)
    {
      var backfill, fence;
      sub, backfill, fence := broker.Subscribe(topic, from, readFails);
      if sub.None? {
        Send(Refused(topic));
      } else {
        OwnsMore(subs, mine, old(broker.hub.open), topic, sub.value);
        Admit(sub.value, backfill, fence);
      }
    }

    /** The session accepts a subscribe exactly when it has none for the topic and the broker accepts it. */
    method HandleSubscribe(topic: string, from: From, readFails: bool) returns (sub: Option<Subscription>)
      requires broker.Valid() && Owns(subs, mine, broker.hub.open)
      modifies this`out, this`subs, this`mine, broker`gauge, broker.hub
      ensures broker.Valid() && Owns(subs, mine, broker.hub.open)
      ensures sub.Some? <==> topic !in old(subs) && ValidTopic(topic) && (from.FromLatest? || !readFails)
      ensures sub.None? ==> subs == old(subs) && mine == old(mine)
      ensures sub.None? ==> out == if |old(out)| < 512 then old(out) + [Refused(topic)] else old(out)
      ensures sub.Some? ==> sub.value.topic == topic && fresh(sub.value) && sub.value.View() == OPEN
      ensures sub.Some? ==> subs == old(subs)[topic := sub.value] && mine == old(mine) + {sub.value}
      ensures sub.Some? ==>
        var backfill := Backfill(Memory, broker.store.Events(topic), from);
        var fs := Notes(topic, S.ReplayFrames(backfill) + [S.Ack(Fence(backfill))]);
        out == PushAll(old(out), fs) && Took(old(out), fs, out)
      ensures broker.hub.open - mine == old(broker.hub.open - mine)
    {
      if topic in subs {
        Send(Refused(topic));
        return None;
      }
      sub := Enter(topic, from, readFails);
    }

    /** The topic leaves the table, its forwarder is cancelled, and its hub subscription closes. */
    method HandleUnsubscribe(topic: string)
      requires broker.Valid() && Owns(subs, mine, broker.hub.open)
      modifies this`subs, this`cancelled, broker`gauge, broker.hub`topics, broker.hub`open, subs.Values
      ensures broker.Valid() && Owns(subs, mine, broker.hub.open)
      ensures subs == old(subs) - {topic}
      ensures cancelled == old(cancelled) + (if topic in old(subs) then {old(subs)[topic]} else {})
      ensures broker.hub.open == old(broker.hub.open) - (if topic in old(subs) then {old(subs)[topic]} else {})
      ensures broker.hub.open - mine == old(broker.hub.open - mine)
    {
      if topic in subs {
        var fw := subs[topic];
        OwnsLess(subs, mine, broker.hub.open, topic);
        subs := subs - {topic};
        cancelled := cancelled + {fw};
        broker.Unsubscribe(fw);
      }
    }

    /**
     Afterwards the hub holds none of the session's subscriptions, and all of everyone else's, and
     every forwarder that was still running is cancelled.
     */
    method CloseAllSubs()
      requires broker.Valid() && Owns(subs, mine, broker.hub.open)
      modifies this`subs, this`cancelled, broker`gauge, broker.hub`topics, broker.hub`open, subs.Values
      ensures broker.Valid() && Owns(subs, mine, broker.hub.open)
      ensures subs == map[] && cancelled == old(cancelled) + old(subs).Values
      ensures broker.hub.open !! mine
      ensures broker.hub.open == old(broker.hub.open - mine)
    {
      var closing := subs.Values;
      OwnsNone(subs, mine, broker.hub.open);
      subs := map[];
      CloseEach(closing);
    }

    method CloseEach(closing: set<Subscription>)
      requires broker.Valid() && closing <= broker.hub.open
      modifies this`cancelled, broker`gauge, broker.hub`topics, broker.hub`open, closing
      ensures broker.Valid() && broker.hub.open == old(broker.hub.open) - closing
      ensures cancelled == old(cancelled) + closing
    {
      var todo := closing;
      ghost var left := broker.hub.open - closing;
      while todo != {}
        invariant todo <= closing && broker.Valid() && broker.hub.open == left + todo && left !! todo
        invariant cancelled == old(cancelled) + (closing - todo)
        decreases todo
      {
        var fw :| fw in todo;
        cancelled := cancelled + {fw};
        broker.Unsubscribe(fw);
        todo := todo - {fw};
      }
    }

    /**
     The forwarder's loop, until the channel is empty or the loop is told to end. lags[i] is what the
     hub's lag counter reads when event i is handled: publishers may move it in between. The first n
     queued events are dealt with; all of them, unless the forwarder was cancelled or closed.
     */
    method Forward(sub: Subscription, fence: nat, lastLag0: nat, lags: seq<nat>) returns (lastLag: nat, n: nat)
      requires |lags| == |sub.queue|
      modifies this`out, sub`queue
      ensures n <= |old(sub.queue)| && sub.queue == old(sub.queue)[n..]
      ensures n < |old(sub.queue)| ==> sub in cancelled || sub.done
      ensures out == PushAll(old(out), Notes(sub.topic, Forwarded(old(sub.queue)[..n], fence, lags[..n], lastLag0)))
      ensures Took(old(out), Notes(sub.topic, Forwarded(old(sub.queue)[..n], fence, lags[..n], lastLag0)), out)
      ensures lastLag == Reported(old(sub.queue)[..n], fence, lags[..n], lastLag0)
    {
      lastLag, n := lastLag0, 0;
      ghost var q := sub.queue;
      PushOne(out, [], Refused(sub.topic));
      while sub.queue != []
        invariant n <= |q| && sub.queue == q[n..]
        invariant lastLag == Reported(q[..n], fence, lags[..n], lastLag0)
        invariant out == PushAll(old(out), Notes(sub.topic, Forwarded(q[..n], fence, lags[..n], lastLag0)))
        decreases |sub.queue|
      {
        if
        case sub in cancelled => return;
        case sub.done => return;
        case true =>
          var e := sub.queue[0];
          sub.queue := sub.queue[1..];
          ForwardedSnoc(q, fence, lags, lastLag0, n);
          NotesAppend(sub.topic, Forwarded(q[..n], fence, lags[..n], lastLag0),
                      ForwardedOne(e, fence, lags[n], lastLag));
          lastLag := ForwardOne(sub.topic, e, fence, lastLag, lags[n],
                                old(out), Notes(sub.topic, Forwarded(q[..n], fence, lags[..n], lastLag0)));
          n := n + 1;
      }
    }

    /** One event: skipped behind the fence, else preceded by a report when the lag has grown. */
    method ForwardOne(topic: string, e: Event, fence: nat, lastLag0: nat, lag: nat,
                      ghost out0: seq<Out>, ghost sent: seq<Out>)
      returns (lastLag: nat)
      requires out == PushAll(out0, sent)
      modifies this`out
      ensures out == PushAll(out0, sent + Notes(topic, ForwardedOne(e, fence, lag, lastLag0)))
      ensures lastLag == if e.seqno > fence && lag > lastLag0 then lag else lastLag0
    {
      lastLag := lastLag0;
      if e.seqno <= fence {
        assert sent + Notes(topic, []) == sent;
        return;
      }
      ghost var fs := sent;
      if lag > lastLag {
        PushOne(out0, fs, Note(topic, S.Lagging(lag - lastLag)));
        Send(Note(topic, S.Lagging(lag - lastLag)));
        fs := fs + [Note(topic, S.Lagging(lag - lastLag))];
        lastLag := lag;
      }
      PushOne(out0, fs, Note(topic, S.Live(e)));
      Send(Note(topic, S.Live(e)));
      assert fs + [Note(topic, S.Live(e))] == sent + Notes(topic, ForwardedOne(e, fence, lag, lastLag0));
    }
  }

  // ---- all sessions of a server ----

  /** Losing or gaining subscriptions of others leaves a session's table right. */
  lemma OwnsElsewhere(subs: map<string, Subscription>, mine: set<Subscription>, theirs: set<Subscription>,
                      open: set<Subscription>, open': set<Subscription>)
    requires Owns(subs, mine, open) && mine !! theirs && open' - theirs == open - theirs
    ensures Owns(subs, mine, open')
  {
    forall s | s in mine ensures s in open <==> s in open' {
      assert s in open - theirs <==> s in open' - theirs;
    }
  }

  class Server {
    const broker: Broker
    ghost var sessions: set<Session>

    /** Some session opened s. */
    ghost predicate Opened(s: Subscription)
      reads this, sessions
    {
      exists x :: x in sessions && s in x.mine
    }

    ghost predicate Separate()
      reads this, sessions
    {
      && (forall x :: x in sessions ==> x.broker == broker)
      && (forall x, y {:trigger x.mine, y.mine} :: x in sessions && y in sessions && x != y ==> x.mine !! y.mine)
    }

    /** Every open subscription of the hub belongs to one session, which lists it under its topic. */
    ghost predicate Valid()
      reads this, sessions, broker, broker.store, broker.hub, broker.hub.made
    {
      && broker.Valid() && Separate()
      && (forall x :: x in sessions ==> Owns(x.subs, x.mine, broker.hub.open))
      && (forall s {:trigger Opened(s)} :: s in broker.hub.open ==> Opened(s))
    }

    constructor (broker: Broker)
      requires broker.Valid() && broker.hub.open == {}
      ensures Valid() && this.broker == broker && sessions == {}
    {
      this.broker, sessions := broker, {};
    }

    method Connect() returns (x: Session)
      requires Valid()
      modifies this
      ensures Valid() && fresh(x) && sessions == old(sessions) + {x} && x.subs == map[]
    {
      x := new Session(broker);
      sessions := sessions + {x};
      forall s | s in broker.hub.open ensures Opened(s) {
        assert old(Opened(s));
        var y :| y in old(sessions) && s in old(y.mine);
        assert y in sessions && s in y.mine;
      }
    }

    method Subscribe(x: Session, topic: string, from: From, readFails: bool)
      requires Valid() && x in sessions
      modifies x, broker`gauge, broker.hub
      ensures Valid()
    {
      var sub := x.HandleSubscribe(topic, from, readFails);
      forall y | y in sessions && y != x ensures Owns(y.subs, y.mine, broker.hub.open) {
        OwnsElsewhere(y.subs, y.mine, x.mine, old(broker.hub.open), broker.hub.open);
      }
      forall s | s in broker.hub.open ensures Opened(s) {
        if s !in x.mine { assert s in old(broker.hub.open) - old(x.mine) && old(Opened(s)); }
      }
    }

    method Unsubscribe(x: Session, topic: string)
      requires Valid() && x in sessions
      modifies x, broker`gauge, broker.hub`topics, broker.hub`open, x.subs.Values
      ensures Valid()
    {
      x.HandleUnsubscribe(topic);
      forall y | y in sessions && y != x ensures Owns(y.subs, y.mine, broker.hub.open) {
        OwnsElsewhere(y.subs, y.mine, x.mine, old(broker.hub.open), broker.hub.open);
      }
      forall s | s in broker.hub.open ensures Opened(s) {
        if s !in x.mine { assert s in old(broker.hub.open) - old(x.mine) && old(Opened(s)); }
      }
    }

    /** The connection ends: everything it had open is closed, and nothing else. */
    method Disconnect(x: Session)
      requires Valid() && x in sessions
      modifies this, x, broker`gauge, broker.hub`topics, broker.hub`open, x.subs.Values
      ensures Valid() && sessions == old(sessions) - {x}
      ensures broker.hub.open == old(broker.hub.open) - old(x.mine)
    {
      x.CloseAllSubs();
      sessions := sessions - {x};
      forall y | y in sessions ensures Owns(y.subs, y.mine, broker.hub.open) {
        OwnsElsewhere(y.subs, y.mine, x.mine, old(broker.hub.open), broker.hub.open);
      }
      forall s | s in broker.hub.open ensures Opened(s) {
        if s !in x.mine { assert s in old(broker.hub.open) - old(x.mine) && old(Opened(s)); }
      }
    }

    method Publish(e: Event, id: string, now: Time) returns (r: Result<nat>)
      requires Valid()
      modifies broker.store, broker.hub.Listed(e.topic)
      ensures Valid()
      ensures r.Ok? <==> ValidTopic(e.topic) && e.kind != ""
    {
      r := broker.Publish(e, id, now);
    }

    ghost predicate Lists(x: Session, topic: string, s: Subscription)
      reads x
    {
      topic in x.subs && x.subs[topic] == s
    }

    /** Open hub subscriptions and (session, topic) table entries are in one-to-one correspondence. */
    lemma OneToOne(s: Subscription)
      requires Valid() && s in broker.hub.open
      ensures exists x :: x in sessions && Lists(x, s.topic, s)
      ensures forall x, t :: x in sessions && Lists(x, t, s) ==> t == s.topic
      ensures forall x, y :: x in sessions && y in sessions && Lists(x, s.topic, s) && Lists(y, s.topic, s) ==> x == y
    {
      assert Opened(s);
      var x :| x in sessions && s in x.mine;
      assert Lists(x, s.topic, s);
      forall y | y in sessions && Lists(y, s.topic, s) ensures y == x {
        assert s in y.mine;
      }
    }
  }
}
