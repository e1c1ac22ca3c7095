/** The refcounted callback table both clients keep: one entry a topic, dropped with its last callback. */
module CallbackTable {
  import opened Types

  datatype Entry = Entry(from: From, callbacks: set<nat>, lastSeen: nat)

  type Table = map<string, Entry>

  /** No entry outlives its callbacks. */
  ghost predicate TableOk(t: Table) {
    forall topic :: topic in t ==> t[topic].callbacks != {}
  }

  function Added(t: Table, topic: string, from: From, id: nat): (t': Table)
    ensures t'.Keys == t.Keys + {topic}
    ensures TableOk(t) ==> TableOk(t')
  {
    var e := if topic in t then t[topic] else Entry(from, {}, 0);
    t[topic := e.(callbacks := e.callbacks + {id})]
  }

  /** The callback goes; the entry goes with the last one. */
  function Removed(t: Table, topic: string, id: nat): (t': Table)
    ensures TableOk(t) ==> TableOk(t')
  {
    if topic !in t then t
    else
      var left := t[topic].callbacks - {id};
      if left == {} then t - {topic} else t[topic := t[topic].(callbacks := left)]
  }

  /** Removing the callback empties the entry. */
  predicate IsLast(t: Table, topic: string, id: nat) {
    topic in t && t[topic].callbacks - {id} == {}
  }

  lemma RemovedKeys(t: Table, topic: string, id: nat)
    ensures Removed(t, topic, id).Keys == if IsLast(t, topic, id) then t.Keys - {topic} else t.Keys
  {
  }

  /** Removing a callback that is not there changes nothing. */
  lemma RemovedAbsent(t: Table, topic: string, id: nat)
    requires TableOk(t) && (topic in t ==> id !in t[topic].callbacks)
    ensures Removed(t, topic, id) == t && !IsLast(t, topic, id)
  {
    if topic in t { assert t[topic].callbacks - {id} == t[topic].callbacks; }
  }

  /** An event moves the topic's last-seen mark forward, never back. */
  function Marked(t: Table, topic: string, seqno: nat): (t': Table)
    ensures t'.Keys == t.Keys
    ensures TableOk(t) ==> TableOk(t')
  {
    if topic in t && seqno > t[topic].lastSeen then t[topic := t[topic].(lastSeen := seqno)] else t
  }

  /** Where a reconnect asks to resume: just after the last event seen, or 0 when nothing was. */
  function After(lastSeen: nat): nat { if lastSeen > 0 then lastSeen + 1 else 0 }

  /** The same in 64-bit arithmetic. */
  function ResumePoint(lastSeen: nat): uint64 { After(lastSeen) % TWO64 }

  // ---- the table over a run of calls ----

  /** A call by some handle's owner, or an event; closing may be repeated and may name any id. */
  datatype Op = Open(topic: string, from: From) | Close(topic: string, id: nat) | Event(topic: string, seqno: nat)

  datatype Book = Book(topics: Table, nextId: nat)

  /** accepts is the client's check of the topic; an open that fails it changes nothing. */
  function Turn(b: Book, op: Op, accepts: string -> bool): Book {
    match op
    case Open(topic, from) =>
      if accepts(topic) then Book(Added(b.topics, topic, from, b.nextId + 1), b.nextId + 1) else b
    case Close(topic, id) => b.(topics := Removed(b.topics, topic, id))
    case Event(topic, seqno) => b.(topics := Marked(b.topics, topic, seqno))
  }

  function Turns(ops: seq<Op>, accepts: string -> bool): Book {
    if ops == [] then Book(map[], 0) else Turn(Turns(ops[..|ops| - 1], accepts), ops[|ops| - 1], accepts)
  }

  predicate Admits(op: Op, accepts: string -> bool) { op.Open? && accepts(op.topic) }

  /** How many opens were accepted: the id given to the last of them. */
  function Admitted(ops: seq<Op>, accepts: string -> bool): nat {
    if ops == [] then 0 else Admitted(ops[..|ops| - 1], accepts) + if Admits(ops[|ops| - 1], accepts) then 1 else 0
  }

  /** Op i opened t under this id, and no later op closes it. */
  ghost predicate HeldSince(ops: seq<Op>, accepts: string -> bool, t: string, id: nat, i: nat) {
    && i < |ops| && Admits(ops[i], accepts) && ops[i].topic == t && Admitted(ops[..i + 1], accepts) == id
    && forall j :: i < j < |ops| ==> ops[j] != Close(t, id)
  }

  /** The handle is open. */
  ghost predicate Held(ops: seq<Op>, accepts: string -> bool, t: string, id: nat) {
    exists i: nat :: HeldSince(ops, accepts, t, id, i)
  }

  ghost predicate SomeHeld(ops: seq<Op>, accepts: string -> bool, t: string) {
    exists id: nat :: Held(ops, accepts, t, id)
  }

  predicate HasCallback(b: Book, t: string, id: nat) { t in b.topics && id in b.topics[t].callbacks }

  lemma AdmittedSnoc(ops: seq<Op>, op: Op, accepts: string -> bool)
    ensures Admitted(ops + [op], accepts) == Admitted(ops, accepts) + if Admits(op, accepts) then 1 else 0
  {
    assert (ops + [op])[..|ops|] == ops;
  }

  /** One more op: a handle is open if it was and is not closed now, or is opened now. */
  lemma HeldSnoc(ops: seq<Op>, op: Op, accepts: string -> bool, t: string, id: nat)
    ensures Held(ops + [op], accepts, t, id) <==>
      (Held(ops, accepts, t, id) && op != Close(t, id))
      || (Admits(op, accepts) && op.topic == t && id == Admitted(ops, accepts) + 1)
  {
    var all, n := ops + [op], |ops|;
    AdmittedSnoc(ops, op, accepts);
    assert all[..n + 1] == all && all[n] == op;
    if i: nat :| HeldSince(all, accepts, t, id, i) {
      if i < n {
        assert all[..i + 1] == ops[..i + 1] && all[i] == ops[i];
        assert forall j :: i < j < n ==> ops[j] == all[j];
        assert HeldSince(ops, accepts, t, id, i);
      }
    }
    if Held(ops, accepts, t, id) && op != Close(t, id) {
      var i: nat :| HeldSince(ops, accepts, t, id, i);
      assert all[..i + 1] == ops[..i + 1];
      assert HeldSince(all, accepts, t, id, i);
    }
    if Admits(op, accepts) && op.topic == t && id == Admitted(ops, accepts) + 1 {
      assert HeldSince(all, accepts, t, id, n);
    }
  }

  lemma {:induction false} TurnsCount(ops: seq<Op>, accepts: string -> bool)
    ensures Turns(ops, accepts).nextId == Admitted(ops, accepts)
    ensures TableOk(Turns(ops, accepts).topics)
  {
    if ops != [] { TurnsCount(ops[..|ops| - 1], accepts); }
  }

  lemma TurnHas(b: Book, op: Op, accepts: string -> bool, t: string, id: nat)
    ensures HasCallback(Turn(b, op, accepts), t, id) <==>
      (HasCallback(b, t, id) && op != Close(t, id)) || (Admits(op, accepts) && op.topic == t && id == b.nextId + 1)
  {
  }

  /** The table over any run of calls: an entry's callbacks are exactly the handles open on its topic. */
  lemma {:induction false} HeldIff(ops: seq<Op>, accepts: string -> bool, t: string, id: nat)
    ensures HasCallback(Turns(ops, accepts), t, id) <==> Held(ops, accepts, t, id)
  {
    if ops == [] {
      assert !exists i: nat :: HeldSince(ops, accepts, t, id, i);
    } else {
      var n := |ops| - 1;
      HeldIff(ops[..n], accepts, t, id);
      TurnsCount(ops[..n], accepts);
      HeldSnoc(ops[..n], ops[n], accepts, t, id);
      TurnHas(Turns(ops[..n], accepts), ops[n], accepts, t, id);
      assert ops == ops[..n] + [ops[n]];
    }
  }

  /** A topic has an entry exactly while some handle is open on it. */
  lemma EnteredIff(ops: seq<Op>, accepts: string -> bool, t: string)
    ensures t in Turns(ops, accepts).topics <==> SomeHeld(ops, accepts, t)
  {
    TurnsCount(ops, accepts);
    var topics := Turns(ops, accepts).topics;
    if t in topics {
      var id :| id in topics[t].callbacks;
      HeldIff(ops, accepts, t, id);
    }
    if SomeHeld(ops, accepts, t) {
      var id: nat :| Held(ops, accepts, t, id);
      HeldIff(ops, accepts, t, id);
    }
  }

  /** A close takes the last handle of its topic exactly when its own is open and no other is. */
  lemma LastIff(ops: seq<Op>, accepts: string -> bool, t: string, id: nat)
    ensures IsLast(Turns(ops, accepts).topics, t, id) <==>
      Held(ops, accepts, t, id) && forall other: nat :: other != id ==> !Held(ops, accepts, t, other)
  {
    TurnsCount(ops, accepts);
    var b := Turns(ops, accepts);
    HeldIff(ops, accepts, t, id);
    forall other: nat ensures HasCallback(b, t, other) <==> Held(ops, accepts, t, other) {
      HeldIff(ops, accepts, t, other);
    }
    if IsLast(b.topics, t, id) {
      assert forall other: nat :: other != id && HasCallback(b, t, other) ==> other in b.topics[t].callbacks - {id};
    } else if HasCallback(b, t, id) {
      var other :| other in b.topics[t].callbacks - {id};
      assert HasCallback(b, t, other);
    }
  }

  /** Equally, no handle is open on the topic after it. */
  lemma ClosesLastIff(ops: seq<Op>, accepts: string -> bool, t: string, id: nat)
    ensures IsLast(Turns(ops, accepts).topics, t, id) <==>
      Held(ops, accepts, t, id) && !SomeHeld(ops + [Close(t, id)], accepts, t)
  {
    LastIff(ops, accepts, t, id);
    forall other: nat ensures Held(ops + [Close(t, id)], accepts, t, other) <==>
      Held(ops, accepts, t, other) && other != id
    {
      HeldSnoc(ops, Close(t, id), accepts, t, other);
    }
  }

  // ---- what an entry holds besides ----

  /** The highest number among the events of t, or 0. */
  function HighestSeen(ops: seq<Op>, t: string): (r: nat)
    ensures forall i :: 0 <= i < |ops| && ops[i].Event? && ops[i].topic == t ==> ops[i].seqno <= r
    ensures r > 0 ==> exists i :: 0 <= i < |ops| && ops[i] == Op.Event(t, r)
  {
    if ops == [] then 0
    else
      var op, before := ops[|ops| - 1], HighestSeen(ops[..|ops| - 1], t);
      if op.Event? && op.topic == t && op.seqno > before then op.seqno else before
  }

  /** Op i entered t in the table, and t has not left it since. */
  ghost predicate EnteredAt(ops: seq<Op>, accepts: string -> bool, t: string, i: nat) {
    && i < |ops| && Admits(ops[i], accepts) && ops[i].topic == t && !SomeHeld(ops[..i], accepts, t)
    && forall j {:trigger ops[..j]} :: i < j <= |ops| ==> SomeHeld(ops[..j], accepts, t)
  }

  /** An entry keeps the seed of the open that entered it, and the highest number seen since. */
  lemma {:induction false} EntryOf(ops: seq<Op>, accepts: string -> bool, t: string) returns (i: nat)
    requires t in Turns(ops, accepts).topics
    ensures EnteredAt(ops, accepts, t, i)
    ensures Turns(ops, accepts).topics[t].from == ops[i].from
    ensures Turns(ops, accepts).topics[t].lastSeen == HighestSeen(ops[i..], t)
  {
    var n := |ops| - 1;
    EnteredIff(ops, accepts, t);
    if t in Turns(ops[..n], accepts).topics {
      i := EntryOf(ops[..n], accepts, t);
      StaysEntered(ops, accepts, t, i);
      EntryMarked(Turns(ops[..n], accepts), ops[n], accepts, t);
      HighestSeenSnoc(ops[i..n], ops[n], t);
      assert ops[..n][i..] == ops[i..n] && ops[i..n] + [ops[n]] == ops[i..];
    } else {
      i := n;
      EntersNow(ops, accepts, t);
    }
  }

  /** What one op does to an entry that stays. */
  lemma EntryMarked(b: Book, op: Op, accepts: string -> bool, t: string)
    requires t in b.topics && t in Turn(b, op, accepts).topics
    ensures var was, now := b.topics[t], Turn(b, op, accepts).topics[t];
      && now.from == was.from
      && now.lastSeen == if op.Event? && op.topic == t && op.seqno > was.lastSeen then op.seqno else was.lastSeen
  {
  }

  lemma EntersNow(ops: seq<Op>, accepts: string -> bool, t: string)
    requires ops != [] && t in Turns(ops, accepts).topics && t !in Turns(ops[..|ops| - 1], accepts).topics
    ensures var i := |ops| - 1;
      && EnteredAt(ops, accepts, t, i)
      && Turns(ops, accepts).topics[t].from == ops[i].from
      && Turns(ops, accepts).topics[t].lastSeen == HighestSeen(ops[i..], t) == 0
  {
    var n := |ops| - 1;
    EnteredIff(ops, accepts, t);
    EnteredIff(ops[..n], accepts, t);
    assert Admits(ops[n], accepts) && ops[n].topic == t;
    assert ops[..|ops|] == ops && ops[n..] == [ops[n]];
    assert HighestSeen([ops[n]], t) == 0 by { assert [ops[n]][..0] == []; }
  }

  lemma StaysEntered(ops: seq<Op>, accepts: string -> bool, t: string, i: nat)
    requires ops != [] && EnteredAt(ops[..|ops| - 1], accepts, t, i) && SomeHeld(ops, accepts, t)
    ensures EnteredAt(ops, accepts, t, i)
  {
    var front := ops[..|ops| - 1];
    assert front[..i] == ops[..i];
    forall j | i < j <= |ops| ensures SomeHeld(ops[..j], accepts, t) {
      if j < |ops| { assert front[..j] == ops[..j]; } else { assert ops[..j] == ops; }
    }
  }

  lemma HighestSeenSnoc(ops: seq<Op>, op: Op, t: string)
    ensures HighestSeen(ops + [op], t)
      == if op.Event? && op.topic == t && op.seqno > HighestSeen(ops, t) then op.seqno else HighestSeen(ops, t)
  {
    assert (ops + [op])[..|ops|] == ops;
  }
}
