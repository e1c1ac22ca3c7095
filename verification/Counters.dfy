/** The int field: an anchored 64-bit counter. */
module Counters {
  import opened Types
  import opened Sequences

  /** A payload number as int64; anything else is not a number. */
  function NumberAsInt64(p: Payload, key: string): Option<int64> {
    if key in p && p[key].Num? then Some(p[key].n) else None
  }

  function DeltaOf(p: Payload): int64 {
    var v := NumberAsInt64(p, "delta");
    if v.Some? then v.value else 1
  }

  function ZeroInt(): IntState { IntState(0, false, 0) }

  /** The reducer's starting point: undecodable bytes are ignored and the zero value used. */
  function Decoded(raw: Option<State>): IntState {
    if raw.Some? && raw.value.IntField? then raw.value.num else ZeroInt()
  }

  function Step(s: IntState, e: Event): IntState {
    match e.kind
    case "int_set" =>
      var v := NumberAsInt64(e.payload, "value");
      if v.Some? then IntState(v.value, true, e.occurredAt) else s.(updatedAt := e.occurredAt)
    case "int_incr" => IntState(Wrap64(s.value + DeltaOf(e.payload)), true, e.occurredAt)
    case "int_decr" => IntState(Wrap64(s.value - DeltaOf(e.payload)), true, e.occurredAt)
    case "int_delete" => IntState(0, false, e.occurredAt)
    case _ => s.(updatedAt := e.occurredAt)
  }

  function Reduce(raw: Option<State>, e: Event): Option<State> {
    Some(IntField(Step(Decoded(raw), e)))
  }

  /** The reducer as the program writes it: a local state assigned field by field. */
  method Apply(raw: Option<State>, e: Event) returns (r: Option<State>)
    ensures r == Reduce(raw, e)
  {
    var s := ZeroInt();
    if raw.Some? && raw.value.IntField? { s := raw.value.num; }
    s := s.(updatedAt := e.occurredAt);
    match e.kind {
      case "int_set" =>
        var v := NumberAsInt64(e.payload, "value");
        if v.Some? {
          s := s.(value := v.value);
          s := s.(present := true);
        }
      case "int_incr" =>
        var delta: int64 := 1;
        var v := NumberAsInt64(e.payload, "delta");
        if v.Some? { delta := v.value; }
        s := s.(value := Wrap64(s.value + delta));
        s := s.(present := true);
      case "int_decr" =>
        var delta: int64 := 1;
        var v := NumberAsInt64(e.payload, "delta");
        if v.Some? { delta := v.value; }
        s := s.(value := Wrap64(s.value - delta));
        s := s.(present := true);
      case "int_delete" =>
        s := s.(value := 0);
        s := s.(present := false);
      case _ =>
    }
    r := Some(IntField(s));
  }

  // ---- runs ----

  function Run(events: seq<Event>): IntState {
    if events == [] then ZeroInt() else Step(Run(events[..|events| - 1]), events[|events| - 1])
  }

  predicate Numeric(p: Payload, key: string) { key in p && p[key].Num? }

  /** The signed amount an event adds: the number under "delta", or 1 when there is none. */
  function Delta(e: Event): int {
    var amount: int := if Numeric(e.payload, "delta") then e.payload["delta"].n else 1;
    if e.kind == "int_incr" then amount else if e.kind == "int_decr" then -amount else 0
  }

  /** An event after which the value no longer depends on what came before. */
  predicate Anchors(e: Event) { e.kind == "int_delete" || (e.kind == "int_set" && Numeric(e.payload, "value")) }

  /** What it leaves: the number set, or 0. */
  function Anchor(e: Event): int {
    if e.kind == "int_set" && Numeric(e.payload, "value") then e.payload["value"].n else 0
  }

  /** The last anchor plus the sum of the deltas after it, as a mathematical integer. */
  function Total(events: seq<Event>): int {
    if events == [] then 0
    else
      var e := events[|events| - 1];
      if Anchors(e) then Anchor(e) else Total(events[..|events| - 1]) + Delta(e)
  }

  lemma WrapStep(a: int, d: int)
    ensures Wrap64(Wrap64(a) + d) == Wrap64(a + d)
  {
    var q := (Wrap64(a) - a) / TWO64;
    assert Wrap64(a) == a + q * TWO64;
    WrapShift(a + d, q);
  }

  lemma WrapShift(a: int, q: int)
    ensures Wrap64(a + q * TWO64) == Wrap64(a)
  {
    ModShift(a + TWO63, q);
  }

  lemma {:induction false} ModShift(a: int, q: int)
    ensures (a + q * TWO64) % TWO64 == a % TWO64
    decreases if q < 0 then -q else q
  {
    if q > 0 { ModShift(a, q - 1); } else if q < 0 { ModShift(a, q + 1); }
  }

  lemma WrapSmall(a: int)
    requires -TWO63 <= a < TWO63
    ensures Wrap64(a) == a
  {
  }

  /** Wrapping at each step equals wrapping the exact total once. */
  lemma {:induction false} RunIsWrappedTotal(events: seq<Event>)
    ensures Run(events).value == Wrap64(Total(events))
  {
    if events != [] {
      var before, e := events[..|events| - 1], events[|events| - 1];
      RunIsWrappedTotal(before);
      if Anchors(e) {
        WrapSmall(Anchor(e));
      } else {
        WrapStep(Total(before), Delta(e));
      }
    }
  }

  /** An int_set with a number sets exactly that number; one without changes nothing. */
  lemma SetSets(events: seq<Event>, e: Event)
    requires e.kind == "int_set"
    ensures Run(events + [e]).value == if Numeric(e.payload, "value") then e.payload["value"].n else Run(events).value
    ensures Run(events + [e]).present == (Numeric(e.payload, "value") || Run(events).present)
  {
    assert (events + [e])[..|events|] == events;
  }

  /** Any event dates the state. */
  lemma UpdatedIsNewest(events: seq<Event>)
    ensures Run(events).updatedAt == if events == [] then 0 else events[|events| - 1].occurredAt
  {
  }

  predicate Counts(e: Event) { e.kind == "int_incr" || e.kind == "int_decr" }

  /** How an event bears on the field's existence. */
  function Existence(e: Event): Change<()> {
    if e.kind == "int_delete" then Leave(())
    else if Counts(e) || Anchors(e) then Join(())
    else Nothing
  }

  function Existences(events: seq<Event>): (r: seq<Change<()>>)
    ensures |r| == |events|
  {
    seq(|events|, i requires 0 <= i < |events| => Existence(events[i]))
  }

  /** The field exists iff it was counted or set since it was last deleted. */
  lemma {:induction false} RunExists(events: seq<Event>)
    ensures Run(events).present <==> LastJoined(Existences(events), ())
  {
    if events != [] {
      var before, e := events[..|events| - 1], events[|events| - 1];
      RunExists(before);
      assert Existences(events) == Existences(before) + [Existence(e)];
      LastJoinedSnoc(Existences(before), Existence(e), ());
    }
  }
}
