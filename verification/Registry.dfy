/** Dispatch from object type to reducer, and the fold that a topic's state must equal. */
module Registry {
  import opened Types
  import opened Topics

  /** A reducer's outcome; None is a decoding error, on which the caller's state stands. */
  type Reducer = (Option<State>, Event) -> Option<State>

  type Reducers = map<string, Reducer>

  datatype Applied = Applied(next: Option<State>, ok: bool)

  function Apply(reducers: Reducers, state: Option<State>, e: Event): Applied {
    var ot := ParseObjectType(e.topic);
    if ot.None? then Applied(state, false)
    else if ot.value !in reducers then Applied(state, true)
    else
      var r := reducers[ot.value](state, e);
      if r.None? then Applied(state, false) else Applied(r, true)
  }

  /** The state of a topic as a pure function of its event stream. */
  function Fold(reducers: Reducers, events: seq<Event>): Option<State> {
    if events == [] then None
    else Apply(reducers, Fold(reducers, events[..|events| - 1]), events[|events| - 1]).next
  }

  lemma FoldSnoc(reducers: Reducers, events: seq<Event>, e: Event)
    ensures Fold(reducers, events + [e]) == Apply(reducers, Fold(reducers, events), e).next
  {
    assert (events + [e])[..|events|] == events;
  }

  /** On one topic only the reducer of its object type matters, so dispatch is fixed for the topic's life. */
  lemma {:induction false} FoldDependsOnOneReducer(a: Reducers, b: Reducers, events: seq<Event>, topic: string)
    requires ValidTopic(topic)
    requires forall i :: 0 <= i < |events| ==> events[i].topic == topic
    requires var ot := Split(topic)[0];
      (ot in a <==> ot in b) && (ot in a ==> a[ot] == b[ot])
    ensures Fold(a, events) == Fold(b, events)
  {
    if events != [] {
      FoldDependsOnOneReducer(a, b, events[..|events| - 1], topic);
      ValidTopicHasObjectType(topic);
    }
  }

  /** A topic whose object type has no reducer never gets a state; that is no error. */
  lemma {:induction false} UnregisteredHasNoState(reducers: Reducers, events: seq<Event>, topic: string)
    requires ValidTopic(topic) && Split(topic)[0] !in reducers
    requires forall i :: 0 <= i < |events| ==> events[i].topic == topic
    ensures Fold(reducers, events) == None
    ensures events != [] ==> Apply(reducers, None, events[|events| - 1]).ok
  {
    ValidTopicHasObjectType(topic);
    if events != [] { UnregisteredHasNoState(reducers, events[..|events| - 1], topic); }
  }

  /** The table after registering in order. */
  function RegisterAll(table: Reducers, added: seq<(string, Reducer)>): Reducers {
    if added == [] then table
    else RegisterAll(table, added[..|added| - 1])[added[|added| - 1].0 := added[|added| - 1].1]
  }

  /** The newest registration of a type, or -1. */
  function LastRegistered(added: seq<(string, Reducer)>, ot: string): (i: int)
    ensures -1 <= i < |added|
    ensures i >= 0 ==> added[i].0 == ot
    ensures forall j :: i < j < |added| ==> added[j].0 != ot
  {
    if added == [] then -1
    else if added[|added| - 1].0 == ot then |added| - 1
    else LastRegistered(added[..|added| - 1], ot)
  }

  /** The last registration of a type wins; unregistered types keep their entry. */
  lemma {:induction false} RegisterAllLookup(table: Reducers, added: seq<(string, Reducer)>, ot: string)
    ensures var i := LastRegistered(added, ot);
      && (ot in RegisterAll(table, added) <==> i >= 0 || ot in table)
      && (i >= 0 ==> RegisterAll(table, added)[ot] == added[i].1)
      && (i < 0 && ot in table ==> RegisterAll(table, added)[ot] == table[ot])
  {
    if added != [] {
      RegisterAllLookup(table, added[..|added| - 1], ot);
    }
  }

  class Registry {
    var byOT: Reducers

    constructor ()
      ensures byOT == map[]
    {
      byOT := map[];
    }

    method Register(reducers: seq<(string, Reducer)>)
      modifies this
      ensures byOT == RegisterAll(old(byOT), reducers)
    {
      var i := 0;
      while i < |reducers|
        invariant 0 <= i <= |reducers|
        invariant byOT == RegisterAll(old(byOT), reducers[..i])
      {
        byOT := byOT[reducers[i].0 := reducers[i].1];
        assert reducers[..i + 1][..i] == reducers[..i];
        i := i + 1;
      }
      assert reducers[..i] == reducers;
    }
  }
}
