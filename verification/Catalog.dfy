/** The reducers the server registers, and what folding them over a topic's log comes to. */
module Catalog {
  import opened Types
  import opened Topics
  import opened Registry
  import PullRequests
  import Builds
  import Chats
  import Jobs
  import Counters

  const MODELLED := {"pr", "build", "chat", "job", "int"}

  /** The reducer the server registers for a modelled object type. */
  function ReducerOf(ot: string): Reducer
    requires ot in MODELLED
  {
    match ot
    case "pr" => PullRequests.Reduce
    case "build" => Builds.Reduce
    case "chat" => Chats.Reduce
    case "job" => Jobs.Reduce
    case _ => Counters.Reduce
  }

  /** The table holds the server's own reducer for the type. */
  ghost predicate Standard(rs: Reducers, ot: string) { ot in MODELLED && ot in rs && rs[ot] == ReducerOf(ot) }

  /** What the whole event run of a topic comes to. */
  function Meaning(ot: string, events: seq<Event>): State
    requires ot in MODELLED
  {
    match ot
    case "pr" => PR(PullRequests.Run(events))
    case "build" => Build(Builds.Run(events))
    case "chat" => Chat(Chats.Run(events))
    case "job" => Job(Jobs.Run(events))
    case _ => IntField(Counters.Run(events))
  }

  lemma MeaningSnoc(rs: Reducers, ot: string, events: seq<Event>, e: Event)
    requires Standard(rs, ot) && ParseObjectType(e.topic) == Some(ot)
    ensures Apply(rs, if events == [] then None else Some(Meaning(ot, events)), e)
         == Applied(Some(Meaning(ot, events + [e])), true)
  {
    assert (events + [e])[..|events|] == events;
    match ot {
      case "pr" => assert PullRequests.Run(events + [e]) == PullRequests.Step(PullRequests.Run(events), e);
      case "build" => assert Builds.Run(events + [e]) == Builds.Step(Builds.Run(events), e);
      case "chat" => assert Chats.Run(events + [e]) == Chats.Step(Chats.Run(events), e);
      case "job" => assert Jobs.Run(events + [e]) == Jobs.Step(Jobs.Run(events), e);
      case _ => assert Counters.Run(events + [e]) == Counters.Step(Counters.Run(events), e);
    }
  }

  /** Folding the registry over a topic's log, byte state and all, is the typed run of its one reducer. */
  lemma {:induction false} FoldIsMeaning(rs: Reducers, t: string, ot: string, events: seq<Event>)
    requires Standard(rs, ot) && ParseObjectType(t) == Some(ot)
    requires forall k :: 0 <= k < |events| ==> events[k].topic == t
    ensures Fold(rs, events) == if events == [] then None else Some(Meaning(ot, events))
  {
    if events != [] {
      var front, e := events[..|events| - 1], events[|events| - 1];
      FoldIsMeaning(rs, t, ot, front);
      assert front + [e] == events;
      MeaningSnoc(rs, ot, front, e);
    }
  }

  /** Bytes its reducer cannot decode stand as they are, with an error; only the int field starts anew on them. */
  lemma ForeignStands(rs: Reducers, ot: string, bytes: string, e: Event)
    requires Standard(rs, ot) && ParseObjectType(e.topic) == Some(ot)
    ensures Apply(rs, Some(Foreign(bytes)), e) ==
      if ot == "int" then Applied(Some(IntField(Counters.Run([e]))), true) else Applied(Some(Foreign(bytes)), false)
  {
    assert [e][..0] == [] && Counters.Run([e]) == Counters.Step(Counters.ZeroInt(), e);
    match ot {
      case "pr" =>
      case "build" =>
      case "chat" =>
      case "job" =>
      case _ =>
    }
  }
}
