/** What every stored state and every live frame says, in terms of the run of the topic's one reducer. */
module States {
  import opened Types
  import opened Topics
  import opened Subscriptions
  import opened Engine
  import opened Delivery
  import opened Catalog
  import Ledger
  import Resume

  /** Outside a publish, the stored state of a modelled topic is the run of its stored events. */
  lemma StoredStateIsRun(c: Config, s: System, t: string, ot: string)
    requires Reachable(c, s) && Flight(s, t).None? && Td(s, t).events != []
    requires Standard(c.reducers, ot) && ParseObjectType(t) == Some(ot)
    ensures Td(s, t).state == Some(Meaning(ot, Td(s, t).events))
  {
    StateIsFold(c, s, t);
    assert forall k :: 0 <= k < |Td(s, t).events| ==> Td(s, t).events[k].topic == t by { Ledger.OwnerFacts(c, s, t); }
    FoldIsMeaning(c.reducers, t, ot, Td(s, t).events);
  }

  /** Every live event a subscriber is shown is a logged one with the run of the log up to it. */
  lemma LiveFrameShowsRun(c: Config, s: System, id: nat, ot: string, e: Event)
    requires Reachable(c, s) && id in s.subs && e in EventsOf(s.subs[id].lives)
    requires Standard(c.reducers, ot) && ParseObjectType(s.subs[id].topic) == Some(ot)
    ensures var events := Td(s, s.subs[id].topic).events;
      exists k :: 0 <= k < |events| && e == events[k].(state := Some(Meaning(ot, events[..k + 1])))
  {
    var q := s.subs[id]; var events := Td(s, q.topic).events;
    Resume.LiveIsOffered(c, s, id, e);
    var i: nat :| i < |q.offered| && q.offered[i] == e;
    LiveFrameCarriesFold(c, s, id, i);
    var k := q.base + i;
    assert forall j :: 0 <= j < |events| ==> events[j].topic == q.topic by { Ledger.OwnerFacts(c, s, q.topic); }
    FoldIsMeaning(c.reducers, q.topic, ot, events[..k + 1]);
  }
}
