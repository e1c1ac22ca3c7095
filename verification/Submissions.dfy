/** What becomes of a submission: over every run, what the log holds is what was submitted, filled in. */
module Submissions {
  import opened Types
  import opened Sequences
  import opened Engine
  import opened Delivery
  import Ledger

  /** What publisher pid submitted. */
  function Submitted(steps: seq<Step>, pid: nat): Option<Event> {
    if steps == [] then None
    else
      var step := steps[|steps| - 1];
      if step.Spawn? && step.pid == pid then Some(step.e) else Submitted(steps[..|steps| - 1], pid)
  }

  /** The identifier and clock reading its append was given. */
  function Supplied(steps: seq<Step>, pid: nat): Option<(string, Time)> {
    if steps == [] then None
    else
      var step := steps[|steps| - 1];
      if step.Append? && step.pid == pid then Some((step.id, step.now)) else Supplied(steps[..|steps| - 1], pid)
  }

  /** stored is e as submitted, but for its number and for what it came without. */
  ghost predicate Completes(stored: Event, e: Event, id: string, now: Time) {
    && stored.id == (if e.id != "" then e.id else id)
    && stored.occurredAt == (if e.occurredAt != 0 then e.occurredAt else now)
    && stored.topic == e.topic && stored.kind == e.kind && stored.actor == e.actor
    && stored.payload == e.payload && stored.state == e.state
  }

  ghost predicate Sourced(steps: seq<Step>, pid: nat, p: Publisher) {
    var source, supplied := Submitted(steps, pid), Supplied(steps, pid);
    && source.Some?
    && (!Stored(p) ==> p.e == source.value)
    && (Stored(p) ==> supplied.Some? && Completes(p.e, source.value, supplied.value.0, supplied.value.1))
  }

  lemma SourcedSnoc(steps: seq<Step>, step: Step, pid: nat)
    ensures Submitted(steps + [step], pid)
      == if step.Spawn? && step.pid == pid then Some(step.e) else Submitted(steps, pid)
    ensures Supplied(steps + [step], pid)
      == if step.Append? && step.pid == pid then Some((step.id, step.now)) else Supplied(steps, pid)
  {
    assert (steps + [step])[..|steps|] == steps;
  }

  /** Append stores what was submitted, with the next number and with what was missing filled in. */
  lemma AppendCompletes(c: Config, s: System, pid: nat, id: string, now: Time, s': System)
    requires Next(c, s, Append(pid, id, now), s')
    ensures pid in s.pubs && pid in s'.pubs
    ensures var e, stored := s.pubs[pid].e, s'.pubs[pid].e;
      && Completes(stored, e, id, now) && stored.seqno == Td(s, e.topic).counter + 1
      && Td(s', e.topic).events == Td(s, e.topic).events + [stored]
  {
  }

  lemma StepSources(c: Config, s: System, step: Step, s': System, steps: seq<Step>, pid: nat)
    requires Next(c, s, step, s') && pid in s'.pubs
    requires pid in s.pubs ==> Sourced(steps, pid, s.pubs[pid])
    ensures Sourced(steps + [step], pid, s'.pubs[pid])
  {
    SourcedSnoc(steps, step, pid);
  }

  lemma {:induction false} RunSources(c: Config, run: seq<System>, steps: seq<Step>, n: nat, pid: nat)
    requires IsRun(c, run, steps) && n < |run| && pid in run[n].pubs
    ensures Sourced(steps[..n], pid, run[n].pubs[pid])
  {
    if n > 0 {
      assert Next(c, run[n - 1], steps[n - 1], run[n]);
      if pid in run[n - 1].pubs { RunSources(c, run, steps, n - 1, pid); }
      StepSources(c, run[n - 1], steps[n - 1], run[n], steps[..n - 1], pid);
      assert steps[..n - 1] + [steps[n - 1]] == steps[..n];
    }
  }

  lemma {:induction false} RunReaches(c: Config, run: seq<System>, steps: seq<Step>, n: nat)
    requires IsRun(c, run, steps) && n < |run|
    ensures Reachable(c, run[n])
  {
    assert IsRun(c, run[..n + 1], steps[..n]) by {
      forall i | 0 <= i < n ensures Next(c, run[..n + 1][i], steps[..n][i], run[..n + 1][i + 1]) {
        assert Next(c, run[i], steps[i], run[i + 1]);
      }
    }
    assert run[..n + 1][|steps[..n]|] == run[n];
  }

  lemma OwnerOf(c: Config, s: System, t: string, k: nat)
    requires Reachable(c, s) && k < |Td(s, t).events|
    ensures var td := Td(s, t);
      && |td.owners| == |td.events| && Distinct(td.owners)
      && td.owners[k] in s.pubs && Stored(s.pubs[td.owners[k]])
      && s.pubs[td.owners[k]].e == td.events[k] && td.events[k].topic == t
  {
    Ledger.OwnerFacts(c, s, t);
    assert PlaceOk(s, Td(s, t).owners[k]);
  }

  /** Every logged event, in every state of every run, is the submission of its publisher, filled in. */
  lemma StoredAsSubmitted(c: Config, run: seq<System>, steps: seq<Step>, n: nat, t: string, k: nat)
    requires IsRun(c, run, steps) && n < |run| && k < |Td(run[n], t).events|
    ensures k < |Td(run[n], t).owners|
    ensures var stored, pid := Td(run[n], t).events[k], Td(run[n], t).owners[k];
      var e, given := Submitted(steps[..n], pid), Supplied(steps[..n], pid);
      && e.Some? && given.Some?
      && stored.id == (if e.value.id != "" then e.value.id else given.value.0)
      && stored.occurredAt == (if e.value.occurredAt != 0 then e.value.occurredAt else given.value.1)
      && stored.topic == e.value.topic == t && stored.kind == e.value.kind && stored.actor == e.value.actor
      && stored.payload == e.value.payload && stored.state == e.value.state
  {
    RunReaches(c, run, steps, n);
    OwnerOf(c, run[n], t, k);
    RunSources(c, run, steps, n, Td(run[n], t).owners[k]);
  }

  lemma {:induction false} SuppliedAt(steps: seq<Step>, pid: nat) returns (i: nat)
    requires Supplied(steps, pid).Some?
    ensures i < |steps| && steps[i] == Append(pid, Supplied(steps, pid).value.0, Supplied(steps, pid).value.1)
  {
    var last := |steps| - 1;
    if steps[last].Append? && steps[last].pid == pid { i := last; } else { i := SuppliedAt(steps[..last], pid); }
  }

  /** The generator's identifiers are never empty and never repeat. */
  ghost predicate FreshIds(steps: seq<Step>) {
    && (forall i :: 0 <= i < |steps| && steps[i].Append? ==> steps[i].id != "")
    && (forall i, j :: 0 <= i < j < |steps| && steps[i].Append? && steps[j].Append? ==> steps[i].id != steps[j].id)
  }

  lemma SuppliedDiffer(steps: seq<Step>, n: nat, a: nat, b: nat)
    requires n <= |steps| && FreshIds(steps) && a != b
    requires Supplied(steps[..n], a).Some? && Supplied(steps[..n], b).Some?
    ensures Supplied(steps[..n], a).value.0 != ""
    ensures Supplied(steps[..n], a).value.0 != Supplied(steps[..n], b).value.0
  {
    var i := SuppliedAt(steps[..n], a);
    var j := SuppliedAt(steps[..n], b);
    assert steps[i] == steps[..n][i] && steps[j] == steps[..n][j];
  }

  lemma OwnersDiffer(c: Config, s: System, t: string, k: nat, u: string, l: nat)
    requires Reachable(c, s) && k < |Td(s, t).events| && l < |Td(s, u).events| && (t != u || k != l)
    ensures k < |Td(s, t).owners| && l < |Td(s, u).owners| && Td(s, t).owners[k] != Td(s, u).owners[l]
  {
    OwnerOf(c, s, t, k);
    OwnerOf(c, s, u, l);
  }

  /** With such a generator, two logged events that came without an identifier have different ones, none empty. */
  lemma FilledIdsDiffer(c: Config, run: seq<System>, steps: seq<Step>, n: nat, t: string, k: nat, u: string, l: nat)
    requires IsRun(c, run, steps) && n < |run| && FreshIds(steps)
    requires k < |Td(run[n], t).events| && l < |Td(run[n], u).events| && (t != u || k != l)
    ensures k < |Td(run[n], t).owners| && l < |Td(run[n], u).owners|
    ensures var a, b := Td(run[n], t).owners[k], Td(run[n], u).owners[l];
      var came, also := Submitted(steps[..n], a), Submitted(steps[..n], b);
      && came.Some? && also.Some?
      && (came.value.id == "" ==> Td(run[n], t).events[k].id != "")
      && (came.value.id == "" && also.value.id == "" ==> Td(run[n], t).events[k].id != Td(run[n], u).events[l].id)
  {
    StoredAsSubmitted(c, run, steps, n, t, k);
    StoredAsSubmitted(c, run, steps, n, u, l);
    RunReaches(c, run, steps, n);
    OwnersDiffer(c, run[n], t, k, u, l);
    SuppliedDiffer(steps, n, Td(run[n], t).owners[k], Td(run[n], u).owners[l]);
  }
}
