/** The build reducer: named steps that open, close first-in first-out, and time themselves. */
module Builds {
  import opened Types
  import opened Sequences

  const RUNNING := "running"

  function Zero(): BuildState { BuildState("", "", [], 0, 0, 0, map[]) }

  /** Duration.Milliseconds(): nanoseconds truncated toward zero. */
  function Millis(ns: int): int {
    if ns >= 0 then ns / 1_000_000 else -((-ns) / 1_000_000)
  }

  lemma MillisTruncates(ns: int)
    ensures var ms := Millis(ns);
      && (ns >= 0 ==> 0 <= ms && ms * 1_000_000 <= ns < (ms + 1) * 1_000_000)
      && (ns < 0 ==> ms <= 0 && (ms - 1) * 1_000_000 < ns <= ms * 1_000_000)
  {
  }

  function StatusOf(p: Payload): string {
    if GetStr(p, "status") == "" then "success" else GetStr(p, "status")
  }

  predicate Open(step: BuildStep, name: string) { step.name == name && step.status == RUNNING }

  /** The first running step of a name, or the number of steps. */
  function FirstOpen(steps: seq<BuildStep>, name: string): (i: nat)
    ensures i <= |steps|
    ensures i < |steps| ==> Open(steps[i], name)
    ensures forall j :: 0 <= j < i ==> !Open(steps[j], name)
  {
    if steps == [] || Open(steps[0], name) then 0 else 1 + FirstOpen(steps[1..], name)
  }

  function Close(steps: seq<BuildStep>, name: string, status: string, dur: int): seq<BuildStep> {
    var i := FirstOpen(steps, name);
    if i < |steps| then steps[i := BuildStep(steps[i].name, status, dur)] else steps
  }

  function DurationOf(s: BuildState, name: string, now: Time): int {
    if name in s.stepStarts then Millis(now - s.stepStarts[name]) else 0
  }

  function Step(s: BuildState, e: Event): BuildState {
    match e.kind
    case "build_queued" => s.(status := "queued")
    case "build_started" => s.(status := RUNNING, startedAt := e.occurredAt)
    case "step_started" =>
      var name := GetStr(e.payload, "step");
      s.(currentStep := name, stepStarts := s.stepStarts[name := e.occurredAt],
         steps := s.steps + [BuildStep(name, RUNNING, 0)])
    case "step_finished" =>
      var name := GetStr(e.payload, "step");
      s.(steps := Close(s.steps, name, StatusOf(e.payload), DurationOf(s, name, e.occurredAt)),
         stepStarts := s.stepStarts - {name},
         currentStep := if s.currentStep == name then "" else s.currentStep)
    case "build_finished" =>
      s.(status := StatusOf(e.payload), finishedAt := e.occurredAt,
         durationMs := if s.startedAt != 0 then Millis(e.occurredAt - s.startedAt) else s.durationMs)
    case _ => s
  }

  function Reduce(raw: Option<State>, e: Event): Option<State> {
    if raw.None? then Some(Build(Step(Zero(), e)))
    else if raw.value.Build? then Some(Build(Step(raw.value.build, e)))
    else None
  }

  /** The reducer as the program writes it. */
  method Apply(raw: Option<State>, e: Event) returns (r: Option<State>)
    ensures r == Reduce(raw, e)
  {
    var s := Zero();
    if raw.Some? {
      if !raw.value.Build? { return None; }
      s := raw.value.build;
    }
    match e.kind {
      case "build_queued" =>
        s := s.(status := "queued");
      case "build_started" =>
        s := s.(status := RUNNING);
        s := s.(startedAt := e.occurredAt);
      case "step_started" =>
        var name := GetStr(e.payload, "step");
        s := s.(currentStep := name);
        s := s.(stepStarts := s.stepStarts[name := e.occurredAt]);
        s := s.(steps := s.steps + [BuildStep(name, RUNNING, 0)]);
      case "step_finished" =>
        var name := GetStr(e.payload, "step");
        var status := GetStr(e.payload, "status");
        if status == "" { status := "success"; }
        var dur := 0;
        if name in s.stepStarts {
          dur := Millis(e.occurredAt - s.stepStarts[name]);
        }
        s := s.(stepStarts := s.stepStarts - {name});
        var steps := CloseFirst(s.steps, name, status, dur);
        s := s.(steps := steps);
        if s.currentStep == name { s := s.(currentStep := ""); }
      case "build_finished" =>
        var status := GetStr(e.payload, "status");
        if status == "" { status := "success"; }
        s := s.(status := status);
        s := s.(finishedAt := e.occurredAt);
        if s.startedAt != 0 { s := s.(durationMs := Millis(s.finishedAt - s.startedAt)); }
      case _ =>
    }
    r := Some(Build(s));
  }

  /** The loop over Steps: update the first match in place and break. */
  method CloseFirst(steps0: seq<BuildStep>, name: string, status: string, dur: int) returns (steps: seq<BuildStep>)
    ensures steps == Close(steps0, name, status, dur)
  {
    steps := steps0;
    var i := 0;
    while i < |steps|
      invariant 0 <= i <= |steps|
      invariant steps == steps0
      invariant forall j :: 0 <= j < i ==> !Open(steps0[j], name)
    {
      if steps[i].name == name && steps[i].status == RUNNING {
        steps := steps[i := BuildStep(steps[i].name, status, dur)];
        return;
      }
      i := i + 1;
    }
  }

  // ---- runs ----

  function Run(events: seq<Event>): BuildState {
    if events == [] then Zero() else Step(Run(events[..|events| - 1]), events[|events| - 1])
  }

  /** The names started, in order, and when. */
  function Started(events: seq<Event>): seq<(string, Time)> {
    if events == [] then [] else Started(events[..|events| - 1]) + StartIn(events[|events| - 1])
  }

  function StartIn(e: Event): seq<(string, Time)> {
    if e.kind == "step_started" then [(GetStr(e.payload, "step"), e.occurredAt)] else []
  }

  /** +1 when a step of this name starts, -1 when one finishes with a status that closes it. */
  function Signal(e: Event, name: string): int {
    if GetStr(e.payload, "step") != name then 0
    else if e.kind == "step_started" then 1
    else if e.kind == "step_finished" && GetStr(e.payload, "status") != "running" then -1
    else 0
  }

  function Signals(events: seq<Event>, name: string): (r: seq<int>)
    ensures |r| == |events|
  {
    seq(|events|, i requires 0 <= i < |events| => Signal(events[i], name))
  }

  function OpenCount(steps: seq<BuildStep>, name: string): nat {
    if steps == [] then 0 else OpenCount(steps[..|steps| - 1], name) + if Open(steps[|steps| - 1], name) then 1 else 0
  }

  lemma {:induction false} OpenCountUpdate(steps: seq<BuildStep>, i: nat, step: BuildStep, name: string)
    requires i < |steps|
    ensures OpenCount(steps[i := step], name) ==
      OpenCount(steps, name) - (if Open(steps[i], name) then 1 else 0) + (if Open(step, name) then 1 else 0)
  {
    var n := |steps| - 1;
    if i < n {
      OpenCountUpdate(steps[..n], i, step, name);
      assert steps[i := step][..n] == steps[..n][i := step];
    } else {
      assert steps[i := step][..n] == steps[..n];
    }
  }

  lemma {:induction false} OpenCountZero(steps: seq<BuildStep>, name: string)
    ensures OpenCount(steps, name) == 0 <==> FirstOpen(steps, name) == |steps|
  {
    if steps != [] {
      var front := steps[..|steps| - 1];
      OpenCountZero(front, name);
      assert forall j :: 0 <= j < |front| ==> front[j] == steps[j];
    }
  }

  /** Closing takes one off its own name's count, unless there is nothing to close or it stays running. */
  lemma CloseCounts(steps: seq<BuildStep>, name: string, status: string, dur: int, other: string)
    ensures OpenCount(Close(steps, name, status, dur), other) ==
      if other == name && status != RUNNING && OpenCount(steps, name) > 0
      then OpenCount(steps, other) - 1 else OpenCount(steps, other)
  {
    var i := FirstOpen(steps, name);
    OpenCountZero(steps, name);
    if i < |steps| {
      OpenCountUpdate(steps, i, BuildStep(steps[i].name, status, dur), other);
    }
  }

  lemma OpenCountSnoc(steps: seq<BuildStep>, step: BuildStep, name: string)
    ensures OpenCount(steps + [step], name) == OpenCount(steps, name) + if Open(step, name) then 1 else 0
  {
    assert (steps + [step])[..|steps|] == steps;
  }

  lemma StepCounts(s: BuildState, e: Event, name: string)
    ensures OpenCount(Step(s, e).steps, name) ==
      if OpenCount(s.steps, name) + Signal(e, name) > 0 then OpenCount(s.steps, name) + Signal(e, name) else 0
  {
    var own := GetStr(e.payload, "step");
    if e.kind == "step_started" {
      OpenCountSnoc(s.steps, BuildStep(own, RUNNING, 0), name);
    } else if e.kind == "step_finished" {
      CloseCounts(s.steps, own, StatusOf(e.payload), DurationOf(s, own, e.occurredAt), name);
    }
  }

  /**
   Per name, the number of running steps is the clamped walk of starts minus closing finishes: the
   greatest net of any suffix of the run.
   */
  lemma {:induction false} RunningIsReflectedWalk(events: seq<Event>, name: string)
    ensures OpenCount(Run(events).steps, name) == Reflect(Signals(events, name))
    ensures forall k :: 0 <= k <= |events| ==> Sum(Signals(events, name)[k..]) <= OpenCount(Run(events).steps, name)
  {
    if events != [] {
      var before, e := events[..|events| - 1], events[|events| - 1];
      RunningIsReflectedWalk(before, name);
      StepCounts(Run(before), e, name);
      assert Signals(events, name) == Signals(before, name) + [Signal(e, name)];
      ReflectSnoc(Signals(before, name), Signal(e, name));
    }
    ReflectIsGreatestSuffix(Signals(events, name));
  }

  // ---- order ----

  /** Among steps of one name, the running ones come last: steps close first-in first-out. */
  ghost predicate Fifo(steps: seq<BuildStep>) {
    forall i, j :: 0 <= i < j < |steps| && steps[i].name == steps[j].name && steps[i].status == RUNNING ==>
      steps[j].status == RUNNING
  }

  ghost predicate NamesMatch(steps: seq<BuildStep>, started: seq<(string, Time)>) {
    |steps| == |started| && forall i :: 0 <= i < |steps| ==> steps[i].name == started[i].0
  }

  lemma CloseKeepsOrder(steps: seq<BuildStep>, name: string, status: string, dur: int, started: seq<(string, Time)>)
    requires Fifo(steps) && NamesMatch(steps, started)
    ensures Fifo(Close(steps, name, status, dur)) && NamesMatch(Close(steps, name, status, dur), started)
  {
  }

  lemma StepKeepsOrder(s: BuildState, started: seq<(string, Time)>, e: Event)
    requires Fifo(s.steps) && NamesMatch(s.steps, started)
    ensures Fifo(Step(s, e).steps) && NamesMatch(Step(s, e).steps, started + StartIn(e))
  {
    if e.kind == "step_started" {
      assert Step(s, e).steps == s.steps + [BuildStep(GetStr(e.payload, "step"), RUNNING, 0)];
    } else {
      assert started + StartIn(e) == started;
      if e.kind == "step_finished" {
        var own := GetStr(e.payload, "step");
        CloseKeepsOrder(s.steps, own, StatusOf(e.payload), DurationOf(s, own, e.occurredAt), started);
      }
    }
  }

  /** Steps lists the started names in order, and closes each name's steps oldest first. */
  lemma {:induction false} StepsInOrder(events: seq<Event>)
    ensures NamesMatch(Run(events).steps, Started(events))
    ensures Fifo(Run(events).steps)
  {
    if events != [] {
      StepsInOrder(events[..|events| - 1]);
      StepKeepsOrder(Run(events[..|events| - 1]), Started(events[..|events| - 1]), events[|events| - 1]);
    }
  }

  // ---- start times ----

  /** time is when the newest of the started steps called name began, and that step is still running. */
  ghost predicate NewestOpen(steps: seq<BuildStep>, started: seq<(string, Time)>, name: string, time: Time)
    requires |steps| == |started|
  {
    exists i :: 0 <= i < |steps| && started[i] == (name, time) && Open(steps[i], name)
      && forall j :: i < j < |steps| ==> started[j].0 != name
  }

  ghost predicate StartsOk(s: BuildState, started: seq<(string, Time)>)
    requires |s.steps| == |started|
  {
    && (forall name :: name in s.stepStarts ==> NewestOpen(s.steps, started, name, s.stepStarts[name]))
    && (s.currentStep != "" ==> s.currentStep in s.stepStarts)
  }

  lemma StartKeepsStarts(s: BuildState, started: seq<(string, Time)>, e: Event)
    requires NamesMatch(s.steps, started) && StartsOk(s, started) && e.kind == "step_started"
    ensures StartsOk(Step(s, e), started + [(GetStr(e.payload, "step"), e.occurredAt)])
  {
    var own := GetStr(e.payload, "step");
    var s', started' := Step(s, e), started + [(own, e.occurredAt)];
    forall name | name in s'.stepStarts ensures NewestOpen(s'.steps, started', name, s'.stepStarts[name]) {
      if name == own {
        assert started'[|started|] == (own, e.occurredAt) && Open(s'.steps[|started|], own);
      } else {
        assert NewestOpen(s.steps, started, name, s.stepStarts[name]);
        var i :| 0 <= i < |s.steps| && started[i] == (name, s.stepStarts[name]) && Open(s.steps[i], name)
          && forall j :: i < j < |s.steps| ==> started[j].0 != name;
        assert started'[i] == (name, s'.stepStarts[name]) && Open(s'.steps[i], name);
      }
    }
  }

  lemma FinishKeepsStarts(s: BuildState, started: seq<(string, Time)>, e: Event)
    requires NamesMatch(s.steps, started) && StartsOk(s, started) && e.kind == "step_finished"
    ensures StartsOk(Step(s, e), started)
  {
    var s' := Step(s, e);
    forall name | name in s'.stepStarts ensures NewestOpen(s'.steps, started, name, s'.stepStarts[name]) {
      assert NewestOpen(s.steps, started, name, s.stepStarts[name]);
      var i :| 0 <= i < |s.steps| && started[i] == (name, s.stepStarts[name]) && Open(s.steps[i], name)
        && forall j :: i < j < |s.steps| ==> started[j].0 != name;
      assert Open(s'.steps[i], name);
    }
  }

  lemma StepKeepsStarts(s: BuildState, started: seq<(string, Time)>, e: Event)
    requires NamesMatch(s.steps, started) && StartsOk(s, started)
    ensures |Step(s, e).steps| == |started + StartIn(e)| && StartsOk(Step(s, e), started + StartIn(e))
  {
    if e.kind == "step_started" {
      StartKeepsStarts(s, started, e);
    } else {
      assert started + StartIn(e) == started;
      if e.kind == "step_finished" { FinishKeepsStarts(s, started, e); }
    }
  }

  /** Every key of stepStarts is the start of its name's newest step, still running; the current step has a key. */
  lemma {:induction false} StartsFollowRunning(events: seq<Event>)
    ensures |Run(events).steps| == |Started(events)| && StartsOk(Run(events), Started(events))
  {
    if events != [] {
      var before, e := events[..|events| - 1], events[|events| - 1];
      StartsFollowRunning(before);
      StepsInOrder(before);
      StepKeepsStarts(Run(before), Started(before), e);
    }
  }

  /**
   What a finish times: the elapsed time since the name's newest start. It is the closed step's own
   time when that step is the only one of its name still running.
   */
  lemma DurationIsOwn(events: seq<Event>, s: BuildState, started: seq<(string, Time)>, name: string, now: Time)
    requires s == Run(events) && started == Started(events)
    requires name in s.stepStarts && OpenCount(s.steps, name) == 1
    ensures var i := FirstOpen(s.steps, name);
      && i < |s.steps| && |s.steps| == |started|
      && DurationOf(s, name, now) == Millis(now - started[i].1)
  {
    assert |s.steps| == |started| && StartsOk(s, started) by { StartsFollowRunning(events); }
    OwnTime(s, started, name, now);
  }

  lemma OwnTime(s: BuildState, started: seq<(string, Time)>, name: string, now: Time)
    requires |s.steps| == |started| && StartsOk(s, started)
    requires name in s.stepStarts && OpenCount(s.steps, name) == 1
    ensures var i := FirstOpen(s.steps, name);
      i < |s.steps| && DurationOf(s, name, now) == Millis(now - started[i].1)
  {
    assert NewestOpen(s.steps, started, name, s.stepStarts[name]);
    var i :| 0 <= i < |s.steps| && started[i] == (name, s.stepStarts[name]) && Open(s.steps[i], name)
      && forall j :: i < j < |s.steps| ==> started[j].0 != name;
    OnlyOpen(s.steps, name, i);
  }

  lemma OnlyOpen(steps: seq<BuildStep>, name: string, i: nat)
    requires OpenCount(steps, name) == 1 && i < |steps| && Open(steps[i], name)
    ensures FirstOpen(steps, name) == i
  {
    if FirstOpen(steps, name) < i { TwoOpen(steps, name, FirstOpen(steps, name), i); }
  }

  lemma TwoOpen(steps: seq<BuildStep>, name: string, f: nat, i: nat)
    requires f < i < |steps| && Open(steps[f], name) && Open(steps[i], name)
    ensures OpenCount(steps, name) >= 2
  {
    var closed := BuildStep(name, "", 0);
    OpenCountUpdate(steps, f, closed, name);
    OpenCountZero(steps[f := closed], name);
    assert Open(steps[f := closed][i], name);
  }

  /** Step i is the one whose start stepStarts remembers under name. */
  ghost predicate Remembered(s: BuildState, started: seq<(string, Time)>, name: string, i: nat)
    requires |s.steps| == |started|
  {
    && i < |s.steps| && name in s.stepStarts && started[i] == (name, s.stepStarts[name]) && Open(s.steps[i], name)
    && forall j :: i < j < |s.steps| ==> started[j].0 != name
  }

  lemma RememberedSomewhere(events: seq<Event>, name: string) returns (i: nat)
    requires name in Run(events).stepStarts
    ensures |Run(events).steps| == |Started(events)| && Remembered(Run(events), Started(events), name, i)
  {
    var s, started := Run(events), Started(events);
    StartsFollowRunning(events);
    assert NewestOpen(s.steps, started, name, s.stepStarts[name]);
    i :| i < |s.steps| && started[i] == (name, s.stepStarts[name]) && Open(s.steps[i], name)
      && forall j :: i < j < |s.steps| ==> started[j].0 != name;
  }

  /** Of the remembered step and the one a finish closes: they are the same iff it alone is running. */
  lemma FirstIsRememberedIff(events: seq<Event>, name: string)
    requires name in Run(events).stepStarts
    ensures var s, started := Run(events), Started(events);
      && |s.steps| == |started|
      && (Remembered(s, started, name, FirstOpen(s.steps, name)) <==> OpenCount(s.steps, name) == 1)
  {
    var s, started := Run(events), Started(events);
    var i := RememberedSomewhere(events, name);
    if OpenCount(s.steps, name) == 1 {
      OnlyOpen(s.steps, name, i);
    } else if FirstOpen(s.steps, name) == i {
      StepsInOrder(events);
      OnlyOneOpen(s.steps, name, i);
    }
  }

  lemma OnlyOneOpen(steps: seq<BuildStep>, name: string, i: nat)
    requires i < |steps| && Open(steps[i], name) && FirstOpen(steps, name) == i
    requires forall j :: i < j < |steps| ==> steps[j].name != name
    ensures OpenCount(steps, name) == 1
  {
    var closed := BuildStep(name, "", 0);
    var after := steps[i := closed];
    OpenCountUpdate(steps, i, closed, name);
    assert forall j :: 0 <= j < |after| ==> !Open(after[j], name);
    OpenCountZero(after, name);
  }

  /** The start of a name that no later event started or finished again. */
  function LastStart(events: seq<Event>, name: string): Option<Time> {
    if events == [] then None
    else
      var e := events[|events| - 1];
      if GetStr(e.payload, "step") != name then LastStart(events[..|events| - 1], name)
      else if e.kind == "step_started" then Some(e.occurredAt)
      else if e.kind == "step_finished" then None
      else LastStart(events[..|events| - 1], name)
  }

  /** What a finish records, in closed form: the time since such a start, or 0. */
  lemma {:induction false} DurationClosedForm(events: seq<Event>, name: string, now: Time)
    ensures LastStart(events, name).None? ==> DurationOf(Run(events), name, now) == 0
    ensures LastStart(events, name).Some? ==>
      DurationOf(Run(events), name, now) == Millis(now - LastStart(events, name).value)
  {
    StartsAreLast(events, name);
  }

  lemma {:induction false} StartsAreLast(events: seq<Event>, name: string)
    ensures name in Run(events).stepStarts <==> LastStart(events, name).Some?
    ensures name in Run(events).stepStarts ==> LastStart(events, name) == Some(Run(events).stepStarts[name])
  {
    if events != [] { StartsAreLast(events[..|events| - 1], name); }
  }

  /**
   Exactly when a finish times the step it closes, in terms of the events alone: the name was started
   and not finished since, and its starts outnumber its finishes by one, never counting below zero.
   Then the duration recorded is that step's own.
   */
  lemma {:induction false} ClosesTimedStepIff(events: seq<Event>, name: string, now: Time)
    requires Reflect(Signals(events, name)) > 0
    ensures var s, started := Run(events), Started(events); var i := FirstOpen(s.steps, name);
      && i < |s.steps| == |started|
      && (Remembered(s, started, name, i) <==> LastStart(events, name).Some? && Reflect(Signals(events, name)) == 1)
      && (Remembered(s, started, name, i) ==> DurationOf(s, name, now) == Millis(now - started[i].1))
      && (LastStart(events, name).None? ==> DurationOf(s, name, now) == 0)
  {
    StartsAreLast(events, name);
    RunningIsReflectedWalk(events, name);
    OpenCountZero(Run(events).steps, name);
    StartsFollowRunning(events);
    if name in Run(events).stepStarts { FirstIsRememberedIff(events, name); }
  }

  function Timed(kind: string, t: Time): Event {
    Event("", "build/ci", kind, 0, t, "", map["step" := Text("test")], None)
  }

  lemma RunSnoc(events: seq<Event>, e: Event)
    ensures Run(events + [e]) == Step(Run(events), e)
  {
    assert (events + [e])[..|events|] == events;
  }

  /** Two overlapping steps of one name: the first to finish is timed from the second's start, the second not at all. */
  lemma OverlapMistimes()
    ensures Run([Timed("step_started", 1_000_000), Timed("step_started", 5_000_000),
                 Timed("step_finished", 9_000_000), Timed("step_finished", 12_000_000)]).steps
      == [BuildStep("test", "success", 4), BuildStep("test", "success", 0)]
  {
    var e1, e2 := Timed("step_started", 1_000_000), Timed("step_started", 5_000_000);
    var e3, e4 := Timed("step_finished", 9_000_000), Timed("step_finished", 12_000_000);
    RunSnoc([], e1);
    RunSnoc([e1], e2);
    RunSnoc([e1, e2], e3);
    RunSnoc([e1, e2, e3], e4);
    OverlapStarted(e1, e2);
    OverlapFinished(Step(Step(Zero(), e1), e2), e3, e4);
    assert [] + [e1] == [e1] && [e1] + [e2] == [e1, e2];
    assert [e1, e2] + [e3] == [e1, e2, e3] && [e1, e2, e3] + [e4] == [e1, e2, e3, e4];
  }

  function StillRunning(t: Time): Event {
    Timed("step_finished", t).(payload := map["step" := Text("test"), "status" := Text(RUNNING)])
  }

  /** No overlap at all: a finish that reports the step still running forgets its start, so the next one records 0. */
  lemma RunningFinishMistimes()
    ensures Run([Timed("step_started", 1_000_000), StillRunning(5_000_000), Timed("step_finished", 9_000_000)]).steps
      == [BuildStep("test", "success", 0)]
  {
    var e1, e3 := Timed("step_started", 1_000_000), Timed("step_finished", 9_000_000);
    var e2 := StillRunning(5_000_000);
    RunSnoc([], e1);
    RunSnoc([e1], e2);
    RunSnoc([e1, e2], e3);
    assert [] + [e1] == [e1] && [e1] + [e2] == [e1, e2] && [e1, e2] + [e3] == [e1, e2, e3];
    var s1 := Step(Zero(), e1);
    assert s1.steps == [BuildStep("test", RUNNING, 0)] && FirstOpen(s1.steps, "test") == 0;
    var s2 := Step(s1, e2);
    assert s2.steps == [BuildStep("test", RUNNING, 4)] && FirstOpen(s2.steps, "test") == 0;
    assert "test" !in s2.stepStarts;
  }

  lemma OverlapStarted(e1: Event, e2: Event)
    requires e1 == Timed("step_started", 1_000_000) && e2 == Timed("step_started", 5_000_000)
    ensures var s := Step(Step(Zero(), e1), e2);
      && s.steps == [BuildStep("test", RUNNING, 0), BuildStep("test", RUNNING, 0)]
      && s.stepStarts == map["test" := 5_000_000]
  {
  }

  lemma OverlapFinished(s: BuildState, e3: Event, e4: Event)
    requires s.steps == [BuildStep("test", RUNNING, 0), BuildStep("test", RUNNING, 0)]
    requires s.stepStarts == map["test" := 5_000_000]
    requires e3 == Timed("step_finished", 9_000_000) && e4 == Timed("step_finished", 12_000_000)
    ensures Step(Step(s, e3), e4).steps == [BuildStep("test", "success", 4), BuildStep("test", "success", 0)]
  {
    var s3 := Step(s, e3);
    assert FirstOpen(s.steps, "test") == 0;
    assert s3.steps == [BuildStep("test", "success", 4), BuildStep("test", RUNNING, 0)];
    assert "test" !in s3.stepStarts;
    assert FirstOpen(s3.steps, "test") == 1;
  }

  // ---- the build as a whole ----

  function StatusSaid(e: Event): Option<string> {
    match e.kind
    case "build_queued" => Some("queued")
    case "build_started" => Some("running")
    case "build_finished" =>
      Some(if GetStr(e.payload, "status") != "" then GetStr(e.payload, "status") else "success")
    case _ => None
  }

  function StartSaid(e: Event): Option<Time> { TimeOf(e, "build_started") }

  function EndSaid(e: Event): Option<Time> { TimeOf(e, "build_finished") }

  lemma FieldsStep(s: BuildState, e: Event)
    ensures var s' := Step(s, e);
      && s'.status == (if StatusSaid(e).Some? then StatusSaid(e).value else s.status)
      && s'.startedAt == (if StartSaid(e).Some? then StartSaid(e).value else s.startedAt)
      && s'.finishedAt == (if EndSaid(e).Some? then EndSaid(e).value else s.finishedAt)
  {
  }

  /** Status, start and end are the newest reported; right after an end, the duration lies between the two. */
  lemma {:induction false} FieldsAreLatest(events: seq<Event>)
    ensures Run(events).status == Latest(events, StatusSaid, "")
    ensures Run(events).startedAt == Latest(events, StartSaid, 0)
    ensures Run(events).finishedAt == Latest(events, EndSaid, 0)
    ensures events != [] && events[|events| - 1].kind == "build_finished" && Run(events).startedAt != 0 ==>
      Run(events).durationMs == Millis(Run(events).finishedAt - Run(events).startedAt)
  {
    if events != [] {
      FieldsAreLatest(events[..|events| - 1]);
      FieldsStep(Run(events[..|events| - 1]), events[|events| - 1]);
    }
  }

  /** The duration changes with a finish alone, and then only if the build was started. */
  lemma DurationChanges(events: seq<Event>, e: Event)
    ensures Run(events + [e]).durationMs ==
      if e.kind == "build_finished" && Latest(events, StartSaid, 0) != 0
      then Millis(e.occurredAt - Latest(events, StartSaid, 0)) else Run(events).durationMs
  {
    assert (events + [e])[..|events|] == events;
    FieldsAreLatest(events);
  }

  lemma {:induction false} UnfinishedHasNone(events: seq<Event>)
    requires forall i :: 0 <= i < |events| ==> events[i].kind != "build_finished"
    ensures Run(events).durationMs == 0
  {
    if events != [] {
      var n := |events| - 1;
      UnfinishedHasNone(events[..n]);
      DurationChanges(events[..n], events[n]);
      assert events == events[..n] + [events[n]];
    }
  }

  // ---- the steps and the current one ----

  /** A start adds a running step, a finish settles the first running one of its name, and nothing else changes. */
  lemma StepsChange(events: seq<Event>, e: Event)
    ensures e.kind == "step_started" ==>
      Run(events + [e]).steps == Run(events).steps + [BuildStep(GetStr(e.payload, "step"), "running", 0)]
    ensures e.kind == "step_finished" ==> |Run(events + [e]).steps| == |Run(events).steps|
    ensures e.kind == "step_finished" ==> forall i :: 0 <= i < |Run(events).steps| ==>
      Run(events + [e]).steps[i] ==
        if FirstRunning(Run(events).steps, GetStr(e.payload, "step"), i) then Settled(events, e)
        else Run(events).steps[i]
    ensures e.kind !in {"step_started", "step_finished"} ==> Run(events + [e]).steps == Run(events).steps
  {
    RunSnoc(events, e);
    if e.kind == "step_finished" { FinishCloses(events, e); }
  }

  lemma FinishCloses(events: seq<Event>, e: Event)
    requires e.kind == "step_finished"
    ensures |Step(Run(events), e).steps| == |Run(events).steps|
    ensures forall i :: 0 <= i < |Run(events).steps| ==>
      Step(Run(events), e).steps[i] ==
        if FirstRunning(Run(events).steps, GetStr(e.payload, "step"), i) then Settled(events, e)
        else Run(events).steps[i]
  {
    SettledIs(events, e);
    CloseSettles(Run(events).steps, GetStr(e.payload, "step"), StatusOf(e.payload), Settled(events, e).durationMs);
  }

  lemma SettledIs(events: seq<Event>, e: Event)
    requires e.kind == "step_finished"
    ensures var name, dur := GetStr(e.payload, "step"), Settled(events, e).durationMs;
      && Settled(events, e) == BuildStep(name, StatusOf(e.payload), dur)
      && Step(Run(events), e).steps == Close(Run(events).steps, name, StatusOf(e.payload), dur)
  {
    DurationClosedForm(events, GetStr(e.payload, "step"), e.occurredAt);
    StepCloses(Run(events), e);
  }

  lemma StepCloses(s: BuildState, e: Event)
    requires e.kind == "step_finished"
    ensures var name := GetStr(e.payload, "step");
      Step(s, e).steps == Close(s.steps, name, StatusOf(e.payload), DurationOf(s, name, e.occurredAt))
  {
  }

  lemma CloseSettles(steps: seq<BuildStep>, name: string, status: string, dur: int)
    ensures |Close(steps, name, status, dur)| == |steps|
    ensures forall i :: 0 <= i < |steps| ==>
      Close(steps, name, status, dur)[i]
        == if FirstRunning(steps, name, i) then BuildStep(name, status, dur) else steps[i]
  {
    forall i | 0 <= i < |steps| ensures FirstRunning(steps, name, i) <==> FirstOpen(steps, name) == i { }
  }

  /** Step i is the first of the name still running. */
  predicate FirstRunning(steps: seq<BuildStep>, name: string, i: nat)
    requires i < |steps|
  {
    && steps[i].name == name && steps[i].status == "running"
    && forall j :: 0 <= j < i ==> !(steps[j].name == name && steps[j].status == "running")
  }

  /** The step a finish leaves: the status it gives or "success", and the time since the name's last open start. */
  function Settled(events: seq<Event>, e: Event): BuildStep {
    var name, status, start := GetStr(e.payload, "step"), GetStr(e.payload, "status"),
                               LastStart(events, GetStr(e.payload, "step"));
    BuildStep(name, if status != "" then status else "success",
              if start.Some? then Millis(e.occurredAt - start.value) else 0)
  }

  function StepSaid(e: Event): Option<string> {
    if e.kind == "step_started" then Some(GetStr(e.payload, "step")) else None
  }

  predicate Finishes(e: Event, name: string) { e.kind == "step_finished" && GetStr(e.payload, "step") == name }

  predicate FinishedAfter(events: seq<Event>, i: int, name: string) {
    exists j :: i < j < |events| && j >= 0 && Finishes(events[j], name)
  }

  /** The current step is the newest one started, unless a finish of that name came after it. */
  lemma {:induction false} CurrentIsNewest(events: seq<Event>)
    ensures var i := LastSaying(events, StepSaid);
      Run(events).currentStep ==
        if i < 0 || FinishedAfter(events, i, GetStr(events[i].payload, "step")) then ""
        else GetStr(events[i].payload, "step")
  {
    if events != [] {
      var before, e := events[..|events| - 1], events[|events| - 1];
      CurrentIsNewest(before);
      var i := LastSaying(events, StepSaid);
      if e.kind != "step_started" && i >= 0 { FinishedSnoc(before, e, i, GetStr(events[i].payload, "step")); }
      assert events == before + [e];
    }
  }

  lemma FinishedSnoc(before: seq<Event>, e: Event, i: nat, name: string)
    requires i < |before|
    ensures FinishedAfter(before + [e], i, name) <==> FinishedAfter(before, i, name) || Finishes(e, name)
  {
    var events := before + [e];
    if j :| i < j < |before| && j >= 0 && Finishes(before[j], name) { assert Finishes(events[j], name); }
    if j :| i < j < |events| && j >= 0 && Finishes(events[j], name) {
      assert j < |before| ==> Finishes(before[j], name);
    }
    assert events[|before|] == e;
  }
}
