/** The job reducer: progress, status and a bounded log tail. */
module Jobs {
  import opened Types
  import opened Sequences

  const CAP := 50

  function Zero(): JobState { JobState("", 0, 0, "", [], 0, 0) }

  function GetInt(p: Payload, key: string): int {
    if key in p && p[key].Num? then p[key].n else 0
  }

  function Step(s: JobState, e: Event): JobState {
    var p := e.payload;
    match e.kind
    case "job_started" =>
      s.(status := "running", startedAt := e.occurredAt,
         name := if GetStr(p, "name") != "" then GetStr(p, "name") else s.name)
    case "job_progress" =>
      s.(percent := if GetInt(p, "percent") > 0 then GetInt(p, "percent") else s.percent,
         etaSeconds := if GetInt(p, "eta_seconds") > 0 then GetInt(p, "eta_seconds") else s.etaSeconds)
    case "job_log" => s.(logs := Window(s.logs + [JobLog(e.occurredAt, GetStr(p, "line"))], CAP))
    case "job_finished" => s.(status := "succeeded", percent := 100, finishedAt := e.occurredAt)
    case "job_failed" => s.(status := "failed", finishedAt := e.occurredAt)
    case _ => s
  }

  function Reduce(raw: Option<State>, e: Event): Option<State> {
    if raw.None? then Some(Job(Step(Zero(), e)))
    else if raw.value.Job? then Some(Job(Step(raw.value.job, e)))
    else None
  }

  /** The reducer as the program writes it. */
  method Apply(raw: Option<State>, e: Event) returns (r: Option<State>)
    ensures r == Reduce(raw, e)
  {
    var s := Zero();
    if raw.Some? {
      if !raw.value.Job? { return None; }
      s := raw.value.job;
    }
    match e.kind {
      case "job_started" =>
        s := s.(status := "running");
        s := s.(startedAt := e.occurredAt);
        var v := GetStr(e.payload, "name");
        if v != "" { s := s.(name := v); }
      case "job_progress" =>
        var v := GetInt(e.payload, "percent");
        if v > 0 { s := s.(percent := v); }
        v := GetInt(e.payload, "eta_seconds");
        if v > 0 { s := s.(etaSeconds := v); }
      case "job_log" =>
        s := s.(logs := s.logs + [JobLog(e.occurredAt, GetStr(e.payload, "line"))]);
        if |s.logs| > CAP {
          s := s.(logs := s.logs[|s.logs| - CAP..]);
        }
      case "job_finished" =>
        s := s.(status := "succeeded");
        s := s.(percent := 100);
        s := s.(finishedAt := e.occurredAt);
      case "job_failed" =>
        s := s.(status := "failed");
        s := s.(finishedAt := e.occurredAt);
      case _ =>
    }
    r := Some(Job(s));
  }

  function Run(events: seq<Event>): JobState {
    if events == [] then Zero() else Step(Run(events[..|events| - 1]), events[|events| - 1])
  }

  /** Every line ever logged. */
  function Lines(events: seq<Event>): seq<JobLog> {
    if events == [] then [] else Lines(events[..|events| - 1]) + LineIn(events[|events| - 1])
  }

  function LineIn(e: Event): seq<JobLog> {
    if e.kind == "job_log" then [JobLog(e.occurredAt, GetStr(e.payload, "line"))] else []
  }

  lemma LogsStep(s: JobState, e: Event)
    ensures Step(s, e).logs == if e.kind == "job_log" then Window(s.logs + LineIn(e), CAP) else s.logs
  {
  }

  /** Trimming the log at every line equals trimming the whole log once. */
  lemma {:induction false} LogsAreTail(events: seq<Event>)
    ensures Run(events).logs == Window(Lines(events), 50)
  {
    if events != [] {
      var before, e := events[..|events| - 1], events[|events| - 1];
      LogsAreTail(before);
      LogsStep(Run(before), e);
      if e.kind == "job_log" {
        WindowSnoc(Lines(before), LineIn(e)[0], CAP);
      }
    }
  }

  function StatusSaid(e: Event): Option<string> {
    match e.kind
    case "job_started" => Some("running")
    case "job_finished" => Some("succeeded")
    case "job_failed" => Some("failed")
    case _ => None
  }

  function NameSaid(e: Event): Option<string> { Said(e, "job_started", "name") }

  function Positive(e: Event, key: string): Option<int> {
    var p := e.payload;
    if e.kind == "job_progress" && key in p && p[key].Num? && p[key].n > 0 then Some(p[key].n) else None
  }

  function PercentSaid(e: Event): Option<int> { if e.kind == "job_finished" then Some(100) else Positive(e, "percent") }

  function EtaSaid(e: Event): Option<int> { Positive(e, "eta_seconds") }

  function StartSaid(e: Event): Option<Time> { TimeOf(e, "job_started") }

  function EndSaid(e: Event): Option<Time> {
    if e.kind == "job_failed" then Some(e.occurredAt) else TimeOf(e, "job_finished")
  }

  lemma FieldsStep(s: JobState, e: Event)
    ensures var s' := Step(s, e);
      && s'.status == (if StatusSaid(e).Some? then StatusSaid(e).value else s.status)
      && s'.name == (if NameSaid(e).Some? then NameSaid(e).value else s.name)
      && s'.percent == (if PercentSaid(e).Some? then PercentSaid(e).value else s.percent)
      && s'.etaSeconds == (if EtaSaid(e).Some? then EtaSaid(e).value else s.etaSeconds)
      && s'.startedAt == (if StartSaid(e).Some? then StartSaid(e).value else s.startedAt)
      && s'.finishedAt == (if EndSaid(e).Some? then EndSaid(e).value else s.finishedAt)
  {
  }

  /** Every field but the log is the newest value reported for it. */
  lemma {:induction false} FieldsAreLatest(events: seq<Event>)
    ensures Run(events).status == Latest(events, StatusSaid, "") && Run(events).name == Latest(events, NameSaid, "")
    ensures Run(events).percent == Latest(events, PercentSaid, 0)
    ensures Run(events).etaSeconds == Latest(events, EtaSaid, 0)
    ensures Run(events).startedAt == Latest(events, StartSaid, 0)
    ensures Run(events).finishedAt == Latest(events, EndSaid, 0)
  {
    if events != [] {
      FieldsAreLatest(events[..|events| - 1]);
      FieldsStep(Run(events[..|events| - 1]), events[|events| - 1]);
    }
  }
}
