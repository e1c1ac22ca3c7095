/** The pull-request reducer: check counters, labels, and the open/closed/merged machine. */
module PullRequests {
  import opened Types
  import opened Sequences

  function Zero(): PRState {
    PRState("", "", "", "", "", [], 0, 0, [], Checks(0, 0, 0), 0, 0, 0)
  }

  function OrKeep(v: string, was: string): string { if v != "" then v else was }

  predicate Failing(conclusion: string) {
    conclusion == "failure" || conclusion == "timed_out" || conclusion == "cancelled"
  }

  predicate Starting(conclusion: string) {
    conclusion == "pending" || conclusion == "queued" || conclusion == "in_progress"
  }

  function Decrement(n: nat): nat { if n > 0 then n - 1 else n }

  function CheckStep(c: Checks, conclusion: string): Checks {
    if conclusion == "success" then Checks(c.passed + 1, c.failed, Decrement(c.pending))
    else if Failing(conclusion) then Checks(c.passed, c.failed + 1, Decrement(c.pending))
    else if Starting(conclusion) then Checks(c.passed, c.failed, c.pending + 1)
    else c
  }

  function Step(s0: PRState, e: Event): PRState {
    var s := s0.(state := OrKeep(s0.state, "open"), updatedAt := e.occurredAt);
    var p := e.payload;
    match e.kind
    case "pr_opened" =>
      s.(title := OrKeep(GetStr(p, "title"), s.title), author := OrKeep(GetStr(p, "author"), s.author),
         base := OrKeep(GetStr(p, "base"), s.base), head := OrKeep(GetStr(p, "head"), s.head), state := "open")
    case "pr_sync" => s.(head := OrKeep(GetStr(p, "head"), s.head))
    case "pr_review_requested" =>
      var v := GetStr(p, "reviewer"); if v != "" then s.(reviewers := AddedUnique(s.reviewers, v)) else s
    case "pr_reviewed" =>
      var v := GetStr(p, "state");
      if v == "approved" then s.(approvals := s.approvals + 1)
      else if v == "changes_requested" then s.(changesRequested := s.changesRequested + 1) else s
    case "pr_commented" => s.(comments := s.comments + 1)
    case "pr_labeled" =>
      var v := GetStr(p, "label"); if v != "" then s.(labels := AddedUnique(s.labels, v)) else s
    case "pr_unlabeled" =>
      var v := GetStr(p, "label"); if v != "" then s.(labels := Without(s.labels, v)) else s
    case "pr_merged" => s.(state := "merged", mergedAt := e.occurredAt)
    case "pr_closed" => if s.state != "merged" then s.(state := "closed") else s
    case "check_run_completed" => s.(checks := CheckStep(s.checks, GetStr(p, "conclusion")))
    case _ => s
  }

  function Reduce(raw: Option<State>, e: Event): Option<State> {
    if raw.None? then Some(PR(Step(Zero(), e)))
    else if raw.value.PR? then Some(PR(Step(raw.value.pr, e)))
    else None
  }

  /** The reducer as the program writes it. */
  method Apply(raw: Option<State>, e: Event) returns (r: Option<State>)
    ensures r == Reduce(raw, e)
  {
    var s := Zero();
    if raw.Some? {
      if !raw.value.PR? { return None; }
      s := raw.value.pr;
    }
    if s.state == "" { s := s.(state := "open"); }
    s := s.(updatedAt := e.occurredAt);
    match e.kind {
      case "pr_opened" =>
        s := Opened(s, e.payload);
      case "pr_sync" =>
        var v := GetStr(e.payload, "head");
        if v != "" { s := s.(head := v); }
      case "pr_review_requested" =>
        var v := GetStr(e.payload, "reviewer");
        if v != "" {
          var reviewers := AddUnique(s.reviewers, v);
          s := s.(reviewers := reviewers);
        }
      case "pr_reviewed" =>
        var v := GetStr(e.payload, "state");
        if v == "approved" { s := s.(approvals := s.approvals + 1); }
        else if v == "changes_requested" { s := s.(changesRequested := s.changesRequested + 1); }
      case "pr_commented" =>
        s := s.(comments := s.comments + 1);
      case "pr_labeled" =>
        var v := GetStr(e.payload, "label");
        if v != "" {
          var labels := AddUnique(s.labels, v);
          s := s.(labels := labels);
        }
      case "pr_unlabeled" =>
        var v := GetStr(e.payload, "label");
        if v != "" {
          var labels := Remove(s.labels, v);
          s := s.(labels := labels);
        }
      case "pr_merged" =>
        s := s.(state := "merged");
        s := s.(mergedAt := e.occurredAt);
      case "pr_closed" =>
        if s.state != "merged" { s := s.(state := "closed"); }
      case "check_run_completed" =>
        var checks := Count(s.checks, GetStr(e.payload, "conclusion"));
        s := s.(checks := checks);
      case _ =>
    }
    r := Some(PR(s));
  }

  method Opened(s0: PRState, p: Payload) returns (s: PRState)
    ensures s == s0.(title := OrKeep(GetStr(p, "title"), s0.title), author := OrKeep(GetStr(p, "author"), s0.author),
                     base := OrKeep(GetStr(p, "base"), s0.base), head := OrKeep(GetStr(p, "head"), s0.head),
                     state := "open")
  {
    s := s0;
    var v := GetStr(p, "title");
    if v != "" { s := s.(title := v); }
    v := GetStr(p, "author");
    if v != "" { s := s.(author := v); }
    v := GetStr(p, "base");
    if v != "" { s := s.(base := v); }
    v := GetStr(p, "head");
    if v != "" { s := s.(head := v); }
    s := s.(state := "open");
  }

  /** The freshly decoded slice, filtered in its own storage. */
  method Remove(xs: seq<string>, v: string) returns (r: seq<string>)
    ensures r == Without(xs, v)
  {
    var a := new string[|xs|](i requires 0 <= i < |xs| => xs[i]);
    assert a[..a.Length] == xs;
    var k := RemoveInPlace(a, a.Length, v);
    r := a[..k];
  }

  method Count(c0: Checks, conclusion: string) returns (c: Checks)
    ensures c == CheckStep(c0, conclusion)
  {
    c := c0;
    match conclusion {
      case "success" =>
        c := c.(passed := c.passed + 1);
        if c.pending > 0 { c := c.(pending := c.pending - 1); }
      case "failure" =>
        c := c.(failed := c.failed + 1);
        if c.pending > 0 { c := c.(pending := c.pending - 1); }
      case "timed_out" =>
        c := c.(failed := c.failed + 1);
        if c.pending > 0 { c := c.(pending := c.pending - 1); }
      case "cancelled" =>
        c := c.(failed := c.failed + 1);
        if c.pending > 0 { c := c.(pending := c.pending - 1); }
      case "pending" => c := c.(pending := c.pending + 1);
      case "queued" => c := c.(pending := c.pending + 1);
      case "in_progress" => c := c.(pending := c.pending + 1);
      case _ =>
    }
  }

  // ---- runs ----

  function Run(events: seq<Event>): PRState {
    if events == [] then Zero() else Step(Run(events[..|events| - 1]), events[|events| - 1])
  }

  /** The conclusion an event reports; "" for events that are not check runs. */
  function Conclusion(e: Event): string {
    if e.kind == "check_run_completed" then GetStr(e.payload, "conclusion") else ""
  }

  predicate Fails(e: Event) { Conclusion(e) in {"failure", "timed_out", "cancelled"} }

  /** +1 for a check reported pending, -1 for one finished. */
  function Signal(e: Event): int {
    if Conclusion(e) in {"pending", "queued", "in_progress"} then 1
    else if Conclusion(e) == "success" || Fails(e) then -1
    else 0
  }

  function Signals(events: seq<Event>): (r: seq<int>)
    ensures |r| == |events|
  {
    seq(|events|, i requires 0 <= i < |events| => Signal(events[i]))
  }

  lemma ChecksStep(s: PRState, e: Event)
    ensures Step(s, e).checks == CheckStep(s.checks, Conclusion(e))
  {
  }

  /** The check counters of a run depend on the reported conclusions alone. */
  function ChecksOf(events: seq<Event>): Checks {
    if events == [] then Checks(0, 0, 0)
    else CheckStep(ChecksOf(events[..|events| - 1]), Conclusion(events[|events| - 1]))
  }

  lemma {:induction false} RunChecks(events: seq<Event>)
    ensures Run(events).checks == ChecksOf(events)
  {
    if events != [] {
      RunChecks(events[..|events| - 1]);
      ChecksStep(Run(events[..|events| - 1]), events[|events| - 1]);
    }
  }

  lemma {:induction false} ChecksCount(events: seq<Event>)
    ensures ChecksOf(events).passed == CountIf(events, e => Conclusion(e) == "success")
    ensures ChecksOf(events).failed == CountIf(events, Fails)
  {
    if events != [] { ChecksCount(events[..|events| - 1]); }
  }

  /** Passed and failed count their conclusions. */
  lemma {:induction false} PassedAndFailedCount(events: seq<Event>)
    ensures Run(events).checks.passed == CountIf(events, e => Conclusion(e) == "success")
    ensures Run(events).checks.failed == CountIf(events, Fails)
  {
    RunChecks(events);
    ChecksCount(events);
  }

  lemma PendingStep(c: Checks, e: Event)
    ensures CheckStep(c, Conclusion(e)).pending == if c.pending + Signal(e) > 0 then c.pending + Signal(e) else 0
  {
  }

  lemma {:induction false} PendingIsReflected(events: seq<Event>)
    ensures ChecksOf(events).pending == Reflect(Signals(events))
  {
    if events != [] {
      var before, e := events[..|events| - 1], events[|events| - 1];
      PendingIsReflected(before);
      PendingStep(ChecksOf(before), e);
      assert Signals(events) == Signals(before) + [Signal(e)];
      ReflectSnoc(Signals(before), Signal(e));
    }
  }

  /**
   The clamped counter in closed form: the pending count is the greatest net of any suffix of the
   run, the empty suffix included.
   */
  lemma {:induction false} PendingIsGreatestSuffix(events: seq<Event>)
    ensures forall k :: 0 <= k <= |events| ==> Sum(Signals(events)[k..]) <= Run(events).checks.pending
    ensures exists k :: 0 <= k <= |events| && Sum(Signals(events)[k..]) == Run(events).checks.pending
  {
    RunChecks(events);
    PendingIsReflected(events);
    ReflectIsGreatestSuffix(Signals(events));
  }

  // ---- labels ----

  function LabelChange(e: Event): Change<string> {
    var v := GetStr(e.payload, "label");
    if v == "" then Nothing
    else if e.kind == "pr_labeled" then Join(v)
    else if e.kind == "pr_unlabeled" then Leave(v)
    else Nothing
  }

  function LabelChanges(events: seq<Event>): (r: seq<Change<string>>)
    ensures |r| == |events|
  {
    seq(|events|, i requires 0 <= i < |events| => LabelChange(events[i]))
  }

  lemma LabelsStep(s: PRState, e: Event)
    ensures Step(s, e).labels == Member(s.labels, LabelChange(e))
  {
  }

  function LabelsOf(events: seq<Event>): seq<string> {
    if events == [] then [] else Member(LabelsOf(events[..|events| - 1]), LabelChange(events[|events| - 1]))
  }

  lemma {:induction false} RunLabels(events: seq<Event>)
    ensures Run(events).labels == LabelsOf(events)
  {
    if events != [] {
      RunLabels(events[..|events| - 1]);
      LabelsStep(Run(events[..|events| - 1]), events[|events| - 1]);
    }
  }

  lemma {:induction false} LabelsAreMembers(events: seq<Event>)
    ensures LabelsOf(events) == Members(LabelChanges(events))
  {
    if events != [] {
      var before, e := events[..|events| - 1], events[|events| - 1];
      LabelsAreMembers(before);
      assert LabelChanges(events) == LabelChanges(before) + [LabelChange(e)];
      MembersSnoc(LabelChanges(before), LabelChange(e));
    }
  }

  /** Labels hold each label whose last change added it, once. */
  lemma LabelsIff(events: seq<Event>)
    ensures Distinct(Run(events).labels)
    ensures forall v :: v in Run(events).labels <==> LastJoined(LabelChanges(events), v)
  {
    RunLabels(events);
    LabelsAreMembers(events);
    MembersIff(LabelChanges(events));
  }

  // ---- lifecycle ----

  predicate Since(events: seq<Event>, kind: string) {
    exists i :: 0 <= i < |events| && events[i].kind == kind
      && forall j :: i < j < |events| ==> events[j].kind != "pr_opened"
  }

  lemma SinceSnoc(events: seq<Event>, e: Event, kind: string)
    requires kind != "pr_opened"
    ensures Since(events + [e], kind) <==> e.kind == kind || (e.kind != "pr_opened" && Since(events, kind))
  {
    var all := events + [e];
    if Since(all, kind) && e.kind != kind {
      var i :| 0 <= i < |all| && all[i].kind == kind && forall j :: i < j < |all| ==> all[j].kind != "pr_opened";
      assert events[i].kind == kind && all[|events|] == e;
      assert forall j :: i < j < |events| ==> events[j] == all[j];
    }
    if e.kind == kind {
      assert all[|events|].kind == kind;
    } else if e.kind != "pr_opened" && Since(events, kind) {
      var i :| 0 <= i < |events| && events[i].kind == kind
        && forall j :: i < j < |events| ==> events[j].kind != "pr_opened";
      assert all[i].kind == kind;
    }
  }

  lemma StateStep(s: PRState, e: Event)
    ensures Step(s, e).state ==
      if e.kind == "pr_opened" then "open"
      else if e.kind == "pr_merged" then "merged"
      else if e.kind == "pr_closed" && s.state != "merged" then "closed"
      else OrKeep(s.state, "open")
  {
  }

  /** Merged iff merged since it was last opened; closed iff closed but not merged since; otherwise open. */
  lemma {:induction false} LifecycleIff(events: seq<Event>)
    requires events != []
    ensures Run(events).state ==
      if Since(events, "pr_merged") then "merged" else if Since(events, "pr_closed") then "closed" else "open"
  {
    var before, e := events[..|events| - 1], events[|events| - 1];
    SinceSnoc(before, e, "pr_merged");
    SinceSnoc(before, e, "pr_closed");
    assert events == before + [e];
    if before != [] { LifecycleIff(before); }
    StateStep(Run(before), e);
  }

  // ---- header fields and tallies ----

  function TitleSaid(e: Event): Option<string> { Said(e, "pr_opened", "title") }

  function AuthorSaid(e: Event): Option<string> { Said(e, "pr_opened", "author") }

  function BaseSaid(e: Event): Option<string> { Said(e, "pr_opened", "base") }

  function HeadSaid(e: Event): Option<string> {
    if e.kind == "pr_sync" then Said(e, "pr_sync", "head") else Said(e, "pr_opened", "head")
  }

  lemma HeaderStep(s: PRState, e: Event)
    ensures var s' := Step(s, e);
      && s'.title == (if TitleSaid(e).Some? then TitleSaid(e).value else s.title)
      && s'.author == (if AuthorSaid(e).Some? then AuthorSaid(e).value else s.author)
      && s'.base == (if BaseSaid(e).Some? then BaseSaid(e).value else s.base)
      && s'.head == (if HeadSaid(e).Some? then HeadSaid(e).value else s.head)
  {
  }

  /** Each header field is what the newest event giving it said. */
  lemma {:induction false} HeaderIsLatest(events: seq<Event>)
    ensures Run(events).title == Latest(events, TitleSaid, "") && Run(events).author == Latest(events, AuthorSaid, "")
    ensures Run(events).base == Latest(events, BaseSaid, "") && Run(events).head == Latest(events, HeadSaid, "")
  {
    if events != [] {
      HeaderIsLatest(events[..|events| - 1]);
      HeaderStep(Run(events[..|events| - 1]), events[|events| - 1]);
    }
  }

  function MergedSaid(e: Event): Option<Time> { TimeOf(e, "pr_merged") }

  lemma TimesStep(s: PRState, e: Event)
    ensures Step(s, e).mergedAt == if MergedSaid(e).Some? then MergedSaid(e).value else s.mergedAt
    ensures Step(s, e).updatedAt == e.occurredAt
  {
  }

  /** The merge time is that of the newest merge; the update time that of the newest event. */
  lemma {:induction false} TimesAreLatest(events: seq<Event>)
    ensures Run(events).mergedAt == Latest(events, MergedSaid, 0)
    ensures events != [] ==> Run(events).updatedAt == events[|events| - 1].occurredAt
  {
    if events != [] {
      TimesAreLatest(events[..|events| - 1]);
      TimesStep(Run(events[..|events| - 1]), events[|events| - 1]);
    }
  }

  predicate Requests(e: Event, v: string) {
    v != "" && e.kind == "pr_review_requested" && GetStr(e.payload, "reviewer") == v
  }

  lemma ReviewersStep(s: PRState, e: Event)
    requires Distinct(s.reviewers)
    ensures Distinct(Step(s, e).reviewers)
    ensures forall v :: v in Step(s, e).reviewers <==> v in s.reviewers || Requests(e, v)
  {
  }

  /** Reviewers are distinct, and exactly those ever asked. */
  lemma {:induction false} ReviewersIff(events: seq<Event>)
    ensures Distinct(Run(events).reviewers)
    ensures forall v :: v in Run(events).reviewers <==> exists i :: 0 <= i < |events| && Requests(events[i], v)
  {
    if events != [] {
      var n := |events| - 1;
      ReviewersIff(events[..n]);
      ReviewersStep(Run(events[..n]), events[n]);
      forall v ensures v in Run(events).reviewers <==> exists i :: 0 <= i < |events| && Requests(events[i], v) {
        assert (exists i :: 0 <= i < n && Requests(events[..n][i], v))
          <==> exists i :: 0 <= i < n && Requests(events[i], v);
      }
    }
  }

  predicate Approves(e: Event) { e.kind == "pr_reviewed" && GetStr(e.payload, "state") == "approved" }

  predicate AsksChanges(e: Event) { e.kind == "pr_reviewed" && GetStr(e.payload, "state") == "changes_requested" }

  predicate Comments(e: Event) { e.kind == "pr_commented" }

  lemma TallyStep(s: PRState, e: Event)
    ensures var s' := Step(s, e);
      && s'.approvals == s.approvals + (if Approves(e) then 1 else 0)
      && s'.changesRequested == s.changesRequested + (if AsksChanges(e) then 1 else 0)
      && s'.comments == s.comments + (if Comments(e) then 1 else 0)
  {
  }

  lemma {:induction false} TalliesCount(events: seq<Event>)
    ensures Run(events).approvals == CountIf(events, Approves)
    ensures Run(events).changesRequested == CountIf(events, AsksChanges)
    ensures Run(events).comments == CountIf(events, Comments)
  {
    if events != [] {
      TalliesCount(events[..|events| - 1]);
      TallyStep(Run(events[..|events| - 1]), events[|events| - 1]);
    }
  }
}
