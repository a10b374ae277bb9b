/** `RunService`: the in-memory run store, the per-run event queues and the
    background executor that walks a run through its ten plan steps,
    pausing at the two approval gates. */
module Runs {
  import opened Text
  import GitHub
  import Fixes

  // ---------------------------------------------------------------------
  // Runs, steps and events

  datatype RunStatus = Created | Running | Paused | Completed | Failed
  datatype StepStatus = Pending | InProgress | Success | StepFailed | Waiting | Rejected | Cancelled

  function RunStatusName(s: RunStatus): string {
    match s
    case Created => "created" case Running => "running" case Paused => "paused"
    case Completed => "completed" case Failed => "failed"
  }

  function StepStatusName(s: StepStatus): string {
    match s
    case Pending => "pending" case InProgress => "running" case Success => "success"
    case StepFailed => "failed" case Waiting => "waiting" case Rejected => "rejected"
    case Cancelled => "cancelled"
  }

  datatype Step = Step(name: string, status: StepStatus)

  /** A recorded decision for a gate. */
  datatype Approval = Approval(decision: string, note: Option<string>)

  /** What `create_portia_plan` returned: its `status` and `portia_plan_id`. */
  datatype PortiaPlan = PortiaPlan(status: Option<string>, planId: Option<string>)

  /** `run["github_data"]`: what the executor learned along the way. The
      repository analysis itself is only recorded as present. */
  datatype GithubData = GithubData(
    branch: Option<string>, prUrl: Option<string>, prNumber: Option<int>, prTitle: Option<string>,
    issueDetails: Option<GitHub.IssueResult>, repoAnalyzed: bool, portiaPlan: Option<PortiaPlan>,
    aiFix: Option<Fixes.Fix>)

  const EMPTY_DATA := GithubData(None, None, None, None, None, false, None, None)

  /** A run record. `githubData` is absent until the executor starts. */
  datatype Run = Run(
    runId: string, issueUrl: string, repo: string, startedAt: string,
    status: RunStatus, plan: seq<Step>, approvals: map<string, Approval>,
    githubData: Option<GithubData>)

  /** The log lines the executor emits. */
  datatype LogEntry =
    | FetchingIssue | IssueFetched | IssueFetchFailed(error: string)
    | PortiaStarting | PortiaInBackground(planId: Option<string>) | PortiaContinuing | PortiaCompleted
    | PortiaFailed(error: string)
    | AnalyzingRepository | RepositoryAnalyzed | RepositoryAnalysisFailed(error: string)
    | BranchCreated(branch: string) | BranchCreationFailed(error: string)
    | SkippingPlaceholderTest
    | CreatingPr | NoFixAvailable | FileCreated(path: string) | FileCreationFailed(error: string)
    | PrCreated(url: string) | PrCreationFailed(error: string)
    | RunningHealthChecks | HealthChecksPassed | CommentAdded
    | GeneratingFix | FixGenerated(filesToCreate: nat, prTitle: string) | WillCreate(path: string)
    | IssueDetailsFailed(error: string)

  /** The text of a log line. */
  function Message(entry: LogEntry): string {
    match entry
    case FetchingIssue => "\U{1F4CB} Fetching issue details from GitHub..."
    case IssueFetched => "\U{2705} Fetched issue details"
    case IssueFetchFailed(e) => "\U{274C} Error fetching issue details: " + e
    case PortiaStarting => "\U{1F52E} Portia: Starting advanced AI analysis and workflow planning..."
    case PortiaInBackground(id) => "\U{1F52E} Portia: Analysis started in background (ID: " + Show(id) + ")"
    case PortiaContinuing => "\U{1F52E} Portia: Analysis will continue in background while workflow proceeds"
    case PortiaCompleted => "\U{1F52E} Portia: Advanced analysis completed successfully"
    case PortiaFailed(e) => "\U{1F52E} Portia: Analysis failed: " + e
    case AnalyzingRepository => "Analyzing repository structure and context..."
    case RepositoryAnalyzed => "Repository analysis completed successfully"
    case RepositoryAnalysisFailed(e) => "Repository analysis failed: " + e
    case BranchCreated(b) => "Created branch: " + b
    case BranchCreationFailed(e) => "Branch creation failed: " + e
    case SkippingPlaceholderTest => "Skipping placeholder test creation - will use AI-generated content only"
    case CreatingPr => "\U{1F680} Creating pull request with AI-generated content..."
    case NoFixAvailable => "\U{274C} No AI fix or issue details available"
    case FileCreated(p) => "Created AI-generated file: " + p
    case FileCreationFailed(e) => "File creation failed: " + e
    case PrCreated(u) => "Created AI-powered PR: " + u
    case PrCreationFailed(e) => "PR creation failed: " + e
    case RunningHealthChecks => "Running post-deployment health checks..."
    case HealthChecksPassed => "All health checks passed \U{2705}"
    case CommentAdded => "Added comment to original issue"
    case GeneratingFix => "\U{1F916} Generating AI-powered fix proposal..."
    case FixGenerated(_, _) => "\U{1F916} AI fix proposal generated successfully"
    case WillCreate(p) => "\U{1F4C4} Will create: " + p
    case IssueDetailsFailed(e) => "\U{274C} Issue details failed: " + e
  }

  /** An event put on a run's queue. A `stateChanged` event carries the
      plan only when a step status changed. */
  datatype Event =
    | StateChanged(status: RunStatus, plan: Option<seq<Step>>)
    | Log(entry: LogEntry)
    | ClarificationRequested(gate: string)
    | ClarificationResolved(gate: string, decision: string, note: Option<string>)
    | ApprovalRecorded(gate: string, decision: string, note: Option<string>)
    | Finished(status: RunStatus)

  /** The `type` field of an event. */
  function EventType(e: Event): string {
    match e
    case StateChanged(_, _) => "stateChanged"
    case Log(_) => "log"
    case ClarificationRequested(_) => "clarificationRequested"
    case ClarificationResolved(_, _, _) => "clarificationResolved"
    case ApprovalRecorded(_, _, _) => "approvalRecorded"
    case Finished(_) => "finished"
  }

  // ---------------------------------------------------------------------
  // The plan

  const STEPS: seq<string> := [
    "fetch-issue-details", "portia-analysis", "analyze-repository", "create-branch",
    "push-failing-test", "propose-fix", "open-pr", "merge-pr", "post-deploy-check", "finalize"]
  const PROPOSE_FIX := 5
  const OPEN_PR := 6
  const MERGE_PR := 7
  const FINALIZE := 9

  /** The approval gates are `propose-fix` and `merge-pr`. */
  predicate IsGate(i: int) {
    i == PROPOSE_FIX || i == MERGE_PR
  }

  predicate IsGateName(gate: string) {
    gate == "propose-fix" || gate == "merge-pr"
  }

  lemma StepsDistinct()
    ensures forall i, j :: 0 <= i < j < |STEPS| ==> STEPS[i] != STEPS[j]
  {
  }

  /** The plan a new run starts with: every step pending. */
  function InitialPlan(): (plan: seq<Step>)
    ensures |plan| == |STEPS|
    ensures forall k :: 0 <= k < |plan| ==> plan[k] == Step(STEPS[k], Pending)
  {
    seq(|STEPS|, k requires 0 <= k < |STEPS| => Step(STEPS[k], Pending))
  }

  /** The plan holds the ten steps in order. */
  predicate PlanShape(plan: seq<Step>) {
    |plan| == |STEPS| && forall k :: 0 <= k < |plan| ==> plan[k].name == STEPS[k]
  }

  /** The first step called `name`. */
  function IndexOf(plan: seq<Step>, name: string): (r: Option<nat>)
    ensures r.Some? ==> r.value < |plan| && plan[r.value].name == name
                        && forall k :: 0 <= k < r.value ==> plan[k].name != name
    ensures r.None? ==> forall k :: 0 <= k < |plan| ==> plan[k].name != name
    decreases |plan|
  {
    if plan == [] then None
    else if plan[0].name == name then Some(0)
    else match IndexOf(plan[1..], name)
         case None => None
         case Some(k) => Some(k + 1)
  }

  /** In a well-shaped plan, step `i` is found at index `i`. */
  lemma IndexOfStep(plan: seq<Step>, i: nat)
    requires PlanShape(plan) && i < |STEPS|
    ensures IndexOf(plan, STEPS[i]) == Some(i)
  {
    StepsDistinct();
    var r := IndexOf(plan, STEPS[i]);
    assert plan[i].name == STEPS[i];
    assert r.Some? && r.value <= i;
  }

  /** What `update_step` does to the plan: the first step with that name
      gets the new status; a name not in the plan changes nothing. */
  function SetStatus(plan: seq<Step>, name: string, st: StepStatus): (p: seq<Step>)
    ensures |p| == |plan|
    ensures forall k :: 0 <= k < |p| ==> p[k].name == plan[k].name
  {
    match IndexOf(plan, name)
    case None => plan
    case Some(k) => plan[k := plan[k].(status := st)]
  }

  lemma SetStatusAt(plan: seq<Step>, i: nat, st: StepStatus)
    requires PlanShape(plan) && i < |STEPS|
    ensures SetStatus(plan, STEPS[i], st) == plan[i := plan[i].(status := st)]
  {
    IndexOfStep(plan, i);
  }

  /** The search loop of `update_step`. */
  method UpdateStep(plan: seq<Step>, name: string, st: StepStatus) returns (p: seq<Step>)
    ensures p == SetStatus(plan, name, st)
  {
    p := plan;
    for k := 0 to |plan|
      invariant p == plan
      invariant forall j :: 0 <= j < k ==> plan[j].name != name
    {
      if plan[k].name == name {
        assert IndexOf(plan, name) == Some(k);
        p := plan[k := plan[k].(status := st)];
        return;
      }
    }
  }

  /** What the cancellation loop does: every pending step after the first
      step called `gate` becomes cancelled; nothing else changes. */
  function CancelAfter(plan: seq<Step>, gate: string): (p: seq<Step>)
    ensures |p| == |plan|
    ensures forall k :: 0 <= k < |p| ==> p[k].name == plan[k].name
  {
    seq(|plan|, k requires 0 <= k < |plan| =>
      if plan[k].status == Pending && IndexOf(plan, gate).Some? && IndexOf(plan, gate).value < k
      then plan[k].(status := Cancelled) else plan[k])
  }

  /** The `seen`-flag loop over the plan. */
  method CancelLater(plan: seq<Step>, gate: string) returns (p: seq<Step>)
    ensures p == CancelAfter(plan, gate)
  {
    var at := IndexOf(plan, gate);
    p := plan;
    var seen := false;
    for k := 0 to |plan|
      invariant |p| == |plan|
      invariant seen <==> at.Some? && at.value < k
      invariant forall j :: 0 <= j < k ==> p[j] == CancelAfter(plan, gate)[j]
      invariant forall j :: k <= j < |plan| ==> p[j] == plan[j]
    {
      if seen && p[k].status == Pending {
        p := p[k := p[k].(status := Cancelled)];
      }
      if p[k].name == gate {
        seen := true;
      }
    }
  }

  // ---------------------------------------------------------------------
  // The background executor, one segment at a time

  /** Where a run's background executor is: not yet started, about to run
      step `i` (`i == 10` is the end of the loop), waiting at gate `i`, or
      returned. */
  datatype Cursor = NotStarted | AtStep(i: nat) | AtGate(i: nat) | Done

  /** What `create_portia_plan` did. */
  datatype PortiaCall = PortiaReturned(plan: PortiaPlan) | PortiaRaised(error: string)

  /** The answers of everything the executor calls out to during one
      segment: the GitHub API replies, the Portia and repository-analysis
      services (which may raise), the clock, and the fix the generator
      produces. */
  datatype Effects = Effects(
    demo: bool,
    issueReply: GitHub.IssueReply, fetchRaises: Option<string>,
    portia: PortiaCall, analysisRaises: Option<string>,
    timestamp: string, refStatus: int, baseSha: string, branchStatus: int,
    putStatus: nat -> int, fileSha: string,
    clock: int, prReply: GitHub.PrReply, prLookup: GitHub.PrLookup,
    commentStatus: int, commentId: int,
    refetchReply: GitHub.IssueReply, fix: Fixes.Fix)

  /** The executor's view of `github_data` (empty before it starts). */
  function DataOf(run: Run): GithubData {
    match run.githubData
    case Some(d) => d
    case None => EMPTY_DATA
  }

  /** A pull request URL is only recorded once a fix exists, and a fix only
      together with successfully fetched issue details. */
  predicate DataInv(d: GithubData) {
    (d.prUrl.Some? ==> d.aiFix.Some?)
    && (d.aiFix.Some? ==> d.issueDetails.Some? && d.issueDetails.value.IssueOk?)
  }

  /** What one plan step did to `github_data`, the log lines it emitted
      and the status it ends in. */
  datatype Work = Work(data: GithubData, logs: seq<LogEntry>, outcome: StepStatus)

  function LogEvents(logs: seq<LogEntry>): (es: seq<Event>)
    ensures |es| == |logs|
    ensures forall k :: 0 <= k < |es| ==> es[k] == Log(logs[k])
  {
    seq(|logs|, k requires 0 <= k < |logs| => Log(logs[k]))
  }

  function FileLog(f: Fixes.FixFile, r: GitHub.FileResult): LogEntry {
    match r
    case FileOk(_, _, _) => FileCreated(f.path)
    case FileError(e) => FileCreationFailed(e)
  }

  /** `open-pr`: without a fix or issue details the step fails; otherwise
      every file of the fix is committed to the branch and the pull request
      is opened with the fix's title. */
  function OpenPrWork(run: Run, data: GithubData, fx: Effects): (w: Work)
    ensures w.outcome == StepFailed <==> data.aiFix.None? || data.issueDetails.None?
    ensures w.outcome == StepFailed ==> w.data == data && w.logs == [CreatingPr, NoFixAvailable]
    ensures w.data.prUrl != data.prUrl ==> w.data.prUrl.Some? && w.outcome == Success
    ensures w.data.prUrl.Some? && w.data.prUrl != data.prUrl && fx.demo ==>
      w.data.prTitle == Some(data.aiFix.value.prTitle)
    ensures w.data.(prUrl := data.prUrl, prNumber := data.prNumber, prTitle := data.prTitle) == data
  {
    if data.aiFix.None? || data.issueDetails.None? then Work(data, [CreatingPr, NoFixAvailable], StepFailed)
    else
      var fix := data.aiFix.value;
      var fileLogs := seq(|fix.files|, k requires 0 <= k < |fix.files| =>
        FileLog(fix.files[k], GitHub.CreateFile(fx.demo, fix.files[k].path, fx.putStatus(k), fx.fileSha)));
      match GitHub.CreatePullRequest(fx.demo, run.repo, fx.clock, fix.prTitle, fx.prReply, fx.prLookup)
      case PrOk(n, url, title, _, _) =>
        Work(data.(prUrl := Some(url), prNumber := Some(n), prTitle := Some(title)),
             [CreatingPr] + fileLogs + [PrCreated(url)], Success)
      case PrError(e) => Work(data, [CreatingPr] + fileLogs + [PrCreationFailed(e)], Success)
  }

  /** `finalize`: comment on the issue once a pull request exists. */
  function FinalizeWork(data: GithubData, fx: Effects): (w: Work)
    ensures w.data == data && w.outcome == Success
    ensures w.logs == [CommentAdded] <==>
      data.prUrl.Some? && data.prUrl.value != "" && data.issueDetails.Some? && fx.commentStatus == 201
    ensures w.logs != [CommentAdded] ==> w.logs == []
  {
    if data.prUrl.Some? && data.prUrl.value != "" && data.issueDetails.Some? then
      match GitHub.CreateIssueComment(fx.commentStatus, fx.commentId)
      case CommentOk(_) => Work(data, [CommentAdded], Success)
      case CommentError(_) => Work(data, [], Success)
    else Work(data, [], Success)
  }

  /** The work of an ordinary (non-gate) step. Only `open-pr` can fail,
      and only when no fix is available; no ordinary step creates a fix. */
  function StepWork(i: nat, run: Run, data: GithubData, fx: Effects): (w: Work)
    requires i < |STEPS| && !IsGate(i)
    ensures w.outcome == StepFailed <==> i == OPEN_PR && (data.aiFix.None? || data.issueDetails.None?)
    ensures w.outcome == Success || w.outcome == StepFailed
    ensures w.data.aiFix == data.aiFix
    ensures i != 0 ==> w.data.issueDetails == data.issueDetails
    ensures w.data.prUrl != data.prUrl ==> i == OPEN_PR && w.data.prUrl.Some?
    ensures i != 0 || data.aiFix.None? ==> DataInv(data) ==> DataInv(w.data)
  {
    if i == 0 then
      match fx.fetchRaises
      case Some(e) => Work(data, [FetchingIssue, IssueFetchFailed(e)], Success)
      case None =>
        Work(data.(issueDetails := Some(GitHub.GetIssueDetails(fx.demo, run.issueUrl, fx.issueReply))),
             [FetchingIssue, IssueFetched], Success)
    else if i == 1 then
      match fx.portia
      case PortiaRaised(e) => Work(data, [PortiaStarting, PortiaFailed(e)], Success)
      case PortiaReturned(p) =>
        Work(data.(portiaPlan := Some(p)),
             [PortiaStarting] + (if p.status == Some("processing") then [PortiaInBackground(p.planId), PortiaContinuing]
                                 else [PortiaCompleted]), Success)
    else if i == 2 then
      match fx.analysisRaises
      case Some(e) => Work(data, [AnalyzingRepository, RepositoryAnalysisFailed(e)], Success)
      case None => Work(data.(repoAnalyzed := true), [AnalyzingRepository, RepositoryAnalyzed], Success)
    else if i == 3 then
      match GitHub.CreateBranch(fx.demo, None, fx.timestamp, fx.refStatus, fx.baseSha, fx.branchStatus)
      case BranchOk(b, _, _) => Work(data.(branch := Some(b)), [BranchCreated(b)], Success)
      case BranchError(e) => Work(data, [BranchCreationFailed(e)], Success)
    else if i == 4 then Work(data, [SkippingPlaceholderTest], Success)
    else if i == OPEN_PR then OpenPrWork(run, data, fx)
    else if i == 8 then Work(data, [RunningHealthChecks, HealthChecksPassed], Success)
    else FinalizeWork(data, fx)
  }

  /** The work of an approved gate: `propose-fix` fetches the issue again
      and, if that succeeds, stores it with the generated fix; `merge-pr`
      does nothing more. */
  function ApprovedGateWork(i: nat, run: Run, data: GithubData, fx: Effects): (w: Work)
    requires IsGate(i)
    ensures w.outcome == Success
    ensures w.data.aiFix.Some? && w.data.aiFix != data.aiFix ==>
      i == PROPOSE_FIX && w.data.aiFix == Some(fx.fix)
      && w.data.issueDetails == Some(GitHub.GetIssueDetails(fx.demo, run.issueUrl, fx.refetchReply))
    ensures i == PROPOSE_FIX ==>
      (w.data.aiFix == Some(fx.fix) <==> GitHub.GetIssueDetails(fx.demo, run.issueUrl, fx.refetchReply).IssueOk?)
      || w.data.aiFix == data.aiFix
    ensures i == MERGE_PR ==> w == Work(data, [], Success)
    ensures w.data.prUrl == data.prUrl
    ensures DataInv(data) ==> DataInv(w.data)
  {
    if i == PROPOSE_FIX then
      var r := GitHub.GetIssueDetails(fx.demo, run.issueUrl, fx.refetchReply);
      match r
      case IssueOk(_) =>
        Work(data.(issueDetails := Some(r), aiFix := Some(fx.fix)),
             [GeneratingFix, FixGenerated(|fx.fix.files|, fx.fix.prTitle)]
             + seq(|fx.fix.files|, k requires 0 <= k < |fx.fix.files| => WillCreate(fx.fix.files[k].path)),
             Success)
      case IssueError(e) => Work(data, [GeneratingFix, IssueDetailsFailed(e)], Success)
    else Work(data, [], Success)
  }

  /** The result of one segment of the executor. */
  datatype Transition = Transition(run: Run, cursor: Cursor, emitted: seq<Event>)

  /** The executor starts: the run is running and `github_data` is empty. */
  function Begin(run: Run): Transition {
    Transition(run.(status := Running, githubData := Some(EMPTY_DATA)), AtStep(0), [StateChanged(Running, None)])
  }

  /** Step `i` is marked running; an ordinary step then does its work and
      is marked with its outcome, a gate is marked waiting, asks for a
      decision and pauses the run. */
  function StepSegment(run: Run, i: nat, fx: Effects): Transition
    requires i < |STEPS|
  {
    var p1 := SetStatus(run.plan, STEPS[i], InProgress);
    if !IsGate(i) then
      var w := StepWork(i, run, DataOf(run), fx);
      var p2 := SetStatus(p1, STEPS[i], w.outcome);
      Transition(run.(plan := p2, githubData := Some(w.data)), AtStep(i + 1),
                 [StateChanged(run.status, Some(p1))] + LogEvents(w.logs) + [StateChanged(run.status, Some(p2))])
    else
      var p2 := SetStatus(p1, STEPS[i], Waiting);
      Transition(run.(plan := p2, status := Paused), AtGate(i),
                 [StateChanged(run.status, Some(p1)), StateChanged(run.status, Some(p2)),
                  ClarificationRequested(STEPS[i]), StateChanged(Paused, None)])
  }

  /** A decision for gate `i` has been recorded: approval resumes the run
      after the gate's work, anything else rejects the gate, cancels the
      steps still pending after it and fails the run. */
  function Resolve(run: Run, i: nat, fx: Effects): Transition
    requires i < |STEPS| && IsGate(i) && STEPS[i] in run.approvals
  {
    var a := run.approvals[STEPS[i]];
    var resolved := ClarificationResolved(STEPS[i], a.decision, a.note);
    if a.decision == "approve" then
      var w := ApprovedGateWork(i, run, DataOf(run), fx);
      var p := SetStatus(run.plan, STEPS[i], Success);
      Transition(run.(status := Running, plan := p, githubData := Some(w.data)), AtStep(i + 1),
                 [resolved, StateChanged(Running, None)] + LogEvents(w.logs) + [StateChanged(Running, Some(p))])
    else
      var p1 := SetStatus(run.plan, STEPS[i], Rejected);
      var p2 := CancelAfter(p1, STEPS[i]);
      Transition(run.(status := Failed, plan := p2), Done,
                 [resolved, StateChanged(run.status, Some(p1)), StateChanged(Failed, Some(p2)), Finished(Failed)])
  }

  /** After the loop: a run that has not failed completes. */
  function Finish(run: Run): Transition {
    if run.status != Failed then
      var p := SetStatus(run.plan, STEPS[FINALIZE], Success);
      Transition(run.(status := Completed, plan := p), Done,
                 [StateChanged(Completed, None), StateChanged(Completed, Some(p)), Finished(Completed)])
    else Transition(run, Done, [])
  }

  /** One segment of `_run_plan`, from one suspension point where the
      outside world can observe the run to the next. A gate without a
      recorded decision does not move. */
  function Next(run: Run, cursor: Cursor, fx: Effects): Transition {
    match cursor
    case NotStarted => Begin(run)
    case AtStep(i) =>
      if i >= |STEPS| || run.status == Failed || run.status == Completed then Finish(run)
      else StepSegment(run, i, fx)
    case AtGate(i) =>
      if i < |STEPS| && IsGate(i) && STEPS[i] in run.approvals then Resolve(run, i, fx)
      else Transition(run, cursor, [])
    case Done => Transition(run, Done, [])
  }

  // ---------------------------------------------------------------------
  // The run invariant

  /** Every step before `i` has finished: all succeeded, except that
      `open-pr` may have failed. */
  predicate DoneBefore(plan: seq<Step>, i: nat)
    requires i <= |plan|
  {
    forall k :: 0 <= k < i ==> plan[k].status == Success || (k == OPEN_PR && plan[k].status == StepFailed)
  }

  predicate PendingFrom(plan: seq<Step>, i: nat) {
    forall k :: i <= k < |plan| ==> plan[k].status == Pending
  }

  /** Gate `g` was rejected: the steps before it finished and every step
      after it is cancelled. */
  predicate RejectedAt(plan: seq<Step>, g: nat)
    requires g < |plan|
  {
    DoneBefore(plan, g) && plan[g].status == Rejected && forall k :: g < k < |plan| ==> plan[k].status == Cancelled
  }

  /** The executor has not yet resolved the `propose-fix` gate. */
  predicate BeforeFix(c: Cursor) {
    c.NotStarted? || (c.AtStep? && c.i <= PROPOSE_FIX) || c == AtGate(PROPOSE_FIX)
  }

  /** Only the two gates can carry decisions, and only `approve` or `reject`. */
  predicate DecisionsValid(approvals: map<string, Approval>) {
    forall g :: g in approvals ==>
      IsGateName(g) && (approvals[g].decision == "approve" || approvals[g].decision == "reject")
  }

  /** How the run record and the executor's position agree. */
  predicate RunInv(run: Run, c: Cursor) {
    PlanShape(run.plan)
    && (c.NotStarted? <==> run.githubData.None?)
    && DataInv(DataOf(run))
    && (BeforeFix(c) ==> DataOf(run).aiFix.None?)
    && DecisionsValid(run.approvals)
    && match c
       case NotStarted => run.status == Created && PendingFrom(run.plan, 0)
       case AtStep(i) =>
         i <= |STEPS| && run.status == Running && DoneBefore(run.plan, i) && PendingFrom(run.plan, i)
       case AtGate(i) =>
         i < |STEPS| && IsGate(i) && run.status == Paused && DoneBefore(run.plan, i)
         && run.plan[i].status == Waiting && PendingFrom(run.plan, i + 1)
       case Done =>
         (run.status == Completed && DoneBefore(run.plan, |STEPS|))
         || (run.status == Failed && (RejectedAt(run.plan, PROPOSE_FIX) || RejectedAt(run.plan, MERGE_PR)))
  }

  /** A new run record, as `start` creates it. */
  function NewRun(id: string, issueUrl: string, repo: string, startedAt: string): (run: Run)
    ensures RunInv(run, NotStarted)
    ensures run.runId == id && run.status == Created && run.approvals == map[]
  {
    Run(id, issueUrl, repo, startedAt, Created, InitialPlan(), map[], None)
  }

  /** Only the status, the plan and `github_data` of a run ever change in a segment. */
  predicate SameIdentity(a: Run, b: Run) {
    a.runId == b.runId && a.issueUrl == b.issueUrl && a.repo == b.repo
    && a.startedAt == b.startedAt && a.approvals == b.approvals
  }

  lemma StepSegmentInv(run: Run, i: nat, fx: Effects)
    requires RunInv(run, AtStep(i)) && i < |STEPS|
    ensures var t := StepSegment(run, i, fx); RunInv(t.run, t.cursor) && SameIdentity(run, t.run)
  {
    var p1 := SetStatus(run.plan, STEPS[i], InProgress);
    SetStatusAt(run.plan, i, InProgress);
    assert PlanShape(p1);
    if !IsGate(i) {
      var w := StepWork(i, run, DataOf(run), fx);
      SetStatusAt(p1, i, w.outcome);
    } else {
      SetStatusAt(p1, i, Waiting);
    }
  }

  lemma ResolveInv(run: Run, i: nat, fx: Effects)
    requires RunInv(run, AtGate(i)) && STEPS[i] in run.approvals
    ensures var t := Resolve(run, i, fx); RunInv(t.run, t.cursor) && SameIdentity(run, t.run)
  {
    var a := run.approvals[STEPS[i]];
    if a.decision == "approve" {
      SetStatusAt(run.plan, i, Success);
    } else {
      RejectCancels(run, i);
    }
  }

  /** Rejecting gate `i` leaves the finished steps alone, marks the gate
      rejected and cancels every later step. */
  lemma RejectCancels(run: Run, i: nat)
    requires RunInv(run, AtGate(i))
    ensures var p2 := CancelAfter(SetStatus(run.plan, STEPS[i], Rejected), STEPS[i]);
      PlanShape(p2) && RejectedAt(p2, i)
      && forall k :: 0 <= k < i ==> p2[k] == run.plan[k]
  {
    var p1 := SetStatus(run.plan, STEPS[i], Rejected);
    SetStatusAt(run.plan, i, Rejected);
    assert PlanShape(p1);
    IndexOfStep(p1, i);
  }

  lemma FinishInv(run: Run)
    requires RunInv(run, AtStep(|STEPS|))
    ensures var t := Finish(run); RunInv(t.run, t.cursor) && SameIdentity(run, t.run)
    ensures Finish(run).run.plan == run.plan
  {
    SetStatusAt(run.plan, FINALIZE, Success);
    assert run.plan[FINALIZE := run.plan[FINALIZE].(status := Success)] == run.plan;
  }

  /** Every segment of the executor keeps the run invariant and changes
      nothing but the run's status, plan and `github_data`. */
  lemma NextPreservesInv(run: Run, c: Cursor, fx: Effects)
    requires RunInv(run, c)
    ensures var t := Next(run, c, fx); RunInv(t.run, t.cursor) && SameIdentity(run, t.run)
  {
    match c
    case NotStarted =>
    case AtStep(i) =>
      if i >= |STEPS| {
        FinishInv(run);
      } else {
        StepSegmentInv(run, i, fx);
      }
    case AtGate(i) =>
      if STEPS[i] in run.approvals {
        ResolveInv(run, i, fx);
      }
    case Done =>
  }

  /** The moves a step's status can make: pending to running, running to
      success, failed or waiting, waiting to success or rejected, pending to
      cancelled; `Reaches` is any chain of them. */
  predicate Reaches(a: StepStatus, b: StepStatus) {
    a == b
    || a == Pending
    || (a == InProgress && (b == Success || b == StepFailed || b == Waiting || b == Rejected))
    || (a == Waiting && (b == Success || b == Rejected))
  }

  /** Across a segment every step's status only moves forward; a step that
      succeeded, failed, was rejected or cancelled never changes again. */
  lemma StatusesMoveForward(run: Run, c: Cursor, fx: Effects)
    requires RunInv(run, c)
    ensures var t := Next(run, c, fx);
      forall k :: 0 <= k < |STEPS| ==> Reaches(run.plan[k].status, t.run.plan[k].status)
  {
    match c
    case NotStarted =>
    case AtStep(i) =>
      if i >= |STEPS| {
        FinishInv(run);
      } else {
        SetStatusAt(run.plan, i, InProgress);
        var p1 := SetStatus(run.plan, STEPS[i], InProgress);
        if !IsGate(i) {
          SetStatusAt(p1, i, StepWork(i, run, DataOf(run), fx).outcome);
        } else {
          SetStatusAt(p1, i, Waiting);
        }
      }
    case AtGate(i) =>
      if STEPS[i] in run.approvals {
        if run.approvals[STEPS[i]].decision == "approve" {
          SetStatusAt(run.plan, i, Success);
        } else {
          RejectCancels(run, i);
        }
      }
    case Done =>
  }

  /** The order of the executor's positions. */
  function Rank(c: Cursor): nat {
    match c
    case NotStarted => 0
    case AtStep(i) => 2 * i + 1
    case AtGate(i) => 2 * i + 2
    case Done => 2 * |STEPS| + 3
  }

  /** The executor only moves forward, and it stands still exactly when it
      has returned or waits at a gate that has no decision yet; standing
      still changes nothing and emits nothing. */
  lemma Progress(run: Run, c: Cursor, fx: Effects)
    requires RunInv(run, c)
    ensures var t := Next(run, c, fx);
      (t.cursor == c <==> c.Done? || (c.AtGate? && STEPS[c.i] !in run.approvals))
      && (t.cursor != c ==> Rank(t.cursor) > Rank(c))
      && (t.cursor == c ==> t.run == run && t.emitted == [])
  {
  }

  /** The number of `finished` events in a queue. */
  function Finishes(es: seq<Event>): nat {
    if es == [] then 0
    else Finishes(es[..|es| - 1]) + (if es[|es| - 1].Finished? then 1 else 0)
  }

  lemma {:induction false} FinishesConcat(a: seq<Event>, b: seq<Event>)
    ensures Finishes(a + b) == Finishes(a) + Finishes(b)
    decreases |b|
  {
    if b == [] {
      assert a + b == a;
    } else {
      assert (a + b)[..|a + b| - 1] == a + b[..|b| - 1];
      FinishesConcat(a, b[..|b| - 1]);
    }
  }

  lemma {:induction false} NoFinishesInLogs(logs: seq<LogEntry>)
    ensures Finishes(LogEvents(logs)) == 0
    decreases |logs|
  {
    if logs != [] {
      assert LogEvents(logs)[..|logs| - 1] == LogEvents(logs[..|logs| - 1]);
      NoFinishesInLogs(logs[..|logs| - 1]);
    }
  }

  lemma FinishesThree(a: Event, b: Event, c: Event)
    requires !a.Finished? && !b.Finished?
    ensures Finishes([a, b, c]) == if c.Finished? then 1 else 0
  {
    assert [a][..0] == [];
    assert Finishes([a]) == 0;
    assert [a, b][..1] == [a];
    assert Finishes([a, b]) == 0;
    assert [a, b, c][..2] == [a, b];
  }

  lemma FinishesFour(a: Event, b: Event, c: Event, d: Event)
    requires !a.Finished? && !b.Finished? && !c.Finished?
    ensures Finishes([a, b, c, d]) == if d.Finished? then 1 else 0
  {
    FinishesThree(a, b, c);
    assert [a, b, c, d][..3] == [a, b, c];
  }

  lemma FinishesAround(x: seq<Event>, logs: seq<LogEntry>, y: Event)
    requires forall k :: 0 <= k < |x| ==> !x[k].Finished?
    requires |x| <= 2 && !y.Finished?
    ensures Finishes(x + LogEvents(logs) + [y]) == 0
  {
    FinishesConcat(x + LogEvents(logs), [y]);
    FinishesConcat(x, LogEvents(logs));
    NoFinishesInLogs(logs);
    assert [y][..0] == [];
    if |x| == 2 {
      assert x[..1] == [x[0]];
    } else if |x| == 1 {
      assert x[..0] == [];
    }
  }

  /** A segment emits a `finished` event exactly when the executor
      returns, once, as its last event, carrying the final status. */
  lemma FinishedOnceAtEnd(run: Run, c: Cursor, fx: Effects)
    requires RunInv(run, c)
    ensures var t := Next(run, c, fx);
      Finishes(t.emitted) == (if c != Done && t.cursor == Done then 1 else 0)
      && (c != Done && t.cursor == Done ==>
            t.emitted[|t.emitted| - 1] == Finished(t.run.status)
            && (t.run.status == Completed || t.run.status == Failed))
  {
    match c
    case NotStarted =>
      assert Finishes([StateChanged(Running, None)]) == 0 by {
        assert [StateChanged(Running, None)][..0] == [];
      }
    case AtStep(i) =>
      if i >= |STEPS| {
        var p := SetStatus(run.plan, STEPS[FINALIZE], Success);
        FinishesThree(StateChanged(Completed, None), StateChanged(Completed, Some(p)), Finished(Completed));
      } else {
        var p1 := SetStatus(run.plan, STEPS[i], InProgress);
        if !IsGate(i) {
          var w := StepWork(i, run, DataOf(run), fx);
          var p2 := SetStatus(p1, STEPS[i], w.outcome);
          FinishesAround([StateChanged(run.status, Some(p1))], w.logs, StateChanged(run.status, Some(p2)));
        } else {
          var p2 := SetStatus(p1, STEPS[i], Waiting);
          FinishesFour(StateChanged(run.status, Some(p1)), StateChanged(run.status, Some(p2)),
                       ClarificationRequested(STEPS[i]), StateChanged(Paused, None));
        }
      }
    case AtGate(i) =>
      if STEPS[i] in run.approvals {
        var a := run.approvals[STEPS[i]];
        var resolved := ClarificationResolved(STEPS[i], a.decision, a.note);
        if a.decision == "approve" {
          var w := ApprovedGateWork(i, run, DataOf(run), fx);
          var p := SetStatus(run.plan, STEPS[i], Success);
          FinishesAround([resolved, StateChanged(Running, None)], w.logs, StateChanged(Running, Some(p)));
        } else {
          var p1 := SetStatus(run.plan, STEPS[i], Rejected);
          var p2 := CancelAfter(p1, STEPS[i]);
          FinishesFour(resolved, StateChanged(run.status, Some(p1)), StateChanged(Failed, Some(p2)), Finished(Failed));
        }
      }
    case Done =>
  }

  /** Rejecting a gate ends the run: it fails, the steps before the gate
      keep their status, the gate is rejected, every later step is
      cancelled, and the last two events publish that plan and the
      failure. */
  lemma RejectionEndsRun(run: Run, i: nat, fx: Effects)
    requires RunInv(run, AtGate(i)) && STEPS[i] in run.approvals
    requires run.approvals[STEPS[i]].decision != "approve"
    ensures var t := Next(run, AtGate(i), fx);
      t.cursor == Done && t.run.status == Failed
      && (forall k :: 0 <= k < |STEPS| ==>
            t.run.plan[k].status == (if k < i then run.plan[k].status else if k == i then Rejected else Cancelled))
      && |t.emitted| == 4
      && t.emitted[2..] == [StateChanged(Failed, Some(t.run.plan)), Finished(Failed)]
  {
    RejectCancels(run, i);
  }

  /** The end of the loop completes the run; marking `finalize` successful
      once more changes no step. */
  lemma CompletionEndsRun(run: Run, fx: Effects)
    requires RunInv(run, AtStep(|STEPS|))
    ensures var t := Next(run, AtStep(|STEPS|), fx);
      t.cursor == Done && t.run.status == Completed && t.run.plan == run.plan
      && t.emitted[|t.emitted| - 1] == Finished(Completed)
  {
    FinishInv(run);
  }

  /** Without a fix `open-pr` fails, yet the run carries on to `merge-pr`. */
  lemma OpenPrFailsWithoutFix(run: Run, fx: Effects)
    requires RunInv(run, AtStep(OPEN_PR)) && DataOf(run).aiFix.None?
    ensures var t := Next(run, AtStep(OPEN_PR), fx);
      t.cursor == AtStep(MERGE_PR) && t.run.status == Running
      && t.run.plan[OPEN_PR].status == StepFailed
      && t.emitted[1..3] == [Log(CreatingPr), Log(NoFixAvailable)]
  {
    SetStatusAt(run.plan, OPEN_PR, InProgress);
    var p1 := SetStatus(run.plan, STEPS[OPEN_PR], InProgress);
    SetStatusAt(p1, OPEN_PR, StepFailed);
  }

  /** An issue URL on another host never yields a fix: approving
      `propose-fix` leaves no fix behind, so the next segment marks
      `open-pr` failed. */
  lemma ForeignIssueFailsOpenPr(run: Run, host: string, rest: string, fx1: Effects, fx2: Effects)
    requires RunInv(run, AtGate(PROPOSE_FIX))
    requires run.issueUrl == "https://" + host + "/" + rest && '/' !in host && host != "github.com"
    requires STEPS[PROPOSE_FIX] in run.approvals && run.approvals[STEPS[PROPOSE_FIX]].decision == "approve"
    ensures var t1 := Next(run, AtGate(PROPOSE_FIX), fx1);
      var t2 := Next(t1.run, t1.cursor, fx2);
      t1.cursor == AtStep(OPEN_PR) && t2.cursor == AtStep(MERGE_PR)
      && t2.run.plan[OPEN_PR].status == StepFailed
  {
    GitHub.ForeignHostRefused(host, rest);
    ResolveInv(run, PROPOSE_FIX, fx1);
    var t1 := Next(run, AtGate(PROPOSE_FIX), fx1);
    assert DataOf(t1.run).aiFix.None?;
    OpenPrFailsWithoutFix(t1.run, fx2);
  }

  /** In demo mode an approved `propose-fix` on a GitHub issue URL stores
      the fix and the issue details and moves on to `open-pr`. */
  lemma DemoFixProposed(run: Run, fx: Effects)
    requires RunInv(run, AtGate(PROPOSE_FIX)) && fx.demo
    requires GitHub.ParseIssueUrl(run.issueUrl).Some?
    requires STEPS[PROPOSE_FIX] in run.approvals && run.approvals[STEPS[PROPOSE_FIX]].decision == "approve"
    ensures var t := Next(run, AtGate(PROPOSE_FIX), fx);
      t.cursor == AtStep(OPEN_PR) && RunInv(t.run, t.cursor) && t.run.status == Running
      && DataOf(t.run).aiFix == Some(fx.fix) && DataOf(t.run).issueDetails.Some?
  {
    ResolveInv(run, PROPOSE_FIX, fx);
  }

  /** In demo mode `open-pr` with a fix and issue details opens a pull
      request titled with the fix's title and succeeds. */
  lemma DemoOpensPr(run: Run, fx: Effects)
    requires RunInv(run, AtStep(OPEN_PR)) && run.status == Running && fx.demo
    requires DataOf(run).aiFix.Some? && DataOf(run).issueDetails.Some?
    ensures var t := Next(run, AtStep(OPEN_PR), fx);
      t.cursor == AtStep(MERGE_PR) && t.run.plan[OPEN_PR].status == Success
      && DataOf(t.run).prUrl.Some? && DataOf(t.run).prTitle == Some(DataOf(run).aiFix.value.prTitle)
  {
    SetStatusAt(run.plan, OPEN_PR, InProgress);
    var p1 := SetStatus(run.plan, STEPS[OPEN_PR], InProgress);
    SetStatusAt(p1, OPEN_PR, Success);
  }

  /** In demo mode a GitHub issue URL gets a fix at `propose-fix`, and the
      next segment opens a pull request titled with the fix's title and
      marks `open-pr` successful. */
  lemma DemoFixOpensPr(run: Run, fx1: Effects, fx2: Effects)
    requires RunInv(run, AtGate(PROPOSE_FIX)) && fx1.demo && fx2.demo
    requires GitHub.ParseIssueUrl(run.issueUrl).Some?
    requires STEPS[PROPOSE_FIX] in run.approvals && run.approvals[STEPS[PROPOSE_FIX]].decision == "approve"
    ensures var t1 := Next(run, AtGate(PROPOSE_FIX), fx1);
      var t2 := Next(t1.run, t1.cursor, fx2);
      t1.cursor == AtStep(OPEN_PR) && DataOf(t1.run).aiFix == Some(fx1.fix)
      && t2.cursor == AtStep(MERGE_PR) && t2.run.plan[OPEN_PR].status == Success
      && DataOf(t2.run).prUrl.Some? && DataOf(t2.run).prTitle == Some(fx1.fix.prTitle)
  {
    DemoFixProposed(run, fx1);
    var t1 := Next(run, AtGate(PROPOSE_FIX), fx1);
    DemoOpensPr(t1.run, fx2);
  }

  // ---------------------------------------------------------------------
  // The service

  /** The imperative form of `StepSegment`, through `update_step`. */
  method RunStep(run: Run, i: nat, fx: Effects) returns (t: Transition)
    requires i < |STEPS|
    ensures t == StepSegment(run, i, fx)
  {
    var p1 := UpdateStep(run.plan, STEPS[i], InProgress);
    if !IsGate(i) {
      var w := StepWork(i, run, DataOf(run), fx);
      var p2 := UpdateStep(p1, STEPS[i], w.outcome);
      t := Transition(run.(plan := p2, githubData := Some(w.data)), AtStep(i + 1),
                      [StateChanged(run.status, Some(p1))] + LogEvents(w.logs) + [StateChanged(run.status, Some(p2))]);
    } else {
      var p2 := UpdateStep(p1, STEPS[i], Waiting);
      t := Transition(run.(plan := p2, status := Paused), AtGate(i),
                      [StateChanged(run.status, Some(p1)), StateChanged(run.status, Some(p2)),
                       ClarificationRequested(STEPS[i]), StateChanged(Paused, None)]);
    }
  }

  /** The imperative form of `Resolve`, through `update_step` and the
      cancellation loop. */
  method ResolveGate(run: Run, i: nat, fx: Effects) returns (t: Transition)
    requires i < |STEPS| && IsGate(i) && STEPS[i] in run.approvals
    ensures t == Resolve(run, i, fx)
  {
    var a := run.approvals[STEPS[i]];
    var resolved := ClarificationResolved(STEPS[i], a.decision, a.note);
    if a.decision == "approve" {
      var w := ApprovedGateWork(i, run, DataOf(run), fx);
      var p := UpdateStep(run.plan, STEPS[i], Success);
      t := Transition(run.(status := Running, plan := p, githubData := Some(w.data)), AtStep(i + 1),
                      [resolved, StateChanged(Running, None)] + LogEvents(w.logs) + [StateChanged(Running, Some(p))]);
    } else {
      var p1 := UpdateStep(run.plan, STEPS[i], Rejected);
      var p2 := CancelLater(p1, STEPS[i]);
      t := Transition(run.(status := Failed, plan := p2), Done,
                      [resolved, StateChanged(run.status, Some(p1)), StateChanged(Failed, Some(p2)), Finished(Failed)]);
    }
  }

  /** The imperative form of `Finish`. */
  method FinishRun(run: Run) returns (t: Transition)
    ensures t == Finish(run)
  {
    if run.status != Failed {
      var p := UpdateStep(run.plan, STEPS[FINALIZE], Success);
      t := Transition(run.(status := Completed, plan := p), Done,
                      [StateChanged(Completed, None), StateChanged(Completed, Some(p)), Finished(Completed)]);
    } else {
      t := Transition(run, Done, []);
    }
  }

  /** One segment of `_run_plan`, in the executor's own imperative form. */
  method Segment(run: Run, c: Cursor, fx: Effects) returns (t: Transition)
    ensures t == Next(run, c, fx)
  {
    match c {
      case NotStarted =>
        t := Begin(run);
      case AtStep(i) =>
        if i >= |STEPS| || run.status == Failed || run.status == Completed {
          t := FinishRun(run);
        } else {
          t := RunStep(run, i, fx);
        }
      case AtGate(i) =>
        if i < |STEPS| && IsGate(i) && STEPS[i] in run.approvals {
          t := ResolveGate(run, i, fx);
        } else {
          t := Transition(run, c, []);
        }
      case Done =>
        t := Transition(run, Done, []);
    }
  }

  /** A run as `list_runs` shows it. */
  datatype RunSummary = RunSummary(runId: string, issueUrl: string, repo: string, status: RunStatus)

  function Summarize(run: Run): RunSummary {
    RunSummary(run.runId, run.issueUrl, run.repo, run.status)
  }

  /** `describe`: the run, or the `KeyError` for an unknown one. */
  datatype Described = Found(run: Run) | RunNotFound(message: string)

  /** `approve`: recorded, or the `KeyError` / `ValueError` it raises. */
  datatype ApproveOutcome = Recorded | UnknownRun(message: string) | InvalidApproval(message: string)

  /** How far a stream consumer that starts at `from` reads: up to and
      including the first `finished` event, or to the end of what has been
      put so far (where it would wait). */
  function StreamEnd(q: seq<Event>, from: nat): (r: nat)
    requires from <= |q|
    ensures from <= r <= |q|
    ensures r == |q| || (r > from && q[r - 1].Finished?)
    ensures forall k :: from <= k < r - 1 ==> !q[k].Finished?
    decreases |q| - from
  {
    if from == |q| then from
    else if q[from].Finished? then from + 1
    else StreamEnd(q, from + 1)
  }

  /** One run's record, executor position and queue agree: the record
      keeps the run invariant, consumers never take more than was put, and
      the queue holds one `finished` event once the executor has returned
      and none before. */
  predicate Healthy(id: string, run: Run, c: Cursor, q: seq<Event>, taken: nat) {
    run.runId == id && RunInv(run, c) && taken <= |q|
    && Finishes(q) == (if c == Done then 1 else 0)
  }

  ghost predicate StoreOk(runs: map<string, Run>, queues: map<string, seq<Event>>, consumed: map<string, nat>,
                    tasks: map<string, Cursor>, order: seq<string>) {
    runs.Keys == queues.Keys && runs.Keys == consumed.Keys && runs.Keys == tasks.Keys
    && (forall id :: id in runs <==> id in order)
    && (forall a, b :: 0 <= a < b < |order| ==> order[a] != order[b])
    && forall id {:trigger Healthy(id, runs[id], tasks[id], queues[id], consumed[id])} ::
         id in runs ==> Healthy(id, runs[id], tasks[id], queues[id], consumed[id])
  }

  /** Replacing one run's entries with healthy ones keeps the store sound. */
  lemma StoreUpdate(runs: map<string, Run>, queues: map<string, seq<Event>>, consumed: map<string, nat>,
                    tasks: map<string, Cursor>, order: seq<string>,
                    id: string, run: Run, c: Cursor, q: seq<Event>, taken: nat)
    requires StoreOk(runs, queues, consumed, tasks, order) && id in runs
    requires Healthy(id, run, c, q, taken)
    ensures StoreOk(runs[id := run], queues[id := q], consumed[id := taken], tasks[id := c], order)
  {
  }

  /** Replacing one run's record, queue and executor position with
      healthy ones, its consumers' count unchanged, keeps the store sound. */
  lemma StoreReplace(runs: map<string, Run>, queues: map<string, seq<Event>>, consumed: map<string, nat>,
                     tasks: map<string, Cursor>, order: seq<string>,
                     id: string, run: Run, c: Cursor, q: seq<Event>)
    requires StoreOk(runs, queues, consumed, tasks, order) && id in runs
    requires Healthy(id, run, c, q, consumed[id])
    ensures StoreOk(runs[id := run], queues[id := q], consumed, tasks[id := c], order)
  {
    StoreUpdate(runs, queues, consumed, tasks, order, id, run, c, q, consumed[id]);
    assert consumed[id := consumed[id]] == consumed;
  }

  /** One executor segment of a run in a sound store leaves it sound. */
  lemma StoreAdvance(runs: map<string, Run>, queues: map<string, seq<Event>>, consumed: map<string, nat>,
                     tasks: map<string, Cursor>, order: seq<string>, id: string, fx: Effects)
    requires StoreOk(runs, queues, consumed, tasks, order) && id in runs
    ensures var t := Next(runs[id], tasks[id], fx);
      StoreOk(runs[id := t.run], queues[id := queues[id] + t.emitted], consumed, tasks[id := t.cursor], order)
  {
    assert Healthy(id, runs[id], tasks[id], queues[id], consumed[id]);
    SegmentKeepsHealth(id, runs[id], tasks[id], queues[id], consumed[id], fx);
    var t := Next(runs[id], tasks[id], fx);
    StoreReplace(runs, queues, consumed, tasks, order, id, t.run, t.cursor, queues[id] + t.emitted);
  }

  /** Recording a valid decision for a gate of a run in a sound store, and
      queueing its `approvalRecorded` event, leaves the store sound. */
  lemma StoreRecord(runs: map<string, Run>, queues: map<string, seq<Event>>, consumed: map<string, nat>,
                    tasks: map<string, Cursor>, order: seq<string>, id: string, gate: string, a: Approval)
    requires StoreOk(runs, queues, consumed, tasks, order) && id in runs
    requires IsGateName(gate) && (a.decision == "approve" || a.decision == "reject")
    ensures StoreOk(runs[id := runs[id].(approvals := runs[id].approvals[gate := a])],
                    queues[id := queues[id] + [ApprovalRecorded(gate, a.decision, a.note)]],
                    consumed, tasks, order)
  {
    var run := runs[id];
    var e := ApprovalRecorded(gate, a.decision, a.note);
    assert Healthy(id, run, tasks[id], queues[id], consumed[id]);
    RecordKeepsInv(run, tasks[id], gate, a);
    FinishesConcat(queues[id], [e]);
    assert Finishes([e]) == 0 by {
      assert [e][..0] == [];
    }
    StoreReplace(runs, queues, consumed, tasks, order, id, run.(approvals := run.approvals[gate := a]),
                 tasks[id], queues[id] + [e]);
    assert tasks[id := tasks[id]] == tasks;
  }

  /** Consumers having taken any number of a queue's events, up to all of
      them, keeps the store sound. */
  lemma StoreConsume(runs: map<string, Run>, queues: map<string, seq<Event>>, consumed: map<string, nat>,
                     tasks: map<string, Cursor>, order: seq<string>, id: string, taken: nat)
    requires StoreOk(runs, queues, consumed, tasks, order) && id in runs
    requires taken <= |queues[id]|
    ensures StoreOk(runs, queues, consumed[id := taken], tasks, order)
  {
    assert Healthy(id, runs[id], tasks[id], queues[id], consumed[id]);
    StoreUpdate(runs, queues, consumed, tasks, order, id, runs[id], tasks[id], queues[id], taken);
    assert runs[id := runs[id]] == runs;
    assert queues[id := queues[id]] == queues;
    assert tasks[id := tasks[id]] == tasks;
  }

  /** The loop of `stream` over one queue: from the first event not yet
      taken, up to and including the first `finished` event, or to the end. */
  method TakeEvents(q: seq<Event>, from: nat) returns (events: seq<Event>, ended: bool, next: nat)
    requires from <= |q|
    ensures next == StreamEnd(q, from)
    ensures events == q[from..next]
    ensures ended <==> events != [] && events[|events| - 1].Finished?
  {
    next := from;
    events := [];
    ended := false;
    while next < |q| && !ended
      invariant from <= next <= |q|
      invariant events == q[from..next]
      invariant ended <==> next > from && q[next - 1].Finished?
      invariant StreamEnd(q, from) == if ended then next else StreamEnd(q, next)
      decreases |q| - next
    {
      events := events + [q[next]];
      ended := q[next].Finished?;
      next := next + 1;
    }
  }

  /** Recording a decision for a gate keeps the run invariant. */
  lemma RecordKeepsInv(run: Run, c: Cursor, gate: string, a: Approval)
    requires RunInv(run, c) && IsGateName(gate) && (a.decision == "approve" || a.decision == "reject")
    ensures RunInv(run.(approvals := run.approvals[gate := a]), c)
  {
    var run' := run.(approvals := run.approvals[gate := a]);
    assert DataOf(run') == DataOf(run);
  }

  /** A segment of the executor keeps its run healthy, its queue included. */
  lemma SegmentKeepsHealth(id: string, run: Run, c: Cursor, q: seq<Event>, taken: nat, fx: Effects)
    requires Healthy(id, run, c, q, taken)
    ensures var t := Next(run, c, fx); Healthy(id, t.run, t.cursor, q + t.emitted, taken)
  {
    NextPreservesInv(run, c, fx);
    FinishedOnceAtEnd(run, c, fx);
    FinishesConcat(q, Next(run, c, fx).emitted);
  }

  /** Adding a fresh run at the end keeps the store sound. */
  lemma StoreAdd(runs: map<string, Run>, queues: map<string, seq<Event>>, consumed: map<string, nat>,
                 tasks: map<string, Cursor>, order: seq<string>,
                 id: string, run: Run, c: Cursor, q: seq<Event>, taken: nat)
    requires StoreOk(runs, queues, consumed, tasks, order) && id !in runs
    requires Healthy(id, run, c, q, taken)
    ensures StoreOk(runs[id := run], queues[id := q], consumed[id := taken], tasks[id := c], order + [id])
  {
    var order' := order + [id];
    forall a, b | 0 <= a < b < |order'|
      ensures order'[a] != order'[b]
    {
      if b == |order| {
        assert order'[a] == order[a] && order[a] in runs;
      }
    }
  }

  /** The in-memory run store. `queues` holds every event ever put on a
      run's queue and `consumed` how many of them stream consumers have
      taken; `tasks` is where each run's background executor stands;
      `order` is the insertion order of the runs. */
  class RunService {
    var runs: map<string, Run>
    var queues: map<string, seq<Event>>
    var consumed: map<string, nat>
    var tasks: map<string, Cursor>
    var order: seq<string>

    /** Every run has a queue and an executor and appears once in `order`,
        and every run is `Healthy`. */
    ghost predicate Valid()
      reads this
    {
      StoreOk(runs, queues, consumed, tasks, order)
    }

    constructor ()
      ensures Valid() && runs == map[] && order == []
    {
      runs := map[];
      queues := map[];
      consumed := map[];
      tasks := map[];
      order := [];
    }

    /** `start`: a new run with a fresh identifier, created and with every
        step pending; its queue holds the initial `stateChanged` event and
        its executor has not run yet. */
    method Start(id: string, issueUrl: string, repo: string, startedAt: string)
      requires Valid() && id !in runs
      modifies this
      ensures Valid()
      ensures runs == old(runs)[id := NewRun(id, issueUrl, repo, startedAt)]
      ensures queues == old(queues)[id := [StateChanged(Created, None)]]
      ensures consumed == old(consumed)[id := 0] && tasks == old(tasks)[id := NotStarted]
      ensures order == old(order) + [id]
    {
      assert Finishes([StateChanged(Created, None)]) == 0 by {
        assert [StateChanged(Created, None)][..0] == [];
      }
      StoreAdd(runs, queues, consumed, tasks, order, id, NewRun(id, issueUrl, repo, startedAt),
               NotStarted, [StateChanged(Created, None)], 0);
      runs := runs[id := NewRun(id, issueUrl, repo, startedAt)];
      queues := queues[id := [StateChanged(Created, None)]];
      consumed := consumed[id := 0];
      tasks := tasks[id := NotStarted];
      order := order + [id];
    }

    /** Runs one segment of the executor of run `id` (nothing for an
        unknown run): the run, its queue and its executor's position become
        what `Next` says. `moved` tells whether the executor got further. */
    method Advance(id: string, fx: Effects) returns (moved: bool)
      requires Valid()
      modifies this
      ensures Valid()
      ensures id !in old(runs) ==> !moved && runs == old(runs) && queues == old(queues) && tasks == old(tasks)
      ensures id in old(runs) ==>
        var t := Next(old(runs[id]), old(tasks[id]), fx);
        runs == old(runs)[id := t.run] && queues == old(queues)[id := old(queues[id]) + t.emitted]
        && tasks == old(tasks)[id := t.cursor] && (moved <==> t.cursor != old(tasks[id]))
      ensures consumed == old(consumed) && order == old(order)
    {
      if id !in runs {
        return false;
      }
      var c := tasks[id];
      var t := Segment(runs[id], c, fx);
      StoreAdvance(runs, queues, consumed, tasks, order, id, fx);
      runs := runs[id := t.run];
      queues := queues[id := queues[id] + t.emitted];
      tasks := tasks[id := t.cursor];
      moved := t.cursor != c;
    }

    /** `approve`: an unknown run is a `KeyError`; a gate other than the two
        gates, then a decision other than `approve`/`reject`, a
        `ValueError`; otherwise the decision replaces any earlier one for
        that gate and an `approvalRecorded` event is put on the queue. */
    method Approve(id: string, gate: string, decision: string, note: Option<string>) returns (r: ApproveOutcome)
      requires Valid()
      modifies this
      ensures Valid()
      ensures id !in old(runs) ==> r == UnknownRun("run " + id + " not found")
      ensures id in old(runs) && !IsGateName(gate) ==> r == InvalidApproval("Unknown gate: " + gate)
      ensures id in old(runs) && IsGateName(gate) && decision != "approve" && decision != "reject" ==>
        r == InvalidApproval("Unknown decision: " + decision)
      ensures r.Recorded? <==> id in old(runs) && IsGateName(gate) && (decision == "approve" || decision == "reject")
      ensures r.Recorded? ==>
        runs == old(runs)[id := old(runs[id]).(approvals := old(runs[id]).approvals[gate := Approval(decision, note)])]
        && queues == old(queues)[id := old(queues[id]) + [ApprovalRecorded(gate, decision, note)]]
      ensures !r.Recorded? ==> runs == old(runs) && queues == old(queues)
      ensures consumed == old(consumed) && tasks == old(tasks) && order == old(order)
    {
      if id !in runs {
        return UnknownRun("run " + id + " not found");
      }
      if !IsGateName(gate) {
        return InvalidApproval("Unknown gate: " + gate);
      }
      if decision != "approve" && decision != "reject" {
        return InvalidApproval("Unknown decision: " + decision);
      }
      var run := runs[id];
      StoreRecord(runs, queues, consumed, tasks, order, id, gate, Approval(decision, note));
      runs := runs[id := run.(approvals := run.approvals[gate := Approval(decision, note)])];
      queues := queues[id := queues[id] + [ApprovalRecorded(gate, decision, note)]];
      r := Recorded;
    }

    /** `describe`: the run record, or a `KeyError` for an unknown run. */
    method Describe(id: string) returns (r: Described)
      ensures r.Found? <==> id in runs
      ensures r.Found? ==> r.run == runs[id]
      ensures r.RunNotFound? ==> r.message == "run " + id + " not found"
    {
      if id in runs {
        r := Found(runs[id]);
      } else {
        r := RunNotFound("run " + id + " not found");
      }
    }

    /** `list_runs`: one summary per run, in the order the runs were started. */
    method ListRuns() returns (summaries: seq<RunSummary>)
      requires Valid()
      ensures |summaries| == |order|
      ensures forall k :: 0 <= k < |order| ==> summaries[k] == Summarize(runs[order[k]])
    {
      summaries := [];
      for k := 0 to |order|
        invariant |summaries| == k
        invariant forall j :: 0 <= j < k ==> summaries[j] == Summarize(runs[order[j]])
      {
        summaries := summaries + [Summarize(runs[order[k]])];
      }
    }

    /** `stream`: an unknown run yields nothing; otherwise the consumer
        takes the events not yet taken, one by one, up to and including
        the first `finished` event or until none is left. */
    method Stream(id: string) returns (events: seq<Event>, ended: bool)
      requires Valid()
      modifies this
      ensures Valid()
      ensures id !in old(queues) ==> events == [] && !ended && consumed == old(consumed)
      ensures id in old(queues) ==> old(consumed[id]) <= |old(queues[id])|
      ensures id in old(queues) ==>
        var q := old(queues[id]);
        var from := old(consumed[id]);
        consumed == old(consumed)[id := StreamEnd(q, from)]
        && events == q[from..StreamEnd(q, from)]
        && (ended <==> events != [] && events[|events| - 1].Finished?)
      ensures runs == old(runs) && queues == old(queues) && tasks == old(tasks) && order == old(order)
    {
      if id !in queues {
        return [], false;
      }
      assert Healthy(id, runs[id], tasks[id], queues[id], consumed[id]);
      var next;
      events, ended, next := TakeEvents(queues[id], consumed[id]);
      StoreConsume(runs, queues, consumed, tasks, order, id, next);
      consumed := consumed[id := next];
    }
  }
}
