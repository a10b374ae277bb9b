/** `BugToPRPlan`: the step methods of the plan and the context (`ctx`)
    they fill in. Every tool the plan calls is recorded, in order, in
    `calls`; what a tool answers is an argument of the step that calls it. */
module AgentPlan {
  import opened Text

  /** The issue context the GitHub tool returns. */
  datatype Issue = Issue(number: int, slug: string, repo: string, title: Option<string>)

  /** The plan's configuration: `allowlist`, `commands.repro`,
      `commands.test`, `slack.channel` and `health`. */
  datatype Config = Config(allowlist: seq<string>, reproCommand: string, testCommand: string,
                           slackChannel: string, health: Option<string>)

  /** What the summariser renders: the issue title and the risk score.
      A PR body or a Slack message is recorded by this input; `PrMarkdown`
      and `SlackText` give the text. */
  datatype Summary = Summary(title: Option<string>, risk: int)

  /** One call on the tool suite. */
  datatype ToolCall =
    | GetContext(repo: string, issueUrl: string)
    | GetBranchSha(repo: string, branch: string)
    | CreateBranchCall(repo: string, baseSha: string, newBranch: string)
    | CreateWorkspace(repo: string, ref: string)
    | RunCommand(cmd: string, timeout: nat)
    | GenerateFailingTest
    | CommitAndPush(repo: string, branch: string, files: seq<string>)
    | GeneratePatch(targetFiles: seq<string>, failingTrace: Option<string>)
    | ApplyPatch
    | DiffPreview
    | FetchCi(repo: string, branch: string)
    | CiSummary(repo: string, branch: string)
    | SummarizeDiff
    | OpenPullRequest(repo: string, title: string, prBody: Summary, head: string, base: string, labels: seq<string>)
    | Notify(channel: string, blocks: Summary)
    | LabelPr(repo: string, prNumber: int, labels: seq<string>)
    | MergeCall(repo: string, prNumber: int, mergeMethod: string)
    | Healthcheck(target: Option<string>)
    | CommentPr(repo: string, prNumber: int, body: string)

  /** The exceptions a step raises. `KeyError` names the missing `ctx` key. */
  datatype PlanError =
    | KeyError(key: string)
    | ValueError(message: string)
    | AssertionError(message: string)
    | AttributeError(message: string)

  datatype Outcome = Done | Raised(error: PlanError)

  /** A truthy `failing_trace`: present and non-empty. */
  predicate TraceTruthy(trace: Option<string>) {
    trace.Some? && trace.value != ""
  }

  /** A truthy `pr_number`: present and not zero. */
  predicate PrTruthy(prNumber: Option<int>) {
    prNumber.Some? && prNumber.value != 0
  }

  /** `_risk_score`: starts at 1, one more for a failing trace, one more
      for an opened PR, clamped to [1, 5]. Only 1, 2 and 3 occur. */
  function RiskScore(trace: Option<string>, prNumber: Option<int>): (r: int)
    ensures 1 <= r <= 3
    ensures r == 1 <==> !TraceTruthy(trace) && !PrTruthy(prNumber)
    ensures r == 3 <==> TraceTruthy(trace) && PrTruthy(prNumber)
  {
    var risk := 1 + (if TraceTruthy(trace) then 1 else 0) + (if PrTruthy(prNumber) then 1 else 0);
    if risk < 1 then 1 else if risk > 5 then 5 else risk
  }

  lemma RiskScoreTestCases()
    ensures RiskScore(None, None) == 1
    ensures RiskScore(Some("Error: something broke"), None) == 2
    ensures RiskScore(Some("oops"), Some(42)) == 3
  {
  }

  /** "bugfix/{number}-{slug}". */
  function BranchName(issue: Issue): (name: string)
    ensures "bugfix/" <= name && EndsWith(name, "-" + issue.slug)
  {
    var name := "bugfix/" + IntToString(issue.number) + "-" + issue.slug;
    assert name == ("bugfix/" + IntToString(issue.number)) + ("-" + issue.slug);
    EndsWithConcat("bugfix/" + IntToString(issue.number), "-" + issue.slug);
    name
  }

  /** Where the committed failing test comes from: a passing reproduction
      means a test is generated and its trace and files are used; a
      failing one supplies its own trace and test files. */
  function FailingTestSource(reproPassed: bool, reproTrace: Option<string>, reproFiles: seq<string>,
                             generatedTrace: Option<string>, generatedFiles: seq<string>): (r: (Option<string>, seq<string>))
    ensures reproPassed ==> r == (generatedTrace, generatedFiles)
    ensures !reproPassed ==> r == (reproTrace, reproFiles)
  {
    if reproPassed then (generatedTrace, generatedFiles) else (reproTrace, reproFiles)
  }

  /** The body the summariser writes for a PR: a heading with the issue
      title ("Unknown issue" without one) and the risk score. */
  function PrMarkdown(title: Option<string>, risk: int): (md: string)
    ensures "# Fix for " + GetOr(title, "Unknown issue") <= md
  {
    "# Fix for " + GetOr(title, "Unknown issue")
    + "\n\nThis PR addresses the issue with automated bug reproduction and fix generation.\n\n**Risk Score:** "
    + IntToString(risk) + "\n\n**Changes:**\n- Automated fix applied\n- Tests updated"
  }

  const SLACK_HEADING := "\U{1F916} *Autopilot PR Ready*\n\nIssue: "

  /** The Slack text the summariser writes: the heading with the issue
      title ("Unknown" without one), ending with the risk out of 5. */
  function SlackText(title: Option<string>, risk: int): (text: string)
    ensures SLACK_HEADING + GetOr(title, "Unknown") <= text
    ensures EndsWith(text, IntToString(risk) + "/5")
  {
    var head := SLACK_HEADING + GetOr(title, "Unknown") + "\nRisk: ";
    EndsWithConcat(head, IntToString(risk) + "/5");
    head + (IntToString(risk) + "/5")
  }

  /** The summary `finalize` returns. */
  datatype Digest = Digest(prMarkdown: string, slackText: string)

  /** The payload of the `approve-propose-fix` clarification. */
  datatype FixPreview = FixPreview(preview: string, risk: int)

  /** What `approve_merge` shows: the CI summary of the issue's repository
      on the plan's branch, or the `KeyError` for a missing `ctx` entry. */
  datatype MergePreview = MergePreview(ci: string, repo: string, branch: string) | PreviewRaised(error: PlanError)

  /** The calls `merge_pr` makes once the PR is known: without approval
      only the "needs-human" label; approved with CI not green, a fetch
      and the test-only labels; otherwise a fetch and a squash merge. */
  function MergeCalls(repo: string, branch: Option<string>, prNumber: int, approved: bool, ciStatus: Option<string>): (cs: seq<ToolCall>)
    requires approved ==> branch.Some?
    ensures approved <==> |cs| == 2
    ensures approved ==> cs[0] == FetchCi(repo, branch.value)
    ensures forall k :: 0 <= k < |cs| && cs[k].LabelPr? ==>
      cs[k].repo == repo && cs[k].prNumber == prNumber && "needs-human" in cs[k].labels
  {
    if !approved then [LabelPr(repo, prNumber, ["needs-human"])]
    else if ciStatus != Some("success") then
      [FetchCi(repo, branch.value), LabelPr(repo, prNumber, ["needs-human", "test-only"])]
    else [FetchCi(repo, branch.value), MergeCall(repo, prNumber, "squash")]
  }

  /** A merge happens, exactly once, only when the merge is approved and
      CI reports success. */
  lemma MergeOnlyWhenGreen(repo: string, branch: Option<string>, prNumber: int, approved: bool, ciStatus: Option<string>)
    requires approved ==> branch.Some?
    ensures var cs := MergeCalls(repo, branch, prNumber, approved, ciStatus);
      && ((exists i :: 0 <= i < |cs| && cs[i].MergeCall?) <==> approved && ciStatus == Some("success"))
      && forall i, j :: 0 <= i < j < |cs| && cs[i].MergeCall? ==> !cs[j].MergeCall?
  {
    var cs := MergeCalls(repo, branch, prNumber, approved, ciStatus);
    if approved && ciStatus == Some("success") {
      assert cs[1].MergeCall?;
    }
  }

  /** The calls `open_pr` makes once the PR body is written: the PR from
      `head` into main, labelled for approval, then the Slack message. */
  function OpenPrCalls(i: Issue, head: string, risk: int, channel: string): (cs: seq<ToolCall>)
    requires i.title.Some?
    ensures |cs| == 2 && cs[0].OpenPullRequest? && cs[1].Notify?
    ensures cs[0].repo == i.repo && cs[0].head == head && cs[0].base == "main"
    ensures cs[1].channel == channel && cs[1].blocks == cs[0].prBody == Summary(i.title, risk)
  {
    [OpenPullRequest(i.repo, "Fix: " + i.title.value, Summary(i.title, risk), head, "main",
                     ["autopilot", "needs-approval"]),
     Notify(channel, Summary(i.title, risk))]
  }

  class BugToPRPlan {
    const cfg: Config
    var issue: Option<Issue>
    var branch: Option<string>
    var failingTrace: Option<string>
    var artifacts: Option<string>
    var prNumber: Option<int>
    /** The tool calls made so far, oldest first. */
    var calls: seq<ToolCall>

    constructor(config: Config)
      ensures cfg == config
      ensures issue == None && branch == None && failingTrace == None && artifacts == None && prNumber == None
      ensures calls == []
    {
      cfg := config;
      issue, branch, failingTrace, artifacts, prNumber := None, None, None, None, None;
      calls := [];
    }

    /** The current `_risk_score`. */
    function Risk(): int
      reads this
    {
      RiskScore(failingTrace, prNumber)
    }

    /** `create_branch`: a repository outside the allowlist is refused
      before any tool call or context write; otherwise the issue and the
      branch "bugfix/{number}-{slug}" are stored and the branch created. */
    method CreateBranch(repo: string, base: Option<string>, issueUrl: string, context: Issue, baseSha: string)
      returns (r: Outcome)
      modifies this
      ensures repo !in cfg.allowlist ==>
        r == Raised(ValueError("Repository " + repo + " is not in the allowlist")) && unchanged(this)
      ensures repo in cfg.allowlist ==>
        && r == Done
        && issue == Some(context) && branch == Some(BranchName(context))
        && failingTrace == old(failingTrace) && artifacts == old(artifacts) && prNumber == old(prNumber)
        && calls == old(calls) + [GetContext(repo, issueUrl), GetBranchSha(repo, GetOr(base, "main")),
                                  CreateBranchCall(repo, baseSha, BranchName(context))]
    {
      if repo !in cfg.allowlist {
        return Raised(ValueError("Repository " + repo + " is not in the allowlist"));
      }
      calls := calls + [GetContext(repo, issueUrl)];
      issue := Some(context);
      calls := calls + [GetBranchSha(repo, GetOr(base, "main"))];
      var name := BranchName(context);
      branch := Some(name);
      calls := calls + [CreateBranchCall(repo, baseSha, name)];
      r := Done;
    }

    /** `push_failing_test`: the trace is stored and the test files are
      committed to the branch, both taken from `FailingTestSource`. The
      trace is written before the branch is looked up. */
    method PushFailingTest(reproPassed: bool, reproTrace: Option<string>, reproFiles: seq<string>,
                           generatedTrace: Option<string>, generatedFiles: seq<string>)
      returns (r: Outcome)
      modifies this
      ensures issue == old(issue) && branch == old(branch) && artifacts == old(artifacts) && prNumber == old(prNumber)
      ensures old(issue).None? ==> r == Raised(KeyError("issue")) && unchanged(this)
      ensures old(issue).Some? ==>
        var (trace, files) := FailingTestSource(reproPassed, reproTrace, reproFiles, generatedTrace, generatedFiles);
        var repo := old(issue).value.repo;
        var run := [CreateWorkspace(repo, "HEAD"), RunCommand(cfg.reproCommand, 240)]
                   + (if reproPassed then [GenerateFailingTest] else []);
        && failingTrace == trace
        && (old(branch).None? ==> r == Raised(KeyError("branch")) && calls == old(calls) + run)
        && (old(branch).Some? ==> r == Done && calls == old(calls) + run + [CommitAndPush(repo, old(branch).value, files)])
    {
      if issue.None? {
        return Raised(KeyError("issue"));
      }
      var repo := issue.value.repo;
      calls := calls + [CreateWorkspace(repo, "HEAD"), RunCommand(cfg.reproCommand, 240)];
      var files;
      if reproPassed {
        calls := calls + [GenerateFailingTest];
        failingTrace := generatedTrace;
        files := generatedFiles;
      } else {
        failingTrace := reproTrace;
        files := reproFiles;
      }
      if branch.None? {
        return Raised(KeyError("branch"));
      }
      calls := calls + [CommitAndPush(repo, branch.value, files)];
      r := Done;
    }

    /** `approve_fix`: asks the diff tool for a preview, then returns it
        with the current risk score. */
    method ApproveFix(preview: string) returns (p: FixPreview)
      modifies this
      ensures issue == old(issue) && branch == old(branch) && failingTrace == old(failingTrace)
      ensures artifacts == old(artifacts) && prNumber == old(prNumber)
      ensures calls == old(calls) + [DiffPreview]
      ensures p == FixPreview(preview, RiskScore(old(failingTrace), old(prNumber))) && 1 <= p.risk <= 3
    {
      calls := calls + [DiffPreview];
      p := FixPreview(preview, Risk());
    }

    /** `approve_merge`: the issue is looked up before the branch, so a plan
        without an issue raises `KeyError("issue")` and one without a
        branch `KeyError("branch")`, both before the CI summary is asked
        for. */
    method ApproveMerge(ciSummary: string) returns (p: MergePreview)
      modifies this
      ensures issue == old(issue) && branch == old(branch) && failingTrace == old(failingTrace)
      ensures artifacts == old(artifacts) && prNumber == old(prNumber)
      ensures old(issue).None? ==> p == PreviewRaised(KeyError("issue")) && calls == old(calls)
      ensures old(issue).Some? && old(branch).None? ==> p == PreviewRaised(KeyError("branch")) && calls == old(calls)
      ensures p.MergePreview? <==> old(issue).Some? && old(branch).Some?
      ensures p.MergePreview? ==>
        p == MergePreview(ciSummary, old(issue).value.repo, old(branch).value)
        && calls == old(calls) + [CiSummary(old(issue).value.repo, old(branch).value)]
    {
      if issue.None? {
        return PreviewRaised(KeyError("issue"));
      }
      if branch.None? {
        return PreviewRaised(KeyError("branch"));
      }
      calls := calls + [CiSummary(issue.value.repo, branch.value)];
      p := MergePreview(ciSummary, issue.value.repo, branch.value);
    }

    /** `propose_fix`: refused without approval before any patch is made;
      after a failing local test run nothing is pushed; otherwise the
      patch's files are committed to the branch. */
    method ProposeFix(approved: bool, patchFiles: seq<string>, testPassed: bool) returns (r: Outcome)
      modifies this
      ensures issue == old(issue) && branch == old(branch) && failingTrace == old(failingTrace)
      ensures artifacts == old(artifacts) && prNumber == old(prNumber)
      ensures !approved ==> r == Raised(ValueError("Fix proposal was not approved")) && calls == old(calls)
      ensures approved ==>
        var patch := [GeneratePatch([], old(failingTrace))];
        && (old(issue).None? ==> r == Raised(KeyError("issue")) && calls == old(calls) + patch)
        && (old(issue).Some? && old(branch).None? ==> r == Raised(KeyError("branch")) && calls == old(calls) + patch)
        && (old(issue).Some? && old(branch).Some? ==>
              var repo, head := old(issue).value.repo, old(branch).value;
              var tested := patch + [CreateWorkspace(repo, head), ApplyPatch, RunCommand(cfg.testCommand, 300)];
              && (!testPassed ==> r == Raised(AssertionError("Local tests must pass after applying the patch"))
                                  && calls == old(calls) + tested)
              && (testPassed ==> r == Done && calls == old(calls) + tested + [CommitAndPush(repo, head, patchFiles)]))
    {
      if !approved {
        return Raised(ValueError("Fix proposal was not approved"));
      }
      calls := calls + [GeneratePatch([], failingTrace)];
      if issue.None? {
        return Raised(KeyError("issue"));
      }
      if branch.None? {
        return Raised(KeyError("branch"));
      }
      var repo, head := issue.value.repo, branch.value;
      calls := calls + [CreateWorkspace(repo, head), ApplyPatch, RunCommand(cfg.testCommand, 300)];
      if !testPassed {
        return Raised(AssertionError("Local tests must pass after applying the patch"));
      }
      calls := calls + [CommitAndPush(repo, head, patchFiles)];
      r := Done;
    }

    /** `open_pr`: stores the CI artifacts and the new PR's number, opens
      the PR titled "Fix: {title}" from the branch into main, and notifies
      Slack. The risk in the body is computed before the PR exists. A
      missing title is a `KeyError` after the CI fetch. */
    method OpenPr(ciArtifacts: Option<string>, newPrNumber: int) returns (r: Outcome)
      modifies this
      ensures issue == old(issue) && branch == old(branch) && failingTrace == old(failingTrace)
      ensures old(issue).None? ==> r == Raised(KeyError("issue")) && unchanged(this)
      ensures old(issue).Some? && old(branch).None? ==> r == Raised(KeyError("branch")) && unchanged(this)
      ensures old(issue).Some? && old(branch).Some? ==>
        var i, head := old(issue).value, old(branch).value;
        var risk := RiskScore(old(failingTrace), old(prNumber));
        var fetched := [FetchCi(i.repo, head), SummarizeDiff];
        && artifacts == ciArtifacts
        && (i.title.None? ==> r == Raised(KeyError("title")) && prNumber == old(prNumber)
                              && calls == old(calls) + fetched)
        && (i.title.Some? ==>
              && r == Done && prNumber == Some(newPrNumber)
              && calls == old(calls) + fetched + OpenPrCalls(i, head, risk, cfg.slackChannel))
    {
      if issue.None? {
        return Raised(KeyError("issue"));
      }
      if branch.None? {
        return Raised(KeyError("branch"));
      }
      r := OpenPrOn(issue.value, branch.value, ciArtifacts, newPrNumber);
    }

    /** The body of `open_pr` once the issue and the branch are known. */
    method OpenPrOn(i: Issue, head: string, ciArtifacts: Option<string>, newPrNumber: int) returns (r: Outcome)
      requires issue == Some(i) && branch == Some(head)
      modifies this
      ensures issue == old(issue) && branch == old(branch) && failingTrace == old(failingTrace)
      ensures artifacts == ciArtifacts
      ensures i.title.None? ==>
        r == Raised(KeyError("title")) && prNumber == old(prNumber)
        && calls == old(calls) + [FetchCi(i.repo, head), SummarizeDiff]
      ensures i.title.Some? ==>
        && r == Done && prNumber == Some(newPrNumber)
        && calls == old(calls) + [FetchCi(i.repo, head), SummarizeDiff]
                   + OpenPrCalls(i, head, RiskScore(old(failingTrace), old(prNumber)), cfg.slackChannel)
    {
      var before := calls;
      calls := calls + [FetchCi(i.repo, head)];
      artifacts := ciArtifacts;
      var risk := RiskScore(failingTrace, prNumber);
      calls := calls + [SummarizeDiff];
      if i.title.None? {
        return Raised(KeyError("title"));
      }
      var after := OpenPrCalls(i, head, risk, cfg.slackChannel);
      calls := calls + after;
      prNumber := Some(newPrNumber);
      r := Done;
    }

    /** `merge_pr`, including `_revert_to_test_only`: the repository is
      read first. Without approval the PR number is read for the
      "needs-human" label; with approval the branch is read and CI fetched
      before the PR number is needed, for the merge or for the test-only
      labels. Nothing in the context changes. */
    method MergePr(approved: bool, ciStatus: Option<string>) returns (r: Outcome)
      modifies this
      ensures issue == old(issue) && branch == old(branch) && failingTrace == old(failingTrace)
      ensures artifacts == old(artifacts) && prNumber == old(prNumber)
      ensures old(issue).None? ==> r == Raised(KeyError("issue")) && calls == old(calls)
      ensures old(issue).Some? && !approved ==>
        && (old(prNumber).None? ==> r == Raised(KeyError("pr_number")) && calls == old(calls))
        && (old(prNumber).Some? ==>
              r == Done && calls == old(calls) + MergeCalls(old(issue).value.repo, old(branch), old(prNumber).value, false, ciStatus))
      ensures old(issue).Some? && approved && old(branch).None? ==>
        r == Raised(KeyError("branch")) && calls == old(calls)
      ensures old(issue).Some? && approved && old(branch).Some? ==>
        && (old(prNumber).None? ==>
              r == Raised(KeyError("pr_number")) && calls == old(calls) + [FetchCi(old(issue).value.repo, old(branch).value)])
        && (old(prNumber).Some? ==>
              r == Done && calls == old(calls) + MergeCalls(old(issue).value.repo, old(branch), old(prNumber).value, true, ciStatus))
    {
      if issue.None? {
        return Raised(KeyError("issue"));
      }
      var repo := issue.value.repo;
      if !approved {
        if prNumber.None? {
          return Raised(KeyError("pr_number"));
        }
        calls := calls + [LabelPr(repo, prNumber.value, ["needs-human"])];
        return Done;
      }
      if branch.None? {
        return Raised(KeyError("branch"));
      }
      calls := calls + [FetchCi(repo, branch.value)];
      if ciStatus != Some("success") {
        r := RevertToTestOnly();
        return;
      }
      if prNumber.None? {
        return Raised(KeyError("pr_number"));
      }
      calls := calls + [MergeCall(repo, prNumber.value, "squash")];
      r := Done;
    }

    /** `_revert_to_test_only`: labels the PR "needs-human" and "test-only";
      the issue and then the PR number are read first. */
    method RevertToTestOnly() returns (r: Outcome)
      modifies this
      ensures issue == old(issue) && branch == old(branch) && failingTrace == old(failingTrace)
      ensures artifacts == old(artifacts) && prNumber == old(prNumber)
      ensures old(issue).None? ==> r == Raised(KeyError("issue")) && calls == old(calls)
      ensures old(issue).Some? && old(prNumber).None? ==> r == Raised(KeyError("pr_number")) && calls == old(calls)
      ensures old(issue).Some? && old(prNumber).Some? ==>
        r == Done && calls == old(calls) + [LabelPr(old(issue).value.repo, old(prNumber).value, ["needs-human", "test-only"])]
    {
      if issue.None? {
        return Raised(KeyError("issue"));
      }
      if prNumber.None? {
        return Raised(KeyError("pr_number"));
      }
      calls := calls + [LabelPr(issue.value.repo, prNumber.value, ["needs-human", "test-only"])];
      r := Done;
    }

    /** `post_deploy`: runs the health check, then comments its result on
      the PR. */
    method PostDeploy(result: string) returns (r: Outcome)
      modifies this
      ensures issue == old(issue) && branch == old(branch) && failingTrace == old(failingTrace)
      ensures artifacts == old(artifacts) && prNumber == old(prNumber)
      ensures old(issue).None? ==> r == Raised(KeyError("issue")) && calls == old(calls) + [Healthcheck(cfg.health)]
      ensures old(issue).Some? && old(prNumber).None? ==>
        r == Raised(KeyError("pr_number")) && calls == old(calls) + [Healthcheck(cfg.health)]
      ensures old(issue).Some? && old(prNumber).Some? ==>
        r == Done && calls == old(calls) + [Healthcheck(cfg.health),
                                            CommentPr(old(issue).value.repo, old(prNumber).value, "Post-deploy: " + result)]
    {
      calls := calls + [Healthcheck(cfg.health)];
      if issue.None? {
        return Raised(KeyError("issue"));
      }
      if prNumber.None? {
        return Raised(KeyError("pr_number"));
      }
      calls := calls + [CommentPr(issue.value.repo, prNumber.value, "Post-deploy: " + result)];
      r := Done;
    }

    /** `finalize`: the digest of the run, also sent to Slack. Without an
      issue in the context the summariser reads a title from `None` and
      fails. */
    method Finalize() returns (r: Outcome, digest: Option<Digest>)
      modifies this
      ensures issue == old(issue) && branch == old(branch) && failingTrace == old(failingTrace)
      ensures artifacts == old(artifacts) && prNumber == old(prNumber)
      ensures old(issue).None? ==> r.Raised? && r.error.AttributeError? && digest == None && calls == old(calls)
      ensures old(issue).Some? ==>
        var title, risk := old(issue).value.title, RiskScore(old(failingTrace), old(prNumber));
        && r == Done && digest == Some(Digest(PrMarkdown(title, risk), SlackText(title, risk)))
        && calls == old(calls) + [Notify(cfg.slackChannel, Summary(title, risk))]
    {
      if issue.None? {
        return Raised(AttributeError("'NoneType' object has no attribute 'get'")), None;
      }
      var title, risk := issue.value.title, Risk();
      var d := Digest(PrMarkdown(title, risk), SlackText(title, risk));
      calls := calls + [Notify(cfg.slackChannel, Summary(title, risk))];
      r, digest := Done, Some(d);
    }
  }
}
