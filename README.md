# Bug-to-PR autopilot: a verified model of its backend core

The autopilot turns a GitHub issue into a pull request. A client posts an
issue URL and a repository. The backend starts a *run*: a record with a
status (`created`, `running`, `paused`, `completed`, `failed`), a fixed plan
of ten named steps, an `approvals` map and an event queue. An executor then
walks the plan in order: fetch the issue, analyse it, analyse the
repository, create a branch, push a failing test, propose a fix, open the
pull request, merge it, check the deployment and finalize.

Two of the steps are *gates*: `propose-fix` and `merge-pr`. At a gate the
run pauses until a human posts a decision. Approving continues the run.
Rejecting fails the run and cancels every later step. Clients follow a run
as a stream of server-sent events.

The Dafny project models:

- the run service (`runs.dfy`, module `Runs`). This is a class over maps of
  runs, append-only event sequences, consumed-event counters and executor
  positions. It holds the executor, proved against a pure step-by-step
  specification `Next`, and the `update_step` and cancellation loops as
  methods proved against functions. Lemmas show:
  - the service invariant is kept;
  - statuses only move forward;
  - the executor only moves forward;
  - a `finished` event comes exactly once, at the end;
  - how a run ends after a rejection and after completion.
- the HTTP handlers (`api.dfy`, module `Api`): field validation, 404
  lookups, the health flag, and the server-sent-event frame. The frame is
  an `event:` line, a `data:` line and a blank line, as in section 9.2 of
  the WHATWG HTML Living Standard. A parser is proved to read every frame
  back.
- the GitHub client (`github.dfy`, module `GitHub`): demo-mode detection,
  issue-URL parsing with a round trip, demo results, and the
  status-code-to-result mapping of each call.
- the fix generators:
  - `intelligent_fix.dfy` (`IntelligentFix`): keyword-selected fixes.
  - `ai_fix.dfy` (`AiFix`): the placeholder detector, code-fence cleanup
    (proved idempotent), title and analysis-fence cleanup, and the template
    fallback.
  - `fixes.dfy` (`Fixes`): the shared issue and fix shapes.
- the repository analyser (`repo_analyzer.dfy`, `RepoAnalyzer`): listing
  loops, the depth guard, README sections, config categorisation,
  extension counts and the classifiers. Every listing the analyser fetches
  is an input value.
- the agent plan (`plan.dfy`, `AgentPlan`): a class whose step methods
  write the plan context and record the tool calls they make. It covers
  risk scoring, the allowlist, the branch name, the approval branching of
  `propose_fix` and `merge_pr`, and the revert to test-only.
- shared string helpers (`text.dfy`, `Text`): Python's `strip` over the
  full set of characters `str.isspace` accepts, an ASCII-level `lower`,
  and `split`, `join` and `in`.

Where the code and its design description disagree, the model follows the
code:

- A failed `open-pr` does not end the run; the executor goes on to
  `merge-pr`.
- `approve` checks only that the gate is one of the two gate names and the
  decision is `approve` or `reject`. It overwrites an earlier decision and
  accepts a decision before the gate is reached.
- The happy-path test in `tests/test_backend.py:25-74` expects `open-pr` to
  succeed for the issue URL `https://example.com/issue/1`. In the code such
  a URL cannot be parsed, so no fix is stored and `open-pr` is marked
  failed. `Runs.ForeignIssueFailsOpenPr` proves this for every host other
  than `github.com`.

## Model

| member | source | states |
|---|---|---|
| GitHub.DemoMode | backend/services/github.py:13 | demo mode holds iff the token is absent, empty or the mock token; otherwise a non-empty token is present |
| GitHub.ParseIssueUrl | backend/services/github.py:168-174 | a URL is accepted iff its '/'-split has at least 7 parts and part 2 is `github.com`; owner, repo and number are parts 3, 4 and 6, and none holds a '/' |
| GitHub.IssueUrlRoundTrip | backend/services/github.py:168-174 | parsing the issue URL built from an owner, repo and number gives back exactly those three |
| GitHub.PullUrlAccepted | backend/services/github.py:168-174 | part 5 is not checked: a `/pull/` URL parses like an issue URL |
| GitHub.ForeignHostRefused | backend/services/github.py:168-170 | any URL on a host other than `github.com` is refused |
| GitHub.DemoIssue | backend/services/github.py:176-197 | the demo issue's repo is `owner/repo`; the demo repository with number 1 gets the fixed CONTRIBUTING title, any other gets `Demo Issue #<n>` |
| GitHub.GetIssueDetails | backend/services/github.py:165-213 | an unparsable URL gives `Invalid GitHub issue URL`; demo mode gives the demo issue; otherwise success iff the reply status is 200, carrying the parsed repo and number |
| GitHub.CreateBranch | backend/services/github.py:24-64 | the branch is the given name or `bugfix/auto-fix-<timestamp>`; demo mode always succeeds; otherwise success iff the ref lookup is 200 and the creation is 201, with the base commit's sha |
| GitHub.CreateFile | backend/services/github.py:66-103 | demo mode succeeds; otherwise success iff the status is 200 or 201; a success names the path written |
| GitHub.AnyAlreadyExists | backend/services/github.py:140-143 | holds iff some error message contains `already exists` |
| GitHub.CreatePullRequest | backend/services/github.py:105-163 | demo numbers lie in [0, 999]; a real success needs status 201, or 422 with an existing PR whose number is returned |
| GitHub.CreateIssueComment | backend/services/github.py:215-231 | success iff the status is 201, carrying the comment id |
| IntelligentFix.ContributingGuide | backend/services/intelligent_fix.py:25-254 | the guide starts with `# Contributing to <repo>` |
| IntelligentFix.ContributingPrBody | backend/services/intelligent_fix.py:283-315 | the body ends with the `Closes #<number>` line, `N/A` when the number is absent |
| IntelligentFix.GenericPrBody | backend/services/intelligent_fix.py:317-338 | the body ends with the `Closes #<number>` line |
| IntelligentFix.ContributingFix | backend/services/intelligent_fix.py:23-266 | one file, `CONTRIBUTING.md`, starting with the guide heading; fix type `contributing`; the body closes the issue |
| IntelligentFix.GenericFix | backend/services/intelligent_fix.py:268-281 | one file `fixes/generic_fix.md` holding `# Fix for: <title>` and the body; title `Fix: <title>` or `Fix: Issue fix`; fix type `generic` |
| IntelligentFix.AnalyzeIssueAndGenerateFix | backend/services/intelligent_fix.py:12-21 | the contributing fix is chosen iff the lower-cased title or body mentions `contributing`, otherwise the generic fix; both have one file and close the issue |
| IntelligentFix.UpperCaseSelectsGuide | backend/services/intelligent_fix.py:14-21 | selection ignores case: a title containing any spelling whose lower-case form is `contributing` (`CONTRIBUTING`, `Contributing`) selects `CONTRIBUTING.md` |
| AiFix.ScanIndicators | backend/services/ai_fix_generator.py:400-429 | the scan loop finds an indicator iff some lower-cased indicator occurs in the lower-cased content |
| AiFix.IsPlaceholderContent | backend/services/ai_fix_generator.py:395-440 | empty or short content, any indicator, or a short `def test_` with `pass` is a placeholder, and nothing else is |
| AiFix.TestFileAssertTrueSubsumed | backend/services/ai_fix_generator.py:425-440 | the `assert True` test-file check adds nothing to the indicator scan: content is a placeholder iff it is empty or short, holds an indicator, or is a `def test_` file with `pass` under 200 stripped characters |
| AiFix.InsideFences | backend/services/ai_fix_generator.py:161-173 | the kept lines are never more than the input lines |
| AiFix.CodeBlockLines | backend/services/ai_fix_generator.py:157-173 | the `in_code_block` loop keeps exactly the lines strictly inside fences |
| AiFix.CleanFileContent | backend/services/ai_fix_generator.py:157-175 | the cleanup equals the fence-stripping specification, applied only to content starting with a fence |
| AiFix.InsideFencesHasNoFence | backend/services/ai_fix_generator.py:161-173 | no kept line is a fence line |
| AiFix.CleanIdempotent | backend/services/ai_fix_generator.py:157-175 | cleaning cleaned content changes nothing |
| AiFix.CleanTitle | backend/services/ai_fix_generator.py:153-155 | a title quoted at both ends loses exactly its first and last character; any other title is unchanged |
| AiFix.FenceTests | backend/services/ai_fix_generator.py:111-116 | the character-by-character fence tests agree with `startswith('```')`, `startswith('```json')` and `endswith('```')` |
| AiFix.Unfence | backend/services/ai_fix_generator.py:111-116 | dropping the fences never lengthens the text |
| AiFix.StripAnalysisFence | backend/services/ai_fix_generator.py:110-118 | the result is no longer than the reply and has no surrounding whitespace |
| AiFix.FencedAnalysisRoundTrip | backend/services/ai_fix_generator.py:110-118 | a `json`-fenced reply gives back the stripped JSON inside it |
| AiFix.BareAnalysisUnchanged | backend/services/ai_fix_generator.py:110-118 | an unfenced, already stripped reply is left as it is |
| AiFix.ContributingTemplate | backend/services/ai_fix_generator.py:592-680 | one `CONTRIBUTING.md` starting with the guide heading; fix type `contributing`; the body closes the issue |
| AiFix.GenericTemplate | backend/services/ai_fix_generator.py:682-769 | `license` gives `LICENSE`, else `contributing` gives `CONTRIBUTING.md`, else `fixes/issue_fix.md`, each with its fix type |
| AiFix.TemplateFix | backend/services/ai_fix_generator.py:581-590 | exactly one file; `contributing` first, then `license`, then generic, each iff its keyword test, with the matching path |
| AiFix.DraftFiles | backend/services/ai_fix_generator.py:133-147 | one file per path in order; a placeholder draft is replaced by the regenerated one; the commit message names the path |
| AiFix.DraftFile | backend/services/ai_fix_generator.py:134-146 | one file: the drafted content, or the regenerated content when the draft is a placeholder, with the commit message naming the path |
| AiFix.CleanFiles | backend/services/ai_fix_generator.py:157-175 | each file's content is replaced by its cleaned form; path and message are kept |
| AiFix.GenerateAiFix | backend/services/ai_fix_generator.py:126-183 | one cleaned file per path to create; the title is unquoted; the fix type is the issue type or `ai_generated` |
| AiFix.AnalyzeIssueAndGenerateFix | backend/services/ai_fix_generator.py:27-50 | without an analysis, or after an exception, the template fix; otherwise one file per path to create, in order |
| RepoAnalyzer.FilesOf | backend/services/repo_analyzer.py:114-127 | each file info comes from a listed file |
| RepoAnalyzer.DirsOf | backend/services/repo_analyzer.py:114-127 | each directory info comes from a listed directory |
| RepoAnalyzer.FilesAndDirsWithinListing | backend/services/repo_analyzer.py:114-127 | files and directories together never outnumber the listing |
| RepoAnalyzer.SortEntries | backend/services/repo_analyzer.py:114-127 | the loop sorts the listing into exactly the files and the directories |
| RepoAnalyzer.AnalyzeSubdirectory | backend/services/repo_analyzer.py:144-178 | past the maximum depth it reports `max_depth_reached` without fetching; otherwise it gives the listing at that depth |
| RepoAnalyzer.AnalyzeStructure | backend/services/repo_analyzer.py:101-142 | a failed fetch gives the error; a non-200 status gives an empty structure; otherwise files, directories and counts come from the listing, and no first-level directory reports the depth limit |
| RepoAnalyzer.Headers | backend/services/repo_analyzer.py:263-272 | never more headers than lines |
| RepoAnalyzer.HeadersStartWithHash | backend/services/repo_analyzer.py:263-272 | every header starts with '#' |
| RepoAnalyzer.ExtractReadmeSections | backend/services/repo_analyzer.py:263-272 | at most 10 sections, a prefix of the stripped '#' lines in document order, all of them when there are fewer than 10 |
| RepoAnalyzer.FirstCategory | backend/services/repo_analyzer.py:303-314 | the first category from the given one whose pattern matches the name, or none matches |
| RepoAnalyzer.InCategory | backend/services/repo_analyzer.py:303-314 | each file in a bucket has that bucket as its first matching category |
| RepoAnalyzer.FileIntoCategory | backend/services/repo_analyzer.py:303-314 | one file goes into its first matching bucket only |
| RepoAnalyzer.FindConfigFiles | backend/services/repo_analyzer.py:274-320 | a failed fetch gives the error; a non-200 status gives empty buckets; otherwise each bucket holds exactly the root files of that category |
| RepoAnalyzer.LastIndex | backend/services/repo_analyzer.py:339-346 | the last occurrence of the character, or none |
| RepoAnalyzer.Extension | backend/services/repo_analyzer.py:339-346 | the extension is empty or a dot-led suffix of the name with no further dot |
| RepoAnalyzer.DotFileHasNoExtension | backend/services/repo_analyzer.py:339-346 | a name whose only dot is its first character has no extension |
| RepoAnalyzer.ExtensionCounts | backend/services/repo_analyzer.py:339-346 | the empty extension is never counted |
| RepoAnalyzer.ExtensionCountsSum | backend/services/repo_analyzer.py:339-346 | the counts sum to the number of files with a non-empty extension |
| RepoAnalyzer.ExtensionCountsKeys | backend/services/repo_analyzer.py:339-346 | an extension is counted iff it is non-empty and some file has it |
| RepoAnalyzer.CountExtensions | backend/services/repo_analyzer.py:339-346 | the counting loop builds exactly the extension counts |
| RepoAnalyzer.AnalyzePatterns | backend/services/repo_analyzer.py:322-352 | a failed fetch gives the error; a non-200 status gives no counts; otherwise the extension counts of the root listing |
| RepoAnalyzer.DetermineProjectType | backend/services/repo_analyzer.py:417-449 | each project type holds iff its branch condition: JavaScript/TypeScript first (react before node), then Python (django before flask), then Java, Go and Rust, else general |
| RepoAnalyzer.ExtractTechStack | backend/services/repo_analyzer.py:451-475 | an entry is present iff it is a language, a framework topic or the label of a non-empty tool category |
| RepoAnalyzer.ExtractStructureInsights | backend/services/repo_analyzer.py:477-495 | large iff more than 100 files, small iff fewer than 10, never both; organised iff more than 5 directories; exactly one documentation insight |
| RepoAnalyzer.GenerateRecommendations | backend/services/repo_analyzer.py:497-511 | README, testing and linting items each appear iff the README, test config or linter config is missing |
| AgentPlan.RiskScore | agent/plan.py:271-302 | the score lies in 1..3; it is 1 iff neither trace nor PR number is truthy, and 3 iff both are |
| AgentPlan.RiskScoreTestCases | tests/test_plan.py:25-43 | the scores the plan tests expect |
| AgentPlan.BranchName | agent/plan.py:101-102 | the branch starts with `bugfix/` and ends with `-<slug>` |
| AgentPlan.FailingTestSource | agent/plan.py:117-127 | trace and files come from the generated test when reproduction passes, otherwise from the reproduction |
| AgentPlan.PrMarkdown | agent/plan.py:49-64 | the summary starts with `# Fix for <title>`, or `Unknown issue` without a title |
| AgentPlan.SlackText | agent/plan.py:49-64 | the Slack text starts with the heading and the title (`Unknown` without one) and ends with the risk out of 5 |
| AgentPlan.MergeOnlyWhenGreen | agent/plan.py:217-236 | a merge call happens iff the merge is approved and CI is green, and never twice |
| AgentPlan.MergeCalls | agent/plan.py:217-230 | an approved merge makes two calls, the first the CI fetch on the branch; every label call is on the PR and includes `needs-human` |
| AgentPlan.BugToPRPlan.constructor | agent/plan.py:76-88 | the plan starts with its configuration, an empty context and no calls |
| AgentPlan.BugToPRPlan.CreateBranch | agent/plan.py:90-110 | a repo outside the allowlist raises ValueError before any call or context write; otherwise the issue and branch are stored and the branch is created from the base |
| AgentPlan.BugToPRPlan.PushFailingTest | agent/plan.py:111-138 | a missing issue raises KeyError and changes nothing; otherwise reproduction runs (and test generation when it passes), the chosen trace is stored, and the chosen files are pushed on the branch, or KeyError when there is no branch |
| AgentPlan.BugToPRPlan.ApproveFix | agent/plan.py:139-144 | records the `diff.preview` call and nothing else; the preview carries the risk score of the current context, which lies in 1..3 |
| AgentPlan.BugToPRPlan.ApproveMerge | agent/plan.py:206-210 | KeyError for a missing issue, then for a missing branch, with no call made; otherwise one `ci.summary` call for the repo and branch, whose answer the preview carries |
| AgentPlan.BugToPRPlan.ProposeFix | agent/plan.py:152-173 | an unapproved decision raises ValueError before any call; after the patch is generated a missing issue or branch raises KeyError; failing local tests raise AssertionError and push nothing; otherwise the patch is pushed on the branch |
| AgentPlan.BugToPRPlan.OpenPr | agent/plan.py:174-205 | KeyError for a missing issue, then a missing branch, with nothing changed; otherwise the PR is opened and its number stored |
| AgentPlan.BugToPRPlan.OpenPrOn | agent/plan.py:176-205 | the CI artifacts are fetched and stored and the diff summarised first; a missing title then raises KeyError and opens nothing; otherwise the PR is opened with the risk summary, Slack is notified and the number stored |
| AgentPlan.OpenPrCalls | agent/plan.py:187-200 | the PR is opened from the branch into `main` on the issue's repo, then Slack is notified on the configured channel with the same summary the PR body was written from |
| AgentPlan.BugToPRPlan.MergePr | agent/plan.py:217-230 | KeyError for a missing issue first; unapproved: KeyError for a missing PR number, else only the needs-human label; approved: KeyError for a missing branch before any call, then the CI fetch, then KeyError for a missing PR number, else the test-only labels (CI not green) or one squash merge |
| AgentPlan.BugToPRPlan.RevertToTestOnly | agent/plan.py:315-325 | KeyError for a missing issue, then for a missing PR number, with no call; otherwise exactly one label call with `needs-human` and `test-only`, nothing else changed |
| AgentPlan.BugToPRPlan.PostDeploy | agent/plan.py:237-248 | the health check runs first; a missing issue or PR number raises KeyError afterwards; otherwise the result is posted |
| AgentPlan.BugToPRPlan.Finalize | agent/plan.py:249-269 | without an issue it raises AttributeError, calls nothing and digests nothing; otherwise one Slack notification and a digest of the PR Markdown and Slack text built from the title and risk |
| Runs.StepsDistinct | backend/services/runs.py:136-147 | the ten step names are distinct |
| Runs.InitialPlan | backend/services/runs.py:70-81 | ten steps in the fixed order, all pending |
| Runs.IndexOf | backend/services/runs.py:124-129 | the first position holding the name, or none holds it |
| Runs.SetStatus | backend/services/runs.py:124-129 | the plan keeps its length and every step's name |
| Runs.UpdateStep | backend/services/runs.py:122-129 | the search loop sets the first step with that name to the new status and nothing else |
| Runs.CancelAfter | backend/services/runs.py:386-391 | the plan keeps its length and every step's name |
| Runs.CancelLater | backend/services/runs.py:386-391 | the `seen` loop cancels exactly the pending steps after the gate |
| Runs.RejectCancels | backend/services/runs.py:384-391 | after a rejection, steps before the gate are unchanged, the gate is rejected and every later step is cancelled |
| Runs.LogEvents | backend/services/runs.py:158-321 | each log entry becomes one log event, in order |
| Runs.OpenPrWork | backend/services/runs.py:224-293 | `open-pr` fails iff there is no fix or no issue details, logging the no-fix message and changing nothing; only a success records a PR, titled with the fix's title in demo mode; only the PR fields change |
| Runs.FinalizeWork | backend/services/runs.py:301-321 | finalize always succeeds and logs the comment iff there is a PR and issue details and the comment was created |
| Runs.StepWork | backend/services/runs.py:158-321 | a non-gate step fails iff it is `open-pr` without a fix or issue details; only fetch touches issue details; only `open-pr` records a PR; the data invariant is kept |
| Runs.ApprovedGateWork | backend/services/runs.py:339-383 | an approved gate succeeds; at `propose-fix` the fix is stored with refetched issue details; `merge-pr` does nothing; no PR is recorded |
| Runs.NewRun | backend/services/runs.py:66-92 | a new run is `created` with the initial plan, no approvals and no GitHub data, and satisfies the run invariant |
| Runs.Message | backend/services/runs.py:171-380 | the text of each log line the executor emits (no contract; the log entries it renders are what `StepWork` and `ApprovedGateWork` state) |
| Runs.Begin | backend/services/runs.py:128-156 | the executor's start: the run becomes `running` with empty GitHub data and one `stateChanged` event (no contract; `NextPreservesInv` covers it) |
| Runs.StepSegment | backend/services/runs.py:158-334 | one loop iteration up to its next wait: the step set running, then a non-gate step's work and outcome, or a gate set waiting with the clarification request and the pause (no contract; `StepSegmentInv` states what it keeps) |
| Runs.Resolve | backend/services/runs.py:335-397 | a gate whose decision is recorded: approval resumes after the gate's work, anything else rejects the gate, cancels later pending steps, fails the run and emits `finished` (no contract; `ResolveInv` and `RejectionEndsRun` state it) |
| Runs.Finish | backend/services/runs.py:399-405 | after the loop a run that has not failed completes, with `finished` last (no contract; `FinishInv` and `CompletionEndsRun` state it) |
| Runs.Next | backend/services/runs.py:104-405 | one segment of `_run_plan` between suspension points; a gate without a decision does not move (no contract; `NextPreservesInv`, `StatusesMoveForward`, `Progress` and `FinishedOnceAtEnd` are its properties) |
| Runs.StepSegmentInv | backend/services/runs.py:158-334 | running a step keeps the run invariant and the run's identity |
| Runs.ResolveInv | backend/services/runs.py:335-397 | resolving a decided gate keeps the run invariant and the run's identity |
| Runs.FinishInv | backend/services/runs.py:399-405 | completion keeps the invariant and leaves the plan as it was |
| Runs.NextPreservesInv | backend/services/runs.py:104-405 | every executor segment keeps the run invariant and the run's identifier, URL, repo and start time |
| Runs.StatusesMoveForward | backend/services/runs.py:158-163 | each step's status only moves pending to running to success, failed or waiting, waiting to success or rejected, or pending to cancelled |
| Runs.Progress | backend/services/runs.py:158-163 | the executor stands still iff it has returned or waits at an undecided gate, changing nothing then; otherwise its position strictly advances |
| Runs.FinishesConcat | backend/services/runs.py:397-405 | `finished` events of a concatenation add up |
| Runs.NoFinishesInLogs | backend/services/runs.py:158-321 | log events are never `finished` events |
| Runs.FinishedOnceAtEnd | backend/services/runs.py:384-405 | a segment emits `finished` exactly when the executor returns, once, as its last event, with the final status completed or failed |
| Runs.RejectionEndsRun | backend/services/runs.py:384-397 | a rejection fails the run with the gate rejected, earlier steps unchanged and later ones cancelled; the last two events publish that plan and `finished{failed}` |
| Runs.CompletionEndsRun | backend/services/runs.py:399-405 | the end of the loop completes the run, leaves every step as it was and ends with `finished{completed}` |
| Runs.OpenPrFailsWithoutFix | backend/services/runs.py:232-235 | without a fix `open-pr` is failed and logged, yet the run stays running and moves to `merge-pr` |
| Runs.ForeignIssueFailsOpenPr | tests/test_backend.py:25-74 | for an issue URL on another host, approving `propose-fix` stores no fix and the next segment marks `open-pr` failed |
| Runs.DemoFixOpensPr | backend/services/runs.py:339-383 | in demo mode a GitHub issue gets its fix at `propose-fix`, and `open-pr` then succeeds with a PR titled by the fix |
| Runs.DemoFixProposed | backend/services/runs.py:339-380 | in demo mode an approved `propose-fix` stores the fix and the issue details and moves on to `open-pr` |
| Runs.DemoOpensPr | backend/services/runs.py:224-294 | in demo mode `open-pr` with a fix and issue details opens a PR titled by the fix, succeeds and moves on to `merge-pr` |
| Runs.TakeEvents | backend/services/runs.py:442-448 | the loop takes events up to and including the first `finished` one, or all that are queued, and says whether it saw `finished` |
| Runs.RunStep | backend/services/runs.py:158-334 | the imperative step segment equals its specification |
| Runs.ResolveGate | backend/services/runs.py:335-397 | the imperative gate resolution equals its specification |
| Runs.FinishRun | backend/services/runs.py:399-405 | the imperative completion equals its specification |
| Runs.Segment | backend/services/runs.py:104-405 | one imperative executor segment equals `Next` |
| Runs.StreamEnd | backend/services/runs.py:439-448 | the stream stops right after the first `finished` event from the given position, or at the end of the queue |
| Runs.RecordKeepsInv | backend/services/runs.py:457-476 | recording a decision keeps the run invariant at any executor position |
| Runs.SegmentKeepsHealth | backend/services/runs.py:104-405 | a segment's emitted events appended to the queue keep the store's per-run invariant |
| Runs.RunService.constructor | backend/services/runs.py:48-53 | a new service has no runs |
| Runs.RunService.Start | backend/services/runs.py:56-102 | the new run is stored, its queue holds exactly `stateChanged{created}`, and it is listed last |
| Runs.RunService.Advance | backend/services/runs.py:104-405 | an unknown run changes nothing; otherwise the run, its queue and its position follow `Next` |
| Runs.RunService.Approve | backend/services/runs.py:450-476 | an unknown run raises KeyError, then an unknown gate and then an unknown decision raise ValueError, changing nothing; otherwise the decision overwrites `approvals[gate]` and one `approvalRecorded` event is appended |
| Runs.RunService.Describe | backend/services/runs.py:424-430 | the stored run, or the `not found` KeyError for an unknown one |
| Runs.RunService.ListRuns | backend/services/runs.py:407-422 | one summary per run in creation order |
| Runs.RunService.Stream | backend/services/runs.py:432-448 | an unknown run yields nothing; otherwise the queued events in order up to and including the first `finished` |
| Api.HealthCheck | backend/main.py:38-50 | `services.github` is `connected` iff some run exists, else `idle`; the status, fixed timestamp, version and backend fields are constant |
| Api.CreateRun | backend/main.py:52-60 | a missing or empty `issueUrl` or `repo` is a 400 that leaves the store unchanged; otherwise a run is started under the fresh id, which is returned: the new record, its queue holding only the `created` event, an unread cursor, a not-started executor and the id appended to the order |
| Api.ListRuns | backend/main.py:62-73 | one summary per run, in creation order, each with that run's id |
| Api.GetRun | backend/main.py:75-81 | the run iff it exists, else 404 `Run not found` |
| Api.OpenEvents | backend/main.py:83-92 | 404 for an unknown run; a known run always has a queue |
| Api.SseFrame | backend/main.py:98 | one frame: the `event:` line, the `data:` line and the blank line that dispatches it (no contract; `FrameLines`, `FrameRoundTrip` and `FrameUnique` state its shape and relate it to `ParseFrame`) |
| Api.ParseFrame | backend/main.py:98 | a frame that parses yields a type and data without line breaks |
| Api.FrameLines | backend/main.py:98 | a frame splits into the `event:` line, the `data:` line and the empty terminator |
| Api.FrameRoundTrip | backend/main.py:98 | a frame parses back to its event type and data |
| Api.FrameUnique | backend/main.py:98 | every text that parses as a frame is exactly the frame of what it parses to |
| Api.PullFrame | backend/main.py:94-112 | the next unread event as a frame, or a keepalive iff the queue holds no unread event; it goes on after `finished` |
| Api.ApproveRun | backend/main.py:114-129 | a missing gate or decision is a 400, then an unknown run a 404, both leaving the store unchanged; a missing note becomes ""; a refused gate or decision is a 500 with runs and queues unchanged; otherwise `success`, only that run's approval for the gate replaced and an `approvalRecorded` event appended to its queue; cursors, executors and order never change |

## Left out

- Scheduling: asyncio tasks, `asyncio.sleep` delays and the 0.1 s polling loop. One `Advance` call runs the executor from one wait to the next, and a gate wait is a position that does not move until a decision is recorded.
- Timing: the 30 s `wait_for` timeout of the event generator. A keepalive is sent exactly when the queue holds no unread event.
- Fresh values: run ids (uuid), timestamps and the demo PR number's clock are parameters.
- Opaque calls: `json.dumps` is the `encode` parameter of `Api.PullFrame`, and JSON parsing of the AI analysis is an input. The body of each `requests` call, each OpenAI call and each Portia SDK call is reduced to the outcome it yields; the prompts are not modelled.
- Exceptions thrown by the GitHub client in `create-branch`, `open-pr`, the finalize comment and the refetch at `propose-fix` are not modelled. Only the fetch step catches them, modelled as `fetchRaises`. An uncaught exception would stop the executor with the run still `running` or `paused`.
- Plan sharing: the events and the described run share the live plan list, so a later step update is visible through an earlier event. The model's events carry snapshots of the plan.
- Not stored: the `ai_analysis` dictionary of a fix and the unused `events` list of a run record.
- Log entries' extra fields (`file_path`, `pr_url`, `ai_generated`) are not kept; each entry keeps its message.
- Stream resumption: `Runs.RunService.Stream` consumes up to and including the first `finished`. Resuming a stream later starts from the next unread event, as a fresh call of the generator would.
- Payload values other than strings or absence (numbers, nulls) in the HTTP bodies.
- Text: Python's `lower` is modelled on ASCII letters only; there is no Unicode case folding. (`strip` uses Python's full whitespace set.)
- Language percentages: these floats are left out; the classifiers read only the set of language names.
- The long Markdown and LICENSE template bodies are opaque string constants. Only their first heading and closing line are modelled.
- In `agent/plan.py`, configuration keys are taken as present, and the summariser keeps only the issue title and the risk.
- `backend/services/portia_service.py`, `agent/portia_integration.py`, the Portia status endpoints of `backend/main.py` (131-145), `install_and_run.py` and the test scripts are not part of this model.
- In `agent/plan.py` the tool calls are recorded as a sequence of call descriptions; their results (branch sha, test outcome, CI status, new PR number) are parameters.
