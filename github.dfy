/** The GitHub client of the backend (`GitHubService`): issue-URL parsing,
    demo-mode simulation and the mapping from HTTP status codes to results.
    HTTP replies and the clock are inputs; nothing here performs a request. */
module GitHub {
  import opened Text

  const MOCK_TOKEN := "mock_token_for_testing"
  const DEMO_REPO := "n8n-automation-templates-5000"
  const DEMO_TITLE := "Add CONTRIBUTING.md with guidelines for submitting templates and PR workflow"
  const DEMO_BODY := "Currently, the repository does not include a CONTRIBUTING.md file. Adding one would provide clear, standardized instructions for contributors who want to add new n8n automation templates, fix issues, or improve documentation."
  const GENERIC_DEMO_BODY := "This is a demo issue for testing purposes."

  /** The service simulates every operation when the token is absent, empty
      or the testing placeholder. */
  function DemoMode(token: Option<string>): (demo: bool)
    ensures demo <==> token == None || token == Some("") || token == Some(MOCK_TOKEN)
    ensures !demo ==> token.Some? && |token.value| > 0
  {
    match token
    case None => true
    case Some(t) => t == "" || t == MOCK_TOKEN
  }

  datatype IssueRef = IssueRef(owner: string, repo: string, number: string)

  datatype IssueDetails = IssueDetails(
    title: string, body: string, repo: string, issueNumber: string,
    labels: seq<string>, demo: bool)

  datatype IssueResult = IssueOk(details: IssueDetails) | IssueError(message: string)

  /** What GET /repos/{owner}/{repo}/issues/{number} answered. */
  datatype IssueReply = IssueReply(status: int, title: string, body: string, labels: seq<string>)

  /** The '/'-split of an issue URL: at least seven parts and "github.com"
      as the host part; the owner, repository and number are parts 3, 4
      and 6, and part 5 is not looked at. */
  function ParseIssueUrl(url: string): (r: Option<IssueRef>)
    ensures var parts := Split(url, '/');
      && (r.None? <==> |parts| < 7 || parts[2] != "github.com")
      && (r.Some? ==> r.value == IssueRef(parts[3], parts[4], parts[6]))
    ensures r.Some? ==> '/' !in r.value.owner && '/' !in r.value.repo && '/' !in r.value.number
  {
    var parts := Split(url, '/');
    if |parts| < 7 || parts[2] != "github.com" then None
    else Some(IssueRef(parts[3], parts[4], parts[6]))
  }

  /** The canonical issue URL of a repository issue. */
  function IssueUrl(owner: string, repo: string, number: string): string {
    "https://github.com/" + owner + "/" + repo + "/issues/" + number
  }

  /** Parsing the canonical URL recovers its owner, repository and number. */
  lemma IssueUrlRoundTrip(owner: string, repo: string, number: string)
    requires '/' !in owner && '/' !in repo && '/' !in number
    ensures ParseIssueUrl(IssueUrl(owner, repo, number)) == Some(IssueRef(owner, repo, number))
  {
    SplitSevenParts(owner, repo, "issues", number);
    assert IssueUrl(owner, repo, number)
        == "https:" + "/" + ("" + "/" + ("github.com" + "/" + (owner + "/" + (repo + "/" + ("issues" + "/" + number)))));
  }

  /** Part 5 is not checked: a pull-request URL is read as an issue URL. */
  lemma PullUrlAccepted(owner: string, repo: string, number: string)
    requires '/' !in owner && '/' !in repo && '/' !in number
    ensures ParseIssueUrl("https://github.com/" + owner + "/" + repo + "/pull/" + number)
         == Some(IssueRef(owner, repo, number))
  {
    SplitSevenParts(owner, repo, "pull", number);
    assert "https://github.com/" + owner + "/" + repo + "/pull/" + number
        == "https:" + "/" + ("" + "/" + ("github.com" + "/" + (owner + "/" + (repo + "/" + ("pull" + "/" + number)))));
  }

  lemma SplitSevenParts(owner: string, repo: string, kind: string, number: string)
    requires '/' !in owner && '/' !in repo && '/' !in kind && '/' !in number
    ensures Split("https:" + "/" + ("" + "/" + ("github.com" + "/" + (owner + "/" + (repo + "/" + (kind + "/" + number))))), '/')
         == ["https:", "", "github.com", owner, repo, kind, number]
  {
    var t3 := owner + "/" + (repo + "/" + (kind + "/" + number));
    SplitThreeParts(owner, repo, kind, number);
    var t2 := "github.com" + "/" + t3;
    SplitCons("github.com", '/', t3);
    assert Split(t2, '/') == ["github.com", owner, repo, kind, number];
    var t1 := "" + "/" + t2;
    SplitCons("", '/', t2);
    assert Split(t1, '/') == ["", "github.com", owner, repo, kind, number];
    SplitCons("https:", '/', t1);
  }

  lemma SplitThreeParts(owner: string, repo: string, kind: string, number: string)
    requires '/' !in owner && '/' !in repo && '/' !in kind && '/' !in number
    ensures Split(owner + "/" + (repo + "/" + (kind + "/" + number)), '/') == [owner, repo, kind, number]
  {
    SplitSolid(number, '/');
    SplitCons(kind, '/', number);
    SplitCons(repo, '/', kind + "/" + number);
    SplitCons(owner, '/', repo + "/" + (kind + "/" + number));
  }

  /** The host part is checked: an URL whose host is not github.com is refused. */
  lemma ForeignHostRefused(host: string, rest: string)
    requires '/' !in host && host != "github.com"
    ensures ParseIssueUrl("https://" + host + "/" + rest) == None
  {
    var t1 := "" + "/" + (host + "/" + rest);
    SplitCons(host, '/', rest);
    SplitCons("", '/', host + "/" + rest);
    SplitCons("https:", '/', t1);
    assert "https://" + host + "/" + rest == "https:" + "/" + t1;
  }

  /** The simulated issue: one fixed CONTRIBUTING request, otherwise a
      generic demo issue named after the number. */
  function DemoIssue(ref: IssueRef): (d: IssueDetails)
    ensures d.repo == ref.owner + "/" + ref.repo && d.issueNumber == ref.number && d.demo
    ensures ref.repo == DEMO_REPO && ref.number == "1" ==> d.title == DEMO_TITLE
    ensures !(ref.repo == DEMO_REPO && ref.number == "1") ==> d.title == "Demo Issue #" + ref.number
  {
    if ref.repo == DEMO_REPO && ref.number == "1" then
      IssueDetails(DEMO_TITLE, DEMO_BODY, ref.owner + "/" + ref.repo, ref.number,
                   ["documentation", "enhancement"], true)
    else
      IssueDetails("Demo Issue #" + ref.number, GENERIC_DEMO_BODY, ref.owner + "/" + ref.repo,
                   ref.number, ["demo"], true)
  }

  /** `get_issue_details`: an invalid URL is an error in every mode; demo
      mode always succeeds on a valid URL; otherwise only a 200 reply does. */
  function GetIssueDetails(demo: bool, url: string, reply: IssueReply): (r: IssueResult)
    ensures ParseIssueUrl(url).None? ==> r == IssueError("Invalid GitHub issue URL")
    ensures ParseIssueUrl(url).Some? && demo ==> r == IssueOk(DemoIssue(ParseIssueUrl(url).value))
    ensures ParseIssueUrl(url).Some? && !demo ==> (r.IssueOk? <==> reply.status == 200)
    ensures r.IssueOk? ==> var ref := ParseIssueUrl(url).value;
      r.details.repo == ref.owner + "/" + ref.repo && r.details.issueNumber == ref.number
  {
    match ParseIssueUrl(url)
    case None => IssueError("Invalid GitHub issue URL")
    case Some(ref) =>
      if demo then IssueOk(DemoIssue(ref))
      else if reply.status == 200 then
        IssueOk(IssueDetails(reply.title, reply.body, ref.owner + "/" + ref.repo, ref.number,
                             reply.labels, false))
      else IssueError("Failed to get issue: " + IntToString(reply.status))
  }

  datatype BranchResult = BranchOk(branch: string, sha: string, demo: bool) | BranchError(message: string)

  function DefaultBranchName(timestamp: string): string {
    "bugfix/auto-fix-" + timestamp
  }

  /** `create_branch`: an absent or empty name becomes the timestamped
      default; demo mode always succeeds; otherwise the base ref must be
      read (200) and the new ref created (201). */
  function CreateBranch(demo: bool, newBranch: Option<string>, timestamp: string,
                        refStatus: int, baseSha: string, createStatus: int): (r: BranchResult)
    ensures r.BranchOk? ==> r.branch == (if newBranch == None || newBranch == Some("")
                                         then DefaultBranchName(timestamp) else newBranch.value)
    ensures demo ==> r.BranchOk? && r.demo
    ensures !demo ==> (r.BranchOk? <==> refStatus == 200 && createStatus == 201)
    ensures !demo && r.BranchOk? ==> r.sha == baseSha
  {
    var name := match newBranch
                case None => DefaultBranchName(timestamp)
                case Some(b) => if b == "" then DefaultBranchName(timestamp) else b;
    if demo then BranchOk(name, "demo_sha_123456", true)
    else if refStatus != 200 then BranchError("Failed to get base branch: " + IntToString(refStatus))
    else if createStatus == 201 then BranchOk(name, baseSha, false)
    else BranchError("Failed to create branch: " + IntToString(createStatus))
  }

  datatype FileResult = FileOk(path: string, sha: string, demo: bool) | FileError(message: string)

  /** `create_file`: demo mode always succeeds; otherwise only a 200 or 201
      answer to the PUT does. */
  function CreateFile(demo: bool, path: string, putStatus: int, sha: string): (r: FileResult)
    ensures demo ==> r.FileOk? && r.demo
    ensures !demo ==> (r.FileOk? <==> putStatus == 200 || putStatus == 201)
    ensures r.FileOk? ==> r.path == path
  {
    if demo then FileOk(path, "demo_file_sha_123456", true)
    else if putStatus == 201 || putStatus == 200 then FileOk(path, sha, false)
    else FileError("Failed to create file: " + IntToString(putStatus))
  }

  datatype PullRequest = PullRequest(number: int, htmlUrl: string, title: string)

  /** What POST /repos/{repo}/pulls answered: the status, the created pull
      request, and on 422 the messages of its `errors` and its `message`. */
  datatype PrReply = PrReply(status: int, created: PullRequest,
                             errorMessages: seq<string>, message: Option<string>)

  /** What the lookup of an already existing pull request answered. */
  datatype PrLookup = PrLookup(status: int, prs: seq<PullRequest>)

  datatype PrResult =
    | PrOk(number: int, url: string, title: string, demo: bool, alreadyExists: bool)
    | PrError(message: string)

  /** Some error of a 422 answer says that the pull request already exists. */
  function AnyAlreadyExists(messages: seq<string>): (b: bool)
    ensures b <==> exists k :: 0 <= k < |messages| && Contains(messages[k], "already exists")
  {
    if messages == [] then false
    else Contains(messages[0], "already exists") || AnyAlreadyExists(messages[1..])
  }

  /** `create_pull_request`. In demo mode the number is the clock modulo
      1000 and the URL is built from it; otherwise 201 succeeds, 422 falls
      back to an existing pull request when the API says one exists, and
      everything else is an error. */
  function CreatePullRequest(demo: bool, repo: string, clock: int, title: string,
                             reply: PrReply, lookup: PrLookup): (r: PrResult)
    ensures demo ==> r.PrOk? && 0 <= r.number <= 999 && r.number == clock % 1000
                     && r.url == "https://github.com/" + repo + "/pull/" + NatToString(r.number)
                     && r.title == title
    ensures !demo && r.PrOk? ==> reply.status == 201 || reply.status == 422
    ensures !demo && reply.status == 201 ==> r == PrOk(reply.created.number, reply.created.htmlUrl,
                                                        reply.created.title, false, false)
    ensures !demo && reply.status == 422 ==>
      (r.PrOk? <==> AnyAlreadyExists(reply.errorMessages) && lookup.status == 200 && |lookup.prs| > 0)
    ensures !demo && r.PrOk? && r.alreadyExists ==> r.number == lookup.prs[0].number
  {
    if demo then
      var n := clock % 1000;
      PrOk(n, "https://github.com/" + repo + "/pull/" + NatToString(n), title, true, false)
    else if reply.status == 201 then
      PrOk(reply.created.number, reply.created.htmlUrl, reply.created.title, false, false)
    else if reply.status == 422 then
      if AnyAlreadyExists(reply.errorMessages) && lookup.status == 200 && |lookup.prs| > 0 then
        PrOk(lookup.prs[0].number, lookup.prs[0].htmlUrl, lookup.prs[0].title, false, true)
      else
        PrError("Failed to create PR: 422 - "
                + (match reply.message case Some(m) => m case None => "Unknown error"))
    else PrError("Failed to create PR: " + IntToString(reply.status))
  }

  datatype CommentResult = CommentOk(commentId: int) | CommentError(message: string)

  /** `create_issue_comment`: only a 201 answer succeeds (there is no demo
      shortcut for comments). */
  function CreateIssueComment(status: int, commentId: int): (r: CommentResult)
    ensures r.CommentOk? <==> status == 201
    ensures r.CommentOk? ==> r.commentId == commentId
  {
    if status == 201 then CommentOk(commentId)
    else CommentError("Failed to create comment: " + IntToString(status))
  }
}
