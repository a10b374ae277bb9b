/** `AIFixGenerator`: what it does with the language model's answers. The
    model's answers (analysis, file drafts, regenerated drafts, pull-request
    title and body) are inputs; the prompts and calls are not modelled. */
module AiFix {
  import opened Text
  import opened Fixes

  // ---------------------------------------------------------------------
  // Placeholder detection

  const INDICATORS: seq<string> := [
    "assert True", "assert true", "# TODO:", "# TODO ", "TODO:", "TODO ",
    "placeholder", "Placeholder", "PLACEHOLDER", "assert True  #", "pass  #",
    "return True  #", "return None  #", "// TODO:", "// TODO ", "/* TODO:",
    "/* TODO ", "<!-- TODO:", "<!-- TODO ", "implement actual test",
    "implement actual", "placeholder test", "Placeholder test"]

  /** When generated content counts as a placeholder: empty or shorter than
      50 characters once stripped, containing an indicator (ignoring case),
      or a short test file that contains "pass" or "assert True". */
  predicate Placeholder(content: string) {
    || content == ""
    || |Strip(content)| < 50
    || AnyIndicator(ToLower(content), INDICATORS)
    || (Contains(content, "def test_")
        && (Contains(content, "assert True") || (Contains(content, "pass") && |Strip(content)| < 200)))
  }

  /** Whether any of `indicators`, lowered, occurs in `lower`. */
  predicate AnyIndicator(lower: string, indicators: seq<string>) {
    exists j :: 0 <= j < |indicators| && Contains(lower, ToLower(indicators[j]))
  }

  /** The indicator scan: stops at the first indicator found. */
  method ScanIndicators(lower: string, indicators: seq<string>) returns (found: bool)
    ensures found <==> AnyIndicator(lower, indicators)
  {
    var k := 0;
    while k < |indicators|
      invariant 0 <= k <= |indicators|
      invariant forall j :: 0 <= j < k ==> !Contains(lower, ToLower(indicators[j]))
    {
      if Contains(lower, ToLower(indicators[k])) {
        return true;
      }
      k := k + 1;
    }
    return false;
  }

  /** `_is_placeholder_content`. */
  method IsPlaceholderContent(content: string) returns (r: bool)
    ensures r == Placeholder(content)
  {
    if content == "" || |Strip(content)| < 50 {
      return true;
    }
    r := ScanIndicators(ToLower(content), INDICATORS);
    if r {
      return;
    }
    if Contains(content, "def test_") {
      if Contains(content, "assert True") || (Contains(content, "pass") && |Strip(content)| < 200) {
        return true;
      }
      if Contains(content, "assert ") && !Contains(content, "assert True") {
        return false;
      }
    }
    return false;
  }

  /** The test-file check for "assert True" can never decide anything: the
      indicator scan has already caught it (ignoring case). So content is a
      placeholder exactly when it is short, holds an indicator, or is a
      test file with "pass" under 200 stripped characters. */
  lemma TestFileAssertTrueSubsumed(content: string)
    ensures Placeholder(content) <==>
      || content == ""
      || |Strip(content)| < 50
      || AnyIndicator(ToLower(content), INDICATORS)
      || (Contains(content, "def test_") && Contains(content, "pass") && |Strip(content)| < 200)
  {
    if Contains(content, "assert True") {
      ContainsLower(content, "assert True");
      assert INDICATORS[0] == "assert True";
    }
  }

  // ---------------------------------------------------------------------
  // Code-fence removal from generated file content

  /** `t.startswith("```")`, written out character by character. */
  predicate StartsFence(t: string) {
    |t| >= 3 && t[0] == '`' && t[1] == '`' && t[2] == '`'
  }

  /** `t.startswith("```json")`. */
  predicate StartsJsonFence(t: string) {
    StartsFence(t) && |t| >= 7 && t[3] == 'j' && t[4] == 's' && t[5] == 'o' && t[6] == 'n'
  }

  /** `t.endswith("```")`. */
  predicate EndsFence(t: string) {
    |t| >= 3 && t[|t| - 3] == '`' && t[|t| - 2] == '`' && t[|t| - 1] == '`'
  }

  /** The character tests are the prefix and suffix tests on the literals. */
  lemma FenceTests(t: string)
    ensures StartsFence(t) <==> "```" <= t
    ensures StartsJsonFence(t) <==> "```json" <= t
    ensures EndsFence(t) <==> EndsWith(t, "```")
  {
    var f, j := "```", "```json";
    assert |f| == 3 && f[0] == f[1] == f[2] == '`';
    assert |j| == 7 && j[..3] == f && j[3] == 'j' && j[4] == 's' && j[5] == 'o' && j[6] == 'n';
    if |t| >= 3 {
      assert t[|t| - 3..] == [t[|t| - 3], t[|t| - 2], t[|t| - 1]];
    }
  }

  /** `line.strip().startswith('```')`. */
  predicate IsFenceLine(line: string) {
    StartsFence(Strip(line))
  }

  /** The lines strictly inside fences: a fence line toggles the state and
      is dropped; other lines are kept only while inside a fence. */
  function InsideFences(lines: seq<string>, inBlock: bool): (kept: seq<string>)
    ensures |kept| <= |lines|
    decreases |lines|
  {
    if lines == [] then []
    else if IsFenceLine(lines[0]) then InsideFences(lines[1..], !inBlock)
    else (if inBlock then [lines[0]] else []) + InsideFences(lines[1..], inBlock)
  }

  /** What the clean-up leaves of a file's content: content starting with
      "```" is reduced to the lines inside fences, joined and stripped;
      anything else is left alone. */
  function CleanContent(content: string): string {
    if StartsFence(content) then Strip(Join(InsideFences(Split(content, '\n'), false), '\n'))
    else content
  }

  lemma InsideFencesStep(lines: seq<string>, k: nat, inBlock: bool)
    requires k < |lines|
    ensures InsideFences(lines[k..], inBlock) ==
      if IsFenceLine(lines[k]) then InsideFences(lines[k + 1..], !inBlock)
      else (if inBlock then [lines[k]] else []) + InsideFences(lines[k + 1..], inBlock)
  {
    assert lines[k..][0] == lines[k] && lines[k..][1..] == lines[k + 1..];
  }

  /** One line of the loop below: what it adds to the kept lines and the
      state it leaves, with the lines still to come. */
  lemma KeptStep(lines: seq<string>, k: nat, inBlock: bool, kept: seq<string>)
    requires k < |lines|
    ensures kept + InsideFences(lines[k..], inBlock) ==
      if IsFenceLine(lines[k]) then kept + InsideFences(lines[k + 1..], !inBlock)
      else if inBlock then (kept + [lines[k]]) + InsideFences(lines[k + 1..], inBlock)
      else kept + InsideFences(lines[k + 1..], inBlock)
  {
    InsideFencesStep(lines, k, inBlock);
    var fence := IsFenceLine(lines[k]);
    var rest := InsideFences(lines[k + 1..], inBlock);
    if !fence && inBlock {
      assert kept + ([lines[k]] + rest) == (kept + [lines[k]]) + rest;
    } else if !fence {
      assert [] + rest == rest;
    }
  }

  /** The `in_code_block` loop over the lines of one file. */
  method CodeBlockLines(lines: seq<string>) returns (kept: seq<string>)
    ensures kept == InsideFences(lines, false)
  {
    kept := [];
    var inBlock := false;
    var k := 0;
    assert lines[0..] == lines;
    while k < |lines|
      invariant 0 <= k <= |lines|
      invariant kept + InsideFences(lines[k..], inBlock) == InsideFences(lines, false)
    {
      KeptStep(lines, k, inBlock, kept);
      if IsFenceLine(lines[k]) {
        inBlock := !inBlock;
      } else if inBlock {
        kept := kept + [lines[k]];
      }
      k := k + 1;
    }
    assert kept + InsideFences(lines[k..], inBlock) == kept + [];
  }

  /** The clean-up of one file's content, as the generator runs it. */
  method CleanFileContent(content: string) returns (r: string)
    ensures r == CleanContent(content)
  {
    r := content;
    if StartsFence(content) {
      var kept := CodeBlockLines(Split(content, '\n'));
      r := Strip(Join(kept, '\n'));
    }
  }

  /** No kept line is a fence line. */
  lemma {:induction false} InsideFencesHasNoFence(lines: seq<string>, inBlock: bool)
    ensures forall k :: 0 <= k < |InsideFences(lines, inBlock)| ==> !IsFenceLine(InsideFences(lines, inBlock)[k])
    decreases |lines|
  {
    if lines != [] {
      if IsFenceLine(lines[0]) {
        InsideFencesHasNoFence(lines[1..], !inBlock);
      } else {
        InsideFencesHasNoFence(lines[1..], inBlock);
      }
    }
  }

  /** The backtick is not white space. */
  lemma BacktickIsSolid()
    ensures !IsSpace('`')
  {
    assert '`' as int == 96;
  }

  /** A fence line is one whose `lstrip` starts with "```". */
  lemma FenceLineLeft(line: string)
    ensures IsFenceLine(line) <==> StartsFence(TrimLeft(line))
  {
    BacktickIsSolid();
    var t := TrimLeft(line);
    var r := TrimRight(t);
    assert Strip(line) == r <= t;
    if StartsFence(t) {
      assert !IsSpace(t[2]);
      assert |r| >= 3;
      assert r[..3] == t[..3];
    }
  }

  /** A newline ends any would-be fence: "```" cannot straddle it. */
  lemma NoFenceAcrossNewline(t: string, rest: string)
    requires !StartsFence(t)
    ensures !StartsFence(t + (['\n'] + rest))
  {
    var whole := t + (['\n'] + rest);
    if |t| < 3 {
      assert whole[|t|] == '\n';
    } else {
      assert whole[..3] == t[..3];
    }
  }

  /** A line with a non-space character that is not a fence line stays so
      when a newline and more text follow it. */
  lemma SolidLineNoFence(l: string, rest: string)
    requires exists i :: 0 <= i < |l| && !IsSpace(l[i])
    requires !IsFenceLine(l)
    ensures !StartsFence(TrimLeft(l + (['\n'] + rest)))
  {
    FenceLineLeft(l);
    TrimLeftSolid(l, ['\n'] + rest);
    NoFenceAcrossNewline(TrimLeft(l), rest);
  }

  /** A blank line and its newline vanish under `lstrip`. */
  lemma BlankLineVanishes(l: string, rest: string)
    requires forall i :: 0 <= i < |l| ==> IsSpace(l[i])
    ensures TrimLeft(l + (['\n'] + rest)) == TrimLeft(rest)
  {
    TrimLeftSpaces(l, ['\n'] + rest);
    TrimLeftNewline(rest);
  }

  /** Joining lines none of which is a fence line never yields text whose
      `lstrip` starts with "```". */
  lemma {:induction false} JoinHasNoLeadingFence(lines: seq<string>)
    requires forall k :: 0 <= k < |lines| ==> !IsFenceLine(lines[k])
    ensures !StartsFence(TrimLeft(Join(lines, '\n')))
    decreases |lines|
  {
    if lines == [] {
    } else if |lines| == 1 {
      FenceLineLeft(lines[0]);
    } else {
      var l, tail := lines[0], lines[1..];
      var rest := Join(tail, '\n');
      assert Join(lines, '\n') == l + (['\n'] + rest);
      if forall i :: 0 <= i < |l| ==> IsSpace(l[i]) {
        BlankLineVanishes(l, rest);
        assert forall k :: 0 <= k < |tail| ==> !IsFenceLine(tail[k]) by {
          forall k | 0 <= k < |tail| ensures !IsFenceLine(tail[k]) {
            assert tail[k] == lines[k + 1];
          }
        }
        JoinHasNoLeadingFence(tail);
      } else {
        SolidLineNoFence(l, rest);
      }
    }
  }

  /** Cleaning is idempotent: cleaned content does not start with "```",
      so a second pass leaves it unchanged. */
  lemma CleanIdempotent(content: string)
    ensures CleanContent(CleanContent(content)) == CleanContent(content)
  {
    if StartsFence(content) {
      var kept := InsideFences(Split(content, '\n'), false);
      InsideFencesHasNoFence(Split(content, '\n'), false);
      JoinHasNoLeadingFence(kept);
      var joined := Join(kept, '\n');
      assert Strip(joined) <= TrimLeft(joined);
    }
  }

  // ---------------------------------------------------------------------
  // Title and analysis clean-up

  predicate Quoted(title: string) {
    |title| >= 1 && title[0] == '"' && title[|title| - 1] == '"'
  }

  /** A title that starts and ends with a double quote loses its first and
      last character; any other title is kept. A lone `"` becomes "". */
  function CleanTitle(title: string): (r: string)
    ensures Quoted(title) && |title| >= 2 ==> "\"" + r + "\"" == title
    ensures title == "\"" ==> r == ""
    ensures !Quoted(title) ==> r == title
  {
    if Quoted(title) then (if |title| >= 2 then title[1..|title| - 1] else "") else title
  }

  /** The fences dropped from stripped analysis text: a leading "```json",
      then a leading "```", then a trailing "```", in that order. */
  function Unfence(t: string): (c: string)
    ensures |c| <= |t|
  {
    var a := if StartsJsonFence(t) then t[7..] else t;
    var b := if StartsFence(a) then a[3..] else a;
    if EndsFence(b) then b[..|b| - 3] else b
  }

  /** The analysis text before it is parsed as JSON: stripped, unfenced and
      stripped again. */
  function StripAnalysisFence(raw: string): (r: string)
    ensures |r| <= |raw|
    ensures r == [] || (!IsSpace(r[0]) && !IsSpace(r[|r| - 1]))
  {
    Strip(Unfence(Strip(raw)))
  }

  /** The fences of ```json ... ``` come off, leaving the newlines. */
  lemma UnfenceJson(json: string)
    ensures Unfence("```json\n" + json + "\n```") == "\n" + json + "\n"
  {
    var raw := "```json\n" + json + "\n```";
    assert StartsJsonFence(raw);
    var a := raw[7..];
    assert a == "\n" + json + "\n```";
    assert a[0] == '\n';
    assert EndsFence(a);
    assert a[..|a| - 3] == "\n" + json + "\n";
  }

  /** A fenced document is already stripped: it starts and ends with a
      backtick. */
  lemma FencedIsStripped(json: string)
    ensures Strip("```json\n" + json + "\n```") == "```json\n" + json + "\n```"
  {
    BacktickIsSolid();
    var raw := "```json\n" + json + "\n```";
    assert raw[0] == '`' && raw[|raw| - 1] == '`';
    StripSolidEnds(raw);
  }

  /** A JSON document fenced as ```json ... ``` comes out as the document. */
  lemma FencedAnalysisRoundTrip(json: string)
    requires Strip(json) == json
    ensures StripAnalysisFence("```json\n" + json + "\n```") == json
  {
    FencedIsStripped(json);
    UnfenceJson(json);
    NewlineIsSpace();
    var nl := "\n";
    assert forall i :: 0 <= i < |nl| ==> IsSpace(nl[i]) by {
      assert |nl| == 1 && nl[0] == '\n';
    }
    assert "\n" + json + "\n" == nl + json + nl;
    StripPadded(nl, json, nl);
  }


  /** A bare JSON document (no fences, no surrounding space) is untouched. */
  lemma BareAnalysisUnchanged(json: string)
    requires Strip(json) == json
    requires !StartsFence(json) && !EndsFence(json)
    ensures StripAnalysisFence(json) == json
  {
  }

  // ---------------------------------------------------------------------
  // Template fallback

  /** The MIT licence text of the template (opaque beyond its header). */
  const MIT_LICENSE := "MIT License\n\nCopyright (c) 2025 ritik-prog\n\n(MIT permission notice and warranty disclaimer)"
  const CONTRIBUTING_TEMPLATE_SECTIONS := "\n\n## Getting Started\n(template sections)\n\n---\n\n"
  const CONTRIBUTING_TEMPLATE_PR_SECTIONS := "### Changes Made:\n(checklist and impact)\n\n"
  const LICENSE_PR_SECTIONS := "### Changes Made:\n(checklist and impact)\n\n"
  const GENERIC_TEMPLATE_PR_SECTIONS := "### Changes Made:\n(checklist)\n\n"

  const TEMPLATE_GUIDE_CLOSING := "! \U{1F680}\n"
  const TEMPLATE_GUIDE_MESSAGE := "Add CONTRIBUTING.md with guidelines"
  const TEMPLATE_GUIDE_PR_TITLE := "Add CONTRIBUTING.md with guidelines for "
  const TEMPLATE_GUIDE_PR_HEADING := "## Add CONTRIBUTING.md"
  const LICENSE_PR_HEADING := "## Add LICENSE file"
  const LICENSE_MESSAGE := "Add LICENSE file - "
  const LICENSE_PR_TITLE := "Add LICENSE file for "
  const ISSUE_PR_HEADING := "## Issue Fix"
  const ISSUE_SECTION := "### Issue:\n"
  const SOLUTION_SECTION := "\n\n## Solution\n\nThis file addresses the reported issue."

  function PrIntro(heading: string, issue: IssueData): string {
    heading + ADDRESSES + GetOr(issue.url, "N/A") + "\n\n"
  }

  /** `_generate_contributing_template`. */
  function ContributingTemplate(issue: IssueData, repo: string): (f: Fix)
    ensures |f.files| == 1 && f.files[0].path == GUIDE_PATH && f.fixType == "contributing"
    ensures GuideHeading(repo) <= f.files[0].content
    ensures EndsWith(f.prBody, ClosesLine(issue))
  {
    var content := GuideHeading(repo) + GUIDE_WELCOME + repo + GUIDE_PURPOSE
                   + CONTRIBUTING_TEMPLATE_SECTIONS + GUIDE_THANKS + repo + TEMPLATE_GUIDE_CLOSING;
    var head := PrIntro(TEMPLATE_GUIDE_PR_HEADING, issue) + CONTRIBUTING_TEMPLATE_PR_SECTIONS;
    EndsWithConcat(head, ClosesLine(issue));
    Fix([FixFile(GUIDE_PATH, content, TEMPLATE_GUIDE_MESSAGE)],
        TEMPLATE_GUIDE_PR_TITLE + repo, head + ClosesLine(issue), "contributing")
  }

  /** `_generate_generic_template`: a licence request gets a LICENSE file,
      then a contributing request the guide, anything else a fix note. */
  function GenericTemplate(issue: IssueData, repo: string): (f: Fix)
    ensures |f.files| == 1
    ensures Mentions(issue, "license") ==> f.files[0].path == "LICENSE" && f.fixType == "license"
    ensures !Mentions(issue, "license") && Mentions(issue, "contributing") ==>
              f.files[0].path == GUIDE_PATH && f.fixType == "contributing"
    ensures !Mentions(issue, "license") && !Mentions(issue, "contributing") ==>
              f.files[0].path == "fixes/issue_fix.md" && f.fixType == "generic"
              && f.prTitle == "Fix: " + GetOr(issue.title, "Issue fix")
    ensures EndsWith(f.prBody, ClosesLine(issue))
  {
    if Mentions(issue, "license") then
      var head := PrIntro(LICENSE_PR_HEADING, issue) + ISSUE_SECTION + GetOr(issue.title, "Unknown issue")
                  + "\n\n" + LICENSE_PR_SECTIONS;
      EndsWithConcat(head, ClosesLine(issue));
      Fix([FixFile("LICENSE", MIT_LICENSE, LICENSE_MESSAGE + Show(issue.title))],
          LICENSE_PR_TITLE + repo, head + ClosesLine(issue), "license")
    else if Mentions(issue, "contributing") then
      ContributingTemplate(issue, repo)
    else
      var head := PrIntro(ISSUE_PR_HEADING, issue) + ISSUE_SECTION + GetOr(issue.title, "Unknown issue")
                  + "\n\n" + GENERIC_TEMPLATE_PR_SECTIONS;
      EndsWithConcat(head, ClosesLine(issue));
      Fix([FixFile("fixes/issue_fix.md",
                   "# Fix for: " + Show(issue.title) + "\n\n" + GetOr(issue.body, "") + SOLUTION_SECTION,
                   "Address issue: " + Show(issue.title))],
          "Fix: " + GetOr(issue.title, "Issue fix"), head + ClosesLine(issue), "generic")
  }

  /** `_generate_template_fix`: the contributing test comes first, so a
      request mentioning both words gets the guide, not a licence. */
  function TemplateFix(issue: IssueData, repo: string): (f: Fix)
    ensures |f.files| == 1
    ensures f.fixType == "contributing" <==> Mentions(issue, "contributing")
    ensures f.fixType == "license" <==> !Mentions(issue, "contributing") && Mentions(issue, "license")
    ensures f.fixType == "generic" <==> !Mentions(issue, "contributing") && !Mentions(issue, "license")
    ensures f.fixType == "contributing" ==> f.files[0].path == GUIDE_PATH
    ensures f.fixType == "license" ==> f.files[0].path == "LICENSE"
    ensures f.fixType == "generic" ==> f.files[0].path == "fixes/issue_fix.md"
  {
    if Mentions(issue, "contributing") then ContributingTemplate(issue, repo)
    else GenericTemplate(issue, repo)
  }

  // ---------------------------------------------------------------------
  // The AI path

  /** The parsed analysis: its `issue_type` and `files_to_create`. */
  datatype Analysis = Analysis(issueType: Option<string>, filesToCreate: seq<string>)

  /** The model's answers: a first draft and a regenerated draft per path,
      and the pull-request title (already stripped) and body. */
  datatype Answers = Answers(draft: string -> string, regenerate: string -> string,
                             prTitle: string, prBody: string)

  /** How the AI path went: no usable analysis (no client, a failed call or
      unparsable JSON, or an empty analysis), an exception anywhere on the
      way, or an analysis with answers. */
  datatype AiOutcome = NoAnalysis | Raised | Analysed(analysis: Analysis, answers: Answers)

  /** The content kept for a path: the draft, unless it is a placeholder. */
  function ChosenContent(answers: Answers, path: string): string {
    if Placeholder(answers.draft(path)) then answers.regenerate(path) else answers.draft(path)
  }

  /** The commit message of a generated file. */
  function FileMessage(path: string): string {
    "Add " + path + " - AI-generated solution"
  }

  /** The file kept for a path to create. */
  function Drafted(answers: Answers, path: string): FixFile {
    FixFile(path, ChosenContent(answers, path), FileMessage(path))
  }

  /** The first loop of `_generate_ai_fix`: a draft per path, regenerated
      when it is a placeholder. */
  method DraftFiles(paths: seq<string>, answers: Answers) returns (files: seq<FixFile>)
    ensures |files| == |paths|
    ensures forall k :: 0 <= k < |files| ==> files[k] == Drafted(answers, paths[k])
  {
    files := [];
    for i := 0 to |paths|
      invariant |files| == i
      invariant forall k :: 0 <= k < i ==> files[k] == Drafted(answers, paths[k])
    {
      var f := DraftFile(paths[i], answers);
      files := files + [f];
    }
  }

  /** One iteration of that loop: the draft for `path`, regenerated when
      it is a placeholder. */
  method DraftFile(path: string, answers: Answers) returns (f: FixFile)
    ensures f == Drafted(answers, path)
  {
    var content := answers.draft(path);
    var placeholder := IsPlaceholderContent(content);
    if placeholder {
      content := answers.regenerate(path);
    }
    f := FixFile(path, content, FileMessage(path));
  }

  /** The second loop of `_generate_ai_fix`: each file's code fences go. */
  method CleanFiles(drafts: seq<FixFile>) returns (files: seq<FixFile>)
    ensures |files| == |drafts|
    ensures forall k :: 0 <= k < |files| ==> files[k] == drafts[k].(content := CleanContent(drafts[k].content))
  {
    files := drafts;
    for i := 0 to |files|
      invariant |files| == |drafts|
      invariant forall k :: 0 <= k < i ==> files[k] == drafts[k].(content := CleanContent(drafts[k].content))
      invariant forall k :: i <= k < |files| ==> files[k] == drafts[k]
    {
      var cleaned := CleanFileContent(files[i].content);
      files := files[i := files[i].(content := cleaned)];
    }
  }

  /** `_generate_ai_fix`: one file per path to create, in order, each holding
      the chosen draft with its code fences removed; the title loses its
      surrounding quotes; the fix type is the analysis' issue type. */
  method GenerateAiFix(analysis: Analysis, answers: Answers) returns (f: Fix)
    ensures |f.files| == |analysis.filesToCreate|
    ensures forall i :: 0 <= i < |f.files| ==>
      f.files[i] == FixFile(analysis.filesToCreate[i],
                            CleanContent(ChosenContent(answers, analysis.filesToCreate[i])),
                            FileMessage(analysis.filesToCreate[i]))
    ensures f.prTitle == CleanTitle(answers.prTitle) && f.prBody == answers.prBody
    ensures f.fixType == GetOr(analysis.issueType, "ai_generated")
  {
    var drafts := DraftFiles(analysis.filesToCreate, answers);
    var files := CleanFiles(drafts);
    f := Fix(files, CleanTitle(answers.prTitle), answers.prBody, GetOr(analysis.issueType, "ai_generated"));
  }

  /** `analyze_issue_and_generate_fix`: without a usable analysis, or after
      any exception, the template fix is returned. */
  method AnalyzeIssueAndGenerateFix(issue: IssueData, repo: string, outcome: AiOutcome) returns (f: Fix)
    ensures !outcome.Analysed? ==> f == TemplateFix(issue, repo)
    ensures outcome.Analysed? ==>
              |f.files| == |outcome.analysis.filesToCreate| && f.prTitle == CleanTitle(outcome.answers.prTitle)
    ensures outcome.Analysed? ==> forall i :: 0 <= i < |f.files| ==> f.files[i].path == outcome.analysis.filesToCreate[i]
  {
    match outcome
    case NoAnalysis => f := TemplateFix(issue, repo);
    case Raised => f := TemplateFix(issue, repo);
    case Analysed(analysis, answers) => f := GenerateAiFix(analysis, answers);
  }
}
