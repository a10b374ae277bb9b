/** `IntelligentFixGenerator`: a keyword test picks between a CONTRIBUTING
    guide and a generic fix note. The long Markdown texts of the guide and
    of the pull-request bodies are kept as opaque constants. */
module IntelligentFix {
  import opened Text
  import opened Fixes

  /** The fixed sections of the guide between its introduction and its
      closing thanks (table of contents through recognition). */
  const GUIDE_SECTIONS := "\n\n## Table of Contents\n(guide sections)\n\n---\n\n"
  /** The fixed middle of the CONTRIBUTING pull-request body. */
  const CONTRIBUTING_PR_SECTIONS := "### Changes Made:\n(checklist, features and impact)\n\n"
  /** The fixed middle of the generic pull-request body. */
  const GENERIC_PR_SECTIONS := "### Changes Made:\n(checklist and testing notes)\n\n"

  /** The closing line of the guide after its thanks. */
  const GUIDE_CLOSING := "! \U{1F680}\n\n*This document is a living guide and will be updated as the project evolves.*\n"
  const GUIDE_MESSAGE := "Add CONTRIBUTING.md with comprehensive guidelines"
  const GUIDE_PR_TITLE := "Add CONTRIBUTING.md with guidelines for submitting templates and PR workflow"
  const CONTRIBUTING_PR_HEADING := "## Add CONTRIBUTING.md with Comprehensive Guidelines"
  const GENERIC_PR_HEADING := "## Issue Fix"
  const ISSUE_SECTION := "\n\n### Issue:\n"

  /** The CONTRIBUTING.md text for a repository. */
  function ContributingGuide(repo: string): (text: string)
    ensures GuideHeading(repo) <= text
  {
    GuideHeading(repo) + GUIDE_WELCOME + repo + GUIDE_PURPOSE + GUIDE_SECTIONS
    + GUIDE_THANKS + repo + GUIDE_CLOSING
  }

  function ContributingPrBody(issue: IssueData): (body: string)
    ensures EndsWith(body, ClosesLine(issue))
  {
    var head := CONTRIBUTING_PR_HEADING + ADDRESSES + GetOr(issue.url, "N/A") + "\n\n" + CONTRIBUTING_PR_SECTIONS;
    EndsWithConcat(head, ClosesLine(issue));
    head + ClosesLine(issue)
  }

  function GenericPrBody(issue: IssueData): (body: string)
    ensures EndsWith(body, ClosesLine(issue))
  {
    var head := GENERIC_PR_HEADING + ADDRESSES + GetOr(issue.url, "N/A")
                + ISSUE_SECTION + GetOr(issue.title, "Unknown issue") + "\n\n" + GENERIC_PR_SECTIONS;
    EndsWithConcat(head, ClosesLine(issue));
    head + ClosesLine(issue)
  }

  /** `_generate_contributing_fix`: one CONTRIBUTING.md whose text starts
      with the repository's heading. */
  function ContributingFix(issue: IssueData, repo: string): (f: Fix)
    ensures |f.files| == 1 && f.files[0].path == GUIDE_PATH
    ensures GuideHeading(repo) <= f.files[0].content
    ensures f.fixType == "contributing"
    ensures EndsWith(f.prBody, ClosesLine(issue))
  {
    Fix([FixFile(GUIDE_PATH, ContributingGuide(repo), GUIDE_MESSAGE)], GUIDE_PR_TITLE,
        ContributingPrBody(issue), "contributing")
  }

  /** `_generate_generic_fix`: one note under fixes/ holding the issue's
      title and body; the title defaults to "Issue fix" only in the PR title. */
  function GenericFix(issue: IssueData, repo: string): (f: Fix)
    ensures |f.files| == 1 && f.files[0].path == "fixes/generic_fix.md"
    ensures f.files[0].content == "# Fix for: " + Show(issue.title) + "\n\n" + GetOr(issue.body, "")
    ensures f.prTitle == "Fix: " + GetOr(issue.title, "Issue fix")
    ensures f.fixType == "generic"
    ensures EndsWith(f.prBody, ClosesLine(issue))
  {
    Fix([FixFile("fixes/generic_fix.md", "# Fix for: " + Show(issue.title) + "\n\n" + GetOr(issue.body, ""),
                 "Address issue: " + Show(issue.title))],
        "Fix: " + GetOr(issue.title, "Issue fix"), GenericPrBody(issue), "generic")
  }

  /** `analyze_issue_and_generate_fix`: a case-insensitive mention of
      "contributing" in the title or body selects the guide. */
  function AnalyzeIssueAndGenerateFix(issue: IssueData, repo: string): (f: Fix)
    ensures f.fixType == "contributing" <==> Mentions(issue, "contributing")
    ensures f.fixType == "generic" <==> !Mentions(issue, "contributing")
    ensures |f.files| == 1
    ensures EndsWith(f.prBody, ClosesLine(issue))
  {
    if Mentions(issue, "contributing") then ContributingFix(issue, repo) else GenericFix(issue, repo)
  }

  /** Any spelling is found: a title containing a word whose lower-case
      form is "contributing" (such as "CONTRIBUTING") gets the guide. */
  lemma UpperCaseSelectsGuide(issue: IssueData, repo: string, spelling: string)
    requires issue.title.Some? && Contains(issue.title.value, spelling)
    requires ToLower(spelling) == "contributing"
    ensures AnalyzeIssueAndGenerateFix(issue, repo).files[0].path == GUIDE_PATH
  {
    ContainsLower(issue.title.value, spelling);
    assert Mentions(issue, "contributing");
  }
}
