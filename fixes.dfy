/** The shapes shared by the fix generators: the issue as they read it and
    the fix they return (files to commit plus pull-request text). */
module Fixes {
  import opened Text

  /** The issue dictionary; an absent key is `None`. */
  datatype IssueData = IssueData(
    title: Option<string>, body: Option<string>, url: Option<string>, issueNumber: Option<string>)

  datatype FixFile = FixFile(path: string, content: string, message: string)

  datatype Fix = Fix(files: seq<FixFile>, prTitle: string, prBody: string, fixType: string)

  /** Where the contributing guide is written. */
  const GUIDE_PATH := "CONTRIBUTING.md"

  /** The fixed sentences around the repository name in the guide's
      introduction and closing, shared by both generators. */
  const GUIDE_WELCOME := "\n\nThank you for your interest in contributing to "
  const GUIDE_PURPOSE := "! This document provides guidelines and instructions for contributors."
  const GUIDE_THANKS := "Thank you for contributing to "
  /** The opening of every generated pull-request body after its heading. */
  const ADDRESSES := "\n\nThis PR addresses the issue: "

  /** The first line of the contributing guide for `repo`. */
  function GuideHeading(repo: string): string {
    "# Contributing to " + repo
  }

  /** `word in title.lower() or word in body.lower()`, an absent title or
      body reading as "". */
  predicate Mentions(issue: IssueData, word: string) {
    Contains(ToLower(GetOr(issue.title, "")), word) || Contains(ToLower(GetOr(issue.body, "")), word)
  }

  /** The last line of every generated pull-request body. */
  function ClosesLine(issue: IssueData): string {
    "Closes #" + GetOr(issue.issueNumber, "N/A") + "\n"
  }
}
