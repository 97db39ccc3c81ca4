/** Worked examples of the formatters on concrete inputs. */
module Examples {
  import opened Types
  import opened BranchCmd

  /** The slug of a concrete description, character by character. */
  lemma SlugOfLiteral(d: string, e: string)
    requires |d| == |e|
    requires forall i :: 0 <= i < |d| ==> e[i] == (if d[i] == ' ' then '-' else LowerChar(d[i]))
    ensures Slug(d) == e
  {
  }

  /** The slug of "Add Login Flow". */
  lemma FormatBranchNameExampleSlug()
    ensures Slug("Add Login Flow") == "add-login-flow"
  {
    var d, e := "Add Login Flow", "add-login-flow";
    forall i | 0 <= i < |d| ensures e[i] == (if d[i] == ' ' then '-' else LowerChar(d[i])) {
    }
    SlugOfLiteral(d, e);
  }

  /** Worked example: lower-casing and one hyphen per space. */
  lemma FormatBranchNameExample()
    ensures FormatBranchName(Branch("feature", ""), "Add Login Flow", "") == "feature/add-login-flow"
  {
    assert "feature" + "/" + "add-login-flow" == "feature/add-login-flow";
    FormatBranchNameExampleSlug();
    var r := FormatBranchName(Branch("feature", ""), "Add Login Flow", "");
    assert r == "feature" + "/" + Slug("Add Login Flow");
  }

  /** The slug of "null check". */
  lemma FormatBranchNameIssueExampleSlug()
    ensures Slug("null check") == "null-check"
  {
    var d, e := "null check", "null-check";
    forall i | 0 <= i < |d| ensures e[i] == (if d[i] == ' ' then '-' else LowerChar(d[i])) {
    }
    SlugOfLiteral(d, e);
  }

  /** Worked example: the issue number goes between the slash and the description. */
  lemma FormatBranchNameIssueExample()
    ensures FormatBranchName(Branch("fix", ""), "null check", "42") == "fix/42-null-check"
  {
    assert "fix" + "/" + "42" + "-" + "null-check" == "fix/42-null-check";
    FormatBranchNameIssueExampleSlug();
    var r := FormatBranchName(Branch("fix", ""), "null check", "42");
    assert r == "fix" + "/" + "42" + "-" + Slug("null check");
  }

  /** The slug of "Null  Check". */
  lemma FormatBranchNameVerbatimExampleSlug()
    ensures Slug("Null  Check") == "null--check"
  {
    var d, e := "Null  Check", "null--check";
    forall i | 0 <= i < |d| ensures e[i] == (if d[i] == ' ' then '-' else LowerChar(d[i])) {
    }
    SlugOfLiteral(d, e);
  }

  /** Worked example: the issue number is not lower-cased, and two spaces give two hyphens. */
  lemma FormatBranchNameVerbatimExample()
    ensures FormatBranchName(Branch("fix", ""), "Null  Check", "GH-7") == "fix/GH-7-null--check"
  {
    assert "fix" + "/" + "GH-7" + "-" + "null--check" == "fix/GH-7-null--check";
    FormatBranchNameVerbatimExampleSlug();
    var r := FormatBranchName(Branch("fix", ""), "Null  Check", "GH-7");
    assert r == "fix" + "/" + "GH-7" + "-" + Slug("Null  Check");
  }
}
