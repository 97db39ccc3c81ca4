/**
 * The configuration record and the `config-view` listing of it. Loading the
 * configuration (file, home directory, JSON, embedded default) is not part of
 * this model; a Config value is handed to whoever needs it.
 */
module Config {
  import opened Types

  /** The settings: default prefixes, the emoji flag, and the two ordered catalogues of types. */
  datatype Config = Config(
    DefaultBranchPrefix: string,
    DefaultCommitPrefix: string,
    EmojisEnabled: bool,
    BranchTypes: seq<Branch>,
    CommitTypes: seq<Commit>)

  /** How `%v` prints a boolean. */
  function BoolText(b: bool): string {
    if b then "true" else "false"
  }

  /** The three heading lines: branch prefix, commit prefix, emoji flag. */
  function SettingsLines(config: Config): seq<string> {
    [ "Default Branch Prefix: " + config.DefaultBranchPrefix,
      "Default Commit Prefix: " + config.DefaultCommitPrefix,
      "Emojis Enabled: " + BoolText(config.EmojisEnabled) ]
  }

  /** The listing line of one branch type: a tab, the prefix, ": ", the description and a trailing space. */
  function BranchLine(b: Branch): (r: string)
    ensures |r| == |b.Type| + |b.Desc| + 4
    ensures r[0] == '\t' && r[1..1 + |b.Type|] == b.Type && r[1 + |b.Type|..3 + |b.Type|] == ": "
    ensures r[3 + |b.Type|..3 + |b.Type| + |b.Desc|] == b.Desc && r[|r| - 1] == ' '
  {
    "\t" + b.Type + ": " + b.Desc + " "
  }

  /** The listing line of one commit type: a tab, the tag, ": ", the emoji, a space, the description and a trailing space. */
  function CommitLine(c: Commit): (r: string)
    ensures |r| == |c.Type| + |c.Emoji| + |c.Desc| + 5
    ensures r[0] == '\t' && r[1..1 + |c.Type|] == c.Type && r[1 + |c.Type|..3 + |c.Type|] == ": "
    ensures r[3 + |c.Type|..3 + |c.Type| + |c.Emoji|] == c.Emoji && r[3 + |c.Type| + |c.Emoji|] == ' '
    ensures r[4 + |c.Type| + |c.Emoji|..4 + |c.Type| + |c.Emoji| + |c.Desc|] == c.Desc && r[|r| - 1] == ' '
  {
    "\t" + c.Type + ": " + c.Emoji + " " + c.Desc + " "
  }

  /** The branch loop of the listing: one line per branch type, in order, after the lines already printed. */
  method PrintBranchTypes(printed: seq<string>, branches: seq<Branch>) returns (lines: seq<string>)
    ensures |lines| == |printed| + |branches|
    ensures lines[..|printed|] == printed
    ensures forall k :: 0 <= k < |branches| ==> lines[|printed| + k] == BranchLine(branches[k])
  {
    lines := printed;
    for i := 0 to |branches|
      invariant |lines| == |printed| + i
      invariant lines[..|printed|] == printed
      invariant forall k :: 0 <= k < i ==> lines[|printed| + k] == BranchLine(branches[k])
    {
      lines := lines + [BranchLine(branches[i])];
    }
  }

  /** The commit loop of the listing: one line per commit type, in order, after the lines already printed. */
  method PrintCommitTypes(printed: seq<string>, commits: seq<Commit>) returns (lines: seq<string>)
    ensures |lines| == |printed| + |commits|
    ensures lines[..|printed|] == printed
    ensures forall k :: 0 <= k < |commits| ==> lines[|printed| + k] == CommitLine(commits[k])
  {
    lines := printed;
    for j := 0 to |commits|
      invariant |lines| == |printed| + j
      invariant lines[..|printed|] == printed
      invariant forall k :: 0 <= k < j ==> lines[|printed| + k] == CommitLine(commits[k])
    {
      lines := lines + [CommitLine(commits[j])];
    }
  }

  /**
   * The `config-view` listing, one string per printed line: the three settings,
   * the "Branches:" heading and its rule, one line per branch type in
   * configuration order, the "Commits:" heading and its rule, and one line per
   * commit type in configuration order.
   */
  method ShowConfig(config: Config) returns (lines: seq<string>)
    ensures |lines| == 3 + 2 + |config.BranchTypes| + 2 + |config.CommitTypes|
    ensures lines[..3] == SettingsLines(config)
    ensures lines[3] == "Branches:" && lines[4] == "---------"
    ensures forall i :: 0 <= i < |config.BranchTypes| ==> lines[5 + i] == BranchLine(config.BranchTypes[i])
    ensures lines[5 + |config.BranchTypes|] == "Commits:" && lines[6 + |config.BranchTypes|] == "--------"
    ensures forall j :: 0 <= j < |config.CommitTypes| ==>
              lines[7 + |config.BranchTypes| + j] == CommitLine(config.CommitTypes[j])
  {
    var settings := SettingsLines(config) + ["Branches:", "---------"];
    var withBranches := PrintBranchTypes(settings, config.BranchTypes);
    var headed := withBranches + ["Commits:", "--------"];
    lines := PrintCommitTypes(headed, config.CommitTypes);
    assert lines[..5] == settings by {
      assert lines[..5] == headed[..5] == withBranches[..5];
    }
    forall i | 0 <= i < |config.BranchTypes| ensures lines[5 + i] == BranchLine(config.BranchTypes[i]) {
      assert lines[5 + i] == headed[5 + i] == withBranches[5 + i];
    }
  }

  // The listing loops of internal/config/main.go pass the method value
  // `Description` (not its result) to `%s`; `fmt` then prints the function
  // value's type and code address instead of the description. The members
  // below model that line as written; the rest of the model uses the
  // corrected BranchLine and CommitLine above.

  /** What `fmt` prints for a `func() string` value under `%s`; `addr` is the runtime's code address. */
  function FuncValueText(addr: string): string {
    "%!s(func() string=" + addr + ")"
  }

  /** A branch-type line as written: the description slot holds the function value's text. */
  function BranchLineAsWritten(b: Branch, addr: string): (r: string)
    ensures |r| == |b.Type| + |FuncValueText(addr)| + 4
    ensures r[..3 + |b.Type|] == BranchLine(b)[..3 + |b.Type|]
    ensures r[3 + |b.Type|..] == FuncValueText(addr) + " "
  {
    "\t" + b.Type + ": " + FuncValueText(addr) + " "
  }

  /** A commit-type line as written: the description slot holds the function value's text. */
  function CommitLineAsWritten(c: Commit, addr: string): (r: string)
    ensures |r| == |c.Type| + |c.Emoji| + |FuncValueText(addr)| + 5
    ensures r[..4 + |c.Type| + |c.Emoji|] == CommitLine(c)[..4 + |c.Type| + |c.Emoji|]
    ensures r[4 + |c.Type| + |c.Emoji|..] == FuncValueText(addr) + " "
  {
    "\t" + c.Type + ": " + c.Emoji + " " + FuncValueText(addr) + " "
  }

  /**
   * As written, the listing never shows a description: two types that differ
   * only in their description print identical lines, and a line with a
   * non-empty description not starting with '%' differs from the intended one.
   */
  lemma AsWrittenLinesDropDescription(b: Branch, c: Commit, addr: string)
    ensures forall d :: BranchLineAsWritten(b.(Desc := d), addr) == BranchLineAsWritten(b, addr)
    ensures forall d :: CommitLineAsWritten(c.(Desc := d), addr) == CommitLineAsWritten(c, addr)
    ensures b.Desc != "" && b.Desc[0] != '%' ==> BranchLineAsWritten(b, addr) != BranchLine(b)
    ensures c.Desc != "" && c.Desc[0] != '%' ==> CommitLineAsWritten(c, addr) != CommitLine(c)
  {
    var k := 3 + |b.Type|;
    if b.Desc != "" && b.Desc[0] != '%' {
      assert BranchLineAsWritten(b, addr)[k] == '%';
      assert BranchLine(b)[k] == b.Desc[0];
    }
    var m := 4 + |c.Type| + |c.Emoji|;
    if c.Desc != "" && c.Desc[0] != '%' {
      assert CommitLineAsWritten(c, addr)[m] == '%';
      assert CommitLine(c)[m] == c.Desc[0];
    }
  }

  /** A concrete commit type whose listing line, as written, loses the description "A bug fix". */
  lemma AsWrittenListingExample(addr: string)
    ensures CommitLineAsWritten(Commit("fix", "A bug fix", "\U{1F41B}"), addr)
            != CommitLine(Commit("fix", "A bug fix", "\U{1F41B}"))
  {
    AsWrittenLinesDropDescription(Branch("", ""), Commit("fix", "A bug fix", "\U{1F41B}"), addr);
  }
}
