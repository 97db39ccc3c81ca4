/**
 * The branch-name flow: the formatter that builds `type/[issue-]description`
 * and the three-step form (choose a branch type, type a description, type an
 * optional issue number) that feeds it.
 */
module BranchCmd {
  import opened Wrappers
  import opened Types
  import opened Widgets
  import opened Strings
  import Config

  /** Character limit of the description field. */
  const DescriptionLimit: nat := 50
  /** Character limit of the issue-number field. */
  const IssueNumberLimit: nat := 20
  /** The validation error shown when Enter is pressed on an empty description. */
  const DescriptionRequired := "description is required"

  predicate IsUpper(c: char) {
    'A' <= c <= 'Z'
  }

  /** Lower-casing of one character, on the ASCII letters A-Z; every other character is kept. */
  function LowerChar(c: char): (r: char)
    ensures !IsUpper(r)
    ensures !IsUpper(c) ==> r == c
    ensures IsUpper(c) ==> r as int - c as int == 'a' as int - 'A' as int
  {
    if IsUpper(c) then (c as int + 32) as char else c
  }

  /** `strings.ToLower`, on the ASCII model of LowerChar. */
  function ToLower(s: string): (r: string)
    ensures |r| == |s|
    ensures forall i :: 0 <= i < |s| ==> r[i] == LowerChar(s[i])
  {
    if s == [] then [] else [LowerChar(s[0])] + ToLower(s[1..])
  }

  /** `strings.ReplaceAll(s, " ", "-")`: each space becomes one hyphen; runs of spaces are not merged. */
  function HyphenateSpaces(s: string): (r: string)
    ensures |r| == |s|
    ensures ' ' !in r
    ensures forall i :: 0 <= i < |s| ==> r[i] == (if s[i] == ' ' then '-' else s[i])
  {
    if s == [] then [] else [if s[0] == ' ' then '-' else s[0]] + HyphenateSpaces(s[1..])
  }

  /**
   * The description as it appears in a branch name: lower-cased, then every
   * space replaced by a hyphen. Same length, no spaces, no upper-case letters.
   */
  function Slug(description: string): (r: string)
    ensures |r| == |description|
    ensures forall i :: 0 <= i < |r| ==> r[i] != ' ' && !IsUpper(r[i])
    ensures forall i :: 0 <= i < |r| ==>
              r[i] == (if description[i] == ' ' then '-' else LowerChar(description[i]))
  {
    HyphenateSpaces(ToLower(description))
  }

  /**
   * The generated branch name: the type's prefix, a slash, then the issue
   * number verbatim followed by a hyphen when one was given, then the slug of
   * the description.
   */
  function FormatBranchName(branchType: Branch, description: string, issueNumber: string): (r: string)
    ensures |r| == |branchType.Type| + 1 + (if issueNumber == "" then 0 else |issueNumber| + 1) + |description|
    ensures r[..|branchType.Type|] == branchType.Type && r[|branchType.Type|] == '/'
    ensures issueNumber != "" ==>
              r[|branchType.Type| + 1..|branchType.Type| + 1 + |issueNumber|] == issueNumber
              && r[|branchType.Type| + 1 + |issueNumber|] == '-'
    ensures r[|r| - |description|..] == Slug(description)
  {
    var description := Slug(description);
    if issueNumber != "" then
      branchType.Type + "/" + issueNumber + "-" + description
    else
      branchType.Type + "/" + description
  }

  /**
   * A generated name files under its branch type: when the prefix itself holds
   * no '/', the group of the name (the text before its first '/') is exactly the prefix, whatever the
   * description and issue number hold.
   */
  lemma GroupOfBranchName(branchType: Branch, description: string, issueNumber: string)
    requires '/' !in branchType.Type
    ensures Before(FormatBranchName(branchType, description, issueNumber), '/') == branchType.Type
  {
    var r := FormatBranchName(branchType, description, issueNumber);
    var n := |branchType.Type|;
    assert r == branchType.Type + r[n..];
    BeforeJoin(branchType.Type, '/', r[n..]);
  }

  /**
   * The scan for the configured default: the first branch type whose prefix
   * equals `prefix`, or none when no type has it.
   */
  method DefaultIndex(types: seq<Branch>, prefix: string) returns (index: Option<nat>)
    ensures index.Some? ==> index.value < |types| && types[index.value].Type == prefix
    ensures index.Some? ==> forall j :: 0 <= j < index.value ==> types[j].Type != prefix
    ensures index.None? ==> forall j :: 0 <= j < |types| ==> types[j].Type != prefix
  {
    index := None;
    var i := 0;
    while i < |types|
      invariant 0 <= i <= |types|
      invariant index.None?
      invariant forall j :: 0 <= j < i ==> types[j].Type != prefix
    {
      if types[i].Type == prefix {
        index := Some(i);
        break;
      }
      i := i + 1;
    }
  }

  /** Every field of the branch form, as one value. */
  datatype BranchState = BranchState(
    items: seq<Item>,
    index: Option<nat>,
    description: string,
    issueNumber: string,
    selectedType: Option<Branch>,
    step: int,
    generatedName: string,
    quitting: bool,
    err: Option<string>)

  /** The branch type the list has selected: none when nothing is selected or the entry is not a branch type. */
  function Selection(s: BranchState): (r: Option<Branch>)
    ensures r.Some? ==> s.index.Some? && s.index.value < |s.items| && s.items[s.index.value] == BranchItem(r.value)
    ensures r.None? ==> SelectedItem(s.items, s.index).None? || !SelectedItem(s.items, s.index).value.BranchItem?
  {
    match SelectedItem(s.items, s.index)
    case None => None
    case Some(it) => it.AsBranch()
  }

  /**
   * What Enter does. At the type step it copies the selected branch type and
   * moves on, or does nothing when none is selected; at the description step
   * it refuses an empty description with an error and otherwise clears the
   * error and moves on; at the issue step it generates the name and ends the
   * form. Nothing else changes.
   */
  ghost predicate Entered(s: BranchState, t: BranchState, quit: bool) {
    if s.step == 0 then
      && !quit
      && t == (if Selection(s).Some? then s.(selectedType := Selection(s), step := 1) else s)
    else if s.step == 1 then
      && !quit
      && t == (if s.description == "" then s.(err := Some(DescriptionRequired)) else s.(err := None, step := 2))
    else
      && quit
      && s.selectedType.Some?
      && t == s.(generatedName := FormatBranchName(s.selectedType.value, s.description, s.issueNumber))
  }

  /** The form that collects a branch type, a description and an optional issue number. */
  class BranchForm {
    const items: seq<Item>
    var index: Option<nat>
    var description: string
    var issueNumber: string
    var selectedType: Option<Branch>
    var step: int
    var generatedName: string
    var quitting: bool
    var err: Option<string>

    function State(): BranchState
      reads this
    {
      BranchState(items, index, description, issueNumber, selectedType, step, generatedName, quitting, err)
    }

    /**
     * The steps run 0, 1, 2; a type is selected exactly from step 1 on and is
     * one of the listed entries; the description is non-empty once step 2 is
     * reached; no name is generated before step 2; the text fields respect
     * their character limits.
     */
    ghost predicate Valid()
      reads this
    {
      && 0 <= step <= 2
      && (index.Some? ==> index.value < |items|)
      && (selectedType.Some? <==> step >= 1)
      && (selectedType.Some? ==> BranchItem(selectedType.value) in items)
      && (step == 2 ==> description != "")
      && (step < 2 ==> generatedName == "")
      && |description| <= DescriptionLimit
      && |issueNumber| <= IssueNumberLimit
    }

    /**
     * The initial form: one list entry per configured branch type in order,
     * the cursor on the first type whose prefix is the configured default (on
     * the first entry when none is), and every other field empty.
     */
    constructor (config: Config.Config)
      ensures Valid()
      ensures |items| == |config.BranchTypes|
      ensures forall i :: 0 <= i < |items| ==> items[i] == BranchItem(config.BranchTypes[i])
      ensures (exists j :: 0 <= j < |items| && config.BranchTypes[j].Type == config.DefaultBranchPrefix) ==>
                && index.Some?
                && config.BranchTypes[index.value].Type == config.DefaultBranchPrefix
                && forall j :: 0 <= j < index.value ==> config.BranchTypes[j].Type != config.DefaultBranchPrefix
      ensures (forall j :: 0 <= j < |items| ==> config.BranchTypes[j].Type != config.DefaultBranchPrefix) ==>
                index == (if items == [] then None else Some(0))
      ensures step == 0 && selectedType == None && description == "" && issueNumber == ""
      ensures generatedName == "" && !quitting && err == None
    {
      var entries := BranchItems(config.BranchTypes);
      var found := DefaultIndex(config.BranchTypes, config.DefaultBranchPrefix);
      items := entries;
      index := if found.Some? then found else if entries == [] then None else Some(0);
      description, issueNumber := "", "";
      selectedType := None;
      step := 0;
      generatedName := "";
      quitting := false;
      err := None;
    }

    /** Enter, as `handleEnter`; `quit` reports that the form asks the program to end. */
    method HandleEnter() returns (quit: bool)
      requires Valid()
      modifies this
      ensures Valid()
      ensures Entered(old(State()), State(), quit)
    {
      quit := false;
      if step == 0 {
        var chosen := Selection(State());
        if chosen.Some? {
          selectedType := chosen;
          step := step + 1;
        }
      } else if step == 1 {
        if description == "" {
          err := Some(DescriptionRequired);
          return;
        }
        err := None;
        step := step + 1;
      } else {
        generatedName := FormatBranchName(selectedType.value, description, issueNumber);
        quit := true;
      }
    }

    /**
     * One event, as `Update`. A quit key sets `quitting` and nothing else from
     * any step; Enter behaves as HandleEnter; a resize changes nothing the form
     * holds; a list key moves the selection at the type step only; typing
     * edits the description at step 1 and the issue number at step 2, within
     * their limits. The list keeps its default key map, so `esc` at the type
     * step makes the list end the program with `quitting` unset and no name
     * generated; at the text steps `esc` changes nothing. The step never
     * decreases.
     */
    method Update(ev: Event) returns (quit: bool)
      requires Valid()
      modifies this
      ensures Valid()
      ensures old(step) <= step
      ensures ev.Escape? ==> quit == (old(step) == 0) && State() == old(State())
      ensures ev.Escape? && old(step) == 0 ==> quitting == old(quitting) && generatedName == ""
      ensures ev.Quit? ==> quit && State() == old(State()).(quitting := true)
      ensures ev.Enter? ==> Entered(old(State()), State(), quit)
      ensures ev.Resize? ==> !quit && State() == old(State())
      ensures ev.Navigate? ==>
                && !quit
                && State() == old(State()).(index := if old(step) == 0 then MoveTo(items, old(index), ev.index) else old(index))
      ensures ev.Edit? ==>
                && !quit
                && State() == if old(step) == 1 then old(State()).(description := Clip(ev.text, DescriptionLimit))
                              else if old(step) == 2 then old(State()).(issueNumber := Clip(ev.text, IssueNumberLimit))
                              else old(State())
    {
      match ev
      case Quit =>
        quitting := true;
        quit := true;
      case Enter =>
        quit := HandleEnter();
      case Resize(_, _) =>
        quit := false;
      case Navigate(target) =>
        if step == 0 {
          index := MoveTo(items, index, target);
        }
        quit := false;
      case Edit(text) =>
        if step == 1 {
          description := Clip(text, DescriptionLimit);
        } else if step == 2 {
          issueNumber := Clip(text, IssueNumberLimit);
        }
        quit := false;
      case Escape =>
        quit := step == 0;
    }
  }
}
