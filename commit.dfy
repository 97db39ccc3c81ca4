/**
 * The commit-message flow: the formatter that builds `type+emoji: summary`
 * with an optional body, the escaping used for the suggested `git commit -m`
 * command, and the three-step form (choose a commit type, type a summary,
 * type an optional body) that feeds the formatter.
 */
module CommitCmd {
  import opened Wrappers
  import opened Types
  import opened Widgets
  import opened Strings
  import Config

  /** Character limit of the summary field. */
  const SummaryLimit: nat := 72
  /** Character limit of the body field. */
  const BodyLimit: nat := 500
  /** The validation error shown when Enter is pressed on an empty summary. */
  const SummaryRequired := "summary is required"

  /** The first line of a commit message: the tag, the emoji with no separator, ": ", the summary. */
  function Header(commitType: Commit, summary: string): string {
    commitType.Type + commitType.Emoji + ": " + summary
  }

  /**
   * The generated commit message: always starts with the header; a non-empty
   * body follows it after one blank line, verbatim; an empty body adds nothing.
   */
  function FormatCommitMessage(commitType: Commit, summary: string, body: string): (r: string)
    ensures |Header(commitType, summary)| <= |r|
    ensures r[..|Header(commitType, summary)|] == Header(commitType, summary)
    ensures body == "" ==> |r| == |Header(commitType, summary)|
    ensures body != "" ==> r[|Header(commitType, summary)|..] == "\n\n" + body
  {
    var msg := commitType.Type + commitType.Emoji + ": " + summary;
    if body != "" then msg + "\n\n" + body else msg
  }

  /** The subject line of a message: everything before its first newline. */
  function SubjectLine(msg: string): string {
    Before(msg, '\n')
  }

  /** The body of a message: what follows the blank line after the subject line, or nothing. */
  function BodyOf(msg: string): string {
    var n := |SubjectLine(msg)|;
    if n + 2 <= |msg| && msg[n + 1] == '\n' then msg[n + 2..] else ""
  }

  /**
   * A generated message can be read back: when the header holds no newline,
   * its subject line is the header and its body is the body that was given.
   */
  lemma CommitMessageRoundTrip(commitType: Commit, summary: string, body: string)
    requires '\n' !in Header(commitType, summary)
    ensures SubjectLine(FormatCommitMessage(commitType, summary, body)) == Header(commitType, summary)
    ensures BodyOf(FormatCommitMessage(commitType, summary, body)) == body
  {
    var h, r := Header(commitType, summary), FormatCommitMessage(commitType, summary, body);
    if body == "" {
      assert r == h + [];
      BeforeJoin(h, '\n', []);
    } else {
      assert r == h + ("\n\n" + body);
      BeforeJoin(h, '\n', "\n\n" + body);
      assert r[|h| + 2..] == body;
    }
  }

  /**
   * The message as shown inside the suggested `git commit -m "…"` command:
   * every newline written as a backslash followed by 'n'. The result holds no
   * newline, and a message without newlines is shown unchanged.
   */
  function EscapeNewlines(s: string): (r: string)
    ensures '\n' !in r
    ensures '\n' !in s ==> r == s
  {
    if s == [] then [] else (if s[0] == '\n' then "\\n" else [s[0]]) + EscapeNewlines(s[1..])
  }

  /** Escaping grows the text by exactly one character per newline. */
  lemma {:induction false} EscapedLength(s: string)
    ensures |EscapeNewlines(s)| == |s| + multiset(s)['\n']
  {
    if s != [] {
      assert s == [s[0]] + s[1..];
      EscapedLength(s[1..]);
    }
  }

  lemma {:induction false} EscapeNewlinesAppend(a: string, b: string)
    ensures EscapeNewlines(a + b) == EscapeNewlines(a) + EscapeNewlines(b)
  {
    if a == [] {
      assert a + b == b;
    } else {
      var head := if a[0] == '\n' then "\\n" else [a[0]];
      assert (a + b)[0] == a[0];
      assert (a + b)[1..] == a[1..] + b;
      EscapeNewlinesAppend(a[1..], b);
      assert EscapeNewlines(a + b) == head + (EscapeNewlines(a[1..]) + EscapeNewlines(b));
      assert EscapeNewlines(a) == head + EscapeNewlines(a[1..]);
    }
  }

  lemma EscapeBlankLine(body: string)
    ensures EscapeNewlines("\n\n" + body) == "\\n\\n" + EscapeNewlines(body)
  {
    var tail := "\n\n" + body;
    assert tail[0] == '\n' && tail[1..] == "\n" + body;
    assert tail[1..][0] == '\n' && tail[1..][1..] == body;
    var e := EscapeNewlines(body);
    assert EscapeNewlines(tail) == "\\n" + ("\\n" + e);
    assert "\\n" + "\\n" == "\\n\\n";
    assert "\\n" + ("\\n" + e) == ("\\n" + "\\n") + e;
  }

  /**
   * The command text of a generated message: the header unchanged, then, when
   * there is a body, the two-character escapes for the blank line and the
   * escaped body.
   */
  lemma EscapedCommitMessage(commitType: Commit, summary: string, body: string)
    requires '\n' !in Header(commitType, summary)
    ensures body == "" ==>
              EscapeNewlines(FormatCommitMessage(commitType, summary, body)) == Header(commitType, summary)
    ensures body != "" ==>
              EscapeNewlines(FormatCommitMessage(commitType, summary, body))
              == Header(commitType, summary) + "\\n\\n" + EscapeNewlines(body)
  {
    var h := Header(commitType, summary);
    if body != "" {
      var tail := "\n\n" + body;
      assert FormatCommitMessage(commitType, summary, body) == h + tail;
      EscapeNewlinesAppend(h, tail);
      EscapeBlankLine(body);
    }
  }

  /** Height of the type list for a terminal `height` rows tall: six rows fewer, never below three. */
  function ListHeight(height: int): (r: int)
    ensures r >= 3 && r >= height - 6
    ensures r == 3 || r == height - 6
  {
    var listHeight := height - 6;
    if listHeight < 3 then 3 else listHeight
  }

  /** Every field of the commit form, as one value. */
  datatype CommitState = CommitState(
    items: seq<Item>,
    index: Option<nat>,
    summary: string,
    body: string,
    selectedType: Option<Commit>,
    step: int,
    generatedMsg: string,
    quitting: bool,
    err: Option<string>,
    windowHeight: int,
    windowWidth: int,
    listHeight: int,
    listWidth: int,
    summaryWidth: Option<int>,
    bodyWidth: Option<int>,
    bodyHeight: Option<int>)

  /** The commit type the list has selected: none when nothing is selected or the entry is not a commit type. */
  function Selection(s: CommitState): (r: Option<Commit>)
    ensures r.Some? ==> s.index.Some? && s.index.value < |s.items| && s.items[s.index.value] == CommitItem(r.value)
    ensures r.None? ==> SelectedItem(s.items, s.index).None? || !SelectedItem(s.items, s.index).value.CommitItem?
  {
    match SelectedItem(s.items, s.index)
    case None => None
    case Some(it) => it.AsCommit()
  }

  /**
   * What Enter does. At the type step it copies the selected commit type and
   * moves on, or does nothing when none is selected; at the summary step it
   * refuses an empty summary with an error and otherwise clears the error and
   * moves on; at the body step it generates the message and ends the form.
   * Nothing else changes.
   */
  ghost predicate Entered(s: CommitState, t: CommitState, quit: bool) {
    if s.step == 0 then
      && !quit
      && t == (if Selection(s).Some? then s.(selectedType := Selection(s), step := 1) else s)
    else if s.step == 1 then
      && !quit
      && t == (if s.summary == "" then s.(err := Some(SummaryRequired)) else s.(err := None, step := 2))
    else
      && quit
      && s.selectedType.Some?
      && t == s.(generatedMsg := FormatCommitMessage(s.selectedType.value, s.summary, s.body))
  }

  /**
   * What a resize does: records the terminal size, resizes the list (height
   * clamped by ListHeight, width four columns narrower), and resizes the text
   * field of the current step. The step and the texts do not change.
   */
  ghost predicate Resized(s: CommitState, t: CommitState, height: int, width: int) {
    t == s.(windowHeight := height, windowWidth := width,
            listHeight := ListHeight(height), listWidth := width - 4,
            summaryWidth := if s.step == 1 then Some(width - 4) else s.summaryWidth,
            bodyWidth := if s.step == 2 then Some(width - 4) else s.bodyWidth,
            bodyHeight := if s.step == 2 then Some(height - 10) else s.bodyHeight)
  }

  /** The form that collects a commit type, a summary and an optional body. */
  class CommitForm {
    const items: seq<Item>
    var index: Option<nat>
    var summary: string
    var body: string
    var selectedType: Option<Commit>
    var step: int
    var generatedMsg: string
    var quitting: bool
    var err: Option<string>
    var windowHeight: int
    var windowWidth: int
    var listHeight: int
    var listWidth: int
    var summaryWidth: Option<int>
    var bodyWidth: Option<int>
    var bodyHeight: Option<int>

    function State(): CommitState
      reads this
    {
      CommitState(items, index, summary, body, selectedType, step, generatedMsg, quitting, err,
                  windowHeight, windowWidth, listHeight, listWidth, summaryWidth, bodyWidth, bodyHeight)
    }

    /**
     * The steps run 0, 1, 2; a type is selected exactly from step 1 on and is
     * one of the listed entries; the summary is non-empty once step 2 is
     * reached; the list is at least three rows high; the text fields respect
     * their character limits.
     */
    ghost predicate Valid()
      reads this
    {
      && 0 <= step <= 2
      && (index.Some? ==> index.value < |items|)
      && (selectedType.Some? <==> step >= 1)
      && (selectedType.Some? ==> CommitItem(selectedType.value) in items)
      && (step == 2 ==> summary != "")
      && listHeight >= 3
      && |summary| <= SummaryLimit
      && |body| <= BodyLimit
    }

    /**
     * The initial form: one list entry per configured commit type in order,
     * the cursor on the first entry, a list 100 columns wide and 20 rows high,
     * no terminal size known yet, and every other field empty.
     */
    constructor (config: Config.Config)
      ensures Valid()
      ensures |items| == |config.CommitTypes|
      ensures forall i :: 0 <= i < |items| ==> items[i] == CommitItem(config.CommitTypes[i])
      ensures index == (if items == [] then None else Some(0))
      ensures step == 0 && selectedType == None && summary == "" && body == ""
      ensures generatedMsg == "" && !quitting && err == None
      ensures windowHeight == 0 && windowWidth == 0 && listHeight == 20 && listWidth == 100
      ensures summaryWidth == None && bodyWidth == None && bodyHeight == None
    {
      var entries := CommitItems(config.CommitTypes);
      items := entries;
      index := if entries == [] then None else Some(0);
      summary, body := "", "";
      selectedType := None;
      step := 0;
      generatedMsg := "";
      quitting := false;
      err := None;
      windowHeight, windowWidth := 0, 0;
      listHeight, listWidth := 20, 100;
      summaryWidth, bodyWidth, bodyHeight := None, None, None;
    }

    /** Enter, as `handleEnter`; `quit` reports that the form asks the program to end. */
    method HandleEnter() returns (quit: bool)
      requires Valid()
      modifies this
      ensures Valid()
      ensures Entered(old(State()), State(), quit)
    {
      quit := false;
      if step == 0 {
        var chosen := Selection(State());
        if chosen.Some? {
          selectedType := chosen;
          step := step + 1;
        }
      } else if step == 1 {
        if summary == "" {
          err := Some(SummaryRequired);
          return;
        }
        err := None;
        step := step + 1;
      } else {
        generatedMsg := FormatCommitMessage(selectedType.value, summary, body);
        quit := true;
      }
    }

    /** The window-size branch of `Update`. */
    method HandleResize(height: int, width: int)
      requires Valid()
      modifies this
      ensures Valid()
      ensures Resized(old(State()), State(), height, width)
    {
      windowHeight := height;
      windowWidth := width;
      listHeight := ListHeight(windowHeight);
      listWidth := windowWidth - 4;
      if step == 1 {
        summaryWidth := Some(windowWidth - 4);
      } else if step == 2 {
        bodyWidth := Some(windowWidth - 4);
        bodyHeight := Some(windowHeight - 10);
      }
    }

    /**
     * One event, as `Update`. A resize behaves as Resized; a quit key sets
     * `quitting` and nothing else from any step; Enter behaves as HandleEnter;
     * a list key moves the selection at the type step only; typing edits the
     * summary at step 1 and the body at step 2, within their limits. The list's
     * quit keys are disabled and the text fields do not bind `esc`, so `esc`
     * changes nothing. The step never decreases.
     */
    method Update(ev: Event) returns (quit: bool)
      requires Valid()
      modifies this
      ensures Valid()
      ensures old(step) <= step
      ensures ev.Resize? ==> !quit && Resized(old(State()), State(), ev.height, ev.width)
      ensures ev.Quit? ==> quit && State() == old(State()).(quitting := true)
      ensures ev.Enter? ==> Entered(old(State()), State(), quit)
      ensures ev.Escape? ==> !quit && State() == old(State())
      ensures ev.Navigate? ==>
                && !quit
                && State() == old(State()).(index := if old(step) == 0 then MoveTo(items, old(index), ev.index) else old(index))
      ensures ev.Edit? ==>
                && !quit
                && State() == if old(step) == 1 then old(State()).(summary := Clip(ev.text, SummaryLimit))
                              else if old(step) == 2 then old(State()).(body := Clip(ev.text, BodyLimit))
                              else old(State())
    {
      match ev
      case Resize(height, width) =>
        HandleResize(height, width);
        quit := false;
      case Quit =>
        quitting := true;
        quit := true;
      case Enter =>
        quit := HandleEnter();
      case Navigate(target) =>
        if step == 0 {
          index := MoveTo(items, index, target);
        }
        quit := false;
      case Edit(text) =>
        if step == 1 {
          summary := Clip(text, SummaryLimit);
        } else if step == 2 {
          body := Clip(text, BodyLimit);
        }
        quit := false;
      case Escape =>
        quit := false;
    }
  }
}
