# git-convention in Dafny

A verified model of the core of git-convention. This command-line tool builds
conventional git branch names and commit messages from a short interactive form.
The model covers:

- the two message formatters:
  - `formatBranchName` gives `type/description` or `type/issue-description`;
  - `formatCommitMessage` gives `type+emoji: summary`, optionally followed by a blank line and a body;
- the two three-step forms that feed them. Each form chooses a type from a list,
  asks for a required text, then asks for an optional text;
- the default-selection scan of the branch form;
- the newline escaping of the suggested `git commit -m` command;
- the type records and their list accessors;
- the `config-view` listing of the settings.

Files and modules:

| file | module | models |
|---|---|---|
| `wrappers.dfy` | `Wrappers` | `Option`, for nil pointers and absent errors |
| `strings.dfy` | `Strings` | `Before`, the text before a separator, used to read generated names and messages back |
| `types.dfy` | `Types` | `types/main.go`: the `Branch` and `Commit` records, and the list entry `Item` that holds either |
| `widgets.dfy` | `Widgets` | the input events, the character limit of a text field, the list's selected entry, and the loops that build list entries |
| `config.dfy` | `Config` | `internal/config/main.go`: the `Config` record and `ShowConfig`, which returns its lines instead of printing them |
| `branch.dfy` | `BranchCmd` | `cmd/commands/branch.go`: `formatBranchName`, the default-selection scan, and the `BranchForm` class (`branchModel`) |
| `commit.dfy` | `CommitCmd` | `cmd/commands/commit.go`: `formatCommitMessage`, newline escaping, the list-height clamp, and the `CommitForm` class (`commitModel`) |
| `examples.dfy` | `Examples` | the branch formatter on concrete inputs |

How the model is built:

- The forms are classes whose methods update fields in place. `State()` collects
  every field into one value, so each method's `ensures` gives the whole new state
  as an update of `old(State())`.
- `Valid()` holds the invariants that every event preserves:
  - the step stays in 0..2;
  - a type is selected exactly from step 1 on, and it is one of the listed entries;
  - the required text is non-empty once step 2 is reached;
  - the text fields stay within their limits.

  So no sequence of events can leave step 1 with an empty required field.
  `Update` also ensures that the step never decreases.
- The configuration is passed explicitly to the form constructors. The source
  stores it in a package-level variable instead.
- The terminal widgets appear only through their effect:
  - `Navigate(index)` stands for a list key and gives the list's selection afterwards.
  - `Edit(text)` stands for a typing key and gives the text the focused field
    asks to hold. The field keeps at most its character limit: 50 for the
    description, 20 for the issue number, 72 for the summary and 500 for the body.

Behaviour of the code worth stating, modelled as written:

- Each single space of a branch description becomes one hyphen (`strings.ReplaceAll`).
  Runs of whitespace are not collapsed, so two spaces give `--`.
- The commit formatter always writes the type's emoji. The `emojis_enabled`
  setting is printed by `ShowConfig` and consulted nowhere else.
- An empty type list produces no selection. Enter at step 0 then changes nothing,
  and the form stays at step 0 until the user quits.
- A `q` key quits from any step, including while a text field is being typed.
- An issue number is copied into the branch name as typed, without lower-casing.
- The branch list keeps the list widget's default key map, so `esc` at the type
  step (with no filter applied) makes the list end the program. The form then has
  `quitting` unset and an empty generated name, and `createBranch` goes on to
  print and copy that empty name. The commit list disables its quit keys, so
  `esc` changes nothing there.

## Model

| member | source | states |
|---|---|---|
| `Types.BranchAccessors` | types/main.go:15-17 | a branch type is titled by its prefix, described by its description, and filtered by its title |
| `Types.CommitAccessors` | types/main.go:33-35 | a commit type is titled by its tag, described by its description, and filtered by its title |
| `Types.ItemFilterIsTitle` | types/main.go:15-35 | whichever record a list entry holds, the filter key equals the shown title, and title and description are the record's `Type` and `Desc` |
| `Types.Item.AsBranch` | cmd/commands/branch.go:122 | the checked assertion `item.(types.Branch)` succeeds exactly on branch entries and returns the record the entry holds |
| `Types.Item.AsCommit` | cmd/commands/commit.go:157 | the checked assertion `item.(types.Commit)` succeeds exactly on commit entries and returns the record the entry holds |
| `Widgets.Clip` | cmd/commands/branch.go:75-81 | a field with a character limit holds all of the typed text when it fits, and exactly its first `limit` characters when it does not |
| `Widgets.SelectedItem` | cmd/commands/branch.go:122 | the list reports an entry exactly when its index is present and in range, and that entry is the one at the index |
| `Widgets.MoveTo` | cmd/commands/branch.go:108-110 | a list key keeps the selection in range: it takes an in-range or absent target and ignores an out-of-range one |
| `Widgets.BranchItems` | cmd/commands/branch.go:60-63 | the list holds one entry per configured branch type, in configuration order |
| `Widgets.CommitItems` | cmd/commands/commit.go:61-64 | the list holds one entry per configured commit type, in configuration order |
| `Config.BranchLine` | internal/config/main.go:113-116 | a branch line is a tab, the prefix, `": "`, the description and a trailing space, and each field can be read back at its offset |
| `Config.CommitLine` | internal/config/main.go:119-122 | a commit line is a tab, the tag, `": "`, the emoji, a space, the description and a trailing space, and each field can be read back at its offset |
| `Config.PrintBranchTypes` | internal/config/main.go:113-116 | the branch loop keeps the lines already printed and appends exactly one line per branch type, in order |
| `Config.PrintCommitTypes` | internal/config/main.go:119-122 | the commit loop keeps the lines already printed and appends exactly one line per commit type, in order |
| `Config.ShowConfig` | internal/config/main.go:107-123 | the listing has `3 + 2 + #branch types + 2 + #commit types` lines: the branch prefix, commit prefix and emoji flag in that order, the `Branches:` heading and rule, each branch line at its position, the `Commits:` heading and rule, then each commit line, so every branch line precedes every commit line |
| `Config.BranchLineAsWritten` | internal/config/main.go:114-115 | as written, a branch line agrees with the intended line up to the description slot, and that slot holds the text `fmt` prints for a function value |
| `Config.CommitLineAsWritten` | internal/config/main.go:120-121 | as written, a commit line agrees with the intended line up to the description slot, and that slot holds the text `fmt` prints for a function value |
| `Config.AsWrittenLinesDropDescription` | internal/config/main.go:113-122 | as written, the printed line does not depend on the description, and it differs from the intended line whenever the description is non-empty and does not start with `%` |
| `Config.AsWrittenListingExample` | internal/config/main.go:119-122 | the commit type `fix` / `A bug fix` / 🐛 is listed, as written, with a line other than the intended one |
| `BranchCmd.LowerChar` | cmd/commands/branch.go:176 | lower-casing maps `A`-`Z` to `a`-`z`, keeps every other character, and never yields an upper-case letter |
| `BranchCmd.ToLower` | cmd/commands/branch.go:176 | `strings.ToLower` keeps the length and lower-cases character by character |
| `BranchCmd.HyphenateSpaces` | cmd/commands/branch.go:177 | `strings.ReplaceAll(s, " ", "-")` keeps the length, leaves no space, and turns each space into one hyphen |
| `BranchCmd.Slug` | cmd/commands/branch.go:176-177 | the description part of a branch name has the description's length, contains no space and no upper-case letter, and is the description character by character with spaces hyphenated and letters lower-cased |
| `BranchCmd.FormatBranchName` | cmd/commands/branch.go:175-183 | the name is the prefix, `/`, then the issue number verbatim and `-` when the issue number is non-empty (nothing otherwise), then the slug of the description; the length adds up accordingly |
| `BranchCmd.GroupOfBranchName` | cmd/commands/branch.go:175-183 | a generated name files under its branch type: when the prefix holds no `/`, the text before the name's first `/` is the prefix, whatever the description and issue number |
| `BranchCmd.DefaultIndex` | cmd/commands/branch.go:68-73 | the scan finds the smallest index whose type equals the default prefix, or reports that no type has it |
| `BranchCmd.Selection` | cmd/commands/branch.go:122 | the selected branch type is the record of the in-range entry under the cursor, and nothing when there is no such entry or it is not a branch |
| `BranchCmd.BranchForm.constructor` | cmd/commands/branch.go:59-89 | the initial form lists the branch types in order with the cursor on the first default-prefix entry (on the first entry when none matches, on nothing when the list is empty); it is at step 0 with every text, selection, result and error empty |
| `BranchCmd.BranchForm.HandleEnter` | cmd/commands/branch.go:119-140 | Enter at step 0 copies the selected type and advances, or changes nothing when none is selected; at step 1, an empty description sets the error and changes nothing else, and a non-empty one clears the error and advances to step 2; at step 2 it sets the generated name to `FormatBranchName` of the selection, description and issue number, and quits |
| `BranchCmd.BranchForm.Update` | cmd/commands/branch.go:95-117 | quit sets `quitting` and nothing else at any step; Enter is HandleEnter; a resize changes nothing; list keys move the cursor only at step 0; typing edits the description at step 1 and the issue number at step 2, clipped to 50 and 20; `esc` ends the program at step 0 through the list's default quit key, leaving `quitting` unset and the generated name empty, and changes nothing at steps 1 and 2; the step never decreases and `Valid()` is kept, including that no name is generated before step 2 |
| `CommitCmd.FormatCommitMessage` | cmd/commands/commit.go:212-218 | the message always starts with `Type + Emoji + ": " + summary`, with no separator between type and emoji; an empty body adds nothing, and a non-empty body follows verbatim after `"\n\n"` |
| `CommitCmd.CommitMessageRoundTrip` | cmd/commands/commit.go:212-218 | a generated message reads back: when the header holds no newline, its subject line (the text before the first newline) is the header and its body is exactly the body given, the empty body included |
| `CommitCmd.EscapeNewlines` | cmd/commands/commit.go:53 | the escaped command text contains no newline, and a message without newlines is shown unchanged |
| `CommitCmd.EscapedLength` | cmd/commands/commit.go:53 | escaping adds exactly one character per newline |
| `CommitCmd.EscapeNewlinesAppend` | cmd/commands/commit.go:53 | escaping a concatenation concatenates the escapes |
| `CommitCmd.EscapeBlankLine` | cmd/commands/commit.go:53 | the blank line before a body is shown as `\n\n`, followed by the escaped body |
| `CommitCmd.EscapedCommitMessage` | cmd/commands/commit.go:51-53 | the command text of a generated message is its header unchanged, then `\n\n` and the escaped body when there is a body |
| `CommitCmd.ListHeight` | cmd/commands/commit.go:117-120 | the list height is `max(height - 6, 3)` |
| `CommitCmd.Selection` | cmd/commands/commit.go:157 | the selected commit type is the record of the in-range entry under the cursor, and nothing when there is no such entry or it is not a commit |
| `CommitCmd.CommitForm.constructor` | cmd/commands/commit.go:60-104 | the initial form lists the commit types in order with the cursor on the first entry (on nothing when the list is empty); the list is 100 wide and 20 high, no window size is known yet, and it is at step 0 with every text, selection, result and error empty |
| `CommitCmd.CommitForm.HandleEnter` | cmd/commands/commit.go:154-175 | Enter at step 0 copies the selected type and advances, or changes nothing when none is selected; at step 1, an empty summary sets the error and changes nothing else, and a non-empty one clears the error and advances; at step 2 it sets the generated message to `FormatCommitMessage` of the selection, summary and body, and quits |
| `CommitCmd.CommitForm.HandleResize` | cmd/commands/commit.go:113-132 | a resize records the window size, sets the list height to `ListHeight(height)` and the list width to `width - 4`, resizes the summary field at step 1 or the body field at step 2, and changes neither the step nor the texts |
| `CommitCmd.CommitForm.Update` | cmd/commands/commit.go:110-152 | a resize is HandleResize and never changes the step; quit sets `quitting` and nothing else at any step; Enter is HandleEnter; list keys move the cursor only at step 0; typing edits the summary at step 1 and the body at step 2, clipped to 72 and 500; `esc` changes nothing, because the list's quit keys are disabled (commit.go:76); the step never decreases and `Valid()` is kept |
| `Examples.FormatBranchNameExample` | cmd/commands/branch.go:175-183 | `("feature", "Add Login Flow", "")` gives `feature/add-login-flow` |
| `Examples.FormatBranchNameIssueExample` | cmd/commands/branch.go:175-183 | `("fix", "null check", "42")` gives `fix/42-null-check` |
| `Examples.FormatBranchNameVerbatimExample` | cmd/commands/branch.go:175-183 | `("fix", "Null  Check", "GH-7")` gives `fix/GH-7-null--check`: the issue number is not lower-cased, and two spaces give two hyphens |

## Findings

| source | as written | input that shows it | evidently intended | confidence | as-written member | corrected member |
|---|---|---|---|---|---|---|
| internal/config/main.go:113-122 | the listing loops pass the method value `branchType.Description` (and `commitType.Description`) to `%s` without calling it, so `fmt` prints `%!s(func() string=0x…)` in place of the description | a configuration with the commit type `{"type": "fix", "description": "A bug fix", "emoji": "🐛"}` is listed as `\tfix: 🐛 %!s(func() string=0x…) ` | each line shows the type's description: `\tfix: 🐛 A bug fix ` | high (not executed) | `Config.AsWrittenLinesDropDescription` | `Config.ShowConfig` |

## Left out

- Loading the configuration is not modelled: `GetConfig`, `loadConfig` and `createDefaultConfig` (internal/config/main.go:25-105). That part is file reads and writes, the home directory, flag parsing, JSON decoding, the embedded default file and fatal exits. A `Config` value is an input instead.
- The command wiring is not part of this model: cmd/commands/root.go and cmd/commands/config.go. The configuration is passed explicitly instead of through the package-level `conf`.
- Running the forms is not modelled: `createBranch` and `createCommit`, the terminal program, printing and the clipboard. The model keeps only the escaping expression of the printed commit command. `Update` returns `quit` where the source returns `tea.Quit`. The model keeps accepting events after a quit; the runtime stops delivering them.
- The `View` methods and all styling are not modelled.
- The widget internals are not modelled:
  - list cursor movement, filtering and the list's own key bindings are abstracted as `Navigate`, except the list's quit key `esc`, which is the event `Escape`;
  - editing is abstracted as `Edit`, clipped to the field's limit;
  - focus changes, the commands the widgets return, and the widgets' own bounds on the sizes they are given are not modelled.
- A branch form does not model terminal resizes: they are forwarded to the focused widget, whose size is not modelled.
- `BranchCmd.LowerChar`: lower-cases only the ASCII letters A-Z. Go's `strings.ToLower` also lower-cases other Unicode letters, and that can change the byte length (the character count, which the model's `|s|` measures, stays the same).
- No validation policy is added beyond what the source does. `type` values are not checked (a `/` inside one breaks the grouping that `BranchCmd.GroupOfBranchName` relies on), and empty type lists are accepted. An empty list leaves the form at step 0 until it quits.
