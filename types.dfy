/**
 * The two kinds of type record read from the configuration, and the list
 * entry that shows either of them in a selection list.
 */
module Types {
  import opened Wrappers

  /** A branch type: the prefix that starts a branch name, and what it is for. */
  datatype Branch = Branch(Type: string, Desc: string) {
    /** Title shown in the selection list. */
    function Title(): string { Type }
    /** Second line shown under the title. */
    function Description(): string { Desc }
    /** Text the list filters on. */
    function FilterValue(): string { Type }
  }

  /** A commit type: the tag that starts a commit message, what it is for, and its emoji. */
  datatype Commit = Commit(Type: string, Desc: string, Emoji: string) {
    function Title(): string { Type }
    function Description(): string { Desc }
    function FilterValue(): string { Type }
  }

  /** An entry of a selection list: the list holds values of either record kind. */
  datatype Item = BranchItem(branch: Branch) | CommitItem(commit: Commit) {
    function Title(): string {
      match this
      case BranchItem(b) => b.Title()
      case CommitItem(c) => c.Title()
    }

    function Description(): string {
      match this
      case BranchItem(b) => b.Description()
      case CommitItem(c) => c.Description()
    }

    function FilterValue(): string {
      match this
      case BranchItem(b) => b.FilterValue()
      case CommitItem(c) => c.FilterValue()
    }

    /** The checked type assertion `item.(types.Branch)`: the record when the entry holds a branch type. */
    function AsBranch(): (r: Option<Branch>)
      ensures r.Some? <==> BranchItem?
      ensures r.Some? ==> this == BranchItem(r.value)
    {
      if BranchItem? then Some(branch) else None
    }

    /** The checked type assertion `item.(types.Commit)`. */
    function AsCommit(): (r: Option<Commit>)
      ensures r.Some? <==> CommitItem?
      ensures r.Some? ==> this == CommitItem(r.value)
    {
      if CommitItem? then Some(commit) else None
    }
  }

  /** A branch type is listed under its prefix, filtered by its prefix, and described by its description. */
  lemma BranchAccessors(b: Branch)
    ensures b.Title() == b.Type && b.Description() == b.Desc
    ensures b.FilterValue() == b.Title()
  {
  }

  /** A commit type is listed under its tag, filtered by its tag, and described by its description. */
  lemma CommitAccessors(c: Commit)
    ensures c.Title() == c.Type && c.Description() == c.Desc
    ensures c.FilterValue() == c.Title()
  {
  }

  /** Whatever the entry holds, the list filters on exactly the title it shows. */
  lemma ItemFilterIsTitle(it: Item)
    ensures it.FilterValue() == it.Title()
    ensures it.BranchItem? ==> it.Title() == it.branch.Type && it.Description() == it.branch.Desc
    ensures it.CommitItem? ==> it.Title() == it.commit.Type && it.Description() == it.commit.Desc
  {
  }
}
