/**
 * Abstract view of the terminal widgets the forms are built from: the input
 * events a form receives, a text field's character limit, and a selection
 * list's current entry.
 */
module Widgets {
  import opened Wrappers
  import opened Types

  /** An input event delivered to a form's Update. */
  datatype Event =
    | Quit                              // the key "q" or "ctrl+c"
    | Enter                             // the key "enter"
    | Resize(height: int, width: int)   // the terminal was resized
    | Navigate(index: Option<nat>)      // a list key; the list's selected index afterwards (None: nothing selectable)
    | Edit(text: string)                // a text key; the text the focused field asks to hold afterwards
    | Escape                            // the key "esc", with no list filter being typed or applied

  /**
   * A text field with a character limit stops taking input once full: it keeps
   * the first `limit` characters of what was typed.
   */
  function Clip(text: string, limit: nat): (r: string)
    ensures |r| <= limit
    ensures r <= text
    ensures |text| <= limit ==> r == text
    ensures |text| > limit ==> r == text[..limit]
  {
    if |text| <= limit then text else text[..limit]
  }

  /** The entry a list reports as selected: none when the index is absent or past the end. */
  function SelectedItem(items: seq<Item>, index: Option<nat>): (r: Option<Item>)
    ensures r.Some? <==> index.Some? && index.value < |items|
    ensures r.Some? ==> r.value == items[index.value]
  {
    if index.Some? && index.value < |items| then Some(items[index.value]) else None
  }

  /** A list key moves the selection only to an index the list holds. */
  function MoveTo(items: seq<Item>, current: Option<nat>, target: Option<nat>): (r: Option<nat>)
    ensures (current.Some? ==> current.value < |items|) && (target.Some? ==> target.value < |items|) ==>
              (r.Some? ==> r.value < |items|)
    ensures target.None? || target.value < |items| ==> r == target
    ensures target.Some? && target.value >= |items| ==> r == current
  {
    if target.Some? && target.value >= |items| then current else target
  }

  /** The list entries built from configured branch types, one per type in order. */
  method BranchItems(types: seq<Branch>) returns (items: seq<Item>)
    ensures |items| == |types|
    ensures forall i :: 0 <= i < |types| ==> items[i] == BranchItem(types[i])
  {
    items := [];
    for i := 0 to |types|
      invariant |items| == i
      invariant forall k :: 0 <= k < i ==> items[k] == BranchItem(types[k])
    {
      items := items + [BranchItem(types[i])];
    }
  }

  /** The list entries built from configured commit types, one per type in order. */
  method CommitItems(types: seq<Commit>) returns (items: seq<Item>)
    ensures |items| == |types|
    ensures forall i :: 0 <= i < |types| ==> items[i] == CommitItem(types[i])
  {
    items := [];
    for i := 0 to |types|
      invariant |items| == i
      invariant forall k :: 0 <= k < i ==> items[k] == CommitItem(types[k])
    {
      items := items + [CommitItem(types[i])];
    }
  }
}
