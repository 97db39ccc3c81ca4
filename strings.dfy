/** Reading a string back: the text before the first occurrence of a separator. */
module Strings {

  /** Everything before the first `sep` in `s`; all of `s` when it holds no `sep`. */
  function Before(s: string, sep: char): (r: string)
    ensures r <= s
    ensures sep !in r
    ensures |r| < |s| ==> s[|r|] == sep
  {
    if s == [] || s[0] == sep then [] else [s[0]] + Before(s[1..], sep)
  }

  /** A text free of the separator is read back from any continuation that starts with the separator or is empty. */
  lemma {:induction false} BeforeJoin(text: string, sep: char, rest: string)
    requires sep !in text
    requires rest == [] || rest[0] == sep
    ensures Before(text + rest, sep) == text
  {
    if text == [] {
      assert text + rest == rest;
    } else {
      assert (text + rest)[1..] == text[1..] + rest;
      BeforeJoin(text[1..], sep, rest);
    }
  }
}
