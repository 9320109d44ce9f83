/** String.join("\n", parts), the one rule every multi-fragment text setter applies. */
module Strings {

  /** Total length of the fragments. */
  function TotalLength(parts: seq<string>): nat
  {
    if parts == [] then 0 else |parts[0]| + TotalLength(parts[1..])
  }

  /** String.join("\n", parts): fragments separated by one line break each; no fragment gives "". */
  function JoinLines(parts: seq<string>): (joined: string)
    ensures parts == [] ==> joined == ""
    ensures |parts| == 1 ==> joined == parts[0]
    ensures parts != [] ==> |joined| == TotalLength(parts) + |parts| - 1
  {
    if |parts| == 0 then ""
    else if |parts| == 1 then parts[0]
    else parts[0] + "\n" + JoinLines(parts[1..])
  }

  /** The inverse of JoinLines: cut a text at every line break. */
  function SplitLines(text: string): (lines: seq<string>)
    ensures |lines| >= 1
    decreases |text|
  {
    if '\n' !in text then [text]
    else
      var i := FirstBreak(text);
      [text[..i]] + SplitLines(text[i + 1..])
  }

  /** Position of the first line break. */
  function FirstBreak(text: string): (i: nat)
    requires '\n' in text
    ensures i < |text| && text[i] == '\n' && '\n' !in text[..i]
  {
    if text[0] == '\n' then 0 else 1 + FirstBreak(text[1..])
  }

  /** Fragments without line breaks of their own survive the join: split recovers them. */
  lemma {:induction false} SplitJoinLines(parts: seq<string>)
    requires parts != []
    requires forall k :: 0 <= k < |parts| ==> '\n' !in parts[k]
    ensures SplitLines(JoinLines(parts)) == parts
  {
    if |parts| > 1 {
      var head, rest := parts[0], JoinLines(parts[1..]);
      assert JoinLines(parts) == head + "\n" + rest;
      FirstBreakAfter(head, rest);
      SplitJoinLines(parts[1..]);
      assert parts == [head] + parts[1..];
    }
  }

  /** In `head + "\n" + rest` with no break in `head`, the first break is the one just after it. */
  lemma FirstBreakAfter(head: string, rest: string)
    requires '\n' !in head
    ensures var text := head + "\n" + rest;
      '\n' in text && FirstBreak(text) == |head| && SplitLines(text) == [head] + SplitLines(rest)
  {
    var text := head + "\n" + rest;
    assert text[|head|] == '\n';
    assert text[..|head|] == head;
    assert text[|head| + 1..] == rest;
  }
}
