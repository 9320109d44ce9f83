/** JsonUtils: the pretty-printer applied to a JSON text before it is shown, and its indentation helper. */
module JsonUtils {
  import opened Wrappers

  // ----------------------------------------------------------------------------------------
  // newLine

  /** `k` copies of two spaces; nothing for `k <= 0`. */
  function Spaces(k: int): (s: string)
    ensures |s| == if k <= 0 then 0 else 2 * k
    decreases k
  {
    if k <= 0 then "" else Spaces(k - 1) + "  "
  }

  /** The indentation is blank: every character of it is a space. */
  lemma {:induction false} SpacesBlank(k: int)
    ensures forall i :: 0 <= i < |Spaces(k)| ==> Spaces(k)[i] == ' '
    decreases k
  {
    if k > 0 {
      SpacesBlank(k - 1);
      assert Spaces(k) == Spaces(k - 1) + "  ";
    }
  }

  /** newLine(k): a line break followed by `k` indentation steps. */
  function NewLineText(k: int): (s: string)
  {
    "\n" + Spaces(k)
  }

  /** The text newLine(k) returns starts with its only line break and is blank after it. */
  lemma NewLineShape(k: int)
    ensures |NewLineText(k)| == 1 + (if k <= 0 then 0 else 2 * k)
    ensures NewLineText(k)[0] == '\n'
    ensures forall i :: 1 <= i < |NewLineText(k)| ==> NewLineText(k)[i] == ' '
  {
    SpacesBlank(k);
  }

  /** newLine(tabCount): the loop appending two spaces per step, which does not run for tabCount <= 0. */
  method NewLine(tabCount: int) returns (s: string)
    ensures s == NewLineText(tabCount)
  {
    s := "\n";
    var j := 0;
    while j < tabCount
      invariant j <= tabCount || j == 0
      invariant s == "\n" + Spaces(j)
    {
      s := s + "  ";
      j := j + 1;
    }
  }

  // ----------------------------------------------------------------------------------------
  // beautify

  predicate IsOpen(c: char) { c == '{' || c == '[' }

  predicate IsClose(c: char) { c == '}' || c == ']' }

  /** The printer's state between two characters: the text so far and the tab count. */
  datatype State = State(out: string, depth: int)

  /** The tab count after reading c at tab count `depth`. */
  function NextDepth(c: char, depth: int): int
  {
    if IsClose(c) then depth - 1 else if IsOpen(c) then depth + 1 else depth
  }

  /** Reading input[i] looks before the first character or after the last one: the array access throws. */
  predicate OutOfBounds(input: string, i: nat)
    requires i < |input|
  {
    (IsClose(input[i]) && i == 0) || (IsOpen(input[i]) && i + 1 == |input|)
  }

  /**
   * The text one turn of the loop appends for input[i], `depth` being the tab count after it: a
   * closing bracket starts a new line first unless it closes an empty pair; an opening bracket
   * starts a new line after it unless an empty pair follows; a comma starts a new line after it.
   */
  function Emitted(input: string, i: nat, depth: int): string
    requires i < |input| && !OutOfBounds(input, i)
  {
    var c := input[i];
    if IsClose(c) then (if IsOpen(input[i - 1]) then [c] else NewLineText(depth) + [c])
    else if IsOpen(c) then (if IsClose(input[i + 1]) then [c] else [c] + NewLineText(depth))
    else if c == ',' then [c] + NewLineText(depth)
    else [c]
  }

  /** One turn of the loop for input[i]: the array access fails, or the text grows and the depth moves. */
  function Step(input: string, i: nat, st: State): Result<State>
    requires i < |input|
  {
    if OutOfBounds(input, i) then Failure(ArrayIndexOutOfBoundsException)
    else
      var depth := NextDepth(input[i], st.depth);
      Success(State(st.out + Emitted(input, i, depth), depth))
  }

  /** The state after the first `n` characters, or the failure that stopped the loop. */
  function Run(input: string, n: nat): Result<State>
    requires n <= |input|
  {
    if n == 0 then Success(State("", 0))
    else
      match Run(input, n - 1)
      case Failure(e) => Failure(e)
      case Success(st) => Step(input, n - 1, st)
  }

  /** beautify(input): the text after the whole input, or the exception the loop threw. */
  function Beautified(input: string): Result<string>
  {
    match Run(input, |input|)
    case Failure(e) => Failure(e)
    case Success(st) => Success(st.out)
  }

  /** beautify: one pass over the characters, tracking the tab count and appending to a builder. */
  method Beautify(input: string) returns (r: Result<string>)
    ensures r == Beautified(input)
  {
    var out := "";
    var tabCount := 0;
    for i := 0 to |input|
      invariant Run(input, i) == Success(State(out, tabCount))
    {
      ghost var before, depth := out, tabCount;
      ghost var lead, trail := "", "";
      var c := input[i];
      if IsClose(c) {
        tabCount := tabCount - 1;
        if i == 0 {
          TurnFails(input, i, State(before, depth));
          return Failure(ArrayIndexOutOfBoundsException);
        }
        if !IsOpen(input[i - 1]) {
          var line := NewLine(tabCount);
          out := out + line;
          lead := line;
        }
      }
      out := out + [c];
      assert out == before + lead + [c];
      if IsOpen(c) {
        tabCount := tabCount + 1;
        if i + 1 == |input| {
          TurnFails(input, i, State(before, depth));
          return Failure(ArrayIndexOutOfBoundsException);
        }
        if IsClose(input[i + 1]) {
          assert out == before + lead + [c] + trail;
          TurnAppends(input, i, State(before, depth), lead, trail);
          continue;
        }
        var line := NewLine(tabCount);
        out := out + line;
        trail := line;
      }
      if c == ',' {
        var line := NewLine(tabCount);
        out := out + line;
        trail := line;
      }
      assert out == before + lead + [c] + trail;
      TurnAppends(input, i, State(before, depth), lead, trail);
    }
    r := Success(out);
  }

  /**
   * A turn within bounds writes a line before a closing bracket that does not end an empty pair,
   * the character, and a line after an opening bracket not starting an empty pair or after a comma.
   */
  lemma TurnAppends(input: string, i: nat, st: State, lead: string, trail: string)
    requires i < |input| && Run(input, i) == Success(st) && !OutOfBounds(input, i)
    requires var c, depth := input[i], NextDepth(input[i], st.depth);
      && lead == (if IsClose(c) && !IsOpen(input[i - 1]) then NewLineText(depth) else "")
      && trail == (if (IsOpen(c) && !IsClose(input[i + 1])) || c == ',' then NewLineText(depth) else "")
    ensures Run(input, i + 1)
            == Success(State(st.out + lead + [input[i]] + trail, NextDepth(input[i], st.depth)))
  {
    var c, depth := input[i], NextDepth(input[i], st.depth);
    TurnSucceeds(input, i, st);
    if IsClose(c) {
      assert trail == "" && lead + [c] == Emitted(input, i, depth);
      assert st.out + lead + [c] + trail == st.out + (lead + [c]);
    } else {
      assert lead == "" && [c] + trail == Emitted(input, i, depth);
      assert st.out + lead + [c] + trail == st.out + ([c] + trail);
    }
  }

  /** A turn that reads out of bounds ends the whole run in that failure. */
  lemma TurnFails(input: string, i: nat, st: State)
    requires i < |input| && Run(input, i) == Success(st) && OutOfBounds(input, i)
    ensures Beautified(input) == Failure(ArrayIndexOutOfBoundsException)
  {
    FailurePersists(input, i + 1, |input|);
  }

  /** A turn within bounds appends its text and moves the tab count. */
  lemma TurnSucceeds(input: string, i: nat, st: State)
    requires i < |input| && Run(input, i) == Success(st) && !OutOfBounds(input, i)
    ensures Run(input, i + 1) == Success(State(st.out + Emitted(input, i, NextDepth(input[i], st.depth)),
                                               NextDepth(input[i], st.depth)))
  {
  }

  /** Proof hint: regroups a three-part concatenation so a turn's text matches Emitted. */
  lemma AppendAssoc(a: string, b: string, c: string)
    ensures (a + b) + c == a + (b + c)
  {
  }

  /** Once a step has failed, every longer run ends in that same failure. */
  lemma {:induction false} FailurePersists(input: string, n: nat, m: nat)
    requires n <= m <= |input| && Run(input, n).Failure?
    ensures Run(input, m) == Run(input, n)
    decreases m - n
  {
    if n < m {
      FailurePersists(input, n + 1, m);
    }
  }

  // ----------------------------------------------------------------------------------------
  // What beautify promises

  /** Net nesting of a text, counted independently of the loop: its openings minus its closings. */
  function Depth(s: string): int
  {
    var count := multiset(s);
    (count['{'] + count['[']) as int - (count['}'] + count[']']) as int
  }

  /** Reading one more character moves the depth as the loop moves the tab count. */
  lemma DepthStep(input: string, i: nat)
    requires i < |input|
    ensures Depth(input[..i + 1]) == NextDepth(input[i], Depth(input[..i]))
  {
    assert input[..i + 1] == input[..i] + [input[i]];
    assert multiset(input[..i + 1]) == multiset(input[..i]) + multiset{input[i]};
  }

  /** The tab count after a prefix is the prefix's openings minus its closings. */
  lemma {:induction false} DepthTracks(input: string, n: nat)
    requires n <= |input| && Run(input, n).Success?
    ensures Run(input, n).value.depth == Depth(input[..n])
  {
    if n > 0 {
      var st := Run(input, n - 1).value;
      assert Run(input, n).value.depth == NextDepth(input[n - 1], st.depth);
      DepthTracks(input, n - 1);
      DepthStep(input, n - 1);
    }
  }

  /** The loop fails exactly when it reaches a closing bracket in front or an opening bracket at the end. */
  lemma {:induction false} RunFails(input: string, n: nat)
    requires n <= |input|
    ensures Run(input, n).Failure? <==>
      (n >= 1 && IsClose(input[0])) || (n == |input| >= 1 && IsOpen(input[n - 1]))
  {
    if n > 0 {
      RunFails(input, n - 1);
    }
  }

  /** beautify throws exactly when the input starts with a closing or ends with an opening bracket. */
  lemma BeautifyFails(input: string)
    ensures Beautified(input).Failure? <==>
      |input| >= 1 && (IsClose(input[0]) || IsOpen(input[|input| - 1]))
    ensures Beautified(input).Failure? ==> Beautified(input).error == ArrayIndexOutOfBoundsException
  {
    RunFails(input, |input|);
    if Run(input, |input|).Failure? {
      FailureIsOutOfBounds(input, |input|);
    }
  }

  lemma {:induction false} FailureIsOutOfBounds(input: string, n: nat)
    requires n <= |input| && Run(input, n).Failure?
    ensures Run(input, n).error == ArrayIndexOutOfBoundsException
  {
    if Run(input, n - 1).Failure? {
      FailureIsOutOfBounds(input, n - 1);
    }
  }

  /** The text with line breaks and spaces taken out. */
  function Visible(s: string): string
  {
    if s == [] then [] else Visible(s[..|s| - 1]) + (if s[|s| - 1] in "\n " then [] else [s[|s| - 1]])
  }

  lemma {:induction false} VisibleAppend(a: string, b: string)
    ensures Visible(a + b) == Visible(a) + Visible(b)
    decreases |b|
  {
    if b != [] {
      var b' := b[..|b| - 1];
      assert (a + b)[..|a + b| - 1] == a + b';
      assert (a + b)[|a + b| - 1] == b[|b| - 1];
      VisibleAppend(a, b');
    } else {
      assert a + b == a;
    }
  }

  lemma VisibleNewLine(k: int)
    ensures Visible(NewLineText(k)) == []
  {
    var s := NewLineText(k);
    NewLineShape(k);
    BlankInvisible(s);
  }

  lemma {:induction false} BlankInvisible(s: string)
    requires forall i :: 0 <= i < |s| ==> s[i] in "\n "
    ensures Visible(s) == []
  {
    if s != [] {
      BlankInvisible(s[..|s| - 1]);
    }
  }

  /** A single character is invisible exactly when it is a line break or a space. */
  lemma VisibleChar(c: char)
    ensures Visible([c]) == if c in "\n " then [] else [c]
  {
    assert [c][..0] == [];
  }

  /** What one step appends is the character it reads plus blanks. */
  lemma VisibleEmitted(input: string, i: nat, depth: int)
    requires i < |input| && !OutOfBounds(input, i)
    ensures Visible(Emitted(input, i, depth)) == Visible([input[i]])
  {
    var c := input[i];
    VisibleNewLine(depth);
    if IsClose(c) && !IsOpen(input[i - 1]) {
      VisibleAppend(NewLineText(depth), [c]);
    } else if (IsOpen(c) && !IsClose(input[i + 1])) || (!IsClose(c) && !IsOpen(c) && c == ',') {
      VisibleAppend([c], NewLineText(depth));
    }
  }

  /** The visible part of a prefix grows by the visible part of its last character. */
  lemma VisiblePrefix(input: string, n: nat)
    requires 0 < n <= |input|
    ensures Visible(input[..n]) == Visible(input[..n - 1]) + Visible([input[n - 1]])
  {
    assert input[..n] == input[..n - 1] + [input[n - 1]];
    VisibleAppend(input[..n - 1], [input[n - 1]]);
  }

  /**
   * Every input character is copied once and in order, and all that is added is line breaks and
   * spaces: with those taken out, output and input agree.
   */
  lemma {:induction false} OnlyWhitespaceAdded(input: string, n: nat)
    requires n <= |input| && Run(input, n).Success?
    ensures Visible(Run(input, n).value.out) == Visible(input[..n])
  {
    if n > 0 {
      var st := Run(input, n - 1).value;
      var depth := NextDepth(input[n - 1], st.depth);
      OnlyWhitespaceAdded(input, n - 1);
      VisibleAppend(st.out, Emitted(input, n - 1, depth));
      VisibleEmitted(input, n - 1, depth);
      VisiblePrefix(input, n);
    }
  }

  /** A text without brackets or commas comes back unchanged. */
  lemma {:induction false} PlainTextUnchanged(input: string, n: nat)
    requires n <= |input|
    requires forall i :: 0 <= i < |input| ==> !IsOpen(input[i]) && !IsClose(input[i]) && input[i] != ','
    ensures Run(input, n) == Success(State(input[..n], 0))
  {
    if n > 0 {
      PlainTextUnchanged(input, n - 1);
      assert input[..n] == input[..n - 1] + [input[n - 1]];
    }
  }

  lemma PlainBeautified(input: string)
    requires forall i :: 0 <= i < |input| ==> !IsOpen(input[i]) && !IsClose(input[i]) && input[i] != ','
    ensures Beautified(input) == Success(input)
  {
    PlainTextUnchanged(input, |input|);
    assert input[..|input|] == input;
  }

  /** Every comma is followed by a line break indented to the depth of the text up to it. */
  lemma CommaBreaksLine(input: string, i: nat)
    requires i < |input| && input[i] == ',' && Run(input, i).Success?
    ensures Run(input, i + 1) == Success(State(Run(input, i).value.out + "," + NewLineText(Depth(input[..i])),
                                               Depth(input[..i])))
  {
    var st := Run(input, i).value;
    assert Run(input, i + 1) == Step(input, i, st);
    DepthTracks(input, i);
    AppendAssoc(st.out, ",", NewLineText(st.depth));
  }

  /** An opening bracket directly followed by its closing one is copied as the pair, with nothing between. */
  lemma EmptyPairStaysTogether(input: string, i: nat)
    requires i + 1 < |input| && IsOpen(input[i]) && IsClose(input[i + 1]) && Run(input, i).Success?
    ensures Run(input, i + 2) == Success(State(Run(input, i).value.out + [input[i], input[i + 1]],
                                               Run(input, i).value.depth))
  {
    var st := Run(input, i).value;
    assert Run(input, i + 1) == Success(State(st.out + [input[i]], st.depth + 1));
    assert st.out + [input[i]] + [input[i + 1]] == st.out + [input[i], input[i + 1]];
  }

  /**
   * A closing bracket that does not close an empty pair goes on a new line indented to the depth
   * of the text up to and including it.
   */
  lemma ClosingOnNewLine(input: string, i: nat)
    requires 0 < i < |input| && IsClose(input[i]) && !IsOpen(input[i - 1]) && Run(input, i).Success?
    ensures Run(input, i + 1) == Success(State(Run(input, i).value.out + NewLineText(Depth(input[..i + 1])) + [input[i]],
                                               Depth(input[..i + 1])))
  {
    var st := Run(input, i).value;
    var c := input[i];
    var depth := st.depth - 1;
    assert !OutOfBounds(input, i) && NextDepth(c, st.depth) == depth;
    assert Emitted(input, i, depth) == NewLineText(depth) + [c];
    assert Run(input, i + 1) == Success(State(st.out + (NewLineText(depth) + [c]), depth));
    AppendAssoc(st.out, NewLineText(depth), [c]);
    DepthTracks(input, i);
    DepthStep(input, i);
  }

  /** A two-element array gets one element per line, indented by one step, and the bracket back on its own line. */
  lemma ArrayExample()
    ensures Beautified("[1,2]") == Success("[\n  1,\n  2\n]")
  {
    var input := "[1,2]";
    ArrayExampleFirstElement();
    assert input[2] == ',' && input[3] == '2' && input[4] == ']';
    assert Emitted(input, 3, 1) == "2";
    TurnSucceeds(input, 3, State("[\n  1,\n  ", 1));
    assert "[\n  1,\n  " + "2" == "[\n  1,\n  2";
    assert NewLineText(0) == "\n";
    assert Emitted(input, 4, 0) == "\n]";
    TurnSucceeds(input, 4, State("[\n  1,\n  2", 1));
    assert "[\n  1,\n  2" + "\n]" == "[\n  1,\n  2\n]";
  }

  /** newLine(1): a line break and one indentation step. */
  lemma OneLevel()
    ensures NewLineText(1) == "\n  "
  {
    assert Spaces(1) == Spaces(0) + "  ";
    assert Spaces(0) + "  " == "  ";
  }

  /** The first three characters of the same array: the bracket, the element and its comma. */
  lemma ArrayExampleFirstElement()
    ensures Run("[1,2]", 3) == Success(State("[\n  1,\n  ", 1))
  {
    var input := "[1,2]";
    assert input[0] == '[' && input[1] == '1' && input[2] == ',';
    OneLevel();
    assert Emitted(input, 0, 1) == "[\n  ";
    TurnSucceeds(input, 0, State("", 0));
    assert "" + "[\n  " == "[\n  ";
    assert Emitted(input, 1, 1) == "1";
    TurnSucceeds(input, 1, State("[\n  ", 1));
    assert "[\n  " + "1" == "[\n  1";
    assert Emitted(input, 2, 1) == ",\n  ";
    TurnSucceeds(input, 2, State("[\n  1", 1));
    assert "[\n  1" + ",\n  " == "[\n  1,\n  ";
  }
}
