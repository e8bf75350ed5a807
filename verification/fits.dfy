/**
  The fits-on-screen decision taken at start-up: the input's line count is
  the number of newline bytes it holds, and an input whose count does not
  exceed the terminal's row count is printed verbatim instead of being shown
  in the interactive viewer.
 */
module Fits {
  import opened TerminalEvent

  type byte = x: int | 0 <= x < 0x100

  /** The byte `b'\n'`. */
  const NEWLINE: byte := 0x0A

  /** The number of newline bytes in `input`, counted from the end. */
  function CountNewlines(input: seq<byte>): (n: nat)
    ensures n <= |input|
    ensures n == 0 <==> forall i :: 0 <= i < |input| ==> input[i] != NEWLINE
    decreases |input|
  {
    if input == [] then 0
    else
      var last := |input| - 1;
      CountNewlines(input[..last]) + (if input[last] == NEWLINE then 1 else 0)
  }

  /** The positions of the newline bytes of `input`: an independent description of the count. */
  ghost function NewlinePositions(input: seq<byte>): set<int>
  {
    set i | 0 <= i < |input| && input[i] == NEWLINE
  }

  /** The count is exactly the number of positions holding a newline byte. */
  lemma {:induction false} CountIsNewlinePositions(input: seq<byte>)
    ensures CountNewlines(input) == |NewlinePositions(input)|
  {
    if input == [] {
      assert NewlinePositions(input) == {};
    } else {
      var last := |input| - 1;
      var init := input[..last];
      CountIsNewlinePositions(init);
      if input[last] == NEWLINE {
        assert NewlinePositions(input) == NewlinePositions(init) + {last};
        assert last !in NewlinePositions(init);
      } else {
        assert NewlinePositions(input) == NewlinePositions(init);
      }
    }
  }

  /** Counting distributes over concatenation: the count of a whole is the sum of the counts of its parts. */
  lemma {:induction false} CountConcat(a: seq<byte>, b: seq<byte>)
    ensures CountNewlines(a + b) == CountNewlines(a) + CountNewlines(b)
    decreases |b|
  {
    if b == [] {
      assert a + b == a;
    } else {
      var last := |b| - 1;
      CountConcat(a, b[..last]);
      assert (a + b)[..|a + b| - 1] == a + b[..last];
    }
  }

  /** A single left-to-right scan computing the same count. */
  method CountLines(input: seq<byte>) returns (n: nat)
    ensures n == CountNewlines(input)
  {
    n := 0;
    var i := 0;
    while i < |input|
      invariant 0 <= i <= |input|
      invariant n == CountNewlines(input[..i])
    {
      assert input[..i + 1][..i] == input[..i];
      if input[i] == NEWLINE {
        n := n + 1;
      }
      i := i + 1;
    }
    assert input[..|input|] == input;
  }

  /** What `main` does once it knows the input and the terminal's row count. */
  datatype Launch =
    | PrintVerbatim(output: seq<byte>)  // write the input to standard output as is, exit with success
    | EnterViewer                       // switch the terminal to the interactive viewer

  /**
    The start-up decision. An input holding exactly as many newlines as the
    terminal has rows still counts as fitting.
   */
  function Decide(input: seq<byte>, terminalLines: u16): (m: Launch)
    ensures m.PrintVerbatim? <==> |NewlinePositions(input)| <= terminalLines
    ensures m.PrintVerbatim? ==> m.output == input
  {
    CountIsNewlinePositions(input);
    if CountNewlines(input) <= terminalLines then PrintVerbatim(input) else EnterViewer
  }

  /** An input no longer than the terminal is tall always prints verbatim. */
  lemma ShortInputPrintsVerbatim(input: seq<byte>, terminalLines: u16)
    requires |input| <= terminalLines
    ensures Decide(input, terminalLines) == PrintVerbatim(input)
  {
    CountIsNewlinePositions(input);
  }

  /** If an input fits, so does every prefix of it. */
  lemma PrefixOfFittingInputFits(a: seq<byte>, b: seq<byte>, terminalLines: u16)
    requires Decide(a + b, terminalLines).PrintVerbatim?
    ensures Decide(a, terminalLines) == PrintVerbatim(a)
  {
    CountIsNewlinePositions(a + b);
    CountIsNewlinePositions(a);
    CountConcat(a, b);
  }

  /** Appending bytes without a newline (an unterminated last line) never changes the decision's kind. */
  lemma UnterminatedTailKeepsDecision(a: seq<byte>, b: seq<byte>, terminalLines: u16)
    requires forall i :: 0 <= i < |b| ==> b[i] != NEWLINE
    ensures Decide(a + b, terminalLines).PrintVerbatim? == Decide(a, terminalLines).PrintVerbatim?
  {
    CountIsNewlinePositions(a + b);
    CountIsNewlinePositions(a);
    CountConcat(a, b);
  }
}
