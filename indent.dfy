/**
 * The indentation fix-up applied to a dynamically resolved partial's output
 * (index.js, `invokePartialWrapper`): split on newlines, put the indent in front of
 * every line except a final empty one, and join again.
 */
module Indent {
  import opened Lines

  /** The lines after the fix-up: each gets `indent` in front, except a last line that is empty. */
  function IndentLines(lines: seq<string>, indent: string): (out: seq<string>)
    ensures |out| == |lines|
  {
    if lines == [] then []
    else if |lines| == 1 then [if lines[0] == [] then [] else indent + lines[0]]
    else [indent + lines[0]] + IndentLines(lines[1..], indent)
  }

  /** Line `i` after the fix-up is line `i` with the indent in front, unless it is the last line and empty. */
  lemma {:induction false} IndentLinesAt(lines: seq<string>, indent: string, i: nat)
    requires i < |lines|
    ensures IndentLines(lines, indent)[i] == if i == |lines| - 1 && lines[i] == [] then [] else indent + lines[i]
  {
    if |lines| > 1 && i > 0 {
      IndentLinesAt(lines[1..], indent, i - 1);
      assert IndentLines(lines, indent) == [indent + lines[0]] + IndentLines(lines[1..], indent);
    }
  }

  /** The partial output after the fix-up with a non-empty indent. */
  function IndentOutput(output: string, indent: string): string
  {
    Join(IndentLines(Split(output), indent))
  }

  /** `if (options.indent)`: an empty indent is falsy and leaves the output alone. */
  function FixIndent(output: string, indent: string): (r: string)
    ensures indent == "" ==> r == output
  {
    if indent == "" then output else IndentOutput(output, indent)
  }

  /** `line` with a leading `indent` removed, when it has one. */
  function StripIndent(line: string, indent: string): (r: string)
    ensures indent <= line ==> indent + r == line
    ensures !(indent <= line) ==> r == line
  {
    if indent <= line then line[|indent|..] else line
  }

  /** The inverse of the fix-up: strip the indent from every line that carries it. */
  function Unindent(text: string, indent: string): string
  {
    var lines := Split(text);
    Join(seq(|lines|, i requires 0 <= i < |lines| => StripIndent(lines[i], indent)))
  }

  /** An indent without newlines leaves the line structure alone: the output's lines are the indented input lines. */
  lemma {:induction false} IndentedLines(output: string, indent: string)
    requires '\n' !in indent
    ensures Split(IndentOutput(output, indent)) == IndentLines(Split(output), indent)
  {
    var before := Split(output);
    var out := IndentLines(before, indent);
    forall i | 0 <= i < |out|
      ensures '\n' !in out[i]
    {
      IndentLinesAt(before, indent, i);
    }
    SplitJoin(out);
  }

  /**
   * Line by line: the fix-up keeps the number of lines, and line `i` of the result is line `i`
   * of the partial output with the indent in front, unless it is the last line and the output
   * ended in a newline (or was empty), in which case it stays empty.
   */
  lemma {:induction false} IndentedLine(output: string, indent: string, i: nat)
    requires '\n' !in indent
    requires i < |Split(output)|
    ensures |Split(IndentOutput(output, indent))| == |Split(output)|
    ensures NewlineCount(IndentOutput(output, indent)) == NewlineCount(output)
    ensures var before, after := Split(output), Split(IndentOutput(output, indent));
            if i == |before| - 1 && (output == [] || output[|output| - 1] == '\n')
            then after[i] == [] else after[i] == indent + before[i]
  {
    var before := Split(output);
    var after := Split(IndentOutput(output, indent));
    IndentedLines(output, indent);
    LastPieceEmpty(output);
    LineAfterFixUp(before, after, indent, i, output == [] || output[|output| - 1] == '\n');
  }

  /** IndentLinesAt restated for a line sequence known to be the fixed-up one. */
  lemma LineAfterFixUp(before: seq<string>, after: seq<string>, indent: string, i: nat, lastEmpty: bool)
    requires after == IndentLines(before, indent)
    requires i < |before|
    requires before[|before| - 1] == [] <==> lastEmpty
    ensures |after| == |before|
    ensures if i == |before| - 1 && lastEmpty then after[i] == [] else after[i] == indent + before[i]
  {
    IndentLinesAt(before, indent, i);
  }

  /** Removing the indent from each line of the fixed-up output gives the partial output back. */
  lemma {:induction false} UnindentIndent(output: string, indent: string)
    requires '\n' !in indent
    ensures Unindent(IndentOutput(output, indent), indent) == output
  {
    var before := Split(output);
    var after := Split(IndentOutput(output, indent));
    IndentedLines(output, indent);
    var stripped := seq(|after|, i requires 0 <= i < |after| => StripIndent(after[i], indent));
    forall i | 0 <= i < |before|
      ensures stripped[i] == before[i]
    {
      IndentLinesAt(before, indent, i);
      if !(i == |before| - 1 && before[i] == []) {
        assert after[i] == indent + before[i];
        assert indent <= after[i];
        assert after[i][|indent|..] == before[i];
      }
    }
    assert stripped == before;
    JoinSplit(output);
  }

  /** The indented lines are longer by the indent once for every prefixed line. */
  lemma {:induction false} IndentLinesLength(lines: seq<string>, indent: string)
    requires |lines| >= 1
    ensures TotalLength(IndentLines(lines, indent)) == TotalLength(lines) + |indent| * PrefixedCount(lines)
  {
    var out := IndentLines(lines, indent);
    if |lines| == 1 {
      assert TotalLength(out) == |out[0]| + TotalLength(out[1..]);
      assert out[1..] == [];
      assert TotalLength(lines) == |lines[0]| + TotalLength(lines[1..]);
      assert lines[1..] == [];
    } else {
      var rest := lines[1..];
      var outRest := IndentLines(rest, indent);
      IndentLinesLength(rest, indent);
      var c := PrefixedCount(rest);
      assert TotalLength(out) == |indent| + |lines[0]| + TotalLength(outRest) by {
        assert out == [indent + lines[0]] + outRest;
        assert out[1..] == outRest;
      }
      assert TotalLength(lines) == |lines[0]| + TotalLength(rest);
      assert PrefixedCount(lines) == c + 1;
      LengthStep(|indent|, c, |lines[0]|, TotalLength(rest), TotalLength(outRest), TotalLength(out));
    }
  }

  /** One more prefixed line adds one more indent: the arithmetic step of IndentLinesLength. */
  lemma LengthStep(width: nat, c: nat, head: nat, restIn: nat, restOut: nat, total: nat)
    requires restOut == restIn + width * c
    requires total == width + head + restOut
    ensures total == head + restIn + width * (c + 1)
  {
  }

  /** The number of lines the fix-up prefixes: all but a last empty one. */
  function PrefixedCount(lines: seq<string>): nat
    requires |lines| >= 1
  {
    if lines[|lines| - 1] == [] then |lines| - 1 else |lines|
  }

  /** The fixed-up output is the partial output plus one indent per prefixed line. */
  lemma {:induction false} IndentOutputLength(output: string, indent: string)
    ensures |IndentOutput(output, indent)| == |output| + |indent| * PrefixedCount(Split(output))
  {
    var lines := Split(output);
    IndentLinesLength(lines, indent);
    JoinSplit(output);
  }

  /** The fix-up loop, run in place over the array `lines` produced by `split`. */
  method IndentInPlace(lines: array<string>, indent: string)
    modifies lines
    ensures lines[..] == IndentLines(old(lines[..]), indent)
  {
    var i, l := 0, lines.Length;
    while i < l
      invariant 0 <= i <= l
      invariant forall k :: 0 <= k < i ==> lines[k] == indent + old(lines[k])
      invariant forall k :: i <= k < l ==> lines[k] == old(lines[k])
      invariant i == l && l > 0 ==> old(lines[l - 1]) != []
    {
      if lines[i] == [] && i + 1 == l {
        break;
      }
      lines[i] := indent + lines[i];
      i := i + 1;
    }
    forall k | 0 <= k < l
      ensures lines[k] == IndentLines(old(lines[..]), indent)[k]
    {
      IndentLinesAt(old(lines[..]), indent, k);
    }
    assert lines[..] == IndentLines(old(lines[..]), indent);
  }

  /** The whole fix-up: split the partial output, indent the lines in place, join them again. */
  method IndentPartialOutput(output: string, indent: string) returns (r: string)
    ensures r == IndentOutput(output, indent)
  {
    var pieces := Split(output);
    var lines := new string[|pieces|](i requires 0 <= i < |pieces| => pieces[i]);
    assert lines[..] == pieces;
    IndentInPlace(lines, indent);
    r := Join(lines[..]);
  }
}
