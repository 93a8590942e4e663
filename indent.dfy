/** `indent(s, spaces)` of cmd/root.go: split a text into lines, put the
    same number of spaces in front of every line (blank lines and the empty
    piece after a trailing line break included) and join the lines again. */
module Indentation {
  import opened Strings

  /** `strings.Repeat(" ", n)`. */
  function Spaces(n: nat): (r: string)
    ensures |r| == n
    ensures forall i :: 0 <= i < n ==> r[i] == ' '
  {
    seq(n, _ => ' ')
  }

  /** Each of `lines` with `n` spaces in front (the `funk.Map` step). */
  function IndentedLines(lines: seq<string>, n: nat): seq<string>
  {
    seq(|lines|, i requires 0 <= i < |lines| => Spaces(n) + lines[i])
  }

  /** The indented copy of a text. `n` is a `nat`: `strings.Repeat` panics on
      a negative count, and the renderer only passes 6 and 10. */
  function Indent(s: string, n: nat): string
  {
    Unlines(IndentedLines(Lines(s), n))
  }

  /** The lines of the indented text are exactly the lines of the original,
      each with `n` spaces in front: same number of lines, and line `i`
      becomes `Spaces(n) + line i`. */
  lemma LinesOfIndent(s: string, n: nat)
    ensures Lines(Indent(s, n)) == IndentedLines(Lines(s), n)
  {
    var ls := IndentedLines(Lines(s), n);
    forall i | 0 <= i < |ls| ensures '\n' !in ls[i] {
      assert ls[i] == Spaces(n) + Lines(s)[i];
    }
    SplitJoin(ls, '\n');
  }

  /** The same statement, line by line. */
  lemma IndentLine(s: string, n: nat, i: nat)
    requires i < |Lines(s)|
    ensures |Lines(Indent(s, n))| == |Lines(s)|
    ensures Lines(Indent(s, n))[i] == Spaces(n) + Lines(s)[i]
  {
    LinesOfIndent(s, n);
  }

  /** Indenting adds no line break and removes none. */
  lemma IndentKeepsLineBreaks(s: string, n: nat)
    ensures Count(Indent(s, n), '\n') == Count(s, '\n')
  {
    LinesOfIndent(s, n);
  }

  /** Indenting by zero columns changes nothing. */
  lemma IndentZero(s: string)
    ensures Indent(s, 0) == s
  {
    forall i | 0 <= i < |Lines(s)| ensures IndentedLines(Lines(s), 0)[i] == Lines(s)[i] {
      assert Spaces(0) + Lines(s)[i] == Lines(s)[i];
    }
    assert IndentedLines(Lines(s), 0) == Lines(s);
    JoinSplit(s, '\n');
  }

  /** Indenting twice is indenting once by the sum. */
  lemma IndentTwice(s: string, a: nat, b: nat)
    ensures Indent(Indent(s, a), b) == Indent(s, a + b)
  {
    LinesOfIndent(s, a);
    var lhs := IndentedLines(IndentedLines(Lines(s), a), b);
    var rhs := IndentedLines(Lines(s), a + b);
    forall i | 0 <= i < |lhs| ensures lhs[i] == rhs[i] {
      assert Spaces(b) + (Spaces(a) + Lines(s)[i]) == (Spaces(b) + Spaces(a)) + Lines(s)[i];
      assert Spaces(b) + Spaces(a) == Spaces(a + b);
    }
    assert lhs == rhs;
  }

  /** Indenting grows a text by `n` characters per line. */
  lemma IndentLength(s: string, n: nat)
    ensures |Indent(s, n)| == |s| + n * |Lines(s)|
  {
    JoinSplit(s, '\n');
    JoinLengthPrefixed(Lines(s), n);
  }

  /** Length bookkeeping behind `IndentLength`. */
  lemma {:induction false} JoinLengthPrefixed(lines: seq<string>, n: nat)
    ensures |Unlines(IndentedLines(lines, n))| == |Unlines(lines)| + n * |lines|
  {
    if |lines| > 1 {
      JoinLengthPrefixed(lines[1..], n);
      var ils := IndentedLines(lines, n);
      assert ils[1..] == IndentedLines(lines[1..], n);
      assert Unlines(ils) == Spaces(n) + lines[0] + "\n" + Unlines(ils[1..]);
      assert Unlines(lines) == lines[0] + "\n" + Unlines(lines[1..]);
      assert n * |lines| == n + n * (|lines| - 1);
    } else if |lines| == 1 {
      assert IndentedLines(lines, n) == [Spaces(n) + lines[0]];
      assert n * |lines| == n;
    }
  }
}
