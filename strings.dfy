/** The two string primitives of Go's `strings` package that the renderer
    relies on, modelled on `seq<char>`: `Split` with a one-character
    separator and `Join`. Go strings are bytes; the separators used here
    ('\n' and '-') are ASCII, so splitting on characters and splitting on
    bytes cut at the same places. */
module Strings {

  /** Number of occurrences of `c` in `s`. */
  function Count(s: string, c: char): (n: nat)
    ensures n == 0 <==> c !in s
    ensures n <= |s|
  {
    if s == [] then 0 else (if s[0] == c then 1 else 0) + Count(s[1..], c)
  }

  /** `strings.Split(s, [c])`: the maximal pieces of `s` between occurrences
      of `c`. Like Go, the empty string gives one empty piece, and a
      trailing separator gives a trailing empty piece. */
  function Split(s: string, c: char): (parts: seq<string>)
    ensures |parts| == Count(s, c) + 1
    ensures forall i :: 0 <= i < |parts| ==> c !in parts[i]
  {
    if s == [] then [""]
    else
      var rest := Split(s[1..], c);
      if s[0] == c then [""] + rest
      else [[s[0]] + rest[0]] + rest[1..]
  }

  /** `strings.Join(parts, sep)`: no parts give "", one part gives itself,
      otherwise the parts with `sep` between neighbours. */
  function Join(parts: seq<string>, sep: string): string
  {
    if parts == [] then ""
    else if |parts| == 1 then parts[0]
    else parts[0] + sep + Join(parts[1..], sep)
  }

  /** The lines of a text, as `strings.Split(s, "\n")` gives them. */
  function Lines(s: string): seq<string>
  {
    Split(s, '\n')
  }

  /** The inverse of `Lines`: `strings.Join(lines, "\n")`. */
  function Unlines(lines: seq<string>): string
  {
    Join(lines, "\n")
  }

  /** Every line of all of `texts`, one text after the other. */
  function AllLines(texts: seq<string>): seq<string>
  {
    if texts == [] then [] else Lines(texts[0]) + AllLines(texts[1..])
  }

  /** Splitting a text with a separator in it splits both sides
      independently: `Split(a + c + b) == Split(a) + Split(b)`. */
  lemma {:induction false} SplitAround(a: string, b: string, c: char)
    ensures Split(a + [c] + b, c) == Split(a, c) + Split(b, c)
  {
    var s := a + [c] + b;
    if a == [] {
      assert s[1..] == b;
    } else {
      assert s[0] == a[0];
      assert s[1..] == a[1..] + [c] + b;
      SplitAround(a[1..], b, c);
    }
  }

  /** A text without the separator is a single piece. */
  lemma {:induction false} SplitFree(s: string, c: char)
    requires c !in s
    ensures Split(s, c) == [s]
  {
    // the length of the split and the absence of `c` in each piece pin it down
    var parts := Split(s, c);
    assert |parts| == 1;
    JoinSplit(s, c);
  }

  /** A prefix without the separator only extends the first piece. */
  lemma {:induction false} SplitPrefix(p: string, s: string, c: char)
    requires c !in p
    ensures Split(p + s, c) == [p + Split(s, c)[0]] + Split(s, c)[1..]
  {
    if p != [] {
      assert (p + s)[0] == p[0];
      assert (p + s)[1..] == p[1..] + s;
      SplitPrefix(p[1..], s, c);
      var parts := Split(s, c);
      var rest := Split(p[1..] + s, c);
      assert rest[0] == p[1..] + parts[0] && rest[1..] == parts[1..];
      assert Split(p + s, c) == [[p[0]] + rest[0]] + rest[1..];
      assert p == [p[0]] + p[1..];
      AppendAssoc([p[0]], p[1..], parts[0]);
    } else {
      var parts := Split(s, c);
      assert p + s == s && p + parts[0] == parts[0];
      assert parts == [parts[0]] + parts[1..];
    }
  }

  lemma AppendAssoc(a: string, b: string, c: string)
    ensures a + (b + c) == (a + b) + c
  {
  }

  /** `Join` of one more leading part. */
  lemma JoinCons(x: string, parts: seq<string>, sep: string)
    requires parts != []
    ensures Join([x] + parts, sep) == x + sep + Join(parts, sep)
  {
    assert ([x] + parts)[1..] == parts;
  }

  /** Prepending to the first part prepends to the joined text. */
  lemma JoinPrependFirst(a: string, parts: seq<string>, sep: string)
    requires parts != []
    ensures Join([a + parts[0]] + parts[1..], sep) == a + Join(parts, sep)
  {
    var q := [a + parts[0]] + parts[1..];
    if |parts| > 1 {
      assert q[1..] == parts[1..];
    }
  }

  /** Joining the pieces of a split with the separator gives the text back. */
  lemma {:induction false} JoinSplit(s: string, c: char)
    ensures Join(Split(s, c), [c]) == s
  {
    if s != [] {
      var rest := Split(s[1..], c);
      JoinSplit(s[1..], c);
      if s[0] == c {
        JoinCons("", rest, [c]);
      } else {
        JoinPrependFirst([s[0]], rest, [c]);
      }
      assert s == [s[0]] + s[1..];
    }
  }

  /** Splitting the join of separator-free parts gives the parts back. */
  lemma {:induction false} SplitJoin(parts: seq<string>, c: char)
    requires parts != []
    requires forall i :: 0 <= i < |parts| ==> c !in parts[i]
    ensures Split(Join(parts, [c]), c) == parts
  {
    SplitFree(parts[0], c);
    if |parts| > 1 {
      SplitJoin(parts[1..], c);
      SplitAround(parts[0], Join(parts[1..], [c]), c);
      assert [parts[0]] + parts[1..] == parts;
    }
  }

  /** The lines of joined texts are the lines of each text in turn: a line
      break inside a text and a joining line break count alike. */
  lemma {:induction false} LinesOfUnlines(texts: seq<string>)
    requires texts != []
    ensures Lines(Unlines(texts)) == AllLines(texts)
  {
    if |texts| == 1 {
      assert texts[1..] == [];
    } else {
      LinesOfUnlines(texts[1..]);
      SplitAround(texts[0], Unlines(texts[1..]), '\n');
    }
  }

  /** `AllLines` of a concatenation. */
  lemma {:induction false} AllLinesAppend(a: seq<string>, b: seq<string>)
    ensures AllLines(a + b) == AllLines(a) + AllLines(b)
  {
    if a != [] {
      assert (a + b)[1..] == a[1..] + b;
      AllLinesAppend(a[1..], b);
    } else {
      assert a + b == b;
    }
  }

  /** Texts that hold no line break are their own lines. */
  lemma {:induction false} AllLinesOfSingleLines(texts: seq<string>)
    requires forall i :: 0 <= i < |texts| ==> '\n' !in texts[i]
    ensures AllLines(texts) == texts
  {
    if texts != [] {
      SplitFree(texts[0], '\n');
      AllLinesOfSingleLines(texts[1..]);
    }
  }

  /** Leading texts without a line break are the leading lines. */
  lemma LinesOfSingleLinePrefix(texts: seq<string>, k: nat)
    requires 0 < k <= |texts|
    requires forall i :: 0 <= i < k ==> '\n' !in texts[i]
    ensures |Lines(Unlines(texts))| >= k
    ensures Lines(Unlines(texts))[..k] == texts[..k]
  {
    LinesOfUnlines(texts);
    assert texts == texts[..k] + texts[k..];
    AllLinesAppend(texts[..k], texts[k..]);
    AllLinesOfSingleLines(texts[..k]);
  }

  /** Trailing texts without a line break are the trailing lines. */
  lemma LinesOfSingleLineSuffix(texts: seq<string>, k: nat)
    requires 0 < k <= |texts|
    requires forall i :: |texts| - k <= i < |texts| ==> '\n' !in texts[i]
    ensures |Lines(Unlines(texts))| >= k
    ensures var lines := Lines(Unlines(texts));
      lines[|lines| - k..] == texts[|texts| - k..]
  {
    var m := |texts| - k;
    LinesOfUnlines(texts);
    assert texts == texts[..m] + texts[m..];
    AllLinesAppend(texts[..m], texts[m..]);
    AllLinesOfSingleLines(texts[m..]);
  }
}
