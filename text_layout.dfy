/**
  Text placement inside a cell (bingo_maker/pdf/renderer.py): the vertical
  centring of a multi-line block (TextBlockAligner) and the split of an item
  into lines at runs of `/` and `\` (`re.split(r'[\\/]+', item)`).
 */
module TextLayout {
  import opened Models

  // ---------------------------------------------------------------------------
  // TextBlockAligner
  // ---------------------------------------------------------------------------

  const DefaultLeadingFactor: real := 1.2

  /** Font metrics scale: font-unit metrics are per 1000 units of the em. */
  const FontUnitsPerEm: real := 1000.0

  datatype TextBlockAligner = TextBlockAligner(leading: real, ascent: real, descent: real)

  function Abs(x: real): real
  {
    if x < 0.0 then -x else x
  }

  /**
    `TextBlockAligner.__init__`: the leading is the font size times the
    leading factor; ascent and descent are the font-unit metrics of the font
    scaled to the font size, the descent taken as a distance whatever sign
    the metric provider gives it.
   */
  function NewTextBlockAligner(fontSize: real, unitAscent: real, unitDescent: real,
                               leadingFactor: real := DefaultLeadingFactor): (a: TextBlockAligner)
    ensures a.leading == fontSize * leadingFactor
    ensures a.ascent * FontUnitsPerEm == unitAscent * fontSize
    ensures a.descent >= 0.0
    ensures a.descent * FontUnitsPerEm == unitDescent * fontSize
         || a.descent * FontUnitsPerEm == -(unitDescent * fontSize)
  {
    TextBlockAligner(fontSize * leadingFactor,
                     unitAscent * fontSize / FontUnitsPerEm,
                     Abs(unitDescent * fontSize / FontUnitsPerEm))
  }

  /** Height of a block of `lineCount` lines, from the top of the first line to the bottom of the last. */
  function BlockHeight(a: TextBlockAligner, lineCount: int): real
  {
    a.ascent + (lineCount - 1) as real * a.leading + a.descent
  }

  /** Baseline of line `i` of a block of `lineCount` lines centred on `centerY`. */
  function Baseline(a: TextBlockAligner, lineCount: int, centerY: real, i: int): real
  {
    centerY + BlockHeight(a, lineCount) / 2.0 - a.ascent - i as real * a.leading
  }

  /**
    `compute_line_y_positions`: the baselines of the `line_count` lines, top
    to bottom. Consecutive baselines are one leading apart, and the block
    from the top of the first line to the bottom of the last is centred on
    `center_y`; a single line sits at `center_y - (ascent - descent) / 2`.
   */
  method ComputeLineYPositions(a: TextBlockAligner, lineCount: int, centerY: real) returns (ys: seq<real>)
    ensures |ys| == Count(lineCount)
    ensures forall i | 0 <= i < |ys| :: ys[i] == Baseline(a, lineCount, centerY, i)
    ensures forall i | 0 < i < |ys| :: ys[i - 1] - ys[i] == a.leading
    ensures |ys| > 0 ==> (ys[0] + a.ascent) + (ys[|ys| - 1] - a.descent) == 2.0 * centerY
    ensures lineCount == 1 ==> ys == [centerY - (a.ascent - a.descent) / 2.0]
  {
    var blockH := a.ascent + (lineCount - 1) as real * a.leading + a.descent;
    var baseline := centerY + blockH / 2.0 - a.ascent;
    ys := [];
    for i := 0 to Count(lineCount)
      invariant |ys| == i
      invariant forall k | 0 <= k < i :: ys[k] == Baseline(a, lineCount, centerY, k)
    {
      ys := ys + [baseline - i as real * a.leading];
    }
    forall i | 0 < i < |ys|
      ensures ys[i - 1] - ys[i] == a.leading
    {
      BaselineStep(a, lineCount, centerY, i);
    }
    if |ys| > 0 {
      BlockCentred(a, lineCount, centerY);
    }
    if lineCount == 1 {
      assert ys[0] == Baseline(a, 1, centerY, 0);
    }
  }

  /** Consecutive baselines are one leading apart. */
  lemma BaselineStep(a: TextBlockAligner, lineCount: int, centerY: real, i: int)
    ensures Baseline(a, lineCount, centerY, i - 1) - Baseline(a, lineCount, centerY, i) == a.leading
  {
    assert i as real * a.leading == (i - 1) as real * a.leading + a.leading;
  }

  /** The first and last baselines of a block place it symmetrically about its centre. */
  lemma BlockCentred(a: TextBlockAligner, lineCount: int, centerY: real)
    requires lineCount >= 1
    ensures (Baseline(a, lineCount, centerY, 0) + a.ascent)
          + (Baseline(a, lineCount, centerY, lineCount - 1) - a.descent) == 2.0 * centerY
  {
  }

  // ---------------------------------------------------------------------------
  // Line splitting: re.split(r'[\\/]+', item)
  // ---------------------------------------------------------------------------

  /** The manual line-break markers an item author may write. */
  predicate IsBreak(c: char)
  {
    c == '/' || c == '\\'
  }

  predicate NoBreaks(s: string)
  {
    forall i | 0 <= i < |s| :: !IsBreak(s[i])
  }

  /** Number of maximal runs of break markers in `s` (each counted at its last character). */
  function BreakRuns(s: string): nat
  {
    if s == [] then 0
    else (if IsBreak(s[0]) && (|s| == 1 || !IsBreak(s[1])) then 1 else 0) + BreakRuns(s[1..])
  }

  /** The characters of `s` that are not break markers, in order. */
  function WithoutBreaks(s: string): (r: string)
    ensures NoBreaks(r)
  {
    if s == [] then []
    else (if IsBreak(s[0]) then [] else [s[0]]) + WithoutBreaks(s[1..])
  }

  function Concat(pieces: seq<string>): string
  {
    if pieces == [] then [] else pieces[0] + Concat(pieces[1..])
  }

  /**
    `re.split(r'[\\/]+', s)`: the pieces between maximal runs of break
    markers. There is always at least one piece, one more than the number of
    runs; no piece holds a marker; pieces between two runs are non-empty; and
    the pieces together are exactly the text with the markers removed.
   */
  function SplitLines(s: string): (r: seq<string>)
    ensures |r| == BreakRuns(s) + 1
    ensures forall k | 0 <= k < |r| :: NoBreaks(r[k])
    ensures forall k | 0 < k < |r| - 1 :: r[k] != []
    ensures Concat(r) == WithoutBreaks(s)
    ensures s != [] && !IsBreak(s[0]) ==> r[0] != []
  {
    if s == [] then [[]]
    else
      var rest := SplitLines(s[1..]);
      if !IsBreak(s[0]) then
        [[s[0]] + rest[0]] + rest[1..]
      else if |s| > 1 && IsBreak(s[1]) then
        rest
      else
        [[]] + rest
  }

  /** A text without markers is a single line. */
  lemma {:induction false} SplitWithoutBreaks(w: string)
    requires NoBreaks(w)
    ensures SplitLines(w) == [w]
  {
    if w != [] {
      assert NoBreaks(w[1..]) by {
        forall i | 0 <= i < |w[1..]| ensures !IsBreak(w[1..][i]) { assert w[1..][i] == w[i + 1]; }
      }
      SplitWithoutBreaks(w[1..]);
      assert [w[0]] + w[1..] == w;
    }
  }

  /** A run of one or more markers. */
  predicate IsRun(run: string)
  {
    |run| >= 1 && forall i | 0 <= i < |run| :: IsBreak(run[i])
  }

  /**
    A run of markers at the front, however long, cuts off one empty line
    (`re.split` gives `''` before a leading separator).
   */
  lemma {:induction false} SplitLeadingRun(run: string, rest: string)
    requires IsRun(run)
    requires rest == [] || !IsBreak(rest[0])
    ensures SplitLines(run + rest) == [[]] + SplitLines(rest)
  {
    assert (run + rest)[1..] == run[1..] + rest;
    if |run| > 1 {
      assert IsRun(run[1..]) by {
        forall i | 0 <= i < |run[1..]| ensures IsBreak(run[1..][i]) { assert run[1..][i] == run[i + 1]; }
      }
      SplitLeadingRun(run[1..], rest);
    } else {
      assert run[1..] + rest == rest;
    }
  }

  /**
    A run of markers after a marker-free word, however long, ends that
    word's line, and the split goes on with what follows the run: the cut
    falls exactly at the run.
   */
  lemma {:induction false} SplitAfterRun(w: string, run: string, rest: string)
    requires NoBreaks(w) && IsRun(run)
    requires rest == [] || !IsBreak(rest[0])
    ensures SplitLines(w + run + rest) == [w] + SplitLines(rest)
  {
    if w == [] {
      assert w + run + rest == run + rest;
      SplitLeadingRun(run, rest);
    } else {
      assert NoBreaks(w[1..]) by {
        forall i | 0 <= i < |w[1..]| ensures !IsBreak(w[1..][i]) { assert w[1..][i] == w[i + 1]; }
      }
      SplitAfterRun(w[1..], run, rest);
      assert (w + run + rest)[1..] == w[1..] + run + rest;
      assert (w + run + rest)[0] == w[0];
      assert [w[0]] + w[1..] == w;
    }
  }

  /** Joining lines with a single `/` between them. */
  function JoinLines(pieces: seq<string>): string
    requires |pieces| >= 1
  {
    if |pieces| == 1 then pieces[0] else pieces[0] + "/" + JoinLines(pieces[1..])
  }

  /**
    Splitting undoes joining with a marker, for every list of lines the split
    can produce: marker-free lines of which only the first and the last may
    be empty.
   */
  lemma {:induction false} SplitJoin(pieces: seq<string>)
    requires |pieces| >= 1
    requires forall k | 0 <= k < |pieces| :: NoBreaks(pieces[k])
    requires forall k | 0 < k < |pieces| - 1 :: pieces[k] != []
    ensures SplitLines(JoinLines(pieces)) == pieces
  {
    if |pieces| == 1 {
      SplitWithoutBreaks(pieces[0]);
    } else {
      var rest := JoinLines(pieces[1..]);
      SplitJoin(pieces[1..]);
      if pieces[1] != [] {
        JoinStartsWith(pieces[1..]);
      } else {
        assert |pieces| == 2;
      }
      SplitAfterRun(pieces[0], "/", rest);
      assert [pieces[0]] + pieces[1..] == pieces;
    }
  }

  lemma {:induction false} JoinStartsWith(pieces: seq<string>)
    requires |pieces| >= 1 && pieces[0] != []
    ensures JoinLines(pieces) != [] && JoinLines(pieces)[0] == pieces[0][0]
  {
  }

  /**
    Three marker-free words separated by two runs of markers give three
    lines, whatever the runs hold: `apple/banana\cherry` and
    `apple//banana\/cherry` both give `apple`, `banana` and `cherry`.
   */
  lemma SplitThreeWords(a: string, run1: string, b: string, run2: string, c: string)
    requires NoBreaks(a) && NoBreaks(b) && NoBreaks(c) && b != []
    requires IsRun(run1) && IsRun(run2)
    ensures SplitLines(a + run1 + (b + run2 + c)) == [a, b, c]
  {
    SplitWithoutBreaks(c);
    var tail := b + run2 + c;
    SplitAfterRun(b, run2, c);
    assert tail[0] == b[0];
    SplitAfterRun(a, run1, tail);
  }
}
