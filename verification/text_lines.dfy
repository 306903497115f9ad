/**
 * The line splitting of a text box: the box text is cut at every " // "
 * into the lines of the box, and the length of the longest line (in
 * letters) sizes the box.
 */
module TextLines {
  import opened Optional
  import opened StringOps

  /** The separator between two lines of a text box. */
  const Delimiter: string := " // "

  /** The lines of `s`: the text up to the first delimiter, then the lines of the rest. */
  function SplitLines(s: string): (lines: seq<string>)
    ensures |lines| >= 1
    decreases |s|
  {
    match Find(s, Delimiter)
    case None => [s]
    case Some(p) => [s[..p]] + SplitLines(s[p + |Delimiter|..])
  }

  /** No line of a split contains the delimiter. */
  lemma {:induction false} SplitLinesHaveNoDelimiter(s: string)
    ensures forall k :: 0 <= k < |SplitLines(s)| ==> !Contains(SplitLines(s)[k], Delimiter)
    decreases |s|
  {
    match Find(s, Delimiter)
    case None =>
    case Some(p) =>
      var rest := s[p + |Delimiter|..];
      SplitLinesHaveNoDelimiter(rest);
      NoOccurrenceInPrefix(s, Delimiter, p);
      assert SplitLines(s) == [s[..p]] + SplitLines(rest);
  }

  /** Joining the lines with the delimiter gives back the text. */
  lemma {:induction false} JoinSplitLines(s: string)
    ensures Join(SplitLines(s), Delimiter) == s
    decreases |s|
  {
    match Find(s, Delimiter)
    case None =>
    case Some(p) =>
      var rest := s[p + |Delimiter|..];
      var tail := SplitLines(rest);
      JoinSplitLines(rest);
      JoinCons(s[..p], tail, Delimiter);
      SplitAround(s, Delimiter, p);
      calc {
        Join(SplitLines(s), Delimiter);
        Join([s[..p]] + tail, Delimiter);
        s[..p] + Delimiter + Join(tail, Delimiter);
        s;
      }
  }

  /**
   * The other direction: lines that hold no '/' are recovered exactly by
   * splitting their join, since no delimiter can then start inside a line
   * or straddle a line's end.
   */
  lemma {:induction false} SplitJoinedLines(lines: seq<string>)
    requires |lines| >= 1
    requires forall k :: 0 <= k < |lines| ==> '/' !in lines[k]
    ensures SplitLines(Join(lines, Delimiter)) == lines
    decreases |lines|
  {
    if |lines| > 1 {
      var l := lines[0];
      var rest := Join(lines[1..], Delimiter);
      var s := Join(lines, Delimiter);
      assert s == l + Delimiter + rest;
      assert OccursAt(s, Delimiter, |l|) by {
        assert s[|l|..|l| + |Delimiter|] == Delimiter;
      }
      forall j: nat | j < |l|
        ensures !OccursAt(s, Delimiter, j)
      {
        if j + |Delimiter| <= |s| {
          if j + 1 < |l| {
            assert s[j + 1] == l[j + 1];
          } else {
            assert s[j + 1] == Delimiter[0];
          }
          assert s[j..j + |Delimiter|][1] == s[j + 1] != '/';
        }
      }
      var p := Find(s, Delimiter).value;
      assert p == |l|;
      assert s[p + |Delimiter|..] == rest;
      assert s[..p] == l;
      SplitJoinedLines(lines[1..]);
      assert lines == [l] + lines[1..];
    } else {
      var s := lines[0];
      assert Join(lines, Delimiter) == s;
      forall j: nat
        ensures !OccursAt(s, Delimiter, j)
      {
        if j + |Delimiter| <= |s| {
          assert s[j..j + |Delimiter|][1] == s[j + 1] != '/';
        }
      }
      ContainsIffOccurs(s, Delimiter);
    }
  }

  /**
   * The splitting loop of MakeText: take the text up to the next delimiter as
   * a line, keep the longest line length in `nLetters`, erase the line and the
   * delimiter from the text, and stop after the line that had no delimiter
   * after it.
   */
  method SplitText(text: string) returns (lines: seq<string>, nLetters: nat)
    ensures lines == SplitLines(text)
    ensures |lines| >= 1
    ensures Join(lines, Delimiter) == text
    ensures forall k :: 0 <= k < |lines| ==> !Contains(lines[k], Delimiter)
    ensures forall k :: 0 <= k < |lines| ==> |lines[k]| <= nLetters
    ensures exists k :: 0 <= k < |lines| && |lines[k]| == nLetters
  {
    var rest := text;
    lines := [];
    nLetters := 0;
    var done := false;
    while !done
      invariant !done ==> SplitLines(text) == lines + SplitLines(rest)
      invariant done ==> SplitLines(text) == lines
      invariant nLetters == MaxLength(lines)
      decreases if done then 0 else 1, |rest|
    {
      var pos := Find(rest, Delimiter);
      var token := if pos.Some? then rest[..pos.value] else rest;
      MaxLengthSnoc(lines, token);
      if |token| > nLetters {
        nLetters := |token|;
      }
      var newStart := if pos.Some? then pos.value + |Delimiter| else |rest|;
      ghost var before := lines;
      ghost var unsplit := rest;
      lines := lines + [token];
      rest := rest[newStart..];
      done := pos.None?;
      if pos.Some? {
        assert SplitLines(unsplit) == [token] + SplitLines(rest);
        assert before + ([token] + SplitLines(rest)) == lines + SplitLines(rest);
      } else {
        assert SplitLines(unsplit) == [token];
      }
    }
    JoinSplitLines(text);
    SplitLinesHaveNoDelimiter(text);
    MaxLengthIsMaximum(lines);
  }
}
