/**
 * The std::string operations the painting code relies on: find, erase of
 * the first occurrence, replace of the first occurrence, and the join that
 * undoes a split. Strings are sequences of characters.
 */
module StringOps {
  import opened Optional

  /** `pat` occurs in `s` starting at index `i`. */
  predicate OccursAt(s: string, pat: string, i: nat) {
    i + |pat| <= |s| && s[i..i + |pat|] == pat
  }

  /** std::string::find: the first index at which `pat` occurs in `s`; None stands for npos. */
  function Find(s: string, pat: string): (r: Option<nat>)
    ensures r.Some? ==> OccursAt(s, pat, r.value)
    ensures r.Some? ==> forall j: nat :: j < r.value ==> !OccursAt(s, pat, j)
    ensures r.None? ==> forall j: nat :: !OccursAt(s, pat, j)
  {
    FindFrom(s, pat, 0)
  }

  /** The first occurrence of `pat` in `s` at or after `start`. */
  function FindFrom(s: string, pat: string, start: nat): (r: Option<nat>)
    ensures r.Some? ==> start <= r.value && OccursAt(s, pat, r.value)
    ensures r.Some? ==> forall j: nat :: start <= j < r.value ==> !OccursAt(s, pat, j)
    ensures r.None? ==> forall j: nat :: start <= j ==> !OccursAt(s, pat, j)
    decreases |s| - start
  {
    if start + |pat| > |s| then None
    else if s[start..start + |pat|] == pat then Some(start)
    else FindFrom(s, pat, start + 1)
  }

  /** `find(pat) != npos`. */
  predicate Contains(s: string, pat: string) {
    Find(s, pat).Some?
  }

  /** Contains holds exactly when some occurrence exists. */
  lemma ContainsIffOccurs(s: string, pat: string)
    ensures Contains(s, pat) <==> exists j: nat :: OccursAt(s, pat, j)
  {
    if !Contains(s, pat) {
      assert forall j: nat :: !OccursAt(s, pat, j);
    }
  }

  /** A prefix of `s` that ends before the first occurrence of `pat` does not contain `pat`. */
  lemma NoOccurrenceInPrefix(s: string, pat: string, n: nat)
    requires n <= |s| && |pat| > 0
    requires forall j: nat :: j < n ==> !OccursAt(s, pat, j)
    ensures !Contains(s[..n], pat)
  {
    forall j: nat
      ensures !OccursAt(s[..n], pat, j)
    {
      if j + |pat| <= n {
        assert j < n;
        assert !OccursAt(s, pat, j);
        assert s[..n][j..j + |pat|] == s[j..j + |pat|];
      }
    }
    ContainsIffOccurs(s[..n], pat);
  }

  /** An occurrence in either part is an occurrence in the concatenation. */
  lemma ContainsInConcat(s: string, t: string, pat: string)
    ensures Contains(s, pat) ==> Contains(s + t, pat)
    ensures Contains(t, pat) ==> Contains(s + t, pat)
  {
    ContainsIffOccurs(s, pat);
    ContainsIffOccurs(t, pat);
    ContainsIffOccurs(s + t, pat);
    if Contains(s, pat) {
      var j: nat :| OccursAt(s, pat, j);
      assert (s + t)[j..j + |pat|] == s[j..j + |pat|];
      assert OccursAt(s + t, pat, j);
    }
    if Contains(t, pat) {
      var j: nat :| OccursAt(t, pat, j);
      assert (s + t)[|s| + j..|s| + j + |pat|] == t[j..j + |pat|];
      assert OccursAt(s + t, pat, |s| + j);
    }
  }

  /**
   * `s.erase(s.find(pat), pat.length())`: removes the first occurrence.
   * Putting `pat` back at the index where it was found gives `s` again.
   */
  function EraseFirst(s: string, pat: string): (r: string)
    requires Contains(s, pat)
    ensures |r| == |s| - |pat|
    ensures r[..Find(s, pat).value] + pat + r[Find(s, pat).value..] == s
  {
    var i := Find(s, pat).value;
    s[..i] + s[i + |pat|..]
  }

  /** An occurrence of `other` clear of the first `pat` is still there after erasing that `pat`. */
  lemma EraseFirstKeepsOccurrence(s: string, pat: string, other: string, j: nat)
    requires Contains(s, pat) && OccursAt(s, other, j)
    requires j + |other| <= Find(s, pat).value || Find(s, pat).value + |pat| <= j
    ensures Contains(EraseFirst(s, pat), other)
  {
    var i := Find(s, pat).value;
    var r := EraseFirst(s, pat);
    assert r == s[..i] + s[i + |pat|..];
    if j + |other| <= i {
      assert r[j..j + |other|] == s[j..j + |other|];
      assert OccursAt(r, other, j);
    } else {
      assert r[j - |pat|..j - |pat| + |other|] == s[j..j + |other|];
      assert OccursAt(r, other, j - |pat|);
    }
    ContainsIffOccurs(r, other);
  }

  /**
   * `s.replace(s.find(pat), pat.size(), rep)`: replaces the first occurrence
   * only; what precedes and what follows it is kept.
   */
  function ReplaceFirst(s: string, pat: string, rep: string): (r: string)
    requires Contains(s, pat)
    ensures |r| == |s| - |pat| + |rep|
    ensures r[..Find(s, pat).value] == s[..Find(s, pat).value]
    ensures OccursAt(r, rep, Find(s, pat).value)
    ensures r[Find(s, pat).value + |rep|..] == s[Find(s, pat).value + |pat|..]
  {
    var i := Find(s, pat).value;
    s[..i] + rep + s[i + |pat|..]
  }

  /** An occurrence of `pat` after the first one survives ReplaceFirst, shifted by the change in length. */
  lemma ReplaceFirstKeepsLaterOccurrences(s: string, pat: string, rep: string, j: nat)
    requires Contains(s, pat)
    requires OccursAt(s, pat, j) && j >= Find(s, pat).value + |pat|
    ensures OccursAt(ReplaceFirst(s, pat, rep), pat, j - |pat| + |rep|)
  {
    var i := Find(s, pat).value;
    var r := ReplaceFirst(s, pat, rep);
    var k := j - |pat| + |rep|;
    assert r[i + |rep|..] == s[i + |pat|..];
    assert r[k..k + |pat|] == r[i + |rep|..][j - i - |pat|..j - i] == s[i + |pat|..][j - i - |pat|..j - i];
  }

  /** The lines joined with `delim` between consecutive lines. */
  function Join(lines: seq<string>, delim: string): string
    decreases |lines|
  {
    if |lines| == 0 then ""
    else if |lines| == 1 then lines[0]
    else lines[0] + delim + Join(lines[1..], delim)
  }

  /** An occurrence of `pat` cuts `s` into the text before it, `pat` and the text after it. */
  lemma SplitAround(s: string, pat: string, p: nat)
    requires OccursAt(s, pat, p)
    ensures s == s[..p] + pat + s[p + |pat|..]
  {
    assert s == s[..p] + s[p..p + |pat|] + s[p + |pat|..];
  }

  /** Joining a line in front of at least one more puts the delimiter between them. */
  lemma JoinCons(line: string, lines: seq<string>, delim: string)
    requires |lines| >= 1
    ensures Join([line] + lines, delim) == line + delim + Join(lines, delim)
  {
    assert ([line] + lines)[1..] == lines;
  }

  /** The length of the longest line, 0 for no lines. */
  function MaxLength(lines: seq<string>): nat
    decreases |lines|
  {
    if |lines| == 0 then 0
    else
      var m := MaxLength(lines[..|lines| - 1]);
      var last := |lines[|lines| - 1]|;
      if last > m then last else m
  }

  /** Appending a line raises MaxLength to that line's length when it is longer. */
  lemma MaxLengthSnoc(lines: seq<string>, line: string)
    ensures MaxLength(lines + [line]) == if |line| > MaxLength(lines) then |line| else MaxLength(lines)
  {
    assert (lines + [line])[..|lines|] == lines;
  }

  /** MaxLength bounds every line and is the length of one of them. */
  lemma {:induction false} MaxLengthIsMaximum(lines: seq<string>)
    ensures forall k :: 0 <= k < |lines| ==> |lines[k]| <= MaxLength(lines)
    ensures |lines| > 0 ==> exists k :: 0 <= k < |lines| && |lines[k]| == MaxLength(lines)
  {
    if |lines| > 0 {
      var init := lines[..|lines| - 1];
      MaxLengthIsMaximum(init);
      assert forall k :: 0 <= k < |init| ==> lines[k] == init[k];
      var last := |lines| - 1;
      if |lines[last]| > MaxLength(init) || |init| == 0 {
        assert |lines[last]| == MaxLength(lines);
      } else {
        var w :| 0 <= w < |init| && |init[w]| == MaxLength(init);
        assert lines[w] == init[w] && |lines[w]| == MaxLength(lines);
      }
    }
  }
}
