/**
 * CutHistogram: the bins of a one-dimensional histogram above an upper cut,
 * and below a lower cut, get content 0 and error 0. A cut value below -997
 * switches the cut off. The histogram is held as two arrays, bin contents and
 * bin errors, indexed 0 (underflow) through nbins + 1 (overflow); the axis
 * lookup FindBin is not modelled, its results are inputs.
 */
module HistogramCut {

  /** A cut value below this sentinel means "no cut". */
  const Disabled: real := -997.0

  predicate IsActive(cut: real) {
    !(cut < Disabled)
  }

  /** The range FindBin returns for an axis with `nbins` bins: underflow 0 to overflow nbins + 1. */
  predicate IsBinIndex(bin: int, nbins: nat) {
    0 <= bin <= nbins + 1
  }

  /**
   * Bin `i` is zeroed: the upper cut is active and `i` lies from `cutoffBin`
   * through `nbins`, or both cuts are active and `i` lies from 1 through
   * `cutoffBinLow`.
   */
  predicate IsZeroed(i: int, nbins: nat, cutoff: real, cutoffLow: real, cutoffBin: int, cutoffBinLow: int) {
    IsActive(cutoff) &&
    ((cutoffBin <= i <= nbins) || (IsActive(cutoffLow) && 1 <= i <= cutoffBinLow))
  }

  /** The bin values (contents or errors) after the cut. */
  function CutBins(bins: seq<real>, nbins: nat, cutoff: real, cutoffLow: real, cutoffBin: int, cutoffBinLow: int): (r: seq<real>)
    ensures |r| == |bins|
  {
    seq(|bins|, i requires 0 <= i < |bins| =>
      if IsZeroed(i, nbins, cutoff, cutoffLow, cutoffBin, cutoffBinLow) then 0.0 else bins[i])
  }

  /** A disabled upper cut leaves every bin alone, whatever the lower cut says. */
  lemma CutDisabledIsIdentity(bins: seq<real>, nbins: nat, cutoff: real, cutoffLow: real, cutoffBin: int, cutoffBinLow: int)
    requires !IsActive(cutoff)
    ensures CutBins(bins, nbins, cutoff, cutoffLow, cutoffBin, cutoffBinLow) == bins
  {
  }

  /** With the upper cut active, every bin from cutoffBin through nbins is 0. */
  lemma UpperCutZeroesTail(bins: seq<real>, nbins: nat, cutoff: real, cutoffLow: real, cutoffBin: int, cutoffBinLow: int, i: int)
    requires IsActive(cutoff) && 0 <= i < |bins| && cutoffBin <= i <= nbins
    ensures CutBins(bins, nbins, cutoff, cutoffLow, cutoffBin, cutoffBinLow)[i] == 0.0
  {
  }

  /** With both cuts active, every bin from 1 through cutoffBinLow is 0. */
  lemma LowerCutZeroesHead(bins: seq<real>, nbins: nat, cutoff: real, cutoffLow: real, cutoffBin: int, cutoffBinLow: int, i: int)
    requires IsActive(cutoff) && IsActive(cutoffLow) && 0 <= i < |bins| && 1 <= i <= cutoffBinLow
    ensures CutBins(bins, nbins, cutoff, cutoffLow, cutoffBin, cutoffBinLow)[i] == 0.0
  {
  }

  /**
   * Bins strictly between the two cut bins keep their value, and so does the
   * overflow bin as long as the lower cut bin is not the overflow bin itself.
   */
  lemma CutKeepsMiddleAndOverflow(bins: seq<real>, nbins: nat, cutoff: real, cutoffLow: real, cutoffBin: int, cutoffBinLow: int)
    requires |bins| == nbins + 2
    ensures forall i :: 0 <= i < |bins| && cutoffBinLow < i < cutoffBin ==>
      CutBins(bins, nbins, cutoff, cutoffLow, cutoffBin, cutoffBinLow)[i] == bins[i]
    ensures cutoffBinLow <= nbins ==>
      CutBins(bins, nbins, cutoff, cutoffLow, cutoffBin, cutoffBinLow)[nbins + 1] == bins[nbins + 1]
  {
  }

  /** Cutting twice with the same cuts is the same as cutting once. */
  lemma CutIsIdempotent(bins: seq<real>, nbins: nat, cutoff: real, cutoffLow: real, cutoffBin: int, cutoffBinLow: int)
    ensures var once := CutBins(bins, nbins, cutoff, cutoffLow, cutoffBin, cutoffBinLow);
            CutBins(once, nbins, cutoff, cutoffLow, cutoffBin, cutoffBinLow) == once
  {
  }

  /**
   * The in-place cut: first zero cutoffBin..nbins, then, if the lower cut is
   * active too, 1..cutoffBinLow, in both the contents and the errors.
   */
  method CutHistogram(content: array<real>, errors: array<real>, nbins: nat,
                      cutoff: real, cutoffLow: real, cutoffBin: int, cutoffBinLow: int)
    requires content.Length == nbins + 2 && errors.Length == nbins + 2 && content != errors
    requires IsActive(cutoff) ==> IsBinIndex(cutoffBin, nbins)
    requires IsActive(cutoff) && IsActive(cutoffLow) ==> IsBinIndex(cutoffBinLow, nbins)
    modifies content, errors
    ensures content[..] == CutBins(old(content[..]), nbins, cutoff, cutoffLow, cutoffBin, cutoffBinLow)
    ensures errors[..] == CutBins(old(errors[..]), nbins, cutoff, cutoffLow, cutoffBin, cutoffBinLow)
  {
    if cutoff < Disabled {
      return;
    }
    var i := cutoffBin;
    while i <= nbins
      invariant cutoffBin <= i <= nbins + 1
      invariant forall j :: 0 <= j < content.Length ==>
        content[j] == if cutoffBin <= j < i then 0.0 else old(content[j])
      invariant forall j :: 0 <= j < errors.Length ==>
        errors[j] == if cutoffBin <= j < i then 0.0 else old(errors[j])
    {
      content[i] := 0.0;
      errors[i] := 0.0;
      i := i + 1;
    }
    if cutoffLow < Disabled {
      return;
    }
    i := 1;
    while i <= cutoffBinLow
      invariant 1 <= i <= cutoffBinLow + 1 || (i == 1 && cutoffBinLow < 1)
      invariant forall j :: 0 <= j < content.Length ==>
        content[j] == if cutoffBin <= j <= nbins || 1 <= j < i then 0.0 else old(content[j])
      invariant forall j :: 0 <= j < errors.Length ==>
        errors[j] == if cutoffBin <= j <= nbins || 1 <= j < i then 0.0 else old(errors[j])
    {
      content[i] := 0.0;
      errors[i] := 0.0;
      i := i + 1;
    }
  }
}
