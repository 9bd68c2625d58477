/**
 * Axis ranges: `getminmax`, the smallest and largest value on one axis over a
 * list of series, and `setminmax`, which asks for a minimum and a maximum until
 * the minimum is below the maximum. The console is replaced by the sequence of
 * lines the user types; a run that needs more lines than given yields `None`.
 */
module Ranges {
  import opened Common
  import opened Numbers
  import opened Quantities
  import opened Report
  import opened Derive

  /** The values of a series on one axis: `getxdata()` or `getydata()`. */
  function AxisData(s: Series, axis: Axis): seq<real> {
    if axis.X? then s.xdata else s.ydata
  }

  /** `np.min` of a non-empty list. */
  function SeqMin(xs: seq<real>): (m: real)
    requires |xs| > 0
    ensures forall i :: 0 <= i < |xs| ==> m <= xs[i]
    ensures m in xs
    decreases |xs|
  {
    if |xs| == 1 then xs[0]
    else
      var r := SeqMin(xs[..|xs| - 1]);
      assert forall i :: 0 <= i < |xs| - 1 ==> xs[..|xs| - 1][i] == xs[i];
      if xs[|xs| - 1] < r then xs[|xs| - 1] else r
  }

  /** `np.max` of a non-empty list. */
  function SeqMax(xs: seq<real>): (m: real)
    requires |xs| > 0
    ensures forall i :: 0 <= i < |xs| ==> xs[i] <= m
    ensures m in xs
    decreases |xs|
  {
    if |xs| == 1 then xs[0]
    else
      var r := SeqMax(xs[..|xs| - 1]);
      assert forall i :: 0 <= i < |xs| - 1 ==> xs[..|xs| - 1][i] == xs[i];
      if xs[|xs| - 1] > r then xs[|xs| - 1] else r
  }

  /** A series with at least one sample and as many y samples as x samples. */
  predicate Sampled(s: Series) {
    0 < |s.xdata| == |s.ydata|
  }

  /** Every series has at least one value on the axis (so that `np.min` does not raise). */
  predicate Plottable(sets: seq<Series>, axis: Axis) {
    forall k :: 0 <= k < |sets| ==> |AxisData(sets[k], axis)| > 0
  }

  /** Any list of series derived from the kept datasets has values on both axes. */
  lemma KeptSeriesPlottable(files: seq<string>, contents: seq<seq<string>>, vs: seq<QuantityValue>, nt: NumberText,
                            sets: seq<Series>, axis: Axis)
    requires |files| == |contents|
    requires AllSeries(KeptDatasets(files, contents), vs, nt).Some?
    requires forall k :: 0 <= k < |sets| ==> sets[k] in AllSeries(KeptDatasets(files, contents), vs, nt).value
    ensures Plottable(sets, axis)
  {
    var all := AllSeries(KeptDatasets(files, contents), vs, nt).value;
    forall m | 0 <= m < |all| ensures Sampled(all[m]) {
      KeptSeriesLengths(files, contents, vs, nt, m);
    }
    SampledPlottable(sets, all, axis);
  }

  /** Series taken from a list of sampled series have values on either axis. */
  lemma SampledPlottable(sets: seq<Series>, all: seq<Series>, axis: Axis)
    requires forall m :: 0 <= m < |all| ==> Sampled(all[m])
    requires forall k :: 0 <= k < |sets| ==> sets[k] in all
    ensures Plottable(sets, axis)
  {
  }

  /**
   * `getminmax(sets, datatype)`: the smallest and the largest value on the axis
   * over every value of every series; both are values of some series.
   */
  method GetMinMax(sets: seq<Series>, axis: Axis) returns (min: real, max: real)
    requires |sets| > 0 && Plottable(sets, axis)
    ensures forall k, j :: 0 <= k < |sets| && 0 <= j < |AxisData(sets[k], axis)| ==>
      min <= AxisData(sets[k], axis)[j] <= max
    ensures exists k, j :: 0 <= k < |sets| && 0 <= j < |AxisData(sets[k], axis)| && AxisData(sets[k], axis)[j] == min
    ensures exists k, j :: 0 <= k < |sets| && 0 <= j < |AxisData(sets[k], axis)| && AxisData(sets[k], axis)[j] == max
    ensures min <= max
  {
    ghost var kmin, jmin, kmax, jmax := 0, 0, 0, 0;
    min, max := 0.0, 0.0;
    var i := 0;
    while i < |sets|
      invariant 0 <= i <= |sets|
      invariant i > 0 ==> kmin < i && jmin < |AxisData(sets[kmin], axis)| && AxisData(sets[kmin], axis)[jmin] == min
      invariant i > 0 ==> kmax < i && jmax < |AxisData(sets[kmax], axis)| && AxisData(sets[kmax], axis)[jmax] == max
      invariant forall k, j :: 0 <= k < i && 0 <= j < |AxisData(sets[k], axis)| ==>
        min <= AxisData(sets[k], axis)[j] <= max
    {
      var data := AxisData(sets[i], axis);
      var lo, hi := SeqMin(data), SeqMax(data);
      ghost var jlo :| 0 <= jlo < |data| && data[jlo] == lo;
      ghost var jhi :| 0 <= jhi < |data| && data[jhi] == hi;
      if i == 0 {
        min, max := lo, hi;
        kmin, jmin, kmax, jmax := i, jlo, i, jhi;
      } else {
        if min > lo {
          min := lo;
          kmin, jmin := i, jlo;
        }
        if max < hi {
          max := hi;
          kmax, jmax := i, jhi;
        }
      }
      i := i + 1;
    }
    assert AxisData(sets[kmin], axis)[jmin] <= max;
  }

  // ---------------------------------------------------------------------------
  // setminmax

  /**
   * One value prompt with default `current`, reading answers from position `i`:
   * the first answer that `float()` accepts gives its value, an empty answer keeps
   * `current`, and any other answer is rejected and asked again. The result pairs
   * the value with the position after the answer that decided it.
   */
  function Prompt(current: real, answers: seq<string>, i: nat, nt: NumberText): (r: Option<(real, nat)>)
    requires i <= |answers|
    ensures r.Some? ==> i < r.value.1 <= |answers|
    decreases |answers| - i
  {
    if i == |answers| then None
    else match nt.parse(answers[i])
      case Some(x) => Some((x, i + 1))
      case None => if answers[i] == "" then Some((current, i + 1)) else Prompt(current, answers, i + 1, nt)
  }

  /**
   * The range `setminmax` returns, reading answers from position `i`: a minimum,
   * then a maximum, each defaulting to the value before; repeated, with the values
   * just entered as the new defaults, until the minimum is below the maximum.
   */
  function Settle(min: real, max: real, answers: seq<string>, i: nat, nt: NumberText): (r: Option<(real, real)>)
    requires i <= |answers|
    ensures r.Some? ==> r.value.0 < r.value.1
    decreases |answers| - i
  {
    match Prompt(min, answers, i, nt)
    case None => None
    case Some((lo, j)) =>
      match Prompt(max, answers, j, nt)
      case None => None
      case Some((hi, k)) => if lo < hi then Some((lo, hi)) else Settle(lo, hi, answers, k, nt)
  }

  /** The value a prompt gives is its default or the number of one of the answers. */
  lemma {:induction false} PromptValue(current: real, answers: seq<string>, i: nat, nt: NumberText)
    requires i <= |answers| && Prompt(current, answers, i, nt).Some?
    ensures var x := Prompt(current, answers, i, nt).value.0;
      x == current || exists j :: i <= j < |answers| && nt.parse(answers[j]) == Some(x)
    decreases |answers| - i
  {
    if nt.parse(answers[i]).None? && answers[i] != "" {
      PromptValue(current, answers, i + 1, nt);
    }
  }

  /** The range comes from the defaults or from numbers the user typed. */
  lemma {:induction false} SettleValues(min: real, max: real, answers: seq<string>, i: nat, nt: NumberText)
    requires i <= |answers| && Settle(min, max, answers, i, nt).Some?
    ensures var r := Settle(min, max, answers, i, nt).value;
      && (r.0 == min || exists j :: i <= j < |answers| && nt.parse(answers[j]) == Some(r.0))
      && (r.1 == max || exists j :: i <= j < |answers| && nt.parse(answers[j]) == Some(r.1))
    decreases |answers| - i
  {
    var a := Prompt(min, answers, i, nt).value;
    PromptValue(min, answers, i, nt);
    var b := Prompt(max, answers, a.1, nt).value;
    PromptValue(max, answers, a.1, nt);
    if !(a.0 < b.0) {
      SettleValues(a.0, b.0, answers, b.1, nt);
    }
  }

  /** Two empty answers keep a computed range whose minimum is below its maximum. */
  lemma SettleKeepsDefaults(min: real, max: real, answers: seq<string>, i: nat, nt: NumberText)
    requires RoundTrips(nt)
    requires i + 2 <= |answers| && answers[i] == "" && answers[i + 1] == ""
    requires min < max
    ensures Settle(min, max, answers, i, nt) == Some((min, max))
  {
    assert Prompt(min, answers, i, nt) == Some((min, i + 1));
    assert Prompt(max, answers, i + 1, nt) == Some((max, i + 2));
  }

  /** One value prompt: ask until the answer is a number or empty. */
  method ReadValue(current: real, answers: seq<string>, i: nat, nt: NumberText) returns (r: Option<(real, nat)>)
    requires i <= |answers|
    ensures r == Prompt(current, answers, i, nt)
  {
    var j := i;
    while j < |answers|
      invariant i <= j <= |answers|
      invariant Prompt(current, answers, i, nt) == Prompt(current, answers, j, nt)
    {
      var q := answers[j];
      match nt.parse(q)
      case Some(x) =>
        return Some((x, j + 1));
      case None =>
        if q == "" {
          return Some((current, j + 1));
        }
      j := j + 1;
    }
    return None;
  }

  /** `setminmax(descr, min, max)`: returns only once the minimum is below the maximum. */
  method SetMinMax(min0: real, max0: real, answers: seq<string>, nt: NumberText) returns (r: Option<(real, real)>)
    ensures r == Settle(min0, max0, answers, 0, nt)
    ensures r.Some? ==> r.value.0 < r.value.1
  {
    var min, max, i := min0, max0, 0;
    while true
      invariant i <= |answers|
      invariant Settle(min0, max0, answers, 0, nt) == Settle(min, max, answers, i, nt)
      decreases |answers| - i
    {
      var a := ReadValue(min, answers, i, nt);
      if a.None? {
        return None;
      }
      min, i := a.value.0, a.value.1;
      var b := ReadValue(max, answers, i, nt);
      if b.None? {
        return None;
      }
      max, i := b.value.0, b.value.1;
      if min < max {
        return Some((min, max));
      }
    }
  }
}
