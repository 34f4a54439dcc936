/**
 * Matching the input file's sample rate to the transmitter's fixed
 * interpolation factors (usrpx_tx_file.py, lines 61-71).
 *
 * Rates are exact reals: the floating-point rounding of the source is not
 * modelled.
 */
module RateMatching {
  import opened Wrappers

  /** The interpolation factor that would take `rate` exactly to `dacRate`. */
  function IdealInterp(dacRate: real, rate: real): real
    requires rate != 0.0
  {
    dacRate / rate
  }

  /** A factor is usable when it does not exceed the ideal factor. */
  predicate Feasible(x: int, ideal: real)
  {
    x as real <= ideal
  }

  /** The device's factors are all positive (a capability of the hardware). */
  predicate PositiveFactors(rates: seq<int>)
  {
    forall i :: 0 <= i < |rates| ==> rates[i] > 0
  }

  /** The list comprehension of lines 63-64: the usable factors, in list order. */
  function FeasibleRates(rates: seq<int>, ideal: real): (r: seq<int>)
    ensures |r| <= |rates|
    ensures forall x :: x in r <==> x in rates && Feasible(x, ideal)
  {
    if rates == [] then []
    else (if Feasible(rates[0], ideal) then [rates[0]] else []) + FeasibleRates(rates[1..], ideal)
  }

  /**
   * The comprehension keeps list order: filtering a concatenation is
   * concatenating the filtered parts.
   */
  lemma {:induction false} FeasibleRatesAppend(a: seq<int>, b: seq<int>, ideal: real)
    ensures FeasibleRates(a + b, ideal) == FeasibleRates(a, ideal) + FeasibleRates(b, ideal)
  {
    if a == [] {
      assert a + b == b;
    } else {
      assert (a + b)[1..] == a[1..] + b;
      FeasibleRatesAppend(a[1..], b, ideal);
    }
  }

  /**
   * Lines 63-64: the last element of the comprehension; `None` stands for
   * the IndexError raised when no factor is usable.
   */
  function SelectInterp(rates: seq<int>, ideal: real): (r: Option<int>)
    ensures r.None? <==> forall i :: 0 <= i < |rates| ==> !Feasible(rates[i], ideal)
    ensures r.Some? ==> r.value in rates && Feasible(r.value, ideal)
  {
    var feasible := FeasibleRates(rates, ideal);
    if feasible == [] then None
    else
      assert feasible[0] in feasible;
      assert exists i :: 0 <= i < |rates| && rates[i] == feasible[0];
      Some(feasible[|feasible| - 1])
  }

  /** `k` is the position of the last usable factor of `rates`. */
  predicate IsLastFeasible(rates: seq<int>, ideal: real, k: int)
  {
    && 0 <= k < |rates|
    && Feasible(rates[k], ideal)
    && forall j :: k < j < |rates| ==> !Feasible(rates[j], ideal)
  }

  /**
   * Reference definition of the selection, scanning from the end of the
   * list: the position of the last usable factor, if any.
   */
  function LastFeasibleIndex(rates: seq<int>, ideal: real): (r: Option<nat>)
    ensures r.Some? ==> IsLastFeasible(rates, ideal, r.value)
    ensures r.None? ==> forall i :: 0 <= i < |rates| ==> !Feasible(rates[i], ideal)
  {
    if rates == [] then None
    else if Feasible(rates[|rates| - 1], ideal) then Some(|rates| - 1)
    else LastFeasibleIndex(rates[..|rates| - 1], ideal)
  }

  lemma {:induction false} NoneFeasible(rates: seq<int>, ideal: real)
    requires forall i :: 0 <= i < |rates| ==> !Feasible(rates[i], ideal)
    ensures FeasibleRates(rates, ideal) == []
  {
    if rates != [] {
      NoneFeasible(rates[1..], ideal);
    }
  }

  lemma {:induction false} LastOfFeasibleRates(rates: seq<int>, ideal: real, k: int)
    requires IsLastFeasible(rates, ideal, k)
    ensures var f := FeasibleRates(rates, ideal); f != [] && f[|f| - 1] == rates[k]
  {
    var tail := FeasibleRates(rates[1..], ideal);
    if k == 0 {
      assert FeasibleRates(rates, ideal) == [rates[0]] + tail;
      NoneFeasible(rates[1..], ideal);
    } else {
      LastOfFeasibleRates(rates[1..], ideal, k - 1);
    }
  }

  /**
   * The comprehension-and-`[-1]` selection agrees with the reference:
   * it picks the factor at the last usable position, and fails exactly
   * when there is none.
   */
  lemma SelectIsLastFeasible(rates: seq<int>, ideal: real)
    ensures SelectInterp(rates, ideal) ==
            match LastFeasibleIndex(rates, ideal)
            case None => None
            case Some(k) => Some(rates[k])
  {
    match LastFeasibleIndex(rates, ideal)
    case None =>
    case Some(k) => LastOfFeasibleRates(rates, ideal, k);
  }

  /**
   * When the device lists its factors in ascending order, the selection is
   * the largest usable factor. The source itself does not sort.
   */
  lemma SortedSelectsMaximum(rates: seq<int>, ideal: real)
    requires forall i, j :: 0 <= i < j < |rates| ==> rates[i] <= rates[j]
    requires SelectInterp(rates, ideal).Some?
    ensures forall x :: x in rates && Feasible(x, ideal) ==> x <= SelectInterp(rates, ideal).value
  {
    SelectIsLastFeasible(rates, ideal);
    var k := LastFeasibleIndex(rates, ideal).value;
    forall x | x in rates && Feasible(x, ideal)
      ensures x <= rates[k]
    {
      var i :| 0 <= i < |rates| && rates[i] == x;
      if i > k {
        assert !Feasible(rates[i], ideal);
      }
    }
  }

  /** Without the ordering, the last usable factor need not be the largest. */
  lemma UnsortedSelectsLastNotLargest()
    ensures SelectInterp([8, 4], 100.0) == Some(4)
  {
  }

  /** The hardware factor and the residual ratio the resampler must realise. */
  datatype RatePlan = RatePlan(interp: int, outputRate: real, resampRatio: real)

  /**
   * Lines 61-71: choose the factor, then `output_rate = dac_rate / interp`
   * and `resamp_ratio = output_rate / rate`.
   */
  function MatchRate(dacRate: real, rate: real, rates: seq<int>): (r: Option<RatePlan>)
    requires rate != 0.0
    requires PositiveFactors(rates)
    ensures r.None? <==> SelectInterp(rates, IdealInterp(dacRate, rate)).None?
    ensures r.Some? ==> Some(r.value.interp) == SelectInterp(rates, IdealInterp(dacRate, rate))
    ensures r.Some? ==> r.value.outputRate * (r.value.interp as real) == dacRate
    ensures r.Some? ==> rate * r.value.resampRatio == r.value.outputRate
  {
    match SelectInterp(rates, IdealInterp(dacRate, rate))
    case None => None
    case Some(interp) =>
      var outputRate := dacRate / interp as real;
      Some(RatePlan(interp, outputRate, outputRate / rate))
  }

  /**
   * A 100 MHz DAC clock, a 1 MS/s file and factors 4..128: the ideal factor
   * is 100, so 64 is chosen.
   */
  lemma MatchRateExample()
    ensures var plan := MatchRate(100000000.0, 1000000.0, [4, 8, 16, 32, 64, 128]);
            plan.Some? && plan.value.interp == 64
  {
  }

  /** In the same example the output rate is 1.5625 MS/s and the residual ratio 1.5625. */
  lemma MatchRateExampleRates()
    ensures var plan := MatchRate(100000000.0, 1000000.0, [4, 8, 16, 32, 64, 128]);
            && plan.Some? && plan.value.interp == 64
            && plan.value.outputRate == 1562500.0 && plan.value.resampRatio == 1.5625
  {
    MatchRateExample();
  }

  /** With factors 256 and 512 only, no factor is usable for the same rates. */
  lemma NoFactorUsableExample()
    ensures MatchRate(100000000.0, 1000000.0, [256, 512]).None?
  {
  }

  /**
   * The factor is never rounded up, so the resampler only ever has to raise
   * the rate: in exact arithmetic the residual ratio is at least one. A
   * negative input rate never gets this far, since no positive factor is
   * below a negative ideal.
   */
  lemma ResampRatioAtLeastOne(dacRate: real, rate: real, rates: seq<int>)
    requires dacRate > 0.0 && rate != 0.0 && PositiveFactors(rates)
    requires MatchRate(dacRate, rate, rates).Some?
    ensures rate > 0.0
    ensures MatchRate(dacRate, rate, rates).value.resampRatio >= 1.0
  {
    var plan := MatchRate(dacRate, rate, rates).value;
    assert plan.interp in rates;
    var n := plan.interp as real;
    PositiveBelowIdeal(dacRate, rate, n);
    OutputRateAboveInput(dacRate, rate, n, plan.outputRate);
    RatioAtLeastOne(rate, plan.outputRate, plan.resampRatio);
  }

  /** A positive factor at most the ideal one forces a positive input rate. */
  lemma PositiveBelowIdeal(dacRate: real, rate: real, n: real)
    requires dacRate > 0.0 && rate != 0.0 && 0.0 < n <= IdealInterp(dacRate, rate)
    ensures rate > 0.0 && n * rate <= dacRate
  {
  }

  /** Interpolating by at most the ideal factor leaves an output rate no lower than the input rate. */
  lemma OutputRateAboveInput(dacRate: real, rate: real, n: real, outputRate: real)
    requires rate > 0.0 && n > 0.0 && n * rate <= dacRate && outputRate * n == dacRate
    ensures outputRate >= rate
  {
  }

  /** An output rate no lower than the input rate needs a ratio of at least one. */
  lemma RatioAtLeastOne(rate: real, outputRate: real, ratio: real)
    requires rate > 0.0 && outputRate >= rate && rate * ratio == outputRate
    ensures ratio >= 1.0
  {
  }
}
