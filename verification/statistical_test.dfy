/** The mean-drift test of vpStatisticalTestAbstract specialised by vpStatisticalTestHinkley
    (the Page-Hinkley cumulative sum test). The abstract class and its Hinkley subclass are one
    class here: the abstract part collects `nbSamplesForStatistics` signals to estimate the
    mean (the warm-up), then every signal updates the Hinkley sums and is checked for a drift.

    Floats are modelled as reals. `m_stdev` is held as its square, `variance`, because the
    square root of the source is not available on reals; the Hinkley test never reads it. */
module StatisticalTest {

  datatype MeanDriftType = NoMeanDrift | MeanDriftDownward | MeanDriftUpward

  /** vpMeanDriftTypeToString. */
  function MeanDriftTypeToString(t: MeanDriftType): (name: string)
    ensures |name| > 0 && name[0] == ' '
  {
    match t
    case NoMeanDrift => " No jump"
    case MeanDriftDownward => " Jump downward"
    case MeanDriftUpward => " Jump upward"
  }

  /** Distinct drift types have distinct names. */
  lemma MeanDriftTypeNamesDistinct(a: MeanDriftType, b: MeanDriftType)
    ensures MeanDriftTypeToString(a) == MeanDriftTypeToString(b) ==> a == b
  {
  }

  function Max(a: real, b: real): real { if a >= b then a else b }
  function Min(a: real, b: real): real { if a <= b then a else b }

  /** Σ x. */
  function Sum(x: seq<real>): real
  {
    if |x| == 0 then 0.0 else Sum(x[..|x| - 1]) + x[|x| - 1]
  }

  /** Σ (x - m)². */
  function SumSquaredDiff(x: seq<real>, m: real): (r: real)
    ensures r >= 0.0
  {
    if |x| == 0 then 0.0
    else
      var d := x[|x| - 1] - m;
      SquareNonNegative(d);
      SumSquaredDiff(x[..|x| - 1], m) + d * d
  }

  lemma SquareNonNegative(d: real)
    ensures d * d >= 0.0
  {
    if d < 0.0 {
      assert d * d == (-d) * (-d);
    }
  }

  /** The loop of updateStatistics that sums the squared deviations of the buffer. */
  method SquaredDeviationSum(a: array<real>, m: real) returns (sum: real)
    ensures sum == SumSquaredDiff(a[..], m)
  {
    sum := 0.0;
    var i := 0;
    while i < a.Length
      invariant 0 <= i <= a.Length
      invariant sum == SumSquaredDiff(a[..i], m)
    {
      assert a[..i + 1][..i] == a[..i];
      sum := sum + (a[i] - m) * (a[i] - m);
      i := i + 1;
    }
    assert a[..i] == a[..];
  }

  /** The squared standard deviation stored once the warm-up ends: the fresh estimate when no
      minimum is set (a negative minimum), otherwise the larger of the estimate and the squared
      minimum. */
  function StoredVariance(estimate: real, stdevmin: real): (v: real)
    requires estimate >= 0.0
    ensures v >= estimate
    ensures stdevmin >= 0.0 ==> v >= stdevmin * stdevmin
    ensures v == estimate || (stdevmin >= 0.0 && v == stdevmin * stdevmin)
  {
    if stdevmin < 0.0 then estimate else Max(estimate, stdevmin * stdevmin)
  }

  /** The source's own update when a minimum is set: the larger of the PREVIOUS value and the
      squared minimum; the fresh estimate is computed and then dropped. */
  function StoredVarianceAsWritten(previous: real, estimate: real, stdevmin: real): (v: real)
    requires estimate >= 0.0
    ensures stdevmin < 0.0 ==> v == estimate
    ensures stdevmin >= 0.0 ==> v == Max(previous, stdevmin * stdevmin)
  {
    if stdevmin < 0.0 then estimate else Max(previous, stdevmin * stdevmin)
  }

  /** Right after init (previous value 0) with a minimum of 0.5, samples spread with a variance
      of 1 are stored with the variance of the minimum, 0.25. */
  lemma StoredVarianceAsWrittenIgnoresEstimate()
    ensures StoredVarianceAsWritten(0.0, 1.0, 0.5) == 0.25
    ensures StoredVariance(1.0, 0.5) == 1.0
  {
  }

  // ---------------------------------------------------------------------------
  // Page-Hinkley sums as values
  // ---------------------------------------------------------------------------

  /** S_k, its running maximum M_k, T_k and its running minimum N_k. */
  datatype Sums = Sums(Sk: real, Mk: real, Tk: real, Nk: real)

  const ZeroSums: Sums := Sums(0.0, 0.0, 0.0, 0.0)

  /** One step with the deviation `signal - mean`: S grows by the deviation plus delta/2, T by
      the deviation minus delta/2; M follows S upward, N follows T downward. */
  function NextSums(c: Sums, deviation: real, dmin2: real): (r: Sums)
    ensures r.Sk == c.Sk + deviation + dmin2 && r.Tk == c.Tk + deviation - dmin2
    ensures r.Mk >= r.Sk && r.Mk >= c.Mk && (r.Mk == c.Mk || r.Mk == r.Sk)
    ensures r.Nk <= r.Tk && r.Nk <= c.Nk && (r.Nk == c.Nk || r.Nk == r.Tk)
  {
    var Sk := c.Sk + deviation + dmin2;
    var Tk := c.Tk + deviation - dmin2;
    Sums(Sk, if Sk > c.Mk then Sk else c.Mk, Tk, if Tk < c.Nk then Tk else c.Nk)
  }

  /** The sums after a run of deviations, from zero. */
  function RunSums(deviations: seq<real>, dmin2: real): Sums
  {
    if |deviations| == 0 then ZeroSums
    else NextSums(RunSums(deviations[..|deviations| - 1], dmin2), deviations[|deviations| - 1], dmin2)
  }

  /** Σ (d + offset). */
  function Cumulative(deviations: seq<real>, offset: real): real
  {
    if |deviations| == 0 then 0.0
    else Cumulative(deviations[..|deviations| - 1], offset) + deviations[|deviations| - 1] + offset
  }

  /** After any run, S and T are the cumulative sums, M is the largest value S has taken
      (counting the initial 0) and N the smallest value T has taken. */
  lemma {:induction false} RunSumsTrackExtremes(deviations: seq<real>, dmin2: real)
    ensures var r := RunSums(deviations, dmin2);
      r.Sk == Cumulative(deviations, dmin2) && r.Tk == Cumulative(deviations, -dmin2) &&
      (forall j :: 0 <= j <= |deviations| ==> Cumulative(deviations[..j], dmin2) <= r.Mk) &&
      (exists j :: 0 <= j <= |deviations| && Cumulative(deviations[..j], dmin2) == r.Mk) &&
      (forall j :: 0 <= j <= |deviations| ==> Cumulative(deviations[..j], -dmin2) >= r.Nk) &&
      (exists j :: 0 <= j <= |deviations| && Cumulative(deviations[..j], -dmin2) == r.Nk)
  {
    var n := |deviations|;
    var r := RunSums(deviations, dmin2);
    if n == 0 {
      assert deviations[..0] == deviations;
    } else {
      var init := deviations[..n - 1];
      RunSumsTrackExtremes(init, dmin2);
      var p := RunSums(init, dmin2);
      assert deviations[..n] == deviations;
      forall j | 0 <= j <= n
        ensures Cumulative(deviations[..j], dmin2) <= r.Mk
        ensures Cumulative(deviations[..j], -dmin2) >= r.Nk
      {
        if j < n {
          assert deviations[..j] == init[..j];
        }
      }
      var jm :| 0 <= jm <= n - 1 && Cumulative(init[..jm], dmin2) == p.Mk;
      var jn :| 0 <= jn <= n - 1 && Cumulative(init[..jn], -dmin2) == p.Nk;
      assert deviations[..jm] == init[..jm];
      assert deviations[..jn] == init[..jn];
      if r.Mk == p.Mk {
        assert Cumulative(deviations[..jm], dmin2) == r.Mk;
      } else {
        assert Cumulative(deviations[..n], dmin2) == r.Mk;
      }
      if r.Nk == p.Nk {
        assert Cumulative(deviations[..jn], -dmin2) == r.Nk;
      } else {
        assert Cumulative(deviations[..n], -dmin2) == r.Nk;
      }
    }
  }

  /** A downward drift is reported after a run iff S has dropped by more than alpha below some
      earlier value (or below 0). */
  lemma DownwardDriftIffDrop(deviations: seq<real>, dmin2: real, alpha: real)
    ensures var r := RunSums(deviations, dmin2);
      r.Mk - r.Sk > alpha <==>
      exists j :: 0 <= j <= |deviations| &&
        Cumulative(deviations[..j], dmin2) - Cumulative(deviations, dmin2) > alpha
  {
    RunSumsTrackExtremes(deviations, dmin2);
  }

  /** An upward drift is reported after a run iff T has risen by more than alpha above some
      earlier value (or above 0). */
  lemma UpwardDriftIffRise(deviations: seq<real>, dmin2: real, alpha: real)
    ensures var r := RunSums(deviations, dmin2);
      r.Tk - r.Nk > alpha <==>
      exists j :: 0 <= j <= |deviations| &&
        Cumulative(deviations, -dmin2) - Cumulative(deviations[..j], -dmin2) > alpha
  {
    RunSumsTrackExtremes(deviations, dmin2);
  }

  /** The machine epsilon of `double`, 2^-52. */
  const DoubleEpsilon: real := 1.0 / 4503599627370496.0

  /** The test of computeMean for "no drift has begun": M and S agree, and so do T and N, up
      to a relative epsilon. */
  predicate NoDriftBegun(c: Sums)
  {
    Abs(c.Mk - c.Sk) <= Abs(Max(c.Mk, c.Sk)) * DoubleEpsilon &&
    Abs(c.Tk - c.Nk) <= Abs(Max(c.Tk, c.Nk)) * DoubleEpsilon
  }

  function Abs(x: real): real { if x < 0.0 then -x else x }

  /** Exactly equal extremes always count as "no drift begun". */
  lemma EqualExtremesNoDrift(c: Sums)
    requires c.Mk == c.Sk && c.Tk == c.Nk
    ensures NoDriftBegun(c)
  {
  }

  /** computeMean's update after the n-th signal has been counted: (mean·(n - 1) + signal) / n,
      written here with n - 1 as the argument. */
  function RunningMean(mean: real, previousCount: nat, signal: real): real
  {
    (mean * (previousCount as real) + signal) / ((previousCount + 1) as real)
  }

  /** The update keeps the mean exact: from the mean of n signals it gives the mean of the n
      signals and the new one. */
  lemma RunningMeanIsMean(x: seq<real>, signal: real)
    requires |x| > 0
    ensures RunningMean(Sum(x) / (|x| as real), |x|, signal) == Sum(x + [signal]) / ((|x| + 1) as real)
  {
    SumAppend(x, signal);
    RunningMeanOfAverage(Sum(x), |x|, signal, Sum(x + [signal]));
  }

  lemma SumAppend(x: seq<real>, v: real)
    ensures Sum(x + [v]) == Sum(x) + v
  {
    assert (x + [v])[..|x|] == x;
  }

  /** The running mean of an average of k values is the average of the k + 1 values. */
  lemma RunningMeanOfAverage(total: real, k: nat, signal: real, newTotal: real)
    requires k > 0 && newTotal == total + signal
    ensures RunningMean(total / (k as real), k, signal) == newTotal / ((k + 1) as real)
  {
    var n := k as real;
    assert (total / n) * n == total;
  }

  // ---------------------------------------------------------------------------
  // The test object
  // ---------------------------------------------------------------------------

  /** The scalar members of the test: those of vpStatisticalTestAbstract, then alpha, delta/2
      and the four sums of vpStatisticalTestHinkley. */
  datatype TestState = TestState(
    areStatisticsComputed: bool, count: nat, limitDown: real, limitUp: real, mean: real,
    nbSamplesForStatistics: nat, variance: real, stdevmin: real, sumForMean: real,
    dmin2: real, alpha: real, sums: Sums)

  /** The members set by the constructors' initialiser lists before they call init(). */
  function Constructed(alpha: real, dmin2: real): TestState
  {
    TestState(false, 0, 0.0, 0.0, 0.0, 0, 0.0, -1.0, 0.0, dmin2, alpha, ZeroSums)
  }

  /** The state after updateStatistics stores `signal`, where `buffer` is the warm-up buffer
      already holding it: the signal is counted and summed; once the count reaches the warm-up
      length, the mean of everything summed, the stored variance of the buffer around it and
      the flag are set. The sums, alpha and the limits are left alone. */
  function StatisticsUpdated(st: TestState, buffer: seq<real>, signal: real): (r: TestState)
    ensures r.count == st.count + 1 && r.sumForMean == st.sumForMean + signal
    ensures r.sums == st.sums && r.alpha == st.alpha && r.dmin2 == st.dmin2
    ensures r.limitDown == st.limitDown && r.limitUp == st.limitUp
    ensures r.areStatisticsComputed <==> st.areStatisticsComputed || r.count >= st.nbSamplesForStatistics
  {
    var counted := st.(count := st.count + 1, sumForMean := st.sumForMean + signal);
    if counted.count >= counted.nbSamplesForStatistics then
      var m := counted.sumForMean / (counted.count as real);
      counted.(areStatisticsComputed := true, mean := m,
        variance := StoredVariance(SumSquaredDiff(buffer, m) / (counted.count as real), counted.stdevmin))
    else counted
  }

  /** The state after updateTestSignals: the sums step with the deviation of the signal from
      the mean, the signal is counted and the mean absorbs it only while no drift has begun. */
  function TestSignalsUpdated(st: TestState, signal: real): (r: TestState)
    ensures r.count == st.count + 1
    ensures r.sums.Mk >= st.sums.Mk && r.sums.Nk <= st.sums.Nk
    ensures r.sums.Mk >= r.sums.Sk && r.sums.Nk <= r.sums.Tk
    ensures r.areStatisticsComputed == st.areStatisticsComputed && r.variance == st.variance
    ensures r.alpha == st.alpha && r.dmin2 == st.dmin2
  {
    var next := NextSums(st.sums, signal - st.mean, st.dmin2);
    st.(count := st.count + 1, sums := next,
      mean := if NoDriftBegun(next) then RunningMean(st.mean, st.count, signal) else st.mean)
  }

  class HinkleyTest {
    var state: TestState
    /** The warm-up buffer `m_s`: absent after the abstract init, `nbSamplesForStatistics`
        entries otherwise. */
    var s: array?<real>

    /** The buffer matches its declared size, the Hinkley extremes bound their sums and the
        variance is not negative. */
    predicate Valid()
      reads this
    {
      (s == null ==> state.nbSamplesForStatistics == 0) &&
      (s != null ==> s.Length == state.nbSamplesForStatistics) &&
      state.sums.Mk >= state.sums.Sk && state.sums.Nk <= state.sums.Tk && state.variance >= 0.0
    }

    /** The default constructor: alpha 0.2, delta/2 = 0.1, then init(). */
    constructor ()
      ensures Valid() && fresh(s)
      ensures state == Constructed(0.2, 0.1).(limitDown := 0.2, limitUp := 0.2, nbSamplesForStatistics := 30)
    {
      state := Constructed(0.2, 0.1);
      s := null;
      new;
      Init();
    }

    /** The constructor from alpha, delta and the warm-up length. */
    constructor WithParameters(alpha: real, delta: real, nbSamplesForInit: nat)
      ensures Valid() && fresh(s)
      ensures state == Constructed(alpha, delta / 2.0).(limitDown := alpha, limitUp := alpha,
        nbSamplesForStatistics := nbSamplesForInit)
    {
      state := Constructed(alpha, delta / 2.0);
      s := null;
      new;
      InitWithParameters(alpha, delta, nbSamplesForInit);
    }

    /** vpStatisticalTestAbstract::init: clears the flag, the count, the limits, the mean, the
        deviation and the sum, and drops the buffer. */
    method AbstractInit()
      requires Valid()
      modifies this
      ensures Valid() && s == null
      ensures state == old(state).(areStatisticsComputed := false, count := 0, limitDown := 0.0,
        limitUp := 0.0, mean := 0.0, nbSamplesForStatistics := 0, variance := 0.0, sumForMean := 0.0)
    {
      state := state.(areStatisticsComputed := false, count := 0, limitDown := 0.0, limitUp := 0.0,
        mean := 0.0, nbSamplesForStatistics := 0);
      s := null;
      state := state.(variance := 0.0, sumForMean := 0.0);
    }

    /** setNbSamplesForStat: a new buffer of the given size. */
    method SetNbSamplesForStat(nbSamples: nat)
      requires Valid()
      modifies this
      ensures Valid() && fresh(s)
      ensures state == old(state).(nbSamplesForStatistics := nbSamples)
    {
      state := state.(nbSamplesForStatistics := nbSamples);
      s := new real[nbSamples];
    }

    /** setAlpha: both drift limits become alpha. */
    method SetAlpha(alpha: real)
      modifies this
      ensures s == old(s)
      ensures state == old(state).(alpha := alpha, limitDown := alpha, limitUp := alpha)
    {
      state := state.(alpha := alpha);
      state := state.(limitDown := state.alpha, limitUp := state.alpha);
    }

    /** setDelta: stores half of delta. */
    method SetDelta(delta: real)
      modifies this
      ensures s == old(s)
      ensures state == old(state).(dmin2 := delta / 2.0)
    {
      state := state.(dmin2 := delta / 2.0);
    }

    /** vpStatisticalTestHinkley::init(): the abstract init, a 30-signal warm-up, the limits set
        back to alpha and the four sums cleared. */
    method Init()
      requires Valid()
      modifies this
      ensures Valid() && fresh(s)
      ensures state == old(state).(areStatisticsComputed := false, count := 0, limitDown := old(state).alpha,
        limitUp := old(state).alpha, mean := 0.0, nbSamplesForStatistics := 30, variance := 0.0,
        sumForMean := 0.0, sums := ZeroSums)
    {
      AbstractInit();
      SetNbSamplesForStat(30);
      SetAlpha(state.alpha);
      state := state.(sums := ZeroSums);
    }

    /** init(mean): init() with the mean given, which marks the statistics as computed, so the
        warm-up is skipped. */
    method InitWithMean(mean: real)
      requires Valid()
      modifies this
      ensures Valid() && fresh(s)
      ensures state == old(state).(areStatisticsComputed := true, count := 0, limitDown := old(state).alpha,
        limitUp := old(state).alpha, mean := mean, nbSamplesForStatistics := 30, variance := 0.0,
        sumForMean := 0.0, sums := ZeroSums)
    {
      Init();
      state := state.(mean := mean, areStatisticsComputed := true);
    }

    /** init(alpha, delta, nbSamplesForInit). */
    method InitWithParameters(alpha: real, delta: real, nbSamplesForInit: nat)
      requires Valid()
      modifies this
      ensures Valid() && fresh(s)
      ensures state == old(state).(areStatisticsComputed := false, count := 0, limitDown := alpha,
        limitUp := alpha, mean := 0.0, nbSamplesForStatistics := nbSamplesForInit, variance := 0.0,
        sumForMean := 0.0, dmin2 := delta / 2.0, alpha := alpha, sums := ZeroSums)
    {
      Init();
      SetNbSamplesForStat(nbSamplesForInit);
      SetAlpha(alpha);
      SetDelta(delta);
    }

    /** init(alpha, delta, mean): the warm-up is skipped. */
    method InitWithParametersAndMean(alpha: real, delta: real, mean: real)
      requires Valid()
      modifies this
      ensures Valid() && fresh(s)
      ensures state == old(state).(areStatisticsComputed := true, count := 0, limitDown := alpha,
        limitUp := alpha, mean := mean, nbSamplesForStatistics := 30, variance := 0.0,
        sumForMean := 0.0, dmin2 := delta / 2.0, alpha := alpha, sums := ZeroSums)
    {
      Init();
      SetAlpha(alpha);
      SetDelta(delta);
      state := state.(mean := mean, areStatisticsComputed := true);
    }

    /** updateStatistics: the signal is stored at position `count` of the buffer, counted and
        summed; once `count` reaches the warm-up length, the mean of everything summed so far
        and the spread of the buffer around it are computed and the flag is raised. The result
        is the flag. The buffer must have room, as the source writes without a check. */
    method UpdateStatistics(signal: real) returns (computed: bool)
      requires Valid() && state.count < state.nbSamplesForStatistics
      modifies this, s
      ensures Valid() && s == old(s) && s[..] == old(s[..])[old(state).count := signal]
      ensures state == StatisticsUpdated(old(state), s[..], signal)
      ensures computed == state.areStatisticsComputed
    {
      s[state.count] := signal;
      state := state.(count := state.count + 1);
      state := state.(sumForMean := state.sumForMean + signal);
      if state.count >= state.nbSamplesForStatistics {
        state := state.(mean := state.sumForMean / (state.count as real));
        var sumSquaredDiff := SquaredDeviationSum(s, state.mean);
        state := state.(variance := StoredVariance(sumSquaredDiff / (state.count as real), state.stdevmin));
        state := state.(areStatisticsComputed := true);
      }
      computed := state.areStatisticsComputed;
    }

    /** updateTestSignals: the Hinkley sums take one step with the deviation of the signal
        from the current mean; the signal is counted; and the mean absorbs the signal only
        when no drift has begun. */
    method UpdateTestSignals(signal: real)
      requires Valid()
      modifies this
      ensures Valid() && s == old(s)
      ensures state == TestSignalsUpdated(old(state), signal)
    {
      var sums := state.sums;
      // computeSk, computeTk
      sums := sums.(Sk := sums.Sk + signal - state.mean + state.dmin2);
      sums := sums.(Tk := sums.Tk + signal - state.mean - state.dmin2);
      // computeMk, computeNk
      if sums.Sk > sums.Mk {
        sums := sums.(Mk := sums.Sk);
      }
      if sums.Tk < sums.Nk {
        sums := sums.(Nk := sums.Tk);
      }
      assert sums == NextSums(state.sums, signal - state.mean, state.dmin2);
      state := state.(sums := sums, count := state.count + 1);
      // computeMean
      if NoDriftBegun(state.sums) {
        state := state.(mean := RunningMean(state.mean, state.count - 1, signal));
      }
    }

    /** detectDownwardMeanShift: a downward drift iff M - S exceeds alpha. */
    method DetectDownwardMeanShift() returns (shift: MeanDriftType)
      ensures shift != MeanDriftUpward
      ensures shift == MeanDriftDownward <==> state.sums.Mk - state.sums.Sk > state.alpha
    {
      shift := NoMeanDrift;
      if state.sums.Mk - state.sums.Sk > state.alpha {
        shift := MeanDriftDownward;
      }
    }

    /** detectUpwardMeanShift: an upward drift iff T - N exceeds alpha. */
    method DetectUpwardMeanShift() returns (shift: MeanDriftType)
      ensures shift != MeanDriftDownward
      ensures shift == MeanDriftUpward <==> state.sums.Tk - state.sums.Nk > state.alpha
    {
      shift := NoMeanDrift;
      if state.sums.Tk - state.sums.Nk > state.alpha {
        shift := MeanDriftUpward;
      }
    }

    /** testDownUpwardMeanShift: during the warm-up the signal only feeds the statistics and
        no drift is reported; afterwards the sums are updated and a downward drift takes
        precedence over an upward one. */
    method TestDownUpwardMeanShift(signal: real) returns (shift: MeanDriftType)
      requires Valid() && (state.areStatisticsComputed || state.count < state.nbSamplesForStatistics)
      modifies this, s
      ensures Valid() && s == old(s)
      ensures !old(state).areStatisticsComputed ==>
        shift == NoMeanDrift && s[..] == old(s[..])[old(state).count := signal] &&
        state == StatisticsUpdated(old(state), s[..], signal)
      ensures old(state).areStatisticsComputed ==>
        (s != null ==> s[..] == old(s[..])) && state == TestSignalsUpdated(old(state), signal) &&
        var r := state.sums;
        (shift == MeanDriftDownward <==> r.Mk - r.Sk > state.alpha) &&
        (shift == MeanDriftUpward <==> r.Mk - r.Sk <= state.alpha && r.Tk - r.Nk > state.alpha)
    {
      if state.areStatisticsComputed {
        UpdateTestSignals(signal);
        var jumpDown := DetectDownwardMeanShift();
        var jumpUp := DetectUpwardMeanShift();
        if jumpDown != NoMeanDrift {
          return jumpDown;
        } else if jumpUp != NoMeanDrift {
          return jumpUp;
        } else {
          return NoMeanDrift;
        }
      } else {
        var _ := UpdateStatistics(signal);
        return NoMeanDrift;
      }
    }

    /** testDownwardMeanShift. */
    method TestDownwardMeanShift(signal: real) returns (shift: MeanDriftType)
      requires Valid() && (state.areStatisticsComputed || state.count < state.nbSamplesForStatistics)
      modifies this, s
      ensures Valid() && s == old(s)
      ensures !old(state).areStatisticsComputed ==>
        shift == NoMeanDrift && s[..] == old(s[..])[old(state).count := signal] &&
        state == StatisticsUpdated(old(state), s[..], signal)
      ensures old(state).areStatisticsComputed ==>
        (s != null ==> s[..] == old(s[..])) && state == TestSignalsUpdated(old(state), signal) &&
        var r := state.sums;
        shift != MeanDriftUpward && (shift == MeanDriftDownward <==> r.Mk - r.Sk > state.alpha)
    {
      if state.areStatisticsComputed {
        UpdateTestSignals(signal);
        shift := DetectDownwardMeanShift();
      } else {
        var _ := UpdateStatistics(signal);
        shift := NoMeanDrift;
      }
    }

    /** testUpwardMeanShift. */
    method TestUpwardMeanShift(signal: real) returns (shift: MeanDriftType)
      requires Valid() && (state.areStatisticsComputed || state.count < state.nbSamplesForStatistics)
      modifies this, s
      ensures Valid() && s == old(s)
      ensures !old(state).areStatisticsComputed ==>
        shift == NoMeanDrift && s[..] == old(s[..])[old(state).count := signal] &&
        state == StatisticsUpdated(old(state), s[..], signal)
      ensures old(state).areStatisticsComputed ==>
        (s != null ==> s[..] == old(s[..])) && state == TestSignalsUpdated(old(state), signal) &&
        var r := state.sums;
        shift != MeanDriftDownward && (shift == MeanDriftUpward <==> r.Tk - r.Nk > state.alpha)
    {
      if state.areStatisticsComputed {
        UpdateTestSignals(signal);
        shift := DetectUpwardMeanShift();
      } else {
        var _ := UpdateStatistics(signal);
        shift := NoMeanDrift;
      }
    }

    /** Assignment from another test: the abstract operator= copies the flag, the count, the
        limits and the mean, gives this object a new, uncopied buffer of the other's size or
        drops its own, and resets the deviation and the sum to 0; it leaves the minimum
        deviation alone. The implicit Hinkley assignment then copies alpha, delta/2 and the
        four sums. */
    method Assign(other: HinkleyTest)
      requires Valid() && other.Valid()
      modifies this
      ensures Valid()
      ensures old(other.state).nbSamplesForStatistics > 0 ==> fresh(s)
      ensures old(other.state).nbSamplesForStatistics == 0 ==> s == null
      ensures state == old(other.state).(variance := 0.0, sumForMean := 0.0, stdevmin := old(state).stdevmin)
    {
      var o := other.state;
      state := state.(areStatisticsComputed := o.areStatisticsComputed, count := o.count,
        limitDown := o.limitDown, limitUp := o.limitUp, mean := o.mean);
      if o.nbSamplesForStatistics > 0 {
        SetNbSamplesForStat(o.nbSamplesForStatistics);
      } else if s != null {
        state := state.(nbSamplesForStatistics := 0);
        s := null;
      }
      state := state.(variance := 0.0, sumForMean := 0.0);
      state := state.(alpha := o.alpha, dmin2 := o.dmin2, sums := o.sums);
    }
  }
}
