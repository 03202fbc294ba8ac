/** Settings of the silhouette point extraction of the render-based tracker
    (vpSilhouettePointsExtractionSettings): the selection sampling that picks candidates without
    replacement, the sample-step setter and the loading of the settings from JSON. */
module SilhouetteSettings {
  import opened Wrappers

  /** The smaller of two counts. */
  function Min(a: nat, b: nat): nat
  {
    if a <= b then a else b
  }

  /** Strictly increasing indices. */
  predicate Increasing(s: seq<nat>)
  {
    forall a, b :: 0 <= a < b < |s| ==> s[a] < s[b]
  }

  /** One uniform draw per examined position, each in [0, 1) as vpUniRand::uniform(0.0, 1.0)
      gives them. */
  predicate UnitDraws(u: seq<real>, n: nat)
  {
    |u| >= n && forall i :: 0 <= i < |u| ==> 0.0 <= u[i] < 1.0
  }

  /** The positions selection sampling picks from position `i` on, when `added` of the `count`
      wanted positions are already picked: position i is taken when (n - i)·u[i] < count - added,
      and the scan stops once every wanted position is taken. */
  function Selected(u: seq<real>, n: nat, count: nat, i: nat, added: nat): (r: seq<nat>)
    requires |u| >= n && i <= n && added <= count
    decreases n - i
  {
    if i == n || added == count then []
    else if Takes(n - i, count - added, u[i]) then [i] + Selected(u, n, count, i + 1, added + 1)
    else Selected(u, n, count, i + 1, added)
  }

  /** The selection test: with `left` positions left and `wanted` still wanted, the draw `r`
      takes the position when left·r < wanted. */
  predicate Takes(left: nat, wanted: nat, r: real)
  {
    left as real * r < wanted as real
  }

  /** A draw below 1 always takes a position when every position left is wanted. */
  lemma TakesWhenAllWanted(left: nat, r: real)
    requires left > 0 && 0.0 <= r < 1.0
    ensures Takes(left, left, r)
  {
    assert left as real * r < left as real * 1.0;
  }

  /** With draws in [0, 1), selection sampling takes exactly the positions still wanted,
      all of them in [i, n) and in increasing order: once as many positions are left as are
      wanted, each draw is below 1 and the test always passes. */
  lemma {:induction false} SelectedShape(u: seq<real>, n: nat, count: nat, i: nat, added: nat)
    requires UnitDraws(u, n) && i <= n && added <= count && count - added <= n - i
    ensures |Selected(u, n, count, i, added)| == count - added
    ensures forall k :: 0 <= k < count - added ==> i <= Selected(u, n, count, i, added)[k] < n
    ensures Increasing(Selected(u, n, count, i, added))
    decreases n - i
  {
    if i < n && added < count {
      if Takes(n - i, count - added, u[i]) {
        SelectedShape(u, n, count, i + 1, added + 1);
        var rest := Selected(u, n, count, i + 1, added + 1);
        assert Selected(u, n, count, i, added) == [i] + rest;
      } else {
        if count - added == n - i {
          TakesWhenAllWanted(n - i, u[i]);
        }
        SelectedShape(u, n, count, i + 1, added);
      }
    }
  }

  /** sampleWithoutReplacement: `min(count, vectorSize)` slots are filled, scanning the
      positions in order and taking one with the probability "still wanted / still left"; the
      loop stops as soon as every slot is filled. The draws of the random generator are the
      sequence `u`. */
  method SampleWithoutReplacement(count: nat, vectorSize: nat, u: seq<real>) returns (indices: seq<nat>)
    requires UnitDraws(u, vectorSize)
    ensures |indices| == Min(count, vectorSize)
    ensures indices == Selected(u, vectorSize, Min(count, vectorSize), 0, 0)
    ensures Increasing(indices)
    ensures forall k :: 0 <= k < |indices| ==> indices[k] < vectorSize
  {
    var wanted := Min(count, vectorSize);
    indices := seq(wanted, _ => 0);
    ghost var all := Selected(u, vectorSize, wanted, 0, 0);
    SelectedShape(u, vectorSize, wanted, 0, 0);
    var added := 0;
    var i := 0;
    while i < vectorSize
      invariant 0 <= i <= vectorSize && added <= wanted && wanted - added <= vectorSize - i
      invariant |indices| == wanted
      invariant indices[..added] + Selected(u, vectorSize, wanted, i, added) == all
    {
      ghost var before := indices;
      var randomVal := u[i];
      if Takes(vectorSize - i, wanted - added, randomVal) {
        indices := indices[added := i];
        TakeStep(u, vectorSize, wanted, i, added, before, indices);
        added := added + 1;
      } else {
        SkipStep(u, vectorSize, wanted, i, added);
      }
      if added == wanted {
        break;
      }
      i := i + 1;
    }
    Finished(u, vectorSize, wanted, i, added, indices, all);
  }

  /** Taking position i: the filled prefix grows by i and the rest of the selection loses it. */
  lemma TakeStep(u: seq<real>, n: nat, count: nat, i: nat, added: nat, before: seq<nat>, after: seq<nat>)
    requires |u| >= n && i < n && added < count && added < |before|
    requires Takes(n - i, count - added, u[i]) && after == before[added := i]
    ensures after[..added + 1] + Selected(u, n, count, i + 1, added + 1) == before[..added] + Selected(u, n, count, i, added)
  {
    assert after[..added + 1] == before[..added] + [i];
  }

  /** Passing over position i leaves the rest of the selection unchanged. */
  lemma SkipStep(u: seq<real>, n: nat, count: nat, i: nat, added: nat)
    requires UnitDraws(u, n) && i < n && added <= count && count - added <= n - i
    requires !Takes(n - i, count - added, u[i]) || added == count
    ensures count - added <= n - (i + 1)
    ensures Selected(u, n, count, i, added) == Selected(u, n, count, i + 1, added)
  {
    if count - added == n - i && added < count {
      TakesWhenAllWanted(n - i, u[i]);
    }
  }

  /** When the scan ends, every slot is filled and the slots hold the whole selection. */
  lemma Finished(u: seq<real>, n: nat, count: nat, i: nat, added: nat, indices: seq<nat>, all: seq<nat>)
    requires |u| >= n && i <= n && added <= count && count - added <= n - i && |indices| == count
    requires i == n || added == count
    requires indices[..added] + Selected(u, n, count, i, added) == all
    requires UnitDraws(u, n) && all == Selected(u, n, count, 0, 0) && count <= n
    ensures indices == all
  {
    SelectedShape(u, n, count, 0, 0);
    assert indices[..added] == indices;
  }

  /** setSampleStep as written: the stored step, not the argument, is compared with 0, so a 0
      argument is accepted and any later call is rejected. */
  function SampleStepAsWritten(current: nat, a: nat): (r: Result<nat>)
    ensures r.Ok? <==> current != 0
    ensures r.Ok? ==> r.value == a
  {
    if current == 0 then Err(StepError) else Ok(a)
  }

  /** setSampleStep comparing the argument instead: the step is only ever replaced by a positive one. */
  function SampleStep(current: nat, a: nat): (r: Result<nat>)
    ensures r.Ok? <==> a != 0
    ensures r.Ok? ==> r.value == a
  {
    if a == 0 then Err(StepError) else Ok(a)
  }

  /** The written check lets a 0 step through from a valid state, then rejects a valid one. */
  lemma AsWrittenAcceptsZeroStep()
    ensures SampleStepAsWritten(1, 0) == Ok(0)
    ensures SampleStepAsWritten(0, 4).Err?
    ensures SampleStep(1, 0).Err? && SampleStep(0, 4) == Ok(4)
  {
  }

  /** A positive step stays positive through any sequence of checked updates, whatever the
      arguments. */
  lemma {:induction false} CheckedStepStaysPositive(current: nat, args: seq<nat>)
    requires current > 0
    ensures StepAfter(current, args) > 0
    decreases |args|
  {
    if |args| > 0 {
      var next := SampleStep(current, args[0]);
      CheckedStepStaysPositive(if next.Ok? then next.value else current, args[1..]);
    }
  }

  /** The step after a sequence of setSampleStep calls, each failing one leaving it unchanged. */
  function StepAfter(current: nat, args: seq<nat>): nat
    decreases |args|
  {
    if |args| == 0 then current
    else
      var next := SampleStep(current, args[0]);
      StepAfter(if next.Ok? then next.value else current, args[1..])
  }

  /** nlohmann's conversion of a JSON integer to `unsigned int`: the value modulo 2^32, so a
      negative rate wraps to a large step. */
  function ToUnsigned(n: int): (r: nat)
    ensures r < 0x1_0000_0000
    ensures (r - n) % 0x1_0000_0000 == 0
    ensures 0 <= n < 0x1_0000_0000 ==> r == n
  {
    n % 0x1_0000_0000
  }

  /** The threshold object of the JSON configuration; an absent key is None. */
  datatype ThresholdJson = ThresholdJson(thresholdType: Option<string>, value: Option<real>)

  /** The sampling object of the JSON configuration. */
  datatype SamplingJson = SamplingJson(reusePreviousPoints: Option<bool>, numPoints: Option<int>, samplingRate: Option<int>)

  /** A JSON configuration. */
  datatype SettingsJson = SettingsJson(threshold: Option<ThresholdJson>, sampling: Option<SamplingJson>)

  const MissingKey := "key not found"
  const StepError := "Sample step should be greater than 0"

  /** How many of the five keys from_json reads, in its order, are present before the first
      missing one: threshold type, threshold value, reuse flag, candidate count, sampling rate. */
  function KeysPresent(j: SettingsJson): (k: nat)
    ensures k <= 5
    ensures k >= 1 <==> j.threshold.Some? && j.threshold.value.thresholdType.Some?
    ensures k >= 2 <==> k >= 1 && j.threshold.value.value.Some?
    ensures k >= 3 <==> k >= 2 && j.sampling.Some? && j.sampling.value.reusePreviousPoints.Some?
    ensures k >= 4 <==> k >= 3 && j.sampling.value.numPoints.Some?
    ensures k == 5 <==> k >= 4 && j.sampling.value.samplingRate.Some?
  {
    if j.threshold.None? || j.threshold.value.thresholdType.None? then 0
    else if j.threshold.value.value.None? then 1
    else if j.sampling.None? || j.sampling.value.reusePreviousPoints.None? then 2
    else if j.sampling.value.numPoints.None? then 3
    else if j.sampling.value.samplingRate.None? then 4
    else 5
  }

  /** The extraction settings object. */
  class ExtractionSettings {
    var sampleStep: nat
    var maxNumPoints: int
    var depthThreshold: real
    var thresholdIsRelative: bool
    var preferPreviousPoints: bool

    /** A settings object with the given values. */
    constructor (step: nat, maxPoints: int, threshold: real, relative: bool, prefer: bool)
      ensures sampleStep == step && maxNumPoints == maxPoints && depthThreshold == threshold
      ensures thresholdIsRelative == relative && preferPreviousPoints == prefer
    {
      sampleStep, maxNumPoints, depthThreshold := step, maxPoints, threshold;
      thresholdIsRelative, preferPreviousPoints := relative, prefer;
    }

    /** setSampleStep: a 0 step is refused and leaves the stored one. */
    method SetSampleStep(a: nat) returns (error: Option<string>)
      modifies this
      ensures error.None? <==> a != 0
      ensures error.Some? ==> error == Some(StepError)
      ensures sampleStep == (if a != 0 then a else old(sampleStep))
      ensures maxNumPoints == old(maxNumPoints) && depthThreshold == old(depthThreshold)
      ensures thresholdIsRelative == old(thresholdIsRelative) && preferPreviousPoints == old(preferPreviousPoints)
    {
      var r := SampleStep(sampleStep, a);
      if r.Err? {
        return Some(r.error);
      }
      sampleStep := r.value;
      error := None;
    }

    /** from_json, with the corrected setSampleStep: the fields are read and stored one at a
        time, in the order threshold type, threshold value, reuse flag, candidate count,
        sampling rate; a missing key stops the load with an error, and so does a 0 rate. Every
        field read before the stop holds its JSON value and every later one is unchanged. The
        threshold is relative iff its type is exactly "relative". */
    method LoadJson(j: SettingsJson) returns (error: Option<string>)
      modifies this
      ensures var k := KeysPresent(j);
              thresholdIsRelative == (if k >= 1 then j.threshold.value.thresholdType.value == "relative" else old(thresholdIsRelative)) &&
              depthThreshold == (if k >= 2 then j.threshold.value.value.value else old(depthThreshold)) &&
              preferPreviousPoints == (if k >= 3 then j.sampling.value.reusePreviousPoints.value else old(preferPreviousPoints)) &&
              maxNumPoints == (if k >= 4 then j.sampling.value.numPoints.value else old(maxNumPoints))
      ensures var k := KeysPresent(j);
              if k < 5 then error == Some(MissingKey) && sampleStep == old(sampleStep)
              else if ToUnsigned(j.sampling.value.samplingRate.value) == 0 then error == Some(StepError) && sampleStep == old(sampleStep)
              else error.None? && sampleStep == ToUnsigned(j.sampling.value.samplingRate.value)
    {
      if j.threshold.None? || j.threshold.value.thresholdType.None? {
        return Some(MissingKey);
      }
      var t := j.threshold.value;
      thresholdIsRelative := t.thresholdType.value == "relative";
      if t.value.None? {
        return Some(MissingKey);
      }
      depthThreshold := t.value.value;
      if j.sampling.None? || j.sampling.value.reusePreviousPoints.None? {
        return Some(MissingKey);
      }
      var s := j.sampling.value;
      preferPreviousPoints := s.reusePreviousPoints.value;
      if s.numPoints.None? {
        return Some(MissingKey);
      }
      maxNumPoints := s.numPoints.value;
      if s.samplingRate.None? {
        return Some(MissingKey);
      }
      error := SetSampleStep(ToUnsigned(s.samplingRate.value));
    }
  }
}
