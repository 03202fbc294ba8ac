/** The deterministic helpers of vpParticleFilter: the weighted mean of the particles,
    the resampling condition, the cumulative-weight draw of the importance resampling,
    and the per-particle prediction and update passes. State vectors are `seq<real>`;
    the uniform draws and the user-supplied process, command and likelihood functions
    are parameters. */
module ParticleFilter {
  import opened Wrappers

  // ---------------------------------------------------------------------------
  // Weighted mean
  // ---------------------------------------------------------------------------

  /** All particles have dimension d. */
  predicate SameDimension(particles: seq<seq<real>>, d: nat)
  {
    forall i :: 0 <= i < |particles| ==> |particles[i]| == d
  }

  /** Σ_{i < n} weights[i] · particles[i][k]: component k of the weighted sum of the
      first n particles. */
  function ComponentSum(particles: seq<seq<real>>, weights: seq<real>, n: nat, k: nat): real
    requires n <= |particles| && n <= |weights|
    requires forall i :: 0 <= i < n ==> k < |particles[i]|
  {
    if n == 0 then 0.0
    else ComponentSum(particles, weights, n - 1, k) + weights[n - 1] * particles[n - 1][k]
  }

  /** Σ_{i < n} weights[i]. */
  function WeightSum(weights: seq<real>, n: nat): real
    requires n <= |weights|
  {
    if n == 0 then 0.0 else WeightSum(weights, n - 1) + weights[n - 1]
  }

  /** v · w, component by component. */
  function Scale(v: seq<real>, w: real): (r: seq<real>)
    ensures |r| == |v| && forall k :: 0 <= k < |v| ==> r[k] == w * v[k]
  {
    seq(|v|, k requires 0 <= k < |v| => w * v[k])
  }

  /** a + b for vectors of the same dimension. */
  function Add(a: seq<real>, b: seq<real>): (r: seq<real>)
    requires |a| == |b|
    ensures |r| == |a| && forall k :: 0 <= k < |a| ==> r[k] == a[k] + b[k]
  {
    seq(|a|, k requires 0 <= k < |a| => a[k] + b[k])
  }

  /** simpleMean: a dimension error for an empty particle list, otherwise the vector
      Σ_i weights[i] · particles[i], accumulated from particles[0] · weights[0]; the
      vector `+=` raises a dimension error at the first particle whose dimension differs
      from the first one's. */
  method SimpleMean(particles: seq<seq<real>>, weights: seq<real>) returns (r: Result<seq<real>>)
    requires |weights| >= |particles|
    ensures r.Err? <==> |particles| == 0 || !SameDimension(particles, |particles[0]|)
    ensures r.Ok? ==>
      |r.value| == |particles[0]| &&
      forall k :: 0 <= k < |r.value| ==> r.value[k] == ComponentSum(particles, weights, |particles|, k)
  {
    var n := |particles|;
    if n == 0 {
      return Err("No particles to add when computing the mean");
    }
    var d := |particles[0]|;
    var res := Scale(particles[0], weights[0]);
    var i := 1;
    while i < n
      invariant 1 <= i <= n
      invariant SameDimension(particles[..i], d)
      invariant |res| == d
      invariant forall k :: 0 <= k < d ==> res[k] == ComponentSum(particles, weights, i, k)
    {
      if |particles[i]| != d {
        return Err("Cannot add vectors of different dimensions");
      }
      res := Add(res, Scale(particles[i], weights[i]));
      i := i + 1;
    }
    assert particles[..i] == particles;
    r := Ok(res);
  }

  /** The weighted sum of n copies of the vector p is (Σ weights)·p. */
  lemma {:induction false} ComponentSumOfConstant(particles: seq<seq<real>>, weights: seq<real>, n: nat, p: seq<real>, k: nat)
    requires n <= |particles| && n <= |weights| && k < |p|
    requires forall i :: 0 <= i < n ==> particles[i] == p
    ensures ComponentSum(particles, weights, n, k) == WeightSum(weights, n) * p[k]
  {
    if n > 0 {
      ComponentSumOfConstant(particles, weights, n - 1, p, k);
    }
  }

  /** When every particle is the same vector p and the weights sum to 1, simpleMean returns p. */
  lemma MeanOfIdenticalParticles(particles: seq<seq<real>>, weights: seq<real>, p: seq<real>)
    requires |weights| >= |particles| > 0
    requires forall i :: 0 <= i < |particles| ==> particles[i] == p
    requires WeightSum(weights, |particles|) == 1.0
    ensures forall k :: 0 <= k < |p| ==> ComponentSum(particles, weights, |particles|, k) == p[k]
  {
    forall k | 0 <= k < |p|
      ensures ComponentSum(particles, weights, |particles|, k) == p[k]
    {
      ComponentSumOfConstant(particles, weights, |particles|, p, k);
    }
  }

  // ---------------------------------------------------------------------------
  // Resampling condition
  // ---------------------------------------------------------------------------

  /** a · b. Products of weights go through this function so that the proofs below
      reason about them through the small lemmas that follow. */
  function Mul(a: real, b: real): real
  {
    a * b
  }

  lemma MulPositive(a: real, b: real)
    requires (a > 0.0 && b > 0.0) || (a < 0.0 && b < 0.0)
    ensures Mul(a, b) > 0.0
  {
  }

  lemma MulNonNegative(a: real, b: real)
    requires a >= 0.0 && b >= 0.0
    ensures Mul(a, b) >= 0.0
  {
    if a > 0.0 && b > 0.0 {
      MulPositive(a, b);
    }
  }

  lemma SquareSign(x: real)
    ensures Mul(x, x) >= 0.0
    ensures x != 0.0 ==> Mul(x, x) > 0.0
  {
    if x != 0.0 {
      MulPositive(x, x);
    }
  }

  lemma SquareOfSum(a: real, b: real)
    ensures Mul(a + b, a + b) == Mul(a, a) + 2.0 * Mul(a, b) + Mul(b, b)
  {
  }

  lemma MulSuccessor(m: real, c: real)
    ensures Mul(m + 1.0, c) == Mul(m, c) + c
  {
  }

  /** x/d ≤ c exactly when x ≤ c·d, and likewise for <, for a positive d. */
  lemma DivisionCompare(x: real, d: real, c: real)
    requires d > 0.0
    ensures x / d < c <==> x < c * d
    ensures x / d <= c <==> x <= c * d
  {
    var r := x / d;
    assert r * d == x;
    if r < c {
      MulPositive(c - r, d);
    } else if c < r {
      MulPositive(r - c, d);
    }
  }

  lemma Cancel(a: real, d: real)
    requires d > 0.0
    ensures Mul(a, d) / d == a
  {
  }

  lemma InverseOfRatio(a: real, b: real)
    requires a > 0.0 && b > 0.0
    ensures a / b > 0.0
    ensures 1.0 / (a / b) == b / a
  {
  }

  /** Σ_{i < n} weights[i]². */
  function SquareSum(weights: seq<real>, n: nat): real
    requires n <= |weights|
  {
    if n == 0 then 0.0 else SquareSum(weights, n - 1) + Mul(weights[n - 1], weights[n - 1])
  }

  lemma {:induction false} SquareSumNonNegative(weights: seq<real>, n: nat)
    requires n <= |weights|
    ensures SquareSum(weights, n) >= 0.0
  {
    if n > 0 {
      SquareSumNonNegative(weights, n - 1);
      SquareSign(weights[n - 1]);
    }
  }

  /** The resampling condition as written: temp = 2·S²/Q and N_eff = 1/temp = Q/(2·S²),
      where S = Σ w and Q = Σ w², and the filter resamples iff N_eff < N/2. In IEEE
      arithmetic Q = 0 forces S = 0 and temp = 0/0 = NaN, so the comparison is false;
      S = 0 with Q > 0 gives temp = 0 and N_eff = +∞, so it is false too. */
  predicate ResamplingConditionAsWritten(count: nat, sum: real, sumSquare: real)
  {
    if sumSquare <= 0.0 || sum == 0.0 then false
    else
      SquareSign(sum);
      sumSquare / (2.0 * Mul(sum, sum)) < count as real / 2.0
  }

  /** The loop of simpleResamplingCheck: the sum of the first N weights and of their squares. */
  method WeightSums(count: nat, weights: seq<real>) returns (sumWeights: real, sumSquare: real)
    requires |weights| >= count
    ensures sumWeights == WeightSum(weights, count) && sumSquare == SquareSum(weights, count)
  {
    sumWeights := 0.0;
    sumSquare := 0.0;
    var i := 0;
    while i < count
      invariant 0 <= i <= count
      invariant sumWeights == WeightSum(weights, i)
      invariant sumSquare == SquareSum(weights, i)
    {
      sumWeights := sumWeights + weights[i];
      sumSquare := sumSquare + Mul(weights[i], weights[i]);
      i := i + 1;
    }
  }

  /** simpleResamplingCheck as written: the two sums over the first N weights, then the
      condition above. */
  method SimpleResamplingCheck(count: nat, weights: seq<real>) returns (resample: bool)
    requires |weights| >= count
    ensures resample == ResamplingConditionAsWritten(count, WeightSum(weights, count), SquareSum(weights, count))
  {
    var sumWeights, sumSquare := WeightSums(count, weights);
    if sumSquare <= 0.0 || sumWeights == 0.0 {
      resample := false;
    } else {
      SquareSign(sumWeights);
      InverseOfRatio(2.0 * Mul(sumWeights, sumWeights), sumSquare);
      var temp := (2.0 * Mul(sumWeights, sumWeights)) / sumSquare;
      var effective := 1.0 / temp;
      resample := effective < count as real / 2.0;
    }
  }

  /** The documented condition, 2/Σ(wᵢ/Σw)² < N, that is, Kish's effective sample size
      N_eff = S²/Q below N/2 (false when every weight is zero). */
  predicate ResamplingCondition(count: nat, sum: real, sumSquare: real)
  {
    sumSquare > 0.0 && Mul(sum, sum) / sumSquare < count as real / 2.0
  }

  /** The check with the effective sample size the documentation describes: the same sums, then
      N_eff = S²/Q compared with N/2. */
  method ResamplingCheck(count: nat, weights: seq<real>) returns (resample: bool)
    requires |weights| >= count
    ensures resample == ResamplingCondition(count, WeightSum(weights, count), SquareSum(weights, count))
  {
    var sumWeights, sumSquare := WeightSums(count, weights);
    if sumSquare <= 0.0 {
      resample := false;
    } else {
      var effective := Mul(sumWeights, sumWeights) / sumSquare;
      resample := effective < count as real / 2.0;
    }
  }

  /** All weights are non-negative. */
  predicate NonNegative(weights: seq<real>, n: nat)
    requires n <= |weights|
  {
    forall i :: 0 <= i < n ==> weights[i] >= 0.0
  }

  lemma {:induction false} WeightSumNonNegative(weights: seq<real>, n: nat)
    requires n <= |weights| && NonNegative(weights, n)
    ensures WeightSum(weights, n) >= 0.0
  {
    if n > 0 {
      WeightSumNonNegative(weights, n - 1);
    }
  }

  /** For non-negative weights, Σ w² ≤ (Σ w)². */
  lemma {:induction false} SquareSumBound(weights: seq<real>, n: nat)
    requires n <= |weights| && NonNegative(weights, n)
    ensures SquareSum(weights, n) <= Mul(WeightSum(weights, n), WeightSum(weights, n))
  {
    if n > 0 {
      SquareSumBound(weights, n - 1);
      WeightSumNonNegative(weights, n - 1);
      MulNonNegative(WeightSum(weights, n - 1), weights[n - 1]);
      SquareOfSum(WeightSum(weights, n - 1), weights[n - 1]);
    }
  }

  /** Σ w² = 0 forces Σ w = 0. */
  lemma {:induction false} SquaresVanish(weights: seq<real>, n: nat)
    requires n <= |weights| && SquareSum(weights, n) == 0.0
    ensures WeightSum(weights, n) == 0.0
  {
    if n > 0 {
      SquareSumNonNegative(weights, n - 1);
      SquareSign(weights[n - 1]);
      SquaresVanish(weights, n - 1);
    }
  }

  /** As written, the condition holds for every non-negative, not all zero, set of at
      least two weights: N_eff = Q/(2·S²) never exceeds 1/2, so the filter always resamples. */
  lemma AsWrittenAlwaysResamples(count: nat, weights: seq<real>)
    requires 2 <= count <= |weights| && NonNegative(weights, count)
    requires WeightSum(weights, count) != 0.0
    ensures ResamplingConditionAsWritten(count, WeightSum(weights, count), SquareSum(weights, count))
  {
    var s := WeightSum(weights, count);
    var q := SquareSum(weights, count);
    SquareSumBound(weights, count);
    SquareSumNonNegative(weights, count);
    if q == 0.0 {
      SquaresVanish(weights, count);
      assert false;
    }
    SquareSign(s);
    DivisionCompare(q, 2.0 * Mul(s, s), 0.5);
  }

  /** Two equal weights of 1/2: as written N_eff = 1/4 < 1 and the filter resamples, while
      the effective sample size of these weights is 2, which is not below N/2 = 1. */
  lemma AsWrittenResamplesUniformPair()
    ensures ResamplingConditionAsWritten(2, WeightSum([0.5, 0.5], 2), SquareSum([0.5, 0.5], 2))
    ensures !ResamplingCondition(2, WeightSum([0.5, 0.5], 2), SquareSum([0.5, 0.5], 2))
  {
    assert WeightSum([0.5, 0.5], 2) == 1.0;
    assert SquareSum([0.5, 0.5], 2) == 0.5;
  }

  lemma {:induction false} ConstantSums(weights: seq<real>, n: nat, c: real)
    requires n <= |weights|
    requires forall i :: 0 <= i < n ==> weights[i] == c
    ensures WeightSum(weights, n) == Mul(n as real, c)
    ensures SquareSum(weights, n) == Mul(n as real, Mul(c, c))
  {
    if n > 0 {
      ConstantSums(weights, n - 1, c);
      MulSuccessor((n - 1) as real, c);
      MulSuccessor((n - 1) as real, Mul(c, c));
    }
  }

  lemma SquareOfProduct(n: real, c: real)
    ensures Mul(Mul(n, c), Mul(n, c)) == Mul(n, Mul(n, Mul(c, c)))
  {
  }

  /** With the documented condition, equal non-zero weights give N_eff = N and never
      trigger a resampling. */
  lemma UniformWeightsNeverResample(count: nat, weights: seq<real>, c: real)
    requires 0 < count <= |weights| && c != 0.0
    requires forall i :: 0 <= i < count ==> weights[i] == c
    ensures SquareSum(weights, count) > 0.0
    ensures !ResamplingCondition(count, WeightSum(weights, count), SquareSum(weights, count))
  {
    var n := count as real;
    ConstantSums(weights, count, c);
    SquareSign(c);
    MulPositive(n, Mul(c, c));
    SquareOfProduct(n, c);
    Cancel(n, Mul(n, Mul(c, c)));
  }

  lemma {:induction false} SingleWeightSums(weights: seq<real>, n: nat)
    requires 1 <= n <= |weights|
    requires forall i :: 1 <= i < n ==> weights[i] == 0.0
    ensures WeightSum(weights, n) == weights[0]
    ensures SquareSum(weights, n) == Mul(weights[0], weights[0])
  {
    if n > 1 {
      SingleWeightSums(weights, n - 1);
    }
  }

  lemma SelfDivide(d: real)
    requires d > 0.0
    ensures d / d == 1.0
  {
  }

  /** With the documented condition, all the weight on one of at least three particles
      gives N_eff = 1 < N/2 and triggers a resampling. */
  lemma DegenerateWeightsResample(weights: seq<real>)
    requires |weights| >= 3 && weights[0] != 0.0
    requires forall i :: 1 <= i < |weights| ==> weights[i] == 0.0
    ensures SquareSum(weights, |weights|) > 0.0
    ensures ResamplingCondition(|weights|, WeightSum(weights, |weights|), SquareSum(weights, |weights|))
  {
    SingleWeightSums(weights, |weights|);
    SquareSign(weights[0]);
    SelfDivide(Mul(weights[0], weights[0]));
  }

  // ---------------------------------------------------------------------------
  // Importance resampling
  // ---------------------------------------------------------------------------

  /** Σ_{i ≤ k} weights[i]: the cumulative weight through particle k. */
  function CumulativeWeight(weights: seq<real>, k: nat): real
    requires k < |weights|
  {
    WeightSum(weights, k + 1)
  }

  /** The first index k in [j, n) whose cumulative weight exceeds the draw x, or 0 when
      there is none (the source's index vector starts at zero). */
  function FirstAbove(weights: seq<real>, n: nat, x: real, j: nat): (r: nat)
    requires j <= n <= |weights|
    ensures r == 0 || j <= r < n
    ensures (forall k :: j <= k < n ==> CumulativeWeight(weights, k) <= x) ==> r == 0
    ensures (exists k :: j <= k < n && x < CumulativeWeight(weights, k)) ==>
      j <= r < n && x < CumulativeWeight(weights, r) &&
      forall k :: j <= k < r ==> CumulativeWeight(weights, k) <= x
    decreases n - j
  {
    if j == n then 0
    else if x < CumulativeWeight(weights, j) then j
    else FirstAbove(weights, n, x, j + 1)
  }

  /** The particle drawn for the uniform value x. */
  function DrawnIndex(weights: seq<real>, n: nat, x: real): nat
    requires n <= |weights|
  {
    FirstAbove(weights, n, x, 0)
  }

  /** A draw in [0, Σ w) always finds an index j with Σ_{i<j} w ≤ x < Σ_{i≤j} w; in
      particular that particle has positive weight, so a zero-weight particle is never drawn. */
  lemma DrawFindsItsInterval(weights: seq<real>, n: nat, x: real)
    requires n <= |weights| && 0.0 <= x < WeightSum(weights, n)
    ensures var j := DrawnIndex(weights, n, x);
      j < n && WeightSum(weights, j) <= x < WeightSum(weights, j + 1) && weights[j] > 0.0
  {
    assert n > 0;
    assert x < CumulativeWeight(weights, n - 1);
    var j := DrawnIndex(weights, n, x);
    if j > 0 {
      assert CumulativeWeight(weights, j - 1) <= x;
    }
  }

  /** simpleImportanceResampling: for every draw, the first particle whose cumulative weight
      exceeds it; the new weights are all 1/N. */
  method SimpleImportanceResampling(particles: seq<seq<real>>, weights: seq<real>, draws: seq<real>)
    returns (newParticles: seq<seq<real>>, newWeights: seq<real>)
    requires |weights| >= |particles| && |draws| == |particles|
    ensures |newParticles| == |particles| && |newWeights| == |particles|
    ensures forall i :: 0 <= i < |particles| ==>
      newParticles[i] == particles[DrawnIndex(weights, |particles|, draws[i])]
    ensures forall i :: 0 <= i < |particles| ==> newWeights[i] == 1.0 / |particles| as real
  {
    var n := |particles|;
    var idx := new nat[n](_ => 0);
    var i := 0;
    while i < n
      invariant 0 <= i <= n
      invariant forall k :: 0 <= k < i ==> idx[k] == DrawnIndex(weights, n, draws[k])
      invariant forall k :: i <= k < n ==> idx[k] == 0
    {
      var x := draws[i];
      var sumWeights := 0.0;
      var j := 0;
      while j < n
        invariant 0 <= j <= n
        invariant sumWeights == WeightSum(weights, j)
        invariant forall k :: 0 <= k < i ==> idx[k] == DrawnIndex(weights, n, draws[k])
        invariant forall k :: i <= k < n ==> idx[k] == 0
        invariant DrawnIndex(weights, n, x) == FirstAbove(weights, n, x, j)
      {
        if x < sumWeights + weights[j] {
          idx[i] := j;
          break;
        }
        sumWeights := sumWeights + weights[j];
        j := j + 1;
      }
      i := i + 1;
    }
    newParticles := [];
    i := 0;
    while i < n
      invariant 0 <= i <= n && |newParticles| == i
      invariant forall k :: 0 <= k < i ==> newParticles[k] == particles[DrawnIndex(weights, n, draws[k])]
    {
      newParticles := newParticles + [particles[idx[i]]];
      i := i + 1;
    }
    newWeights := seq(n, k requires 0 <= k < n => 1.0 / n as real);
  }

  // ---------------------------------------------------------------------------
  // Prediction and update
  // ---------------------------------------------------------------------------

  /** The particles, their weights and the user functions of a filter. */
  class Filter {
    var count: nat
    var particles: seq<seq<real>>
    var weights: seq<real>
    var process: (seq<real>, real) -> seq<real>
    var command: (seq<real>, seq<real>, real) -> seq<real>
    var likelihood: (seq<real>, seq<real>) -> real
    var useProcessFunction: bool
    var useCommandStateFunction: bool

    predicate Valid()
      reads this
    {
      |particles| == count && |weights| == count
    }

    /** A filter holding the given particles and weights, with no process or command
        function selected yet. */
    constructor (particles0: seq<seq<real>>, weights0: seq<real>,
                 likelihood0: (seq<real>, seq<real>) -> real,
                 process0: (seq<real>, real) -> seq<real>,
                 command0: (seq<real>, seq<real>, real) -> seq<real>)
      requires |weights0| == |particles0|
      ensures Valid()
      ensures count == |particles0| && particles == particles0 && weights == weights0
      ensures likelihood == likelihood0 && process == process0 && command == command0
      ensures !useProcessFunction && !useCommandStateFunction
    {
      count := |particles0|;
      particles := particles0;
      weights := weights0;
      likelihood := likelihood0;
      process := process0;
      command := command0;
      useProcessFunction := false;
      useCommandStateFunction := false;
    }

    /** setProcessFunction: selects the process function and deselects the command function. */
    method SetProcessFunction(f: (seq<real>, real) -> seq<real>)
      modifies this
      ensures process == f && useProcessFunction && !useCommandStateFunction
      ensures count == old(count) && particles == old(particles) && weights == old(weights)
      ensures command == old(command) && likelihood == old(likelihood)
    {
      process := f;
      useCommandStateFunction := false;
      useProcessFunction := true;
    }

    /** setCommandStateFunction: selects the command function and deselects the process function. */
    method SetCommandStateFunction(bx: (seq<real>, seq<real>, real) -> seq<real>)
      modifies this
      ensures command == bx && useCommandStateFunction && !useProcessFunction
      ensures count == old(count) && particles == old(particles) && weights == old(weights)
      ensures process == old(process) && likelihood == old(likelihood)
    {
      command := bx;
      useCommandStateFunction := true;
      useProcessFunction := false;
    }

    /** predictMonothread: every particle is moved by the command function when it is
        selected, else by the process function; with neither selected (and at least one
        particle) the call fails before any particle is moved. */
    method Predict(dt: real, u: seq<real>) returns (error: Option<string>)
      requires Valid()
      modifies this
      ensures Valid() && count == old(count) && weights == old(weights)
      ensures error.Some? <==> count > 0 && !useCommandStateFunction && !useProcessFunction
      ensures error.Some? ==> particles == old(particles)
      ensures useCommandStateFunction ==>
        forall i :: 0 <= i < count ==> particles[i] == command(u, old(particles)[i], dt)
      ensures !useCommandStateFunction && useProcessFunction ==>
        forall i :: 0 <= i < count ==> particles[i] == process(old(particles)[i], dt)
      ensures process == old(process) && command == old(command) && likelihood == old(likelihood)
      ensures useProcessFunction == old(useProcessFunction)
      ensures useCommandStateFunction == old(useCommandStateFunction)
    {
      error := None;
      var i := 0;
      while i < count
        invariant count == old(count) && weights == old(weights)
        invariant 0 <= i <= count && |particles| == count
        invariant forall k :: i <= k < count ==> particles[k] == old(particles)[k]
        invariant useCommandStateFunction ==>
          forall k :: 0 <= k < i ==> particles[k] == command(u, old(particles)[k], dt)
        invariant !useCommandStateFunction && useProcessFunction ==>
          forall k :: 0 <= k < i ==> particles[k] == process(old(particles)[k], dt)
        invariant !useCommandStateFunction && !useProcessFunction ==> i == 0
        invariant process == old(process) && command == old(command) && likelihood == old(likelihood)
        invariant useProcessFunction == old(useProcessFunction)
        invariant useCommandStateFunction == old(useCommandStateFunction)
      {
        if useCommandStateFunction {
          particles := particles[i := command(u, particles[i], dt)];
        } else if useProcessFunction {
          particles := particles[i := process(particles[i], dt)];
        } else {
          return Some("vpParticleFilter has not been initialized before calling predict");
        }
        i := i + 1;
      }
    }

    /** updateMonothread: the weight of every particle becomes its likelihood for the
        measurement z; the particles are unchanged. */
    method Update(z: seq<real>)
      requires Valid()
      modifies this
      ensures Valid() && count == old(count) && particles == old(particles)
      ensures forall i :: 0 <= i < count ==> weights[i] == likelihood(particles[i], z)
      ensures process == old(process) && command == old(command) && likelihood == old(likelihood)
      ensures useProcessFunction == old(useProcessFunction)
      ensures useCommandStateFunction == old(useCommandStateFunction)
    {
      var i := 0;
      while i < count
        invariant count == old(count) && particles == old(particles)
        invariant 0 <= i <= count && |weights| == count
        invariant forall k :: 0 <= k < i ==> weights[k] == likelihood(particles[k], z)
        invariant process == old(process) && command == old(command) && likelihood == old(likelihood)
        invariant useProcessFunction == old(useProcessFunction)
        invariant useCommandStateFunction == old(useCommandStateFunction)
      {
        weights := weights[i := likelihood(particles[i], z)];
        i := i + 1;
      }
    }
  }
}
