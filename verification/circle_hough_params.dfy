/** The parameter bundle of vpCircleHoughTransform (vpCircleHoughTransformParameters): its two
    constructors, its JSON reading and writing, and the detector's setters, which store a value
    before they validate it.

    Single-precision floats are modelled as reals. The filtering/gradient type and the Canny
    backend type are held as the names of their enumerators: the conversions between these
    enumerations and their JSON strings belong to vpImageFilter, which is not part of this model. */
module CircleHoughParams {
  import opened Wrappers

  const IntMin: int := -0x8000_0000
  const IntMax: int := 0x7fff_ffff
  const UIntLimit: int := 0x1_0000_0000

  /** A C++ `int`. */
  type Int32 = x: int | IntMin <= x <= IntMax
  /** A C++ `unsigned int`. */
  type UInt32 = x: int | 0 <= x < UIntLimit

  /** The C++ conversion of a float to unsigned int: truncation toward zero, defined when the
      truncated value is representable, that is on (-1, 2^32). */
  function RadiusToUInt(radius: real): (r: UInt32)
    requires -1.0 < radius < UIntLimit as real
    ensures radius <= 0.0 ==> r == 0
    ensures radius >= 0.0 ==> r as real <= radius < r as real + 1.0
  {
    if radius < 0.0 then 0 else radius.Floor
  }

  /** `a % 2` in C++, where integer division truncates toward zero: the remainder takes the
      sign of the dividend. */
  function CppRem2(a: int): (r: int)
    ensures a >= 0 ==> 0 <= r < 2
    ensures a < 0 ==> -2 < r <= 0
    ensures (a - r) % 2 == 0
  {
    if a >= 0 then a % 2 else -((-a) % 2)
  }

  /** The test `(size % 2) != 1` of the source fails exactly for the accepted sizes. */
  predicate IsOddSize(size: int)
  {
    CppRem2(size) == 1
  }

  /** A kernel size passes the oddness test iff it is a positive odd number: a negative odd
      size has remainder -1 in C++ and is rejected. */
  lemma OddSizeIsPositiveOdd(size: int)
    ensures IsOddSize(size) <==> size > 0 && size % 2 == 1
  {
  }

  /** The conversion of an `unsigned int` into an `int` (two's complement wrap-around). */
  function UIntToInt32(u: UInt32): (i: Int32)
    ensures u <= IntMax ==> i == u
    ensures u > IntMax ==> i < 0 && i == u - UIntLimit
  {
    if u <= IntMax then u else u - UIntLimit
  }

  datatype Params = Params(
    filteringAndGradientType: string,
    gaussianKernelSize: Int32,
    gaussianStdev: real,
    gradientFilterKernelSize: Int32,
    lowerCannyThresh: real,
    upperCannyThresh: real,
    edgeMapFilteringNbIter: Int32,
    cannyBackendType: string,
    lowerCannyThreshRatio: real,
    upperCannyThreshRatio: real,
    centerXlimits: (Int32, Int32),
    centerYlimits: (Int32, Int32),
    minRadius: UInt32,
    maxRadius: UInt32,
    dilatationNbIter: Int32,
    centerThresh: real,
    circleProbaThresh: real,
    circlePerfectness: real,
    centerMinDist: real,
    mergingRadiusDiffThresh: real)

  /** What the JSON reader checks of a parameter bundle. */
  predicate Valid(p: Params)
  {
    IsOddSize(p.gaussianKernelSize) && p.gaussianStdev > 0.0 &&
    IsOddSize(p.gradientFilterKernelSize) && p.centerThresh > 0.0 &&
    0.0 < p.circlePerfectness <= 1.0 && p.centerMinDist > 0.0 &&
    p.mergingRadiusDiffThresh > 0.0 && p.minRadius <= p.maxRadius
  }

  function Min(a: int, b: int): int { if a <= b then a else b }
  function Max(a: int, b: int): int { if a <= b then b else a }

  /** The default constructor: Gaussian blur 5 / 1.0, Sobel 3, automatic Canny thresholds,
      unbounded centre limits, radii 0 to 1000, centre distance 15 and a merging radius
      threshold of 1.5 times that distance. */
  function DefaultParams(): (p: Params)
    ensures Valid(p)
    ensures p.mergingRadiusDiffThresh == 1.5 * p.centerMinDist
    ensures p.minRadius == 0 && p.maxRadius == 1000
    ensures p.centerXlimits == (IntMin, IntMax) && p.centerYlimits == (IntMin, IntMax)
  {
    var centerMinDist := 15.0;
    Params("CANNY_GBLUR_SOBEL_FILTERING", 5, 1.0, 3, -1.0, -1.0, 1, "CANNY_OPENCV_BACKEND", 0.6, 0.8,
           (IntMin, IntMax), (IntMin, IntMax), 0, 1000, 1, 50.0, 0.9, 0.9,
           centerMinDist, 1.5 * centerMinDist)
  }

  /** The full constructor stores the radius limits in order, whichever order they were given
      in, and every other argument as given (no validation). */
  function FullParams(
    gaussianKernelSize: Int32, gaussianStdev: real, gradientFilterKernelSize: Int32,
    lowerCannyThresh: real, upperCannyThresh: real, edgeMapFilterNbIter: Int32,
    centerXlimits: (Int32, Int32), centerYlimits: (Int32, Int32),
    minRadius: UInt32, maxRadius: UInt32, dilatationNbIter: Int32, centerThresh: real,
    circleProbabilityThresh: real, circlePerfectness: real, centerMinDistThresh: real,
    mergingRadiusDiffThresh: real, filteringAndGradientMethod: string, backendType: string,
    lowerCannyThreshRatio: real, upperCannyThreshRatio: real): (p: Params)
    ensures p.minRadius <= p.maxRadius
    ensures {p.minRadius, p.maxRadius} == {minRadius, maxRadius}
    ensures p.gaussianKernelSize == gaussianKernelSize && p.gradientFilterKernelSize == gradientFilterKernelSize
    ensures p.centerMinDist == centerMinDistThresh && p.mergingRadiusDiffThresh == mergingRadiusDiffThresh
  {
    Params(filteringAndGradientMethod, gaussianKernelSize, gaussianStdev, gradientFilterKernelSize,
           lowerCannyThresh, upperCannyThresh, edgeMapFilterNbIter, backendType,
           lowerCannyThreshRatio, upperCannyThreshRatio, centerXlimits, centerYlimits,
           Min(minRadius, maxRadius), Max(minRadius, maxRadius), dilatationNbIter, centerThresh,
           circleProbabilityThresh, circlePerfectness, centerMinDistThresh, mergingRadiusDiffThresh)
  }

  /** A parsed JSON object: one optional entry per key the reader looks up. */
  datatype HoughJson = HoughJson(
    filteringAndGradientType: Option<string>,
    gaussianKernelSize: Option<Int32>,
    gaussianStdev: Option<real>,
    gradientFilterKernelSize: Option<Int32>,
    cannyBackendType: Option<string>,
    lowerCannyThresh: Option<real>,
    lowerThresholdRatio: Option<real>,
    upperCannyThresh: Option<real>,
    upperThresholdRatio: Option<real>,
    edgeMapFilteringNbIter: Option<Int32>,
    centerXlimits: Option<(Int32, Int32)>,
    centerYlimits: Option<(Int32, Int32)>,
    radiusLimits: Option<(UInt32, UInt32)>,
    dilatationNbIter: Option<Int32>,
    centerThresh: Option<real>,
    circleProbabilityThreshold: Option<real>,
    circlePerfectnessThreshold: Option<real>,
    centerMinDistance: Option<real>,
    mergingRadiusDiffThresh: Option<real>)

  /** A JSON object with none of the keys. */
  const EmptyJson: HoughJson :=
    HoughJson(None, None, None, None, None, None, None, None, None, None, None, None, None,
              None, None, None, None, None, None)

  /** `j.value(key, current)`: the entry when present, the current value otherwise. */
  function ValueOr<T>(entry: Option<T>, current: T): T
  {
    if entry.Some? then entry.value else current
  }

  /** The bundle the reader builds before its checks: every present key replaces the current
      value, and the radius pair (present or current) is put in order. */
  function Merge(j: HoughJson, p: Params): (q: Params)
    ensures q.minRadius <= q.maxRadius
  {
    var radii := ValueOr(j.radiusLimits, (p.minRadius, p.maxRadius));
    Params(
      ValueOr(j.filteringAndGradientType, p.filteringAndGradientType),
      ValueOr(j.gaussianKernelSize, p.gaussianKernelSize),
      ValueOr(j.gaussianStdev, p.gaussianStdev),
      ValueOr(j.gradientFilterKernelSize, p.gradientFilterKernelSize),
      ValueOr(j.lowerCannyThresh, p.lowerCannyThresh),
      ValueOr(j.upperCannyThresh, p.upperCannyThresh),
      ValueOr(j.edgeMapFilteringNbIter, p.edgeMapFilteringNbIter),
      ValueOr(j.cannyBackendType, p.cannyBackendType),
      ValueOr(j.lowerThresholdRatio, p.lowerCannyThreshRatio),
      ValueOr(j.upperThresholdRatio, p.upperCannyThreshRatio),
      ValueOr(j.centerXlimits, p.centerXlimits),
      ValueOr(j.centerYlimits, p.centerYlimits),
      Min(radii.0, radii.1), Max(radii.0, radii.1),
      ValueOr(j.dilatationNbIter, p.dilatationNbIter),
      ValueOr(j.centerThresh, p.centerThresh),
      ValueOr(j.circleProbabilityThreshold, p.circleProbaThresh),
      ValueOr(j.circlePerfectnessThreshold, p.circlePerfectness),
      ValueOr(j.centerMinDistance, p.centerMinDist),
      ValueOr(j.mergingRadiusDiffThresh, p.mergingRadiusDiffThresh))
  }

  /** from_json: read the keys over the current bundle `p`, then check, in the source's order,
      the Gaussian kernel size, the standard deviation, the gradient kernel size, the centre
      vote threshold, the perfectness, the centre distance and the merging threshold. The first
      failed check is an error; the bundle being filled is then discarded by the caller. */
  function FromJson(j: HoughJson, p: Params): (r: Result<Params>)
    ensures r.Ok? <==> Valid(Merge(j, p))
    ensures r.Ok? ==> r.value == Merge(j, p)
  {
    var q := Merge(j, p);
    if !IsOddSize(q.gaussianKernelSize) then Err("Gaussian Kernel size should be odd.")
    else if q.gaussianStdev <= 0.0 then Err("Standard deviation should be > 0")
    else if !IsOddSize(q.gradientFilterKernelSize) then
      Err("Gradient filter kernel (Sobel or Scharr) size should be odd.")
    else if q.centerThresh <= 0.0 then Err("Votes thresholds for center detection must be positive.")
    else if q.circlePerfectness <= 0.0 || q.circlePerfectness > 1.0 then
      Err("Circle perfectness must be in the interval ] 0; 1].")
    else if q.centerMinDist <= 0.0 then Err("Centers minimum distance threshold must be positive.")
    else if q.mergingRadiusDiffThresh <= 0.0 then
      Err("Radius difference merging threshold must be positive.")
    else Ok(q)
  }

  /** Converting a JSON object into a bundle (`params = j`) default-constructs the bundle and
      reads the object over it, so every absent key takes its default value. */
  function ParamsFromJson(j: HoughJson): (r: Result<Params>)
    ensures r.Ok? ==> Valid(r.value)
    ensures r.Ok? && j.gaussianKernelSize.None? ==> r.value.gaussianKernelSize == 5
    ensures r.Ok? && j.radiusLimits.None? ==> r.value.minRadius == 0 && r.value.maxRadius == 1000
  {
    FromJson(j, DefaultParams())
  }

  /** to_json: every key present, the radius limits written as one pair. */
  function ToJson(p: Params): (j: HoughJson)
    ensures j.radiusLimits == Some((p.minRadius, p.maxRadius))
    ensures j.gaussianKernelSize.Some? && j.mergingRadiusDiffThresh.Some?
  {
    HoughJson(Some(p.filteringAndGradientType), Some(p.gaussianKernelSize), Some(p.gaussianStdev),
              Some(p.gradientFilterKernelSize), Some(p.cannyBackendType), Some(p.lowerCannyThresh),
              Some(p.lowerCannyThreshRatio), Some(p.upperCannyThresh), Some(p.upperCannyThreshRatio),
              Some(p.edgeMapFilteringNbIter), Some(p.centerXlimits), Some(p.centerYlimits),
              Some((p.minRadius, p.maxRadius)), Some(p.dilatationNbIter), Some(p.centerThresh),
              Some(p.circleProbaThresh), Some(p.circlePerfectness), Some(p.centerMinDist),
              Some(p.mergingRadiusDiffThresh))
  }

  /** A valid bundle written to JSON reads back as itself, whatever bundle it is read over. */
  lemma JsonRoundTrip(p: Params, q: Params)
    requires Valid(p)
    ensures FromJson(ToJson(p), q) == Ok(p)
  {
    assert Merge(ToJson(p), q) == p;
  }

  /** A bundle whose radius limits are out of order does not survive the round trip: the reader
      swaps them. */
  lemma JsonRoundTripReordersRadii(p: Params, q: Params)
    requires Valid(p.(minRadius := p.maxRadius, maxRadius := p.minRadius))
    requires p.minRadius > p.maxRadius
    ensures FromJson(ToJson(p), q) == Ok(p.(minRadius := p.maxRadius, maxRadius := p.minRadius))
  {
    assert Merge(ToJson(p), q) == p.(minRadius := p.maxRadius, maxRadius := p.minRadius);
  }

  /** Reading an empty object leaves a valid bundle unchanged, and rejects an invalid one. */
  lemma EmptyJsonKeepsParams(p: Params)
    ensures p.minRadius <= p.maxRadius ==> (FromJson(EmptyJson, p).Ok? <==> Valid(p))
    ensures Valid(p) ==> FromJson(EmptyJson, p) == Ok(p)
  {
    assert p.minRadius <= p.maxRadius ==> Merge(EmptyJson, p) == p;
  }

  /** The detector: it holds one parameter bundle, which its setters update. */
  class CircleHoughTransform {
    var algoParams: Params

    /** A detector with the default parameters. */
    constructor Default()
      ensures algoParams == DefaultParams()
    {
      algoParams := DefaultParams();
    }

    /** A detector with the given parameters. */
    constructor (params: Params)
      ensures algoParams == params
    {
      algoParams := params;
    }

    /** from_json on the detector: the object is converted into a fresh bundle, which replaces
        the current one only when every check passes. */
    method LoadJson(j: HoughJson) returns (error: Option<string>)
      modifies this
      ensures ParamsFromJson(j).Ok? ==> error == None && algoParams == ParamsFromJson(j).value
      ensures ParamsFromJson(j).Err? ==> error == Some(ParamsFromJson(j).error) && algoParams == old(algoParams)
    {
      var r := ParamsFromJson(j);
      if r.Err? {
        return Some(r.error);
      }
      algoParams := r.value;
      error := None;
    }

    /** setFilteringAndGradientType: stores the type (the gradient kernels it also rebuilds are
        not part of this model). */
    method SetFilteringAndGradientType(name: string)
      modifies this
      ensures algoParams == old(algoParams).(filteringAndGradientType := name)
    {
      algoParams := algoParams.(filteringAndGradientType := name);
    }

    /** setGaussianParameters: both values are stored first; the size is then checked for
        oddness and the deviation for positivity. */
    method SetGaussianParameters(kernelSize: Int32, stdev: real) returns (error: Option<string>)
      modifies this
      ensures algoParams == old(algoParams).(gaussianKernelSize := kernelSize, gaussianStdev := stdev)
      ensures error.None? <==> IsOddSize(kernelSize) && stdev > 0.0
    {
      algoParams := algoParams.(gaussianKernelSize := kernelSize, gaussianStdev := stdev);
      if !IsOddSize(algoParams.gaussianKernelSize) {
        return Some("Gaussian Kernel size should be odd.");
      }
      if algoParams.gaussianStdev <= 0.0 {
        return Some("Standard deviation should be > 0");
      }
      error := None;
    }

    /** setGradientFilterAperture: the unsigned size is stored in an `int` field, then checked;
        a size of 2^31 or more becomes negative and is rejected. */
    method SetGradientFilterAperture(apertureSize: UInt32) returns (error: Option<string>)
      modifies this
      ensures algoParams == old(algoParams).(gradientFilterKernelSize := UIntToInt32(apertureSize))
      ensures error.None? <==> apertureSize <= IntMax && apertureSize % 2 == 1
    {
      algoParams := algoParams.(gradientFilterKernelSize := UIntToInt32(apertureSize));
      OddSizeIsPositiveOdd(algoParams.gradientFilterKernelSize);
      if !IsOddSize(algoParams.gradientFilterKernelSize) {
        return Some("Gradient filter (Sobel or Scharr) Kernel size should be odd.");
      }
      error := None;
    }

    /** setCannyBackend. */
    method SetCannyBackend(name: string)
      modifies this
      ensures algoParams == old(algoParams).(cannyBackendType := name)
    {
      algoParams := algoParams.(cannyBackendType := name);
    }

    /** setCannyThreshold: no check; a negative value asks for automatic thresholds. */
    method SetCannyThreshold(lower: real, upper: real)
      modifies this
      ensures algoParams == old(algoParams).(lowerCannyThresh := lower, upperCannyThresh := upper)
    {
      algoParams := algoParams.(lowerCannyThresh := lower, upperCannyThresh := upper);
    }

    /** setCannyThresholdRatio: no check (the Canny detector it also updates is not part of
        this model). */
    method SetCannyThresholdRatio(lowerRatio: real, upperRatio: real)
      modifies this
      ensures algoParams == old(algoParams).(lowerCannyThreshRatio := lowerRatio, upperCannyThreshRatio := upperRatio)
    {
      algoParams := algoParams.(lowerCannyThreshRatio := lowerRatio, upperCannyThreshRatio := upperRatio);
    }

    /** setCircleCenterMinDist: stored, then rejected unless positive. */
    method SetCircleCenterMinDist(centerMinDist: real) returns (error: Option<string>)
      modifies this
      ensures algoParams == old(algoParams).(centerMinDist := centerMinDist)
      ensures error.None? <==> centerMinDist > 0.0
    {
      algoParams := algoParams.(centerMinDist := centerMinDist);
      if algoParams.centerMinDist <= 0.0 {
        return Some("Circles center min distance  must be positive.");
      }
      error := None;
    }

    /** setCircleCenterBoundingBox: no check, no reordering. */
    method SetCircleCenterBoundingBox(minX: Int32, maxX: Int32, minY: Int32, maxY: Int32)
      modifies this
      ensures algoParams == old(algoParams).(centerXlimits := (minX, maxX), centerYlimits := (minY, maxY))
    {
      algoParams := algoParams.(centerXlimits := (minX, maxX), centerYlimits := (minY, maxY));
    }

    /** setCircleMinRadius: the float is converted to an unsigned integer, truncating toward
        zero (so (-1, 0) gives 0; the source's cast is undefined at -1 and below, and at 2^32 and
        above); nothing keeps it below the maximum radius. */
    method SetCircleMinRadius(radius: real)
      requires -1.0 < radius < UIntLimit as real
      modifies this
      ensures algoParams == old(algoParams).(minRadius := RadiusToUInt(radius))
      ensures old(algoParams).maxRadius < RadiusToUInt(radius) ==> algoParams.minRadius > algoParams.maxRadius
    {
      algoParams := algoParams.(minRadius := RadiusToUInt(radius));
    }

    /** setCircleMaxRadius: converted like the minimum; nothing keeps it above the minimum. */
    method SetCircleMaxRadius(radius: real)
      requires -1.0 < radius < UIntLimit as real
      modifies this
      ensures algoParams == old(algoParams).(maxRadius := RadiusToUInt(radius))
      ensures RadiusToUInt(radius) < old(algoParams).minRadius ==> algoParams.minRadius > algoParams.maxRadius
    {
      algoParams := algoParams.(maxRadius := RadiusToUInt(radius));
    }

    /** setCirclePerfectness: stored, then rejected outside (0, 1]. */
    method SetCirclePerfectness(perfectness: real) returns (error: Option<string>)
      modifies this
      ensures algoParams == old(algoParams).(circlePerfectness := perfectness)
      ensures error.None? <==> 0.0 < perfectness <= 1.0
    {
      algoParams := algoParams.(circlePerfectness := perfectness);
      if algoParams.circlePerfectness <= 0.0 || algoParams.circlePerfectness > 1.0 {
        return Some("Circle perfectness must be in the interval ] 0; 1].");
      }
      error := None;
    }

    /** setCenterComputationParameters: both stored, then the vote threshold must be positive. */
    method SetCenterComputationParameters(dilatationRepet: Int32, centerThresh: real)
      returns (error: Option<string>)
      modifies this
      ensures algoParams == old(algoParams).(dilatationNbIter := dilatationRepet, centerThresh := centerThresh)
      ensures error.None? <==> centerThresh > 0.0
    {
      algoParams := algoParams.(dilatationNbIter := dilatationRepet, centerThresh := centerThresh);
      if algoParams.centerThresh <= 0.0 {
        return Some("Votes thresholds for center detection must be positive.");
      }
      error := None;
    }

    /** setRadiusRatioThreshold: stored, then rejected unless positive (a check the JSON reader
        does not make). */
    method SetRadiusRatioThreshold(radiusRatioThresh: real) returns (error: Option<string>)
      modifies this
      ensures algoParams == old(algoParams).(circleProbaThresh := radiusRatioThresh)
      ensures error.None? <==> radiusRatioThresh > 0.0
    {
      algoParams := algoParams.(circleProbaThresh := radiusRatioThresh);
      if algoParams.circleProbaThresh <= 0.0 {
        return Some("Radius ratio threshold must be > 0.");
      }
      error := None;
    }

    /** setRadiusMergingThresholds: stored, then rejected unless positive. */
    method SetRadiusMergingThresholds(radiusDifferenceThresh: real) returns (error: Option<string>)
      modifies this
      ensures algoParams == old(algoParams).(mergingRadiusDiffThresh := radiusDifferenceThresh)
      ensures error.None? <==> radiusDifferenceThresh > 0.0
    {
      algoParams := algoParams.(mergingRadiusDiffThresh := radiusDifferenceThresh);
      if algoParams.mergingRadiusDiffThresh <= 0.0 {
        return Some("Radius difference merging threshold must be positive.");
      }
      error := None;
    }
  }
}
