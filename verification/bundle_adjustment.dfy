/** vpRBBundleAdjustment: the bookkeeping of the bundle adjustment run by the visual
    odometry. The optimisation vector holds 6 pose parameters per camera followed by 3
    coordinates per map point seen by at least one camera; each camera contributes two
    residuals (x and y reprojection errors) per used observation. */
module BundleAdjustment {
  import PM = PointMap

  function Coords(p: PM.Point3): seq<real>
  {
    [p.x, p.y, p.z]
  }

  predicate NonDecreasing(s: seq<nat>)
  {
    forall a, b :: 0 <= a < b < |s| ==> s[a] <= s[b]
  }

  /** The 6 pose parameters of camera c in the optimisation vector. */
  function CameraBlock(params: seq<real>, cameraIndex: nat): seq<real>
    requires 6 * cameraIndex + 6 <= |params|
  {
    params[6 * cameraIndex .. 6 * cameraIndex + 6]
  }

  /** The 3 coordinates of the point in view slot v, after the camera blocks. */
  function PointBlock(params: seq<real>, numCameras: nat, view: nat): seq<real>
    requires 6 * numCameras + 3 * view + 3 <= |params|
  {
    params[6 * numCameras + 3 * view .. 6 * numCameras + 3 * view + 3]
  }

  // ---------------------------------------------------------------------------
  // setUsedObservationsFrom3DIndices
  // ---------------------------------------------------------------------------

  /** The inner scan: the first observation at or after obs that sees point p, or
      |indices3d| when there is none. */
  function Advance(indices3d: seq<nat>, p: nat, obs: nat): (o: nat)
    requires obs <= |indices3d|
    ensures obs <= o <= |indices3d|
    ensures o < |indices3d| ==> indices3d[o] == p
    ensures forall q :: obs <= q < o ==> indices3d[q] != p
    decreases |indices3d| - obs
  {
    if obs == |indices3d| || indices3d[obs] == p then obs else Advance(indices3d, p, obs + 1)
  }

  /** The observations the two-pointer loop selects for points3d[i..], the observation
      cursor starting at obs. The cursor never moves back, and a requested point that the
      camera does not see moves it to the end. */
  function MatchedFrom(indices3d: seq<nat>, points3d: seq<nat>, i: nat, obs: nat): seq<nat>
    requires i <= |points3d| && obs <= |indices3d|
    decreases |points3d| - i
  {
    if i == |points3d| then []
    else
      var o := Advance(indices3d, points3d[i], obs);
      (if o < |indices3d| then [o] else []) + MatchedFrom(indices3d, points3d, i + 1, o)
  }

  /** No point is requested twice from position i on. */
  predicate DistinctFrom(points3d: seq<nat>, i: nat)
  {
    forall a, b :: i <= a < b < |points3d| ==> points3d[a] != points3d[b]
  }

  /** At most one observation per requested point, each seeing a requested point. */
  lemma {:induction false} MatchedBounds(indices3d: seq<nat>, points3d: seq<nat>, i: nat, obs: nat)
    requires i <= |points3d| && obs <= |indices3d|
    decreases |points3d| - i
    ensures var r := MatchedFrom(indices3d, points3d, i, obs);
      |r| <= |points3d| - i &&
      forall k :: 0 <= k < |r| ==> obs <= r[k] < |indices3d| && indices3d[r[k]] in points3d[i..]
  {
    if i < |points3d| {
      var o := Advance(indices3d, points3d[i], obs);
      MatchedBounds(indices3d, points3d, i + 1, o);
      assert points3d[i..] == [points3d[i]] + points3d[i + 1..];
    }
  }

  /** The selected observations come in non-decreasing order, and in increasing order when
      the requested points are distinct. */
  lemma {:induction false} MatchedOrder(indices3d: seq<nat>, points3d: seq<nat>, i: nat, obs: nat)
    requires i <= |points3d| && obs <= |indices3d|
    decreases |points3d| - i
    ensures NonDecreasing(MatchedFrom(indices3d, points3d, i, obs))
    ensures DistinctFrom(points3d, i) ==> PM.Increasing(MatchedFrom(indices3d, points3d, i, obs))
  {
    if i < |points3d| {
      var o := Advance(indices3d, points3d[i], obs);
      MatchedOrder(indices3d, points3d, i + 1, o);
      MatchedBounds(indices3d, points3d, i + 1, o);
      var rest := MatchedFrom(indices3d, points3d, i + 1, o);
      assert MatchedFrom(indices3d, points3d, i, obs) == (if o < |indices3d| then [o] else []) + rest;
      if o < |indices3d| {
        var r := [o] + rest;
        assert forall k :: 0 < k < |r| ==> r[k] == rest[k - 1];
        if DistinctFrom(points3d, i) {
          assert points3d[i] !in points3d[i + 1..] by {
            forall a | i + 1 <= a < |points3d|
              ensures points3d[a] != points3d[i]
            {
            }
          }
          forall k | 0 <= k < |rest|
            ensures o < rest[k]
          {
            assert indices3d[rest[k]] in points3d[i + 1..];
          }
        }
      }
    }
  }

  /** The observations, in ascending order, among the first n whose point is requested. */
  function ObservationsOf(indices3d: seq<nat>, points3d: seq<nat>, n: nat): (r: seq<nat>)
    requires n <= |indices3d|
    ensures forall k :: 0 <= k < |r| ==> r[k] < n
  {
    if n == 0 then []
    else ObservationsOf(indices3d, points3d, n - 1) + (if indices3d[n - 1] in points3d then [n - 1] else [])
  }

  /** ObservationsOf is ascending and holds exactly the observations of requested points. */
  lemma {:induction false} ObservationsOfExactly(indices3d: seq<nat>, points3d: seq<nat>, n: nat)
    requires n <= |indices3d|
    ensures PM.Increasing(ObservationsOf(indices3d, points3d, n))
    ensures forall o :: o in ObservationsOf(indices3d, points3d, n) <==> 0 <= o < n && indices3d[o] in points3d
  {
    if n > 0 {
      ObservationsOfExactly(indices3d, points3d, n - 1);
    }
  }

  /** A camera observing points [1, 3], asked for points [2, 3]: the search for point 2 runs
      the cursor to the end, so the observation of point 3 is never selected. */
  lemma AsWrittenMissesObservation()
    ensures MatchedFrom([1, 3], [2, 3], 0, 0) == []
    ensures ObservationsOf([1, 3], [2, 3], 2) == [1]
  {
    var indices3d: seq<nat> := [1, 3];
    var points3d: seq<nat> := [2, 3];
    assert Advance(indices3d, 2, 0) == 2;
    assert Advance(indices3d, 3, 2) == 2;
    assert MatchedFrom(indices3d, points3d, 1, 2) == [];
    assert 1 !in points3d && 3 in points3d;
    assert ObservationsOf(indices3d, points3d, 1) == [];
  }

  // ---------------------------------------------------------------------------
  // The Jacobian sparsity pattern
  // ---------------------------------------------------------------------------

  /** The columns of the camera's pose block. */
  predicate InCameraBlock(cameraIndex: nat, column: nat)
  {
    6 * cameraIndex <= column < 6 * cameraIndex + 6
  }

  /** A residual pair depends on the camera's pose block and on the 3 columns of its point. */
  predicate InPattern(cameraIndex: nat, numCameras: nat, view: nat, column: nat)
  {
    InCameraBlock(cameraIndex, column) || 6 * numCameras + 3 * view <= column < 6 * numCameras + 3 * view + 3
  }

  /** As written, only the first column of the point block is marked. */
  predicate InPatternAsWritten(cameraIndex: nat, numCameras: nat, view: nat, column: nat)
  {
    InCameraBlock(cameraIndex, column) || column == 6 * numCameras + 3 * view
  }

  /** The marked pattern misses the y and z columns of every point block. */
  lemma AsWrittenMissesPointColumns(cameraIndex: nat, numCameras: nat, view: nat, d: nat)
    requires cameraIndex < numCameras && 1 <= d < 3
    ensures InPattern(cameraIndex, numCameras, view, 6 * numCameras + 3 * view + d)
    ensures !InPatternAsWritten(cameraIndex, numCameras, view, 6 * numCameras + 3 * view + d)
  {
  }

  // ---------------------------------------------------------------------------
  // MapIndexView
  // ---------------------------------------------------------------------------

  /** Inserts x into an ascending sequence, keeping it ascending and without repetition. */
  function Insert(s: seq<nat>, x: nat): (r: seq<nat>)
    requires PM.Increasing(s)
    ensures PM.Increasing(r)
    ensures forall y :: y in r <==> y in s || y == x
    decreases |s|
  {
    if s == [] then [x]
    else if x == s[0] then s
    else if x < s[0] then [x] + s
    else
      var rest := Insert(s[1..], x);
      assert forall k :: 0 <= k < |rest| ==> s[0] < rest[k] by {
        forall k | 0 <= k < |rest|
          ensures s[0] < rest[k]
        {
          assert rest[k] in rest;
        }
      }
      [s[0]] + rest
  }

  function Elements(s: seq<nat>): set<nat>
  {
    set p | p in s
  }

  /** A strictly increasing sequence has as many distinct elements as entries. */
  lemma {:induction false} ElementsOfIncreasing(s: seq<nat>)
    requires PM.Increasing(s)
    ensures |Elements(s)| == |s|
  {
    if s != [] {
      var t := s[..|s| - 1];
      assert s == t + [s[|s| - 1]];
      assert PM.Increasing(t);
      ElementsOfIncreasing(t);
      assert s[|s| - 1] !in Elements(t);
      assert Elements(s) == Elements(t) + {s[|s| - 1]};
    }
  }

  /** {0, .., n-1}. */
  function Range(n: nat): set<nat>
  {
    if n == 0 then {} else Range(n - 1) + {n - 1}
  }

  lemma {:induction false} RangeShape(n: nat)
    ensures |Range(n)| == n
    ensures forall v: nat :: v in Range(n) <==> v < n
  {
    if n > 0 {
      RangeShape(n - 1);
      assert n - 1 !in Range(n - 1);
    }
  }

  /** The points seen by the first n cameras. */
  function PointsOf(cameras: seq<CameraData>, n: nat): set<nat>
    requires n <= |cameras|
    reads cameras
  {
    if n == 0 then {} else PointsOf(cameras, n - 1) + Elements(cameras[n - 1].indices3d)
  }

  /** Associates each point seen by some camera with a slot of the optimisation vector. */
  class MapIndexView {
    var pointToView: map<nat, nat>
    var viewToPoint: map<nat, nat>

    constructor()
      ensures pointToView == map[] && viewToPoint == map[]
    {
      pointToView := map[];
      viewToPoint := map[];
    }

    /** numPoints: the number of points in the view; in a consistent view the slots are
        exactly 0 .. NumPoints()-1. */
    function NumPoints(): (n: nat)
      reads this
      ensures n == |pointToView|
      ensures Bijective() && Ordered() ==> forall v: nat :: v in viewToPoint <==> v < n
    {
      |pointToView|
    }

    /** The two maps are mutual inverses. */
    predicate Bijective()
      reads this
    {
      Inverse(pointToView, viewToPoint)
    }

    /** The slots are 0 .. NumPoints()-1 and follow the order of the point indices. */
    ghost predicate Ordered()
      reads this
    {
      SlotsInOrder(pointToView, viewToPoint)
    }

    /** update: the points seen by any camera, in ascending order, get the slots 0 .. n-1. */
    method Update(cameras: seq<CameraData>)
      modifies this
      ensures pointToView.Keys == PointsOf(cameras, |cameras|)
      ensures Bijective() && Ordered()
    {
      var sorted := UsedPointIndices(cameras);
      pointToView, viewToPoint := NumberInOrder(sorted);
      assert pointToView.Keys == PointsOf(cameras, |cameras|);
    }
  }

  /** Numbers an ascending sequence of points: point sorted[i] gets slot i. */
  method NumberInOrder(sorted: seq<nat>) returns (pointToView: map<nat, nat>, viewToPoint: map<nat, nat>)
    requires PM.Increasing(sorted)
    ensures forall p :: p in pointToView <==> p in sorted
    ensures Inverse(pointToView, viewToPoint) && SlotsInOrder(pointToView, viewToPoint)
  {
    pointToView := map[];
    viewToPoint := map[];
    for i := 0 to |sorted|
      invariant forall v: nat :: v in viewToPoint <==> v < i
      invariant forall v :: 0 <= v < i ==> viewToPoint[v] == sorted[v]
      invariant forall p :: p in pointToView <==> p in sorted[..i]
      invariant forall v :: 0 <= v < i ==> pointToView[sorted[v]] == v
    {
      assert sorted[..i + 1] == sorted[..i] + [sorted[i]];
      viewToPoint := viewToPoint[i := sorted[i]];
      pointToView := pointToView[sorted[i] := i];
    }
    assert sorted[..|sorted|] == sorted;
    assert pointToView.Keys == Elements(sorted);
    ElementsOfIncreasing(sorted);
    RangeShape(|sorted|);
    assert viewToPoint.Keys == Range(|sorted|);
    SlotsOfAscending(sorted, pointToView, viewToPoint);
  }

  /** The two maps are mutual inverses. */
  predicate Inverse(pointToView: map<nat, nat>, viewToPoint: map<nat, nat>)
  {
    (forall v :: v in viewToPoint ==> viewToPoint[v] in pointToView && pointToView[viewToPoint[v]] == v) &&
    (forall p :: p in pointToView ==> pointToView[p] in viewToPoint && viewToPoint[pointToView[p]] == p)
  }

  /** As many slots as points, numbered 0 .. n-1, in the order of the point indices. */
  ghost predicate SlotsInOrder(pointToView: map<nat, nat>, viewToPoint: map<nat, nat>)
  {
    |viewToPoint| == |pointToView| &&
    (forall v: nat :: v in viewToPoint <==> v < |viewToPoint|) &&
    (forall a, b :: a in viewToPoint && b in viewToPoint && a < b ==> viewToPoint[a] < viewToPoint[b])
  }

  /** Numbering an ascending sequence of points in order gives inverse maps with ordered slots. */
  lemma SlotsOfAscending(sorted: seq<nat>, pointToView: map<nat, nat>, viewToPoint: map<nat, nat>)
    requires PM.Increasing(sorted)
    requires |viewToPoint| == |sorted| && |pointToView| == |sorted|
    requires forall v: nat :: v in viewToPoint <==> v < |sorted|
    requires forall v :: 0 <= v < |sorted| ==> viewToPoint[v] == sorted[v]
    requires forall p :: p in pointToView <==> p in sorted
    requires forall v :: 0 <= v < |sorted| ==> pointToView[sorted[v]] == v
    ensures Inverse(pointToView, viewToPoint) && SlotsInOrder(pointToView, viewToPoint)
  {
    forall p | p in pointToView
      ensures pointToView[p] in viewToPoint && viewToPoint[pointToView[p]] == p
    {
      var v :| 0 <= v < |sorted| && sorted[v] == p;
    }
  }

  /** The set of point indices seen by the cameras, as an ascending sequence. */
  method UsedPointIndices(cameras: seq<CameraData>) returns (sorted: seq<nat>)
    ensures PM.Increasing(sorted)
    ensures forall p :: p in sorted <==> p in PointsOf(cameras, |cameras|)
  {
    sorted := [];
    for c := 0 to |cameras|
      invariant PM.Increasing(sorted)
      invariant forall p :: p in sorted <==> p in PointsOf(cameras, c)
    {
      var cameraIndices := cameras[c].indices3d;
      for k := 0 to |cameraIndices|
        invariant PM.Increasing(sorted)
        invariant forall p :: p in sorted <==> p in PointsOf(cameras, c) || p in cameraIndices[..k]
      {
        assert cameraIndices[..k + 1] == cameraIndices[..k] + [cameraIndices[k]];
        sorted := Insert(sorted, cameraIndices[k]);
      }
      assert cameraIndices[..|cameraIndices|] == cameraIndices;
    }
  }

  // ---------------------------------------------------------------------------
  // CameraData
  // ---------------------------------------------------------------------------

  /** One camera of the problem: its pose (6 parameters), the map point seen by each
      observation, the observed normalised coordinates and the observations in use. */
  class CameraData {
    var pose: seq<real>
    var indices3d: seq<nat>
    var points2d: seq<PM.Point2>
    var usedObservations: seq<nat>

    /** numResiduals: two residuals (u and v) per used observation. */
    function NumResiduals(): (n: nat)
      reads this
      ensures n == 2 * |usedObservations|
    {
      2 * |usedObservations|
    }

    /** setUsedObservationsFrom3DIndices: for each requested point in turn, the cursor over
        the observations advances to the next one seeing that point, which is selected if
        found. */
    method SetUsedObservationsFrom3DIndices(points3d: seq<nat>)
      modifies this
      ensures pose == old(pose) && indices3d == old(indices3d) && points2d == old(points2d)
      ensures usedObservations == MatchedFrom(indices3d, points3d, 0, 0)
      ensures |usedObservations| <= |points3d|
      ensures forall k :: 0 <= k < |usedObservations| ==>
        usedObservations[k] < |indices3d| && indices3d[usedObservations[k]] in points3d
      ensures NonDecreasing(usedObservations)
      ensures PM.Distinct(points3d) ==> PM.Increasing(usedObservations)
    {
      var obsIndex := 0;
      var used: seq<nat> := [];
      for i := 0 to |points3d|
        invariant obsIndex <= |indices3d|
        invariant used + MatchedFrom(indices3d, points3d, i, obsIndex) == MatchedFrom(indices3d, points3d, 0, 0)
      {
        ghost var start := obsIndex;
        while obsIndex < |indices3d| && indices3d[obsIndex] != points3d[i]
          invariant start <= obsIndex <= |indices3d|
          invariant Advance(indices3d, points3d[i], obsIndex) == Advance(indices3d, points3d[i], start)
          decreases |indices3d| - obsIndex
        {
          obsIndex := obsIndex + 1;
        }
        if obsIndex < |indices3d| {
          used := used + [obsIndex];
        }
      }
      usedObservations := used;
      MatchedBounds(indices3d, points3d, 0, 0);
      MatchedOrder(indices3d, points3d, 0, 0);
      assert points3d[0..] == points3d;
      assert PM.Distinct(points3d) ==> DistinctFrom(points3d, 0);
    }

    /** The view slot of the point seen by observation k. */
    function ViewOf(mapView: MapIndexView, k: nat): nat
      requires k < |indices3d| && indices3d[k] in mapView.pointToView
      reads this, mapView
    {
      mapView.pointToView[indices3d[k]]
    }

    /** What error and fillJacobianSparsity need: every observation they visit has a point
        with a view slot inside the parameter vector. */
    predicate Indexable(mapView: MapIndexView, paramCount: nat, cameraIndex: nat, numCameras: nat)
      reads this, mapView
    {
      |usedObservations| <= |indices3d| && |usedObservations| <= |points2d| &&
      6 * cameraIndex + 6 <= paramCount &&
      forall k :: 0 <= k < |usedObservations| ==>
        indices3d[k] in mapView.pointToView && 6 * numCameras + 3 * mapView.pointToView[indices3d[k]] + 3 <= paramCount
    }

    /** Residual j of this camera (j < NumResiduals()): the x or y difference between the
        projection of the k-th observation's point, k = j / 2, and the k-th observation.
        The source walks the first |usedObservations| observations, not the used ones. */
    function Residual(mapView: MapIndexView, params: seq<real>, cameraIndex: nat, numCameras: nat,
                      project: (seq<real>, seq<real>) -> PM.Point2, j: nat): real
      requires Indexable(mapView, |params|, cameraIndex, numCameras) && j < NumResiduals()
      reads this, mapView
    {
      var k := j / 2;
      var r := project(CameraBlock(params, cameraIndex), PointBlock(params, numCameras, ViewOf(mapView, k)));
      if j % 2 == 0 then r.x - points2d[k].x else r.y - points2d[k].y
    }

    /** The residual of an observation reads only the columns its sparsity row marks: two
        parameter vectors that agree on those columns give the same residual. */
    lemma ResidualDependsOnPattern(mapView: MapIndexView, params: seq<real>, params': seq<real>, cameraIndex: nat,
                                   numCameras: nat, project: (seq<real>, seq<real>) -> PM.Point2, j: nat)
      requires |params| == |params'|
      requires Indexable(mapView, |params|, cameraIndex, numCameras) && j < NumResiduals()
      requires forall c :: 0 <= c < |params| && InPattern(cameraIndex, numCameras, ViewOf(mapView, j / 2), c) ==>
        params[c] == params'[c]
      ensures Residual(mapView, params, cameraIndex, numCameras, project, j) ==
              Residual(mapView, params', cameraIndex, numCameras, project, j)
    {
      var view := ViewOf(mapView, j / 2);
      assert CameraBlock(params, cameraIndex) == CameraBlock(params', cameraIndex) by {
        forall c | 6 * cameraIndex <= c < 6 * cameraIndex + 6
          ensures params[c] == params'[c]
        {
          assert InPattern(cameraIndex, numCameras, view, c);
        }
      }
      assert PointBlock(params, numCameras, view) == PointBlock(params', numCameras, view) by {
        forall c | 6 * numCameras + 3 * view <= c < 6 * numCameras + 3 * view + 3
          ensures params[c] == params'[c]
        {
          assert InPattern(cameraIndex, numCameras, view, c);
        }
      }
    }

    /** error: writes exactly the residuals [startResidual, startResidual + NumResiduals())
        of e, two per observation, and leaves the rest of e as it was. */
    method Error(mapView: MapIndexView, params: seq<real>, e: array<real>, cameraIndex: nat, numCameras: nat,
                 startResidual: nat, project: (seq<real>, seq<real>) -> PM.Point2)
      requires Indexable(mapView, |params|, cameraIndex, numCameras)
      requires startResidual + NumResiduals() <= e.Length
      modifies e
      ensures forall i :: 0 <= i < e.Length ==>
        e[i] == if startResidual <= i < startResidual + NumResiduals()
                then Residual(mapView, params, cameraIndex, numCameras, project, i - startResidual)
                else old(e[i])
    {
      var cp := CameraBlock(params, cameraIndex);
      var pointIndex := 0;
      var i := startResidual;
      while i < startResidual + NumResiduals()
        invariant i == startResidual + 2 * pointIndex && pointIndex <= |usedObservations|
        invariant forall q :: 0 <= q < e.Length ==>
          e[q] == if startResidual <= q < i
                  then Residual(mapView, params, cameraIndex, numCameras, project, q - startResidual)
                  else old(e[q])
        decreases startResidual + NumResiduals() - i
      {
        var pi := mapView.pointToView[indices3d[pointIndex]];
        var pp := PointBlock(params, numCameras, pi);
        var r := project(cp, pp);
        e[i] := r.x - points2d[pointIndex].x;
        e[i + 1] := r.y - points2d[pointIndex].y;
        assert (i - startResidual) / 2 == pointIndex && (i + 1 - startResidual) / 2 == pointIndex;
        pointIndex := pointIndex + 1;
        i := i + 2;
      }
    }

    /** Whether entry (row, column) of S is marked by fillJacobianSparsity: a row of a residual
        pair and a column that residual depends on. */
    predicate Marked(mapView: MapIndexView, cameraIndex: nat, numCameras: nat, startResidual: nat,
                              row: nat, column: nat)
      reads this, mapView
    {
      startResidual <= row < startResidual + NumResiduals() &&
      (row - startResidual) / 2 < |indices3d| && indices3d[(row - startResidual) / 2] in mapView.pointToView &&
      InPattern(cameraIndex, numCameras, ViewOf(mapView, (row - startResidual) / 2), column)
    }

    /** fillJacobianSparsity with the point column offset added: for each residual pair, marks
        the camera's 6 pose columns and the 3 columns of the point's block; every other entry of
        S is left as it was. */
    method FillJacobianSparsity(mapView: MapIndexView, S: array2<real>, cameraIndex: nat, numCameras: nat,
                                startResidual: nat)
      requires Indexable(mapView, S.Length1, cameraIndex, numCameras)
      requires startResidual + NumResiduals() <= S.Length0
      modifies S
      ensures forall r, c :: 0 <= r < S.Length0 && 0 <= c < S.Length1 ==>
        S[r, c] == if Marked(mapView, cameraIndex, numCameras, startResidual, r, c) then 1.0 else old(S[r, c])
    {
      var pointIndex := 0;
      var i := startResidual;
      while i < startResidual + NumResiduals()
        invariant i == startResidual + 2 * pointIndex && pointIndex <= |usedObservations|
        invariant forall r, c :: 0 <= r < S.Length0 && 0 <= c < S.Length1 ==>
          S[r, c] == if r < i && Marked(mapView, cameraIndex, numCameras, startResidual, r, c) then 1.0 else old(S[r, c])
        decreases startResidual + NumResiduals() - i
      {
        assert (i - startResidual) / 2 == pointIndex && (i + 1 - startResidual) / 2 == pointIndex;
        var pi := mapView.pointToView[indices3d[pointIndex]];
        for j := 0 to 6
          invariant forall r, c :: 0 <= r < S.Length0 && 0 <= c < S.Length1 ==>
            S[r, c] == if (r < i && Marked(mapView, cameraIndex, numCameras, startResidual, r, c)) ||
                          ((r == i || r == i + 1) && 6 * cameraIndex <= c < 6 * cameraIndex + j)
                       then 1.0 else old(S[r, c])
        {
          S[i, cameraIndex * 6 + j] := 1.0;
          S[i + 1, cameraIndex * 6 + j] := 1.0;
        }
        for j := 0 to 3
          invariant forall r, c :: 0 <= r < S.Length0 && 0 <= c < S.Length1 ==>
            S[r, c] == if (r < i && Marked(mapView, cameraIndex, numCameras, startResidual, r, c)) ||
                          ((r == i || r == i + 1) && (InCameraBlock(cameraIndex, c) || 6 * numCameras + 3 * pi <= c < 6 * numCameras + 3 * pi + j))
                       then 1.0 else old(S[r, c])
        {
          S[i, numCameras * 6 + pi * 3 + j] := 1.0;
          S[i + 1, numCameras * 6 + pi * 3 + j] := 1.0;
        }
        pointIndex := pointIndex + 1;
        i := i + 2;
      }
    }
  }

  /** The number of used observations of the first n cameras. */
  function UsedObservationCount(cameras: seq<CameraData>, n: nat): nat
    requires n <= |cameras|
    reads cameras
  {
    if n == 0 then 0 else UsedObservationCount(cameras, n - 1) + |cameras[n - 1].usedObservations|
  }

  // ---------------------------------------------------------------------------
  // The problem
  // ---------------------------------------------------------------------------

  class BundleAdjustment {
    var cameras: seq<CameraData>
    var mapView: MapIndexView
    var pointMap: PM.PointMap

    /** A problem over the given map with no camera yet. */
    constructor(pointMap: PM.PointMap)
      ensures this.pointMap == pointMap && cameras == [] && fresh(mapView)
      ensures mapView.pointToView == map[] && mapView.viewToPoint == map[]
    {
      this.pointMap := pointMap;
      cameras := [];
      mapView := new MapIndexView();
    }

    /** numCameras: one per camera added. */
    function NumCameras(): (n: nat)
      reads this
      ensures n == |cameras|
    {
      |cameras|
    }

    /** numPoints3d: the points of the view; in a consistent view, its slot count. */
    function NumPoints3d(): (n: nat)
      reads this, mapView
      ensures mapView.Bijective() && mapView.Ordered() ==> forall v: nat :: v in mapView.viewToPoint <==> v < n
    {
      mapView.NumPoints()
    }

    /** numParameters: 6 per camera and 3 per point in the view. */
    function NumParameters(): (n: nat)
      reads this, mapView
      ensures n == 6 * |cameras| + 3 * NumPoints3d()
    {
      NumCameras() * 6 + NumPoints3d() * 3
    }

    /** numResiduals: the sum over the cameras of two residuals per used observation. */
    method NumResiduals() returns (n: nat)
      ensures n == 2 * UsedObservationCount(cameras, |cameras|)
    {
      n := 0;
      for c := 0 to |cameras|
        invariant n == 2 * UsedObservationCount(cameras, c)
      {
        n := n + cameras[c].NumResiduals();
      }
    }

    /** asParamVector: the camera poses in camera order, then the coordinates of the point
        in each view slot, in slot order. */
    method AsParamVector() returns (params: seq<real>)
      requires forall c :: 0 <= c < |cameras| ==> |cameras[c].pose| == 6
      requires forall v :: 0 <= v < NumPoints3d() ==> v in mapView.viewToPoint && mapView.viewToPoint[v] < |pointMap.X|
      ensures |params| == NumParameters()
      ensures forall c :: 0 <= c < |cameras| ==> CameraBlock(params, c) == cameras[c].pose
      ensures forall v :: 0 <= v < NumPoints3d() ==>
        PointBlock(params, |cameras|, v) == Coords(pointMap.X[mapView.viewToPoint[v]])
    {
      var numUsedPoints := mapView.NumPoints();
      params := [];
      for c := 0 to |cameras|
        invariant |params| == 6 * c
        invariant forall c' :: 0 <= c' < c ==> CameraBlock(params, c') == cameras[c'].pose
      {
        params := params + cameras[c].pose;
        assert forall c' :: 0 <= c' <= c ==> CameraBlock(params, c') == params[6 * c' .. 6 * c' + 6];
      }
      var Xs := pointMap.X;
      for vpi := 0 to numUsedPoints
        invariant |params| == 6 * |cameras| + 3 * vpi
        invariant forall c :: 0 <= c < |cameras| ==> CameraBlock(params, c) == cameras[c].pose
        invariant forall v :: 0 <= v < vpi ==> PointBlock(params, |cameras|, v) == Coords(Xs[mapView.viewToPoint[v]])
      {
        var pi := mapView.viewToPoint[vpi];
        params := params + [Xs[pi].x, Xs[pi].y, Xs[pi].z];
      }
    }

    /** In a parameter vector laid out by asParamVector over a consistent view, the point
        block of the slot of point p holds p's coordinates. */
    lemma PointBlockOfPoint(params: seq<real>, p: nat)
      requires mapView.Bijective() && mapView.Ordered()
      requires p in mapView.pointToView && p < |pointMap.X|
      requires |params| == NumParameters()
      requires forall v :: 0 <= v < NumPoints3d() ==>
        (mapView.viewToPoint[v] < |pointMap.X| && PointBlock(params, |cameras|, v) == Coords(pointMap.X[mapView.viewToPoint[v]]))
      ensures mapView.pointToView[p] < NumPoints3d()
      ensures PointBlock(params, |cameras|, mapView.pointToView[p]) == Coords(pointMap.X[p])
    {
    }
  }
}
