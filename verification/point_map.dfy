/** vpPointMap: the world-frame point cloud kept by the visual-odometry part of the
    render-based tracker. The map is an N×3 matrix of points (one row per point) with a
    maximum size; it can project selected rows into a camera, keep the visible ones,
    flag outlier observations and replace rows by new points. */
module PointMap {
  import opened Wrappers

  datatype Point3 = Point3(x: real, y: real, z: real)

  /** A row of a two-column matrix: normalised coordinates (x, y) or pixel coordinates (u, v). */
  datatype Point2 = Point2(x: real, y: real)

  /** cTw: the rows of the rotation matrix R and the translation t. */
  datatype Pose = Pose(r0: Point3, r1: Point3, r2: Point3, t: Point3)

  const Identity: Pose := Pose(Point3(1.0, 0.0, 0.0), Point3(0.0, 1.0, 0.0), Point3(0.0, 0.0, 1.0), Point3(0.0, 0.0, 0.0))

  /** The projection models of vpCameraParameters. */
  datatype ProjectionModel = PerspectiveWithoutDistortion | PerspectiveWithDistortion | KannalaBrandtDistortion

  datatype Camera = Camera(px: real, py: real, u0: real, v0: real, model: ProjectionModel)

  /** The map's settings, fixed by the constructor. */
  datatype Settings = Settings(maxPoints: nat, minDistNewPoint: real, maxDepthError: real, outlierThreshold: real)

  /** The three results of the camera overload of project. */
  datatype Projection = Projection(cX: seq<Point3>, xs: seq<Option<Point2>>, uvs: seq<Option<Point2>>)

  // ---------------------------------------------------------------------------
  // Geometry
  // ---------------------------------------------------------------------------

  function Dot(a: Point3, b: Point3): real
  {
    a.x * b.x + a.y * b.y + a.z * b.z
  }

  /** R·p + t. */
  function Transform(cTw: Pose, p: Point3): Point3
  {
    Point3(Dot(cTw.r0, p) + cTw.t.x, Dot(cTw.r1, p) + cTw.t.y, Dot(cTw.r2, p) + cTw.t.z)
  }

  /** The identity pose leaves every point where it is. */
  lemma IdentityKeepsPoints(p: Point3)
    ensures Transform(Identity, p) == p
  {
  }

  /** A pose whose rotation is the identity only shifts the point by t. */
  lemma PureTranslationShifts(t: Point3, p: Point3)
    ensures Transform(Identity.(t := t), p) == Point3(p.x + t.x, p.y + t.y, p.z + t.z)
  {
  }

  /** (X/Z, Y/Z). A point with Z = 0 has no finite normalised coordinates (the division
      yields an infinity or NaN); the model marks it None. */
  function Normalize(p: Point3): (r: Option<Point2>)
    ensures r.Some? <==> p.z != 0.0
    ensures r.Some? ==> r.value.x * p.z == p.x && r.value.y * p.z == p.y
  {
    if p.z == 0.0 then None else Some(Point2(p.x / p.z, p.y / p.z))
  }

  /** The undistorted meter-to-pixel conversion u = u0 + x·px, v = v0 + y·py. */
  function ToPixel(cam: Camera, p: Point2): Point2
  {
    Point2(cam.u0 + p.x * cam.px, cam.v0 + p.y * cam.py)
  }

  /** With non-zero focal ratios the pixel conversion is undone by (u - u0)/px, (v - v0)/py. */
  lemma PixelConversionInvertible(cam: Camera, p: Point2)
    requires cam.px != 0.0 && cam.py != 0.0
    ensures var q := ToPixel(cam, p); (q.x - cam.u0) / cam.px == p.x && (q.y - cam.v0) / cam.py == p.y
  {
  }

  function Sqr(a: real): real
  {
    a * a
  }

  function Abs(a: real): real
  {
    if a < 0.0 then -a else a
  }

  // ---------------------------------------------------------------------------
  // Row selections
  // ---------------------------------------------------------------------------

  predicate Increasing(s: seq<int>)
  {
    forall a, b :: 0 <= a < b < |s| ==> s[a] < s[b]
  }

  predicate Distinct(s: seq<int>)
  {
    forall a, b :: 0 <= a < b < |s| ==> s[a] != s[b]
  }

  predicate InRange(indices: seq<int>, n: nat)
  {
    forall k :: 0 <= k < |indices| ==> 0 <= indices[k] < n
  }

  /** The rows of s named by indices, in the order of indices. */
  function Gather<T>(s: seq<T>, indices: seq<int>): (r: seq<T>)
    requires InRange(indices, |s|)
    ensures |r| == |indices|
    ensures forall k :: 0 <= k < |indices| ==> r[k] == s[indices[k]]
  {
    seq(|indices|, k requires 0 <= k < |indices| => s[indices[k]])
  }

  /** The squared pixel distance between a projection and its observation reaches thr². */
  predicate IsOutlier(uv: Point2, observation: Point2, thresholdSqr: real)
  {
    Sqr(uv.x - observation.x) + Sqr(uv.y - observation.y) >= thresholdSqr
  }

  /** The rows i < n whose projection is an outlier, in ascending order. */
  function OutlierRows(uvs: seq<Point2>, observations: seq<Point2>, thresholdSqr: real, n: nat): (r: seq<nat>)
    requires n <= |uvs| && n <= |observations|
    ensures forall k :: 0 <= k < |r| ==> r[k] < n
  {
    if n == 0 then []
    else
      OutlierRows(uvs, observations, thresholdSqr, n - 1) +
      (if IsOutlier(uvs[n - 1], observations[n - 1], thresholdSqr) then [n - 1] else [])
  }

  /** OutlierRows is ascending and holds exactly the outlier rows below n. */
  lemma {:induction false} OutlierRowsExactly(uvs: seq<Point2>, observations: seq<Point2>, thresholdSqr: real, n: nat)
    requires n <= |uvs| && n <= |observations|
    ensures Increasing(OutlierRows(uvs, observations, thresholdSqr, n))
    ensures forall i :: i in OutlierRows(uvs, observations, thresholdSqr, n) <==>
      0 <= i < n && IsOutlier(uvs[i], observations[i], thresholdSqr)
  {
    if n > 0 {
      OutlierRowsExactly(uvs, observations, thresholdSqr, n - 1);
    }
  }

  /** A row is kept when its pixel lies in the w×h image and its depth is within
      maxDepthError of the expected depth. */
  predicate IsVisible(h: nat, w: nat, p: Point3, uv: Point2, expectedZ: real, maxDepthError: real)
  {
    0.0 <= uv.x < w as real && 0.0 <= uv.y < h as real && Abs(p.z - expectedZ) <= maxDepthError
  }

  /** The visible rows i < n, in ascending order. */
  function VisibleRows(h: nat, w: nat, cX: seq<Point3>, uvs: seq<Point2>, expectedZ: seq<real>,
                       maxDepthError: real, n: nat): (r: seq<nat>)
    requires n <= |cX| && n <= |uvs| && n <= |expectedZ|
    ensures forall k :: 0 <= k < |r| ==> r[k] < n
  {
    if n == 0 then []
    else
      VisibleRows(h, w, cX, uvs, expectedZ, maxDepthError, n - 1) +
      (if IsVisible(h, w, cX[n - 1], uvs[n - 1], expectedZ[n - 1], maxDepthError) then [n - 1] else [])
  }

  /** VisibleRows is ascending and holds exactly the visible rows below n. */
  lemma {:induction false} VisibleRowsExactly(h: nat, w: nat, cX: seq<Point3>, uvs: seq<Point2>, expectedZ: seq<real>,
                                              maxDepthError: real, n: nat)
    requires n <= |cX| && n <= |uvs| && n <= |expectedZ|
    ensures Increasing(VisibleRows(h, w, cX, uvs, expectedZ, maxDepthError, n))
    ensures forall i :: i in VisibleRows(h, w, cX, uvs, expectedZ, maxDepthError, n) <==>
      0 <= i < n && IsVisible(h, w, cX[i], uvs[i], expectedZ[i], maxDepthError)
  {
    if n > 0 {
      VisibleRowsExactly(h, w, cX, uvs, expectedZ, maxDepthError, n - 1);
    }
  }

  // ---------------------------------------------------------------------------
  // The removal plan of updatePoints
  // ---------------------------------------------------------------------------

  /** The number of rows i < k that are marked for removal. */
  function Marked(toRemove: seq<nat>, k: nat): (r: nat)
    ensures r <= k
  {
    if k == 0 then 0 else Marked(toRemove, k - 1) + (if k - 1 in toRemove then 1 else 0)
  }

  function Unmarked(toRemove: seq<nat>, k: nat): nat
  {
    k - Marked(toRemove, k)
  }

  lemma {:induction false} MarkedAppend(s: seq<nat>, x: nat, k: nat)
    requires x !in s
    ensures Marked(s + [x], k) == Marked(s, k) + (if x < k then 1 else 0)
  {
    if k > 0 {
      MarkedAppend(s, x, k - 1);
      assert (k - 1 in s + [x]) <==> (k - 1 in s || k - 1 == x);
    }
  }

  /** n rows of which a list of distinct row indices is marked leave n - |toRemove| rows. */
  lemma {:induction false} UnmarkedRows(toRemove: seq<nat>, n: nat)
    requires Distinct(toRemove) && InRange(toRemove, n)
    ensures Unmarked(toRemove, n) == n - |toRemove|
  {
    if toRemove == [] {
      MarkedNone(n);
    } else {
      var s := toRemove[..|toRemove| - 1];
      var x := toRemove[|toRemove| - 1];
      assert toRemove == s + [x];
      assert x !in s by {
        forall k | 0 <= k < |s|
          ensures s[k] != x
        {
          assert toRemove[k] != toRemove[|toRemove| - 1];
        }
      }
      UnmarkedRows(s, n);
      MarkedAppend(s, x, n);
    }
  }

  lemma {:induction false} MarkedNone(k: nat)
    ensures Marked([], k) == 0
  {
    if k > 0 {
      MarkedNone(k - 1);
    }
  }

  /** How many more rows must go so that the new map fits in maxPoints rows. */
  function Excess(rows: nat, removeRows: nat, addRows: nat, maxPoints: nat): nat
  {
    if rows - removeRows + addRows > maxPoints then rows - removeRows + addRows - maxPoints else 0
  }

  /** The rows removed so far, the rows kept so far, and how many unmarked rows were dropped. */
  datatype Plan = Plan(removed: seq<nat>, kept: seq<nat>, dropped: nat)

  /** The decision for rows 0 .. k-1: a marked row is removed; an unmarked row is dropped
      while fewer than `extra` rows have been dropped; every other row is kept. */
  function PlanUpTo(toRemove: seq<nat>, extra: nat, k: nat): (p: Plan)
    ensures forall j :: 0 <= j < |p.kept| ==> p.kept[j] < k
  {
    if k == 0 then Plan([], [], 0)
    else
      var p := PlanUpTo(toRemove, extra, k - 1);
      if k - 1 in toRemove then p.(removed := p.removed + [k - 1])
      else if p.dropped < extra then Plan(p.removed + [k - 1], p.kept, p.dropped + 1)
      else p.(kept := p.kept + [k - 1])
  }

  function Min(a: nat, b: nat): nat
  {
    if a < b then a else b
  }

  /** The plan splits rows 0 .. k-1 into removed and kept rows, both ascending; it removes
      every marked row and drops min(extra, unmarked) further rows, each older than every
      kept row. */
  lemma {:induction false} PlanShape(toRemove: seq<nat>, extra: nat, k: nat)
    ensures var p := PlanUpTo(toRemove, extra, k);
      Increasing(p.removed) && Increasing(p.kept) &&
      (forall j :: 0 <= j < |p.removed| ==> p.removed[j] < k) &&
      (forall j :: 0 <= j < |p.kept| ==> p.kept[j] < k) &&
      (forall i :: 0 <= i < k ==> (i in p.removed <==> i !in p.kept)) &&
      (forall i :: 0 <= i < k && i in toRemove ==> i in p.removed) &&
      p.dropped == Min(extra, Unmarked(toRemove, k)) &&
      |p.kept| == Unmarked(toRemove, k) - p.dropped &&
      (forall a, b :: 0 <= a < |p.removed| && 0 <= b < |p.kept| && p.removed[a] !in toRemove ==>
         p.removed[a] < p.kept[b])
  {
    PlanOrder(toRemove, extra, k);
    PlanPartition(toRemove, extra, k);
    PlanCounts(toRemove, extra, k);
    PlanDropsOldest(toRemove, extra, k);
  }

  /** Both lists of the plan are ascending and hold rows below k. */
  lemma {:induction false} PlanOrder(toRemove: seq<nat>, extra: nat, k: nat)
    ensures var p := PlanUpTo(toRemove, extra, k);
      Increasing(p.removed) && Increasing(p.kept) &&
      (forall j :: 0 <= j < |p.removed| ==> p.removed[j] < k)
  {
    if k > 0 {
      PlanOrder(toRemove, extra, k - 1);
    }
  }

  /** Every row below k is in exactly one list, and every marked row is removed. */
  lemma {:induction false} PlanPartition(toRemove: seq<nat>, extra: nat, k: nat)
    ensures var p := PlanUpTo(toRemove, extra, k);
      (forall i :: 0 <= i < k ==> (i in p.removed <==> i !in p.kept)) &&
      (forall i :: 0 <= i < k && i in toRemove ==> i in p.removed)
  {
    if k > 0 {
      PlanPartition(toRemove, extra, k - 1);
      PlanOrder(toRemove, extra, k - 1);
      var p := PlanUpTo(toRemove, extra, k - 1);
      assert k - 1 !in p.removed && k - 1 !in p.kept;
    }
  }

  /** min(extra, unmarked) unmarked rows are dropped, and the other unmarked rows are kept. */
  lemma {:induction false} PlanCounts(toRemove: seq<nat>, extra: nat, k: nat)
    ensures var p := PlanUpTo(toRemove, extra, k);
      p.dropped == Min(extra, Unmarked(toRemove, k)) &&
      |p.kept| == Unmarked(toRemove, k) - p.dropped
  {
    if k > 0 {
      PlanCounts(toRemove, extra, k - 1);
    }
  }

  /** A dropped row is older than every kept row: rows are kept only once enough are dropped. */
  lemma {:induction false} PlanDropsOldest(toRemove: seq<nat>, extra: nat, k: nat)
    ensures var p := PlanUpTo(toRemove, extra, k);
      forall a, b :: 0 <= a < |p.removed| && 0 <= b < |p.kept| && p.removed[a] !in toRemove ==>
        p.removed[a] < p.kept[b]
  {
    if k > 0 {
      PlanDropsOldest(toRemove, extra, k - 1);
      PlanCounts(toRemove, extra, k - 1);
      PlanOrder(toRemove, extra, k - 1);
    }
  }

  /** After an update the map holds min(rows - removed + added, maxPoints) rows. */
  lemma UpdatedSize(rows: nat, toRemove: seq<nat>, addRows: nat, maxPoints: nat)
    requires Distinct(toRemove) && InRange(toRemove, rows) && addRows <= maxPoints
    ensures var p := PlanUpTo(toRemove, Excess(rows, |toRemove|, addRows, maxPoints), rows);
      |p.kept| + addRows == if rows - |toRemove| + addRows > maxPoints then maxPoints else rows - |toRemove| + addRows
  {
    UnmarkedRows(toRemove, rows);
    PlanShape(toRemove, Excess(rows, |toRemove|, addRows, maxPoints), rows);
  }

  // ---------------------------------------------------------------------------
  // updatePoints as written
  // ---------------------------------------------------------------------------

  /** vpMatrix::size() of the N×3 matrix of new points: rows × columns. */
  function PointsToAddSize(pointsToAdd: seq<Point3>): nat
  {
    3 * |pointsToAdd|
  }

  /** The new size as written: it subtracts removed rows but adds pointsToAdd.size(). */
  function NewSizeAsWritten(rows: nat, removeRows: nat, pointsToAdd: seq<Point3>): (r: int)
    ensures r - (rows - removeRows + |pointsToAdd|) == 2 * |pointsToAdd|
  {
    rows - removeRows + PointsToAddSize(pointsToAdd)
  }

  /** Whenever the new points fit, the size as written exceeds the rows the update fills by
      twice the number of new points. */
  lemma AsWrittenSizeOvercounts(rows: nat, toRemove: seq<nat>, pointsToAdd: seq<Point3>, maxPoints: nat)
    requires Distinct(toRemove) && InRange(toRemove, rows)
    requires rows - |toRemove| + |pointsToAdd| <= maxPoints
    ensures var p := PlanUpTo(toRemove, Excess(rows, |toRemove|, |pointsToAdd|, maxPoints), rows);
      NewSizeAsWritten(rows, |toRemove|, pointsToAdd) == |p.kept| + |pointsToAdd| + 2 * |pointsToAdd|
  {
    UnmarkedRows(toRemove, rows);
    UpdatedSize(rows, toRemove, |pointsToAdd|, maxPoints);
  }

  /** Adding one point to a two-row map with room for ten: the code sizes the new map at
      five rows (two of them never written), where the plan keeps both rows and adds one. */
  lemma AsWrittenSizeCountsCoordinates()
    ensures NewSizeAsWritten(2, 0, [Point3(1.0, 1.0, 1.0)]) == 5
    ensures |PlanUpTo([], Excess(2, 0, 1, 10), 2).kept| + 1 == 3
  {
    assert PlanUpTo([], 0, 1).kept == [0];
  }

  /** The loop that picks the oldest rows to drop, as written: i runs below shouldBeRemoved
      and a row counts as kept when it is below the next removed index. Reading past the
      end of the removed list (dereferencing end()) is undefined: None. */
  function StartingIndicesAsWritten(removed: seq<int>, shouldBeRemoved: int): (r: Option<seq<int>>)
    ensures r.Some? ==> Increasing(r.value) && forall k :: 0 <= k < |r.value| ==> 0 <= r.value[k] < shouldBeRemoved
    ensures r.Some? && Increasing(removed) ==> forall k :: 0 <= k < |r.value| ==> r.value[k] !in removed
    ensures shouldBeRemoved > 0 && removed == [] ==> r.None?
  {
    StartingFrom(removed, shouldBeRemoved, 0, 0)
  }

  function StartingFrom(removed: seq<int>, shouldBeRemoved: int, i: int, pos: nat): (r: Option<seq<int>>)
    ensures r.Some? ==> Increasing(r.value) && forall k :: 0 <= k < |r.value| ==> i <= r.value[k] < shouldBeRemoved
    ensures r.Some? && Increasing(removed) && pos <= |removed| && (forall q :: 0 <= q < pos ==> removed[q] < i) ==>
      forall k :: 0 <= k < |r.value| ==> r.value[k] !in removed
    decreases shouldBeRemoved - i
  {
    if i >= shouldBeRemoved then Some([])
    else if pos >= |removed| then None
    else if i < removed[pos] then
      match StartingFrom(removed, shouldBeRemoved, i + 1, pos)
      case None => None
      case Some(rest) => Some([i] + rest)
    else StartingFrom(removed, shouldBeRemoved, i + 1, pos + 1)
  }

  /** Three rows, row 0 removed, no point added, room for one: one more row must go
      (shouldBeRemoved is 1), but the loop only looks at row 0, finds it already removed and
      drops nothing, so two rows are copied into a one-row matrix; the plan drops row 1. With
      nothing removed at all (two rows, room for one) the loop reads the empty list's end(). */
  lemma AsWrittenStartDropsTooFew()
    ensures StartingIndicesAsWritten([0], 1) == Some([])
    ensures Excess(3, 1, 0, 1) == 1 && PlanUpTo([0], Excess(3, 1, 0, 1), 3).removed == [0, 1]
    ensures StartingIndicesAsWritten([], 1) == None
  {
    assert PlanUpTo([0], 1, 1) == Plan([0], [], 0);
    assert PlanUpTo([0], 1, 2) == Plan([0, 1], [], 1);
  }

  /** The push_front loop over startingIndices: each index goes to the front in turn. */
  function PushFrontAll(list: seq<int>, starting: seq<int>): (r: seq<int>)
    ensures |r| == |starting| + |list|
    ensures forall k :: 0 <= k < |starting| ==> r[k] == starting[|starting| - 1 - k]
    ensures r[|starting|..] == list
    decreases |starting|
  {
    if starting == [] then list else PushFrontAll([starting[0]] + list, starting[1..])
  }

  /** Four rows, row 3 removed, no point added, room for one (shouldBeRemoved is 2): the starting indices
      [0, 1] are pushed to the front one by one, so the list reads [1, 0, 3] and is no
      longer sorted; the copy loop then computes 0 - 2 in unsigned arithmetic. The plan
      removes rows [0, 1, 3] in ascending order. */
  lemma AsWrittenRemovedNotSorted()
    ensures StartingIndicesAsWritten([3], 2) == Some([0, 1])
    ensures PushFrontAll([3], [0, 1]) == [1, 0, 3] && !Increasing([1, 0, 3])
    ensures Excess(4, 1, 0, 1) == 2 && PlanUpTo([3], Excess(4, 1, 0, 1), 4).removed == [0, 1, 3]
  {
    StartingIndicesOfFourRows();
    PushFrontReverses();
    PlanOfFourRows();
  }

  lemma StartingIndicesOfFourRows()
    ensures StartingIndicesAsWritten([3], 2) == Some([0, 1])
  {
    var removed: seq<int> := [3];
    assert removed[0] == 3;
    assert StartingFrom(removed, 2, 2, 0) == Some([]);
    var rest := StartingFrom(removed, 2, 1, 0);
    assert rest == Some([1] + []);
    assert rest.value == [1];
    assert StartingFrom(removed, 2, 0, 0) == Some([0] + rest.value);
    assert [0] + rest.value == [0, 1];
  }

  lemma PushFrontReverses()
    ensures PushFrontAll([3], [0, 1]) == [1, 0, 3] && !Increasing([1, 0, 3])
  {
    assert PushFrontAll([0, 3], [1]) == [1, 0, 3];
    var l := [1, 0, 3];
    assert l[0] > l[1];
  }

  lemma PlanOfFourRows()
    ensures PlanUpTo([3], Excess(4, 1, 0, 1), 4).removed == [0, 1, 3]
  {
    PlanOfFourRowsMarkingLast([3], Excess(4, 1, 0, 1));
  }

  /** Four rows, the last one marked and two more to drop: rows 0 and 1 go with row 3. */
  lemma PlanOfFourRowsMarkingLast(marked: seq<nat>, extra: nat)
    requires marked == [3] && extra == 2
    ensures PlanUpTo(marked, extra, 4).removed == [0, 1, 3]
  {
    assert 0 !in marked && 1 !in marked && 2 !in marked && 3 in marked;
    var p0 := PlanUpTo(marked, extra, 0);
    assert p0 == Plan([], [], 0);
    var p1 := PlanUpTo(marked, extra, 1);
    assert p1 == Plan(p0.removed + [0], p0.kept, 1);
    var p2 := PlanUpTo(marked, extra, 2);
    assert p2 == Plan(p1.removed + [1], p1.kept, 2);
    var p3 := PlanUpTo(marked, extra, 3);
    assert p3 == p2.(kept := p2.kept + [2]);
    var p4 := PlanUpTo(marked, extra, 4);
    assert p4.removed == p3.removed + [3];
    assert p3.removed == [0, 1];
  }

  // ---------------------------------------------------------------------------
  // The map
  // ---------------------------------------------------------------------------

  class PointMap {
    /** N×3, the points expressed in the world frame. */
    var X: seq<Point3>
    var settings: Settings

    constructor(maxPoints: nat)
      ensures X == [] && settings == Settings(maxPoints, 0.01, 0.001, 50.0)
    {
      X := [];
      settings := Settings(maxPoints, 0.01, 0.001, 50.0);
    }

    /** getPoints: one row per index, X[i] = m_X[indices[i]]. */
    method GetPoints(indices: seq<int>) returns (points: seq<Point3>)
      requires InRange(indices, |X|)
      ensures |points| == |indices|
      ensures forall i :: 0 <= i < |indices| ==> points[i] == X[indices[i]]
    {
      points := [];
      for i := 0 to |indices|
        invariant |points| == i
        invariant forall k :: 0 <= k < i ==> points[k] == X[indices[k]]
      {
        points := points + [X[indices[i]]];
      }
    }

    /** project(indices, cTw, cX): one row per index, cX[i] = R·m_X[indices[i]] + t. */
    method Project(indices: seq<int>, cTw: Pose) returns (cX: seq<Point3>)
      requires InRange(indices, |X|)
      ensures |cX| == |indices|
      ensures forall i :: 0 <= i < |indices| ==> cX[i] == Transform(cTw, X[indices[i]])
      ensures cTw == Identity ==> cX == Gather(X, indices)
    {
      cX := [];
      for i := 0 to |indices|
        invariant |cX| == i
        invariant forall k :: 0 <= k < i ==> cX[k] == Transform(cTw, X[indices[k]])
      {
        cX := cX + [Transform(cTw, X[indices[i]])];
      }
      if cTw == Identity {
        forall k | 0 <= k < |indices|
          ensures cX[k] == X[indices[k]]
        {
          IdentityKeepsPoints(X[indices[k]]);
        }
      }
    }

    /** project(indices, cTw, cX, xs): the camera-frame points and their normalised
        coordinates, xs[i] = (X/Z, Y/Z) of cX[i]. */
    method ProjectNormalized(indices: seq<int>, cTw: Pose) returns (cX: seq<Point3>, xs: seq<Option<Point2>>)
      requires InRange(indices, |X|)
      ensures |cX| == |indices| == |xs|
      ensures forall i :: 0 <= i < |indices| ==> cX[i] == Transform(cTw, X[indices[i]])
      ensures forall i :: 0 <= i < |indices| ==> xs[i] == Normalize(cX[i])
    {
      cX := Project(indices, cTw);
      xs := [];
      for i := 0 to |cX|
        invariant |xs| == i
        invariant forall k :: 0 <= k < i ==> xs[k] == Normalize(cX[k])
      {
        xs := xs + [Normalize(cX[i])];
      }
    }

    /** project(cam, indices, cTw, cX, xs, uvs): only a camera without distortion is
        accepted; uvs[i] is the pixel of xs[i]. */
    method ProjectToPixels(cam: Camera, indices: seq<int>, cTw: Pose) returns (r: Result<Projection>)
      requires InRange(indices, |X|)
      ensures r.Err? <==> cam.model != PerspectiveWithoutDistortion
      ensures r.Ok? ==> |r.value.cX| == |r.value.xs| == |r.value.uvs| == |indices|
      ensures r.Ok? ==> forall i :: 0 <= i < |indices| ==>
        r.value.cX[i] == Transform(cTw, X[indices[i]]) && r.value.xs[i] == Normalize(r.value.cX[i]) &&
        r.value.uvs[i] == (if r.value.xs[i].Some? then Some(ToPixel(cam, r.value.xs[i].value)) else None)
    {
      if cam.model != PerspectiveWithoutDistortion {
        return Err("Only cameras without distortion are supported");
      }
      var cX, xs := ProjectNormalized(indices, cTw);
      var uvs := [];
      for i := 0 to |xs|
        invariant |uvs| == i
        invariant forall k :: 0 <= k < i ==> uvs[k] == (if xs[k].Some? then Some(ToPixel(cam, xs[k].value)) else None)
      {
        uvs := uvs + [if xs[i].Some? then Some(ToPixel(cam, xs[i].value)) else None];
      }
      r := Ok(Projection(cX, xs, uvs));
    }

    /** getVisiblePoints: appends to `indices` the rows, in ascending order, whose pixel lies
        in the w×h image and whose depth matches expectedZ within maxDepthError. */
    method GetVisiblePoints(h: nat, w: nat, cX: seq<Point3>, uvs: seq<Point2>, expectedZ: seq<real>, indices: seq<int>)
      returns (r: seq<int>)
      requires |uvs| >= |cX| && |expectedZ| >= |cX|
      ensures r == indices + VisibleRows(h, w, cX, uvs, expectedZ, settings.maxDepthError, |cX|)
    {
      r := indices;
      for i := 0 to |cX|
        invariant r == indices + VisibleRows(h, w, cX, uvs, expectedZ, settings.maxDepthError, i)
      {
        var u := uvs[i].x;
        var v := uvs[i].y;
        var Z := cX[i].z;
        if u < 0.0 || v < 0.0 || u >= w as real || v >= h as real {
          continue;
        }
        if Abs(Z - expectedZ[i]) > settings.maxDepthError {
          continue;
        }
        r := r + [i];
      }
    }

    /** getOutliers: a dimension error unless uvs and observations have as many rows;
        otherwise appends to `indices`, in row order, the original index of every row whose
        squared pixel error reaches outlierThreshold². */
    method GetOutliers(originalIndices: seq<int>, uvs: seq<Point2>, observations: seq<Point2>, indices: seq<int>)
      returns (r: Result<seq<int>>)
      requires |originalIndices| >= |uvs|
      ensures r.Err? <==> |uvs| != |observations|
      ensures r.Ok? ==>
        r.value == indices + Gather(originalIndices, OutlierRows(uvs, observations, Sqr(settings.outlierThreshold), |uvs|))
    {
      if |uvs| != |observations| {
        return Err("Uvs and observations should have same number of rows");
      }
      var thresholdSqr := Sqr(settings.outlierThreshold);
      var found := indices;
      for i := 0 to |uvs|
        invariant found == indices + Gather(originalIndices, OutlierRows(uvs, observations, thresholdSqr, i))
      {
        var error := Sqr(uvs[i].x - observations[i].x) + Sqr(uvs[i].y - observations[i].y);
        if error >= thresholdSqr {
          found := found + [originalIndices[i]];
        }
      }
      r := Ok(found);
    }

    /** updatePoints: removes the listed rows and, when the result would exceed maxPoints,
        the oldest remaining rows as well; the kept rows stay in order and the new points
        follow them. Returns the removed row indices in ascending order. */
    method UpdatePoints(indicesToRemove: seq<nat>, pointsToAdd: seq<Point3>) returns (removedIndices: seq<nat>)
      requires Distinct(indicesToRemove) && InRange(indicesToRemove, |X|)
      requires |pointsToAdd| <= settings.maxPoints
      modifies this
      ensures settings == old(settings)
      ensures var plan := PlanUpTo(indicesToRemove, Excess(|old(X)|, |indicesToRemove|, |pointsToAdd|, settings.maxPoints), |old(X)|);
        removedIndices == plan.removed && X == Gather(old(X), plan.kept) + pointsToAdd
    {
      var n := |X|;
      var newSize := n - |indicesToRemove| + |pointsToAdd|;
      var extra: nat := 0;
      if newSize > settings.maxPoints {
        extra := newSize - settings.maxPoints;
      }
      var removed: seq<nat> := [];
      ghost var kept: seq<nat> := [];
      var dropped := 0;
      var newX: seq<Point3> := [];
      for i := 0 to n
        invariant Plan(removed, kept, dropped) == PlanUpTo(indicesToRemove, extra, i)
        invariant |newX| == |kept|
        invariant forall k :: 0 <= k < |kept| ==> kept[k] < i && newX[k] == X[kept[k]]
      {
        if i in indicesToRemove {
          removed := removed + [i];
        } else if dropped < extra {
          removed := removed + [i];
          dropped := dropped + 1;
        } else {
          kept := kept + [i];
          newX := newX + [X[i]];
        }
      }
      X := newX + pointsToAdd;
      removedIndices := removed;
    }
  }
}
