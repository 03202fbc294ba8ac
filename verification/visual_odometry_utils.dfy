/** The keypoint partition of the render-based visual odometry
    (vpRBVisualOdometryUtils::computeIndicesObjectAndEnvironment): each keypoint inside the
    rendered image is an object candidate when the render has depth there, an environment
    candidate otherwise, and is kept only when it is far enough from every silhouette point. */
module VisualOdometryUtils {
  import opened Wrappers

  /** An image of `height` rows of `width` values, as vpImage<float> holds them. */
  datatype Image = Image(height: nat, width: nat, rows: seq<seq<real>>)

  /** The rows match the declared size. */
  predicate Shaped(img: Image)
  {
    |img.rows| == img.height && forall r :: 0 <= r < |img.rows| ==> |img.rows[r]| == img.width
  }

  /** A keypoint row of the keypoint matrix: column 0 is u, column 1 is v. */
  datatype Keypoint = Keypoint(u: real, v: real)

  /** A silhouette point of the current frame, at row i and column j. */
  datatype SilhouettePoint = SilhouettePoint(i: nat, j: nat)

  /** What the tracker input provides: the rendered depth, an optional mask of the same size
      and the silhouette points. */
  datatype Frame = Frame(depth: Image, mask: Option<Image>, silhouette: seq<SilhouettePoint>)

  predicate FrameShaped(f: Frame)
  {
    Shaped(f.depth) &&
    (f.mask.Some? ==> Shaped(f.mask.value) && f.mask.value.height == f.depth.height && f.mask.value.width == f.depth.width)
  }

  function Sqr(x: real): real
  {
    x * x
  }

  /** The squared image distance from (u, v) to a silhouette point. */
  function EdgeDist2(u: real, v: real, p: SilhouettePoint): real
  {
    Sqr(p.i as real - v) + Sqr(p.j as real - u)
  }

  /** No silhouette point is at squared distance below `threshold` from (u, v). */
  predicate FarFromEdges(u: real, v: real, silhouette: seq<SilhouettePoint>, threshold: real)
  {
    forall k :: 0 <= k < |silhouette| ==> EdgeDist2(u, v, silhouette[k]) >= threshold
  }

  /** The edge test: scans the silhouette points and fails at the first one that is too close. */
  method TestDistanceEdge(u: real, v: real, silhouette: seq<SilhouettePoint>, threshold: real) returns (far: bool)
    ensures far <==> FarFromEdges(u, v, silhouette, threshold)
  {
    for k := 0 to |silhouette|
      invariant forall m :: 0 <= m < k ==> EdgeDist2(u, v, silhouette[m]) >= threshold
    {
      var p := silhouette[k];
      var dist2 := Sqr(p.i as real - v) + Sqr(p.j as real - u);
      if dist2 < threshold {
        return false;
      }
    }
    return true;
  }

  /** Where a keypoint goes. */
  datatype Side = Object | Environment | Neither

  /** The keypoint lies in [0, width) × [0, height). */
  predicate InImage(kp: Keypoint, img: Image)
  {
    0.0 <= kp.u < img.width as real && 0.0 <= kp.v < img.height as real
  }

  /** The mask is used when there is one and the confidence bound is positive. */
  predicate UseMask(f: Frame, minMaskConfidence: real)
  {
    f.mask.Some? && minMaskConfidence > 0.0
  }

  /** The side of one keypoint: pixels are read at the truncated coordinates; positive depth
      makes an object candidate, which also needs a mask value above the bound when the mask is
      used; either candidate is kept only away from the silhouette, each with its own squared
      threshold. */
  function Classify(kp: Keypoint, f: Frame, minMaskConfidence: real, thresholdObject: real, thresholdEnv: real): Side
    requires FrameShaped(f)
  {
    if !InImage(kp, f.depth) then Neither
    else
      var ui, vi := kp.u.Floor, kp.v.Floor;
      var z := f.depth.rows[vi][ui];
      if z > 0.0 then
        if (!UseMask(f, minMaskConfidence) || f.mask.value.rows[vi][ui] > minMaskConfidence) &&
           FarFromEdges(kp.u, kp.v, f.silhouette, thresholdObject)
        then Object
        else Neither
      else if FarFromEdges(kp.u, kp.v, f.silhouette, thresholdEnv) then Environment
      else Neither
  }

  /** The indices below n of the keypoints on side `s`, in order. */
  function SideRows(keypoints: seq<Keypoint>, f: Frame, minMaskConfidence: real, thresholdObject: real,
                    thresholdEnv: real, s: Side, n: nat): (r: seq<nat>)
    requires FrameShaped(f) && n <= |keypoints|
    ensures forall k :: 0 <= k < |r| ==> r[k] < n
  {
    if n == 0 then []
    else
      SideRows(keypoints, f, minMaskConfidence, thresholdObject, thresholdEnv, s, n - 1) +
      (if Classify(keypoints[n - 1], f, minMaskConfidence, thresholdObject, thresholdEnv) == s then [n - 1] else [])
  }

  predicate Increasing(s: seq<nat>)
  {
    forall a, b :: 0 <= a < b < |s| ==> s[a] < s[b]
  }

  /** SideRows is ascending and holds exactly the keypoints below n on side `s`. */
  lemma {:induction false} SideRowsExactly(keypoints: seq<Keypoint>, f: Frame, minMaskConfidence: real,
                                           thresholdObject: real, thresholdEnv: real, s: Side, n: nat)
    requires FrameShaped(f) && n <= |keypoints|
    ensures Increasing(SideRows(keypoints, f, minMaskConfidence, thresholdObject, thresholdEnv, s, n))
    ensures forall i :: i in SideRows(keypoints, f, minMaskConfidence, thresholdObject, thresholdEnv, s, n) <==>
      0 <= i < n && Classify(keypoints[i], f, minMaskConfidence, thresholdObject, thresholdEnv) == s
  {
    if n > 0 {
      SideRowsExactly(keypoints, f, minMaskConfidence, thresholdObject, thresholdEnv, s, n - 1);
    }
  }

  /** computeIndicesObjectAndEnvironment: one pass over the keypoints, pushing each index on the
      object or the environment list; the edge thresholds are the squares of the given minimum
      distances. */
  method ComputeIndicesObjectAndEnvironment(keypoints: seq<Keypoint>, f: Frame, minMaskConfidence: real,
                                            minEdgeDistObject: real, minEdgeDistEnv: real)
    returns (objIndices: seq<nat>, envIndices: seq<nat>)
    requires FrameShaped(f)
    ensures objIndices == SideRows(keypoints, f, minMaskConfidence, Sqr(minEdgeDistObject), Sqr(minEdgeDistEnv), Object, |keypoints|)
    ensures envIndices == SideRows(keypoints, f, minMaskConfidence, Sqr(minEdgeDistObject), Sqr(minEdgeDistEnv), Environment, |keypoints|)
  {
    objIndices, envIndices := [], [];
    var h, w := f.depth.height, f.depth.width;
    var useMask := f.mask.Some? && minMaskConfidence > 0.0;
    var thresholdObject, thresholdEnv := Sqr(minEdgeDistObject), Sqr(minEdgeDistEnv);
    for i := 0 to |keypoints|
      invariant objIndices == SideRows(keypoints, f, minMaskConfidence, thresholdObject, thresholdEnv, Object, i)
      invariant envIndices == SideRows(keypoints, f, minMaskConfidence, thresholdObject, thresholdEnv, Environment, i)
    {
      var u, v := keypoints[i].u, keypoints[i].v;
      if u < 0.0 || v < 0.0 || u >= w as real || v >= h as real {
        continue;
      }
      var ui, vi := u.Floor, v.Floor;
      var z := f.depth.rows[vi][ui];
      if z > 0.0 {
        if !useMask || f.mask.value.rows[vi][ui] > minMaskConfidence {
          var notTooCloseToEdge := TestDistanceEdge(u, v, f.silhouette, thresholdObject);
          if notTooCloseToEdge {
            objIndices := objIndices + [i];
          }
        }
      } else {
        var notTooCloseToEdge := TestDistanceEdge(u, v, f.silhouette, thresholdEnv);
        if notTooCloseToEdge {
          envIndices := envIndices + [i];
        }
      }
    }
  }

  /** The two lists are ascending and disjoint; together they hold only in-image keypoints. */
  lemma Partition(keypoints: seq<Keypoint>, f: Frame, minMaskConfidence: real, thresholdObject: real, thresholdEnv: real)
    requires FrameShaped(f)
    ensures var obj := SideRows(keypoints, f, minMaskConfidence, thresholdObject, thresholdEnv, Object, |keypoints|);
            var env := SideRows(keypoints, f, minMaskConfidence, thresholdObject, thresholdEnv, Environment, |keypoints|);
            Increasing(obj) && Increasing(env) &&
            (forall i :: !(i in obj && i in env)) &&
            (forall i :: i in obj || i in env ==> 0 <= i < |keypoints| && InImage(keypoints[i], f.depth))
  {
    SideRowsExactly(keypoints, f, minMaskConfidence, thresholdObject, thresholdEnv, Object, |keypoints|);
    SideRowsExactly(keypoints, f, minMaskConfidence, thresholdObject, thresholdEnv, Environment, |keypoints|);
  }

  /** An object keypoint has positive rendered depth, passes the mask when it is used and is at
      squared distance at least thresholdObject from every silhouette point; an environment
      keypoint has no positive depth and clears thresholdEnv. */
  lemma Membership(keypoints: seq<Keypoint>, f: Frame, minMaskConfidence: real, thresholdObject: real,
                   thresholdEnv: real, i: nat)
    requires FrameShaped(f) && i < |keypoints| && InImage(keypoints[i], f.depth)
    ensures var kp := keypoints[i];
            var z := f.depth.rows[kp.v.Floor][kp.u.Floor];
            (i in SideRows(keypoints, f, minMaskConfidence, thresholdObject, thresholdEnv, Object, |keypoints|) <==>
               z > 0.0 && (UseMask(f, minMaskConfidence) ==> f.mask.value.rows[kp.v.Floor][kp.u.Floor] > minMaskConfidence) &&
               FarFromEdges(kp.u, kp.v, f.silhouette, thresholdObject)) &&
            (i in SideRows(keypoints, f, minMaskConfidence, thresholdObject, thresholdEnv, Environment, |keypoints|) <==>
               z <= 0.0 && FarFromEdges(kp.u, kp.v, f.silhouette, thresholdEnv))
  {
    SideRowsExactly(keypoints, f, minMaskConfidence, thresholdObject, thresholdEnv, Object, |keypoints|);
    SideRowsExactly(keypoints, f, minMaskConfidence, thresholdObject, thresholdEnv, Environment, |keypoints|);
  }
}
