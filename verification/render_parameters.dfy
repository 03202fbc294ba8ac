/** The rendering parameters of the Panda3D simulator (vpPanda3DRenderParameters): the camera
    intrinsics, the image resolution and the near and far clipping distances. */
module Panda3DRender {
  import opened Wrappers

  /** An unsigned int. */
  newtype UInt32 = x: int | 0 <= x < 0x1_0000_0000

  /** The projection models of a camera. */
  datatype ProjectionModel = WithoutDistortion | WithDistortion | KannalaBrandtDistortion

  /** Camera intrinsics: the projection model, the pixel ratios and the principal point. */
  datatype CameraParameters = CameraParameters(model: ProjectionModel, px: real, py: real, u0: real, v0: real)

  const NoDistortionOnly := "Panda3D renderer: only lenses with no distortion are supported"

  /** The clipping distances as setClippingDistance stores them: the smaller one is the near
      distance, the larger one the far distance. */
  function OrderedClip(near: real, far: real): (r: (real, real))
    ensures r.0 <= r.1
    ensures multiset{r.0, r.1} == multiset{near, far}
    ensures near <= far ==> r == (near, far)
  {
    if far < near then (far, near) else (near, far)
  }

  /** The order of the two distances does not matter, and storing stored distances again changes
      nothing. */
  lemma OrderedClipSymmetric(a: real, b: real)
    ensures OrderedClip(a, b) == OrderedClip(b, a)
    ensures OrderedClip(OrderedClip(a, b).0, OrderedClip(a, b).1) == OrderedClip(a, b)
  {
  }

  class RenderParameters {
    var cam: CameraParameters
    var height: UInt32
    var width: UInt32
    var clipNear: real
    var clipFar: real

    /** Nothing closer than the near distance and nothing further than the far one is drawn,
        which needs near ≤ far. */
    predicate ClipOrdered()
      reads this
    {
      clipNear <= clipFar
    }

    /** The default parameters: an empty 0×0 image and clipping between 0.001 and 10. The
        default intrinsics are the camera's own defaults, given as `defaultCam`. */
    constructor Default(defaultCam: CameraParameters)
      ensures cam == defaultCam && height == 0 && width == 0
      ensures clipNear == 0.001 && clipFar == 10.0
      ensures ClipOrdered()
    {
      cam, height, width := defaultCam, 0, 0;
      clipNear, clipFar := 0.001, 10.0;
    }

    /** Parameters with the given values, stored as they are: the distances are not reordered
        and the intrinsics are not checked. */
    constructor (c: CameraParameters, h: UInt32, w: UInt32, near: real, far: real)
      ensures cam == c && height == h && width == w && clipNear == near && clipFar == far
      ensures ClipOrdered() <==> near <= far
    {
      cam, height, width := c, h, w;
      clipNear, clipFar := near, far;
    }

    /** setCameraIntrinsics: only intrinsics without distortion are accepted; any other model is
        refused and the stored intrinsics stay. */
    method SetCameraIntrinsics(c: CameraParameters) returns (error: Option<string>)
      modifies this
      ensures error.None? <==> c.model == WithoutDistortion
      ensures error.Some? ==> error.value == NoDistortionOnly
      ensures cam == (if c.model == WithoutDistortion then c else old(cam))
      ensures height == old(height) && width == old(width)
      ensures clipNear == old(clipNear) && clipFar == old(clipFar)
    {
      if c.model != WithoutDistortion {
        return Some(NoDistortionOnly);
      }
      cam := c;
      error := None;
    }

    /** setClippingDistance: the two distances are swapped when given in decreasing order, so
        the stored pair is ordered whatever the arguments. */
    method SetClippingDistance(near: real, far: real)
      modifies this
      ensures (clipNear, clipFar) == OrderedClip(near, far)
      ensures ClipOrdered()
      ensures cam == old(cam) && height == old(height) && width == old(width)
    {
      var n, f := near, far;
      if f < n {
        n, f := f, n;
      }
      clipNear := n;
      clipFar := f;
    }

    /** setImageResolution: stores the height and the width and nothing else. */
    method SetImageResolution(h: UInt32, w: UInt32)
      modifies this
      ensures height == h && width == w
      ensures cam == old(cam) && clipNear == old(clipNear) && clipFar == old(clipFar)
    {
      height := h;
      width := w;
    }
  }
}
