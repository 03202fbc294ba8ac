/** The line drawing of the flood-fill tutorial: Bresenham's algorithm in octant zero, reached
    from any octant by a reflection of the plane that is undone before each pixel is written.
    Points carry the integral coordinates drawLine builds by truncation (vpImagePoint stores them
    as doubles); u is the column and v the row. */
module BresenhamLine {
  datatype ImagePoint = ImagePoint(u: int, v: int)

  /** A grey level. */
  newtype Byte = b: int | 0 <= b < 256

  function Abs(x: int): nat { if x < 0 then -x else x }

  /** Two points whose coordinates have the same absolute values, possibly swapped: a
      reflection across an axis or a diagonal maps a point to such a point. */
  predicate SameMagnitudes(a: ImagePoint, b: ImagePoint)
  {
    (Abs(a.u) == Abs(b.u) && Abs(a.v) == Abs(b.v)) || (Abs(a.u) == Abs(b.v) && Abs(a.v) == Abs(b.u))
  }

  /** switchToOctantZeroFrom: the reflection taking octant `octant` onto octant zero; any other
      octant value leaves the point unchanged. */
  function SwitchToOctantZeroFrom(octant: int, p: ImagePoint): (r: ImagePoint)
    ensures !(0 <= octant < 8) ==> r == p
  {
    match octant
    case 0 => ImagePoint(p.u, p.v)
    case 1 => ImagePoint(p.v, p.u)
    case 2 => ImagePoint(p.v, -p.u)
    case 3 => ImagePoint(-p.u, p.v)
    case 4 => ImagePoint(-p.u, -p.v)
    case 5 => ImagePoint(-p.v, -p.u)
    case 6 => ImagePoint(-p.v, p.u)
    case 7 => ImagePoint(p.u, -p.v)
    case _ => p
  }

  /** switchFromOctantZeroTo: the reflection back from octant zero. */
  function SwitchFromOctantZeroTo(octant: int, p: ImagePoint): (r: ImagePoint)
    ensures !(0 <= octant < 8) ==> r == p
  {
    match octant
    case 0 => ImagePoint(p.u, p.v)
    case 1 => ImagePoint(p.v, p.u)
    case 2 => ImagePoint(-p.v, p.u)
    case 3 => ImagePoint(-p.u, p.v)
    case 4 => ImagePoint(-p.u, -p.v)
    case 5 => ImagePoint(-p.v, -p.u)
    case 6 => ImagePoint(p.v, -p.u)
    case 7 => ImagePoint(p.u, -p.v)
    case _ => p
  }

  /** Both switches are reflections across an axis or a diagonal: a point keeps the absolute
      values of its coordinates, possibly swapped. */
  lemma SwitchesAreReflections(octant: int, p: ImagePoint)
    ensures SameMagnitudes(SwitchToOctantZeroFrom(octant, p), p)
    ensures SameMagnitudes(SwitchFromOctantZeroTo(octant, p), p)
  {
  }

  /** The two switches undo each other, in both orders and for every octant value. */
  lemma SwitchRoundTrip(octant: int, p: ImagePoint)
    ensures SwitchFromOctantZeroTo(octant, SwitchToOctantZeroFrom(octant, p)) == p
    ensures SwitchToOctantZeroFrom(octant, SwitchFromOctantZeroTo(octant, p)) == p
  {
    if 0 <= octant < 4 {
      assert octant == 0 || octant == 1 || octant == 2 || octant == 3;
    } else if 4 <= octant < 8 {
      assert octant == 4 || octant == 5 || octant == 6 || octant == 7;
    }
  }

  /** getOctant: the octant of the direction from p1 to p2, as a value in 0..7, such that the
      switch to octant zero makes the direction satisfy dx ≥ dy ≥ 0. */
  function GetOctant(p1: ImagePoint, p2: ImagePoint): (octant: int)
    ensures 0 <= octant < 8
    ensures var q1, q2 := SwitchToOctantZeroFrom(octant, p1), SwitchToOctantZeroFrom(octant, p2);
            q2.u - q1.u >= q2.v - q1.v >= 0
  {
    var dx, dy := p2.u - p1.u, p2.v - p1.v;
    if dx >= 0 && dy >= 0 then (if dy >= dx then 1 else 0)
    else if dx < 0 && dy >= 0 then (if -dx >= dy then 3 else 2)
    else if dx < 0 && dy < 0 then (if dy <= dx then 5 else 4)
    else (if dx >= -dy then 7 else 6)
  }

  /** A C cast of a double to int: truncation toward zero. */
  function TruncToInt(x: real): (r: int)
    ensures x >= 0.0 ==> r as real <= x < r as real + 1.0
    ensures x < 0.0 ==> r as real - 1.0 < x <= r as real
  {
    if x >= 0.0 then x.Floor else -((-x).Floor)
  }

  /** The pixel index written for a coordinate c in an extent of n > 0: negative values go to 0
      and values past the end to n - 1. */
  function Clamp(c: int, n: nat): (r: nat)
    requires n > 0
    ensures r < n
    ensures 0 <= c < n ==> r == c
  {
    if c < 0 then 0 else if c > n - 1 then n - 1 else c
  }

  /** How far the line has risen after k steps in octant zero, for a run dx ≥ rise dy ≥ 0: the
      variant of Bresenham's update used by drawLine tracks floor((k+1)·dy/dx) when dy < dx, and
      rises at every step on the diagonal. */
  function Rise(k: nat, dx: nat, dy: nat): nat
    requires dy <= dx
  {
    if dy == dx then k else ((k + 1) * dy) / dx
  }

  /** The line leaves its first point at height 0 and reaches the height of its last one. */
  lemma RiseEnds(dx: nat, dy: nat)
    requires dy <= dx
    ensures Rise(0, dx, dy) == 0
    ensures Rise(dx, dx, dy) == dy
  {
    if dy < dx {
      assert (dx + 1) * dy == dx * dy + dy;
      DivUnique((dx + 1) * dy, dx, dy, dy);
    }
  }

  /** a / d == q when a = d·q + r with 0 ≤ r < d. */
  lemma DivUnique(a: int, d: int, q: int, r: int)
    requires 0 <= r < d && a == d * q + r
    ensures a / d == q
  {
    var q0, r0 := a / d, a % d;
    var t := q - q0;
    assert d * q - d * q0 == r0 - r;
    assert d * t == d * q - d * q0;
    if t >= 1 {
      MulGrows(d, t);
    } else if t <= -1 {
      assert d * -t == -(d * t);
      MulGrows(d, -t);
    }
  }

  lemma MulGrows(d: int, t: int)
    requires d > 0 && t >= 1
    ensures d * t >= d
  {
    assert d * t == d * (t - 1) + d;
  }

  /** The decision variable of drawLine after k steps when dy < dx. */
  function Decision(k: nat, dx: nat, dy: nat): int
    requires dy <= dx
  {
    (k + 2) * dy - dx - dx * Rise(k, dx, dy)
  }

  /** One step of the loop when dy < dx: the line rises at step k exactly when the decision
      variable is not negative, which stays in [dy − dx, dy). */
  lemma RiseStep(k: nat, dx: nat, dy: nat)
    requires dy < dx
    ensures dy - dx <= Decision(k, dx, dy) < dy
    ensures Rise(k + 1, dx, dy) == Rise(k, dx, dy) + (if Decision(k, dx, dy) >= 0 then 1 else 0)
    ensures Decision(k + 1, dx, dy) == Decision(k, dx, dy) + dy - (if Decision(k, dx, dy) >= 0 then dx else 0)
  {
    var d := Decision(k, dx, dy);
    var q, rem := ((k + 1) * dy) / dx, ((k + 1) * dy) % dx;
    assert (k + 1) * dy == dx * q + rem;
    assert (k + 2) * dy == dx * q + rem + dy;
    assert (k + 3) * dy == (k + 2) * dy + dy;
    assert d == rem + dy - dx;
    if rem + dy >= dx {
      assert (k + 2) * dy == dx * (q + 1) + (rem + dy - dx);
      DivUnique((k + 2) * dy, dx, q + 1, rem + dy - dx);
    } else {
      DivUnique((k + 2) * dy, dx, q, rem + dy);
    }
  }

  /** The pixel written for a point of the octant-zero line: the point is switched back and
      each coordinate clamped to the image. */
  function PixelOf(octant: int, q: ImagePoint, h: nat, w: nat): (r: (nat, nat))
    requires h > 0 && w > 0
    ensures r.0 < h && r.1 < w
  {
    var p := SwitchFromOctantZeroTo(octant, q);
    (Clamp(p.v, h), Clamp(p.u, w))
  }

  /** A segment from s to e in octant zero: its run is at least its rise, which is not negative. */
  predicate InOctantZero(s: ImagePoint, e: ImagePoint)
  {
    e.u - s.u >= e.v - s.v >= 0
  }

  /** The point k steps along the octant-zero line from s towards e. */
  function StepPoint(s: ImagePoint, e: ImagePoint, k: nat): ImagePoint
    requires InOctantZero(s, e)
  {
    ImagePoint(s.u + k, s.v + Rise(k, e.u - s.u, e.v - s.v))
  }

  /** The truncated end points of the segment. */
  function Ends(p1: (real, real), p2: (real, real)): (ImagePoint, ImagePoint)
  {
    (ImagePoint(TruncToInt(p1.0), TruncToInt(p1.1)), ImagePoint(TruncToInt(p2.0), TruncToInt(p2.1)))
  }

  /** The k-th pixel drawLine writes for the segment from s to e drawn in `octant`. */
  function PixelAt(octant: int, s: ImagePoint, e: ImagePoint, k: nat, h: nat, w: nat): (r: (nat, nat))
    requires InOctantZero(s, e) && h > 0 && w > 0
    ensures r.0 < h && r.1 < w
  {
    PixelOf(octant, StepPoint(s, e, k), h, w)
  }

  /** The first n pixels of the segment, in drawing order. */
  function LinePixels(octant: int, s: ImagePoint, e: ImagePoint, h: nat, w: nat, n: nat): (r: seq<(nat, nat)>)
    requires InOctantZero(s, e) && h > 0 && w > 0
    ensures |r| == n
  {
    if n == 0 then [] else LinePixels(octant, s, e, h, w, n - 1) + [PixelAt(octant, s, e, n - 1, h, w)]
  }

  /** The k-th entry of the pixel sequence is pixel k of the segment, inside the image. */
  lemma {:induction false} LinePixelsAt(octant: int, s: ImagePoint, e: ImagePoint, h: nat, w: nat, n: nat, k: nat)
    requires InOctantZero(s, e) && h > 0 && w > 0 && k < n
    ensures LinePixels(octant, s, e, h, w, n)[k] == PixelAt(octant, s, e, k, h, w)
    ensures LinePixels(octant, s, e, h, w, n)[k].0 < h && LinePixels(octant, s, e, h, w, n)[k].1 < w
  {
    if k < n - 1 {
      LinePixelsAt(octant, s, e, h, w, n - 1, k);
    }
  }

  /** drawLine: the end points, (u, v) pairs of doubles, are truncated, the octant of the
      segment is found and the segment is drawn in octant zero. An empty image would make the
      clamp bound wrap around, so the image has at least one pixel. */
  method DrawLine(img: array2<Byte>, value: Byte, p1: (real, real), p2: (real, real))
    requires img.Length0 > 0 && img.Length1 > 0
    modifies img
    ensures var (a, b) := Ends(p1, p2);
            var octant := GetOctant(a, b);
            var s, e := SwitchToOctantZeroFrom(octant, a), SwitchToOctantZeroFrom(octant, b);
            forall r, c :: 0 <= r < img.Length0 && 0 <= c < img.Length1 ==>
              img[r, c] == (if (r, c) in LinePixels(octant, s, e, img.Length0, img.Length1, e.u - s.u + 1) then value else old(img[r, c]))
  {
    var (a, b) := Ends(p1, p2);
    var octant := GetOctant(a, b);
    var s := SwitchToOctantZeroFrom(octant, a);
    var e := SwitchToOctantZeroFrom(octant, b);
    DrawInOctantZero(img, value, octant, s, e);
  }

  /** The loop of drawLine: for every column x from s to e in octant zero, the point (x, y) is
      switched back and its clamped pixel written; the decision variable D then says whether y
      rises. It writes the first dx + 1 pixels of the segment, with dx its run, and nowhere
      else. */
  method DrawInOctantZero(img: array2<Byte>, value: Byte, octant: int, s: ImagePoint, e: ImagePoint)
    requires img.Length0 > 0 && img.Length1 > 0 && InOctantZero(s, e)
    modifies img
    ensures forall r, c :: 0 <= r < img.Length0 && 0 <= c < img.Length1 ==>
              img[r, c] == (if (r, c) in LinePixels(octant, s, e, img.Length0, img.Length1, e.u - s.u + 1) then value else old(img[r, c]))
  {
    var dx := e.u - s.u;
    var dy := e.v - s.v;
    var d := 2 * dy - dx;
    var y := s.v;
    var h, w := img.Length0, img.Length1;
    ghost var k: nat := 0;
    for x := s.u to e.u + 1
      invariant k == x - s.u
      invariant y == s.v + Rise(k, dx, dy)
      invariant d == (if dy < dx then Decision(k, dx, dy) else dx)
      invariant forall r, c :: 0 <= r < h && 0 <= c < w ==>
                  img[r, c] == (if (r, c) in LinePixels(octant, s, e, h, w, k) then value else old(img[r, c]))
    {
      var (i, j) := PixelOf(octant, ImagePoint(x, y), h, w);
      ghost var drawn := LinePixels(octant, s, e, h, w, k);
      NextPixel(octant, s, e, h, w, k, y);
      assert ImagePoint(x, y) == ImagePoint(s.u + k, y);
      img[i, j] := value;
      forall r, c | 0 <= r < h && 0 <= c < w
        ensures img[r, c] == (if (r, c) in drawn + [(i, j)] then value else old(img[r, c]))
      {
        assert (r, c) in drawn + [(i, j)] <==> (r, c) in drawn || (r, c) == (i, j);
      }
      y, d := StepDecision(s.v, y, d, dx, dy, k);
      k := k + 1;
    }
  }

  /** The update of drawLine's height y and decision variable D after a pixel: y rises when D is
      not negative, which then loses dx; D always gains dy. The pair moves from step k of the
      line to step k + 1. */
  method StepDecision(y0: int, y: int, d: int, dx: nat, dy: nat, ghost k: nat) returns (y': int, d': int)
    requires dy <= dx
    requires y == y0 + Rise(k, dx, dy)
    requires d == (if dy < dx then Decision(k, dx, dy) else dx)
    ensures y' == y0 + Rise(k + 1, dx, dy)
    ensures d' == (if dy < dx then Decision(k + 1, dx, dy) else dx)
  {
    if dy < dx {
      RiseStep(k, dx, dy);
    }
    y', d' := y, d;
    if d' >= 0 {
      y' := y' + 1;
      d' := d' - dx;
    }
    d' := d' + dy;
  }

  /** One more step of the loop appends the pixel of the current point (s.u + k, y). */
  lemma NextPixel(octant: int, s: ImagePoint, e: ImagePoint, h: nat, w: nat, k: nat, y: int)
    requires InOctantZero(s, e) && h > 0 && w > 0
    requires y == s.v + Rise(k, e.u - s.u, e.v - s.v)
    ensures LinePixels(octant, s, e, h, w, k + 1) ==
            LinePixels(octant, s, e, h, w, k) + [PixelOf(octant, ImagePoint(s.u + k, y), h, w)]
  {
    assert StepPoint(s, e, k) == ImagePoint(s.u + k, y);
  }

  /** The line from s to e starts at s and ends at e. */
  lemma StepPointEnds(s: ImagePoint, e: ImagePoint)
    requires InOctantZero(s, e)
    ensures StepPoint(s, e, 0) == s
    ensures StepPoint(s, e, e.u - s.u) == e
  {
    RiseEnds(e.u - s.u, e.v - s.v);
  }

  /** A point switched to octant zero is drawn at its own clamped position. */
  lemma PixelOfSwitched(octant: int, a: ImagePoint, h: nat, w: nat)
    requires h > 0 && w > 0
    ensures PixelOf(octant, SwitchToOctantZeroFrom(octant, a), h, w) == (Clamp(a.v, h), Clamp(a.u, w))
  {
    SwitchRoundTrip(octant, a);
  }

  /** The first pixel drawLine writes is the clamped first end point, and the last one the
      clamped second end point. */
  lemma LineEnds(p1: (real, real), p2: (real, real), h: nat, w: nat)
    requires h > 0 && w > 0
    ensures var (a, b) := Ends(p1, p2);
            var octant := GetOctant(a, b);
            var s, e := SwitchToOctantZeroFrom(octant, a), SwitchToOctantZeroFrom(octant, b);
            PixelAt(octant, s, e, 0, h, w) == (Clamp(a.v, h), Clamp(a.u, w)) &&
            PixelAt(octant, s, e, e.u - s.u, h, w) == (Clamp(b.v, h), Clamp(b.u, w))
  {
    var (a, b) := Ends(p1, p2);
    var octant := GetOctant(a, b);
    var s, e := SwitchToOctantZeroFrom(octant, a), SwitchToOctantZeroFrom(octant, b);
    StepPointEnds(s, e);
    PixelOfSwitched(octant, a, h, w);
    PixelOfSwitched(octant, b, h, w);
  }
}
