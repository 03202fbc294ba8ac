/** The separable filters of vpImageFilter: filterX / filterY with their left/right and
    top/bottom border helpers, the separable `filter` that chains them, and getGradX.
    Each pixel helper applies a symmetric 1-D kernel `filter[0..half]` along one line of
    the image (a row for X, a column for Y); the border helpers reflect the taps that
    would leave the line. */
module ImageFilterSeparable {
  import opened ImageFilter

  /** Which of the three loops of filterX / filterY handles a position of the line. */
  datatype Side = LowBorder | Interior | HighBorder

  /** Position c of a line of n values falls in the left (top) border loop [0, half),
      the interior loop [half, n - half) or the right (bottom) border loop [n - half, n). */
  function SideOf(c: int, n: int, half: int): Side
  {
    if c < half then LowBorder else if c < n - half then Interior else HighBorder
  }

  /** Left/top border: `c > i ? c - i : i - c`. */
  function ReflectLow(c: int, i: int): int
  {
    if c > i then c - i else i - c
  }

  /** Right/bottom border: `c + i < n ? c + i : 2n - c - i - 1`. */
  function ReflectHigh(c: int, i: int, n: int): int
  {
    if c + i < n then c + i else 2 * n - c - i - 1
  }

  /** Index read by tap +i of the helper for this side. */
  function PlusTap(side: Side, c: int, i: int, n: int): int
  {
    if side == HighBorder then ReflectHigh(c, i, n) else c + i
  }

  /** Index read by tap -i of the helper for this side. */
  function MinusTap(side: Side, c: int, i: int): int
  {
    if side == LowBorder then ReflectLow(c, i) else c - i
  }

  /** All taps 1..k of position c read inside a line of n values. */
  predicate TapsInside(side: Side, c: int, k: nat, n: int)
  {
    forall i :: 1 <= i <= k ==> 0 <= PlusTap(side, c, i, n) < n && 0 <= MinusTap(side, c, i) < n
  }

  /** The left border reflects about index 0 (pixel 0 is not repeated), the right border
      about n - 1/2 (pixel n - 1 is repeated); both stay inside a line of at least
      2·half values, so every helper reads inside the line at the positions its loop visits. */
  lemma ReflectionsInside(c: int, half: nat, n: int)
    requires 0 <= c < n && n >= 2 * half
    ensures forall i :: 1 <= i <= half && c <= i ==> ReflectLow(c, i) == i - c
    ensures forall i :: 1 <= i <= half && c + i >= n ==> ReflectHigh(c, i, n) == (n - 1) - (c + i - n)
    ensures TapsInside(SideOf(c, n, half), c, half, n)
  {
  }

  /** Σ_{i=1..k} filter[i] · (line[+i tap] + line[-i tap]). */
  function TapSum(line: seq<real>, c: int, filter: seq<real>, side: Side, k: nat): real
    requires k < |filter| && TapsInside(side, c, k, |line|)
  {
    if k == 0 then 0.0
    else
      TapSum(line, c, filter, side, k - 1)
        + filter[k] * (line[PlusTap(side, c, k, |line|)] + line[MinusTap(side, c, k)])
  }

  /** The value of filterX / filterXLeftBorder / filterXRightBorder (or the Y versions) at c:
      the symmetric taps, then `filter[0] · line[c]`. */
  function LineFilter(line: seq<real>, c: int, filter: seq<real>, half: nat, side: Side): real
    requires 0 <= c < |line| && half < |filter| && TapsInside(side, c, half, |line|)
  {
    TapSum(line, c, filter, side, half) + filter[0] * line[c]
  }

  /** The pixel helpers: a loop over the taps 1..half, then the centre term. */
  method LinePixel(line: seq<real>, c: int, filter: seq<real>, half: nat, side: Side) returns (v: real)
    requires 0 <= c < |line| && half < |filter| && TapsInside(side, c, half, |line|)
    ensures v == LineFilter(line, c, filter, half, side)
  {
    var result := 0.0;
    var i := 1;
    while i <= half
      invariant 1 <= i <= half + 1
      invariant result == TapSum(line, c, filter, side, i - 1)
    {
      result := result + filter[i] * (line[PlusTap(side, c, i, |line|)] + line[MinusTap(side, c, i)]);
      i := i + 1;
    }
    v := result + filter[0] * line[c];
  }

  /** A border helper agrees with the interior one wherever no tap leaves the line. */
  lemma {:induction false} TapSumNoReflection(line: seq<real>, c: int, filter: seq<real>, side: Side, k: nat)
    requires k < |filter| && k <= c && c + k < |line|
    ensures TapsInside(side, c, k, |line|) && TapsInside(Interior, c, k, |line|)
    ensures TapSum(line, c, filter, side, k) == TapSum(line, c, filter, Interior, k)
  {
    if k > 0 {
      TapSumNoReflection(line, c, filter, side, k - 1);
      assert PlusTap(side, c, k, |line|) == c + k && MinusTap(side, c, k) == c - k;
      assert TapsInside(side, c, k, |line|);
      assert TapSum(line, c, filter, side, k)
        == TapSum(line, c, filter, side, k - 1) + filter[k] * (line[c + k] + line[c - k]);
    }
  }

  /** filterXLeftBorder at c ≥ half and filterXRightBorder at c + half < n give the interior value. */
  lemma BorderHelpersMatchInterior(line: seq<real>, c: int, filter: seq<real>, half: nat, side: Side)
    requires half < |filter| && half <= c && c + half < |line|
    ensures TapsInside(side, c, half, |line|) && TapsInside(Interior, c, half, |line|)
    ensures LineFilter(line, c, filter, half, side) == LineFilter(line, c, filter, half, Interior)
  {
    TapSumNoReflection(line, c, filter, side, half);
  }

  /** filter[0] + 2 Σ_{i=1..k} filter[i]: the response of the symmetric kernel to a constant. */
  function KernelMass(filter: seq<real>, k: nat): real
    requires k < |filter|
  {
    if k == 0 then filter[0] else KernelMass(filter, k - 1) + 2.0 * filter[k]
  }

  /** The tap sum of a line that holds v everywhere. */
  function ConstantTapSum(filter: seq<real>, k: nat, v: real): real
    requires k < |filter|
  {
    if k == 0 then 0.0 else ConstantTapSum(filter, k - 1, v) + filter[k] * (v + v)
  }

  /** Whatever the reflections, every tap of a constant line reads v. */
  lemma {:induction false} TapSumOfConstantLine(line: seq<real>, c: int, filter: seq<real>, side: Side, k: nat, v: real)
    requires k < |filter| && TapsInside(side, c, k, |line|)
    requires forall x :: 0 <= x < |line| ==> line[x] == v
    ensures TapSum(line, c, filter, side, k) == ConstantTapSum(filter, k, v)
  {
    if k > 0 {
      TapSumOfConstantLine(line, c, filter, side, k - 1, v);
      assert line[PlusTap(side, c, k, |line|)] == v && line[MinusTap(side, c, k)] == v;
    }
  }

  /** The kernel's response to the constant v is KernelMass · v. */
  lemma {:induction false} ConstantResponse(filter: seq<real>, k: nat, v: real)
    requires k < |filter|
    ensures ConstantTapSum(filter, k, v) + filter[0] * v == KernelMass(filter, k) * v
  {
    if k > 0 {
      ConstantResponse(filter, k - 1, v);
      TwoTaps(filter[k], v);
      ScaleSum(ConstantTapSum(filter, k - 1, v) + filter[0] * v, KernelMass(filter, k - 1), 2.0 * filter[k],
               KernelMass(filter, k), v);
    }
  }

  /** The reflections keep constants: on a constant line every helper, border or not,
      returns KernelMass · v (so a normalised kernel leaves a constant image unchanged). */
  lemma ConstantLineFilter(line: seq<real>, c: int, filter: seq<real>, half: nat, side: Side, v: real)
    requires 0 <= c < |line| && half < |filter| && TapsInside(side, c, half, |line|)
    requires forall x :: 0 <= x < |line| ==> line[x] == v
    ensures LineFilter(line, c, filter, half, side) == KernelMass(filter, half) * v
  {
    var response := ConstantTapSum(filter, half, v) + filter[0] * v;
    TapSumOfConstantLine(line, c, filter, side, half, v);
    assert line[c] == v;
    LineFilterSplits(line, c, filter, half, side);
    assert LineFilter(line, c, filter, half, side) == response;
    ConstantResponse(filter, half, v);
  }

  /** A helper's value is its tap sum plus the centre term. */
  lemma LineFilterSplits(line: seq<real>, c: int, filter: seq<real>, half: nat, side: Side)
    requires 0 <= c < |line| && half < |filter| && TapsInside(side, c, half, |line|)
    ensures LineFilter(line, c, filter, half, side) == TapSum(line, c, filter, side, half) + filter[0] * line[c]
  {
  }

  /** x = a·v and c = a + b give x + b·v = c·v. */
  lemma ScaleSum(x: real, a: real, b: real, c: real, v: real)
    requires x == a * v && c == a + b
    ensures x + b * v == c * v
  {
  }

  /** Two taps reading the constant v contribute 2·f·v. */
  lemma TwoTaps(f: real, v: real)
    ensures f * (v + v) == (2.0 * f) * v
  {
  }

  // ---------------------------------------------------------------------------
  // filterX / filterY
  // ---------------------------------------------------------------------------

  /** `(size - 1) / 2`, the number of taps on each side. */
  function HalfSize(size: nat): nat
    requires size >= 1
  {
    (size - 1) / 2
  }

  /** Column c of an image. */
  function Column(I: seq<seq<real>>, h: nat, w: nat, c: int): (col: seq<real>)
    requires IsImage(I, h, w) && 0 <= c < w
    ensures |col| == h && forall r :: 0 <= r < h ==> col[r] == I[r][c]
  {
    seq(h, r requires 0 <= r < h => I[r][c])
  }

  /** The value filterX stores at (r, c). */
  function FilteredX(I: seq<seq<real>>, h: nat, w: nat, filter: seq<real>, half: nat, r: int, c: int): real
    requires IsImage(I, h, w) && 0 <= r < h && 0 <= c < w && half < |filter| && w >= 2 * half
  {
    ReflectionsInside(c, half, w);
    LineFilter(I[r], c, filter, half, SideOf(c, w, half))
  }

  /** The value filterY stores at (r, c). */
  function FilteredY(I: seq<seq<real>>, h: nat, w: nat, filter: seq<real>, half: nat, r: int, c: int): real
    requires IsImage(I, h, w) && 0 <= r < h && 0 <= c < w && half < |filter| && h >= 2 * half
  {
    ReflectionsInside(r, half, h);
    LineFilter(Column(I, h, w, c), r, filter, half, SideOf(r, h, half))
  }

  /** filterX: every row through the left-border, interior and right-border loops. */
  method FilterX(I: seq<seq<real>>, h: nat, w: nat, filter: seq<real>, size: nat) returns (dIx: array2<real>)
    requires IsImage(I, h, w) && size >= 1 && HalfSize(size) < |filter| && w >= 2 * HalfSize(size)
    ensures fresh(dIx) && dIx.Length0 == h && dIx.Length1 == w
    ensures forall r, c :: 0 <= r < h && 0 <= c < w ==> dIx[r, c] == FilteredX(I, h, w, filter, HalfSize(size), r, c)
  {
    var half := HalfSize(size);
    dIx := new real[h, w];
    var i := 0;
    while i < h
      invariant 0 <= i <= h
      invariant forall r, c :: 0 <= r < i && 0 <= c < w ==> dIx[r, c] == FilteredX(I, h, w, filter, half, r, c)
    {
      FilterXSpan(I, h, w, filter, half, dIx, i, 0, half);
      FilterXSpan(I, h, w, filter, half, dIx, i, half, w - half);
      FilterXSpan(I, h, w, filter, half, dIx, i, w - half, w);
      i := i + 1;
    }
  }

  /** One of the three column loops of filterX on row r: columns [from, to). */
  method FilterXSpan(I: seq<seq<real>>, h: nat, w: nat, filter: seq<real>, half: nat,
                     dIx: array2<real>, r: int, from: int, to: int)
    requires IsImage(I, h, w) && half < |filter| && w >= 2 * half
    requires dIx.Length0 == h && dIx.Length1 == w && 0 <= r < h && 0 <= from <= to <= w
    modifies dIx
    ensures forall rr, c :: 0 <= rr < h && 0 <= c < w ==>
      dIx[rr, c] == if rr == r && from <= c < to then FilteredX(I, h, w, filter, half, rr, c) else old(dIx[rr, c])
  {
    var j := from;
    while j < to
      invariant from <= j <= to
      invariant forall rr, c :: 0 <= rr < h && 0 <= c < w ==>
        dIx[rr, c] == if rr == r && from <= c < j then FilteredX(I, h, w, filter, half, rr, c) else old(dIx[rr, c])
    {
      ReflectionsInside(j, half, w);
      var v := LinePixel(I[r], j, filter, half, SideOf(j, w, half));
      dIx[r, j] := v;
      j := j + 1;
    }
  }

  /** filterY: the top-border rows, the interior rows and the bottom-border rows. */
  method FilterY(I: seq<seq<real>>, h: nat, w: nat, filter: seq<real>, size: nat) returns (dIy: array2<real>)
    requires IsImage(I, h, w) && size >= 1 && HalfSize(size) < |filter| && h >= 2 * HalfSize(size)
    ensures fresh(dIy) && dIy.Length0 == h && dIy.Length1 == w
    ensures forall r, c :: 0 <= r < h && 0 <= c < w ==> dIy[r, c] == FilteredY(I, h, w, filter, HalfSize(size), r, c)
  {
    var half := HalfSize(size);
    dIy := new real[h, w];
    FilterYRows(I, h, w, filter, half, dIy, 0, half);
    FilterYRows(I, h, w, filter, half, dIy, half, h - half);
    FilterYRows(I, h, w, filter, half, dIy, h - half, h);
  }

  /** One of the three row loops of filterY: rows [from, to), every column. */
  method FilterYRows(I: seq<seq<real>>, h: nat, w: nat, filter: seq<real>, half: nat,
                     dIy: array2<real>, from: int, to: int)
    requires IsImage(I, h, w) && half < |filter| && h >= 2 * half
    requires dIy.Length0 == h && dIy.Length1 == w && 0 <= from <= to <= h
    requires forall r, c :: 0 <= r < from && 0 <= c < w ==> dIy[r, c] == FilteredY(I, h, w, filter, half, r, c)
    modifies dIy
    ensures forall r, c :: 0 <= r < to && 0 <= c < w ==> dIy[r, c] == FilteredY(I, h, w, filter, half, r, c)
  {
    var i := from;
    while i < to
      invariant from <= i <= to
      invariant forall r, c :: 0 <= r < i && 0 <= c < w ==> dIy[r, c] == FilteredY(I, h, w, filter, half, r, c)
    {
      ReflectionsInside(i, half, h);
      var j := 0;
      while j < w
        invariant 0 <= j <= w
        invariant forall r, c :: 0 <= r < i && 0 <= c < w ==> dIy[r, c] == FilteredY(I, h, w, filter, half, r, c)
        invariant forall c :: 0 <= c < j ==> dIy[i, c] == FilteredY(I, h, w, filter, half, i, c)
      {
        var v := LinePixel(Column(I, h, w, j), i, filter, half, SideOf(i, h, half));
        dIy[i, j] := v;
        j := j + 1;
      }
      i := i + 1;
    }
  }

  /** The rows of a 2-D array as a sequence of sequences. */
  function ToRows(a: array2<real>): (I: seq<seq<real>>)
    reads a
    ensures IsImage(I, a.Length0, a.Length1)
    ensures forall r, c :: 0 <= r < a.Length0 && 0 <= c < a.Length1 ==> I[r][c] == a[r, c]
  {
    seq(a.Length0, r requires 0 <= r < a.Length0 reads a =>
      seq(a.Length1, c requires 0 <= c < a.Length1 reads a => a[r, c]))
  }

  /** The separable `filter`: filterX, then filterY on its result. */
  method SeparableFilter(I: seq<seq<real>>, h: nat, w: nat, filter: seq<real>, size: nat) returns (GI: array2<real>)
    requires IsImage(I, h, w) && size >= 1 && HalfSize(size) < |filter|
    requires w >= 2 * HalfSize(size) && h >= 2 * HalfSize(size)
    ensures fresh(GI) && GI.Length0 == h && GI.Length1 == w
    ensures exists GIx: seq<seq<real>> ::
      IsImage(GIx, h, w) &&
      (forall r, c :: 0 <= r < h && 0 <= c < w ==> GIx[r][c] == FilteredX(I, h, w, filter, HalfSize(size), r, c)) &&
      forall r, c :: 0 <= r < h && 0 <= c < w ==> GI[r, c] == FilteredY(GIx, h, w, filter, HalfSize(size), r, c)
  {
    var GIx := FilterX(I, h, w, filter, size);
    var rows := ToRows(GIx);
    GI := FilterY(rows, h, w, filter, size);
    assert IsImage(rows, h, w);
  }

  // ---------------------------------------------------------------------------
  // getGradX
  // ---------------------------------------------------------------------------

  /** Σ_{i=1..k} filter[i] · (line[c + i] - line[c - i]): derivativeFilterX. */
  function DerivSum(line: seq<real>, c: int, filter: seq<real>, k: nat): real
    requires k < |filter| && 0 <= c - k && c + k < |line|
  {
    if k == 0 then 0.0 else DerivSum(line, c, filter, k - 1) + filter[k] * (line[c + k] - line[c - k])
  }

  /** derivativeFilterX with a kernel: a loop over the taps 1..half. */
  method DerivativePixel(line: seq<real>, c: int, filter: seq<real>, half: nat) returns (v: real)
    requires half < |filter| && 0 <= c - half && c + half < |line|
    ensures v == DerivSum(line, c, filter, half)
  {
    v := 0.0;
    var i := 1;
    while i <= half
      invariant 1 <= i <= half + 1
      invariant v == DerivSum(line, c, filter, i - 1)
    {
      v := v + filter[i] * (line[c + i] - line[c - i]);
      i := i + 1;
    }
  }

  /** The value getGradX stores at (r, c): 0 in the half-wide borders, the derivative inside. */
  function GradX(I: seq<seq<real>>, h: nat, w: nat, filter: seq<real>, half: nat, r: int, c: int): real
    requires IsImage(I, h, w) && 0 <= r < h && 0 <= c < w && half < |filter|
  {
    if half <= c < w - half then DerivSum(I[r], c, filter, half) else 0.0
  }

  /** getGradX with a kernel of the given size. */
  method GetGradX(I: seq<seq<real>>, h: nat, w: nat, filter: seq<real>, size: nat) returns (dIx: array2<real>)
    requires IsImage(I, h, w) && size >= 1 && HalfSize(size) < |filter| && w >= HalfSize(size)
    ensures fresh(dIx) && dIx.Length0 == h && dIx.Length1 == w
    ensures forall r, c :: 0 <= r < h && 0 <= c < w ==> dIx[r, c] == GradX(I, h, w, filter, HalfSize(size), r, c)
  {
    var half := HalfSize(size);
    dIx := new real[h, w];
    var i := 0;
    while i < h
      invariant 0 <= i <= h
      invariant forall r, c :: 0 <= r < i && 0 <= c < w ==> dIx[r, c] == GradX(I, h, w, filter, half, r, c)
    {
      GradXRow(I, h, w, filter, half, dIx, i);
      i := i + 1;
    }
  }

  /** The three column loops of getGradX on row r. */
  method GradXRow(I: seq<seq<real>>, h: nat, w: nat, filter: seq<real>, half: nat, dIx: array2<real>, r: int)
    requires IsImage(I, h, w) && half < |filter| && w >= half
    requires dIx.Length0 == h && dIx.Length1 == w && 0 <= r < h
    modifies dIx
    ensures forall rr, c :: 0 <= rr < h && 0 <= c < w ==>
      dIx[rr, c] == if rr == r then GradX(I, h, w, filter, half, rr, c) else old(dIx[rr, c])
  {
    var j := 0;
    while j < half
      invariant 0 <= j <= half
      invariant forall rr, c :: 0 <= rr < h && 0 <= c < w ==>
        dIx[rr, c] == if rr == r && c < j then 0.0 else old(dIx[rr, c])
    {
      dIx[r, j] := 0.0;
      j := j + 1;
    }
    j := half;
    while j < w - half
      invariant half <= j && (j <= w - half || j == half)
      invariant forall rr, c :: 0 <= rr < h && 0 <= c < w ==>
        dIx[rr, c] == if rr == r && c < half then 0.0
                      else if rr == r && c < j then GradX(I, h, w, filter, half, rr, c)
                      else old(dIx[rr, c])
    {
      var v := DerivativePixel(I[r], j, filter, half);
      dIx[r, j] := v;
      j := j + 1;
    }
    j := w - half;
    while j < w
      invariant w - half <= j <= w
      invariant forall rr, c :: 0 <= rr < h && 0 <= c < w ==>
        dIx[rr, c] == if rr == r && (c < half || w - half <= c < j) then 0.0
                      else if rr == r && c < w - half then GradX(I, h, w, filter, half, rr, c)
                      else old(dIx[rr, c])
    {
      dIx[r, j] := 0.0;
      j := j + 1;
    }
  }

  /** derivativeFilterX without a kernel: the fixed 7-tap derivative
      (2047·(I[c+1]-I[c-1]) + 913·(I[c+2]-I[c-2]) + 112·(I[c+3]-I[c-3])) / 8418. */
  function DerivativeFilterX(line: seq<real>, c: int): real
    requires 0 <= c - 3 && c + 3 < |line|
  {
    (2047.0 * (line[c + 1] - line[c - 1]) + 913.0 * (line[c + 2] - line[c - 2])
      + 112.0 * (line[c + 3] - line[c - 3])) / 8418.0
  }

  /** The kernel of the fixed derivative, as a getGradX filter of size 7. */
  const FixedDerivative: seq<real> := [0.0, 2047.0 / 8418.0, 913.0 / 8418.0, 112.0 / 8418.0]

  /** The fixed overload of getGradX (zeros in columns < 3 and ≥ w - 3) is the kernel
      overload with FixedDerivative and size 7. */
  lemma FixedGradXIsKernelGradX(line: seq<real>, c: int)
    requires 0 <= c - 3 && c + 3 < |line|
    ensures DerivSum(line, c, FixedDerivative, 3) == DerivativeFilterX(line, c)
  {
    var f := FixedDerivative;
    assert DerivSum(line, c, f, 1) == f[1] * (line[c + 1] - line[c - 1]);
    assert DerivSum(line, c, f, 2) == DerivSum(line, c, f, 1) + f[2] * (line[c + 2] - line[c - 2]);
  }

  /** The fixed derivative is normalised: on a line of slope s it returns s. */
  lemma FixedDerivativeOfRamp(line: seq<real>, c: int, s: real, b: real)
    requires 0 <= c - 3 && c + 3 < |line|
    requires forall x :: 0 <= x < |line| ==> line[x] == s * (x as real) + b
    ensures DerivativeFilterX(line, c) == s
  {
    var x := c as real;
    assert line[c + 1] - line[c - 1] == 2.0 * s;
    assert line[c + 2] - line[c - 2] == 4.0 * s;
    assert line[c + 3] - line[c - 3] == 6.0 * s;
  }

  /** getGradX without a kernel. */
  method GetGradXFixed(I: seq<seq<real>>, h: nat, w: nat) returns (dIx: array2<real>)
    requires IsImage(I, h, w) && w >= 3
    ensures fresh(dIx) && dIx.Length0 == h && dIx.Length1 == w
    ensures forall r, c :: 0 <= r < h && 0 <= c < w ==>
      dIx[r, c] == if 3 <= c < w - 3 then DerivativeFilterX(I[r], c) else 0.0
  {
    dIx := GetGradX(I, h, w, FixedDerivative, 7);
    forall r, c | 0 <= r < h && 0 <= c < w && 3 <= c < w - 3
      ensures GradX(I, h, w, FixedDerivative, 3, r, c) == DerivativeFilterX(I[r], c)
    {
      FixedGradXIsKernelGradX(I[r], c);
    }
  }
}
