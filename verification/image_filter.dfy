/** Helpers of vpImageFilter: the Canny automatic threshold, the generic correlation/convolution
    filter, the separable X/Y filters with their border reflections, the X gradient,
    and the Sobel/Scharr kernel checks. Images are rectangular sequences of rows; an
    output image that the source resizes and fills becomes a fresh `array2`. */
module ImageFilter {
  import opened Wrappers

  /** A rectangular image of h rows and w columns. */
  predicate IsImage(I: seq<seq<real>>, h: nat, w: nat)
  {
    |I| == h && forall r :: 0 <= r < h ==> |I[r]| == w
  }

  // ---------------------------------------------------------------------------
  // computeCannyThreshold
  // ---------------------------------------------------------------------------

  function Abs(x: real): real { if x < 0.0 then -x else x }

  /** `(unsigned char) min(|dx| + |dy|, 255)`: the cast truncates a non-negative value. */
  function GradientLevel(dx: real, dy: real): (g: nat)
    ensures g <= 255
    ensures Abs(dx) + Abs(dy) >= 255.0 ==> g == 255
    ensures Abs(dx) + Abs(dy) < 255.0 ==> g as real <= Abs(dx) + Abs(dy) < g as real + 1.0
  {
    var s := Abs(dx) + Abs(dy);
    if s >= 255.0 then 255 else s.Floor
  }

  /** Number of pixels counted in the first i bins. */
  function CumCount(hist: seq<nat>, i: nat): nat
    requires i <= |hist|
  {
    if i == 0 then 0 else CumCount(hist, i - 1) + hist[i - 1]
  }

  /** Bin i is where the cumulative count first passes t (`accu > t`). */
  predicate Exceeds(hist: seq<nat>, t: real, i: nat)
    requires i < |hist|
  {
    CumCount(hist, i + 1) as real > t
  }

  /** The cut of the bin search, `upperThresholdRatio · w · h`, for n = w·h pixels. */
  function CannyCut(upperRatio: real, n: nat): real
  {
    upperRatio * (n as real)
  }

  /** Some bin's cumulative count exceeds t. */
  predicate SomeBinExceeds(hist: seq<nat>, t: real)
  {
    exists i :: 0 <= i < |hist| && Exceeds(hist, t, i)
  }

  /** The bin search of computeCannyThreshold: the first bin whose cumulative count exceeds t, or 0. */
  method FirstBinAbove(hist: seq<nat>, t: real) returns (bon: nat)
    ensures !SomeBinExceeds(hist, t) ==> bon == 0
    ensures SomeBinExceeds(hist, t) ==>
      bon < |hist| && Exceeds(hist, t, bon) && forall j :: 0 <= j < bon ==> !Exceeds(hist, t, j)
  {
    var accu := 0.0;
    var i := 0;
    bon := 0;
    while i < |hist|
      invariant 0 <= i <= |hist|
      invariant accu == CumCount(hist, i) as real
      invariant forall j :: 0 <= j < i ==> !Exceeds(hist, t, j)
      invariant bon == 0
    {
      accu := accu + hist[i] as real;
      if accu > t {
        assert Exceeds(hist, t, i);
        bon := i;
        return;
      }
      i := i + 1;
    }
  }

  /** The first n rows each hold at least w values. */
  predicate Covers(I: seq<seq<real>>, n: nat, w: nat)
  {
    n <= |I| && forall r :: 0 <= r < n ==> |I[r]| >= w
  }

  /** Row-major list of the gradient levels of the first n rows of a pair of derivative images. */
  function Levels(dIx: seq<seq<real>>, dIy: seq<seq<real>>, n: nat, w: nat): (s: seq<nat>)
    requires Covers(dIx, n, w) && Covers(dIy, n, w)
    ensures forall i :: 0 <= i < |s| ==> s[i] < 256
  {
    if n == 0 then []
    else Levels(dIx, dIy, n - 1, w) + RowLevels(dIx[n - 1], dIy[n - 1], w)
  }

  function RowLevels(rx: seq<real>, ry: seq<real>, w: nat): (s: seq<nat>)
    requires |rx| >= w && |ry| >= w
    ensures |s| == w
    ensures forall i :: 0 <= i < w ==> s[i] < 256
  {
    if w == 0 then [] else RowLevels(rx, ry, w - 1) + [GradientLevel(rx[w - 1], ry[w - 1])]
  }

  /** Adds one count per level of s to a 256-bin histogram. */
  function AddLevels(hist: seq<nat>, s: seq<nat>): (r: seq<nat>)
    requires |hist| == 256 && forall i :: 0 <= i < |s| ==> s[i] < 256
    ensures |r| == 256
  {
    if s == [] then hist
    else
      var h := AddLevels(hist, s[..|s| - 1]);
      var x := s[|s| - 1];
      h[x := h[x] + 1]
  }

  /** The 256-bin histogram of a list of levels (vpHistogram::calculate is not part of this model;
      with 256 bins for 256 levels, bin k counts the values equal to k, see HistogramCounts). */
  function Histogram(s: seq<nat>): (hist: seq<nat>)
    requires forall i :: 0 <= i < |s| ==> s[i] < 256
    ensures |hist| == 256
  {
    AddLevels(seq(256, _ => 0), s)
  }

  lemma {:induction false} AddLevelsConcat(hist: seq<nat>, a: seq<nat>, b: seq<nat>)
    requires |hist| == 256
    requires forall i :: 0 <= i < |a| ==> a[i] < 256
    requires forall i :: 0 <= i < |b| ==> b[i] < 256
    ensures AddLevels(AddLevels(hist, a), b) == AddLevels(hist, a + b)
  {
    if b == [] {
      assert a + b == a;
    } else {
      var b' := b[..|b| - 1];
      assert (a + b)[..|a + b| - 1] == a + b';
      AddLevelsConcat(hist, a, b');
    }
  }

  /** Bin k of the histogram is the number of occurrences of level k. */
  lemma {:induction false} HistogramCounts(s: seq<nat>, k: nat)
    requires forall i :: 0 <= i < |s| ==> s[i] < 256
    requires k < 256
    ensures Histogram(s)[k] == multiset(s)[k]
  {
    if s != [] {
      var p := s[..|s| - 1];
      assert s == p + [s[|s| - 1]];
      HistogramCounts(p, k);
    }
  }

  /** The histogram of the gradient levels, scanned row by row as the source does. */
  method GradientHistogram(dIx: seq<seq<real>>, dIy: seq<seq<real>>, h: nat, w: nat) returns (hist: seq<nat>)
    requires Covers(dIx, h, w) && Covers(dIy, h, w)
    ensures hist == Histogram(Levels(dIx, dIy, h, w))
  {
    hist := Histogram([]);
    var r := 0;
    while r < h
      invariant 0 <= r <= h
      invariant hist == Histogram(Levels(dIx, dIy, r, w))
    {
      assert |dIx[r]| >= w && |dIy[r]| >= w;
      hist := CountRow(hist, dIx[r], dIy[r], w);
      HistogramRowStep(dIx, dIy, r, w);
      r := r + 1;
    }
  }

  /** Counting the levels of row r into the histogram of rows 0 .. r-1 gives the histogram of
      rows 0 .. r. */
  lemma HistogramRowStep(dIx: seq<seq<real>>, dIy: seq<seq<real>>, r: nat, w: nat)
    requires Covers(dIx, r + 1, w) && Covers(dIy, r + 1, w)
    ensures Histogram(Levels(dIx, dIy, r + 1, w)) == AddLevels(Histogram(Levels(dIx, dIy, r, w)), RowLevels(dIx[r], dIy[r], w))
  {
    AddLevelsConcat(seq(256, _ => 0), Levels(dIx, dIy, r, w), RowLevels(dIx[r], dIy[r], w));
  }

  /** The inner loop of the histogram: adds the levels of one row. */
  method CountRow(hist0: seq<nat>, rx: seq<real>, ry: seq<real>, w: nat) returns (hist: seq<nat>)
    requires |hist0| == 256 && |rx| >= w && |ry| >= w
    ensures hist == AddLevels(hist0, RowLevels(rx, ry, w))
  {
    hist := hist0;
    var c := 0;
    while c < w
      invariant 0 <= c <= w
      invariant hist == AddLevels(hist0, RowLevels(rx, ry, c))
    {
      var g := GradientLevel(rx[c], ry[c]);
      hist := hist[g := hist[g] + 1];
      CountRowStep(hist0, rx, ry, c);
      c := c + 1;
    }
  }

  /** One more level of the row adds one count to its bin. */
  lemma CountRowStep(hist0: seq<nat>, rx: seq<real>, ry: seq<real>, c: nat)
    requires |hist0| == 256 && |rx| > c && |ry| > c
    ensures var before := AddLevels(hist0, RowLevels(rx, ry, c));
      var g := GradientLevel(rx[c], ry[c]);
      AddLevels(hist0, RowLevels(rx, ry, c + 1)) == before[g := before[g] + 1]
  {
    assert RowLevels(rx, ry, c + 1)[..c] == RowLevels(rx, ry, c);
  }

  /** computeCannyThreshold with the derivative images supplied by the caller:
      the upper threshold is max(bon, 1), the lower one lowerRatio·bon. */
  method ComputeCannyThreshold(dIx: seq<seq<real>>, dIy: seq<seq<real>>, h: nat, w: nat,
                               lowerRatio: real, upperRatio: real) returns (upper: real, lower: real, ghost bon: nat)
    requires Covers(dIx, h, w) && Covers(dIy, h, w)
    ensures var hist := Histogram(Levels(dIx, dIy, h, w));
      var t := CannyCut(upperRatio, w * h);
      (!SomeBinExceeds(hist, t) ==> bon == 0) &&
      (SomeBinExceeds(hist, t) ==>
         bon < 256 && Exceeds(hist, t, bon) && forall j :: 0 <= j < bon ==> !Exceeds(hist, t, j))
    ensures upper == if bon as real >= 1.0 then bon as real else 1.0
    ensures lower == lowerRatio * bon as real
  {
    var hist := GradientHistogram(dIx, dIy, h, w);
    var b := FirstBinAbove(hist, CannyCut(upperRatio, w * h));
    bon := b;
    upper := if b as real >= 1.0 then b as real else 1.0;
    lower := lowerRatio * b as real;
  }

  lemma {:induction false} CumCountBump(hist: seq<nat>, x: nat, n: nat)
    requires x < |hist| && n <= |hist|
    ensures CumCount(hist[x := hist[x] + 1], n) == CumCount(hist, n) + (if x < n then 1 else 0)
  {
    if n > 0 {
      CumCountBump(hist, x, n - 1);
    }
  }

  /** The 256 bins add up to the number of counted values. */
  lemma {:induction false} HistogramTotal(s: seq<nat>)
    requires forall i :: 0 <= i < |s| ==> s[i] < 256
    ensures CumCount(Histogram(s), |Histogram(s)|) == |s|
  {
    var hs := Histogram(s);
    if s == [] {
      ZeroCount(hs, |hs|);
    } else {
      var p, x := s[..|s| - 1], s[|s| - 1];
      HistogramTotal(p);
      var hp := Histogram(p);
      assert hs == hp[x := hp[x] + 1];
      CumCountBump(hp, x, |hp|);
    }
  }

  lemma {:induction false} ZeroCount(hist: seq<nat>, n: nat)
    requires n <= |hist| && forall k :: 0 <= k < |hist| ==> hist[k] == 0
    ensures CumCount(hist, n) == 0
  {
    if n > 0 {
      ZeroCount(hist, n - 1);
    }
  }

  /** On a non-empty image with upperRatio < 1 the search always finds a bin: the last
      cumulative count is w·h, which exceeds upperRatio·w·h. */
  lemma CannyBinAlwaysFound(dIx: seq<seq<real>>, dIy: seq<seq<real>>, h: nat, w: nat, upperRatio: real)
    requires Covers(dIx, h, w) && Covers(dIy, h, w)
    requires h > 0 && w > 0 && upperRatio < 1.0
    ensures SomeBinExceeds(Histogram(Levels(dIx, dIy, h, w)), CannyCut(upperRatio, w * h))
  {
    var levels := Levels(dIx, dIy, h, w);
    LevelsShape(dIx, dIy, h, w);
    HistogramTotal(levels);
    var hist := Histogram(levels);
    MulPositive(w, h);
    CutBelowTotal(CumCount(hist, |hist|), w * h, upperRatio);
    LastBinExceeds(hist, CannyCut(upperRatio, w * h));
  }

  /** A threshold below the total count is passed at the latest by the last bin. */
  lemma LastBinExceeds(hist: seq<nat>, t: real)
    requires |hist| > 0 && CumCount(hist, |hist|) as real > t
    ensures SomeBinExceeds(hist, t)
  {
    assert Exceeds(hist, t, |hist| - 1);
  }

  lemma MulPositive(a: nat, b: nat)
    requires a > 0 && b > 0
    ensures a * b > 0
  {
  }

  lemma {:induction false} LevelsShape(dIx: seq<seq<real>>, dIy: seq<seq<real>>, n: nat, w: nat)
    requires Covers(dIx, n, w) && Covers(dIy, n, w)
    ensures |Levels(dIx, dIy, n, w)| == w * n
    ensures forall i :: 0 <= i < |Levels(dIx, dIy, n, w)| ==> Levels(dIx, dIy, n, w)[i] < 256
  {
    if n > 0 {
      LevelsShape(dIx, dIy, n - 1, w);
      assert w * n == w * (n - 1) + w;
    }
  }

  /** A ratio below 1 gives a cut below any positive count. */
  lemma CutBelowTotal(c: nat, n: nat, u: real)
    requires c == n && n > 0 && u < 1.0
    ensures CannyCut(u, n) < c as real
  {
    var x := n as real;
    assert x - u * x == (1.0 - u) * x;
  }

  // ---------------------------------------------------------------------------
  // filter: correlation or convolution over the pixels the kernel fully covers
  // ---------------------------------------------------------------------------

  /** Row (or column) of the image read for kernel row (or column) a around output
      position p: p - half + a for a correlation, p + half - a for a convolution. */
  function Tap(p: int, half: nat, a: int, convolve: bool): int
  {
    if convolve then p + half - a else p - half + a
  }

  /** Output pixel (r, c) lies in [kh/2, h - kh/2) × [kw/2, w - kw/2), computed in
      signed arithmetic (see FilterRowLoopRuns for the unsigned bound of the source). */
  predicate Covered(h: nat, w: nat, kh: nat, kw: nat, r: int, c: int)
  {
    kh / 2 <= r < h - kh / 2 && kw / 2 <= c < w - kw / 2
  }

  /** Every one of the k taps around p reads inside [0, n). */
  predicate TapsFit(n: nat, k: nat, p: int, convolve: bool)
  {
    forall a :: 0 <= a < k ==> 0 <= Tap(p, k / 2, a, convolve) < n
  }

  /** Only pixels fully covered by the kernel are read: the taps of a covered position stay inside. */
  lemma CoveredTapsFit(n: nat, k: nat, p: int, convolve: bool)
    requires k / 2 <= p < n - k / 2
    ensures TapsFit(n, k, p, convolve)
  {
    assert k - 1 <= 2 * (k / 2) <= k;
  }

  /** Σ_{b < nb} M[a][b] · I[tap a][tap b]: the inner kernel loop over one kernel row. */
  function RowTerms(I: seq<seq<real>>, M: seq<seq<real>>, h: nat, w: nat, kh: nat, kw: nat,
                    r: int, c: int, convolve: bool, a: nat, nb: nat): real
    requires IsImage(I, h, w) && IsImage(M, kh, kw)
    requires TapsFit(h, kh, r, convolve) && TapsFit(w, kw, c, convolve)
    requires a < kh && nb <= kw
  {
    if nb == 0 then 0.0
    else
      RowTerms(I, M, h, w, kh, kw, r, c, convolve, a, nb - 1)
        + M[a][nb - 1] * I[Tap(r, kh / 2, a, convolve)][Tap(c, kw / 2, nb - 1, convolve)]
  }

  /** Σ_{a < na} Σ_{b < kw} M[a][b] · I[tap a][tap b]. */
  function KernelSum(I: seq<seq<real>>, M: seq<seq<real>>, h: nat, w: nat, kh: nat, kw: nat,
                     r: int, c: int, convolve: bool, na: nat): real
    requires IsImage(I, h, w) && IsImage(M, kh, kw)
    requires TapsFit(h, kh, r, convolve) && TapsFit(w, kw, c, convolve)
    requires na <= kh
  {
    if na == 0 then 0.0
    else KernelSum(I, M, h, w, kh, kw, r, c, convolve, na - 1) + RowTerms(I, M, h, w, kh, kw, r, c, convolve, na - 1, kw)
  }

  /** The value filter stores at (r, c): the full kernel sum where the kernel fits, 0 elsewhere. */
  function Filtered(I: seq<seq<real>>, M: seq<seq<real>>, h: nat, w: nat, kh: nat, kw: nat,
                    convolve: bool, r: int, c: int): real
    requires IsImage(I, h, w) && IsImage(M, kh, kw)
  {
    if Covered(h, w, kh, kw, r, c) then
      CoveredTapsFit(h, kh, r, convolve);
      CoveredTapsFit(w, kw, c, convolve);
      KernelSum(I, M, h, w, kh, kw, r, c, convolve, kh)
    else 0.0
  }

  /** One output pixel: the double loop over the kernel accumulating M[a][b] · I[tap a][tap b]. */
  method KernelPixel(I: seq<seq<real>>, M: seq<seq<real>>, h: nat, w: nat, kh: nat, kw: nat,
                     r: int, c: int, convolve: bool) returns (acc: real)
    requires IsImage(I, h, w) && IsImage(M, kh, kw)
    requires TapsFit(h, kh, r, convolve) && TapsFit(w, kw, c, convolve)
    ensures acc == KernelSum(I, M, h, w, kh, kw, r, c, convolve, kh)
  {
    acc := 0.0;
    var a := 0;
    while a < kh
      invariant 0 <= a <= kh
      invariant acc == KernelSum(I, M, h, w, kh, kw, r, c, convolve, a)
    {
      var row := KernelRowPixel(I, M, h, w, kh, kw, r, c, convolve, a);
      acc := acc + row;
      a := a + 1;
    }
  }

  /** The inner loop over kernel row a. */
  method KernelRowPixel(I: seq<seq<real>>, M: seq<seq<real>>, h: nat, w: nat, kh: nat, kw: nat,
                        r: int, c: int, convolve: bool, a: nat) returns (acc: real)
    requires IsImage(I, h, w) && IsImage(M, kh, kw)
    requires TapsFit(h, kh, r, convolve) && TapsFit(w, kw, c, convolve)
    requires a < kh
    ensures acc == RowTerms(I, M, h, w, kh, kw, r, c, convolve, a, kw)
  {
    acc := 0.0;
    var b := 0;
    while b < kw
      invariant 0 <= b <= kw
      invariant acc == RowTerms(I, M, h, w, kh, kw, r, c, convolve, a, b)
    {
      var val := I[Tap(r, kh / 2, a, convolve)][Tap(c, kw / 2, b, convolve)];
      acc := acc + M[a][b] * val;
      b := b + 1;
    }
  }

  /** vpImageFilter::filter with one output: the result has the size of the input, holds
      the kernel sum on the covered pixels and 0 everywhere else. */
  method Filter(I: seq<seq<real>>, h: nat, w: nat, M: seq<seq<real>>, kh: nat, kw: nat, convolve: bool)
    returns (If: array2<real>)
    requires IsImage(I, h, w) && IsImage(M, kh, kw)
    ensures fresh(If) && If.Length0 == h && If.Length1 == w
    ensures forall r, c :: 0 <= r < h && 0 <= c < w ==> If[r, c] == Filtered(I, M, h, w, kh, kw, convolve, r, c)
  {
    If := new real[h, w]((_, _) => 0.0);
    var i := kh / 2;
    while i < h - kh / 2
      invariant kh / 2 <= i
      invariant i <= h - kh / 2 || i == kh / 2
      invariant forall r, c :: 0 <= r < h && 0 <= c < w ==>
        If[r, c] == if r < i then Filtered(I, M, h, w, kh, kw, convolve, r, c) else 0.0
    {
      FilterRow(I, h, w, M, kh, kw, convolve, If, i);
      i := i + 1;
    }
  }

  /** The inner loop of filter over the covered columns of row i. */
  method FilterRow(I: seq<seq<real>>, h: nat, w: nat, M: seq<seq<real>>, kh: nat, kw: nat, convolve: bool,
                   If: array2<real>, i: int)
    requires IsImage(I, h, w) && IsImage(M, kh, kw)
    requires If.Length0 == h && If.Length1 == w
    requires kh / 2 <= i < h - kh / 2
    requires forall c :: 0 <= c < w ==> If[i, c] == 0.0
    modifies If
    ensures forall r, c :: 0 <= r < h && 0 <= c < w ==>
      If[r, c] == if r == i then Filtered(I, M, h, w, kh, kw, convolve, r, c) else old(If[r, c])
  {
    CoveredTapsFit(h, kh, i, convolve);
    var j := kw / 2;
    while j < w - kw / 2
      invariant kw / 2 <= j
      invariant j <= w - kw / 2 || j == kw / 2
      invariant forall r, c :: 0 <= r < h && 0 <= c < w ==>
        If[r, c] == if r == i && c < j then Filtered(I, M, h, w, kh, kw, convolve, r, c) else old(If[r, c])
    {
      CoveredTapsFit(w, kw, j, convolve);
      var v := KernelPixel(I, M, h, w, kh, kw, i, j, convolve);
      If[i, j] := v;
      j := j + 1;
    }
  }

  /** The transposed kernel, M^T[a][b] = M[b][a]. */
  function Transpose(M: seq<seq<real>>, k: nat): (T: seq<seq<real>>)
    requires IsImage(M, k, k)
    ensures IsImage(T, k, k)
    ensures forall a, b :: 0 <= a < k && 0 <= b < k ==> T[a][b] == M[b][a]
  {
    seq(k, a requires 0 <= a < k => seq(k, b requires 0 <= b < k => M[b][a]))
  }

  /** vpImageFilter::filter with two outputs: Iu is filtered by the square kernel M and Iv by
      its transpose (the source accumulates M[a][b] and M[b][a] in one pass). */
  method FilterUV(I: seq<seq<real>>, h: nat, w: nat, M: seq<seq<real>>, k: nat, convolve: bool)
    returns (Iu: array2<real>, Iv: array2<real>)
    requires IsImage(I, h, w) && IsImage(M, k, k)
    ensures fresh(Iu) && fresh(Iv) && Iu.Length0 == Iv.Length0 == h && Iu.Length1 == Iv.Length1 == w
    ensures forall r, c :: 0 <= r < h && 0 <= c < w ==>
      Iu[r, c] == Filtered(I, M, h, w, k, k, convolve, r, c) &&
      Iv[r, c] == Filtered(I, Transpose(M, k), h, w, k, k, convolve, r, c)
  {
    Iu := Filter(I, h, w, M, k, k, convolve);
    Iv := Filter(I, h, w, Transpose(M, k), k, k, convolve);
  }

  /** The row loop bound of filter, `I.getHeight() - half_size_y`, as an unsigned 32-bit value. */
  function FilterRowBound32(h: nat, half: nat): (b: int)
    requires h < 0x1_0000_0000 && half < 0x1_0000_0000
    ensures 0 <= b < 0x1_0000_0000
    ensures h >= half ==> b == h - half
    ensures h < half ==> b == h - half + 0x1_0000_0000
  {
    (h - half) % 0x1_0000_0000
  }

  /** As written, filter on a one-row image with a 5-row kernel enters its row loop (the bound
      wraps around) and reads kernel tap row 4 of an image that has only row 0. */
  lemma FilterRowLoopRuns()
    ensures var h, kh := 1, 5;
      kh / 2 < FilterRowBound32(h, kh / 2) && Tap(kh / 2, kh / 2, kh - 1, false) >= h
  {
  }

  /** With the signed bound no pixel of a too-small image is covered, so nothing is read. */
  lemma SmallImageNotCovered(h: nat, w: nat, kh: nat, kw: nat, r: int, c: int)
    requires h < kh / 2
    ensures !Covered(h, w, kh, kw, r, c)
  {
  }

  /** The k×k kernel with a single 1 at its centre. */
  function Delta(k: nat): (D: seq<seq<real>>)
    ensures IsImage(D, k, k)
  {
    seq(k, a => seq(k, b => if a == k / 2 && b == k / 2 then 1.0 else 0.0))
  }

  lemma {:induction false} RowTermsDelta(I: seq<seq<real>>, h: nat, w: nat, k: nat, r: int, c: int,
                                         convolve: bool, a: nat, nb: nat)
    requires IsImage(I, h, w) && TapsFit(h, k, r, convolve) && TapsFit(w, k, c, convolve)
    requires a < k && nb <= k && 0 <= r < h && 0 <= c < w
    ensures RowTerms(I, Delta(k), h, w, k, k, r, c, convolve, a, nb)
      == if a == k / 2 && nb > k / 2 then I[r][c] else 0.0
  {
    if nb > 0 {
      RowTermsDelta(I, h, w, k, r, c, convolve, a, nb - 1);
    }
  }

  lemma {:induction false} KernelSumDelta(I: seq<seq<real>>, h: nat, w: nat, k: nat, r: int, c: int,
                                          convolve: bool, na: nat)
    requires IsImage(I, h, w) && TapsFit(h, k, r, convolve) && TapsFit(w, k, c, convolve)
    requires na <= k && 0 <= r < h && 0 <= c < w
    ensures KernelSum(I, Delta(k), h, w, k, k, r, c, convolve, na) == if na > k / 2 then I[r][c] else 0.0
  {
    if na > 0 {
      KernelSumDelta(I, h, w, k, r, c, convolve, na - 1);
      RowTermsDelta(I, h, w, k, r, c, convolve, na - 1, k);
    }
  }

  /** Filtering with the centred unit kernel reproduces the input on every covered pixel,
      for a correlation as for a convolution, and gives 0 on the others. */
  lemma DeltaFilterIsIdentity(I: seq<seq<real>>, h: nat, w: nat, k: nat, convolve: bool, r: int, c: int)
    requires IsImage(I, h, w) && 0 <= r < h && 0 <= c < w && k > 0
    ensures Filtered(I, Delta(k), h, w, k, k, convolve, r, c)
      == if Covered(h, w, k, k, r, c) then I[r][c] else 0.0
  {
    if Covered(h, w, k, k, r, c) {
      CoveredTapsFit(h, k, r, convolve);
      CoveredTapsFit(w, k, c, convolve);
      KernelSumDelta(I, h, w, k, r, c, convolve, k);
    }
  }
}
