/** The gradient kernels of vpImageFilter: getSobelKernelY / getSobelKernelX and
    getScharrKernelY / getScharrKernelX. `size` is the half-width: the kernel has
    (2·size + 1)² coefficients, stored row by row as in the source's `filter` buffer. */
module ImageFilterKernels {
  import opened Wrappers
  import opened ImageFilter
  import opened Decimal

  const ScharrY3x3: seq<seq<real>> := [[-3.0, -10.0, -3.0], [0.0, 0.0, 0.0], [3.0, 10.0, 3.0]]

  const SobelY3x3: seq<seq<real>> := [[-1.0, -2.0, -1.0], [0.0, 0.0, 0.0], [1.0, 2.0, 1.0]]

  const SobelY5x5: seq<seq<real>> :=
    [[-1.0, -4.0, -6.0, -4.0, -1.0],
     [-2.0, -8.0, -12.0, -8.0, -2.0],
     [0.0, 0.0, 0.0, 0.0, 0.0],
     [2.0, 8.0, 12.0, 8.0, 2.0],
     [1.0, 4.0, 6.0, 4.0, 1.0]]

  const SobelY7x7: seq<seq<real>> :=
    [[-1.0, -6.0, -15.0, -20.0, -15.0, -6.0, -1.0],
     [-4.0, -24.0, -60.0, -80.0, -60.0, -24.0, -4.0],
     [-5.0, -30.0, -75.0, -100.0, -75.0, -30.0, -5.0],
     [0.0, 0.0, 0.0, 0.0, 0.0, 0.0, 0.0],
     [5.0, 30.0, 75.0, 100.0, 75.0, 30.0, 5.0],
     [4.0, 24.0, 60.0, 80.0, 60.0, 24.0, 4.0],
     [1.0, 6.0, 15.0, 20.0, 15.0, 6.0, 1.0]]

  /** Kernel side 2·size + 1. */
  function KernelSide(size: nat): nat
  {
    2 * size + 1
  }

  /** A gradient kernel: its rows of coefficients and the scale that normalises them. */
  datatype Kernel = Kernel(coefficients: seq<seq<real>>, scale: real)

  // ---------------------------------------------------------------------------
  // Scharr
  // ---------------------------------------------------------------------------

  /** The message of the Scharr size check: the kernel side 2·size + 1, computed in unsigned
      arithmetic. */
  function ScharrSizeError(size: nat): string
  {
    "Cannot get Scharr kernel of size " + NatToString((size * 2 + 1) % 0x1_0000_0000) + " != 3"
  }

  /** getScharrKernelY: only size 1 (a 3×3 kernel) exists; any other size is a dimension error. */
  function ScharrKernelY(size: nat): (r: Result<Kernel>)
    ensures r.Ok? <==> size == 1
    ensures r.Err? ==> r.error == ScharrSizeError(size)
    ensures r.Ok? ==> IsImage(r.value.coefficients, KernelSide(size), KernelSide(size))
  {
    if size != 1 then Err(ScharrSizeError(size))
    else Ok(Kernel(ScharrY3x3, 1.0 / 32.0))
  }

  /** getScharrKernelX: the transpose of the Y kernel with the same scale and the same error. */
  function ScharrKernelX(size: nat): (r: Result<Kernel>)
    ensures r.Ok? <==> size == 1
    ensures r.Err? ==> r.error == ScharrSizeError(size)
    ensures r.Ok? ==>
      ScharrKernelY(size).Ok? && r.value.scale == ScharrKernelY(size).value.scale &&
      r.value.coefficients == Transpose(ScharrKernelY(size).value.coefficients, 3)
  {
    var y :- ScharrKernelY(size);
    Ok(Kernel(Transpose(y.coefficients, 3), y.scale))
  }

  // ---------------------------------------------------------------------------
  // Sobel
  // ---------------------------------------------------------------------------

  /** (1/16)^k. */
  function InvPow16(k: nat): (p: real)
    ensures 0.0 < p <= 1.0
  {
    if k == 0 then 1.0 else InvPow16(k - 1) / 16.0
  }

  /** The Sobel scale: 1/8 for the 3×3 kernel, divided by 16 for each larger size. */
  function SobelScale(size: nat): real
    requires size >= 1
  {
    InvPow16(size - 1) / 8.0
  }

  /** The precomputed Sobel tables; larger kernels come from vpArray2D::conv2, which is
      not part of this model. */
  function SobelTableY(size: nat): Option<seq<seq<real>>>
  {
    if size == 1 then Some(SobelY3x3)
    else if size == 2 then Some(SobelY5x5)
    else if size == 3 then Some(SobelY7x7)
    else None
  }

  /** getSobelKernelY: a dimension error for size 0 or size > 20, otherwise the scale
      1/8·(1/16)^(size-1), and for sizes 1 to 3 the precomputed table. */
  method GetSobelKernelY(size: nat) returns (scale: Result<real>, table: Option<seq<seq<real>>>)
    ensures scale.Err? <==> size == 0 || size > 20
    ensures scale.Ok? ==> scale.value == SobelScale(size) && table == SobelTableY(size)
    ensures table.Some? ==> IsImage(table.value, KernelSide(size), KernelSide(size))
  {
    table := None;
    if size == 0 {
      return Err("Cannot get Sobel kernel of size 0!"), None;
    }
    if size > 20 {
      return Err("Cannot get Sobel kernel of size > 20!"), None;
    }
    var s := 1.0 / 8.0;
    if size == 1 {
      return Ok(s), Some(SobelY3x3);
    }
    s := s * (1.0 / 16.0);
    if size == 2 {
      return Ok(s), Some(SobelY5x5);
    }
    s := s * (1.0 / 16.0);
    if size == 3 {
      return Ok(s), Some(SobelY7x7);
    }
    var i := 4;
    while i <= size
      invariant 4 <= i <= size + 1
      invariant s == InvPow16(i - 2) / 8.0
    {
      s := s * (1.0 / 16.0);
      i := i + 1;
    }
    scale := Ok(s);
  }

  /** getSobelKernelX: the same scale and errors, and the transposed table. */
  method GetSobelKernelX(size: nat) returns (scale: Result<real>, table: Option<seq<seq<real>>>)
    ensures scale.Err? <==> size == 0 || size > 20
    ensures scale.Ok? ==> scale.value == SobelScale(size)
    ensures scale.Ok? && SobelTableY(size).Some? ==>
      table == Some(Transpose(SobelTableY(size).value, KernelSide(size)))
  {
    if size == 0 {
      return Err("Cannot get Sobel kernel of size 0!"), None;
    }
    if size > 20 {
      return Err("Cannot get Sobel kernel of size > 20!"), None;
    }
    var tableY;
    scale, tableY := GetSobelKernelY(size);
    table := None;
    if tableY.Some? {
      table := Some(Transpose(tableY.value, KernelSide(size)));
    }
  }

  // ---------------------------------------------------------------------------
  // Properties of the tables
  // ---------------------------------------------------------------------------

  /** Σ_{b < m} row[b]. */
  function RowSum(row: seq<real>, m: nat): real
    requires m <= |row|
  {
    if m == 0 then 0.0 else RowSum(row, m - 1) + row[m - 1]
  }

  /** Σ_{a < m} (a - n/2)·RowSum(K[a]): the response of an n×n kernel centred on a unit
      vertical ramp (a ramp whose value grows by 1 per row). */
  function RampResponseY(K: seq<seq<real>>, n: nat, m: nat): real
    requires IsImage(K, n, n) && m <= n
  {
    if m == 0 then 0.0
    else RampResponseY(K, n, m - 1) + ((m - 1 - n / 2) as real) * RowSum(K[m - 1], n)
  }

  /** Row a is the negation of row n-1-a (so the middle row is 0) and every row is symmetric. */
  predicate VerticalGradientShape(K: seq<seq<real>>, n: nat)
    requires IsImage(K, n, n)
  {
    (forall a, b {:trigger K[a][b]} :: 0 <= a < n && 0 <= b < n ==> K[n - 1 - a][b] == -K[a][b]) &&
    (forall a, b {:trigger K[a][b]} :: 0 <= a < n && 0 <= b < n ==> K[a][n - 1 - b] == K[a][b])
  }

  /** The Scharr kernel is a vertical gradient, and its scale normalises the response to a
      unit vertical ramp to exactly 1. */
  lemma ScharrNormalised()
    ensures ScharrKernelY(1).Ok?
    ensures var k := ScharrKernelY(1).value;
      VerticalGradientShape(k.coefficients, 3) && k.scale * RampResponseY(k.coefficients, 3, 3) == 1.0
  {
    assert RampResponseY(ScharrY3x3, 3, 3) == 32.0;
  }

  /** Each precomputed Sobel table is a vertical gradient, and SobelScale normalises its
      response to a unit vertical ramp to exactly 1. */
  lemma SobelNormalised(size: nat)
    requires 1 <= size <= 3
    ensures var n := KernelSide(size);
      SobelTableY(size).Some? && IsImage(SobelTableY(size).value, n, n) &&
      VerticalGradientShape(SobelTableY(size).value, n) &&
      SobelScale(size) * RampResponseY(SobelTableY(size).value, n, n) == 1.0
  {
    if size == 1 {
      assert RampResponseY(SobelY3x3, 3, 3) == 8.0;
    } else if size == 2 {
      Sobel5x5Response();
    } else {
      Sobel7x7Response();
    }
  }

  lemma Sobel5x5Response()
    ensures IsImage(SobelY5x5, 5, 5) && VerticalGradientShape(SobelY5x5, 5)
    ensures SobelScale(2) * RampResponseY(SobelY5x5, 5, 5) == 1.0
  {
    Sobel5x5Shape();
    Sobel5x5Ramp();
    assert InvPow16(1) == 1.0 / 16.0;
  }

  lemma Sobel5x5Shape()
    ensures IsImage(SobelY5x5, 5, 5) && VerticalGradientShape(SobelY5x5, 5)
  {
  }

  lemma Sobel5x5Ramp()
    ensures RampResponseY(SobelY5x5, 5, 5) == 128.0
  {
    var K := SobelY5x5;
    assert RowSum(K[0], 5) == -16.0;
    assert RowSum(K[1], 5) == -32.0;
    assert RowSum(K[3], 5) == 32.0;
    assert RowSum(K[4], 5) == 16.0;
    assert RampResponseY(K, 5, 1) == 32.0;
    assert RampResponseY(K, 5, 2) == 64.0;
    assert RampResponseY(K, 5, 3) == 64.0;
    assert RampResponseY(K, 5, 4) == 96.0;
  }

  lemma Sobel7x7Response()
    ensures IsImage(SobelY7x7, 7, 7) && VerticalGradientShape(SobelY7x7, 7)
    ensures SobelScale(3) * RampResponseY(SobelY7x7, 7, 7) == 1.0
  {
    Sobel7x7Shape();
    Sobel7x7Ramp();
    assert InvPow16(2) == 1.0 / 256.0;
  }

  lemma Sobel7x7Shape()
    ensures IsImage(SobelY7x7, 7, 7) && VerticalGradientShape(SobelY7x7, 7)
  {
    var K := SobelY7x7;
    forall a | 0 <= a < 7
      ensures |K[a]| == 7 && SymmetricRow(K[a]) && NegatedRow(K[a], K[6 - a])
    {
      Sobel7x7Row(a);
    }
  }

  /** Row a of the 7×7 table is symmetric and row 6 - a is its negation. */
  lemma Sobel7x7Row(a: nat)
    requires a < 7
    ensures |SobelY7x7[a]| == 7 && SymmetricRow(SobelY7x7[a]) && NegatedRow(SobelY7x7[a], SobelY7x7[6 - a])
  {
    var K := SobelY7x7;
    if a == 0 {
      SevenSymmetric(K[0]); SevenNegated(K[0], K[6]);
    } else if a == 1 {
      SevenSymmetric(K[1]); SevenNegated(K[1], K[5]);
    } else if a == 2 {
      SevenSymmetric(K[2]); SevenNegated(K[2], K[4]);
    } else if a == 3 {
      SevenSymmetric(K[3]); SevenNegated(K[3], K[3]);
    } else if a == 4 {
      SevenSymmetric(K[4]); SevenNegated(K[4], K[2]);
    } else if a == 5 {
      SevenSymmetric(K[5]); SevenNegated(K[5], K[1]);
    } else {
      SevenSymmetric(K[6]); SevenNegated(K[6], K[0]);
    }
  }

  lemma SevenSymmetric(r: seq<real>)
    requires |r| == 7 && r[0] == r[6] && r[1] == r[5] && r[2] == r[4]
    ensures SymmetricRow(r)
  {
  }

  lemma SevenNegated(p: seq<real>, q: seq<real>)
    requires |p| == |q| == 7
    requires q[0] == -p[0] && q[1] == -p[1] && q[2] == -p[2] && q[3] == -p[3]
    requires q[4] == -p[4] && q[5] == -p[5] && q[6] == -p[6]
    ensures NegatedRow(p, q)
  {
  }

  /** The row reads the same from both ends. */
  predicate SymmetricRow(r: seq<real>)
  {
    forall b {:trigger r[b]} :: 0 <= b < |r| ==> r[|r| - 1 - b] == r[b]
  }

  /** Row q is the negation of row p. */
  predicate NegatedRow(p: seq<real>, q: seq<real>)
  {
    |q| == |p| && forall b :: 0 <= b < |p| ==> q[b] == -p[b]
  }

  lemma Sobel7x7Ramp()
    ensures RampResponseY(SobelY7x7, 7, 7) == 2048.0
  {
    var K := SobelY7x7;
    assert RowSum(K[0], 7) == -64.0;
    assert RowSum(K[1], 7) == -256.0;
    assert RowSum(K[2], 7) == -320.0;
    assert RowSum(K[4], 7) == 320.0;
    assert RowSum(K[5], 7) == 256.0;
    assert RowSum(K[6], 7) == 64.0;
    assert RampResponseY(K, 7, 1) == 192.0;
    assert RampResponseY(K, 7, 2) == 704.0;
    assert RampResponseY(K, 7, 3) == 1024.0;
    assert RampResponseY(K, 7, 4) == 1024.0;
    assert RampResponseY(K, 7, 5) == 1344.0;
    assert RampResponseY(K, 7, 6) == 1856.0;
  }
}
