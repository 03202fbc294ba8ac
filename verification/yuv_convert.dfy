/** YUV to RGB(a) and grey pixel converters of vpImageConvert.
    Buffers are arrays of bytes; the converters write their output array in place. */
module YuvConvert {

  type byte = x: int | 0 <= x < 256

  /** vpRGBa::alpha_default (255 in ViSP); vpRGBa.h is not part of this model. */
  const AlphaDefault: byte := 255

  /** The vpSAT macro: `c & ~255` is nonzero exactly when c lies outside [0,255]. */
  function Sat(c: int): (r: byte)
    ensures 0 <= c <= 255 ==> r == c
    ensures c < 0 ==> r == 0
    ensures c > 255 ==> r == 255
  {
    if c < 0 || c > 255 then (if c < 0 then 0 else 255) else c
  }

  /** The clamp of the 4:2:2, 4:1:1 and 4:4:4 converters: `(c >> 8) > 0` gives 255,
      otherwise a negative value gives 0. It agrees with vpSAT. */
  function ClampShift(c: int): (r: byte)
    ensures r == Sat(c)
  {
    if c / 256 > 0 then 255 else if c < 0 then 0 else c
  }

  lemma SatMonotone(a: int, b: int)
    requires a <= b
    ensures Sat(a) <= Sat(b)
  {}

  /** C++ conversion of a real to int: truncation toward zero of num/den. */
  function TruncDiv(num: int, den: int): (q: int)
    requires den > 0
    ensures num >= 0 ==> q * den <= num < q * den + den
    ensures num < 0 ==> q * den - den < num <= q * den
  {
    if num >= 0 then num / den else -((-num) / den)
  }

  /** `int((u - 128) * 0.354)`. The exact product is an integer only for u = 128 and
      otherwise lies at least 1/1000 away from one, so rounding of the double product
      never changes the truncated value. */
  function ChromaU(u: byte): int { TruncDiv((u - 128) * 354, 1000) }

  /** `int((v - 128) * 0.707)`. */
  function ChromaV(v: byte): int { TruncDiv((v - 128) * 707, 1000) }

  lemma ChromaBounds(u: byte)
    ensures -45 <= ChromaU(u) <= 44 && -90 <= ChromaV(u) <= 89
    ensures ChromaU(128) == 0 && ChromaV(128) == 0
    ensures u >= 128 ==> ChromaU(u) >= 0 && ChromaV(u) >= 0
    ensures u < 128 ==> ChromaU(u) <= 0 && ChromaV(u) <= 0
  {}

  datatype Rgb = Rgb(r: byte, g: byte, b: byte)

  /** One pixel of the YUYV converters: fixed-point coefficients and floor shifts. */
  function YuyvRgb(y: byte, u: byte, v: byte): Rgb
  {
    var cb := ((u - 128) * 454) / 256;
    var cg := ((u - 128) * 88 + (v - 128) * 183) / 256;
    var cr := ((v - 128) * 359) / 256;
    Rgb(Sat(y + cr), Sat(y - cg), Sat(y + cb))
  }

  /** One pixel of the 4:2:2, 4:1:1 and 4:4:4 converters: R = Y + 2V, G = Y - U - V, B = Y + 5U. */
  function YuvRgb(y: byte, u: byte, v: byte): Rgb
  {
    var U := ChromaU(u);
    var V := ChromaV(v);
    Rgb(ClampShift(y + 2 * V), ClampShift(y - U - V), ClampShift(y + 5 * U))
  }

  /** Packed layouts: YUYV (y0 u y1 v), YUV422 (u y0 v y1), YUV411 (u y0 y1 v y2 y3), YUV444 (u y v). */
  datatype Format = YUYV | YUV422 | YUV411 | YUV444

  function GroupBytes(f: Format): nat
  {
    match f
    case YUYV => 4
    case YUV422 => 4
    case YUV411 => 6
    case YUV444 => 3
  }

  function GroupPixels(f: Format): nat
  {
    match f
    case YUYV => 2
    case YUV422 => 2
    case YUV411 => 4
    case YUV444 => 1
  }

  /** Number of source bytes read for the first n pixels. */
  function SrcBytes(f: Format, n: nat): nat
  {
    GroupBytes(f) * ((n + GroupPixels(f) - 1) / GroupPixels(f))
  }

  /** Source index of the luma byte of pixel p. */
  function LumaIndex(f: Format, p: nat): nat
  {
    match f
    case YUYV => 4 * (p / 2) + 2 * (p % 2)
    case YUV422 => 4 * (p / 2) + 1 + 2 * (p % 2)
    case YUV411 => 6 * (p / 4) + (if p % 4 < 2 then 1 + p % 4 else 2 + p % 4)
    case YUV444 => 3 * p + 1
  }

  function UIndex(f: Format, p: nat): nat
  {
    match f
    case YUYV => 4 * (p / 2) + 1
    case YUV422 => 4 * (p / 2)
    case YUV411 => 6 * (p / 4)
    case YUV444 => 3 * p
  }

  function VIndex(f: Format, p: nat): nat
  {
    match f
    case YUYV => 4 * (p / 2) + 3
    case YUV422 => 4 * (p / 2) + 2
    case YUV411 => 6 * (p / 4) + 3
    case YUV444 => 3 * p + 2
  }

  /** The three bytes of pixel p lie in its own group, inside the first SrcBytes(f, n) bytes. */
  lemma IndicesInGroup(f: Format, p: nat, n: nat)
    requires p < n
    ensures GroupBytes(f) * (p / GroupPixels(f)) <= UIndex(f, p)
    ensures LumaIndex(f, p) < SrcBytes(f, n) && UIndex(f, p) < SrcBytes(f, n) && VIndex(f, p) < SrcBytes(f, n)
    ensures LumaIndex(f, p) < GroupBytes(f) * (p / GroupPixels(f) + 1)
    ensures VIndex(f, p) < GroupBytes(f) * (p / GroupPixels(f) + 1)
  {
    var k := p / GroupPixels(f);
    var m := (n + GroupPixels(f) - 1) / GroupPixels(f);
    assert k + 1 <= m;
    assert GroupBytes(f) * (k + 1) <= GroupBytes(f) * m;
  }

  function PixelRgb(f: Format, s: seq<byte>, p: nat): Rgb
    requires LumaIndex(f, p) < |s| && UIndex(f, p) < |s| && VIndex(f, p) < |s|
  {
    var y, u, v := s[LumaIndex(f, p)], s[UIndex(f, p)], s[VIndex(f, p)];
    if f == YUYV then YuyvRgb(y, u, v) else YuvRgb(y, u, v)
  }

  function Channel(c: Rgb, k: nat): byte
    requires k < 3
  {
    if k == 0 then c.r else if k == 1 then c.g else c.b
  }

  /** Byte i of an RGBa output: R, G, B of pixel i/4, then alpha_default
      (0 past the end of a source too short to hold that pixel). */
  function RgbaByte(f: Format, s: seq<byte>, i: nat): byte
  {
    if |s| < SrcBytes(f, i / 4 + 1) then 0
    else
      IndicesInGroup(f, i / 4, i / 4 + 1);
      if i % 4 == 3 then AlphaDefault else Channel(PixelRgb(f, s, i / 4), i % 4)
  }

  /** Byte i of an RGB output: R, G, B of pixel i/3. */
  function RgbByte(f: Format, s: seq<byte>, i: nat): byte
  {
    if |s| < SrcBytes(f, i / 3 + 1) then 0
    else
      IndicesInGroup(f, i / 3, i / 3 + 1);
      Channel(PixelRgb(f, s, i / 3), i % 3)
  }

  /** Writes the 4 bytes (R, G, B, alpha_default) of each of the first n pixels. */
  method ConvertToRgba(f: Format, src: array<byte>, dst: array<byte>, n: nat)
    requires src != dst
    requires src.Length >= SrcBytes(f, n)
    requires dst.Length >= 4 * n
    modifies dst
    ensures forall i :: 0 <= i < 4 * n ==> dst[i] == RgbaByte(f, src[..], i)
    ensures forall i :: 4 * n <= i < dst.Length ==> dst[i] == old(dst[i])
  {
    ghost var s := src[..];
    var p := 0;
    while p < n
      invariant 0 <= p <= n
      invariant src[..] == s
      invariant forall i :: 0 <= i < 4 * p ==> dst[i] == RgbaByte(f, s, i)
      invariant forall i :: 4 * p <= i < dst.Length ==> dst[i] == old(dst[i])
    {
      assert LumaIndex(f, p) < src.Length && UIndex(f, p) < src.Length && VIndex(f, p) < src.Length by {
        SrcBytesMonotone(f, p + 1, n);
        IndicesInGroup(f, p, p + 1);
      }
      var px := PixelRgb(f, src[..], p);
      ghost var before := dst[..];
      WritePixel(dst, p, 4, px);
      RgbaStep(f, s, n, p, px, before, dst[..]);
      p := p + 1;
    }
  }

  /** Writes the 3 bytes (R, G, B) of each of the first n pixels. */
  method ConvertToRgb(f: Format, src: array<byte>, dst: array<byte>, n: nat)
    requires src != dst
    requires src.Length >= SrcBytes(f, n)
    requires dst.Length >= 3 * n
    modifies dst
    ensures forall i :: 0 <= i < 3 * n ==> dst[i] == RgbByte(f, src[..], i)
    ensures forall i :: 3 * n <= i < dst.Length ==> dst[i] == old(dst[i])
  {
    ghost var s := src[..];
    var p := 0;
    while p < n
      invariant 0 <= p <= n
      invariant src[..] == s
      invariant forall i :: 0 <= i < 3 * p ==> dst[i] == RgbByte(f, s, i)
      invariant forall i :: 3 * p <= i < dst.Length ==> dst[i] == old(dst[i])
    {
      assert LumaIndex(f, p) < src.Length && UIndex(f, p) < src.Length && VIndex(f, p) < src.Length by {
        SrcBytesMonotone(f, p + 1, n);
        IndicesInGroup(f, p, p + 1);
      }
      var px := PixelRgb(f, src[..], p);
      ghost var before := dst[..];
      WritePixel(dst, p, 3, px);
      RgbStep(f, s, n, p, px, before, dst[..]);
      p := p + 1;
    }
  }

  /** One step of the converters' loops: the `bpp` output bytes of pixel p (3 for RGB, 4 for
      RGBa) are the channels of its colour px, then alpha_default. */
  method WritePixel(dst: array<byte>, p: nat, bpp: nat, px: Rgb)
    requires bpp == 3 || bpp == 4
    requires dst.Length >= bpp * p + bpp
    modifies dst
    ensures forall i :: 0 <= i < dst.Length ==>
      dst[i] == if bpp * p <= i < bpp * p + bpp then OutOfPixel(px, i - bpp * p) else old(dst[i])
  {
    var o := bpp * p;
    dst[o] := px.r;
    dst[o + 1] := px.g;
    dst[o + 2] := px.b;
    if bpp == 4 {
      dst[o + 3] := AlphaDefault;
    }
  }

  /** One pass of the RGBa loop: the output that was right below pixel p, with the bytes of
      pixel p written, is right below pixel p + 1. */
  lemma RgbaStep(f: Format, s: seq<byte>, n: nat, p: nat, px: Rgb, before: seq<byte>, after: seq<byte>)
    requires p < n && |s| >= SrcBytes(f, n)
    requires LumaIndex(f, p) < |s| && UIndex(f, p) < |s| && VIndex(f, p) < |s| && px == PixelRgb(f, s, p)
    requires |after| == |before| >= 4 * p + 4
    requires forall i :: 0 <= i < 4 * p ==> before[i] == RgbaByte(f, s, i)
    requires forall i :: 0 <= i < |after| ==>
      after[i] == if 4 * p <= i < 4 * p + 4 then OutOfPixel(px, i - 4 * p) else before[i]
    ensures forall i :: 0 <= i < 4 * p + 4 ==> after[i] == RgbaByte(f, s, i)
  {
    SrcBytesMonotone(f, p + 1, n);
    RgbaPixelBytes(f, s, p);
  }

  /** One pass of the RGB loop. */
  lemma RgbStep(f: Format, s: seq<byte>, n: nat, p: nat, px: Rgb, before: seq<byte>, after: seq<byte>)
    requires p < n && |s| >= SrcBytes(f, n)
    requires LumaIndex(f, p) < |s| && UIndex(f, p) < |s| && VIndex(f, p) < |s| && px == PixelRgb(f, s, p)
    requires |after| == |before| >= 3 * p + 3
    requires forall i :: 0 <= i < 3 * p ==> before[i] == RgbByte(f, s, i)
    requires forall i :: 0 <= i < |after| ==>
      after[i] == if 3 * p <= i < 3 * p + 3 then OutOfPixel(px, i - 3 * p) else before[i]
    ensures forall i :: 0 <= i < 3 * p + 3 ==> after[i] == RgbByte(f, s, i)
  {
    SrcBytesMonotone(f, p + 1, n);
    RgbPixelBytes(f, s, p);
  }

  /** The RGBa bytes of pixel p are its R, G, B channels, then alpha_default. */
  lemma RgbaPixelBytes(f: Format, s: seq<byte>, p: nat)
    requires |s| >= SrcBytes(f, p + 1)
    requires LumaIndex(f, p) < |s| && UIndex(f, p) < |s| && VIndex(f, p) < |s|
    ensures forall i :: 4 * p <= i < 4 * p + 4 ==> RgbaByte(f, s, i) == OutOfPixel(PixelRgb(f, s, p), i - 4 * p)
  {
    forall i | 4 * p <= i < 4 * p + 4
      ensures RgbaByte(f, s, i) == OutOfPixel(PixelRgb(f, s, p), i - 4 * p)
    {
      assert i / 4 == p && i % 4 == i - 4 * p;
    }
  }

  /** The RGB bytes of pixel p are its R, G, B channels. */
  lemma RgbPixelBytes(f: Format, s: seq<byte>, p: nat)
    requires |s| >= SrcBytes(f, p + 1)
    requires LumaIndex(f, p) < |s| && UIndex(f, p) < |s| && VIndex(f, p) < |s|
    ensures forall i :: 3 * p <= i < 3 * p + 3 ==> RgbByte(f, s, i) == OutOfPixel(PixelRgb(f, s, p), i - 3 * p)
  {
    forall i | 3 * p <= i < 3 * p + 3
      ensures RgbByte(f, s, i) == OutOfPixel(PixelRgb(f, s, p), i - 3 * p)
    {
      assert i / 3 == p && i % 3 == i - 3 * p;
    }
  }

  /** Byte c of the output of one pixel: R, G, B, then alpha_default. */
  function OutOfPixel(px: Rgb, c: nat): byte
  {
    if c == 0 then px.r else if c == 1 then px.g else if c == 2 then px.b else AlphaDefault
  }

  lemma SrcBytesMonotone(f: Format, m: nat, n: nat)
    requires m <= n
    ensures SrcBytes(f, m) <= SrcBytes(f, n)
  {
    var g := GroupPixels(f);
    assert (m + g - 1) / g <= (n + g - 1) / g;
  }

  lemma DivInBlock(i: int, p: int, w: int)
    requires w > 0 && w * p <= i < w * p + w
    ensures i / w == p && i % w == i - w * p
  {
    var q, r := i / w, i % w;
    assert i == w * q + r && 0 <= r < w;
    if q < p {
      MulLe(w, q + 1, p);
    } else if q > p {
      MulLe(w, p + 1, q);
    }
  }

  lemma MulLe(w: nat, a: int, b: int)
    requires a <= b
    ensures w * a + w * (b - a) == w * b
    ensures w * a <= w * b
  {
    assert w * b - w * a == w * (b - a);
  }

  /** Writes the luma byte of each of the first n pixels. */
  method ExtractLuma(f: Format, src: array<byte>, dst: array<byte>, n: nat)
    requires src != dst
    requires src.Length >= SrcBytes(f, n) && dst.Length >= n
    modifies dst
    ensures forall p :: 0 <= p < n ==> LumaIndex(f, p) < src.Length && dst[p] == src[LumaIndex(f, p)]
    ensures forall i :: n <= i < dst.Length ==> dst[i] == old(dst[i])
  {
    var p := 0;
    while p < n
      invariant 0 <= p <= n
      invariant forall q :: 0 <= q < p ==> LumaIndex(f, q) < src.Length && dst[q] == src[LumaIndex(f, q)]
      invariant forall i :: p <= i < dst.Length ==> dst[i] == old(dst[i])
    {
      IndicesInGroup(f, p, n);
      dst[p] := src[LumaIndex(f, p)];
      p := p + 1;
    }
  }

  /** YUYVToRGBa: each row holds width>>1 groups of 4 bytes, each giving 2 RGBa pixels. */
  method YUYVToRGBa(yuyv: array<byte>, rgba: array<byte>, width: nat, height: nat)
    requires yuyv != rgba
    requires yuyv.Length >= 4 * (height * (width / 2)) && rgba.Length >= 8 * (height * (width / 2))
    modifies rgba
    ensures forall i :: 0 <= i < 8 * (height * (width / 2)) ==> rgba[i] == RgbaByte(YUYV, yuyv[..], i)
    ensures forall i :: 8 * (height * (width / 2)) <= i < rgba.Length ==> rgba[i] == old(rgba[i])
  {
    var groups := height * (width / 2);
    assert SrcBytes(YUYV, 2 * groups) == 4 * groups;
    ConvertToRgba(YUYV, yuyv, rgba, 2 * groups);
  }

  method YUYVToRGB(yuyv: array<byte>, rgb: array<byte>, width: nat, height: nat)
    requires yuyv != rgb
    requires yuyv.Length >= 4 * (height * (width / 2)) && rgb.Length >= 6 * (height * (width / 2))
    modifies rgb
    ensures forall i :: 0 <= i < 6 * (height * (width / 2)) ==> rgb[i] == RgbByte(YUYV, yuyv[..], i)
    ensures forall i :: 6 * (height * (width / 2)) <= i < rgb.Length ==> rgb[i] == old(rgb[i])
  {
    var groups := height * (width / 2);
    assert SrcBytes(YUYV, 2 * groups) == 4 * groups;
    ConvertToRgb(YUYV, yuyv, rgb, 2 * groups);
  }

  /** Number of 4-byte steps of `while (j < 2 * size) j += 4`. */
  function HalfGroups(size: nat): nat { (2 * size + 3) / 4 }

  method YUYVToGrey(yuyv: array<byte>, grey: array<byte>, size: nat)
    requires yuyv != grey
    requires yuyv.Length >= 4 * HalfGroups(size) && grey.Length >= 2 * HalfGroups(size)
    modifies grey
    ensures forall p :: 0 <= p < 2 * HalfGroups(size) ==> LumaIndex(YUYV, p) < yuyv.Length && grey[p] == yuyv[LumaIndex(YUYV, p)]
    ensures forall i :: 2 * HalfGroups(size) <= i < grey.Length ==> grey[i] == old(grey[i])
  {
    assert SrcBytes(YUYV, 2 * HalfGroups(size)) == 4 * HalfGroups(size);
    ExtractLuma(YUYV, yuyv, grey, 2 * HalfGroups(size));
  }

  method YUV422ToRGBa(yuv: array<byte>, rgba: array<byte>, size: nat)
    requires yuv != rgba
    requires yuv.Length >= 4 * (size / 2) && rgba.Length >= 8 * (size / 2)
    modifies rgba
    ensures forall i :: 0 <= i < 8 * (size / 2) ==> rgba[i] == RgbaByte(YUV422, yuv[..], i)
    ensures forall i :: 8 * (size / 2) <= i < rgba.Length ==> rgba[i] == old(rgba[i])
  {
    assert SrcBytes(YUV422, 2 * (size / 2)) == 4 * (size / 2);
    ConvertToRgba(YUV422, yuv, rgba, 2 * (size / 2));
  }

  method YUV422ToRGB(yuv: array<byte>, rgb: array<byte>, size: nat)
    requires yuv != rgb
    requires yuv.Length >= 4 * (size / 2) && rgb.Length >= 6 * (size / 2)
    modifies rgb
    ensures forall i :: 0 <= i < 6 * (size / 2) ==> rgb[i] == RgbByte(YUV422, yuv[..], i)
    ensures forall i :: 6 * (size / 2) <= i < rgb.Length ==> rgb[i] == old(rgb[i])
  {
    assert SrcBytes(YUV422, 2 * (size / 2)) == 4 * (size / 2);
    ConvertToRgb(YUV422, yuv, rgb, 2 * (size / 2));
  }

  method YUV422ToGrey(yuv: array<byte>, grey: array<byte>, size: nat)
    requires yuv != grey
    requires yuv.Length >= 4 * HalfGroups(size) && grey.Length >= 2 * HalfGroups(size)
    modifies grey
    ensures forall p :: 0 <= p < 2 * HalfGroups(size) ==> LumaIndex(YUV422, p) < yuv.Length && grey[p] == yuv[LumaIndex(YUV422, p)]
    ensures forall i :: 2 * HalfGroups(size) <= i < grey.Length ==> grey[i] == old(grey[i])
  {
    assert SrcBytes(YUV422, 2 * HalfGroups(size)) == 4 * HalfGroups(size);
    ExtractLuma(YUV422, yuv, grey, 2 * HalfGroups(size));
  }

  method YUV411ToRGBa(yuv: array<byte>, rgba: array<byte>, size: nat)
    requires yuv != rgba
    requires yuv.Length >= 6 * (size / 4) && rgba.Length >= 16 * (size / 4)
    modifies rgba
    ensures forall i :: 0 <= i < 16 * (size / 4) ==> rgba[i] == RgbaByte(YUV411, yuv[..], i)
    ensures forall i :: 16 * (size / 4) <= i < rgba.Length ==> rgba[i] == old(rgba[i])
  {
    assert SrcBytes(YUV411, 4 * (size / 4)) == 6 * (size / 4);
    ConvertToRgba(YUV411, yuv, rgba, 4 * (size / 4));
  }

  method YUV411ToRGB(yuv: array<byte>, rgb: array<byte>, size: nat)
    requires yuv != rgb
    requires yuv.Length >= 6 * (size / 4) && rgb.Length >= 12 * (size / 4)
    modifies rgb
    ensures forall i :: 0 <= i < 12 * (size / 4) ==> rgb[i] == RgbByte(YUV411, yuv[..], i)
    ensures forall i :: 12 * (size / 4) <= i < rgb.Length ==> rgb[i] == old(rgb[i])
  {
    assert SrcBytes(YUV411, 4 * (size / 4)) == 6 * (size / 4);
    ConvertToRgb(YUV411, yuv, rgb, 4 * (size / 4));
  }

  /** Number of 6-byte steps of `while (j < (size * 3) / 2) j += 6`. */
  function QuarterGroups(size: nat): nat { ((size * 3) / 2 + 5) / 6 }

  /** The grey loops step over whole groups, so they write `size` bytes only when `size` is a
      multiple of the group's pixel count: one byte more for an odd size in the 4:2:2 layouts,
      up to three more in YUV411. */
  lemma GreyLoopsOverrun(size: nat)
    ensures 2 * HalfGroups(size) == size + size % 2
    ensures 4 * QuarterGroups(size) >= size
    ensures 4 * QuarterGroups(size) == size <==> size % 4 == 0
  {
    var m, e := size / 2, size % 2;
    if e == 0 {
      assert 2 * size + 3 == 4 * m + 3 && (2 * size + 3) / 4 == m;
    } else {
      assert 2 * size + 3 == 4 * (m + 1) + 1 && (2 * size + 3) / 4 == m + 1;
    }
    var k, r := size / 4, size % 4;
    if r == 0 {
      assert size * 3 == 2 * (6 * k) && (size * 3) / 2 == 6 * k;
      assert (6 * k + 5) / 6 == k;
    } else if r == 1 {
      assert size * 3 == 2 * (6 * k + 1) + 1 && (size * 3) / 2 == 6 * k + 1;
      assert 6 * k + 6 == 6 * (k + 1) && (6 * k + 6) / 6 == k + 1;
    } else if r == 2 {
      assert size * 3 == 2 * (6 * k + 3) && (size * 3) / 2 == 6 * k + 3;
      assert 6 * k + 8 == 6 * (k + 1) + 2 && (6 * k + 8) / 6 == k + 1;
    } else {
      assert size * 3 == 2 * (6 * k + 4) + 1 && (size * 3) / 2 == 6 * k + 4;
      assert 6 * k + 9 == 6 * (k + 1) + 3 && (6 * k + 9) / 6 == k + 1;
    }
  }

  method YUV411ToGrey(yuv: array<byte>, grey: array<byte>, size: nat)
    requires yuv != grey
    requires yuv.Length >= 6 * QuarterGroups(size) && grey.Length >= 4 * QuarterGroups(size)
    modifies grey
    ensures forall p :: 0 <= p < 4 * QuarterGroups(size) ==> LumaIndex(YUV411, p) < yuv.Length && grey[p] == yuv[LumaIndex(YUV411, p)]
    ensures forall i :: 4 * QuarterGroups(size) <= i < grey.Length ==> grey[i] == old(grey[i])
  {
    assert SrcBytes(YUV411, 4 * QuarterGroups(size)) == 6 * QuarterGroups(size);
    ExtractLuma(YUV411, yuv, grey, 4 * QuarterGroups(size));
  }

  method YUV444ToRGBa(yuv: array<byte>, rgba: array<byte>, size: nat)
    requires yuv != rgba
    requires yuv.Length >= 3 * size && rgba.Length >= 4 * size
    modifies rgba
    ensures forall i :: 0 <= i < 4 * size ==> rgba[i] == RgbaByte(YUV444, yuv[..], i)
    ensures forall i :: 4 * size <= i < rgba.Length ==> rgba[i] == old(rgba[i])
  {
    ConvertToRgba(YUV444, yuv, rgba, size);
  }

  method YUV444ToRGB(yuv: array<byte>, rgb: array<byte>, size: nat)
    requires yuv != rgb
    requires yuv.Length >= 3 * size && rgb.Length >= 3 * size
    modifies rgb
    ensures forall i :: 0 <= i < 3 * size ==> rgb[i] == RgbByte(YUV444, yuv[..], i)
    ensures forall i :: 3 * size <= i < rgb.Length ==> rgb[i] == old(rgb[i])
  {
    ConvertToRgb(YUV444, yuv, rgb, size);
  }

  method YUV444ToGrey(yuv: array<byte>, grey: array<byte>, size: nat)
    requires yuv != grey
    requires yuv.Length >= 3 * size && grey.Length >= size
    modifies grey
    ensures forall p :: 0 <= p < size ==> 3 * p + 1 < yuv.Length && grey[p] == yuv[3 * p + 1]
    ensures forall i :: size <= i < grey.Length ==> grey[i] == old(grey[i])
  {
    ExtractLuma(YUV444, yuv, grey, size);
  }

  /** The Y plane comes first in 4:2:0, so the grey image is a copy of its first size bytes. */
  method YUV420ToGrey(yuv: array<byte>, grey: array<byte>, size: nat)
    requires yuv != grey
    requires yuv.Length >= size && grey.Length >= size
    modifies grey
    ensures grey[..size] == yuv[..size]
    ensures grey[size..] == old(grey[size..])
  {
    var i := 0;
    while i < size
      invariant 0 <= i <= size
      invariant grey[..i] == yuv[..i]
      invariant grey[size..] == old(grey[size..])
    {
      grey[i] := yuv[i];
      i := i + 1;
    }
  }

  // ---- Properties of the specification functions ----

  /** The grey layouts: which source byte lands at each grey position. */
  lemma GreyLayouts(k: nat)
    ensures LumaIndex(YUYV, 2 * k) == 4 * k && LumaIndex(YUYV, 2 * k + 1) == 4 * k + 2
    ensures LumaIndex(YUV422, 2 * k) == 4 * k + 1 && LumaIndex(YUV422, 2 * k + 1) == 4 * k + 3
    ensures LumaIndex(YUV411, 4 * k) == 6 * k + 1 && LumaIndex(YUV411, 4 * k + 1) == 6 * k + 2
    ensures LumaIndex(YUV411, 4 * k + 2) == 6 * k + 4 && LumaIndex(YUV411, 4 * k + 3) == 6 * k + 5
    ensures LumaIndex(YUV444, k) == 3 * k + 1
  {
    DivInBlock(2 * k, k, 2);
    DivInBlock(2 * k + 1, k, 2);
    DivInBlock(4 * k, k, 4);
    DivInBlock(4 * k + 1, k, 4);
    DivInBlock(4 * k + 2, k, 4);
    DivInBlock(4 * k + 3, k, 4);
  }

  /** Every fourth byte of an RGBa output is alpha_default. */
  lemma AlphaIsDefault(f: Format, s: seq<byte>, p: nat)
    requires |s| >= SrcBytes(f, p + 1)
    ensures RgbaByte(f, s, 4 * p + 3) == AlphaDefault
  {
    DivInBlock(4 * p + 3, p, 4);
  }

  /** The RGB converters write the RGBa output with the alpha bytes left out. */
  lemma RgbIsRgbaWithoutAlpha(f: Format, s: seq<byte>, i: nat)
    ensures RgbByte(f, s, i) == RgbaByte(f, s, 4 * (i / 3) + i % 3)
  {
    DivInBlock(4 * (i / 3) + i % 3, i / 3, 4);
  }

  /** Neutral chroma (u = v = 128) gives a grey pixel equal to the luma, in both formulas. */
  lemma NeutralChromaIsGrey(y: byte)
    ensures YuyvRgb(y, 128, 128) == Rgb(y, y, y)
    ensures YuvRgb(y, 128, 128) == Rgb(y, y, y)
  {
    ChromaBounds(128);
  }

  /** For fixed chroma, each output channel of the 4:2:2/4:1:1/4:4:4 formula is nondecreasing in the luma. */
  lemma YuvLumaMonotone(y1: byte, y2: byte, u: byte, v: byte)
    requires y1 <= y2
    ensures YuvRgb(y1, u, v).r <= YuvRgb(y2, u, v).r
    ensures YuvRgb(y1, u, v).g <= YuvRgb(y2, u, v).g
    ensures YuvRgb(y1, u, v).b <= YuvRgb(y2, u, v).b
  {
    var U, V := ChromaU(u), ChromaV(v);
    SatMonotone(y1 + 2 * V, y2 + 2 * V);
    SatMonotone(y1 - U - V, y2 - U - V);
    SatMonotone(y1 + 5 * U, y2 + 5 * U);
  }

  /** The same for the YUYV fixed-point formula. */
  lemma YuyvLumaMonotone(y1: byte, y2: byte, u: byte, v: byte)
    requires y1 <= y2
    ensures YuyvRgb(y1, u, v).r <= YuyvRgb(y2, u, v).r
    ensures YuyvRgb(y1, u, v).g <= YuyvRgb(y2, u, v).g
    ensures YuyvRgb(y1, u, v).b <= YuyvRgb(y2, u, v).b
  {
    var cb := ((u - 128) * 454) / 256;
    var cg := ((u - 128) * 88 + (v - 128) * 183) / 256;
    var cr := ((v - 128) * 359) / 256;
    SatMonotone(y1 + cr, y2 + cr);
    SatMonotone(y1 - cg, y2 - cg);
    SatMonotone(y1 + cb, y2 + cb);
  }
}
