/** The argument checks of the Python bindings of vpImageConvert: a conversion between two
    numpy arrays is only run when the arrays' shapes fit the conversion, and a conversion from a
    YUV-like buffer first checks that the source holds exactly as many bytes as the format needs
    for the destination's height and width. Arithmetic is on 32-bit unsigned integers. */
module ImageConversions {
  import YuvConvert

  /** 2^32: unsigned int arithmetic wraps modulo this. */
  const Modulus: nat := 0x1_0000_0000

  /** A value stored in an unsigned int. */
  function U32(x: int): (r: nat)
    ensures r < Modulus
    ensures 0 <= x < Modulus ==> r == x
  {
    x % Modulus
  }

  /** Adding a multiple of the modulus does not change the stored value. */
  lemma U32AddMultiple(x: int, k: int)
    ensures U32(x + Modulus * k) == U32(x)
  {
    var q, r := x / Modulus, x % Modulus;
    assert x + Modulus * k == Modulus * (q + k) + r;
    DivModUnique(x + Modulus * k, q + k, r);
  }

  /** The remainder of a by the modulus is r when a = Modulus·q + r with 0 ≤ r < Modulus. */
  lemma DivModUnique(a: int, q: int, r: int)
    requires 0 <= r < Modulus && a == Modulus * q + r
    ensures a % Modulus == r
  {
    var q0, r0 := a / Modulus, a % Modulus;
    var t := q - q0;
    assert Modulus * t == r0 - r;
  }

  /** Multiplying a stored value gives the stored value of the exact product. */
  lemma U32MulLeft(a: int, b: int)
    ensures U32(U32(a) * b) == U32(a * b)
  {
    var q := a / Modulus;
    assert a == Modulus * q + U32(a);
    assert a * b == U32(a) * b + Modulus * (q * b);
    U32AddMultiple(U32(a) * b, q * b);
  }

  /** size422: a luma byte per pixel and a chroma byte pair per two pixels of a row. The value is
      computed once modulo 2^32, which is what the unsigned operations give. */
  function Size422(h: nat, w: nat): (r: nat)
    ensures r < Modulus
  {
    U32(h * w + (h * (w / 2)) * 2)
  }

  /** size420: a luma byte per pixel and a chroma byte pair per 2×2 block. */
  function Size420(h: nat, w: nat): (r: nat)
    ensures r < Modulus
  {
    U32(h * w + ((h / 2) * (w / 2)) * 2)
  }

  /** size411: a luma byte per pixel and a chroma byte pair per 4×4 block. */
  function Size411(h: nat, w: nat): (r: nat)
    ensures r < Modulus
  {
    U32(h * w + ((h / 4) * (w / 4)) * 2)
  }

  /** For an even width, a 4:2:2 buffer holds two bytes per pixel. */
  lemma Size422EvenWidth(h: nat, w: nat)
    requires w % 2 == 0 && 2 * h * w < Modulus
    ensures Size422(h, w) == 2 * h * w
  {
    var b := w / 2;
    assert w == 2 * b;
    assert h * b * 2 == h * w;
  }

  /** For even sides, a 4:2:0 buffer holds three bytes per two pixels. */
  lemma Size420EvenSides(h: nat, w: nat)
    requires h % 2 == 0 && w % 2 == 0 && 3 * h * w < 2 * Modulus
    ensures 2 * Size420(h, w) == 3 * h * w
  {
    var a, b := h / 2, w / 2;
    assert h == 2 * a && w == 2 * b;
    assert h * w == 4 * (a * b);
    assert 3 * h * w == 12 * (a * b);
  }

  /** For sides that are multiples of 4, a 4:1:1 buffer (as sized here) holds nine bytes per
      eight pixels. */
  lemma Size411QuarterSides(h: nat, w: nat)
    requires h % 4 == 0 && w % 4 == 0 && 9 * h * w < 8 * Modulus
    ensures 8 * Size411(h, w) == 9 * h * w
  {
    var a, b := h / 4, w / 4;
    assert h == 4 * a && w == 4 * b;
    assert h * w == 16 * (a * b);
    assert 9 * h * w == 144 * (a * b);
  }

  /** An odd width drops the chroma of the last column: the 4:2:2 size is then below two bytes
      per pixel by exactly h. */
  lemma Size422OddWidth(h: nat, w: nat)
    requires w % 2 == 1 && 2 * h * w < Modulus
    ensures Size422(h, w) + h == 2 * h * w
  {
    var b := w / 2;
    assert w == 2 * b + 1;
    assert h * w == 2 * (h * b) + h;
  }

  /** The byte count of a packed 4:1:1 buffer (u y y v y y): six bytes per group of four pixels,
      rounded up to whole groups. */
  function SizePacked411(h: nat, w: nat): (r: nat)
    ensures r < Modulus
  {
    U32(6 * ((h * w + 3) / 4))
  }

  /** When the pixel count is a multiple of 4, a packed 4:1:1 buffer holds three bytes per two
      pixels. */
  lemma SizePacked411QuarterPixels(h: nat, w: nat)
    requires (h * w) % 4 == 0 && 3 * h * w < 2 * Modulus
    ensures 2 * SizePacked411(h, w) == 3 * h * w
  {
    var q := (h * w) / 4;
    assert h * w == 4 * q;
    assert (h * w + 3) / 4 == q;
  }

  /** The YUV-like layouts the bindings convert from: 4:2:2 (YUYV, YUV422, YCbCr, YCrCb), 4:2:0
      (YV12, YUV420), the planar 4×4-subsampled YVU9 and the packed 4:1:1 YUV411. */
  datatype YuvLayout = Yuv422 | Yuv420 | Yvu9 | Yuv411

  /** The byte count the bindings pair with each layout, as written: YUV411 shares size411 with
      YVU9. */
  function SourceBytesAsWritten(layout: YuvLayout, h: nat, w: nat): (r: nat)
    ensures r < Modulus
    ensures layout != Yuv411 ==> r == SourceBytes(layout, h, w)
  {
    match layout
    case Yuv422 => Size422(h, w)
    case Yuv420 => Size420(h, w)
    case Yvu9 => Size411(h, w)
    case Yuv411 => Size411(h, w)
  }

  /** The byte count of each layout, with the packed size for YUV411. */
  function SourceBytes(layout: YuvLayout, h: nat, w: nat): (r: nat)
    ensures r < Modulus
  {
    match layout
    case Yuv422 => Size422(h, w)
    case Yuv420 => Size420(h, w)
    case Yvu9 => Size411(h, w)
    case Yuv411 => SizePacked411(h, w)
  }

  /** As written, a YUV411 source sized for sides that are multiples of 4 holds nine bytes per
      eight pixels, fewer than the six bytes per four pixels the YUV411 converters read. */
  lemma AsWrittenYuv411SourceShort(h: nat, w: nat)
    requires h % 4 == 0 && w % 4 == 0 && h > 0 && w > 0 && 3 * h * w < 2 * Modulus
    ensures SourceBytesAsWritten(Yuv411, h, w) < 6 * ((h * w) / 4)
  {
    Size411QuarterSides(h, w);
    var q := (h * w) / 4;
    assert h * w == 4 * ((h / 4) * w);
    assert h * w == 4 * q;
  }

  /** A 4×4 destination: the check asks for 18 source bytes, the converters read 24. */
  lemma AsWrittenYuv411FourByFour()
    ensures SourceBytesAsWritten(Yuv411, 4, 4) == 18
    ensures 6 * ((4 * 4) / 4) == 24 && 6 * YuvConvert.QuarterGroups(4 * 4) == 24
  {
  }

  /** The number of 6-byte groups YUV411ToGrey reads is at most the rounded-up quarter of the
      pixel count. */
  lemma QuarterGroupsBound(n: nat)
    ensures YuvConvert.QuarterGroups(n) <= (n + 3) / 4
    ensures n / 4 <= (n + 3) / 4
  {
    var q, r := n / 4, n % 4;
    assert n == 4 * q + r;
    assert (n * 3) / 2 == 6 * q + (3 * r) / 2;
    assert (n + 3) / 4 == q + (r + 3) / 4;
  }

  /** With the packed size, a YUV411 source that passes the byte-count check (without wrapping)
      holds every byte the YUV411 converters read for h·w pixels. */
  lemma Yuv411SourceCoversConverters(srcCount: nat, h: nat, w: nat)
    requires srcCount < Modulus && 6 * ((h * w + 3) / 4) < Modulus
    requires srcCount == SourceBytes(Yuv411, h, w)
    ensures srcCount >= 6 * ((h * w) / 4)
    ensures srcCount >= 6 * YuvConvert.QuarterGroups(h * w)
  {
    QuarterGroupsBound(h * w);
  }

  /** Why a conversion is refused. */
  datatype ShapeError =
    | TooFewDimensions
    | PixelCountMismatch
    | BadSourceChannels
    | BadDestinationChannels
    | SourceByteCountMismatch(expected: nat, actual: nat)

  /** The outcome of the checks: the height and width handed to the conversion, or the refusal. */
  datatype Checked = Run(h: nat, w: nat) | Refused(reason: ShapeError)

  /** The shape of an array has the channel layout a pixel of `bytesPerPixel` bytes needs: a
      3-D array with that many channels for a multi-byte pixel; for a one-byte pixel, no 3-D
      array with more than one channel. */
  predicate ChannelsFit(shape: seq<nat>, bytesPerPixel: nat)
  {
    (bytesPerPixel > 1 ==> |shape| == 3 && shape[2] == bytesPerPixel) &&
    (bytesPerPixel == 1 && |shape| == 3 ==> shape[2] <= 1)
  }

  /** The checks of a simple conversion between arrays `src` and `dest`, in the order they are
      made: both at least 2-D, the same height and width, then the source's and the
      destination's channels. */
  function CheckSimpleConversion(src: seq<nat>, dest: seq<nat>, srcBytesPerPixel: nat, destBytesPerPixel: nat): (r: Checked)
    ensures r.Run? <==>
      |src| >= 2 && |dest| >= 2 && src[0] == dest[0] && src[1] == dest[1] &&
      ChannelsFit(src, srcBytesPerPixel) && ChannelsFit(dest, destBytesPerPixel)
    ensures r.Run? ==> r.h == U32(src[0]) && r.w == U32(src[1])
    ensures r == Refused(TooFewDimensions) <==> |src| < 2 || |dest| < 2
    ensures r == Refused(PixelCountMismatch) <==> |src| >= 2 && |dest| >= 2 && (src[0] != dest[0] || src[1] != dest[1])
    ensures r == Refused(BadDestinationChannels) ==> ChannelsFit(src, srcBytesPerPixel)
  {
    if |src| < 2 || |dest| < 2 then Refused(TooFewDimensions)
    else if src[0] != dest[0] || src[1] != dest[1] then Refused(PixelCountMismatch)
    else if srcBytesPerPixel > 1 && (|src| != 3 || src[2] != srcBytesPerPixel) then Refused(BadSourceChannels)
    else if srcBytesPerPixel == 1 && |src| == 3 && src[2] > 1 then Refused(BadSourceChannels)
    else if destBytesPerPixel > 1 && (|dest| != 3 || dest[2] != destBytesPerPixel) then Refused(BadDestinationChannels)
    else if destBytesPerPixel == 1 && |dest| == 3 && dest[2] > 1 then Refused(BadDestinationChannels)
    else Run(U32(src[0]), U32(src[1]))
  }

  /** The number of elements of an array of the given shape. */
  function ElementCount(shape: seq<nat>): nat
    decreases |shape|
  {
    if |shape| == 0 then 1 else ElementCount(shape[..|shape| - 1]) * shape[|shape| - 1]
  }

  /** When a multi-byte-pixel conversion runs, each array holds exactly height·width pixels of
      its byte size; the unsigned height and width passed on are those extents when they fit
      in an unsigned int, so the conversion then reads and writes within the arrays. */
  lemma SimpleConversionSizes(src: seq<nat>, dest: seq<nat>, srcBytesPerPixel: nat, destBytesPerPixel: nat)
    requires CheckSimpleConversion(src, dest, srcBytesPerPixel, destBytesPerPixel).Run?
    ensures var r := CheckSimpleConversion(src, dest, srcBytesPerPixel, destBytesPerPixel);
            (srcBytesPerPixel > 1 ==> ElementCount(src) == src[0] * src[1] * srcBytesPerPixel) &&
            (destBytesPerPixel > 1 ==> ElementCount(dest) == src[0] * src[1] * destBytesPerPixel) &&
            (src[0] < Modulus && src[1] < Modulus ==> r.h == src[0] && r.w == src[1])
  {
    if srcBytesPerPixel > 1 {
      ThreeDimCount(src);
    }
    if destBytesPerPixel > 1 {
      ThreeDimCount(dest);
    }
  }

  lemma ThreeDimCount(shape: seq<nat>)
    requires |shape| == 3
    ensures ElementCount(shape) == shape[0] * shape[1] * shape[2]
  {
    assert shape[..2][..1] == shape[..1] && shape[..1][..0] == [];
    assert ElementCount(shape[..1]) == shape[0];
    assert ElementCount(shape[..2]) == shape[0] * shape[1];
  }

  /** The element count as the unsigned loop accumulates it: the running count is multiplied
      by the signed extent, and the product is truncated back into an unsigned int. */
  function WrappedCount(shape: seq<nat>): (r: nat)
    ensures r < Modulus
    decreases |shape|
  {
    if |shape| == 0 then 1 else U32(WrappedCount(shape[..|shape| - 1]) * shape[|shape| - 1])
  }

  /** The wrapped count is the exact element count modulo 2^32. */
  lemma {:induction false} WrappedCountIsCount(shape: seq<nat>)
    ensures WrappedCount(shape) == U32(ElementCount(shape))
    decreases |shape|
  {
    if |shape| > 0 {
      var init, last := shape[..|shape| - 1], shape[|shape| - 1];
      WrappedCountIsCount(init);
      U32MulLeft(ElementCount(init), last);
    }
  }

  /** The checks of a conversion from a YUV-like buffer `src` into `dest`: the destination is at
      least 2-D and gives the height and width (stored as unsigned ints), the source's element
      count is accumulated in an unsigned int and must equal the layout's byte count, and the
      destination's channels must fit. */
  method CheckYuvConversion(src: seq<nat>, dest: seq<nat>, layout: YuvLayout, destBytesPerPixel: nat) returns (r: Checked)
    ensures r.Run? <==>
      |dest| >= 2 && U32(ElementCount(src)) == SourceBytes(layout, U32(dest[0]), U32(dest[1])) &&
      ChannelsFit(dest, destBytesPerPixel)
    ensures r.Run? ==> r.h == U32(dest[0]) && r.w == U32(dest[1])
    ensures r == Refused(TooFewDimensions) <==> |dest| < 2
    ensures r.Refused? && r.reason.SourceByteCountMismatch? ==>
      r.reason.expected == SourceBytes(layout, U32(dest[0]), U32(dest[1])) && r.reason.actual == U32(ElementCount(src)) &&
      r.reason.expected != r.reason.actual
  {
    if |dest| < 2 {
      return Refused(TooFewDimensions);
    }
    var height, width := U32(dest[0]), U32(dest[1]);
    var expectedSourceBytes := SourceBytes(layout, height, width);
    var actualBytes := 1;
    for i := 0 to |src|
      invariant actualBytes == WrappedCount(src[..i])
    {
      assert src[..i + 1][..i] == src[..i];
      actualBytes := U32(actualBytes * src[i]);
    }
    assert src[..|src|] == src;
    WrappedCountIsCount(src);
    if actualBytes != expectedSourceBytes {
      return Refused(SourceByteCountMismatch(expectedSourceBytes, actualBytes));
    }
    if destBytesPerPixel > 1 && (|dest| != 3 || dest[2] != destBytesPerPixel) {
      return Refused(BadDestinationChannels);
    } else if destBytesPerPixel == 1 && |dest| == 3 && dest[2] > 1 {
      return Refused(BadDestinationChannels);
    }
    return Run(height, width);
  }

  /** A source whose element count is off by a multiple of 2^32 passes the byte-count check:
      the unsigned accumulation cannot tell them apart. */
  lemma WrappedCountAliases(shape: seq<nat>, k: nat)
    ensures U32(ElementCount(shape) + Modulus * k) == U32(ElementCount(shape))
  {
    U32AddMultiple(ElementCount(shape), k);
  }
}
