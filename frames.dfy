/**
 * The shape bookkeeping of a captured frame: the bitmap bytes read back from
 * the OS become a flat array of bytes, are given the shape
 * (height, width, 4), and are converted either to three-channel colour (the
 * fourth channel is dropped) or to one gray byte per pixel.
 */
module Frames {
  import opened Results

  newtype byte = x: int | 0 <= x < 256

  /** A numpy-style array: a shape and its elements in row-major order. */
  datatype NdArray = NdArray(shape: seq<int>, data: seq<byte>)

  /** The number of elements an array of the given shape holds. */
  function Product(dims: seq<int>): int
  {
    if dims == [] then 1 else dims[0] * Product(dims[1..])
  }

  predicate NonNegative(dims: seq<int>)
  {
    forall k :: 0 <= k < |dims| ==> 0 <= dims[k]
  }

  /** A height x width x channels array whose data has exactly that many elements. */
  predicate IsImage(a: NdArray)
  {
    |a.shape| == 3 && 0 <= a.shape[0] && 0 <= a.shape[1] && 0 <= a.shape[2]
    && |a.data| == a.shape[0] * a.shape[1] * a.shape[2]
  }

  /** A height x width single-channel array whose data has exactly that many elements. */
  predicate IsPlane(a: NdArray)
  {
    |a.shape| == 2 && 0 <= a.shape[0] && 0 <= a.shape[1]
    && |a.data| == a.shape[0] * a.shape[1]
  }

  /** Multiplying by a non-negative factor keeps the order. */
  lemma MulMonotone(a: int, b: int, k: int)
    requires a <= b && 0 <= k
    ensures a * k <= b * k
  {
    assert b * k - a * k == (b - a) * k;
  }

  /** The row-major position of element (y, x, c) lies inside the data. */
  lemma RowMajorInRange(h: int, w: int, ch: int, y: int, x: int, c: int)
    requires 0 <= y < h && 0 <= x < w && 0 <= c < ch
    ensures 0 <= y * w + x < h * w
    ensures 0 <= (y * w + x) * ch + c < h * w * ch
  {
    var i := y * w + x;
    MulMonotone(0, y, w);
    MulMonotone(y + 1, h, w);
    assert i < (y + 1) * w;
    MulMonotone(0, i, ch);
    MulMonotone(i + 1, h * w, ch);
    assert i * ch + c < (i + 1) * ch;
  }

  /** Element (y, x, c) of an image. */
  function At(a: NdArray, y: int, x: int, c: int): byte
    requires IsImage(a)
    requires 0 <= y < a.shape[0] && 0 <= x < a.shape[1] && 0 <= c < a.shape[2]
  {
    RowMajorInRange(a.shape[0], a.shape[1], a.shape[2], y, x, c);
    a.data[(y * a.shape[1] + x) * a.shape[2] + c]
  }

  /** Element (y, x) of a single-channel plane. */
  function At2(a: NdArray, y: int, x: int): byte
    requires IsPlane(a)
    requires 0 <= y < a.shape[0] && 0 <= x < a.shape[1]
  {
    RowMajorInRange(a.shape[0], a.shape[1], 1, y, x, 0);
    a.data[y * a.shape[1] + x]
  }

  /** numpy.frombuffer with dtype uint8: the bytes as a one-dimensional array. */
  function FromBuffer(bits: seq<byte>): (a: NdArray)
    ensures |a.shape| == 1 && NonNegative(a.shape) && Product(a.shape) == |bits|
    ensures a.data == bits
  {
    NdArray([|bits|], bits)
  }

  datatype ReshapeError = CannotReshape(size: int, shape: seq<int>)

  /**
   * Assigning a new shape to an array: it succeeds when every dimension is
   * non-negative and the dimensions multiply to the number of elements, and
   * then keeps the elements as they are.
   */
  function SetShape(a: NdArray, dims: seq<int>): (r: Result<NdArray, ReshapeError>)
    ensures r.Ok? <==> NonNegative(dims) && Product(dims) == |a.data|
    ensures r.Ok? ==> r.value.data == a.data && r.value.shape == dims
  {
    if NonNegative(dims) && Product(dims) == |a.data| then Ok(NdArray(dims, a.data))
    else Err(CannotReshape(|a.data|, dims))
  }

  /** Why reading a frame fails: the bytes do not fit the shape, or there are no pixels to convert. */
  datatype ReadError = ShapeMismatch(reshape: ReshapeError) | EmptyImage

  /** A frame of non-negative height and width has no pixels exactly when one of them is zero. */
  lemma EmptyImageHasNoPixels(h: int, w: int)
    requires 0 <= h && 0 <= w
    ensures h * w * 4 == 0 <==> h == 0 || w == 0
  {
    if 0 < h && 0 < w {
      MulMonotone(1, h, w);
    }
  }

  /** Giving a buffer the shape (h, w, ch) succeeds exactly when h, w, ch >= 0 and the sizes match. */
  lemma SetShapeImage(a: NdArray, h: int, w: int, ch: int)
    ensures SetShape(a, [h, w, ch]).Ok? <==> 0 <= h && 0 <= w && 0 <= ch && |a.data| == h * w * ch
    ensures SetShape(a, [h, w, ch]).Ok? ==> IsImage(SetShape(a, [h, w, ch]).value)
  {
    var dims := [h, w, ch];
    assert Product([ch]) == ch * Product([]) == ch;
    assert Product([w, ch]) == w * Product([ch]) == w * ch;
    assert Product(dims) == h * Product([w, ch]);
    assert h * (w * ch) == h * w * ch;
    assert NonNegative(dims) <==> 0 <= h && 0 <= w && 0 <= ch by {
      assert dims[0] == h && dims[1] == w && dims[2] == ch;
    }
  }

  /** The first three bytes of every group of four: RGBA to RGB on packed pixels. */
  function DropAlpha(s: seq<byte>): (r: seq<byte>)
    requires |s| % 4 == 0
    ensures |r| == |s| / 4 * 3
  {
    if s == [] then [] else s[..3] + DropAlpha(s[4..])
  }

  /** Byte c of packed pixel i survives alpha dropping at position 3i + c. */
  lemma {:induction false} DropAlphaAt(s: seq<byte>, i: int, c: int)
    requires |s| % 4 == 0 && 0 <= i < |s| / 4 && 0 <= c < 3
    ensures DropAlpha(s)[i * 3 + c] == s[i * 4 + c]
  {
    if i > 0 {
      DropAlphaAt(s[4..], i - 1, c);
      assert DropAlpha(s) == s[..3] + DropAlpha(s[4..]);
      assert i * 3 + c == 3 + ((i - 1) * 3 + c);
    }
  }

  /** One byte per packed pixel, computed from its first three channels by `luma`. */
  function GrayPixels(s: seq<byte>, luma: (byte, byte, byte) -> byte): (r: seq<byte>)
    requires |s| % 4 == 0
    ensures |r| == |s| / 4
  {
    if s == [] then [] else [luma(s[0], s[1], s[2])] + GrayPixels(s[4..], luma)
  }

  /** Gray byte i is `luma` of the first three channels of packed pixel i. */
  lemma {:induction false} GrayPixelsAt(s: seq<byte>, luma: (byte, byte, byte) -> byte, i: int)
    requires |s| % 4 == 0 && 0 <= i < |s| / 4
    ensures GrayPixels(s, luma)[i] == luma(s[i * 4], s[i * 4 + 1], s[i * 4 + 2])
  {
    if i > 0 {
      GrayPixelsAt(s[4..], luma, i - 1);
      assert GrayPixels(s, luma) == [luma(s[0], s[1], s[2])] + GrayPixels(s[4..], luma);
    }
  }

  /** Colour conversion RGBA to RGB: same height and width, three channels. */
  function ToRgb(a: NdArray): (r: NdArray)
    requires IsImage(a) && a.shape[2] == 4
    ensures IsImage(r) && r.shape == [a.shape[0], a.shape[1], 3]
  {
    var n := a.shape[0] * a.shape[1];
    assert |a.data| == n * 4;
    NdArray([a.shape[0], a.shape[1], 3], DropAlpha(a.data))
  }

  /** RGBA to RGB keeps every pixel's first three channels in place. */
  lemma ToRgbKeepsChannels(a: NdArray)
    requires IsImage(a) && a.shape[2] == 4
    ensures forall y, x, c :: 0 <= y < a.shape[0] && 0 <= x < a.shape[1] && 0 <= c < 3
              ==> At(ToRgb(a), y, x, c) == At(a, y, x, c)
  {
    var h, w := a.shape[0], a.shape[1];
    assert |a.data| == (h * w) * 4;
    forall y, x, c | 0 <= y < h && 0 <= x < w && 0 <= c < 3
      ensures At(ToRgb(a), y, x, c) == At(a, y, x, c)
    {
      RowMajorInRange(h, w, 4, y, x, c);
      DropAlphaAt(a.data, y * w + x, c);
    }
  }

  /** Colour conversion RGBA to gray: a height x width plane. */
  function ToGray(a: NdArray, luma: (byte, byte, byte) -> byte): (r: NdArray)
    requires IsImage(a) && a.shape[2] == 4
    ensures IsPlane(r) && r.shape == [a.shape[0], a.shape[1]]
  {
    var n := a.shape[0] * a.shape[1];
    assert |a.data| == n * 4;
    NdArray([a.shape[0], a.shape[1]], GrayPixels(a.data, luma))
  }

  /** Every gray pixel is `luma` of the colour channels of the pixel at the same place. */
  lemma ToGrayPerPixel(a: NdArray, luma: (byte, byte, byte) -> byte)
    requires IsImage(a) && a.shape[2] == 4
    ensures forall y, x :: 0 <= y < a.shape[0] && 0 <= x < a.shape[1]
              ==> At2(ToGray(a, luma), y, x) == luma(At(a, y, x, 0), At(a, y, x, 1), At(a, y, x, 2))
  {
    var h, w := a.shape[0], a.shape[1];
    assert |a.data| == (h * w) * 4;
    forall y, x | 0 <= y < h && 0 <= x < w
      ensures At2(ToGray(a, luma), y, x) == luma(At(a, y, x, 0), At(a, y, x, 1), At(a, y, x, 2))
    {
      RowMajorInRange(h, w, 4, y, x, 0);
      GrayPixelsAt(a.data, luma, y * w + x);
    }
  }
}
