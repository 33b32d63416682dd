/**
 * The pure image operations of one_bit_photo/image_operations.py that do not
 * delegate to a library: the centred square crop of a camera image.
 */
module ImageOperations {

  /** One pixel in the "RGB" format the conversions use: three 8-bit channels. */
  datatype Rgb = Rgb(r: bv8, g: bv8, b: bv8)

  /** A surface of `width` × `height` pixels, stored row by row: `rows[y][x]`. */
  datatype Surface<P> = Surface(width: nat, height: nat, rows: seq<seq<P>>)
  {
    predicate Valid() {
      |rows| == height && forall y :: 0 <= y < |rows| ==> |rows[y]| == width
    }
  }

  /** The square rectangle handed to `subsurface`: top-left corner and side. */
  datatype Window = Window(left: int, top: int, side: int)

  function MinInt(a: int, b: int): int { if a <= b then a else b }

  function MaxReal(a: real, b: real): real { if a >= b then a else b }

  /** Python's true division `d / 2` of an int, which yields a float. */
  function HalfOf(d: int): real { d as real / 2.0 }

  /** A float coordinate given to a pygame `Rect` is converted by a C cast, which truncates toward zero. */
  function RectInt(x: real): int { if x >= 0.0 then x.Floor else -((-x).Floor) }

  /** `max(d / 2, 0)` as a `Rect` coordinate is the floor of half the positive part of `d`. */
  lemma ClampedHalf(d: int)
    ensures RectInt(MaxReal(HalfOf(d), 0.0)) == if d > 0 then d / 2 else 0
  {
  }

  /**
   * The window `crop_middle_square` cuts out of a `width` × `height` image:
   * a square of side min(width, height), inside the image, centred with the
   * odd pixel of margin going to the right or the bottom.
   */
  function CropWindow(width: nat, height: nat): (win: Window)
    ensures win.side == MinInt(width, height)
    ensures 0 <= win.left && win.left + win.side <= width
    ensures 0 <= win.top && win.top + win.side <= height
    ensures win.left == 0 || win.top == 0
    ensures width == height ==> win == Window(0, 0, width)
    // right margin minus left margin, bottom margin minus top margin
    ensures 0 <= (width - win.left - win.side) - win.left <= 1
    ensures 0 <= (height - win.top - win.side) - win.top <= 1
  {
    ClampedHalf(width - height);
    ClampedHalf(height - width);
    Window(RectInt(MaxReal(HalfOf(width - height), 0.0)),
           RectInt(MaxReal(HalfOf(height - width), 0.0)),
           MinInt(width, height))
  }

  /**
   * `crop_middle_square`: the subsurface under `CropWindow`. Pixel (r, c) of
   * the result is pixel (r + top, c + left) of the camera image.
   */
  function CropMiddleSquare<P>(image: Surface<P>): (square: Surface<P>)
    requires image.Valid()
    ensures square.Valid()
    ensures square.width == square.height == MinInt(image.width, image.height)
    ensures forall r, c :: 0 <= r < square.height && 0 <= c < square.width ==>
              square.rows[r][c] == image.rows[r + CropWindow(image.width, image.height).top]
                                             [c + CropWindow(image.width, image.height).left]
  {
    var win := CropWindow(image.width, image.height);
    Surface(win.side, win.side,
            seq(win.side, r requires 0 <= r < win.side =>
                  image.rows[r + win.top][win.left .. win.left + win.side]))
  }

  /** A square camera image is returned whole. */
  lemma {:induction false} CropOfSquareIsWhole<P>(image: Surface<P>)
    requires image.Valid() && image.width == image.height
    ensures CropMiddleSquare(image) == image
  {
    var square := CropMiddleSquare(image);
    assert CropWindow(image.width, image.height) == Window(0, 0, image.width);
    forall r | 0 <= r < image.height
      ensures square.rows[r] == image.rows[r]
    {
      assert image.rows[r][0 .. image.width] == image.rows[r];
    }
    assert square.rows == image.rows;
  }

  /** Cropping twice is cropping once. */
  lemma CropIdempotent<P>(image: Surface<P>)
    requires image.Valid()
    ensures CropMiddleSquare(CropMiddleSquare(image)) == CropMiddleSquare(image)
  {
    CropOfSquareIsWhole(CropMiddleSquare(image));
  }
}
