/**
 * Row geometry of `blit_images_vertical` (one_bit_photo/main.py) and the
 * size of the print strip `main` feeds it: images are stacked top to bottom,
 * each scaled to a common row height and centred horizontally.
 */
module VerticalBlit {
  import opened Wrappers

  /** Width in pixels of a 62 mm endless label. */
  const PRINT_WIDTH_PX: nat := 696

  datatype Size = Size(width: nat, height: nat)

  /** Where one scaled image is blitted: a pygame `Rect`. */
  datatype Placement = Placement(left: int, top: int, width: nat, height: nat)

  /** Python raises ZeroDivisionError for a zero row count or a zero-height image. */
  datatype LayoutError = ZeroDivision

  /** `total_images_count`, defaulting to the number of images when it is `None`. */
  function RowCount(count: nat, total: Option<nat>): nat
  {
    match total
    case None => count
    case Some(n) => n
  }

  /**
   * `Rect.centerx = c` moves a rect of width `w` so that its left edge is
   * `c - w // 2`; the destination's own `centerx` is `destWidth // 2`.
   */
  function CenteredLeft(destWidth: nat, width: nat): int
  {
    destWidth / 2 - width / 2
  }

  /** The rect of image number `i`, scaled to height `rowHeight`, on a surface `destWidth` wide. */
  function Row(destWidth: nat, rowHeight: nat, i: nat, image: Size): Placement
    requires image.height > 0
  {
    var width := image.width * rowHeight / image.height;
    Placement(CenteredLeft(destWidth, width), i * rowHeight, width, rowHeight)
  }

  predicate AllHaveHeight(images: seq<Size>)
  {
    forall i :: 0 <= i < |images| ==> images[i].height > 0
  }

  /** The rects `blit_images_vertical` draws on a `destWidth` × `destHeight` surface. */
  function Layout(destWidth: nat, destHeight: nat, images: seq<Size>, total: Option<nat>)
    : Result<seq<Placement>, LayoutError>
  {
    var n := RowCount(|images|, total);
    if n == 0 || !AllHaveHeight(images) then Failure(ZeroDivision)
    else Success(seq(|images|, i requires 0 <= i < |images| =>
                       Row(destWidth, destHeight / n, i, images[i])))
  }

  /** The loop of `blit_images_vertical`, one blit per image. */
  method BlitImagesVertical(destWidth: nat, destHeight: nat, images: seq<Size>, total: Option<nat>)
    returns (r: Result<seq<Placement>, LayoutError>)
    ensures r == Layout(destWidth, destHeight, images, total)
  {
    var n := if total.None? then |images| else total.value;
    if n == 0 {
      return Failure(ZeroDivision);
    }
    var rowHeight := destHeight / n;
    var placed: seq<Placement> := [];
    for i := 0 to |images|
      invariant |placed| == i
      invariant forall j :: 0 <= j < i ==> images[j].height > 0
      invariant forall j :: 0 <= j < i ==> placed[j] == Row(destWidth, rowHeight, j, images[j])
    {
      if images[i].height == 0 {
        return Failure(ZeroDivision);
      }
      placed := placed + [Row(destWidth, rowHeight, i, images[i])];
    }
    assert placed == seq(|images|, i requires 0 <= i < |images| => Row(destWidth, rowHeight, i, images[i]));
    return Success(placed);
  }

  /** The layout fails exactly when Python divides by zero. */
  lemma LayoutSucceeds(destWidth: nat, destHeight: nat, images: seq<Size>, total: Option<nat>)
    ensures Layout(destWidth, destHeight, images, total).Success?
            <==> RowCount(|images|, total) > 0 && AllHaveHeight(images)
    ensures Layout(destWidth, destHeight, images, total).Success? ==>
              |Layout(destWidth, destHeight, images, total).value| == |images|
  {
  }

  /**
   * One row: its top is `i` row heights down, its width is the image's width
   * scaled by the same factor as its height (rounded down), and it is centred:
   * the right margin and the left margin differ by at most one pixel.
   */
  lemma RowGeometry(destWidth: nat, rowHeight: nat, i: nat, image: Size)
    requires image.height > 0
    ensures var p := Row(destWidth, rowHeight, i, image);
            && p.top == i * rowHeight
            && p.height == rowHeight
            && p.width * image.height <= image.width * rowHeight < (p.width + 1) * image.height
            && -1 <= (destWidth - p.left - p.width) - p.left <= 1
            && (p.width <= destWidth ==> p.left >= 0)
  {
  }

  lemma MulMonotone(a: nat, b: nat, k: nat)
    requires a <= b
    ensures a * k <= b * k
  {
  }

  lemma MulStrict(a: nat, b: nat, n: nat)
    requires n > 0
    ensures a < b <==> a * n < b * n
  {
  }

  /** Rows are stacked without overlapping: each starts where or after the previous one ends. */
  lemma {:induction false} RowsDisjoint(destWidth: nat, destHeight: nat, images: seq<Size>, total: Option<nat>, i: nat, j: nat)
    requires Layout(destWidth, destHeight, images, total).Success?
    requires i < j < |images|
    ensures Layout(destWidth, destHeight, images, total).value[i].top
              + Layout(destWidth, destHeight, images, total).value[i].height
            <= Layout(destWidth, destHeight, images, total).value[j].top
  {
    var h := destHeight / RowCount(|images|, total);
    MulMonotone(i + 1, j, h);
    assert (i + 1) * h == i * h + h;
  }

  /** When there are no more images than rows, every row ends inside the surface. */
  lemma {:induction false} RowsFit(destWidth: nat, destHeight: nat, images: seq<Size>, total: Option<nat>, i: nat)
    requires Layout(destWidth, destHeight, images, total).Success?
    requires |images| <= RowCount(|images|, total)
    requires i < |images|
    ensures 0 <= Layout(destWidth, destHeight, images, total).value[i].top
    ensures Layout(destWidth, destHeight, images, total).value[i].top
              + Layout(destWidth, destHeight, images, total).value[i].height <= destHeight
  {
    var n := RowCount(|images|, total);
    var h := destHeight / n;
    MulMonotone(i + 1, n, h);
    assert (i + 1) * h == i * h + h;
    assert n * h <= destHeight by {
      assert destHeight == n * h + destHeight % n;
    }
  }

  /** The print strip of `main`: `PRINT_WIDTH_PX` wide and one `PRINT_WIDTH_PX` row per image. */
  function PrintStripSize(count: nat): Size
  {
    Size(PRINT_WIDTH_PX, PRINT_WIDTH_PX * count)
  }

  /** The placements blitted onto the print strip (`total_images_count` left as `None`). */
  function PrintStrip(images: seq<Size>): Result<seq<Placement>, LayoutError>
  {
    Layout(PrintStripSize(|images|).width, PrintStripSize(|images|).height, images, None)
  }

  /**
   * On the print strip every row is exactly `PRINT_WIDTH_PX` tall, row `i`
   * starts at `PRINT_WIDTH_PX * i`, the last row ends at the strip's bottom
   * edge, and a square image fills its row edge to edge.
   */
  lemma {:induction false} PrintStripRows(images: seq<Size>)
    requires |images| > 0 && AllHaveHeight(images)
    ensures PrintStrip(images).Success?
    ensures forall i :: 0 <= i < |images| ==>
              PrintStrip(images).value[i].top == PRINT_WIDTH_PX * i &&
              PrintStrip(images).value[i].height == PRINT_WIDTH_PX
    ensures PrintStrip(images).value[|images| - 1].top + PrintStrip(images).value[|images| - 1].height
            == PrintStripSize(|images|).height
    ensures forall i :: 0 <= i < |images| && images[i].width == images[i].height ==>
              PrintStrip(images).value[i] == Placement(0, PRINT_WIDTH_PX * i, PRINT_WIDTH_PX, PRINT_WIDTH_PX)
  {
    var n := |images|;
    var ps := PrintStrip(images).value;
    MulDivCancel(PRINT_WIDTH_PX, n);
    assert PrintStripSize(n).height / n == PRINT_WIDTH_PX;
    forall i | 0 <= i < n
      ensures ps[i] == Row(PRINT_WIDTH_PX, PRINT_WIDTH_PX, i, images[i])
    {
    }
    forall i | 0 <= i < n && images[i].width == images[i].height
      ensures ps[i] == Placement(0, PRINT_WIDTH_PX * i, PRINT_WIDTH_PX, PRINT_WIDTH_PX)
    {
      MulDivCancel(PRINT_WIDTH_PX, images[i].width);
    }
    assert (n - 1) * PRINT_WIDTH_PX + PRINT_WIDTH_PX == n * PRINT_WIDTH_PX;
  }

  lemma MulDivCancel(a: nat, n: nat)
    requires n > 0
    ensures n * a / n == a && a * n / n == a
  {
    var q := n * a / n;
    assert n * a == n * q + (n * a) % n;
    MulStrict(q, a, n);
    MulStrict(a, q + 1, n);
    assert (q + 1) * n == n * q + n;
    assert q * n == n * q;
    assert a * n == n * a;
  }
}
