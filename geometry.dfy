/** Pure geometry of the before/after split view.

    One video frame packs two variants side by side: the left half is
    variant A, the right half variant B.  Each displayed frame paints the
    whole left half over the canvas, then overpaints a column of the right
    half to the right of the split line.  Every coordinate here is a
    JavaScript number, modelled as a `real`; IEEE-754 rounding is not
    modelled.
 */
module SplitGeometry {

  /** What the comparator reads from the media element. */
  datatype Media = Media(videoWidth: real, videoHeight: real, readyState: int)

  /** The part of a bounding client rectangle the pointer handlers read. */
  datatype BoundingRect = BoundingRect(x: real, width: real)

  /** A column of a surface: its left edge and its width. */
  datatype Column = Column(start: real, width: real)

  /** Canvas dimensions as the draw routine computes them. */
  datatype Size = Size(width: real, height: real)

  /** An axis-aligned rectangle (x, y, width, height) as drawImage takes it. */
  datatype Rect = Rect(x: real, y: real, w: real, h: real)

  /** One scaled drawImage call: a source rectangle of the video frame
      painted onto a destination rectangle of the canvas. */
  datatype Blit = Blit(src: Rect, dst: Rect)

  /** What one frame draws: the base layer (variant A everywhere), the
      overlay (variant B right of the split) and the x of the divider line. */
  datatype Frame = Frame(base: Blit, overlay: Blit, dividerX: real)

  /** HTMLMediaElement.HAVE_FUTURE_DATA: enough data to start playing. */
  const HaveFutureData: int := 3

  /** The readiness test of playWhenReady and of its listener. */
  predicate CanPlay(m: Media)
  {
    m.readyState >= HaveFutureData
  }

  function Min(a: real, b: real): real { if a <= b then a else b }

  function Max(a: real, b: real): real { if a >= b then a else b }

  /** Number.prototype.clamp: Math.min(Math.max(x, lo), hi).  Defined for
      every pair of bounds; with lo > hi the upper bound wins. */
  function Clamp(x: real, lo: real, hi: real): (r: real)
    ensures r <= hi
    ensures lo <= hi ==> lo <= r
    ensures lo <= x <= hi ==> r == x
    ensures x < lo <= hi ==> r == lo
    ensures hi < x ==> r == hi
    ensures hi < lo ==> r == hi
  {
    Min(Max(x, lo), hi)
  }

  /** Clamping twice gives what clamping once gives, whatever the bounds. */
  lemma ClampIdempotent(x: real, lo: real, hi: real)
    ensures Clamp(Clamp(x, lo, hi), lo, hi) == Clamp(x, lo, hi)
  {
  }

  /** Clamping preserves the order of its inputs. */
  lemma ClampMonotone(x: real, y: real, lo: real, hi: real)
    requires x <= y
    ensures Clamp(x, lo, hi) <= Clamp(y, lo, hi)
  {
  }

  /** The column right of the split line in a surface `extent` wide:
      start = clamp(extent * position, 0, extent) and
      width = clamp(extent - extent * position, 0, extent).
      The canvas destination column, the source column inside the right
      half and the legacy column are all this computation. */
  function SplitColumn(extent: real, position: real): (c: Column)
    ensures extent >= 0.0 ==> 0.0 <= c.start <= extent && 0.0 <= c.width <= extent
  {
    Column(Clamp(extent * position, 0.0, extent),
           Clamp(extent - extent * position, 0.0, extent))
  }

  /** A product with a non-negative factor keeps the order of the other
      factor against 0 and 1. */
  lemma ScaledPosition(extent: real, position: real)
    requires extent >= 0.0
    ensures position <= 0.0 ==> extent * position <= 0.0
    ensures position >= 1.0 ==> extent * position >= extent
    ensures 0.0 <= position <= 1.0 ==> 0.0 <= extent * position <= extent
  {
    if position <= 0.0 {
      assert extent * position == -(extent * -position);
    } else if position >= 1.0 {
      assert extent * position == extent + extent * (position - 1.0);
    } else {
      assert extent - extent * position == extent * (1.0 - position);
    }
  }

  /** For every position, in range or not, the column and what lies left of
      it tile the surface exactly; the ends of the range give the whole
      surface and the empty column. */
  lemma SplitColumnPartition(extent: real, position: real)
    requires extent >= 0.0
    ensures SplitColumn(extent, position).start + SplitColumn(extent, position).width == extent
    ensures position <= 0.0 ==> SplitColumn(extent, position) == Column(0.0, extent)
    ensures position >= 1.0 ==> SplitColumn(extent, position) == Column(extent, 0.0)
    ensures 0.0 <= position <= 1.0 ==> SplitColumn(extent, position).start == extent * position
  {
    ScaledPosition(extent, position);
  }

  /** Two surfaces split at the same position are split at the same
      fraction of their widths: the start and the width scale by the ratio
      of the extents.  This is why the source crop, clamped against the
      half-frame width, lines up with the destination column, clamped
      against the canvas width. */
  lemma SplitColumnScales(a: real, b: real, position: real)
    requires a >= 0.0 && b >= 0.0
    ensures SplitColumn(a, position).start * b == SplitColumn(b, position).start * a
    ensures SplitColumn(a, position).width * b == SplitColumn(b, position).width * a
  {
    SplitColumnPartition(a, position);
    SplitColumnPartition(b, position);
    if 0.0 < position < 1.0 {
      assert (a * position) * b == (b * position) * a;
      assert (a - a * position) * b == (b - b * position) * a;
    }
  }

  /** The width of one logical frame: half the packed video width. */
  function HalfWidth(m: Media): real
  {
    m.videoWidth / 2.0
  }

  /** The canvas dimensions of resize() and of each drawFrame(): the
      container's width, and the height that keeps one half-frame's aspect
      ratio (canvasWidth * videoHeight / videoWidth). */
  function CanvasSize(m: Media, containerWidth: real): (s: Size)
    requires m.videoWidth > 0.0
    ensures s.width == containerWidth
    ensures s.height * HalfWidth(m) == s.width * m.videoHeight
    ensures containerWidth >= 0.0 && m.videoHeight >= 0.0 ==> s.height >= 0.0
  {
    var w := HalfWidth(m);
    var h := containerWidth * m.videoHeight / w;
    assert h * w == containerWidth * m.videoHeight;
    Size(containerWidth, h)
  }

  /** The aspect-ratio equation has one solution: any height that keeps
      the half-frame's aspect ratio at this width is the computed height. */
  lemma CanvasHeightUnique(m: Media, containerWidth: real, height: real)
    requires m.videoWidth > 0.0
    requires height * HalfWidth(m) == containerWidth * m.videoHeight
    ensures height == CanvasSize(m, containerWidth).height
  {
    var s := CanvasSize(m, containerWidth);
    assert (height - s.height) * HalfWidth(m) == 0.0;
  }

  /** The pointer handlers' "Normalize to [0, 1]": the event's pageX less
      the bounding rectangle's x, as a fraction of the rectangle's width.
      pageX is measured from the document's left edge and the rectangle's x
      from the viewport's, so the two agree only when the page is not
      scrolled sideways; this function takes both numbers as they are. */
  function Normalize(pageX: real, bcr: BoundingRect): (r: real)
    requires bcr.width > 0.0
    ensures bcr.x + r * bcr.width == pageX
  {
    var r := (pageX - bcr.x) / bcr.width;
    assert r * bcr.width == pageX - bcr.x;
    r
  }

  /** The normalised position lies in [0, 1] exactly when pageX lies in
      [bcr.x, bcr.x + bcr.width]; outside it the position is below 0 or
      above 1 and is stored as it is. */
  lemma NormalizeInRange(pageX: real, bcr: BoundingRect)
    requires bcr.width > 0.0
    ensures bcr.x <= pageX <= bcr.x + bcr.width <==> 0.0 <= Normalize(pageX, bcr) <= 1.0
    ensures pageX < bcr.x ==> Normalize(pageX, bcr) < 0.0
    ensures pageX > bcr.x + bcr.width ==> Normalize(pageX, bcr) > 1.0
  {
    var r := Normalize(pageX, bcr);
    if r < 0.0 {
      assert r * bcr.width < 0.0 by { ScaledPosition(bcr.width, r); }
    } else if r > 1.0 {
      assert (r - 1.0) * bcr.width > 0.0;
    } else {
      ScaledPosition(bcr.width, r);
      assert pageX == bcr.x + r * bcr.width;
    }
  }

  /** One frame of drawFrame: base layer, overlay and divider line. */
  function DrawFrame(m: Media, containerWidth: real, position: real): Frame
    requires m.videoWidth > 0.0
  {
    var w := HalfWidth(m);
    var s := CanvasSize(m, containerWidth);
    var dst := SplitColumn(s.width, position);
    var src := SplitColumn(w, position);
    Frame(Blit(Rect(0.0, 0.0, w, m.videoHeight), Rect(0.0, 0.0, s.width, s.height)),
          Blit(Rect(src.start + w, 0.0, src.width, m.videoHeight), Rect(dst.start, 0.0, dst.width, s.height)),
          s.width * position)
  }

  /** The base layer reads exactly the left half, full height (it ends
      where the right half, which the overlay reads, begins), and paints it
      over the whole canvas resize() sizes, without distorting it:
      destination and source have the same aspect ratio. */
  lemma BaseKeepsAspect(m: Media, containerWidth: real, position: real)
    requires m.videoWidth > 0.0
    ensures var b := DrawFrame(m, containerWidth, position).base;
      b.src.x == 0.0 && b.src.x + b.src.w == HalfWidth(m) &&
      b.src.y == 0.0 && b.src.h == m.videoHeight &&
      b.dst.x == 0.0 && b.dst.y == 0.0 &&
      b.dst.w == CanvasSize(m, containerWidth).width &&
      b.dst.h == CanvasSize(m, containerWidth).height &&
      b.dst.w * b.src.h == b.dst.h * b.src.w
  {
  }

  /** The overlay reads only from the right half of the packed frame, for
      every position: it starts at or right of the middle, has a
      non-negative width and ends exactly at the frame's right edge. */
  lemma OverlayInsideRightHalf(m: Media, containerWidth: real, position: real)
    requires m.videoWidth > 0.0
    ensures var src := DrawFrame(m, containerWidth, position).overlay.src;
      HalfWidth(m) <= src.x && 0.0 <= src.w && src.x + src.w == m.videoWidth &&
      src.y == 0.0 && src.h == m.videoHeight
  {
    SplitColumnPartition(HalfWidth(m), position);
  }

  /** The overlay paints a column of the canvas that runs to its right
      edge, for every position; the whole canvas at position <= 0, nothing
      at position >= 1, and from the divider line on for positions in
      [0, 1]. */
  lemma OverlayFillsRightOfSplit(m: Media, containerWidth: real, position: real)
    requires m.videoWidth > 0.0 && containerWidth >= 0.0
    ensures var f := DrawFrame(m, containerWidth, position);
      0.0 <= f.overlay.dst.x && 0.0 <= f.overlay.dst.w &&
      f.overlay.dst.x + f.overlay.dst.w == containerWidth &&
      f.overlay.dst.y == 0.0 && f.overlay.dst.h == f.base.dst.h
    ensures var f := DrawFrame(m, containerWidth, position);
      position <= 0.0 ==> f.overlay.dst == f.base.dst
    ensures var f := DrawFrame(m, containerWidth, position);
      position >= 1.0 ==> f.overlay.dst.w == 0.0 && f.overlay.src.w == 0.0
    ensures var f := DrawFrame(m, containerWidth, position);
      0.0 <= position <= 1.0 ==> f.overlay.dst.x == f.dividerX
  {
    SplitColumnPartition(containerWidth, position);
    SplitColumnPartition(HalfWidth(m), position);
  }

  /** The overlay is drawn at the base layer's scale and alignment: a
      source x offset u into the right half lands where the base layer puts
      source x u of the left half (x * canvasWidth / halfWidth), so the two
      variants stay registered pixel for pixel. */
  lemma OverlayAlignedWithBase(m: Media, containerWidth: real, position: real)
    requires m.videoWidth > 0.0 && containerWidth >= 0.0
    ensures var f := DrawFrame(m, containerWidth, position);
      (f.overlay.src.x - HalfWidth(m)) * containerWidth == f.overlay.dst.x * HalfWidth(m) &&
      f.overlay.src.w * containerWidth == f.overlay.dst.w * HalfWidth(m)
  {
    SplitColumnScales(HalfWidth(m), containerWidth, position);
  }

  /** The worked example of a packed 800x400 video in a 200-wide container
      at position 0.25: a 200x200 canvas, destination column (50, 150) and
      source column (100, 300) offset by the 400-wide half. */
  lemma WorkedExample()
    ensures var f := DrawFrame(Media(800.0, 400.0, 4), 200.0, 0.25);
      f.base.dst == Rect(0.0, 0.0, 200.0, 200.0) &&
      f.overlay.dst == Rect(50.0, 0.0, 150.0, 200.0) &&
      f.overlay.src == Rect(500.0, 0.0, 300.0, 400.0)
  {
  }
}
