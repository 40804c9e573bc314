/** Screen geometry fixed at start-up: where the paintable canvas sits and the
    five marker quadrilaterals handed to every client session. */
module Layout {
  import opened Messages

  /** Side of a marker tag image in pixels. */
  const TagSize: int := 200

  /** An integer pixel rectangle: left, top, width, height. */
  datatype Rect = Rect(x: int, y: int, w: int, h: int)

  /** The canvas rectangle for a screen of the given size.  The scoreboard
      column on the left is one tag wide. */
  function CanvasRect(screenW: int, screenH: int): (r: Rect)
    // the canvas starts 5 pixels right of the scoreboard column
    ensures r.x == TagSize + 5
    // it is vertically centred, half a tag from the top and from the bottom
    ensures r.y == TagSize / 2 && screenH - (r.y + r.h) == TagSize / 2
    // and it ends 95 pixels before the right edge of the screen
    ensures screenW - (r.x + r.w) == TagSize / 2 - 5
  {
    Rect(TagSize + 5, TagSize / 2, screenW - TagSize * 3 / 2, screenH - TagSize)
  }

  /** Top-left corners of the five tag images, in the order top-left,
      top-centre, top-right, bottom-right, bottom-left.  The tag images are
      blitted at exactly these positions. */
  function MarkerCorners(screenW: int, screenH: int): (r: seq<Point>)
    ensures |r| == 5
  {
    var t := TagSize as real;
    var w := screenW as real;
    var h := screenH as real;
    [Point(0.0, 0.0), Point((w - t) / 2.0, 0.0), Point(w - t, 0.0), Point(w - t, h - t), Point(0.0, h - t)]
  }

  /** q is an axis-aligned square (top-left, top-right, bottom-right,
      bottom-left) whose side is 80% of a tag, centred on the tag image whose
      top-left corner is c and strictly inside it. */
  ghost predicate SquareInTag(q: seq<Point>, c: Point) {
    var t := TagSize as real;
    && |q| == 4
    && q[1].y == q[0].y && q[3].x == q[0].x && q[2] == Point(q[1].x, q[3].y)
    && q[1].x - q[0].x == 0.8 * t && q[3].y - q[0].y == 0.8 * t
    && (q[0].x + q[2].x) / 2.0 == c.x + t / 2.0
    && (q[0].y + q[2].y) / 2.0 == c.y + t / 2.0
    && c.x < q[0].x && q[2].x < c.x + t
    && c.y < q[0].y && q[2].y < c.y + t
  }

  /** The quadrilateral of the marker drawn with its top-left corner at c: the
      tag inset by a tenth of its size on every side. */
  function MarkerQuad(c: Point): (q: seq<Point>)
    ensures SquareInTag(q, c)
  {
    var margin := TagSize as real / 10.0;
    var side := TagSize as real * 0.8;
    var tl := Point(c.x + margin, c.y + margin);
    var br := Point(tl.x + side, tl.y + side);
    [tl, Point(br.x, tl.y), br, Point(tl.x, br.y)]
  }

  /** marker_verts: the quadrilateral of each of the five markers, indexed by
      marker id; each lies centred inside the tag image drawn at the
      corresponding corner. */
  function MarkerVerts(screenW: int, screenH: int): (r: seq<seq<Point>>)
    ensures |r| == 5
    ensures forall i :: 0 <= i < 5 ==> SquareInTag(r[i], MarkerCorners(screenW, screenH)[i])
  {
    var corners := MarkerCorners(screenW, screenH);
    seq(5, i requires 0 <= i < 5 => MarkerQuad(corners[i]))
  }
}
