/**
 * The rectangle arithmetic around a capture: the padded bounding box of the
 * triggering points, the translation between screen coordinates and the
 * overlay window's local coordinates, the flip into Quartz (y-down)
 * coordinates, and where a captured image is delivered.
 */
module Capture {
  import opened Geometry
  import opened Settings

  const DefaultPadding: real := 25.0

  function MinOf(s: seq<real>): (m: real)
    requires |s| > 0
    ensures m in s && forall i :: 0 <= i < |s| ==> m <= s[i]
    decreases |s|
  {
    if |s| == 1 then s[0]
    else
      var rest := MinOf(s[1..]);
      assert forall i :: 1 <= i < |s| ==> s[i] == s[1..][i - 1];
      if s[0] <= rest then s[0] else rest
  }

  function MaxOf(s: seq<real>): (m: real)
    requires |s| > 0
    ensures m in s && forall i :: 0 <= i < |s| ==> s[i] <= m
    decreases |s|
  {
    if |s| == 1 then s[0]
    else
      var rest := MaxOf(s[1..]);
      assert forall i :: 1 <= i < |s| ==> s[i] == s[1..][i - 1];
      if s[0] >= rest then s[0] else rest
  }

  function Xs(points: seq<Point>): (r: seq<real>)
    ensures |r| == |points| && forall i :: 0 <= i < |points| ==> r[i] == points[i].x
  {
    seq(|points|, i requires 0 <= i < |points| => points[i].x)
  }

  function Ys(points: seq<Point>): (r: seq<real>)
    ensures |r| == |points| && forall i :: 0 <= i < |points| ==> r[i] == points[i].y
  {
    seq(|points|, i requires 0 <= i < |points| => points[i].y)
  }

  /** boundingRect(from:padding:); the force-unwrapped min()/max() need a non-empty list. */
  function BoundingRect(points: seq<Point>, padding: real): Rect
    requires |points| > 0
  {
    var minX := MinOf(Xs(points)) - padding;
    var maxX := MaxOf(Xs(points)) + padding;
    var minY := MinOf(Ys(points)) - padding;
    var maxY := MaxOf(Ys(points)) + padding;
    Rect(Point(minX, minY), Size(maxX - minX, maxY - minY))
  }

  /**
   * With a non-negative padding the box holds every point with at least
   * `padding` to spare on every side, and each side is the points' spread
   * plus twice the padding.
   */
  lemma BoundingRectEnclosesPoints(points: seq<Point>, padding: real)
    requires |points| > 0 && padding >= 0.0
    ensures var r := BoundingRect(points, padding);
      && r.size.width == (MaxOf(Xs(points)) - MinOf(Xs(points))) + 2.0 * padding
      && r.size.height == (MaxOf(Ys(points)) - MinOf(Ys(points))) + 2.0 * padding
      && r.size.width >= 2.0 * padding && r.size.height >= 2.0 * padding
      && forall i :: 0 <= i < |points| ==>
           r.MinX() + padding <= points[i].x <= r.MaxX() - padding
           && r.MinY() + padding <= points[i].y <= r.MaxY() - padding
  {
    var r := BoundingRect(points, padding);
    forall i | 0 <= i < |points|
      ensures r.MinX() + padding <= points[i].x <= r.MaxX() - padding
      ensures r.MinY() + padding <= points[i].y <= r.MaxY() - padding
    {
      assert Xs(points)[i] == points[i].x && Ys(points)[i] == points[i].y;
    }
  }

  /** The box is the tightest one: each of its sides touches a point, at exactly `padding`. */
  lemma BoundingRectIsTight(points: seq<Point>, padding: real)
    requires |points| > 0 && padding >= 0.0
    ensures var r := BoundingRect(points, padding);
      && (exists i :: 0 <= i < |points| && points[i].x == r.MinX() + padding)
      && (exists i :: 0 <= i < |points| && points[i].x == r.MaxX() - padding)
      && (exists i :: 0 <= i < |points| && points[i].y == r.MinY() + padding)
      && (exists i :: 0 <= i < |points| && points[i].y == r.MaxY() - padding)
  {
    var r := BoundingRect(points, padding);
    var xs, ys := Xs(points), Ys(points);
    var a :| 0 <= a < |xs| && xs[a] == MinOf(xs);
    var b :| 0 <= b < |xs| && xs[b] == MaxOf(xs);
    var c :| 0 <= c < |ys| && ys[c] == MinOf(ys);
    var d :| 0 <= d < |ys| && ys[d] == MaxOf(ys);
    assert points[a].x == r.MinX() + padding;
    assert points[b].x == r.MaxX() - padding;
    assert points[c].y == r.MinY() + padding;
    assert points[d].y == r.MaxY() - padding;
  }

  /** The overlay window's local rectangle for a screen rectangle (SelWin.init). */
  function ScreenToLocal(r: Rect, screenFrame: Rect): Rect {
    Rect(Point(r.MinX() - screenFrame.MinX(), r.MinY() - screenFrame.MinY()), Size(r.Width(), r.Height()))
  }

  /** The screen rectangle for a confirmed local rectangle (the onConfirm handler). */
  function LocalToScreen(r: Rect, screenFrame: Rect): Rect {
    Rect(Point(r.MinX() + screenFrame.MinX(), r.MinY() + screenFrame.MinY()), Size(r.Width(), r.Height()))
  }

  /**
   * The two translations undo each other up to standardisation, so a
   * rectangle with a non-negative size comes back unchanged.
   */
  lemma ScreenLocalRoundTrip(r: Rect, screenFrame: Rect)
    ensures LocalToScreen(ScreenToLocal(r, screenFrame), screenFrame) == r.Standardized()
    ensures ScreenToLocal(LocalToScreen(r, screenFrame), screenFrame) == r.Standardized()
    ensures r.size.width >= 0.0 && r.size.height >= 0.0 ==>
      LocalToScreen(ScreenToLocal(r, screenFrame), screenFrame) == r
  {
  }

  /** The rectangle in Quartz coordinates, whose y axis points down from the top of the screen (captureRegion). */
  function ToQuartz(r: Rect, screenHeight: real): Rect {
    Rect(Point(r.MinX(), screenHeight - r.MaxY()), Size(r.Width(), r.Height()))
  }

  /** The flip mirrors the vertical extent, keeps the horizontal one, and undoes itself. */
  lemma QuartzFlip(r: Rect, screenHeight: real)
    ensures var q := ToQuartz(r, screenHeight);
      && q.MinX() == r.MinX() && q.MaxX() == r.MaxX()
      && q.MinY() == screenHeight - r.MaxY() && q.MaxY() == screenHeight - r.MinY()
    ensures ToQuartz(ToQuartz(r, screenHeight), screenHeight) == r.Standardized()
  {
  }

  /** The initial local rectangle of a selection session started by `points` (enterSelectionMode). */
  function InitialSelection(points: seq<Point>, screenFrame: Rect): Rect
    requires |points| > 0
  {
    ScreenToLocal(BoundingRect(points, DefaultPadding), screenFrame)
  }

  /**
   * A session confirmed without any drag captures exactly the padded
   * bounding box of its points, and that box already meets the 10-unit floor.
   */
  lemma UntouchedSessionCapturesBoundingRect(points: seq<Point>, screenFrame: Rect)
    requires |points| > 0
    ensures LocalToScreen(InitialSelection(points, screenFrame), screenFrame) == BoundingRect(points, DefaultPadding)
    ensures InitialSelection(points, screenFrame).Width() >= 50.0
    ensures InitialSelection(points, screenFrame).Height() >= 50.0
  {
    BoundingRectEnclosesPoints(points, DefaultPadding);
    ScreenLocalRoundTrip(BoundingRect(points, DefaultPadding), screenFrame);
  }

  /** handleCapturedImage: whether the image goes to the clipboard and whether to a file. */
  datatype Delivery = Delivery(clipboard: bool, file: bool)

  function DeliveryFor(d: SaveDestination): (r: Delivery)
    ensures r.clipboard || r.file
    ensures r.clipboard && r.file <==> d == Both
    ensures r.clipboard && !r.file <==> d == ClipboardOnly
    ensures !r.clipboard && r.file <==> d == FileOnly
  {
    Delivery(d == Both || d == ClipboardOnly, d == Both || d == FileOnly)
  }
}
