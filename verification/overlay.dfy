/**
 * SelectionOverlayView: the interactive editor of the capture rectangle.
 *
 * Coordinates are view-local with y growing upwards, so the "top" handles
 * sit on MaxY() and the "bottom" handles on MinY(). The onConfirm and
 * onCancel callbacks are the Outcome values the event methods return.
 */
module Overlay {
  import opened Wrappers
  import opened Geometry

  datatype HandlePosition =
    | TopLeft | Top | TopRight
    | Left | Right
    | BottomLeft | Bottom | BottomRight
    | Inside  // the move zone

  /** What an event asks of the session's owner. */
  datatype Outcome = Continue | Confirmed(rect: Rect) | Cancelled

  const HandleSize: real := 10.0
  const HitTolerance: real := 6.0
  const MinSide: real := 10.0

  const KeyReturn: int := 36
  const KeyEnter: int := 76
  const KeyEscape: int := 53

  /** The eight resize handles, in the order hit-testing tries them. */
  const HandleOrder: seq<HandlePosition> := [TopLeft, Top, TopRight, Left, Right, BottomLeft, Bottom, BottomRight]

  /** The point of the rectangle each handle marks. */
  function Anchor(r: Rect, h: HandlePosition): Point {
    match h
    case TopLeft => Point(r.MinX(), r.MaxY())
    case Top => Point(r.MidX(), r.MaxY())
    case TopRight => Point(r.MaxX(), r.MaxY())
    case Left => Point(r.MinX(), r.MidY())
    case Right => Point(r.MaxX(), r.MidY())
    case BottomLeft => Point(r.MinX(), r.MinY())
    case Bottom => Point(r.MidX(), r.MinY())
    case BottomRight => Point(r.MaxX(), r.MinY())
    case Inside => Point(r.MidX(), r.MidY())
  }

  /** handleRects(): a 10-unit square per resize handle. */
  function HandleRects(r: Rect): (hs: seq<(HandlePosition, Rect)>)
    ensures |hs| == |HandleOrder|
    ensures forall i :: 0 <= i < |hs| ==> hs[i].0 == HandleOrder[i]
    ensures forall i :: 0 <= i < |hs| ==> hs[i].1 == Square(Anchor(r, hs[i].0), HandleSize)
  {
    var s := HandleSize;
    var mx := r.MidX() - s / 2.0;
    var my := r.MidY() - s / 2.0;
    [ (TopLeft,     Rect(Point(r.MinX() - s / 2.0, r.MaxY() - s / 2.0), Size(s, s))),
      (Top,         Rect(Point(mx,                 r.MaxY() - s / 2.0), Size(s, s))),
      (TopRight,    Rect(Point(r.MaxX() - s / 2.0, r.MaxY() - s / 2.0), Size(s, s))),
      (Left,        Rect(Point(r.MinX() - s / 2.0, my),                 Size(s, s))),
      (Right,       Rect(Point(r.MaxX() - s / 2.0, my),                 Size(s, s))),
      (BottomLeft,  Rect(Point(r.MinX() - s / 2.0, r.MinY() - s / 2.0), Size(s, s))),
      (Bottom,      Rect(Point(mx,                 r.MinY() - s / 2.0), Size(s, s))),
      (BottomRight, Rect(Point(r.MaxX() - s / 2.0, r.MinY() - s / 2.0), Size(s, s))) ]
  }

  /** The zone that grabs handle `h`: its square grown by the hit tolerance on every side. */
  function GrabZone(r: Rect, h: HandlePosition): Rect {
    Square(Anchor(r, h), HandleSize).InsetBy(-HitTolerance, -HitTolerance)
  }

  /** Entry `e` of a handle list grabs `p`: its square grown by the hit tolerance contains `p`. */
  predicate Grabs(e: (HandlePosition, Rect), p: Point) {
    e.1.InsetBy(-HitTolerance, -HitTolerance).Contains(p)
  }

  /** Entry `i` is the first one of `hs` that grabs `p`. */
  predicate FirstGrab(hs: seq<(HandlePosition, Rect)>, p: Point, i: int) {
    0 <= i < |hs| && Grabs(hs[i], p) && forall j :: 0 <= j < i ==> !Grabs(hs[j], p)
  }

  /** The first-match scan over `hs`. */
  function FirstHit(hs: seq<(HandlePosition, Rect)>, p: Point): (r: Option<HandlePosition>)
    ensures r.None? <==> forall i :: 0 <= i < |hs| ==> !Grabs(hs[i], p)
    ensures r.Some? ==> exists i :: FirstGrab(hs, p, i) && hs[i].0 == r.value
    decreases |hs|
  {
    if hs == [] then None
    else if Grabs(hs[0], p) then
      assert FirstGrab(hs, p, 0);
      Some(hs[0].0)
    else
      var rest := FirstHit(hs[1..], p);
      assert rest.Some? ==> exists i :: FirstGrab(hs, p, i) && hs[i].0 == rest.value by {
        if rest.Some? {
          var i :| FirstGrab(hs[1..], p, i) && hs[1..][i].0 == rest.value;
          forall j | 0 <= j < i + 1
            ensures !Grabs(hs[j], p)
          {
            if j > 0 { assert hs[j] == hs[1..][j - 1]; }
          }
          assert FirstGrab(hs, p, i + 1);
        }
      }
      assert rest.None? ==> forall i :: 0 <= i < |hs| ==> !Grabs(hs[i], p) by {
        if rest.None? {
          forall i | 0 <= i < |hs|
            ensures !Grabs(hs[i], p)
          {
            if i > 0 { assert hs[i] == hs[1..][i - 1]; }
          }
        }
      }
      assert rest.Some? ==> !forall i :: 0 <= i < |hs| ==> !Grabs(hs[i], p);
      rest
  }

  /** hitTest(point:): the first handle whose grab zone holds `p`, else the interior, else nothing. */
  function HitTest(r: Rect, p: Point): Option<HandlePosition> {
    match FirstHit(HandleRects(r), p)
    case Some(h) => Some(h)
    case None => if r.Contains(p) then Some(Inside) else None
  }

  /** No resize handle's grab zone holds `p`. */
  predicate NoHandleGrabs(r: Rect, p: Point) {
    forall i :: 0 <= i < |HandleOrder| ==> !GrabZone(r, HandleOrder[i]).Contains(p)
  }

  /** Handle `i` of HandleOrder is the first whose grab zone holds `p`. */
  predicate FirstGrabbedHandle(r: Rect, p: Point, i: int) {
    0 <= i < |HandleOrder| && GrabZone(r, HandleOrder[i]).Contains(p)
    && forall j :: 0 <= j < i ==> !GrabZone(r, HandleOrder[j]).Contains(p)
  }

  /**
   * hitTest answers a handle exactly when some grab zone holds the point, and
   * then the first one in handle order; the interior only when no handle
   * does and the rectangle holds the point; nothing otherwise.
   */
  lemma HitTestChoice(r: Rect, p: Point)
    ensures HitTest(r, p).Some? && HitTest(r, p).value != Inside ==>
      exists i :: FirstGrabbedHandle(r, p, i) && HandleOrder[i] == HitTest(r, p).value
    ensures HitTest(r, p) == Some(Inside) <==> NoHandleGrabs(r, p) && r.Contains(p)
    ensures HitTest(r, p).None? <==> NoHandleGrabs(r, p) && !r.Contains(p)
  {
    var hs := HandleRects(r);
    forall i | 0 <= i < |hs|
      ensures Grabs(hs[i], p) <==> GrabZone(r, HandleOrder[i]).Contains(p)
    {
    }
    var hit := FirstHit(hs, p);
    if hit.Some? {
      var i :| FirstGrab(hs, p, i) && hs[i].0 == hit.value;
      assert FirstGrabbedHandle(r, p, i);
      assert hit.value != Inside;
    }
  }

  /** Pressing on a handle's own marker always grabs a handle, never the interior. */
  lemma HitAtAnchor(r: Rect, h: HandlePosition)
    requires h != Inside
    ensures HitTest(r, Anchor(r, h)).Some? && HitTest(r, Anchor(r, h)).value != Inside
  {
    var p := Anchor(r, h);
    assert h in HandleOrder;
    var i :| 0 <= i < |HandleOrder| && HandleOrder[i] == h;
    assert GrabZone(r, h).Contains(p);
    assert !NoHandleGrabs(r, p);
    HitTestChoice(r, p);
  }

  // ---------------------------------------------------------------------
  // Dragging

  /**
   * Which raw edges a handle drags: the origin-side and far-side edges in x
   * (left, right) and in y (bottom, top).
   */
  datatype Edges = Edges(left: bool, right: bool, bottom: bool, top: bool)

  function EdgesOf(h: HandlePosition): Edges {
    match h
    case TopLeft => Edges(true, false, false, true)
    case Top => Edges(false, false, false, true)
    case TopRight => Edges(false, true, false, true)
    case Left => Edges(true, false, false, false)
    case Right => Edges(false, true, false, false)
    case BottomLeft => Edges(true, false, true, false)
    case Bottom => Edges(false, false, true, false)
    case BottomRight => Edges(false, true, true, false)
    case Inside => Edges(true, true, true, true)
  }

  /** The rectangle whose selected raw edges are moved by (dx, dy) and whose others stay put. */
  function MoveEdges(r: Rect, e: Edges, dx: real, dy: real): Rect {
    var left := r.origin.x + (if e.left then dx else 0.0);
    var right := r.origin.x + r.size.width + (if e.right then dx else 0.0);
    var bottom := r.origin.y + (if e.bottom then dy else 0.0);
    var top := r.origin.y + r.size.height + (if e.top then dy else 0.0);
    Rect(Point(left, bottom), Size(right - left, top - bottom))
  }

  predicate MinSize(r: Rect) {
    r.Width() >= MinSide && r.Height() >= MinSide
  }

  /**
   * The minimum-size floor: a side whose standardised length is under 10
   * becomes a raw +10, even when it was negative; the origin never moves.
   */
  function FloorSize(r: Rect): (f: Rect)
    ensures MinSize(f)
    ensures f.origin == r.origin
    ensures r.Width() >= MinSide ==> f.size.width == r.size.width
    ensures r.Height() >= MinSide ==> f.size.height == r.size.height
    ensures r.Width() < MinSide ==> f.size.width == MinSide
    ensures r.Height() < MinSide ==> f.size.height == MinSide
    ensures MinSize(r) ==> f == r
  {
    Rect(r.origin, Size(if r.Width() < MinSide then MinSide else r.size.width,
                        if r.Height() < MinSide then MinSide else r.size.height))
  }

  /** The rectangle a drag of handle `h` by the total offset (dx, dy) from `r0` produces. */
  function Drag(r0: Rect, h: HandlePosition, dx: real, dy: real): Rect {
    FloorSize(MoveEdges(r0, EdgesOf(h), dx, dy))
  }

  /** Moving the interior translates the rectangle and keeps its size. */
  lemma DragInsideTranslates(r0: Rect, dx: real, dy: real)
    requires MinSize(r0)
    ensures Drag(r0, Inside, dx, dy) == Rect(Point(r0.origin.x + dx, r0.origin.y + dy), r0.size)
  {
    var m := MoveEdges(r0, EdgesOf(Inside), dx, dy);
    assert m == Rect(Point(r0.origin.x + dx, r0.origin.y + dy), r0.size);
  }

  /** The right handle changes only the width, the top handle only the height. */
  lemma DragSingleSide(r0: Rect, dx: real, dy: real)
    requires MinSize(r0)
    ensures var r := Drag(r0, Right, dx, dy);
      r.origin == r0.origin && r.size.height == r0.size.height
      && (Abs(r0.size.width + dx) >= MinSide ==> r.size.width == r0.size.width + dx)
    ensures var r := Drag(r0, Top, dx, dy);
      r.origin == r0.origin && r.size.width == r0.size.width
      && (Abs(r0.size.height + dy) >= MinSide ==> r.size.height == r0.size.height + dy)
  {
    assert MoveEdges(r0, EdgesOf(Right), dx, dy).size == Size(r0.size.width + dx, r0.size.height);
    assert MoveEdges(r0, EdgesOf(Top), dx, dy).size == Size(r0.size.width, r0.size.height + dy);
  }

  /**
   * Left-side handles keep the far x edge, bottom-side handles keep the far y
   * edge, as long as the floor does not apply; right-side and top-side
   * handles never move the origin coordinate of their axis.
   */
  lemma DragKeepsOppositeEdge(r0: Rect, h: HandlePosition, dx: real, dy: real)
    ensures var r := Drag(r0, h, dx, dy);
      && (EdgesOf(h).left && !EdgesOf(h).right && Abs(r0.size.width - dx) >= MinSide ==>
            r.origin.x == r0.origin.x + dx && r.origin.x + r.size.width == r0.origin.x + r0.size.width)
      && (EdgesOf(h).bottom && !EdgesOf(h).top && Abs(r0.size.height - dy) >= MinSide ==>
            r.origin.y == r0.origin.y + dy && r.origin.y + r.size.height == r0.origin.y + r0.size.height)
      && (!EdgesOf(h).left ==> r.origin.x == r0.origin.x)
      && (!EdgesOf(h).bottom ==> r.origin.y == r0.origin.y)
  {
  }

  /** A drag back to the press point restores a rectangle that meets the floor. */
  lemma DragZeroOffset(r0: Rect, h: HandlePosition)
    requires MinSize(r0)
    ensures Drag(r0, h, 0.0, 0.0) == r0
  {
    assert MoveEdges(r0, EdgesOf(h), 0.0, 0.0) == r0;
  }

  /** The per-handle arithmetic of mouseDragged, applied to a copy `r` of the rectangle at the press. */
  method MoveByHandle(r0: Rect, handle: HandlePosition, dx: real, dy: real) returns (r: Rect)
    ensures r == MoveEdges(r0, EdgesOf(handle), dx, dy)
  {
    r := r0;
    match handle {
      case Inside =>
        r := r.(origin := r.origin.(x := r.origin.x + dx));
        r := r.(origin := r.origin.(y := r.origin.y + dy));
      case TopLeft =>
        r := r.(origin := r.origin.(x := r.origin.x + dx)); r := r.(size := r.size.(width := r.size.width - dx));
        r := r.(size := r.size.(height := r.size.height + dy));
      case Top =>
        r := r.(size := r.size.(height := r.size.height + dy));
      case TopRight =>
        r := r.(size := r.size.(width := r.size.width + dx));
        r := r.(size := r.size.(height := r.size.height + dy));
      case Left =>
        r := r.(origin := r.origin.(x := r.origin.x + dx)); r := r.(size := r.size.(width := r.size.width - dx));
      case Right =>
        r := r.(size := r.size.(width := r.size.width + dx));
      case BottomLeft =>
        r := r.(origin := r.origin.(x := r.origin.x + dx)); r := r.(size := r.size.(width := r.size.width - dx));
        r := r.(origin := r.origin.(y := r.origin.y + dy)); r := r.(size := r.size.(height := r.size.height - dy));
      case Bottom =>
        r := r.(origin := r.origin.(y := r.origin.y + dy)); r := r.(size := r.size.(height := r.size.height - dy));
      case BottomRight =>
        r := r.(size := r.size.(width := r.size.width + dx));
        r := r.(origin := r.origin.(y := r.origin.y + dy)); r := r.(size := r.size.(height := r.size.height - dy));
    }
  }

  class SelectionOverlayView {
    var selectionRect: Rect
    var dragHandle: Option<HandlePosition>
    var dragStart: Point
    var rectAtDragStart: Rect

    constructor (initialRect: Rect)
      ensures selectionRect == initialRect && dragHandle.None?
      ensures dragStart == Zero && rectAtDragStart == Rect(Zero, Size(0.0, 0.0))
    {
      selectionRect := initialRect;
      dragHandle := None;
      dragStart := Zero;
      rectAtDragStart := Rect(Zero, Size(0.0, 0.0));
    }

    /** Starts a drag session at `pt`; a double click confirms the current rectangle. */
    method MouseDown(pt: Point, clickCount: int) returns (outcome: Outcome)
      modifies this
      ensures dragHandle == HitTest(old(selectionRect), pt)
      ensures dragStart == pt && rectAtDragStart == old(selectionRect)
      ensures selectionRect == old(selectionRect)
      ensures outcome == if clickCount == 2 then Confirmed(selectionRect) else Continue
    {
      dragHandle := HitTest(selectionRect, pt);
      dragStart := pt;
      rectAtDragStart := selectionRect;
      outcome := Continue;
      if clickCount == 2 {
        outcome := Confirm();
      }
    }

    /** A secondary click cancels the session. */
    method RightMouseDown() returns (outcome: Outcome)
      ensures outcome == Cancelled
    {
      outcome := Cancelled;
    }

    /**
     * Recomputes the rectangle from the one at the press plus the total
     * offset from the press point, then applies the minimum-size floor.
     */
    method MouseDragged(pt: Point)
      modifies this`selectionRect
      ensures dragHandle.None? ==> selectionRect == old(selectionRect)
      ensures dragHandle.Some? ==>
        selectionRect == Drag(rectAtDragStart, dragHandle.value, pt.x - dragStart.x, pt.y - dragStart.y)
      ensures dragHandle.Some? ==> MinSize(selectionRect)
      ensures old(MinSize(selectionRect)) ==> MinSize(selectionRect)
    {
      if dragHandle.None? {
        return;
      }
      var r := MoveByHandle(rectAtDragStart, dragHandle.value, pt.x - dragStart.x, pt.y - dragStart.y);

      // minimum size
      if r.Width() < MinSide { r := r.(size := r.size.(width := MinSide)); }
      if r.Height() < MinSide { r := r.(size := r.size.(height := MinSide)); }

      selectionRect := r;
    }

    /** Ends the drag session. */
    method MouseUp()
      modifies this`dragHandle
      ensures dragHandle.None?
    {
      dragHandle := None;
    }

    /** Return and keypad Enter confirm, Escape cancels, every other key is passed on. */
    method KeyDown(keyCode: int) returns (outcome: Outcome)
      ensures keyCode == KeyReturn || keyCode == KeyEnter ==> outcome == Confirmed(selectionRect)
      ensures keyCode == KeyEscape ==> outcome == Cancelled
      ensures keyCode !in {KeyReturn, KeyEnter, KeyEscape} ==> outcome == Continue
    {
      if keyCode == KeyReturn || keyCode == KeyEnter {
        outcome := Confirm();
      } else if keyCode == KeyEscape {
        outcome := Cancelled;
      } else {
        outcome := Continue;
      }
    }

    /** Delivers the current rectangle exactly as it stands. */
    method Confirm() returns (outcome: Outcome)
      ensures outcome == Confirmed(selectionRect)
    {
      outcome := Confirmed(selectionRect);
    }
  }
}
