/**
  The freehand drawing surface of the note view (components/NoteDetailView.tsx).

  The 2D canvas context is abstracted to what the handlers do with it:
  - `path`: the context's current path, the points since the last
    `beginPath()` (`moveTo` starts it; `lineTo` extends it);
  - `ink`: the strokes visible on the canvas, one point list per path that
    has been stroked since the last erase. `stroke()` draws the whole current
    path, so re-stroking a growing path replaces its previous rendering;
  - `pathInked`: whether the current path is already part of `ink`.
  `clearRect` erases the ink but keeps the context's path; setting the
  canvas size resets the context (path and style) as well.
*/
module NoteDetail {

  datatype Point = Point(x: real, y: real)

  /** The canvas' on-screen origin, from `getBoundingClientRect()`. */
  datatype Rect = Rect(left: real, top: real)

  /** A mouse event carries one client position; a touch event the list `touches`. */
  datatype PointerInput = Mouse(clientX: real, clientY: real) | Touch(touches: seq<Point>)

  /** Touch start and touch move events always carry at least one touch. */
  predicate WellFormed(e: PointerInput) {
    e.Touch? ==> |e.touches| > 0
  }

  /** The client position of an event: the mouse position, or the first touch. */
  function ClientPoint(e: PointerInput): (p: Point)
    requires WellFormed(e)
    ensures e.Mouse? ==> p == Point(e.clientX, e.clientY)
    ensures e.Touch? ==> p == e.touches[0]
  {
    match e
    case Mouse(x, y) => Point(x, y)
    case Touch(ts) => ts[0]
  }

  /** `getCoordinates`: the client position translated to the canvas' own origin. */
  function LocalPoint(e: PointerInput, rect: Rect): (p: Point)
    requires WellFormed(e)
    ensures p.x + rect.left == ClientPoint(e).x
    ensures p.y + rect.top == ClientPoint(e).y
  {
    var c := ClientPoint(e);
    Point(c.x - rect.left, c.y - rect.top)
  }

  /** What the handlers find when they look up the canvas and its 2D context. */
  datatype Surface = NoCanvas | NoContext | Ready(rect: Rect)

  datatype LineCap = Butt | RoundCap
  datatype LineJoin = Miter | RoundJoin

  datatype PenStyle = PenStyle(lineCap: LineCap, lineJoin: LineJoin, strokeStyle: string, lineWidth: real)

  /** A freshly sized context's style. */
  const DEFAULT_STYLE := PenStyle(Butt, Miter, "#000000", 1.0)

  /** The style the resize handler applies: round caps and joins, black, 2.5 wide. */
  const PEN_STYLE := PenStyle(RoundCap, RoundJoin, "#000000", 2.5)

  datatype Canvas = Canvas(
    isDrawing: bool,
    path: seq<Point>,
    ink: seq<seq<Point>>,
    pathInked: bool,
    width: nat,
    height: nat,
    style: PenStyle)

  /** When the current path has been stroked, it is the last visible stroke. */
  predicate Valid(c: Canvas) {
    c.pathInked ==> |c.ink| > 0 && c.ink[|c.ink| - 1] == c.path
  }

  /**
    `resizeCanvas`: the canvas takes the container's size, which wipes its
    pixels and resets the context; then the pen style is applied again. The
    `isDrawing` flag is React state and survives.
  */
  function Resize(c: Canvas, width: nat, height: nat): (r: Canvas)
    ensures Valid(r)
    ensures r.ink == [] && r.path == []
    ensures r.width == width && r.height == height && r.style == PEN_STYLE
    ensures r.isDrawing == c.isDrawing
  {
    Canvas(c.isDrawing, [], [], false, width, height, PEN_STYLE)
  }

  /** A canvas before the mount effect has run (the HTML default size). */
  const UNMOUNTED := Canvas(false, [], [], false, 300, 150, DEFAULT_STYLE)

  /** The view right after mounting: the effect has sized and styled the canvas once. */
  function Mounted(width: nat, height: nat): (r: Canvas)
    ensures Valid(r) && !r.isDrawing && r.ink == [] && r.path == []
  {
    Resize(UNMOUNTED, width, height)
  }

  /** `startDrawing`: with a canvas and a context, always sets the flag and begins a fresh path. */
  function Down(c: Canvas, e: PointerInput, s: Surface): (r: Canvas)
    requires WellFormed(e)
    requires Valid(c)
    ensures Valid(r)
  {
    match s
    case Ready(rect) => c.(isDrawing := true, path := [LocalPoint(e, rect)], pathInked := false)
    case _ => c
  }

  /**
    `draw`: while drawing, extends the path to the pointer and strokes it.
    On an empty path (a resize mid-stroke reset it) `lineTo` only opens a
    subpath at the pointer, and stroking a single point paints nothing.
  */
  function Move(c: Canvas, e: PointerInput, s: Surface): (r: Canvas)
    requires WellFormed(e)
    requires Valid(c)
    ensures Valid(r)
  {
    if !c.isDrawing then c
    else
      match s
      case Ready(rect) =>
        if c.path == [] then c.(path := [LocalPoint(e, rect)], pathInked := false)
        else
          var path := c.path + [LocalPoint(e, rect)];
          var earlier := if c.pathInked then c.ink[..|c.ink| - 1] else c.ink;
          c.(path := path, ink := earlier + [path], pathInked := true)
      case _ => c
  }

  /**
    `stopDrawing` (mouse up, mouse leave, touch end): while drawing, ends the
    stroke. `closePath()` adds nothing visible, since nothing strokes the path
    again before the next `beginPath()`. The flag is cleared even when the
    context is missing; only a missing canvas stops the handler first.
  */
  function Stop(c: Canvas, s: Surface): (r: Canvas)
    requires Valid(c)
    ensures Valid(r)
  {
    if !c.isDrawing || s.NoCanvas? then c else c.(isDrawing := false)
  }

  /** `clearCanvas`: erases all ink over the whole canvas; the flag and the context's path stay. */
  function Clear(c: Canvas, s: Surface): (r: Canvas)
    requires Valid(c)
    ensures Valid(r)
  {
    if s.Ready? then c.(ink := [], pathInked := false) else c
  }

  // ---------------------------------------------------------------------------
  // Properties of single events
  // ---------------------------------------------------------------------------

  /** Moving the pointer with no stroke in progress changes nothing. */
  lemma MoveWhenIdle(c: Canvas, e: PointerInput, s: Surface)
    requires WellFormed(e) && Valid(c) && !c.isDrawing
    ensures Move(c, e, s) == c
  {
  }

  /** A stop event with no stroke in progress changes nothing; otherwise it clears the flag and keeps the ink. */
  lemma StopEffect(c: Canvas, s: Surface)
    requires Valid(c)
    ensures !c.isDrawing ==> Stop(c, s) == c
    ensures c.isDrawing && s.Ready? ==> !Stop(c, s).isDrawing && Stop(c, s).ink == c.ink
  {
  }

  /** A down event always starts drawing a new one-point path at the pointer, even mid-stroke, and draws nothing yet. */
  lemma DownBeginsPath(c: Canvas, e: PointerInput, rect: Rect)
    requires WellFormed(e) && Valid(c)
    ensures Down(c, e, Ready(rect)).isDrawing
    ensures Down(c, e, Ready(rect)).path == [LocalPoint(e, rect)]
    ensures Down(c, e, Ready(rect)).ink == c.ink
  {
  }

  /** Clearing leaves no ink, keeps the flag, and clearing again changes nothing. */
  lemma ClearErases(c: Canvas, rect: Rect)
    requires Valid(c)
    ensures Clear(c, Ready(rect)).ink == []
    ensures Clear(c, Ready(rect)).isDrawing == c.isDrawing
    ensures Clear(Clear(c, Ready(rect)), Ready(rect)) == Clear(c, Ready(rect))
  {
  }

  /** Without a canvas, or with a canvas but no context, the down, move and clear handlers change nothing. */
  lemma MissingSurfaceIgnored(c: Canvas, e: PointerInput, s: Surface)
    requires WellFormed(e) && Valid(c) && !s.Ready?
    ensures Down(c, e, s) == c && Move(c, e, s) == c && Clear(c, s) == c
    ensures s.NoCanvas? ==> Stop(c, s) == c
  {
  }

  /** Once a path has been stroked, clearing and moving again redraws that whole path, not just the new segment. */
  lemma ClearThenMoveRedrawsPath(c: Canvas, e: PointerInput, rect: Rect)
    requires WellFormed(e) && Valid(c) && c.isDrawing
    ensures c.path != [] ==> Move(Clear(c, Ready(rect)), e, Ready(rect)).ink == [c.path + [LocalPoint(e, rect)]]
    ensures c.path == [] ==> Move(Clear(c, Ready(rect)), e, Ready(rect)).ink == []
  {
  }

  /**
    A resize mid-stroke wipes the ink and the context's path. The next move
    only places the pen, and the move after it draws the segment between them.
  */
  lemma ResizeMidStroke(c: Canvas, width: nat, height: nat, e1: PointerInput, e2: PointerInput, rect: Rect)
    requires WellFormed(e1) && WellFormed(e2) && Valid(c) && c.isDrawing
    ensures Move(Resize(c, width, height), e1, Ready(rect)).ink == []
    ensures Move(Resize(c, width, height), e1, Ready(rect)).path == [LocalPoint(e1, rect)]
    ensures Move(Move(Resize(c, width, height), e1, Ready(rect)), e2, Ready(rect)).ink
      == [[LocalPoint(e1, rect), LocalPoint(e2, rect)]]
  {
    var m := Move(Resize(c, width, height), e1, Ready(rect));
    assert m.path == [LocalPoint(e1, rect)] && !m.pathInked && m.ink == [];
    var q := m.path + [LocalPoint(e2, rect)];
    assert q == [LocalPoint(e1, rect), LocalPoint(e2, rect)];
    assert m.ink + [q] == [q];
  }

  // ---------------------------------------------------------------------------
  // A whole stroke: down, moves, up
  // ---------------------------------------------------------------------------

  /** The local positions of a run of events. */
  function LocalPoints(es: seq<PointerInput>, rect: Rect): (ps: seq<Point>)
    requires forall k :: 0 <= k < |es| ==> WellFormed(es[k])
    ensures |ps| == |es| && forall k :: 0 <= k < |es| ==> ps[k] == LocalPoint(es[k], rect)
  {
    seq(|es|, k requires 0 <= k < |es| => LocalPoint(es[k], rect))
  }

  /** Applies the move events in order. */
  function MoveAll(c: Canvas, es: seq<PointerInput>, s: Surface): (r: Canvas)
    requires Valid(c)
    requires forall k :: 0 <= k < |es| ==> WellFormed(es[k])
    ensures Valid(r)
  {
    if es == [] then c else Move(MoveAll(c, es[..|es| - 1], s), es[|es| - 1], s)
  }

  /**
    After a down event, moves extend the new path point by point, and once
    there has been at least one move the path is the last visible stroke, all
    earlier ink staying as it was.
  */
  lemma {:induction false} MovesExtendPath(c: Canvas, d: PointerInput, es: seq<PointerInput>, rect: Rect)
    requires Valid(c) && WellFormed(d)
    requires forall k :: 0 <= k < |es| ==> WellFormed(es[k])
    ensures MoveAll(Down(c, d, Ready(rect)), es, Ready(rect)).isDrawing
    ensures MoveAll(Down(c, d, Ready(rect)), es, Ready(rect)).path == [LocalPoint(d, rect)] + LocalPoints(es, rect)
    ensures MoveAll(Down(c, d, Ready(rect)), es, Ready(rect)).ink
      == if es == [] then c.ink else c.ink + [[LocalPoint(d, rect)] + LocalPoints(es, rect)]
    ensures MoveAll(Down(c, d, Ready(rect)), es, Ready(rect)).pathInked == (es != [])
  {
    if es != [] {
      var n := |es| - 1;
      MovesExtendPath(c, d, es[..n], rect);
      assert LocalPoints(es, rect) == LocalPoints(es[..n], rect) + [LocalPoint(es[n], rect)];
    }
  }

  /**
    Down, then moves, then up: the ink gains exactly one stroke, the down
    point followed by the move points in order (nothing is drawn for a click
    without movement), and the stroke is over.
  */
  lemma StrokeSession(c: Canvas, d: PointerInput, es: seq<PointerInput>, rect: Rect)
    requires Valid(c) && WellFormed(d)
    requires forall k :: 0 <= k < |es| ==> WellFormed(es[k])
    ensures !Stop(MoveAll(Down(c, d, Ready(rect)), es, Ready(rect)), Ready(rect)).isDrawing
    ensures Stop(MoveAll(Down(c, d, Ready(rect)), es, Ready(rect)), Ready(rect)).ink
      == if es == [] then c.ink else c.ink + [[LocalPoint(d, rect)] + LocalPoints(es, rect)]
  {
    MovesExtendPath(c, d, es, rect);
  }

  /** On a canvas at the page origin, down at (10, 10), move to (20, 20), up: one stroke [(10, 10), (20, 20)]. */
  lemma SingleStrokeExample(width: nat, height: nat)
    ensures Stop(Move(Down(Mounted(width, height), Mouse(10.0, 10.0), Ready(Rect(0.0, 0.0))),
                      Mouse(20.0, 20.0), Ready(Rect(0.0, 0.0))), Ready(Rect(0.0, 0.0))).ink
      == [[Point(10.0, 10.0), Point(20.0, 20.0)]]
  {
    var c, rect := Mounted(width, height), Rect(0.0, 0.0);
    var down, move := Mouse(10.0, 10.0), Mouse(20.0, 20.0);
    StrokeSession(c, down, [move], rect);
    assert MoveAll(Down(c, down, Ready(rect)), [move], Ready(rect)) == Move(Down(c, down, Ready(rect)), move, Ready(rect)) by {
      assert [move][..0] == [];
    }
    assert LocalPoint(down, rect) == Point(10.0, 10.0);
    assert LocalPoints([move], rect) == [Point(20.0, 20.0)];
    assert c.ink == [];
    var stroke := [Point(10.0, 10.0)] + [Point(20.0, 20.0)];
    assert stroke == [Point(10.0, 10.0), Point(20.0, 20.0)];
    assert c.ink + [stroke] == [stroke];
  }

  // ---------------------------------------------------------------------------
  // The component's state
  // ---------------------------------------------------------------------------

  /** The `isDrawing` state hook together with the canvas and its context. */
  class NoteCanvas {
    var isDrawing: bool
    var path: seq<Point>
    var ink: seq<seq<Point>>
    var pathInked: bool
    var width: nat
    var height: nat
    var style: PenStyle

    function State(): Canvas
      reads this
    {
      Canvas(isDrawing, path, ink, pathInked, width, height, style)
    }

    /** Mounting the view: the effect sizes the canvas to its container and sets the pen. */
    constructor (containerWidth: nat, containerHeight: nat)
      ensures State() == Mounted(containerWidth, containerHeight)
    {
      isDrawing, path, ink, pathInked := false, [], [], false;
      width, height, style := containerWidth, containerHeight, PEN_STYLE;
    }

    method ResizeCanvas(containerWidth: nat, containerHeight: nat)
      modifies this
      ensures State() == Resize(old(State()), containerWidth, containerHeight)
    {
      width, height := containerWidth, containerHeight;
      path, ink, pathInked := [], [], false;
      style := PEN_STYLE;
    }

    method StartDrawing(e: PointerInput, s: Surface)
      requires WellFormed(e) && Valid(State())
      modifies this
      ensures State() == Down(old(State()), e, s)
    {
      if !s.Ready? {
        return;
      }
      isDrawing := true;
      var p := LocalPoint(e, s.rect);
      path := [p];
      pathInked := false;
    }

    method Draw(e: PointerInput, s: Surface)
      requires WellFormed(e) && Valid(State())
      modifies this
      ensures State() == Move(old(State()), e, s)
    {
      if !isDrawing || !s.Ready? {
        return;
      }
      var p := LocalPoint(e, s.rect);
      if path == [] {
        path := [p];
        pathInked := false;
        return;
      }
      path := path + [p];
      if pathInked {
        ink := ink[..|ink| - 1];
      }
      ink := ink + [path];
      pathInked := true;
    }

    method StopDrawing(s: Surface)
      requires Valid(State())
      modifies this
      ensures State() == Stop(old(State()), s)
    {
      if !isDrawing || s.NoCanvas? {
        return;
      }
      isDrawing := false;
    }

    method ClearCanvas(s: Surface)
      requires Valid(State())
      modifies this
      ensures State() == Clear(old(State()), s)
    {
      if !s.Ready? {
        return;
      }
      ink, pathInked := [], false;
    }
  }
}
