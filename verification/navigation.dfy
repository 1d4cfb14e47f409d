/**
  The navigation state of the viewer and the three input handlers that
  change it. The view is a zoom factor (pixels per plane unit), the plane
  point at the centre of the screen, and the iteration bound; the drag
  session is a flag and the last cursor position seen while dragging.

  `View`, `Step` and `Run` are the value-level specification; the class
  `Viewer` holds the same fields as mutable state, with one method per
  callback, each proved to perform `Step`.
*/
module Navigation {

  /** Scrolling multiplies or divides the zoom by this gain. */
  const ZoomGain: real := 1.1

  /** The button and action codes the input layer delivers (GLFW_MOUSE_BUTTON_LEFT, GLFW_RELEASE, GLFW_PRESS). */
  const MouseButtonLeft: int := 0
  const Release: int := 0
  const Press: int := 1

  datatype View = View(
    zoom: real,
    offsetX: real,
    offsetY: real,
    maxIterations: int,
    isDragging: bool,
    lastMouseX: real,
    lastMouseY: real)
  {
    /** The invariant the view keeps: a positive zoom and a positive iteration bound. */
    predicate Valid() {
      zoom > 0.0 && maxIterations >= 1
    }
  }

  /** The state at start-up; the last cursor position is a zero-initialised global. */
  function Initial(): (v: View)
    ensures v.Valid() && !v.isDragging
  {
    View(200.0, -0.5, 0.0, 1500, false, 0.0, 0.0)
  }

  /** The input events, one per callback. */
  datatype Event =
    | Scroll(xoffset: real, yoffset: real)
    | MouseButton(button: int, action: int, cursorX: real, cursorY: real)
    | CursorPos(xpos: real, ypos: real)

  /** The effect of one event on the state. */
  function Step(v: View, e: Event): (w: View)
    requires v.Valid()
    ensures w.Valid()
    ensures w.maxIterations == v.maxIterations
  {
    match e
    case Scroll(_, yoffset) =>
      if yoffset > 0.0 then v.(zoom := v.zoom * ZoomGain)
      else if yoffset < 0.0 then v.(zoom := v.zoom / ZoomGain)
      else v
    case MouseButton(button, action, x, y) =>
      if button == MouseButtonLeft && action == Press then
        v.(isDragging := true, lastMouseX := x, lastMouseY := y)
      else if button == MouseButtonLeft && action == Release then
        v.(isDragging := false)
      else v
    case CursorPos(x, y) =>
      if v.isDragging then
        v.(offsetX := v.offsetX - (x - v.lastMouseX) / v.zoom,
           offsetY := v.offsetY + (y - v.lastMouseY) / v.zoom,
           lastMouseX := x,
           lastMouseY := y)
      else v
  }

  /** The state after a sequence of events, delivered in order. */
  function Run(v: View, es: seq<Event>): (w: View)
    requires v.Valid()
    ensures w.Valid()
    ensures w.maxIterations == v.maxIterations
    decreases |es|
  {
    if es == [] then v else Run(Step(v, es[0]), es[1..])
  }

  class Viewer {
    var zoom: real
    var offsetX: real
    var offsetY: real
    var maxIterations: int
    var isDragging: bool
    var lastMouseX: real
    var lastMouseY: real

    /** The fields as a value. */
    ghost function State(): View
      reads this
    {
      View(zoom, offsetX, offsetY, maxIterations, isDragging, lastMouseX, lastMouseY)
    }

    ghost predicate Valid()
      reads this
    {
      State().Valid()
    }

    constructor ()
      ensures Valid()
      ensures State() == Initial()
    {
      zoom := 200.0;
      offsetX := -0.5;
      offsetY := 0.0;
      maxIterations := 1500;
      isDragging := false;
      lastMouseX := 0.0;
      lastMouseY := 0.0;
    }

    /** Zoom in on a positive vertical scroll, out on a negative one; the horizontal scroll is ignored. */
    method ScrollCallback(xoffset: real, yoffset: real)
      requires Valid()
      modifies this
      ensures Valid()
      ensures State() == Step(old(State()), Scroll(xoffset, yoffset))
      ensures yoffset > 0.0 ==> zoom == old(zoom) * ZoomGain
      ensures yoffset < 0.0 ==> zoom == old(zoom) / ZoomGain
      ensures yoffset == 0.0 ==> zoom == old(zoom)
      ensures offsetX == old(offsetX) && offsetY == old(offsetY) && maxIterations == old(maxIterations)
      ensures isDragging == old(isDragging) && lastMouseX == old(lastMouseX) && lastMouseY == old(lastMouseY)
    {
      if yoffset > 0.0 {
        zoom := zoom * ZoomGain;
      } else if yoffset < 0.0 {
        zoom := zoom / ZoomGain;
      }
    }

    /**
      A left press starts a drag at the cursor position (cursorX, cursorY),
      which the caller reads from the window at the time of the press; a
      left release ends it. Other buttons and actions change nothing.
    */
    method MouseButtonCallback(button: int, action: int, cursorX: real, cursorY: real)
      requires Valid()
      modifies this
      ensures Valid()
      ensures State() == Step(old(State()), MouseButton(button, action, cursorX, cursorY))
      ensures button == MouseButtonLeft && action == Press ==>
        isDragging && lastMouseX == cursorX && lastMouseY == cursorY
      ensures button == MouseButtonLeft && action == Release ==>
        !isDragging && lastMouseX == old(lastMouseX) && lastMouseY == old(lastMouseY)
      ensures button != MouseButtonLeft || (action != Press && action != Release) ==>
        State() == old(State())
      ensures zoom == old(zoom) && offsetX == old(offsetX) && offsetY == old(offsetY)
      ensures maxIterations == old(maxIterations)
    {
      if button == MouseButtonLeft {
        if action == Press {
          isDragging := true;
          lastMouseX, lastMouseY := cursorX, cursorY;
        } else if action == Release {
          isDragging := false;
        }
      }
    }

    /**
      While dragging, pan by the cursor's movement since the last event,
      converted to plane units: horizontally against the drag, vertically
      with it (screen y grows downward, the imaginary axis upward).
    */
    method CursorPositionCallback(xpos: real, ypos: real)
      requires Valid()
      modifies this
      ensures Valid()
      ensures State() == Step(old(State()), CursorPos(xpos, ypos))
      ensures !old(isDragging) ==> State() == old(State())
      ensures old(isDragging) ==>
        offsetX == old(offsetX) - (xpos - old(lastMouseX)) / zoom &&
        offsetY == old(offsetY) + (ypos - old(lastMouseY)) / zoom &&
        lastMouseX == xpos && lastMouseY == ypos
      ensures zoom == old(zoom) && isDragging == old(isDragging) && maxIterations == old(maxIterations)
    {
      if isDragging {
        var dx := xpos - lastMouseX;
        var dy := ypos - lastMouseY;
        lastMouseX := xpos;
        lastMouseY := ypos;

        offsetX := offsetX - dx / zoom;
        offsetY := offsetY + dy / zoom;
      }
    }
  }

  // ---------------------------------------------------------------------
  // Sequences of events

  /** Running two sequences one after the other is running their concatenation. */
  lemma {:induction false} RunAppend(v: View, a: seq<Event>, b: seq<Event>)
    requires v.Valid()
    ensures Run(v, a + b) == Run(Run(v, a), b)
    decreases |a|
  {
    if a == [] {
      assert a + b == b;
    } else {
      assert (a + b)[1..] == a[1..] + b;
      RunAppend(Step(v, a[0]), a[1..], b);
    }
  }

  /** b^k for a natural exponent. */
  function Pow(b: real, k: nat): real {
    if k == 0 then 1.0 else b * Pow(b, k - 1)
  }

  lemma {:induction false} PowPositive(b: real, k: nat)
    requires b > 0.0
    ensures Pow(b, k) > 0.0
  {
    if k > 0 {
      PowPositive(b, k - 1);
    }
  }

  /** z scaled by ZoomGain^n for an integer exponent n: n zoom-in steps, or -n zoom-out steps. */
  function Zoomed(z: real, n: int): real {
    if n >= 0 then z * Pow(ZoomGain, n)
    else
      PowPositive(ZoomGain, -n);
      z / Pow(ZoomGain, -n)
  }

  /** Scaling up by one gain step moves the exponent up by one. */
  lemma ZoomedIn(z: real, n: int)
    ensures Zoomed(z * ZoomGain, n) == Zoomed(z, n + 1)
  {
    var g := ZoomGain;
    if n >= 0 {
      calc {
        Zoomed(z * g, n);
        (z * g) * Pow(g, n);
        z * (g * Pow(g, n));
        Zoomed(z, n + 1);
      }
    } else {
      var m := -n;
      PowPositive(g, m - 1);
      var p := Pow(g, m - 1);
      assert Pow(g, m) == g * p;
      calc {
        Zoomed(z * g, n);
        (z * g) / (g * p);
        z / p;
      }
      if m == 1 {
        assert Zoomed(z, n + 1) == z * Pow(g, 0) == z;
      }
    }
  }

  /** Scaling down by one gain step moves the exponent down by one. */
  lemma ZoomedOut(z: real, n: int)
    ensures Zoomed(z / ZoomGain, n) == Zoomed(z, n - 1)
  {
    ZoomedIn(z / ZoomGain, n - 1);
    assert (z / ZoomGain) * ZoomGain == z;
  }

  predicate IsScroll(e: Event) { e.Scroll? }
  predicate IsScrollUp(e: Event) { e.Scroll? && e.yoffset > 0.0 }
  predicate IsScrollDown(e: Event) { e.Scroll? && e.yoffset < 0.0 }

  /** The number of scroll-ups minus the number of scroll-downs in a sequence. */
  function NetScroll(es: seq<Event>): int {
    if es == [] then 0
    else (if IsScrollUp(es[0]) then 1 else if IsScrollDown(es[0]) then -1 else 0) + NetScroll(es[1..])
  }

  /**
    Zoom is multiplicative: after any sequence of scroll events the zoom is the
    starting zoom times ZoomGain^(ups - downs), whatever the order; nothing
    but the zoom changes.
  */
  lemma {:induction false} ScrollsCompound(v: View, es: seq<Event>)
    requires v.Valid()
    requires forall i :: 0 <= i < |es| ==> IsScroll(es[i])
    ensures Run(v, es) == v.(zoom := Zoomed(v.zoom, NetScroll(es)))
    decreases |es|
  {
    if es == [] {
      assert Zoomed(v.zoom, 0) == v.zoom * Pow(ZoomGain, 0) == v.zoom;
    } else {
      var e, rest := es[0], es[1..];
      var w := Step(v, e);
      assert Run(v, es) == Run(w, rest);
      assert IsScroll(e);
      ScrollsCompound(w, rest);
      if e.yoffset > 0.0 {
        ZoomedIn(v.zoom, NetScroll(rest));
      } else if e.yoffset < 0.0 {
        ZoomedOut(v.zoom, NetScroll(rest));
      }
    }
  }

  /** In a sequence of scroll-ups only, or scroll-downs only, the net count is its length (or minus it). */
  lemma {:induction false} CountScrolls(es: seq<Event>)
    ensures (forall i :: 0 <= i < |es| ==> IsScrollUp(es[i])) ==> NetScroll(es) == |es|
    ensures (forall i :: 0 <= i < |es| ==> IsScrollDown(es[i])) ==> NetScroll(es) == -|es|
  {
    if es != [] {
      CountScrolls(es[1..]);
    }
  }

  /** k scroll-ups multiply the zoom by ZoomGain^k and change nothing else. */
  lemma {:induction false} ScrollUpsZoomIn(v: View, es: seq<Event>)
    requires v.Valid()
    requires forall i :: 0 <= i < |es| ==> IsScrollUp(es[i])
    ensures Run(v, es) == v.(zoom := v.zoom * Pow(ZoomGain, |es|))
  {
    ScrollsCompound(v, es);
    CountScrolls(es);
    ZoomedNatural(v.zoom, |es|);
  }

  lemma ZoomedNatural(z: real, n: nat)
    ensures Zoomed(z, n) == z * Pow(ZoomGain, n)
  {
  }

  /** k scroll-downs divide the zoom by ZoomGain^k and change nothing else. */
  lemma {:induction false} ScrollDownsZoomOut(v: View, es: seq<Event>)
    requires v.Valid()
    requires forall i :: 0 <= i < |es| ==> IsScrollDown(es[i])
    ensures Pow(ZoomGain, |es|) > 0.0
    ensures Run(v, es) == v.(zoom := v.zoom / Pow(ZoomGain, |es|))
  {
    ScrollsCompound(v, es);
    CountScrolls(es);
    PowPositive(ZoomGain, |es|);
    if |es| == 0 {
      assert Pow(ZoomGain, 0) == 1.0;
    }
  }

  /** One scroll up followed by one scroll down (or the reverse) restores the state exactly. */
  lemma ScrollUpThenDown(v: View, up: real, down: real, x1: real, x2: real)
    requires v.Valid() && up > 0.0 && down < 0.0
    ensures Run(v, [Scroll(x1, up), Scroll(x2, down)]) == v
    ensures Run(v, [Scroll(x1, down), Scroll(x2, up)]) == v
  {
    var w1 := Step(v, Scroll(x1, up));
    assert Run(v, [Scroll(x1, up), Scroll(x2, down)]) == Run(w1, [Scroll(x2, down)]);
    assert Run(w1, [Scroll(x2, down)]) == Run(Step(w1, Scroll(x2, down)), []);
    var w2 := Step(v, Scroll(x1, down));
    assert Run(v, [Scroll(x1, down), Scroll(x2, up)]) == Run(w2, [Scroll(x2, up)]);
    assert Run(w2, [Scroll(x2, up)]) == Run(Step(w2, Scroll(x2, up)), []);
  }

  // ---------------------------------------------------------------------
  // Dragging

  predicate IsMove(e: Event) { e.CursorPos? }

  /** Cursor moves outside a drag change nothing. */
  lemma {:induction false} IdleMovesAreIgnored(v: View, es: seq<Event>)
    requires v.Valid() && !v.isDragging
    requires forall i :: 0 <= i < |es| ==> IsMove(es[i])
    ensures Run(v, es) == v
    decreases |es|
  {
    if es != [] {
      IdleMovesAreIgnored(Step(v, es[0]), es[1..]);
    }
  }

  /**
    The pan telescopes: during a drag, a sequence of cursor moves shifts the
    offsets by the total displacement from the drag's last position to the
    final cursor position, exactly as a single move there would.
  */
  lemma {:induction false} MovesTelescope(v: View, es: seq<Event>)
    requires v.Valid() && v.isDragging
    requires |es| > 0 && forall i :: 0 <= i < |es| ==> IsMove(es[i])
    ensures Run(v, es) == Step(v, es[|es| - 1])
    decreases |es|
  {
    if |es| > 1 {
      var w := Step(v, es[0]);
      MovesTelescope(w, es[1..]);
      var last := es[|es| - 1];
      assert es[1..][|es[1..]| - 1] == last;
      var a := (es[0].xpos - v.lastMouseX) / v.zoom;
      var b := (last.xpos - es[0].xpos) / v.zoom;
      assert a + b == (last.xpos - v.lastMouseX) / v.zoom;
      var c := (es[0].ypos - v.lastMouseY) / v.zoom;
      var d := (last.ypos - es[0].ypos) / v.zoom;
      assert c + d == (last.ypos - v.lastMouseY) / v.zoom;
    }
  }

  /** Two successive moves during a drag equal one move to the second position. */
  lemma {:induction false} TwoMovesCompose(v: View, x1: real, y1: real, x2: real, y2: real)
    requires v.Valid() && v.isDragging
    ensures Run(v, [CursorPos(x1, y1), CursorPos(x2, y2)]) == Step(v, CursorPos(x2, y2))
  {
    MovesTelescope(v, [CursorPos(x1, y1), CursorPos(x2, y2)]);
  }

  /**
    A drag that presses at a point, moves the cursor about (or not at all),
    comes back to the press point and releases leaves the view where it was.
    Only cursor moves may come between press and release: a scroll during
    the drag changes the zoom between two moves, so the return move no longer
    cancels the pan (`ScrollDuringDragShifts`).
  */
  lemma {:induction false} DragRoundTrip(v: View, x: real, y: real, moves: seq<Event>)
    requires v.Valid()
    requires forall i :: 0 <= i < |moves| ==> IsMove(moves[i])
    requires moves == [] || moves[|moves| - 1] == CursorPos(x, y)
    ensures var w := Run(v, [MouseButton(MouseButtonLeft, Press, x, y)] + moves + [MouseButton(MouseButtonLeft, Release, x, y)]);
      w.zoom == v.zoom && w.offsetX == v.offsetX && w.offsetY == v.offsetY && !w.isDragging
  {
    var press := [MouseButton(MouseButtonLeft, Press, x, y)];
    var release := [MouseButton(MouseButtonLeft, Release, x, y)];
    var p := Step(v, press[0]);
    assert Run(v, press) == Run(p, []) == p;
    RunAppend(v, press, moves);
    var q := Run(p, moves);
    if moves == [] {
      assert q == p;
    } else {
      MovesTelescope(p, moves);
      assert q == Step(p, CursorPos(x, y));
    }
    assert q.zoom == v.zoom && q.offsetX == v.offsetX && q.offsetY == v.offsetY;
    RunAppend(v, press + moves, release);
    assert Run(q, release) == Run(Step(q, release[0]), []);
  }

  /**
    Why `DragRoundTrip` admits only cursor moves: from the start-up view,
    press at (0, 0), move to (10, 0), scroll up, move back to (0, 0) and
    release. The first move pans by 10/200, the return move by 10/220, so the
    horizontal offset does not come back.
  */
  lemma ScrollDuringDragShifts()
    ensures var v := Initial();
      var w := Run(v, [MouseButton(MouseButtonLeft, Press, 0.0, 0.0), CursorPos(10.0, 0.0), Scroll(0.0, 1.0),
                       CursorPos(0.0, 0.0), MouseButton(MouseButtonLeft, Release, 0.0, 0.0)]);
      w.zoom == v.zoom * ZoomGain && w.offsetX == v.offsetX - 10.0 / 200.0 + 10.0 / 220.0 && w.offsetX != v.offsetX
  {
    var press, move, scroll := MouseButton(MouseButtonLeft, Press, 0.0, 0.0), CursorPos(10.0, 0.0), Scroll(0.0, 1.0);
    var back, release := CursorPos(0.0, 0.0), MouseButton(MouseButtonLeft, Release, 0.0, 0.0);
    var v := Initial();
    var v1 := View(200.0, -0.5, 0.0, 1500, true, 0.0, 0.0);
    assert Step(v, press) == v1;
    var v2 := View(200.0, -0.55, 0.0, 1500, true, 10.0, 0.0);
    assert Step(v1, move) == v2;
    var v3 := v2.(zoom := 220.0);
    assert Step(v2, scroll) == v3;
    var v4 := View(220.0, -0.55 + 10.0 / 220.0, 0.0, 1500, true, 0.0, 0.0);
    assert Step(v3, back) == v4;
    var v5 := v4.(isDragging := false);
    assert Step(v4, release) == v5;
    assert Run(v4, [release]) == Run(v5, []);
    assert Run(v3, [back, release]) == Run(v4, [release]);
    assert Run(v2, [scroll, back, release]) == Run(v3, [back, release]);
    assert Run(v1, [move, scroll, back, release]) == Run(v2, [scroll, back, release]);
    assert Run(v, [press, move, scroll, back, release]) == Run(v1, [move, scroll, back, release]);
  }
}
