/**
  What the render loop connects: each frame it hands the window size, the
  view's offsets, zoom and iteration bound to the fragment shader as
  uniforms, so the colour of a pixel is a function of the navigation state.
*/
module Frame {
  import opened EscapeTime
  import opened Navigation

  /** The window size, uploaded as the shader's resolution. */
  const Width: real := 800.0
  const Height: real := 800.0

  /** The colour of the fragment at fragCoord when the view is v. */
  function PixelColor(v: View, fragCoord: Vec2): Color
    requires v.Valid()
  {
    Shade(fragCoord, Vec2(Width, Height), v.zoom, Vec2(v.offsetX, v.offsetY), v.maxIterations)
  }

  /**
    The plane point under the mouse cursor: cursor coordinates have y growing
    downward from the top of the window, fragment coordinates y growing
    upward from the bottom.
  */
  function PointUnderCursor(v: View, mouseX: real, mouseY: real): Vec2
    requires v.Valid()
  {
    MapPixel(Vec2(mouseX, Height - mouseY), Vec2(Width, Height), v.zoom, Vec2(v.offsetX, v.offsetY))
  }

  /** The centre of the screen always shows the view's offset. */
  lemma ScreenCentreShowsOffset(v: View)
    requires v.Valid()
    ensures MapPixel(Vec2(Width * 0.5, Height * 0.5), Vec2(Width, Height), v.zoom, Vec2(v.offsetX, v.offsetY))
         == Vec2(v.offsetX, v.offsetY)
  {
  }

  /**
    Dragging grabs the plane: after a cursor move during a drag, the plane
    point under the new cursor position is the one that was under the old
    position. This is what the opposite signs on the two axes achieve.
  */
  lemma DragKeepsPointUnderCursor(v: View, x: real, y: real)
    requires v.Valid() && v.isDragging
    ensures PointUnderCursor(Step(v, CursorPos(x, y)), x, y) == PointUnderCursor(v, v.lastMouseX, v.lastMouseY)
  {
  }

  /**
    The fragments around the centre of the start-up view all lie in the
    Mandelbrot set: the corner point (400, 400) maps to c = (-0.5, 0), the
    four pixel centres next to it to c within 1/400 of it, and every such
    fragment runs the loop to the bound and is coloured (1, 1, 0.5, 1).
  */
  lemma StartupCentreIsInterior(fragCoord: Vec2)
    requires 399.5 <= fragCoord.x <= 400.5 && 399.5 <= fragCoord.y <= 400.5
    ensures fragCoord == Vec2(400.0, 400.0) ==>
      MapPixel(fragCoord, Vec2(Width, Height), Initial().zoom, Vec2(Initial().offsetX, Initial().offsetY)) == Vec2(-0.5, 0.0)
    ensures PixelColor(Initial(), fragCoord) == Color(1.0, 1.0, 0.5, 1.0)
  {
    var v := Initial();
    var c := MapPixel(fragCoord, Vec2(Width, Height), v.zoom, Vec2(v.offsetX, v.offsetY));
    assert NearMinusHalf(c);
    NearMinusHalfRunsToBound(c, v.maxIterations);
  }
}
