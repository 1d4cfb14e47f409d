# Interactive Mandelbrot viewer — verified model

The viewer draws the Mandelbrot set in a window. The user zooms with the
scroll wheel and pans by dragging with the left mouse button. A fragment
shader colours every pixel by the escape-time algorithm. This project models
the two pieces of logic in `Fractal/Fractal.cpp` and proves properties of
them. Floating-point numbers are modelled as Dafny `real`.

- `navigation.dfy`, module `Navigation`: the process-wide view state. It
  holds `zoom`, `offsetX`, `offsetY` and `maxIterations`, plus the drag
  session (`isDragging`, `lastMouseX`, `lastMouseY`). The class `Viewer` has
  these fields and one method per input callback. The datatype `View` and
  the functions `Step` (one event) and `Run` (a sequence of events) are the
  value-level specification. Each callback method is proved to perform
  `Step`, and the lemmas about sequences of events are stated over `Run`.
- `escape_time.dfy`, module `EscapeTime`: the body of the fragment shader.
  `FragmentMain` is the shader's `while` loop over `z` and `iteration`. It
  is proved against two reference definitions: `Orbit` (z_n of the orbit of
  0) and the recursive `CountFrom`/`EscapeCount`. The pixel-to-plane map is
  `MapPixel` and the colour map is `ColorOf`.
- `frame.dfy`, module `Frame`: the render loop passes the 800×800 window
  size and the view state to the shader as uniforms. This module ties the
  two parts together. It proves that dragging keeps the plane point under
  the cursor fixed. It also proves that the fragments at the centre of the
  start-up view are interior points and are coloured (1, 1, 0.5, 1).

The code always runs at least one iteration, because z starts at 0 and
dot(0, 0) = 0 < 4. So a point with |c| ≥ 2 escapes with `iteration == 1`,
not 0, and its colour is t = 1/maxIterations, never pure black
(`OutsideEscapesAfterOne`), although escape-time colouring is often
described as giving such points n = 0 and black.

## Model

| member | source | states |
|---|---|---|
| `Navigation.Initial` | Fractal/Fractal.cpp:10-17 | The start-up state (zoom 200, offset (-0.5, 0), bound 1500, not dragging) satisfies the view invariant: zoom > 0 and maxIterations >= 1 |
| `Navigation.Step` | Fractal/Fractal.cpp:19-50 | Every input event keeps zoom positive and leaves the iteration bound unchanged |
| `Navigation.Run` | Fractal/Fractal.cpp:19-50 | Any sequence of input events keeps the view invariant and the iteration bound |
| `Navigation.Viewer.constructor` | Fractal/Fractal.cpp:10-17 | The globals start at their initial values, with the last cursor position zero-initialised, and satisfy the invariant |
| `Navigation.Viewer.ScrollCallback` | Fractal/Fractal.cpp:19-26 | A positive vertical scroll multiplies zoom by 1.1, a negative one divides it by 1.1, and zero or a horizontal-only scroll leaves it unchanged. zoom > 0 is kept and no other field changes |
| `Navigation.Viewer.MouseButtonCallback` | Fractal/Fractal.cpp:28-38 | A left press starts dragging and records the cursor. A left release stops dragging. Any other button or action changes nothing. Zoom, offsets and the bound are never touched |
| `Navigation.Viewer.CursorPositionCallback` | Fractal/Fractal.cpp:40-50 | When not dragging, nothing changes. When dragging, offsetX decreases by dx/zoom, offsetY increases by dy/zoom, and the last position becomes the cursor. Zoom and the drag flag are unchanged |
| `Navigation.ScrollsCompound` | Fractal/Fractal.cpp:19-26 | After any sequence of scrolls, zoom equals the start zoom times 1.1^(ups − downs), whatever the order. Only zoom changes |
| `Navigation.ScrollUpsZoomIn` | Fractal/Fractal.cpp:20-22 | k scroll-ups give zoom · 1.1^k and change nothing else |
| `Navigation.ScrollDownsZoomOut` | Fractal/Fractal.cpp:23-25 | k scroll-downs give zoom / 1.1^k and change nothing else |
| `Navigation.ScrollUpThenDown` | Fractal/Fractal.cpp:20-25 | One scroll up followed by one scroll down, in either order, restores the whole state exactly |
| `Navigation.IdleMovesAreIgnored` | Fractal/Fractal.cpp:40-50 | Outside a drag, any sequence of cursor moves leaves the state unchanged |
| `Navigation.MovesTelescope` | Fractal/Fractal.cpp:42-48 | During a drag, a sequence of cursor moves has the same effect as a single move to the last position |
| `Navigation.TwoMovesCompose` | Fractal/Fractal.cpp:42-48 | Two successive moves during a drag equal one move to the second position |
| `Navigation.DragRoundTrip` | Fractal/Fractal.cpp:28-48 | Press at a point, make any cursor moves (possibly none) ending back at that point, and release: zoom and both offsets are as before, and the drag has ended |
| `Navigation.ScrollDuringDragShifts` | Fractal/Fractal.cpp:19-48 | A scroll between the moves of a drag breaks the round trip: from the start-up view, press (0,0), move (10,0), scroll up, move (0,0), release leaves offsetX shifted by −10/200 + 10/220 ≠ 0 |
| `EscapeTime.MapPixel` | Fractal/Fractal.cpp:74 | The pixel-to-plane map is inverted by fragCoord = resolution/2 + (c − offset)·zoom on both axes |
| `EscapeTime.CountFrom` | Fractal/Fractal.cpp:77-81 | Started at iteration i, the loop stops at the first count ≥ i where the orbit has escaped or the bound is reached. Every orbit point it passes is inside radius 2 |
| `EscapeTime.EscapeCount` | Fractal/Fractal.cpp:75-81 | The final count is 0 when the bound is ≤ 0 and otherwise lies in 1..maxIterations. All earlier orbit points are inside radius 2. Stopping below the bound means the orbit escaped there |
| `EscapeTime.ColorOf` | Fractal/Fractal.cpp:84-85 | t = count/maxIterations lies in [0,1]. The colour is (t, t², t/2, 1). t = 1 exactly at the bound, and t > 0 exactly when at least one iteration ran |
| `EscapeTime.FragmentMain` | Fractal/Fractal.cpp:72-86 | The shader's loop computes the reference colour for the pixel. The colour is never black (0 < t ≤ 1), opaque, and has the shape (t, t², t/2, 1) |
| `EscapeTime.ColorMonotone` | Fractal/Fractal.cpp:84-85 | Each colour channel does not decrease as the iteration count grows |
| `EscapeTime.OriginIsFixed` | Fractal/Fractal.cpp:75-79 | For c = 0 the orbit stays at 0 |
| `EscapeTime.InteriorReachesBound` | Fractal/Fractal.cpp:77-81 | If the orbit stays inside radius 2 up to the bound, the loop runs to the bound |
| `EscapeTime.OriginRunsToBound` | Fractal/Fractal.cpp:75-85 | For c = (0,0) the loop runs to maxIterations and the colour is (1, 1, 0.5, 1) |
| `EscapeTime.OutsideEscapesAfterOne` | Fractal/Fractal.cpp:75-85 | For \|c\|² ≥ 4 the loop stops after exactly one iteration, with t = 1/maxIterations |
| `EscapeTime.TrapIsInvariant` | Fractal/Fractal.cpp:79 | For c within 1/400 of −1/2, one step of z := z² + c maps the box [−0.45, −0.24] × [−0.05, 0.05] into itself |
| `EscapeTime.OrbitTrapped` | Fractal/Fractal.cpp:75-81 | For such c, every orbit point from z_2 on lies in that box |
| `EscapeTime.NearMinusHalfRunsToBound` | Fractal/Fractal.cpp:75-81 | For such c, the loop always runs to maxIterations, so these points are in the set |
| `Frame.ScreenCentreShowsOffset` | Fractal/Fractal.cpp:74 | The centre of the screen maps to the view offset |
| `Frame.DragKeepsPointUnderCursor` | Fractal/Fractal.cpp:40-50 | During a drag, the plane point under the new cursor position is the one that was under the previous position. The opposite signs on the two axes give this |
| `Frame.StartupCentreIsInterior` | Fractal/Fractal.cpp:6-13 | In the start-up view, fragment (400, 400) maps to c = (−0.5, 0). It and the four pixel centres around it are coloured (1, 1, 0.5, 1) |

## Left out

- The program's `main` (Fractal/Fractal.cpp:130-205) is not modelled: window creation, loader setup, callback registration, vertex buffers, the render loop and its uniform uploads are calls into GLFW and OpenGL. Only the uniform wiring is reflected, in `Frame.PixelColor`.
- `compileShader` and `createShaderProgram` (Fractal/Fractal.cpp:90-128) are not modelled: they wrap OpenGL calls and log errors to the console.
- The vertex shader (Fractal/Fractal.cpp:53-59) is not modelled: it passes positions through unchanged.
- Floating point is not modelled. Values are exact reals, so there is no `double`/`float` rounding, no precision loss at deep zoom, and no NaN or infinity. The `(float)zoom` narrowing at Fractal/Fractal.cpp:187 is not modelled either. The exact round trips (`ScrollUpThenDown`, `DragRoundTrip`) hold over reals. In floating point they hold only up to rounding.
- GPU parallelism and the per-frame snapshot of the view state are not modelled. A pixel is evaluated as one sequential function of a snapshot.
- `Navigation.Viewer.MouseButtonCallback`: the cursor position that the callback reads from the window with `glfwGetCursorPos` is an explicit parameter. The window handle and the unused `mods` argument are dropped from all three callbacks.
- `EscapeTime.FragmentMain`: requires `maxIterations >= 1` and `zoom > 0`. The view invariant guarantees both. With a bound of 0 the shader computes 0/0 (NaN in GLSL), which reals cannot express. A negative bound is excluded too (the loop would not run and t = 0, black); it is never uploaded, because the bound starts at 1500 and nothing changes it (Fractal/Fractal.cpp:13,188).
- The button and action codes (`MouseButtonLeft` = 0, `Release` = 0, `Press` = 1) are the values of GLFW's header, which is not part of this model.
