# Hill-climbing raster experiments, modelled in Dafny

The repository holds two interactive OpenGL programs. This project models the parts of them that are not graphics calls.

- **"Reduction"** (`main.cpp`) approximates a target image with textured sprites. Each frame it jitters a copy of the newest sprite. It takes the union of the sprite's bounding boxes before and after the move as the dirty region. It measures a difference value over that region before and after the move. It puts the old sprite back when the value after is at most the value before, compared as doubles. So a move is kept when the value went strictly up. A move is also kept when the dirty region truncates to zero pixels wide or high: both averages are then 0.0 / 0.0, a NaN, and the comparison is false. An "add" button appends a random sprite.
- **"Raster Doer"** (`src/main.cpp`) draws a mosaic of rasters under a perspective quad. The user drags the quad's corners and places lines and reference points with a small click-mode state machine. The user can undo the last line with Z and cycle the highlighted grid cell.

Modules:

- `CLib` (`clib.dfy`): the range of `rand()` (RAND_MAX of glibc) and C's truncating `%`.
- `Boxes` (`boxes.dfy`): the bounding-box arithmetic of `main.cpp`. A box is a value with min x, max x, min y and max y.
- `Reduction` (`reduction.dfy`): sprites, `randFloat`, the jitter, the seeded and appended sprites, and one optimisation step. The `HillClimber` class holds the sprite vector. The functions `StepOutcome` and `Run` specify a step and a sequence of steps and "add" presses.
- `Controls` (`controls.dfy`): the global `controls` flag struct of `src/main.cpp` and the key and mouse-button callbacks that set its flags.
- `RasterDoer` (`raster_doer.dfy`): `randIntRange`, the texture-unit mapping, the raster loop's cut-off and triangle counter, and grid-number cycling. The `Editor` class gathers `main`'s locals and the file's globals. It has the click handling, corner picking, dragging, undo, the preview line and the buttons.

What is abstract:

- Floats are reals, so there is no rounding.
- A sprite's model matrix (translate, rotate, scale) is a function parameter `Corners` that gives the sprite's four transformed corners.
- The GPU difference measurement (`getAverageDifference` after rendering) is a function parameter `Measure` from a sprite list and the step's frame to a real. It gives the average for a frame with at least one pixel. A frame with no pixels gives NaN, which the model represents as a separate value of `Average`.
- Calls to `rand()` are integer parameters in `[0, RAND_MAX]`.
- Mouse positions, the frame size and the view width are parameters of the click handling.

## Model

| member | source | states |
|---|---|---|
| `CLib.CRem` | src/main.cpp:34-36 | C's `a % b`: differs from `a` by a multiple of `b`, is smaller than `b` in magnitude, and has the sign of `a` |
| `CLib.CRemNonNegative` | src/main.cpp:35 | for a non-negative dividend and a positive divisor, C's `%` equals the Euclidean remainder |
| `Boxes.BoxOfQuad` | main.cpp:255-259 | the corner min/max box is ordered (min ≤ max on both axes) whatever the corners are, covers all four corners, and each bound is attained by a corner |
| `Boxes.BoxOfQuadIsSmallest` | main.cpp:256-259 | every box covering the four corners contains the corner box |
| `Boxes.Union` | main.cpp:262-269 | the dirty region contains both boxes; each bound is the matching bound of one of the two inputs |
| `Boxes.UnionIsSmallest` | main.cpp:264-267 | any box containing both inputs contains their union |
| `Boxes.UnionOrdered` | main.cpp:264-267 | the union of boxes, one of them ordered, is ordered |
| `Boxes.UnionCommutative` | main.cpp:264-267 | union(a, b) = union(b, a) |
| `Boxes.UnionIdempotent` | main.cpp:264-267 | union(a, a) = a |
| `Boxes.UnionAssociative` | main.cpp:264-267 | the union can fold boxes in any grouping |
| `Boxes.ScreenBox` | main.cpp:405-409 | dividing by 640 and 480 is undone by multiplying back, and the screen box is ordered exactly when the pixel box is |
| `Boxes.ScreenBoxMonotone` | main.cpp:405-409 | containment between boxes survives the division to screen units |
| `Boxes.Area` | main.cpp:277-279 | the area is never negative and, for an ordered box, is width times height |
| `Boxes.AreaMonotone` | main.cpp:277-279 | a box has no more area than any box containing it |
| `Boxes.UnionAreaAtLeast` | main.cpp:262-279 | the dirty region has at least the area of each box it joins |
| `Boxes.Truncate` | main.cpp:415-416 | the float-to-int cast truncates toward zero: the magnitude drops by less than one and the sign is kept |
| `Boxes.PixelWidth` | main.cpp:415 | for an ordered box, `w` is non-negative and is the floor of the box's width |
| `Boxes.PixelHeight` | main.cpp:416 | for an ordered box, `h` is non-negative and is the floor of the box's height |
| `Reduction.RandFloat` | main.cpp:23-25 | `randFloat` lies in [0, 1], is 0 and 1 exactly for the extreme draws, and scales back to the draw |
| `Reduction.RandFloatMonotone` | main.cpp:23-25 | larger draws give larger floats |
| `Reduction.Jitter` | main.cpp:271-275 | each field's change `randFloat() * 0.2 - 0.1` lies in [-0.1, 0.1], with the ends reached by the extreme draws |
| `Reduction.Jittered` | main.cpp:270-276 | x, y, width, height and rot each move by at most 0.1 |
| `Reduction.RandomlyTransformSprite` | main.cpp:270-276 | the five in-order field updates produce exactly the jittered sprite |
| `Reduction.RandomSprite` | main.cpp:385 | a seeded sprite has its centre inside 640 x 480, width and height in [0, 100] and rotation in [0, 2 · 3.14159] |
| `Reduction.SpriteBox` | main.cpp:243-261 | a sprite's box is ordered whatever its corners are |
| `Reduction.MoveFrame` | main.cpp:402-416 | the dirty region contains the boxes of the sprite before and after the move; it and its screen version are ordered; its pixel size is non-negative |
| `Reduction.AverageDifference` | main.cpp:281-302 | the average is NaN exactly when the pixel width or height is 0, so the buffer is empty and the sum 0.0 is divided by 0.0; otherwise it is the measured average |
| `Reduction.StepOutcome` | main.cpp:399-489 | a step keeps the length and every sprite but the last; the last becomes either its old value or the jittered candidate. The move is reverted exactly when `AtMost`, the IEEE `<=` that is false for a NaN, holds of the two averages |
| `Reduction.StepNeverLowersMeasure` | main.cpp:486-489 | in a step whose frame has pixels: the kept list measures no lower than the list before the step, a changed list measures strictly higher, and an after-value ≤ the before-value (ties included) reverts. In a step whose frame has zero width or height the move is always kept |
| `Reduction.Apply` | main.cpp:399-548 | neither a step nor an "add" ever leaves the list empty |
| `Reduction.RunLength` | main.cpp:385-548 | over any run of steps and "add" presses (`Run`, the main loop as a sequence of events), the length grows by exactly the number of adds, so the list seeded with one sprite is never empty |
| `Reduction.RunFreezesEarlier` | main.cpp:399-489 | over any run (`Run`), every sprite that already has a successor keeps its value and position; only the newest sprite is optimised |
| `Reduction.HillClimber.constructor` | main.cpp:379-385 | the vector starts as exactly one random sprite |
| `Reduction.HillClimber.Add` | main.cpp:546-548 | "add" appends exactly one random sprite at the end and keeps the others in order |
| `Reduction.HillClimber.Step` | main.cpp:398-489 | the before and after values are the averages (possibly NaN) of the old list and of the list with the candidate as last sprite, in the dirty frame; the new list is the old one when after ≤ before as doubles, else the old one with the candidate last |
| `Controls.ControlState.constructor` | src/main.cpp:285-288 | the zero-initialised global struct has every flag down |
| `Controls.ControlState.KeyCallback` | src/main.cpp:289-316 | a press raises exactly its key's flag; a release lowers it, except Z, which a release never lowers; escape requests closing; repeats and other keys change nothing; the mouse flags are untouched |
| `Controls.ControlState.MouseButtonCallback` | src/main.cpp:328-338 | unless the UI captures input, a left press raises the click flag and a left release the unclick flag; nothing else changes |
| `Controls.PressThenRelease` | src/main.cpp:289-316 | pressing and releasing a key leaves its flag down for every key but Z |
| `RasterDoer.RandIntRange` | src/main.cpp:34-36 | for mn < mx the result lies in [mn, mx) and is congruent to the draw's offset from mn |
| `RasterDoer.RandIntRangeCovers` | src/main.cpp:34-36 | every value of [mn, mx) is produced by some draw when the range is no wider than rand()'s |
| `RasterDoer.TextureSlot` | src/main.cpp:527 | for n > 0, the texture unit `(texId % n) + 2` lies in [2, n + 2) for a non-negative texId and in (2 - n, 2] for a negative one, congruent to texId + 2 |
| `RasterDoer.DrawnCount` | src/main.cpp:519-522 | the rasters drawn are a prefix, and index k is in it exactly when endI is -1 or k ≤ endI |
| `RasterDoer.NextGridNumber` | src/main.cpp:1207 | from a number ≥ -1 the next grid number lies in [0, gridX·gridY); from a cell it is the next cell, wrapping to 0 after the last |
| `RasterDoer.CycleGridAdvances` | src/main.cpp:1207 | k sequential cycling steps from a valid cell advance it by k modulo gridX·gridY |
| `RasterDoer.CycleGridReturns` | src/main.cpp:1207 | sequential cycling returns to the starting cell after exactly gridX·gridY steps and not earlier |
| `RasterDoer.FirstWithin` | src/main.cpp:884-889 | the picked corner is in range with no lower-index corner in range, or -1 exactly when no corner is in range. "In range" is `WithinPickRadius`, the test at line 885, which no corner passes when the frame width is 0 |
| `RasterDoer.ClicksReturnToIdle` | src/main.cpp:880-914 | any click mode reaches CM_NONE within two clicks; only CM_LINE_START needs two |
| `RasterDoer.Editor.constructor` | src/main.cpp:442-457 | start-up state: the unit quad, a 3 x 3 grid at cell 0 and `tris` at 0 (the globals), one raster (line 776), no lines or points, nothing selected and CM_NONE (the locals at lines 788-794) |
| `RasterDoer.Editor.RenderRasters` | src/main.cpp:514-552 | the texture units bound are those of the drawn prefix, in order; `tris` grows by exactly 2 per drawn raster |
| `RasterDoer.Editor.RenderFrameRasters` | src/main.cpp:929-1066 | after the frame's reset of `tris` (line 929), drawing with endI = -1 draws every raster and leaves `tris` at twice their number |
| `RasterDoer.Editor.Undo` | src/main.cpp:875-878 | on Z the last line and only it is removed and the flag cleared; without Z nothing changes |
| `RasterDoer.Editor.FirstCornerWithin` | src/main.cpp:884-889 | the loop with `break` returns the lowest-index corner in range, or -1 |
| `RasterDoer.Editor.HandleClicks` | src/main.cpp:880-919 | each click mode's effect: with the transitions of `NextClickMode` (NONE stays NONE), LINE_START records the start and goes to LINE_END; LINE_END appends one line and goes to NONE; REFERENCEPOINT appends one point and goes to NONE; NONE with nothing selected picks the first corner in range; a release drops the selection; both flags end cleared; the selection stays in {-1, 0, 1, 2, 3}; no other list changes |
| `RasterDoer.Editor.DragSelectedCorner` | src/main.cpp:921-924 | only the selected corner moves, to the mouse; with no selection the quad is unchanged |
| `RasterDoer.Editor.DrawLines` | src/main.cpp:1081-1143 | the lines drawn are the stored lines plus the preview line in LINE_END, and `lines` is the same after the overlay as before it |
| `RasterDoer.Editor.PressAddLine` | src/main.cpp:1155-1157 | "Add line" enters LINE_START |
| `RasterDoer.Editor.PressAddPoint` | src/main.cpp:1158-1160 | "Add point" enters REFERENCEPOINT |
| `RasterDoer.Editor.CycleGridNumber` | src/main.cpp:1207 | cycling moves to `rand() % n` or the next cell, and from any number ≥ -1 it stays in [0, gridX·gridY) |
| `RasterDoer.Editor.HandleInput` | src/main.cpp:875-924 | undo, then the click effects, then the drag: the lines are the old ones less the undone one plus the clicked one; the mode, start point, points and selection are as after the click handling; the quad moves only at the new selection; every flag read is cleared |
| `RasterDoer.Editor.RunFrame` | src/main.cpp:808-1207 | one frame in program order. At most one line is removed by undo and at most one added by a click. The new selection, start point and quad are those of the input handling. The preview line is drawn but not kept. The buttons set the mode last. The grid number is unchanged without cycling and otherwise is the random or next cell, in range. Every flag read is cleared |

## Left out

- OpenGL, GLFW, ImGui and stb work is not modelled: the `Texture`, `Shader`, `FrameBuffer` and shader-location classes, framebuffer resizing, drawing, PNG export, FPS counting and window creation. These are foreign calls.
- `getAverageDifference` and the renders before it read GPU pixels. The model replaces the average over a non-empty buffer with the `Measure` parameter. The empty-buffer case, which gives NaN, is modelled directly.
- `getSpriteModelMat` (trigonometry through glm) is replaced by the `Corners` parameter. The min/max over its corners is modelled.
- Floating-point rounding is not modelled. The jitter constants `0.2f`/`0.1f`, the division by 640/480 and `3.14159f` are exact reals here.
- `Reduction.RandomlyTransformSprite`: the program changes the sprite through a pointer. The pointer always targets a local copy, so the model takes and returns a value and there is no aliasing to capture.
- The perspective and lens geometry of `src/main.cpp` is not modelled: `adj`, `adj321`, `multmm`, `basisToPoints`, `general2DProjection`, `transform2d`, `lensDistortion`, `inverseLensDistortion`, `transformPoint`, `inverseTransformPoint`, `transformPointFromTo`, `Line::intersect`, `getPointInterpolation`, `extendToAABB`, the arrow-key acceleration, the scroll zoom of the view, the "Align" button, and the "<", ">", "v", "^" buttons together with the `gridX`/`gridY` increments they make. All of it is floating-point geometry. The mouse position after the lens transform is taken as a parameter.
- `renderLine` and `renderCircle` are not modelled, and neither are the two triangles each of them adds to `tris`. `RasterDoer.Editor.RunFrame` therefore counts only the raster pass in `tris`.
- The optimiser in `src/main.cpp` at lines 930-1047 is commented out and is not modelled. That covers worst-first selection, error invalidation through `aabbIntersect` and the ignore-difference override. It also uses `Raster` fields the file does not declare.
- The scroll and mouse-position fields of `controls` and their callbacks are not modelled. The main loop's mouse coordinates are parameters of the click handling.
- The ImGui sliders that set `gridX`, `gridY`, `gridNumber` and other tuning values are user input and are not modelled.
- `RasterDoer.Editor.Undo` requires a non-empty `lines` when Z is pending. The program pops without checking, and `pop_back` on an empty vector is undefined behaviour.
- `RasterDoer.RandIntRange`, `RasterDoer.TextureSlot` and `RasterDoer.Editor.CycleGridNumber` use unbounded integers. A 32-bit overflow in `mx - mn` or `gridX * gridY` is undefined behaviour in C++ and is not modelled. Their `%` requires a non-zero divisor, because division by zero is undefined.
- `Raster::texId` is never initialised in `src/main.cpp`. The model takes it as a constructor parameter and proves the texture-unit bounds for every value.
- RAND_MAX is glibc's 2147483647. Other C libraries use other values. Every contract that uses it holds for any positive RAND_MAX.
- `doer.py` (offline NumPy homography code) is not part of this model.
