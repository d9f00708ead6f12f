/** The "Raster Doer" program (src/main.cpp) without its rendering: the
    integer helpers, the raster loop's cut-off and triangle counter, and the
    per-frame editing state (click mode, quad-corner selection, the lines and
    reference points the user places, the preview line, undo and grid-number
    cycling). Main's locals and the file's globals live in one Editor object.
    Floats are reals. */
module RasterDoer {
  import opened CLib
  import opened Controls

  datatype Point = Point(x: real, y: real)

  datatype Line = Line(start: Point, end: Point)

  /** struct Raster: only its texture selector. */
  datatype Raster = Raster(texId: int)

  /** enum ClickMode: CM_NONE, CM_LINE_START, CM_LINE_END, CM_REFERENCEPOINT. */
  datatype ClickMode = Idle | LineStart | LineEnd | ReferencePoint

  /** randIntRange: a rand() value folded into [mn, mx), the end excluded;
      C's `%` makes the fold well defined whenever mx differs from mn. */
  function RandIntRange(r: int, mn: int, mx: int): (v: int)
    requires IsDraw(r) && mn != mx
    ensures mn < mx ==> mn <= v < mx
    ensures mn < mx ==> (r - (v - mn)) % (mx - mn) == 0
  {
    assert mn < mx ==> IntAbs(mx - mn) == mx - mn;
    CRem(r, mx - mn) + mn
  }

  /** Every value of [mn, mx) is produced by some draw when the range is no
      wider than rand()'s. */
  lemma RandIntRangeCovers(v: int, mn: int, mx: int)
    requires mn <= v < mx && mx - mn <= RAND_MAX + 1
    ensures IsDraw(v - mn) && RandIntRange(v - mn, mn, mx) == v
  {
    CRemNonNegative(v - mn, mx - mn);
    DivModUnique(v - mn, mx - mn, 0, v - mn);
  }

  /** The texture unit renderRasters binds for a raster: the selector folded
      by C's `%` over the texture count, past units 0 and 1. A non-negative
      selector lands in [2, n + 2); a negative one in (2 - n, 2]. */
  function TextureSlot(texId: int, n: int): (slot: int)
    requires n > 0
    ensures texId >= 0 ==> 2 <= slot < n + 2
    ensures texId < 0 ==> 2 - n < slot <= 2
    ensures (texId - (slot - 2)) % n == 0
  {
    assert IntAbs(n) == n;
    CRem(texId, n) + 2
  }

  /** Whether renderRasters draws the raster at index k: every raster when
      endI is -1, otherwise those up to and including endI. */
  predicate Drawn(k: int, endI: int) {
    endI == -1 || k <= endI
  }

  /** How many rasters renderRasters draws out of n: exactly a prefix, and
      it is the prefix of those Drawn. */
  function DrawnCount(n: nat, endI: int): (c: nat)
    ensures c <= n
    ensures forall k :: 0 <= k < n ==> (Drawn(k, endI) <==> k < c)
  {
    if endI == -1 then n
    else if endI < 0 then 0
    else if endI + 1 < n then endI + 1
    else n
  }

  /** The sequential step of grid-number cycling, (g + 1) % n with C's `%`. */
  function NextGridNumber(g: int, n: int): (next: int)
    requires n != 0
    ensures g >= -1 ==> 0 <= next < IntAbs(n)
    ensures 0 <= g && g + 1 < n ==> next == g + 1
    ensures 0 <= g && g + 1 == n ==> next == 0
  {
    CRem(g + 1, n)
  }

  /** The grid number after k sequential cycling steps from g. */
  function CycleGrid(g: int, n: int, k: nat): int
    requires n != 0
  {
    if k == 0 then g else NextGridNumber(CycleGrid(g, n, k - 1), n)
  }

  /** Sequential cycling from a valid cell advances it by k modulo the cell
      count, */
  lemma {:induction false} CycleGridAdvances(g: int, n: int, k: nat)
    requires 0 <= g < n
    ensures CycleGrid(g, n, k) == (g + k) % n
  {
    if k > 0 {
      CycleGridAdvances(g, n, k - 1);
      var prev := (g + k - 1) % n;
      assert CycleGrid(g, n, k) == NextGridNumber(prev, n) == CRem(prev + 1, n);
      CRemNonNegative(prev + 1, n);
      assert CRem(prev + 1, n) == (prev + 1) % n;
      ModSucc(g + k - 1, n);
      assert (prev + 1) % n == (g + k) % n;
    }
  }

  lemma ModSucc(a: int, n: int)
    requires a >= 0 && n > 0
    ensures (a % n + 1) % n == (a + 1) % n
  {
    var q, r := a / n, a % n;
    assert a == q * n + r;
    if r + 1 < n {
      DivModUnique(r + 1, n, 0, r + 1);
      DivModUnique(a + 1, n, q, r + 1);
    } else {
      assert (q + 1) * n == q * n + n;
      DivModUnique(r + 1, n, 1, 0);
      DivModUnique(a + 1, n, q + 1, 0);
    }
  }

  /** ... so it visits every cell once and is back where it started after
      exactly n steps. */
  lemma CycleGridReturns(g: int, n: int)
    requires 0 <= g < n
    ensures CycleGrid(g, n, n) == g
    ensures forall k: nat :: 0 < k < n ==> CycleGrid(g, n, k) != g
  {
    CycleGridAdvances(g, n, n);
    assert (g + n) % n == g by { DivModUnique(g + n, n, 1, g); }
    forall k: nat | 0 < k < n
      ensures CycleGrid(g, n, k) != g
    {
      CycleGridAdvances(g, n, k);
      if g + k < n {
        DivModUnique(g + k, n, 0, g + k);
      } else {
        DivModUnique(g + k, n, 1, g + k - n);
      }
    }
  }

  /** The corner-picking test of a click: the corner lies within 30 screen
      pixels of the mouse, the vertical distance rescaled by the frame's
      aspect. With a zero frame width src/main.cpp divides by zero and every
      IEEE comparison that follows is false, so no corner is in range. */
  predicate WithinPickRadius(corner: Point, mouse: Point, frameWidth: int, frameHeight: int, viewWidth: real) {
    && frameWidth != 0
    && Square(corner.x - mouse.x) + Square((corner.y - mouse.y) * frameHeight as real / frameWidth as real)
       < Square(viewWidth * (30.0 / frameWidth as real))
  }

  function Square(v: real): real { v * v }

  /** The lowest index at or after `from` whose corner is in range, or -1. */
  function FirstWithin(quad: seq<Point>, from: nat, mouse: Point, frameWidth: int, frameHeight: int, viewWidth: real): (k: int)
    requires from <= |quad|
    ensures -1 <= k < |quad|
    ensures k == -1 <==> forall j :: from <= j < |quad| ==> !WithinPickRadius(quad[j], mouse, frameWidth, frameHeight, viewWidth)
    ensures k != -1 ==> from <= k && WithinPickRadius(quad[k], mouse, frameWidth, frameHeight, viewWidth)
    ensures k != -1 ==> forall j :: from <= j < k ==> !WithinPickRadius(quad[j], mouse, frameWidth, frameHeight, viewWidth)
    decreases |quad| - from
  {
    if from == |quad| then -1
    else if WithinPickRadius(quad[from], mouse, frameWidth, frameHeight, viewWidth) then from
    else FirstWithin(quad, from + 1, mouse, frameWidth, frameHeight, viewWidth)
  }

  /** The state renderRasters and main's loop work on. */
  class Editor {
    var lines: seq<Line>
    var referencePoints: seq<Point>
    var selectedQuadPoint: int
    var clickMode: ClickMode
    var lineStartPoint: Point
    /** The global quad whose corners the user drags. */
    const transformQuad: array<Point>
    var rasters: seq<Raster>
    /** Triangles drawn this frame. */
    var tris: int
    var gridX: int
    var gridY: int
    var gridNumber: int
    const controls: ControlState

    ghost predicate Valid()
      reads this
    {
      transformQuad.Length == 4 && -1 <= selectedQuadPoint < 4
    }

    /** Start-up: the unit quad, a 3 x 3 grid, one raster, nothing placed.
        The raster's texId is left uninitialised by its constructor, so it is
        a parameter here. */
    constructor (controls: ControlState, texId: int)
      ensures Valid() && fresh(transformQuad)
      ensures transformQuad[..] == [Point(0.0, 0.0), Point(0.0, 1.0), Point(1.0, 1.0), Point(1.0, 0.0)]
      ensures lines == [] && referencePoints == [] && selectedQuadPoint == -1
      ensures clickMode == Idle && lineStartPoint == Point(0.0, 0.0)
      ensures rasters == [Raster(texId)] && tris == 0
      ensures gridX == 3 && gridY == 3 && gridNumber == 0
      ensures this.controls == controls
    {
      transformQuad := new Point[4] [Point(0.0, 0.0), Point(0.0, 1.0), Point(1.0, 1.0), Point(1.0, 0.0)];
      gridX, gridY, gridNumber := 3, 3, 0;
      rasters := [Raster(texId)];
      tris := 0;
      lines, referencePoints := [], [];
      selectedQuadPoint := -1;
      clickMode := Idle;
      lineStartPoint := Point(0.0, 0.0);
      this.controls := controls;
    }

    /** renderRasters: walks the rasters in order, stops at the first index
        past endI (unless endI is -1), binds each drawn raster's texture unit
        and counts two triangles per drawn raster. Returns the units bound. */
    method RenderRasters(howManyRasterTextures: int, endI: int) returns (slots: seq<int>)
      requires howManyRasterTextures > 0
      modifies this`tris
      ensures |slots| == DrawnCount(|rasters|, endI)
      ensures forall k :: 0 <= k < |slots| ==> slots[k] == TextureSlot(rasters[k].texId, howManyRasterTextures)
      ensures tris == old(tris) + 2 * |slots|
    {
      slots := [];
      var i := 0;
      while i < |rasters|
        invariant 0 <= i <= |rasters| && i <= DrawnCount(|rasters|, endI)
        invariant |slots| == i
        invariant forall k :: 0 <= k < i ==> slots[k] == TextureSlot(rasters[k].texId, howManyRasterTextures)
        invariant tris == old(tris) + 2 * i
      {
        if i > endI && endI != -1 {
          break;
        }
        slots := slots + [TextureSlot(rasters[i].texId, howManyRasterTextures)];
        i := i + 1;
        tris := tris + 2;
      }
    }

    /** The frame's raster pass: the counter is reset, then every raster is
        drawn (endI = -1). */
    method RenderFrameRasters(howManyRasterTextures: int) returns (slots: seq<int>)
      requires howManyRasterTextures > 0
      modifies this`tris
      ensures |slots| == |rasters| && tris == 2 * |rasters|
      ensures forall k :: 0 <= k < |slots| ==> slots[k] == TextureSlot(rasters[k].texId, howManyRasterTextures)
    {
      tris := 0;
      slots := RenderRasters(howManyRasterTextures, -1);
    }

    /** Undo on Z: the flag is cleared and the last line popped. The program
        pops without checking, which is undefined on an empty vector. */
    method Undo()
      requires controls.z ==> |lines| > 0
      modifies this`lines, controls`z
      ensures !controls.z
      ensures lines == if old(controls.z) then old(lines)[..|old(lines)| - 1] else old(lines)
    {
      if controls.z {
        controls.z := false;
        lines := lines[..|lines| - 1];
      }
    }

    /** The loop over the quad's corners that a click in CM_NONE runs: the
        first corner in range, or -1. */
    method FirstCornerWithin(mouse: Point, frameWidth: int, frameHeight: int, viewWidth: real) returns (k: int)
      requires Valid()
      ensures k == FirstWithin(transformQuad[..], 0, mouse, frameWidth, frameHeight, viewWidth)
    {
      k := -1;
      var i := 0;
      while i < 4
        invariant 0 <= i <= 4
        invariant FirstWithin(transformQuad[..], 0, mouse, frameWidth, frameHeight, viewWidth)
               == FirstWithin(transformQuad[..], i, mouse, frameWidth, frameHeight, viewWidth)
      {
        if WithinPickRadius(transformQuad[i], mouse, frameWidth, frameHeight, viewWidth) {
          k := i;
          break;
        }
        i := i + 1;
      }
    }

    /** The click and release handling of one frame. A click in CM_NONE with
        nothing selected selects the first corner in range; in CM_LINE_START
        it records the start point and moves to CM_LINE_END; in CM_LINE_END
        it appends one line from the recorded start to the mouse and returns
        to CM_NONE; in CM_REFERENCEPOINT it appends one point and returns to
        CM_NONE. A release drops the selection. Both flags are then cleared. */
    method HandleClicks(mouse: Point, transMouse: Point, frameWidth: int, frameHeight: int, viewWidth: real)
      requires Valid()
      modifies this`selectedQuadPoint, this`clickMode, this`lineStartPoint, this`lines, this`referencePoints
      modifies controls`didMouseClick, controls`didMouseUnclick
      ensures Valid()
      ensures !controls.didMouseClick && !controls.didMouseUnclick
      ensures var clicked, mode := old(controls.didMouseClick), old(clickMode);
              && clickMode == (if clicked then NextClickMode(mode) else mode)
              && lineStartPoint == (if clicked && mode == LineStart then transMouse else old(lineStartPoint))
              && lines == (if clicked && mode == LineEnd then old(lines) + [Line(old(lineStartPoint), transMouse)] else old(lines))
              && referencePoints == (if clicked && mode == ReferencePoint then old(referencePoints) + [transMouse] else old(referencePoints))
      ensures selectedQuadPoint ==
                if old(controls.didMouseUnclick) then -1
                else if old(controls.didMouseClick) && old(clickMode) == Idle && old(selectedQuadPoint) == -1
                then FirstWithin(transformQuad[..], 0, mouse, frameWidth, frameHeight, viewWidth)
                else old(selectedQuadPoint)
    {
      if controls.didMouseClick {
        match clickMode
        case Idle =>
          if selectedQuadPoint == -1 {
            selectedQuadPoint := FirstCornerWithin(mouse, frameWidth, frameHeight, viewWidth);
          }
        case LineStart =>
          lineStartPoint := transMouse;
          clickMode := LineEnd;
        case LineEnd =>
          lines := lines + [Line(lineStartPoint, transMouse)];
          clickMode := Idle;
        case ReferencePoint =>
          referencePoints := referencePoints + [transMouse];
          clickMode := Idle;
      }
      if controls.didMouseUnclick {
        selectedQuadPoint := -1;
      }
      controls.didMouseClick := false;
      controls.didMouseUnclick := false;
    }

    /** A selected corner follows the mouse. */
    method DragSelectedCorner(mouse: Point)
      requires Valid()
      modifies transformQuad
      ensures transformQuad[..] ==
                if selectedQuadPoint == -1 then old(transformQuad[..])
                else old(transformQuad[..])[selectedQuadPoint := mouse]
    {
      if selectedQuadPoint != -1 {
        transformQuad[selectedQuadPoint] := mouse;
      }
    }

    /** The overlay pass: in CM_LINE_END a preview line to the mouse is pushed,
        every line is handed to the line renderer in order, and the preview
        is popped again, so `lines` is what it was before. */
    method DrawLines(transMouse: Point) returns (drawn: seq<Line>)
      modifies this`lines
      ensures lines == old(lines)
      ensures drawn == lines + (if clickMode == LineEnd then [Line(lineStartPoint, transMouse)] else [])
    {
      if clickMode == LineEnd {
        lines := lines + [Line(lineStartPoint, transMouse)];
      }
      drawn := [];
      var i := 0;
      while i < |lines|
        invariant 0 <= i <= |lines| && drawn == lines[..i]
      {
        drawn := drawn + [lines[i]];
        i := i + 1;
      }
      if clickMode == LineEnd {
        lines := lines[..|lines| - 1];
      }
    }

    /** The "Add line" button. */
    method PressAddLine()
      modifies this`clickMode
      ensures clickMode == LineStart
    {
      clickMode := LineStart;
    }

    /** The "Add point" button. */
    method PressAddPoint()
      modifies this`clickMode
      ensures clickMode == ReferencePoint
    {
      clickMode := ReferencePoint;
    }

    /** The input handling at the top of a pass of main's loop, in program
        order: undo, clicks and releases, and dragging the selected corner. */
    method HandleInput(input: FrameInput)
      requires Valid()
      requires controls.z ==> |lines| > 0
      modifies this`selectedQuadPoint, this`clickMode, this`lineStartPoint, this`lines, this`referencePoints
      modifies transformQuad, controls`z, controls`didMouseClick, controls`didMouseUnclick
      ensures Valid() && !controls.z && !controls.didMouseClick && !controls.didMouseUnclick
      ensures var undone := if old(controls.z) then old(lines)[..|old(lines)| - 1] else old(lines);
              var clicked, mode := old(controls.didMouseClick), old(clickMode);
              && clickMode == (if clicked then NextClickMode(mode) else mode)
              && lines == (if clicked && mode == LineEnd then undone + [Line(old(lineStartPoint), input.transMouse)] else undone)
              && referencePoints == (if clicked && mode == ReferencePoint then old(referencePoints) + [input.transMouse] else old(referencePoints))
              && lineStartPoint == (if clicked && mode == LineStart then input.transMouse else old(lineStartPoint))
      ensures selectedQuadPoint ==
                if old(controls.didMouseUnclick) then -1
                else if old(controls.didMouseClick) && old(clickMode) == Idle && old(selectedQuadPoint) == -1
                then FirstWithin(old(transformQuad[..]), 0, input.mouse, input.frameWidth, input.frameHeight, input.viewWidth)
                else old(selectedQuadPoint)
      ensures transformQuad[..] ==
                if selectedQuadPoint == -1 then old(transformQuad[..])
                else old(transformQuad[..])[selectedQuadPoint := input.mouse]
    {
      Undo();
      HandleClicks(input.mouse, input.transMouse, input.frameWidth, input.frameHeight, input.viewWidth);
      DragSelectedCorner(input.mouse);
    }

    /** The editing part of one pass of main's loop, in program order: the
        input handling, the raster pass, the overlay with its preview line,
        the two buttons and grid cycling. */
    method RunFrame(input: FrameInput, howManyRasterTextures: int) returns (drawn: seq<Line>)
      requires Valid() && howManyRasterTextures > 0
      requires controls.z ==> |lines| > 0
      requires IsDraw(input.draw) && (input.cycle ==> gridX * gridY != 0)
      modifies this`selectedQuadPoint, this`clickMode, this`lineStartPoint, this`lines, this`referencePoints
      modifies this`tris, this`gridNumber, transformQuad
      modifies controls`z, controls`didMouseClick, controls`didMouseUnclick
      ensures Valid() && !controls.z && !controls.didMouseClick && !controls.didMouseUnclick
      ensures tris == 2 * |rasters|
      ensures var undone := if old(controls.z) then old(lines)[..|old(lines)| - 1] else old(lines);
              var clicked, mode := old(controls.didMouseClick), old(clickMode);
              && lines == (if clicked && mode == LineEnd then undone + [Line(old(lineStartPoint), input.transMouse)] else undone)
              && referencePoints == (if clicked && mode == ReferencePoint then old(referencePoints) + [input.transMouse] else old(referencePoints))
              && lineStartPoint == (if clicked && mode == LineStart then input.transMouse else old(lineStartPoint))
      ensures var clicked, mode := old(controls.didMouseClick), old(clickMode);
              var afterClick := if clicked then NextClickMode(mode) else mode;
              && drawn == lines + (if afterClick == LineEnd then [Line(lineStartPoint, input.transMouse)] else [])
              && clickMode == (if input.addPoint then ReferencePoint else if input.addLine then LineStart else afterClick)
      ensures selectedQuadPoint ==
                if old(controls.didMouseUnclick) then -1
                else if old(controls.didMouseClick) && old(clickMode) == Idle && old(selectedQuadPoint) == -1
                then FirstWithin(old(transformQuad[..]), 0, input.mouse, input.frameWidth, input.frameHeight, input.viewWidth)
                else old(selectedQuadPoint)
      ensures transformQuad[..] ==
                if selectedQuadPoint == -1 then old(transformQuad[..])
                else old(transformQuad[..])[selectedQuadPoint := input.mouse]
      ensures gridNumber ==
                if !input.cycle then old(gridNumber)
                else if input.random then CRem(input.draw, gridX * gridY)
                else NextGridNumber(old(gridNumber), gridX * gridY)
      ensures input.cycle && (input.random || old(gridNumber) >= -1) ==> 0 <= gridNumber < IntAbs(gridX * gridY)
    {
      HandleInput(input);
      var slots := RenderFrameRasters(howManyRasterTextures);
      drawn := DrawLines(input.transMouse);
      if input.addLine {
        PressAddLine();
      }
      if input.addPoint {
        PressAddPoint();
      }
      CycleGridNumber(input.cycle, input.random, input.draw);
    }

    /** "Cycle through": each frame the grid number moves on, to a random cell
        when "Rand" is ticked and to the next one otherwise. */
    method CycleGridNumber(cycle: bool, random: bool, r: int)
      requires IsDraw(r) && (cycle ==> gridX * gridY != 0)
      modifies this`gridNumber
      ensures gridNumber ==
                if !cycle then old(gridNumber)
                else if random then CRem(r, gridX * gridY)
                else NextGridNumber(old(gridNumber), gridX * gridY)
      ensures cycle && (random || old(gridNumber) >= -1) ==> 0 <= gridNumber < IntAbs(gridX * gridY)
    {
      if cycle {
        gridNumber := if random then CRem(r, gridX * gridY) else CRem(gridNumber + 1, gridX * gridY);
      }
    }
  }

  /** What one pass of main's loop reads besides the editor: the mouse in
      view coordinates and after the lens transform, the frame size, the
      view's width, the buttons pressed, the cycling check boxes and the
      frame's rand() draw. */
  datatype FrameInput = FrameInput(
    mouse: Point, transMouse: Point, frameWidth: int, frameHeight: int, viewWidth: real,
    addLine: bool, addPoint: bool, cycle: bool, random: bool, draw: int)

  /** The mode a click leads to. */
  function NextClickMode(mode: ClickMode): ClickMode {
    match mode
    case Idle => Idle
    case LineStart => LineEnd
    case LineEnd => Idle
    case ReferencePoint => Idle
  }

  /** Whatever the mode, at most two clicks bring the editor back to CM_NONE,
      and only CM_LINE_START needs two. */
  lemma ClicksReturnToIdle(mode: ClickMode)
    ensures NextClickMode(NextClickMode(mode)) == Idle
    ensures NextClickMode(mode) == Idle <==> mode != LineStart
  {
  }
}
