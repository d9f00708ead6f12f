/** The hill climber of the "Reduction" program (main.cpp): a growing list of
    sprites whose last element is jittered once per frame and kept or reverted
    according to a difference measurement taken before and after the move.
    The sprite's four corners and the measurement are GPU work in main.cpp;
    here they are function parameters (Corners and Measure). */
module Reduction {
  import opened Boxes
  import opened CLib

  predicate AreDraws(draws: seq<int>, n: nat) {
    |draws| == n && forall i :: 0 <= i < n ==> IsDraw(draws[i])
  }

  /** randFloat: a rand() value scaled into [0, 1]; 0 and 1 are reached
      exactly by the extreme draws, and scaling back gives the draw. */
  function RandFloat(r: int): (u: real)
    requires IsDraw(r)
    ensures 0.0 <= u <= 1.0
    ensures u == 0.0 <==> r == 0
    ensures u == 1.0 <==> r == RAND_MAX
    ensures u * RAND_MAX as real == r as real
  {
    r as real / RAND_MAX as real
  }

  lemma RandFloatMonotone(r1: int, r2: int)
    requires IsDraw(r1) && IsDraw(r2) && r1 <= r2
    ensures RandFloat(r1) <= RandFloat(r2)
  {
  }

  /** struct Sprite: centre, size and rotation. */
  datatype Sprite = Sprite(x: real, y: real, width: real, height: real, rot: real)

  /** The abstracted model matrix: a sprite's four transformed corners. */
  type Corners = Sprite -> Quad

  /** What the renderer needs to measure one move: the dirty region in
      pixels (for the projection), the same region in screen units (for the
      difference shader) and the truncated pixel size of the buffers. */
  datatype Frame = Frame(region: Aabb, screen: Aabb, w: int, h: int)

  /** The abstracted per-pixel average of getAverageDifference after
      rendering the given sprites into the given frame, for a frame with at
      least one pixel. */
  type Measure = (seq<Sprite>, Frame) -> real

  /** The double getAverageDifference returns: a number, or NaN. */
  datatype Average = Value(v: real) | NaN

  /** The number of bytes getAverageDifference reads back: three per pixel. */
  function BufferSize(frame: Frame): int {
    frame.w * 3 * frame.h
  }

  /** getAverageDifference: the sum over the buffer divided by its size. A
      frame that truncated to no pixels leaves the sum at 0.0 and divides it
      by 0.0, which gives NaN; any other frame gives the measured average. */
  function AverageDifference(sprites: seq<Sprite>, frame: Frame, measure: Measure): (avg: Average)
    requires frame.w >= 0 && frame.h >= 0
    ensures avg.NaN? <==> frame.w == 0 || frame.h == 0
    ensures avg.Value? ==> avg.v == measure(sprites, frame)
  {
    assert frame.w > 0 && frame.h > 0 ==> BufferSize(frame) > 0 by {
      if frame.w > 0 && frame.h > 0 {
        MulPositive(frame.w * 3, frame.h);
      }
    }
    if BufferSize(frame) == 0 then NaN else Value(measure(sprites, frame))
  }

  lemma MulPositive(a: int, b: int)
    requires a > 0 && b > 0
    ensures a * b > 0
  {
  }

  /** The IEEE 754 `<=` on doubles: false whenever either side is NaN. */
  predicate AtMost(after: Average, before: Average) {
    after.Value? && before.Value? && after.v <= before.v
  }

  /** The per-field change randFloat() * 0.2 - 0.1: never more than 0.1 either
      way, the two extremes reached by the extreme draws. */
  function Jitter(r: int): (d: real)
    requires IsDraw(r)
    ensures -0.1 <= d <= 0.1
    ensures d == -0.1 <==> r == 0
    ensures d == 0.1 <==> r == RAND_MAX
  {
    RandFloat(r) * 0.2 - 0.1
  }

  /** The sprite randomlyTransformSprite makes of s from five draws: every
      field moved by at most 0.1. */
  function Jittered(s: Sprite, draws: seq<int>): (t: Sprite)
    requires AreDraws(draws, 5)
    ensures Abs(t.x - s.x) <= 0.1 && Abs(t.y - s.y) <= 0.1
    ensures Abs(t.width - s.width) <= 0.1 && Abs(t.height - s.height) <= 0.1
    ensures Abs(t.rot - s.rot) <= 0.1
  {
    Sprite(s.x + Jitter(draws[0]), s.y + Jitter(draws[1]), s.width + Jitter(draws[2]),
           s.height + Jitter(draws[3]), s.rot + Jitter(draws[4]))
  }

  /** randomlyTransformSprite: the five fields are bumped in the order
      main.cpp writes them, one draw each. main.cpp updates a local copy
      through a pointer; the copy is modelled as a value. */
  method RandomlyTransformSprite(sprite: Sprite, draws: seq<int>) returns (moved: Sprite)
    requires AreDraws(draws, 5)
    ensures moved == Jittered(sprite, draws)
  {
    moved := sprite;
    moved := moved.(x := moved.x + RandFloat(draws[0]) * 0.2 - 0.1);
    moved := moved.(y := moved.y + RandFloat(draws[1]) * 0.2 - 0.1);
    moved := moved.(width := moved.width + RandFloat(draws[2]) * 0.2 - 0.1);
    moved := moved.(height := moved.height + RandFloat(draws[3]) * 0.2 - 0.1);
    moved := moved.(rot := moved.rot + RandFloat(draws[4]) * 0.2 - 0.1);
  }

  /** The sprite pushed at start-up and by the "add" button: centre inside the
      640 x 480 frame, size up to 100, rotation up to 2 * 3.14159. */
  function RandomSprite(draws: seq<int>): (s: Sprite)
    requires AreDraws(draws, 5)
    ensures 0.0 <= s.x <= 640.0 && 0.0 <= s.y <= 480.0
    ensures 0.0 <= s.width <= 100.0 && 0.0 <= s.height <= 100.0
    ensures 0.0 <= s.rot <= 3.14159 * 2.0
  {
    Sprite(RandFloat(draws[0]) * 640.0, RandFloat(draws[1]) * 480.0, RandFloat(draws[2]) * 100.0,
           RandFloat(draws[3]) * 100.0, RandFloat(draws[4]) * 3.14159 * 2.0)
  }

  /** getSpriteBoundingBox: the corner box of the sprite's transformed quad. */
  function SpriteBox(s: Sprite, corners: Corners): (b: Aabb)
    ensures Ordered(b)
  {
    BoxOfQuad(corners(s))
  }

  /** The frame of a move from `before` to `after`: the union of their boxes,
      divided by the frame size, and its truncated pixel size. */
  function MoveFrame(before: Sprite, after: Sprite, corners: Corners): (f: Frame)
    ensures Ordered(f.region) && Ordered(f.screen) && f.w >= 0 && f.h >= 0
    ensures Contains(f.region, SpriteBox(before, corners)) && Contains(f.region, SpriteBox(after, corners))
  {
    var region := Union(SpriteBox(before, corners), SpriteBox(after, corners));
    UnionOrdered(SpriteBox(before, corners), SpriteBox(after, corners));
    Frame(region, ScreenBox(region), PixelWidth(region), PixelHeight(region))
  }

  function Last(sprites: seq<Sprite>): Sprite
    requires |sprites| > 0
  {
    sprites[|sprites| - 1]
  }

  /** One frame's propose / measure / keep-or-revert on the last sprite. The
      move is reverted when the average after it is at most the average
      before it, compared as doubles: a NaN average keeps the move. */
  function StepOutcome(sprites: seq<Sprite>, draws: seq<int>, corners: Corners, measure: Measure): (r: seq<Sprite>)
    requires |sprites| > 0 && AreDraws(draws, 5)
    ensures |r| == |sprites| && r[..|r| - 1] == sprites[..|sprites| - 1]
    ensures Last(r) == Last(sprites) || Last(r) == Jittered(Last(sprites), draws)
  {
    var n := |sprites|;
    var candidate := Jittered(sprites[n - 1], draws);
    var frame := MoveFrame(sprites[n - 1], candidate, corners);
    var moved := sprites[n - 1 := candidate];
    if AtMost(AverageDifference(moved, frame, measure), AverageDifference(sprites, frame, measure))
    then sprites else moved
  }

  /** In a step whose frame has pixels, the kept population never scores
      lower than the one the step started from, a population that changed
      scores strictly higher, and equal values revert the move. In a step
      whose frame truncated to zero width or height both averages are NaN and
      the move is always kept, whatever the measurement. */
  lemma StepNeverLowersMeasure(sprites: seq<Sprite>, draws: seq<int>, corners: Corners, measure: Measure)
    requires |sprites| > 0 && AreDraws(draws, 5)
    ensures var frame := MoveFrame(Last(sprites), Jittered(Last(sprites), draws), corners);
            var r := StepOutcome(sprites, draws, corners, measure);
            var moved := sprites[|sprites| - 1 := Jittered(Last(sprites), draws)];
            && (frame.w > 0 && frame.h > 0 ==>
                  && measure(r, frame) >= measure(sprites, frame)
                  && (r != sprites ==> measure(r, frame) > measure(sprites, frame))
                  && (measure(moved, frame) <= measure(sprites, frame) ==> r == sprites))
            && (frame.w == 0 || frame.h == 0 ==> r == moved)
  {
  }

  /** Things that can happen to the population between two frames. */
  datatype Event = StepEvent(draws: seq<int>) | AddEvent(draws: seq<int>)

  predicate WellDrawn(events: seq<Event>) {
    forall i :: 0 <= i < |events| ==> AreDraws(events[i].draws, 5)
  }

  function Apply(sprites: seq<Sprite>, e: Event, corners: Corners, measure: Measure): (r: seq<Sprite>)
    requires |sprites| > 0 && AreDraws(e.draws, 5)
    ensures |r| > 0
  {
    match e
    case StepEvent(d) => StepOutcome(sprites, d, corners, measure)
    case AddEvent(d) => sprites + [RandomSprite(d)]
  }

  /** The population after a run of steps and "add" presses. */
  function Run(sprites: seq<Sprite>, events: seq<Event>, corners: Corners, measure: Measure): (r: seq<Sprite>)
    requires |sprites| > 0 && WellDrawn(events)
    decreases |events|
  {
    if events == [] then sprites
    else Run(Apply(sprites, events[0], corners, measure), events[1..], corners, measure)
  }

  function Adds(events: seq<Event>): nat {
    if events == [] then 0 else (if events[0].AddEvent? then 1 else 0) + Adds(events[1..])
  }

  /** Steps never change the number of sprites and every "add" adds exactly
      one, so a population seeded with one sprite is never empty. */
  lemma {:induction false} RunLength(sprites: seq<Sprite>, events: seq<Event>, corners: Corners, measure: Measure)
    requires |sprites| > 0 && WellDrawn(events)
    ensures |Run(sprites, events, corners, measure)| == |sprites| + Adds(events)
    decreases |events|
  {
    if events != [] {
      RunLength(Apply(sprites, events[0], corners, measure), events[1..], corners, measure);
    }
  }

  /** Only the newest sprite is ever optimised: every sprite that already has
      a successor keeps its value for the rest of the run, and the order of
      the population is never changed. */
  lemma {:induction false} RunFreezesEarlier(sprites: seq<Sprite>, events: seq<Event>, corners: Corners, measure: Measure)
    requires |sprites| > 0 && WellDrawn(events)
    ensures |Run(sprites, events, corners, measure)| >= |sprites|
    ensures Run(sprites, events, corners, measure)[..|sprites| - 1] == sprites[..|sprites| - 1]
    decreases |events|
  {
    if events != [] {
      var next := Apply(sprites, events[0], corners, measure);
      RunFreezesEarlier(next, events[1..], corners, measure);
      assert next[..|sprites| - 1] == sprites[..|sprites| - 1];
      var r := Run(sprites, events, corners, measure);
      assert r[..|next| - 1] == next[..|next| - 1];
      assert r[..|sprites| - 1] == r[..|next| - 1][..|sprites| - 1];
    }
  }

  /** The state of the program's main loop that the hill climber touches:
      the vector of sprites. */
  class HillClimber {
    var sprites: seq<Sprite>

    ghost predicate Valid()
      reads this
    {
      |sprites| > 0
    }

    /** Start-up: the vector is seeded with one random sprite. */
    constructor (draws: seq<int>)
      requires AreDraws(draws, 5)
      ensures Valid() && sprites == [RandomSprite(draws)]
    {
      sprites := [RandomSprite(draws)];
    }

    /** The "add" button: one random sprite appended, the others untouched. */
    method Add(draws: seq<int>)
      requires Valid() && AreDraws(draws, 5)
      modifies this
      ensures Valid() && sprites == old(sprites) + [RandomSprite(draws)]
    {
      sprites := sprites + [RandomSprite(draws)];
    }

    /** One pass of the main loop's optimisation: jitter a copy of the last
        sprite, measure before, overwrite the last sprite, measure after, and
        put the old sprite back when the average after is at most the average
        before (never when either is NaN). */
    method Step(draws: seq<int>, corners: Corners, measure: Measure) returns (errBefore: Average, errAfter: Average)
      requires Valid() && AreDraws(draws, 5)
      modifies this
      ensures Valid()
      ensures var n := |old(sprites)|;
              var candidate := Jittered(old(sprites)[n - 1], draws);
              var frame := MoveFrame(old(sprites)[n - 1], candidate, corners);
              && errBefore == AverageDifference(old(sprites), frame, measure)
              && errAfter == AverageDifference(old(sprites)[n - 1 := candidate], frame, measure)
              && sprites == (if AtMost(errAfter, errBefore) then old(sprites) else old(sprites)[n - 1 := candidate])
      ensures sprites == StepOutcome(old(sprites), draws, corners, measure)
    {
      var last := |sprites| - 1;
      var after := RandomlyTransformSprite(sprites[last], draws);
      var aabbBefore := SpriteBox(sprites[last], corners);
      var aabbAfter := SpriteBox(after, corners);
      var differenceAabb := Union(aabbBefore, aabbAfter);
      var screenDifferenceAabb := ScreenBox(differenceAabb);
      var frame := Frame(differenceAabb, screenDifferenceAabb, PixelWidth(differenceAabb), PixelHeight(differenceAabb));
      assert frame == MoveFrame(sprites[last], after, corners);
      errBefore := AverageDifference(sprites, frame, measure);
      var before := sprites[last];
      sprites := sprites[last := after];
      errAfter := AverageDifference(sprites, frame, measure);
      if AtMost(errAfter, errBefore) {
        sprites := sprites[last := before];
        assert sprites == old(sprites);
      }
    }
  }
}
