/** Axis-aligned bounding boxes of the "Reduction" hill climber (main.cpp).
    main.cpp keeps a box as a heap-allocated float[4] holding, in order,
    min x, max x, min y, max y; here a box is a value, and floats are reals. */
module Boxes {

  datatype Point = Point(x: real, y: real)

  /** The four corners of a sprite's unit quad after its model matrix has
      been applied, in the order of the vertex table. */
  datatype Quad = Quad(p0: Point, p1: Point, p2: Point, p3: Point)

  /** Slots 0..3 of main.cpp's float[4]. */
  datatype Aabb = Aabb(minX: real, maxX: real, minY: real, maxY: real)

  /** Width and height of the frame the hill climber divides by. */
  const FRAME_WIDTH: real := 640.0
  const FRAME_HEIGHT: real := 480.0

  predicate Ordered(b: Aabb) {
    b.minX <= b.maxX && b.minY <= b.maxY
  }

  predicate Covers(b: Aabb, p: Point) {
    b.minX <= p.x <= b.maxX && b.minY <= p.y <= b.maxY
  }

  predicate Contains(outer: Aabb, inner: Aabb) {
    && outer.minX <= inner.minX && inner.maxX <= outer.maxX
    && outer.minY <= inner.minY && inner.maxY <= outer.maxY
  }

  /** std::min and std::max on two values. */
  function Min(a: real, b: real): real { if b < a then b else a }
  function Max(a: real, b: real): real { if a < b then b else a }

  function Abs(v: real): real { if v < 0.0 then -v else v }

  /** The corner min/max of getSpriteBoundingBox: the box is ordered whatever
      the corners are, it covers all four of them, and each of its bounds is
      attained by one of the corners (so no smaller box covers them). */
  function BoxOfQuad(q: Quad): (b: Aabb)
    ensures Ordered(b)
    ensures Covers(b, q.p0) && Covers(b, q.p1) && Covers(b, q.p2) && Covers(b, q.p3)
    ensures b.minX == q.p0.x || b.minX == q.p1.x || b.minX == q.p2.x || b.minX == q.p3.x
    ensures b.maxX == q.p0.x || b.maxX == q.p1.x || b.maxX == q.p2.x || b.maxX == q.p3.x
    ensures b.minY == q.p0.y || b.minY == q.p1.y || b.minY == q.p2.y || b.minY == q.p3.y
    ensures b.maxY == q.p0.y || b.maxY == q.p1.y || b.maxY == q.p2.y || b.maxY == q.p3.y
  {
    Aabb(Min(Min(q.p0.x, q.p1.x), Min(q.p2.x, q.p3.x)),
         Max(Max(q.p0.x, q.p1.x), Max(q.p2.x, q.p3.x)),
         Min(Min(q.p0.y, q.p1.y), Min(q.p2.y, q.p3.y)),
         Max(Max(q.p0.y, q.p1.y), Max(q.p2.y, q.p3.y)))
  }

  /** Every box that covers the four corners contains the corner box. */
  lemma BoxOfQuadIsSmallest(q: Quad, c: Aabb)
    requires Covers(c, q.p0) && Covers(c, q.p1) && Covers(c, q.p2) && Covers(c, q.p3)
    ensures Contains(c, BoxOfQuad(q))
  {
  }

  /** getDoubleBoundingBoxBoundingBox: the dirty region of a move. It contains
      both inputs, and each of its bounds is the matching bound of one input. */
  function Union(a: Aabb, b: Aabb): (r: Aabb)
    ensures Contains(r, a) && Contains(r, b)
    ensures (r.minX == a.minX || r.minX == b.minX) && (r.maxX == a.maxX || r.maxX == b.maxX)
    ensures (r.minY == a.minY || r.minY == b.minY) && (r.maxY == a.maxY || r.maxY == b.maxY)
  {
    Aabb(Min(a.minX, b.minX), Max(a.maxX, b.maxX), Min(a.minY, b.minY), Max(a.maxY, b.maxY))
  }

  /** The union is the smallest box containing both inputs. */
  lemma UnionIsSmallest(a: Aabb, b: Aabb, c: Aabb)
    requires Contains(c, a) && Contains(c, b)
    ensures Contains(c, Union(a, b))
  {
  }

  lemma UnionOrdered(a: Aabb, b: Aabb)
    requires Ordered(a) || Ordered(b)
    ensures Ordered(Union(a, b))
  {
  }

  lemma UnionCommutative(a: Aabb, b: Aabb)
    ensures Union(a, b) == Union(b, a)
  {
  }

  lemma UnionIdempotent(a: Aabb)
    ensures Union(a, a) == a
  {
  }

  lemma UnionAssociative(a: Aabb, b: Aabb, c: Aabb)
    ensures Union(Union(a, b), c) == Union(a, Union(b, c))
  {
  }

  /** The dirty region divided by the 640 x 480 frame size: multiplying back
      gives the pixel box, so order and containment carry over. */
  function ScreenBox(b: Aabb): (r: Aabb)
    ensures r.minX * FRAME_WIDTH == b.minX && r.maxX * FRAME_WIDTH == b.maxX
    ensures r.minY * FRAME_HEIGHT == b.minY && r.maxY * FRAME_HEIGHT == b.maxY
    ensures Ordered(b) <==> Ordered(r)
  {
    Aabb(b.minX / FRAME_WIDTH, b.maxX / FRAME_WIDTH, b.minY / FRAME_HEIGHT, b.maxY / FRAME_HEIGHT)
  }

  lemma ScreenBoxMonotone(outer: Aabb, inner: Aabb)
    requires Contains(outer, inner)
    ensures Contains(ScreenBox(outer), ScreenBox(inner))
  {
  }

  /** getAabbArea: the absolute value of width times height. */
  function Area(b: Aabb): (r: real)
    ensures r >= 0.0
    ensures Ordered(b) ==> r == (b.maxX - b.minX) * (b.maxY - b.minY)
  {
    Abs((b.maxX - b.minX) * (b.maxY - b.minY))
  }

  lemma MulMonotone(p: real, q: real, bigP: real, bigQ: real)
    requires 0.0 <= p <= bigP && 0.0 <= q <= bigQ
    ensures p * q <= bigP * bigQ
  {
    assert p * q <= bigP * q;
    assert bigP * q <= bigP * bigQ;
  }

  /** A box never has more area than a box containing it. */
  lemma AreaMonotone(outer: Aabb, inner: Aabb)
    requires Ordered(inner) && Contains(outer, inner)
    ensures Area(inner) <= Area(outer)
  {
    assert Ordered(outer);
    assert Area(inner) == (inner.maxX - inner.minX) * (inner.maxY - inner.minY);
    assert Area(outer) == (outer.maxX - outer.minX) * (outer.maxY - outer.minY);
    MulMonotone(inner.maxX - inner.minX, inner.maxY - inner.minY,
                outer.maxX - outer.minX, outer.maxY - outer.minY);
  }

  /** The dirty region is at least as large as either box it joins. */
  lemma UnionAreaAtLeast(a: Aabb, b: Aabb)
    requires Ordered(a) && Ordered(b)
    ensures Area(a) <= Area(Union(a, b)) && Area(b) <= Area(Union(a, b))
  {
    AreaMonotone(Union(a, b), a);
    AreaMonotone(Union(a, b), b);
  }

  /** A float-to-int cast: C++ truncates toward zero. */
  function Truncate(v: real): (n: int)
    ensures Abs(n as real) <= Abs(v) < Abs(n as real) + 1.0
    ensures (v >= 0.0 ==> n >= 0) && (v <= 0.0 ==> n <= 0)
  {
    if v >= 0.0 then v.Floor else -((-v).Floor)
  }

  /** The pixel width and height of the dirty region, (int)(max - min). */
  function PixelWidth(b: Aabb): (w: int)
    ensures Ordered(b) ==> 0 <= w && w as real <= b.maxX - b.minX < w as real + 1.0
  {
    Truncate(b.maxX - b.minX)
  }

  function PixelHeight(b: Aabb): (h: int)
    ensures Ordered(b) ==> 0 <= h && h as real <= b.maxY - b.minY < h as real + 1.0
  {
    Truncate(b.maxY - b.minY)
  }
}
