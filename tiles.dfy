/** One tile of the grid: its identity, position, behaviour flags, colour
    noise phases and its three vertex rings (circle, rectangle and the live
    morph ring), and how a new tile's rings are built. */
module Tiles {
  import opened P5Math

  /** `state` values: a tile is shown (or morphing toward) a circle or a rectangle. */
  const CircleState := 0
  const RectState := 1

  /** Vertices per ring: angles 0, 9, ..., 351 on the circle, 40 steps round the square. */
  const RingSize := 40

  datatype Point = Point(x: real, y: real)

  /** The fields of the source's `Tile` that the control layer reads or
      writes. `x`, `y` is `pos`; `hT`, `sT` are the hue and saturation noise
      phases. */
  datatype Tile = Tile(
    index: int,
    x: real, y: real,
    size: real,
    state: int,
    isRotating: bool, rotatingRight: bool, isBlobbing: bool,
    hT: real, sT: real,
    circle: seq<Point>, rect: seq<Point>, morph: seq<Point>)

  /** The shape invariant every tile keeps: three rings of equal length (so
      that vertex i of one ring pairs with vertex i of the others) and a
      state that names one of the two shapes. */
  predicate WellFormed(t: Tile) {
    && |t.circle| == RingSize && |t.rect| == RingSize && |t.morph| == RingSize
    && (t.state == CircleState || t.state == RectState)
  }

  /** The per-tile step of `switchShapes`: `state++`, back to 0 past 1; on
      the two shape states it swaps circle and rectangle. */
  function FlipState(state: int): (r: int)
    ensures 0 <= state <= 1 ==> r == 1 - state
    ensures 0 <= state ==> 0 <= r <= 1
  {
    if state + 1 > 1 then 0 else state + 1
  }

  /** p5's `v.mult(k)`. */
  function Scaled(p: Point, k: real): Point {
    Point(p.x * k, p.y * k)
  }

  /** Vertex `i` of the rectangle ring of a tile of edge `size`: vertex `i`
      sits at perimeter progress i/40, going along the top, right, bottom
      and left sides in turn. */
  function RectVertex(size: real, i: int): Point {
    var progress := i as real / 40.0;
    var h := size / 2.0;
    if progress < 0.25 then
      Point(Lerp(-h, h, progress * 4.0), -h)                  // top side
    else if progress < 0.5 then
      Point(h, Lerp(-h, h, (progress - 0.25) * 4.0))          // right side
    else if progress < 0.75 then
      Point(Lerp(h, -h, (progress - 0.5) * 4.0), h)           // bottom side
    else
      Point(-h, Lerp(h, -h, (progress - 0.75) * 4.0))         // left side
  }

  lemma LerpWithin(h: real, t: real)
    requires h >= 0.0 && 0.0 <= t <= 1.0
    ensures -h <= Lerp(-h, h, t) <= h
    ensures -h <= Lerp(h, -h, t) <= h
  {
    assert 0.0 <= t * (2.0 * h) <= 2.0 * h;
    assert Lerp(-h, h, t) == t * (2.0 * h) - h;
    assert Lerp(h, -h, t) == h - t * (2.0 * h);
  }

  /** Every rectangle vertex lies on the boundary of the tile's square: one
      of its coordinates is +-size/2 and, for a non-negative size, the other
      lies between them. Vertices 0, 10, 20, 30 are the four corners. */
  lemma RectVertexOnSquare(size: real, i: int)
    requires 0 <= i < RingSize
    ensures var p, h := RectVertex(size, i), size / 2.0;
      && (p.x == -h || p.x == h || p.y == -h || p.y == h)
      && (size >= 0.0 ==> -h <= p.x <= h && -h <= p.y <= h)
      && (i == 0 ==> p == Point(-h, -h)) && (i == 10 ==> p == Point(h, -h))
      && (i == 20 ==> p == Point(h, h)) && (i == 30 ==> p == Point(-h, h))
  {
    var progress := i as real / 40.0;
    var h := size / 2.0;
    if size >= 0.0 {
      if progress < 0.25 {
        LerpWithin(h, progress * 4.0);
      } else if progress < 0.5 {
        LerpWithin(h, (progress - 0.25) * 4.0);
      } else if progress < 0.75 {
        LerpWithin(h, (progress - 0.5) * 4.0);
      } else {
        LerpWithin(h, (progress - 0.75) * 4.0);
      }
    }
  }

  /** `initShapes`: the circle ring, one vertex per 9 degrees from -135
      degrees on, at radius size/2 (`fromAngle(d)` is p5's unit vector at
      `d` degrees, left abstract); a morph ring of as many origin points;
      and the 40-vertex rectangle ring. */
  method InitShapes(size: real, fromAngle: int -> Point)
    returns (circle: seq<Point>, rect: seq<Point>, morph: seq<Point>)
    ensures |circle| == RingSize && |rect| == RingSize && |morph| == RingSize
    ensures forall i :: 0 <= i < RingSize ==> circle[i] == Scaled(fromAngle(9 * i - 135), size / 2.0)
    ensures forall i :: 0 <= i < RingSize ==> morph[i] == Point(0.0, 0.0)
    ensures forall i :: 0 <= i < RingSize ==> rect[i] == RectVertex(size, i)
  {
    circle, morph := [], [];
    var angle := 0;
    while angle < 360
      invariant 0 <= angle <= 360 && angle % 9 == 0
      invariant |circle| == |morph| == angle / 9
      invariant forall i :: 0 <= i < |circle| ==> circle[i] == Scaled(fromAngle(9 * i - 135), size / 2.0)
      invariant forall i :: 0 <= i < |morph| ==> morph[i] == Point(0.0, 0.0)
    {
      circle := circle + [Scaled(fromAngle(angle - 135), size / 2.0)];
      morph := morph + [Point(0.0, 0.0)];
      angle := angle + 9;
    }
    rect := [];
    var i := 0;
    while i < 40
      invariant 0 <= i <= 40 && |rect| == i
      invariant forall k :: 0 <= k < i ==> rect[k] == RectVertex(size, k)
    {
      rect := rect + [RectVertex(size, i)];
      i := i + 1;
    }
  }

  /** The `Tile` constructor: a well-formed rectangle tile at (x, y), not
      rotating or blobbing, with its colour noise phases at 0. */
  method NewTile(size: real, x: real, y: real, index: int, fromAngle: int -> Point)
    returns (t: Tile)
    ensures WellFormed(t) && t.state == RectState
    ensures t.index == index && t.x == x && t.y == y && t.size == size
    ensures !t.isRotating && !t.rotatingRight && !t.isBlobbing
    ensures t.hT == 0.0 && t.sT == 0.0
    ensures forall i :: 0 <= i < RingSize ==> t.rect[i] == RectVertex(size, i)
  {
    var circle, rect, morph := InitShapes(size, fromAngle);
    t := Tile(index, x, y, size, RectState, false, false, false, 0.0, 0.0, circle, rect, morph);
  }

  /** The flags rotation mode `rm` leaves on every tile: 1 none rotating,
      2 each rotating on its own noise, 3 and 4 following the global angle
      to the right or left, 5 following it in mixed directions. */
  predicate RotationAgrees(rm: int, t: Tile) {
    && (rm != 2 ==> !t.isRotating)
    && (rm == 2 ==> t.isRotating)
    && (rm == 3 ==> t.rotatingRight)
    && (rm == 4 ==> !t.rotatingRight)
  }

  /** The flag blob mode `bm` leaves on every tile: 1 none blobbing, 3 all
      blobbing, 2 each tile on its own coin flip. */
  predicate BlobAgrees(bm: int, t: Tile) {
    && (bm == 1 ==> !t.isBlobbing)
    && (bm == 3 ==> t.isBlobbing)
  }
}
