/**
 * Static circular obstacles: how one is placed from four random samples,
 * and the separation test the field generator applies to a candidate.
 */
module Obstacles {

  /** Collision radius every obstacle gets. */
  const Radius: real := 40.0
  /** Width and height of one obstacle sprite frame. */
  const SpriteSize: real := 120.0
  /** Extra vertical lift of the obstacle sprite above its collision centre. */
  const SpriteLift: real := 70.0
  /** Extra gap kept between two obstacles beyond the sum of their radii. */
  const Buffer: real := 100.0
  /** The obstacle sprite sheet is a grid of FrameColumns x FrameRows. */
  const FrameColumns: int := 4
  const FrameRows: int := 3

  /** The playfield an obstacle is placed in: the canvas size and the band kept free at the top. */
  datatype Dims = Dims(width: real, height: real, topMargin: real)

  /**
   * The four values drawn from the random source when an obstacle is built,
   * in the order they are drawn: centre x, centre y, frame column, frame row.
   */
  datatype Draw = Draw(ux: real, uy: real, ufx: real, ufy: real)

  /** An obstacle never changes after it is built. */
  datatype Obstacle = Obstacle(
    collisionX: real, collisionY: real, collisionRadius: real,
    spriteX: real, spriteY: real,
    frameX: int, frameY: int)

  /** Each sample lies in [0, 1), as the random source promises. */
  predicate ValidDraw(d: Draw) {
    0.0 <= d.ux < 1.0 && 0.0 <= d.uy < 1.0 && 0.0 <= d.ufx < 1.0 && 0.0 <= d.ufy < 1.0
  }

  /** The placement region is non-empty in both directions. */
  predicate Roomy(dims: Dims) {
    2.0 * Radius < dims.width && dims.topMargin + 2.0 * Radius < dims.height
  }

  /** The obstacle lies fully inside the playfield, below the top band, and shows a frame of the sheet. */
  predicate WellPlaced(dims: Dims, o: Obstacle) {
    && o.collisionRadius == Radius
    && Radius <= o.collisionX < dims.width - Radius
    && dims.topMargin + Radius <= o.collisionY < dims.height - Radius
    && 0 <= o.frameX < FrameColumns
    && 0 <= o.frameY < FrameRows
  }

  /** A sample in [0, 1) scaled by a positive span stays in [0, span). */
  lemma ScaleBelow(u: real, span: real)
    ensures 0.0 <= u < 1.0 && 0.0 < span ==> 0.0 <= u * span < span
  {
  }

  /** A sample in [0, 1) mapped onto the interval [lo, lo + span). */
  function Stretch(u: real, lo: real, span: real): (r: real)
    ensures 0.0 <= u < 1.0 && 0.0 < span ==> lo <= r < lo + span
  {
    ScaleBelow(u, span);
    u * span + lo
  }

  /** Row or column picked by flooring a sample times the number of choices. */
  function PickIndex(u: real, choices: int): (k: int)
    requires 0 < choices
    ensures 0.0 <= u < 1.0 ==> 0 <= k < choices
  {
    ScaleBelow(u, choices as real);
    (u * choices as real).Floor
  }

  /** The obstacle built from one draw, as its constructor computes it. */
  function Spawn(dims: Dims, d: Draw): (o: Obstacle)
    ensures o.collisionRadius == Radius
    ensures o.spriteX == o.collisionX - SpriteSize / 2.0
    ensures o.spriteY == o.collisionY - SpriteSize / 2.0 - SpriteLift
    ensures ValidDraw(d) ==> 0 <= o.frameX < FrameColumns && 0 <= o.frameY < FrameRows
    ensures ValidDraw(d) && Roomy(dims) ==> WellPlaced(dims, o)
  {
    var x := Stretch(d.ux, Radius, dims.width - Radius * 2.0);
    var y := Stretch(d.uy, dims.topMargin + Radius, dims.height - dims.topMargin - Radius * 2.0);
    Obstacle(x, y, Radius,
             x - SpriteSize / 2.0, y - SpriteSize / 2.0 - SpriteLift,
             PickIndex(d.ufx, FrameColumns), PickIndex(d.ufy, FrameRows))
  }

  /** Minimum centre distance the generator demands between a and b. */
  function MinGap(a: Obstacle, b: Obstacle): real {
    a.collisionRadius + b.collisionRadius + Buffer
  }

  /**
   * The candidate `test` lies strictly closer to `other` than the minimum gap,
   * compared on squared distances.
   */
  predicate TooClose(test: Obstacle, other: Obstacle) {
    var dx := test.collisionX - other.collisionX;
    var dy := test.collisionY - other.collisionY;
    dx * dx + dy * dy < MinGap(test, other) * MinGap(test, other)
  }

  /**
   * Comparing the Euclidean distance with a non-negative bound gives the same
   * answer as comparing squares, so the squared test is exact.
   */
  lemma HypotTestIsSquaredTest(dx: real, dy: real, distance: real, bound: real)
    requires 0.0 <= distance && distance * distance == dx * dx + dy * dy
    requires 0.0 <= bound
    ensures distance < bound <==> dx * dx + dy * dy < bound * bound
  {
    if distance < bound {
      SquareStrict(distance, bound);
    } else {
      SquareMonotone(bound, distance);
    }
  }

  /** Squaring is strictly increasing on non-negative numbers. */
  lemma SquareStrict(a: real, b: real)
    requires 0.0 <= a < b
    ensures a * a < b * b
  {
    MultiplyStrict(b - a, 0.0, b + a);
    assert b * b - a * a == (b - a) * (b + a);
  }

  /** Squaring is increasing on non-negative numbers. */
  lemma SquareMonotone(a: real, b: real)
    requires 0.0 <= a <= b
    ensures a * a <= b * b
  {
    if a < b {
      SquareStrict(a, b);
    }
  }

  /** Multiplying by a positive factor keeps the strict order. */
  lemma MultiplyStrict(k: real, a: real, b: real)
    requires 0.0 < k && a < b
    ensures k * a < k * b
  {
  }

  /** TooClose is exactly the hypot comparison of the source for obstacles with non-negative radii. */
  lemma TooCloseMatchesHypot(test: Obstacle, other: Obstacle, distance: real)
    requires 0.0 <= test.collisionRadius && 0.0 <= other.collisionRadius
    requires 0.0 <= distance
    requires distance * distance ==
      (test.collisionX - other.collisionX) * (test.collisionX - other.collisionX) +
      (test.collisionY - other.collisionY) * (test.collisionY - other.collisionY)
    ensures TooClose(test, other) <==> distance < MinGap(test, other)
  {
    HypotTestIsSquaredTest(test.collisionX - other.collisionX, test.collisionY - other.collisionY,
                           distance, MinGap(test, other));
  }
}
