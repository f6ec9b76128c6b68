/**
 * The mouse-driven player: the choice of sprite row from the heading angle,
 * and the per-frame step toward the pointer.
 */
module Players {

  /**
   * Sprite row for a heading angle (the result of atan2(dy, dx)), chosen by
   * the first threshold the angle passes. Row 0 covers the wrap-around sector
   * on both sides of the negative x axis.
   */
  function FacingRow(angle: real): (row: nat)
    ensures row < 8
    ensures row == 0 <==> angle < -2.74 || angle > 2.74
  {
    if angle < -2.74 || angle > 2.74 then 0
    else if angle < -1.96 then 1
    else if angle < -1.17 then 2
    else if angle < -0.39 then 3
    else if angle < 0.39 then 4
    else if angle < 1.17 then 5
    else if angle < 1.96 then 6
    else 7
  }

  /** The lower edges of sectors 1 to 7, in increasing order. */
  const SectorStarts: seq<real> := [-2.74, -1.96, -1.17, -0.39, 0.39, 1.17, 1.96]

  predicate StrictlyIncreasing(s: seq<real>) {
    forall i, j :: 0 <= i < j < |s| ==> s[i] < s[j]
  }

  /** How many of the given edges the angle has reached. */
  function Reached(edges: seq<real>, angle: real): (n: nat)
    ensures n <= |edges|
  {
    if edges == [] then 0
    else (if edges[0] <= angle then 1 else 0) + Reached(edges[1..], angle)
  }

  /** Over increasing edges, an angle between edge k-1 and edge k has reached exactly k of them. */
  lemma {:induction false} ReachedBetween(edges: seq<real>, angle: real, k: nat)
    requires StrictlyIncreasing(edges)
    requires k <= |edges|
    requires 0 < k ==> edges[k - 1] <= angle
    requires k < |edges| ==> angle < edges[k]
    ensures Reached(edges, angle) == k
  {
    if edges != [] {
      if k == 0 {
        assert angle < edges[0];
        ReachedBetween(edges[1..], angle, 0);
      } else {
        assert edges[0] <= edges[k - 1];
        ReachedBetween(edges[1..], angle, k - 1);
      }
    }
  }

  /** A larger angle reaches at least as many edges. */
  lemma {:induction false} ReachedMonotone(edges: seq<real>, a: real, b: real)
    requires a <= b
    ensures Reached(edges, a) <= Reached(edges, b)
  {
    if edges != [] {
      ReachedMonotone(edges[1..], a, b);
    }
  }

  /**
   * Outside the wrap-around sector, the row is the number of sector edges the
   * angle has reached: the if/else chain is a sector lookup.
   */
  lemma FacingRowCountsSectors(angle: real)
    requires -2.74 <= angle <= 2.74
    ensures FacingRow(angle) == Reached(SectorStarts, angle)
  {
    var s := SectorStarts;
    assert StrictlyIncreasing(s);
    var k := FacingRow(angle);
    ReachedBetween(s, angle, k);
  }

  /** Inside the band [-2.74, 2.74], turning counter-clockwise never lowers the row. */
  lemma FacingRowMonotone(a: real, b: real)
    requires -2.74 <= a <= b <= 2.74
    ensures FacingRow(a) <= FacingRow(b)
  {
    FacingRowCountsSectors(a);
    FacingRowCountsSectors(b);
    ReachedMonotone(SectorStarts, a, b);
  }

  function Sq(x: real): real { x * x }

  /** Scaling both components of a vector of length d by k gives a vector of length d * k. */
  lemma ScaledLength(dx: real, dy: real, d: real, k: real)
    requires Sq(d) == Sq(dx) + Sq(dy)
    ensures Sq(dx * k) + Sq(dy * k) == Sq(d * k)
  {
  }

  /** A step of (dx / d * s, dy / d * s) along a vector of length d has length s. */
  lemma StepLength(dx: real, dy: real, d: real, s: real)
    requires 0.0 < d && Sq(d) == Sq(dx) + Sq(dy)
    ensures Sq(dx / d * s) + Sq(dy / d * s) == Sq(s)
  {
    var k := s / d;
    assert dx / d * s == dx * k && dy / d * s == dy * k;
    ScaledLength(dx, dy, d, k);
    assert d * k == s;
  }

  /** After that step the pointer is d - s away (in squared form). */
  lemma StepRemainder(dx: real, dy: real, d: real, s: real)
    requires 0.0 < d && Sq(d) == Sq(dx) + Sq(dy)
    ensures Sq(dx - dx / d * s) + Sq(dy - dy / d * s) == Sq(d - s)
  {
    var m := 1.0 - s / d;
    assert dx - dx / d * s == dx * m && dy - dy / d * s == dy * m;
    ScaledLength(dx, dy, d, m);
    assert d * m == d - s;
  }

  class Player {
    const collisionRadius: real := 30.0
    /** The length of one step toward the pointer. */
    const speedModifier: real := 3.0
    /** Size of one sprite frame. */
    const width: real := 255.0
    const height: real := 256.0
    /** Sprite column; script.js never changes it. */
    const frameX: nat := 0

    var collisionX: real
    var collisionY: real
    var dx: real
    var dy: real
    var spriteX: real
    var spriteY: real
    var frameY: nat

    /** The sprite is drawn centred on the collision circle, lifted by 100. */
    ghost predicate Anchored()
      reads this
    {
      spriteX == collisionX - width / 2.0 && spriteY == collisionY - height / 2.0 - 100.0
    }

    /** A player standing in the middle of a gameWidth x gameHeight field, facing row 0. */
    constructor (gameWidth: real, gameHeight: real)
      ensures collisionX == gameWidth / 2.0 && collisionY == gameHeight / 2.0
      ensures dx == 0.0 && dy == 0.0 && frameY == 0
      ensures Anchored()
    {
      collisionX := gameWidth / 2.0;
      collisionY := gameHeight / 2.0;
      dx, dy := 0.0, 0.0;
      spriteX := gameWidth / 2.0 - width / 2.0;
      spriteY := gameHeight / 2.0 - height / 2.0 - 100.0;
      frameY := 0;
    }

    /**
     * One frame of movement toward the pointer (mouseX, mouseY). `angle` is
     * atan2 of the offset and `distance` its Euclidean length, both supplied by
     * the caller. The player moves one step of length speedModifier only when
     * the pointer is farther than that; otherwise it stays put. Since the
     * step is taken only when distance > speedModifier, it never passes the
     * pointer: it ends distance - speedModifier short of it.
     */
    method Update(mouseX: real, mouseY: real, angle: real, distance: real)
      requires 0.0 <= distance
      requires Sq(distance) == Sq(mouseX - collisionX) + Sq(mouseY - collisionY)
      modifies this
      ensures dx == mouseX - old(collisionX) && dy == mouseY - old(collisionY)
      ensures frameY == FacingRow(angle) && frameY < 8
      ensures distance <= speedModifier ==>
        collisionX == old(collisionX) && collisionY == old(collisionY)
      ensures speedModifier < distance ==>
        collisionX == old(collisionX) + dx / distance * speedModifier &&
        collisionY == old(collisionY) + dy / distance * speedModifier
      ensures speedModifier < distance ==>
        Sq(collisionX - old(collisionX)) + Sq(collisionY - old(collisionY)) == Sq(speedModifier)
      ensures speedModifier < distance ==>
        Sq(mouseX - collisionX) + Sq(mouseY - collisionY) == Sq(distance - speedModifier)
      ensures Anchored()
    {
      dx := mouseX - collisionX;
      dy := mouseY - collisionY;

      frameY := FacingRow(angle);

      if distance > speedModifier {
        var speedX := (dx / distance) * speedModifier;
        var speedY := (dy / distance) * speedModifier;
        StepLength(dx, dy, distance, speedModifier);
        StepRemainder(dx, dy, distance, speedModifier);
        collisionX := collisionX + speedX;
        collisionY := collisionY + speedY;
        assert mouseX - collisionX == dx - speedX && mouseY - collisionY == dy - speedY;
      }

      spriteX := collisionX - width / 2.0;
      spriteY := collisionY - height / 2.0 - 100.0;
    }
  }
}
