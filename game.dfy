/**
 * The game: its playfield, the player, and the obstacle field built once at
 * start-up by rejection sampling.
 */
module Games {
  import opened Obstacles
  import opened Players

  /** Attempts the generator may spend before it settles for a smaller field. */
  const MaxAttempts: nat := 500

  /** No accepted obstacle is too close to one accepted before it. */
  predicate Separated(field: seq<Obstacle>) {
    forall i, j :: 0 <= i < j < |field| ==> !TooClose(field[j], field[i])
  }

  /** The candidate keeps its distance from every obstacle in the field. */
  predicate ClearOf(test: Obstacle, field: seq<Obstacle>) {
    forall i :: 0 <= i < |field| ==> !TooClose(test, field[i])
  }

  /** Every obstacle lies in the placement region and shows a frame of the sheet. */
  predicate AllWellPlaced(dims: Dims, field: seq<Obstacle>) {
    forall i :: 0 <= i < |field| ==> WellPlaced(dims, field[i])
  }

  /** The field a run of the generator leaves behind, with the attempts it spent. */
  datatype Placement = Placement(obstacles: seq<Obstacle>, attempts: nat)

  /**
   * The generator's loop, continued from a field with one draw left per
   * remaining attempt: each attempt builds its candidate from the next draw
   * and keeps it when it is clear of the field. The loop stops once the field
   * holds `target` obstacles or the draws (the attempt budget) run out.
   * `attempts` in the result counts the attempts this run spent.
   */
  function Fill(dims: Dims, target: nat, draws: seq<Draw>, field: seq<Obstacle>): (p: Placement)
    ensures p.attempts <= |draws|
    ensures field <= p.obstacles
    ensures |p.obstacles| - |field| <= p.attempts
    ensures |field| <= target ==> |p.obstacles| <= target
    ensures target < |field| ==> p.obstacles == field
    ensures p.attempts < |draws| ==> target <= |p.obstacles|
  {
    if |field| < target && draws != [] then
      var test := Spawn(dims, draws[0]);
      var rest := Fill(dims, target, draws[1..], if ClearOf(test, field) then field + [test] else field);
      Placement(rest.obstacles, rest.attempts + 1)
    else
      Placement(field, 0)
  }

  /** The generator keeps the field separated. */
  lemma {:induction false} FillSeparated(dims: Dims, target: nat, draws: seq<Draw>, field: seq<Obstacle>)
    requires Separated(field)
    ensures Separated(Fill(dims, target, draws, field).obstacles)
  {
    if |field| < target && draws != [] {
      var test := Spawn(dims, draws[0]);
      if ClearOf(test, field) {
        var grown := field + [test];
        forall i, j | 0 <= i < j < |grown|
          ensures !TooClose(grown[j], grown[i])
        {
          if j == |field| {
            assert grown[j] == test && grown[i] == field[i];
          } else {
            assert grown[j] == field[j] && grown[i] == field[i];
          }
        }
        FillSeparated(dims, target, draws[1..], grown);
      } else {
        FillSeparated(dims, target, draws[1..], field);
      }
    }
  }

  /** With samples in [0, 1) and room to place, every obstacle the generator adds is well placed. */
  lemma {:induction false} FillWellPlaced(dims: Dims, target: nat, draws: seq<Draw>, field: seq<Obstacle>)
    requires forall k :: 0 <= k < |draws| ==> ValidDraw(draws[k])
    requires Roomy(dims)
    requires AllWellPlaced(dims, field)
    ensures AllWellPlaced(dims, Fill(dims, target, draws, field).obstacles)
  {
    if |field| < target && draws != [] {
      var test := Spawn(dims, draws[0]);
      var next := if ClearOf(test, field) then field + [test] else field;
      assert WellPlaced(dims, test);
      assert AllWellPlaced(dims, next) by {
        forall i | 0 <= i < |next| ensures WellPlaced(dims, next[i]) {
          if i < |field| {
            assert next[i] == field[i];
          }
        }
      }
      FillWellPlaced(dims, target, draws[1..], next);
    }
  }

  /**
   * Whether any obstacle in the field is too close to the candidate. Like the
   * source, it looks at every obstacle without stopping at the first hit.
   */
  method AnyTooClose(test: Obstacle, field: seq<Obstacle>) returns (overlap: bool)
    ensures overlap <==> !ClearOf(test, field)
  {
    overlap := false;
    for k := 0 to |field|
      invariant overlap <==> exists i :: 0 <= i < k && TooClose(test, field[i])
    {
      var other := field[k];
      var dx := test.collisionX - other.collisionX;
      var dy := test.collisionY - other.collisionY;
      var sumOfRadii := test.collisionRadius + other.collisionRadius + Buffer;
      if dx * dx + dy * dy < sumOfRadii * sumOfRadii {
        overlap := true;
      }
    }
  }

  class Game {
    const width: real
    const height: real
    /** Height of the band at the top kept free of obstacles. */
    const topMargin: real
    const numberOfObstacles: nat
    const player: Player
    var mouseX: real
    var mouseY: real
    var mousePressed: bool
    var obstacles: seq<Obstacle>

    /** The playfield the obstacles are placed in. */
    function Field(): Dims {
      Dims(width, height, topMargin)
    }

    /**
     * A game on a canvasWidth x canvasHeight canvas: pointer and player in the
     * middle, then one run of the obstacle generator over `draws`.
     */
    constructor (canvasWidth: real, canvasHeight: real, draws: seq<Draw>)
      requires MaxAttempts <= |draws|
      ensures width == canvasWidth && height == canvasHeight && topMargin == 150.0
      ensures numberOfObstacles == 5
      ensures mouseX == canvasWidth / 2.0 && mouseY == canvasHeight / 2.0 && !mousePressed
      ensures fresh(player)
      ensures player.collisionX == canvasWidth / 2.0 && player.collisionY == canvasHeight / 2.0
      ensures player.frameY == 0 && player.Anchored()
      ensures obstacles == Fill(Field(), numberOfObstacles, draws[..MaxAttempts], []).obstacles
      ensures Separated(obstacles) && |obstacles| <= numberOfObstacles
      ensures (forall k :: 0 <= k < |draws| ==> ValidDraw(draws[k])) && Roomy(Field()) ==>
        AllWellPlaced(Field(), obstacles)
    {
      width := canvasWidth;
      height := canvasHeight;
      topMargin := 150.0;
      mouseX := canvasWidth / 2.0;
      mouseY := canvasHeight / 2.0;
      mousePressed := false;
      numberOfObstacles := 5;
      obstacles := [];
      player := new Player(canvasWidth, canvasHeight);
      new;
      assert Separated(obstacles) && AllWellPlaced(Field(), obstacles);
      var _ := Init(draws);
    }

    /**
     * Rejection-sample obstacles into the field until it holds
     * numberOfObstacles of them or MaxAttempts candidates were drawn; attempt
     * k uses draws[k]. Returns the number of attempts spent.
     */
    method Init(draws: seq<Draw>) returns (attempts: nat)
      requires MaxAttempts <= |draws|
      modifies this`obstacles
      ensures Placement(obstacles, attempts) ==
              Fill(Field(), numberOfObstacles, draws[..MaxAttempts], old(obstacles))
      ensures attempts <= MaxAttempts
      ensures old(obstacles) <= obstacles
      ensures |old(obstacles)| <= numberOfObstacles ==> |obstacles| <= numberOfObstacles
      ensures attempts < MaxAttempts ==> numberOfObstacles <= |obstacles|
      ensures Separated(old(obstacles)) ==> Separated(obstacles)
      ensures ((forall k :: 0 <= k < |draws| ==> ValidDraw(draws[k])) && Roomy(Field()) &&
               AllWellPlaced(Field(), old(obstacles))) ==> AllWellPlaced(Field(), obstacles)
    {
      ghost var budget := draws[..MaxAttempts];
      ghost var whole := Fill(Field(), numberOfObstacles, budget, obstacles);
      attempts := 0;
      while |obstacles| < numberOfObstacles && attempts < MaxAttempts
        invariant attempts <= MaxAttempts
        invariant whole.obstacles == Fill(Field(), numberOfObstacles, budget[attempts..], obstacles).obstacles
        invariant whole.attempts == attempts + Fill(Field(), numberOfObstacles, budget[attempts..], obstacles).attempts
        decreases MaxAttempts - attempts
      {
        assert budget[attempts..][1..] == budget[attempts + 1..];
        var testObstacle := Spawn(Field(), draws[attempts]);
        var overlap := AnyTooClose(testObstacle, obstacles);
        if !overlap {
          obstacles := obstacles + [testObstacle];
        }
        attempts := attempts + 1;
      }
      if Separated(old(obstacles)) {
        FillSeparated(Field(), numberOfObstacles, budget, old(obstacles));
      }
      if (forall k :: 0 <= k < |draws| ==> ValidDraw(draws[k])) && Roomy(Field()) &&
         AllWellPlaced(Field(), old(obstacles)) {
        FillWellPlaced(Field(), numberOfObstacles, budget, old(obstacles));
      }
    }
  }

  /** The game's 1280 x 720 canvas with its 150-pixel top band leaves room to place obstacles. */
  lemma CanvasIsRoomy()
    ensures Roomy(Dims(1280.0, 720.0, 150.0))
  {
  }
}
