# Obstacle field and player step of a canvas game

A Dafny model of the logic in a small 2D canvas game (`script.js`). The game
opens on a 1280 x 720 canvas. A bull sprite (the player) walks toward the mouse
pointer, and a field of up to five static, well-separated circular obstacles
(radius 40) is scattered below a 150-pixel band at the top. The model has three
modules:

- `Obstacles` (`obstacle.dfy`): the obstacle record, built by its constructor
  from four random samples (`Spawn`). It also holds the "too close" test the
  generator applies to a candidate (`TooClose`, squared distances compared with
  the squared sum of radii plus the 100-pixel buffer), and the lemmas showing
  that this test matches the source's `Math.hypot` comparison exactly.
- `Players` (`player.dfy`): the 8-way facing classification of a heading angle
  (`FacingRow`) and the `Player` class. `Player.Update` is one frame of movement
  toward the pointer.
- `Games` (`game.dfy`): the `Game` class. Its `Init` method is the
  rejection-sampling loop that builds the obstacle field. It is proved against
  the recursive specification `Fill`, and the lemmas about `Fill` give
  pairwise separation, the size bound and placement inside the region.

Numbers are `real`. The source's JavaScript doubles are modelled as exact
reals, with no rounding. `Math.random` becomes caller-supplied `Draw` records.
Each record holds four samples, one for each `Math.random()` call in the
obstacle constructor, in call order. Attempt *k* of the generator uses
`draws[k]`. `Math.atan2` and `Math.hypot` are not computed: `Player.Update`
receives the heading angle and the pointer distance as arguments. The distance
is tied to the offset by `distance * distance == dx*dx + dy*dy`.

Within `speedModifier` of the pointer the player stays where it is
(script.js:115). Otherwise it moves exactly `speedModifier` and ends
`distance − speedModifier` short of the pointer (`Player.Update`,
`StepRemainder`). script.js has no player–obstacle collision check.

`Game.init` returns nothing in the source. The model's `Init` returns its local
`attempts` counter so that the 500-attempt bound can be stated.

## Model

| member | source | states |
|---|---|---|
| Obstacles.Spawn | script.js:127-145 | every obstacle gets radius 40 and a sprite anchor at (x − 60, y − 60 − 70); with samples in [0,1) the frame indices are in 0..3 and 0..2; with samples in [0,1) and a non-empty region, the centre satisfies 40 ≤ x < width − 40 and topMargin + 40 ≤ y < height − 40 |
| Obstacles.Stretch | script.js:131-138 | a sample in [0,1) scaled onto a span and shifted by lo lands in [lo, lo + span) |
| Obstacles.PickIndex | script.js:144-145 | flooring a sample in [0,1) times n gives an index in 0..n−1 |
| Obstacles.HypotTestIsSquaredTest | script.js:30-38 | for a non-negative distance whose square is dx²+dy² and a non-negative bound, `distance < bound` holds exactly when dx²+dy² < bound² |
| Obstacles.TooCloseMatchesHypot | script.js:29-41 | the squared test `TooClose` agrees with the source's `Math.hypot(dx,dy) < r1 + r2 + 100` for every pair of obstacles with non-negative radii |
| Games.AnyTooClose | script.js:28-42 | the overlap flag that the scan over all accepted obstacles computes is true exactly when some accepted obstacle is too close to the candidate |
| Games.Fill | script.js:24-47 | each attempt uses exactly one draw, so the loop never makes more attempts than there are draws; accepted obstacles are only appended (the old field is a prefix); each attempt adds at most one obstacle; a field that starts at or below the target ends at or below it; one that starts above it is left alone; if the loop stops with draws left over, the field has reached the target |
| Games.FillSeparated | script.js:29-44 | if the starting field is pairwise separated, then every obstacle in the resulting field is at least r1 + r2 + 100 from every obstacle accepted before it |
| Games.FillWellPlaced | script.js:24-47 | every candidate of the loop is built by the obstacle formulas (script.js:131-145); with samples in [0,1) and a non-empty region, every obstacle in the resulting field is inside the placement region and shows a frame of the 4 x 3 sheet |
| Games.Game.Init | script.js:24-49 | the new field and attempt count are exactly `Fill` over the first 500 draws; attempts ≤ 500; the old field is a prefix of the new one; the count stays ≤ numberOfObstacles; stopping before 500 attempts means the target was reached; separation and placement are preserved |
| Games.Game.constructor | script.js:12-22 | sets topMargin 150, target count 5, pointer at the canvas centre and not pressed, player at the centre facing row 0; then one run of the generator leaves a separated field of at most 5 obstacles, all well placed when the samples are in [0,1) |
| Games.CanvasIsRoomy | script.js:4-5 | the game's 1280 x 720 canvas with its 150-pixel top band leaves a non-empty placement region, so the constructor's placement promise applies to it |
| Players.FacingRow | script.js:104-112 | the row is in 0..7, and it is 0 exactly when the angle is below −2.74 or above 2.74 |
| Players.FacingRowCountsSectors | script.js:105-112 | for angles in [−2.74, 2.74], the if/else chain picks the row equal to the number of sector edges −2.74, −1.96, −1.17, −0.39, 0.39, 1.17, 1.96 that the angle has reached (first matching threshold wins) |
| Players.FacingRowMonotone | script.js:105-112 | within [−2.74, 2.74], a larger angle never gets a smaller row |
| Players.StepLength | script.js:114-119 | a step of (dx/d·s, dy/d·s) along an offset of length d has length exactly s |
| Players.StepRemainder | script.js:114-119 | after that step the pointer is exactly d − s away |
| Players.Player.constructor | script.js:62-77 | the player starts at the centre of the field with no offset and facing row 0, with the sprite anchored to the collision centre |
| Players.Player.Update | script.js:100-124 | stores the pointer offset (dx, dy); frameY is FacingRow(angle); the centre is unchanged when the distance is ≤ speedModifier; otherwise the centre moves by the unit direction times speedModifier, the step has length speedModifier and the pointer ends distance − speedModifier away; afterwards the sprite anchor is (collisionX − width/2, collisionY − height/2 − 100) |

## Left out

- Canvas and context setup, background and sprite images, and all `draw` / `render` methods (script.js:2-8, 51-57, 79-98, 154-173). These only draw. Because `Game.render` is left out, the model does not capture that it calls `player.update()` once per frame.
- Mouse event listeners and the `animate` / `requestAnimationFrame` loop (script.js:180-200). These are input and frame-clock plumbing. The `Game` fields `mouseX`, `mouseY` and `mousePressed` are only initialised. `Player.Update` takes the pointer position as arguments rather than reading it through a back-reference to the game.
- `console.log` and the image `onload` / `onerror` handlers (script.js:48, 148-151).
- `Math.random` itself. Its values come from the `draws` argument, and the generator needs at least 500 draws, one per possible attempt.
- The numeric content of `Math.atan2` and `Math.hypot`. The angle and the distance are inputs to `Player.Update`.
- Floating-point rounding. All arithmetic is exact over `real`. For example, a rounded `x` could land on `width − 40`, which the model's strict bound excludes.
- Players.Player.Update: `frameY` is `FacingRow` of the supplied angle. The model does not check that this angle is `atan2(dy, dx)`.
