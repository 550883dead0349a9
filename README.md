# Alien Invasion game logic in Dafny

A model of the game-logic layer of a small "Alien Invasion" shooter, written
in Python over a 2D sprite library. What is modelled is the part that runs
on integers and collections: the triangular alien fleet (its sizing
arithmetic, its layout, the per-tick edge check, drop and move, the bottom and
"destroyed" tests), each alien's movement, the ship's bounded bullet pool,
each bullet's climb, the ship's movement, docking, firing and collision
reset, and the score bookkeeping (lives, score, level, session maximum and
all-time high score). Drawing, asset loading, sound and file I/O are not
modelled.

Modules follow the source files:

- `geometry.dfy` (`Geometry`): the library's rectangle on integers
  (`right = x + w`, `bottom = y + h`, `centerx = x + w / 2`) and the
  `midtop`/`midbottom` anchors.
- `settings.dfy` (`GameSettings`): the integer settings the logic reads,
  and their default values.
- `sprite_groups.dfy` (`SpriteGroups`): the two facts used about sprite
  groups: members are distinct, and `remove` drops one member and keeps the
  order of the rest.
- `alien.dfy` (`Aliens`), `alien_fleet.dfy` (`AlienFleets`),
  `bullet.dfy` (`Bullets`), `arsenal.dfy` (`Arsenals`), `ship.dfy`
  (`Ships`), `game_stats.dfy` (`Stats`): one module per source file.
  Aliens, bullets, the fleet, the pool, the ship and the stats are classes
  whose methods update their fields in place; a fleet or a pool holds its
  sprites in a `seq` field, in insertion order, as the library's group
  iterates them.

Modelling choices:

- Positions are integers and a sprite's rectangle is its position: every
  default speed and size is a whole number. Rectangle sizes are `nat`, so
  Dafny's `/` agrees with the library's C division of widths. Python's `//`
  and `%` always divide by a positive number here, where they agree with
  Dafny's Euclidean `/` and `%`.
- The settings object is read when a method runs (and can be changed
  between levels), so the methods that read it take a `Settings` value or
  the one number they use. Values the source copies when an object is made
  (the fleet's drop speed and starting direction, sprite sizes, the screen
  rectangle) are fields set by the constructors.
- An alien reads the fleet direction through its back-reference to the
  fleet; in the model the fleet passes its speed and direction to
  `Alien.Update`.
- The screen rectangle is taken to be `Rect(0, 0, screen_w, screen_h)`.
- A new bullet takes the midtop of the game's ship; `Arsenal.FireBullet`
  receives that ship rectangle, and `Ship.Fire` passes its own.
- `Arsenal.RemoveBulletsOffscreen` filters the pool in a local sequence,
  one `remove` per off-screen bullet of the snapshot, and stores it back in
  the field when the pass ends; nothing reads the pool during the pass, so
  the intermediate states are not observable.
- The ship's collision test against another group is the function parameter
  `collides` of `Ship.CheckCollisions`.
- The high score loaded from the scores file is a parameter of the
  `GameStats` constructor.

The model follows the code in three places where the game is easy to
misread:

- A fleet tick runs the edge check (with its drop and flip) first and moves
  the aliens after (alien_fleet.py:155-156), and the move uses the flipped
  direction.
- Row 0 of the triangle is the widest and has the smallest y, so it is the
  row nearest the top of the screen (alien_fleet.py:71-78).
- The vertical offset is computed to centre `fleet_h` rows (5 with the
  defaults) in the top half of the screen, but the triangle has 9 rows, so
  its lowest row reaches past the top half; the horizontal offset and the
  fleet width are computed and not used (alien_fleet.py:52-55, 69-79).
  `AlienFleets.DefaultTriangleLeavesTopHalf` states this for the defaults.

## Model

| member | source | states |
|---|---|---|
| `Geometry.Rect.WithMidTop` | bullet.py:43 | assigning the midtop anchor keeps the size and puts the rectangle's midtop exactly on the given point |
| `Geometry.Rect.WithMidBottom` | ship.py:60 | assigning the midbottom anchor keeps the size and puts the rectangle's midbottom exactly on the given point |
| `Aliens.Alien.constructor` | alien.py:31-56 | a new alien's rectangle is at (x, y) with the alien size, and its x and y are the given coordinates |
| `Aliens.Alien.Update` | alien.py:58-65 | x changes by exactly fleet_speed * fleet_direction, y is unchanged, and the rectangle is resynchronised to (x, y), publishing any drop written to y |
| `Aliens.Alien.CheckEdges` | alien.py:67-75 | an alien is at an edge exactly when it does not lie strictly between the screen's left and right edges |
| `AlienFleets.CalculateFleetSize` | alien_fleet.py:102-121 | both counts are odd; each is the largest odd number strictly below the number of alien widths (heights) fitting in the screen width (half height) |
| `AlienFleets.CalculateOffsets` | alien_fleet.py:81-100 | the offsets centre a fleet_w by fleet_h block horizontally on the screen and vertically in its top half, the far margin being the near one or one more |
| `AlienFleets.RowsLength` | alien_fleet.py:71-79 | the first n rows hold n * (base - n + 1) aliens, the sum of base - 2r over r < n |
| `AlienFleets.LayoutAt` | alien_fleet.py:71-79 | alien i of row r is entry RowOffset(r) + i of the layout and stands at x = (screen_w - (base - 2r) * alien_w) // 2 + i * alien_w, y = y_offset + r * alien_h |
| `AlienFleets.TriangleCounts` | alien_fleet.py:69-72 | base 17 gives 9 rows, row r holds 17 - 2r aliens, 81 aliens in all |
| `AlienFleets.RowCentred` | alien_fleet.py:73-77 | every row is centred: the space right of it is the space left of it or one pixel more |
| `AlienFleets.SlotsFitWidth` | alien_fleet.py:73-77 | when the widest row fits the screen width, every alien of the triangle lies inside the screen horizontally |
| `AlienFleets.RowsDescend` | alien_fleet.py:78 | each row lies exactly one alien height below the previous one |
| `AlienFleets.DefaultYOffset` | alien_fleet.py:95-99 | with the default settings the fleet is 5 rows high for offsetting and y_offset is (312 - 5 * 40) // 2 = 56 |
| `AlienFleets.DefaultTriangle` | alien_fleet.py:71-78 | with the defaults the first alien is at (292, 56) and the single alien of row 8, the last one created, at (612, 376) |
| `AlienFleets.DefaultTriangleLeavesTopHalf` | alien_fleet.py:52-55 | with the defaults the lowest row of the triangle reaches below half the screen height |
| `AlienFleets.AlienFleet.constructor` | alien_fleet.py:28-41 | a new fleet has the settings' direction and drop speed and holds exactly the 81 aliens of the triangle, in creation order, all distinct and new, each judging the edges against the fleet's screen rectangle |
| `AlienFleets.AlienFleet.CreateFleet` | alien_fleet.py:43-55 | the aliens already in the group are kept and the triangle built with the y offset of CalculateOffsets over CalculateFleetSize is appended, every alien's boundaries being the fleet's screen rectangle |
| `AlienFleets.AlienFleet.CreateTriangleFleet` | alien_fleet.py:57-79 | the nested loops append new aliens standing exactly at the positions of the triangle layout, row by row, left to right, every alien's boundaries being the fleet's screen rectangle; the width, height and x offset arguments play no part |
| `AlienFleets.AlienFleet.CreateAlien` | alien_fleet.py:123-132 | exactly one new alien, at the given coordinates with the alien size, is added at the end of the group |
| `AlienFleets.AlienFleet.CheckFleetEdges` | alien_fleet.py:134-142 | if some alien touches an edge every alien's y grows by fleet_drop_speed once and the direction is negated once, however many touch; if none does, nothing changes; x and rectangles are never touched |
| `AlienFleets.AlienFleet.DropAlienFleet` | alien_fleet.py:144-149 | every alien's y grows by exactly fleet_drop_speed; x and rectangles are unchanged |
| `AlienFleets.AlienFleet.UpdateFleet` | alien_fleet.py:151-156 | the edge check happens first: each alien's x moves by fleet_speed times the possibly flipped direction, y by the drop when an edge was touched, the rectangle follows, and the formation stays rigid |
| `AlienFleets.AlienFleet.CheckFleetBottom` | alien_fleet.py:177-187 | true exactly when some alien's rectangle bottom is at or below screen_h |
| `AlienFleets.AlienFleet.CheckDestroyedStatus` | alien_fleet.py:189-196 | true exactly when the fleet holds no alien |
| `SpriteGroups.WithoutMembers` | arsenal.py:50 | removing a sprite from a group leaves exactly the other members |
| `Bullets.Bullet.constructor` | bullet.py:27-44 | a new bullet has the bullet size, its midtop equals the ship's midtop, and its y is its rectangle's y |
| `Bullets.Bullet.Update` | bullet.py:46-51 | y decreases by exactly bullet_speed, the rectangle's y follows, its x never changes |
| `Bullets.StepsTrajectory` | bullet.py:46-51 | after n updates y = y0 - n * bullet_speed, the column and size are unchanged and the rectangle is at y |
| `Bullets.LeavesScreen` | bullet.py:50-51 | with a positive speed every bullet's bottom reaches the top of the screen after finitely many updates |
| `Arsenals.SurvivorsMembers` | arsenal.py:48-50 | a bullet survives the off-screen pass exactly when it was in the pool and its rectangle's bottom is below the top of the screen |
| `Arsenals.SurvivorsLength` | arsenal.py:44-50 | the off-screen pass never adds a bullet, so with the firing bound the pool stays within bullet_amount |
| `Arsenals.SurvivorsDistinct` | arsenal.py:48-50 | the pruned pool still holds each bullet once |
| `Arsenals.Arsenal.constructor` | arsenal.py:26-35 | a new pool is empty |
| `Arsenals.Arsenal.UpdateArsenal` | arsenal.py:37-42 | every bullet advances first, then exactly the bullets whose new bottom is at or above 0 are removed, the others kept in order; the pool never grows |
| `Arsenals.Arsenal.RemoveBulletsOffscreen` | arsenal.py:44-50 | removing while iterating over a copy leaves exactly the on-screen bullets, in order, and never grows the pool |
| `Arsenals.Arsenal.FireBullet` | arsenal.py:59-70 | fires exactly when the pool holds fewer than bullet_amount bullets: then one new bullet at the ship's midtop is appended and true returned; otherwise false and the pool unchanged; firing never grows the pool past bullet_amount |
| `Arsenals.RepeatedFire` | arsenal.py:66-70 | n fire requests on an empty pool: request i succeeds exactly when i < bullet_amount, leaving min(n, max(0, bullet_amount)) bullets |
| `Arsenals.SixFires` | arsenal.py:66-70 | with the default limit of 5, six fire requests leave 5 bullets and the sixth returns false |
| `Ships.DockedInside` | ship.py:56-61 | the docked ship's x is screen_w // 2 - ship_w // 2, its bottom is the screen bottom, and it lies inside the screen when it fits |
| `Ships.Ship.constructor` | ship.py:32-54 | a new ship has the ship size, is docked with x equal to its rectangle's x, and has both movement flags cleared |
| `Ships.Ship.CenterShip` | ship.py:56-61 | the ship's midbottom is set to the screen's midbottom and x follows the rectangle |
| `Ships.Ship.UpdateShipMovement` | ship.py:70-80 | x grows by ship_speed only when moving right with the rectangle's right edge short of the screen's, shrinks by it only when moving left with the left edge past the screen's (both judged before the move), so x is unchanged with both or neither flag in the open; the rectangle follows x; the ship never gets a full step past an edge |
| `Ships.Ship.Update` | ship.py:63-68 | the ship moves, then its bullets advance and the off-screen ones are pruned |
| `Ships.Ship.Fire` | ship.py:89-96 | returns exactly the pool's fire result, the new bullet starting at this ship's midtop |
| `Ships.Ship.CheckCollisions` | ship.py:98-111 | when the collision test holds the ship is docked again and true returned; otherwise the ship is unchanged and false returned |
| `Stats.Max` | game_stats.py:100-112 | the larger of two scores |
| `Stats.GameStats.constructor` | game_stats.py:31-42 | max_score starts at 0, hi_score at the loaded value, and the stats are reset |
| `Stats.GameStats.ResetStats` | game_stats.py:71-77 | ships_left = starting_ship_count, score = 0, level = 1, and neither maximum changes |
| `Stats.GameStats.Update` | game_stats.py:79-88 | the score grows by alien_points per collision entry, both maxima become max(old, score) and never decrease, and afterwards score <= max_score and score <= hi_score |
| `Stats.GameStats.UpdateScore` | game_stats.py:90-98 | alien_points is added once per entry of the collisions mapping |
| `Stats.GameStats.UpdateMaxScore` | game_stats.py:100-105 | max_score becomes max(old max_score, score) |
| `Stats.GameStats.UpdateHiScore` | game_stats.py:107-112 | hi_score becomes max(old hi_score, score) |
| `Stats.GameStats.UpdateLevel` | game_stats.py:114-118 | level grows by exactly 1 and nothing else in the stats changes |

## Left out

- Drawing and assets (`draw`, `draw_alien`, `draw_bullet`, image loading and
  scaling, fonts, sounds, blitting): library calls with no game logic.
- `AlienFleet.check_collisions` (alien_fleet.py:165-175): it is the library's
  `groupcollide`; `GameStats.Update` accepts any mapping as its result.
- The library's `spritecollideany` (ship.py:108): replaced by the
  `collides` parameter.
- `init_saved_scores` and `save_scores` (game_stats.py:44-69): JSON and file
  I/O; the loaded high score is a constructor parameter.
- The `print` in `update_level` (game_stats.py:119).
- settings.py as an object, including `increase_difficulty`, which does
  float arithmetic; the model takes the settings as integer values.
- Sub-pixel float positions and the library's float-to-int coercion when a
  rectangle is assigned (alien.py:64, bullet.py:51, ship.py:80).
- hud.py and button.py: text rendering and layout, and a point-in-rectangle
  test of the library.
- Zero alien sizes: `CalculateFleetSize`, `FleetYOffset`, `TriangleFor`, `CreateFleet` and the
  `AlienFleet` constructor require a positive alien width and height, where
  the game raises a division-by-zero error (alien_fleet.py:115-116).
- The game loop and the display set-up: alien_invasion.py is not part of
  this model.
