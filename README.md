# A canvas side-scroller: the frame simulation in Dafny

This project models the per-frame simulation of a small side-scrolling
canvas shooter. The player's ship sits near the left edge of a 1500 × 500
field. It moves up and down and fires projectiles to the right. Ammunition
regenerates, and a power-up adds a second muzzle.

Enemies swim in from the right:
- Angler1 and Angler2;
- the LuckyFish, which grants the power-up on contact;
- the HiveWhale, which releases three Drones when shot down.

Hits take lives and throw out gear particles. Kills score points. The game
ends at 10 points or after 25 seconds.

The model keeps the program's shape:

- `Entities` (entities.dfy): the value objects.
  - Projectile, Particle, the enemy variants with their stats, and a background Layer.
  - Each one's `update` step, the spawner's probability bands, and `checkCollision`.
- `Players` (player.dfy): the player.
  - `PlayerState` is the value of the player's fields; `Shot`, `PoweredUp` and `Updated` are the operations on values.
  - `class Player` updates its fields in place. Each method is proved to leave `State()` equal to the matching function of the old state.
  - Lemmas state the ammunition, power-up, clamp and projectile-upkeep rules, and an invariant that every operation keeps.
- `GameRules` (game_rules.dfy): one frame of `Game.update` on values.
  - `World` is the game's fields. One function per step: clock, `Player.update`, enemy loop, particle and enemy compaction, spawn timer, background.
  - The enemy loop's body is split into contact and projectile checks, `processDamage` and `processDeletion`.
  - Lemmas give the damage rule, the HiveWhale's spawn, game over as a terminal state, the spawn rule, and what survives a frame.
- `Games` (game.dfy): `class Game`, whose methods update the fields in place.
  - This includes `update` with its `forEach` loops, `processDamage`, `createParticles`, the HiveWhale's spawning loop and `addEnemy`.
  - Each is proved to produce the world its `GameRules` function describes.
- `Seqs` (seqs.dfy): `Map` and `Filter`, standing for an in-place `forEach` update and `Array.prototype.filter`.

`Math.random()` is modelled as a stream `draw: nat -> real` fixed when the
game is made. A counter `drawn` counts the values used so far. Every call in
the source consumes the next value, in the source's order, including calls
whose value only picks a sprite. `checkCollision(this.player, enemy)` uses the
player's box at x 20, 120 × 190.

Some behaviours of the code are easy to misread, and the model keeps each
of them as written:

- A kill is not scored once per enemy. The code adds the enemy's score for
  every overlapping projectile that finds the enemy at `lives <= 0`, as long
  as the game runs. This includes an enemy already killed earlier in the same
  frame, by contact or by another projectile. `GameRules.KillScores` and
  `GameRules.ScoredTwice` state it.
- A particle is deleted when, below y = 400, its reflected and halved
  vertical speed is greater than -5. That is a downward speed under 10 before
  the bounce, as `Entities.ParticleBounce` states.
- An enemy's `x` changes by `speedX - game.speed`. Speeds are negative, so
  enemies drift left faster than their own speed (`Entities.EnemyDrift`).
- Contact with a non-lucky enemy costs a point even after game over, so the
  score can still fall once the game has ended (`GameRules.ContactRule` has
  no game-over condition).
- A frame ends the game only when the clock passes 25000 or a projectile kill
  brings the score to 10. A later contact in the same frame may bring the
  score back under 10 (`GameRules.ClockRule`).

Marking for deletion and removal are separate steps in the code, and the model
keeps both:
- A projectile that hits is only marked. It can still hit later enemies in
  the same frame, and the next `Player.update` drops it.
- Drones pushed during the enemy loop are not visited that frame. The
  enemies' filter keeps them.

## Model

| member | source | states |
|---|---|---|
| Seqs.Filter | js/script.js:144 | the result holds exactly the elements that satisfy the predicate, and is no longer than the input |
| Seqs.FilterCounts | js/script.js:144 | every element that satisfies the predicate survives as many times as it occurs in the input, and no other element survives |
| Seqs.FilterKeepsOrder | js/script.js:144 | filtering only deletes elements: the survivors keep their relative order |
| Seqs.FilterAfterMap | js/script.js:141-144 | updating every element and then filtering equals filtering by the pre-image predicate and then updating |
| Entities.CollisionIsInteriorOverlap | js/script.js:498-505 | for boxes of positive size, the four strict inequalities hold exactly when the boxes share an interior point |
| Entities.CollisionSymmetric | js/script.js:498-505 | `checkCollision(a, b) == checkCollision(b, a)` |
| Entities.TouchingBoxesDoNotCollide | js/script.js:498-505 | boxes that only share an edge do not collide |
| Entities.NewParticle | js/script.js:55-71 | a new particle is unmarked, at the given point, with horizontal speed in [-3,3) and vertical speed in (-15,0] for draws in [0,1) |
| Entities.ParticleBounce | js/script.js:73-87 | above the floor a particle only gains gravity and is not deleted; below it, it is deleted exactly when its downward speed after gravity is under 10, and otherwise bounces up at speed at least 5 |
| Entities.VariantStats | js/script.js:281-367 | every variant starts with positive lives and score; the score equals the lives except for the LuckyFish, which is worth 15; only the LuckyFish is tagged "lucky" |
| Entities.EnemyDrift | js/script.js:229-238 | a left-moving enemy drifts at least the game speed per frame, keeps its size, lives and score, and is marked exactly when already marked or wholly left of the field |
| Entities.NewEnemy | js/script.js:216-337 | a spawned enemy of a non-Drone variant starts at the right edge, unmarked, with its variant's lives and score |
| Entities.SpawnedEnemyInField | js/script.js:216-337 | with draws in [0,1), a spawned enemy lies fully within the field's height and moves left |
| Entities.NewDrone | js/script.js:353-367 | a Drone starts at the given point, unmarked, with 3 lives and score 3 |
| Entities.ChooseVariant | js/script.js:484-496 | the spawner never chooses a Drone |
| Entities.SpawnBands | js/script.js:484-496 | for a draw in [0,1): Angler1 iff below 0.3, Angler2 iff in [0.3,0.6), HiveWhale iff in [0.6,0.8), LuckyFish iff at least 0.8 |
| Entities.LayerStaysInWindow | js/script.js:381-387 | a layer's offset stays between one step past a full image width to the left and 0 |
| Players.InitialInvariant | js/script.js:99-119 | the initial player has a full clip, no power-up, and lies inside the clamp band |
| Players.ShootSpendsOneAmmo | js/script.js:186-205 | without ammo `shoot` changes nothing; otherwise exactly one ammo is spent and one projectile (two when powered up) is appended at the muzzles, with nothing else changed |
| Players.ShootKeepsInvariant | js/script.js:186-205 | shooting keeps 0 <= ammo <= 20, the power-up timer rule, the clamp and the projectile bounds |
| Players.ShootRepeatedly | js/script.js:186-201 | n shots without power-up and with at least n ammo spend exactly n ammo and append n projectiles behind the old ones |
| Players.FullClipScenario | js/script.js:186-201 | from the initial state, twenty shots empty the clip and create twenty projectiles; a twenty-first shot changes nothing |
| Players.PowerUpKeepsInvariant | js/script.js:207-212 | `enterPowerUp` sets the power-up, restarts its timer, fills the clip and keeps the invariant |
| Players.PowerUpExpiry | js/script.js:162-171 | `update` ends an active power-up exactly when its timer is past 10000, resetting the timer; otherwise the timer grows by the frame time; an inactive power-up is untouched |
| Players.PowerUpLasts | js/script.js:162-171 | while the timer stays within the limit, n updates keep the power-up on and add n frame times to its timer |
| Players.AmmoRegeneration | js/script.js:146-154 | an update adds one ammo exactly when the timer is past 500 and the clip is not full; the timer restarts from 0 past the interval whether or not ammo was added, otherwise it grows by the frame time |
| Players.SurvivorsAreMovedStayers | js/script.js:140-144 | the projectiles after an update are exactly the unmarked ones whose move keeps them within 80% of the field width, each moved right by 3, in order |
| Players.SurvivorsInField | js/script.js:140-144 | every surviving projectile is unmarked, within 80% of the field width, and the moved form of an old projectile; survivors keep their order |
| Players.UpdateKeepsInvariant | js/script.js:121-171 | `update` keeps the invariant; the up key never moves the player down, down alone never moves it up, no key keeps it still |
| Players.Player.constructor | js/script.js:99-119 | a new player holds the initial state and satisfies the invariant |
| Players.Player.Update | js/script.js:121-174 | the fields become `Updated(old state)` and the invariant is kept |
| Players.Player.Move | js/script.js:122-138 | the vertical speed is chosen from the keys by the clamp rule and added to `y` |
| Players.Player.UpdateProjectiles | js/script.js:140-144 | the projectile list becomes the moved, unmarked survivors |
| Players.Player.RegenerateAmmo | js/script.js:146-154 | ammo and its timer follow the regeneration rule |
| Players.Player.TickPowerUp | js/script.js:162-171 | the power-up flag and timer follow the expiry rule |
| Players.Player.AdvanceEach | js/script.js:141-143 | the `forEach` loop moves every projectile in place, keeping positions in the list |
| Players.Player.Shoot | js/script.js:186-196 | the fields become `Shot(old state)` and the invariant is kept |
| Players.Player.ShootTop | js/script.js:198-201 | one projectile is appended at the upper muzzle and one ammo spent |
| Players.Player.ShootBottom | js/script.js:203-205 | one projectile is appended at the lower muzzle |
| Players.Player.EnterPowerUp | js/script.js:207-212 | the fields become `PoweredUp(old state)` and the invariant is kept |
| GameRules.NewParticles | js/script.js:252-260 | the particle loop creates exactly `count` unmarked particles at the enemy's centre |
| GameRules.ParticlesGrow | js/script.js:255-257 | each turn of the particle loop appends one particle, built from the next six draws |
| GameRules.Brood | js/script.js:341-348 | the spawning loop creates exactly the requested number of Drones, each with 3 lives and score 3, unmarked |
| GameRules.BroodGrows | js/script.js:341-348 | each turn of the spawning loop appends one Drone, built from the next five draws |
| GameRules.BroodInsideWhale | js/script.js:341-348 | with draws in [0,1), every Drone starts inside the whale's box: x in [x, x+width), y in [y, y+height) |
| GameRules.ProcessDeletion | js/script.js:276-278 | deletion never shortens the enemy list |
| GameRules.ProcessDamage | js/script.js:262-274 | damage never shortens the enemy list and never touches the player |
| GameRules.Hurt | js/script.js:262-270 | the lives-and-particles step keeps the number of enemies |
| GameRules.DamageRule | js/script.js:262-278 | contact sets lives to 0 and a projectile takes exactly one; the enemy is marked iff it was marked or its lives are now <= 0; particles grow by the score on death, else by 1, after the old ones; only a dead HiveWhale hit by a projectile adds enemies (three); nothing else changes |
| GameRules.WhaleSpawnsDrones | js/script.js:339-350 | a HiveWhale adds exactly three enemies iff it dies from a projectile; each added one is a fresh Drone (3 lives, score 3) inside the whale's box; otherwise it adds none |
| GameRules.Moved | js/script.js:517 | moving an enemy keeps the number of enemies |
| GameRules.Contact | js/script.js:518-526 | contact never shortens the enemy list |
| GameRules.ContactRule | js/script.js:518-526 | on overlap the LuckyFish powers the player up with a full clip and no penalty, any other enemy costs one point; the enemy ends with 0 lives, marked; without overlap nothing changes |
| GameRules.ContactKeeps | js/script.js:518-526 | contact changes only the touched enemy, lowers the score by at most one, can only power the player up, and never changes game over, the clocks or the background |
| GameRules.HitCheck | js/script.js:528-541 | a projectile check never shortens the enemy list nor changes the number of projectiles |
| GameRules.HitCheckKeeps | js/script.js:528-541 | a projectile check changes only the hit enemy (plus appended fresh Drones) and marks projectiles only; the score rises only before game over and does not change after it; the game ends only at the winning score; game over is never undone |
| GameRules.KillScores | js/script.js:528-541 | a projectile that finishes an enemy with at most one life before game over adds the enemy's full score, is marked, and ends the game iff the winning score is reached |
| GameRules.ScoredTwice | js/script.js:527-542 | two projectiles overlapping a one-life enemy both add its score in the same frame |
| GameRules.ProjectilePass | js/script.js:527-542 | the inner loop never shortens the enemy list |
| GameRules.ProjectilePassKeeps | js/script.js:527-542 | the inner loop changes only the visited enemy (plus appended Drones), only marks projectiles, keeps the clocks, never undoes game over, leaves the score alone after it, and ends a running game only with the score at least 10 |
| GameRules.VisitEnemy | js/script.js:516-543 | one turn of the enemy loop never shortens the enemy list |
| GameRules.VisitEnemyKeeps | js/script.js:516-543 | one turn changes only the visited enemy (plus appended fresh Drones), only marks projectiles, keeps the clocks, never undoes game over nor scores after it, ends a running game only with the score at least 10, and keeps the player's invariant |
| GameRules.EnemyPassKeeps | js/script.js:516-543 | the enemy loop leaves entries it has not reached unchanged, appends only fresh Drones, only marks projectiles, keeps the clocks, game over and the player's invariant |
| GameRules.EnemyPassEndsOnlyByWin | js/script.js:516-543 | if the enemy loop ends a running game, there is a visit before which the game was running and after which it is over with the score at least 10 |
| GameRules.FoughtKeeps | js/script.js:508-543 | the same facts for the enemy loop of a whole frame |
| GameRules.AddEnemy | js/script.js:484-496 | exactly one enemy is appended behind the old ones: of the band's variant, never a Drone, at the right edge, with its variant's lives, unmarked; nothing else but the draw counter changes |
| GameRules.SpawnTick | js/script.js:551-556 | past the interval and before game over one non-Drone enemy is appended and the timer restarts from 0; otherwise the timer grows by the frame time and no enemy is added; nothing else changes |
| GameRules.GameOverIsTerminal | js/script.js:507-560 | once the game is over, a frame keeps it over, stops the clock and cannot raise the score |
| GameRules.ClockRule | js/script.js:507-543 | before game over a frame advances the clock by the frame time; the clock step ends the game exactly when the time passes 25000; a frame that does not pass it ends the game only through a visit of the enemy loop that brings the score to at least 10 |
| GameRules.SpawnRule | js/script.js:545-556 | the spawn timer restarts exactly when a (non-Drone) enemy is appended, which happens only before game over; after a frame no marked enemy or particle remains |
| GameRules.DronesSurviveFrame | js/script.js:516-550 | Drones appended during the enemy loop are not visited and survive the enemies' filter; the filter keeps the order |
| GameRules.HitProjectilesStayUntilNextUpdate | js/script.js:527-531 | during a frame hit projectiles are only marked, none moved or removed; at the next player update no marked projectile's moved self is among the survivors |
| GameRules.InitialWorldInvariant | js/script.js:463-482 | the initial game satisfies the player invariant and the background scroll window |
| GameRules.FrameKeepsInvariant | js/script.js:507-560 | a frame keeps the player invariant and every layer's scroll window |
| Games.Game.constructor | js/script.js:463-482 | a new game holds the initial world and is valid |
| Games.Game.Random | js/script.js:485 | one `Math.random()` call returns the next value of the stream |
| Games.Game.MakeParticle | js/script.js:55-71 | the particle constructor uses six draws, in order, and yields `ParticleAt` of the first |
| Games.Game.CreateParticles | js/script.js:252-260 | the loop returns `NewParticles` for the enemy's burst size and uses six draws per particle |
| Games.Game.MakeDrone | js/script.js:353-367 | the Drone constructor uses three draws and yields `NewDrone` |
| Games.Game.SpawnDrone | js/script.js:343-347 | one turn of the spawning loop yields `DroneAt` and uses five draws |
| Games.Game.SpawnDrones | js/script.js:341-348 | the spawning loop returns `Brood` of three Drones |
| Games.Game.ProcessDeletion | js/script.js:339-350 | the fields become `ProcessDeletion(old world)` |
| Games.Game.ProcessDamage | js/script.js:262-274 | the fields become `ProcessDamage(old world)` |
| Games.Game.TakeDamage | js/script.js:262-270 | the fields become `Hurt(old world)` |
| Games.Game.CheckProjectile | js/script.js:528-541 | the fields become `HitCheck(old world)` |
| Games.Game.ContactPlayer | js/script.js:518-526 | the fields become `Contact(old world)` |
| Games.Game.CheckProjectiles | js/script.js:527-542 | the inner `forEach` leaves the fields at `ProjectilePass(old world)` |
| Games.Game.UpdateEnemy | js/script.js:516-543 | the fields become `VisitEnemy(old world)` and the game stays valid |
| Games.Game.UpdateEnemies | js/script.js:516-543 | the enemy `forEach`, over the length at its start, leaves the fields at `EnemyPass(old world)` and the game valid |
| Games.Game.AdvanceClock | js/script.js:508-513 | the fields become `Clocked(old world)` |
| Games.Game.UpdateParticles | js/script.js:545-548 | the particles become the updated, unmarked ones |
| Games.Game.AddEnemy | js/script.js:484-496 | the fields become `AddEnemy(old world)` |
| Games.Game.SpawnTick | js/script.js:551-556 | the fields become `SpawnTick(old world)` |
| Games.Game.UpdateBackground | js/script.js:558-559 | every layer and then layer 4 takes its scroll step |
| Games.Game.Update | js/script.js:507-560 | the fields become `Frame(old world)` and the game stays valid |

## Left out

- Canvas setup, image lookups, every `draw` method and the `UI` class are rendering only. The UI's win message compares `score > winningScore` while the game ends at `>=`; that is display only.
- `InputHandler` is left out. The held keys are a `set<Key>` parameter of `update`; a set is enough because the source only asks `keys.includes`. The space bar becomes a direct call of `Player.Shoot`, and the debug toggle is not modelled.
- The `requestAnimationFrame` loop and the computation of `deltaTime` from timestamps are left out; `deltaTime` is a parameter.
- Sprite counters (`frameX`, `frameY`, `maxFrame`) and a particle's sprite cell and size (including `toFixed(1)`) are left out. Their `Math.random()` draws are still consumed in order.
- `Math.random()` is a stream of values fixed when the game is made. Lemmas that need draws in [0,1) assume it of the stream.
- Floating point is exact `real` arithmetic; IEEE rounding is not modelled.
- Projectiles, particles, enemies and layers are values held in the owner's sequence, not objects. Each is owned by exactly one list and never shared, so updating an object in place becomes replacing its element. Object identity is not modelled.
- The `Background` object is folded into the game. Its three layers are a sequence field and layer 4 a separate field, as in the source's `layers` array and `layer4` property.
- The game's width and height are the constants 1500 and 500 set on the canvas, not constructor parameters.
- The `game` back-references of entities are left out; the constants they read are module constants.
