/** The rules of one frame of the game, on values. `World` is the value of
    the game object's fields (with the player's); the functions below give the
    world each step of `Game.update` produces, in the source's order, and the
    lemmas state what the steps guarantee. `Math.random()` is the stream
    `draw(0), draw(1), ...`; `World.drawn` counts the values used so far. */
module GameRules {
  import opened Seqs
  import opened Entities
  import opened Players

  const EnemyInterval: real := 1000.0
  const WinningScore: int := 10
  const TimeLimit: real := 25000.0

  /** Random values drawn by one `Particle`, one `Drone` spawned by a dying
      HiveWhale (its two coordinates and its constructor's three), and one
      `addEnemy` (the band, then the constructor's three). */
  const DrawsPerParticle: nat := 6
  const DrawsPerDrone: nat := 5
  const DrawsPerSpawn: nat := 4
  const DronesPerWhale: nat := 3

  /** What hit an enemy: the player's body or one of its projectiles. */
  datatype Collider = ByPlayer | ByProjectile

  datatype World = World(
    player: PlayerState,
    enemies: seq<Enemy>,
    particles: seq<Particle>,
    score: int,
    gameTime: real,
    gameOver: bool,
    enemyTimer: real,
    layers: seq<Layer>,   // the background's layers 1 to 3
    layer4: Layer,        // the foreground layer, updated after them
    drawn: nat)

  const InitialWorld: World := World(
    InitialPlayer, [], [], 0, 0.0, false, 0.0,
    [Layer(0.0, 0.3), Layer(0.0, 0.4), Layer(0.0, 1.0)], Layer(0.0, 1.3), 0)

  /** Every value of the stream lies in [0,1), as `Math.random()` promises. */
  ghost predicate UnitDraws(draw: nat -> real)
  {
    forall n :: 0.0 <= draw(n) < 1.0
  }

  // ---------------------------------------------------------------------------
  // Predicates shared by the contracts of the enemy loop

  /** A Drone as its constructor leaves it: never moved, hit or marked. */
  predicate FreshDrone(e: Enemy)
  {
    e.variant == Drone && e.lives == 3 && e.score == 3 && !e.markedForDeletion
  }

  /** The clocks, the spawn timer and the background do not change. */
  predicate SameClocks(w: World, r: World)
  {
    r.gameTime == w.gameTime && r.enemyTimer == w.enemyTimer
    && r.layers == w.layers && r.layer4 == w.layer4
  }

  /** Game over is never undone, and once it is set the score can only fall. */
  predicate ScoreFrozenAfterGameOver(w: World, r: World)
  {
    w.gameOver ==> r.gameOver && r.score <= w.score
  }

  /** Projectiles are neither moved nor removed nor unmarked: at most marked. */
  predicate OnlyMarked(ps: seq<Projectile>, qs: seq<Projectile>)
  {
    |qs| == |ps| &&
    forall j :: 0 <= j < |ps| ==>
      qs[j].x == ps[j].x && qs[j].y == ps[j].y
      && (ps[j].markedForDeletion ==> qs[j].markedForDeletion)
  }

  /** Enemies at positions from `from` on, other than `except`, are unchanged,
      and everything appended behind the old list is a fresh Drone. */
  predicate EnemiesKept(w: World, r: World, from: nat, except: int)
  {
    |r.enemies| >= |w.enemies|
    && (forall k :: from <= k < |w.enemies| && k != except ==> r.enemies[k] == w.enemies[k])
    && (forall k :: |w.enemies| <= k < |r.enemies| ==> FreshDrone(r.enemies[k]))
  }

  // ---------------------------------------------------------------------------
  // Enemy.createParticles

  function CenterX(e: Enemy): real { e.x + EnemyWidth(e.variant) * 0.5 }
  function CenterY(e: Enemy): real { e.y + EnemyHeight(e.variant) * 0.5 }

  /** One particle built from the six draws at `k` (three of them only choose
      its sprite and size). */
  function ParticleAt(x: real, y: real, draw: nat -> real, k: nat): Particle
  {
    NewParticle(x, y, draw(k + 3), draw(k + 4), draw(k + 5))
  }

  /** The `count` particles of the loop in `createParticles`, in order. */
  function NewParticles(x: real, y: real, count: nat, draw: nat -> real, k: nat): (ps: seq<Particle>)
    ensures |ps| == count
    ensures forall p :: p in ps ==> p.x == x && p.y == y && !p.markedForDeletion
  {
    if count == 0 then []
    else [ParticleAt(x, y, draw, k)] + NewParticles(x, y, count - 1, draw, k + DrawsPerParticle)
  }

  /** The particle loop builds its list one particle at a time, at the back. */
  lemma {:induction false} ParticlesGrow(x: real, y: real, count: nat, draw: nat -> real, k: nat)
    ensures NewParticles(x, y, count + 1, draw, k)
         == NewParticles(x, y, count, draw, k) + [ParticleAt(x, y, draw, k + count * DrawsPerParticle)]
  {
    if count > 0 {
      var next := k + DrawsPerParticle;
      ParticlesGrow(x, y, count - 1, draw, next);
      assert next + (count - 1) * DrawsPerParticle == k + count * DrawsPerParticle;
      var first := ParticleAt(x, y, draw, k);
      var rest := NewParticles(x, y, count - 1, draw, next);
      var last := ParticleAt(x, y, draw, k + count * DrawsPerParticle);
      calc {
        NewParticles(x, y, count + 1, draw, k);
        [first] + NewParticles(x, y, count, draw, next);
        [first] + (rest + [last]);
        ([first] + rest) + [last];
      }
    }
  }

  /** How many particles a hit produces: the score on a kill, else one spark. */
  function BurstSize(e: Enemy): nat
  {
    if e.lives <= 0 then e.score else 1
  }

  // ---------------------------------------------------------------------------
  // Enemy.processDeletion and HiveWhale.processDeletion

  /** One Drone placed at a random point of the whale's box. */
  function DroneAt(whale: Enemy, draw: nat -> real, k: nat): Enemy
  {
    NewDrone(whale.x + draw(k) * EnemyWidth(whale.variant),
             whale.y + draw(k + 1) * EnemyHeight(whale.variant),
             draw(k + 2), draw(k + 3), draw(k + 4))
  }

  /** The Drones of the whale's spawning loop, in order. */
  function Brood(whale: Enemy, count: nat, draw: nat -> real, k: nat): (ds: seq<Enemy>)
    ensures |ds| == count
    ensures forall d :: d in ds ==> FreshDrone(d)
  {
    if count == 0 then []
    else [DroneAt(whale, draw, k)] + Brood(whale, count - 1, draw, k + DrawsPerDrone)
  }

  /** The spawning loop builds the brood one Drone at a time, at the back. */
  lemma {:induction false} BroodGrows(whale: Enemy, count: nat, draw: nat -> real, k: nat)
    ensures Brood(whale, count + 1, draw, k)
         == Brood(whale, count, draw, k) + [DroneAt(whale, draw, k + count * DrawsPerDrone)]
  {
    if count > 0 {
      var next := k + DrawsPerDrone;
      BroodGrows(whale, count - 1, draw, next);
      assert next + (count - 1) * DrawsPerDrone == k + count * DrawsPerDrone;
      var first := DroneAt(whale, draw, k);
      var rest := Brood(whale, count - 1, draw, next);
      var last := DroneAt(whale, draw, k + count * DrawsPerDrone);
      calc {
        Brood(whale, count + 1, draw, k);
        [first] + Brood(whale, count, draw, next);
        [first] + (rest + [last]);
        ([first] + rest) + [last];
      }
    }
  }

  /** With draws in [0,1) every Drone starts inside the whale's box. */
  lemma {:induction false} BroodInsideWhale(whale: Enemy, count: nat, draw: nat -> real, k: nat)
    requires UnitDraws(draw)
    ensures forall d :: d in Brood(whale, count, draw, k) ==>
      && whale.x <= d.x < whale.x + EnemyWidth(whale.variant)
      && whale.y <= d.y < whale.y + EnemyHeight(whale.variant)
  {
    if count > 0 {
      BroodInsideWhale(whale, count - 1, draw, k + DrawsPerDrone);
      var d := DroneAt(whale, draw, k);
      assert 0.0 <= draw(k) < 1.0 && 0.0 <= draw(k + 1) < 1.0;
      assert draw(k) * EnemyWidth(whale.variant) < EnemyWidth(whale.variant);
      assert draw(k + 1) * EnemyHeight(whale.variant) < EnemyHeight(whale.variant);
    }
  }

  /** `processDeletion(collider)`: mark the enemy; a HiveWhale finished off by
      a projectile also appends three Drones to the enemy list. */
  function ProcessDeletion(w: World, i: nat, c: Collider, draw: nat -> real): (r: World)
    requires i < |w.enemies|
    ensures |r.enemies| >= |w.enemies|
  {
    var e := w.enemies[i].(markedForDeletion := true);
    var w1 := w.(enemies := w.enemies[i := e]);
    if e.variant == HiveWhale && c == ByProjectile then
      w1.(enemies := w1.enemies + Brood(e, DronesPerWhale, draw, w.drawn),
          drawn := w.drawn + DronesPerWhale * DrawsPerDrone)
    else w1
  }

  // ---------------------------------------------------------------------------
  // Enemy.processDamage

  /** `processDamage(collider)`: contact with the player kills outright, a
      projectile takes one life; the particles are added, and a kill runs
      `processDeletion`. */
  function ProcessDamage(w: World, i: nat, c: Collider, draw: nat -> real): (r: World)
    requires i < |w.enemies|
    ensures |r.enemies| >= |w.enemies| && r.player == w.player
  {
    var w1 := Hurt(w, i, c, draw);
    if w1.enemies[i].lives <= 0 then ProcessDeletion(w1, i, c, draw) else w1
  }

  /** The part of `processDamage` before the deletion check: the lives and
      the particles. */
  function Hurt(w: World, i: nat, c: Collider, draw: nat -> real): (r: World)
    requires i < |w.enemies|
    ensures |r.enemies| == |w.enemies|
  {
    var e := w.enemies[i];
    var hit := e.(lives := if c == ByPlayer then 0 else e.lives - 1);
    var count := BurstSize(hit);
    var sparks := NewParticles(CenterX(hit), CenterY(hit), count, draw, w.drawn);
    w.(enemies := w.enemies[i := hit], particles := w.particles + sparks,
       drawn := w.drawn + count * DrawsPerParticle)
  }

  /** The damage rule: the player's body sets the lives to 0, a projectile
      takes one; a kill marks the enemy and bursts into as many particles as
      the enemy's score, a survived hit gives one particle; only a HiveWhale
      killed by a projectile adds (three) enemies; nothing else changes. */
  lemma DamageRule(w: World, i: nat, c: Collider, draw: nat -> real)
    requires i < |w.enemies|
    ensures var r := ProcessDamage(w, i, c, draw);
      var e := w.enemies[i];
      var lives := if c == ByPlayer then 0 else e.lives - 1;
      var spawns := e.variant == HiveWhale && c == ByProjectile && lives <= 0;
      && |r.enemies| == |w.enemies| + (if spawns then DronesPerWhale else 0)
      && r.enemies[i] == e.(lives := lives, markedForDeletion := e.markedForDeletion || lives <= 0)
      && |r.particles| == |w.particles| + (if lives <= 0 then e.score else 1)
      && r.particles[..|w.particles|] == w.particles
      && EnemiesKept(w, r, 0, i)
      && r.player == w.player && r.score == w.score && r.gameOver == w.gameOver
      && SameClocks(w, r)
  {
  }

  /** A HiveWhale killed by a projectile leaves exactly three Drones, each
      inside its box and worth three lives and three points; killed by the
      player's body it leaves none. */
  lemma WhaleSpawnsDrones(w: World, i: nat, c: Collider, draw: nat -> real)
    requires i < |w.enemies| && w.enemies[i].variant == HiveWhale
    requires UnitDraws(draw)
    ensures var r := ProcessDamage(w, i, c, draw);
      var whale := w.enemies[i];
      && (|r.enemies| == |w.enemies| + 3 <==> c == ByProjectile && whale.lives <= 1)
      && (|r.enemies| == |w.enemies| || |r.enemies| == |w.enemies| + 3)
      && forall k :: |w.enemies| <= k < |r.enemies| ==>
           && FreshDrone(r.enemies[k])
           && whale.x <= r.enemies[k].x < whale.x + EnemyWidth(HiveWhale)
           && whale.y <= r.enemies[k].y < whale.y + EnemyHeight(HiveWhale)
  {
    DamageRule(w, i, c, draw);
    var r := ProcessDamage(w, i, c, draw);
    var whale := w.enemies[i];
    if c == ByProjectile && whale.lives <= 1 {
      var hit := whale.(lives := whale.lives - 1);
      var w1 := w.(enemies := w.enemies[i := hit],
                   particles := w.particles + NewParticles(CenterX(hit), CenterY(hit), BurstSize(hit), draw, w.drawn),
                   drawn := w.drawn + BurstSize(hit) * DrawsPerParticle);
      var dead := hit.(markedForDeletion := true);
      var brood := Brood(dead, DronesPerWhale, draw, w1.drawn);
      assert r.enemies == w.enemies[i := dead] + brood;
      BroodInsideWhale(dead, DronesPerWhale, draw, w1.drawn);
      forall k | |w.enemies| <= k < |r.enemies|
        ensures whale.x <= r.enemies[k].x < whale.x + EnemyWidth(HiveWhale)
        ensures whale.y <= r.enemies[k].y < whale.y + EnemyHeight(HiveWhale)
      {
        assert r.enemies[k] == brood[k - |w.enemies|];
        assert brood[k - |w.enemies|] in brood;
      }
    }
  }

  // ---------------------------------------------------------------------------
  // The body of the enemy loop in Game.update

  /** `enemy.update()` for the enemy at `i`. */
  function Moved(w: World, i: nat): (r: World)
    requires i < |w.enemies|
    ensures |r.enemies| == |w.enemies|
  {
    w.(enemies := w.enemies[i := EnemyStep(w.enemies[i])])
  }

  /** Contact between the player and the enemy at `i`: a LuckyFish powers the
      player up, any other enemy costs one point; either way the enemy takes
      the player's (lethal) damage. */
  function Contact(w: World, i: nat, draw: nat -> real): (r: World)
    requires i < |w.enemies|
    ensures |r.enemies| >= |w.enemies|
  {
    if !CheckCollision(PlayerBox(w.player.y), EnemyBox(w.enemies[i])) then w
    else
      var w1 := if TypeTag(w.enemies[i].variant) == Some("lucky")
                then w.(player := PoweredUp(w.player))
                else w.(score := w.score - 1);
      ProcessDamage(w1, i, ByPlayer, draw)
  }

  /** What contact does: for the LuckyFish a power-up (full ammo) and no
      penalty, for every other enemy a one-point penalty; always the enemy's
      lives drop to 0 and it is marked. Without overlap nothing happens. */
  lemma ContactRule(w: World, i: nat, draw: nat -> real)
    requires i < |w.enemies|
    ensures var r := Contact(w, i, draw);
      var e := w.enemies[i];
      if CheckCollision(PlayerBox(w.player.y), EnemyBox(e)) then
        && r.enemies[i].lives == 0 && r.enemies[i].markedForDeletion
        && (e.variant == LuckyFish ==>
              r.player.powerUp && r.player.ammo == MaxAmmo && r.score == w.score)
        && (e.variant != LuckyFish ==> r.player == w.player && r.score == w.score - 1)
        && |r.enemies| == |w.enemies|
      else r == w
  {
    var e := w.enemies[i];
    if CheckCollision(PlayerBox(w.player.y), EnemyBox(e)) {
      var w1 := if e.variant == LuckyFish then w.(player := PoweredUp(w.player))
                else w.(score := w.score - 1);
      DamageRule(w1, i, ByPlayer, draw);
    }
  }

  /** Contact changes only the enemy at `i`, the score (by at most one point
      down) and the player (a power-up); it never ends the game. */
  lemma ContactKeeps(w: World, i: nat, draw: nat -> real)
    requires i < |w.enemies|
    ensures var r := Contact(w, i, draw);
      && EnemiesKept(w, r, 0, i) && SameClocks(w, r) && r.gameOver == w.gameOver
      && (r.score == w.score || r.score == w.score - 1)
      && (r.player == w.player || r.player == PoweredUp(w.player))
  {
    var e := w.enemies[i];
    if CheckCollision(PlayerBox(w.player.y), EnemyBox(e)) {
      var w1 := if e.variant == LuckyFish then w.(player := PoweredUp(w.player))
                else w.(score := w.score - 1);
      DamageRule(w1, i, ByPlayer, draw);
    }
  }

  /** The projectile at `j` against the enemy at `i`: on overlap the enemy is
      damaged, the projectile marked, and if the enemy is now dead its score
      is added (only while the game is running) and the win is checked. */
  function HitCheck(w: World, i: nat, j: nat, draw: nat -> real): (r: World)
    requires i < |w.enemies| && j < |w.player.projectiles|
    ensures |r.enemies| >= |w.enemies| && |r.player.projectiles| == |w.player.projectiles|
  {
    var p := w.player.projectiles[j];
    if !CheckCollision(ProjectileBox(p), EnemyBox(w.enemies[i])) then w
    else
      var w1 := ProcessDamage(w, i, ByProjectile, draw);
      var ps := w1.player.projectiles[j := p.(markedForDeletion := true)];
      var w2 := w1.(player := w1.player.(projectiles := ps));
      if w2.enemies[i].lives <= 0 then
        var score := if !w2.gameOver then w2.score + w2.enemies[i].score else w2.score;
        w2.(score := score, gameOver := w2.gameOver || score >= WinningScore)
      else w2
  }

  /** A projectile check changes only the enemy at `i` (plus appended Drones)
      and the projectile's mark; it raises the score only while the game runs
      and ends the game only at the winning score. */
  lemma HitCheckKeeps(w: World, i: nat, j: nat, draw: nat -> real)
    requires i < |w.enemies| && j < |w.player.projectiles|
    ensures var r := HitCheck(w, i, j, draw);
      && EnemiesKept(w, r, 0, i) && SameClocks(w, r)
      && ScoreFrozenAfterGameOver(w, r)
      && OnlyMarked(w.player.projectiles, r.player.projectiles)
      && r.player == w.player.(projectiles := r.player.projectiles)
      && (r.score > w.score ==> !w.gameOver)
      && (w.gameOver ==> r.score == w.score)
      && (r.gameOver && !w.gameOver ==> r.score >= WinningScore)
  {
    if CheckCollision(ProjectileBox(w.player.projectiles[j]), EnemyBox(w.enemies[i])) {
      DamageRule(w, i, ByProjectile, draw);
    }
  }

  /** Every kill by a projectile while the game runs scores the enemy's full
      value, even when the enemy was already dead: two projectiles overlapping
      a one-life enemy in the same frame both score. */
  lemma KillScores(w: World, i: nat, j: nat, draw: nat -> real)
    requires i < |w.enemies| && j < |w.player.projectiles|
    requires CheckCollision(ProjectileBox(w.player.projectiles[j]), EnemyBox(w.enemies[i]))
    requires w.enemies[i].lives <= 1 && !w.gameOver
    ensures var r := HitCheck(w, i, j, draw);
      && r.score == w.score + w.enemies[i].score
      && r.player.projectiles[j].markedForDeletion
      && (r.gameOver <==> r.score >= WinningScore)
  {
    DamageRule(w, i, ByProjectile, draw);
  }

  /** The score of one enemy can be counted twice in a frame: two projectiles
      overlapping a one-life enemy both kill it and both add its score. */
  lemma ScoredTwice(w: World, i: nat, j1: nat, j2: nat, draw: nat -> real)
    requires i < |w.enemies| && j1 < |w.player.projectiles| && j2 < |w.player.projectiles| && j1 != j2
    requires CheckCollision(ProjectileBox(w.player.projectiles[j1]), EnemyBox(w.enemies[i]))
    requires CheckCollision(ProjectileBox(w.player.projectiles[j2]), EnemyBox(w.enemies[i]))
    requires w.enemies[i].lives == 1 && !w.gameOver
    requires w.score + w.enemies[i].score < WinningScore
    ensures HitCheck(HitCheck(w, i, j1, draw), i, j2, draw).score == w.score + 2 * w.enemies[i].score
  {
    KillScores(w, i, j1, draw);
    DamageRule(w, i, ByProjectile, draw);
    var h := HitCheck(w, i, j1, draw);
    assert h.player.projectiles[j2] == w.player.projectiles[j2];
    assert EnemyBox(h.enemies[i]) == EnemyBox(w.enemies[i]);
    KillScores(h, i, j2, draw);
  }

  /** The inner `forEach` over the player's projectiles, from `j` on. */
  function ProjectilePass(w: World, i: nat, j: nat, draw: nat -> real): (r: World)
    requires i < |w.enemies| && j <= |w.player.projectiles|
    decreases |w.player.projectiles| - j
    ensures |r.enemies| >= |w.enemies|
  {
    if j == |w.player.projectiles| then w
    else ProjectilePass(HitCheck(w, i, j, draw), i, j + 1, draw)
  }

  /** The inner loop changes only the enemy at `i` (plus appended Drones) and
      the projectiles' marks; once the game is over the score stays put, and
      the loop ends the game only with the score at the winning score. */
  lemma {:induction false} ProjectilePassKeeps(w: World, i: nat, j: nat, draw: nat -> real)
    requires i < |w.enemies| && j <= |w.player.projectiles|
    decreases |w.player.projectiles| - j
    ensures var r := ProjectilePass(w, i, j, draw);
      && EnemiesKept(w, r, 0, i) && SameClocks(w, r)
      && ScoreFrozenAfterGameOver(w, r)
      && (w.gameOver ==> r.score == w.score)
      && (r.gameOver && !w.gameOver ==> r.score >= WinningScore)
      && OnlyMarked(w.player.projectiles, r.player.projectiles)
      && r.player == w.player.(projectiles := r.player.projectiles)
  {
    if j < |w.player.projectiles| {
      var h := HitCheck(w, i, j, draw);
      HitCheckKeeps(w, i, j, draw);
      ProjectilePassKeeps(h, i, j + 1, draw);
    }
  }

  /** One turn of the enemy `forEach`: move, player contact, projectiles. */
  function VisitEnemy(w: World, i: nat, draw: nat -> real): (r: World)
    requires i < |w.enemies|
    ensures |r.enemies| >= |w.enemies|
  {
    var c := Contact(Moved(w, i), i, draw);
    ProjectilePass(c, i, 0, draw)
  }

  /** One turn of the enemy loop changes only the visited enemy (and appends
      Drones), only marks projectiles, keeps the clocks, never undoes game
      over nor scores after it, ends the game only through a kill that brings
      the score to the winning score, and keeps the player's invariant. */
  lemma VisitEnemyKeeps(w: World, i: nat, draw: nat -> real)
    requires i < |w.enemies|
    ensures var r := VisitEnemy(w, i, draw);
      && EnemiesKept(w, r, 0, i) && SameClocks(w, r)
      && ScoreFrozenAfterGameOver(w, r)
      && (r.gameOver && !w.gameOver ==> r.score >= WinningScore)
      && OnlyMarked(w.player.projectiles, r.player.projectiles)
      && (Invariant(w.player) ==> Invariant(r.player))
  {
    var m := Moved(w, i);
    var c := Contact(m, i, draw);
    ContactKeeps(m, i, draw);
    ProjectilePassKeeps(c, i, 0, draw);
    if Invariant(w.player) && c.player != w.player {
      PowerUpKeepsInvariant(w.player);
    }
  }

  /** The enemy `forEach` from position `i` to `n`, the length of the list
      when the loop started: Drones appended meanwhile are not visited. */
  function EnemyPass(w: World, i: nat, n: nat, draw: nat -> real): (r: World)
    requires i <= n <= |w.enemies|
    decreases n - i
  {
    if i == n then w
    else EnemyPass(VisitEnemy(w, i, draw), i + 1, n, draw)
  }

  /** The whole enemy loop: enemies from `n` on are untouched and everything
      appended is a fresh Drone; projectiles are only marked; clocks, game
      over, the score after game over and the player's invariant as above. */
  lemma {:induction false} EnemyPassKeeps(w: World, i: nat, n: nat, draw: nat -> real)
    requires i <= n <= |w.enemies|
    decreases n - i
    ensures var r := EnemyPass(w, i, n, draw);
      && EnemiesKept(w, r, n, -1) && SameClocks(w, r)
      && ScoreFrozenAfterGameOver(w, r)
      && OnlyMarked(w.player.projectiles, r.player.projectiles)
      && (Invariant(w.player) ==> Invariant(r.player))
  {
    if i < n {
      var v := VisitEnemy(w, i, draw);
      VisitEnemyKeeps(w, i, draw);
      EnemyPassKeeps(v, i + 1, n, draw);
    }
  }

  /** The game-over clause of `VisitEnemyKeeps` on its own. */
  lemma VisitEnemyEndsOnlyByWin(w: World, i: nat, draw: nat -> real)
    requires i < |w.enemies|
    ensures var r := VisitEnemy(w, i, draw);
      r.gameOver && !w.gameOver ==> r.score >= WinningScore
  {
    VisitEnemyKeeps(w, i, draw);
  }

  /** In the enemy loop started at `i`, the visit of the enemy at `k` finds
      the game running and leaves it over with the score at least the winning
      score. */
  predicate WinningVisit(w: World, i: nat, k: nat, draw: nat -> real)
    requires i <= k < |w.enemies|
  {
    var before := EnemyPass(w, i, k, draw);
    var after := EnemyPass(w, i, k + 1, draw);
    !before.gameOver && after.gameOver && after.score >= WinningScore
  }

  /** The enemy loop ends a running game only in a winning visit (a later
      contact may lower the score again). */
  lemma {:induction false} EnemyPassEndsOnlyByWin(w: World, i: nat, n: nat, draw: nat -> real)
    requires i <= n <= |w.enemies|
    decreases n - i
    ensures !w.gameOver && EnemyPass(w, i, n, draw).gameOver ==>
      exists k :: i <= k < n && WinningVisit(w, i, k, draw)
  {
    if i < n && !w.gameOver {
      var v := VisitEnemy(w, i, draw);
      VisitEnemyEndsOnlyByWin(w, i, draw);
      assert EnemyPass(w, i, n, draw) == EnemyPass(v, i + 1, n, draw);
      if v.gameOver {
        assert EnemyPass(w, i, i + 1, draw) == EnemyPass(v, i + 1, i + 1, draw);
        assert WinningVisit(w, i, i, draw);
      } else if EnemyPass(v, i + 1, n, draw).gameOver {
        EnemyPassEndsOnlyByWin(v, i + 1, n, draw);
        var k :| i + 1 <= k < n && WinningVisit(v, i + 1, k, draw);
        assert EnemyPass(w, i, k, draw) == EnemyPass(v, i + 1, k, draw);
        assert EnemyPass(w, i, k + 1, draw) == EnemyPass(v, i + 1, k + 1, draw);
        assert WinningVisit(w, i, k, draw);
      }
    }
  }

  // ---------------------------------------------------------------------------
  // The other steps of Game.update

  /** The game clock: it runs only before game over, and passing the time
      limit ends the game. */
  function Clocked(w: World, deltaTime: real): World
  {
    if w.gameOver then w
    else
      var t := w.gameTime + deltaTime;
      w.(gameTime := t, gameOver := t > TimeLimit)
  }

  /** `Game.addEnemy`: one enemy of the variant the band draw selects. */
  function AddEnemy(w: World, draw: nat -> real): (r: World)
    ensures |r.enemies| == |w.enemies| + 1 && r.enemies[..|w.enemies|] == w.enemies
    ensures var e := r.enemies[|w.enemies|];
      && e.variant == ChooseVariant(draw(w.drawn)) && e.variant != Drone
      && e.x == FieldWidth && e.lives == InitialLives(e.variant) && !e.markedForDeletion
    ensures r == w.(enemies := r.enemies, drawn := r.drawn)
  {
    var v := ChooseVariant(draw(w.drawn));
    var e := NewEnemy(v, draw(w.drawn + 1), draw(w.drawn + 2), draw(w.drawn + 3));
    w.(enemies := w.enemies + [e], drawn := w.drawn + DrawsPerSpawn)
  }

  /** The spawn timer: past the interval and before game over, one enemy is
      added and the timer restarts; otherwise the timer grows. */
  function SpawnTick(w: World, deltaTime: real, draw: nat -> real): (r: World)
    ensures var spawn := w.enemyTimer > EnemyInterval && !w.gameOver;
      && r.enemyTimer == (if spawn then 0.0 else w.enemyTimer + deltaTime)
      && |r.enemies| == |w.enemies| + (if spawn then 1 else 0)
      && r.enemies[..|w.enemies|] == w.enemies
      && (spawn ==> r.enemies[|w.enemies|].variant != Drone)
      && r.gameOver == w.gameOver && r.score == w.score && r.player == w.player
      && r.particles == w.particles && r.layers == w.layers && r.layer4 == w.layer4
  {
    if w.enemyTimer > EnemyInterval && !w.gameOver then AddEnemy(w, draw).(enemyTimer := 0.0)
    else w.(enemyTimer := w.enemyTimer + deltaTime)
  }

  /** Steps 1 and 2 of the frame: clock, then `player.update`. */
  function Prepared(w: World, keys: set<Key>, deltaTime: real): World
  {
    var w1 := Clocked(w, deltaTime);
    w1.(player := Updated(w1.player, keys, deltaTime))
  }

  /** Steps 1 to 3 of the frame: clock, player, enemy loop. */
  function Fought(w: World, keys: set<Key>, deltaTime: real, draw: nat -> real): World
  {
    var w2 := Prepared(w, keys, deltaTime);
    EnemyPass(w2, 0, |w2.enemies|, draw)
  }

  /** The enemy loop of a frame, seen from the world before the clock. */
  lemma FoughtKeeps(w: World, keys: set<Key>, deltaTime: real, draw: nat -> real)
    ensures var p := Prepared(w, keys, deltaTime);
      var fo := Fought(w, keys, deltaTime, draw);
      && EnemiesKept(p, fo, |w.enemies|, -1) && SameClocks(p, fo)
      && ScoreFrozenAfterGameOver(p, fo)
      && OnlyMarked(p.player.projectiles, fo.player.projectiles)
      && (Invariant(p.player) ==> Invariant(fo.player))
  {
    var p := Prepared(w, keys, deltaTime);
    EnemyPassKeeps(p, 0, |p.enemies|, draw);
  }

  /** The particles' `forEach` update and filter. */
  function ParticlesUpkept(w: World): World
  {
    w.(particles := Filter(Map(w.particles, ParticleStep), ParticleLive))
  }

  /** The enemies' filter. */
  function EnemiesCompacted(w: World): World
  {
    w.(enemies := Filter(w.enemies, EnemyLive))
  }

  /** `background.update()` followed by `background.layer4.update()`. */
  function Scrolled(w: World): World
  {
    w.(layers := Map(w.layers, LayerStep), layer4 := LayerStep(w.layer4))
  }

  /** `Game.update(deltaTime)` with the keys held during the frame. */
  function Frame(w: World, keys: set<Key>, deltaTime: real, draw: nat -> real): World
  {
    Scrolled(SpawnTick(EnemiesCompacted(ParticlesUpkept(Fought(w, keys, deltaTime, draw))), deltaTime, draw))
  }

  // ---------------------------------------------------------------------------
  // What a frame guarantees

  /** Game over is terminal: once set it stays set, the clock stops, and the
      score can no longer rise (contact penalties still apply). */
  lemma GameOverIsTerminal(w: World, keys: set<Key>, deltaTime: real, draw: nat -> real)
    requires w.gameOver
    ensures Frame(w, keys, deltaTime, draw).gameOver
    ensures Frame(w, keys, deltaTime, draw).gameTime == w.gameTime
    ensures Frame(w, keys, deltaTime, draw).score <= w.score
  {
    FoughtKeeps(w, keys, deltaTime, draw);
  }

  /** Before game over the clock advances by the frame time, and the game
      ends in this frame exactly when the clock passes the time limit or a
      visit of the enemy loop brings the score to the winning score. */
  lemma ClockRule(w: World, keys: set<Key>, deltaTime: real, draw: nat -> real)
    requires !w.gameOver
    ensures Frame(w, keys, deltaTime, draw).gameTime == w.gameTime + deltaTime
    ensures Prepared(w, keys, deltaTime).gameOver <==> w.gameTime + deltaTime > TimeLimit
    ensures w.gameTime + deltaTime > TimeLimit ==> Frame(w, keys, deltaTime, draw).gameOver
    ensures var p := Prepared(w, keys, deltaTime);
      Frame(w, keys, deltaTime, draw).gameOver && w.gameTime + deltaTime <= TimeLimit ==>
        exists k :: 0 <= k < |w.enemies| && WinningVisit(p, 0, k, draw)
  {
    FoughtKeeps(w, keys, deltaTime, draw);
    var p := Prepared(w, keys, deltaTime);
    EnemyPassEndsOnlyByWin(p, 0, |p.enemies|, draw);
    assert Frame(w, keys, deltaTime, draw).gameOver == Fought(w, keys, deltaTime, draw).gameOver;
  }

  /** The spawn timer restarts exactly when a new enemy is appended, which
      happens only before game over and never appends a Drone; after the
      frame no marked enemy or particle is left. */
  lemma SpawnRule(w: World, keys: set<Key>, deltaTime: real, draw: nat -> real)
    ensures var f := Frame(w, keys, deltaTime, draw);
      var kept := Filter(Fought(w, keys, deltaTime, draw).enemies, EnemyLive);
      var spawn := w.enemyTimer > EnemyInterval && !f.gameOver;
      && f.enemyTimer == (if spawn then 0.0 else w.enemyTimer + deltaTime)
      && f.enemies[..|kept|] == kept
      && |f.enemies| == |kept| + (if spawn then 1 else 0)
      && (spawn ==> f.enemies[|kept|].variant != Drone)
      && (forall e :: e in f.enemies ==> !e.markedForDeletion)
      && (forall p :: p in f.particles ==> !p.markedForDeletion)
  {
    FoughtKeeps(w, keys, deltaTime, draw);
    var fo := Fought(w, keys, deltaTime, draw);
    var c := EnemiesCompacted(ParticlesUpkept(fo));
    var f := Frame(w, keys, deltaTime, draw);
    assert f.enemies == SpawnTick(c, deltaTime, draw).enemies;
    forall e | e in f.enemies
      ensures !e.markedForDeletion
    {
      var k :| 0 <= k < |f.enemies| && f.enemies[k] == e;
      if k < |c.enemies| {
        assert e == c.enemies[k];
        assert e in c.enemies;
      }
    }
  }

  /** Drones appended during the enemy loop were not visited in that frame
      (they are as constructed) and survive the enemies' filter; the list
      keeps its order. */
  lemma DronesSurviveFrame(w: World, keys: set<Key>, deltaTime: real, draw: nat -> real)
    ensures var fo := Fought(w, keys, deltaTime, draw);
      && |fo.enemies| >= |w.enemies|
      && (forall k :: |w.enemies| <= k < |fo.enemies| ==>
            FreshDrone(fo.enemies[k]) && fo.enemies[k] in Frame(w, keys, deltaTime, draw).enemies)
      && IsSubsequence(Filter(fo.enemies, EnemyLive), fo.enemies)
  {
    FoughtKeeps(w, keys, deltaTime, draw);
    var fo := Fought(w, keys, deltaTime, draw);
    FilterKeepsOrder(fo.enemies, EnemyLive);
    var kept := Filter(fo.enemies, EnemyLive);
    SpawnRule(w, keys, deltaTime, draw);
    var f := Frame(w, keys, deltaTime, draw);
    forall k | |w.enemies| <= k < |fo.enemies|
      ensures fo.enemies[k] in f.enemies
    {
      assert fo.enemies[k] in fo.enemies;
      assert fo.enemies[k] in kept;
      var m :| 0 <= m < |kept| && kept[m] == fo.enemies[k];
      assert f.enemies[m] == kept[m];
    }
  }

  /** Projectiles that hit an enemy are only marked during the enemy loop; they
      stay in the list (and can hit later enemies) until the next
      `Player.update` drops them. */
  lemma HitProjectilesStayUntilNextUpdate(w: World, keys: set<Key>, deltaTime: real, draw: nat -> real)
    ensures var before := Updated(Clocked(w, deltaTime).player, keys, deltaTime).projectiles;
      var f := Frame(w, keys, deltaTime, draw);
      var fp := f.player.projectiles;
      && OnlyMarked(before, fp)
      && forall j :: 0 <= j < |fp| && fp[j].markedForDeletion ==> ProjectileStep(fp[j]) !in Survivors(fp)
  {
    FoughtKeeps(w, keys, deltaTime, draw);
    var f := Frame(w, keys, deltaTime, draw);
    assert f.player == Fought(w, keys, deltaTime, draw).player;
    SurvivorsInField(f.player.projectiles);
  }

  // ---------------------------------------------------------------------------
  // The invariant of the whole game

  ghost predicate WorldInvariant(w: World)
  {
    && Invariant(w.player)
    && (forall l :: l in w.layers ==> InScrollWindow(l))
    && InScrollWindow(w.layer4)
  }

  lemma InitialWorldInvariant()
    ensures WorldInvariant(InitialWorld)
  {
    InitialInvariant();
  }

  /** A frame keeps the player's ammo, clamp and projectile bounds and the
      background's scroll window. */
  lemma FrameKeepsInvariant(w: World, keys: set<Key>, deltaTime: real, draw: nat -> real)
    requires WorldInvariant(w)
    ensures WorldInvariant(Frame(w, keys, deltaTime, draw))
  {
    UpdateKeepsInvariant(w.player, keys, deltaTime);
    FoughtKeeps(w, keys, deltaTime, draw);
    var fo := Fought(w, keys, deltaTime, draw);
    assert Invariant(fo.player);
    var s := SpawnTick(EnemiesCompacted(ParticlesUpkept(fo)), deltaTime, draw);
    assert s.layers == w.layers && s.layer4 == w.layer4;
    forall l | l in Map(s.layers, LayerStep)
      ensures InScrollWindow(l)
    {
      var k :| 0 <= k < |s.layers| && Map(s.layers, LayerStep)[k] == l;
      assert s.layers[k] in s.layers;
      LayerStaysInWindow(s.layers[k]);
    }
    LayerStaysInWindow(s.layer4);
  }
}
