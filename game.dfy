/** The `Game` object: its fields are updated in place by `update` and the
    methods it calls, each of which is proved to produce the world the
    matching function of `GameRules` describes. The background's layers are
    held here as values. */
module Games {
  import opened Seqs
  import opened Entities
  import opened Players
  import opened GameRules

  class Game {
    const player: Player
    /** The values `Math.random()` returns, in call order. */
    const draw: nat -> real

    var enemies: seq<Enemy>
    var particles: seq<Particle>
    var score: int
    var gameTime: real
    var gameOver: bool
    var enemyTimer: real
    var layers: seq<Layer>
    var layer4: Layer
    /** How many values of `draw` have been used. */
    var drawn: nat

    function Snapshot(): World
      reads this, player
    {
      World(player.State(), enemies, particles, score, gameTime, gameOver,
            enemyTimer, layers, layer4, drawn)
    }

    ghost predicate Valid()
      reads this, player
    {
      WorldInvariant(Snapshot())
    }

    constructor(draw: nat -> real)
      ensures Valid() && fresh(player)
      ensures Snapshot() == InitialWorld && this.draw == draw
    {
      this.draw := draw;
      player := new Player();
      enemies, particles := [], [];
      score, gameTime, gameOver := 0, 0.0, false;
      enemyTimer := 0.0;
      layers := [Layer(0.0, 0.3), Layer(0.0, 0.4), Layer(0.0, 1.0)];
      layer4 := Layer(0.0, 1.3);
      drawn := 0;
      new;
      InitialWorldInvariant();
    }

    /** One call of `Math.random()`. */
    method Random() returns (r: real)
      modifies this`drawn
      ensures r == draw(old(drawn)) && drawn == old(drawn) + 1
    {
      r := draw(drawn);
      drawn := drawn + 1;
    }

    /** `new Particle(game, x, y)`: the first three draws pick the sprite
        cell and size, which the model does not keep. */
    method MakeParticle(x: real, y: real) returns (p: Particle)
      modifies this`drawn
      ensures p == ParticleAt(x, y, draw, old(drawn))
      ensures drawn == old(drawn) + DrawsPerParticle
    {
      var frameX := Random();
      var frameY := Random();
      var sizeModifier := Random();
      var speedX := Random();
      var speedY := Random();
      var va := Random();
      p := NewParticle(x, y, speedX, speedY, va);
    }

    /** `Enemy.createParticles` for the enemy value `e`. */
    method CreateParticles(e: Enemy) returns (ps: seq<Particle>)
      modifies this`drawn
      ensures ps == NewParticles(CenterX(e), CenterY(e), BurstSize(e), draw, old(drawn))
      ensures drawn == old(drawn) + BurstSize(e) * DrawsPerParticle
    {
      var x, y, count := CenterX(e), CenterY(e), BurstSize(e);
      ps := [];
      for i := 0 to count
        invariant drawn == old(drawn) + i * DrawsPerParticle
        invariant ps == NewParticles(x, y, i, draw, old(drawn))
      {
        var p := MakeParticle(x, y);
        ParticlesGrow(x, y, i, draw, old(drawn));
        ps := ps + [p];
      }
    }

    /** `new Drone(game, x, y)`: base speed, sprite row, own speed. */
    method MakeDrone(x: real, y: real) returns (d: Enemy)
      modifies this`drawn
      ensures d == NewDrone(x, y, draw(old(drawn)), draw(old(drawn) + 1), draw(old(drawn) + 2))
      ensures drawn == old(drawn) + 3
    {
      var baseSpeed := Random();
      var frameY := Random();
      var speedX := Random();
      d := NewDrone(x, y, baseSpeed, frameY, speedX);
    }

    /** One turn of the HiveWhale's spawning loop: a Drone at a random point
        of the whale's box. */
    method SpawnDrone(whale: Enemy) returns (d: Enemy)
      modifies this`drawn
      ensures d == DroneAt(whale, draw, old(drawn))
      ensures drawn == old(drawn) + DrawsPerDrone
    {
      var xCoord := Random();
      var yCoord := Random();
      d := MakeDrone(whale.x + xCoord * EnemyWidth(whale.variant),
                     whale.y + yCoord * EnemyHeight(whale.variant));
    }

    /** The HiveWhale's spawning loop: three Drones. */
    method SpawnDrones(whale: Enemy) returns (ds: seq<Enemy>)
      modifies this`drawn
      ensures ds == Brood(whale, DronesPerWhale, draw, old(drawn))
      ensures drawn == old(drawn) + DronesPerWhale * DrawsPerDrone
    {
      ds := [];
      for k := 0 to DronesPerWhale
        invariant drawn == old(drawn) + k * DrawsPerDrone
        invariant ds == Brood(whale, k, draw, old(drawn))
      {
        var d := SpawnDrone(whale);
        BroodGrows(whale, k, draw, old(drawn));
        ds := ds + [d];
      }
    }

    /** `processDeletion(collider)` of the enemy at `i`, with the HiveWhale's
        override. */
    method ProcessDeletion(i: nat, c: Collider)
      requires i < |enemies|
      modifies this`enemies, this`drawn
      ensures Snapshot() == GameRules.ProcessDeletion(old(Snapshot()), i, c, draw)
    {
      var e := enemies[i].(markedForDeletion := true);
      enemies := enemies[i := e];
      if e.variant == HiveWhale && c == ByProjectile {
        var ds := SpawnDrones(e);
        enemies := enemies + ds;
      }
    }

    /** `processDamage(collider)` of the enemy at `i`. */
    method ProcessDamage(i: nat, c: Collider)
      requires i < |enemies|
      modifies this`enemies, this`particles, this`drawn
      ensures Snapshot() == GameRules.ProcessDamage(old(Snapshot()), i, c, draw)
    {
      TakeDamage(i, c);
      if enemies[i].lives <= 0 {
        ProcessDeletion(i, c);
      }
    }

    /** The lives and particles part of `processDamage`. */
    method TakeDamage(i: nat, c: Collider)
      requires i < |enemies|
      modifies this`enemies, this`particles, this`drawn
      ensures Snapshot() == Hurt(old(Snapshot()), i, c, draw)
    {
      var e := enemies[i];
      if c == ByPlayer {
        e := e.(lives := 0);
      } else {
        e := e.(lives := e.lives - 1);
      }
      enemies := enemies[i := e];
      var sparks := CreateParticles(e);
      particles := particles + sparks;
    }

    /** The body of the inner `forEach`: projectile `j` against enemy `i`. */
    method CheckProjectile(i: nat, j: nat)
      requires i < |enemies| && j < |player.projectiles|
      modifies this`enemies, this`particles, this`drawn, this`score, this`gameOver, player`projectiles
      ensures Snapshot() == HitCheck(old(Snapshot()), i, j, draw)
    {
      var p := player.projectiles[j];
      if CheckCollision(ProjectileBox(p), EnemyBox(enemies[i])) {
        ProcessDamage(i, ByProjectile);
        player.projectiles := player.projectiles[j := p.(markedForDeletion := true)];
        if enemies[i].lives <= 0 {
          if !gameOver {
            score := score + enemies[i].score;
          }
          if score >= WinningScore {
            gameOver := true;
          }
        }
      }
    }

    /** The player-contact part of the enemy `forEach` body. */
    method ContactPlayer(i: nat)
      requires i < |enemies| && Valid()
      modifies this`enemies, this`particles, this`drawn, this`score, player
      ensures Snapshot() == Contact(old(Snapshot()), i, draw)
    {
      if CheckCollision(PlayerBox(player.y), EnemyBox(enemies[i])) {
        if TypeTag(enemies[i].variant) == Some("lucky") {
          player.EnterPowerUp();
        } else {
          score := score - 1;
        }
        ProcessDamage(i, ByPlayer);
      }
    }

    /** The inner `forEach` over the player's projectiles for enemy `i`. */
    method CheckProjectiles(i: nat)
      requires i < |enemies|
      modifies this`enemies, this`particles, this`drawn, this`score, this`gameOver, player`projectiles
      ensures Snapshot() == ProjectilePass(old(Snapshot()), i, 0, draw)
    {
      ghost var w0 := Snapshot();
      var j := 0;
      while j < |player.projectiles|
        invariant i < |enemies| && j <= |player.projectiles|
        invariant ProjectilePass(Snapshot(), i, j, draw) == ProjectilePass(w0, i, 0, draw)
      {
        CheckProjectile(i, j);
        j := j + 1;
      }
    }

    /** The body of the enemy `forEach` for the enemy at `i`. */
    method UpdateEnemy(i: nat)
      requires i < |enemies| && Valid()
      modifies this`enemies, this`particles, this`drawn, this`score, this`gameOver, player
      ensures Valid()
      ensures Snapshot() == VisitEnemy(old(Snapshot()), i, draw)
    {
      enemies := enemies[i := EnemyStep(enemies[i])];
      ContactPlayer(i);
      CheckProjectiles(i);
      VisitEnemyKeeps(old(Snapshot()), i, draw);
    }

    /** The enemy `forEach` of `update`; its length is fixed when it starts. */
    method UpdateEnemies()
      requires Valid()
      modifies this`enemies, this`particles, this`drawn, this`score, this`gameOver, player
      ensures Valid()
      ensures Snapshot() == EnemyPass(old(Snapshot()), 0, old(|enemies|), draw)
    {
      ghost var w0 := Snapshot();
      var n := |enemies|;
      var i := 0;
      while i < n
        invariant i <= n <= |enemies| && Valid()
        invariant EnemyPass(Snapshot(), i, n, draw) == EnemyPass(w0, 0, n, draw)
      {
        UpdateEnemy(i);
        i := i + 1;
      }
    }

    /** The game clock at the head of `update`. */
    method AdvanceClock(deltaTime: real)
      modifies this`gameTime, this`gameOver
      ensures Snapshot() == Clocked(old(Snapshot()), deltaTime)
    {
      if !gameOver {
        gameTime := gameTime + deltaTime;
        if gameTime > TimeLimit {
          gameOver := true;
        }
      }
    }

    /** The particles' `forEach` and `filter`. */
    method UpdateParticles()
      modifies this`particles
      ensures Snapshot() == ParticlesUpkept(old(Snapshot()))
    {
      var i := 0;
      while i < |particles|
        invariant i <= |particles| == |old(particles)|
        invariant forall k :: 0 <= k < i ==> particles[k] == ParticleStep(old(particles)[k])
        invariant forall k :: i <= k < |particles| ==> particles[k] == old(particles)[k]
      {
        particles := particles[i := ParticleStep(particles[i])];
        i := i + 1;
      }
      assert particles == Map(old(particles), ParticleStep);
      particles := Filter(particles, ParticleLive);
    }

    /** `Game.addEnemy`. */
    method AddEnemy()
      modifies this`enemies, this`drawn
      ensures Snapshot() == GameRules.AddEnemy(old(Snapshot()), draw)
    {
      var randomize := Random();
      var v := ChooseVariant(randomize);
      var r1 := Random();
      var r2 := Random();
      var r3 := Random();
      enemies := enemies + [NewEnemy(v, r1, r2, r3)];
    }

    /** The spawn timer of `update`. */
    method SpawnTick(deltaTime: real)
      modifies this`enemies, this`drawn, this`enemyTimer
      ensures Snapshot() == GameRules.SpawnTick(old(Snapshot()), deltaTime, draw)
    {
      if enemyTimer > EnemyInterval && !gameOver {
        AddEnemy();
        enemyTimer := 0.0;
      } else {
        enemyTimer := enemyTimer + deltaTime;
      }
    }

    /** `background.update()` and `background.layer4.update()`. */
    method UpdateBackground()
      modifies this`layers, this`layer4
      ensures Snapshot() == Scrolled(old(Snapshot()))
    {
      var i := 0;
      while i < |layers|
        invariant i <= |layers| == |old(layers)|
        invariant forall k :: 0 <= k < i ==> layers[k] == LayerStep(old(layers)[k])
        invariant forall k :: i <= k < |layers| ==> layers[k] == old(layers)[k]
        invariant layer4 == old(layer4)
      {
        layers := layers[i := LayerStep(layers[i])];
        i := i + 1;
      }
      assert layers == Map(old(layers), LayerStep);
      layer4 := LayerStep(layer4);
    }

    /** `Game.update(deltaTime)` with the keys held during the frame. */
    method Update(deltaTime: real, keys: set<Key>)
      requires Valid()
      modifies this, player
      ensures Valid()
      ensures Snapshot() == Frame(old(Snapshot()), keys, deltaTime, draw)
    {
      ghost var w0 := Snapshot();
      AdvanceClock(deltaTime);
      player.Update(deltaTime, keys);
      assert Snapshot() == Prepared(w0, keys, deltaTime);
      UpdateEnemies();
      assert Snapshot() == Fought(w0, keys, deltaTime, draw);
      UpdateParticles();
      enemies := Filter(enemies, EnemyLive);
      SpawnTick(deltaTime);
      UpdateBackground();
      assert Valid() by { FrameKeepsInvariant(w0, keys, deltaTime, draw); }
    }
  }
}
