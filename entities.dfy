/** The game's small entities: projectiles, particles, enemies and background
    layers. Each is owned by exactly one list of its owner and is never shared,
    so it is modelled as a value; its per-frame `update` is a function from the
    old value to the new one. */
module Entities {

  /** The play field: the game is built on the 1500 x 500 canvas. */
  const FieldWidth: real := 1500.0
  const FieldHeight: real := 500.0

  /** The global scroll speed `game.speed`. */
  const GameSpeed: real := 2.0

  datatype Option<T> = None | Some(value: T)

  // ---------------------------------------------------------------------------
  // Collision boxes

  datatype Box = Box(x: real, y: real, width: real, height: real)

  /** `Game.checkCollision`: the two boxes overlap, every comparison strict. */
  predicate CheckCollision(r1: Box, r2: Box)
  {
    && r1.x < r2.x + r2.width
    && r1.x + r1.width > r2.x
    && r1.y < r2.y + r2.height
    && r1.height + r1.y > r2.y
  }

  /** The point lies strictly inside the box. */
  ghost predicate Inside(b: Box, px: real, py: real)
  {
    b.x < px < b.x + b.width && b.y < py < b.y + b.height
  }

  /** Reference meaning of an overlap: some point is interior to both boxes. */
  ghost predicate ShareInteriorPoint(a: Box, b: Box)
  {
    exists px: real, py: real :: Inside(a, px, py) && Inside(b, px, py)
  }

  function Max(a: real, b: real): real { if a < b then b else a }
  function Min(a: real, b: real): real { if a < b then a else b }

  /** For boxes of positive size, `checkCollision` holds exactly when the
      boxes share an interior point. */
  lemma CollisionIsInteriorOverlap(a: Box, b: Box)
    requires a.width > 0.0 && a.height > 0.0 && b.width > 0.0 && b.height > 0.0
    ensures CheckCollision(a, b) <==> ShareInteriorPoint(a, b)
  {
    if CheckCollision(a, b) {
      var px := (Max(a.x, b.x) + Min(a.x + a.width, b.x + b.width)) / 2.0;
      var py := (Max(a.y, b.y) + Min(a.y + a.height, b.y + b.height)) / 2.0;
      assert Inside(a, px, py) && Inside(b, px, py);
    }
  }

  /** The test does not depend on the order of its arguments. */
  lemma CollisionSymmetric(a: Box, b: Box)
    ensures CheckCollision(a, b) == CheckCollision(b, a)
  {
  }

  /** Boxes that only share an edge do not collide. */
  lemma TouchingBoxesDoNotCollide(a: Box, b: Box)
    requires a.x + a.width == b.x || b.x + b.width == a.x
          || a.y + a.height == b.y || b.y + b.height == a.y
    ensures !CheckCollision(a, b)
  {
  }

  // ---------------------------------------------------------------------------
  // Projectile

  const ProjectileWidth: real := 10.0
  const ProjectileHeight: real := 3.0
  const ProjectileSpeed: real := 3.0

  datatype Projectile = Projectile(x: real, y: real, markedForDeletion: bool)

  function ProjectileBox(p: Projectile): Box
  {
    Box(p.x, p.y, ProjectileWidth, ProjectileHeight)
  }

  /** `Projectile.update`: move right; past 80% of the field, mark for deletion. */
  function ProjectileStep(p: Projectile): Projectile
  {
    var x := p.x + ProjectileSpeed;
    p.(x := x, markedForDeletion := p.markedForDeletion || x > FieldWidth * 0.8)
  }

  predicate ProjectileLive(p: Projectile) { !p.markedForDeletion }

  // ---------------------------------------------------------------------------
  // Particle (the gears thrown out by a damaged enemy)

  const Gravity: real := 0.5
  const ParticleFloor: real := 400.0

  /** Sprite frame and size are drawing-only and not kept. */
  datatype Particle = Particle(
    x: real, y: real,
    speedX: real, speedY: real,
    angle: real, va: real,
    markedForDeletion: bool)

  /** The `Particle` constructor, given the three random draws it keeps
      (horizontal speed, vertical speed, angular velocity). */
  function NewParticle(x: real, y: real, rSpeedX: real, rSpeedY: real, rVa: real): (p: Particle)
    ensures p.x == x && p.y == y && !p.markedForDeletion
    ensures 0.0 <= rSpeedX < 1.0 ==> -3.0 <= p.speedX < 3.0
    ensures 0.0 <= rSpeedY < 1.0 ==> -15.0 < p.speedY <= 0.0
  {
    Particle(x, y, rSpeedX * 6.0 - 3.0, rSpeedY * -15.0, 0.0, rVa * 0.2, false)
  }

  /** `Particle.update`: spin, fall, drift left; below the floor the vertical
      speed is reflected and halved, and a weak bounce deletes the particle. */
  function ParticleStep(p: Particle): Particle
  {
    var vy := p.speedY + Gravity;
    var below := p.y > ParticleFloor;
    var speedY := if below then -vy * 0.5 else vy;
    p.(angle := p.angle + p.va,
       speedY := speedY,
       x := p.x - p.speedX,
       y := p.y + speedY,
       markedForDeletion := p.markedForDeletion || (below && speedY > -5.0))
  }

  predicate ParticleLive(p: Particle) { !p.markedForDeletion }

  /** Above the floor a particle only accelerates downwards and is never
      deleted by this step; below it, it is deleted exactly when it hits the
      floor with a (gravity-adjusted) speed under 10, and otherwise bounces up. */
  lemma ParticleBounce(p: Particle)
    ensures var q := ParticleStep(p);
      && (p.y <= ParticleFloor ==> q.speedY == p.speedY + Gravity && q.markedForDeletion == p.markedForDeletion)
      && (p.y > ParticleFloor ==> (q.markedForDeletion <==> p.markedForDeletion || p.speedY + Gravity < 10.0))
      && (p.y > ParticleFloor && p.speedY + Gravity >= 10.0 ==> q.speedY <= -5.0)
  {
  }

  // ---------------------------------------------------------------------------
  // Enemy variants

  datatype Variant = Angler1 | Angler2 | LuckyFish | HiveWhale | Drone

  /** The `lives` each variant's constructor sets. */
  function InitialLives(v: Variant): int
  {
    match v
    case Angler1 => 2
    case Angler2 => 3
    case LuckyFish => 3
    case HiveWhale => 15
    case Drone => 3
  }

  /** The `score` each variant's constructor sets. */
  function ScoreValue(v: Variant): nat
  {
    match v
    case Angler1 => 2
    case Angler2 => 3
    case LuckyFish => 15
    case HiveWhale => 15
    case Drone => 3
  }

  /** The `type` property; the anglers leave it undefined. */
  function TypeTag(v: Variant): Option<string>
  {
    match v
    case Angler1 => None
    case Angler2 => None
    case LuckyFish => Some("lucky")
    case HiveWhale => Some("hivewhale")
    case Drone => Some("drone")
  }

  function EnemyWidth(v: Variant): real
  {
    match v
    case Angler1 => 228.0
    case Angler2 => 213.0
    case LuckyFish => 99.0
    case HiveWhale => 400.0
    case Drone => 115.0
  }

  function EnemyHeight(v: Variant): real
  {
    match v
    case Angler1 => 169.0
    case Angler2 => 165.0
    case LuckyFish => 95.0
    case HiveWhale => 227.0
    case Drone => 95.0
  }

  /** Every variant starts alive; its score is its lives except for the
      LuckyFish, which is worth 15; only the LuckyFish is tagged "lucky". */
  lemma VariantStats(v: Variant)
    ensures InitialLives(v) > 0 && ScoreValue(v) > 0
    ensures v != LuckyFish ==> ScoreValue(v) == InitialLives(v)
    ensures v == LuckyFish ==> ScoreValue(v) == 15
    ensures TypeTag(v) == Some("lucky") <==> v == LuckyFish
  {
  }

  /** An enemy; its box size is fixed by its variant. */
  datatype Enemy = Enemy(
    variant: Variant,
    x: real, y: real,
    speedX: real,
    lives: int,
    score: nat,
    markedForDeletion: bool)

  function EnemyBox(e: Enemy): Box
  {
    Box(e.x, e.y, EnemyWidth(e.variant), EnemyHeight(e.variant))
  }

  /** `Enemy.update`: move by the own speed minus the scroll speed; once fully
      past the left edge, mark for deletion. */
  function EnemyStep(e: Enemy): Enemy
  {
    var x := e.x + e.speedX - GameSpeed;
    e.(x := x, markedForDeletion := e.markedForDeletion || x + EnemyWidth(e.variant) < 0.0)
  }

  predicate EnemyLive(e: Enemy) { !e.markedForDeletion }

  /** An enemy moving left (every one the game creates does) drifts at least
      the scroll speed per frame and keeps its size, lives and score; it is
      marked exactly when it was already marked or is now wholly left of the
      field. */
  lemma EnemyDrift(e: Enemy)
    requires e.speedX <= 0.0
    ensures var q := EnemyStep(e);
      && q.x <= e.x - GameSpeed && q.y == e.y
      && q.variant == e.variant && q.lives == e.lives && q.score == e.score
      && (q.markedForDeletion <==> e.markedForDeletion || q.x + EnemyWidth(e.variant) < 0.0)
  {
  }

  /** The constructors of the four spawnable variants. `r1` is the base
      constructor's speed draw; `r2` and `r3` are the variant constructor's
      two draws (vertical position, then sprite row, or for the HiveWhale its
      own speed). */
  function NewEnemy(v: Variant, r1: real, r2: real, r3: real): (e: Enemy)
    requires v != Drone
    ensures e.variant == v && e.x == FieldWidth && !e.markedForDeletion
    ensures e.lives == InitialLives(v) && e.score == ScoreValue(v)
  {
    if v == HiveWhale then
      Enemy(v, FieldWidth, r2 * (FieldHeight * 0.95 - EnemyHeight(v)), r3 * -1.2 - 0.2,
            InitialLives(v), ScoreValue(v), false)
    else
      Enemy(v, FieldWidth, r2 * (FieldHeight * 0.9 - EnemyHeight(v)), r1 * -1.5 - 0.5,
            InitialLives(v), ScoreValue(v), false)
  }

  /** With draws in [0,1), a spawned enemy starts fully inside the field's
      height and moves left. */
  lemma SpawnedEnemyInField(v: Variant, r1: real, r2: real, r3: real)
    requires v != Drone
    requires 0.0 <= r1 < 1.0 && 0.0 <= r2 < 1.0 && 0.0 <= r3 < 1.0
    ensures var e := NewEnemy(v, r1, r2, r3);
      0.0 <= e.y && e.y + EnemyHeight(v) <= FieldHeight && e.speedX < 0.0
  {
  }

  /** The `Drone` constructor at the given point; `r1` and `r2` are the base
      speed and sprite-row draws, both overridden, `r3` its own speed draw. */
  function NewDrone(x: real, y: real, r1: real, r2: real, r3: real): (e: Enemy)
    ensures e.variant == Drone && e.x == x && e.y == y && !e.markedForDeletion
    ensures e.lives == 3 && e.score == 3
  {
    Enemy(Drone, x, y, r3 * -4.2 - 0.5, InitialLives(Drone), ScoreValue(Drone), false)
  }

  /** `Game.addEnemy`'s choice of variant from one uniform draw. */
  function ChooseVariant(r: real): (v: Variant)
    ensures v != Drone
  {
    if r < 0.3 then Angler1
    else if r < 0.6 then Angler2
    else if r < 0.8 then HiveWhale
    else LuckyFish
  }

  /** The four probability bands of the spawner. */
  lemma SpawnBands(r: real)
    requires 0.0 <= r < 1.0
    ensures ChooseVariant(r) == Angler1 <==> r < 0.3
    ensures ChooseVariant(r) == Angler2 <==> 0.3 <= r < 0.6
    ensures ChooseVariant(r) == HiveWhale <==> 0.6 <= r < 0.8
    ensures ChooseVariant(r) == LuckyFish <==> 0.8 <= r
  {
  }

  // ---------------------------------------------------------------------------
  // Background layer

  const LayerWidth: real := 1768.0

  datatype Layer = Layer(x: real, speedModifier: real)

  /** `Layer.update`: scroll left at its share of the game speed; once a full
      image width has gone by, jump back to 0. */
  function LayerStep(l: Layer): Layer
  {
    if l.x <= -LayerWidth then l.(x := 0.0)
    else l.(x := l.x - GameSpeed * l.speedModifier)
  }

  /** The offsets a layer can take: never right of 0 and never more than one
      step past a full image width. */
  ghost predicate InScrollWindow(l: Layer)
  {
    0.0 <= l.speedModifier && -LayerWidth - GameSpeed * l.speedModifier < l.x <= 0.0
  }

  lemma LayerStaysInWindow(l: Layer)
    requires InScrollWindow(l)
    ensures InScrollWindow(LayerStep(l))
    ensures LayerStep(l).speedModifier == l.speedModifier
    ensures LayerStep(l).x == 0.0 || LayerStep(l).x <= l.x
  {
  }
}
