/** The player's submarine: vertical movement under the arrow keys, its list
    of projectiles, ammunition with timed regeneration, and the timed
    power-up. `PlayerState` is the value of the object's fields; the pure
    functions below give the new value each operation produces, and the
    `Player` class performs the same operations in place. */
module Players {
  import opened Seqs
  import opened Entities

  const PlayerX: real := 20.0
  const PlayerWidth: real := 120.0
  const PlayerHeight: real := 190.0
  const MaxSpeed: real := 2.0
  const MaxAmmo: int := 20
  const AmmoInterval: real := 500.0
  const PowerUpLimit: real := 10000.0

  /** Where a top and a bottom projectile leave the submarine. */
  const MuzzleX: real := PlayerX + 70.0
  const TopMuzzleY: real := 30.0
  const BottomMuzzleY: real := 175.0

  /** The held keys that steer the player. */
  datatype Key = ArrowUp | ArrowDown

  /** The player's mutable fields (x, width and height never change; the
      sprite frame counters are drawing-only). */
  datatype PlayerState = PlayerState(
    y: real,
    speedY: real,
    projectiles: seq<Projectile>,
    ammo: int,
    ammoTimer: real,
    powerUp: bool,
    powerUpTimer: real)

  const InitialPlayer: PlayerState := PlayerState(100.0, 0.0, [], MaxAmmo, 0.0, false, 0.0)

  function PlayerBox(y: real): Box
  {
    Box(PlayerX, y, PlayerWidth, PlayerHeight)
  }

  // ---------------------------------------------------------------------------
  // The operations on values

  /** The vertical speed chosen from the held keys: up wins over down, and no
      move is made past half the player's height beyond either edge. */
  function Steer(y: real, keys: set<Key>): real
  {
    if ArrowUp in keys then
      (if y > -PlayerHeight * 0.5 then -MaxSpeed else 0.0)
    else if ArrowDown in keys then
      (if y < FieldHeight - PlayerHeight * 0.5 then MaxSpeed else 0.0)
    else 0.0
  }

  /** Every projectile after its own update. */
  function Advance(ps: seq<Projectile>): seq<Projectile>
  {
    Map(ps, ProjectileStep)
  }

  /** The projectile list after `Player.update`: advance all, drop the marked. */
  function Survivors(ps: seq<Projectile>): seq<Projectile>
  {
    Filter(Advance(ps), ProjectileLive)
  }

  /** Ammunition after `update`: one more once the timer has passed the
      interval, unless the clip is full. */
  function AmmoAfter(ammo: int, ammoTimer: real): int
  {
    if ammoTimer > AmmoInterval && ammo < MaxAmmo then ammo + 1 else ammo
  }

  function AmmoTimerAfter(ammoTimer: real, deltaTime: real): real
  {
    if ammoTimer > AmmoInterval then 0.0 else ammoTimer + deltaTime
  }

  /** The power-up flag after `update`: it ends once its timer is past the limit. */
  function PowerUpAfter(powerUp: bool, powerUpTimer: real): bool
  {
    powerUp && powerUpTimer <= PowerUpLimit
  }

  function PowerUpTimerAfter(powerUp: bool, powerUpTimer: real, deltaTime: real): real
  {
    if !powerUp then powerUpTimer
    else if powerUpTimer > PowerUpLimit then 0.0
    else powerUpTimer + deltaTime
  }

  /** `Player.update(deltaTime)`. */
  function Updated(s: PlayerState, keys: set<Key>, deltaTime: real): PlayerState
  {
    var speedY := Steer(s.y, keys);
    PlayerState(s.y + speedY, speedY, Survivors(s.projectiles),
                AmmoAfter(s.ammo, s.ammoTimer), AmmoTimerAfter(s.ammoTimer, deltaTime),
                PowerUpAfter(s.powerUp, s.powerUpTimer),
                PowerUpTimerAfter(s.powerUp, s.powerUpTimer, deltaTime))
  }

  /** `shootTop`: one projectile at the upper muzzle, one ammo spent. */
  function FiredTop(s: PlayerState): PlayerState
  {
    s.(projectiles := s.projectiles + [Projectile(MuzzleX, s.y + TopMuzzleY, false)],
       ammo := s.ammo - 1)
  }

  /** `shootBottom`: one projectile at the lower muzzle, free of charge. */
  function FiredBottom(s: PlayerState): PlayerState
  {
    s.(projectiles := s.projectiles + [Projectile(MuzzleX, s.y + BottomMuzzleY, false)])
  }

  /** `shoot`. */
  function Shot(s: PlayerState): PlayerState
  {
    if s.ammo <= 0 then s
    else
      var t := FiredTop(s);
      if t.powerUp then FiredBottom(t) else t
  }

  /** `enterPowerUp`. */
  function PoweredUp(s: PlayerState): PlayerState
  {
    s.(powerUp := true, powerUpTimer := 0.0, ammo := MaxAmmo)
  }

  /** `shoot` called `n` times in a row. */
  function ShotTimes(s: PlayerState, n: nat): PlayerState
  {
    if n == 0 then s else Shot(ShotTimes(s, n - 1))
  }

  /** `update` called `n` times in a row with the same keys and frame time. */
  function UpdatedTimes(s: PlayerState, keys: set<Key>, deltaTime: real, n: nat): PlayerState
  {
    if n == 0 then s else Updated(UpdatedTimes(s, keys, deltaTime, n - 1), keys, deltaTime)
  }

  // ---------------------------------------------------------------------------
  // The invariant the operations keep

  /** The lowest and highest `y` the clamp lets the player reach. */
  const LowestY: real := -PlayerHeight * 0.5 - MaxSpeed
  const HighestY: real := FieldHeight - PlayerHeight * 0.5 + MaxSpeed

  ghost predicate Invariant(s: PlayerState)
  {
    && 0 <= s.ammo <= MaxAmmo
    && (!s.powerUp ==> s.powerUpTimer == 0.0)
    && LowestY < s.y < HighestY
    && forall p :: p in s.projectiles ==> MuzzleX <= p.x <= FieldWidth * 0.8
  }

  lemma InitialInvariant()
    ensures Invariant(InitialPlayer)
  {
  }

  // ---------------------------------------------------------------------------
  // Shooting

  /** Without ammo `shoot` changes nothing; otherwise it spends exactly one
      ammo and appends one projectile, or two when powered up, and changes
      nothing else. */
  lemma ShootSpendsOneAmmo(s: PlayerState)
    ensures s.ammo <= 0 ==> Shot(s) == s
    ensures s.ammo > 0 ==>
      && Shot(s).ammo == s.ammo - 1
      && Shot(s).projectiles ==
           s.projectiles + [Projectile(MuzzleX, s.y + TopMuzzleY, false)]
           + (if s.powerUp then [Projectile(MuzzleX, s.y + BottomMuzzleY, false)] else [])
      && Shot(s).(projectiles := s.projectiles, ammo := s.ammo) == s
  {
  }

  lemma ShootKeepsInvariant(s: PlayerState)
    requires Invariant(s)
    ensures Invariant(Shot(s))
  {
  }

  /** Shooting `n` times without the power-up, with at least `n` ammo: exactly
      `n` ammo spent and `n` projectiles appended behind the old ones. */
  lemma {:induction false} ShootRepeatedly(s: PlayerState, n: nat)
    requires !s.powerUp && n <= s.ammo
    ensures ShotTimes(s, n).ammo == s.ammo - n
    ensures |ShotTimes(s, n).projectiles| == |s.projectiles| + n
    ensures ShotTimes(s, n).projectiles[..|s.projectiles|] == s.projectiles
    ensures !ShotTimes(s, n).powerUp
  {
    if n > 0 {
      ShootRepeatedly(s, n - 1);
      var t := ShotTimes(s, n - 1);
      assert Shot(t).projectiles == t.projectiles + [Projectile(MuzzleX, t.y + TopMuzzleY, false)];
      assert Shot(t).projectiles[..|s.projectiles|] == t.projectiles[..|s.projectiles|];
    }
  }

  /** From a full clip and no power-up: twenty shots leave no ammo and twenty
      projectiles; a twenty-first shot creates nothing. */
  lemma FullClipScenario()
    ensures ShotTimes(InitialPlayer, 20).ammo == 0
    ensures |ShotTimes(InitialPlayer, 20).projectiles| == 20
    ensures Shot(ShotTimes(InitialPlayer, 20)) == ShotTimes(InitialPlayer, 20)
  {
    ShootRepeatedly(InitialPlayer, 20);
  }

  // ---------------------------------------------------------------------------
  // Power-up

  lemma PowerUpKeepsInvariant(s: PlayerState)
    requires Invariant(s)
    ensures Invariant(PoweredUp(s))
    ensures PoweredUp(s).powerUp && PoweredUp(s).ammo == MaxAmmo && PoweredUp(s).powerUpTimer == 0.0
  {
  }

  /** `update` ends a power-up exactly when its timer has passed the limit,
      resetting the timer; otherwise the timer grows by the frame time. An
      inactive power-up stays inactive and its timer is untouched. */
  lemma PowerUpExpiry(s: PlayerState, keys: set<Key>, deltaTime: real)
    ensures var u := Updated(s, keys, deltaTime);
      && (s.powerUp ==> (u.powerUp <==> s.powerUpTimer <= PowerUpLimit))
      && (s.powerUp && !u.powerUp ==> u.powerUpTimer == 0.0)
      && (u.powerUp ==> u.powerUpTimer == s.powerUpTimer + deltaTime)
      && (!s.powerUp ==> !u.powerUp && u.powerUpTimer == s.powerUpTimer)
  {
  }

  /** One update of a power-up still within its limit keeps it on and adds
      the frame time to its timer. */
  lemma PowerUpTicks(s: PlayerState, keys: set<Key>, deltaTime: real)
    requires s.powerUp && s.powerUpTimer <= PowerUpLimit
    ensures Updated(s, keys, deltaTime).powerUp
    ensures Updated(s, keys, deltaTime).powerUpTimer == s.powerUpTimer + deltaTime
  {
  }

  /** `n` frame times, added up one frame at a time. */
  function FrameTimes(n: nat, deltaTime: real): real
  {
    if n == 0 then 0.0 else FrameTimes(n - 1, deltaTime) + deltaTime
  }

  lemma {:induction false} FrameTimesProduct(n: nat, deltaTime: real)
    ensures FrameTimes(n, deltaTime) == (n as real) * deltaTime
  {
    if n > 0 {
      FrameTimesProduct(n - 1, deltaTime);
    }
  }

  /** `PowerUpLasts` with the elapsed time added up frame by frame. */
  lemma {:induction false} PowerUpLastsFrames(s: PlayerState, keys: set<Key>, deltaTime: real, n: nat)
    requires s.powerUp && deltaTime >= 0.0
    requires s.powerUpTimer + FrameTimes(n, deltaTime) <= PowerUpLimit + deltaTime
    ensures UpdatedTimes(s, keys, deltaTime, n).powerUp
    ensures UpdatedTimes(s, keys, deltaTime, n).powerUpTimer == s.powerUpTimer + FrameTimes(n, deltaTime)
  {
    if n > 0 {
      PowerUpLastsFrames(s, keys, deltaTime, n - 1);
      PowerUpTicks(UpdatedTimes(s, keys, deltaTime, n - 1), keys, deltaTime);
    }
  }

  /** A power-up lasts as long as its timer stays within the limit: after `n`
      updates it is still on and its timer has grown by `n` frame times. */
  lemma PowerUpLasts(s: PlayerState, keys: set<Key>, deltaTime: real, n: nat)
    requires s.powerUp && deltaTime >= 0.0
    requires s.powerUpTimer + (n as real) * deltaTime <= PowerUpLimit + deltaTime
    ensures UpdatedTimes(s, keys, deltaTime, n).powerUp
    ensures UpdatedTimes(s, keys, deltaTime, n).powerUpTimer == s.powerUpTimer + (n as real) * deltaTime
  {
    FrameTimesProduct(n, deltaTime);
    PowerUpLastsFrames(s, keys, deltaTime, n);
  }

  // ---------------------------------------------------------------------------
  // Ammunition

  /** Regeneration adds one ammo only when the timer has passed the interval
      and the clip is not full; the timer then restarts from 0 whether or not
      ammo was added, and otherwise grows by the frame time. */
  lemma AmmoRegeneration(s: PlayerState, keys: set<Key>, deltaTime: real)
    ensures var u := Updated(s, keys, deltaTime);
      && (u.ammo == s.ammo || u.ammo == s.ammo + 1)
      && (u.ammo == s.ammo + 1 <==> s.ammoTimer > AmmoInterval && s.ammo < MaxAmmo)
      && u.ammoTimer == (if s.ammoTimer > AmmoInterval then 0.0 else s.ammoTimer + deltaTime)
  {
  }

  // ---------------------------------------------------------------------------
  // Projectile upkeep

  /** A projectile survives `update` when it was not marked and its move keeps
      it within 80% of the field width. */
  predicate StaysInField(p: Projectile)
  {
    ProjectileLive(ProjectileStep(p))
  }

  /** The survivors are exactly the unmarked projectiles whose move keeps them
      within 80% of the field, each moved right by the projectile speed, in
      their old order. */
  lemma SurvivorsAreMovedStayers(ps: seq<Projectile>)
    ensures Survivors(ps) == Map(Filter(ps, StaysInField), ProjectileStep)
    ensures forall p :: StaysInField(p) <==>
      !p.markedForDeletion && p.x + ProjectileSpeed <= FieldWidth * 0.8
  {
    FilterAfterMap(ps, ProjectileStep, ProjectileLive, StaysInField);
  }

  /** Every survivor is unmarked, within 80% of the field width, and moved
      right by the speed from a projectile of the old list; the survivors keep
      their relative order. */
  lemma SurvivorsInField(ps: seq<Projectile>)
    ensures forall q :: q in Survivors(ps) ==>
      !q.markedForDeletion && q.x <= FieldWidth * 0.8 &&
      exists p :: p in ps && q == ProjectileStep(p)
    ensures IsSubsequence(Survivors(ps), Advance(ps))
  {
    FilterKeepsOrder(Advance(ps), ProjectileLive);
    forall q | q in Survivors(ps)
      ensures exists p :: p in ps && q == ProjectileStep(p)
    {
      var k :| 0 <= k < |Advance(ps)| && Advance(ps)[k] == q;
      assert ps[k] in ps;
    }
  }

  // ---------------------------------------------------------------------------
  // The whole update

  /** Up moves the player up, down moves it down, and neither moves it out of
      the clamp band; `update` keeps the whole invariant. */
  lemma UpdateKeepsInvariant(s: PlayerState, keys: set<Key>, deltaTime: real)
    requires Invariant(s)
    ensures Invariant(Updated(s, keys, deltaTime))
    ensures ArrowUp in keys ==> Updated(s, keys, deltaTime).y <= s.y
    ensures ArrowUp !in keys && ArrowDown in keys ==> Updated(s, keys, deltaTime).y >= s.y
    ensures ArrowUp !in keys && ArrowDown !in keys ==> Updated(s, keys, deltaTime).y == s.y
  {
    SurvivorsInField(s.projectiles);
    var u := Updated(s, keys, deltaTime);
    forall q | q in u.projectiles
      ensures MuzzleX <= q.x <= FieldWidth * 0.8
    {
      var p :| p in s.projectiles && q == ProjectileStep(p);
    }
  }

  // ---------------------------------------------------------------------------
  // The object

  class Player {
    var y: real
    var speedY: real
    var projectiles: seq<Projectile>
    var ammo: int
    var ammoTimer: real
    var powerUp: bool
    var powerUpTimer: real

    function State(): PlayerState
      reads this
    {
      PlayerState(y, speedY, projectiles, ammo, ammoTimer, powerUp, powerUpTimer)
    }

    ghost predicate Valid()
      reads this
    {
      Invariant(State())
    }

    constructor()
      ensures Valid() && State() == InitialPlayer
    {
      y, speedY := 100.0, 0.0;
      projectiles := [];
      ammo, ammoTimer := MaxAmmo, 0.0;
      powerUp, powerUpTimer := false, 0.0;
      InitialInvariant();
    }

    method Update(deltaTime: real, keys: set<Key>)
      requires Valid()
      modifies this
      ensures Valid()
      ensures State() == Updated(old(State()), keys, deltaTime)
    {
      Move(keys);
      UpdateProjectiles();
      RegenerateAmmo(deltaTime);
      TickPowerUp(deltaTime);
      assert Invariant(Updated(old(State()), keys, deltaTime)) by {
        UpdateKeepsInvariant(old(State()), keys, deltaTime);
      }
    }

    /** The movement part of `update`. */
    method Move(keys: set<Key>)
      modifies this`y, this`speedY
      ensures speedY == Steer(old(y), keys) && y == old(y) + speedY
    {
      if ArrowUp in keys {
        if y > -PlayerHeight * 0.5 {
          speedY := -MaxSpeed;
        } else {
          speedY := 0.0;
        }
      } else if ArrowDown in keys {
        if y < FieldHeight - PlayerHeight * 0.5 {
          speedY := MaxSpeed;
        } else {
          speedY := 0.0;
        }
      } else {
        speedY := 0.0;
      }
      y := y + speedY;
    }

    /** The projectile part of `update`: update each, then drop the marked. */
    method UpdateProjectiles()
      modifies this`projectiles
      ensures projectiles == Survivors(old(projectiles))
    {
      var ps := AdvanceEach(projectiles);
      projectiles := Filter(ps, ProjectileLive);
    }

    /** The ammunition part of `update`. */
    method RegenerateAmmo(deltaTime: real)
      modifies this`ammo, this`ammoTimer
      ensures ammo == AmmoAfter(old(ammo), old(ammoTimer))
      ensures ammoTimer == AmmoTimerAfter(old(ammoTimer), deltaTime)
    {
      if ammoTimer > AmmoInterval {
        if ammo < MaxAmmo {
          ammo := ammo + 1;
        }
        ammoTimer := 0.0;
      } else {
        ammoTimer := ammoTimer + deltaTime;
      }
    }

    /** The power-up part of `update`. */
    method TickPowerUp(deltaTime: real)
      modifies this`powerUp, this`powerUpTimer
      ensures powerUp == PowerUpAfter(old(powerUp), old(powerUpTimer))
      ensures powerUpTimer == PowerUpTimerAfter(old(powerUp), old(powerUpTimer), deltaTime)
    {
      if powerUp {
        if powerUpTimer > PowerUpLimit {
          powerUp := false;
          powerUpTimer := 0.0;
        } else {
          powerUpTimer := powerUpTimer + deltaTime;
        }
      }
    }

    /** The `forEach` that updates every projectile in place. */
    static method AdvanceEach(ps0: seq<Projectile>) returns (ps: seq<Projectile>)
      ensures ps == Advance(ps0)
    {
      ps := ps0;
      var i := 0;
      while i < |ps|
        invariant 0 <= i <= |ps| == |ps0|
        invariant forall k :: 0 <= k < i ==> ps[k] == ProjectileStep(ps0[k])
        invariant forall k :: i <= k < |ps| ==> ps[k] == ps0[k]
      {
        ps := ps[i := ProjectileStep(ps[i])];
        i := i + 1;
      }
    }

    method Shoot()
      requires Valid()
      modifies this
      ensures Valid()
      ensures State() == Shot(old(State()))
    {
      if ammo <= 0 {
        return;
      }
      ShootTop();
      if powerUp {
        ShootBottom();
      }
      ShootKeepsInvariant(old(State()));
    }

    method ShootTop()
      modifies this
      ensures State() == FiredTop(old(State()))
    {
      projectiles := projectiles + [Projectile(MuzzleX, y + TopMuzzleY, false)];
      ammo := ammo - 1;
    }

    method ShootBottom()
      modifies this
      ensures State() == FiredBottom(old(State()))
    {
      projectiles := projectiles + [Projectile(MuzzleX, y + BottomMuzzleY, false)];
    }

    method EnterPowerUp()
      requires Valid()
      modifies this
      ensures Valid()
      ensures State() == PoweredUp(old(State()))
    {
      powerUp := true;
      powerUpTimer := 0.0;
      ammo := MaxAmmo;
      PowerUpKeepsInvariant(old(State()));
    }
  }
}
