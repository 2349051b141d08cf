/**
 * The game state and its frame step. The player record and the game state are objects whose
 * fields the frame step updates in place; the lists they hold are reassigned as entries are
 * pushed, spliced out or replaced. The clock reading and the random draws are parameters.
 */
module Game {
  import opened Geometry
  import opened Entities
  import opened Abilities
  import opened Motion
  import opened Projectiles
  import opened Enemies
  import opened Sweep
  import opened World

  const Hero1ShootCooldown: int := 350
  const DefaultShootCooldown: int := 500
  /** hero2's splat has its own, longer cooldown. */
  const SplatCooldown: int := 800

  /** The attacks a hero has. */
  datatype Kit = Kit(canShoot: bool, canCharge: bool, canSplat: bool, hasContactDamage: bool)

  /** hero1 shoots, hero2 splats and burns on contact, hero3 charges. */
  function KitOf(c: Character): (k: Kit)
    // every hero has exactly one attack on the action key
    ensures (if k.canShoot then 1 else 0) + (if k.canCharge then 1 else 0) + (if k.canSplat then 1 else 0) == 1
    // the contact aura comes with the splat
    ensures k.hasContactDamage <==> k.canSplat
    ensures k.canShoot <==> c == Hero1
    ensures k.canCharge <==> c == Hero3
  {
    match c
    case Hero1 => Kit(true, false, false, false)
    case Hero2 => Kit(false, false, true, true)
    case Hero3 => Kit(false, true, false, false)
  }

  /** hero1 fires faster than the default. */
  function ShootCooldownOf(c: Character): (d: int)
    ensures d == Hero1ShootCooldown <==> c == Hero1
    ensures d == DefaultShootCooldown <==> c != Hero1
  {
    if c == Hero1 then Hero1ShootCooldown else DefaultShootCooldown
  }

  /** Which of the action key's attacks go off this frame. */
  datatype Trigger = Trigger(shot: bool, splat: bool)

  /**
   * The shot is tested first, against the hero's cooldown; the splat then against its own longer
   * one, measured from the last shot time as the shot test left it.
   */
  function Triggered(space: bool, canShoot: bool, canSplat: bool, shootCooldown: int, lastShotTime: int, now: int): (t: Trigger)
    ensures t.shot <==> space && canShoot && now - lastShotTime > shootCooldown
    ensures t.splat <==> space && canSplat && !t.shot && now - lastShotTime > SplatCooldown
    // at most one attack per frame
    ensures !(t.shot && t.splat)
  {
    var shot := space && canShoot && now - lastShotTime > shootCooldown;
    var last := if shot then now else lastShotTime;
    Trigger(shot, space && canSplat && now - last > SplatCooldown)
  }

  /**
   * After an attack goes off, nothing goes off again until the shorter of the two cooldowns has passed:
   * a hero with only one of the two attacks, as every hero has, waits at least its own cooldown.
   */
  lemma TriggerSpacing(space: bool, canShoot: bool, canSplat: bool, shootCooldown: int, fired: int, later: int)
    requires canShoot ==> later - fired <= shootCooldown
    requires canSplat ==> later - fired <= SplatCooldown
    ensures Triggered(space, canShoot, canSplat, shootCooldown, fired, later) == Trigger(false, false)
  {
  }

  lemma NoPrefix<T>(a: seq<T>, b: seq<T>)
    ensures [] + a + b == a + b
  {
  }

  lemma Replace1<T>(pre: seq<T>, x: T, y: T, rest: seq<T>)
    ensures (pre + [x] + rest)[|pre| := y] == pre + [y] + rest
  {
  }

  lemma Drop1<T>(pre: seq<T>, x: T, rest: seq<T>)
    ensures RemoveAt(pre + [x] + rest, |pre|) == pre + rest
  {
    assert (pre + [x] + rest)[..|pre|] == pre;
    assert (pre + [x] + rest)[|pre| + 1..] == rest;
  }

  lemma Replaced<T>(pre: seq<T>, x: T, y: T, a: seq<T>, b: seq<T>)
    ensures (pre + [x] + a + b)[|pre| := y] == pre + [y] + a + b
  {
    assert pre + [x] + a + b == pre + [x] + (a + b);
    Replace1(pre, x, y, a + b);
    assert pre + [y] + a + b == pre + [y] + (a + b);
  }

  lemma Dropped<T>(pre: seq<T>, x: T, a: seq<T>, b: seq<T>)
    ensures RemoveAt(pre + [x] + a + b, |pre|) == pre + a + b
  {
    assert pre + [x] + a + b == pre + [x] + (a + b);
    Drop1(pre, x, a + b);
    assert pre + a + b == pre + (a + b);
  }

  /** One step of the ageing loop: the entry at `i` is aged, and dropped once it reaches its lifespan. */
  lemma AgeOneMore(ns: seq<DamageNumber>, i: nat, cur: seq<DamageNumber>)
    requires i < |ns| && cur == ns[..i + 1] + AgeNumbers(ns[i + 1..])
    ensures cur[i] == ns[i]
    ensures var m := Aged(ns[i]);
      (if m.age >= m.lifespan then RemoveAt(cur[i := m], i) else cur[i := m]) == ns[..i] + AgeNumbers(ns[i..])
  {
    var m := Aged(ns[i]);
    var tail := AgeNumbers(ns[i + 1..]);
    assert ns[..i + 1] == ns[..i] + [ns[i]];
    assert ns[i..][0] == ns[i] && ns[i..][1..] == ns[i + 1..];
    Replace1(ns[..i], ns[i], m, tail);
    if m.age >= m.lifespan {
      Drop1(ns[..i], m, tail);
    } else {
      Assoc(ns[..i], [m], tail);
    }
  }

  /** One step of the enemy loop: the entry at `i` is removed when dead, else ticked in place. */
  lemma UpkeepOneMore(es: seq<Enemy>, i: nat, cur: seq<Enemy>, playerX: real, playerY: real, now: int)
    requires i < |es| && cur == es[..i + 1] + Upkeep(es[i + 1..], playerX, playerY, now)
    ensures cur[i] == es[i]
    ensures (if es[i].health <= 0.0 then RemoveAt(cur, i) else cur[i := EnemyTick(es[i], playerX, playerY, now)])
      == es[..i] + Upkeep(es[i..], playerX, playerY, now)
  {
    var tail := Upkeep(es[i + 1..], playerX, playerY, now);
    assert es[..i + 1] == es[..i] + [es[i]];
    assert es[i..][0] == es[i] && es[i..][1..] == es[i + 1..];
    if es[i].health <= 0.0 {
      Drop1(es[..i], es[i], tail);
    } else {
      var t := EnemyTick(es[i], playerX, playerY, now);
      Replace1(es[..i], es[i], t, tail);
      Assoc(es[..i], [t], tail);
    }
  }

  /** The shots of a suffix: those of the shorter suffix, then the shot of its first enemy. */
  lemma VolleyOneMore(base: seq<Projectile>, es: seq<Enemy>, i: nat, playerX: real, playerY: real, now: int, aim: Aim)
    requires i < |es|
    ensures base + Volley(es[i..], playerX, playerY, now, aim) ==
      base + Volley(es[i + 1..], playerX, playerY, now, aim) +
      (if es[i].health > 0.0 && Fires(es[i], playerX, now) then [EnemyShot(es[i], playerX, playerY, aim)] else [])
  {
    assert es[i..][0] == es[i] && es[i..][1..] == es[i + 1..];
  }

  /** The numbers and particles of the aura over a suffix: those of the shorter suffix, then its first enemy's. */
  lemma ScorchOneMore(player: Box, es: seq<Enemy>, i: nat, now: int, numbers: seq<DamageNumber>, particles: seq<Projectile>)
    requires i < |es|
    ensures numbers + ScorchNumbers(player, es[i..], now) == numbers + ScorchNumbers(player, es[i + 1..], now) + ScorchNumber(player, es[i], now)
    ensures particles + ScorchSparks(player, es[i..]) == particles + ScorchSparks(player, es[i + 1..]) + ScorchSpark(player, es[i])
  {
    assert es[i..][0] == es[i] && es[i..][1..] == es[i + 1..];
  }

  /** One more entry of the pass, taken from the front of the part already visited. */
  lemma SweepOneMore(c: seq<Projectile>, i: nat, s: Pass, v: Scene)
    requires i < |c|
    ensures SweepAll(c[i..], s, v) == Turn(c[i], SweepAll(c[i + 1..], s, v), v)
  {
    assert c[i..][1..] == c[i + 1..];
  }

  /** The player record. */
  class Player {
    var x: real
    var y: real
    var velocityY: real
    var isJumping: bool
    var facingRight: bool
    var canShoot: bool
    var canCharge: bool
    var canSplat: bool
    var hasContactDamage: bool
    var lastShotTime: int
    var shootCooldown: int
    var health: real
    var lives: int
    var invulnerable: bool
    var lastDamageTime: int
    // hero3's charge and barrage
    var isCharging: bool
    var chargeStartTime: int
    var chargeLevel: real
    var barrageDuration: int
    var barrageStartTime: int
    var isBarraging: bool
    var lastBarrageEndTime: int
    // hero2's contact damage
    var contactDamageActive: bool
    var contactDamageStartTime: int
    var lastContactDamageTime: int

    /** The player as the game starts, before a hero is chosen. */
    constructor()
      ensures x == 100.0 && y == 300.0 && velocityY == 0.0 && !isJumping && facingRight
      ensures !canShoot && !canCharge && !canSplat && !hasContactDamage
      ensures lastShotTime == 0 && shootCooldown == Hero1ShootCooldown
      ensures health == MaxHealth && lives == StartingLives && !invulnerable && lastDamageTime == 0
      ensures !isCharging && chargeStartTime == 0 && chargeLevel == 0.0
      ensures barrageDuration == 1500 && barrageStartTime == 0 && !isBarraging && lastBarrageEndTime == 0
      ensures !contactDamageActive && contactDamageStartTime == 0 && lastContactDamageTime == 0
    {
      x, y, velocityY, isJumping, facingRight := 100.0, 300.0, 0.0, false, true;
      canShoot, canCharge, canSplat, hasContactDamage := false, false, false, false;
      lastShotTime, shootCooldown := 0, Hero1ShootCooldown;
      health, lives, invulnerable, lastDamageTime := MaxHealth, StartingLives, false, 0;
      isCharging, chargeStartTime, chargeLevel := false, 0, 0.0;
      barrageDuration, barrageStartTime, isBarraging, lastBarrageEndTime := 1500, 0, false, 0;
      contactDamageActive, contactDamageStartTime, lastContactDamageTime := false, 0, 0;
    }

    /** A new round for the player: full health and lives, back at the start, no charge, barrage, aura or invulnerability. */
    method Reset()
      modifies this`health, this`lives, this`x, this`y, this`velocityY, this`isJumping
      modifies this`isCharging, this`chargeLevel, this`isBarraging, this`contactDamageActive, this`invulnerable
      ensures health == MaxHealth && lives == StartingLives && !invulnerable
      ensures x == 100.0 && y == 300.0 && velocityY == 0.0 && !isJumping
      ensures !isCharging && chargeLevel == 0.0 && !isBarraging && !contactDamageActive
    {
      health := MaxHealth;
      lives := StartingLives;
      x := 100.0;
      y := 300.0;
      velocityY := 0.0;
      isJumping := false;
      isCharging := false;
      chargeLevel := 0.0;
      isBarraging := false;
      contactDamageActive := false;
      invulnerable := false;
    }

    function Hitbox(): Box
      reads this
    {
      Box(x, y, PlayerWidth, PlayerHeight)
    }

    function ChargeOf(): Charge
      reads this
    {
      Charge(isCharging, chargeStartTime, chargeLevel, isBarraging, barrageStartTime, barrageDuration,
        lastBarrageEndTime, lastShotTime)
    }

    function AuraOf(): Aura
      reads this
    {
      Aura(contactDamageActive, contactDamageStartTime, lastContactDamageTime)
    }
  }

  /** The game state. */
  class Game {
    const player: Player
    var gameOver: bool
    var worldLeft: real
    var worldRight: real
    var projectiles: seq<Projectile>
    var damageNumbers: seq<DamageNumber>
    var platforms: seq<Platform>
    var enemies: seq<Enemy>
    var cameraX: real
    /** The time of the latest frame; readings of the clock never go back. */
    ghost var clock: int

    function VitalsOf(): Vitals
      reads this`gameOver, player`health, player`lives
    {
      Vitals(player.health, player.lives, gameOver)
    }

    /** The level is either not generated yet, or the generated one with its derived boundaries. */
    predicate LevelShape()
      reads this`platforms, this`worldLeft, this`worldRight
    {
      (platforms == [] && worldLeft == -500.0 && worldRight == 3000.0) ||
      (platforms == LevelPlatforms() && worldLeft == -550.0 && worldRight == 3100.0)
    }

    /** What every frame keeps: sound vitals, and the player, camera and level in shape. */
    ghost predicate Valid()
      reads this`gameOver, this`platforms, this`worldLeft, this`worldRight, this`cameraX, this`clock
      reads player`health, player`lives, player`isCharging, player`isBarraging, player`chargeLevel
      reads player`chargeStartTime, player`x, player`y
    {
      Sound(VitalsOf()) && Steady()
    }

    /** The part of `Valid` that no hit touches: the attack state, the level, the player and camera positions. */
    ghost predicate Steady()
      reads this`platforms, this`worldLeft, this`worldRight, this`cameraX, this`clock
      reads player`isCharging, player`isBarraging, player`chargeLevel, player`chargeStartTime, player`x, player`y
    {
      !(player.isCharging && player.isBarraging) &&
      0.0 <= player.chargeLevel <= 1.0 && player.chargeStartTime <= clock &&
      LevelShape() &&
      worldLeft <= player.x <= worldRight - PlayerWidth &&
      worldLeft <= cameraX <= worldRight - CanvasWidth &&
      player.y + PlayerHeight <= GroundY
    }

    constructor()
      ensures Valid() && fresh(player) && !gameOver && clock == 0
      ensures projectiles == [] && damageNumbers == [] && platforms == [] && enemies == []
      ensures cameraX == 0.0 && worldLeft == -500.0 && worldRight == 3000.0
    {
      player := new Player();
      gameOver := false;
      worldLeft, worldRight := -500.0, 3000.0;
      projectiles, damageNumbers, platforms, enemies := [], [], [], [];
      cameraX := 0.0;
      clock := 0;
    }

    // ---------------------------------------------------------------- setup

    /** The chosen hero's attacks and shot cooldown, then a fresh set of enemies and the platforms. */
    method SelectCharacter(c: Character, draws: seq<SpawnDraw>, now: int)
      requires Valid() && SpawnDraws(draws)
      modifies player`canShoot, player`canCharge, player`canSplat, player`hasContactDamage, player`shootCooldown
      modifies this`enemies, this`platforms, this`worldLeft, this`worldRight
      ensures Valid()
      ensures Kit(player.canShoot, player.canCharge, player.canSplat, player.hasContactDamage) == KitOf(c)
      ensures player.shootCooldown == ShootCooldownOf(c)
      ensures platforms == LevelPlatforms() && worldLeft == -550.0 && worldRight == 3100.0
      ensures Placement(enemies, platforms, now)
      ensures enemies == Placed(EnemyCount, draws, platforms, worldLeft, now) && |enemies| >= 1
    {
      Equip(c);
      GenerateEnemies(draws, now);
      GeneratePlatforms();
    }

    /** The chosen hero's attacks and shot cooldown. */
    method Equip(c: Character)
      modifies player`canShoot, player`canCharge, player`canSplat, player`hasContactDamage, player`shootCooldown
      ensures Kit(player.canShoot, player.canCharge, player.canSplat, player.hasContactDamage) == KitOf(c)
      ensures player.shootCooldown == ShootCooldownOf(c)
    {
      var kit := KitOf(c);
      player.canShoot := kit.canShoot;
      player.canCharge := kit.canCharge;
      player.canSplat := kit.canSplat;
      player.hasContactDamage := kit.hasContactDamage;
      if c == Hero1 {
        player.shootCooldown := Hero1ShootCooldown;
      } else {
        player.shootCooldown := DefaultShootCooldown;
      }
    }

    /** The level's platforms, and the boundaries 100 left of the leftmost and 200 right of the rightmost. */
    method GeneratePlatforms()
      modifies this`platforms, this`worldLeft, this`worldRight
      ensures platforms == LevelPlatforms() && worldLeft == -550.0 && worldRight == 3100.0
    {
      platforms := LevelPlatforms();
      var leftmost, rightmost := PlatformExtents(platforms);
      LevelExtents(leftmost, rightmost);
      worldLeft := leftmost - LeftMargin;
      worldRight := rightmost + RightMargin;
    }

    /**
     * Up to eight enemies, each on a spot drawn from its slot's candidates that keeps the buffer to
     * every enemy already placed; a slot with no such spot is skipped.
     */
    method GenerateEnemies(draws: seq<SpawnDraw>, now: int)
      requires LevelShape() && SpawnDraws(draws)
      modifies this`enemies, this`platforms, this`worldLeft, this`worldRight
      ensures platforms == LevelPlatforms() && worldLeft == -550.0 && worldRight == 3100.0
      ensures Placement(enemies, platforms, now)
      ensures enemies == Placed(EnemyCount, draws, platforms, worldLeft, now) && |enemies| >= 1
    {
      enemies := [];
      if platforms == [] {
        GeneratePlatforms();
      }
      PlaceEnemies(platforms, worldLeft, draws, now);
    }

    /** The slots' loop over the given platforms, pushing each placed enemy onto the list. */
    method PlaceEnemies(ps: seq<Platform>, left: real, draws: seq<SpawnDraw>, now: int)
      requires |draws| == EnemyCount && forall j :: 0 <= j < |draws| ==> ValidDraw(draws[j], |ps|)
      modifies this`enemies
      ensures Placement(enemies, ps, now)
      ensures enemies == Placed(EnemyCount, draws, ps, left, now)
    {
      var placed: seq<Enemy> := [];
      var occupied: seq<Box> := [];
      for i := 0 to EnemyCount
        invariant occupied == Boxes(placed)
        invariant placed == Placed(i, draws, ps, left, now)
      {
        PlacedStep(i, draws, ps, left, now);
        var possible := Candidates(i, draws[i], ps, left);
        var clear := ClearSpots(possible, occupied);
        if |clear| > 0 {
          var spot := clear[PickIndex(draws[i].pick, |clear|)];
          var enemy := Spawned(spot, draws[i], now);
          occupied := occupied + [Box(spot.x, spot.y, EnemyWidth, EnemyHeight)];
          placed := placed + [enemy];
        }
      }
      enemies := placed;
      PlacedApart(EnemyCount, draws, ps, left, now);
    }

    /** A new round: full health and lives, the player back at the start, the lists cleared, new enemies. */
    method Restart(draws: seq<SpawnDraw>, now: int)
      requires Valid() && clock <= now && SpawnDraws(draws)
      modifies this`gameOver, this`cameraX, this`projectiles, this`damageNumbers, this`clock
      modifies this`enemies, this`platforms, this`worldLeft, this`worldRight
      modifies player`health, player`lives, player`x, player`y, player`velocityY, player`isJumping
      modifies player`isCharging, player`chargeLevel, player`isBarraging, player`contactDamageActive, player`invulnerable
      ensures Valid() && !gameOver && clock == now
      ensures player.health == MaxHealth && player.lives == StartingLives && !player.invulnerable
      ensures player.x == 100.0 && player.y == 300.0 && player.velocityY == 0.0 && !player.isJumping && cameraX == 0.0
      ensures !player.isCharging && player.chargeLevel == 0.0 && !player.isBarraging && !player.contactDamageActive
      ensures projectiles == [] && damageNumbers == []
      ensures platforms == LevelPlatforms() && Placement(enemies, platforms, now)
      ensures enemies == Placed(EnemyCount, draws, platforms, worldLeft, now) && |enemies| >= 1
    {
      gameOver := false;
      player.Reset();
      cameraX := 0.0;
      projectiles := [];
      damageNumbers := [];
      GenerateEnemies(draws, now);
      clock := now;
    }

    // ---------------------------------------------------------------- the frame step

    /** The animation-frame callback: nothing happens once the game is over. */
    method Frame(keys: Keys, now: int, aim: Aim)
      requires Valid() && clock <= now
      modifies this, player
      ensures Valid()
      ensures old(gameOver) ==> unchanged(this) && unchanged(player)
      ensures !old(gameOver) ==> clock == now
      ensures !old(gameOver) ==> AfterUpdate(old(VitalsOf()), old(player.invulnerable), old(player.lastDamageTime), now)
    {
      if gameOver {
        return;
      }
      Update(keys, now, aim);
    }

    /**
     * What a frame leaves behind besides `Valid`, given the player's vitals and invulnerability
     * window as the frame found them.
     */
    ghost predicate AfterUpdate(before: Vitals, wasInvulnerable: bool, lastHit: int, now: int)
      reads this, player
    {
      // the player loses health to at most one enemy shot per frame, and only when not invulnerable:
      // then the window opens now; otherwise it stays open exactly while its duration has not passed
      ((VitalsOf() == before && player.lastDamageTime == lastHit &&
        player.invulnerable == InvulnerableAfter(wasInvulnerable, lastHit, now)) ||
       (!wasInvulnerable && VitalsOf() == Hurt(before, EnemyProjectileDamage) &&
        player.lastDamageTime == now && player.invulnerable)) &&
      // no enemy without health is left, and no expired damage number
      (forall k :: 0 <= k < |enemies| ==> enemies[k].health > 0.0) &&
      (forall k :: 0 <= k < |damageNumbers| ==> damageNumbers[k].age < damageNumbers[k].lifespan)
    }

    /**
     * The player's movement over a frame, from the given stride, vertical state and camera: the
     * arrow keys' Walk, then Jumped and Fallen, then the camera's Follow.
     */
    ghost predicate Travelled(keys: Keys, stride: Stride, rise: Rise, camera: real)
      reads this`platforms, this`worldLeft, this`worldRight, this`cameraX
      reads player`x, player`facingRight, player`y, player`velocityY, player`isJumping
    {
      Stride(player.x, player.facingRight) == Walk(stride.x, stride.facingRight, keys, worldLeft, worldRight) &&
      (var j := Jumped(rise, keys.up);
       Rise(player.y, player.velocityY, player.isJumping) == Fallen(platforms, player.x, j.y, j.velocityY, j.isJumping)) &&
      cameraX == Follow(camera, player.x, worldLeft, worldRight)
    }

    /**
     * The world's lists after a frame, from the projectile list and the pass's starting state `s`:
     * the projectile pass over the culled list, then the enemies' upkeep and volley, then the
     * numbers' ageing.
     */
    ghost predicate Worked(ps: seq<Projectile>, s: Pass, now: int, aim: Aim)
      reads this, player
    {
      var r := SweepAll(Cull(ps), s, Scene(cameraX, platforms, player.Hitbox(), now));
      enemies == Upkeep(r.enemies, player.x, player.y, now) &&
      projectiles == r.kept + r.spawned + Volley(r.enemies, player.x, player.y, now, aim) &&
      damageNumbers == AgeNumbers(r.numbers)
    }

    /** One frame of the simulation, in the order the game performs its steps. */
    method Update(keys: Keys, now: int, aim: Aim)
      requires Valid() && !gameOver && clock <= now
      modifies this, player
      ensures Valid() && clock == now
      ensures AfterUpdate(old(VitalsOf()), old(player.invulnerable), old(player.lastDamageTime), now)
    {
      clock := now;
      ghost var before, wasInvulnerable, lastHit := VitalsOf(), player.invulnerable, player.lastDamageTime;
      UpdatePlayer(keys, now);
      assert VitalsOf() == before && player.invulnerable == wasInvulnerable && player.lastDamageTime == lastHit;
      UpdateWorld(now, aim);
    }

    /** The player's part of a frame: walking and jumping, the hero's attacks, falling and landing, the camera. */
    method UpdatePlayer(keys: Keys, now: int)
      requires Valid() && !gameOver && clock == now
      modifies this`projectiles, this`enemies, this`damageNumbers, this`cameraX
      modifies player`x, player`facingRight, player`y, player`velocityY, player`isJumping, player`lastShotTime
      modifies player`isCharging, player`chargeStartTime, player`chargeLevel, player`isBarraging
      modifies player`barrageStartTime, player`barrageDuration, player`lastBarrageEndTime
      modifies player`contactDamageActive, player`contactDamageStartTime, player`lastContactDamageTime
      ensures Valid()
      ensures Travelled(keys, old(Stride(player.x, player.facingRight)), old(Rise(player.y, player.velocityY, player.isJumping)), old(cameraX))
    {
      Steer(keys);
      Attack(keys, now);
      Fall();
      FollowCamera();
    }

    /** The arrow keys: a step right or left, and a jump if not already in the air. */
    method Steer(keys: Keys)
      requires Valid()
      modifies player`x, player`facingRight, player`velocityY, player`isJumping
      ensures Valid()
      ensures Stride(player.x, player.facingRight) == Walk(old(player.x), old(player.facingRight), keys, worldLeft, worldRight)
      ensures Rise(player.y, player.velocityY, player.isJumping) ==
        Jumped(Rise(player.y, old(player.velocityY), old(player.isJumping)), keys.up)
    {
      MovePlayer(keys);
      if keys.up && !player.isJumping {
        player.velocityY := -JumpForce;
        player.isJumping := true;
      }
    }

    /** The space key and the always-on abilities: a shot or a splat when off cooldown, charging, contact damage. */
    method Attack(keys: Keys, now: int)
      requires Valid() && clock == now
      modifies this`projectiles, this`enemies, this`damageNumbers, player`lastShotTime
      modifies player`isCharging, player`chargeStartTime, player`chargeLevel, player`isBarraging
      modifies player`barrageStartTime, player`barrageDuration, player`lastBarrageEndTime
      modifies player`contactDamageActive, player`contactDamageStartTime, player`lastContactDamageTime
      ensures Valid()
    {
      Fire(keys, now);
      if player.canCharge {
        ChargeAttack(keys, now);
      }
      if player.hasContactDamage {
        Aura(now);
      }
    }

    /** A shot or a splat while the space key is held, each on its own cooldown since the last one. */
    method Fire(keys: Keys, now: int)
      modifies this`projectiles, player`lastShotTime
      ensures var t := Triggered(keys.space, player.canShoot, player.canSplat, player.shootCooldown, old(player.lastShotTime), now);
        player.lastShotTime == (if t.shot || t.splat then now else old(player.lastShotTime)) &&
        projectiles == old(projectiles) +
          (if t.shot then [if player.isBarraging then ChargedShot(player.x, player.y, player.facingRight, 1.0)
                           else InkShot(player.x, player.y, player.facingRight)] else []) +
          (if t.splat then InkSplat(player.x, player.y, player.facingRight, player.isJumping) else [])
    {
      if keys.space && player.canShoot {
        if now - player.lastShotTime > player.shootCooldown {
          ShootInk();
          player.lastShotTime := now;
        }
      }
      if keys.space && player.canSplat {
        if now - player.lastShotTime > SplatCooldown {
          CreateInkSplat();
          player.lastShotTime := now;
        }
      }
    }

    /** The charge attack's step, keeping the charge state sound. */
    method ChargeAttack(keys: Keys, now: int)
      requires Valid() && clock == now
      modifies player`isCharging, player`chargeStartTime, player`chargeLevel, player`isBarraging
      modifies player`barrageStartTime, player`barrageDuration, player`lastBarrageEndTime, player`lastShotTime
      modifies this`projectiles
      ensures Valid()
      ensures var t := ChargeStep(old(player.ChargeOf()), keys.space, now);
        player.ChargeOf() == t.next &&
        projectiles == old(projectiles) +
          (if t.shot.Some? then [ChargedShot(player.x, player.y, player.facingRight, t.shot.value)] else [])
    {
      HandleChargeAttack(keys.space, now);
    }

    /** The aura's step, which touches no state the frame keeps sound. */
    method Aura(now: int)
      requires Valid()
      modifies player`contactDamageActive, player`contactDamageStartTime, player`lastContactDamageTime
      modifies this`enemies, this`damageNumbers, this`projectiles
      ensures Valid()
      ensures player.AuraOf() == AuraStep(old(player.AuraOf()), now)
      ensures player.contactDamageActive ==>
        enemies == ScorchAll(player.Hitbox(), old(enemies), now) &&
        damageNumbers == old(damageNumbers) + ScorchNumbers(player.Hitbox(), old(enemies), now) &&
        projectiles == old(projectiles) + ScorchSparks(player.Hitbox(), old(enemies))
      ensures !player.contactDamageActive ==>
        enemies == old(enemies) && damageNumbers == old(damageNumbers) && projectiles == old(projectiles)
    {
      HandleContactDamage(now);
    }

    /** Gravity, the platform test, and the ground. */
    method Fall()
      requires Valid()
      modifies player`y, player`velocityY, player`isJumping
      ensures Valid()
      ensures Rise(player.y, player.velocityY, player.isJumping) ==
        Fallen(platforms, player.x, old(player.y), old(player.velocityY), old(player.isJumping))
    {
      player.velocityY := player.velocityY + Gravity;
      player.y := player.y + player.velocityY;
      CheckPlatformCollisions();
      if player.y + PlayerHeight > GroundY {
        player.y := GroundY - PlayerHeight;
        player.velocityY := 0.0;
        player.isJumping := false;
      }
    }

    /** The world's part of a frame: the projectile pass, the enemies, the damage numbers, invulnerability. */
    method UpdateWorld(now: int, aim: Aim)
      requires Valid() && clock == now
      modifies this`projectiles, this`enemies, this`damageNumbers, this`gameOver
      modifies player`health, player`lives, player`invulnerable, player`lastDamageTime
      ensures Valid()
      ensures AfterUpdate(old(VitalsOf()), old(player.invulnerable), old(player.lastDamageTime), now)
      ensures Worked(old(projectiles), Pass([], [], old(enemies), old(damageNumbers), old(VitalsOf()),
        old(player.invulnerable), old(player.lastDamageTime)), now, aim)
    {
      ghost var r := SweepAll(Cull(projectiles),
        Pass([], [], enemies, damageNumbers, VitalsOf(), player.invulnerable, player.lastDamageTime),
        Scene(cameraX, platforms, player.Hitbox(), now));
      ProjectileStep(now);
      NoPrefix(r.kept, r.spawned);
      Tidy(now, aim);
    }

    /** The enemies' upkeep, the damage numbers' aging, and the end of the invulnerability window. */
    method Tidy(now: int, aim: Aim)
      requires Valid()
      modifies this`projectiles, this`enemies, this`damageNumbers, player`invulnerable
      ensures Valid() && VitalsOf() == old(VitalsOf()) && player.lastDamageTime == old(player.lastDamageTime)
      ensures forall k :: 0 <= k < |enemies| ==> enemies[k].health > 0.0
      ensures forall k :: 0 <= k < |damageNumbers| ==> damageNumbers[k].age < damageNumbers[k].lifespan
      ensures player.invulnerable == InvulnerableAfter(old(player.invulnerable), player.lastDamageTime, now)
      ensures enemies == Upkeep(old(enemies), player.x, player.y, now)
      ensures projectiles == old(projectiles) + Volley(old(enemies), player.x, player.y, now, aim)
      ensures damageNumbers == AgeNumbers(old(damageNumbers))
    {
      UpkeepAlive(enemies, player.x, player.y, now);
      UpdateEnemies(now, aim);
      assert Valid();
      AgeNumbersFacts(damageNumbers);
      UpdateDamageNumbers();
      assert Valid();
      if player.invulnerable {
        if now - player.lastDamageTime > InvulnerabilityDuration {
          player.invulnerable := false;
        }
      }
    }

    /** The projectile pass, which hurts the player at most once and keeps the frame sound. */
    method ProjectileStep(now: int)
      requires Valid()
      modifies this`projectiles, this`enemies, this`damageNumbers, this`gameOver
      modifies player`health, player`lives, player`invulnerable, player`lastDamageTime
      ensures Valid()
      ensures Mirrors([], SweepAll(Cull(old(projectiles)),
          Pass([], [], old(enemies), old(damageNumbers), old(VitalsOf()), old(player.invulnerable), old(player.lastDamageTime)),
          Scene(cameraX, platforms, player.Hitbox(), now)))
      ensures (VitalsOf() == old(VitalsOf()) && player.invulnerable == old(player.invulnerable) &&
               player.lastDamageTime == old(player.lastDamageTime)) ||
              (!old(player.invulnerable) && VitalsOf() == Hurt(old(VitalsOf()), EnemyProjectileDamage) &&
               player.invulnerable && player.lastDamageTime == now)
    {
      ghost var before := VitalsOf();
      HurtKeepsSound(before, EnemyProjectileDamage);
      ghost var s := Pass([], [], enemies, damageNumbers, before, player.invulnerable, player.lastDamageTime);
      ghost var c := Cull(projectiles);
      ghost var v := Scene(cameraX, platforms, player.Hitbox(), now);
      SweepFacts(c, s, v);
      UpdateProjectiles(now);
    }

    /** Arrow keys: right first, then left, each stopped at the world boundary. */
    method MovePlayer(keys: Keys)
      modifies player`x, player`facingRight
      ensures Stride(player.x, player.facingRight) == Walk(old(player.x), old(player.facingRight), keys, worldLeft, worldRight)
    {
      if keys.right {
        if player.x + PlayerWidth + PlayerSpeed <= worldRight {
          player.x := player.x + PlayerSpeed;
        } else {
          player.x := worldRight - PlayerWidth;
        }
        player.facingRight := true;
      }
      if keys.left {
        if player.x - PlayerSpeed >= worldLeft {
          player.x := player.x - PlayerSpeed;
        } else {
          player.x := worldLeft;
        }
        player.facingRight := false;
      }
    }

    /** The camera moves a tenth of the way to 400 left of the player, and stays inside the world. */
    method FollowCamera()
      modifies this`cameraX
      ensures cameraX == Follow(old(cameraX), player.x, worldLeft, worldRight)
    {
      var targetX := player.x - CameraLead;
      cameraX := cameraX + (targetX - cameraX) * CameraSpeed;
      var minCameraX := worldLeft;
      var maxCameraX := worldRight - CanvasWidth;
      if cameraX < minCameraX {
        cameraX := minCameraX;
      } else if cameraX > maxCameraX {
        cameraX := maxCameraX;
      }
    }

    /** A falling player is put on top of the first platform caught this frame. */
    method CheckPlatformCollisions()
      modifies player`y, player`velocityY, player`isJumping
      ensures old(player.velocityY) < 0.0 ==>
        player.y == old(player.y) && player.velocityY == old(player.velocityY) && player.isJumping == old(player.isJumping)
      ensures old(player.velocityY) >= 0.0 ==>
        var landing := FirstLanding(platforms, player.x, old(player.y), old(player.velocityY));
        (landing.Some? ==> player.y == platforms[landing.value].y - PlayerHeight && player.velocityY == 0.0 && !player.isJumping) &&
        (landing.None? ==> player.y == old(player.y) && player.velocityY == old(player.velocityY) && player.isJumping == old(player.isJumping))
    {
      if player.velocityY < 0.0 {
        return;
      }
      var playerBottom := player.y + PlayerHeight;
      var playerLeft := player.x;
      var playerRight := player.x + PlayerWidth;
      var k := 0;
      while k < |platforms|
        invariant 0 <= k <= |platforms|
        invariant forall j :: 0 <= j < k ==> !LandsOn(platforms[j], player.x, player.y, player.velocityY)
      {
        var platform := platforms[k];
        var wasAbovePlatform := playerBottom - player.velocityY <= platform.y;
        if wasAbovePlatform && playerBottom >= platform.y && playerBottom <= platform.y + platform.height / 2.0 &&
           playerRight > platform.x && playerLeft < platform.x + platform.width
        {
          player.y := platform.y - PlayerHeight;
          player.velocityY := 0.0;
          player.isJumping := false;
          return;
        }
        k := k + 1;
      }
    }

    // ---------------------------------------------------------------- attacks

    /** hero1's shot, or a plain charged shot while a barrage runs. */
    method ShootInk()
      modifies this`projectiles
      ensures projectiles == old(projectiles) +
        [if player.isBarraging then ChargedShot(player.x, player.y, player.facingRight, 1.0)
         else InkShot(player.x, player.y, player.facingRight)]
    {
      if player.isBarraging {
        ShootChargedInk(1.0);
        return;
      }
      projectiles := projectiles + [InkShot(player.x, player.y, player.facingRight)];
    }

    method ShootChargedInk(multiplier: real)
      modifies this`projectiles
      ensures projectiles == old(projectiles) + [ChargedShot(player.x, player.y, player.facingRight, multiplier)]
    {
      projectiles := projectiles + [ChargedShot(player.x, player.y, player.facingRight, multiplier)];
    }

    /** Pushes `n` copies of one particle. */
    method Emit(n: nat, p: Projectile)
      modifies this`projectiles
      ensures projectiles == old(projectiles) + Copies(n, p)
    {
      var i := 0;
      while i < n
        invariant 0 <= i <= n
        invariant projectiles == old(projectiles) + Copies(i, p)
      {
        projectiles := projectiles + [p];
        assert Copies(i + 1, p) == Copies(i, p) + [p];
        i := i + 1;
      }
    }

    method CreateInkSplat()
      modifies this`projectiles
      ensures projectiles == old(projectiles) + InkSplat(player.x, player.y, player.facingRight, player.isJumping)
    {
      var particleCount := if player.isJumping then 10 else 8;
      Emit(particleCount, SplatParticle(player.x, player.y, player.facingRight, player.isJumping));
    }

    /** hero3's charge handler, proved to take the steps of the charge machine. */
    method HandleChargeAttack(space: bool, now: int)
      modifies player`isCharging, player`chargeStartTime, player`chargeLevel, player`isBarraging
      modifies player`barrageStartTime, player`barrageDuration, player`lastBarrageEndTime, player`lastShotTime
      modifies this`projectiles
      ensures var t := ChargeStep(old(player.ChargeOf()), space, now);
        player.ChargeOf() == t.next &&
        projectiles == old(projectiles) +
          (if t.shot.Some? then [ChargedShot(player.x, player.y, player.facingRight, t.shot.value)] else [])
    {
      var isInCooldown := now - player.lastBarrageEndTime < GlobalCooldown;
      if player.isBarraging {
        if now - player.barrageStartTime > player.barrageDuration {
          player.isBarraging := false;
          player.chargeLevel := 0.0;
          player.lastBarrageEndTime := now;
        } else if now - player.lastShotTime > BarrageFireInterval {
          var chargeDuration := player.barrageDuration;
          var damageMultiplier := 1.0;
          if chargeDuration >= 1500 {
            damageMultiplier := 1.5;
          } else if chargeDuration >= 750 {
            damageMultiplier := 1.25;
          } else if chargeDuration >= 500 {
            damageMultiplier := 1.1;
          }
          ShootChargedInk(damageMultiplier);
          player.lastShotTime := now;
        }
        return;
      }
      if isInCooldown && !player.isCharging {
        return;
      }
      if space && !player.isBarraging {
        if !player.isCharging {
          player.isCharging := true;
          player.chargeStartTime := now;
        } else {
          var elapsedChargeTime := now - player.chargeStartTime;
          var level := (elapsedChargeTime as real) / (MaxChargeTime as real);
          player.chargeLevel := if level < 1.0 then level else 1.0;
        }
      } else if player.isCharging {
        player.isCharging := false;
        var barrageDuration := 0;
        if player.chargeLevel >= 1.0 {
          barrageDuration := 1500;
        } else if player.chargeLevel >= 0.5 {
          barrageDuration := 750;
        } else if player.chargeLevel >= 0.25 {
          barrageDuration := 500;
        } else if player.chargeLevel > 0.0 {
          barrageDuration := 250;
        }
        if barrageDuration > 0 {
          player.isBarraging := true;
          player.barrageStartTime := now;
          player.barrageDuration := barrageDuration;
        }
        player.chargeLevel := 0.0;
      }
    }

    /** hero2's aura: switch on and off on its timers, and burn every touching enemy while on. */
    method HandleContactDamage(now: int)
      modifies player`contactDamageActive, player`contactDamageStartTime, player`lastContactDamageTime
      modifies this`enemies, this`damageNumbers, this`projectiles
      ensures player.AuraOf() == AuraStep(old(player.AuraOf()), now)
      ensures player.contactDamageActive ==>
        enemies == ScorchAll(player.Hitbox(), old(enemies), now) &&
        damageNumbers == old(damageNumbers) + ScorchNumbers(player.Hitbox(), old(enemies), now) &&
        projectiles == old(projectiles) + ScorchSparks(player.Hitbox(), old(enemies))
      ensures !player.contactDamageActive ==>
        enemies == old(enemies) && damageNumbers == old(damageNumbers) && projectiles == old(projectiles)
    {
      if !player.contactDamageActive && now - player.lastContactDamageTime > ContactDamageCooldown {
        player.contactDamageActive := true;
        player.contactDamageStartTime := now;
      }
      if player.contactDamageActive && now - player.contactDamageStartTime > ContactDamageDuration {
        player.contactDamageActive := false;
        player.lastContactDamageTime := now;
      }
      if player.contactDamageActive {
        CheckContactDamage(now);
      }
    }

    /** Every enemy touching the player takes 10, with a number and five particles at the contact point. */
    method CheckContactDamage(now: int)
      modifies this`enemies, this`damageNumbers, this`projectiles
      ensures enemies == ScorchAll(player.Hitbox(), old(enemies), now)
      ensures damageNumbers == old(damageNumbers) + ScorchNumbers(player.Hitbox(), old(enemies), now)
      ensures projectiles == old(projectiles) + ScorchSparks(player.Hitbox(), old(enemies))
    {
      ghost var es := enemies;
      var box := player.Hitbox();
      var i := |enemies|;
      while i > 0
        invariant 0 <= i <= |es| && |enemies| == |es|
        invariant forall k :: 0 <= k < |es| ==> enemies[k] == if k < i then es[k] else Scorched(box, es[k], now)
        invariant damageNumbers == old(damageNumbers) + ScorchNumbers(box, es[i..], now)
        invariant projectiles == old(projectiles) + ScorchSparks(box, es[i..])
      {
        i := i - 1;
        ScorchOneMore(box, es, i, now, old(damageNumbers), old(projectiles));
        if Overlap(box, EnemyBox(enemies[i])) {
          ScorchEnemy(i, now);
        }
      }
      assert es[0..] == es;
      ScorchEach(box, es, now);
    }

    /** The aura's hit on the touching enemy at index `i`: its damage, its number and its particles. */
    method ScorchEnemy(i: nat, now: int)
      requires i < |enemies| && Overlap(player.Hitbox(), EnemyBox(enemies[i]))
      modifies this`enemies, this`damageNumbers, this`projectiles
      ensures enemies == old(enemies)[i := Scorched(player.Hitbox(), old(enemies)[i], now)]
      ensures damageNumbers == old(damageNumbers) + ScorchNumber(player.Hitbox(), old(enemies)[i], now)
      ensures projectiles == old(projectiles) + ScorchSpark(player.Hitbox(), old(enemies)[i])
    {
      var enemy := enemies[i];
      var oldHealth := enemy.health;
      enemies := enemies[i := Scorched(player.Hitbox(), enemy, now)];
      var damageDealt := oldHealth - enemies[i].health;
      var (contactX, contactY) := ContactPoint(player.Hitbox(), enemy);
      CreateDamageNumber(contactX, contactY, damageDealt, false);
      CreateContactDamageSplat(enemy);
    }

    method CreateContactDamageSplat(enemy: Enemy)
      modifies this`projectiles
      ensures projectiles == old(projectiles) +
        ContactSplat(ContactPoint(player.Hitbox(), enemy).0, ContactPoint(player.Hitbox(), enemy).1)
    {
      var (contactX, contactY) := ContactPoint(player.Hitbox(), enemy);
      Emit(5, Particle(contactX, contactY, 8.0, 2.0, 0.0, 10.0));
    }

    // ---------------------------------------------------------------- damage to the player and numbers

    method CreateDamageNumber(x: real, y: real, damage: real, isPlayerDamage: bool)
      modifies this`damageNumbers
      ensures damageNumbers == old(damageNumbers) + NumberFor(x, y, damage, isPlayerDamage)
    {
      if damage <= 0.0 {
        return;
      }
      var colour := if isPlayerDamage then Red else if damage >= 20.0 then Red else if damage >= 10.0 then Orange else Yellow;
      damageNumbers := damageNumbers + [DamageNumber(x, y - 20.0, damage, colour, 0, NumberLifespan, NumberRise, isPlayerDamage)];
    }

    method ShowGameOver()
      modifies this`gameOver
      ensures gameOver
    {
      gameOver := true;
    }

    /** The damage pipeline: a number above the player, health down, a life lost at 0, then invulnerability. */
    method ApplyDamageToPlayer(amount: real, now: int)
      modifies this`damageNumbers, this`gameOver, player`health, player`lives, player`invulnerable, player`lastDamageTime
      ensures VitalsOf() == Hurt(old(VitalsOf()), amount)
      ensures player.invulnerable && player.lastDamageTime == now
      ensures damageNumbers == old(damageNumbers) + NumberFor(player.x + PlayerWidth / 2.0, player.y - 20.0, amount, true)
    {
      CreateDamageNumber(player.x + PlayerWidth / 2.0, player.y - 20.0, amount, true);
      player.health := if player.health - amount > 0.0 then player.health - amount else 0.0;
      if player.health <= 0.0 {
        player.lives := player.lives - 1;
        if player.lives <= 0 {
          ShowGameOver();
        } else {
          player.health := MaxHealth;
        }
      }
      player.invulnerable := true;
      player.lastDamageTime := now;
    }

    /** An enemy shot hits a player who is not invulnerable: damage, and six particles where it hit. */
    method CheckPlayerProjectileCollision(q: Projectile, now: int) returns (hit: bool)
      modifies this`projectiles, this`damageNumbers, this`gameOver
      modifies player`health, player`lives, player`invulnerable, player`lastDamageTime
      ensures hit == (!old(player.invulnerable) && Overlap(ProjectileBox(q), player.Hitbox()))
      ensures hit ==>
        VitalsOf() == Hurt(old(VitalsOf()), EnemyProjectileDamage) && player.invulnerable && player.lastDamageTime == now &&
        damageNumbers == old(damageNumbers) + NumberFor(player.x + PlayerWidth / 2.0, player.y - 20.0, EnemyProjectileDamage, true) &&
        projectiles == old(projectiles) + HitEffect(q)
      ensures !hit ==>
        VitalsOf() == old(VitalsOf()) && player.invulnerable == old(player.invulnerable) &&
        player.lastDamageTime == old(player.lastDamageTime) &&
        damageNumbers == old(damageNumbers) && projectiles == old(projectiles)
    {
      if player.invulnerable {
        return false;
      }
      if q.x < player.x + PlayerWidth && q.x + q.width > player.x &&
         q.y < player.y + PlayerHeight && q.y + q.height > player.y
      {
        ApplyDamageToPlayer(EnemyProjectileDamage, now);
        CreatePlayerHitEffect(q);
        return true;
      }
      return false;
    }

    method CreatePlayerHitEffect(q: Projectile)
      modifies this`projectiles
      ensures projectiles == old(projectiles) + HitEffect(q)
    {
      Emit(6, Particle(q.x, q.y, 8.0, 2.0, 0.0, 10.0));
    }

    /** Damage numbers rise and age; those reaching their lifespan are removed. */
    method UpdateDamageNumbers()
      modifies this`damageNumbers
      ensures damageNumbers == AgeNumbers(old(damageNumbers))
    {
      ghost var ns := damageNumbers;
      var i := |damageNumbers|;
      while i > 0
        invariant 0 <= i <= |ns|
        invariant damageNumbers == ns[..i] + AgeNumbers(ns[i..])
      {
        i := i - 1;
        AgeOneMore(ns, i, damageNumbers);
        var number := Aged(damageNumbers[i]);
        if number.age >= number.lifespan {
          damageNumbers := RemoveAt(damageNumbers[i := number], i);
        } else {
          damageNumbers := damageNumbers[i := number];
        }
      }
      assert ns[0..] == ns;
    }

    // ---------------------------------------------------------------- enemies

    /** Dead enemies are removed; the others are ticked and may fire; the list is walked from its end. */
    method UpdateEnemies(now: int, aim: Aim)
      modifies this`enemies, this`projectiles
      ensures enemies == Upkeep(old(enemies), player.x, player.y, now)
      ensures projectiles == old(projectiles) + Volley(old(enemies), player.x, player.y, now, aim)
    {
      ghost var es := enemies;
      var i := |enemies|;
      while i > 0
        invariant 0 <= i <= |es|
        invariant enemies == es[..i] + Upkeep(es[i..], player.x, player.y, now)
        invariant projectiles == old(projectiles) + Volley(es[i..], player.x, player.y, now, aim)
      {
        i := i - 1;
        UpkeepOneMore(es, i, enemies, player.x, player.y, now);
        VolleyOneMore(old(projectiles), es, i, player.x, player.y, now, aim);
        var enemy := enemies[i];
        if enemy.health <= 0.0 {
          enemies := RemoveAt(enemies, i);
        } else {
          if Fires(enemy, player.x, now) {
            EnemyShootInk(enemy, aim);
          }
          enemies := enemies[i := EnemyTick(enemy, player.x, player.y, now)];
        }
      }
      assert es[0..] == es;
    }

    method EnemyShootInk(enemy: Enemy, aim: Aim)
      modifies this`projectiles
      ensures projectiles == old(projectiles) + [EnemyShot(enemy, player.x, player.y, aim)]
    {
      projectiles := projectiles + [EnemyShot(enemy, player.x, player.y, aim)];
    }

    // ---------------------------------------------------------------- projectiles

    /** Pushes the splash a projectile throws when it hits a surface. */
    method CreateProjectileSplashEffect(q: Projectile)
      modifies this`projectiles
      ensures projectiles == old(projectiles) + Splash(q)
    {
      var particleCount := (3.0 + q.width / 5.0).Floor;
      if particleCount > 8 {
        particleCount := 8;
      }
      Emit(if particleCount < 0 then 0 else particleCount, Particle(q.x, q.y, 0.0, 1.0, -1.0, 8.0));
    }

    /** The ground, then each platform in order; a hit throws a splash. */
    method CheckProjectilePlatformCollision(q: Projectile) returns (hit: bool)
      modifies this`projectiles
      ensures hit == SurfaceHit(q, platforms)
      ensures projectiles == old(projectiles) + (if hit then Splash(q) else [])
    {
      if q.y + q.height / 2.0 >= GroundY {
        CreateProjectileSplashEffect(q);
        return true;
      }
      var k := 0;
      while k < |platforms|
        invariant 0 <= k <= |platforms|
        invariant StrikesAny(q, platforms) == StrikesAny(q, platforms[k..])
        invariant projectiles == old(projectiles)
      {
        assert platforms[k..][0] == platforms[k] && platforms[k..][1..] == platforms[k + 1..];
        var platform := platforms[k];
        if q.x - q.width / 2.0 < platform.x + platform.width && q.x + q.width / 2.0 > platform.x &&
           q.y - q.height / 2.0 < platform.y + platform.height && q.y + q.height / 2.0 > platform.y
        {
          if q.y + q.height / 2.0 > platform.y && q.y - q.height / 2.0 < platform.y {
            CreateProjectileSplashEffect(q);
            return true;
          }
          if q.speedY > 2.0 || q.speedY < -2.0 || q.speedX > 2.0 || q.speedX < -2.0 {
            CreateProjectileSplashEffect(q);
            return true;
          }
        }
        k := k + 1;
      }
      return false;
    }

    /** A player-side projectile hits the overlapping enemy latest in the list. */
    method CheckProjectileCollisions(q: Projectile, now: int) returns (hit: bool)
      modifies this`enemies, this`damageNumbers
      ensures var h := HitIndex(ProjectileBox(q), old(enemies));
        hit == h.Some? &&
        (h.None? ==> enemies == old(enemies) && damageNumbers == old(damageNumbers)) &&
        (h.Some? ==>
          var e := old(enemies)[h.value];
          var struck := Struck(e, HitDamage(q), now);
          enemies == old(enemies)[h.value := struck] &&
          damageNumbers == old(damageNumbers) + NumberFor(q.x, q.y, e.health - struck.health, false))
    {
      var j := |enemies|;
      while j > 0
        invariant 0 <= j <= |enemies|
        invariant enemies == old(enemies) && damageNumbers == old(damageNumbers)
        invariant forall k :: j <= k < |enemies| ==> !Overlap(ProjectileBox(q), EnemyBox(enemies[k]))
      {
        j := j - 1;
        var enemy := enemies[j];
        if q.x < enemy.x + enemy.width && q.x + q.width > enemy.x &&
           q.y < enemy.y + enemy.height && q.y + q.height > enemy.y
        {
          var oldHealth := enemy.health;
          enemies := enemies[j := Struck(enemy, HitDamage(q), now)];
          var damageDealt := oldHealth - enemies[j].health;
          CreateDamageNumber(q.x, q.y, damageDealt, false);
          return true;
        }
      }
      return false;
    }

    /** The state the pass has reached: the list is `pre`, then the survivors, then the particles pushed. */
    ghost predicate Mirrors(pre: seq<Projectile>, r: Pass)
      reads this, player
    {
      projectiles == pre + r.kept + r.spawned && enemies == r.enemies && damageNumbers == r.numbers &&
      VitalsOf() == r.vitals && player.invulnerable == r.invulnerable && player.lastDamageTime == r.lastDamageTime
    }

    /**
     * One entry's turn in the projectile pass, at index `i`, after the later entries have had theirs:
     * the list is `pre`, the entry, the survivors so far and the particles pushed so far.
     */
    method ProjectileTurn(i: nat, now: int, ghost pre: seq<Projectile>, ghost p: Projectile, ghost s: Pass, ghost v: Scene)
      requires |pre| == i && Mirrors(pre + [p], s) && v == Scene(cameraX, platforms, player.Hitbox(), now)
      modifies this`projectiles, this`enemies, this`damageNumbers, this`gameOver
      modifies player`health, player`lives, player`invulnerable, player`lastDamageTime
      ensures Mirrors(pre, Turn(p, s, v))
    {
      var projectile := projectiles[i];
      if Offscreen(projectile, cameraX) && Cosmetic(projectile) {
        projectiles := RemoveAt(projectiles, i);
        Dropped(pre, p, s.kept, s.spawned);
        return;
      }
      var q := Moved(projectile);
      projectiles := projectiles[i := q];
      Replaced(pre, p, q, s.kept, s.spawned);
      if q.isEnemyProjectile && !q.isSplat {
        EnemyShotVisit(i, now, pre, q, s, v);
      } else {
        PlayerSideVisit(i, now, pre, q, s, v);
      }
    }

    /** The visit of a moved splat particle or player shot: the enemy hit test, then landing. */
    method PlayerSideVisit(i: nat, now: int, ghost pre: seq<Projectile>, q: Projectile, ghost s: Pass, ghost v: Scene)
      requires |pre| == i && projectiles == pre + [q] + s.kept + s.spawned
      requires q.isSplat || !q.isEnemyProjectile
      requires enemies == s.enemies && damageNumbers == s.numbers
      requires v == Scene(cameraX, platforms, player.Hitbox(), now)
      modifies this`projectiles, this`enemies, this`damageNumbers
      ensures var r := Visit(q, s, v);
        projectiles == pre + r.kept + r.spawned && enemies == r.enemies && damageNumbers == r.numbers
    {
      if q.canDamage {
        var hitEnemy := CheckProjectileCollisions(q, now);
        if hitEnemy {
          projectiles := RemoveAt(projectiles, i);
          Dropped(pre, q, s.kept, s.spawned);
          return;
        }
      }
      LandPlayerSide(i, pre, q, s, v);
    }

    /** A player-side projectile that hit no enemy: a splat particle lands as a splat, a player shot as a shot. */
    method LandPlayerSide(i: nat, ghost pre: seq<Projectile>, ghost q: Projectile, ghost s: Pass, ghost v: Scene)
      requires |pre| == i && projectiles == pre + [q] + s.kept + s.spawned
      requires v.platforms == platforms && v.cameraX == cameraX
      modifies this`projectiles
      ensures var r := if q.isSplat then Settle(q, s, v, q.age > q.lifespan) else Settle(q, s, v, OffscreenX(q, v.cameraX));
        projectiles == pre + r.kept + r.spawned
    {
      if projectiles[i].isSplat {
        LandSplat(i, pre, q, s, v);
      } else {
        LandShot(i, pre, q, s, v);
      }
    }

    /** The visit of a moved enemy shot: the player hit test, then landing. */
    method EnemyShotVisit(i: nat, now: int, ghost pre: seq<Projectile>, q: Projectile, ghost s: Pass, ghost v: Scene)
      requires |pre| == i && projectiles == pre + [q] + s.kept + s.spawned
      requires q.isEnemyProjectile && !q.isSplat
      requires damageNumbers == s.numbers && VitalsOf() == s.vitals
      requires player.invulnerable == s.invulnerable && player.lastDamageTime == s.lastDamageTime
      requires v == Scene(cameraX, platforms, player.Hitbox(), now)
      modifies this`projectiles, this`damageNumbers, this`gameOver
      modifies player`health, player`lives, player`invulnerable, player`lastDamageTime
      ensures var r := Visit(q, s, v);
        projectiles == pre + r.kept + r.spawned && damageNumbers == r.numbers &&
        VitalsOf() == r.vitals && player.invulnerable == r.invulnerable && player.lastDamageTime == r.lastDamageTime
    {
      if q.canDamage {
        var hitPlayer := CheckPlayerProjectileCollision(q, now);
        if hitPlayer {
          Assoc(pre + [q] + s.kept, s.spawned, HitEffect(q));
          projectiles := RemoveAt(projectiles, i);
          Dropped(pre, q, s.kept, s.spawned + HitEffect(q));
          return;
        }
      }
      LandEnemyShot(i, pre, q, s, v);
    }

    /** A splat particle that hit no enemy: a surface hit, then old age. */
    method LandSplat(i: nat, ghost pre: seq<Projectile>, ghost q: Projectile, ghost s: Pass, ghost v: Scene)
      requires |pre| == i && projectiles == pre + [q] + s.kept + s.spawned
      requires v.platforms == platforms
      modifies this`projectiles
      ensures var r := Settle(q, s, v, q.age > q.lifespan); projectiles == pre + r.kept + r.spawned
    {
      var projectile := projectiles[i];
      var surface := CheckProjectilePlatformCollision(projectile);
      if surface {
        Assoc(pre + [q] + s.kept, s.spawned, Splash(q));
        projectiles := RemoveAt(projectiles, i);
        Dropped(pre, q, s.kept, s.spawned + Splash(q));
      } else if projectile.age > projectile.lifespan {
        projectiles := RemoveAt(projectiles, i);
        Dropped(pre, q, s.kept, s.spawned);
      } else {
        Assoc(pre, [q], s.kept);
      }
    }

    /** A player shot that hit no enemy: a surface hit, then leaving the view horizontally. */
    method LandShot(i: nat, ghost pre: seq<Projectile>, ghost q: Projectile, ghost s: Pass, ghost v: Scene)
      requires |pre| == i && projectiles == pre + [q] + s.kept + s.spawned
      requires v.platforms == platforms && v.cameraX == cameraX
      modifies this`projectiles
      ensures var r := Settle(q, s, v, OffscreenX(q, v.cameraX)); projectiles == pre + r.kept + r.spawned
    {
      var projectile := projectiles[i];
      var surface := CheckProjectilePlatformCollision(projectile);
      if surface {
        Assoc(pre + [q] + s.kept, s.spawned, Splash(q));
        projectiles := RemoveAt(projectiles, i);
        Dropped(pre, q, s.kept, s.spawned + Splash(q));
      } else if projectile.x < cameraX - ViewMargin || projectile.x > cameraX + CanvasWidth + ViewMargin {
        projectiles := RemoveAt(projectiles, i);
        Dropped(pre, q, s.kept, s.spawned);
      } else {
        Assoc(pre, [q], s.kept);
      }
    }

    /** An enemy shot that missed the player: a surface hit, with its extra splash, then leaving the view. */
    method LandEnemyShot(i: nat, ghost pre: seq<Projectile>, ghost q: Projectile, ghost s: Pass, ghost v: Scene)
      requires |pre| == i && projectiles == pre + [q] + s.kept + s.spawned
      requires v.platforms == platforms && v.cameraX == cameraX
      modifies this`projectiles
      ensures var r := SettleEnemyShot(q, s, v); projectiles == pre + r.kept + r.spawned
    {
      var projectile := projectiles[i];
      var surface := CheckProjectilePlatformCollision(projectile);
      if surface {
        CreateProjectileSplashEffect(projectile);
        Assoc(pre + [q] + s.kept, s.spawned, Splash(q));
        Assoc(pre + [q] + s.kept, s.spawned + Splash(q), Splash(q));
        projectiles := RemoveAt(projectiles, i);
        Dropped(pre, q, s.kept, s.spawned + Splash(q) + Splash(q));
      } else if Offscreen(projectile, cameraX) {
        projectiles := RemoveAt(projectiles, i);
        Dropped(pre, q, s.kept, s.spawned);
      } else {
        Assoc(pre, [q], s.kept);
      }
    }

    /**
     * The capacity limit, then the pass over the list from its end: the result is the pass over the
     * culled list, started from the current enemies, numbers and player damage state.
     */
    method UpdateProjectiles(now: int)
      modifies this`projectiles, this`enemies, this`damageNumbers, this`gameOver
      modifies player`health, player`lives, player`invulnerable, player`lastDamageTime
      ensures Mirrors([], SweepAll(Cull(old(projectiles)),
          Pass([], [], old(enemies), old(damageNumbers), old(VitalsOf()), old(player.invulnerable), old(player.lastDamageTime)),
          Scene(cameraX, platforms, player.Hitbox(), now)))
    {
      CullProjectiles();
      SweepProjectiles(now);
    }

    /** While the list is over capacity and a cosmetic particle is left, the youngest cosmetic particle is removed. */
    method CullProjectiles()
      modifies this`projectiles
      ensures projectiles == Cull(old(projectiles))
    {
      if |projectiles| > MaxProjectiles {
        while |projectiles| > MaxProjectiles && Youngest(projectiles).Some?
          invariant Cull(projectiles) == Cull(old(projectiles))
          decreases |projectiles|
        {
          var index := Youngest(projectiles).value;
          projectiles := RemoveAt(projectiles, index);
        }
      }
    }

    /** The pass over the list from its end, each entry's turn in place. */
    method SweepProjectiles(now: int)
      modifies this`projectiles, this`enemies, this`damageNumbers, this`gameOver
      modifies player`health, player`lives, player`invulnerable, player`lastDamageTime
      ensures Mirrors([], SweepAll(old(projectiles),
          Pass([], [], old(enemies), old(damageNumbers), old(VitalsOf()), old(player.invulnerable), old(player.lastDamageTime)),
          Scene(cameraX, platforms, player.Hitbox(), now)))
    {
      var c := projectiles;
      ghost var s0 := Pass([], [], enemies, damageNumbers, VitalsOf(), player.invulnerable, player.lastDamageTime);
      ghost var v := Scene(cameraX, platforms, player.Hitbox(), now);
      var i := |c|;
      assert c[..i] + [] + [] == c;
      while i > 0
        invariant 0 <= i <= |c|
        invariant Mirrors(c[..i], SweepAll(c[i..], s0, v))
        invariant v == Scene(cameraX, platforms, player.Hitbox(), now)
      {
        i := i - 1;
        ghost var r := SweepAll(c[i + 1..], s0, v);
        SweepOneMore(c, i, s0, v);
        assert c[..i + 1] == c[..i] + [c[i]];
        ProjectileTurn(i, now, c[..i], c[i], r, v);
      }
      assert c[0..] == c;
    }
  }
}
