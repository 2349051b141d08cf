/** The records the simulation keeps in its lists, and the constants they are built from. */
module Entities {
  import opened Geometry

  datatype Option<T> = None | Some(value: T)

  /** The input intents, as the key listeners leave them for the frame step. */
  datatype Keys = Keys(right: bool, left: bool, up: bool, space: bool)

  /** The three selectable heroes. */
  datatype Character = Hero1 | Hero2 | Hero3

  // The canvas the camera shows.
  const CanvasWidth: real := 800.0
  const CanvasHeight: real := 600.0

  // The world: gravity per frame and the ground line.
  const Gravity: real := 0.8
  const GroundY: real := 550.0

  /**
   * Every transient ballistic entity: straight player shots, arcing enemy shots and splat particles.
   * An absent numeric field of the source record is 0 here (`speed` of a particle, `damage` of a
   * splash particle, `age` and `lifespan` of a shot).
   */
  datatype Projectile = Projectile(
    x: real, y: real, width: real, height: real,
    speed: real,           // single horizontal speed of a player shot; 0 when the record has speedX/speedY
    speedX: real, speedY: real, gravity: real,
    age: real, lifespan: real,
    damage: real,
    canDamage: bool, isSplat: bool, isEnemyProjectile: bool)

  /** A particle that is only a visual effect: the only kind the capacity limit may remove. */
  predicate Cosmetic(p: Projectile) {
    p.isSplat && !p.canDamage
  }

  /** The projectile's hitbox as the enemy and player hit tests use it (corner at x, y). */
  function ProjectileBox(p: Projectile): Box {
    Box(p.x, p.y, p.width, p.height)
  }

  /** An OctoSlob enemy, the only enemy type the level spawns. */
  datatype Enemy = Enemy(
    x: real, y: real, width: real, height: real,
    health: real,
    damaged: bool, damageTime: int,
    animationFrame: int, animationCounter: real,
    direction: int,
    lastShotTime: real,
    facingRight: bool,
    onPlatform: bool)

  function EnemyBox(e: Enemy): Box {
    Box(e.x, e.y, e.width, e.height)
  }

  /** A static platform rectangle. */
  datatype Platform = Platform(x: real, y: real, width: real, height: real)

  datatype Colour = Red | Orange | Yellow

  /** A floating damage number. */
  datatype DamageNumber = DamageNumber(
    x: real, y: real, value: real, colour: Colour,
    age: int, lifespan: int, velocityY: real, isPlayerDamage: bool)
}
