/**
 * The projectile system: what each kind of projectile looks like when spawned, how it moves,
 * which tests remove it, which enemy a hit lands on, and the capacity limit on the list.
 */
module Projectiles {
  import opened Geometry
  import opened Entities
  import opened Motion

  const MaxProjectiles: nat := 100
  /** How far outside the camera's view a projectile may go before it is culled. */
  const ViewMargin: real := 100.0
  /** Damage of a hit whose projectile carries no damage of its own. */
  const DefaultHitDamage: real := 15.0

  // ---------------------------------------------------------------- spawning

  /** hero1's ink shot, leaving the player's front edge at mid height. */
  function InkShot(px: real, py: real, facingRight: bool): (p: Projectile)
    ensures p.canDamage && !p.isSplat && !p.isEnemyProjectile && p.damage == 15.0
    ensures p.speed == if facingRight then 10.0 else -10.0
    ensures p.x == (if facingRight then px + PlayerWidth else px) && p.y == py + PlayerHeight / 2.0
  {
    Projectile(if facingRight then px + PlayerWidth else px, py + PlayerHeight / 2.0, 15.0, 15.0,
      if facingRight then 10.0 else -10.0, 0.0, 0.0, 0.0, 0.0, 0.0, 15.0, true, false, false)
  }

  /** hero3's charged shot: larger, faster, 10 damage times the barrage multiplier. */
  function ChargedShot(px: real, py: real, facingRight: bool, multiplier: real): (p: Projectile)
    ensures p.canDamage && !p.isSplat && !p.isEnemyProjectile && p.damage == 10.0 * multiplier
    ensures p.speed == if facingRight then 12.0 else -12.0
    ensures p.width == 18.0 && p.height == 18.0
  {
    Projectile(if facingRight then px + PlayerWidth else px, py + PlayerHeight / 2.0, 18.0, 18.0,
      if facingRight then 12.0 else -12.0, 0.0, 0.0, 0.0, 0.0, 0.0, 10.0 * multiplier, true, false, false)
  }

  /**
   * hero2's close-range ink splat: 8 damaging particles, or 10 when airborne, each doing 5 damage
   * (7.5 airborne).
   */
  function InkSplat(px: real, py: real, facingRight: bool, airborne: bool): (ps: seq<Projectile>)
    ensures |ps| == if airborne then 10 else 8
    ensures forall k :: 0 <= k < |ps| ==>
      ps[k].isSplat && ps[k].canDamage && !ps[k].isEnemyProjectile &&
      ps[k].damage == (if airborne then 7.5 else 5.0)
  {
    Copies(if airborne then 10 else 8, SplatParticle(px, py, facingRight, airborne))
  }

  /**
   * One particle of the ink splat, thrown from beside the player at mid height. Its random cone
   * angle is taken as 0 (straight ahead) and its random speed, size, lifespan and start age at the
   * low end of their ranges.
   */
  function SplatParticle(px: real, py: real, facingRight: bool, airborne: bool): (p: Projectile)
    ensures p.isSplat && p.canDamage && !p.isEnemyProjectile && p.damage == (if airborne then 7.5 else 5.0)
    ensures p.x == px + (if facingRight then PlayerWidth + 10.0 else -50.0) && p.y == py + PlayerHeight / 2.0
    ensures facingRight <==> p.speedX > 0.0
  {
    var direction := if facingRight then 1.0 else -1.0;
    var speedMultiplier := if airborne then 1.75 else 1.0;
    Projectile(
      px + (if facingRight then PlayerWidth + 10.0 else -50.0), py + PlayerHeight / 2.0, 10.0, 10.0,
      0.0, 3.0 * speedMultiplier * direction, if airborne then -3.0 else -2.0, 0.2,
      0.0, 20.0, 5.0 * (if airborne then 1.5 else 1.0), true, true, false)
  }

  /** `n` copies of one particle, as a spawning loop pushes them. */
  function Copies(n: nat, p: Projectile): (ps: seq<Projectile>)
    ensures |ps| == n && forall k :: 0 <= k < n ==> ps[k] == p
  {
    seq(n, _ => p)
  }

  /** A visual particle thrown from (x, y): isSplat, never damaging, of age 0. */
  function Particle(x: real, y: real, size: real, speed: real, lift: real, lifespan: real): (p: Projectile)
    ensures Cosmetic(p) && p.x == x && p.y == y && p.age == 0.0 && p.lifespan == lifespan
  {
    Projectile(x, y, size, size, 0.0, speed, lift, 0.2, 0.0, lifespan, 0.0, false, true, false)
  }

  /**
   * `n` visual particles thrown from one point: isSplat, never damaging, of age 0. Their random
   * angle and speed are taken at angle 0 and the given base speed.
   */
  function Burst(n: nat, x: real, y: real, size: real, speed: real, lift: real, lifespan: real): (ps: seq<Projectile>)
    ensures |ps| == n
    ensures forall k :: 0 <= k < n ==> Cosmetic(ps[k]) && ps[k].x == x && ps[k].y == y && ps[k].age == 0.0
  {
    Copies(n, Particle(x, y, size, speed, lift, lifespan))
  }

  /** Particle count of a surface splash: 3 plus a fifth of the width, rounded down, at most 8. */
  function SplashCount(width: real): (n: int)
    ensures n <= 8
    ensures width >= 0.0 ==> 3 <= n
    ensures n == 8 <==> width >= 25.0
    ensures width < 25.0 ==> n as real <= 3.0 + width / 5.0 < n as real + 1.0
  {
    var f := (3.0 + width / 5.0).Floor;
    if f < 8 then f else 8
  }

  /** The splash burst a projectile throws when it hits ground or a platform. */
  function Splash(p: Projectile): (ps: seq<Projectile>)
    ensures |ps| == (if SplashCount(p.width) < 0 then 0 else SplashCount(p.width))
    ensures forall k :: 0 <= k < |ps| ==> Cosmetic(ps[k])
  {
    var n := SplashCount(p.width);
    Burst(if n < 0 then 0 else n, p.x, p.y, 0.0, 1.0, -1.0, 8.0)
  }

  /** The sizes of the game's own shots give these splash counts. */
  lemma SplashCountsOfShots()
    ensures SplashCount(12.0) == 5   // an OctoSlob shot
    ensures SplashCount(15.0) == 6   // hero1's ink shot
    ensures SplashCount(18.0) == 6   // hero3's charged shot
    ensures SplashCount(10.0) == 5   // a splat particle
  {
  }

  // ---------------------------------------------------------------- motion and removal tests

  /**
   * One frame of motion. Splat particles and enemy shots fall under their own gravity; splat
   * particles also age by one frame; player shots move by `speed` or, without one, by speedX/speedY.
   */
  function Moved(p: Projectile): (q: Projectile)
    ensures q.width == p.width && q.height == p.height && q.damage == p.damage && q.lifespan == p.lifespan
    ensures q.canDamage == p.canDamage && q.isSplat == p.isSplat && q.isEnemyProjectile == p.isEnemyProjectile
    ensures q.age == if p.isSplat then p.age + 1.0 else p.age
    ensures !p.isSplat && !p.isEnemyProjectile ==> q.speedY == p.speedY
  {
    if p.isSplat then
      var sy := p.speedY + p.gravity;
      p.(speedY := sy, x := p.x + p.speedX, y := p.y + sy, age := p.age + 1.0)
    else if p.isEnemyProjectile then
      var sy := p.speedY + p.gravity;
      p.(speedY := sy, x := p.x + p.speedX, y := p.y + sy)
    else if p.speed != 0.0 then
      p.(x := p.x + p.speed)
    else
      p.(x := p.x + p.speedX, y := p.y + p.speedY)
  }

  /** Out of the camera's view by more than the margin, horizontally. */
  predicate OffscreenX(p: Projectile, cameraX: real) {
    p.x < cameraX - ViewMargin || p.x > cameraX + CanvasWidth + ViewMargin
  }

  /** Out of view horizontally, or fallen more than the margin below the canvas. */
  predicate Offscreen(p: Projectile, cameraX: real) {
    OffscreenX(p, cameraX) || p.y > CanvasHeight + ViewMargin
  }

  /** The platform test for one platform: the projectile's centred box meets it on the top edge, or fast. */
  predicate StrikesPlatform(p: Projectile, pl: Platform) {
    p.x - p.width / 2.0 < pl.x + pl.width &&
    p.x + p.width / 2.0 > pl.x &&
    p.y - p.height / 2.0 < pl.y + pl.height &&
    p.y + p.height / 2.0 > pl.y &&
    ((p.y + p.height / 2.0 > pl.y && p.y - p.height / 2.0 < pl.y) ||
     (p.speedY > 2.0 || p.speedY < -2.0 || p.speedX > 2.0 || p.speedX < -2.0))
  }

  /** The platform test over a list of platforms, taken in order. */
  predicate StrikesAny(p: Projectile, platforms: seq<Platform>)
    decreases |platforms|
  {
    platforms != [] && (StrikesPlatform(p, platforms[0]) || StrikesAny(p, platforms[1..]))
  }

  /** Taking the platforms in order finds a strike exactly when some platform is struck. */
  lemma {:induction false} StrikesAnyMeansSome(p: Projectile, platforms: seq<Platform>)
    ensures StrikesAny(p, platforms) <==> exists k :: 0 <= k < |platforms| && StrikesPlatform(p, platforms[k])
    decreases |platforms|
  {
    if platforms != [] {
      StrikesAnyMeansSome(p, platforms[1..]);
      if StrikesAny(p, platforms[1..]) {
        var k :| 0 <= k < |platforms[1..]| && StrikesPlatform(p, platforms[1..][k]);
        assert StrikesPlatform(p, platforms[k + 1]);
      }
      if exists k :: 0 <= k < |platforms| && StrikesPlatform(p, platforms[k]) {
        var k :| 0 <= k < |platforms| && StrikesPlatform(p, platforms[k]);
        if k > 0 {
          assert platforms[1..][k - 1] == platforms[k];
        }
      }
    }
  }

  /** The projectile has reached the ground or struck some platform. */
  predicate SurfaceHit(p: Projectile, platforms: seq<Platform>) {
    p.y + p.height / 2.0 >= GroundY || StrikesAny(p, platforms)
  }

  /**
   * The removal tests of one projectile's turn other than a hit on a target: a cosmetic particle
   * found off screen before moving, or one of the tests after moving.
   */
  predicate Removed(p: Projectile, cameraX: real, platforms: seq<Platform>) {
    (Offscreen(p, cameraX) && Cosmetic(p)) || Expired(Moved(p), cameraX, platforms)
  }

  /**
   * The removal tests of a moved projectile: a surface hit, a splat particle's old age, an enemy
   * shot off screen, or a player shot off screen horizontally.
   */
  predicate Expired(q: Projectile, cameraX: real, platforms: seq<Platform>) {
    SurfaceHit(q, platforms) ||
    (q.isSplat && q.age > q.lifespan) ||
    (!q.isSplat && q.isEnemyProjectile && Offscreen(q, cameraX)) ||
    (!q.isSplat && !q.isEnemyProjectile && OffscreenX(q, cameraX))
  }

  // ---------------------------------------------------------------- hits on enemies

  /** What a hit takes off: the projectile's damage, or the default when it has none. */
  function HitDamage(p: Projectile): (d: real)
    ensures p.damage != 0.0 ==> d == p.damage
    ensures p.damage == 0.0 ==> d == DefaultHitDamage
  {
    if p.damage != 0.0 then p.damage else DefaultHitDamage
  }

  /** An enemy after a hit of `amount`, at time `now`: health floored at 0, hit flash started. */
  function Struck(e: Enemy, amount: real, now: int): (r: Enemy)
    ensures r.health >= 0.0
    ensures amount >= 0.0 && e.health >= 0.0 ==> r.health <= e.health
    ensures r.health == e.health - amount || (r.health == 0.0 && e.health < amount)
    ensures r.damaged && r.damageTime == now
    ensures r == e.(health := r.health, damaged := true, damageTime := now)
  {
    e.(health := if e.health - amount > 0.0 then e.health - amount else 0.0, damaged := true, damageTime := now)
  }

  /**
   * The enemy a projectile hits: enemies are tried from the end of the list, so it is the
   * overlapping enemy with the highest index.
   */
  function HitIndex(b: Box, es: seq<Enemy>): (r: Option<nat>)
    ensures r.Some? ==> r.value < |es| && Overlap(b, EnemyBox(es[r.value]))
    ensures r.Some? ==> forall k :: r.value < k < |es| ==> !Overlap(b, EnemyBox(es[k]))
    ensures r.None? <==> forall k :: 0 <= k < |es| ==> !Overlap(b, EnemyBox(es[k]))
  {
    if es == [] then None
    else if Overlap(b, EnemyBox(es[|es| - 1])) then Some(|es| - 1)
    else HitIndex(b, es[..|es| - 1])
  }

  // ---------------------------------------------------------------- capacity limit

  /**
   * The cosmetic particle the capacity limit removes next: the smallest age, and of equal ages
   * the one latest in the list (the last element of a stable descending sort by age).
   */
  function Youngest(ps: seq<Projectile>): (r: Option<nat>)
    ensures r.None? <==> forall k :: 0 <= k < |ps| ==> !Cosmetic(ps[k])
    ensures r.Some? ==> r.value < |ps| && Cosmetic(ps[r.value])
    ensures r.Some? ==> forall k :: 0 <= k < |ps| && Cosmetic(ps[k]) ==> ps[r.value].age <= ps[k].age
    ensures r.Some? ==> forall k :: r.value < k < |ps| && Cosmetic(ps[k]) ==> ps[r.value].age < ps[k].age
  {
    if ps == [] then None
    else match Youngest(ps[1..])
      case None => if Cosmetic(ps[0]) then Some(0) else None
      case Some(k) => if Cosmetic(ps[0]) && ps[0].age < ps[k + 1].age then Some(0) else Some(k + 1)
  }

  function RemoveAt<T>(s: seq<T>, k: nat): (r: seq<T>)
    requires k < |s|
    ensures |r| == |s| - 1
  {
    s[..k] + s[k + 1..]
  }

  /** Removing an entry takes exactly that entry out of the list's multiset. */
  lemma RemoveAtMultiset<T>(s: seq<T>, k: nat)
    requires k < |s|
    ensures multiset(RemoveAt(s, k)) + multiset{s[k]} == multiset(s)
  {
    assert s == s[..k] + [s[k]] + s[k + 1..];
  }

  /** Removing a later entry leaves the first one in front. */
  lemma RemoveAtTail<T>(s: seq<T>, k: nat)
    requires 0 < k < |s|
    ensures RemoveAt(s, k) == [s[0]] + RemoveAt(s[1..], k - 1)
    ensures RemoveAt(s, k)[0] == s[0] && RemoveAt(s, k)[1..] == RemoveAt(s[1..], k - 1)
  {
    assert s[..k] == [s[0]] + s[1..][..k - 1];
    assert s[k + 1..] == s[1..][k..];
  }

  /** The projectiles that take part in play, in list order. */
  function Essential(ps: seq<Projectile>): (r: seq<Projectile>)
    ensures |r| <= |ps|
    ensures forall k :: 0 <= k < |r| ==> !Cosmetic(r[k])
  {
    if ps == [] then [] else (if Cosmetic(ps[0]) then [] else [ps[0]]) + Essential(ps[1..])
  }

  function CosmeticCount(ps: seq<Projectile>): (n: nat)
    ensures n + |Essential(ps)| == |ps|
    ensures n == 0 <==> forall k :: 0 <= k < |ps| ==> !Cosmetic(ps[k])
  {
    if ps == [] then 0 else (if Cosmetic(ps[0]) then 1 else 0) + CosmeticCount(ps[1..])
  }

  lemma {:induction false} RemoveCosmetic(ps: seq<Projectile>, k: nat)
    requires k < |ps| && Cosmetic(ps[k])
    ensures Essential(RemoveAt(ps, k)) == Essential(ps)
    ensures CosmeticCount(RemoveAt(ps, k)) == CosmeticCount(ps) - 1
    ensures multiset(RemoveAt(ps, k)) + multiset{ps[k]} == multiset(ps)
  {
    assert ps == ps[..k] + [ps[k]] + ps[k + 1..];
    if k > 0 {
      RemoveCosmetic(ps[1..], k - 1);
      RemoveAtTail(ps, k);
    } else {
      assert RemoveAt(ps, k) == ps[1..];
    }
  }

  /**
   * The capacity limit: while the list is over 100 entries and a cosmetic particle is left, the
   * youngest cosmetic particle is removed.
   */
  function Cull(ps: seq<Projectile>): (r: seq<Projectile>)
    // the loop does not start at or below the limit, and never adds an entry
    ensures |ps| <= MaxProjectiles ==> r == ps
    ensures |r| <= |ps|
    decreases |ps|, 1
  {
    if |ps| <= MaxProjectiles then ps else CullNext(ps)
  }

  /** The limit over a list above it: the youngest cosmetic particle goes, if there is one. */
  function CullNext(ps: seq<Projectile>): (r: seq<Projectile>)
    decreases |ps|, 0
  {
    match Youngest(ps)
      case None => ps
      case Some(k) => Cull(RemoveAt(ps, k))
  }

  /** The limit only removes entries of the list. */
  lemma {:induction false} CullWithin(ps: seq<Projectile>)
    ensures multiset(Cull(ps)) <= multiset(ps)
    decreases |ps|
  {
    if |ps| > MaxProjectiles {
      match Youngest(ps)
      case None =>
      case Some(k) =>
        RemoveAtMultiset(ps, k);
        CullWithin(RemoveAt(ps, k));
    }
  }

  /**
   * What the limit keeps: everything that takes part in play, in order; and it stops at the limit
   * or when the cosmetic particles run out.
   */
  lemma {:induction false} CullFacts(ps: seq<Projectile>)
    ensures Essential(Cull(ps)) == Essential(ps)
    ensures |ps| > MaxProjectiles ==>
      |Cull(ps)| == if |Essential(ps)| > MaxProjectiles then |Essential(ps)| else MaxProjectiles
    decreases |ps|
  {
    if |ps| > MaxProjectiles {
      match Youngest(ps)
      case None =>
        assert CosmeticCount(ps) == 0;
      case Some(k) =>
        RemoveCosmetic(ps, k);
        CullFacts(RemoveAt(ps, k));
    }
  }

  /**
   * The particles the limit removes are never older than the cosmetic particles it keeps: it
   * removes the youngest first.
   */
  lemma {:induction false} CullSparesOlder(ps: seq<Projectile>, gone: Projectile, kept: Projectile)
    requires gone in multiset(ps) - multiset(Cull(ps))
    requires kept in Cull(ps) && Cosmetic(kept)
    ensures Cosmetic(gone) && gone.age <= kept.age
    decreases |ps|
  {
    if |ps| > MaxProjectiles {
      match Youngest(ps)
      case None =>
      case Some(k) =>
        var rest := RemoveAt(ps, k);
        RemoveAtMultiset(ps, k);
        CullWithin(rest);
        assert Cull(ps) == Cull(rest);
        assert kept in multiset(rest);
        if gone == ps[k] {
          assert kept in multiset(ps);
          var j :| 0 <= j < |ps| && ps[j] == kept;
        } else {
          assert gone in multiset(rest) - multiset(Cull(rest));
          CullSparesOlder(rest, gone, kept);
        }
    }
  }
}
