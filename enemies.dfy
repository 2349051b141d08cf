/**
 * Enemy upkeep (removal of the dead, hit flash, animation, the OctoSlob's aimed shot), the
 * contact-damage aura's effect on enemies, and the floating damage numbers.
 */
module Enemies {
  import opened Geometry
  import opened Entities
  import opened Motion
  import opened Abilities
  import opened Projectiles

  const EnemyWidth: real := 50.0
  const EnemyHeight: real := 50.0
  const EnemyHealth: real := 100.0
  const EnemyShootCooldown: real := 3000.0
  const EnemyProjectileSize: real := 12.0
  const EnemyProjectileDamage: real := 5.0
  const DetectionRange: real := 400.0
  const FlashDuration: int := 200
  const AnimationFrames: int := 4
  const AnimationSpeed: real := 0.1

  /**
   * An enemy shot's velocity for a given offset (dx, dy) from the enemy's centre to the player's:
   * the projectile speed along the angle atan2(dy, dx). Trigonometry stays outside the model, so the
   * frame step receives this as a parameter.
   */
  type Aim = (real, real) -> Velocity
  datatype Velocity = Velocity(vx: real, vy: real)

  // ---------------------------------------------------------------- damage numbers

  const NumberLifespan: int := 40
  const NumberRise: real := -1.5

  /** Colour of a number: red for damage to the player; else red from 20, orange from 10, yellow below. */
  function NumberColour(value: real, isPlayerDamage: bool): (c: Colour)
    ensures isPlayerDamage ==> c == Red
    ensures !isPlayerDamage ==> (c == Red <==> value >= 20.0)
    ensures !isPlayerDamage ==> (c == Orange <==> 10.0 <= value < 20.0)
    ensures !isPlayerDamage ==> (c == Yellow <==> value < 10.0)
  {
    if isPlayerDamage then Red else if value >= 20.0 then Red else if value >= 10.0 then Orange else Yellow
  }

  /** The numbers created for `value` at (x, y): none for a value that is not positive, else one, 20 above. */
  function NumberFor(x: real, y: real, value: real, isPlayerDamage: bool): (ns: seq<DamageNumber>)
    ensures |ns| <= 1
    ensures |ns| == 1 <==> value > 0.0
    ensures |ns| == 1 ==>
      ns[0].value == value && ns[0].x == x && ns[0].y == y - 20.0 && ns[0].age == 0 && ns[0].lifespan == NumberLifespan &&
      ns[0].colour == NumberColour(value, isPlayerDamage) && ns[0].isPlayerDamage == isPlayerDamage
  {
    if value <= 0.0 then []
    else [DamageNumber(x, y - 20.0, value, NumberColour(value, isPlayerDamage), 0, NumberLifespan, NumberRise, isPlayerDamage)]
  }

  /** One frame of a number: it rises and ages by one frame. */
  function Aged(n: DamageNumber): DamageNumber {
    n.(y := n.y + n.velocityY, age := n.age + 1)
  }

  /** One frame of the whole list: every number ages, and those reaching their lifespan are dropped. */
  function AgeNumbers(ns: seq<DamageNumber>): (r: seq<DamageNumber>)
    ensures |r| <= |ns|
    decreases |ns|, 1
  {
    if ns == [] then [] else AgeNext(ns)
  }

  /** A frame of a non-empty list: the first number, then the rest. */
  function AgeNext(ns: seq<DamageNumber>): (r: seq<DamageNumber>)
    requires ns != []
    decreases |ns|, 0
  {
    var m := Aged(ns[0]);
    (if m.age >= m.lifespan then [] else [m]) + AgeNumbers(ns[1..])
  }

  /** No number left after a frame has reached its lifespan, and none is left if all reach it. */
  lemma {:induction false} AgeNumbersFacts(ns: seq<DamageNumber>)
    ensures forall k :: 0 <= k < |AgeNumbers(ns)| ==> AgeNumbers(ns)[k].age < AgeNumbers(ns)[k].lifespan
    ensures (forall k :: 0 <= k < |ns| ==> ns[k].age + 1 >= ns[k].lifespan) ==> AgeNumbers(ns) == []
    decreases |ns|
  {
    if ns != [] {
      var rest := AgeNumbers(ns[1..]);
      AgeNumbersFacts(ns[1..]);
      var m := Aged(ns[0]);
      var head := if m.age >= m.lifespan then [] else [m];
      var r := AgeNumbers(ns);
      assert r == head + rest;
      forall k | 0 <= k < |r| ensures r[k].age < r[k].lifespan {
        if k >= |head| {
          assert r[k] == rest[k - |head|];
        }
      }
      if forall k :: 0 <= k < |ns| ==> ns[k].age + 1 >= ns[k].lifespan {
        assert forall k :: 0 <= k < |ns[1..]| ==> ns[1..][k].age + 1 >= ns[1..][k].lifespan by {
          forall k | 0 <= k < |ns[1..]| ensures ns[1..][k].age + 1 >= ns[1..][k].lifespan {
            assert ns[1..][k] == ns[k + 1];
          }
        }
        assert ns[0].age + 1 >= ns[0].lifespan;
      }
    }
  }

  /** Every number left after a frame is one of the numbers before it, aged by one frame. */
  lemma {:induction false} AgedFromBefore(ns: seq<DamageNumber>)
    ensures forall k :: 0 <= k < |AgeNumbers(ns)| ==> exists j :: 0 <= j < |ns| && AgeNumbers(ns)[k] == Aged(ns[j])
    decreases |ns|
  {
    if ns != [] {
      var m := Aged(ns[0]);
      var rest := AgeNumbers(ns[1..]);
      AgedFromBefore(ns[1..]);
      var head := if m.age >= m.lifespan then [] else [m];
      assert AgeNumbers(ns) == AgeNext(ns) == head + rest;
      forall k | 0 <= k < |AgeNumbers(ns)| ensures exists j :: 0 <= j < |ns| && AgeNumbers(ns)[k] == Aged(ns[j]) {
        if k < |head| {
          assert AgeNumbers(ns)[k] == Aged(ns[0]);
        } else {
          var j :| 0 <= j < |ns[1..]| && rest[k - |head|] == Aged(ns[1..][j]);
          assert ns[1..][j] == ns[j + 1];
          assert AgeNumbers(ns)[k] == Aged(ns[j + 1]);
        }
      }
    } else {
      assert |AgeNumbers(ns)| == 0;
    }
  }

  function AgeNumbersN(ns: seq<DamageNumber>, frames: nat): seq<DamageNumber>
    decreases frames
  {
    if frames == 0 then ns else AgeNumbersN(AgeNumbers(ns), frames - 1)
  }

  /**
   * A number lives exactly `lifespan - age` frames: it is still shown, with its value, after fewer
   * updates and gone after that many. A fresh number (age 0, lifespan 40) is shown for 39 updates.
   */
  lemma {:induction false} NumberLifetime(n: DamageNumber, frames: nat)
    requires 0 <= n.age < n.lifespan
    ensures |AgeNumbersN([n], frames)| == if frames < n.lifespan - n.age then 1 else 0
    ensures frames < n.lifespan - n.age ==>
      AgeNumbersN([n], frames)[0] == n.(y := AgeNumbersN([n], frames)[0].y, age := n.age + frames)
    decreases frames
  {
    if frames > 0 {
      var m := Aged(n);
      assert AgeNumbersN([n], frames) == AgeNumbersN(AgeNumbers([n]), frames - 1);
      if m.age >= m.lifespan {
        assert AgeNumbers([n]) == [];
        EmptyStaysEmpty(frames - 1);
      } else {
        assert AgeNumbers([n]) == [m];
        NumberLifetime(m, frames - 1);
      }
    }
  }

  lemma {:induction false} EmptyStaysEmpty(frames: nat)
    ensures AgeNumbersN([], frames) == []
  {
    if frames > 0 {
      EmptyStaysEmpty(frames - 1);
    }
  }

  // ---------------------------------------------------------------- enemy upkeep

  /** An OctoSlob shoots when the player is within range horizontally and its cooldown has passed. */
  predicate Fires(e: Enemy, playerX: real, now: int) {
    var distance := if e.x - playerX >= 0.0 then e.x - playerX else playerX - e.x;
    distance < DetectionRange && (now as real) - e.lastShotTime > EnemyShootCooldown
  }

  /** Offset from the enemy's centre to the player's centre. */
  function AimOffset(e: Enemy, playerX: real, playerY: real): (real, real) {
    (playerX + PlayerWidth / 2.0 - (e.x + e.width / 2.0), playerY + PlayerHeight / 2.0 - (e.y + e.height / 2.0))
  }

  /** The arcing shot an OctoSlob fires from its centre towards the player. */
  function EnemyShot(e: Enemy, playerX: real, playerY: real, aim: Aim): (p: Projectile)
    ensures p.isEnemyProjectile && p.canDamage && !p.isSplat && p.damage == EnemyProjectileDamage
    ensures p.x == e.x + e.width / 2.0 && p.y == e.y + e.height / 2.0
    ensures p.width == EnemyProjectileSize && p.gravity == 0.05
  {
    var (dx, dy) := AimOffset(e, playerX, playerY);
    var v := aim(dx, dy);
    Projectile(e.x + e.width / 2.0, e.y + e.height / 2.0, EnemyProjectileSize, EnemyProjectileSize,
      0.0, v.vx, v.vy, 0.05, 0.0, 0.0, EnemyProjectileDamage, true, false, true)
  }

  /**
   * One frame of a living enemy: the hit flash ends 200 ms after the hit, the animation steps
   * through four frames, the enemy faces the player, and it fires when `Fires` holds.
   */
  function EnemyTick(e: Enemy, playerX: real, playerY: real, now: int): (r: Enemy)
    ensures r.x == e.x && r.y == e.y && r.width == e.width && r.height == e.height && r.health == e.health
    ensures r.damageTime == e.damageTime && r.direction == e.direction && r.onPlatform == e.onPlatform
    ensures r.damaged <==> e.damaged && now - e.damageTime <= FlashDuration
    ensures r.animationFrame == e.animationFrame || r.animationFrame == (e.animationFrame + 1) % AnimationFrames
    ensures 0 <= e.animationFrame < AnimationFrames ==> 0 <= r.animationFrame < AnimationFrames
    ensures r.animationFrame != e.animationFrame ==> r.animationCounter == 0.0
    ensures r.lastShotTime == (if Fires(e, playerX, now) then now as real else e.lastShotTime)
    ensures r.facingRight == if Fires(e, playerX, now) then AimOffset(e, playerX, playerY).0 > 0.0 else playerX > e.x
  {
    var e1 := if e.damaged && now - e.damageTime > FlashDuration then e.(damaged := false) else e;
    var counter := e1.animationCounter + AnimationSpeed;
    var e2 :=
      if counter >= 1.0 then e1.(animationCounter := 0.0, animationFrame := (e1.animationFrame + 1) % AnimationFrames)
      else e1.(animationCounter := counter);
    var e3 := e2.(facingRight := playerX > e.x);
    if Fires(e, playerX, now) then e3.(facingRight := AimOffset(e, playerX, playerY).0 > 0.0, lastShotTime := now as real)
    else e3
  }

  /** The enemy list after upkeep: enemies with no health left are dropped, the others ticked, in order. */
  function Upkeep(es: seq<Enemy>, playerX: real, playerY: real, now: int): (r: seq<Enemy>)
    ensures |r| <= |es|
    decreases |es|, 1
  {
    if es == [] then [] else UpkeepNext(es, playerX, playerY, now)
  }

  /** Upkeep of a non-empty list: the first enemy, then the rest. */
  function UpkeepNext(es: seq<Enemy>, playerX: real, playerY: real, now: int): (r: seq<Enemy>)
    requires es != []
    decreases |es|, 0
  {
    (if es[0].health <= 0.0 then [] else [EnemyTick(es[0], playerX, playerY, now)]) + Upkeep(es[1..], playerX, playerY, now)
  }

  /** Upkeep leaves only enemies with health. */
  lemma {:induction false} UpkeepAlive(es: seq<Enemy>, playerX: real, playerY: real, now: int)
    ensures forall k :: 0 <= k < |Upkeep(es, playerX, playerY, now)| ==> Upkeep(es, playerX, playerY, now)[k].health > 0.0
    decreases |es|
  {
    if es != [] {
      var rest := Upkeep(es[1..], playerX, playerY, now);
      UpkeepAlive(es[1..], playerX, playerY, now);
      var head := if es[0].health <= 0.0 then [] else [EnemyTick(es[0], playerX, playerY, now)];
      var r := Upkeep(es, playerX, playerY, now);
      assert r == UpkeepNext(es, playerX, playerY, now) == head + rest;
      forall k | 0 <= k < |r| ensures r[k].health > 0.0 {
        if k >= |head| {
          assert r[k] == rest[k - |head|];
        }
      }
    }
  }

  /** The enemies with health left, in their original order. */
  function Living(es: seq<Enemy>): (r: seq<Enemy>)
    ensures |r| <= |es|
    ensures forall k :: 0 <= k < |r| ==> r[k] in es && r[k].health > 0.0
    ensures forall e :: e in es && e.health > 0.0 ==> e in r
  {
    if es == [] then [] else (if es[0].health > 0.0 then [es[0]] else []) + Living(es[1..])
  }

  /** Upkeep ticks exactly the living enemies, in order: the k-th survivor is the k-th living enemy, ticked. */
  lemma {:induction false} UpkeepTicksLiving(es: seq<Enemy>, playerX: real, playerY: real, now: int)
    ensures |Upkeep(es, playerX, playerY, now)| == |Living(es)|
    ensures forall k :: 0 <= k < |Living(es)| ==> Upkeep(es, playerX, playerY, now)[k] == EnemyTick(Living(es)[k], playerX, playerY, now)
    decreases |es|
  {
    if es != [] {
      UpkeepTicksLiving(es[1..], playerX, playerY, now);
      var r := Upkeep(es, playerX, playerY, now);
      var rest := Upkeep(es[1..], playerX, playerY, now);
      var alive := Living(es);
      var tail := Living(es[1..]);
      if es[0].health <= 0.0 {
        assert r == UpkeepNext(es, playerX, playerY, now) == rest;
        assert alive == tail;
      } else {
        assert r == UpkeepNext(es, playerX, playerY, now) == [EnemyTick(es[0], playerX, playerY, now)] + rest;
        assert alive == [es[0]] + tail;
        forall k | 0 <= k < |alive| ensures r[k] == EnemyTick(alive[k], playerX, playerY, now) {
          if k > 0 {
            assert r[k] == rest[k - 1] && alive[k] == tail[k - 1];
          }
        }
      }
    }
  }

  /** Upkeep drops an enemy exactly when some enemy has no health left. */
  lemma {:induction false} UpkeepDrops(es: seq<Enemy>, playerX: real, playerY: real, now: int)
    ensures |Upkeep(es, playerX, playerY, now)| == |es| <==> forall k :: 0 <= k < |es| ==> es[k].health > 0.0
    decreases |es|
  {
    if es != [] {
      UpkeepDrops(es[1..], playerX, playerY, now);
      if forall k :: 0 <= k < |es| ==> es[k].health > 0.0 {
        assert es[0].health > 0.0;
        assert forall k :: 0 <= k < |es[1..]| ==> es[1..][k].health > 0.0 by {
          forall k | 0 <= k < |es[1..]| ensures es[1..][k].health > 0.0 {
            assert es[1..][k] == es[k + 1];
          }
        }
      } else {
        var k :| 0 <= k < |es| && es[k].health <= 0.0;
        if k > 0 {
          assert es[1..][k - 1] == es[k];
        }
      }
    }
  }

  /** Upkeep keeps every animation frame in its cycle. */
  lemma {:induction false} UpkeepFrames(es: seq<Enemy>, playerX: real, playerY: real, now: int)
    requires forall k :: 0 <= k < |es| ==> 0 <= es[k].animationFrame < AnimationFrames
    ensures forall k :: 0 <= k < |Upkeep(es, playerX, playerY, now)| ==>
      0 <= Upkeep(es, playerX, playerY, now)[k].animationFrame < AnimationFrames
    decreases |es|
  {
    if es != [] {
      var rest := Upkeep(es[1..], playerX, playerY, now);
      assert forall k :: 0 <= k < |es[1..]| ==> 0 <= es[1..][k].animationFrame < AnimationFrames by {
        forall k | 0 <= k < |es[1..]| ensures 0 <= es[1..][k].animationFrame < AnimationFrames {
          assert es[1..][k] == es[k + 1];
        }
      }
      UpkeepFrames(es[1..], playerX, playerY, now);
      var head := if es[0].health <= 0.0 then [] else [EnemyTick(es[0], playerX, playerY, now)];
      var r := Upkeep(es, playerX, playerY, now);
      assert r == head + rest;
      forall k | 0 <= k < |r| ensures 0 <= r[k].animationFrame < AnimationFrames {
        if k >= |head| {
          assert r[k] == rest[k - |head|];
        }
      }
    }
  }

  /** The shots fired during upkeep, in firing order: the list is walked from its end. */
  function Volley(es: seq<Enemy>, playerX: real, playerY: real, now: int, aim: Aim): (ps: seq<Projectile>)
    ensures |ps| <= |es|
    ensures forall k :: 0 <= k < |ps| ==> ps[k].isEnemyProjectile && ps[k].canDamage && !ps[k].isSplat
    decreases |es|, 1
  {
    if es == [] then [] else VolleyNext(es, playerX, playerY, now, aim)
  }

  /** The volley of a non-empty list: the rest's shots, then the first enemy's. */
  function VolleyNext(es: seq<Enemy>, playerX: real, playerY: real, now: int, aim: Aim): (ps: seq<Projectile>)
    requires es != []
    decreases |es|, 0
  {
    Volley(es[1..], playerX, playerY, now, aim) +
    (if es[0].health > 0.0 && Fires(es[0], playerX, now) then [EnemyShot(es[0], playerX, playerY, aim)] else [])
  }

  /** The enemies that fire during upkeep, in list order: those with health whose `Fires` holds. */
  function Shooters(es: seq<Enemy>, playerX: real, now: int): (r: seq<Enemy>)
    ensures |r| <= |es|
    ensures forall k :: 0 <= k < |r| ==> r[k] in es && r[k].health > 0.0 && Fires(r[k], playerX, now)
    ensures forall e :: e in es && e.health > 0.0 && Fires(e, playerX, now) ==> e in r
  {
    if es == [] then []
    else (if es[0].health > 0.0 && Fires(es[0], playerX, now) then [es[0]] else []) + Shooters(es[1..], playerX, now)
  }

  /** One `EnemyShot` per shooter, the last shooter's first: the order the list is walked in. */
  function ShotsOf(s: seq<Enemy>, playerX: real, playerY: real, aim: Aim): (ps: seq<Projectile>)
    ensures |ps| == |s|
    ensures forall k :: 0 <= k < |s| ==> ps[|s| - 1 - k] == EnemyShot(s[k], playerX, playerY, aim)
  {
    if s == [] then [] else ShotsOf(s[1..], playerX, playerY, aim) + [EnemyShot(s[0], playerX, playerY, aim)]
  }

  /** The volley is exactly the shots of the shooters. */
  lemma {:induction false} VolleyShooters(es: seq<Enemy>, playerX: real, playerY: real, now: int, aim: Aim)
    ensures Volley(es, playerX, playerY, now, aim) == ShotsOf(Shooters(es, playerX, now), playerX, playerY, aim)
    decreases |es|
  {
    if es != [] {
      VolleyShooters(es[1..], playerX, playerY, now, aim);
      var rest := Volley(es[1..], playerX, playerY, now, aim);
      var tail := Shooters(es[1..], playerX, now);
      if es[0].health > 0.0 && Fires(es[0], playerX, now) {
        var s := [es[0]] + tail;
        assert Shooters(es, playerX, now) == s;
        assert s[1..] == tail;
        assert ShotsOf(s, playerX, playerY, aim) == ShotsOf(tail, playerX, playerY, aim) + [EnemyShot(es[0], playerX, playerY, aim)];
        assert Volley(es, playerX, playerY, now, aim) == VolleyNext(es, playerX, playerY, now, aim) == rest + [EnemyShot(es[0], playerX, playerY, aim)];
      } else {
        assert Shooters(es, playerX, now) == [] + tail == tail;
        assert Volley(es, playerX, playerY, now, aim) == VolleyNext(es, playerX, playerY, now, aim) == rest + [] == rest;
      }
    }
  }

  /**
   * An enemy with health fires exactly when `Fires` holds: its `EnemyShot` is in the volley, and every
   * shot of the volley is such an enemy's.
   */
  lemma VolleyFires(es: seq<Enemy>, playerX: real, playerY: real, now: int, aim: Aim)
    ensures forall e :: e in es && e.health > 0.0 && Fires(e, playerX, now) ==>
      EnemyShot(e, playerX, playerY, aim) in Volley(es, playerX, playerY, now, aim)
    ensures forall q :: q in Volley(es, playerX, playerY, now, aim) ==>
      exists e :: e in es && e.health > 0.0 && Fires(e, playerX, now) && q == EnemyShot(e, playerX, playerY, aim)
  {
    VolleyShooters(es, playerX, playerY, now, aim);
    ShotsOfMembers(Shooters(es, playerX, now), playerX, playerY, aim);
  }

  /** The shots of a list of shooters are exactly the shots of its members. */
  lemma ShotsOfMembers(s: seq<Enemy>, playerX: real, playerY: real, aim: Aim)
    ensures forall e :: e in s ==> EnemyShot(e, playerX, playerY, aim) in ShotsOf(s, playerX, playerY, aim)
    ensures forall q :: q in ShotsOf(s, playerX, playerY, aim) ==> exists e :: e in s && q == EnemyShot(e, playerX, playerY, aim)
  {
    var v := ShotsOf(s, playerX, playerY, aim);
    forall e | e in s ensures EnemyShot(e, playerX, playerY, aim) in v {
      var k :| 0 <= k < |s| && s[k] == e;
      assert v[|s| - 1 - k] == EnemyShot(e, playerX, playerY, aim);
    }
    forall q | q in v ensures exists e :: e in s && q == EnemyShot(e, playerX, playerY, aim) {
      var i :| 0 <= i < |v| && v[i] == q;
      var k := |s| - 1 - i;
      assert v[|s| - 1 - k] == EnemyShot(s[k], playerX, playerY, aim);
    }
  }

  /** An enemy that has just fired cannot fire again before its cooldown runs out. */
  lemma FiringRestartsCooldown(e: Enemy, playerX: real, playerY: real, now: int, later: int)
    requires Fires(e, playerX, now) && later - now <= 3000
    ensures !Fires(EnemyTick(e, playerX, playerY, now), playerX, later)
  {
  }

  // ---------------------------------------------------------------- contact damage on enemies

  /** The point between the player's centre and the enemy's centre. */
  function ContactPoint(player: Box, e: Enemy): (real, real) {
    ((player.x + player.w / 2.0 + e.x + e.width / 2.0) / 2.0, (player.y + player.h / 2.0 + e.y + e.height / 2.0) / 2.0)
  }

  /** An enemy after one frame of the aura: flat 10 damage, floored at 0, if it touches the player. */
  function Scorched(player: Box, e: Enemy, now: int): (r: Enemy)
    ensures !Overlap(player, EnemyBox(e)) ==> r == e
    ensures Overlap(player, EnemyBox(e)) ==> r.damaged && r.damageTime == now && r.health >= 0.0
    ensures Overlap(player, EnemyBox(e)) && e.health >= ContactDamageAmount ==> r.health == e.health - ContactDamageAmount
    ensures Overlap(player, EnemyBox(e)) && e.health < ContactDamageAmount ==> r.health == 0.0
    ensures EnemyBox(r) == EnemyBox(e)
  {
    if Overlap(player, EnemyBox(e)) then
      e.(health := if e.health - ContactDamageAmount > 0.0 then e.health - ContactDamageAmount else 0.0,
         damaged := true, damageTime := now)
    else e
  }

  function ScorchAll(player: Box, es: seq<Enemy>, now: int): (r: seq<Enemy>)
    ensures |r| == |es|
  {
    if es == [] then [] else [Scorched(player, es[0], now)] + ScorchAll(player, es[1..], now)
  }

  /** The aura treats each enemy on its own: entry `k` after the frame is entry `k` scorched. */
  lemma {:induction false} ScorchEach(player: Box, es: seq<Enemy>, now: int)
    ensures forall k :: 0 <= k < |es| ==> ScorchAll(player, es, now)[k] == Scorched(player, es[k], now)
    decreases |es|
  {
    if es != [] {
      ScorchEach(player, es[1..], now);
      assert forall k :: 1 <= k < |es| ==> es[1..][k - 1] == es[k];
    }
  }

  /**
   * The number one enemy's contact shows: exactly one for a touching enemy with health left, worth
   * the damage dealt (the aura's damage, or the health that was left), at the contact point.
   */
  function ScorchNumber(player: Box, e: Enemy, now: int): (ns: seq<DamageNumber>)
    ensures |ns| == if Overlap(player, EnemyBox(e)) && e.health > 0.0 then 1 else 0
    ensures |ns| == 1 ==>
      ns[0].value == (if e.health >= ContactDamageAmount then ContactDamageAmount else e.health) &&
      ns[0].x == ContactPoint(player, e).0 && ns[0].y == ContactPoint(player, e).1 - 20.0 && !ns[0].isPlayerDamage
  {
    if Overlap(player, EnemyBox(e)) then
      NumberFor(ContactPoint(player, e).0, ContactPoint(player, e).1, e.health - Scorched(player, e, now).health, false)
    else []
  }

  /** The particles one enemy's contact throws: none when it does not touch the player. */
  function ScorchSpark(player: Box, e: Enemy): (ps: seq<Projectile>)
    ensures |ps| == if Overlap(player, EnemyBox(e)) then 5 else 0
  {
    if Overlap(player, EnemyBox(e)) then ContactSplat(ContactPoint(player, e).0, ContactPoint(player, e).1) else []
  }

  /** The damage numbers of one frame of the aura, in the order the list is walked (from its end). */
  function ScorchNumbers(player: Box, es: seq<Enemy>, now: int): (ns: seq<DamageNumber>)
    ensures |ns| <= |es|
  {
    if es == [] then [] else ScorchNumbers(player, es[1..], now) + ScorchNumber(player, es[0], now)
  }

  /** The enemies one frame of the aura damages, in list order: touching and with health left. */
  function Burning(player: Box, es: seq<Enemy>): (r: seq<Enemy>)
    ensures |r| <= |es|
    ensures forall k :: 0 <= k < |r| ==> r[k] in es && Overlap(player, EnemyBox(r[k])) && r[k].health > 0.0
    ensures forall e :: e in es && Overlap(player, EnemyBox(e)) && e.health > 0.0 ==> e in r
  {
    if es == [] then []
    else (if Overlap(player, EnemyBox(es[0])) && es[0].health > 0.0 then [es[0]] else []) + Burning(player, es[1..])
  }

  /** Only the damaged enemies show numbers: the aura's numbers are those of `Burning`. */
  lemma {:induction false} ScorchNumbersBurning(player: Box, es: seq<Enemy>, now: int)
    ensures ScorchNumbers(player, es, now) == ScorchNumbers(player, Burning(player, es), now)
    decreases |es|
  {
    if es != [] {
      ScorchNumbersBurning(player, es[1..], now);
      var tail := Burning(player, es[1..]);
      var extra := ScorchNumber(player, es[0], now);
      assert ScorchNumbers(player, es, now) == ScorchNumbers(player, es[1..], now) + extra;
      if Overlap(player, EnemyBox(es[0])) && es[0].health > 0.0 {
        var b := [es[0]] + tail;
        assert Burning(player, es) == b && b[1..] == tail;
        assert ScorchNumbers(player, b, now) == ScorchNumbers(player, tail, now) + extra;
      } else {
        assert extra == [];
        assert Burning(player, es) == [] + tail == tail;
      }
    }
  }

  /** A list of damaged enemies shows one number each, the last enemy's first. */
  lemma {:induction false} BurningNumbers(player: Box, b: seq<Enemy>, now: int)
    requires forall k :: 0 <= k < |b| ==> Overlap(player, EnemyBox(b[k])) && b[k].health > 0.0
    ensures |ScorchNumbers(player, b, now)| == |b|
    ensures forall k :: 0 <= k < |b| ==> ScorchNumbers(player, b, now)[|b| - 1 - k] == ScorchNumber(player, b[k], now)[0]
    decreases |b|
  {
    if b != [] {
      assert forall k :: 0 <= k < |b[1..]| ==> b[1..][k] == b[k + 1];
      BurningNumbers(player, b[1..], now);
      var rest := ScorchNumbers(player, b[1..], now);
      var extra := ScorchNumber(player, b[0], now);
      var r := ScorchNumbers(player, b, now);
      assert r == rest + extra && |extra| == 1;
      forall k | 0 <= k < |b| ensures r[|b| - 1 - k] == ScorchNumber(player, b[k], now)[0] {
        if k > 0 {
          assert b[k] == b[1..][k - 1] && r[|b| - 1 - k] == rest[|b[1..]| - 1 - (k - 1)];
        }
      }
    }
  }

  /**
   * The aura shows exactly one number per touching enemy with health left, each that enemy's
   * `ScorchNumber`: the damage dealt, at the contact point.
   */
  lemma ScorchNumbersShown(player: Box, es: seq<Enemy>, now: int)
    ensures |ScorchNumbers(player, es, now)| == |Burning(player, es)|
    ensures forall k :: 0 <= k < |Burning(player, es)| ==>
      ScorchNumbers(player, es, now)[|Burning(player, es)| - 1 - k] == ScorchNumber(player, Burning(player, es)[k], now)[0]
  {
    ScorchNumbersBurning(player, es, now);
    BurningNumbers(player, Burning(player, es), now);
  }

  /** The visual splat of one frame of the aura: five particles per touching enemy. */
  function ScorchSparks(player: Box, es: seq<Enemy>): (ps: seq<Projectile>)
    ensures |ps| == 5 * Touching(player, es)
  {
    if es == [] then [] else ScorchSparks(player, es[1..]) + ScorchSpark(player, es[0])
  }

  /** How many enemies of the list touch the player. */
  function Touching(player: Box, es: seq<Enemy>): (n: nat)
    ensures n <= |es|
  {
    if es == [] then 0 else (if Overlap(player, EnemyBox(es[0])) then 1 else 0) + Touching(player, es[1..])
  }

  /** Every number of one frame of the aura is enemy damage, more than zero and at most the aura's damage. */
  lemma {:induction false} ScorchNumbersRange(player: Box, es: seq<Enemy>, now: int)
    ensures forall k :: 0 <= k < |ScorchNumbers(player, es, now)| ==>
      !ScorchNumbers(player, es, now)[k].isPlayerDamage && 0.0 < ScorchNumbers(player, es, now)[k].value <= ContactDamageAmount
    decreases |es|
  {
    if es != [] {
      ScorchNumbersRange(player, es[1..], now);
      var ns := ScorchNumbers(player, es, now);
      var rest := ScorchNumbers(player, es[1..], now);
      var extra := ScorchNumber(player, es[0], now);
      assert ns == rest + extra;
      forall k | 0 <= k < |ns| ensures !ns[k].isPlayerDamage && 0.0 < ns[k].value <= ContactDamageAmount {
        if k >= |rest| {
          assert ns[k] == extra[k - |rest|];
        }
      }
    }
  }

  /**
   * One frame of the aura shows only enemy damage, each number at most the aura's damage and more
   * than zero, throws only visual particles, and touches no enemy exactly when it throws none.
   */
  lemma {:induction false} ScorchFacts(player: Box, es: seq<Enemy>, now: int)
    ensures forall k :: 0 <= k < |ScorchNumbers(player, es, now)| ==>
      !ScorchNumbers(player, es, now)[k].isPlayerDamage && 0.0 < ScorchNumbers(player, es, now)[k].value <= ContactDamageAmount
    ensures forall k :: 0 <= k < |ScorchSparks(player, es)| ==> Cosmetic(ScorchSparks(player, es)[k])
    ensures Touching(player, es) == 0 <==> forall k :: 0 <= k < |es| ==> !Overlap(player, EnemyBox(es[k]))
    decreases |es|
  {
    ScorchNumbersRange(player, es, now);
    if es != [] {
      ScorchFacts(player, es[1..], now);
      var e := es[0];
      var ps := ScorchSparks(player, es);
      var restSparks := ScorchSparks(player, es[1..]);
      var sparks := ScorchSpark(player, e);
      assert ps == restSparks + sparks;
      forall k | 0 <= k < |ps| ensures Cosmetic(ps[k]) {
        if k >= |restSparks| {
          assert ps[k] == sparks[k - |restSparks|];
        }
      }
      if forall k :: 0 <= k < |es| ==> !Overlap(player, EnemyBox(es[k])) {
        assert forall k :: 0 <= k < |es[1..]| ==> !Overlap(player, EnemyBox(es[1..][k])) by {
          forall k | 0 <= k < |es[1..]| ensures !Overlap(player, EnemyBox(es[1..][k])) {
            assert es[1..][k] == es[k + 1];
          }
        }
        assert !Overlap(player, EnemyBox(es[0]));
      } else {
        var k :| 0 <= k < |es| && Overlap(player, EnemyBox(es[k]));
        if k > 0 {
          assert es[1..][k - 1] == es[k];
        }
      }
    }
  }

  /** The five particles of one contact. */
  function ContactSplat(x: real, y: real): (ps: seq<Projectile>)
    ensures |ps| == 5 && forall k :: 0 <= k < 5 ==> Cosmetic(ps[k])
  {
    Burst(5, x, y, 8.0, 2.0, 0.0, 10.0)
  }
}
