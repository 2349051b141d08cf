/**
 * One frame's pass over the projectile list. The list is walked from its end to its start; each
 * visit moves one projectile, lets it hit an enemy or the player, splash on a surface or expire,
 * and pushes any particles it throws to the end of the list, past the part still to be visited.
 */
module Sweep {
  import opened Geometry
  import opened Entities
  import opened Abilities
  import opened Projectiles
  import opened Enemies

  /** What the pass has produced so far. */
  datatype Pass = Pass(
    kept: seq<Projectile>,      // the moved survivors of the entries visited so far, in list order
    spawned: seq<Projectile>,   // the particles pushed so far, in the order they were pushed
    enemies: seq<Enemy>,
    numbers: seq<DamageNumber>,
    vitals: Vitals,
    invulnerable: bool,
    lastDamageTime: int)

  /** What stays fixed during the pass: the view, the level, the player's hitbox and the time. */
  datatype Scene = Scene(cameraX: real, platforms: seq<Platform>, player: Box, now: int)

  /** The six particles thrown where an enemy shot hits the player. */
  function HitEffect(q: Projectile): (ps: seq<Projectile>)
    ensures |ps| == 6 && forall k :: 0 <= k < 6 ==> Cosmetic(ps[k]) && ps[k].x == q.x && ps[k].y == q.y
  {
    Burst(6, q.x, q.y, 8.0, 2.0, 0.0, 10.0)
  }

  /** The enemy a moved player-side projectile hits, if it can still damage. */
  function EnemyHit(q: Projectile, es: seq<Enemy>): (r: Option<nat>)
    ensures r.Some? ==> r.value < |es|
  {
    if q.canDamage then HitIndex(ProjectileBox(q), es) else None
  }

  /** A moved enemy shot hits the player when the player is not invulnerable and the boxes overlap. */
  predicate HitsPlayer(q: Projectile, s: Pass, v: Scene) {
    q.canDamage && !s.invulnerable && Overlap(ProjectileBox(q), v.player)
  }

  /** Whether visiting `p` lands a hit: on an enemy for a player-side projectile, on the player for an enemy shot. */
  predicate Hits(p: Projectile, s: Pass, v: Scene) {
    HitsTarget(Moved(p), s, v)
  }

  /** Whether a moved projectile hits its target. */
  predicate HitsTarget(q: Projectile, s: Pass, v: Scene) {
    if !q.isSplat && q.isEnemyProjectile then HitsPlayer(q, s, v) else EnemyHit(q, s.enemies).Some?
  }

  /** A hit on enemy `j`: its health drops by the hit's damage and the damage dealt is shown where the projectile is. */
  function Strike(q: Projectile, s: Pass, j: nat, now: int): (r: Pass)
    requires j < |s.enemies|
  {
    var e := s.enemies[j];
    var e' := Struck(e, HitDamage(q), now);
    s.(enemies := s.enemies[j := e'], numbers := s.numbers + NumberFor(q.x, q.y, e.health - e'.health, false))
  }

  /** A hit on the player: the damage pipeline runs, the number is shown above the player, particles fly. */
  function Wound(q: Projectile, s: Pass, v: Scene): (r: Pass) {
    s.(numbers := s.numbers + NumberFor(v.player.x + v.player.w / 2.0, v.player.y - 20.0, EnemyProjectileDamage, true),
       vitals := Hurt(s.vitals, EnemyProjectileDamage), invulnerable := true, lastDamageTime := v.now,
       spawned := s.spawned + HitEffect(q))
  }

  /** Damage and invulnerability as they were. */
  predicate Untouched(s: Pass, r: Pass) {
    r.vitals == s.vitals && r.invulnerable == s.invulnerable && r.lastDamageTime == s.lastDamageTime
  }

  /** One enemy shot's damage taken, and the invulnerability window opened at `now`. */
  predicate Wounded(s: Pass, r: Pass, now: int) {
    r.vitals == Hurt(s.vitals, EnemyProjectileDamage) && r.invulnerable && r.lastDamageTime == now
  }

  /** The visit of one projectile, after the later entries of the list have been visited. */
  function Turn(p: Projectile, s: Pass, v: Scene): (r: Pass) {
    if Offscreen(p, v.cameraX) && Cosmetic(p) then s else Visit(Moved(p), s, v)
  }

  /** The hit tests and the removal tests of a projectile that has moved, by kind. */
  function Visit(q: Projectile, s: Pass, v: Scene): (r: Pass) {
    if q.isSplat then
      if EnemyHit(q, s.enemies).Some? then Strike(q, s, EnemyHit(q, s.enemies).value, v.now)
      else Settle(q, s, v, q.age > q.lifespan)
    else if q.isEnemyProjectile then
      if HitsPlayer(q, s, v) then Wound(q, s, v) else SettleEnemyShot(q, s, v)
    else
      if EnemyHit(q, s.enemies).Some? then Strike(q, s, EnemyHit(q, s.enemies).value, v.now)
      else Settle(q, s, v, OffscreenX(q, v.cameraX))
  }

  /**
   * The end of the turn of a moved player-side projectile that hit no enemy: a surface hit splashes
   * and removes it; otherwise its own last test (`gone`) removes it or it is kept.
   */
  function Settle(q: Projectile, s: Pass, v: Scene, gone: bool): (r: Pass) {
    if SurfaceHit(q, v.platforms) then s.(spawned := s.spawned + Splash(q))
    else if gone then s
    else s.(kept := [q] + s.kept)
  }

  /** The same for an enemy shot that hit nothing: its surface hit throws the splash twice. */
  function SettleEnemyShot(q: Projectile, s: Pass, v: Scene): (r: Pass) {
    if SurfaceHit(q, v.platforms) then s.(spawned := s.spawned + Splash(q) + Splash(q))
    else if Offscreen(q, v.cameraX) then s
    else s.(kept := [q] + s.kept)
  }

  /** `a` extends `b` by visual particles only. */
  predicate Sparks(a: seq<Projectile>, b: seq<Projectile>) {
    |b| <= |a| && a[..|b|] == b && forall k :: |b| <= k < |a| ==> Cosmetic(a[k])
  }

  /** `a` extends `b` by at most `n` entries. */
  predicate GrowsBy<T(==)>(a: seq<T>, b: seq<T>, n: nat) {
    |b| <= |a| <= |b| + n && a[..|b|] == b
  }

  /** `a` is `b` with health changes at most: every enemy keeps its box. */
  predicate InPlace(a: seq<Enemy>, b: seq<Enemy>) {
    |a| == |b| && forall k :: 0 <= k < |a| ==> EnemyBox(a[k]) == EnemyBox(b[k])
  }

  /** Concatenation regrouped. */
  lemma Assoc<T>(a: seq<T>, b: seq<T>, c: seq<T>)
    ensures a + b + c == a + (b + c)
  {
  }

  /**
   * A moved projectile's visit keeps it, in front of the survivors so far, exactly when no removal
   * test and no hit applies.
   */
  lemma VisitKept(q: Projectile, s: Pass, v: Scene)
    ensures Visit(q, s, v).kept == if !Expired(q, v.cameraX, v.platforms) && !HitsTarget(q, s, v) then [q] + s.kept else s.kept
  {
  }

  /** What else one moved projectile's visit does, whatever its kind. */
  lemma VisitFacts(q: Projectile, s: Pass, v: Scene)
    ensures var r := Visit(q, s, v);
      // particles are only ever appended, and are all visual
      Sparks(r.spawned, s.spawned) &&
      // only the enemy the hit test picks is struck
      InPlace(r.enemies, s.enemies) &&
      (r.enemies == s.enemies ||
       (EnemyHit(q, s.enemies).Some? &&
        r.enemies == s.enemies[EnemyHit(q, s.enemies).value := Struck(s.enemies[EnemyHit(q, s.enemies).value], HitDamage(q), v.now)])) &&
      // at most one number is added
      GrowsBy(r.numbers, s.numbers, 1) &&
      // the player is hurt only by an enemy shot, only when not invulnerable
      (Untouched(s, r) || (!s.invulnerable && Wounded(s, r, v.now)))
  {
    var r := Visit(q, s, v);
    if HitsTarget(q, s, v) {
      if !q.isSplat && q.isEnemyProjectile {
        assert r == Wound(q, s, v);
        assert r.spawned[..|s.spawned|] == s.spawned;
      } else {
        var j := EnemyHit(q, s.enemies).value;
        assert r == Strike(q, s, j, v.now);
        assert r.numbers[..|s.numbers|] == s.numbers;
      }
    } else if SurfaceHit(q, v.platforms) {
      if !q.isSplat && q.isEnemyProjectile {
        assert r.spawned == s.spawned + (Splash(q) + Splash(q));
        assert r.spawned[..|s.spawned|] == s.spawned;
      } else {
        assert r.spawned == s.spawned + Splash(q);
        assert r.spawned[..|s.spawned|] == s.spawned;
      }
    } else {
      assert r.spawned == s.spawned;
    }
  }

  /** An entry's turn keeps it, moved and in front of the survivors so far, exactly when no removal test and no hit applies. */
  lemma TurnKept(p: Projectile, s: Pass, v: Scene)
    ensures Turn(p, s, v).kept == if !Removed(p, v.cameraX, v.platforms) && !Hits(p, s, v) then [Moved(p)] + s.kept else s.kept
  {
    if !(Offscreen(p, v.cameraX) && Cosmetic(p)) {
      VisitKept(Moved(p), s, v);
    }
  }

  /** What else one entry's turn does: the facts of its visit, or nothing for a cosmetic particle off screen. */
  lemma TurnFacts(p: Projectile, s: Pass, v: Scene)
    ensures var r := Turn(p, s, v);
      Sparks(r.spawned, s.spawned) && InPlace(r.enemies, s.enemies) &&
      (r.enemies == s.enemies ||
       (EnemyHit(Moved(p), s.enemies).Some? &&
        r.enemies == s.enemies[EnemyHit(Moved(p), s.enemies).value :=
          Struck(s.enemies[EnemyHit(Moved(p), s.enemies).value], HitDamage(Moved(p)), v.now)])) &&
      GrowsBy(r.numbers, s.numbers, 1) &&
      (Untouched(s, r) || (!s.invulnerable && Wounded(s, r, v.now)))
  {
    if !(Offscreen(p, v.cameraX) && Cosmetic(p)) {
      VisitFacts(Moved(p), s, v);
    }
  }

  /** The pass over `ps`: the last entry is visited first. */
  function SweepAll(ps: seq<Projectile>, s: Pass, v: Scene): (r: Pass)
    decreases |ps|, 1
  {
    if ps == [] then s else SweepNext(ps, s, v)
  }

  /** One step of `SweepAll`: the rest of the list is swept, then its first entry is visited. */
  function SweepNext(ps: seq<Projectile>, s: Pass, v: Scene): (r: Pass)
    requires ps != []
    decreases |ps|, 0
  {
    Turn(ps[0], SweepAll(ps[1..], s, v), v)
  }

  /**
   * What the whole pass does: no enemy moves, particles are only appended and all visual, at most
   * one number per entry is added, and the player is hit at most once per frame.
   */
  lemma {:induction false} SweepFacts(ps: seq<Projectile>, s: Pass, v: Scene)
    ensures var r := SweepAll(ps, s, v);
      InPlace(r.enemies, s.enemies) && Sparks(r.spawned, s.spawned) && GrowsBy(r.numbers, s.numbers, |ps|) &&
      (Untouched(s, r) || (!s.invulnerable && Wounded(s, r, v.now)))
    decreases |ps|
  {
    if ps != [] {
      var t := SweepAll(ps[1..], s, v);
      SweepFacts(ps[1..], s, v);
      TurnFacts(ps[0], t, v);
      var r := Turn(ps[0], t, v);
      assert r == SweepAll(ps, s, v);
      assert r.spawned[..|s.spawned|] == r.spawned[..|t.spawned|][..|s.spawned|];
      assert r.numbers[..|s.numbers|] == r.numbers[..|t.numbers|][..|s.numbers|];
    }
  }

  /** The moved entries of `ps` that no removal test removes, in order: the pass's reference without hits. */
  function Unremoved(ps: seq<Projectile>, v: Scene): (r: seq<Projectile>)
    ensures |r| <= |ps|
  {
    if ps == [] then []
    else (if Removed(ps[0], v.cameraX, v.platforms) then [] else [Moved(ps[0])]) + Unremoved(ps[1..], v)
  }

  /** `x` is a moved entry of `ps` that no removal test removes. */
  ghost predicate Survivor(x: Projectile, ps: seq<Projectile>, v: Scene) {
    exists j :: 0 <= j < |ps| && x == Moved(ps[j]) && !Removed(ps[j], v.cameraX, v.platforms)
  }

  /** Every entry of the reference is a moved entry of the list that no removal test removes. */
  lemma {:induction false} UnremovedFrom(ps: seq<Projectile>, v: Scene)
    ensures forall k :: 0 <= k < |Unremoved(ps, v)| ==> Survivor(Unremoved(ps, v)[k], ps, v)
    decreases |ps|
  {
    if ps != [] {
      var rest := Unremoved(ps[1..], v);
      UnremovedFrom(ps[1..], v);
      var r := Unremoved(ps, v);
      var head := if Removed(ps[0], v.cameraX, v.platforms) then [] else [Moved(ps[0])];
      assert r == head + rest;
      forall k | 0 <= k < |r| ensures Survivor(r[k], ps, v) {
        if k < |head| {
          assert r[k] == Moved(ps[0]) && !Removed(ps[0], v.cameraX, v.platforms);
        } else {
          assert r[k] == rest[k - |head|] && Survivor(rest[k - |head|], ps[1..], v);
          var j :| 0 <= j < |ps[1..]| && rest[k - |head|] == Moved(ps[1..][j]) && !Removed(ps[1..][j], v.cameraX, v.platforms);
          assert ps[1..][j] == ps[j + 1];
        }
      }
    }
  }

  /**
   * Without enemies and with the player invulnerable nothing can hit, so the pass keeps exactly the
   * moved entries that no removal test removes, in their order.
   */
  lemma {:induction false} QuietPass(ps: seq<Projectile>, s: Pass, v: Scene)
    requires s.enemies == [] && s.invulnerable
    ensures SweepAll(ps, s, v).kept == Unremoved(ps, v) + s.kept
    decreases |ps|
  {
    if ps != [] {
      var t := SweepAll(ps[1..], s, v);
      QuietPass(ps[1..], s, v);
      SweepFacts(ps[1..], s, v);
      TurnKept(ps[0], t, v);
      assert t.enemies == [] && t.invulnerable;
      assert !Hits(ps[0], t, v);
      var r := Turn(ps[0], t, v);
      assert r == SweepAll(ps, s, v);
      var head := if Removed(ps[0], v.cameraX, v.platforms) then [] else [Moved(ps[0])];
      assert r.kept == head + t.kept;
      assert Unremoved(ps, v) == head + Unremoved(ps[1..], v);
      Assoc(head, Unremoved(ps[1..], v), s.kept);
    }
  }

  /** `a` is `b` with some entries left out, the rest in their order. */
  predicate Subsequence<T(==)>(a: seq<T>, b: seq<T>)
    decreases |b|
  {
    a == [] || (b != [] && ((a[0] == b[0] && Subsequence(a[1..], b[1..])) || Subsequence(a, b[1..])))
  }

  /** Leaving out one more leading entry keeps a subsequence one. */
  lemma SubsequenceCons<T>(a: seq<T>, h: seq<T>, b: seq<T>)
    requires |h| <= 1 && Subsequence(a, b)
    ensures Subsequence(a, h + b)
  {
    if h != [] {
      assert (h + b)[1..] == b;
      assert Subsequence(a, (h + b)[1..]);
    } else {
      assert h + b == b;
    }
  }

  /** Sharing one more leading entry keeps a subsequence one. */
  lemma SubsequenceBoth<T>(a: seq<T>, h: seq<T>, b: seq<T>)
    requires |h| == 1 && Subsequence(a, b)
    ensures Subsequence(h + a, h + b)
  {
    assert (h + a)[0] == (h + b)[0] && (h + a)[1..] == a && (h + b)[1..] == b;
  }

  /** The last `n` entries of `h + t`, and what is ahead of them, when `t` has at least `n`. */
  lemma Split<T>(h: seq<T>, t: seq<T>, n: nat)
    requires n <= |t|
    ensures (h + t)[|h + t| - n..] == t[|t| - n..]
    ensures (h + t)[..|h + t| - n] == h + t[..|t| - n]
  {
  }

  /** The pass keeps what it started with at the end of its kept list. */
  lemma {:induction false} KeptSuffix(ps: seq<Projectile>, s: Pass, v: Scene)
    ensures |s.kept| <= |SweepAll(ps, s, v).kept|
    ensures SweepAll(ps, s, v).kept[|SweepAll(ps, s, v).kept| - |s.kept|..] == s.kept
    decreases |ps|
  {
    if ps != [] {
      KeptSuffix(ps[1..], s, v);
      KeptGrows(ps, s, v);
      KeptTail(s.kept, SweepAll(ps[1..], s, v).kept, SweepAll(ps, s, v).kept, Survivors(ps[0], v));
    }
  }

  /**
   * What the pass keeps, ahead of what it started with, is the list's moved entries that no removal
   * test removes, with some left out (those that hit) and the rest in their order.
   */
  lemma {:induction false} KeptSurvive(ps: seq<Projectile>, s: Pass, v: Scene)
    ensures |s.kept| <= |SweepAll(ps, s, v).kept|
    ensures Subsequence(SweepAll(ps, s, v).kept[..|SweepAll(ps, s, v).kept| - |s.kept|], Unremoved(ps, v))
    decreases |ps|
  {
    if ps != [] {
      KeptSurvive(ps[1..], s, v);
      KeptGrows(ps, s, v);
      KeptStep(|s.kept|, SweepAll(ps[1..], s, v).kept, SweepAll(ps, s, v).kept, Survivors(ps[0], v), Unremoved(ps[1..], v), Unremoved(ps, v));
    }
  }

  /** The moved entry when no removal test removes it, or nothing. */
  function Survivors(p: Projectile, v: Scene): (r: seq<Projectile>)
    ensures |r| <= 1
  {
    if Removed(p, v.cameraX, v.platforms) then [] else [Moved(p)]
  }

  /** One more entry of the pass either leaves the kept list alone or puts its survivor in front. */
  lemma KeptGrows(ps: seq<Projectile>, s: Pass, v: Scene)
    requires ps != []
    ensures SweepAll(ps, s, v).kept == SweepAll(ps[1..], s, v).kept ||
      SweepAll(ps, s, v).kept == Survivors(ps[0], v) + SweepAll(ps[1..], s, v).kept
    ensures Unremoved(ps, v) == Survivors(ps[0], v) + Unremoved(ps[1..], v)
  {
    TurnKept(ps[0], SweepAll(ps[1..], s, v), v);
  }

  /** The step of `KeptSuffix`, on plain sequences: putting at most one entry in front keeps the end. */
  lemma KeptTail<T>(base: seq<T>, t: seq<T>, r: seq<T>, head: seq<T>)
    requires |head| <= 1 && (r == t || r == head + t)
    requires |base| <= |t| && t[|t| - |base|..] == base
    ensures |base| <= |r| && r[|r| - |base|..] == base
  {
    if r != t {
      Split(head, t, |base|);
    }
  }

  /**
   * The step of `KeptSurvive`, on plain sequences: putting `head` (at most one entry) in front of
   * both the kept list and the survivors, or only in front of the survivors, keeps the property.
   */
  lemma KeptStep<T>(n: nat, t: seq<T>, r: seq<T>, head: seq<T>, rest: seq<T>, all: seq<T>)
    requires |head| <= 1 && (r == t || r == head + t) && all == head + rest
    requires n <= |t| && Subsequence(t[..|t| - n], rest)
    ensures n <= |r| && Subsequence(r[..|r| - n], all)
  {
    if r != t {
      Split(head, t, n);
      SubsequenceBoth(t[..|t| - n], head, rest);
    } else {
      SubsequenceCons(t[..|t| - n], head, rest);
    }
  }

  /**
   * With every projectile's damage non-negative, enemies only lose health during the pass, and
   * never below zero.
   */
  lemma {:induction false} HealthOnlyDrops(ps: seq<Projectile>, s: Pass, v: Scene)
    requires forall k :: 0 <= k < |ps| ==> ps[k].damage >= 0.0
    requires forall k :: 0 <= k < |s.enemies| ==> s.enemies[k].health >= 0.0
    ensures var r := SweepAll(ps, s, v);
      |r.enemies| == |s.enemies| && forall k :: 0 <= k < |s.enemies| ==> 0.0 <= r.enemies[k].health <= s.enemies[k].health
    decreases |ps|
  {
    if ps != [] {
      var t := SweepAll(ps[1..], s, v);
      HealthOnlyDrops(ps[1..], s, v);
      SweepFacts(ps[1..], s, v);
      TurnFacts(ps[0], t, v);
      var q := Moved(ps[0]);
      assert HitDamage(q) >= 0.0;
      var r := Turn(ps[0], t, v);
      assert r == SweepAll(ps, s, v);
      forall k | 0 <= k < |s.enemies| ensures 0.0 <= r.enemies[k].health <= t.enemies[k].health {
        if r.enemies != t.enemies {
          var j := EnemyHit(q, t.enemies).value;
          if k == j {
            assert r.enemies[k] == Struck(t.enemies[k], HitDamage(q), v.now);
          }
        }
      }
    }
  }
}
