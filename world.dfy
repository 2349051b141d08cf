/** World setup: the level's platforms, the boundaries derived from them, and enemy placement. */
module World {
  import opened Geometry
  import opened Entities
  import opened Enemies

  /** The thirteen platforms of the level, left side, middle and right side. */
  function LevelPlatforms(): (ps: seq<Platform>)
    ensures |ps| == 13
  {
    [ Platform(-450.0, 400.0, 120.0, 20.0), Platform(-300.0, 320.0, 150.0, 20.0), Platform(-100.0, 450.0, 180.0, 20.0),
      Platform(200.0, 450.0, 150.0, 20.0), Platform(450.0, 380.0, 120.0, 20.0), Platform(700.0, 320.0, 180.0, 20.0),
      Platform(1000.0, 400.0, 150.0, 20.0), Platform(1250.0, 300.0, 120.0, 20.0), Platform(1500.0, 380.0, 200.0, 20.0),
      Platform(1800.0, 320.0, 150.0, 20.0), Platform(2100.0, 400.0, 180.0, 20.0), Platform(2400.0, 350.0, 150.0, 20.0),
      Platform(2700.0, 300.0, 200.0, 20.0) ]
  }

  const LeftMargin: real := 100.0
  const RightMargin: real := 200.0

  /**
   * The leftmost platform edge and the rightmost platform end, each starting from 0: the smallest
   * of 0 and every left edge, and the largest of 0 and every right end.
   */
  method PlatformExtents(ps: seq<Platform>) returns (leftmost: real, rightmost: real)
    ensures leftmost <= 0.0 && forall k :: 0 <= k < |ps| ==> leftmost <= ps[k].x
    ensures leftmost == 0.0 || exists k :: 0 <= k < |ps| && ps[k].x == leftmost
    ensures rightmost >= 0.0 && forall k :: 0 <= k < |ps| ==> ps[k].x + ps[k].width <= rightmost
    ensures rightmost == 0.0 || exists k :: 0 <= k < |ps| && ps[k].x + ps[k].width == rightmost
  {
    leftmost, rightmost := 0.0, 0.0;
    for i := 0 to |ps|
      invariant leftmost <= 0.0 && forall k :: 0 <= k < i ==> leftmost <= ps[k].x
      invariant leftmost == 0.0 || exists k :: 0 <= k < i && ps[k].x == leftmost
      invariant rightmost >= 0.0 && forall k :: 0 <= k < i ==> ps[k].x + ps[k].width <= rightmost
      invariant rightmost == 0.0 || exists k :: 0 <= k < i && ps[k].x + ps[k].width == rightmost
    {
      if ps[i].x < leftmost {
        leftmost := ps[i].x;
      }
      var platformEnd := ps[i].x + ps[i].width;
      if platformEnd > rightmost {
        rightmost := platformEnd;
      }
    }
  }

  /** The extents of the level are the first platform's left edge and the last platform's right end. */
  lemma LevelExtents(leftmost: real, rightmost: real)
    requires leftmost <= 0.0 && forall k :: 0 <= k < 13 ==> leftmost <= LevelPlatforms()[k].x
    requires leftmost == 0.0 || exists k :: 0 <= k < 13 && LevelPlatforms()[k].x == leftmost
    requires rightmost >= 0.0 && forall k :: 0 <= k < 13 ==> LevelPlatforms()[k].x + LevelPlatforms()[k].width <= rightmost
    requires rightmost == 0.0 || exists k :: 0 <= k < 13 && LevelPlatforms()[k].x + LevelPlatforms()[k].width == rightmost
    ensures leftmost == -450.0 && rightmost == 2900.0
  {
    var ps := LevelPlatforms();
    assert leftmost <= ps[0].x;
    assert ps[12].x + ps[12].width <= rightmost;
    forall k | 0 <= k < 13 ensures ps[k].x >= -450.0 && ps[k].x + ps[k].width <= 2900.0 {
    }
  }

  // ---------------------------------------------------------------- enemy placement

  const EnemyCount: nat := 8
  /** Extra space kept around every placed enemy. */
  const SpawnBuffer: real := 20.0

  /** A possible spawn point. */
  datatype Spot = Spot(x: real, y: real, onPlatform: bool)

  /** The area an enemy already placed at `taken` keeps clear of a newcomer at `s`. */
  predicate Crowds(s: Spot, taken: Box) {
    Overlap(Box(s.x, s.y, EnemyWidth + SpawnBuffer, EnemyHeight + SpawnBuffer),
            Box(taken.x, taken.y, taken.w + SpawnBuffer, taken.h + SpawnBuffer))
  }

  /** Whether a spot comes within the buffer of some enemy already placed. */
  function IsPositionOverlapping(s: Spot, occupied: seq<Box>): (b: bool)
    ensures b <==> exists k :: 0 <= k < |occupied| && Crowds(s, occupied[k])
  {
    if occupied == [] then false
    else if Crowds(s, occupied[0]) then true
    else
      var b := IsPositionOverlapping(s, occupied[1..]);
      assert b <==> exists k :: 0 <= k < |occupied| && Crowds(s, occupied[k]) by {
        if b {
          var k :| 0 <= k < |occupied[1..]| && Crowds(s, occupied[1..][k]);
          assert Crowds(s, occupied[k + 1]);
        }
      }
      b
  }

  /** The spots that keep clear of every placed enemy, in their original order. */
  function ClearSpots(spots: seq<Spot>, occupied: seq<Box>): (r: seq<Spot>)
    ensures |r| <= |spots|
    ensures forall k :: 0 <= k < |r| ==> r[k] in spots && !IsPositionOverlapping(r[k], occupied)
    ensures forall s :: s in spots && !IsPositionOverlapping(s, occupied) ==> s in r
  {
    if spots == [] then []
    else
      var rest := ClearSpots(spots[1..], occupied);
      (if IsPositionOverlapping(spots[0], occupied) then [] else [spots[0]]) + rest
  }

  /** The random draws one enemy slot consumes, each in [0, 1). */
  datatype SpawnDraw = SpawnDraw(
    ground: real,         // jitter of the ground spot
    jitter: seq<real>,    // jitter of the spot on each platform, by platform index
    pick: real,           // which clear spot is taken
    frame: real,          // starting animation frame
    turn: real,           // initial direction
    stagger: real)        // how far the first shot is staggered

  predicate Unit(r: real) {
    0.0 <= r < 1.0
  }

  predicate ValidDraw(d: SpawnDraw, platformCount: nat) {
    Unit(d.ground) && Unit(d.pick) && Unit(d.frame) && Unit(d.turn) && Unit(d.stagger) &&
    |d.jitter| == platformCount && forall k :: 0 <= k < |d.jitter| ==> Unit(d.jitter[k])
  }

  /** The spot lies on top of some platform, with the whole enemy within the platform's edges. */
  predicate OnTop(s: Spot, ps: seq<Platform>) {
    exists j :: 0 <= j < |ps| && s.y == ps[j].y - EnemyHeight && ps[j].x <= s.x <= ps[j].x + ps[j].width - EnemyWidth
  }

  /** A spot on the ground line, or on top of a platform. */
  predicate Grounded(s: Spot, ps: seq<Platform>) {
    if s.onPlatform then OnTop(s, ps) else s.y == GroundY - EnemyHeight
  }

  /** Spots on the platforms wide enough for an enemy plus 20, somewhere along the platform, on its top. */
  function PlatformSpots(ps: seq<Platform>, jitter: seq<real>): (r: seq<Spot>)
    requires |jitter| == |ps| && forall k :: 0 <= k < |jitter| ==> Unit(jitter[k])
    ensures |r| <= |ps|
    ensures forall k :: 0 <= k < |r| ==> r[k].onPlatform && OnTop(r[k], ps)
  {
    if ps == [] then []
    else
      var pl := ps[0];
      assert forall k :: 0 <= k < |jitter[1..]| ==> Unit(jitter[1..][k]) by {
        forall k | 0 <= k < |jitter[1..]| ensures Unit(jitter[1..][k]) {
          assert jitter[1..][k] == jitter[k + 1];
        }
      }
      var rest := PlatformSpots(ps[1..], jitter[1..]);
      assert forall k :: 0 <= k < |rest| ==> rest[k].onPlatform && OnTop(rest[k], ps) by {
        forall k | 0 <= k < |rest| ensures rest[k].onPlatform && OnTop(rest[k], ps) {
          OnTopOfRest(rest[k], ps);
        }
      }
      if pl.width >= EnemyWidth + 20.0 then
        assert Unit(jitter[0]);
        var s := Spot(pl.x + jitter[0] * (pl.width - EnemyWidth), pl.y - EnemyHeight, true);
        SpotOnFirst(s, jitter[0], ps);
        SpotsOnTop(s, rest, ps);
        [s] + rest
      else rest
  }

  lemma SpotsOnTop(s: Spot, rest: seq<Spot>, ps: seq<Platform>)
    requires s.onPlatform && OnTop(s, ps)
    requires forall k :: 0 <= k < |rest| ==> rest[k].onPlatform && OnTop(rest[k], ps)
    ensures forall k :: 0 <= k < |[s] + rest| ==> ([s] + rest)[k].onPlatform && OnTop(([s] + rest)[k], ps)
  {
    forall k | 0 <= k < |[s] + rest| ensures ([s] + rest)[k].onPlatform && OnTop(([s] + rest)[k], ps) {
      if k > 0 {
        assert ([s] + rest)[k] == rest[k - 1];
      }
    }
  }

  lemma OnTopOfRest(s: Spot, ps: seq<Platform>)
    requires |ps| > 0 && OnTop(s, ps[1..])
    ensures OnTop(s, ps)
  {
    var j :| 0 <= j < |ps[1..]| && s.y == ps[1..][j].y - EnemyHeight &&
      ps[1..][j].x <= s.x <= ps[1..][j].x + ps[1..][j].width - EnemyWidth;
    assert ps[1..][j] == ps[j + 1];
  }

  lemma SpotOnFirst(s: Spot, jitter: real, ps: seq<Platform>)
    requires |ps| > 0 && Unit(jitter) && ps[0].width >= EnemyWidth + 20.0
    requires s == Spot(ps[0].x + jitter * (ps[0].width - EnemyWidth), ps[0].y - EnemyHeight, true)
    ensures OnTop(s, ps)
  {
    var pl := ps[0];
    var w := pl.width - EnemyWidth;
    var m := jitter * w;
    MulNonNegative(jitter, w);
    MulBelow(jitter, w);
    assert s.x == pl.x + m && 0.0 <= m < w;
    assert s.y == ps[0].y - EnemyHeight && ps[0].x <= s.x <= ps[0].x + ps[0].width - EnemyWidth;
  }

  /**
   * Candidate spots of slot `i`: one on the ground (slots 0-3 spread from the left boundary, slots
   * 4-7 from x = 400), then one per wide platform.
   */
  function Candidates(i: nat, d: SpawnDraw, ps: seq<Platform>, worldLeft: real): (r: seq<Spot>)
    requires ValidDraw(d, |ps|)
    ensures |r| >= 1 && !r[0].onPlatform
    ensures forall k :: 0 <= k < |r| ==> Grounded(r[k], ps)
  {
    var x :=
      if (i as real) < (EnemyCount as real) / 2.0 then worldLeft + 100.0 + (i as real) * 300.0 + d.ground * 100.0
      else 400.0 + ((i as real) - (EnemyCount as real) / 2.0) * 500.0 + d.ground * 200.0;
    var onPlatforms := PlatformSpots(ps, d.jitter);
    [Spot(x, GroundY - EnemyHeight, false)] + onPlatforms
  }

  /** Index into `n` items chosen by a draw in [0, 1). */
  function PickIndex(pick: real, n: nat): (k: nat)
    requires Unit(pick) && n > 0
    ensures k < n
  {
    var f := (pick * (n as real)).Floor;
    assert 0.0 <= pick * (n as real) by {
      MulNonNegative(pick, n as real);
    }
    assert pick * (n as real) < n as real by {
      MulBelow(pick, n as real);
    }
    f
  }

  lemma MulNonNegative(a: real, b: real)
    requires a >= 0.0 && b >= 0.0
    ensures a * b >= 0.0
  {
  }

  lemma MulBelow(a: real, b: real)
    requires a < 1.0 && b > 0.0
    ensures a * b < b
  {
  }

  /** An OctoSlob as placed: full health, unhurt, in its animation cycle, its first shot staggered. */
  predicate Fresh(e: Enemy, now: int) {
    e.width == EnemyWidth && e.height == EnemyHeight && e.health == EnemyHealth && !e.damaged &&
    0 <= e.animationFrame < AnimationFrames && (e.direction == 1 || e.direction == -1) && e.facingRight &&
    (now as real) - EnemyShootCooldown < e.lastShotTime <= now as real
  }

  /** The enemy stands at a spot that is on the ground or on top of a platform. */
  predicate Standing(e: Enemy, ps: seq<Platform>) {
    Grounded(Spot(e.x, e.y, e.onPlatform), ps)
  }

  /** Two enemies at least the buffered size (70) apart horizontally or vertically. */
  predicate Apart(a: Enemy, b: Enemy) {
    a.x - b.x >= EnemyWidth + SpawnBuffer || b.x - a.x >= EnemyWidth + SpawnBuffer ||
    a.y - b.y >= EnemyHeight + SpawnBuffer || b.y - a.y >= EnemyHeight + SpawnBuffer
  }

  /** A freshly placed OctoSlob at spot `s`. */
  function Spawned(s: Spot, d: SpawnDraw, now: int): (e: Enemy)
    requires ValidDraw(d, |d.jitter|)
    ensures Fresh(e, now) && e.x == s.x && e.y == s.y && e.onPlatform == s.onPlatform
  {
    var frame := (d.frame * 4.0).Floor;
    assert 0.0 <= d.frame * 4.0 < 4.0;
    Enemy(s.x, s.y, EnemyWidth, EnemyHeight, EnemyHealth, false, 0,
      frame, 0.0, if d.turn > 0.5 then 1 else -1,
      (now as real) - d.stagger * 3000.0, true, s.onPlatform)
  }

  /**
   * The spacing rule: a newcomer whose spot keeps clear of an enemy of the standard size is at least
   * the buffered size away from it, and the other way round.
   */
  lemma ClearMeansApart(s: Spot, e: Enemy, n: Enemy)
    requires e.width == EnemyWidth && e.height == EnemyHeight && n.x == s.x && n.y == s.y
    ensures !Crowds(s, EnemyBox(e)) <==> Apart(e, n)
  {
  }

  /** One draw per enemy slot, each fitting the level's platforms. */
  predicate SpawnDraws(draws: seq<SpawnDraw>) {
    |draws| == EnemyCount && forall i :: 0 <= i < |draws| ==> ValidDraw(draws[i], |LevelPlatforms()|)
  }

  /** What enemy generation promises: at most eight fresh enemies, standing, pairwise apart. */
  predicate Placement(es: seq<Enemy>, ps: seq<Platform>, now: int) {
    |es| <= EnemyCount &&
    (forall a, b :: 0 <= a < b < |es| ==> Apart(es[a], es[b])) &&
    forall k :: 0 <= k < |es| ==> Fresh(es[k], now) && Standing(es[k], ps)
  }

  /** The boxes of the enemies placed so far, as the overlap test sees them. */
  function Boxes(es: seq<Enemy>): (bs: seq<Box>)
    ensures |bs| == |es| && forall k :: 0 <= k < |es| ==> bs[k] == EnemyBox(es[k])
  {
    seq(|es|, k requires 0 <= k < |es| => EnemyBox(es[k]))
  }

  /** Slot `i`: the enemy on the drawn clear candidate is added, or the slot is skipped when no candidate is clear. */
  function PlaceSlot(i: nat, d: SpawnDraw, ps: seq<Platform>, worldLeft: real, es: seq<Enemy>, now: int): (r: seq<Enemy>)
    requires ValidDraw(d, |ps|)
    ensures var clear := ClearSpots(Candidates(i, d, ps, worldLeft), Boxes(es));
      (clear == [] <==> r == es) && (clear != [] <==> |r| == |es| + 1) && r[..|es|] == es
  {
    var clear := ClearSpots(Candidates(i, d, ps, worldLeft), Boxes(es));
    if clear == [] then es else es + [Spawned(clear[PickIndex(d.pick, |clear|)], d, now)]
  }

  /** A slot keeps the placement rule: its newcomer is fresh, standing, and apart from everyone placed before. */
  lemma SlotKeepsPlacement(i: nat, d: SpawnDraw, ps: seq<Platform>, worldLeft: real, es: seq<Enemy>, now: int)
    requires ValidDraw(d, |ps|) && Placement(es, ps, now) && |es| < EnemyCount
    ensures Placement(PlaceSlot(i, d, ps, worldLeft, es, now), ps, now)
  {
    var c := Candidates(i, d, ps, worldLeft);
    var clear := ClearSpots(c, Boxes(es));
    if clear != [] {
      var spot := clear[PickIndex(d.pick, |clear|)];
      var n := Spawned(spot, d, now);
      var r := es + [n];
      assert PlaceSlot(i, d, ps, worldLeft, es, now) == r;
      assert spot in c && !IsPositionOverlapping(spot, Boxes(es));
      forall k | 0 <= k < |es| ensures Apart(es[k], n) {
        assert !Crowds(spot, Boxes(es)[k]);
        ClearMeansApart(spot, es[k], n);
      }
      assert Standing(n, ps);
      forall a, b | 0 <= a < b < |r| ensures Apart(r[a], r[b]) {
        if b == |es| {
          assert r[a] == es[a] && r[b] == n;
        } else {
          assert r[a] == es[a] && r[b] == es[b];
        }
      }
      assert forall k :: 0 <= k < |r| ==> r[k] == if k < |es| then es[k] else n;
    }
  }

  /** With no enemy placed yet, a slot always has a clear candidate: its ground spot. */
  lemma NothingPlacedAllClear(i: nat, d: SpawnDraw, ps: seq<Platform>, worldLeft: real, es: seq<Enemy>)
    requires ValidDraw(d, |ps|)
    ensures es == [] ==> ClearSpots(Candidates(i, d, ps, worldLeft), Boxes(es)) != []
  {
    if es == [] {
      var c := Candidates(i, d, ps, worldLeft);
      assert !IsPositionOverlapping(c[0], Boxes(es));
      assert c[0] in c;
    }
  }

  /** The enemies the first `n` slots place, filling the slots in order. */
  function Placed(n: nat, draws: seq<SpawnDraw>, ps: seq<Platform>, worldLeft: real, now: int): (r: seq<Enemy>)
    requires n <= |draws| && forall i :: 0 <= i < |draws| ==> ValidDraw(draws[i], |ps|)
    // every slot places at most one enemy, and the first slot always places one
    ensures |r| <= n
    ensures n >= 1 ==> |r| >= 1
  {
    if n == 0 then []
    else
      var before := Placed(n - 1, draws, ps, worldLeft, now);
      NothingPlacedAllClear(n - 1, draws[n - 1], ps, worldLeft, before);
      PlaceSlot(n - 1, draws[n - 1], ps, worldLeft, before, now)
  }

  /** Whatever the draws, the slots' enemies keep the placement rule. */
  lemma {:induction false} PlacedApart(n: nat, draws: seq<SpawnDraw>, ps: seq<Platform>, worldLeft: real, now: int)
    requires n <= |draws| && n <= EnemyCount && forall i :: 0 <= i < |draws| ==> ValidDraw(draws[i], |ps|)
    ensures Placement(Placed(n, draws, ps, worldLeft, now), ps, now)
  {
    if n > 0 {
      PlacedApart(n - 1, draws, ps, worldLeft, now);
      SlotKeepsPlacement(n - 1, draws[n - 1], ps, worldLeft, Placed(n - 1, draws, ps, worldLeft, now), now);
    }
  }

  /** One more slot: the first `i + 1` slots place what the first `i` do, then slot `i`'s enemy, if any. */
  lemma PlacedStep(i: nat, draws: seq<SpawnDraw>, ps: seq<Platform>, worldLeft: real, now: int)
    requires i < |draws| && forall j :: 0 <= j < |draws| ==> ValidDraw(draws[j], |ps|)
    ensures Placed(i + 1, draws, ps, worldLeft, now) == PlaceSlot(i, draws[i], ps, worldLeft, Placed(i, draws, ps, worldLeft, now), now)
  {
  }
}
