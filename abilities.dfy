/**
 * The player's timed state machines: hero3's charge and barrage, hero2's contact-damage duty
 * cycle, and the damage pipeline that takes health and lives.
 */
module Abilities {
  import opened Entities

  // ---------------------------------------------------------------- charge and barrage

  const MaxChargeTime: int := 3000
  const GlobalCooldown: int := 1000
  const BarrageFireInterval: int := 100
  const ChargedShotBaseDamage: real := 10.0

  /** The charge and barrage fields of the player, and the shot clock they share with the other heroes. */
  datatype Charge = Charge(
    isCharging: bool, chargeStartTime: int, chargeLevel: real,
    isBarraging: bool, barrageStartTime: int, barrageDuration: int,
    lastBarrageEndTime: int, lastShotTime: int)

  /** One tick of the machine: the new fields and, when a barrage shot fires, its damage multiplier. */
  datatype ChargeTick = ChargeTick(next: Charge, shot: Option<real>)

  /** Charge accumulated after `elapsed` milliseconds of holding, capped at a full charge. */
  function ChargeLevelAt(elapsed: int): (level: real)
    ensures level <= 1.0
    ensures elapsed >= 0 ==> 0.0 <= level
    ensures level == 1.0 <==> elapsed >= MaxChargeTime
    ensures elapsed < MaxChargeTime ==> level * (MaxChargeTime as real) == elapsed as real
  {
    var l := (elapsed as real) / (MaxChargeTime as real);
    if l < 1.0 then l else 1.0
  }

  /** Barrage length for the charge held at release; 0 means no barrage starts. */
  function BarrageDurationFor(level: real): (d: int)
    ensures d == 1500 <==> level >= 1.0
    ensures d == 750 <==> 0.5 <= level < 1.0
    ensures d == 500 <==> 0.25 <= level < 0.5
    ensures d == 250 <==> 0.0 < level < 0.25
    ensures d == 0 <==> level <= 0.0
  {
    if level >= 1.0 then 1500
    else if level >= 0.5 then 750
    else if level >= 0.25 then 500
    else if level > 0.0 then 250
    else 0
  }

  /** Damage multiplier of the barrage shots, chosen by the barrage's length. */
  function DamageMultiplierFor(duration: int): (m: real)
    ensures 1.0 <= m <= 1.5
    ensures m == 1.5 <==> duration >= 1500
    ensures m == 1.25 <==> 750 <= duration < 1500
    ensures m == 1.1 <==> 500 <= duration < 750
    ensures m == 1.0 <==> duration < 500
  {
    if duration >= 1500 then 1.5
    else if duration >= 750 then 1.25
    else if duration >= 500 then 1.1
    else 1.0
  }

  /** A longer hold never earns a shorter barrage. */
  lemma BarrageDurationMonotone(a: real, b: real)
    requires a <= b
    ensures BarrageDurationFor(a) <= BarrageDurationFor(b)
  {
  }

  /** A longer barrage never earns a smaller multiplier. */
  lemma DamageMultiplierMonotone(a: int, b: int)
    requires a <= b
    ensures DamageMultiplierFor(a) <= DamageMultiplierFor(b)
  {
  }

  /**
   * Composing the two step functions: the shortest barrage (250 ms) gets no bonus, so a charge
   * under a quarter fires plain 10-damage shots.
   */
  lemma ReleasedChargeMultiplier(level: real)
    requires level > 0.0
    ensures DamageMultiplierFor(BarrageDurationFor(level)) == 1.0 <==> level < 0.25
    ensures DamageMultiplierFor(BarrageDurationFor(level)) == 1.5 <==> level >= 1.0
  {
  }

  /**
   * One call of the charge handler at time `now` with the action key `space`.
   * A running barrage ends or fires; otherwise the global cooldown blocks a new charge; otherwise
   * holding the key charges, and releasing it starts a barrage sized by the charge.
   */
  function ChargeStep(c: Charge, space: bool, now: int): (r: ChargeTick)
    // charging and barraging exclude each other
    ensures !(c.isCharging && c.isBarraging) ==> !(r.next.isCharging && r.next.isBarraging)
    // the level stays inside [0, 1] when the clock has not gone back past the charge start
    ensures 0.0 <= c.chargeLevel <= 1.0 && now >= c.chargeStartTime ==> 0.0 <= r.next.chargeLevel <= 1.0
    // the global cooldown: an idle machine inside it does not change at all
    ensures !c.isBarraging && !c.isCharging && now - c.lastBarrageEndTime < GlobalCooldown ==> r == ChargeTick(c, None)
    // a charge starts only from idle, with the key held, outside the cooldown, and records its start
    ensures r.next.isCharging && !c.isCharging ==>
      space && !c.isBarraging && now - c.lastBarrageEndTime >= GlobalCooldown && r.next.chargeStartTime == now
    // the charge start only ever moves to the current time
    ensures r.next.chargeStartTime == c.chargeStartTime || r.next.chargeStartTime == now
    // holding the key while charging recomputes the level from the hold time
    ensures c.isCharging && !c.isBarraging && space ==>
      r.next.isCharging && r.next.chargeLevel == ChargeLevelAt(now - c.chargeStartTime)
    // release: charging stops, the level resets, and a barrage starts exactly when the level was positive
    ensures c.isCharging && !c.isBarraging && !space ==>
      !r.next.isCharging && r.next.chargeLevel == 0.0 &&
      (r.next.isBarraging <==> c.chargeLevel > 0.0) &&
      (r.next.isBarraging ==> r.next.barrageStartTime == now && r.next.barrageDuration == BarrageDurationFor(c.chargeLevel))
    // a barrage begins only by such a release
    ensures r.next.isBarraging && !c.isBarraging ==> c.isCharging && !space && c.chargeLevel > 0.0
    // a barrage ends once its duration has passed, recording the end and clearing the level
    ensures c.isBarraging && now - c.barrageStartTime > c.barrageDuration ==>
      !r.next.isBarraging && r.next.lastBarrageEndTime == now && r.next.chargeLevel == 0.0 && r.shot == None
    // shots: exactly while a barrage runs and more than 100 ms after the last shot, scaled by the duration
    ensures r.shot.Some? <==>
      c.isBarraging && now - c.barrageStartTime <= c.barrageDuration && now - c.lastShotTime > BarrageFireInterval
    ensures r.shot.Some? ==> r.shot.value == DamageMultiplierFor(c.barrageDuration) && r.next.lastShotTime == now
    ensures r.shot.None? ==> r.next.lastShotTime == c.lastShotTime
    // a barrage in progress keeps running while it has time left, cooldown or not
    ensures c.isBarraging && now - c.barrageStartTime <= c.barrageDuration ==>
      r.next == c.(lastShotTime := r.next.lastShotTime)
  {
    var inCooldown := now - c.lastBarrageEndTime < GlobalCooldown;
    if c.isBarraging then
      if now - c.barrageStartTime > c.barrageDuration then
        ChargeTick(c.(isBarraging := false, chargeLevel := 0.0, lastBarrageEndTime := now), None)
      else if now - c.lastShotTime > BarrageFireInterval then
        ChargeTick(c.(lastShotTime := now), Some(DamageMultiplierFor(c.barrageDuration)))
      else
        ChargeTick(c, None)
    else if inCooldown && !c.isCharging then
      ChargeTick(c, None)
    else if space then
      if !c.isCharging then ChargeTick(c.(isCharging := true, chargeStartTime := now), None)
      else ChargeTick(c.(chargeLevel := ChargeLevelAt(now - c.chargeStartTime)), None)
    else if c.isCharging then
      var d := BarrageDurationFor(c.chargeLevel);
      var released := c.(isCharging := false, chargeLevel := 0.0);
      if d > 0 then ChargeTick(released.(isBarraging := true, barrageStartTime := now, barrageDuration := d), None)
      else ChargeTick(released, None)
    else
      ChargeTick(c, None)
  }

  /** Damage of one barrage shot. */
  function BarrageShotDamage(multiplier: real): (d: real)
    requires 1.0 <= multiplier <= 1.5
    ensures ChargedShotBaseDamage <= d <= 15.0
  {
    ChargedShotBaseDamage * multiplier
  }

  // ---------------------------------------------------------------- contact-damage duty cycle

  const ContactDamageDuration: int := 500
  const ContactDamageCooldown: int := 1500
  const ContactDamageAmount: real := 10.0

  /** The aura's flag and its two timers. */
  datatype Aura = Aura(active: bool, startTime: int, lastTime: int)

  /**
   * One call of the contact-damage handler: switch on once the cooldown has passed since the last
   * switch-off, switch off once the active time has passed since the switch-on.
   */
  function AuraStep(a: Aura, now: int): (r: Aura)
    // after every tick the aura is inside its current phase
    ensures r.active ==> now - r.startTime <= ContactDamageDuration
    ensures !r.active ==> now - r.lastTime <= ContactDamageCooldown
    // switching on happens only after the cooldown, and records the start
    ensures r.active && !a.active ==> now - a.lastTime > ContactDamageCooldown && r.startTime == now && r.lastTime == a.lastTime
    // switching off happens only after the active time, and records the end
    ensures !r.active && a.active ==> now - a.startTime > ContactDamageDuration && r.lastTime == now && r.startTime == a.startTime
    // a tick that does not switch changes nothing
    ensures r.active == a.active ==> r == a
  {
    var a1 := if !a.active && now - a.lastTime > ContactDamageCooldown then a.(active := true, startTime := now) else a;
    if a1.active && now - a1.startTime > ContactDamageDuration then a1.(active := false, lastTime := now) else a1
  }

  // ---------------------------------------------------------------- player damage pipeline

  const MaxHealth: real := 75.0
  const StartingLives: int := 3
  const InvulnerabilityDuration: int := 1000

  /** What the damage pipeline changes besides the invulnerability window. */
  datatype Vitals = Vitals(health: real, lives: int, gameOver: bool)

  /**
   * Damage to the player: health drops, floored at 0; reaching 0 costs one life, and then either
   * refills health or, with no life left, ends the game.
   */
  function Hurt(v: Vitals, amount: real): (r: Vitals)
    ensures 0.0 <= amount && v.health <= MaxHealth ==> 0.0 <= r.health <= MaxHealth
    ensures r.lives == v.lives - 1 <==> v.health <= amount
    ensures r.lives == v.lives <==> v.health > amount
    ensures v.health > amount ==> r.health == v.health - amount && r.gameOver == v.gameOver
    ensures v.health <= amount && v.lives > 1 ==> r.health == MaxHealth && r.gameOver == v.gameOver
    ensures v.health <= amount && v.lives <= 1 ==> r.health == 0.0 && r.gameOver
    ensures r.gameOver && !v.gameOver ==> r.lives <= 0
  {
    var h := if v.health - amount > 0.0 then v.health - amount else 0.0;
    if h <= 0.0 then
      var lives := v.lives - 1;
      if lives <= 0 then Vitals(h, lives, true) else Vitals(MaxHealth, lives, v.gameOver)
    else Vitals(h, v.lives, v.gameOver)
  }

  /** Health within its bounds, and the game over exactly when no life is left. */
  predicate Sound(v: Vitals) {
    0.0 <= v.health <= MaxHealth && (v.gameOver <==> v.lives <= 0)
  }

  /** Damage keeps the player's state sound. */
  lemma HurtKeepsSound(v: Vitals, amount: real)
    requires Sound(v) && amount >= 0.0
    ensures Sound(Hurt(v, amount))
  {
    if v.health <= amount && v.lives > 1 {
      assert Hurt(v, amount).lives == v.lives - 1;
    }
  }

  /** The invulnerability window closes only once strictly more than its duration has passed. */
  function InvulnerableAfter(invulnerable: bool, lastDamageTime: int, now: int): (r: bool)
    ensures r <==> invulnerable && now - lastDamageTime <= InvulnerabilityDuration
  {
    if invulnerable && now - lastDamageTime > InvulnerabilityDuration then false else invulnerable
  }
}
