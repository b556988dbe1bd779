/** State and rules shared by every combatant (the `Entity` base of the
    player and the enemies): the invulnerability countdown and the damage
    intake rule. */
module Entities {
  import opened Geometry

  /** Invulnerability granted after every accepted hit, in seconds. */
  const GRACE_PERIOD := 0.5

  /** Value snapshot of an entity. */
  datatype Body = Body(pos: Vec, vel: Vec, radius: real, hp: real, maxHp: real,
                       alive: bool, invuln: real)

  /** The consistency every entity keeps: positive size and maximum health,
      health never above its maximum, alive exactly while health is positive,
      and a non-negative invulnerability timer. */
  predicate Sound(b: Body) {
    b.radius > 0.0 && b.maxHp > 0.0 && b.hp <= b.maxHp
    && (b.alive <==> b.hp > 0.0) && b.invuln >= 0.0
  }

  /** A freshly constructed entity: at rest, full health, alive, vulnerable. */
  function Spawned(pos: Vec, radius: real, maxHp: real): (b: Body)
    ensures radius > 0.0 && maxHp > 0.0 ==> Sound(b)
    ensures b.pos == pos && b.radius == radius && b.alive && b.hp == b.maxHp == maxHp
    ensures b.vel == ZERO && b.invuln == 0.0
  {
    Body(pos, ZERO, radius, maxHp, maxHp, true, 0.0)
  }

  /** The countdown every timer of the game uses: a positive timer moves
      towards zero by `dt` and stops at zero; a timer at or below zero is
      left alone. */
  function Countdown(t: real, dt: real): (r: real)
    ensures t <= 0.0 ==> r == t
    ensures t > 0.0 ==> r >= 0.0
    ensures t > 0.0 ==> (r == 0.0 <==> dt >= t)
    ensures r > 0.0 ==> r == t - dt
    ensures dt >= 0.0 ==> r <= t
  {
    if t > 0.0 then Max(0.0, t - dt) else t
  }

  /** `update_timers`: only the invulnerability timer counts down. */
  function TickInvuln(b: Body, dt: real): Body {
    b.(invuln := Countdown(b.invuln, dt))
  }

  /** Outcome of `take_damage`: whether the hit was accepted, and the body after. */
  datatype Struck = Struck(applied: bool, body: Body)

  /** `take_damage(amount)`. */
  function ApplyDamage(b: Body, amount: real): (s: Struck)
    ensures s.applied <==> b.invuln <= 0.0 && b.alive
    ensures !s.applied ==> s.body == b
    ensures s.applied ==>
      && s.body.hp == b.hp - amount
      && s.body.invuln == GRACE_PERIOD
      && (s.body.alive <==> s.body.hp > 0.0)
      && s.body.pos == b.pos && s.body.vel == b.vel
      && s.body.radius == b.radius && s.body.maxHp == b.maxHp
  {
    if b.invuln > 0.0 || !b.alive then Struck(false, b)
    else
      var hp := b.hp - amount;
      Struck(true, b.(hp := hp, invuln := GRACE_PERIOD, alive := !(hp <= 0.0)))
  }

  /** The timer never goes negative and never grows. */
  lemma TickInvulnBounds(b: Body, dt: real)
    requires b.invuln >= 0.0 && dt >= 0.0
    ensures 0.0 <= TickInvuln(b, dt).invuln <= b.invuln
    ensures TickInvuln(b, dt) == b.(invuln := TickInvuln(b, dt).invuln)
  {
  }

  /** Taking non-negative damage keeps an entity sound. */
  lemma ApplyDamageSound(b: Body, amount: real)
    requires Sound(b) && amount >= 0.0
    ensures Sound(ApplyDamage(b, amount).body)
  {
  }

  /** The grace period: a second hit in the same instant is rejected, and
      once at least the grace period has elapsed a surviving entity takes
      damage again. */
  lemma GracePeriodScenario(b: Body, a1: real, a2: real, dt: real)
    requires ApplyDamage(b, a1).applied
    ensures !ApplyDamage(ApplyDamage(b, a1).body, a2).applied
    ensures var after := TickInvuln(ApplyDamage(b, a1).body, dt);
            (dt >= GRACE_PERIOD && after.alive) ==> ApplyDamage(after, a2).applied
  {
  }

  /** An entity of 80 health hit for 28 with the grace period respected
      survives two hits and dies from the third. */
  lemma ThreeHitsScenario(pos: Vec)
    ensures var b0 := Spawned(pos, 16.0, 80.0);
            var b1 := ApplyDamage(b0, 28.0).body;
            var b2 := ApplyDamage(TickInvuln(b1, GRACE_PERIOD), 28.0).body;
            var b3 := ApplyDamage(TickInvuln(b2, GRACE_PERIOD), 28.0).body;
            b1.hp == 52.0 && b1.alive && b2.hp == 24.0 && b2.alive
            && b3.hp == -4.0 && !b3.alive
  {
  }

  /** A mutable entity; the player and each enemy own one. */
  class Entity {
    var pos: Vec
    var vel: Vec
    const radius: real
    var hp: real
    const maxHp: real
    var alive: bool
    var invuln: real

    function State(): Body
      reads this
    {
      Body(pos, vel, radius, hp, maxHp, alive, invuln)
    }

    constructor (pos0: Vec, radius0: real, maxHp0: real)
      ensures State() == Spawned(pos0, radius0, maxHp0)
    {
      pos, vel := pos0, ZERO;
      radius, hp, maxHp := radius0, maxHp0, maxHp0;
      alive, invuln := true, 0.0;
    }

    /** `update_timers(dt)`. */
    method UpdateTimers(dt: real)
      modifies this
      ensures State() == TickInvuln(old(State()), dt)
    {
      if invuln > 0.0 {
        invuln := Max(0.0, invuln - dt);
      }
    }

    /** `take_damage(amount)`: returns whether the hit was accepted. */
    method TakeDamage(amount: real) returns (applied: bool)
      modifies this
      ensures Struck(applied, State()) == ApplyDamage(old(State()), amount)
    {
      if invuln > 0.0 || !alive {
        return false;
      }
      hp := hp - amount;
      invuln := GRACE_PERIOD;
      if hp <= 0.0 {
        alive := false;
      }
      return true;
    }
  }
}
