/** The player controller: stamina economy, dodge roll, light and heavy
    attacks, their countdowns, velocity smoothing, movement and the attack
    hitbox.  `PlayerStep` is the pure model of one call of `Player.update`;
    the class `Player` performs the same step in place. */
module PlayerControl {
  import opened Geometry
  import opened Entities
  import opened Optional

  const PLAYER_RADIUS := 16.0
  const PLAYER_MAX_HP := 120.0
  const PLAYER_SPEED := 180.0
  const ROLL_SPEED := 420.0
  const ATTACK_RANGE := 48.0
  const ATTACK_COOLDOWN := 0.45
  const ROLL_COOLDOWN := 0.8
  const INVULN_TIME := 0.28
  const STAMINA_MAX := 100.0
  const STAMINA_RECOVERY_RATE := 20.0
  const LIGHT_ATTACK_COST := 12.0
  const HEAVY_ATTACK_COST := 28.0
  const HEAVY_ATTACK_COOLDOWN := 1.0
  const ROLL_COST := 20.0
  const ROLL_WINDOW := 0.26
  const LIGHT_ATTACK_WINDOW := 0.18
  const HEAVY_ATTACK_WINDOW := 0.34
  /** Velocity smoothing rate, per second. */
  const STEER_RATE := 10.0

  /** One frame of input.  `up`, `down`, `left`, `right` are the direction
      keys (either key of each pair), `light` is J or the left mouse button,
      `heavy` is K, `roll` is Space or the right mouse button.  `dir` is the
      normalised movement vector the input layer computes from the
      direction keys; it is used only when some direction is held. */
  datatype Controls = Controls(up: bool, down: bool, left: bool, right: bool,
                               light: bool, heavy: bool, roll: bool, dir: Vec)
  {
    /** The unnormalised movement vector built from the direction keys. */
    function RawMove(): Vec {
      Vec((if left then -1.0 else 0.0) + (if right then 1.0 else 0.0),
          (if up then -1.0 else 0.0) + (if down then 1.0 else 0.0))
    }

    /** The raw vector has components in {-1, 0, 1}, so its squared length
        is positive exactly when some component is nonzero. */
    lemma RawMoveNonzero()
      ensures RawMove().LengthSquared() > 0.0 <==> RawMove() != ZERO
    {
      var v := RawMove();
      assert v.x == -1.0 || v.x == 0.0 || v.x == 1.0;
      assert v.y == -1.0 || v.y == 0.0 || v.y == 1.0;
    }

    /** `dir` really is the normalisation of the raw movement vector. */
    predicate WellFormed() {
      RawMove() != ZERO ==> IsDirectionOf(dir, RawMove())
    }

    /** The movement vector after normalisation (zero stays zero). */
    function Move(): Vec {
      if RawMove().LengthSquared() > 0.0 then dir else ZERO
    }

    /** With no direction key held the movement vector is zero; otherwise it
        is `dir`, which on well-formed input is the normalised key vector. */
    lemma MoveCases()
      ensures RawMove() == ZERO ==> Move() == ZERO
      ensures RawMove() != ZERO ==> Move() == dir
      ensures WellFormed() && RawMove() != ZERO ==> IsDirectionOf(Move(), RawMove())
    {
      RawMoveNonzero();
    }
  }

  /** Value snapshot of the player. */
  datatype PlayerState = PlayerState(body: Body, stamina: real,
                                     attackTimer: real, attackCooldown: real,
                                     rollTimer: real, rollCooldown: real,
                                     facing: Vec, isRolling: bool)

  /** The player as constructed: full health and stamina, every timer at
      zero, facing +x, not rolling. */
  function InitialPlayer(pos: Vec): PlayerState {
    PlayerState(Spawned(pos, PLAYER_RADIUS, PLAYER_MAX_HP), STAMINA_MAX,
                0.0, 0.0, 0.0, 0.0, Vec(1.0, 0.0), false)
  }

  /** What every player state reachable by `Player.update` satisfies. */
  predicate PlayerInv(s: PlayerState) {
    && Sound(s.body)
    && s.body.radius == PLAYER_RADIUS
    && 0.0 <= s.stamina <= STAMINA_MAX
    && s.attackTimer >= 0.0 && s.attackCooldown >= 0.0
    && s.rollTimer >= 0.0 && s.rollCooldown >= 0.0
    && s.facing.LengthSquared() == 1.0
    && (s.isRolling <==> s.rollTimer > 0.0)
  }

  // ---- the phases of one update, in the order the source runs them ----

  /** A nonzero movement input becomes the new facing. */
  function Face(s: PlayerState, c: Controls): PlayerState {
    if c.RawMove().LengthSquared() > 0.0 then s.(facing := c.dir) else s
  }

  /** Passive regeneration, skipped while rolling, clamped to the maximum. */
  function Regenerated(stamina: real, rolling: bool, dt: real): (r: real)
    ensures rolling ==> r == stamina
    ensures !rolling ==> 0.0 <= r <= STAMINA_MAX
    ensures !rolling && 0.0 <= stamina + STAMINA_RECOVERY_RATE * dt <= STAMINA_MAX
            ==> r == stamina + STAMINA_RECOVERY_RATE * dt
  {
    if !rolling then Clamp(stamina + STAMINA_RECOVERY_RATE * dt, 0.0, STAMINA_MAX)
    else stamina
  }

  predicate RollGuard(s: PlayerState, c: Controls) {
    s.rollCooldown <= 0.0 && c.roll && s.stamina >= ROLL_COST
  }

  /** Starting a dodge roll. */
  function TryRoll(s: PlayerState, c: Controls): PlayerState {
    if RollGuard(s, c) then
      s.(isRolling := true, rollTimer := ROLL_WINDOW, rollCooldown := ROLL_COOLDOWN,
         body := s.body.(invuln := INVULN_TIME, vel := s.facing.Scale(ROLL_SPEED)),
         stamina := s.stamina - ROLL_COST)
    else s
  }

  /** The fixed parameters of an attack kind. */
  datatype AttackKind = AttackKind(window: real, cooldown: real, cost: real)
  const LIGHT := AttackKind(LIGHT_ATTACK_WINDOW, ATTACK_COOLDOWN, LIGHT_ATTACK_COST)
  const HEAVY := AttackKind(HEAVY_ATTACK_WINDOW, HEAVY_ATTACK_COOLDOWN, HEAVY_ATTACK_COST)

  /** A state together with whether an attack started this frame. */
  datatype Armed = Armed(state: PlayerState, attacking: bool)

  predicate AttackGuard(s: PlayerState, pressed: bool, k: AttackKind) {
    s.attackCooldown <= 0.0 && pressed && s.stamina >= k.cost
  }

  function TryAttack(s: PlayerState, pressed: bool, k: AttackKind): Armed {
    if AttackGuard(s, pressed, k) then
      Armed(s.(attackTimer := k.window, attackCooldown := k.cooldown,
               stamina := s.stamina - k.cost), true)
    else Armed(s, false)
  }

  /** The light attack is tried first; the heavy attack is then tried
      against the state the light attack left. */
  function TryAttacks(s: PlayerState, c: Controls): Armed {
    var l := TryAttack(s, c.light, LIGHT);
    var h := TryAttack(l.state, c.heavy, HEAVY);
    Armed(h.state, l.attacking || h.attacking)
  }

  /** The countdown phase; a roll whose timer reaches zero ends and stops. */
  function Countdowns(s: PlayerState, dt: real): PlayerState {
    var rt := Countdown(s.rollTimer, dt);
    var ended := s.rollTimer > 0.0 && rt == 0.0;
    s.(attackTimer := Countdown(s.attackTimer, dt),
       attackCooldown := Countdown(s.attackCooldown, dt),
       rollTimer := rt,
       isRolling := if ended then false else s.isRolling,
       body := if ended then s.body.(vel := ZERO) else s.body,
       rollCooldown := Countdown(s.rollCooldown, dt))
  }

  /** Exponential smoothing of the velocity towards the movement target,
      bypassed while rolling or in the frame an attack starts. */
  function Steer(s: PlayerState, mv: Vec, attacking: bool, dt: real): PlayerState {
    if !s.isRolling && !attacking then
      var target := mv.Scale(PLAYER_SPEED);
      var k := Clamp(STEER_RATE * dt, 0.0, 1.0);
      s.(body := s.body.(vel := s.body.vel.Plus(target.Minus(s.body.vel).Scale(k))))
    else s
  }

  /** Moves by the velocity and clamps into the arena. */
  function Integrate(s: PlayerState, dt: real): PlayerState {
    s.(body := s.body.(pos := ClampToArena(s.body.pos.Plus(s.body.vel.Scale(dt)))))
  }

  /** Everything before the action checks: the invulnerability countdown,
      the facing update and stamina regeneration. */
  function Prepared(s: PlayerState, c: Controls, dt: real): PlayerState {
    var f := Face(s.(body := TickInvuln(s.body, dt)), c);
    f.(stamina := Regenerated(f.stamina, f.isRolling, dt))
  }

  /** One call of `Player.update(dt, ...)`. */
  function PlayerStep(s: PlayerState, c: Controls, dt: real): PlayerState {
    var a := TryAttacks(TryRoll(Prepared(s, c, dt), c), c);
    Integrate(Steer(Countdowns(a.state, dt), c.Move(), a.attacking, dt), dt)
  }

  /** A run of frames, each given its elapsed time and its input. */
  datatype Frame = Frame(dt: real, controls: Controls)

  function PlayerRun(s: PlayerState, frames: seq<Frame>): PlayerState
    decreases |frames|
  {
    if frames == [] then s
    else PlayerRun(PlayerStep(s, frames[0].controls, frames[0].dt), frames[1..])
  }

  // ---- the attack hitbox ----

  datatype Hitbox = Hitbox(center: Vec, radius: real)

  /** `attack_hitbox()`.  The facing is always a unit vector (see
      `PlayerStepKeepsInv`), so normalising it is the identity. */
  function AttackHitbox(s: PlayerState): (h: Option<Hitbox>)
    ensures h.Some? <==> s.attackTimer > 0.0
    ensures h.Some? ==> h.value.radius == 30.0
    ensures h.Some? ==> h.value.center
                        == s.body.pos.Plus(s.facing.Scale(s.body.radius + 24.0))
  {
    if s.attackTimer > 0.0 then
      Some(Hitbox(s.body.pos.Plus(s.facing.Scale(s.body.radius + ATTACK_RANGE / 2.0)),
                  ATTACK_RANGE / 1.6))
    else None
  }

  // ---- properties ----

  /** After any update the player stands inside the playable rectangle. */
  lemma PlayerStepInArena(s: PlayerState, c: Controls, dt: real)
    ensures InArena(PlayerStep(s, c, dt).body.pos)
  {
  }

  /** Stamina stays within [0, STAMINA_MAX]: regeneration is clamped and
      every debit is guarded by the stamina it takes. */
  lemma PlayerStepStaminaBounded(s: PlayerState, c: Controls, dt: real)
    requires 0.0 <= s.stamina <= STAMINA_MAX
    ensures 0.0 <= PlayerStep(s, c, dt).stamina <= STAMINA_MAX
  {
    var p := Prepared(s, c, dt);
    var r := TryRoll(p, c);
    assert 0.0 <= r.stamina <= STAMINA_MAX;
    var l := TryAttack(r, c.light, LIGHT);
    assert 0.0 <= l.state.stamina <= STAMINA_MAX;
  }

  /** The exact stamina cost of a frame: regeneration (judged by the rolling
      flag from before this frame's roll) minus the cost of what started. */
  lemma PlayerStepStaminaLedger(s: PlayerState, c: Controls, dt: real)
    ensures
      var regen := Regenerated(s.stamina, s.isRolling, dt);
      var p := Prepared(s, c, dt);
      var rolled := RollGuard(p, c);
      var afterRoll := if rolled then regen - ROLL_COST else regen;
      var lightStarts := AttackGuard(TryRoll(p, c), c.light, LIGHT);
      var heavyStarts := !lightStarts && AttackGuard(TryRoll(p, c), c.heavy, HEAVY);
      PlayerStep(s, c, dt).stamina
        == afterRoll - (if lightStarts then LIGHT_ATTACK_COST else 0.0)
                     - (if heavyStarts then HEAVY_ATTACK_COST else 0.0)
  {
    var r := TryRoll(Prepared(s, c, dt), c);
    if AttackGuard(r, c.light, LIGHT) {
      assert !AttackGuard(TryAttack(r, c.light, LIGHT).state, c.heavy, HEAVY);
    }
  }

  /** The roll starts exactly when the cooldown is over, roll is pressed and
      at least ROLL_COST stamina is left after regeneration.  A started roll
      sets the timers, grants INVULN_TIME of invulnerability, costs exactly
      ROLL_COST and launches the player along the facing; otherwise none of
      these fields is touched.  The roll checks run after the facing update
      and never look at the attack inputs. */
  lemma TryRollCases(s: PlayerState, c: Controls)
    ensures var t := TryRoll(s, c);
      && (RollGuard(s, c) <==> s.rollCooldown <= 0.0 && c.roll && s.stamina >= ROLL_COST)
      && (RollGuard(s, c) ==>
            && t.isRolling && t.rollTimer == 0.26 && t.rollCooldown == 0.8
            && t.body.invuln == 0.28 && t.stamina == s.stamina - 20.0
            && t.body.vel == s.facing.Scale(420.0)
            && t.body.pos == s.body.pos && t.body.hp == s.body.hp
            && t.body.alive == s.body.alive && t.body.radius == s.body.radius
            && t.body.maxHp == s.body.maxHp
            && t.attackTimer == s.attackTimer && t.attackCooldown == s.attackCooldown
            && t.facing == s.facing)
      && (!RollGuard(s, c) ==> t == s)
  {
  }

  /** Over a whole update: when a roll starts the player ends the frame with
      exactly INVULN_TIME of invulnerability and the roll timers counted down
      once, and still rolls unless the frame outlasted the roll window.
      When no roll starts, the invulnerability and roll timers only count
      down. */
  lemma PlayerStepRoll(s: PlayerState, c: Controls, dt: real)
    ensures var p := Prepared(s, c, dt); var t := PlayerStep(s, c, dt);
      && (RollGuard(p, c) <==>
            s.rollCooldown <= 0.0 && c.roll
            && Regenerated(s.stamina, s.isRolling, dt) >= ROLL_COST)
      && (RollGuard(p, c) ==>
            && t.body.invuln == INVULN_TIME
            && t.rollTimer == Countdown(ROLL_WINDOW, dt)
            && t.rollCooldown == Countdown(ROLL_COOLDOWN, dt)
            && (t.isRolling <==> dt < ROLL_WINDOW))
      && (!RollGuard(p, c) ==>
            && t.body.invuln == Countdown(s.body.invuln, dt)
            && t.rollTimer == Countdown(s.rollTimer, dt)
            && t.rollCooldown == Countdown(s.rollCooldown, dt))
  {
  }

  /** Over a whole update the facing becomes the movement direction when a
      direction key is held and is otherwise the last one; the later phases
      leave it alone. */
  lemma PlayerStepFacing(s: PlayerState, c: Controls, dt: real)
    ensures PlayerStep(s, c, dt).facing == (if c.RawMove() != ZERO then c.dir else s.facing)
  {
    var p := Prepared(s, c, dt);
    c.RawMoveNonzero();
    assert p.facing == (if c.RawMove() != ZERO then c.dir else s.facing);
    var r := TryRoll(p, c);
    assert r.facing == p.facing;
    var a := TryAttacks(r, c);
    TryAttacksCases(r, c);
    assert Countdowns(a.state, dt).facing == p.facing;
  }

  /** At most one attack starts per frame, and light wins a tie: when the
      light attack starts, the heavy guard fails because the cooldown it
      just set is positive. */
  lemma TryAttacksCases(s: PlayerState, c: Controls)
    ensures var a := TryAttacks(s, c); var t := a.state;
      var lightStarts := s.attackCooldown <= 0.0 && c.light && s.stamina >= 12.0;
      var heavyStarts := !lightStarts && s.attackCooldown <= 0.0 && c.heavy && s.stamina >= 28.0;
      && (a.attacking <==> lightStarts || heavyStarts)
      && (lightStarts ==>
            t.attackTimer == 0.18 && t.attackCooldown == 0.45 && t.stamina == s.stamina - 12.0)
      && (heavyStarts ==>
            t.attackTimer == 0.34 && t.attackCooldown == 1.0 && t.stamina == s.stamina - 28.0)
      && (!a.attacking ==> t == s)
      && t.body == s.body && t.isRolling == s.isRolling && t.rollTimer == s.rollTimer
      && t.rollCooldown == s.rollCooldown && t.facing == s.facing
  {
  }

  /** A roll and an attack may start in the same frame: the attack guards do
      not look at the rolling flag. */
  lemma RollAndAttackTogether(s: PlayerState, c: Controls)
    requires s.rollCooldown <= 0.0 && s.attackCooldown <= 0.0
    requires c.roll && c.light && s.stamina >= ROLL_COST + LIGHT_ATTACK_COST
    ensures var a := TryAttacks(TryRoll(s, c), c);
      a.attacking && a.state.isRolling && a.state.stamina == s.stamina - 32.0
  {
  }

  /** The countdown phase never raises a timer nor drives it negative; the
      roll ends, with the velocity zeroed, exactly when its timer reaches 0. */
  lemma CountdownsCases(s: PlayerState, dt: real)
    requires dt >= 0.0
    requires s.attackTimer >= 0.0 && s.attackCooldown >= 0.0
    requires s.rollTimer >= 0.0 && s.rollCooldown >= 0.0
    ensures var t := Countdowns(s, dt);
      && 0.0 <= t.attackTimer <= s.attackTimer
      && 0.0 <= t.attackCooldown <= s.attackCooldown
      && 0.0 <= t.rollTimer <= s.rollTimer
      && 0.0 <= t.rollCooldown <= s.rollCooldown
      && (s.rollTimer > 0.0 && t.rollTimer == 0.0 ==> !t.isRolling && t.body.vel == ZERO)
      && (!(s.rollTimer > 0.0 && t.rollTimer == 0.0) ==> t.isRolling == s.isRolling && t.body == s.body)
  {
  }

  /** Without a new roll the invulnerability window never grows. */
  lemma PlayerStepInvulnNonIncreasing(s: PlayerState, c: Controls, dt: real)
    requires dt >= 0.0 && s.body.invuln >= 0.0
    requires !RollGuard(Prepared(s, c, dt), c)
    ensures 0.0 <= PlayerStep(s, c, dt).body.invuln <= s.body.invuln
  {
  }

  /** `PlayerInv` holds of the constructed player ... */
  lemma InitialPlayerInv(pos: Vec)
    ensures PlayerInv(InitialPlayer(pos))
  {
  }

  /** ... and every update with a well-formed input keeps it, phase by
      phase. */
  lemma PlayerStepKeepsInv(s: PlayerState, c: Controls, dt: real)
    requires PlayerInv(s) && c.WellFormed()
    ensures PlayerInv(PlayerStep(s, c, dt))
  {
    var p := Prepared(s, c, dt);
    PreparedKeepsInv(s, c, dt);
    var r := TryRoll(p, c);
    assert PlayerInv(r);
    var a := TryAttacks(r, c);
    TryAttacksKeepsInv(r, c);
    var d := Countdowns(a.state, dt);
    CountdownsKeepsInv(a.state, dt);
    var m := Steer(d, c.Move(), a.attacking, dt);
    assert PlayerInv(m);
  }

  lemma PreparedKeepsInv(s: PlayerState, c: Controls, dt: real)
    requires PlayerInv(s) && c.WellFormed()
    ensures PlayerInv(Prepared(s, c, dt))
  {
    c.RawMoveNonzero();
  }

  lemma TryAttacksKeepsInv(s: PlayerState, c: Controls)
    requires PlayerInv(s)
    ensures PlayerInv(TryAttacks(s, c).state)
  {
    assert PlayerInv(TryAttack(s, c.light, LIGHT).state);
  }

  lemma CountdownsKeepsInv(s: PlayerState, dt: real)
    requires PlayerInv(s)
    ensures PlayerInv(Countdowns(s, dt))
  {
  }

  /** Hence the invariant holds along any run of well-formed frames. */
  lemma {:induction false} PlayerRunKeepsInv(s: PlayerState, frames: seq<Frame>)
    requires PlayerInv(s)
    requires forall i :: 0 <= i < |frames| ==> frames[i].controls.WellFormed()
    ensures PlayerInv(PlayerRun(s, frames))
    decreases |frames|
  {
    if frames != [] {
      PlayerStepKeepsInv(s, frames[0].controls, frames[0].dt);
      PlayerRunKeepsInv(PlayerStep(s, frames[0].controls, frames[0].dt), frames[1..]);
    }
  }

  /** Facing (1,0) at the origin with an active attack: the hitbox is
      centred at (40,0) with radius 30, so an enemy of radius 16 standing
      on that centre is hit. */
  lemma HitboxScenario(s: PlayerState)
    requires s.body.pos == ZERO && s.facing == Vec(1.0, 0.0)
    requires s.body.radius == PLAYER_RADIUS && s.attackTimer > 0.0
    ensures AttackHitbox(s) == Some(Hitbox(Vec(40.0, 0.0), 30.0))
    ensures CircleCollide(Vec(40.0, 0.0), 30.0, Vec(40.0, 0.0), 16.0)
  {
  }

  /** The mutable player; its entity part is `body`. */
  class Player {
    const body: Entity
    var stamina: real
    var attackTimer: real
    var attackCooldown: real
    var rollTimer: real
    var rollCooldown: real
    var facing: Vec
    var isRolling: bool

    function State(): PlayerState
      reads this, body
    {
      PlayerState(body.State(), stamina, attackTimer, attackCooldown,
                  rollTimer, rollCooldown, facing, isRolling)
    }

    constructor (pos: Vec)
      ensures fresh(body)
      ensures State() == InitialPlayer(pos)
    {
      body := new Entity(pos, PLAYER_RADIUS, PLAYER_MAX_HP);
      stamina := STAMINA_MAX;
      attackTimer, attackCooldown := 0.0, 0.0;
      rollTimer, rollCooldown := 0.0, 0.0;
      facing := Vec(1.0, 0.0);
      isRolling := false;
    }

    /** `update(dt, keys, ...)` with the key polling replaced by `c`. */
    method Update(dt: real, c: Controls)
      modifies this, body
      ensures State() == PlayerStep(old(State()), c, dt)
    {
      var mv := Prepare(dt, c);
      StartRoll(c);
      var attacking := StartAttacks(c);
      CountDown(dt);
      Move(mv, attacking, dt);
    }

    /** Invulnerability countdown, movement input and facing, regeneration;
        returns the normalised movement vector. */
    method Prepare(dt: real, c: Controls) returns (mv: Vec)
      modifies this, body
      ensures mv == c.Move()
      ensures State() == Prepared(old(State()), c, dt)
    {
      body.UpdateTimers(dt);
      mv := MoveInput(c);
      c.RawMoveNonzero();
      if mv.LengthSquared() > 0.0 {
        mv := c.dir;
        facing := mv;
      }
      assert State() == Face(old(State()).(body := TickInvuln(old(State()).body, dt)), c);
      if !isRolling {
        stamina := Clamp(stamina + STAMINA_RECOVERY_RATE * dt, 0.0, STAMINA_MAX);
      }
    }

    /** The movement vector built from the direction keys. */
    static method MoveInput(c: Controls) returns (mv: Vec)
      ensures mv == c.RawMove()
    {
      var mx, my := 0.0, 0.0;
      if c.up { my := my - 1.0; }
      if c.down { my := my + 1.0; }
      if c.left { mx := mx - 1.0; }
      if c.right { mx := mx + 1.0; }
      mv := Vec(mx, my);
    }

    method StartRoll(c: Controls)
      modifies this, body
      ensures State() == TryRoll(old(State()), c)
    {
      if rollCooldown <= 0.0 && c.roll {
        if stamina >= ROLL_COST {
          isRolling := true;
          rollTimer := ROLL_WINDOW;
          rollCooldown := ROLL_COOLDOWN;
          body.invuln := INVULN_TIME;
          stamina := stamina - ROLL_COST;
          body.vel := facing.Scale(ROLL_SPEED);
        }
      }
    }

    method StartAttacks(c: Controls) returns (attacking: bool)
      modifies this
      ensures Armed(State(), attacking) == TryAttacks(old(State()), c)
    {
      attacking := false;
      if attackCooldown <= 0.0 && c.light {
        if stamina >= LIGHT_ATTACK_COST {
          attackTimer := LIGHT_ATTACK_WINDOW;
          attackCooldown := ATTACK_COOLDOWN;
          stamina := stamina - LIGHT_ATTACK_COST;
          attacking := true;
        }
      }
      if attackCooldown <= 0.0 && c.heavy {
        if stamina >= HEAVY_ATTACK_COST {
          attackTimer := HEAVY_ATTACK_WINDOW;
          attackCooldown := HEAVY_ATTACK_COOLDOWN;
          stamina := stamina - HEAVY_ATTACK_COST;
          attacking := true;
        }
      }
    }

    method CountDown(dt: real)
      modifies this, body
      ensures State() == Countdowns(old(State()), dt)
    {
      if attackTimer > 0.0 {
        attackTimer := Max(0.0, attackTimer - dt);
      }
      if attackCooldown > 0.0 {
        attackCooldown := Max(0.0, attackCooldown - dt);
      }
      if rollTimer > 0.0 {
        rollTimer := Max(0.0, rollTimer - dt);
        if rollTimer == 0.0 {
          isRolling := false;
          body.vel := ZERO;
        }
      }
      if rollCooldown > 0.0 {
        rollCooldown := Max(0.0, rollCooldown - dt);
      }
    }

    /** Velocity smoothing (unless locked), integration and clamping. */
    method Move(mv: Vec, attacking: bool, dt: real)
      modifies body
      ensures State() == Integrate(Steer(old(State()), mv, attacking, dt), dt)
    {
      if !isRolling && !attacking {
        var target := mv.Scale(PLAYER_SPEED);
        body.vel := body.vel.Plus(target.Minus(body.vel).Scale(Clamp(STEER_RATE * dt, 0.0, 1.0)));
      }
      var moved := body.pos.Plus(body.vel.Scale(dt));
      body.pos := Vec(Clamp(moved.x, MARGIN, WIDTH - MARGIN), Clamp(moved.y, MARGIN, HEIGHT - MARGIN));
    }
  }
}
