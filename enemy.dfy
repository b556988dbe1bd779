/** The enemy controller: the dead/respawn countdown and, while alive,
    chase, melee attack or wander.  `EnemyStep` is the pure model of one
    call of `Enemy.update`; the class `Enemy` performs it in place. */
module EnemyAI {
  import opened Geometry
  import opened Entities
  import opened Optional
  import PlayerControl

  const ENEMY_RADIUS := 16.0
  const ENEMY_MAX_HP := 80.0
  const ENEMY_SPEED := 100.0
  const ENEMY_DAMAGE := 12.0
  /** Distance under which the enemy notices the player. */
  const PERCEPTION := 300.0
  /** Extra gap beyond touching at which the enemy stops and attacks. */
  const MELEE_BUFFER := 6.0
  const ENEMY_ATTACK_COOLDOWN := 1.0
  const WANDER_DAMPING := 0.9

  /** Value snapshot of an enemy. */
  datatype EnemyState = EnemyState(body: Body, attackCooldown: real, speed: real,
                                   respawnTime: real)

  /** An enemy as constructed: full health, no cooldown, no pending respawn. */
  function InitialEnemy(pos: Vec): EnemyState {
    EnemyState(Spawned(pos, ENEMY_RADIUS, ENEMY_MAX_HP), 0.0, ENEMY_SPEED, 0.0)
  }

  /** What every enemy state reachable by `Enemy.update` satisfies. */
  predicate EnemyInv(e: EnemyState) {
    Sound(e.body) && e.body.radius == ENEMY_RADIUS && e.body.maxHp == ENEMY_MAX_HP
    && e.speed == ENEMY_SPEED && e.attackCooldown >= 0.0
  }

  /** What this frame supplies from outside: the respawn delay drawn if one
      is needed, the unit vector towards the player (the normalised
      `player.pos - pos`), and, when the 1% wander re-roll fires, the random
      unit direction drawn for it. */
  datatype Senses = Senses(respawnDraw: real, chaseDir: Vec, wander: Option<Vec>)

  /** The enemy and the player after an enemy update. */
  datatype Clash = Clash(enemy: EnemyState, player: Body)

  /** The dead branch: seed the respawn delay, or count it down and revive
      at full health once it runs out. */
  function Revive(e: EnemyState, dt: real, draw: real): EnemyState {
    if e.respawnTime <= 0.0 then e.(respawnTime := draw)
    else
      var t := e.respawnTime - dt;
      if t <= 0.0 then e.(respawnTime := t, body := e.body.(alive := true, hp := e.body.maxHp))
      else e.(respawnTime := t)
  }

  /** Run towards the player at full speed. */
  function Chase(e: EnemyState, dir: Vec, dt: real): EnemyState {
    var v := dir.Scale(e.speed);
    e.(body := e.body.(vel := v, pos := e.body.pos.Plus(v.Scale(dt))))
  }

  /** In melee range: strike when off cooldown and the player is not
      invulnerable.  The cooldown restarts even if the player rejects the
      damage for being dead. */
  function Melee(e: EnemyState, p: Body): Clash {
    if e.attackCooldown <= 0.0 && p.invuln <= 0.0 then
      Clash(e.(attackCooldown := ENEMY_ATTACK_COOLDOWN), ApplyDamage(p, ENEMY_DAMAGE).body)
    else Clash(e, p)
  }

  /** Out of range: damp the velocity, or take the freshly drawn heading at
      half speed, then move. */
  function Wander(e: EnemyState, w: Option<Vec>, dt: real): EnemyState {
    var v := if w.Some? then w.value.Scale(e.speed * 0.5) else e.body.vel.Scale(WANDER_DAMPING);
    e.(body := e.body.(vel := v, pos := e.body.pos.Plus(v.Scale(dt))))
  }

  function ClampEnemy(e: EnemyState): EnemyState {
    e.(body := e.body.(pos := ClampToArena(e.body.pos)))
  }

  /** Centre distance beyond which the enemy chases instead of striking. */
  function MeleeReach(e: Body, p: Body): real {
    e.radius + p.radius + MELEE_BUFFER
  }

  /** One call of `Enemy.update(dt, player)`; `p` is the player's body.
      The source compares true distances; the model compares squared ones
      (see `RangeTestsAgree`). */
  function EnemyStep(e: EnemyState, p: Body, dt: real, s: Senses): Clash {
    var e1 := e.(body := TickInvuln(e.body, dt));
    if !e1.body.alive then Clash(Revive(e1, dt, s.respawnDraw), p)
    else
      var dsq := p.pos.Minus(e1.body.pos).LengthSquared();
      var reach := MeleeReach(e1.body, p);
      if dsq < PERCEPTION * PERCEPTION then
        var m := if dsq > reach * reach then Clash(Chase(e1, s.chaseDir, dt), p) else Melee(e1, p);
        Clash(ClampEnemy(m.enemy.(attackCooldown := Countdown(m.enemy.attackCooldown, dt))), m.player)
      else Clash(ClampEnemy(Wander(e1, s.wander, dt)), p)
  }

  /** One frame of an enemy's run. */
  datatype EnemyFrame = EnemyFrame(dt: real, senses: Senses)

  function EnemyRun(e: EnemyState, p: Body, frames: seq<EnemyFrame>): Clash
    decreases |frames|
  {
    if frames == [] then Clash(e, p)
    else
      var c := EnemyStep(e, p, frames[0].dt, frames[0].senses);
      EnemyRun(c.enemy, c.player, frames[1..])
  }

  function TotalTime(frames: seq<EnemyFrame>): real
    decreases |frames|
  {
    if frames == [] then 0.0 else frames[0].dt + TotalTime(frames[1..])
  }

  // ---- properties ----

  /** With the true distance `d`, the two squared comparisons are the
      source's comparisons `d < 300` and `d > reach`. */
  lemma RangeTestsAgree(d: real, dsq: real, reach: real)
    requires d >= 0.0 && d * d == dsq && reach >= 0.0
    ensures dsq < PERCEPTION * PERCEPTION <==> d < PERCEPTION
    ensures dsq > reach * reach <==> d > reach
  {
    SquaresOrdered(d, PERCEPTION);
    SquaresOrdered(d, reach);
  }

  /** A dead enemy neither moves nor attacks.  With no delay pending it
      draws one and stays dead; otherwise the delay shrinks by `dt`, and the
      enemy revives at full health exactly when it runs out. */
  lemma EnemyStepDead(e: EnemyState, p: Body, dt: real, s: Senses)
    requires !e.body.alive
    ensures var c := EnemyStep(e, p, dt, s); var t := c.enemy;
      && c.player == p
      && t.body.pos == e.body.pos && t.body.vel == e.body.vel
      && t.attackCooldown == e.attackCooldown
      && t.body.invuln == Countdown(e.body.invuln, dt)
      && (e.respawnTime <= 0.0 ==> t.respawnTime == s.respawnDraw && !t.body.alive && t.body.hp == e.body.hp)
      && (e.respawnTime > 0.0 ==>
            && t.respawnTime == e.respawnTime - dt
            && (t.body.alive <==> t.respawnTime <= 0.0)
            && (t.body.hp == if t.body.alive then e.body.maxHp else e.body.hp))
  {
  }

  /** A living enemy ends its update inside the playable rectangle. */
  lemma EnemyStepInArena(e: EnemyState, p: Body, dt: real, s: Senses)
    requires e.body.alive
    ensures InArena(EnemyStep(e, p, dt, s).enemy.body.pos)
  {
  }

  /** The attack cooldown counts down only while the player is within the
      perception radius; farther away it is frozen. */
  lemma CooldownFrozenOutOfRange(e: EnemyState, p: Body, dt: real, s: Senses)
    requires e.body.alive
    requires p.pos.Minus(e.body.pos).LengthSquared() >= PERCEPTION * PERCEPTION
    ensures EnemyStep(e, p, dt, s).enemy.attackCooldown == e.attackCooldown
    ensures EnemyStep(e, p, dt, s).player == p
  {
  }

  /** The only way an enemy update changes the player: in melee range, off
      cooldown, with the player vulnerable, the player takes ENEMY_DAMAGE
      through the damage rule and the cooldown restarts at one second (and is
      counted down once in the same frame). */
  lemma EnemyStepStrike(e: EnemyState, p: Body, dt: real, s: Senses)
    requires e.body.alive
    ensures var dsq := p.pos.Minus(e.body.pos).LengthSquared();
      var reach := e.body.radius + p.radius + MELEE_BUFFER;
      var strikes := dsq < PERCEPTION * PERCEPTION && dsq <= reach * reach
                     && e.attackCooldown <= 0.0 && p.invuln <= 0.0;
      var c := EnemyStep(e, p, dt, s);
      && (strikes ==> c.player == ApplyDamage(p, ENEMY_DAMAGE).body
                      && c.enemy.attackCooldown == Countdown(ENEMY_ATTACK_COOLDOWN, dt))
      && (!strikes ==> c.player == p)
  {
  }

  /** The timers of a living enemy: invulnerability always counts down;
      within the perception radius the attack cooldown counts down in every
      frame without a strike, and it rises only through the strike's reset
      to ENEMY_ATTACK_COOLDOWN. */
  lemma EnemyStepTimers(e: EnemyState, p: Body, dt: real, s: Senses)
    requires e.body.alive
    ensures var dsq := p.pos.Minus(e.body.pos).LengthSquared();
      var reach := e.body.radius + p.radius + MELEE_BUFFER;
      var strikes := dsq < PERCEPTION * PERCEPTION && dsq <= reach * reach
                     && e.attackCooldown <= 0.0 && p.invuln <= 0.0;
      var t := EnemyStep(e, p, dt, s).enemy;
      && t.body.invuln == Countdown(e.body.invuln, dt)
      && t.respawnTime == e.respawnTime
      && (dsq < PERCEPTION * PERCEPTION && !strikes ==> t.attackCooldown == Countdown(e.attackCooldown, dt))
      && (dt >= 0.0 && !strikes ==> t.attackCooldown <= e.attackCooldown)
  {
  }

  /** `EnemyInv` holds of a constructed enemy and is kept by every update,
      which also keeps the player's body sound. */
  lemma InitialEnemyInv(pos: Vec)
    ensures EnemyInv(InitialEnemy(pos))
  {
  }

  lemma EnemyStepKeepsInv(e: EnemyState, p: Body, dt: real, s: Senses)
    requires EnemyInv(e) && Sound(p)
    ensures EnemyInv(EnemyStep(e, p, dt, s).enemy)
    ensures Sound(EnemyStep(e, p, dt, s).player)
  {
    ApplyDamageSound(p, ENEMY_DAMAGE);
  }

  /** An enemy update never kills: once alive, an enemy stays alive along
      any run of updates (only the player's hits kill). */
  lemma {:induction false} AliveStaysAlive(e: EnemyState, p: Body, frames: seq<EnemyFrame>)
    requires e.body.alive
    ensures EnemyRun(e, p, frames).enemy.body.alive
    decreases |frames|
  {
    if frames != [] {
      var c := EnemyStep(e, p, frames[0].dt, frames[0].senses);
      AliveStaysAlive(c.enemy, c.player, frames[1..]);
    }
  }

  /** A dead enemy with a pending delay is alive again once the frames have
      covered that delay. */
  lemma {:induction false} RevivesWithinDelay(e: EnemyState, p: Body, frames: seq<EnemyFrame>)
    requires !e.body.alive && e.respawnTime > 0.0
    requires forall i :: 0 <= i < |frames| ==> frames[i].dt > 0.0
    requires TotalTime(frames) >= e.respawnTime
    ensures EnemyRun(e, p, frames).enemy.body.alive
    decreases |frames|
  {
    assert frames != [];
    var c := EnemyStep(e, p, frames[0].dt, frames[0].senses);
    EnemyStepDead(e, p, frames[0].dt, frames[0].senses);
    if c.enemy.body.alive {
      AliveStaysAlive(c.enemy, c.player, frames[1..]);
    } else {
      RevivesWithinDelay(c.enemy, c.player, frames[1..]);
    }
  }

  /** The mutable enemy; its entity part is `body`. */
  class Enemy {
    const body: Entity
    var attackCooldown: real
    const speed: real
    var respawnTime: real

    function State(): EnemyState
      reads this, body
    {
      EnemyState(body.State(), attackCooldown, speed, respawnTime)
    }

    constructor (pos: Vec)
      ensures fresh(body)
      ensures State() == InitialEnemy(pos)
    {
      body := new Entity(pos, ENEMY_RADIUS, ENEMY_MAX_HP);
      attackCooldown := 0.0;
      speed := ENEMY_SPEED;
      respawnTime := 0.0;
    }

    /** `update(dt, player)` with the random draws and directions in `s`. */
    method Update(dt: real, player: PlayerControl.Player, s: Senses)
      requires body != player.body
      modifies this, body, player.body
      ensures var c := EnemyStep(old(State()), old(player.body.State()), dt, s);
              State() == c.enemy && player.body.State() == c.player
    {
      body.UpdateTimers(dt);
      if !body.alive {
        CountRespawn(dt, s.respawnDraw);
        return;
      }
      var dsq := player.body.pos.Minus(body.pos).LengthSquared();
      if dsq < PERCEPTION * PERCEPTION {
        Engage(dt, player.body, s.chaseDir);
      } else {
        Roam(dt, s.wander);
      }
      body.pos := Vec(Clamp(body.pos.x, MARGIN, WIDTH - MARGIN), Clamp(body.pos.y, MARGIN, HEIGHT - MARGIN));
    }

    /** The dead branch. */
    method CountRespawn(dt: real, draw: real)
      modifies this, body
      ensures State() == Revive(old(State()), dt, draw)
    {
      if respawnTime <= 0.0 {
        respawnTime := draw;
      } else {
        respawnTime := respawnTime - dt;
        if respawnTime <= 0.0 {
          body.alive := true;
          body.hp := body.maxHp;
        }
      }
    }

    /** The player is within the perception radius: chase or strike, then
        count the attack cooldown down. */
    method Engage(dt: real, player: Entity, dir: Vec)
      requires body != player
      modifies this, body, player
      ensures var p := old(player.State());
        var dsq := p.pos.Minus(old(body.pos)).LengthSquared();
        var reach := MeleeReach(old(body.State()), p);
        var m := if dsq > reach * reach then Clash(Chase(old(State()), dir, dt), p) else Melee(old(State()), p);
        State() == m.enemy.(attackCooldown := Countdown(m.enemy.attackCooldown, dt))
        && player.State() == m.player
    {
      var dsq := player.pos.Minus(body.pos).LengthSquared();
      var reach := body.radius + player.radius + MELEE_BUFFER;
      if dsq > reach * reach {
        body.vel := dir.Scale(speed);
        body.pos := body.pos.Plus(body.vel.Scale(dt));
      } else if attackCooldown <= 0.0 && player.invuln <= 0.0 {
        attackCooldown := ENEMY_ATTACK_COOLDOWN;
        var _ := player.TakeDamage(ENEMY_DAMAGE);
      }
      if attackCooldown > 0.0 {
        attackCooldown := Max(0.0, attackCooldown - dt);
      }
    }

    /** The player is out of sight: wander. */
    method Roam(dt: real, w: Option<Vec>)
      modifies body
      ensures State() == Wander(old(State()), w, dt)
    {
      body.vel := body.vel.Scale(WANDER_DAMPING);
      if w.Some? {
        body.vel := w.value.Scale(speed * 0.5);
      }
      body.pos := body.pos.Plus(body.vel.Scale(dt));
    }
  }
}
