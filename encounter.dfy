/** Per-frame combat resolution and the encounter manager: the player's
    hitbox against every enemy, the alive count, and the group respawn that
    replaces a fully defeated wave. */
module Encounter {
  import opened Geometry
  import opened Entities
  import opened Optional
  import opened PlayerControl
  import opened EnemyAI

  /** Damage of a connecting hitbox, for light and heavy attacks alike. */
  const HIT_DAMAGE := 28.0
  /** Distance a connecting hit pushes the enemy away from the player. */
  const KNOCKBACK := 12.0
  /** Size of a wave of enemies. */
  const GROUP_SIZE := 4

  /** The hitbox against one enemy body; `push` is the normalised
      `enemy.pos - player.pos`.  The knockback does not depend on whether
      the damage was accepted. */
  function Strike(e: Body, hb: Hitbox, playerPos: Vec, push: Vec): Body {
    if e.alive && CircleCollide(hb.center, hb.radius, e.pos, e.radius) then
      ApplyDamage(e, HIT_DAMAGE).body.(pos := Knockback(e.pos, playerPos, push))
    else e
  }

  /** The displacement of a connecting hit, skipped when the enemy sits
      exactly on the player's centre. */
  function Knockback(pos: Vec, playerPos: Vec, push: Vec): Vec {
    if pos.Minus(playerPos).LengthSquared() > 0.0 then pos.Plus(push.Scale(KNOCKBACK)) else pos
  }

  /** The hit loop over the enemy list: nothing happens without a hitbox. */
  function StrikeAll(bs: seq<Body>, hit: Option<Hitbox>, playerPos: Vec, pushes: seq<Vec>): seq<Body>
    requires |pushes| == |bs|
  {
    seq(|bs|, i requires 0 <= i < |bs| =>
      if hit.Some? then Strike(bs[i], hit.value, playerPos, pushes[i]) else bs[i])
  }

  /** The number of living enemies. */
  function AliveCount(bs: seq<Body>): (n: nat)
    ensures n <= |bs|
  {
    if bs == [] then 0 else (if bs[0].alive then 1 else 0) + AliveCount(bs[1..])
  }

  // ---- properties ----

  /** A hit needs a living enemy overlapping the hitbox.  Then the damage
      rule decides the health loss, while the knockback is applied whenever
      the enemy is not on the player's centre, even if the damage was
      rejected. */
  lemma StrikeCases(e: Body, hb: Hitbox, playerPos: Vec, push: Vec)
    ensures var t := Strike(e, hb, playerPos, push);
      var connects := e.alive && CircleCollide(hb.center, hb.radius, e.pos, e.radius);
      && (!connects ==> t == e)
      && (connects ==>
            && t.hp == (if e.invuln <= 0.0 then e.hp - HIT_DAMAGE else e.hp)
            && t.invuln == (if e.invuln <= 0.0 then GRACE_PERIOD else e.invuln)
            && t.alive == (e.invuln > 0.0 || t.hp > 0.0)
            && (e.pos.Minus(playerPos).LengthSquared() > 0.0 ==> t.pos == e.pos.Plus(push.Scale(KNOCKBACK)))
            && (e.pos == playerPos ==> t.pos == e.pos)
            && t.vel == e.vel && t.radius == e.radius && t.maxHp == e.maxHp)
  {
  }

  /** The knockback is never clamped, and a dead enemy's update returns
      before the clamp: an enemy killed near the right edge is pushed out of
      the playable rectangle and stays there through its next update.  Here
      the player at (1850, 540) facing +x has its hitbox at (1890, 540). */
  lemma KnockbackLeavesArena(e: Body, hb: Hitbox, playerPos: Vec, push: Vec,
                             p: Body, dt: real, senses: Senses)
    requires e == Body(Vec(1895.0, 540.0), ZERO, ENEMY_RADIUS, 20.0, ENEMY_MAX_HP, true, 0.0)
    requires hb == Hitbox(Vec(1890.0, 540.0), 30.0)
    requires playerPos == Vec(1850.0, 540.0) && push == Vec(1.0, 0.0)
    ensures var t := Strike(e, hb, playerPos, push);
      && InArena(e.pos) && !t.alive && t.pos == Vec(1907.0, 540.0) && !InArena(t.pos)
      && !InArena(EnemyStep(EnemyState(t, 0.0, ENEMY_SPEED, 0.0), p, dt, senses).enemy.body.pos)
  {
    assert CircleCollide(hb.center, hb.radius, e.pos, e.radius) by {
      assert hb.center.Minus(e.pos) == Vec(-5.0, 0.0);
    }
    assert e.pos.Minus(playerPos).LengthSquared() > 0.0 by {
      assert e.pos.Minus(playerPos) == Vec(45.0, 0.0);
    }
    StrikeCases(e, hb, playerPos, push);
    var t := Strike(e, hb, playerPos, push);
    assert t.pos == Vec(1907.0, 540.0);
    EnemyStepDead(EnemyState(t, 0.0, ENEMY_SPEED, 0.0), p, dt, senses);
  }

  /** No enemies alive means every enemy is dead, and conversely. */
  lemma {:induction false} AliveCountZeroIff(bs: seq<Body>)
    ensures AliveCount(bs) == 0 <==> forall i :: 0 <= i < |bs| ==> !bs[i].alive
  {
    if bs != [] {
      AliveCountZeroIff(bs[1..]);
      assert forall i :: 1 <= i < |bs| ==> bs[i] == bs[1..][i - 1];
    }
  }

  /** A wave in which every enemy is alive counts as fully alive. */
  lemma {:induction false} AliveCountAll(bs: seq<Body>)
    requires forall i :: 0 <= i < |bs| ==> bs[i].alive
    ensures AliveCount(bs) == |bs|
  {
    if bs != [] {
      assert forall i :: 0 <= i < |bs[1..]| ==> bs[1..][i] == bs[i + 1];
      AliveCountAll(bs[1..]);
    }
  }

  /** Pointwise fewer living enemies means a smaller count. */
  lemma {:induction false} AliveCountMono(after: seq<Body>, before: seq<Body>)
    requires |after| == |before|
    requires forall i :: 0 <= i < |after| ==> after[i].alive ==> before[i].alive
    ensures AliveCount(after) <= AliveCount(before)
  {
    if after != [] {
      assert forall i :: 0 <= i < |after[1..]| ==> after[1..][i] == after[i + 1] && before[1..][i] == before[i + 1];
      AliveCountMono(after[1..], before[1..]);
    }
  }

  /** Combat resolution never revives an enemy and leaves dead enemies
      exactly as they were; so the alive count never grows. */
  lemma StrikeAllNeverRevives(bs: seq<Body>, hit: Option<Hitbox>, playerPos: Vec, pushes: seq<Vec>)
    requires |pushes| == |bs|
    ensures var r := StrikeAll(bs, hit, playerPos, pushes);
      && |r| == |bs|
      && (forall i :: 0 <= i < |bs| && !bs[i].alive ==> r[i] == bs[i])
      && AliveCount(r) <= AliveCount(bs)
  {
    var r := StrikeAll(bs, hit, playerPos, pushes);
    AliveCountMono(r, bs);
  }

  /** Combat resolution keeps every enemy body sound. */
  lemma StrikeAllKeepsSound(bs: seq<Body>, hit: Option<Hitbox>, playerPos: Vec, pushes: seq<Vec>)
    requires |pushes| == |bs|
    requires forall i :: 0 <= i < |bs| ==> Sound(bs[i])
    ensures var r := StrikeAll(bs, hit, playerPos, pushes);
      |r| == |bs| && forall i :: 0 <= i < |r| ==> Sound(r[i])
  {
    forall i | 0 <= i < |bs| {
      ApplyDamageSound(bs[i], HIT_DAMAGE);
    }
  }

  /** Snapshot of the enemies' bodies, in list order. */
  function BodiesOf(es: seq<Enemy>): (r: seq<Body>)
    reads set e | e in es :: e.body
    ensures |r| == |es|
    ensures forall i :: 0 <= i < |es| ==> r[i] == es[i].body.State()
  {
    if es == [] then [] else [es[0].body.State()] + BodiesOf(es[1..])
  }

  /** One pass of the hit loop, in place on the enemy's entity. */
  method StrikeBody(en: Entity, hb: Hitbox, playerPos: Vec, push: Vec)
    modifies en
    ensures en.State() == Strike(old(en.State()), hb, playerPos, push)
  {
    if en.alive && CircleCollide(hb.center, hb.radius, en.pos, en.radius) {
      var _ := en.TakeDamage(HIT_DAMAGE);
      var dir := en.pos.Minus(playerPos);
      if dir.LengthSquared() > 0.0 {
        en.pos := en.pos.Plus(push.Scale(KNOCKBACK));
      }
    }
  }

  /** The simulation context: the player and the current enemy list. */
  class World {
    const player: Player
    var enemies: seq<Enemy>

    /** Every entity owns its body: no two enemies share one, and none
        shares the player's. */
    ghost predicate Valid()
      reads this
    {
      && (forall e :: e in enemies ==> e.body != player.body)
      && (forall i, j :: 0 <= i < |enemies| && 0 <= j < |enemies| && i != j ==>
            enemies[i].body != enemies[j].body)
    }

    function Bodies(): seq<Body>
      reads this, set e | e in enemies :: e.body
    {
      BodiesOf(enemies)
    }

    /** The start of the game: the player at the arena centre and a first
        wave at the given positions. */
    constructor (spawns: seq<Vec>)
      requires |spawns| == GROUP_SIZE
      ensures Valid() && fresh(player) && fresh(player.body)
      ensures player.State() == InitialPlayer(Vec(WIDTH / 2.0, HEIGHT / 2.0))
      ensures |enemies| == GROUP_SIZE
      ensures forall i :: 0 <= i < GROUP_SIZE ==>
                fresh(enemies[i]) && fresh(enemies[i].body) && enemies[i].State() == InitialEnemy(spawns[i])
    {
      player := new Player(Vec(WIDTH / 2.0, HEIGHT / 2.0));
      new;
      Populate(spawns);
    }

    /** Fills the enemy list with a fresh wave (`clear` then `append`). */
    method Populate(spawns: seq<Vec>)
      modifies this
      ensures Valid()
      ensures |enemies| == |spawns|
      ensures forall i :: 0 <= i < |spawns| ==>
                fresh(enemies[i]) && fresh(enemies[i].body) && enemies[i].State() == InitialEnemy(spawns[i])
    {
      enemies := [];
      var k := 0;
      while k < |spawns|
        invariant 0 <= k <= |spawns| && |enemies| == k
        invariant forall i :: 0 <= i < k ==>
                    fresh(enemies[i]) && fresh(enemies[i].body) && enemies[i].State() == InitialEnemy(spawns[i])
        invariant Valid()
      {
        var e := new Enemy(spawns[k]);
        enemies := enemies + [e];
        k := k + 1;
      }
    }

    /** The hit loop: the player's hitbox, if any, against every enemy. */
    method ResolveHits(pushes: seq<Vec>)
      requires Valid() && |pushes| == |enemies|
      modifies set e | e in enemies :: e.body
      ensures Bodies() == StrikeAll(old(Bodies()), AttackHitbox(player.State()), player.body.pos, pushes)
    {
      ghost var before := Bodies();
      var hit := AttackHitbox(player.State());
      if hit.Some? {
        var es, hb, at := enemies, hit.value, player.body.pos;
        var i := 0;
        while i < |es|
          invariant 0 <= i <= |es|
          invariant forall k :: 0 <= k < |es| ==>
                      es[k].body.State() == if k < i then Strike(before[k], hb, at, pushes[k]) else before[k]
        {
          StrikeBody(es[i].body, hb, at, pushes[i]);
          i := i + 1;
        }
      }
    }

    /** The group respawn: when no enemy is alive and the 1% trigger fires,
        the list is replaced by a fresh full wave at the drawn positions;
        otherwise nothing changes. */
    method GroupRespawn(trigger: bool, spawns: seq<Vec>)
      requires Valid() && |spawns| == GROUP_SIZE
      modifies this
      ensures Valid()
      ensures var wipe := AliveCount(old(Bodies())) == 0 && trigger;
        && (wipe ==>
              && |enemies| == GROUP_SIZE
              && (forall i :: 0 <= i < GROUP_SIZE ==>
                    fresh(enemies[i]) && fresh(enemies[i].body) && enemies[i].State() == InitialEnemy(spawns[i]))
              && AliveCount(Bodies()) == GROUP_SIZE)
        && (!wipe ==> enemies == old(enemies))
    {
      var aliveN := AliveCount(BodiesOf(enemies));
      if aliveN == 0 && trigger {
        Populate(spawns);
        AliveCountAll(Bodies());
      }
    }
  }
}
