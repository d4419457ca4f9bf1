/** enemy.py: enemies with health, how a bullet hit lowers it, when an enemy
    dies and whether its death is reported to the game as a kill. */
module Enemy {
  import opened Numeric
  import opened Geometry

  const EnemySpeed: real := 2.3

  /** What the enemy does to the world, in order: report a kill to the game
      (game.on_kill_enemy) or remove itself from every sprite group
      (Sprite.kill). */
  datatype WorldEffect = KillReported | Removed

  /** The thing that lowered an enemy's health. */
  datatype DamageSource = BulletDamage | OtherDamage

  /** is_damage_by_player: only bullets are the player's doing. */
  predicate IsDamageByPlayer(source: DamageSource)
  {
    source.BulletDamage?
  }

  /** The check in check_dead: an enemy lives on while its health, rounded
      to 9 decimals, is above 0. */
  predicate Survives(health: real)
  {
    RoundDecimals(health, Scale9) > 0.0
  }

  /** An enemy whose health is a positive whole number h survives the first
      h - 1 hits and dies on the h-th. */
  lemma DiesOnHit(h: nat, k: nat)
    requires h >= 1
    ensures Survives(h as real - k as real) <==> k < h
  {
    var x := h as real - k as real;
    assert x * Scale9 == ((h - k) * 1000000000) as real;
    RoundDecimalsOnGrid(x, (h - k) * 1000000000, Scale9);
  }

  /** A creation request for an EnemyWithHealth, placed relative to the
      player in polar form (the conversion to a position is pygame's
      Vector2.from_polar and is not modelled). */
  datatype SpawnRequest = SpawnRequest(distance: real, angle: real, health: real)

  /** The placement the single-enemy spawners use: angle ~ uniform(0, 360),
      then distance ~ uniform(250, 500). */
  function RingSpawn(o: Oracle, health: real, at: nat): (d: Drawn<SpawnRequest>)
    requires DrawsInUnit(o)
    ensures 250.0 <= d.value.distance <= 500.0
    ensures 0.0 <= d.value.angle <= 360.0
    ensures d.value.health == health && d.next == at + 2
  {
    UniformBetween(0.0, 360.0, o.draw(at));
    UniformBetween(250.0, 500.0, o.draw(at + 1));
    Drawn(SpawnRequest(Uniform(250.0, 500.0, o.draw(at + 1)), Uniform(0.0, 360.0, o.draw(at)), health), at + 2)
  }

  /** CommonEnemy, an enemy without health: one bullet kills it. */
  class CommonEnemy {
    var alive: bool
    var effects: seq<WorldEffect>

    constructor ()
      ensures alive && effects == []
    {
      alive := true;
      effects := [];
    }

    /** CommonEnemy.on_hit_by_bullet: removes itself first, then reports. */
    method OnHitByBullet()
      modifies this
      ensures !alive
      ensures effects == old(effects) + [Removed, KillReported]
    {
      alive := false;
      effects := effects + [Removed];
      effects := effects + [KillReported];
    }
  }

  class EnemyWithHealth {
    var pos: Vec2
    var health: real
    const maxHp: real
    var immobile: bool
    const speed: real
    var alive: bool
    var effects: seq<WorldEffect>

    /** Construction sets health and max_hp to the same value. */
    constructor (pos: Vec2, health: real, speed: real, immobile: bool)
      ensures this.pos == pos && this.health == health && maxHp == health
      ensures this.speed == speed && this.immobile == immobile
      ensures alive && effects == []
    {
      this.pos := pos;
      this.health := health;
      this.maxHp := health;
      this.immobile := immobile;
      this.speed := speed;
      alive := true;
      effects := [];
    }

    /** Sprite.kill */
    method Kill()
      modifies this`alive, this`effects
      ensures !alive && effects == old(effects) + [Removed]
    {
      alive := false;
      effects := effects + [Removed];
    }

    /** kill_by_player: reports the kill first, then removes itself. */
    method KillByPlayer()
      modifies this`alive, this`effects
      ensures !alive && effects == old(effects) + [KillReported, Removed]
    {
      effects := effects + [KillReported];
      Kill();
    }

    /** check_dead: nothing while the enemy survives; otherwise a kill is
        reported only when the damage came from the player. */
    method CheckDead(source: DamageSource)
      modifies this`alive, this`effects
      ensures Survives(health) ==> alive == old(alive) && effects == old(effects)
      ensures !Survives(health) ==> !alive
      ensures !Survives(health) && IsDamageByPlayer(source) ==> effects == old(effects) + [KillReported, Removed]
      ensures !Survives(health) && !IsDamageByPlayer(source) ==> effects == old(effects) + [Removed]
    {
      if Survives(health) {
        return;
      }
      if IsDamageByPlayer(source) {
        KillByPlayer();
      } else {
        Kill();
      }
    }

    /** on_hit_by_bullet: exactly one point of damage, then the death check. */
    method OnHitByBullet()
      modifies this`health, this`alive, this`effects
      ensures health == old(health) - 1.0
      ensures Survives(health) ==> alive == old(alive) && effects == old(effects)
      ensures !Survives(health) ==> !alive && effects == old(effects) + [KillReported, Removed]
    {
      health := health - 1.0;
      CheckDead(BulletDamage);
    }

    /** handle_movement: an immobile enemy stays put; otherwise it moves
        `speed` towards the player (Vector2.move_towards, given here). */
    method HandleMovement(playerPos: Vec2, moveTowards: (Vec2, Vec2, real) -> Vec2)
      modifies this`pos
      ensures immobile ==> pos == old(pos)
      ensures !immobile ==> pos == moveTowards(old(pos), playerPos, speed)
    {
      if immobile {
        return;
      }
      pos := moveTowards(pos, playerPos, speed);
    }
  }

  /** Hitting a fresh enemy of whole health h with h bullets: the first h - 1
      leave it alive and report nothing; the h-th kills it and reports
      exactly one kill, before its removal. */
  method HitsUntilDeath(h: nat) returns (e: EnemyWithHealth)
    requires h >= 1
    ensures !e.alive && e.health == 0.0 && e.maxHp == h as real
    ensures e.effects == [KillReported, Removed]
  {
    e := new EnemyWithHealth(Vec2(0.0, 0.0), h as real, EnemySpeed, false);
    var k: nat := 0;
    while k < h - 1
      invariant 0 <= k <= h - 1
      invariant e.health == h as real - k as real
      invariant e.alive && e.effects == []
    {
      DiesOnHit(h, k + 1);
      e.OnHitByBullet();
      k := k + 1;
    }
    DiesOnHit(h, h);
    e.OnHitByBullet();
  }
}
