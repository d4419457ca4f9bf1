/** main.py: the game's tick counter and per-frame bookkeeping, the
    EveryNTicks schedule, the player as main.py defines it, and the tutorial
    hook that starts the enemies once the first turret is placed. */
module MainGame {
  import opened Numeric
  import opened Util
  import opened Geometry
  import opened Enemy
  import opened Turret
  import opened IntervalSpawn
  import opened TriggerOnceDecorator

  // ---------------------------------------------------------------------
  // EveryNTicks
  // ---------------------------------------------------------------------

  class EveryNTicks {
    const n: int
    const startedAt: int

    /** Started `offset` ticks after the tick of creation (offset defaults
        to 1). */
    constructor (n: int, offset: int, tick: int)
      ensures this.n == n && startedAt == tick + offset
    {
      this.n := n;
      startedAt := tick + offset;
    }

    /** is_this_frame: never before the start; from then on every n-th tick.
        The modulo is only reached from the start on, where n == 0 raises
        ZeroDivisionError. */
    function IsThisFrame(tick: int): (r: Result<bool>)
      reads this
      ensures r.Err? <==> tick >= startedAt && n == 0
      ensures r.Err? ==> r.error == ZeroDivisionError
      ensures tick < startedAt ==> r == Ok(false)
    {
      if tick < startedAt then Ok(false)
      else if n == 0 then Err(ZeroDivisionError)
      else Ok((tick - startedAt) % n == 0)
    }
  }

  /** A product of a positive factor and one at least 1 is at least the
      first. */
  lemma MulAtLeast(a: int, n: int)
    requires a >= 1 && n > 0
    ensures a * n >= n
  {
    assert a * n == (a - 1) * n + n;
    assert (a - 1) * n >= 0;
  }

  /** The remainder is unique: x = q * n + r with 0 <= r < n gives
      x % n == r. */
  lemma ModUnique(x: int, n: int, q: int, r: int)
    requires n > 0 && 0 <= r < n && x == q * n + r
    ensures x % n == r
  {
    var q', r' := x / n, x % n;
    assert x == q' * n + r';
    assert (q - q') * n == r' - r;
    if q > q' {
      MulAtLeast(q - q', n);
    } else if q < q' {
      MulAtLeast(q' - q, n);
    }
  }

  /** With n > 0 the schedule fires at the start and then exactly every n
      ticks: at startedAt + k * n + d it fires iff d == 0. */
  lemma EveryNTicksSchedule(e: EveryNTicks, k: nat, d: int)
    requires e.n > 0 && 0 <= d < e.n
    ensures e.IsThisFrame(e.startedAt + k * e.n + d) == Ok(d == 0)
  {
    ModUnique(k * e.n + d, e.n, k, d);
    assert k * e.n >= 0;
  }

  /** EveryNTicks(game, 5) created at tick 10 first fires at 11, then at
      16, and not at 12 .. 15. */
  method EveryFiveTicks() returns (e: EveryNTicks)
    ensures e.IsThisFrame(11) == Ok(true) && e.IsThisFrame(16) == Ok(true)
    ensures forall t :: 12 <= t <= 15 ==> e.IsThisFrame(t) == Ok(false)
    ensures e.IsThisFrame(10) == Ok(false)
  {
    e := new EveryNTicks(5, 1, 10);
    EveryNTicksSchedule(e, 0, 0);
    EveryNTicksSchedule(e, 1, 0);
    forall t | 12 <= t <= 15
      ensures e.IsThisFrame(t) == Ok(false)
    {
      EveryNTicksSchedule(e, 0, t - 11);
    }
  }

  // ---------------------------------------------------------------------
  // main.py's Player
  // ---------------------------------------------------------------------

  /** The Player class of main.py: a kill earns a fifth of a turret. */
  class Player {
    var turrets: real
    var isDead: bool
    var enemiesKilled: nat

    constructor ()
      ensures turrets == 0.0 && !isDead && enemiesKilled == 0
    {
      turrets := 0.0;
      isDead := false;
      enemiesKilled := 0;
    }

    /** The turrets setter stores round(value, 8). */
    method SetTurrets(value: real)
      modifies this`turrets
      ensures turrets == RoundDecimals(value, Scale8)
    {
      turrets := RoundDecimals(value, Scale8);
    }

    /** while_left_click: one turret placed on a free spot, for one turret. */
    method WhileLeftClick(mouse: Vec2, existing: seq<Vec2>) returns (placed: bool)
      modifies this`turrets
      ensures placed <==> old(turrets) >= 1.0 && !Blocked(mouse, existing)
      ensures placed ==> turrets == RoundDecimals(old(turrets) - 1.0, Scale8) && turrets >= 0.0
      ensures !placed ==> turrets == old(turrets)
    {
      placed := false;
      if turrets >= 1.0 && !Blocked(mouse, existing) {
        placed := true;
        RoundDecimalsNonNegative(turrets - 1.0, Scale8);
        SetTurrets(turrets - 1.0);
      }
    }

    /** on_kill_enemy: one more kill and 0.2 more turrets. */
    method OnKillEnemy()
      modifies this`enemiesKilled, this`turrets
      ensures enemiesKilled == old(enemiesKilled) + 1
      ensures turrets == RoundDecimals(old(turrets) + 0.2, Scale8)
    {
      enemiesKilled := enemiesKilled + 1;
      SetTurrets(turrets + 0.2);
    }

    method Die()
      modifies this`isDead
      ensures isDead
    {
      isDead := true;
    }
  }

  /** The purpose of the rounding: on the 8-decimal grid, adding 0.2 is
      exact, so five kills make exactly one turret. */
  lemma FifthKeepsGrid(t: real)
    requires OnGrid(t, Scale8)
    ensures RoundDecimals(t + 0.2, Scale8) == t + 0.2
    ensures OnGrid(t + 0.2, Scale8)
  {
    var k := (t * Scale8).Floor;
    assert (t + 0.2) * Scale8 == (k + 20000000) as real;
    RoundDecimalsOnGrid(t + 0.2, k + 20000000, Scale8);
  }

  /** Five kills earn exactly one turret: a placement on a free spot is then
      allowed and leaves exactly none. */
  method FiveKillsBuyATurret(mouse: Vec2) returns (p: Player, placed: bool)
    ensures p.enemiesKilled == 5 && placed && p.turrets == 0.0
  {
    p := new Player();
    var i := 0;
    while i < 5
      invariant 0 <= i <= 5
      invariant p.enemiesKilled == i && p.turrets == 0.2 * i as real
    {
      assert (p.turrets * Scale8).Floor == 20000000 * i;
      FifthKeepsGrid(p.turrets);
      p.OnKillEnemy();
      i := i + 1;
    }
    placed := p.WhileLeftClick(mouse, []);
    assert (0.0 * Scale8).Floor == 0;
    RoundDecimalsOnGrid(0.0, 0, Scale8);
  }

  // ---------------------------------------------------------------------
  // The game
  // ---------------------------------------------------------------------

  class Game {
    var currTick: int
    const spawner: IntervalSpawnMgr
    const player: Player
    /** The immobile enemy placed at start for the tutorial. */
    const initialEnemy: EnemyWithHealth
    /** Tutorial.place_turret, decorated with trigger_once. */
    const placeTurret: Decorated<(), ()>
    /** TurretRangeIndicator.need_redraw */
    const overlays: RedrawQueue
    /** The positions of the turrets placed so far (game.turrets). */
    var turretPositions: seq<Vec2>

    ghost predicate Valid()
      reads this, spawner
    {
      spawner.Valid()
    }

    /** Game.init, as far as the model goes: tick 0, a disabled interval
        spawner, a player with no turrets and one immobile enemy of health 1. */
    constructor (oracle: Oracle)
      requires DrawsInUnit(oracle)
      ensures Valid()
      ensures currTick == 0 && turretPositions == []
      ensures !spawner.isEnabled && spawner.nextEnemyTime == None && spawner.interval == SpawnIntervalStart
      ensures spawner.spawned == [] && spawner.oracle == oracle
      ensures initialEnemy.immobile && initialEnemy.health == 1.0
      ensures player.turrets == 0.0 && !player.isDead && player.enemiesKilled == 0
      ensures !placeTurret.toObj.triggered
      ensures fresh(spawner) && fresh(player) && fresh(initialEnemy) && fresh(placeTurret.toObj) && fresh(overlays)
    {
      currTick := 0;
      spawner := new IntervalSpawnMgr(oracle);
      player := new Player();
      initialEnemy := new EnemyWithHealth(Vec2(50.0, 655.0), 1.0, EnemySpeed, true);
      placeTurret := new Decorated(_ => ());
      overlays := new RedrawQueue();
      turretPositions := [];
    }

    /** do_tick: nothing once the player is dead; otherwise the spawner's
        handle_enemy_spawns (the sprite updates are not part of this model). */
    method DoTick()
      requires Valid()
      modifies spawner`nextEnemyTime, spawner`cursor, spawner`spawned
      ensures Valid()
      ensures player.isDead || !spawner.isEnabled ==>
        spawner.nextEnemyTime == old(spawner.nextEnemyTime) && spawner.cursor == old(spawner.cursor)
        && spawner.spawned == old(spawner.spawned)
      ensures !player.isDead && spawner.isEnabled ==>
        var start := if old(spawner.nextEnemyTime).None? then (currTick + SpawnEnemyDelayStart) as real
                     else old(spawner.nextEnemyTime).value;
        var b := SpawnBurst(spawner.oracle, start, spawner.interval, currTick, MaxEnemiesPerTick, old(spawner.cursor));
        && spawner.nextEnemyTime == Some(CatchUp(b.due, currTick))
        && spawner.spawned == old(spawner.spawned) + b.requests && spawner.cursor == b.next
    {
      if player.isDead {
        return;
      }
      spawner.HandleEnemySpawns(currTick);
    }

    /** wait_for_next_frame: the frame-rate wait is not modelled; the tick
        advances by one. */
    method WaitForNextFrame()
      modifies this`currTick
      ensures currTick == old(currTick) + 1
    {
      currTick := currTick + 1;
    }

    /** One frame: do_tick, then wait_for_next_frame. */
    method Frame()
      requires Valid()
      modifies this`currTick, spawner`nextEnemyTime, spawner`cursor, spawner`spawned
      ensures Valid()
      ensures currTick == old(currTick) + 1
      ensures player.isDead || !spawner.isEnabled ==>
        spawner.nextEnemyTime == old(spawner.nextEnemyTime) && spawner.cursor == old(spawner.cursor)
        && spawner.spawned == old(spawner.spawned)
      ensures !player.isDead && spawner.isEnabled ==>
        var start := if old(spawner.nextEnemyTime).None? then (old(currTick) + SpawnEnemyDelayStart) as real
                     else old(spawner.nextEnemyTime).value;
        var b := SpawnBurst(spawner.oracle, start, spawner.interval, old(currTick), MaxEnemiesPerTick, old(spawner.cursor));
        && spawner.nextEnemyTime == Some(CatchUp(b.due, old(currTick)))
        && spawner.spawned == old(spawner.spawned) + b.requests && spawner.cursor == b.next
    {
      DoTick();
      WaitForNextFrame();
    }

    /** on_kill_enemy: one interval decrease, then the player's kill. */
    method OnKillEnemy()
      requires Valid()
      modifies spawner`interval, player`enemiesKilled, player`turrets
      ensures Valid()
      ensures spawner.interval == NextInterval(old(spawner.interval))
      ensures player.enemiesKilled == old(player.enemiesKilled) + 1
      ensures player.turrets == RoundDecimals(old(player.turrets) + 0.2, Scale8)
    {
      spawner.IncrementIntervalOnce();
      player.OnKillEnemy();
    }

    /** Tutorial.place_turret through its trigger_once wrapper: enables the
        spawner and frees the initial enemy, on every call. */
    method PlaceTurret()
      modifies placeTurret.toObj`triggered, placeTurret.toObj`calls, placeTurret.toObj`results
      modifies spawner`isEnabled, initialEnemy`immobile
      ensures spawner.isEnabled && !initialEnemy.immobile
      ensures placeTurret.toObj.triggered
      ensures |placeTurret.toObj.calls| == |old(placeTurret.toObj.calls)| + 1
    {
      var r := placeTurret.Call(());
      spawner.isEnabled := true;
      initialEnemy.immobile := false;
    }

    /** A left click held by the player: while_left_click, and when a
        turret is placed, the Turret constructor's effects (its range
        indicator asks for a redraw, and the tutorial hook runs). */
    method LeftClick(mouse: Vec2) returns (placed: bool)
      requires Valid()
      modifies this`turretPositions, player`turrets, overlays
      modifies placeTurret.toObj`triggered, placeTurret.toObj`calls, placeTurret.toObj`results
      modifies spawner`isEnabled, initialEnemy`immobile
      ensures Valid()
      ensures placed <==> old(player.turrets) >= 1.0 && !Blocked(mouse, old(turretPositions))
      ensures placed ==> (turretPositions == old(turretPositions) + [mouse]
        && spawner.isEnabled && !initialEnemy.immobile && player.turrets >= 0.0)
      ensures !placed ==> (turretPositions == old(turretPositions) && player.turrets == old(player.turrets)
        && spawner.isEnabled == old(spawner.isEnabled) && initialEnemy.immobile == old(initialEnemy.immobile))
      ensures placed && old(overlays.need).Pending? ==>
        overlays.need == Pending(old(overlays.need).ids + [|old(turretPositions)|])
      ensures !(placed && old(overlays.need).Pending?) ==> overlays.need == old(overlays.need)
    {
      placed := player.WhileLeftClick(mouse, turretPositions);
      if placed {
        turretPositions := turretPositions + [mouse];
        overlays.RequestRedrawIntended([Indicator(|turretPositions| - 1)]);
        PlaceTurret();
      }
    }
  }

  /** Once the player is dead, frames still count ticks one by one but no
      enemy is spawned and the schedule stands still. */
  method FramesAfterDeath(g: Game, frames: nat)
    requires g.Valid() && g.player.isDead
    modifies g, g.spawner
    ensures g.Valid() && g.currTick == old(g.currTick) + frames
    ensures g.spawner.spawned == old(g.spawner.spawned)
    ensures g.spawner.nextEnemyTime == old(g.spawner.nextEnemyTime)
  {
    var i := 0;
    while i < frames
      invariant 0 <= i <= frames
      invariant g.Valid() && g.player.isDead
      invariant g.currTick == old(g.currTick) + i
      invariant g.spawner.spawned == old(g.spawner.spawned)
      invariant g.spawner.nextEnemyTime == old(g.spawner.nextEnemyTime)
    {
      g.Frame();
      i := i + 1;
    }
  }

  /** The start of a game: nothing spawns before the first turret is
      placed. In this model kills are the only source of turrets, so five
      kills pay for it here; in the game the first turret comes from the
      TurretItem pickup, which is not modelled. Placing it
      enables the spawner, and the next frame, at tick 1, schedules the
      first enemy 75 ticks later and spawns nothing yet. */
  method FirstTurretStartsSpawning(oracle: Oracle, mouse: Vec2) returns (g: Game)
    requires DrawsInUnit(oracle)
    ensures g.spawner.isEnabled && !g.initialEnemy.immobile && g.currTick == 2
    ensures g.spawner.nextEnemyTime == Some(76.0) && g.spawner.spawned == []
    ensures g.player.enemiesKilled == 5 && g.turretPositions == [mouse]
  {
    g := new Game(oracle);
    g.Frame();
    var k := 0;
    while k < 5
      invariant 0 <= k <= 5
      invariant g.Valid() && !g.spawner.isEnabled && g.spawner.nextEnemyTime == None
      invariant g.spawner.spawned == [] && g.turretPositions == [] && !g.player.isDead
      invariant g.player.enemiesKilled == k && g.player.turrets == 0.2 * k as real
      invariant g.currTick == 1
    {
      assert (g.player.turrets * Scale8).Floor == 20000000 * k;
      FifthKeepsGrid(g.player.turrets);
      g.OnKillEnemy();
      k := k + 1;
    }
    var placed := g.LeftClick(mouse);
    assert placed;
    SpawnBurstShape(oracle, 76.0, g.spawner.interval, 1, MaxEnemiesPerTick, g.spawner.cursor);
    g.Frame();
  }
}
