/** The interval-based spawner: EnemySpawnMgr in main.py, of which
    _enemy_spawn_mgr_old.py holds the same code as _EnemySpawnMgrOld. Enemies
    of health 1 are due every `interval` ticks; each kill shrinks the
    interval by a factor that depends on how small it already is. */
module IntervalSpawn {
  import opened Numeric
  import opened Util
  import opened Enemy

  const SpawnIntervalStart: real := 65.0
  const SpawnEnemyDelayStart: int := 75
  const MaxEnemiesPerTick: nat := 18
  const MinSpawnInterval: real := 0.01

  // ---------------------------------------------------------------------
  // The interval
  // ---------------------------------------------------------------------

  /** get_interval_decrease: the first threshold the interval exceeds
      chooses the factor. */
  function IntervalDecrease(interval: real): real
  {
    if interval > 4.0 then 0.980
    else if interval > 2.0 then 0.990
    else if interval > 0.9 then 0.994
    else if interval > 0.5 then 0.997
    else if interval > 0.25 then 0.9993
    else if interval > 0.12 then 0.9998
    else if interval > 0.06 then 0.99993
    else 0.99998
  }

  /** Every factor shrinks the interval, by at most 2%. */
  lemma IntervalDecreaseRange(interval: real)
    ensures 0.980 <= IntervalDecrease(interval) <= 0.99998
  {
  }

  /** The smaller the interval, the gentler the decrease. */
  lemma IntervalDecreaseMonotone(smaller: real, larger: real)
    requires smaller <= larger
    ensures IntervalDecrease(smaller) >= IntervalDecrease(larger)
  {
  }

  /** The interval after increment_interval_once: scaled by the factor,
      then raised back to MIN_SPAWN_INTERVAL if it fell below it. */
  function NextInterval(interval: real): real
  {
    var scaled := interval * IntervalDecrease(interval);
    if scaled < MinSpawnInterval then MinSpawnInterval else scaled
  }

  /** The interval never falls below the minimum, never grows from a
      positive value, and strictly shrinks until it reaches the minimum,
      where it stays. */
  lemma NextIntervalBounds(interval: real)
    ensures NextInterval(interval) >= MinSpawnInterval
    ensures interval >= MinSpawnInterval ==> NextInterval(interval) <= interval
    ensures interval > MinSpawnInterval ==> NextInterval(interval) < interval
    ensures interval == MinSpawnInterval ==> NextInterval(interval) == MinSpawnInterval
  {
    var f := IntervalDecrease(interval);
    IntervalDecreaseRange(interval);
    if interval > 0.0 {
      assert interval * f <= interval * 0.99998;
      assert interval * f < interval;
    }
  }

  /** The interval after `kills` kills, starting from `interval`. */
  function IntervalAfter(interval: real, kills: nat): real
    decreases kills
  {
    if kills == 0 then interval else IntervalAfter(NextInterval(interval), kills - 1)
  }

  /** However many kills happen, the interval stays between the minimum and
      where it started, and more kills never lengthen it. */
  lemma {:induction false} IntervalAfterBounds(interval: real, kills: nat, more: nat)
    requires interval >= MinSpawnInterval
    ensures MinSpawnInterval <= IntervalAfter(interval, kills) <= interval
    ensures IntervalAfter(interval, kills + more) <= IntervalAfter(interval, kills)
    decreases kills
  {
    NextIntervalBounds(interval);
    if kills == 0 {
      IntervalAfterShrinks(interval, more);
    } else {
      IntervalAfterBounds(NextInterval(interval), kills - 1, more);
    }
  }

  /** From any interval at or above the minimum, kills only shorten it. */
  lemma {:induction false} IntervalAfterShrinks(interval: real, kills: nat)
    requires interval >= MinSpawnInterval
    ensures MinSpawnInterval <= IntervalAfter(interval, kills) <= interval
    decreases kills
  {
    if kills > 0 {
      NextIntervalBounds(interval);
      IntervalAfterShrinks(NextInterval(interval), kills - 1);
    }
  }

  // ---------------------------------------------------------------------
  // One call of spawn_enemies, as a function
  // ---------------------------------------------------------------------

  /** What the while loop of spawn_enemies leaves: the next due time before
      the final catch-up, the enemies created, and the next draw position. */
  datatype Burst = Burst(due: real, requests: seq<SpawnRequest>, next: nat)

  /** The while loop of spawn_enemies: spawn while the due time has come and
      fewer than `budget` enemies were spawned in this call. */
  function SpawnBurst(o: Oracle, due: real, interval: real, tick: int, budget: nat, at: nat): (b: Burst)
    requires DrawsInUnit(o)
    decreases budget
  {
    if budget > 0 && due <= tick as real then
      var e := RingSpawn(o, 1.0, at);
      var rest := SpawnBurst(o, due + interval, interval, tick, budget - 1, e.next);
      Burst(rest.due, [e.value] + rest.requests, rest.next)
    else
      Burst(due, [], at)
  }

  /** One step of the loop: the first enemy, then the rest from the next
      due time with one less in the budget. */
  lemma SpawnBurstStep(o: Oracle, due: real, interval: real, tick: int, budget: nat, at: nat)
    requires DrawsInUnit(o) && budget > 0 && due <= tick as real
    ensures var e := RingSpawn(o, 1.0, at);
      var b := SpawnBurst(o, due, interval, tick, budget, at);
      var rest := SpawnBurst(o, due + interval, interval, tick, budget - 1, e.next);
      b.requests == [e.value] + rest.requests && b.due == rest.due && b.next == rest.next
  {
  }

  /** The loop creates at most `budget` enemies, each of health 1 placed
      250 to 500 away; it advances the due time by one interval per enemy
      and stops only when the budget is used up or the due time lies after
      the current tick. */
  lemma {:induction false} SpawnBurstShape(o: Oracle, due: real, interval: real, tick: int, budget: nat, at: nat)
    requires DrawsInUnit(o)
    ensures var b := SpawnBurst(o, due, interval, tick, budget, at);
      && |b.requests| <= budget
      && b.due == due + |b.requests| as real * interval
      && (|b.requests| == budget || b.due > tick as real)
      && (due > tick as real ==> b.requests == [])
      && (forall i :: 0 <= i < |b.requests| ==>
            b.requests[i].health == 1.0 && 250.0 <= b.requests[i].distance <= 500.0)
      && b.next == at + 2 * |b.requests|
    decreases budget
  {
    if budget > 0 && due <= tick as real {
      var e := RingSpawn(o, 1.0, at);
      var rest := SpawnBurst(o, due + interval, interval, tick, budget - 1, e.next);
      SpawnBurstShape(o, due + interval, interval, tick, budget - 1, e.next);
      var n := |rest.requests| as real;
      assert (n + 1.0) * interval == n * interval + interval;
    }
  }

  /** When the schedule is far behind (the next due time plus 17 intervals
      is still not after the current tick), exactly 18 enemies are created. */
  lemma SpawnBurstFull(o: Oracle, due: real, interval: real, tick: int, at: nat)
    requires DrawsInUnit(o) && interval >= 0.0
    requires due + 17.0 * interval <= tick as real
    ensures |SpawnBurst(o, due, interval, tick, MaxEnemiesPerTick, at).requests| == MaxEnemiesPerTick
  {
    SpawnBurstShape(o, due, interval, tick, MaxEnemiesPerTick, at);
    var b := SpawnBurst(o, due, interval, tick, MaxEnemiesPerTick, at);
    BudgetUsedUp(|b.requests|, due, interval, tick as real, b.due);
  }

  /** The arithmetic of SpawnBurstFull: a loop that stopped with its due
      time after the tick cannot have made fewer than 18 steps. */
  lemma BudgetUsedUp(n: nat, due: real, interval: real, tick: real, endDue: real)
    requires interval >= 0.0 && due + 17.0 * interval <= tick
    requires n <= 18 && endDue == due + n as real * interval
    requires n == 18 || endDue > tick
    ensures n == 18
  {
    FewerIntervalsEndSooner(n as real, interval);
  }

  /** Fewer than 18 intervals span at most 17 of them. */
  lemma FewerIntervalsEndSooner(n: real, interval: real)
    requires n >= 0.0 && interval >= 0.0
    ensures n <= 17.0 ==> n * interval <= 17.0 * interval
  {
    if n <= 17.0 {
      MulNonNegative(17.0 - n, interval);
    }
  }

  /** The catch-up at the end of spawn_enemies: a due time in the past is
      moved to the current tick. */
  function CatchUp(due: real, tick: int): (r: real)
    ensures r >= tick as real
    ensures r == due || r == tick as real
    ensures due >= tick as real ==> r == due
  {
    if due < tick as real then tick as real else due
  }

  // ---------------------------------------------------------------------
  // The spawner
  // ---------------------------------------------------------------------

  class IntervalSpawnMgr {
    var isEnabled: bool
    var nextEnemyTime: Option<real>
    var interval: real
    /** Position of the next unused random draw. */
    var cursor: nat
    /** The enemies handed to the game for creation, in order. */
    var spawned: seq<SpawnRequest>
    const oracle: Oracle

    /** The interval never drops below the minimum. */
    ghost predicate Valid()
      reads this
    {
      DrawsInUnit(oracle) && interval >= MinSpawnInterval
    }

    constructor (oracle: Oracle)
      requires DrawsInUnit(oracle)
      ensures Valid() && this.oracle == oracle
      ensures !isEnabled && nextEnemyTime == None && interval == SpawnIntervalStart
      ensures cursor == 0 && spawned == []
    {
      this.oracle := oracle;
      isEnabled := false;
      nextEnemyTime := None;
      interval := SpawnIntervalStart;
      cursor := 0;
      spawned := [];
    }

    /** handle_enemy_spawns: nothing while disabled; the first enabled call
        schedules the first enemy 75 ticks ahead; then spawn_enemies. */
    method HandleEnemySpawns(tick: int)
      requires Valid()
      modifies this`nextEnemyTime, this`cursor, this`spawned
      ensures Valid()
      ensures !isEnabled ==> nextEnemyTime == old(nextEnemyTime) && cursor == old(cursor) && spawned == old(spawned)
      ensures isEnabled ==>
        var start := if old(nextEnemyTime).None? then (tick + SpawnEnemyDelayStart) as real
                     else old(nextEnemyTime).value;
        var b := SpawnBurst(oracle, start, interval, tick, MaxEnemiesPerTick, old(cursor));
        && nextEnemyTime == Some(CatchUp(b.due, tick))
        && spawned == old(spawned) + b.requests && cursor == b.next
    {
      if !isEnabled {
        return;
      }
      if nextEnemyTime.None? {
        nextEnemyTime := Some((tick + SpawnEnemyDelayStart) as real);
      }
      SpawnEnemies(tick);
    }

    /** spawn_enemies: the loop, then the catch-up of a due time left in
        the past. */
    method SpawnEnemies(tick: int)
      requires Valid() && nextEnemyTime.Some?
      modifies this`nextEnemyTime, this`cursor, this`spawned
      ensures Valid()
      ensures var b := SpawnBurst(oracle, old(nextEnemyTime).value, interval, tick, MaxEnemiesPerTick, old(cursor));
        && nextEnemyTime == Some(CatchUp(b.due, tick))
        && spawned == old(spawned) + b.requests && cursor == b.next
    {
      ghost var b := SpawnBurst(oracle, nextEnemyTime.value, interval, tick, MaxEnemiesPerTick, cursor);
      var due := SpawnLoop(tick, nextEnemyTime.value);
      assert due == b.due;
      if due < tick as real {
        due := tick as real;
      }
      nextEnemyTime := Some(due);
    }

    /** The while loop of spawn_enemies, starting from the due time `due0`. */
    method SpawnLoop(tick: int, due0: real) returns (due: real)
      requires DrawsInUnit(oracle)
      modifies this`cursor, this`spawned
      ensures var b := SpawnBurst(oracle, due0, interval, tick, MaxEnemiesPerTick, old(cursor));
        && due == b.due && spawned == old(spawned) + b.requests && cursor == b.next
    {
      ghost var goal := SpawnBurst(oracle, due0, interval, tick, MaxEnemiesPerTick, cursor);
      ghost var rest := goal;
      due := due0;
      var enemiesThisTick: nat := 0;
      while due <= tick as real && enemiesThisTick < MaxEnemiesPerTick
        invariant enemiesThisTick <= MaxEnemiesPerTick
        invariant rest == SpawnBurst(oracle, due, interval, tick, MaxEnemiesPerTick - enemiesThisTick, cursor)
        invariant rest.due == goal.due && rest.next == goal.next
        invariant spawned + rest.requests == old(spawned) + goal.requests
        decreases MaxEnemiesPerTick - enemiesThisTick
      {
        var e := RingSpawn(oracle, 1.0, cursor);
        ghost var tail := SpawnBurst(oracle, due + interval, interval, tick, MaxEnemiesPerTick - enemiesThisTick - 1, e.next);
        SpawnBurstStep(oracle, due, interval, tick, MaxEnemiesPerTick - enemiesThisTick, cursor);
        assert (spawned + [e.value]) + tail.requests == spawned + rest.requests;
        spawned := spawned + [e.value];
        cursor := e.next;
        due := due + interval;
        enemiesThisTick := enemiesThisTick + 1;
        rest := tail;
      }
      assert rest.requests == [] && spawned + [] == spawned;
    }

    /** increment_interval_once */
    method IncrementIntervalOnce()
      requires Valid()
      modifies this`interval
      ensures Valid()
      ensures interval == NextInterval(old(interval))
      ensures interval <= old(interval)
    {
      interval := interval * IntervalDecrease(interval);
      if interval < MinSpawnInterval {
        interval := MinSpawnInterval;
      }
      NextIntervalBounds(old(interval));
    }
  }

  /** One call of spawn_enemies never creates more than 18 enemies, and
      afterwards the next due time is not before the current tick. */
  lemma SpawnEnemiesBounded(o: Oracle, due: real, interval: real, tick: int, at: nat)
    requires DrawsInUnit(o)
    ensures var b := SpawnBurst(o, due, interval, tick, MaxEnemiesPerTick, at);
      |b.requests| <= MaxEnemiesPerTick && CatchUp(b.due, tick) >= tick as real
  {
    SpawnBurstShape(o, due, interval, tick, MaxEnemiesPerTick, at);
  }
}
