# game_with_pygame: the tick-driven game logic in Dafny

This project models the bookkeeping core of a small pygame arcade game. The
player defends against enemies that spawn around them, places turrets that fire
at the nearest enemy, and earns turrets by killing enemies. Everything on screen
is left out. What remains is the state that changes tick by tick:

- **The budget spawner** (`enemy_spawn_mgr.py`, module `EnemySpawn`).
  - A one-way enable gate with a tick delay.
  - A `points` budget that grows by `strength` on every enabled tick.
  - A `strength` scalar that drifts up every tick and rises with every kill.
  - A pending encounter: a single enemy, or a cluster of them.
  - The drain loop (`spawn_all`), which realizes encounters while the budget
    covers them.
- **The interval spawner** that `main.py` still wires (module `IntervalSpawn`).
  `_enemy_spawn_mgr_old.py` holds the same code under another class name. Enemies of health 1 fall
  due every `interval` ticks, at most 18 per call, and each kill shrinks the
  interval.
- **Enemies** (`enemy.py`, module `Enemy`): health, hits, death, and whether a
  death is reported to the game as a kill.
- **The players**:
  - `player.py` (module `Player`): score, kills, and the turret count kept on
    8 decimals.
  - `main.py`'s own `Player` (in module `MainGame`), where a kill earns 0.2
    turrets.
- **Turrets** (`turret.py`, module `Turret`): the fire cooldown, the inclusive
  range, and the shared queue of range overlays waiting to be redrawn.
- **The game loop of `main.py`** (module `MainGame`): `EveryNTicks`, the tick
  counter, `do_tick`, kills, turret placement and the tutorial hook that starts
  the spawner.
- **Helpers**:
  - `pg_util.py` (`PgUtil`): `nearest_of_group`, `justify_rect`, and the
    layout arithmetic of `render_text`.
  - `sprite_bases.py` (`SpriteBases`): group flags, missing size or position,
    and `set_pos`.
  - `uses_game.py` (`UsesGameMixin`): resolving the game reference.
  - `trigger_once.py` (`TriggerOnceDecorator`).
  - `util.py` (`Util`): `option`.

Modelling choices:

- Python floats are Dafny `real`s. `round`, `math.floor`, `math.ceil` and
  `int` are defined exactly (module `Numeric`):
  - `round(x)` uses banker's rounding;
  - `round(x, n)` is `round(x * 10^n) / 10^n`.
- Randomness is an `Oracle`, a parameter:
  - `draw(i)` is the i-th value of `random.random()`, always in [0, 1);
  - `uniform(a, b)` is `a + (b - a) * u`, as CPython computes it;
  - `sqrt` is an uninterpreted function of the oracle.
- Every function that draws takes the position of its first draw and returns
  the position after its last one (`Drawn`). Every spawner keeps that position
  as a `cursor` field.
- Creating an enemy is modelled as a `SpawnRequest` (distance, angle, health)
  appended to the spawner's `spawned` list.
- Encounters are never changed after they are randomized, so they are values
  (`Strategy`).
- Objects whose fields the source assigns are classes with `modifies` clauses.
  Their loops are methods proved equal to a specification function:
  - `SpawnAll` against `DrainSpec`;
  - `SpawnLoop` against `SpawnBurst`;
  - `RandomizeCluster` and `PlaceMembers` against `RandomCluster` and
    `ClusterMembers`;
  - `NearestOfGroup` against `Nearest`;
  - `RenderLayout` against `TotalHeight` and `JustifyRect`.

Behaviour of the code worth noting:

- `EnemySpawnMgr.on_kill_enemy` does nothing while the spawner is disabled
  (enemy_spawn_mgr.py:158-160).
- On an enabled tick, the budget grows by the strength *before* the per-tick
  drift is added (enemy_spawn_mgr.py:154-155).
- `main.py` wires the interval spawner, not the budget spawner
  (main.py:281-283). Both are modelled.

## Model

| member | source | states |
|---|---|---|
| Util.OptionOr | util.py:9-12 | option(v, d) is None exactly when both are None, and is always v or d |
| Util.OptionKeepsPresent | util.py:10-12 | any value that is not None is returned unchanged, whatever the default |
| Util.OptionTakesDefault | util.py:10-11 | None is replaced by the default |
| Util.OptionKeepsFalsy | util.py:10-12 | falsy values (0, '', False) are kept, not replaced by the default |
| Util.OptionIdempotent | util.py:9-12 | applying option twice with the same default gives the same as once |
| Util.ClampReal | enemy_spawn_mgr.py:144 | clamp with None for "no bound" respects each bound it is given and leaves a value inside the bounds unchanged |
| Util.ClampInt | enemy_spawn_mgr.py:91 | the same on ints: clamp(amount, 2, None) is at least 2, and equals amount when amount >= 2 |
| Util.UniformFromMean | enemy_spawn_mgr.py:110-111 | a draw of uniform_from_mean(m, v) lies in [m - v, m + v] |
| Numeric.Floor | enemy_spawn_mgr.py:93 | math.floor(x) is the integer with floor(x) <= x < floor(x) + 1 |
| Numeric.Ceil | enemy_spawn_mgr.py:94 | math.ceil(x) is the integer with x <= ceil(x) < x + 1 |
| Numeric.Round | enemy_spawn_mgr.py:63 | round(x) lies within one half of x |
| Numeric.RoundPositive | enemy_spawn_mgr.py:63 | a health drawn above one half rounds to at least 1 |
| Numeric.RoundDecimalsNonNegative | player.py:73 | round(t - 1, 8) of a non-negative t - 1 is non-negative |
| Numeric.RoundDecimalsOnGrid | player.py:39 | round(value, 8) leaves a value already on the 10^-8 grid unchanged |
| Numeric.RoundDecimalsClose | player.py:39 | round(value, 8) moves value by at most half of 10^-8 |
| Numeric.Trunc | player.py:78 | int(x) truncates toward zero: for x >= 0 the result is the non-negative whole number within 1 below x; for x < 0 the non-positive whole number within 1 above x |
| Numeric.UniformBetween | enemy_spawn_mgr.py:60 | uniform(a, b) lies between a and b whichever is larger, so uniform(1, b) with b < 1 lies in [b, 1] |
| Geometry.DistSq | turret.py:49 | distance_squared_to is never negative |
| Geometry.Rect.WithCenter | sprite_bases.py:142-143 | assigning rect.center puts the centre there and keeps the size |
| Geometry.Rect.WithCenterX | pg_util.py:23-24 | assigning rect.centerx moves the rect horizontally only |
| Geometry.Rect.WithRight | pg_util.py:25-26 | assigning rect.right puts the right edge there and changes nothing else |
| Geometry.RectAround | pg_util.py:11-15 | rect_from_size(size, center=pos) has that size and that centre |
| Enemy.DiesOnHit | enemy.py:51-57 | an enemy of whole health h is alive after k hits (round(health, 9) > 0) exactly when k < h |
| Enemy.RingSpawn | enemy_spawn_mgr.py:66-72 | a single enemy is placed at an angle in [0, 360] and a distance in [250, 500], keeps its health and uses two draws |
| Enemy.CommonEnemy.OnHitByBullet | enemy.py:25-27 | the enemy dies; it is removed first and the kill is reported after |
| Enemy.EnemyWithHealth.constructor | enemy.py:41-46 | health and max_hp both start as the given health; immobile and speed are stored |
| Enemy.EnemyWithHealth.Kill | enemy.py:61 | Sprite.kill removes the enemy and reports nothing |
| Enemy.EnemyWithHealth.KillByPlayer | enemy.py:63-65 | the kill is reported to the game before the enemy is removed |
| Enemy.EnemyWithHealth.CheckDead | enemy.py:55-61 | nothing happens while round(health, 9) > 0; otherwise the enemy dies, and the kill is reported exactly when the damage came from a bullet |
| Enemy.EnemyWithHealth.OnHitByBullet | enemy.py:51-53 | a hit removes exactly 1 health, then applies the death check as bullet damage |
| Enemy.EnemyWithHealth.HandleMovement | enemy.py:73-76 | an immobile enemy stays put; any other moves by move_towards(player, speed) |
| Enemy.HitsUntilDeath | enemy.py:44-65 | a fresh enemy of whole health h dies on exactly the h-th hit, with health 0 and exactly one kill reported before its removal |
| EnemySpawn.KillBoostPositive | enemy_spawn_mgr.py:161 | a kill of an enemy with max_hp >= 0 raises strength by at least 0.0006 |
| EnemySpawn.ClusterChance | enemy_spawn_mgr.py:144 | the cluster chance is at most 0.35 and at most strength * 0.5 |
| EnemySpawn.RandomSingle | enemy_spawn_mgr.py:57-64 | make_random of a single gives a single and uses exactly one draw |
| EnemySpawn.RandomSingleCostsAtLeastOne | enemy_spawn_mgr.py:59-63 | when 2 * mean health >= 1/2, a single costs at least 1 |
| EnemySpawn.LowStrength | enemy_spawn_mgr.py:143-149 | up to strength 0.2 only singles are decided, so every encounter from any draw on costs at least 1 once 2 * mean health >= 1/2 |
| EnemySpawn.ClusterAmount | enemy_spawn_mgr.py:89-91 | a cluster has at least two members |
| EnemySpawn.MemberHealthRange | enemy_spawn_mgr.py:92-94 | health_max is at least health_min + 2 |
| EnemySpawn.RandomCluster | enemy_spawn_mgr.py:87-98 | make_random of a cluster gives a cluster and uses one draw for the size plus one per member |
| EnemySpawn.RandomClusterShape | enemy_spawn_mgr.py:91-97 | a cluster has at least 2 members, each health in [floor(m) - 1, ceil(m) + 1], and costs the sum of its healths |
| EnemySpawn.DecideNext | enemy_spawn_mgr.py:143-148 | deciding the next encounter always uses at least one draw |
| EnemySpawn.DecideNextChoice | enemy_spawn_mgr.py:143-148 | a cluster is chosen exactly when strength > 0.2 and the draw is below min(strength * 0.5, 0.35) |
| EnemySpawn.DrawClusterOrigin | enemy_spawn_mgr.py:101-107 | mean distance in [250, 500], distance variation in [70, 170], angular variation non-negative, four draws |
| EnemySpawn.ClusterMember | enemy_spawn_mgr.py:110-117 | a member keeps its health and lands between 250 and mean distance + variation, redrawn when too close |
| EnemySpawn.ClusterMembersShape | enemy_spawn_mgr.py:108-118 | one enemy per listed health, in order, each with its health and between 250 and mean + variation away |
| EnemySpawn.SpawnRequests | enemy_spawn_mgr.py:174 | realizing an encounter always consumes draws |
| EnemySpawn.SpawnRequestsShape | enemy_spawn_mgr.py:66-118 | a single creates one enemy of its health at most 500 away; a cluster creates one per health; every enemy is 250 to 670 away |
| EnemySpawn.DrainSpec | enemy_spawn_mgr.py:167-177 | spawn_all as a function: the budget is spent on encounters in order; the next encounter always costs at least 1 |
| EnemySpawn.DrainStep | enemy_spawn_mgr.py:168-169 | one loop round: the pending encounter's enemies come first, then those of the rest of the drain |
| EnemySpawn.DrainExit | enemy_spawn_mgr.py:167-177 | on exit the budget no longer covers the pending encounter, equals the start budget minus the costs realized, and is not below min(start, 0) |
| EnemySpawn.DrainPaysAsItGoes | enemy_spawn_mgr.py:171-176 | the assertion points >= cost holds at every realization of the drain |
| EnemySpawn.PaysShift | enemy_spawn_mgr.py:173-176 | paying for one affordable encounter and then for an affordable rest is affordable as a whole |
| EnemySpawn.DrainStartsWithPending | enemy_spawn_mgr.py:167-169 | the drain realizes something exactly when the budget covers the pending encounter, and that encounter comes first |
| EnemySpawn.DrainRequestCount | enemy_spawn_mgr.py:167-177 | the enemies created are one per health of the encounters realized, all at least 250 away |
| EnemySpawn.CheckGate | enemy_spawn_mgr.py:139-141 | the check never changes enable_after |
| EnemySpawn.EnableGate | enemy_spawn_mgr.py:135-137 | enable(delay) sets enable_after to the current tick + delay |
| EnemySpawn.GateOneWay | enemy_spawn_mgr.py:139-141 | once enabled, no check or enable disables the spawner again |
| EnemySpawn.GateStaysAfterChecks | enemy_spawn_mgr.py:139-141 | checks tick by tick compose, and never change enable_after |
| EnemySpawn.GateOpensAfterDelay | enemy_spawn_mgr.py:135-141 | after enable(d) at tick T the spawner is enabled at tick T + n exactly when n >= d |
| EnemySpawn.GateExample | enemy_spawn_mgr.py:135-141 | enable(40) at tick 100 leaves it disabled through tick 139 and enabled at tick 140 |
| EnemySpawn.RandomizeCluster | enemy_spawn_mgr.py:87-98 | the list-filling randomize gives exactly make_random's cluster, with at least two members |
| EnemySpawn.SpawnCluster | enemy_spawn_mgr.py:100-118 | cluster spawn creates one enemy per health in list order, each keeping its health and at least 250 away |
| EnemySpawn.PlaceMembers | enemy_spawn_mgr.py:108-118 | the appending loop gives exactly the members of the specification, with the same draws |
| EnemySpawn.ClusterMembersStep | enemy_spawn_mgr.py:109-117 | one round of the member loop: the member at i, then the rest |
| EnemySpawn.EnemySpawnMgr.constructor | enemy_spawn_mgr.py:127-133 | the budget, strength and gate are set as given, nothing is spawned, and the first encounter is decided at once |
| EnemySpawn.DefaultSpawner | enemy_spawn_mgr.py:127 | the default spawner (strength 0.005, disabled, no points) can be built when sqrt(0.2) >= 1/4; its first encounter is a single costing at least 1 |
| EnemySpawn.EnemySpawnMgr.Enable | enemy_spawn_mgr.py:135-137 | enable(delay) sets enable_after and checks the gate at once |
| EnemySpawn.EnemySpawnMgr.CheckIfShouldEnable | enemy_spawn_mgr.py:139-141 | enables once the tick reaches enable_after; never disables |
| EnemySpawn.EnemySpawnMgr.DecideNextEnemy | enemy_spawn_mgr.py:143-148 | the pending encounter and the draws used are those of DecideNext |
| EnemySpawn.EnemySpawnMgr.OnTick | enemy_spawn_mgr.py:150-156 | disabled: nothing changes; enabled: the old strength is added to the budget, strength drifts by 0.0001/60, and the budget is drained, leaving points below the next cost |
| EnemySpawn.EnemySpawnMgr.OnKillEnemy | enemy_spawn_mgr.py:158-161 | strength rises by 0.0006 + 0.0004 * max_hp when enabled and is unchanged otherwise |
| EnemySpawn.EnemySpawnMgr.SpawnAll | enemy_spawn_mgr.py:167-169 | the loop ends with points below the next cost, in exactly the state DrainSpec gives, with its enemies appended |
| EnemySpawn.EnemySpawnMgr.SpawnFromObj | enemy_spawn_mgr.py:171-177 | the cost is subtracted exactly, the encounter's enemies are appended, and a fresh encounter is decided |
| IntervalSpawn.IntervalDecreaseRange | main.py:70-79 | every factor lies in [0.980, 0.99998] |
| IntervalSpawn.IntervalDecreaseMonotone | _enemy_spawn_mgr_old.py:48-57 | a smaller interval never gets a smaller factor |
| IntervalSpawn.NextIntervalBounds | main.py:81-84 | the interval never falls below 0.01 and never grows from there; it strictly shrinks above 0.01 |
| IntervalSpawn.IntervalAfterBounds | main.py:281-283 | after any number of kills the interval lies between 0.01 and its start, and more kills never lengthen it |
| IntervalSpawn.IntervalAfterShrinks | _enemy_spawn_mgr_old.py:59-62 | repeated decreases stay between 0.01 and the start |
| IntervalSpawn.SpawnBurstStep | main.py:58-62 | one round of the spawn loop: the first enemy, then the rest from the next due time |
| IntervalSpawn.SpawnBurstShape | _enemy_spawn_mgr_old.py:34-40 | at most `budget` (18 in use) enemies of health 1, 250 to 500 away; the due time advances one interval per enemy; the loop stops only with the budget used up or the due time after the tick |
| IntervalSpawn.SpawnBurstFull | main.py:56-62 | a schedule 17 intervals or more behind spawns exactly 18 |
| IntervalSpawn.CatchUp | main.py:67-68 | a due time in the past is moved to the current tick; a future one is kept |
| IntervalSpawn.IntervalSpawnMgr.constructor | main.py:43-47 | disabled, nothing scheduled, interval 65 |
| IntervalSpawn.IntervalSpawnMgr.HandleEnemySpawns | main.py:49-54 | disabled: nothing changes; the first enabled call schedules the first enemy at tick + 75; then spawn_enemies |
| IntervalSpawn.IntervalSpawnMgr.SpawnEnemies | main.py:56-68 | the loop's enemies are appended, then the due time is caught up to the tick |
| IntervalSpawn.IntervalSpawnMgr.SpawnLoop | _enemy_spawn_mgr_old.py:35-40 | the counting loop gives exactly SpawnBurst's enemies and due time |
| IntervalSpawn.IntervalSpawnMgr.IncrementIntervalOnce | _enemy_spawn_mgr_old.py:59-62 | the interval is scaled and clamped at 0.01, and never grows |
| IntervalSpawn.SpawnEnemiesBounded | main.py:56-68 | one call spawns at most 18 enemies and leaves next_enemy_time >= curr_tick |
| PgUtil.Nearest | pg_util.py:47-57 | the chosen sprite is a member of the group |
| PgUtil.NearestIsFirstMinimum | pg_util.py:47-57 | None exactly for an empty group; otherwise a sprite at minimal squared distance, the first such in iteration order |
| PgUtil.NearestOfGroup | pg_util.py:47-57 | the scanning loop returns exactly that sprite |
| PgUtil.Lower | pg_util.py:19 | lower() keeps the length and lower-cases each ASCII capital |
| PgUtil.JustifyRect | pg_util.py:18-27 | only the horizontal position changes; 'left' and unknown values keep the rect, any part of 'center' centres it, 'right' aligns the right edge |
| PgUtil.JustifyUpperCenter | pg_util.py:19-24 | 'CENTER' centres: the comparison ignores case |
| PgUtil.JustifyPrefixOfCenter | pg_util.py:23-24 | 'cent' centres, since it is part of 'center' |
| PgUtil.JustifyInnerPartOfCenter | pg_util.py:23-24 | 'ter' centres too |
| PgUtil.JustifyEmptyCenters | pg_util.py:23-24 | the empty string centres |
| PgUtil.JustifyRightExample | pg_util.py:25-26 | 'Right' aligns the right edge with the total width |
| PgUtil.JustifyUnknownExample | pg_util.py:18-27 | 'middle' leaves the rect as it was |
| PgUtil.NotInCenter | pg_util.py:23 | a string whose first two letters are no adjacent pair of 'center' is no part of it |
| PgUtil.JustifyCaseInsensitive | pg_util.py:19 | justification depends only on the lower-cased argument |
| PgUtil.MaxWidth | pg_util.py:35 | the total width is a line's width and no line is wider |
| PgUtil.RenderLayout | pg_util.py:30-43 | ValueError exactly for an empty text; otherwise the block is as high as the sum and as wide as the widest line, and line i sits at y = the heights before it, justified |
| PgUtil.LinesStack | pg_util.py:38-42 | each line starts where the previous one ends, and the last ends at the block's height |
| PgUtil.PrefixHeightBounded | pg_util.py:34-42 | with non-negative heights every line's y lies within the block |
| SpriteBases.GetVirtualRect | sprite_bases.py:88-94 | TypeError exactly when neither the argument nor the class gives a size; otherwise a rect of that size centred on pos |
| SpriteBases.Sprite.constructor | sprite_bases.py:26-27 | a new instance still reads every attribute from its class |
| SpriteBases.Sprite.SetGroupFlags | sprite_bases.py:35-40 | given flags override the class's, None keeps them, and a display flag still None follows in_root |
| SpriteBases.Sprite.GetExtraGroups | sprite_bases.py:42-48 | root is present iff in_root is true, display iff in_display is true, root first, none when both are false |
| SpriteBases.Sprite.InitSize | sprite_bases.py:78-80 | TypeError exactly when neither the argument nor the class gives a size |
| SpriteBases.Sprite.InitPos | sprite_bases.py:106-109 | TypeError exactly when neither the argument nor the class gives a position |
| SpriteBases.Sprite.SetPos | sprite_bases.py:153-160 | the position is always stored; the rect is recentred, size kept, only once there is one |
| SpriteBases.GroupFlagDefaults | test/test_sprite_bases.py:67-77 | with no flags a plain sprite joins root then display; with in_root False it joins neither |
| SpriteBases.GroupFlagsFromClass | test/test_sprite_bases.py:81-87 | a subclass's class flags are kept when none are passed |
| Turret.Footprint | player.py:70 | the footprint of a turret at pos is a 20 x 20 rect centred on pos |
| Turret.BlockedByNearTurret | player.py:69-71 | a spot is blocked by a turret exactly when both offsets are below 20 (touching is not blocking) |
| Turret.Turret.constructor | turret.py:24-32 | a new turret has never fired |
| Turret.Turret.Update | turret.py:41-46 | it fires at the nearest enemy, and records the tick, exactly when the cooldown allows and that enemy is within range (inclusive) |
| Turret.Cooldown | turret.py:37-39 | a fresh turret can shoot; after a shot at t it cannot shoot at t .. t + interval - 1 and can from t + interval |
| Turret.FireTwice | turret.py:37-46 | with the default interval 45 a turret fires at ticks 100 and 145 and not at 144 |
| Turret.IdsOf | turret.py:92 | without 'all', the indicators are the arguments, in order |
| Turret.RedrawQueue.constructor | turret.py:57 | the queue starts as 'all' |
| Turret.RedrawQueue.RequestRedraw | turret.py:86-92 | nothing once 'all' is due; otherwise the arguments are appended, and 'all' among them makes the queue 'all' and raises TypeError |
| Turret.RedrawQueue.RequestRedrawIntended | turret.py:86-92 | the corrected request: 'all' makes the queue 'all' without raising; indicators are appended as written |
| Turret.RedrawQueue.UpdateOverlaysSurf | turret.py:104-117 | nothing on an empty queue; otherwise 'all' clears and draws every overlay, a list draws exactly its indicators, and the queue ends empty |
| Turret.RedrawCycle | turret.py:86-117 | after the first full redraw, requests queue in order and the next update draws exactly them without clearing |
| Turret.RequestAllRaises | turret.py:90-92 | requesting 'all' while a list is queued raises TypeError, yet the next update redraws everything |
| Turret.RequestAllIntended | turret.py:86-117 | with the corrected request, 'all' succeeds and the next update redraws everything; later indicators queue normally |
| Player.Player.constructor | player.py:24-29 | no turrets, no kills, score 0, alive |
| Player.Player.SetTurrets | player.py:35-39 | the stored count is round(value, 8), within half of 10^-8 of value |
| Player.Player.WhileLeftClick | player.py:66-73 | a turret is placed exactly when at least one is in hand and the spot is free; then exactly 1 is spent and the count stays non-negative |
| Player.Player.OnKillEnemy | player.py:75-78 | one more kill, 0.165 + 0.035 * max_hp more turrets, int(max_hp) more score |
| Player.Player.Die | player.py:80-82 | the player is dead afterwards |
| Player.KillKeepsGrid | player.py:75-77 | a kill of a whole max_hp keeps the count exact on the 8-decimal grid |
| Player.PlaceKeepsGrid | player.py:73 | a placement keeps the count exact on the grid |
| Player.FourKillsBuyATurret | player.py:66-78 | four kills of max_hp 5 give exactly 1.36 turrets and score 20; one placement leaves exactly 0.36 |
| UsesGameMixin.UsesGame.constructor | uses_game.py:10-11 | a new instance reads game from its class |
| UsesGameMixin.UsesGame.SetGame | uses_game.py:17-25 | a UsesGame argument stands for its game; the result is the given game if any, else the one held; RuntimeError exactly when strict and still none |
| UsesGameMixin.UsesGame.Init | uses_game.py:14-15 | construction is set_game, strict by default: it fails exactly when strict and no game is known |
| UsesGameMixin.SetGameScenarios | test/test_uses_game.py:27-58 | direct and held games are taken, None raises under strict and stays None otherwise, a class attribute is kept |
| TriggerOnceDecorator.TriggerOnce.constructor | trigger_once.py:8-10 | not triggered, nothing called yet |
| TriggerOnceDecorator.TriggerOnce.Trigger | trigger_once.py:12-14 | marks triggered and calls fn every time |
| TriggerOnceDecorator.TriggerOnce.Call | trigger_once.py:16-17 | calling the object is trigger |
| TriggerOnceDecorator.Decorated.constructor | trigger_once.py:20-27 | one fresh TriggerOnce around f; orig_fn is f |
| TriggerOnceDecorator.Decorated.Call | trigger_once.py:23-25 | each call goes through the shared TriggerOnce, calls f, and returns None |
| TriggerOnceDecorator.CalledTwice | trigger_once.py:20-25 | two calls of a decorated function invoke it twice through one TriggerOnce |
| MainGame.EveryNTicks.constructor | main.py:323-326 | started_at is the creation tick + offset |
| MainGame.EveryNTicks.IsThisFrame | main.py:328-330 | false before the start; from the start on, ZeroDivisionError exactly when n == 0 |
| MainGame.EveryNTicksSchedule | main.py:328-330 | with n > 0 it fires at started_at + k * n + d exactly when d == 0 |
| MainGame.EveryFiveTicks | main.py:322-330 | EveryNTicks(5) made at tick 10 fires at 11 and 16, not at 10 or 12 .. 15 |
| MainGame.Player.constructor | main.py:336-340 | no turrets, no kills, alive |
| MainGame.Player.SetTurrets | main.py:346-350 | the stored count is round(value, 8) |
| MainGame.Player.WhileLeftClick | main.py:377-385 | a turret is placed exactly when at least one is in hand and the spot is free; then exactly 1 is spent |
| MainGame.Player.OnKillEnemy | main.py:387-389 | one more kill and 0.2 more turrets |
| MainGame.Player.Die | main.py:391-392 | the player is dead afterwards |
| MainGame.FifthKeepsGrid | main.py:346-350 | on the 8-decimal grid, adding 0.2 is exact |
| MainGame.FiveKillsBuyATurret | main.py:377-389 | five kills earn exactly one turret, and placing it leaves exactly none |
| MainGame.Game.constructor | main.py:183-190 | tick 0, a disabled spawner with nothing scheduled, a fresh player and one immobile enemy of health 1 |
| MainGame.Game.DoTick | main.py:267-274 | nothing once the player is dead; otherwise exactly the spawner's handle_enemy_spawns |
| MainGame.Game.WaitForNextFrame | main.py:241-243 | the tick advances by exactly one |
| MainGame.Game.Frame | main.py:198-201 | a frame is do_tick at the current tick, then one tick more |
| MainGame.Game.OnKillEnemy | main.py:281-283 | each kill makes exactly one interval decrease and one player kill |
| MainGame.Game.PlaceTurret | main.py:469-472 | the hook enables the spawner and frees the initial enemy on every call, through its trigger_once wrapper |
| MainGame.Game.LeftClick | main.py:377-385 | a placement adds the turret, queues its range indicator for redraw and runs the tutorial hook; otherwise nothing changes |
| MainGame.FramesAfterDeath | main.py:267-269 | once the player is dead, frames still count ticks but nothing spawns and the schedule stands still |
| MainGame.FirstTurretStartsSpawning | main.py:465-472 | nothing spawns before the first turret; placing it enables the spawner, and the next frame schedules the first enemy 75 ticks later |

## Left out

- Rendering, windowing, fonts, events and surfaces are not modelled. This
  covers `Fonts`, `GameLogger`, `GameOver`, `TurretsText`, `EnemyInfoText`,
  `FpsText`, `text_sprite.py`, `circle_fill_thing.py`, every blit and draw, and
  `TurretRangeIndicator.make_overlay_surf`, `on_resize`, `draw_all` and
  `blit_all`. They are pygame I/O.
- Profiling, logging, `pygame_patches.py` and `_count_lines.py` are tooling, not
  game logic.
- `collectable.py`, `bullet.py` and `containers.py` (pickups, bullet flight,
  holder classes) are pygame collision code. A bullet hit enters the model only
  as a call of `OnHitByBullet`.
- `Game.do_tick` calls `root_group.update()`: every sprite's movement, turret
  firing and contact with the player. Each of those is modelled as its own
  method, but not their order within one tick.
- `CommonEnemy.update` (contact kills the player) and keyboard movement of the
  player are not modelled: they are pygame collision and input.
- `Game.on_player_die` and `GameOver` only draw text. `Die` sets the flag and
  nothing more.
- `clock.tick(FPS)` is real time. `WaitForNextFrame` only advances the tick.
- `vec2_from_polar`, `Vector2.from_polar` and adding the player's position are
  pygame geometry. Spawned enemies are kept as distance and angle.
  `Vector2.move_towards` is a parameter of `HandleMovement`.
- `math.sqrt` is an uninterpreted function of the oracle.
- Random draws are given, not distributed. Nothing is claimed about
  probabilities.
- Binary floating point is not modelled. Floats are exact reals. Only the
  source's explicit `round` calls round.
- pygame's `Rect` stores integer coordinates. The model's rects are on reals,
  so the truncation of `centerx = tot_width / 2` and of `rect_from_size` is not
  modelled.
- `clamp` and `uniform_from_mean` are imported from `util.py`, but the file does
  not define them. They are reconstructed from their call sites: None means no
  bound, and the draw lies in [m - v, m + v].
- PgUtil.Lower: lower-cases only ASCII letters. The non-ASCII case mappings of
  `str.lower` are not modelled.
- PgUtil.Nearest: takes the group's rect centres in iteration order. Both
  variants of `nearest_of_group` compute the same choice.
- SpriteBases.Sprite.SetGroupFlags: flags are `Option<bool>`. Python truthiness
  of other objects used as flags (test/test_sprite_bases.py:78-87 uses plain
  objects) is not modelled.
- UsesGameMixin.UsesGame.SetGame: `game or self.game` is modelled with every
  game truthy, as `Game` objects are. The `method_name` used in the error
  message is not modelled.
- EnemySpawn.DrainSpec requires `CostsAtLeastOne`: every encounter decided from
  now on costs at least 1. The source does not guarantee this. A single can
  round to health 0 when strength < 1/640, and cluster healths can be drawn below 0
  at very high strength. The loop of `spawn_all` only terminates under such a
  bound.
- EnemySpawn.EnemySpawnMgr.SpawnAll: the same `CostsAtLeastOne` precondition.
- EnemySpawn.EnemySpawnMgr.OnTick: the same precondition, on the strength after
  the drift, when the check would enable.
- EnemySpawn.EnemySpawnMgr.constructor: the same precondition, from the first
  draw on.
- EnemySpawn.EnemySpawnMgr.DecideNextEnemy: the same precondition, from the
  current cursor.
- The interval spawner's `spawn_enemy` (main.py:86-92,
  _enemy_spawn_mgr_old.py:64-70) is `RingSpawn` with health 1. The two spawner
  copies are modelled once.
- MainGame.Game.LeftClick: the turret placed is modelled by its position, its
  range indicator's redraw request and the tutorial hook. The Turret sprite
  object and `game.dirty_this_frame` are not modelled. It queues the indicator
  with the corrected `RequestRedrawIntended`, which agrees with the written
  `request_redraw` here: turret.py:84 passes only the indicator itself, never
  'all'.
- The `TurretItem` pickup (main.py:186, collectable.py:34-36) is not modelled.
  In the game it gives the player the first turret. In the model, turrets come
  only from kills.
- MainGame.Game.PlaceTurret: states only that the wrapped call was recorded
  once more. The recorded result is the unit value.
- MainGame.Player.SetTurrets: `turrets_text.update()` only redraws text.

## Findings

| source | as written | input that shows it | evidently intended | confidence | as-written member | corrected member |
|---|---|---|---|---|---|---|
| turret.py:90-92 | with 'all' among the arguments, `need_redraw` becomes the string 'all' and then `+= args` adds a tuple to that string, which raises TypeError | `request_redraw(indicator, 'all')` while a list of indicators is queued | switch the queue to 'all' and return without error | medium, not executed | Turret.RequestAllRaises | Turret.RedrawQueue.RequestRedrawIntended |
