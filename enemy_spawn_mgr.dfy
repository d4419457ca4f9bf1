/** enemy_spawn_mgr.py: the budget-based enemy spawner. A points budget
    grows by `strength` every enabled tick and is spent on the pending
    encounter (one enemy, or a cluster of them) for as long as it is
    affordable; `strength` itself rises every tick and with every kill. */
module EnemySpawn {
  import opened Numeric
  import opened Util
  import opened Enemy

  /** The per-tick rise of strength, 0.0001 / 60. */
  const TickDrift: real := 0.0001 / 60.0

  /** math.pi */
  const Pi: real := 3.141592653589793

  /** The rise of strength for one kill of an enemy with `maxHp`. */
  function KillBoost(maxHp: real): real
  {
    0.0006 + maxHp * 0.0004
  }

  /** A kill of an enemy with non-negative max_hp never lowers strength. */
  lemma KillBoostPositive(maxHp: real)
    requires maxHp >= 0.0
    ensures KillBoost(maxHp) >= 0.0006
  {
  }

  // ---------------------------------------------------------------------
  // Encounters
  // ---------------------------------------------------------------------

  /** A pending encounter: SingleEnemySpawn with its health, or
      ClusterEnemySpawn with its enemy_health_list. Encounters are never
      changed after they have been randomized, so they are values here. */
  datatype Strategy = Single(health: int) | Cluster(healthList: seq<real>)

  /** Python's sum() of a list of floats. */
  function Sum(xs: seq<real>): real
  {
    if xs == [] then 0.0 else xs[0] + Sum(xs[1..])
  }

  /** get_cost: a single costs its health, a cluster the sum of its list
      (its total_health). */
  function Cost(s: Strategy): real
  {
    match s
    case Single(h) => h as real
    case Cluster(hs) => Sum(hs)
  }

  /** base_enemy_health: sqrt(strength * 40). */
  function BaseEnemyHealth(o: Oracle, strength: real): real
  {
    o.sqrt(strength * 40.0)
  }

  /** The chance of a cluster: strength * 0.5, at most 0.35. */
  function ClusterChance(strength: real): (r: real)
    ensures r <= 0.35
    ensures r <= strength * 0.5
  {
    ClampReal(strength * 0.5, None, Some(0.35))
  }

  /** SingleEnemySpawn.make_random: health = round(uniform(1, 2 * mean)). */
  function RandomSingle(o: Oracle, strength: real, at: nat): (d: Drawn<Strategy>)
    ensures d.value.Single? && d.next == at + 1
  {
    var mean := BaseEnemyHealth(o, strength);
    Drawn(Single(Round(Uniform(1.0, mean * 2.0, o.draw(at)))), at + 1)
  }

  /** When the doubled mean health is at least 1/2, a single costs at least
      1 (otherwise uniform(1, 2 * mean) can round to 0). */
  lemma RandomSingleCostsAtLeastOne(o: Oracle, strength: real, at: nat)
    requires DrawsInUnit(o) && BaseEnemyHealth(o, strength) * 2.0 >= 0.5
    ensures Cost(RandomSingle(o, strength, at).value) >= 1.0
  {
    var top := BaseEnemyHealth(o, strength) * 2.0;
    var u := o.draw(at);
    UniformBetween(1.0, top, u);
    if top < 1.0 {
      assert Uniform(1.0, top, u) == 1.0 - (1.0 - top) * u;
      MulNonNegative(top - 0.5, u);
      assert (1.0 - top) * u <= 0.5 * u;
    }
    RoundPositive(Uniform(1.0, top, u));
  }

  /** The cluster size: round(uniform(0.7 m, 1.3 m)) for m = 3 * strength,
      clamped to at least 2. */
  function ClusterAmount(strength: real, u: real): (n: nat)
    ensures n >= 2
  {
    var meanAmount := strength * 3.0;
    ClampInt(Round(Uniform(meanAmount * 0.7, meanAmount * 1.3, u)), Some(2), None)
  }

  /** The range every cluster member's health is drawn from:
      [floor(mean) - 1, ceil(mean) + 1] with mean = 2.5 * base / amount. */
  function MemberHealthRange(o: Oracle, strength: real, amount: nat): (r: (int, int))
    requires amount >= 2
    ensures r.0 + 2 <= r.1
  {
    var mean := BaseEnemyHealth(o, strength) * 2.5 / amount as real;
    (Floor(mean) - 1, Ceil(mean) + 1)
  }

  /** ClusterEnemySpawn.make_random: one draw for the size, then one draw per
      member's health. */
  function RandomCluster(o: Oracle, strength: real, at: nat): (d: Drawn<Strategy>)
    ensures d.value.Cluster? && d.next == at + 1 + |d.value.healthList|
  {
    var amount := ClusterAmount(strength, o.draw(at));
    var range := MemberHealthRange(o, strength, amount);
    var hs := seq(amount, i requires 0 <= i < amount =>
                    Uniform(range.0 as real, range.1 as real, o.draw(at + 1 + i)));
    Drawn(Cluster(hs), at + 1 + amount)
  }

  /** A cluster has at least two members, each with a health inside the
      member range, and costs the sum of those healths. */
  lemma RandomClusterShape(o: Oracle, strength: real, at: nat)
    requires DrawsInUnit(o)
    ensures var hs := RandomCluster(o, strength, at).value.healthList;
      var range := MemberHealthRange(o, strength, |hs|);
      && |hs| >= 2
      && (forall i :: 0 <= i < |hs| ==> range.0 as real <= hs[i] <= range.1 as real)
      && Cost(RandomCluster(o, strength, at).value) == Sum(hs)
  {
    var hs := RandomCluster(o, strength, at).value.healthList;
    var range := MemberHealthRange(o, strength, |hs|);
    forall i | 0 <= i < |hs|
      ensures range.0 as real <= hs[i] <= range.1 as real
    {
      UniformBetween(range.0 as real, range.1 as real, o.draw(at + 1 + i));
    }
  }

  /** decide_next_enemy: a cluster only when strength > 0.2 and a fresh
      draw falls below the cluster chance; otherwise a single. The chance
      draw is made only when strength > 0.2 (`and` short-circuits). */
  function DecideNext(o: Oracle, strength: real, at: nat): (d: Drawn<Strategy>)
    ensures d.next > at
  {
    if strength > 0.2 then
      if o.draw(at) < ClusterChance(strength) then RandomCluster(o, strength, at + 1)
      else RandomSingle(o, strength, at + 1)
    else RandomSingle(o, strength, at)
  }

  /** A cluster is chosen exactly when strength > 0.2 and the chance draw is
      below min(strength * 0.5, 0.35). */
  lemma DecideNextChoice(o: Oracle, strength: real, at: nat)
    ensures DecideNext(o, strength, at).value.Cluster?
        <==> strength > 0.2 && o.draw(at) < Min(strength * 0.5, 0.35)
  {
  }

  /** The modelling assumption that makes the drain loop terminate: every
      encounter that can be decided from draw position `from` on costs at
      least 1. The source does not guarantee it (a single can round to
      health 0 when strength < 1/640, and cluster members can be drawn
      below 0 at very high strength). */
  ghost predicate CostsAtLeastOne(o: Oracle, strength: real, from: nat)
  {
    forall c: nat :: c >= from ==> Cost(DecideNext(o, strength, c).value) >= 1.0
  }

  /** Up to strength 0.2 every encounter is a single, so the assumption
      holds as soon as the doubled mean health reaches 1/2. */
  lemma LowStrength(o: Oracle, strength: real, from: nat)
    requires DrawsInUnit(o) && strength <= 0.2 && BaseEnemyHealth(o, strength) * 2.0 >= 0.5
    ensures CostsAtLeastOne(o, strength, from)
  {
    forall c: nat | c >= from
      ensures Cost(DecideNext(o, strength, c).value) >= 1.0
    {
      RandomSingleCostsAtLeastOne(o, strength, c);
    }
  }

  // ---------------------------------------------------------------------
  // Realizing an encounter
  // ---------------------------------------------------------------------

  /** The shared origin of a cluster: mean distance, distance variation,
      mean angle and the angular spread equivalent to a lateral spread of
      uniform(150, 250) at the mean distance. */
  datatype ClusterOrigin = ClusterOrigin(meanDistance: real, distanceVariation: real,
                                         meanAngle: real, angleVariation: real)

  function DrawClusterOrigin(o: Oracle, at: nat): (d: Drawn<ClusterOrigin>)
    requires DrawsInUnit(o)
    ensures 250.0 <= d.value.meanDistance <= 500.0
    ensures 70.0 <= d.value.distanceVariation <= 170.0
    ensures d.value.angleVariation >= 0.0
    ensures d.next == at + 4
  {
    UniformBetween(250.0, 500.0, o.draw(at));
    UniformBetween(70.0, 170.0, o.draw(at + 1));
    UniformBetween(150.0, 250.0, o.draw(at + 3));
    var meanDistance := Uniform(250.0, 500.0, o.draw(at));
    var distanceVariation := Uniform(70.0, 170.0, o.draw(at + 1));
    var meanAngle := Uniform(0.0, 360.0, o.draw(at + 2));
    var angleLengthVariation := Uniform(150.0, 250.0, o.draw(at + 3));
    MulNonNegative(180.0, angleLengthVariation);
    var angleVariation := 180.0 * angleLengthVariation / (Pi * meanDistance);
    Drawn(ClusterOrigin(meanDistance, distanceVariation, meanAngle, angleVariation), at + 4)
  }

  /** One cluster member: angle and distance around the origin; a distance
      below 250 is redrawn from uniform(250, mean + variation). */
  function ClusterMember(o: Oracle, g: ClusterOrigin, health: real, at: nat): (d: Drawn<SpawnRequest>)
    requires DrawsInUnit(o)
    requires g.meanDistance >= 250.0 && g.distanceVariation >= 0.0
    ensures 250.0 <= d.value.distance <= g.meanDistance + g.distanceVariation
    ensures d.value.health == health
    ensures d.next == at + 2 || d.next == at + 3
  {
    var angle := UniformFromMean(g.meanAngle, g.angleVariation, o.draw(at));
    var distance := UniformFromMean(g.meanDistance, g.distanceVariation, o.draw(at + 1));
    if distance < 250.0 then
      UniformBetween(250.0, g.meanDistance + g.distanceVariation, o.draw(at + 2));
      Drawn(SpawnRequest(Uniform(250.0, g.meanDistance + g.distanceVariation, o.draw(at + 2)), angle, health), at + 3)
    else
      Drawn(SpawnRequest(distance, angle, health), at + 2)
  }

  /** The members of a cluster, in list order, each with its own draws. */
  function ClusterMembers(o: Oracle, g: ClusterOrigin, hs: seq<real>, at: nat): (d: Drawn<seq<SpawnRequest>>)
    requires DrawsInUnit(o)
    requires g.meanDistance >= 250.0 && g.distanceVariation >= 0.0
    ensures d.next >= at
    decreases |hs|
  {
    if hs == [] then Drawn([], at)
    else
      var first := ClusterMember(o, g, hs[0], at);
      var rest := ClusterMembers(o, g, hs[1..], first.next);
      Drawn([first.value] + rest.value, rest.next)
  }

  /** One enemy per health, in list order, each keeping its health and
      placed between 250 and mean distance + variation; every member uses
      at least two draws. */
  lemma {:induction false} ClusterMembersShape(o: Oracle, g: ClusterOrigin, hs: seq<real>, at: nat)
    requires DrawsInUnit(o)
    requires g.meanDistance >= 250.0 && g.distanceVariation >= 0.0
    ensures var d := ClusterMembers(o, g, hs, at);
      && |d.value| == |hs|
      && (forall i :: 0 <= i < |hs| ==> d.value[i].health == hs[i])
      && (forall i :: 0 <= i < |hs| ==> 250.0 <= d.value[i].distance <= g.meanDistance + g.distanceVariation)
      && at + 2 * |hs| <= d.next
    decreases |hs|
  {
    if hs != [] {
      var first := ClusterMember(o, g, hs[0], at);
      ClusterMembersShape(o, g, hs[1..], first.next);
    }
  }

  /** spawn(): the creation requests of an encounter and the draws used. */
  function SpawnRequests(o: Oracle, s: Strategy, at: nat): (d: Drawn<seq<SpawnRequest>>)
    requires DrawsInUnit(o)
    ensures d.next > at
  {
    match s
    case Single(h) =>
      var r := RingSpawn(o, h as real, at);
      Drawn([r.value], r.next)
    case Cluster(hs) =>
      var g := DrawClusterOrigin(o, at);
      ClusterMembers(o, g.value, hs, g.next)
  }

  /** A realized encounter creates one enemy per health it holds (one for a
      single), every one at least 250 away from the player and at most 500
      + 170 away. */
  lemma SpawnRequestsShape(o: Oracle, s: Strategy, at: nat)
    requires DrawsInUnit(o)
    ensures var rs := SpawnRequests(o, s, at).value;
      && |rs| == (if s.Single? then 1 else |s.healthList|)
      && (forall i :: 0 <= i < |rs| ==> 250.0 <= rs[i].distance <= 670.0)
      && (s.Single? ==> rs[0].health == s.health as real && rs[0].distance <= 500.0)
      && (s.Cluster? ==> forall i :: 0 <= i < |rs| ==> rs[i].health == s.healthList[i])
  {
    if s.Cluster? {
      var g := DrawClusterOrigin(o, at);
      ClusterMembersShape(o, g.value, s.healthList, g.next);
    }
  }

  // ---------------------------------------------------------------------
  // The drain loop (spawn_all) as a function
  // ---------------------------------------------------------------------

  /** The state spawn_all leaves: the budget, the pending encounter, the
      next draw position, the creation requests made and the encounters
      realized, in order. */
  datatype Drain = Drain(points: real, next: Strategy, at: nat,
                         requests: seq<SpawnRequest>, realized: seq<Strategy>)

  /** spawn_all: while the budget covers the pending encounter, realize it,
      pay for it and decide a new one. */
  function DrainSpec(o: Oracle, strength: real, points: real, next: Strategy, at: nat): (r: Drain)
    requires DrawsInUnit(o) && Cost(next) >= 1.0 && CostsAtLeastOne(o, strength, at)
    ensures r.at >= at
    ensures Cost(r.next) >= 1.0
    decreases points.Floor
  {
    if points >= Cost(next) then
      var spawned := SpawnRequests(o, next, at);
      var decided := DecideNext(o, strength, spawned.next);
      var rest := DrainSpec(o, strength, points - Cost(next), decided.value, decided.next);
      Drain(rest.points, rest.next, rest.at, spawned.value + rest.requests, [next] + rest.realized)
    else
      Drain(points, next, at, [], [])
  }

  /** One round of the drain: realize the pending encounter, decide the
      next one, drain the rest. */
  lemma DrainStep(o: Oracle, strength: real, points: real, next: Strategy, at: nat)
    requires DrawsInUnit(o) && Cost(next) >= 1.0 && CostsAtLeastOne(o, strength, at)
    requires points >= Cost(next)
    ensures var made := SpawnRequests(o, next, at);
      var decided := DecideNext(o, strength, made.next);
      var r := DrainSpec(o, strength, points, next, at);
      var rest := DrainSpec(o, strength, points - Cost(next), decided.value, decided.next);
      r == Drain(rest.points, rest.next, rest.at, made.value + rest.requests, [next] + rest.realized)
  {
  }

  lemma ConcatAssoc<T>(a: seq<T>, b: seq<T>, c: seq<T>)
    ensures (a + b) + c == a + (b + c)
  {
  }

  /** The costs of a list of encounters, added up. */
  function TotalCost(ss: seq<Strategy>): real
  {
    if ss == [] then 0.0 else Cost(ss[0]) + TotalCost(ss[1..])
  }

  /** After draining, the budget no longer covers the pending encounter, and
      it is exactly the starting budget minus the costs of the encounters
      realized. */
  lemma {:induction false} DrainExit(o: Oracle, strength: real, points: real, next: Strategy, at: nat)
    requires DrawsInUnit(o) && Cost(next) >= 1.0 && CostsAtLeastOne(o, strength, at)
    ensures var r := DrainSpec(o, strength, points, next, at);
      && r.points < Cost(r.next)
      && r.points == points - TotalCost(r.realized)
      && r.points >= Min(points, 0.0)
    decreases points.Floor
  {
    if points >= Cost(next) {
      var spawned := SpawnRequests(o, next, at);
      var decided := DecideNext(o, strength, spawned.next);
      DrainExit(o, strength, points - Cost(next), decided.value, decided.next);
    }
  }

  /** Every encounter realized was affordable when it was realized (the
      `assert self.points >= cost` of spawn_from_obj). */
  lemma {:induction false} DrainPaysAsItGoes(o: Oracle, strength: real, points: real, next: Strategy, at: nat)
    requires DrawsInUnit(o) && Cost(next) >= 1.0 && CostsAtLeastOne(o, strength, at)
    ensures Affordable(points, DrainSpec(o, strength, points, next, at).realized)
    decreases points.Floor
  {
    if points >= Cost(next) {
      var spawned := SpawnRequests(o, next, at);
      var decided := DecideNext(o, strength, spawned.next);
      DrainPaysAsItGoes(o, strength, points - Cost(next), decided.value, decided.next);
      PaysShift(points, next, DrainSpec(o, strength, points - Cost(next), decided.value, decided.next).realized);
    }
  }

  /** The drain realizes something exactly when the budget covers the
      pending encounter, and then that encounter comes first. */
  lemma DrainStartsWithPending(o: Oracle, strength: real, points: real, next: Strategy, at: nat)
    requires DrawsInUnit(o) && Cost(next) >= 1.0 && CostsAtLeastOne(o, strength, at)
    ensures var r := DrainSpec(o, strength, points, next, at);
      && (r.realized != [] <==> points >= Cost(next))
      && (r.realized != [] ==> r.realized[0] == next)
  {
    if points >= Cost(next) {
      DrainStep(o, strength, points, next, at);
    }
  }

  /** Starting from `points` and paying for the encounters in order, each
      one is covered by what is left when its turn comes. */
  predicate Affordable(points: real, ss: seq<Strategy>)
  {
    forall i :: 0 <= i < |ss| ==> points - TotalCost(ss[..i]) >= Cost(ss[i])
  }

  /** Affordability carries over to a list with one more encounter in
      front, paid for first. */
  lemma PaysShift(points: real, next: Strategy, rest: seq<Strategy>)
    requires points >= Cost(next) && Affordable(points - Cost(next), rest)
    ensures Affordable(points, [next] + rest)
  {
    var all := [next] + rest;
    forall i | 0 <= i < |all|
      ensures points - TotalCost(all[..i]) >= Cost(all[i])
    {
      if i > 0 {
        assert all[..i] == [next] + rest[..i - 1];
        assert TotalCost(all[..i]) == Cost(next) + TotalCost(rest[..i - 1]);
      } else {
        assert all[..i] == [];
      }
    }
  }

  /** Each realized encounter creates its own enemies: the creation
      requests are the realized encounters' requests, one per health. */
  lemma {:induction false} DrainRequestCount(o: Oracle, strength: real, points: real, next: Strategy, at: nat)
    requires DrawsInUnit(o) && Cost(next) >= 1.0 && CostsAtLeastOne(o, strength, at)
    ensures var r := DrainSpec(o, strength, points, next, at);
      |r.requests| == EnemyCount(r.realized)
      && forall i :: 0 <= i < |r.requests| ==> r.requests[i].distance >= 250.0
    decreases points.Floor
  {
    if points >= Cost(next) {
      var spawned := SpawnRequests(o, next, at);
      var decided := DecideNext(o, strength, spawned.next);
      SpawnRequestsShape(o, next, at);
      DrainRequestCount(o, strength, points - Cost(next), decided.value, decided.next);
      var r := DrainSpec(o, strength, points, next, at);
      var rest := DrainSpec(o, strength, points - Cost(next), decided.value, decided.next);
      assert r.realized == [next] + rest.realized;
      assert r.realized[1..] == rest.realized;
    }
  }

  /** How many enemies a list of encounters creates. */
  function EnemyCount(ss: seq<Strategy>): nat
  {
    if ss == [] then 0
    else (if ss[0].Single? then 1 else |ss[0].healthList|) + EnemyCount(ss[1..])
  }

  // ---------------------------------------------------------------------
  // The enable gate
  // ---------------------------------------------------------------------

  /** `enabled` and `enable_after`. */
  datatype Gate = Gate(enabled: bool, enableAfter: Option<int>)

  /** check_if_should_enable at `tick`. */
  function CheckGate(g: Gate, tick: int): (r: Gate)
    ensures r.enableAfter == g.enableAfter
  {
    if g.enableAfter.Some? && tick >= g.enableAfter.value then Gate(true, g.enableAfter) else g
  }

  /** enable(delay) at `tick`. */
  function EnableGate(g: Gate, delay: int, tick: int): (r: Gate)
    ensures r.enableAfter == Some(tick + delay)
  {
    CheckGate(Gate(g.enabled, Some(tick + delay)), tick)
  }

  /** The gate after one check at each of the ticks from, from + 1, ...,
      from + n - 1. */
  function CheckedThrough(g: Gate, from: int, n: nat): Gate
    decreases n
  {
    if n == 0 then g else CheckedThrough(CheckGate(g, from), from + 1, n - 1)
  }

  /** The gate is one-way: nothing it does turns `enabled` back off. */
  lemma {:induction false} GateOneWay(g: Gate, from: int, n: nat, delay: int)
    requires g.enabled
    ensures CheckedThrough(g, from, n).enabled
    ensures EnableGate(g, delay, from).enabled
    decreases n
  {
    if n > 0 {
      GateOneWay(CheckGate(g, from), from + 1, n - 1, delay);
    }
  }

  /** enable(d) at tick T opens the gate at once when d <= 0; otherwise the
      checks at T + 1 .. T + d - 1 leave it closed and the check at T + d
      opens it. */
  lemma {:induction false} GateOpensAfterDelay(g: Gate, delay: int, tick: int, n: nat)
    requires !g.enabled
    ensures CheckedThrough(EnableGate(g, delay, tick), tick + 1, n).enabled <==> n >= delay
    decreases n
  {
    var e := EnableGate(g, delay, tick);
    if n > 0 {
      GateStaysAfterChecks(e, tick + 1, n - 1);
      GateOpensAfterDelay(g, delay, tick, n - 1);
      var before := CheckedThrough(e, tick + 1, n - 1);
      assert CheckedThrough(e, tick + 1, n) == CheckGate(before, tick + n);
    }
  }

  /** Checking at n ticks and then one more is the same as checking at n + 1
      ticks. */
  lemma {:induction false} GateStaysAfterChecks(g: Gate, from: int, n: nat)
    ensures CheckedThrough(g, from, n + 1) == CheckGate(CheckedThrough(g, from, n), from + n)
    ensures CheckedThrough(g, from, n).enableAfter == g.enableAfter
    decreases n
  {
    if n > 0 {
      GateStaysAfterChecks(CheckGate(g, from), from + 1, n - 1);
    }
  }

  /** The concrete case: enable(40) at tick 100 keeps the gate closed
      through tick 139 and opens it at tick 140. */
  lemma GateExample()
    ensures !CheckedThrough(EnableGate(Gate(false, None), 40, 100), 101, 39).enabled
    ensures CheckedThrough(EnableGate(Gate(false, None), 40, 100), 101, 40).enabled
  {
    GateOpensAfterDelay(Gate(false, None), 40, 100, 39);
    GateOpensAfterDelay(Gate(false, None), 40, 100, 40);
  }

  // ---------------------------------------------------------------------
  // Loops over clusters, as the source writes them
  // ---------------------------------------------------------------------

  /** ClusterEnemySpawn.randomize: fills enemy_health_list one draw at a
      time. */
  method RandomizeCluster(o: Oracle, strength: real, at: nat) returns (s: Strategy, next: nat)
    requires DrawsInUnit(o)
    ensures Drawn(s, next) == RandomCluster(o, strength, at)
    ensures s.Cluster? && |s.healthList| >= 2
  {
    var amount := ClusterAmount(strength, o.draw(at));
    var range := MemberHealthRange(o, strength, amount);
    var hs: seq<real> := [];
    for i := 0 to amount
      invariant |hs| == i
      invariant forall j :: 0 <= j < i ==> hs[j] == Uniform(range.0 as real, range.1 as real, o.draw(at + 1 + j))
    {
      hs := hs + [Uniform(range.0 as real, range.1 as real, o.draw(at + 1 + i))];
    }
    assert hs == RandomCluster(o, strength, at).value.healthList;
    s := Cluster(hs);
    next := at + 1 + amount;
  }

  /** ClusterEnemySpawn.spawn: draws the shared origin, then appends one
      enemy per health in the list. */
  method SpawnCluster(o: Oracle, hs: seq<real>, at: nat) returns (enemies: seq<SpawnRequest>, next: nat)
    requires DrawsInUnit(o)
    ensures Drawn(enemies, next) == SpawnRequests(o, Cluster(hs), at)
    ensures |enemies| == |hs|
    ensures forall i :: 0 <= i < |enemies| ==> enemies[i].distance >= 250.0 && enemies[i].health == hs[i]
  {
    var g := DrawClusterOrigin(o, at);
    enemies, next := PlaceMembers(o, g.value, hs, g.next);
    ClusterMembersShape(o, g.value, hs, g.next);
  }

  /** The loop of ClusterEnemySpawn.spawn over enemy_health_list. */
  method PlaceMembers(o: Oracle, g: ClusterOrigin, hs: seq<real>, at: nat) returns (enemies: seq<SpawnRequest>, next: nat)
    requires DrawsInUnit(o)
    requires g.meanDistance >= 250.0 && g.distanceVariation >= 0.0
    ensures Drawn(enemies, next) == ClusterMembers(o, g, hs, at)
  {
    ghost var whole := ClusterMembers(o, g, hs, at);
    assert hs[0..] == hs;
    ghost var rest := whole;
    enemies := [];
    next := at;
    var i := 0;
    while i < |hs|
      invariant 0 <= i <= |hs|
      invariant rest == ClusterMembers(o, g, hs[i..], next)
      invariant enemies + rest.value == whole.value && rest.next == whole.next
    {
      var m := ClusterMember(o, g, hs[i], next);
      ClusterMembersStep(o, g, hs, i, next);
      var after := ClusterMembers(o, g, hs[i + 1..], m.next);
      assert enemies + [m.value] + after.value == enemies + ([m.value] + after.value);
      rest := after;
      enemies := enemies + [m.value];
      next := m.next;
      i := i + 1;
    }
    assert hs[i..] == [];
    assert enemies == whole.value && next == whole.next;
  }

  /** One step of ClusterMembers: the member at i, then the rest. */
  lemma ClusterMembersStep(o: Oracle, g: ClusterOrigin, hs: seq<real>, i: nat, at: nat)
    requires DrawsInUnit(o)
    requires g.meanDistance >= 250.0 && g.distanceVariation >= 0.0
    requires i < |hs|
    ensures var first := ClusterMember(o, g, hs[i], at);
      var rest := ClusterMembers(o, g, hs[i + 1..], first.next);
      ClusterMembers(o, g, hs[i..], at).value == [first.value] + rest.value
      && ClusterMembers(o, g, hs[i..], at).next == rest.next
  {
    assert hs[i..][1..] == hs[i + 1..];
  }

  // ---------------------------------------------------------------------
  // The spawner
  // ---------------------------------------------------------------------

  class EnemySpawnMgr {
    var points: real
    var strength: real
    var enabled: bool
    var enableAfter: Option<int>
    var nextEnemy: Strategy
    /** Position of the next unused random draw. */
    var cursor: nat
    /** The enemies handed to the game for creation, in order. */
    var spawned: seq<SpawnRequest>
    const oracle: Oracle

    ghost predicate Valid()
      reads this
    {
      DrawsInUnit(oracle) && Cost(nextEnemy) >= 1.0
    }

    function GateState(): Gate
      reads this
    {
      Gate(enabled, enableAfter)
    }

    /** __init__: the first encounter is decided at construction, so
        next_enemy is always set. */
    constructor (oracle: Oracle, strength: real, enabled: bool, startPoints: real)
      requires DrawsInUnit(oracle) && CostsAtLeastOne(oracle, strength, 0)
      ensures Valid()
      ensures this.oracle == oracle && points == startPoints && this.strength == strength
      ensures this.enabled == enabled && enableAfter == None && spawned == []
      ensures Drawn(nextEnemy, cursor) == DecideNext(oracle, strength, 0)
    {
      this.oracle := oracle;
      points := startPoints;
      this.strength := strength;
      this.enabled := enabled;
      enableAfter := None;
      spawned := [];
      cursor := 0;
      nextEnemy := Single(1);
      new;
      DecideNextEnemy();
    }

    /** enable(delay) at `tick`. */
    method Enable(delay: int, tick: int)
      modifies this`enabled, this`enableAfter
      ensures GateState() == EnableGate(old(GateState()), delay, tick)
    {
      enableAfter := Some(tick + delay);
      CheckIfShouldEnable(tick);
    }

    /** check_if_should_enable at `tick`: only ever assigns True. */
    method CheckIfShouldEnable(tick: int)
      modifies this`enabled
      ensures GateState() == CheckGate(old(GateState()), tick)
      ensures old(enabled) ==> enabled
    {
      if enableAfter.Some? && tick >= enableAfter.value {
        enabled := true;
      }
    }

    /** decide_next_enemy */
    method DecideNextEnemy()
      requires DrawsInUnit(oracle) && CostsAtLeastOne(oracle, strength, cursor)
      modifies this`nextEnemy, this`cursor
      ensures Drawn(nextEnemy, cursor) == DecideNext(oracle, strength, old(cursor))
      ensures Valid()
    {
      var at := cursor;
      if strength > 0.2 {
        var chance := oracle.draw(at);
        at := at + 1;
        if chance < ClusterChance(strength) {
          nextEnemy, cursor := RandomizeCluster(oracle, strength, at);
          return;
        }
      }
      nextEnemy := Single(Round(Uniform(1.0, BaseEnemyHealth(oracle, strength) * 2.0, oracle.draw(at))));
      cursor := at + 1;
    }

    /** on_tick: frozen until the gate opens; then the budget grows by the
        current strength, strength drifts up, and the budget is drained. */
    method OnTick(tick: int)
      requires Valid()
      requires CheckGate(GateState(), tick).enabled ==> CostsAtLeastOne(oracle, strength + TickDrift, cursor)
      modifies this`enabled, this`points, this`strength, this`nextEnemy, this`cursor, this`spawned
      ensures Valid()
      ensures GateState() == CheckGate(old(GateState()), tick)
      ensures !enabled ==> (points == old(points) && strength == old(strength)
        && nextEnemy == old(nextEnemy) && cursor == old(cursor) && spawned == old(spawned))
      ensures enabled ==> strength == old(strength) + TickDrift
      ensures enabled ==>
        var r := DrainSpec(oracle, strength, old(points) + old(strength), old(nextEnemy), old(cursor));
        points == r.points && nextEnemy == r.next && cursor == r.at
        && spawned == old(spawned) + r.requests
      ensures points < Cost(nextEnemy) || !enabled
    {
      CheckIfShouldEnable(tick);
      if !enabled {
        return;
      }
      points := points + strength;
      strength := strength + TickDrift;
      ghost var r := DrainSpec(oracle, strength, points, nextEnemy, cursor);
      ghost var before := spawned;
      SpawnAll();
      assert points == r.points && nextEnemy == r.next && cursor == r.at && spawned == before + r.requests;
    }

    /** on_kill_enemy: strength rises by 0.0006 + 0.0004 * max_hp, but only
        once the gate is open. */
    method OnKillEnemy(maxHp: real)
      modifies this`strength
      ensures strength == if enabled then old(strength) + KillBoost(maxHp) else old(strength)
    {
      if !enabled {
        return;
      }
      strength := strength + KillBoost(maxHp);
    }

    /** spawn_all */
    method SpawnAll()
      requires Valid() && CostsAtLeastOne(oracle, strength, cursor)
      modifies this`points, this`nextEnemy, this`cursor, this`spawned
      ensures Valid() && points < Cost(nextEnemy)
      ensures var r := DrainSpec(oracle, strength, old(points), old(nextEnemy), old(cursor));
        points == r.points && nextEnemy == r.next && cursor == r.at
        && spawned == old(spawned) + r.requests
    {
      ghost var goal := DrainSpec(oracle, strength, points, nextEnemy, cursor);
      ghost var rest := goal;
      while points >= Cost(nextEnemy)
        invariant Valid() && CostsAtLeastOne(oracle, strength, cursor)
        invariant rest == DrainSpec(oracle, strength, points, nextEnemy, cursor)
        invariant rest.points == goal.points && rest.next == goal.next && rest.at == goal.at
        invariant spawned + rest.requests == old(spawned) + goal.requests
        decreases points.Floor
      {
        ghost var before := spawned;
        ghost var made := SpawnRequests(oracle, nextEnemy, cursor).value;
        DrainStep(oracle, strength, points, nextEnemy, cursor);
        SpawnFromObj(nextEnemy);
        ghost var tail := DrainSpec(oracle, strength, points, nextEnemy, cursor);
        assert spawned == before + made && rest.requests == made + tail.requests;
        ConcatAssoc(before, made, tail.requests);
        rest := tail;
      }
    }

    /** spawn_from_obj: asserts the budget covers the encounter, creates its
        enemies, pays for it and decides the next encounter. */
    method SpawnFromObj(s: Strategy)
      requires Valid() && CostsAtLeastOne(oracle, strength, cursor)
      requires points >= Cost(s)
      modifies this`points, this`nextEnemy, this`cursor, this`spawned
      ensures Valid() && CostsAtLeastOne(oracle, strength, cursor)
      ensures var made := SpawnRequests(oracle, s, old(cursor));
        var decided := DecideNext(oracle, strength, made.next);
        && points == old(points) - Cost(s)
        && spawned == old(spawned) + made.value
        && nextEnemy == decided.value && cursor == decided.next
    {
      var cost := Cost(s);
      assert points >= cost;
      var made: seq<SpawnRequest>;
      match s {
        case Single(h) =>
          var r := RingSpawn(oracle, h as real, cursor);
          made, cursor := [r.value], r.next;
        case Cluster(hs) =>
          made, cursor := SpawnCluster(oracle, hs, cursor);
      }
      spawned := spawned + made;
      points := points - cost;
      DecideNextEnemy();
    }
  }

  /** EnemySpawnMgr(game) with its defaults (strength 0.005, disabled, no
      points) meets the drain loop's assumption whenever sqrt(0.2) >= 1/4. */
  method DefaultSpawner(o: Oracle) returns (m: EnemySpawnMgr)
    requires DrawsInUnit(o) && o.sqrt(0.2) >= 0.25
    ensures m.Valid() && m.oracle == o
    ensures m.strength == 0.005 && !m.enabled && m.points == 0.0 && m.spawned == []
    ensures m.nextEnemy.Single? && Cost(m.nextEnemy) >= 1.0
  {
    assert BaseEnemyHealth(o, 0.005) == o.sqrt(0.2);
    LowStrength(o, 0.005, 0);
    m := new EnemySpawnMgr(o, 0.005, false, 0.0);
  }
}
