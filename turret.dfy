/** turret.py: a turret's fire cooldown and range, and the queue of range
    overlays waiting to be redrawn (a class attribute of
    TurretRangeIndicator shared by every indicator). */
module Turret {
  import opened Util
  import opened Geometry
  import opened PgUtil
  import opened SpriteBases

  const ShowTurretRange: bool := true
  const TurretInterval: int := 45
  const TurretRange: real := 140.0
  /** Turret.size */
  const TurretSize: Vec2 := Vec2(20.0, 20.0)

  /** can_shoot_enemy: the range test is inclusive. */
  predicate InRange(turretPos: Vec2, enemyPos: Vec2)
  {
    DistSq(turretPos, enemyPos) <= TurretRange * TurretRange
  }

  /** Where a turret placed at `pos` would stand:
      Turret.get_virtual_rect(pos). */
  function Footprint(pos: Vec2): (r: Rect)
    ensures r.Center() == pos && r.width == 20.0 && r.height == 20.0
  {
    GetVirtualRect(Some(TurretSize), pos, None).value
  }

  /** spritecollide of that footprint with the existing turrets. */
  predicate Blocked(pos: Vec2, existing: seq<Vec2>)
  {
    exists i :: 0 <= i < |existing| && Footprint(pos).Collides(Footprint(existing[i]))
  }

  /** A spot is blocked exactly by a turret less than 20 away on both axes
      (pygame's collision is strict, so touching turrets do not block). */
  lemma BlockedByNearTurret(pos: Vec2, other: Vec2)
    ensures Footprint(pos).Collides(Footprint(other)) <==>
      -20.0 < pos.x - other.x < 20.0 && -20.0 < pos.y - other.y < 20.0
  {
  }

  class Turret {
    const pos: Vec2
    const interval: int
    var shotOnTick: Option<int>
    /** Targets fired at, in order (each shot creates a Bullet). */
    var shots: seq<Vec2>

    /** A new turret has never fired. */
    constructor (pos: Vec2, interval: int)
      ensures this.pos == pos && this.interval == interval
      ensures shotOnTick == None && shots == []
    {
      this.pos := pos;
      this.interval := interval;
      shotOnTick := None;
      shots := [];
    }

    /** can_shoot: never fired, or at least `interval` ticks since the last
        shot. */
    predicate CanShoot(tick: int)
      reads this
    {
      shotOnTick.None? || tick >= shotOnTick.value + interval
    }

    /** update: when the cooldown allows, fire at the nearest enemy if it is
        in range, and remember the tick. Each enemy is given by one point:
        nearest_of_group measures to its rect centre and can_shoot_enemy to
        its position, and these are the same point here because update_rect
        keeps rect.center equal to pos (rects in this model are on reals). */
    method Update(tick: int, enemies: seq<Vec2>)
      modifies this`shotOnTick, this`shots
      ensures var target := Nearest(pos, enemies);
        var fire := old(CanShoot(tick)) && target.Some? && InRange(pos, enemies[target.value]);
        && (fire ==> shotOnTick == Some(tick) && shots == old(shots) + [enemies[target.value]])
        && (!fire ==> shotOnTick == old(shotOnTick) && shots == old(shots))
    {
      if CanShoot(tick) {
        var target := NearestOfGroup(pos, enemies);
        if target.Some? && InRange(pos, enemies[target.value]) {
          shots := shots + [enemies[target.value]];
          shotOnTick := Some(tick);
        }
      }
    }
  }

  /** A fresh turret can shoot at once. After a shot at tick t it cannot
      shoot at ticks t .. t + interval - 1 and can from t + interval on. */
  lemma Cooldown(t: Turret, shotAt: int, tick: int)
    requires t.interval > 0
    ensures t.shotOnTick.None? ==> t.CanShoot(tick)
    ensures t.shotOnTick == Some(shotAt) ==> (t.CanShoot(tick) <==> tick >= shotAt + t.interval)
    ensures t.shotOnTick == Some(shotAt) && shotAt <= tick < shotAt + t.interval ==> !t.CanShoot(tick)
  {
  }

  /** A turret with an enemy in range, fired at tick 100, fires again at
      tick 145 and not at 144: the default interval is 45 ticks. */
  method FireTwice(enemy: Vec2) returns (t: Turret)
    requires DistSq(Vec2(0.0, 0.0), enemy) <= 19600.0
    ensures t.shots == [enemy, enemy] && t.shotOnTick == Some(145)
  {
    t := new Turret(Vec2(0.0, 0.0), TurretInterval);
    NearestIsFirstMinimum(t.pos, [enemy]);
    t.Update(100, [enemy]);
    t.Update(144, [enemy]);
    t.Update(145, [enemy]);
  }

  // ---------------------------------------------------------------------
  // The redraw queue of TurretRangeIndicator
  // ---------------------------------------------------------------------

  /** An argument of request_redraw: an indicator, or the string 'all'. */
  datatype RedrawArg = Indicator(id: nat) | AllMarker

  /** need_redraw: the string 'all', or the list of indicators to redraw. */
  datatype Redraw = RedrawAll | Pending(ids: seq<nat>)

  /** The indicators among some arguments, in order. */
  function IdsOf(args: seq<RedrawArg>): (r: seq<nat>)
    ensures |r| <= |args|
    ensures AllMarker !in args ==> |r| == |args| && forall i :: 0 <= i < |args| ==> r[i] == args[i].id
  {
    if args == [] then []
    else (if args[0].Indicator? then [args[0].id] else []) + IdsOf(args[1..])
  }

  class RedrawQueue {
    var need: Redraw

    /** The class attribute starts as 'all'. */
    constructor ()
      ensures need == RedrawAll
    {
      need := RedrawAll;
    }

    /** request_redraw: nothing once everything is due. Otherwise the
        arguments are appended; if 'all' is among them the queue becomes
        'all' and the concatenation that follows (str += tuple) raises
        TypeError. */
    method RequestRedraw(args: seq<RedrawArg>) returns (out: Outcome)
      modifies this
      ensures old(need).RedrawAll? ==> need == RedrawAll && out == Pass
      ensures old(need).Pending? && AllMarker in args ==> need == RedrawAll && out == Fail(TypeError)
      ensures old(need).Pending? && AllMarker !in args ==> need == Pending(old(need).ids + IdsOf(args)) && out == Pass
    {
      if need.RedrawAll? {
        return Pass;
      }
      if AllMarker in args {
        need := RedrawAll;
        return Fail(TypeError);
      }
      need := Pending(need.ids + IdsOf(args));
      return Pass;
    }

    /** request_redraw as evidently intended: 'all' among the arguments
        makes the queue 'all' and stops there, without raising; otherwise
        it behaves as written. */
    method RequestRedrawIntended(args: seq<RedrawArg>)
      modifies this
      ensures old(need).RedrawAll? || AllMarker in args ==> need == RedrawAll
      ensures old(need).Pending? && AllMarker !in args ==> need == Pending(old(need).ids + IdsOf(args))
    {
      if need.RedrawAll? {
        return;
      }
      if AllMarker in args {
        need := RedrawAll;
        return;
      }
      need := Pending(need.ids + IdsOf(args));
    }

    /** update_overlays_surf: nothing when no redraw is due (or ranges are
        hidden). Otherwise 'all' clears the surface and draws every overlay
        of the group; a list draws just its indicators. Either way the queue
        ends empty. */
    method UpdateOverlaysSurf(overlays: seq<nat>) returns (cleared: bool, drawn: seq<nat>)
      modifies this
      ensures old(need) == Pending([]) ==> need == old(need) && !cleared && drawn == []
      ensures old(need) != Pending([]) ==> need == Pending([])
      ensures old(need) != Pending([]) ==> (cleared <==> old(need).RedrawAll?)
      ensures old(need).RedrawAll? ==> drawn == overlays
      ensures old(need).Pending? ==> drawn == old(need).ids
    {
      cleared := false;
      drawn := [];
      if need == Pending([]) || !ShowTurretRange {
        return;
      }
      if need.RedrawAll? {
        cleared := true;
        drawn := overlays;
      } else {
        drawn := need.ids;
      }
      need := Pending([]);
    }
  }

  /** After the first full redraw, requests queue up in order and the next
      update draws exactly them, without clearing. */
  method RedrawCycle(overlays: seq<nat>, a: nat, b: nat) returns (first: seq<nat>, second: seq<nat>, cleared: bool)
    ensures first == overlays
    ensures second == [a, b] && !cleared
  {
    var q := new RedrawQueue();
    var c1;
    c1, first := q.UpdateOverlaysSurf(overlays);
    var o1 := q.RequestRedraw([Indicator(a)]);
    var o2 := q.RequestRedraw([Indicator(b)]);
    cleared, second := q.UpdateOverlaysSurf(overlays);
  }

  /** Requesting 'all' while a list is queued raises TypeError but leaves
      the queue on 'all', so the next update still redraws everything. */
  method RequestAllRaises(overlays: seq<nat>, a: nat) returns (out: Outcome, drawn: seq<nat>, cleared: bool)
    ensures out == Fail(TypeError)
    ensures cleared && drawn == overlays
  {
    var q := new RedrawQueue();
    var c0, d0 := q.UpdateOverlaysSurf(overlays);
    out := q.RequestRedraw([Indicator(a), AllMarker]);
    cleared, drawn := q.UpdateOverlaysSurf(overlays);
  }

  /** The intended request_redraw: asking for 'all' while a list is queued
      succeeds, and the next update redraws everything; a request of
      indicators alone is queued exactly as the written one queues it. */
  method RequestAllIntended(overlays: seq<nat>, a: nat, b: nat) returns (drawn: seq<nat>, cleared: bool, queued: seq<nat>)
    ensures cleared && drawn == overlays
    ensures queued == [b]
  {
    var q := new RedrawQueue();
    var c0, d0 := q.UpdateOverlaysSurf(overlays);
    q.RequestRedrawIntended([Indicator(a), AllMarker]);
    cleared, drawn := q.UpdateOverlaysSurf(overlays);
    q.RequestRedrawIntended([Indicator(b)]);
    var c1;
    c1, queued := q.UpdateOverlaysSurf(overlays);
  }
}
