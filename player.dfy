/** player.py: the player's turret economy and kill counters. The turret
    count is a float kept rounded to 8 decimals; kills pay for turrets and
    placing a turret costs exactly one. */
module Player {
  import opened Numeric
  import opened Geometry
  import opened Turret

  /** What a kill of an enemy with `maxHp` adds to the turret count. */
  function KillReward(maxHp: real): real
  {
    0.165 + 0.035 * maxHp
  }

  class Player {
    var turrets: real
    var isDead: bool
    var enemiesKilled: nat
    var score: int

    /** A new player: no turrets, no kills, no score, alive. */
    constructor ()
      ensures turrets == 0.0 && !isDead && enemiesKilled == 0 && score == 0
    {
      turrets := 0.0;
      isDead := false;
      enemiesKilled := 0;
      score := 0;
    }

    /** The turrets setter stores round(value, 8). */
    method SetTurrets(value: real)
      modifies this`turrets
      ensures turrets == RoundDecimals(value, Scale8)
      ensures value - 0.000000005 <= turrets <= value + 0.000000005
    {
      turrets := RoundDecimals(value, Scale8);
      RoundDecimalsClose(value, Scale8);
    }

    /** while_left_click: with at least one turret in hand and a free spot
        under the mouse, a turret is placed there and one is spent. */
    method WhileLeftClick(mouse: Vec2, existing: seq<Vec2>) returns (placed: bool)
      modifies this`turrets
      ensures placed <==> old(turrets) >= 1.0 && !Blocked(mouse, existing)
      ensures placed ==> turrets == RoundDecimals(old(turrets) - 1.0, Scale8) && turrets >= 0.0
      ensures !placed ==> turrets == old(turrets)
    {
      placed := false;
      if turrets >= 1.0 {
        if !Blocked(mouse, existing) {
          placed := true;
          RoundDecimalsNonNegative(turrets - 1.0, Scale8);
          SetTurrets(turrets - 1.0);
        }
      }
    }

    /** on_kill_enemy: one more kill, 0.165 + 0.035 * max_hp more turrets and
        int(max_hp) more score. */
    method OnKillEnemy(maxHp: real)
      modifies this`enemiesKilled, this`turrets, this`score
      ensures enemiesKilled == old(enemiesKilled) + 1
      ensures turrets == RoundDecimals(old(turrets) + KillReward(maxHp), Scale8)
      ensures score == old(score) + Trunc(maxHp)
    {
      enemiesKilled := enemiesKilled + 1;
      SetTurrets(turrets + KillReward(maxHp));
      score := score + Trunc(maxHp);
    }

    /** die: nothing in the class clears is_dead again. */
    method Die()
      modifies this`isDead
      ensures isDead
    {
      isDead := true;
    }
  }

  /** Kills of enemies with whole max_hp keep the turret count exact: on the
      8-decimal grid, the rounding in the setter changes nothing. */
  lemma KillKeepsGrid(t: real, maxHp: int)
    requires OnGrid(t, Scale8)
    ensures RoundDecimals(t + KillReward(maxHp as real), Scale8) == t + KillReward(maxHp as real)
    ensures OnGrid(t + KillReward(maxHp as real), Scale8)
  {
    var k := (t * Scale8).Floor;
    var x := t + KillReward(maxHp as real);
    var m := k + 16500000 + 3500000 * maxHp;
    assert x * Scale8 == m as real;
    RoundDecimalsOnGrid(x, m, Scale8);
  }

  /** Placing a turret keeps a count on the grid exact too. */
  lemma PlaceKeepsGrid(t: real)
    requires OnGrid(t, Scale8)
    ensures RoundDecimals(t - 1.0, Scale8) == t - 1.0
    ensures OnGrid(t - 1.0, Scale8)
  {
    var k := (t * Scale8).Floor;
    assert (t - 1.0) * Scale8 == (k - 100000000) as real;
    RoundDecimalsOnGrid(t - 1.0, k - 100000000, Scale8);
  }

  /** Four kills of enemies with max_hp 5 earn exactly 1.36 turrets, enough
      for one placement on a free spot, which leaves exactly 0.36. */
  method FourKillsBuyATurret(mouse: Vec2) returns (p: Player)
    ensures p.enemiesKilled == 4 && p.score == 20
    ensures p.turrets == 0.36
  {
    p := new Player();
    var i := 0;
    while i < 4
      invariant 0 <= i <= 4
      invariant p.enemiesKilled == i && p.score == 5 * i
      invariant p.turrets == 0.34 * i as real
      invariant OnGrid(p.turrets, Scale8)
    {
      KillKeepsGrid(p.turrets, 5);
      p.OnKillEnemy(5.0);
      i := i + 1;
    }
    PlaceKeepsGrid(p.turrets);
    var placed := p.WhileLeftClick(mouse, []);
  }
}
