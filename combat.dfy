/**
 * The skill data shared by the fight-build page and its background worker:
 * the per-level value tables, the skill-point cost row, the effective-skill
 * record and the attack count per day that both damage formulas start from.
 */
module Combat {
  import opened Digits

  /** Eight skill dimensions, eleven levels (0..10) each. */
  const NumSkills: nat := 8
  const NumLevels: nat := 11

  /** Per-level effect of each skill (`skillValues`). */
  const Attack: seq<real> := [100.0, 120.0, 140.0, 160.0, 180.0, 200.0, 220.0, 240.0, 260.0, 280.0, 300.0]
  const Precision: seq<real> := [0.50, 0.55, 0.60, 0.65, 0.70, 0.75, 0.80, 0.85, 0.90, 0.95, 1.00]
  const CritChance: seq<real> := [0.10, 0.15, 0.20, 0.25, 0.30, 0.35, 0.40, 0.45, 0.50, 0.55, 0.60]
  const CritDamage: seq<real> := [1.00, 1.20, 1.40, 1.60, 1.80, 2.00, 2.20, 2.40, 2.60, 2.80, 3.00]
  const Armor: seq<real> := [0.00, 0.04, 0.08, 0.12, 0.16, 0.20, 0.24, 0.28, 0.32, 0.36, 0.40]
  const Dodge: seq<real> := [0.00, 0.04, 0.08, 0.12, 0.16, 0.20, 0.24, 0.28, 0.32, 0.36, 0.40]
  const Health: seq<real> := [50.0, 60.0, 70.0, 80.0, 90.0, 100.0, 110.0, 120.0, 130.0, 140.0, 150.0]
  const Hunger: seq<real> := [4.0, 5.0, 6.0, 7.0, 8.0, 9.0, 10.0, 11.0, 12.0, 13.0, 14.0]

  /** Skill-point cost of reaching each level (`fight_costRow`). */
  const CostRow: seq<nat> := [0, 1, 3, 6, 10, 15, 21, 28, 36, 45, 55]

  /** Every table is the affine progression its literal spells out. */
  lemma TableFormulas()
    ensures forall l :: 0 <= l < NumLevels ==>
      && Attack[l] == 100.0 + 20.0 * l as real
      && Precision[l] == 0.50 + 0.05 * l as real
      && CritChance[l] == 0.10 + 0.05 * l as real
      && CritDamage[l] == 1.00 + 0.20 * l as real
      && Armor[l] == 0.04 * l as real
      && Dodge[l] == 0.04 * l as real
      && Health[l] == 50.0 + 10.0 * l as real
      && Hunger[l] == 4.0 + l as real
  {
    forall l | 0 <= l < NumLevels
      ensures && Attack[l] == 100.0 + 20.0 * l as real
              && Precision[l] == 0.50 + 0.05 * l as real
              && CritChance[l] == 0.10 + 0.05 * l as real
              && CritDamage[l] == 1.00 + 0.20 * l as real
              && Armor[l] == 0.04 * l as real
              && Dodge[l] == 0.04 * l as real
              && Health[l] == 50.0 + 10.0 * l as real
              && Hunger[l] == 4.0 + l as real
    {
      assert l == 0 || l == 1 || l == 2 || l == 3 || l == 4 || l == 5
          || l == 6 || l == 7 || l == 8 || l == 9 || l == 10;
    }
  }

  /** The ranges of the tables: probabilities within [0, 1], armor and dodge at most 0.40. */
  lemma TableBounds(l: nat)
    requires l < NumLevels
    ensures 100.0 <= Attack[l] <= 300.0
    ensures 0.5 <= Precision[l] <= 1.0 && 0.1 <= CritChance[l] <= 0.6
    ensures 1.0 <= CritDamage[l] <= 3.0
    ensures 0.0 <= Armor[l] <= 0.4 && 0.0 <= Dodge[l] <= 0.4
    ensures 50.0 <= Health[l] <= 150.0 && 4.0 <= Hunger[l] <= 14.0
  {
    TableFormulas();
  }

  /** The cost row is the triangular numbers l(l+1)/2, strictly increasing, zero only at level 0. */
  lemma CostRowShape()
    ensures |CostRow| == NumLevels
    ensures forall l :: 0 <= l < NumLevels ==> 2 * CostRow[l] == l * (l + 1)
    ensures forall l, m :: 0 <= l < m < NumLevels ==> CostRow[l] < CostRow[m]
    ensures forall l :: 0 <= l < NumLevels ==> (CostRow[l] == 0 <==> l == 0)
  {
    forall l | 0 <= l < NumLevels
      ensures 2 * CostRow[l] == l * (l + 1)
    {
      assert l == 0 || l == 1 || l == 2 || l == 3 || l == 4 || l == 5
          || l == 6 || l == 7 || l == 8 || l == 9 || l == 10;
    }
    forall l, m | 0 <= l < m < NumLevels
      ensures CostRow[l] < CostRow[m]
    {
      assert 2 * CostRow[l] == l * (l + 1) && 2 * CostRow[m] == m * (m + 1);
      assert l * (l + 1) < m * (m + 1) by {
        assert l * (l + 1) <= l * m;
        assert l * m < m * (m + 1);
      }
    }
  }

  /** A vector of levels, each a valid index into the tables. */
  ghost predicate Levels(combo: seq<nat>)
  {
    forall k :: 0 <= k < |combo| ==> combo[k] < NumLevels
  }

  /**
   * The summed skill-point cost of a level vector: the `reduce` that adds
   * `fight_costRow[lvl]` for each level from left to right.
   */
  function ComboCost(combo: seq<nat>): nat
    requires Levels(combo)
  {
    if combo == [] then 0 else ComboCost(combo[..|combo| - 1]) + CostRow[combo[|combo| - 1]]
  }

  /** The cost is additive over any split of the vector, hence independent of grouping. */
  lemma {:induction false} ComboCostAppend(a: seq<nat>, b: seq<nat>)
    requires Levels(a) && Levels(b)
    ensures Levels(a + b) && ComboCost(a + b) == ComboCost(a) + ComboCost(b)
    decreases |b|
  {
    if b != [] {
      var b' := b[..|b| - 1];
      assert (a + b)[..|a + b| - 1] == a + b';
      ComboCostAppend(a, b');
    } else {
      assert a + b == a;
    }
  }

  /** The cost is zero exactly for the all-zero vector. */
  lemma {:induction false} ComboCostZero(combo: seq<nat>)
    requires Levels(combo)
    ensures ComboCost(combo) == 0 <==> AllZero(combo)
  {
    CostRowShape();
    if combo != [] {
      var init := combo[..|combo| - 1];
      ComboCostZero(init);
      assert forall k :: 0 <= k < |init| ==> init[k] == combo[k];
    }
  }

  /** Each level costs at most 55 points, so a vector costs at most 55 per entry. */
  lemma {:induction false} ComboCostBound(combo: seq<nat>)
    requires Levels(combo)
    ensures ComboCost(combo) <= 55 * |combo|
  {
    if combo != [] {
      ComboCostBound(combo[..|combo| - 1]);
      CostRowShape();
      assert CostRow[combo[|combo| - 1]] <= CostRow[10];
    }
  }

  /** The effective skill values a damage formula is evaluated on. */
  datatype Skills = Skills(
    attack: real, precision: real, critChance: real, critDamage: real,
    armor: real, dodge: real, health: real, hunger: real)

  /** The outcome of a damage formula: an integer, or a division by zero when armor is exactly 1. */
  datatype DamageResult = Finite(damage: int) | NonFinite

  /** `Math.round` on the reals: the nearest integer, halves rounded up. */
  function Round(x: real): int
  {
    (x + 0.5).Floor
  }

  /** The rounded value lies within half a unit of x, and rounding never reverses an order. */
  lemma RoundBounds(x: real, x': real)
    requires x <= x'
    ensures x - 0.5 < Round(x) as real <= x + 0.5
    ensures Round(x) <= Round(x')
  {
  }

  /** Health available per day: base health at 2.4 ticks, plus regeneration for each whole hunger point. */
  function DailyHealth(health: real, hunger: real, regen: real): real
  {
    health * 2.4 + (hunger * 2.4).Floor as real * regen
  }

  /** Whole attacks a health amount pays for at 10 * (1 - armor) health each. */
  function WholeAttacks(h: real, armor: real): int
    requires armor != 1.0
  {
    (h / (10.0 * (1.0 - armor))).Floor
  }

  /** A whole number of attacks scaled up by dodge, rounded down. */
  function WithDodge(w: int, dodge: real): int
  {
    (w as real * (1.0 + dodge)).Floor
  }

  /** Attacks per day: the whole attacks the daily health pays for, scaled up by dodge. */
  function AttacksPerDay(s: Skills, regen: real): int
    requires s.armor != 1.0
  {
    WithDodge(WholeAttacks(DailyHealth(s.health, s.hunger, regen), s.armor), s.dodge)
  }

  /** Inputs within their physical ranges. */
  ghost predicate Physical(s: Skills, regen: real)
  {
    && s.health >= 0.0 && s.hunger >= 0.0 && regen >= 0.0
    && 0.0 <= s.armor < 1.0 && s.dodge >= 0.0
  }

  lemma DailyHealthNonNegative(s: Skills, regen: real)
    requires Physical(s, regen)
    ensures DailyHealth(s.health, s.hunger, regen) >= 0.0
  {
    var f := (s.hunger * 2.4).Floor;
    assert f >= 0;
    MulNonNegative(f as real, regen);
  }

  lemma MulNonNegative(x: real, y: real)
    requires x >= 0.0 && y >= 0.0
    ensures x * y >= 0.0
  {
  }

  lemma MulMonotone(x: real, x': real, y: real)
    requires x <= x' && y >= 0.0
    ensures x * y <= x' * y
  {
    MulNonNegative(x' - x, y);
    assert x' * y - x * y == (x' - x) * y;
  }

  /** More armor (below 1) buys at least as many whole attacks, never a negative number. */
  lemma WholeAttacksMonotone(h: real, armor: real, armor': real)
    requires h >= 0.0 && 0.0 <= armor <= armor' < 1.0
    ensures 0 <= WholeAttacks(h, armor) <= WholeAttacks(h, armor')
  {
    var d, d' := 10.0 * (1.0 - armor), 10.0 * (1.0 - armor');
    assert h / d >= 0.0;
    DivAntitone(h, d, d');
  }

  /** More attacks or more dodge never lower the scaled count, which is never negative. */
  lemma WithDodgeMonotone(w: int, w': int, dodge: real, dodge': real)
    requires 0 <= w <= w' && 0.0 <= dodge <= dodge'
    ensures 0 <= WithDodge(w, dodge) <= WithDodge(w', dodge')
  {
    MulNonNegative(w as real, 1.0 + dodge);
    MulMonotone(w as real, w' as real, 1.0 + dodge);
    MulMonotone(1.0 + dodge, 1.0 + dodge', w' as real);
  }

  /** With physical inputs the attack count is never negative. */
  lemma AttacksNonNegative(s: Skills, regen: real)
    requires Physical(s, regen)
    ensures AttacksPerDay(s, regen) >= 0
  {
    DailyHealthNonNegative(s, regen);
    var h := DailyHealth(s.health, s.hunger, regen);
    WholeAttacksMonotone(h, s.armor, s.armor);
    WithDodgeMonotone(WholeAttacks(h, s.armor), WholeAttacks(h, s.armor), s.dodge, s.dodge);
  }

  /** Dividing a non-negative amount by a smaller positive divisor gives no less. */
  lemma DivAntitone(h: real, d: real, d': real)
    requires h >= 0.0 && 0.0 < d' <= d
    ensures h / d <= h / d'
  {
    var q, q' := h / d, h / d';
    assert q * d == h && q' * d' == h;
    if q > q' {
      MulMonotone(q', q, d');
      MulMonotone(d', d, q);
      assert false;
    }
  }

  /**
   * With health and hunger held fixed, more armor (below 1) and more dodge
   * never lower the attack count.
   */
  lemma AttacksMonotone(s: Skills, s': Skills, regen: real)
    requires Physical(s, regen) && Physical(s', regen)
    requires s'.health == s.health && s'.hunger == s.hunger
    requires s.armor <= s'.armor && s.dodge <= s'.dodge
    ensures 0 <= AttacksPerDay(s, regen) <= AttacksPerDay(s', regen)
  {
    DailyHealthNonNegative(s, regen);
    var h := DailyHealth(s.health, s.hunger, regen);
    WholeAttacksMonotone(h, s.armor, s'.armor);
    WithDodgeMonotone(WholeAttacks(h, s.armor), WholeAttacks(h, s'.armor), s.dodge, s'.dodge);
  }
}
