/**
 * The fight-build optimiser of the main page: each index of [0, 11^8) is
 * decoded into a level vector, discarded when it costs more skill points
 * than the budget, otherwise scored by the daily-damage formula and kept;
 * the search runs in chunks of 50000 indices, writes a progress percentage
 * after each chunk and, after the last one, sorts the kept builds by
 * descending damage and shows the first ten.
 */
module FightBuild {
  import opened Digits
  import opened Combat
  import opened Search

  /** The effective skills of a level vector: one table lookup per dimension, in table order. */
  function SkillsOf(combo: seq<nat>): (s: Skills)
    requires |combo| == NumSkills && Levels(combo)
    ensures 100.0 <= s.attack && 0.5 <= s.precision <= 1.0 && 0.1 <= s.critChance <= 0.6
    ensures 1.0 <= s.critDamage && 0.0 <= s.armor <= 0.4 && 0.0 <= s.dodge <= 0.4
    ensures 50.0 <= s.health && 4.0 <= s.hunger
  {
    TableBounds(combo[0]); TableBounds(combo[1]); TableBounds(combo[2]); TableBounds(combo[3]);
    TableBounds(combo[4]); TableBounds(combo[5]); TableBounds(combo[6]); TableBounds(combo[7]);
    Skills(Attack[combo[0]], Precision[combo[1]], CritChance[combo[2]], CritDamage[combo[3]],
           Armor[combo[4]], Dodge[combo[5]], Health[combo[6]], Hunger[combo[7]])
  }

  /**
   * Expected damage of one attack, before the ammo factor: a miss, a normal
   * hit and a critical hit (multiplied by critDamage), weighted by their
   * probabilities. Together they are attack * (1 + p * c * (critDamage - 1)).
   */
  function PerAttackDamage(s: Skills): real
  {
    var missDamage := s.attack * (1.0 - s.precision);
    var normalDamage := s.attack * s.precision * (1.0 - s.critChance);
    var critDamage := s.attack * s.precision * s.critChance * s.critDamage;
    missDamage + normalDamage + critDamage
  }

  /** The three outcomes collapse to attack * (1 + precision * critChance * (critDamage - 1)). */
  lemma PerAttackClosedForm(s: Skills)
    ensures PerAttackDamage(s) == s.attack * (1.0 + s.precision * s.critChance * (s.critDamage - 1.0))
  {
  }

  /** Damage per attack boosted by the ammo bonus, rounded to the nearest integer. */
  function BoostedHit(s: Skills, ammo: real): int
  {
    Round(PerAttackDamage(s) * (1.0 + ammo))
  }

  /** `evaluateDamage`: attacks per day times the rounded, ammo-boosted damage per attack. */
  function EvaluateDamage(s: Skills, regen: real, ammo: real): (r: DamageResult)
    ensures r.NonFinite? <==> s.armor == 1.0
  {
    if s.armor == 1.0 then NonFinite
    else Finite(AttacksPerDay(s, regen) * BoostedHit(s, ammo))
  }

  /** Below armor 1 the result is the product of the two factors. */
  lemma FiniteDamage(s: Skills, regen: real, ammo: real)
    requires s.armor != 1.0
    ensures EvaluateDamage(s, regen, ammo).damage == AttacksPerDay(s, regen) * BoostedHit(s, ammo)
  {
  }

  /** Inputs within the ranges the page produces: probabilities in [0, 1], a crit multiplier of at least 1. */
  ghost predicate Sane(s: Skills, regen: real, ammo: real)
  {
    && Physical(s, regen) && ammo >= 0.0 && s.attack >= 0.0
    && 0.0 <= s.precision <= 1.0 && 0.0 <= s.critChance <= 1.0 && s.critDamage >= 1.0
  }

  lemma RealProductMonotone(a: real, a': real, b: real, b': real)
    requires 0.0 <= a <= a' && 0.0 <= b <= b'
    ensures 0.0 <= a * b <= a' * b'
  {
    MulMonotone(a, a', b);
    MulMonotone(b, b', a');
  }

  lemma IntProductMonotone(a: int, a': int, b: int, b': int)
    requires 0 <= a <= a' && 0 <= b <= b'
    ensures 0 <= a * b <= a' * b'
  {
    MulLe(a, a', b);
    MulLe(b, b', a');
  }

  /** With probabilities in [0, 1] and a crit multiplier of at least 1, damage per attack is never negative. */
  lemma PerAttackNonNegative(s: Skills)
    requires s.attack >= 0.0 && 0.0 <= s.precision <= 1.0 && 0.0 <= s.critChance <= 1.0 && s.critDamage >= 1.0
    ensures PerAttackDamage(s) >= 0.0
  {
    RealProductMonotone(0.0, s.precision, 0.0, s.critChance);
    RealProductMonotone(0.0, s.precision * s.critChance, 0.0, s.critDamage - 1.0);
    RealProductMonotone(0.0, s.attack, 0.0, 1.0 + s.precision * s.critChance * (s.critDamage - 1.0));
    PerAttackClosedForm(s);
  }

  /** Under the page's ranges the daily damage is never negative. */
  lemma DamageNonNegative(s: Skills, regen: real, ammo: real)
    requires Sane(s, regen, ammo)
    ensures EvaluateDamage(s, regen, ammo).damage >= 0
  {
    AttacksNonNegative(s, regen);
    BoostedMonotone(s, s, ammo);
    DamageFromFactors(s, s, regen, ammo);
  }

  /** Damage per attack is non-decreasing in attack, precision, crit chance and crit damage. */
  lemma PerAttackMonotone(s: Skills, s': Skills)
    requires s.attack >= 0.0 && 0.0 <= s.precision && 0.0 <= s.critChance && s.critDamage >= 1.0
    requires s.attack <= s'.attack && s.precision <= s'.precision
    requires s.critChance <= s'.critChance && s.critDamage <= s'.critDamage
    ensures PerAttackDamage(s) <= PerAttackDamage(s')
  {
    RealProductMonotone(s.precision, s'.precision, s.critChance, s'.critChance);
    var pc, pc' := s.precision * s.critChance, s'.precision * s'.critChance;
    RealProductMonotone(pc, pc', s.critDamage - 1.0, s'.critDamage - 1.0);
    RealProductMonotone(s.attack, s'.attack, 1.0 + pc * (s.critDamage - 1.0), 1.0 + pc' * (s'.critDamage - 1.0));
    PerAttackClosedForm(s);
    PerAttackClosedForm(s');
  }

  /** Rounding is monotone, and a non-negative amount rounds to a non-negative integer. */
  lemma RoundMonotone(x: real, x': real)
    requires 0.0 <= x <= x'
    ensures 0 <= Round(x) <= Round(x')
  {
    RoundBounds(0.0, x);
    RoundBounds(x, x');
  }

  /** The rounded, ammo-boosted damage per attack is non-negative and monotone like the raw one. */
  lemma BoostedMonotone(s: Skills, s': Skills, ammo: real)
    requires s.attack >= 0.0 && 0.0 <= s.precision <= 1.0 && 0.0 <= s.critChance <= 1.0 && s.critDamage >= 1.0
    requires s.attack <= s'.attack && s.precision <= s'.precision
    requires s.critChance <= s'.critChance && s.critDamage <= s'.critDamage
    requires ammo >= 0.0
    ensures 0 <= BoostedHit(s, ammo) <= BoostedHit(s', ammo)
  {
    PerAttackNonNegative(s);
    PerAttackMonotone(s, s');
    var p, p' := PerAttackDamage(s), PerAttackDamage(s');
    RealProductMonotone(p, p', 1.0 + ammo, 1.0 + ammo);
    RoundMonotone(p * (1.0 + ammo), p' * (1.0 + ammo));
  }

  /** Daily damage is monotone once both of its factors are. */
  lemma DamageFromFactors(s: Skills, s': Skills, regen: real, ammo: real)
    requires s.armor != 1.0 && s'.armor != 1.0
    requires 0 <= AttacksPerDay(s, regen) <= AttacksPerDay(s', regen)
    requires 0 <= BoostedHit(s, ammo) <= BoostedHit(s', ammo)
    ensures EvaluateDamage(s, regen, ammo).damage <= EvaluateDamage(s', regen, ammo).damage
  {
    var a, a' := AttacksPerDay(s, regen), AttacksPerDay(s', regen);
    var r, r' := BoostedHit(s, ammo), BoostedHit(s', ammo);
    FiniteDamage(s, regen, ammo);
    FiniteDamage(s', regen, ammo);
    IntProductMonotone(a, a', r, r');
  }

  /**
   * Daily damage is non-decreasing in attack, precision, crit chance, crit
   * damage, armor and dodge, all else held fixed.
   */
  lemma DamageMonotone(s: Skills, s': Skills, regen: real, ammo: real)
    requires Sane(s, regen, ammo) && Sane(s', regen, ammo)
    requires s'.health == s.health && s'.hunger == s.hunger
    requires s.attack <= s'.attack && s.precision <= s'.precision
    requires s.critChance <= s'.critChance && s.critDamage <= s'.critDamage
    requires s.armor <= s'.armor && s.dodge <= s'.dodge
    ensures EvaluateDamage(s, regen, ammo).damage <= EvaluateDamage(s', regen, ammo).damage
  {
    AttacksMonotone(s, s', regen);
    BoostedMonotone(s, s', ammo);
    DamageFromFactors(s, s', regen, ammo);
  }

  /** A kept build: its levels, effective skills, point cost and daily damage. */
  datatype Candidate = Candidate(combo: seq<nat>, skills: Skills, totalCost: nat, dailyDamage: int)

  /** The page inputs: point budget, regeneration per hunger point and ammo bonus. */
  datatype Request = Request(spLimit: int, regen: real, ammo: real)

  /** The build the loop body makes of index j. */
  function CandidateAt(req: Request, j: nat): Candidate
  {
    var combo := ComboAt(j);
    var skills := SkillsOf(combo);
    Candidate(combo, skills, ComboCost(combo), EvaluateDamage(skills, req.regen, req.ammo).damage)
  }
}
