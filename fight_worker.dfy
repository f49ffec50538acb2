/**
 * The fight-build optimiser as a web worker. It is the same enumeration as
 * the main page's, with the equipment bonuses added to the table values,
 * its own damage formula, and messages posted back to the page: one
 * `{progress}` after each chunk and one `{done, results}` at the end.
 *
 * As written, the loop body pushes an object that reads the undeclared name
 * `daily_cost`. The push throws a ReferenceError at the first index that
 * survives the budget filter. `WorkerSearch` models that code, and
 * `CorrectedWorker` models the loop with the evidently intended push.
 */
module FightWorker {
  import opened Digits
  import opened Combat
  import opened Search
  import opened FightBuild
  import opened Ranking
  import opened FightSearch

  /** The equipment bonuses carried by the request message. */
  datatype Bonuses = Bonuses(weaponDmg: real, weaponCritCh: real, helmetCritDmg: real,
                             chestArmor: real, pantsArmor: real, bootsDodge: real, glovesPrec: real)

  /** The request message: point budget, regeneration, ammo bonus and equipment bonuses. */
  datatype WorkerRequest = WorkerRequest(spLimit: int, regen: real, ammo: real, bonus: Bonuses)

  /**
   * The effective skills of a level vector. Each of the six combat skills
   * is its table value plus its equipment bonus, and armor gets both the
   * chest and the pants bonus. Health and hunger come from the tables alone,
   * and the armor tables alone never exceed 0.40.
   */
  function WorkerSkillsOf(combo: seq<nat>, b: Bonuses): (s: Skills)
    requires |combo| == NumSkills && Levels(combo)
    ensures s.attack == SkillsOf(combo).attack + b.weaponDmg
    ensures s.precision == SkillsOf(combo).precision + b.glovesPrec
    ensures s.critChance == SkillsOf(combo).critChance + b.weaponCritCh
    ensures s.critDamage == SkillsOf(combo).critDamage + b.helmetCritDmg
    ensures s.armor == SkillsOf(combo).armor + b.chestArmor + b.pantsArmor
    ensures s.dodge == SkillsOf(combo).dodge + b.bootsDodge
    ensures s.health == SkillsOf(combo).health && s.hunger == SkillsOf(combo).hunger
    ensures b.chestArmor + b.pantsArmor <= s.armor <= 0.4 + b.chestArmor + b.pantsArmor
  {
    Skills(Attack[combo[0]] + b.weaponDmg, Precision[combo[1]] + b.glovesPrec,
           CritChance[combo[2]] + b.weaponCritCh, CritDamage[combo[3]] + b.helmetCritDmg,
           Armor[combo[4]] + b.chestArmor + b.pantsArmor, Dodge[combo[5]] + b.bootsDodge,
           Health[combo[6]], Hunger[combo[7]])
  }

  /**
   * The armor divisor `10 * (1 - armor)` is positive for every build exactly
   * when the chest and pants bonuses together stay below 0.6, because the
   * armor table reaches 0.40 at level 10.
   */
  lemma DivisorPositiveForAllBuilds(b: Bonuses)
    ensures (b.chestArmor + b.pantsArmor < 0.6) <==>
      (forall j :: 0 <= j < TotalCombos() ==> WorkerSkillsOf(ComboAt(j), b).armor < 1.0)
  {
    if forall j :: 0 <= j < TotalCombos() ==> WorkerSkillsOf(ComboAt(j), b).armor < 1.0 {
      var heavy := [0, 0, 0, 0, 10, 0, 0, 0];
      RetainedCombo(0, heavy);
      var j := Value(heavy, NumLevels);
      assert WorkerSkillsOf(ComboAt(j), b).armor < 1.0;
      assert ComboAt(j) == heavy;
    }
  }

  /**
   * Expected damage of one attack, before the ammo factor: a miss does half
   * damage and a critical hit multiplies by 1 + critDamage.
   */
  function WorkerPerAttack(s: Skills): real
  {
    var missDamage := s.attack * (1.0 - s.precision) * 0.5;
    var normalDamage := s.attack * s.precision * (1.0 - s.critChance);
    var critDamage := s.attack * s.precision * s.critChance * (1.0 + s.critDamage);
    missDamage + normalDamage + critDamage
  }

  /** The three outcomes collapse to attack * ((1 + precision) / 2 + precision * critChance * critDamage). */
  lemma WorkerPerAttackClosedForm(s: Skills)
    ensures WorkerPerAttack(s) == s.attack * ((1.0 + s.precision) * 0.5 + s.precision * s.critChance * s.critDamage)
  {
  }

  /**
   * Against the main page's formula, the worker takes away half of the miss
   * damage and adds one more plain hit for every critical hit.
   */
  lemma WorkerAgainstPage(s: Skills)
    ensures WorkerPerAttack(s) ==
      PerAttackDamage(s) - s.attack * (1.0 - s.precision) * 0.5 + s.attack * s.precision * s.critChance
  {
  }

  /** Damage per attack boosted by the ammo bonus, rounded to the nearest integer. */
  function WorkerBoostedHit(s: Skills, ammo: real): int
  {
    Round(WorkerPerAttack(s) * (1.0 + ammo))
  }

  /**
   * The worker's `evaluateDamage`: attacks per day times the rounded,
   * ammo-boosted damage per attack. At armor 1 the divisor is zero and the
   * result is not a finite number.
   */
  function WorkerEvaluate(s: Skills, regen: real, ammo: real): (r: DamageResult)
    ensures r.NonFinite? <==> s.armor == 1.0
  {
    if s.armor == 1.0 then NonFinite
    else Finite(AttacksPerDay(s, regen) * WorkerBoostedHit(s, ammo))
  }

  lemma WorkerFiniteDamage(s: Skills, regen: real, ammo: real)
    requires s.armor != 1.0
    ensures WorkerEvaluate(s, regen, ammo).damage == AttacksPerDay(s, regen) * WorkerBoostedHit(s, ammo)
  {
  }

  /**
   * Inputs for which the worker's formula behaves: armor in [0, 1),
   * non-negative dodge, health, hunger, regeneration, ammo, attack,
   * precision, crit chance and crit damage. No upper bound on the
   * probabilities is needed, because the closed form has no negative term.
   */
  ghost predicate WorkerSane(s: Skills, regen: real, ammo: real)
  {
    && Physical(s, regen) && ammo >= 0.0 && s.attack >= 0.0
    && s.precision >= 0.0 && s.critChance >= 0.0 && s.critDamage >= 0.0
  }

  /** The rounded, ammo-boosted damage per attack is non-negative and monotone in the four damage skills. */
  lemma WorkerBoostedMonotone(s: Skills, s': Skills, ammo: real)
    requires s.attack >= 0.0 && s.precision >= 0.0 && s.critChance >= 0.0 && s.critDamage >= 0.0
    requires s.attack <= s'.attack && s.precision <= s'.precision
    requires s.critChance <= s'.critChance && s.critDamage <= s'.critDamage
    requires ammo >= 0.0
    ensures 0 <= WorkerBoostedHit(s, ammo) <= WorkerBoostedHit(s', ammo)
  {
    RealProductMonotone(s.precision, s'.precision, s.critChance, s'.critChance);
    var pc, pc' := s.precision * s.critChance, s'.precision * s'.critChance;
    RealProductMonotone(pc, pc', s.critDamage, s'.critDamage);
    var f, f' := (1.0 + s.precision) * 0.5 + pc * s.critDamage, (1.0 + s'.precision) * 0.5 + pc' * s'.critDamage;
    RealProductMonotone(s.attack, s'.attack, f, f');
    WorkerPerAttackClosedForm(s);
    WorkerPerAttackClosedForm(s');
    var p, p' := WorkerPerAttack(s), WorkerPerAttack(s');
    RealProductMonotone(p, p', 1.0 + ammo, 1.0 + ammo);
    RoundMonotone(p * (1.0 + ammo), p' * (1.0 + ammo));
  }

  lemma WorkerDamageFromFactors(s: Skills, s': Skills, regen: real, ammo: real)
    requires s.armor != 1.0 && s'.armor != 1.0
    requires 0 <= AttacksPerDay(s, regen) <= AttacksPerDay(s', regen)
    requires 0 <= WorkerBoostedHit(s, ammo) <= WorkerBoostedHit(s', ammo)
    ensures 0 <= WorkerEvaluate(s, regen, ammo).damage <= WorkerEvaluate(s', regen, ammo).damage
  {
    WorkerFiniteDamage(s, regen, ammo);
    WorkerFiniteDamage(s', regen, ammo);
    IntProductMonotone(AttacksPerDay(s, regen), AttacksPerDay(s', regen),
                       WorkerBoostedHit(s, ammo), WorkerBoostedHit(s', ammo));
  }

  /**
   * The worker's daily damage is never negative and is non-decreasing in
   * attack, precision, crit chance, crit damage, armor and dodge, all else
   * held fixed.
   */
  lemma WorkerDamageMonotone(s: Skills, s': Skills, regen: real, ammo: real)
    requires WorkerSane(s, regen, ammo) && WorkerSane(s', regen, ammo)
    requires s'.health == s.health && s'.hunger == s.hunger
    requires s.attack <= s'.attack && s.precision <= s'.precision
    requires s.critChance <= s'.critChance && s.critDamage <= s'.critDamage
    requires s.armor <= s'.armor && s.dodge <= s'.dodge
    ensures 0 <= WorkerEvaluate(s, regen, ammo).damage <= WorkerEvaluate(s', regen, ammo).damage
  {
    AttacksMonotone(s, s', regen);
    WorkerBoostedMonotone(s, s', ammo);
    WorkerDamageFromFactors(s, s', regen, ammo);
  }

  /**
   * The loop body up to the push, for index j: decode it, price it and,
   * when it fits the budget, compute its skills and damage.
   */
  method WorkerExamine(req: WorkerRequest, j: nat) returns (kept: bool, totalCost: nat, skills: Skills, damage: DamageResult)
    ensures totalCost == ComboCost(ComboAt(j)) && (kept <==> Retained(req.spLimit, j))
    ensures kept ==> skills == WorkerSkillsOf(ComboAt(j), req.bonus) && damage == WorkerEvaluate(skills, req.regen, req.ammo)
  {
    var combo := IndexToCombo(j, NumSkills, NumLevels);
    totalCost := ComboCost(combo);
    kept := totalCost <= req.spLimit;
    skills, damage := Skills(0.0, 0.0, 0.0, 0.0, 0.0, 0.0, 0.0, 0.0), NonFinite;
    if kept {
      skills := WorkerSkillsOf(combo, req.bonus);
      damage := WorkerEvaluate(skills, req.regen, req.ammo);
    }
  }

  /**
   * Requests whose chest and pants bonuses keep every build's armor below 1,
   * so that every build's daily damage is a finite integer.
   */
  type BoundedArmorRequest = r: WorkerRequest | r.bonus.chestArmor + r.bonus.pantsArmor < 0.6
    witness WorkerRequest(0, 0.0, 0.0, Bonuses(0.0, 0.0, 0.0, 0.0, 0.0, 0.0, 0.0))

  /** The build the corrected loop body pushes for index j. */
  function WorkerCandidateAt(req: BoundedArmorRequest, j: nat): Candidate
  {
    var combo := ComboAt(j);
    var skills := WorkerSkillsOf(combo, req.bonus);
    Candidate(combo, skills, ComboCost(combo), WorkerEvaluate(skills, req.regen, req.ammo).damage)
  }

  /** The budget test and the loop body of the corrected scan, as functions of the index. */
  function WorkerKeep(req: BoundedArmorRequest): nat -> bool
  {
    WithinBudget(req.spLimit)
  }

  function WorkerMake(req: BoundedArmorRequest): nat -> Candidate
  {
    (j: nat) => WorkerCandidateAt(req, j)
  }

  /** What the worker posts to the page. */
  datatype Message = Progress(percent: int) | Done(results: seq<Candidate>)

  /** A worker still scheduling chunks, one stopped by the ReferenceError at an index, or one that posted `done`. */
  datatype Status = Running | Thrown(index: nat) | Finished

  /**
   * The worker's `for` loop over [lo, hi) as written: the first index within
   * budget reaches the push of `daily_cost` and throws there, so the loop
   * stops at that index and nothing is pushed.
   */
  method ScanUntilThrow(req: WorkerRequest, lo: nat, hi: nat) returns (j: nat, threw: bool)
    requires lo <= hi
    ensures lo <= j <= hi
    ensures threw ==> j < hi && Retained(req.spLimit, j)
    ensures !threw ==> j == hi
    ensures forall k :: lo <= k < j ==> !Retained(req.spLimit, k)
  {
    j := lo;
    while j < hi
      invariant lo <= j <= hi
      invariant forall k :: lo <= k < j ==> !Retained(req.spLimit, k)
    {
      var kept, totalCost, skills, damage := WorkerExamine(req, j);
      if kept {
        return j, true;
      }
      j := j + 1;
    }
    threw := false;
  }

  /** No index below j survives the budget filter. */
  ghost predicate NoneRetainedBelow(spLimit: int, j: nat)
  {
    forall k :: 0 <= k < j ==> !Retained(spLimit, k)
  }

  /** The first n messages report the percentage after chunks 1, ..., n. */
  ghost predicate ReportedChunks(messages: seq<Message>, n: nat)
  {
    n <= |messages| && forall k :: 0 <= k < n ==> messages[k] == Progress(Percent(Cursor(k + 1)))
  }

  /** Reporting the cursor after the next chunk extends the reported chunks by one. */
  lemma ReportStep(messages: seq<Message>, i: nat)
    requires ReportedChunks(messages, |messages|) && i == Cursor(|messages| + 1)
    ensures ReportedChunks(messages + [Progress(Percent(i))], |messages| + 1)
  {
  }

  /** The reported percentages are those `Percents` lists. */
  lemma ReportedIsPercents(messages: seq<Message>, n: nat)
    requires ReportedChunks(messages, n)
    ensures forall k :: 0 <= k < n ==> messages[k] == Progress(Percents(n)[k])
  {
    PercentsAt(n);
  }

  /**
   * The invariant of the worker as written, on plain values. `topResults`
   * stays empty, because no push completes. While the worker is running,
   * n progress messages have been posted, the cursor stands at `Cursor(n)`
   * and no index below it has been retained. When it has thrown, the error
   * came at the first retained index, inside chunk n + 1, and only the
   * messages of the n earlier chunks were posted. When it has finished,
   * nothing was retained and every progress message was followed by
   * `done` with no results.
   */
  ghost predicate WorkerState(spLimit: int, i: nat, topResults: seq<Candidate>, messages: seq<Message>, status: Status)
  {
    && topResults == []
    && match status
       case Running =>
         |messages| < NumChunks() && i == Cursor(|messages|)
         && NoneRetainedBelow(spLimit, i) && ReportedChunks(messages, |messages|)
       case Thrown(j) =>
         |messages| < NumChunks() && i == j && Cursor(|messages|) <= j < Cursor(|messages| + 1)
         && NoneRetainedBelow(spLimit, j) && Retained(spLimit, j) && ReportedChunks(messages, |messages|)
       case Finished =>
         |messages| == NumChunks() + 1 && i == TotalCombos()
         && NoneRetainedBelow(spLimit, i) && ReportedChunks(messages, NumChunks())
         && messages[NumChunks()] == Done([])
  }

  /** One chunk of the worker as written keeps its invariant, whether it throws, continues or finishes. */
  lemma WorkerStep(spLimit: int, i: nat, messages: seq<Message>, j: nat, threw: bool)
    requires WorkerState(spLimit, i, [], messages, Running)
    requires i <= j <= Min(i + ChunkSize, TotalCombos())
    requires threw ==> j < Min(i + ChunkSize, TotalCombos()) && Retained(spLimit, j)
    requires !threw ==> j == Min(i + ChunkSize, TotalCombos())
    requires forall k :: i <= k < j ==> !Retained(spLimit, k)
    ensures threw ==> WorkerState(spLimit, j, [], messages, Thrown(j))
    ensures !threw && j < TotalCombos() ==>
      WorkerState(spLimit, j, [], messages + [Progress(Percent(j))], Running)
    ensures !threw && j == TotalCombos() ==>
      WorkerState(spLimit, j, [], messages + [Progress(Percent(j))] + [Done([])], Finished)
  {
    var n := |messages|;
    CursorShape(n);
    CursorShape(n + 1);
    var m := messages + [Progress(Percent(j))];
    assert forall k :: 0 <= k < n ==> m[k] == messages[k];
    if !threw && j == TotalCombos() {
      var m' := m + [Done([])];
      assert forall k :: 0 <= k <= n ==> m'[k] == m[k];
    }
  }

  /**
   * The worker as written. Each call of `ProcessChunk` stands for one
   * scheduled run of `processChunk`. It scans up to `ChunkSize` indices and
   * either throws at the first retained one, or posts its percentage and,
   * after the last index, posts the ten best of the (empty) results.
   */
  class WorkerSearch {
    const req: WorkerRequest
    var i: nat
    var topResults: seq<Candidate>
    /** Every message posted so far, in order. */
    var messages: seq<Message>
    var status: Status

    ghost predicate Valid()
      reads this
    {
      WorkerState(req.spLimit, i, topResults, messages, status)
    }

    constructor (req: WorkerRequest)
      ensures Valid() && this.req == req
      ensures i == 0 && topResults == [] && messages == [] && status == Running
    {
      this.req := req;
      i := 0;
      topResults := [];
      messages := [];
      status := Running;
    }

    method ProcessChunk()
      requires Valid() && status == Running
      modifies this
      ensures Valid()
      ensures |messages| > old(|messages|) || status.Thrown?
    {
      var end := Min(i + ChunkSize, TotalCombos());
      var j, threw := ScanUntilThrow(req, i, end);
      WorkerStep(req.spLimit, i, messages, j, threw);
      i := j;
      if threw {
        status := Thrown(j);
      } else {
        messages := messages + [Progress(Percent(i))];
        if i == TotalCombos() {
          assert SortDesc(topResults) == [];
          topResults := SortDesc(topResults);
          messages := messages + [Done(Top(topResults, 10))];
          status := Finished;
        }
      }
    }

    /** Chunks run until the worker either throws or posts `done`. */
    method Run()
      requires Valid()
      modifies this
      ensures Valid() && !status.Running?
    {
      while status.Running?
        invariant Valid()
        decreases NumChunks() + 1 - |messages|, if status.Running? then 1 else 0
      {
        ProcessChunk();
      }
    }
  }

  /**
   * The worker as written, from the request message to its last act. Any
   * non-negative budget retains index 0, the all-zero build at cost 0, so
   * the worker throws on its very first iteration and posts nothing. Only
   * a negative budget lets it run through every chunk, and then it posts
   * each percentage and `done` with no results.
   */
  method WorkerOnMessage(req: WorkerRequest) returns (messages: seq<Message>, status: Status)
    ensures req.spLimit >= 0 ==> status == Thrown(0) && messages == []
    ensures req.spLimit < 0 ==> status == Finished && |messages| == NumChunks() + 1
    ensures req.spLimit < 0 ==> forall k :: 0 <= k < NumChunks() ==> messages[k] == Progress(Percents(NumChunks())[k])
    ensures req.spLimit < 0 ==> messages[NumChunks()] == Done([])
  {
    var worker := new WorkerSearch(req);
    worker.Run();
    messages, status := worker.messages, worker.status;
    if req.spLimit >= 0 {
      IndexZeroRetained(req.spLimit);
      assert !NoneRetainedBelow(req.spLimit, 1);
      assert status.Thrown? && status.index == 0;
      CursorShape(|messages|);
    } else {
      assert !Retained(req.spLimit, worker.i);
      ReportedIsPercents(messages, NumChunks());
    }
  }

  /**
   * The corrected worker's chunk loop, on a search that has not yet run:
   * after each scheduled chunk it posts the chunk's percentage, and after
   * the last one it posts the rows the search selected.
   */
  method PostChunks(search: BuildSearch) returns (messages: seq<Message>)
    requires search.Valid() && !search.done && |search.progress| == 1
    modifies search
    ensures search.Valid() && search.done
    ensures |messages| == NumChunks() + 1 && ReportedChunks(messages, NumChunks())
    ensures messages[NumChunks()] == Done(search.shown)
  {
    messages := [];
    while !search.done
      invariant search.Valid()
      invariant |messages| == |search.progress| - 1 && ReportedChunks(messages, |messages|)
      decreases TotalCombos() - search.i
    {
      search.ProcessChunk();
      ReportStep(messages, search.i);
      messages := messages + [Progress(Percent(search.i))];
    }
    FinishedAfterAllChunks(search.progress);
    messages := messages + [Done(search.shown)];
  }

  /**
   * The worker with the evidently intended push of `{combo, totalCost,
   * daily_damage}`. Each scheduled chunk scans and keeps the builds within
   * budget, then posts its percentage, and after the last chunk the worker
   * posts the ten most damaging builds, sorted by descending damage.
   */
  method CorrectedWorker(req: BoundedArmorRequest) returns (messages: seq<Message>)
    ensures |messages| == NumChunks() + 1
    ensures forall k :: 0 <= k < NumChunks() ==> messages[k] == Progress(Percents(NumChunks())[k])
    ensures messages[NumChunks()] == Done(Top(SortDesc(Scan(WorkerKeep(req), WorkerMake(req), 0, TotalCombos())), 10))
    ensures |messages[NumChunks()].results| <= 10 && SortedDesc(messages[NumChunks()].results)
  {
    var search := new BuildSearch(WorkerKeep(req), WorkerMake(req));
    messages := PostChunks(search);
    ReportedIsPercents(messages, NumChunks());
    TopOfSorted(Scan(WorkerKeep(req), WorkerMake(req), 0, TotalCombos()), 10);
  }
}
