/**
 * The skill-point helpers of the military-unit members page: the points a
 * player has spent on a list of skills, the time until the player may
 * reset skills again, the fight and economy shares, and the count of
 * fight, economy and hybrid builds among the unit's members.
 */
module SkillPoints {
  import opened Wrappers
  import opened Combat

  /** The skill keys the pages look up. */
  datatype SkillKey =
    | Health | Hunger | Attack | CriticalChance | CriticalDamages | Armor | Precision | Dodge | LootChance
    | Energy | Companies | Entrepreneurship | Production

  /** A player's skills: the level recorded under each key; a key without an entry has no skill object. */
  type SkillLevels = map<SkillKey, int>

  const FightSkills: seq<SkillKey> :=
    [Health, Hunger, Attack, CriticalChance, CriticalDamages, Armor, Precision, Dodge, LootChance]

  const EconomySkills: seq<SkillKey> := [Energy, Companies, Entrepreneurship, Production]

  /** `skillObj[key]?.level || 0`: the recorded level, or 0 for a missing skill. */
  function LevelOf(skills: SkillLevels, key: SkillKey): int
  {
    if key in skills then skills[key] else 0
  }

  /**
   * `SKILL_COSTS[level] || 0`: the cumulative cost of a level (the same
   * triangular row the fight builds pay), and 0 for a level outside the
   * row.
   */
  function LevelCost(level: int): (c: nat)
    ensures 0 <= level < NumLevels ==> 2 * c == level * (level + 1)
    ensures !(0 <= level < NumLevels) ==> c == 0
    ensures c <= 55
  {
    CostRowShape();
    if 0 <= level < |CostRow| then CostRow[level] else 0
  }

  /** `sumSkillPoints`: the `reduce` that adds the cost of each listed skill in turn, from 0. */
  function SumSkillPoints(skills: SkillLevels, names: seq<SkillKey>): nat
  {
    if names == [] then 0
    else SumSkillPoints(skills, names[..|names| - 1]) + LevelCost(LevelOf(skills, names[|names| - 1]))
  }

  /** Each listed skill adds at most the cost of level 10. */
  lemma {:induction false} SumBound(skills: SkillLevels, names: seq<SkillKey>)
    ensures SumSkillPoints(skills, names) <= 55 * |names|
  {
    if names != [] {
      SumBound(skills, names[..|names| - 1]);
    }
  }

  /** At most 9 * 55 fight points and 4 * 55 economy points. */
  lemma PointsBounds(skills: SkillLevels)
    ensures SumSkillPoints(skills, FightSkills) <= 495
    ensures SumSkillPoints(skills, EconomySkills) <= 220
  {
    SumBound(skills, FightSkills);
    SumBound(skills, EconomySkills);
  }

  /** A skill recorded at a level outside the cost row counts as a skill that was never recorded. */
  lemma {:induction false} OutOfRangeLikeAbsent(skills: SkillLevels, names: seq<SkillKey>, key: SkillKey)
    requires key in skills && !(0 <= skills[key] < NumLevels)
    ensures SumSkillPoints(skills, names) == SumSkillPoints(skills - {key}, names)
  {
    if names != [] {
      OutOfRangeLikeAbsent(skills, names[..|names| - 1], key);
      var last := names[|names| - 1];
      assert LevelCost(LevelOf(skills, last)) == LevelCost(LevelOf(skills - {key}, last));
    }
  }

  /**
   * When every listed level lies within the cost row, the page's sum is
   * the cost the build optimiser charges for those levels.
   */
  lemma {:induction false} SumIsComboCost(skills: SkillLevels, names: seq<SkillKey>)
    requires forall k :: 0 <= k < |names| ==> 0 <= LevelOf(skills, names[k]) < NumLevels
    ensures SumSkillPoints(skills, names) == ComboCost(seq(|names|, k requires 0 <= k < |names| => LevelOf(skills, names[k]) as nat))
  {
    var levels := seq(|names|, k requires 0 <= k < |names| => LevelOf(skills, names[k]) as nat);
    if names != [] {
      var init := names[..|names| - 1];
      SumIsComboCost(skills, init);
      assert levels[..|levels| - 1] == seq(|init|, k requires 0 <= k < |init| => LevelOf(skills, init[k]) as nat);
    }
  }

  /** Seven days and one day, in milliseconds. */
  const SevenDaysMs: int := 604800000
  const DayMs: int := 86400000
  const HourMs: int := 3600000

  /** What the reset column shows: "available", `${days}d ${hours}h`, or NaN days and hours for an unreadable date. */
  datatype ResetTime = Available | Remaining(days: int, hours: int) | Unreadable

  /** The whole days and hours of a positive remaining time. */
  function Split(msLeft: int): ResetTime
    requires msLeft > 0
  {
    Remaining(msLeft / DayMs, (msLeft % DayMs) / HourMs)
  }

  /**
   * `timeUntilReset` of the members page. The last reset time and the
   * current time are milliseconds since the epoch; a missing last reset
   * counts as available.
   */
  function TimeUntilReset(lastResetAt: Option<int>, now: int): (r: ResetTime)
    ensures r.Available? <==> lastResetAt.None? || now - lastResetAt.value >= SevenDaysMs
    ensures !r.Unreadable?
  {
    if lastResetAt.None? || now - lastResetAt.value >= SevenDaysMs then Available
    else Split(SevenDaysMs - (now - lastResetAt.value))
  }

  /** Division by a positive divisor leaves a remainder in [0, d). */
  lemma DivBounds(n: int, d: int)
    requires d > 0
    ensures (n / d) * d <= n < (n / d) * d + d
  {
  }

  /** Multiplying by a positive factor keeps the order. */
  lemma ScaleLe(a: int, b: int, d: int)
    requires d > 0
    ensures a * d <= b * d <==> a <= b
  {
    if a <= b {
      assert b * d - a * d == (b - a) * d;
    } else {
      assert a * d - b * d == (a - b) * d;
    }
  }

  /**
   * The days and hours are the remaining time cut to whole hours: hours in
   * 0..23, at most 6 days when less than a week remains, and 7 days 0
   * hours for exactly a week.
   */
  lemma SplitShape(msLeft: int)
    requires msLeft > 0
    ensures var r := Split(msLeft);
      && 0 <= r.hours < 24 && r.days >= 0
      && r.days * DayMs + r.hours * HourMs <= msLeft < r.days * DayMs + (r.hours + 1) * HourMs
      && (msLeft < SevenDaysMs ==> r.days <= 6)
      && (msLeft == SevenDaysMs ==> r == Remaining(7, 0))
  {
    var d, rest := msLeft / DayMs, msLeft % DayMs;
    assert msLeft == d * DayMs + rest;
    var h := rest / HourMs;
    assert rest == h * HourMs + rest % HourMs;
  }

  /**
   * For a reset that lies in the past and is not yet a week old, at most 6
   * days and 23 hours remain; a reset at this very millisecond shows 7 days
   * 0 hours.
   */
  lemma ResetBounds(lastResetAt: int, now: int)
    requires 0 <= now - lastResetAt < SevenDaysMs
    ensures TimeUntilReset(Some(lastResetAt), now).Remaining?
    ensures 0 <= TimeUntilReset(Some(lastResetAt), now).hours <= 23
    ensures now > lastResetAt ==> 0 <= TimeUntilReset(Some(lastResetAt), now).days <= 6
    ensures now == lastResetAt ==> TimeUntilReset(Some(lastResetAt), now) == Remaining(7, 0)
  {
    SplitShape(SevenDaysMs - (now - lastResetAt));
  }

  /**
   * A share as the page shows it: `(part / total * 100).toFixed(0)`, the
   * percentage rounded half up, and "0%" when there are no points.
   */
  function RatioPercent(part: nat, total: nat): nat
  {
    if total > 0 then (200 * part + total) / (2 * total) else 0
  }

  /** The rounded percentage is the nearest integer to 100 * part / total, halves rounded up. */
  lemma RatioRounding(part: nat, total: nat)
    requires total > 0
    ensures RatioPercent(part, total) * (2 * total) <= 200 * part + total
    ensures 200 * part + total < RatioPercent(part, total) * (2 * total) + 2 * total
  {
    DivBounds(200 * part + total, 2 * total);
  }

  /** A part of the total shows at most 100%. */
  lemma RatioAtMost100(part: nat, total: nat)
    requires part <= total
    ensures RatioPercent(part, total) <= 100
  {
    if total > 0 {
      RatioRounding(part, total);
      ScaleLe(101, RatioPercent(part, total), 2 * total);
    }
  }

  /** The two shares of the same points add up to 100 or 101. */
  lemma RatiosAddUp(fight: nat, economy: nat)
    requires fight + economy > 0
    ensures 100 <= RatioPercent(fight, fight + economy) + RatioPercent(economy, fight + economy) <= 101
  {
    var t := fight + economy;
    RatioRounding(fight, t);
    RatioRounding(economy, t);
    var a, b := RatioPercent(fight, t), RatioPercent(economy, t);
    assert (a + b) * (2 * t) == a * (2 * t) + b * (2 * t);
    ScaleLe(a + b, 101, 2 * t);
    ScaleLe(99, a + b, 2 * t);
  }

  /** Each share shows at most 100%, and together they show 100% or 101% when there are points. */
  lemma SharesBounds(fight: nat, economy: nat)
    ensures RatioPercent(fight, fight + economy) <= 100 && RatioPercent(economy, fight + economy) <= 100
    ensures fight + economy > 0 ==>
      100 <= RatioPercent(fight, fight + economy) + RatioPercent(economy, fight + economy) <= 101
  {
    RatioAtMost100(fight, fight + economy);
    RatioAtMost100(economy, fight + economy);
    if fight + economy > 0 {
      RatiosAddUp(fight, economy);
    }
  }

  /** A share shows above 70% exactly when the part is at least 70.5% of the points. */
  lemma AboveSeventyIff(part: nat, total: nat)
    requires total > 0
    ensures RatioPercent(part, total) > 70 <==> 200 * part >= 141 * total
  {
    RatioRounding(part, total);
    var q := RatioPercent(part, total);
    ScaleLe(71, q, 2 * total);
    ScaleLe(q + 1, 71, 2 * total);
    assert (q + 1) * (2 * total) == q * (2 * total) + 2 * total;
  }

  /** The build of a member: fight or economy when that share shows above 70%, fight tested first, else hybrid. */
  datatype Build = FightBuild | EconomyBuild | HybridBuild

  /** A member as the unit lists it. */
  datatype Member = Member(name: string, level: int, skills: SkillLevels, lastResetAt: Option<int>)

  /** The columns the page computes from a member (country, damage and wealth are fetched or formatted elsewhere). */
  datatype UserRow = UserRow(name: string, level: int, fightRatio: nat, economyRatio: nat, reset: ResetTime)

  function FightPoints(m: Member): nat { SumSkillPoints(m.skills, FightSkills) }

  function EconomyPoints(m: Member): nat { SumSkillPoints(m.skills, EconomySkills) }

  /** The row of a member: its two shares of the total points and its reset time. */
  function UserOf(m: Member, now: int): (u: UserRow)
    ensures u.name == m.name && u.level == m.level
    ensures u.fightRatio <= 100 && u.economyRatio <= 100
    ensures FightPoints(m) + EconomyPoints(m) == 0 ==> u.fightRatio == 0 && u.economyRatio == 0
    ensures FightPoints(m) + EconomyPoints(m) > 0 ==> 100 <= u.fightRatio + u.economyRatio <= 101
    ensures u.reset == TimeUntilReset(m.lastResetAt, now)
  {
    var total := FightPoints(m) + EconomyPoints(m);
    SharesBounds(FightPoints(m), EconomyPoints(m));
    UserRow(m.name, m.level, RatioPercent(FightPoints(m), total), RatioPercent(EconomyPoints(m), total),
            TimeUntilReset(m.lastResetAt, now))
  }

  /** The build a member of level 3 or more counts towards; younger members count towards none. */
  function Classify(m: Member): Option<Build>
  {
    var total := FightPoints(m) + EconomyPoints(m);
    if m.level < 3 then None
    else if RatioPercent(FightPoints(m), total) > 70 then Some(FightBuild)
    else if RatioPercent(EconomyPoints(m), total) > 70 then Some(EconomyBuild)
    else Some(HybridBuild)
  }

  /**
   * The shares cannot both show above 70%, so testing fight first never
   * hides an economy build: a member is an economy build exactly when its
   * economy share shows above 70%.
   */
  lemma ClassifyExclusive(m: Member)
    requires m.level >= 3
    ensures var total := FightPoints(m) + EconomyPoints(m);
      && (Classify(m) == Some(FightBuild) <==> RatioPercent(FightPoints(m), total) > 70)
      && (Classify(m) == Some(EconomyBuild) <==> RatioPercent(EconomyPoints(m), total) > 70)
  {
    var total := FightPoints(m) + EconomyPoints(m);
    if total > 0 {
      RatiosAddUp(FightPoints(m), EconomyPoints(m));
    }
  }

  /** How many of the members count towards build b. */
  function CountBuild(members: seq<Member>, b: Build): nat
  {
    if members == [] then 0
    else CountBuild(members[..|members| - 1], b) + (if Classify(members[|members| - 1]) == Some(b) then 1 else 0)
  }

  /** How many of the members have level 3 or more. */
  function CountVeterans(members: seq<Member>): nat
  {
    if members == [] then 0
    else CountVeterans(members[..|members| - 1]) + (if members[|members| - 1].level >= 3 then 1 else 0)
  }

  /** Every member of level 3 or more is counted once, under exactly one build. */
  lemma {:induction false} CountsPartition(members: seq<Member>)
    ensures CountBuild(members, FightBuild) + CountBuild(members, EconomyBuild) + CountBuild(members, HybridBuild)
      == CountVeterans(members)
  {
    if members != [] {
      CountsPartition(members[..|members| - 1]);
    }
  }

  /** The build read off the member's row, as the loop reads it. */
  lemma ClassifyFromRow(m: Member, u: UserRow, now: int)
    requires u == UserOf(m, now)
    ensures Classify(m) ==
      if m.level < 3 then None
      else if u.fightRatio > 70 then Some(FightBuild)
      else if u.economyRatio > 70 then Some(EconomyBuild)
      else Some(HybridBuild)
  {
  }

  /** Counting one more member adds one to the count of its build and nothing to the others. */
  lemma CountStep(members: seq<Member>, k: nat)
    requires k < |members|
    ensures forall b :: CountBuild(members[..k + 1], b) == CountBuild(members[..k], b) + (if Classify(members[k]) == Some(b) then 1 else 0)
  {
    assert members[..k + 1][..k] == members[..k];
  }

  /**
   * The member loop of `generateMuInfo`: one row per member in member
   * order, and the three build counters.
   */
  method GenerateMuInfo(members: seq<Member>, now: int)
    returns (users: seq<UserRow>, fightCnt: nat, economyCnt: nat, hybridCnt: nat)
    ensures |users| == |members|
    ensures forall k :: 0 <= k < |members| ==> users[k] == UserOf(members[k], now)
    ensures fightCnt == CountBuild(members, FightBuild)
    ensures economyCnt == CountBuild(members, EconomyBuild)
    ensures hybridCnt == CountBuild(members, HybridBuild)
  {
    users, fightCnt, economyCnt, hybridCnt := [], 0, 0, 0;
    var k := 0;
    while k < |members|
      invariant 0 <= k <= |members|
      invariant |users| == k
      invariant forall j :: 0 <= j < k ==> users[j] == UserOf(members[j], now)
      invariant fightCnt == CountBuild(members[..k], FightBuild)
      invariant economyCnt == CountBuild(members[..k], EconomyBuild)
      invariant hybridCnt == CountBuild(members[..k], HybridBuild)
    {
      var m := members[k];
      CountStep(members, k);
      var u := UserOf(m, now);
      ClassifyFromRow(m, u, now);
      if m.level >= 3 {
        if u.fightRatio > 70 {
          fightCnt := fightCnt + 1;
        } else if u.economyRatio > 70 {
          economyCnt := economyCnt + 1;
        } else {
          hybridCnt := hybridCnt + 1;
        }
      }
      users := users + [u];
      k := k + 1;
    }
    assert members[..k] == members;
  }
}
