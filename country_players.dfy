/**
 * The helpers of the country players page: the same skill-point sum and
 * shares as the members page, and a `timeUntilReset` without the
 * missing-date test.
 */
module CountryPlayers {
  import opened Wrappers
  import opened SkillPoints

  /**
   * `timeUntilReset` of the country page. A missing last reset makes the
   * date NaN: the week test fails and the days and hours come out NaN.
   */
  function CountryTimeUntilReset(lastResetAt: Option<int>, now: int): (r: ResetTime)
    ensures r.Unreadable? <==> lastResetAt.None?
    ensures r.Available? <==> lastResetAt.Some? && now - lastResetAt.value >= SevenDaysMs
  {
    if lastResetAt.None? then Unreadable
    else if now - lastResetAt.value >= SevenDaysMs then Available
    else Split(SevenDaysMs - (now - lastResetAt.value))
  }

  /**
   * With a last reset on record both pages show the same; without one the
   * members page shows "available" and this page NaN.
   */
  lemma ResetAgrees(lastResetAt: Option<int>, now: int)
    ensures lastResetAt.Some? ==> CountryTimeUntilReset(lastResetAt, now) == TimeUntilReset(lastResetAt, now)
    ensures lastResetAt.None? ==> CountryTimeUntilReset(lastResetAt, now) == Unreadable && TimeUntilReset(lastResetAt, now) == Available
  {
  }

  /** The hours shown are always 0..23; days are not bounded above when the last reset lies in the future. */
  lemma CountryResetHours(lastResetAt: int, now: int)
    requires now - lastResetAt < SevenDaysMs
    ensures CountryTimeUntilReset(Some(lastResetAt), now).Remaining?
    ensures 0 <= CountryTimeUntilReset(Some(lastResetAt), now).hours <= 23
    ensures CountryTimeUntilReset(Some(lastResetAt), now).days >= 0
    ensures now >= lastResetAt ==> CountryTimeUntilReset(Some(lastResetAt), now).days <= 7
  {
    var msLeft := SevenDaysMs - (now - lastResetAt);
    SplitShape(msLeft);
  }

  /** The row of a player on the country page: name, level, the two shares and the reset time. */
  function CountryUserOf(m: Member, now: int): (u: UserRow)
    ensures u.name == m.name && u.level == m.level
    ensures u.fightRatio <= 100 && u.economyRatio <= 100
    ensures FightPoints(m) + EconomyPoints(m) == 0 ==> u.fightRatio == 0 && u.economyRatio == 0
    ensures FightPoints(m) + EconomyPoints(m) > 0 ==> 100 <= u.fightRatio + u.economyRatio <= 101
    ensures u.reset == CountryTimeUntilReset(m.lastResetAt, now)
  {
    var fight, economy := FightPoints(m), EconomyPoints(m);
    SharesBounds(fight, economy);
    UserRow(m.name, m.level, RatioPercent(fight, fight + economy), RatioPercent(economy, fight + economy),
            CountryTimeUntilReset(m.lastResetAt, now))
  }
}
