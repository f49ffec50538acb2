/**
 * The final selection step of both fight-build searches: a sort of the kept
 * builds by descending daily damage (`sort((a, b) => b.daily_damage -
 * a.daily_damage)`) followed by `slice(0, 10)`.
 */
module Ranking {
  import opened FightBuild

  /** Daily damage never increases from left to right. */
  ghost predicate SortedDesc(s: seq<Candidate>)
  {
    forall i, j :: 0 <= i < j < |s| ==> s[i].dailyDamage >= s[j].dailyDamage
  }

  /**
   * Inserts x in front of the first build whose damage does not exceed x's;
   * a build inserted this way stays ahead of later builds with equal damage.
   */
  function Insert(x: Candidate, s: seq<Candidate>): (r: seq<Candidate>)
    ensures multiset(r) == multiset{x} + multiset(s)
    ensures SortedDesc(s) ==> SortedDesc(r)
  {
    if s == [] || s[0].dailyDamage <= x.dailyDamage then
      [x] + s
    else
      var rest := Insert(x, s[1..]);
      assert s == [s[0]] + s[1..];
      InsertSortedStep(x, s, rest);
      [s[0]] + rest
  }

  lemma InsertSortedStep(x: Candidate, s: seq<Candidate>, rest: seq<Candidate>)
    requires s != [] && s[0].dailyDamage > x.dailyDamage
    requires multiset(rest) == multiset{x} + multiset(s[1..])
    requires SortedDesc(s) ==> SortedDesc(rest)
    ensures SortedDesc(s) ==> SortedDesc([s[0]] + rest)
  {
    if SortedDesc(s) {
      forall j | 0 <= j < |rest|
        ensures s[0].dailyDamage >= rest[j].dailyDamage
      {
        var y := rest[j];
        assert y in multiset(rest);
        if y != x {
          assert y in multiset(s[1..]);
          var m :| 0 <= m < |s[1..]| && s[1..][m] == y;
          assert s[m + 1] == y;
        }
      }
      var r := [s[0]] + rest;
      forall i, j | 0 <= i < j < |r|
        ensures r[i].dailyDamage >= r[j].dailyDamage
      {
        if i > 0 {
          assert r[i] == rest[i - 1] && r[j] == rest[j - 1];
        } else {
          assert r[j] == rest[j - 1];
        }
      }
    }
  }

  /** Insertion sort by descending damage: a sorted permutation of the input. */
  function SortDesc(s: seq<Candidate>): (r: seq<Candidate>)
    ensures multiset(r) == multiset(s)
    ensures SortedDesc(r)
  {
    if s == [] then
      []
    else
      assert s == [s[0]] + s[1..];
      Insert(s[0], SortDesc(s[1..]))
  }

  /** The first n builds (`slice(0, n)`). */
  function Top(s: seq<Candidate>, n: nat): (r: seq<Candidate>)
    ensures |r| == if |s| <= n then |s| else n
    ensures r == s[..|r|]
  {
    if |s| <= n then s else s[..n]
  }

  /**
   * The n best builds: at most n of them, sorted, drawn from the input, and
   * all of them when the input has at most n builds.
   */
  lemma TopOfSorted(s: seq<Candidate>, n: nat)
    ensures var r := Top(SortDesc(s), n);
      && |r| == (if |s| <= n then |s| else n)
      && SortedDesc(r)
      && multiset(r) <= multiset(s)
      && (|s| <= n ==> multiset(r) == multiset(s))
  {
    var sorted := SortDesc(s);
    var r := Top(sorted, n);
    assert sorted == r + sorted[|r|..];
    assert multiset(sorted) == multiset(r) + multiset(sorted[|r|..]);
  }

  /** Every build the top n leave out does no more damage than the last one shown. */
  lemma TopLeavesOutNoBetter(s: seq<Candidate>, n: nat, x: Candidate)
    requires n > 0 && x in s && x !in Top(SortDesc(s), n)
    ensures |Top(SortDesc(s), n)| == n
    ensures x.dailyDamage <= Top(SortDesc(s), n)[n - 1].dailyDamage
  {
    var sorted := SortDesc(s);
    var r := Top(sorted, n);
    assert x in multiset(s);
    assert x in multiset(sorted);
    var m :| 0 <= m < |sorted| && sorted[m] == x;
    assert forall i :: 0 <= i < |r| ==> r[i] == sorted[i] && r[i] in r;
    assert m >= |r|;
    assert sorted[n - 1] == r[n - 1];
  }
}
