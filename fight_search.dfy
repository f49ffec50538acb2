/**
 * The chunked search of the main page's fight-build optimiser: the builds
 * kept from a range of indices, the scan loop of one chunk, and the search
 * object that `processChunk` advances between scheduled runs until it sorts
 * the kept builds and shows the first ten.
 */
module FightSearch {
  import opened Digits
  import opened Combat
  import opened Search
  import opened Ranking
  import opened FightBuild

  /** The budget test and the loop body of the scan, as functions of the index. */
  function KeepOf(req: Request): nat -> bool
  {
    WithinBudget(req.spLimit)
  }

  function MakeOf(req: Request): nat -> Candidate
  {
    (j: nat) => CandidateAt(req, j)
  }

  /** The builds kept from the indices [lo, hi), in index order. */
  function Kept(req: Request, lo: nat, hi: nat): seq<Candidate>
    requires lo <= hi
  {
    Scan(KeepOf(req), MakeOf(req), lo, hi)
  }

  /** The indices of [lo, hi) whose builds are kept, in index order. */
  function KeptIndices(req: Request, lo: nat, hi: nat): seq<nat>
    requires lo <= hi
  {
    Accepted(KeepOf(req), lo, hi)
  }

  lemma KeptSplit(req: Request, lo: nat, mid: nat, hi: nat)
    requires lo <= mid <= hi
    ensures Kept(req, lo, hi) == Kept(req, lo, mid) + Kept(req, mid, hi)
  {
    ScanSplit(KeepOf(req), MakeOf(req), lo, mid, hi);
  }

  /**
   * The k-th kept build is the build of the k-th kept index; the kept
   * indices are exactly the indices of [lo, hi) within budget, in
   * strictly increasing order.
   */
  lemma KeptSound(req: Request, lo: nat, hi: nat)
    requires lo <= hi
    ensures |Kept(req, lo, hi)| == |KeptIndices(req, lo, hi)|
    ensures forall k :: 0 <= k < |Kept(req, lo, hi)| ==>
      var j := KeptIndices(req, lo, hi)[k];
      lo <= j < hi && Retained(req.spLimit, j) && Kept(req, lo, hi)[k] == CandidateAt(req, j)
    ensures forall a, b :: 0 <= a < b < |KeptIndices(req, lo, hi)| ==>
      KeptIndices(req, lo, hi)[a] < KeptIndices(req, lo, hi)[b]
  {
    ScanAt(KeepOf(req), MakeOf(req), lo, hi);
    AcceptedExactly(KeepOf(req), lo, hi);
  }

  /** Every index of [lo, hi) whose build fits the budget has its build kept. */
  lemma KeptComplete(req: Request, lo: nat, hi: nat, j: nat)
    requires lo <= j < hi && Retained(req.spLimit, j)
    ensures CandidateAt(req, j) in Kept(req, lo, hi)
  {
    ScanComplete(KeepOf(req), MakeOf(req), lo, hi, j);
  }

  /** Every kept build is the build of an index of [lo, hi) within budget; the lemma returns that index. */
  lemma KeptMember(req: Request, lo: nat, hi: nat, c: Candidate) returns (j: nat)
    requires lo <= hi && c in Kept(req, lo, hi)
    ensures lo <= j < hi && Retained(req.spLimit, j) && c == CandidateAt(req, j)
  {
    j := ScanMember(KeepOf(req), MakeOf(req), lo, hi, c);
  }

  /**
   * Over the whole search space, a level vector of eight levels below 11
   * appears among the kept builds exactly when its cost fits the budget.
   */
  lemma KeptExactlyAffordable(req: Request, combo: seq<nat>)
    requires |combo| == NumSkills && Levels(combo)
    ensures (exists c :: c in Kept(req, 0, TotalCombos()) && c.combo == combo) <==> ComboCost(combo) <= req.spLimit
  {
    if ComboCost(combo) <= req.spLimit {
      RetainedCombo(req.spLimit, combo);
      var j := Value(combo, NumLevels);
      KeptComplete(req, 0, TotalCombos(), j);
      assert CandidateAt(req, j).combo == combo;
    }
    if c :| c in Kept(req, 0, TotalCombos()) && c.combo == combo {
      var j := KeptMember(req, 0, TotalCombos(), c);
      assert c.combo == ComboAt(j);
    }
  }

  /** With no skill points the only kept build is the all-zero one, at cost 0. */
  lemma KeptZeroBudget(regen: real, ammo: real)
    ensures Kept(Request(0, regen, ammo), 0, TotalCombos()) == [CandidateAt(Request(0, regen, ammo), 0)]
    ensures CandidateAt(Request(0, regen, ammo), 0).totalCost == 0
    ensures AllZero(CandidateAt(Request(0, regen, ammo), 0).combo)
  {
    var req := Request(0, regen, ammo);
    IndexZeroRetained(0);
    forall j | 0 < j < TotalCombos()
      ensures !KeepOf(req)(j)
    {
      BudgetZeroRetainsOnlyZero(j);
    }
    ScanSingle(KeepOf(req), MakeOf(req), 0, TotalCombos());
  }

  /**
   * The `for` loop of `processChunk`: scans the indices [lo, hi) and appends
   * make(j) for every index j that keep accepts to `results`. The search
   * object passes the budget test and the candidate builder of its request.
   */
  method ScanChunk(keep: nat -> bool, make: nat -> Candidate, lo: nat, hi: nat, results: seq<Candidate>)
    returns (found: seq<Candidate>)
    requires lo <= hi
    ensures found == results + Scan(keep, make, lo, hi)
  {
    found := results;
    var j := lo;
    while j < hi
      invariant lo <= j <= hi
      invariant found == results + Scan(keep, make, lo, j)
    {
      if keep(j) {
        found := found + [make(j)];
      }
      j := j + 1;
    }
  }

  /** The progress cell showed 0 and then, after chunk k, the percentage of `Cursor(k)`. */
  ghost predicate Shown(progress: seq<int>)
  {
    && |progress| >= 1 && progress[0] == 0
    && forall k :: 1 <= k < |progress| ==> progress[k] == Percent(Cursor(k))
  }

  /** What `Shown` describes is 0 followed by `Percents`. */
  lemma ShownIsPercents(progress: seq<int>)
    requires Shown(progress)
    ensures progress == [0] + Percents(|progress| - 1)
  {
    var ps := Percents(|progress| - 1);
    PercentsAt(|progress| - 1);
    forall k | 0 <= k < |progress|
      ensures progress[k] == ([0] + ps)[k]
    {
      if k > 0 {
        assert ([0] + ps)[k] == ps[k - 1] == Percent(Cursor(k));
      }
    }
  }

  /**
   * The invariant of a build search, on plain values: after n chunks the
   * cursor stands at `Cursor(n)` and the progress cell has shown 0 and then
   * the percentage of each chunk; the results are the scan of the indices
   * scanned so far and, once the last index is scanned, they are sorted and
   * the first ten are shown.
   */
  ghost predicate SearchState(keep: nat -> bool, make: nat -> Candidate, i: nat, topResults: seq<Candidate>,
                              progress: seq<int>, shown: seq<Candidate>, done: bool)
  {
    && 1 <= |progress| <= NumChunks() + 1
    && Shown(progress) && i == Cursor(|progress| - 1)
    && (done <==> i == TotalCombos())
    && (if done then topResults == SortDesc(Scan(keep, make, 0, TotalCombos())) && shown == Top(topResults, 10)
        else topResults == Scan(keep, make, 0, i) && shown == [])
  }

  /** A chunk has been scanned and reported; the final sort has not yet run. */
  ghost predicate ScannedState(keep: nat -> bool, make: nat -> Candidate, i: nat, topResults: seq<Candidate>,
                               progress: seq<int>)
  {
    && 2 <= |progress| <= NumChunks() + 1
    && Shown(progress) && i == Cursor(|progress| - 1)
    && topResults == Scan(keep, make, 0, i)
  }

  /** Scanning the next chunk extends the results and reports the next percentage. */
  lemma AdvanceStep(keep: nat -> bool, make: nat -> Candidate, i: nat, i': nat, topResults: seq<Candidate>,
                    progress: seq<int>)
    requires SearchState(keep, make, i, topResults, progress, [], false)
    requires i' == Min(i + ChunkSize, TotalCombos())
    ensures i < i' <= TotalCombos()
    ensures ScannedState(keep, make, i', topResults + Scan(keep, make, i, i'), progress + [Percent(i')])
  {
    CursorShape(|progress| - 1);
    ScanSplit(keep, make, 0, i, i');
  }

  /** A search that has run to the end has shown the percentage of every chunk. */
  lemma FinishedAfterAllChunks(progress: seq<int>)
    requires 1 <= |progress| <= NumChunks() + 1 && Cursor(|progress| - 1) == TotalCombos()
    ensures |progress| - 1 == NumChunks()
  {
    CursorShape(|progress| - 1);
  }

  /**
   * The state of one build search. Each call of `ProcessChunk` stands for one
   * scheduled run of `processChunk`: it scans up to `ChunkSize` indices,
   * appends the progress percentage written into the table and, after the
   * last index, sorts the kept builds and shows the first ten.
   */
  class BuildSearch {
    /** The budget test and the candidate builder of the loop body, held as values. */
    const keep: nat -> bool
    const make: nat -> Candidate
    /** The next index to scan. */
    var i: nat
    var topResults: seq<Candidate>
    /** Every percentage written into the result table so far, in order. */
    var progress: seq<int>
    /** The rows of the rendered result table; empty until the search ends. */
    var shown: seq<Candidate>
    var done: bool

    ghost predicate Valid()
      reads this
    {
      SearchState(keep, make, i, topResults, progress, shown, done)
    }

    ghost predicate Scanned()
      reads this
    {
      ScannedState(keep, make, i, topResults, progress) && shown == [] && !done
    }

    /** The table shows "0%" before the first chunk runs. */
    constructor (keep: nat -> bool, make: nat -> Candidate)
      ensures Valid() && this.keep == keep && this.make == make
      ensures i == 0 && topResults == [] && progress == [0] && shown == [] && !done
    {
      this.keep := keep;
      this.make := make;
      i := 0;
      topResults := [];
      progress := [0];
      shown := [];
      done := false;
      new;
      CursorShape(0);
    }

    /** Scan the next chunk and write its percentage. */
    method Advance()
      requires Valid() && !done
      modifies this
      ensures Scanned()
      ensures old(i) < i == Min(old(i) + ChunkSize, TotalCombos())
      ensures topResults == old(topResults) + Scan(keep, make, old(i), i)
      ensures progress == old(progress) + [Percent(i)]
    {
      var end := Min(i + ChunkSize, TotalCombos());
      AdvanceStep(keep, make, i, end, topResults, progress);
      topResults := ScanChunk(keep, make, i, end, topResults);
      i := end;
      progress := progress + [Percent(i)];
    }

    /** After the last index: sort by descending damage and show the first ten rows. */
    method Finish()
      requires Scanned() && i == TotalCombos()
      modifies this
      ensures Valid() && done && i == old(i) && progress == old(progress)
      ensures topResults == SortDesc(old(topResults)) && shown == Top(topResults, 10)
    {
      topResults, shown, done := SortDesc(topResults), Top(SortDesc(topResults), 10), true;
    }

    method ProcessChunk()
      requires Valid() && !done
      modifies this
      ensures Valid()
      ensures old(i) < i == Min(old(i) + ChunkSize, TotalCombos())
      ensures progress == old(progress) + [Percent(i)]
      ensures !done ==> topResults == old(topResults) + Scan(keep, make, old(i), i) && shown == []
      ensures done ==> shown == Top(SortDesc(Scan(keep, make, 0, TotalCombos())), 10)
    {
      Advance();
      if i == TotalCombos() {
        Finish();
      }
    }

    /**
     * The whole search: `NumChunks()` chunks, each followed by its
     * percentage, then the ten best kept builds.
     */
    method Run()
      requires Valid() && !done
      modifies this
      ensures Valid() && done
      ensures shown == Top(SortDesc(Scan(keep, make, 0, TotalCombos())), 10)
      ensures Shown(progress) && |progress| == NumChunks() + 1
    {
      while !done
        invariant Valid()
        decreases TotalCombos() - i
      {
        ProcessChunk();
      }
      FinishedAfterAllChunks(progress);
    }
  }

  /**
   * `calcFightBuilds` followed by every scheduled chunk: the rows shown are
   * the ten most damaging builds within budget, and the progress cell shows
   * 0 and then the percentage after each chunk.
   */
  method FightBuildSearch(spLimit: int, regen: real, ammo: real) returns (shown: seq<Candidate>, progress: seq<int>)
    ensures shown == Top(SortDesc(Kept(Request(spLimit, regen, ammo), 0, TotalCombos())), 10)
    ensures progress == [0] + Percents(NumChunks())
  {
    var req := Request(spLimit, regen, ammo);
    var search := new BuildSearch(KeepOf(req), MakeOf(req));
    search.Run();
    shown, progress := search.shown, search.progress;
    ShownIsPercents(progress);
  }
}
