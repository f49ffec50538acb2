/**
 * The enumeration shared by both fight-build searches: the index space
 * [0, 11^8), the budget filter on a decoded index, the scan of a range of
 * indices and the progress percentage reported after each chunk.
 */
module Search {
  import opened Digits
  import opened Combat

  /** Combinations handled per chunk before control is yielded (`chunkSize`). */
  const ChunkSize: nat := 50000

  /**
   * The size of the index space, `Math.pow(numLevels, numSkills)`, as a
   * numeral; `TotalCombosIsPow` shows it equals 11^8.
   */
  function TotalCombos(): (r: nat)
    ensures r > 0
  {
    214358881
  }

  lemma TotalCombosIsPow()
    ensures TotalCombos() == Pow(11, 8) == Pow(NumLevels, NumSkills)
  {
    assert Pow(11, 4) == 14641;
  }

  function Min(a: int, b: int): int
  {
    if a <= b then a else b
  }

  /** The level vector of index j: its NumSkills base-NumLevels digits, written as numerals. */
  function ComboAt(j: nat): (combo: seq<nat>)
    ensures |combo| == NumSkills && Levels(combo)
  {
    Decode(j, 8, 11)
  }

  /** Index j survives the budget filter: its summed cost does not exceed the budget. */
  predicate Retained(spLimit: int, j: nat)
  {
    ComboCost(ComboAt(j)) <= spLimit
  }

  /**
   * The progress figure reported at cursor i: floor(i / totalCombos * 100).
   * The divisor is written as the numeral `TotalCombos()` returns.
   */
  function Percent(i: nat): int
  {
    ((i as real / 214358881.0) * 100.0).Floor
  }

  /** Progress starts at 0, ends at 100 and never decreases as the cursor advances. */
  lemma PercentShape(i: nat, i': nat)
    requires i <= i' <= TotalCombos()
    ensures Percent(0) == 0 && Percent(TotalCombos()) == 100
    ensures 0 <= Percent(i) <= Percent(i') <= 100
  {
    assert i as real / 214358881.0 <= i' as real / 214358881.0;
  }

  /** The budget test of the scan loop as a value, for the loops that take it as a parameter. */
  function WithinBudget(spLimit: int): nat -> bool
  {
    (j: nat) => Retained(spLimit, j)
  }

  /**
   * Where the cursor stands after n chunks: each chunk moves it to
   * `min(i + chunkSize, totalCombos)` from 0, written with numerals.
   */
  function Cursor(n: nat): nat
  {
    Min(n * 50000, 214358881)
  }

  /** The number of chunks a full search runs: the first n at which the cursor reaches the end. */
  function NumChunks(): nat
  {
    4288
  }

  /** After the last chunk the cursor stands at the end; after any earlier one it stands a whole chunk further. */
  lemma CursorShape(n: nat)
    ensures n < NumChunks() ==> Cursor(n) == n * ChunkSize < TotalCombos()
    ensures n < NumChunks() ==> Cursor(n + 1) == Min(Cursor(n) + ChunkSize, TotalCombos())
    ensures n >= NumChunks() ==> Cursor(n) == TotalCombos()
  {
  }

  /** The percentages reported after each of the first n chunks. */
  function Percents(n: nat): (ps: seq<int>)
    ensures |ps| == n
  {
    if n == 0 then [] else Percents(n - 1) + [Percent(Cursor(n))]
  }

  /** The k-th reported percentage is that of the cursor after chunk k + 1. */
  lemma {:induction false} PercentsAt(n: nat)
    ensures forall k :: 0 <= k < n ==> Percents(n)[k] == Percent(Cursor(k + 1))
  {
    if n > 0 {
      PercentsAt(n - 1);
      assert forall k :: 0 <= k < n - 1 ==> Percents(n)[k] == Percents(n - 1)[k];
    }
  }

  /**
   * The reported percentages never decrease, stay within 0..100 and the last
   * of a full search is 100.
   */
  lemma PercentsShape(n: nat)
    ensures forall a, b :: 0 <= a <= b < n ==> 0 <= Percents(n)[a] <= Percents(n)[b] <= 100
    ensures n == NumChunks() ==> Percents(n)[n - 1] == 100
  {
    PercentsAt(n);
    var ps := Percents(n);
    forall a, b | 0 <= a <= b < n
      ensures 0 <= ps[a] <= ps[b] <= 100
    {
      PercentShape(Cursor(a + 1), Cursor(b + 1));
      PercentShape(Cursor(b + 1), TotalCombos());
    }
    if n == NumChunks() {
      PercentShape(Cursor(n), TotalCombos());
    }
  }

  /** The budget filter, read back on level vectors: exactly the vectors within budget are retained. */
  lemma RetainedCombo(spLimit: int, combo: seq<nat>)
    requires |combo| == NumSkills && Levels(combo)
    ensures Value(combo, NumLevels) < TotalCombos()
    ensures ComboAt(Value(combo, NumLevels)) == combo
    ensures Retained(spLimit, Value(combo, NumLevels)) <==> ComboCost(combo) <= spLimit
  {
    TotalCombosIsPow();
    ValueBound(combo, NumLevels);
    DecodeOfValue(combo, NumLevels);
  }

  /** Index 0 is the all-zero vector at cost 0, so any non-negative budget retains it. */
  lemma IndexZeroRetained(spLimit: int)
    requires spLimit >= 0
    ensures AllZero(ComboAt(0))
    ensures ComboCost(ComboAt(0)) == 0 && Retained(spLimit, 0)
  {
    DecodeZero(NumSkills, NumLevels);
    ComboCostZero(ComboAt(0));
  }

  /** With a budget of 0, index 0 is the only index retained. */
  lemma BudgetZeroRetainsOnlyZero(j: nat)
    requires j < TotalCombos()
    ensures Retained(0, j) <==> j == 0
  {
    TotalCombosIsPow();
    ComboCostZero(ComboAt(j));
    OnlyZeroDecodesToZeros(j, 8, 11);
  }

  /**
   * The scan loop read as a value: make(j) for every index j of [lo, hi)
   * that keep accepts, in index order.
   */
  function Scan<T>(keep: nat -> bool, make: nat -> T, lo: nat, hi: nat): seq<T>
    requires lo <= hi
    decreases hi - lo
  {
    if lo == hi then []
    else Scan(keep, make, lo, hi - 1) + (if keep(hi - 1) then [make(hi - 1)] else [])
  }

  /** The indices of [lo, hi) that keep accepts, in index order. */
  function Accepted(keep: nat -> bool, lo: nat, hi: nat): seq<nat>
    requires lo <= hi
    decreases hi - lo
  {
    if lo == hi then []
    else Accepted(keep, lo, hi - 1) + (if keep(hi - 1) then [hi - 1] else [])
  }

  /** Scanning [lo, mid) and then [mid, hi) yields what scanning [lo, hi) does. */
  lemma {:induction false} ScanSplit<T>(keep: nat -> bool, make: nat -> T, lo: nat, mid: nat, hi: nat)
    requires lo <= mid <= hi
    ensures Scan(keep, make, lo, hi) == Scan(keep, make, lo, mid) + Scan(keep, make, mid, hi)
    decreases hi - mid
  {
    if mid < hi {
      ScanSplit(keep, make, lo, mid, hi - 1);
    }
  }

  /** The k-th scanned value is make of the k-th accepted index. */
  lemma {:induction false} ScanAt<T>(keep: nat -> bool, make: nat -> T, lo: nat, hi: nat)
    requires lo <= hi
    ensures |Scan(keep, make, lo, hi)| == |Accepted(keep, lo, hi)|
    ensures forall k :: 0 <= k < |Accepted(keep, lo, hi)| ==>
      Scan(keep, make, lo, hi)[k] == make(Accepted(keep, lo, hi)[k])
    decreases hi - lo
  {
    if lo < hi {
      ScanAt(keep, make, lo, hi - 1);
    }
  }

  /**
   * The accepted indices are exactly the indices of [lo, hi) that keep
   * accepts, and they strictly increase.
   */
  lemma {:induction false} AcceptedExactly(keep: nat -> bool, lo: nat, hi: nat)
    requires lo <= hi
    ensures forall k :: 0 <= k < |Accepted(keep, lo, hi)| ==>
      lo <= Accepted(keep, lo, hi)[k] < hi && keep(Accepted(keep, lo, hi)[k])
    ensures forall a, b :: 0 <= a < b < |Accepted(keep, lo, hi)| ==>
      Accepted(keep, lo, hi)[a] < Accepted(keep, lo, hi)[b]
    ensures forall j :: lo <= j < hi && keep(j) ==> j in Accepted(keep, lo, hi)
    decreases hi - lo
  {
    if lo < hi {
      AcceptedExactly(keep, lo, hi - 1);
    }
  }

  /** Every accepted index of [lo, hi) contributes its value. */
  lemma {:induction false} ScanComplete<T>(keep: nat -> bool, make: nat -> T, lo: nat, hi: nat, j: nat)
    requires lo <= j < hi && keep(j)
    ensures make(j) in Scan(keep, make, lo, hi)
    decreases hi - lo
  {
    if j < hi - 1 {
      ScanComplete(keep, make, lo, hi - 1, j);
    }
  }

  /** Every scanned value is make(j) of an accepted index j of [lo, hi); the lemma returns that j. */
  lemma {:induction false} ScanMember<T>(keep: nat -> bool, make: nat -> T, lo: nat, hi: nat, x: T) returns (j: nat)
    requires lo <= hi && x in Scan(keep, make, lo, hi)
    ensures lo <= j < hi && keep(j) && x == make(j)
    decreases hi - lo
  {
    if x in Scan(keep, make, lo, hi - 1) {
      j := ScanMember(keep, make, lo, hi - 1, x);
    } else {
      j := hi - 1;
    }
  }

  /** When lo is the only accepted index of [lo, hi), the scan yields make(lo) alone. */
  lemma {:induction false} ScanSingle<T>(keep: nat -> bool, make: nat -> T, lo: nat, hi: nat)
    requires lo < hi && keep(lo)
    requires forall j :: lo < j < hi ==> !keep(j)
    ensures Scan(keep, make, lo, hi) == [make(lo)]
    decreases hi - lo
  {
    if lo + 1 < hi {
      ScanSingle(keep, make, lo, hi - 1);
    }
  }
}
