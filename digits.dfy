/**
 * Decoding of a search index into a vector of skill levels, as `indexToCombo`
 * does it: the index is written in base `b` with `n` digits, most significant
 * digit first.
 */
module Digits {

  /** b to the power n. */
  function Pow(b: nat, n: nat): (r: nat)
    ensures b > 0 ==> r > 0
  {
    if n == 0 then 1 else b * Pow(b, n - 1)
  }

  /**
   * The digit vector that `indexToCombo(index, n, b)` returns: the last digit
   * is `index mod b` and the first n - 1 digits decode `index div b`.
   */
  function Decode(index: nat, n: nat, b: nat): (combo: seq<nat>)
    requires b > 0
    ensures |combo| == n
    ensures forall k :: 0 <= k < n ==> combo[k] < b
    decreases n
  {
    if n == 0 then [] else Decode(index / b, n - 1, b) + [index % b]
  }

  /** The number a digit vector denotes in base b, most significant digit first. */
  function Value(combo: seq<nat>, b: nat): nat
  {
    if combo == [] then 0 else Value(combo[..|combo| - 1], b) * b + combo[|combo| - 1]
  }

  /** Every digit of the vector is a base-b digit. */
  ghost predicate Digits(combo: seq<nat>, b: nat)
  {
    forall k :: 0 <= k < |combo| ==> combo[k] < b
  }

  /** Every digit of the vector is 0. */
  ghost predicate AllZero(combo: seq<nat>)
  {
    forall k :: 0 <= k < |combo| ==> combo[k] == 0
  }

  /**
   * The loop of `indexToCombo`: each round puts `index % numCols` in front of
   * the vector and replaces `index` by `floor(index / numCols)`.
   */
  method IndexToCombo(index: nat, numRows: nat, numCols: nat) returns (combo: seq<nat>)
    requires numCols > 0
    ensures combo == Decode(index, numRows, numCols)
    ensures |combo| == numRows && Digits(combo, numCols)
    ensures Value(combo, numCols) == index % Pow(numCols, numRows)
  {
    combo := [];
    var rest: nat := index;
    var i := 0;
    while i < numRows
      invariant 0 <= i <= numRows
      invariant Decode(index, numRows, numCols) == Decode(rest, numRows - i, numCols) + combo
    {
      assert Decode(rest, numRows - i, numCols)
          == Decode(rest / numCols, numRows - i - 1, numCols) + [rest % numCols];
      combo := [rest % numCols] + combo;
      rest := rest / numCols;
      i := i + 1;
    }
    ValueOfDecode(index, numRows, numCols);
  }

  /** Euclidean division is determined by its defining equation. */
  lemma DivModUnique(x: int, d: int, q: int, r: int)
    requires d > 0 && 0 <= r < d && x == q * d + r
    ensures x / d == q && x % d == r
  {
    var q', r' := x / d, x % d;
    if q' > q {
      MulAtLeast(q' - q, d, q', q);
      assert false;
    } else if q' < q {
      MulAtLeast(q - q', d, q, q');
      assert false;
    }
  }

  lemma MulAtLeast(k: int, d: int, hi: int, lo: int)
    requires k >= 1 && d > 0 && k == hi - lo
    ensures hi * d - lo * d >= d
  {
    assert hi * d - lo * d == (k - 1) * d + d;
    assert (k - 1) * d >= 0;
  }

  lemma MulLe(a: int, c: int, b: int)
    requires a <= c && b >= 0
    ensures a * b <= c * b
  {
    assert c * b - a * b == (c - a) * b;
  }

  lemma Regroup(x: int, q: int, b: int, r: int, q2: int, m: int, r2: int)
    requires x == q * b + r && q == q2 * m + r2
    ensures x == q2 * (b * m) + (r2 * b + r)
  {
    assert q * b == q2 * m * b + r2 * b;
  }

  lemma LowerPartBound(b: int, m: int, r2: int, r: int)
    requires 0 <= r < b && 0 <= r2 < m
    ensures r2 * b + r < b * m
  {
    MulLe(r2, m - 1, b);
    assert (m - 1) * b == b * m - b;
  }

  /** Peeling the lowest digit off `x mod (b * m)`. */
  lemma DivModStep(x: nat, b: nat, m: nat)
    requires b > 0 && m > 0
    ensures (x / b) % m * b + x % b == x % (b * m)
  {
    var q, r := x / b, x % b;
    var q2, r2 := q / m, q % m;
    Regroup(x, q, b, r, q2, m, r2);
    LowerPartBound(b, m, r2, r);
    DivModUnique(x, b * m, q2, r2 * b + r);
  }

  /** The decoded digits denote the index modulo b^n. */
  lemma {:induction false} ValueOfDecode(index: nat, n: nat, b: nat)
    requires b > 0
    ensures Value(Decode(index, n, b), b) == index % Pow(b, n)
    decreases n
  {
    if n > 0 {
      var q, r := index / b, index % b;
      var init := Decode(q, n - 1, b);
      var c := Decode(index, n, b);
      assert c == init + [r];
      assert c[..|c| - 1] == init;
      assert Value(c, b) == Value(init, b) * b + r;
      ValueOfDecode(q, n - 1, b);
      var p := Pow(b, n - 1);
      DivModStep(index, b, p);
      assert Pow(b, n) == b * p;
    }
  }

  /** A vector of base-b digits denotes a number below b^|combo|. */
  lemma {:induction false} ValueBound(combo: seq<nat>, b: nat)
    requires b > 0 && Digits(combo, b)
    ensures Value(combo, b) < Pow(b, |combo|)
  {
    if combo != [] {
      var init, last := combo[..|combo| - 1], combo[|combo| - 1];
      assert Digits(init, b) by {
        forall k | 0 <= k < |init| ensures init[k] < b {
          assert init[k] == combo[k];
        }
      }
      ValueBound(init, b);
      LowerPartBound(b, Pow(b, |combo| - 1), Value(init, b), last);
    }
  }

  /** Encoding a digit vector and decoding it again gives the vector back. */
  lemma {:induction false} DecodeOfValue(combo: seq<nat>, b: nat)
    requires b > 0 && Digits(combo, b)
    ensures Decode(Value(combo, b), |combo|, b) == combo
  {
    if combo != [] {
      var init, last := combo[..|combo| - 1], combo[|combo| - 1];
      var v := Value(combo, b);
      DivModUnique(v, b, Value(init, b), last);
      DecodeOfValue(init, b);
      assert combo == init + [last];
    }
  }

  /** Below b^n, decoding is inverted by Value. */
  lemma DecodeRoundTrip(index: nat, n: nat, b: nat)
    requires b > 0 && index < Pow(b, n)
    ensures Value(Decode(index, n, b), b) == index
  {
    ValueOfDecode(index, n, b);
    DivModUnique(index, Pow(b, n), 0, index);
  }

  /** Distinct indices below b^n decode to distinct digit vectors. */
  lemma DecodeInjective(x: nat, y: nat, n: nat, b: nat)
    requires b > 0 && x < Pow(b, n) && y < Pow(b, n) && x != y
    ensures Decode(x, n, b) != Decode(y, n, b)
  {
    DecodeRoundTrip(x, n, b);
    DecodeRoundTrip(y, n, b);
  }

  /** Index 0 decodes to all zeros. */
  lemma {:induction false} DecodeZero(n: nat, b: nat)
    requires b > 0
    ensures AllZero(Decode(0, n, b))
  {
    if n > 0 {
      DecodeZero(n - 1, b);
    }
  }

  /** An all-zero vector denotes 0. */
  lemma {:induction false} ValueOfZeros(combo: seq<nat>, b: nat)
    ensures AllZero(combo) ==> Value(combo, b) == 0
  {
    if combo != [] {
      ValueOfZeros(combo[..|combo| - 1], b);
    }
  }

  /** Among indices below b^n, only 0 decodes to the all-zero vector. */
  lemma OnlyZeroDecodesToZeros(index: nat, n: nat, b: nat)
    requires b > 0 && index < Pow(b, n)
    ensures AllZero(Decode(index, n, b)) <==> index == 0
  {
    var c := Decode(index, n, b);
    if index == 0 {
      DecodeZero(n, b);
    } else {
      ValueOfZeros(c, b);
      DecodeRoundTrip(index, n, b);
    }
  }
}
