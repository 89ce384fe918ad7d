/**
 * The rejection threshold of ShufflePassword (src/password_gen.c) and the
 * counting fact that makes it unbiased: the threshold is a multiple of the
 * range, so among the accepted 32-bit values every residue has the same
 * number of preimages.
 */
module RejectionSampling {

  import opened Common

  /** threshold = MAXDWORD - (MAXDWORD % range); draws at or above it are rejected. */
  function Threshold(range: int): (t: int)
    requires 1 <= range <= MaxDword
    ensures range <= t <= MaxDword
    ensures MaxDword - t < range
  {
    var q := MaxDword / range;
    assert MaxDword == q * range + MaxDword % range;
    assert q >= 1 by {
      if q <= 0 { MulAtLeast(1 - q, range); }
    }
    MulAtLeast(q, range);
    MaxDword - MaxDword % range
  }

  /**
   * The threshold is a whole number of ranges: the accepted draws [0, threshold)
   * split into threshold / range complete blocks of the targets 0 .. range-1.
   */
  lemma ThresholdIsMultiple(range: int)
    requires 1 <= range <= MaxDword
    ensures Threshold(range) % range == 0
    ensures Threshold(range) == Threshold(range) / range * range
  {
    var q := MaxDword / range;
    assert MaxDword == q * range + MaxDword % range;
    DivUnique(q * range, range, q, 0);
  }

  /** The values in [0, n) whose residue modulo m is j. */
  function Hits(n: int, m: int, j: int): set<int>
    requires m >= 1
  {
    set r | 0 <= r < n && r % m == j
  }

  /** The accepted draws (below the threshold) that select target j. */
  function Preimages(range: int, j: int): set<int>
    requires 1 <= range <= MaxDword
  {
    Hits(Threshold(range), range, j)
  }

  /** One more block of m values adds exactly one value with residue j: n + j. */
  lemma HitsStep(n: int, m: int, j: int, q: nat)
    requires m >= 1 && 0 <= j < m && n == q * m
    ensures Hits(n + m, m, j) == Hits(n, m, j) + {n + j}
    ensures n + j !in Hits(n, m, j)
  {
    DivUnique(n + j, m, q, j);
    forall r | r in Hits(n + m, m, j) ensures r in Hits(n, m, j) || r == n + j {
      if r >= n {
        DivUnique(r, m, q, r - n);
      }
    }
  }

  /** Below k * m, every residue j of m is hit by exactly k values. */
  lemma {:induction false} ResidueCount(k: nat, m: int, j: int)
    requires m >= 1 && 0 <= j < m
    ensures |Hits(k * m, m, j)| == k
  {
    if k == 0 {
      assert Hits(k * m, m, j) == {};
    } else {
      var n := (k - 1) * m;
      assert k * m == n + m;
      HitsStep(n, m, j, k - 1);
      ResidueCount(k - 1, m, j);
    }
  }

  lemma MulAtLeast(x: int, m: int)
    requires x >= 1 && m >= 1
    ensures x * m >= m
  {
    if x > 1 {
      MulAtLeast(x - 1, m);
      assert x * m == (x - 1) * m + m;
    }
  }

  /** Euclidean division is unique: r = a * m + b with 0 <= b < m fixes quotient and remainder. */
  lemma DivUnique(r: int, m: int, a: int, b: int)
    requires m >= 1 && 0 <= b < m && r == a * m + b
    ensures r / m == a && r % m == b
  {
    var q, s := r / m, r % m;
    assert r == q * m + s;
    assert (a - q) * m == s - b;
    if a - q >= 1 {
      MulAtLeast(a - q, m);
    } else if q - a >= 1 {
      MulAtLeast(q - a, m);
    }
  }

  /**
   * The uniformity fact behind the shuffle: for every range and every target
   * j in [0, range), exactly threshold / range accepted draws select j.
   */
  lemma EqualPreimages(range: int, j: int)
    requires 1 <= range <= MaxDword && 0 <= j < range
    ensures |Preimages(range, j)| == Threshold(range) / range
  {
    var t := Threshold(range);
    var k := t / range;
    ThresholdIsMultiple(range);
    ResidueCount(k, range, j);
  }

  /**
   * The worked example for range 60: MAXDWORD % 60 is 15 (not 16), so the
   * threshold is 4294967280, the accepted draws are [0, 4294967279], and each
   * target has 71582788 of them.
   */
  lemma ThresholdForRange60()
    ensures MaxDword % 60 == 15
    ensures Threshold(60) == 4294967280
    ensures Threshold(60) / 60 == 71582788
  {
  }
}
