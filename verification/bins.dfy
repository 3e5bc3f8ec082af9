/** Frequency snapshots: the byte-valued bins an analyser node writes on every
    frame, and the sums and means that every later stage is built from. */
module Bins {

  /** One frequency bin, as stored in a `Uint8Array`. */
  type byte = x: int | 0 <= x < 256

  /** The largest amplitude a bin can hold. */
  const MaxAmplitude: int := 255

  /** Sum of the bins, accumulated left to right as `reduce((s, v) => s + v, 0)` does. */
  function Sum(s: seq<byte>): (r: int)
    ensures 0 <= r <= MaxAmplitude * |s|
  {
    if |s| == 0 then 0 else Sum(s[..|s| - 1]) + s[|s| - 1]
  }

  /** Arithmetic mean of a non-empty run of bins: its sum divided by its length. */
  function Mean(s: seq<byte>): (m: real)
    requires |s| > 0
    ensures 0.0 <= m <= MaxAmplitude as real
    ensures m * |s| as real == Sum(s) as real
  {
    QuotientBounds(Sum(s) as real, |s| as real, MaxAmplitude as real);
    Sum(s) as real / |s| as real
  }

  /** A quotient of a total by a positive count stays within the per-item ceiling. */
  lemma QuotientBounds(t: real, n: real, c: real)
    requires n > 0.0 && 0.0 <= t <= c * n
    ensures 0.0 <= t / n <= c
    ensures (t / n) * n == t
  {
    var q := t / n;
    assert q * n == t;
    if q > c {
      assert q * n > c * n;
    }
  }

  /** A snapshot of `n` silent bins, as `new Uint8Array(n)` allocates it. */
  function Zeros(n: nat): (s: seq<byte>)
    ensures |s| == n
    ensures forall i :: 0 <= i < n ==> s[i] == 0
  {
    seq(n, _ => 0)
  }

  /** Summing a concatenation sums the parts: how a sum over the whole
      snapshot splits into sums over the frequency bands. */
  lemma {:induction false} SumConcat(a: seq<byte>, b: seq<byte>)
    ensures Sum(a + b) == Sum(a) + Sum(b)
    decreases |b|
  {
    if |b| == 0 {
      assert a + b == a;
    } else {
      var ab := a + b;
      assert ab[..|ab| - 1] == a + b[..|b| - 1];
      assert ab[|ab| - 1] == b[|b| - 1];
      SumConcat(a, b[..|b| - 1]);
    }
  }

  /** The sum is zero exactly when every bin is silent. */
  lemma {:induction false} SumZeroIff(s: seq<byte>)
    ensures Sum(s) == 0 <==> forall i :: 0 <= i < |s| ==> s[i] == 0
  {
    if |s| > 0 {
      var p := s[..|s| - 1];
      SumZeroIff(p);
      assert forall i :: 0 <= i < |p| ==> p[i] == s[i];
    }
  }

  /** The sum of `n` copies of one amplitude. */
  lemma {:induction false} SumConstant(n: nat, v: byte)
    ensures Sum(seq(n, _ => v)) == n * v
  {
    if n > 0 {
      var s: seq<byte> := seq(n, _ => v);
      assert s[..n - 1] == seq(n - 1, _ => v);
      SumConstant(n - 1, v);
    }
  }

  /** The mean is zero exactly when every bin is silent. */
  lemma MeanZeroIff(s: seq<byte>)
    requires |s| > 0
    ensures Mean(s) == 0.0 <==> forall i :: 0 <= i < |s| ==> s[i] == 0
  {
    SumZeroIff(s);
  }

  /** Multiplying both sides by a positive length keeps a strict comparison. */
  lemma ScaleLess(a: real, b: real, n: real)
    requires n > 0.0
    ensures a < b <==> a * n < b * n
  {
    assert b * n - a * n == (b - a) * n;
    if a < b {
      assert (b - a) * n > 0.0;
    } else {
      assert (a - b) * n >= 0.0;
    }
  }

  /** For a value `m` with `m * n == total`, comparing `m` against an integer
      threshold is comparing `total` against the threshold times `n`. */
  lemma ThresholdOnTotal(m: real, total: int, n: int, t: int)
    requires n > 0
    requires m * n as real == total as real
    ensures m < t as real <==> total < t * n
    ensures m > t as real <==> total > t * n
  {
    ScaleLess(m, t as real, n as real);
    ScaleLess(t as real, m, n as real);
    assert (t * n) as real == t as real * n as real;
  }

  /** A threshold on the mean is a threshold on the integer sum:
      `mean < t` holds exactly when `sum < t * length`, and likewise for `>`. */
  lemma MeanThresholdIff(s: seq<byte>, t: int)
    requires |s| > 0
    ensures Mean(s) < t as real <==> Sum(s) < t * |s|
    ensures Mean(s) > t as real <==> Sum(s) > t * |s|
  {
    MeanThresholdOn(s, Mean(s), Sum(s), |s|, t);
  }

  /** `MeanThresholdIff` over named values, which keeps the mean's quotient
      out of the arithmetic the solver has to do. */
  lemma MeanThresholdOn(s: seq<byte>, m: real, total: int, n: int, t: int)
    requires |s| > 0 && m == Mean(s) && total == Sum(s) && n == |s|
    ensures m < t as real <==> total < t * n
    ensures m > t as real <==> total > t * n
  {
    assert m * n as real == total as real;
    ThresholdOnTotal(m, total, n, t);
  }
}
