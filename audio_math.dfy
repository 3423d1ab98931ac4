/** The numeric side of the JavaScript the avatars and utilities run: the averaging every
    lip-sync and level routine performs on a frequency-magnitude array
    (`data.reduce((a, b) => a + b) / data.length` or the equivalent summing loop), division with
    its infinities and NaN, and the random pick `Math.floor(Math.random() * n)`. */
module AudioMath {

  /** Sum of the first |s| samples, peeled from the back as a left-to-right loop accumulates it. */
  function Sum(s: seq<int>): int
  {
    if s == [] then 0 else Sum(s[..|s| - 1]) + s[|s| - 1]
  }

  function Mean(s: seq<int>): real
    requires |s| > 0
  {
    Sum(s) as real / |s| as real
  }

  /** Every sample is a byte magnitude, as `getByteFrequencyData` produces. */
  predicate InByteRange(s: seq<int>)
  {
    forall i :: 0 <= i < |s| ==> 0 <= s[i] <= 255
  }

  lemma {:induction false} SumOfBytes(s: seq<int>)
    requires InByteRange(s)
    ensures 0 <= Sum(s) <= 255 * |s|
    decreases |s|
  {
    if s != [] {
      SumOfBytes(s[..|s| - 1]);
    }
  }

  /** The mean of byte magnitudes is itself a byte magnitude. */
  lemma MeanOfBytes(s: seq<int>)
    requires |s| > 0 && InByteRange(s)
    ensures 0.0 <= Mean(s) <= 255.0
  {
    SumOfBytes(s);
    var n := |s| as real;
    assert Mean(s) * n == Sum(s) as real;
  }

  /** Over inputs of one length, the mean follows the sum. */
  lemma MeanMonotone(a: seq<int>, b: seq<int>)
    requires |a| == |b| > 0 && Sum(a) <= Sum(b)
    ensures Mean(a) <= Mean(b)
  {
    var n := |a| as real;
    var x, y := Sum(a) as real, Sum(b) as real;
    assert (y / n - x / n) * n == y - x;
  }

  /** Appending one sample moves the running sum by exactly that sample. */
  lemma SumSnoc(s: seq<int>, x: int)
    ensures Sum(s + [x]) == Sum(s) + x
  {
    assert (s + [x])[..|s|] == s;
  }

  /** A JavaScript number as a division leaves it: finite, an infinity, or NaN. */
  datatype Number = Finite(value: real) | PosInfinity | NegInfinity | NaN

  /** `a / b` on doubles, rounding aside: a zero divisor gives an infinity signed like the
      dividend, and `0 / 0` gives NaN. */
  function Divide(a: real, b: real): (r: Number)
    ensures r.Finite? <==> b != 0.0
    ensures r.Finite? ==> r.value * b == a
    ensures r == PosInfinity <==> b == 0.0 && a > 0.0
    ensures r == NegInfinity <==> b == 0.0 && a < 0.0
    ensures r == NaN <==> b == 0.0 && a == 0.0
  {
    if b != 0.0 then Finite(a / b)
    else if a > 0.0 then PosInfinity
    else if a < 0.0 then NegInfinity
    else NaN
  }

  /** `x < y`; every comparison with NaN is false. */
  predicate Below(x: Number, y: real)
  {
    match x
    case Finite(v) => v < y
    case NegInfinity => true
    case _ => false
  }

  /** `x > y`; every comparison with NaN is false. */
  predicate Above(x: Number, y: real)
  {
    match x
    case Finite(v) => v > y
    case PosInfinity => true
    case _ => false
  }

  /** `Math.floor(rand * n)` for a draw `rand` of `Math.random()`: always an index of a list of
      `n` entries. */
  function RandomIndex(rand: real, n: nat): (i: nat)
    requires 0.0 <= rand < 1.0 && n > 0
    ensures i < n
  {
    assert rand * n as real < n as real;
    (rand * n as real).Floor
  }
}
