/**
 JavaScript numbers on the non-negative reals: rounding to binary64 as in section
 4.3.1 of IEEE 754-2019 (round to nearest, ties to even), the decimal text of a
 number, and the two ways this system turns a number into cents.

 The exponent is left unbounded. Every amount that occurs is zero or at least one
 cent and far below 2^1024, so neither subnormal numbers nor infinity are reached.
 */
module Binary64 {

  const TWO_52: nat := 4503599627370496
  const TWO_53: nat := 9007199254740992
  const TWO_27 := 134217728.0

  // ----- scaling by powers of two -----

  /** x * 2^k */
  function Scale(x: real, k: int): (y: real)
    ensures x >= 0.0 ==> y >= 0.0
    ensures x > 0.0 ==> y > 0.0
    decreases if k < 0 then -k else k
  {
    if k == 0 then x else if k > 0 then 2.0 * Scale(x, k - 1) else Scale(x, k + 1) / 2.0
  }

  lemma ScaleNext(x: real, k: int)
    ensures Scale(x, k + 1) == 2.0 * Scale(x, k)
  {
  }

  lemma {:induction false} ScaleSum(x: real, j: int, k: int)
    ensures Scale(Scale(x, j), k) == Scale(x, j + k)
    decreases if k < 0 then -k else k
  {
    if k == 0 {
    } else if k > 0 {
      ScaleSum(x, j, k - 1);
      ScaleNext(x, j + k - 1);
    } else {
      ScaleSum(x, j, k + 1);
      ScaleNext(x, j + k);
    }
  }

  lemma {:induction false} ScaleOrder(x: real, y: real, k: int)
    ensures x <= y <==> Scale(x, k) <= Scale(y, k)
    ensures Scale(y - x, k) == Scale(y, k) - Scale(x, k)
    decreases if k < 0 then -k else k
  {
    if k == 0 {
    } else if k > 0 {
      ScaleOrder(x, y, k - 1);
    } else {
      ScaleOrder(x, y, k + 1);
    }
  }

  lemma {:induction false} ScaleGrows(x: real, k: int, n: nat)
    requires x >= 0.0
    ensures Scale(x, k) <= Scale(x, k + n)
  {
    if n == 0 {
    } else {
      ScaleGrows(x, k, n - 1);
      ScaleNext(x, k + n - 1);
    }
  }

  lemma {:induction false} ScaleWhole(m: nat, n: nat) returns (M: nat)
    ensures M as real == Scale(m as real, n)
  {
    if n == 0 {
      M := m;
    } else {
      var H := ScaleWhole(m, n - 1);
      M := 2 * H;
    }
  }

  lemma ScaleBy13(x: real)
    ensures Scale(x, 13) == 8192.0 * x
  {
    assert Scale(x, 4) == 16.0 * x;
    assert Scale(x, 8) == 256.0 * x;
    assert Scale(x, 12) == 4096.0 * x;
  }

  lemma ScaleBy26(x: real)
    ensures Scale(x, 26) == 67108864.0 * x
  {
    var y := Scale(x, 13);
    ScaleBy13(x);
    ScaleBy13(y);
    ScaleSum(x, 13, 13);
  }

  lemma ScaleBy52(x: real)
    ensures Scale(x, 52) == 4503599627370496.0 * x
  {
    var y := Scale(x, 26);
    ScaleBy26(x);
    ScaleBy26(y);
    ScaleSum(x, 26, 26);
  }

  // ----- rounding a real to an integer -----

  function RoundHalfEven(y: real): (n: int)
    requires y >= 0.0
    ensures 0 <= n
    ensures y - 0.5 <= n as real <= y + 0.5
  {
    var f := y.Floor;
    var d := y - f as real;
    if d < 0.5 then f else if d > 0.5 then f + 1 else if f % 2 == 0 then f else f + 1
  }

  function Distance(x: real, y: real): (d: real)
    ensures d >= 0.0
  {
    if x <= y then y - x else x - y
  }

  lemma RoundHalfEvenNearest(y: real, n: int)
    requires y >= 0.0
    ensures Distance(RoundHalfEven(y) as real, y) <= Distance(n as real, y)
  {
    var r := RoundHalfEven(y);
    if n < r {
      assert n as real <= r as real - 1.0;
    } else if n > r {
      assert n as real >= r as real + 1.0;
    }
  }

  lemma ScaleDistance(x: real, y: real, k: int)
    ensures Distance(Scale(x, k), Scale(y, k)) == Scale(Distance(x, y), k)
  {
    ScaleOrder(x, y, k);
    ScaleOrder(y, x, k);
  }

  // ----- the binade of a number -----

  function BinadeUp(x: real, k: int): (b: int)
    requires Scale(x, -k) >= 1.0
    ensures 1.0 <= Scale(x, -b) < 2.0
    decreases Scale(x, -k).Floor
  {
    if Scale(x, -k) < 2.0 then k
    else
      ScaleNext(x, -k - 1);
      BinadeUp(x, k + 1)
  }

  function BinadeDown(x: real, k: int): (b: int)
    requires x > 0.0 && Scale(x, -k) < 2.0
    ensures 1.0 <= Scale(x, -b) < 2.0
    decreases (1.0 / Scale(x, -k)).Floor
  {
    if Scale(x, -k) >= 1.0 then k
    else
      ScaleNext(x, -k);
      InverseHalves(Scale(x, -k));
      BinadeDown(x, k - 1)
  }

  lemma InverseHalves(y: real)
    requires 0.0 < y < 1.0
    ensures 1.0 / (2.0 * y) == (1.0 / y) / 2.0
    ensures 1.0 / y > 1.0
  {
  }

  /** The exponent of x: the b with 2^b <= x < 2^(b+1). */
  function Binade(x: real): (b: int)
    requires x > 0.0
    ensures 1.0 <= Scale(x, -b) < 2.0
  {
    if x >= 1.0 then BinadeUp(x, 0) else BinadeDown(x, 0)
  }

  // ----- round to nearest -----

  /** The exponent of the last of the 53 significant bits of x. */
  function Quantum(x: real): (e: int)
    requires x > 0.0
    ensures TWO_52 as real <= Scale(x, -e) < TWO_53 as real
  {
    var b := Binade(x);
    BinadeBits(x, b);
    b - 52
  }

  lemma BinadeBits(x: real, b: int)
    requires 1.0 <= Scale(x, -b) < 2.0
    ensures TWO_52 as real <= Scale(x, 52 - b) < TWO_53 as real
  {
    ScaleSum(x, -b, 52);
    ScaleBy52(Scale(x, -b));
  }

  /** The binary64 number nearest to x, the even one of two. */
  function Round(x: real): (r: real)
    requires x >= 0.0
    ensures r >= 0.0
  {
    if x == 0.0 then 0.0
    else
      var e := Quantum(x);
      Scale(RoundHalfEven(Scale(x, -e)) as real, e)
  }

  ghost predicate RepresentedBy(y: real, m: int, e: int) {
    0 <= m <= TWO_53 && y == Scale(m as real, e)
  }

  ghost predicate Representable(y: real) {
    exists m, e :: RepresentedBy(y, m, e)
  }

  lemma RoundRepresentable(x: real)
    requires x >= 0.0
    ensures Representable(Round(x))
  {
    if x == 0.0 {
      assert RepresentedBy(0.0, 0, 0);
    } else {
      var e := Quantum(x);
      assert RepresentedBy(Round(x), RoundHalfEven(Scale(x, -e)), e);
    }
  }

  /** Rounding picks a nearest multiple of the quantum, at most half of it away. */
  lemma NearestMultiple(x: real, n: int)
    requires x > 0.0
    ensures Distance(Round(x), x) <= Distance(Scale(n as real, Quantum(x)), x)
    ensures Distance(Round(x), x) <= Scale(0.5, Quantum(x))
  {
    var e := Quantum(x);
    var t := Scale(x, -e);
    var r := RoundHalfEven(t) as real;
    ScaleSum(x, -e, e);
    RoundHalfEvenNearest(t, n);
    ScaleDistance(r, t, e);
    ScaleDistance(n as real, t, e);
    ScaleOrder(Distance(r, t), Distance(n as real, t), e);
    ScaleOrder(Distance(r, t), 0.5, e);
  }

  /** A number as coarse as x is a multiple of the quantum of x. */
  lemma NearestAmongCoarse(x: real, m: nat, e: int)
    requires x > 0.0 && e >= Quantum(x)
    ensures Distance(Round(x), x) <= Distance(Scale(m as real, e), x)
  {
    var q := Quantum(x);
    var M := ScaleWhole(m, e - q);
    ScaleSum(m as real, e - q, q);
    NearestMultiple(x, M);
  }

  /** A finer number is at most the start of the binade of x, itself a multiple. */
  lemma NearestAmongFine(x: real, m: nat, e: int)
    requires x > 0.0 && e < Quantum(x) && m <= TWO_53
    ensures Distance(Round(x), x) <= Distance(Scale(m as real, e), x)
  {
    var q := Quantum(x);
    ScaleGrows(m as real, e, q - 1 - e);
    ScaleOrder(m as real, TWO_53 as real, q - 1);
    ScaleSum(TWO_53 as real, -1, q);
    ScaleSum(x, -q, q);
    ScaleOrder(TWO_52 as real, Scale(x, -q), q);
    assert Scale(TWO_53 as real, -1) == TWO_52 as real;
    NearestMultiple(x, TWO_52);
  }

  /** Round to nearest: no representable number is closer to x than Round(x). */
  lemma RoundIsNearest(x: real, y: real)
    requires x >= 0.0 && Representable(y)
    ensures Distance(Round(x), x) <= Distance(y, x)
  {
    if x > 0.0 {
      var m, e :| RepresentedBy(y, m, e);
      if e >= Quantum(x) {
        NearestAmongCoarse(x, m, e);
      } else {
        NearestAmongFine(x, m, e);
      }
    }
  }

  lemma RoundIdempotent(x: real)
    requires x >= 0.0
    ensures Round(Round(x)) == Round(x)
  {
    RoundRepresentable(x);
    RoundIsNearest(Round(x), Round(x));
  }

  lemma RoundMonotone(x: real, y: real)
    requires 0.0 <= x <= y
    ensures Round(x) <= Round(y)
  {
    RoundRepresentable(x);
    RoundRepresentable(y);
    RoundIsNearest(x, Round(y));
    RoundIsNearest(y, Round(x));
  }

  /** The largest rounding error of x: 2^-53 of it. */
  function HalfUlp(x: real): (u: real) {
    x / 9007199254740992.0
  }

  /** Rounding errs by at most half a unit in the last place, relatively 2^-53. */
  lemma RoundRelativeError(x: real)
    requires x >= 0.0
    ensures Distance(Round(x), x) <= HalfUlp(x)
  {
    if x > 0.0 {
      var e := Quantum(x);
      NearestMultiple(x, 0);
      ScaleOrder(0.5, HalfUlp(Scale(x, -e)), e);
      ScaleHalfUlp(Scale(x, -e), e);
      ScaleSum(x, -e, e);
    }
  }

  lemma {:induction false} ScaleHalfUlp(x: real, k: int)
    ensures Scale(HalfUlp(x), k) == HalfUlp(Scale(x, k))
    decreases if k < 0 then -k else k
  {
    if k == 0 {
    } else if k > 0 {
      ScaleHalfUlp(x, k - 1);
    } else {
      ScaleHalfUlp(x, k + 1);
    }
  }

  /** Below 2^27 rounding errs by at most 2^-27. */
  lemma RoundAbsoluteError(x: real)
    requires 0.0 <= x < TWO_27
    ensures Distance(Round(x), x) <= 1.0 / TWO_27
  {
    if x > 0.0 {
      var e := Quantum(x);
      NearestMultiple(x, 0);
      if e > -26 {
        ScaleSum(x, 25, -e - 25);
        ScaleGrows(x, -e, e + 25);
        ScaleNext(x, 25);
        ScaleBy26(x);
        assert false;
      }
      ScaleGrows(0.5, e, -26 - e);
      ScaleSum(0.5, -26, 26);
      ScaleBy26(Scale(0.5, -26));
    }
  }

  // ----- numbers as decimal text -----

  /** x * 10^k */
  function Scale10(x: real, k: int): (y: real)
    ensures x >= 0.0 ==> y >= 0.0
    ensures x > 0.0 ==> y > 0.0
    decreases if k < 0 then -k else k
  {
    if k == 0 then x else if k > 0 then 10.0 * Scale10(x, k - 1) else Scale10(x, k + 1) / 10.0
  }

  lemma Scale10Next(x: real, k: int)
    ensures Scale10(x, k + 1) == 10.0 * Scale10(x, k)
  {
  }

  function DecadeUp(x: real, k: int): (d: int)
    requires Scale10(x, -k) >= 1.0
    ensures 1.0 <= Scale10(x, -d) < 10.0
    decreases Scale10(x, -k).Floor
  {
    if Scale10(x, -k) < 10.0 then k
    else
      Scale10Next(x, -k - 1);
      DecadeUp(x, k + 1)
  }

  function DecadeDown(x: real, k: int): (d: int)
    requires x > 0.0 && Scale10(x, -k) < 10.0
    ensures 1.0 <= Scale10(x, -d) < 10.0
    decreases (1.0 / Scale10(x, -k)).Floor
  {
    if Scale10(x, -k) >= 1.0 then k
    else
      Scale10Next(x, -k);
      InverseTenth(Scale10(x, -k));
      DecadeDown(x, k - 1)
  }

  lemma InverseTenth(y: real)
    requires 0.0 < y < 1.0
    ensures 1.0 / (10.0 * y) == (1.0 / y) / 10.0
    ensures 1.0 / y > 1.0
  {
  }

  /** The decimal exponent of x: the d with 10^d <= x < 10^(d+1). */
  function Decade(x: real): (d: int)
    requires x > 0.0
    ensures 1.0 <= Scale10(x, -d) < 10.0
  {
    if x >= 1.0 then DecadeUp(x, 0) else DecadeDown(x, 0)
  }

  /** The nearest decimal of the given number of digits, or of as few more as read back as x. */
  function ShortestFrom(x: real, digits: nat): (s: real)
    requires x > 0.0 && Round(x) == x
    ensures s >= 0.0 && Round(s) == x
    decreases 17 - digits
  {
    var k := Decade(x) - digits + 1;
    var s := Scale10(RoundHalfEven(Scale10(x, -k)) as real, k);
    if Round(s) == x then s
    else if digits < 17 then ShortestFrom(x, digits + 1)
    else x
  }

  /** The text of a number, as the decimal it denotes (section 6.1.6.1.20 of ECMA-262). */
  function Text(x: real): (s: real)
    requires x >= 0.0 && Round(x) == x
    ensures s >= 0.0 && Round(s) == x
  {
    if x == 0.0 then 0.0 else ShortestFrom(x, 1)
  }

  // ----- numbers as cents -----

  /** A decimal written to a numeric(_, 2) column: rounded half away from zero, in cents. */
  function ToNumeric2(s: real): (cents: nat)
    requires s >= 0.0
  {
    (s * 100.0 + 0.5).Floor
  }

  /** A numeric(_, 2) column read back with parseFloat. */
  function FromNumeric2(cents: nat): (x: real)
    ensures x >= 0.0
  {
    Round(cents as real / 100.0)
  }

  /** toFixed(2), in cents (section 21.1.3.3 of ECMA-262). */
  function ToFixed2(x: real): (cents: nat)
    requires x >= 0.0
  {
    (x * 100.0 + 0.5).Floor
  }

  /** toFixed(2) prints the nearest whole number of cents, the larger of two. */
  lemma ToFixed2IsNearest(x: real, n: nat)
    requires x >= 0.0
    ensures Distance(ToFixed2(x) as real, x * 100.0) <= Distance(n as real, x * 100.0)
    ensures n > ToFixed2(x) ==> Distance(ToFixed2(x) as real, x * 100.0) < Distance(n as real, x * 100.0)
  {
    var cents := ToFixed2(x);
    if n > cents {
      assert n as real >= cents as real + 1.0;
    } else if n < cents {
      assert n as real <= cents as real - 1.0;
    }
  }
}
