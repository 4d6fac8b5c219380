/**
 The money of an order: the total that OrdersService adds up line by line in
 binary64, against the exact total in cents.
 */
module Money {
  import opened Binary64

  /** One order line: a unit price in cents, as the numeric(10,2) column holds it, and a quantity. */
  datatype Charge = Charge(price: nat, quantity: nat)

  // One more than the largest amount, in cents, of a numeric(10,2) column.
  const NUMERIC_10_2 := 10_000_000_000

  // Each addition errs by at most 2^-27 dollars: this many stay below half a cent.
  const MAX_LINES := 671_000

  /** price * quantity in JavaScript, where price was read with parseFloat. */
  function LineTotal(c: Charge): (x: real)
    ensures x >= 0.0
  {
    Round(Times(FromNumeric2(c.price), c.quantity))
  }

  function LineCents(c: Charge): (cents: nat) {
    c.price * c.quantity
  }

  /** The variable total after the given lines. */
  function RunningTotal(lines: seq<Charge>): (x: real)
    ensures x >= 0.0 && Round(x) == x
  {
    if |lines| == 0 then 0.0
    else
      var y := RunningTotal(lines[..|lines| - 1]) + LineTotal(lines[|lines| - 1]);
      RoundIdempotent(y);
      Round(y)
  }

  function ExactCents(lines: seq<Charge>): (cents: nat) {
    if |lines| == 0 then 0
    else ExactCents(lines[..|lines| - 1]) + LineCents(lines[|lines| - 1])
  }

  /** An exact amount in dollars. */
  function Dollars(cents: nat): (x: real)
    ensures x >= 0.0
  {
    cents as real / 100.0
  }

  /** The most that the running total can be off after n lines with the given exact total. */
  function Tolerance(n: nat, cents: nat): (x: real) {
    n as real / TWO_27 + 3.0 * HalfUlp(Dollars(cents))
  }

  /** The column value of a number: its text, rounded to cents by Postgres. */
  function Column(x: real): (cents: nat)
    requires x >= 0.0 && Round(x) == x
  {
    ToNumeric2(Text(x))
  }

  // ----- one line -----

  // The product of a price and a quantity; only the three lemmas that follow look inside.
  function Times(p: real, q: nat): (x: real)
    requires p >= 0.0
    ensures x >= 0.0
  {
    p * q as real
  }

  lemma TimesOrder(p: real, p': real, q: nat)
    requires 0.0 <= p <= p'
    ensures Times(p, q) <= Times(p', q)
  {
    assert p' * q as real - p * q as real == (p' - p) * q as real;
  }

  lemma TimesHalfUlp(p: real, q: nat)
    requires p >= 0.0
    ensures Times(p + HalfUlp(p), q) == Times(p, q) + HalfUlp(Times(p, q))
    ensures Times(p - HalfUlp(p), q) == Times(p, q) - HalfUlp(Times(p, q))
  {
  }

  lemma TimesDollars(c: Charge)
    ensures Times(Dollars(c.price), c.quantity) == Dollars(LineCents(c))
  {
    assert c.price as real * c.quantity as real == LineCents(c) as real;
  }

  /** A line total errs relatively by at most three half units in the last place. */
  lemma LineTotalError(c: Charge)
    ensures Distance(LineTotal(c), Dollars(LineCents(c))) <= 3.0 * HalfUlp(Dollars(LineCents(c)))
  {
    hide Round, Times, LineCents;
    var p := Dollars(c.price);
    var P := FromNumeric2(c.price);
    RoundRelativeError(p);
    RoundRelativeError(Times(P, c.quantity));
    TimesOrder(P, p + HalfUlp(p), c.quantity);
    TimesOrder(p - HalfUlp(p), P, c.quantity);
    TimesHalfUlp(p, c.quantity);
    TimesDollars(c);
  }

  // ----- the whole total -----

  lemma TotalBound(n: nat, cents: nat)
    requires n <= MAX_LINES && cents < NUMERIC_10_2
    ensures Tolerance(n, cents) < 0.00499938
  {
  }

  lemma SumError(s: real, a: real, n: nat, rest: nat, line: nat)
    requires s >= 0.0 && a >= 0.0 && n < MAX_LINES && rest + line < NUMERIC_10_2
    requires Distance(s, Dollars(rest)) <= Tolerance(n, rest)
    requires Distance(a, Dollars(line)) <= 3.0 * HalfUlp(Dollars(line))
    ensures Distance(Round(s + a), Dollars(rest + line)) <= Tolerance(n + 1, rest + line)
  {
    hide Round, LineCents;
    assert Dollars(rest + line) == Dollars(rest) + Dollars(line);
    TotalBound(n, rest);
    RoundAbsoluteError(s + a);
  }

  /** While the exact total fits numeric(10,2), the running total is off by less than half a cent. */
  lemma {:induction false} RunningTotalError(lines: seq<Charge>)
    requires |lines| <= MAX_LINES
    requires ExactCents(lines) < NUMERIC_10_2
    ensures Distance(RunningTotal(lines), Dollars(ExactCents(lines))) <= Tolerance(|lines|, ExactCents(lines))
  {
    hide Round, LineCents;
    if |lines| == 0 {
    } else {
      var rest, last := lines[..|lines| - 1], lines[|lines| - 1];
      Unfold(lines);
      RunningTotalError(rest);
      LineTotalError(last);
      SumError(RunningTotal(rest), LineTotal(last), |rest|, ExactCents(rest), LineCents(last));
    }
  }

  lemma Unfold(lines: seq<Charge>)
    requires |lines| > 0
    ensures var rest, last := lines[..|lines| - 1], lines[|lines| - 1];
            && RunningTotal(lines) == Round(RunningTotal(rest) + LineTotal(last))
            && ExactCents(lines) == ExactCents(rest) + LineCents(last)
  {
    hide Round, LineCents;
  }

  /** A decimal that reads back as a number close to whole cents rounds to those cents. */
  lemma NearbyText(x: real, s: real, cents: nat)
    requires x >= 0.0 && s >= 0.0 && Round(s) == x
    requires cents < NUMERIC_10_2
    requires Distance(x, Dollars(cents)) < 0.00499938
    ensures ToNumeric2(s) == cents
    ensures ToFixed2(x) == cents
  {
    if s >= 134217727.0 {
      RoundMonotone(134217727.0, s);
      RoundAbsoluteError(134217727.0);
      assert false;
    }
    RoundAbsoluteError(s);
  }

  /**
   The stored total and the total printed in the email are both exactly the sum of
   unit price times quantity.
   */
  lemma StoredTotalIsExact(lines: seq<Charge>)
    requires |lines| <= MAX_LINES
    requires ExactCents(lines) < NUMERIC_10_2
    ensures Column(RunningTotal(lines)) == ExactCents(lines)
    ensures ToFixed2(RunningTotal(lines)) == ExactCents(lines)
  {
    RunningTotalError(lines);
    TotalBound(|lines|, ExactCents(lines));
    NearbyText(RunningTotal(lines), Text(RunningTotal(lines)), ExactCents(lines));
  }

  /** The addition of one line, once the exact total no longer fits. */
  lemma SumLarge(s: real, a: real, n: nat, rest: nat, line: nat)
    requires s >= 0.0 && a >= 0.0 && Round(s) == s
    requires n < MAX_LINES && rest + line >= NUMERIC_10_2
    requires if rest < NUMERIC_10_2 then Distance(s, Dollars(rest)) <= Tolerance(n, rest) else s >= 99999999.9950006
    requires Distance(a, Dollars(line)) <= 3.0 * HalfUlp(Dollars(line))
    ensures Round(s + a) >= 99999999.9950006
  {
    hide Round, LineCents;
    if rest < NUMERIC_10_2 {
      assert Dollars(rest + line) == Dollars(rest) + Dollars(line);
      TotalBound(n, rest);
      RoundMonotone(99999999.99500061, s + a);
      RoundAbsoluteError(99999999.99500061);
    } else {
      RoundMonotone(s, s + a);
    }
  }

  /** Once the exact total no longer fits numeric(10,2), neither does the running total. */
  lemma {:induction false} RunningTotalLarge(lines: seq<Charge>)
    requires |lines| <= MAX_LINES
    requires ExactCents(lines) >= NUMERIC_10_2
    ensures RunningTotal(lines) >= 99999999.9950006
  {
    hide Round, LineCents;
    var rest, last := lines[..|lines| - 1], lines[|lines| - 1];
    if ExactCents(rest) >= NUMERIC_10_2 {
      RunningTotalLarge(rest);
    } else {
      RunningTotalError(rest);
    }
    LineTotalError(last);
    Unfold(lines);
    SumLarge(RunningTotal(rest), LineTotal(last), |rest|, ExactCents(rest), LineCents(last));
  }

  /** Storing an order fails for its total exactly when the exact total needs more than ten digits. */
  lemma TotalOverflowsExactly(lines: seq<Charge>)
    requires |lines| <= MAX_LINES
    ensures Column(RunningTotal(lines)) < NUMERIC_10_2 <==> ExactCents(lines) < NUMERIC_10_2
  {
    if ExactCents(lines) < NUMERIC_10_2 {
      StoredTotalIsExact(lines);
    } else {
      RunningTotalLarge(lines);
      var s := Text(RunningTotal(lines));
      if s < TWO_27 {
        RoundAbsoluteError(s);
      }
    }
  }

  /** A price read from its column and written back is unchanged, so a unit price is the product's price. */
  lemma {:induction false} PriceRoundTrip(cents: nat)
    requires cents < NUMERIC_10_2
    ensures Round(FromNumeric2(cents)) == FromNumeric2(cents)
    ensures Column(FromNumeric2(cents)) == cents
  {
    RoundIdempotent(Dollars(cents));
    RoundAbsoluteError(Dollars(cents));
    NearbyText(FromNumeric2(cents), Text(FromNumeric2(cents)), cents);
  }
}
