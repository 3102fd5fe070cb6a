/** Exact decimal money (money.js). Intermediate values are exact reals;
    every stored or displayed amount is quantised to two decimal places,
    rounding half-up (ties away from zero), and is kept as integer cents. */
module Money {
  import opened Failures
  import opened DecimalText

  /** A stored amount: the number of hundredths. */
  type Cents = int

  function CentsToReal(c: Cents): real
  {
    c as real / 100.0
  }

  /** The amount of `x` at 2 decimal places under ROUND_HALF_UP: the nearest
      number of cents, a tie going away from zero. */
  function Quantize(x: real): (c: Cents)
    ensures x >= 0.0 ==> c as real - 0.5 <= x * 100.0 < c as real + 0.5
    ensures x < 0.0 ==> c as real - 0.5 < x * 100.0 <= c as real + 0.5
  {
    if x >= 0.0 then (x * 100.0 + 0.5).Floor else -((-x) * 100.0 + 0.5).Floor
  }

  lemma QuantizeOfCents(c: Cents)
    ensures Quantize(CentsToReal(c)) == c
  {
  }

  /** Quantising is idempotent. */
  lemma QuantizeIdempotent(x: real)
    ensures Quantize(CentsToReal(Quantize(x))) == Quantize(x)
  {
    QuantizeOfCents(Quantize(x));
  }

  /** Rounding is symmetric about zero, so a negative tie goes down. */
  lemma QuantizeNegate(x: real)
    ensures Quantize(-x) == -Quantize(x)
  {
  }

  lemma CentsToRealMonotone(a: Cents, b: Cents)
    requires a <= b
    ensures CentsToReal(a) <= CentsToReal(b)
  {
  }

  /** Adding `delta` to a whole number of cents and rounding moves it by the
      same number of cents whatever it started at, while the sum stays non-negative. */
  lemma QuantizeShift(k: Cents, delta: real)
    requires CentsToReal(k) + delta >= 0.0
    ensures Quantize(CentsToReal(k) + delta) == k + (delta * 100.0 + 0.5).Floor
  {
    assert (CentsToReal(k) + delta) * 100.0 + 0.5 == k as real + (delta * 100.0 + 0.5);
  }

  lemma QuantizeSign(x: real)
    ensures x >= 0.0 ==> Quantize(x) >= 0
    ensures x < 0.0 ==> Quantize(x) <= 0
  {
  }

  /** A number below 100 as exactly two digits. */
  function TwoDigits(m: nat): (s: string)
    requires m < 100
    ensures |s| == 2 && AllDigits(s)
  {
    [DigitChar(m / 10), DigitChar(m % 10)]
  }

  lemma TwoDigitsRoundTrip(m: nat)
    requires m < 100
    ensures DigitsToNat(TwoDigits(m)) == m
  {
    var s := TwoDigits(m);
    var hi := s[..1];
    assert hi == [DigitChar(m / 10)] && hi[..0] == [];
    assert DigitsToNat(hi) == m / 10 by {
      assert DigitsToNat(hi) == DigitsToNat(hi[..0]) * 10 + DigitValue(hi[0]);
    }
    assert DigitsToNat(s) == DigitsToNat(hi) * 10 + DigitValue(s[1]);
  }

  /** Two fractional digits of a number of cents. */
  function FormatCents(n: nat): (s: string)
    ensures |s| >= 4 && s[|s| - 3] == '.'
    ensures AllDigits(s[..|s| - 3]) && AllDigits(s[|s| - 2..])
  {
    var s := NatToDigits(n / 100) + "." + TwoDigits(n % 100);
    assert s[..|s| - 3] == NatToDigits(n / 100) && s[|s| - 2..] == TwoDigits(n % 100);
    s
  }

  /** `toMoneyString`: `Decimal.toFixed(2)`. decimal.js keeps the minus sign of a
      negative value even when it rounds to zero ("-0.00"). */
  function ToMoneyString(x: real): (s: string)
    ensures |s| >= 4 && s[|s| - 3] == '.'
    ensures IsDigit(s[|s| - 2]) && IsDigit(s[|s| - 1])
    ensures s[0] == '-' <==> x < 0.0
  {
    var c := Quantize(x);
    var body := FormatCents(if c < 0 then -c else c);
    assert IsDigit(body[0]);
    (if x < 0.0 then "-" else "") + body
  }

  /** The shape `toFixed(2)` produces: an optional sign, digits, a point, two digits. */
  predicate IsMoneyString(s: string)
  {
    var u := if |s| > 0 && s[0] == '-' then s[1..] else s;
    |u| >= 4 && u[|u| - 3] == '.' && AllDigits(u[..|u| - 3]) && AllDigits(u[|u| - 2..])
  }

  /** Reads a money string back as cents (the reference reading of the format). */
  function ParseMoney(s: string): Cents
    requires IsMoneyString(s)
  {
    var neg := |s| > 0 && s[0] == '-';
    var u := if neg then s[1..] else s;
    var v := DigitsToNat(u[..|u| - 3]) * 100 + DigitsToNat(u[|u| - 2..]);
    if neg then -v else v
  }

  lemma FormatCentsRoundTrip(n: nat)
    ensures DigitsToNat(FormatCents(n)[..|FormatCents(n)| - 3]) * 100
          + DigitsToNat(FormatCents(n)[|FormatCents(n)| - 2..]) == n
  {
    var s := FormatCents(n);
    assert s[..|s| - 3] == NatToDigits(n / 100) && s[|s| - 2..] == TwoDigits(n % 100);
    DigitsRoundTrip(n / 100);
    TwoDigitsRoundTrip(n % 100);
  }

  /** A non-negative amount of cents in the format of `toFixed(2)` reads back as itself. */
  lemma PlainCentsRoundTrip(n: nat)
    ensures IsMoneyString(FormatCents(n))
    ensures ParseMoney(FormatCents(n)) == n
  {
    var body := FormatCents(n);
    assert IsDigit(body[0]);
    FormatCentsRoundTrip(n);
  }

  /** The same amount behind a minus sign reads back negated. */
  lemma MinusCentsRoundTrip(n: nat)
    ensures IsMoneyString("-" + FormatCents(n))
    ensures ParseMoney("-" + FormatCents(n)) == -(n as int)
  {
    var body := FormatCents(n);
    var s := "-" + body;
    assert s[0] == '-' && s[1..] == body;
    FormatCentsRoundTrip(n);
  }

  /** Every formatted amount is well formed and reads back as its quantised value. */
  lemma MoneyStringRoundTrip(x: real)
    ensures IsMoneyString(ToMoneyString(x))
    ensures ParseMoney(ToMoneyString(x)) == Quantize(x)
  {
    var c := Quantize(x);
    QuantizeSign(x);
    if x < 0.0 {
      MinusCentsRoundTrip(-c);
      assert ToMoneyString(x) == "-" + FormatCents(-c);
    } else {
      PlainCentsRoundTrip(c);
      assert ToMoneyString(x) == "" + FormatCents(c) == FormatCents(c);
    }
  }

  /** `assertNonNegative`: throws exactly when the value is below zero. */
  function AssertNonNegative(x: real, e: Error): (r: Outcome)
    ensures r.Fail? <==> x < 0.0
    ensures r.Fail? ==> r.error == e
  {
    if x < 0.0 then Fail(e) else Pass
  }
}
