/** The input buffer of the calculator (digit and period keys typed but not
    yet committed) and the number it reads as.

    `Scan` is the left-to-right reading the calculator performs, one element
    at a time, and `FloatValue` is the loop that performs it.  `Decimal` is
    the conventional meaning of a buffer: the digits before the first period
    are the integer part, the digits after it (any later period skipped) are
    the fraction.  `ReadingIsDecimal` proves the two agree. */
module Parsing {

  /** One element of the input buffer. */
  datatype Input = Digit(digit: int) | Period

  /** Buffer-element equality, written case by case as the Input type
      declares it: digits are equal when their values are, periods always. */
  function Same(lhs: Input, rhs: Input): (equal: bool)
    ensures equal <==> lhs == rhs
  {
    match (lhs, rhs)
    case (Digit(l), Digit(r)) => l == r
    case (Period, Period) => true
    case _ => false
  }

  /** Ten to an integer power, over the reals. */
  function TenTo(e: int): (p: real)
    ensures p > 0.0
    decreases if e < 0 then -e else e
  {
    if e == 0 then 1.0 else if e > 0 then 10.0 * TenTo(e - 1) else TenTo(e + 1) / 10.0
  }

  /** Value of a digit string read as a decimal numeral (Horner's rule:
      every digit shifts the digits before it one decimal place). */
  function Whole(ds: seq<int>): int
  {
    if ds == [] then 0 else 10 * Whole(ds[..|ds| - 1]) + ds[|ds| - 1]
  }

  /** The digit an element contributes: its value for a digit, none for a period. */
  function DigitOf(x: Input): seq<int>
  {
    match x
    case Digit(d) => [d]
    case Period => []
  }

  /** The digits of a buffer, in order, with the periods dropped. */
  function DigitsOf(s: seq<Input>): seq<int>
  {
    if s == [] then [] else DigitsOf(s[..|s| - 1]) + DigitOf(s[|s| - 1])
  }

  /** The integer digits: the digits with no period anywhere before them. */
  function IntegerDigits(s: seq<Input>): seq<int>
  {
    if s == [] then []
    else
      var init := s[..|s| - 1];
      IntegerDigits(init) + (if Period in init then [] else DigitOf(s[|s| - 1]))
  }

  /** The fraction digits: the digits with some period before them. */
  function FractionDigits(s: seq<Input>): seq<int>
  {
    if s == [] then []
    else
      var init := s[..|s| - 1];
      FractionDigits(init) + (if Period in init then DigitOf(s[|s| - 1]) else [])
  }

  /** What digit `d` is worth at decimal exponent `e`: d * 10^e. */
  function PlaceValue(d: int, e: int): real
  {
    d as real * TenTo(e)
  }

  /** Value of the digits after a decimal point: the sum of
      ds[i] * 10^-(i+1), read from the right (0.d0d1... = (d0 + 0.d1...) / 10). */
  function Fraction(ds: seq<int>): real
  {
    if ds == [] then 0.0 else (ds[0] as real + Fraction(ds[1..])) / 10.0
  }

  /** The conventional decimal reading of a buffer: the integer part plus the
      fraction.  The empty buffer, and a buffer holding only a period, read
      as zero. */
  function Decimal(s: seq<Input>): real
  {
    Whole(IntegerDigits(s)) as real + Fraction(FractionDigits(s))
  }

  /** The two variables of the calculator's reading loop. */
  datatype ScanState = ScanState(accumulator: real, exponent: int)

  /** The loop variables after reading `s` from the left, starting from zero:
      while the exponent is zero (no period yet) a digit shifts the
      accumulator one decimal place and adds itself, and a period sets the
      exponent to -1; after that a digit adds `d * 10^exponent` and lowers
      the exponent, and a period is skipped. */
  function Scan(s: seq<Input>): ScanState
  {
    if s == [] then ScanState(0.0, 0)
    else
      var before := Scan(s[..|s| - 1]);
      match s[|s| - 1]
      case Digit(d) =>
        if before.exponent == 0 then ScanState(before.accumulator * 10.0 + d as real, 0)
        else ScanState(before.accumulator + PlaceValue(d, before.exponent), before.exponent - 1)
      case Period =>
        if before.exponent == 0 then ScanState(before.accumulator, -1) else before
  }

  /** The number a buffer reads as: the accumulator after the whole scan. */
  function Reading(s: seq<Input>): real
  {
    Scan(s).accumulator
  }

  /** The left-to-right loop of the calculator: before any period each digit
      shifts the accumulator one decimal place (`acc * 10 + d`); the first
      period starts the decimal exponent at -1; each later digit adds
      `d * 10^exponent` and lowers the exponent; any further period is
      skipped.  It never fails: the empty buffer gives 0. */
  method FloatValue(s: seq<Input>) returns (value: real)
    ensures value == Reading(s)
  {
    var accumulator := 0.0;
    var decimalsExponent := 0;
    ghost var read: seq<Input> := [];
    for i := 0 to |s|
      invariant read == s[..i]
      invariant Scan(read) == ScanState(accumulator, decimalsExponent)
    {
      var element := s[i];
      assert s[..i + 1] == read + [element];
      assert (read + [element])[..|read|] == read;

      match element {
        case Digit(d) =>
          if decimalsExponent == 0 {
            accumulator := accumulator * 10.0;
            accumulator := accumulator + d as real;
          } else {
            accumulator := accumulator + PlaceValue(d, decimalsExponent);
            decimalsExponent := decimalsExponent - 1;
          }
        case Period =>
          if decimalsExponent == 0 {
            decimalsExponent := -1;
          }
      }
      read := read + [element];
    }
    assert s[..|s|] == s;
    value := accumulator;
  }

  // ---- How the reading changes when one element is appended ----------------

  /** Appending one element extends the integer digits before any period and
      the fraction digits after one. */
  lemma SplitSnoc(s: seq<Input>, x: Input)
    ensures IntegerDigits(s + [x]) == IntegerDigits(s) + (if Period in s then [] else DigitOf(x))
    ensures FractionDigits(s + [x]) == FractionDigits(s) + (if Period in s then DigitOf(x) else [])
    ensures DigitsOf(s + [x]) == DigitsOf(s) + DigitOf(x)
  {
    assert (s + [x])[..|s|] == s;
  }

  /** Without a period every digit is an integer digit. */
  lemma {:induction false} SplitWithoutPeriod(s: seq<Input>)
    requires Period !in s
    ensures IntegerDigits(s) == DigitsOf(s)
    ensures FractionDigits(s) == []
  {
    if s != [] {
      var init := s[..|s| - 1];
      assert s == init + [s[|s| - 1]];
      SplitWithoutPeriod(init);
      SplitSnoc(init, s[|s| - 1]);
    }
  }

  /** Horner's rule on one more digit. */
  lemma WholeSnoc(ds: seq<int>, d: int)
    ensures Whole(ds + [d]) == 10 * Whole(ds) + d
  {
    assert (ds + [d])[..|ds|] == ds;
  }

  /** Before any period, a digit makes the reading `10 * old + d`. */
  lemma DecimalDigitBeforePeriod(s: seq<Input>, d: int)
    requires Period !in s
    ensures Decimal(s + [Digit(d)]) == Decimal(s) * 10.0 + d as real
  {
    SplitSnoc(s, Digit(d));
    SplitWithoutPeriod(s);
    WholeSnoc(IntegerDigits(s), d);
  }

  /** The first period leaves the reading unchanged and starts an empty fraction. */
  lemma DecimalFirstPeriod(s: seq<Input>)
    requires Period !in s
    ensures Decimal(s + [Period]) == Decimal(s)
    ensures FractionDigits(s + [Period]) == []
  {
    SplitSnoc(s, Period);
    SplitWithoutPeriod(s);
    assert IntegerDigits(s) + [] == IntegerDigits(s);
  }

  /** The i-th digit after the first period adds `d * 10^-i`. */
  lemma DecimalDigitAfterPeriod(s: seq<Input>, d: int, exponent: int)
    requires Period in s
    requires exponent == -1 - |FractionDigits(s)|
    ensures |FractionDigits(s + [Digit(d)])| == |FractionDigits(s)| + 1
    ensures Decimal(s + [Digit(d)]) == Decimal(s) + PlaceValue(d, exponent)
  {
    SplitSnoc(s, Digit(d));
    assert IntegerDigits(s) + [] == IntegerDigits(s);
    FractionSnoc(FractionDigits(s), d);
  }

  /** A period after the first one changes nothing. */
  lemma DecimalLaterPeriod(s: seq<Input>)
    requires Period in s
    ensures FractionDigits(s + [Period]) == FractionDigits(s)
    ensures Decimal(s + [Period]) == Decimal(s)
  {
    SplitSnoc(s, Period);
    assert IntegerDigits(s) + [] == IntegerDigits(s);
    assert FractionDigits(s) + [] == FractionDigits(s);
  }

  /** A digit appended to the fraction digits adds `d * 10^-(position)`. */
  lemma {:induction false} FractionSnoc(ds: seq<int>, d: int)
    ensures Fraction(ds + [d]) == Fraction(ds) + PlaceValue(d, -1 - |ds|)
  {
    if ds == [] {
      assert [d][1..] == [];
    } else {
      assert (ds + [d])[1..] == ds[1..] + [d];
      FractionSnoc(ds[1..], d);
      var x := TenTo(-|ds|);
      assert TenTo(-1 - |ds|) == x / 10.0;
      assert d as real * x / 10.0 == d as real * (x / 10.0);
    }
  }

  // ---- Properties of the reading --------------------------------------------

  /** Splitting at the first period: the digits before it are the integer
      digits, the digits after it (periods dropped) are the fraction digits. */
  lemma {:induction false} SplitAtFirstPeriod(a: seq<Input>, b: seq<Input>)
    requires Period !in a
    ensures IntegerDigits(a + [Period] + b) == DigitsOf(a)
    ensures FractionDigits(a + [Period] + b) == DigitsOf(b)
  {
    if b == [] {
      assert a + [Period] + b == a + [Period];
      SplitSnoc(a, Period);
      SplitWithoutPeriod(a);
      assert DigitsOf(a) + [] == DigitsOf(a);
    } else {
      var init := b[..|b| - 1];
      var x := b[|b| - 1];
      assert a + [Period] + b == (a + [Period] + init) + [x];
      SplitAtFirstPeriod(a, init);
      SplitSnoc(a + [Period] + init, x);
      SplitSnoc(init, x);
      assert b == init + [x];
      assert DigitsOf(a) + [] == DigitsOf(a);
      assert (a + [Period] + init)[|a|] == Period;
    }
  }

  /** Without a period the reading is the decimal integer of the digits. */
  lemma DecimalWithoutPeriod(s: seq<Input>)
    requires Period !in s
    ensures Decimal(s) == Whole(DigitsOf(s)) as real
  {
    SplitWithoutPeriod(s);
  }

  /** The calculator's reading is the decimal reading, and its exponent is
      zero before any period and one below minus the count of fraction
      digits after it. */
  lemma {:induction false} ReadingIsDecimal(s: seq<Input>)
    ensures Reading(s) == Decimal(s)
    ensures Scan(s).exponent == (if Period in s then -1 - |FractionDigits(s)| else 0)
  {
    if s != [] {
      var init := s[..|s| - 1];
      var x := s[|s| - 1];
      assert s == init + [x];
      ReadingIsDecimal(init);
      match x {
        case Digit(d) =>
          if Period in init {
            DecimalDigitAfterPeriod(init, d, Scan(init).exponent);
          } else {
            DecimalDigitBeforePeriod(init, d);
          }
        case Period =>
          if Period in init {
            DecimalLaterPeriod(init);
          } else {
            DecimalFirstPeriod(init);
          }
      }
    }
  }

  /** Before any period, a digit shifts the reading one decimal place and
      adds itself. */
  lemma ReadingDigitBeforePeriod(s: seq<Input>, d: int)
    requires Period !in s
    ensures Reading(s + [Digit(d)]) == Reading(s) * 10.0 + d as real
  {
    ReadingIsDecimal(s);
    ReadingIsDecimal(s + [Digit(d)]);
    DecimalDigitBeforePeriod(s, d);
  }

  /** After the first period, the i-th digit typed (i counted from one) adds
      `d * 10^-i`. */
  lemma ReadingDigitAfterPeriod(s: seq<Input>, d: int)
    requires Period in s
    ensures Reading(s + [Digit(d)]) == Reading(s) + PlaceValue(d, -1 - |FractionDigits(s)|)
    ensures |FractionDigits(s + [Digit(d)])| == |FractionDigits(s)| + 1
  {
    ReadingIsDecimal(s);
    ReadingIsDecimal(s + [Digit(d)]);
    DecimalDigitAfterPeriod(s, d, -1 - |FractionDigits(s)|);
  }

  /** The first period leaves the reading as it is. */
  lemma ReadingFirstPeriod(s: seq<Input>)
    requires Period !in s
    ensures Reading(s + [Period]) == Reading(s)
    ensures FractionDigits(s + [Period]) == []
  {
    ReadingIsDecimal(s);
    ReadingIsDecimal(s + [Period]);
    DecimalFirstPeriod(s);
  }

  /** A period after the first one is skipped: neither the reading nor the
      position of the next fraction digit changes. */
  lemma ReadingLaterPeriod(s: seq<Input>)
    requires Period in s
    ensures Scan(s + [Period]) == Scan(s)
    ensures Reading(s + [Period]) == Reading(s)
    ensures FractionDigits(s + [Period]) == FractionDigits(s)
  {
    assert (s + [Period])[..|s|] == s;
    ReadingIsDecimal(s);
    ReadingIsDecimal(s + [Period]);
    DecimalLaterPeriod(s);
  }

  /** Nothing typed reads as zero. */
  lemma ReadingEmpty()
    ensures Reading([]) == 0.0 && Decimal([]) == 0.0
  {
  }

  /** A lone digit reads as its value. */
  lemma ReadingSingleDigit(d: int)
    ensures Reading([Digit(d)]) == d as real
  {
    var s := [Digit(d)];
    assert s[..0] == [];
    assert Scan(s[..0]) == ScanState(0.0, 0);
  }

  /** Without a period the buffer reads as the decimal integer of its digits. */
  lemma ReadingWithoutPeriod(s: seq<Input>)
    requires Period !in s
    ensures Reading(s) == Whole(DigitsOf(s)) as real
  {
    ReadingIsDecimal(s);
    DecimalWithoutPeriod(s);
  }

  /** With a first period between `a` and `b`, the buffer reads as the digits
      of `a` as the integer part and the digits of `b` as the fraction, any
      later period in `b` skipped. */
  lemma ReadingAtFirstPeriod(a: seq<Input>, b: seq<Input>)
    requires Period !in a
    ensures Reading(a + [Period] + b) == Whole(DigitsOf(a)) as real + Fraction(DigitsOf(b))
  {
    ReadingIsDecimal(a + [Period] + b);
    SplitAtFirstPeriod(a, b);
  }

  /** The buffer typed as 3 . 1 4 reads as 3.14. */
  lemma ReadingExample()
    ensures Reading([Digit(3), Period, Digit(1), Digit(4)]) == 3.14
  {
    assert [Digit(3), Period, Digit(1), Digit(4)] == [Digit(3)] + [Period] + [Digit(1), Digit(4)];
    ReadingAtFirstPeriod([Digit(3)], [Digit(1), Digit(4)]);
    assert [Digit(3)] == [] + [Digit(3)];
    SplitSnoc([], Digit(3));
    assert [Digit(1), Digit(4)] == [Digit(1)] + [Digit(4)];
    assert [Digit(1)] == [] + [Digit(1)];
    SplitSnoc([Digit(1)], Digit(4));
    SplitSnoc([], Digit(1));
    WholeSnoc([], 3);
  }
}
