/** Money in int64 minor units, with the wrap-around of the machine arithmetic. */
module Moneys {
  import opened Values

  const MIN_INT64: int := -0x8000_0000_0000_0000
  const MAX_INT64: int := 0x7FFF_FFFF_FFFF_FFFF

  type Int64 = x: int | -0x8000_0000_0000_0000 <= x <= 0x7FFF_FFFF_FFFF_FFFF

  /** What a 64-bit two's complement register keeps of a mathematical integer. */
  function Wrap(x: int): Int64 {
    (x + 0x8000_0000_0000_0000) % 0x1_0000_0000_0000_0000 - 0x8000_0000_0000_0000
  }

  /** Unsupported(0) is the empty currency of the zero Money. */
  datatype Currency = BRL | USD | Unsupported(code: nat) {
    predicate Supported() {
      !Unsupported?
    }
  }

  datatype Money = Money(minor: Int64, currency: Currency) {
    predicate Valid() {
      currency.Supported()
    }

    predicate IsPositive() {
      minor > 0
    }

    predicate IsNegative() {
      minor < 0
    }

    function ComparableWith(other: Money): Option<Error> {
      if !Valid() || !other.Valid() then Some(MoneyInvalidCurrency)
      else if currency != other.currency then Some(MoneyCurrencyMismatch)
      else None
    }

    function Add(other: Money): Result<Money> {
      match ComparableWith(other)
      case Some(e) => Err(e)
      case None =>
        var sum :- AddExact(minor, other.minor);
        Ok(Money(sum, currency))
    }

    function Sub(other: Money): Result<Money> {
      match ComparableWith(other)
      case Some(e) => Err(e)
      case None =>
        var difference :- SubExact(minor, other.minor);
        Ok(Money(difference, currency))
    }

    function Cmp(other: Money): Result<int> {
      match ComparableWith(other)
      case Some(e) => Err(e)
      case None => Ok(if minor < other.minor then -1 else if minor > other.minor then 1 else 0)
    }
  }

  const NO_MONEY := Money(0, Unsupported(0))

  function FromMinor(minor: Int64, currency: Currency): Result<Money> {
    if !currency.Supported() then Err(MoneyInvalidCurrency) else Ok(Money(minor, currency))
  }

  /** The overflow test looks at the wrapped sum only; it is exact. */
  function AddExact(a: Int64, b: Int64): (r: Result<Int64>)
    ensures r == if MIN_INT64 <= a + b <= MAX_INT64 then Ok(a + b) else Err(MoneyOverflow)
  {
    var sum := Wrap(a + b);
    if (b > 0 && sum < a) || (b < 0 && sum > a) then Err(MoneyOverflow) else Ok(sum)
  }

  function SubExact(a: Int64, b: Int64): (r: Result<Int64>)
    ensures r == if MIN_INT64 <= a - b <= MAX_INT64 then Ok(a - b) else Err(MoneyOverflow)
  {
    var difference := Wrap(a - b);
    if (b < 0 && difference < a) || (b > 0 && difference > a) then Err(MoneyOverflow) else Ok(difference)
  }
}

/** The decimal text of an amount, and its parser. */
module MoneyText {
  import opened Values
  import opened Moneys

  predicate IsDigit(c: char) {
    '0' <= c <= '9'
  }

  predicate AllDigits(s: string) {
    forall i :: 0 <= i < |s| ==> IsDigit(s[i])
  }

  function DigitChar(d: nat): (c: char)
    requires d < 10
    ensures IsDigit(c) && (c - '0') as nat == d
  {
    '0' + d as char
  }

  function DigitValue(c: char): (d: nat)
    requires IsDigit(c)
    ensures d < 10
    ensures DigitChar(d) == c
  {
    (c - '0') as nat
  }

  /** strconv.FormatUint in base 10. */
  function FormatUint(n: nat): (s: string)
    ensures |s| > 0 && AllDigits(s)
    ensures n > 0 ==> s[0] != '0'
  {
    if n < 10 then [DigitChar(n)] else FormatUint(n / 10) + [DigitChar(n % 10)]
  }

  function DigitsValue(s: string): nat
    requires AllDigits(s)
  {
    if s == [] then 0 else 10 * DigitsValue(s[..|s| - 1]) + DigitValue(s[|s| - 1])
  }

  /** strconv.ParseInt of an unsigned digit string. */
  function ParseInt(s: string): Result<Int64> {
    if s == [] || !AllDigits(s) then Err(MoneyInvalidAmount)
    else if DigitsValue(s) > MAX_INT64 then Err(MoneyOverflow)
    else Ok(DigitsValue(s))
  }

  /** ^(0|[1-9][0-9]{0,16})\.[0-9]{2}$ */
  predicate Canonical(s: string) {
    && |s| >= 4
    && s[|s| - 3] == '.'
    && IsDigit(s[|s| - 2]) && IsDigit(s[|s| - 1])
    && CanonicalWhole(s[..|s| - 3])
  }

  predicate CanonicalWhole(w: string) {
    w == "0" || (0 < |w| <= 17 && w[0] != '0' && AllDigits(w))
  }

  /** strings.Cut at the first dot. */
  function Cut(s: string): (string, string) {
    if s == [] then ("", "")
    else if s[0] == '.' then ("", s[1..])
    else var (before, after) := Cut(s[1..]); ([s[0]] + before, after)
  }

  function ParseMinorUnits(amount: string): Result<Int64> {
    if !Canonical(amount) then Err(MoneyInvalidAmount)
    else
      var (whole, fraction) := Cut(amount);
      Combine(ParseInt(whole), ParseInt(fraction))
  }

  /** Units and cents into minor units. Go divides towards zero; the dividend is never negative here. */
  function Combine(whole: Result<Int64>, fraction: Result<Int64>): Result<Int64> {
    if whole.Err? then Err(MoneyOverflow)
    else if fraction.Err? then Err(MoneyInvalidAmount)
    else if whole.value > (MAX_INT64 - fraction.value) / 100 then Err(MoneyOverflow)
    else Ok(Wrap(whole.value * 100 + fraction.value))
  }

  function ParseCurrency(code: string): Result<Currency> {
    if code == "BRL" then Ok(BRL) else if code == "USD" then Ok(USD) else Err(MoneyInvalidCurrency)
  }

  function CurrencyCode(c: Currency): string
    requires c.Supported()
  {
    if c == BRL then "BRL" else "USD"
  }

  function Parse(amount: string, code: string): Result<Money> {
    var currency :- ParseCurrency(code);
    var minor :- ParseMinorUnits(amount);
    Ok(Money(minor, currency))
  }

  /** splitMinorUnits: the magnitude is computed without negating MinInt64. */
  function SplitMinorUnits(minor: Int64): (nat, nat) {
    var magnitude: nat := if minor < 0 then -(minor + 1) + 1 else minor;
    (magnitude / 100, magnitude % 100)
  }

  /** The two digits the printer writes for the cents. */
  function TwoDigits(cents: nat): string
    requires cents < 100
  {
    (if cents < 10 then "0" else "") + FormatUint(cents)
  }

  function ToString(m: Money): string {
    var (units, cents) := SplitMinorUnits(m.minor);
    (if m.minor < 0 then "-" else "") + FormatUint(units) + "." + TwoDigits(cents)
  }

  // ---- proofs ----

  lemma {:induction false} FormatThenRead(n: nat)
    ensures DigitsValue(FormatUint(n)) == n
  {
    if n >= 10 {
      FormatThenRead(n / 10);
      var s := FormatUint(n);
      assert s[..|s| - 1] == FormatUint(n / 10);
    } else {
      var s := FormatUint(n);
      assert s[..|s| - 1] == [];
    }
  }

  lemma {:induction false} ReadThenFormat(w: string)
    requires CanonicalWhole(w)
    ensures FormatUint(DigitsValue(w)) == w
    ensures w != "0" ==> DigitsValue(w) > 0
  {
    var init, last := w[..|w| - 1], w[|w| - 1];
    if |w| > 1 {
      assert init[0] == w[0];
      assert CanonicalWhole(init);
      ReadThenFormat(init);
      if init == "0" {
        assert false;
      }
      var v := DigitsValue(w);
      assert v == 10 * DigitsValue(init) + DigitValue(last);
      assert v / 10 == DigitsValue(init) && v % 10 == DigitValue(last);
      assert w == init + [last];
    } else {
      assert DigitsValue(init) == 0;
      assert w == [last];
    }
  }

  function Pow10(k: nat): nat {
    if k == 0 then 1 else 10 * Pow10(k - 1)
  }

  lemma {:induction false} FormatLength(n: nat, k: nat)
    requires k > 0 && n < Pow10(k)
    ensures |FormatUint(n)| <= k
  {
    if n >= 10 {
      assert k > 1;
      FormatLength(n / 10, k - 1);
    }
  }

  lemma {:induction false} CutAtFirstDot(whole: string, fraction: string)
    requires AllDigits(whole)
    ensures Cut(whole + "." + fraction) == (whole, fraction)
  {
    var s := whole + "." + fraction;
    if whole == [] {
      assert s[1..] == fraction;
    } else {
      CutAtFirstDot(whole[1..], fraction);
      assert s[1..] == whole[1..] + "." + fraction;
      assert s[0] == whole[0];
      assert [whole[0]] + whole[1..] == whole;
    }
  }

  lemma TwoDigitsRead(cents: nat)
    requires cents < 100
    ensures |TwoDigits(cents)| == 2 && AllDigits(TwoDigits(cents)) && DigitsValue(TwoDigits(cents)) == cents
  {
    var t := TwoDigits(cents);
    if cents < 10 {
      assert t == ['0', DigitChar(cents)];
    } else {
      assert FormatUint(cents / 10) == [DigitChar(cents / 10)];
      assert t == [DigitChar(cents / 10), DigitChar(cents % 10)];
    }
    assert t[..1][..0] == [];
    assert DigitsValue(t[..1]) == DigitValue(t[0]);
  }

  lemma TwoDigitsWrite(f: string)
    requires |f| == 2 && AllDigits(f)
    ensures DigitsValue(f) < 100 && TwoDigits(DigitsValue(f)) == f
  {
    assert f[..1][..0] == [];
    assert DigitsValue(f[..1]) == DigitValue(f[0]);
    var v := DigitsValue(f);
    assert v == 10 * DigitValue(f[0]) + DigitValue(f[1]);
    if v >= 10 {
      assert v / 10 == DigitValue(f[0]) && v % 10 == DigitValue(f[1]);
      assert FormatUint(v / 10) == [f[0]];
      assert FormatUint(v) == [f[0]] + [f[1]];
      assert f == [f[0]] + [f[1]];
    } else {
      assert f == ['0'] + [f[1]];
    }
  }

  lemma CanonicalParts(whole: string, fraction: string)
    requires CanonicalWhole(whole) && |fraction| == 2 && AllDigits(fraction)
    ensures Canonical(whole + "." + fraction)
    ensures AllDigits(whole)
  {
    var s := whole + "." + fraction;
    assert s[..|s| - 3] == whole;
  }

  lemma CanonicalSplits(s: string)
    requires Canonical(s)
    ensures var (whole, fraction) := Cut(s);
            && s == whole + "." + fraction && CanonicalWhole(whole) && |fraction| == 2 && AllDigits(fraction)
  {
    var whole, fraction := s[..|s| - 3], s[|s| - 2..];
    assert s == whole + "." + fraction;
    CutAtFirstDot(whole, fraction);
  }

  lemma WholePartIsCanonical(units: nat)
    requires units < 100_000_000_000_000_000
    ensures CanonicalWhole(FormatUint(units))
  {
    assert Pow10(17) == 100_000_000_000_000_000 by {
      assert Pow10(9) == 1_000_000_000 by { assert Pow10(5) == 100_000; }
      assert Pow10(13) == 10_000 * Pow10(9);
    }
    FormatLength(units, 17);
    if units == 0 {
      assert FormatUint(0) == "0";
    }
  }

  /** Printing then parsing gives the same money back exactly for the amounts that are not negative. */
  lemma ParseOfString(m: Money)
    requires m.Valid()
    ensures Parse(ToString(m), CurrencyCode(m.currency)) == Ok(m) <==> m.minor >= 0
  {
    var (units, cents) := SplitMinorUnits(m.minor);
    var text := ToString(m);
    if m.minor >= 0 {
      PrintedIsParsed(m.minor);
      assert text == FormatUint(units) + "." + TwoDigits(cents);
    } else {
      assert text[0] == '-';
    }
  }

  lemma PrintedIsParsed(minor: Int64)
    requires minor >= 0
    ensures ParseMinorUnits(FormatUint(minor / 100) + "." + TwoDigits(minor % 100)) == Ok(minor)
  {
    var units, cents := minor / 100, minor % 100;
    WholePartIsCanonical(units);
    TwoDigitsRead(cents);
    FormatThenRead(units);
    PartsAreParsed(FormatUint(units), TwoDigits(cents));
    assert units * 100 + cents == minor;
  }

  /** What the parser computes from the two parts, apart from the text operations. */
  lemma PartsAreParsed(whole: string, fraction: string)
    requires CanonicalWhole(whole) && AllDigits(whole) && |fraction| == 2 && AllDigits(fraction)
    requires DigitsValue(fraction) < 100
    ensures ParseMinorUnits(whole + "." + fraction)
         == var minor := DigitsValue(whole) * 100 + DigitsValue(fraction);
            if minor <= MAX_INT64 then Ok(minor) else Err(MoneyOverflow)
  {
    CanonicalParts(whole, fraction);
    CutAtFirstDot(whole, fraction);
    CutIsParsed(whole + "." + fraction, whole, fraction);
    CombineIsExact(DigitsValue(whole), DigitsValue(fraction));
  }

  lemma CutIsParsed(text: string, whole: string, fraction: string)
    requires Canonical(text) && Cut(text) == (whole, fraction)
    requires CanonicalWhole(whole) && AllDigits(whole) && |fraction| == 2 && AllDigits(fraction)
    requires DigitsValue(fraction) < 100
    ensures ParseMinorUnits(text) == Combine(
              if DigitsValue(whole) > MAX_INT64 then Err(MoneyOverflow) else Ok(DigitsValue(whole)),
              Ok(DigitsValue(fraction)))
  {
  }

  lemma CombineIsExact(units: nat, cents: nat)
    requires cents < 100
    ensures Combine(if units > MAX_INT64 then Err(MoneyOverflow) else Ok(units), Ok(cents))
         == if units * 100 + cents <= MAX_INT64 then Ok(units * 100 + cents) else Err(MoneyOverflow)
  {
  }

  /** Every accepted amount is printed back character for character. */
  lemma StringOfParse(s: string, code: string)
    requires Parse(s, code).Ok?
    ensures ToString(Parse(s, code).value) == s
    ensures 0 <= Parse(s, code).value.minor
    ensures Parse(s, code).value.Valid() && CurrencyCode(Parse(s, code).value.currency) == code
  {
    assert Canonical(s);
    CanonicalSplits(s);
    var (whole, fraction) := Cut(s);
    TwoDigitsWrite(fraction);
    PartsAreParsed(whole, fraction);
    PartsArePrinted(whole, fraction, Parse(s, code).value);
  }

  lemma PartsArePrinted(whole: string, fraction: string, m: Money)
    requires CanonicalWhole(whole) && AllDigits(whole) && |fraction| == 2 && AllDigits(fraction)
    requires DigitsValue(fraction) < 100
    requires m.minor == DigitsValue(whole) * 100 + DigitsValue(fraction)
    ensures ToString(m) == whole + "." + fraction
  {
    var (units, cents) := SplitMinorUnits(m.minor);
    assert units == DigitsValue(whole) && cents == DigitsValue(fraction);
    assert FormatUint(units) == whole by { ReadThenFormat(whole); }
    assert TwoDigits(cents) == fraction by { TwoDigitsWrite(fraction); }
    assert "" + whole == whole;
  }
}
