/**
 Unsigned 16-bit integers as the monitor uses them for ports and HTTP status
 codes: their decimal rendering (Rust's `{}` formatting) and their parsing
 from user text (Rust's `str::parse::<u16>`).
 */
module Numbers {
  import opened Options

  const U16Max: nat := 0xFFFF

  /** Rust's `u16`. */
  type u16 = x: int | 0 <= x <= U16Max

  predicate IsDigit(c: char) {
    '0' <= c <= '9'
  }

  function DigitValue(c: char): (d: nat)
    requires IsDigit(c)
    ensures d < 10
  {
    c as int - '0' as int
  }

  function DigitChar(d: nat): (c: char)
    requires d < 10
    ensures IsDigit(c) && DigitValue(c) == d
  {
    (d + '0' as int) as char
  }

  predicate AllDigits(s: string) {
    forall i :: 0 <= i < |s| ==> IsDigit(s[i])
  }

  function Pow10(k: nat): (p: nat)
    ensures p >= 1
  {
    if k == 0 then 1 else 10 * Pow10(k - 1)
  }

  /** The number a string of decimal digits denotes, most significant digit first. */
  function DigitsValue(s: string): nat
    requires AllDigits(s)
  {
    if |s| == 0 then 0 else DigitsValue(s[..|s| - 1]) * 10 + DigitValue(s[|s| - 1])
  }

  /**
   The decimal text of `n` as `format!("{}", n)` prints it: at least one
   digit, no leading zero, and denoting `n`.
   */
  function Decimal(n: nat): (r: string)
    ensures 1 <= |r| && AllDigits(r)
    ensures DigitsValue(r) == n
    ensures |r| > 1 ==> r[0] != '0'
  {
    if n < 10 then [DigitChar(n)]
    else
      var prefix := Decimal(n / 10);
      var r := prefix + [DigitChar(n % 10)];
      assert r[..|r| - 1] == prefix;
      r
  }

  /**
   Rust's `str::parse::<u16>`: an optional leading `+`, then the digits,
   accumulated left to right with an overflow check after every digit.
   */
  function ParseU16(s: string): Option<u16> {
    if |s| == 0 then None
    else
      var digits := if s[0] == '+' then s[1..] else s;
      if |digits| == 0 then None else Accumulate(digits, 0)
  }

  /** The digit loop of the parse: `acc` is the value of the digits already read. */
  function Accumulate(digits: string, acc: u16): Option<u16>
    decreases |digits|
  {
    if |digits| == 0 then Some(acc)
    else if !IsDigit(digits[0]) then None
    else
      var next := acc * 10 + DigitValue(digits[0]);
      if next > U16Max then None else Accumulate(digits[1..], next)
  }

  /** The text after the optional sign. */
  function Unsigned(s: string): string {
    if 0 < |s| && s[0] == '+' then s[1..] else s
  }

  /**
   Reference grammar for what Rust accepts as a `u16`: an optional `+`
   followed by one or more ASCII digits whose value is at most 65535.
   Leading zeros are allowed and `0` is a valid value.
   */
  predicate IsU16Text(s: string) {
    var body := Unsigned(s);
    1 <= |body| && AllDigits(body) && DigitsValue(body) <= U16Max
  }

  /** Prepending a digit adds its positional weight. */
  lemma {:induction false} DigitsValueCons(c: char, rest: string)
    requires IsDigit(c) && AllDigits(rest)
    ensures AllDigits([c] + rest)
    ensures DigitsValue([c] + rest) == DigitValue(c) * Pow10(|rest|) + DigitsValue(rest)
    decreases |rest|
  {
    var s := [c] + rest;
    if |rest| == 0 {
      assert s[..|s| - 1] == [];
    } else {
      var init := rest[..|rest| - 1];
      assert s[..|s| - 1] == [c] + init;
      DigitsValueCons(c, init);
      calc {
        DigitsValue(s);
        DigitsValue([c] + init) * 10 + DigitValue(rest[|rest| - 1]);
        (DigitValue(c) * Pow10(|init|) + DigitsValue(init)) * 10 + DigitValue(rest[|rest| - 1]);
        DigitValue(c) * (Pow10(|init|) * 10) + (DigitsValue(init) * 10 + DigitValue(rest[|rest| - 1]));
        DigitValue(c) * Pow10(|rest|) + DigitsValue(rest);
      }
    }
  }

  /** A value never shrinks when more digits are appended to it. */
  lemma ScaledAtLeast(a: nat, k: nat, b: nat)
    ensures a * Pow10(k) + b >= a
  {
    assert a * Pow10(k) >= a * 1;
  }

  /**
   The digit loop computes `acc * 10^n + value(digits)` when that fits in
   a `u16` and every character is a digit, and fails otherwise.
   */
  lemma {:induction false} AccumulateValue(digits: string, acc: u16)
    ensures Accumulate(digits, acc).Some? <==>
      AllDigits(digits) && acc * Pow10(|digits|) + DigitsValue(digits) <= U16Max
    ensures Accumulate(digits, acc).Some? ==>
      Accumulate(digits, acc).value == acc * Pow10(|digits|) + DigitsValue(digits)
    decreases |digits|
  {
    if |digits| == 0 {
    } else if !IsDigit(digits[0]) {
    } else {
      var c, rest := digits[0], digits[1..];
      assert digits == [c] + rest;
      var next := acc * 10 + DigitValue(c);
      if AllDigits(digits) {
        DigitsValueCons(c, rest);
        assert acc * Pow10(|digits|) + DigitsValue(digits)
            == next * Pow10(|rest|) + DigitsValue(rest);
        ScaledAtLeast(next, |rest|, DigitsValue(rest));
      } else {
        assert !AllDigits(rest) by {
          var i :| 0 <= i < |digits| && !IsDigit(digits[i]);
          assert !IsDigit(rest[i - 1]);
        }
      }
      if next <= U16Max {
        AccumulateValue(rest, next);
      }
    }
  }

  /** The parse accepts exactly the reference grammar and returns the value the digits denote. */
  lemma ParseU16Correct(s: string)
    ensures ParseU16(s).Some? <==> IsU16Text(s)
    ensures ParseU16(s).Some? ==> ParseU16(s).value == DigitsValue(Unsigned(s))
  {
    if |s| > 0 {
      var body := Unsigned(s);
      if |body| > 0 {
        AccumulateValue(body, 0);
      }
    }
  }

  /** Parsing inverts decimal rendering on every `u16`, with or without a `+` sign. */
  lemma {:induction false} ParseDecimalRoundTrip(n: u16)
    ensures ParseU16(Decimal(n)) == Some(n)
    ensures ParseU16("+" + Decimal(n)) == Some(n)
  {
    var d := Decimal(n);
    ParseU16Correct(d);
    assert Unsigned("+" + d) == d;
    ParseU16Correct("+" + d);
  }

  /** Decimal rendering is injective, so the rendered text determines the number. */
  lemma DecimalInjective(m: u16, n: u16)
    requires Decimal(m) == Decimal(n)
    ensures m == n
  {
    ParseDecimalRoundTrip(m);
    ParseDecimalRoundTrip(n);
  }

  /** Port zero, a leading `+`, leading zeros and the largest value are accepted. */
  lemma ParseU16Accepts()
    ensures ParseU16("0") == Some(0)
    ensures ParseU16("+8080") == Some(8080)
    ensures ParseU16("08025") == Some(8025)
    ensures ParseU16("65535") == Some(65535)
  {
    assert "+8080"[1..] == "8080";
    assert ParseU16("+8080") == Accumulate("8080", 0);
    assert Accumulate("8080", 0) == Accumulate("080", 8) == Accumulate("80", 80)
        == Accumulate("0", 808) == Accumulate("", 8080);
    assert Accumulate("08025", 0) == Accumulate("8025", 0) == Accumulate("025", 8)
        == Accumulate("25", 80) == Accumulate("5", 802) == Accumulate("", 8025);
    assert Accumulate("65535", 0) == Accumulate("5535", 6) == Accumulate("535", 65)
        == Accumulate("35", 655) == Accumulate("5", 6553) == Accumulate("", 65535);
  }

  /** An empty string, a bare sign, a minus sign, a stray letter and 65536 are rejected. */
  lemma ParseU16Rejects()
    ensures ParseU16("") == None
    ensures ParseU16("+") == None
    ensures ParseU16("-1") == None
    ensures ParseU16("80a") == None
    ensures ParseU16("65536") == None
  {
    assert "+"[1..] == "";
    assert Accumulate("80a", 0) == Accumulate("0a", 8) == Accumulate("a", 80);
    assert Accumulate("65536", 0) == Accumulate("5536", 6) == Accumulate("536", 65)
        == Accumulate("36", 655) == Accumulate("6", 6553);
  }
}
