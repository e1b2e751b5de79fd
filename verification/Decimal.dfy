/** Amounts as decimal strings: their integer value, and the comparison that never parses them. */
module Decimal {
  import opened Text
  import opened Wrappers
  import opened Transfers

  function Digit(c: char): nat
    requires IsDigit(c)
  {
    c as int - '0' as int
  }

  function Value(s: string): nat
    requires AllDigits(s)
  {
    if s == [] then 0 else 10 * Value(s[..|s| - 1]) + Digit(s[|s| - 1])
  }

  function Pow10(n: nat): (p: nat)
    ensures p > 0
  {
    if n == 0 then 1 else 10 * Pow10(n - 1)
  }

  /** `fmt.Sprintf("%d", n)`. */
  function ToDecimal(n: nat): (s: string)
    ensures s != [] && AllDigits(s) && Value(s) == n
    ensures n > 0 ==> s[0] != '0'
    ensures n == 0 ==> s == "0"
  {
    var last := [('0' as int + n % 10) as char];
    if n < 10 then last
    else
      var init := ToDecimal(n / 10);
      assert (init + last)[..|init + last| - 1] == init;
      init + last
  }

  /** `big.Int.SetString(s, 10)`: an optional sign and at least one digit. */
  function ParseInt(s: string): Option<int> {
    if s != [] && AllDigits(s) then Some(Value(s))
    else if |s| > 1 && (s[0] == '+' || s[0] == '-') && AllDigits(s[1..]) then
      var v: int := Value(s[1..]); Some(if s[0] == '-' then -v else v)
    else None
  }

  /** The two results of `isAmountZero`: zero, and known. */
  function IsAmountZero(raw: string): (bool, bool) {
    var v := ParseInt(TrimSpace(raw));
    (v == Some(0), v.Some?)
  }

  /** A number is a text of digits with or without a sign, and parsing undoes printing. */
  lemma ParseMeaning(s: string, n: nat)
    ensures ParseInt(s).Some? <==>
              (s != "" && AllDigits(s)) || (|s| >= 2 && s[0] in {'+', '-'} && AllDigits(s[1..]))
    ensures ParseInt(ToDecimal(n)) == Some(n) && ParseInt("+" + ToDecimal(n)) == Some(n) && ParseInt("-" + ToDecimal(n)) == Some(-(n as int))
  {
    var t := ToDecimal(n);
    assert ("+" + t)[1..] == t && ("-" + t)[1..] == t;
    assert ("+" + t)[0] == '+' && ("-" + t)[0] == '-' && '+' in "+" + t && '-' in "-" + t;
  }

  /** A text of zeros, with or without a sign. */
  predicate ZeroText(raw: string) {
    var t := TrimSpace(raw);
    || (|t| >= 1 && forall k :: 0 <= k < |t| ==> t[k] == '0')
    || (|t| >= 2 && (t[0] == '+' || t[0] == '-') && forall k :: 1 <= k < |t| ==> t[k] == '0')
  }

  /** Parsing finds zero in exactly these texts, and a number in any text of digits. */
  lemma ZeroMeaning(raw: string)
    ensures IsAmountZero(raw).0 <==> ZeroText(raw)
    ensures WellFormedAmount(raw) ==> IsAmountZero(raw).1
  {
    var t := TrimSpace(raw);
    ZeroDigits(t);
    if |t| > 1 {
      ZeroDigits(t[1..]);
      assert forall k :: 1 <= k < |t| ==> t[k] == t[1..][k - 1];
      assert AllZeros(t[1..]) <==> forall k :: 1 <= k < |t| ==> t[k] == '0';
      if t[0] == '+' || t[0] == '-' { assert t[0] in t && !AllDigits(t); }
    }
  }

  predicate AllZeros(s: string) { forall k :: 0 <= k < |s| ==> s[k] == '0' }

  lemma ZeroDigits(s: string)
    ensures AllZeros(s) <==> AllDigits(s) && Value(s) == 0
  {
    if AllZeros(s) { assert forall c :: c in s ==> c == '0'; }
    if AllDigits(s) { ZeroValue(s); }
  }

  lemma {:induction false} ZeroValue(s: string)
    requires AllDigits(s)
    ensures Value(s) == 0 <==> forall k :: 0 <= k < |s| ==> s[k] == '0'
  {
    if s != [] {
      ZeroValue(s[..|s| - 1]);
      assert IsDigit(s[|s| - 1]);
    }
  }

  lemma {:induction false} ValueFront(c: char, s: string)
    requires IsDigit(c) && AllDigits(s)
    ensures AllDigits([c] + s)
    ensures Value([c] + s) == Digit(c) * Pow10(|s|) + Value(s)
  {
    var all := [c] + s;
    if s == [] {
      assert all[..0] == [];
    } else {
      var init := s[..|s| - 1];
      ValueFront(c, init);
      assert all[..|all| - 1] == [c] + init;
      assert 10 * (Digit(c) * Pow10(|init|)) == Digit(c) * (10 * Pow10(|init|));
    }
  }

  lemma {:induction false} ValueBelow(s: string)
    requires AllDigits(s)
    ensures Value(s) < Pow10(|s|)
  {
    if s != [] {
      var init := s[..|s| - 1];
      ValueBelow(init);
      assert IsDigit(s[|s| - 1]) && Pow10(|s|) == 10 * Pow10(|init|);
      assert Value(s) == 10 * Value(init) + Digit(s[|s| - 1]);
    }
  }

  lemma PowMonotone(m: nat, n: nat)
    requires m <= n
    ensures Pow10(m) <= Pow10(n)
    decreases n - m
  {
    if m < n { PowMonotone(m + 1, n); }
  }

  lemma ScaleUp(x: nat, p: nat)
    requires x >= 1
    ensures x * p >= p
  {
  }

  lemma LeadingDigit(s: string)
    requires s != [] && AllDigits(s) && s[0] != '0'
    ensures Value(s) >= Pow10(|s| - 1)
  {
    assert Value(s) == Digit(s[0]) * Pow10(|s| - 1) + Value(s[1..]) by {
      assert s == [s[0]] + s[1..];
      ValueFront(s[0], s[1..]);
    }
    ScaleUp(Digit(s[0]), Pow10(|s| - 1));
  }

  /** Without leading zeros, a shorter digit string is a smaller number. */
  lemma ShorterIsLess(a: string, b: string)
    requires AllDigits(a) && AllDigits(b) && |a| < |b| && b[0] != '0'
    ensures Value(a) < Value(b)
  {
    ValueBelow(a);
    PowMonotone(|a|, |b| - 1);
    LeadingDigit(b);
  }

  lemma HigherDigitDecides(x: nat, y: nat, p: nat, a: nat, b: nat)
    requires a < p && b < p
    ensures x * p + a <= y * p + b <==> x < y || (x == y && a <= b)
  {
    if x < y {
      assert (x + 1) * p <= y * p;
    } else if y < x {
      assert (y + 1) * p <= x * p;
    }
  }

  /** On digit strings of one length, byte order is numeric order. */
  lemma {:induction false} LexIsNumeric(a: string, b: string)
    requires AllDigits(a) && AllDigits(b) && |a| == |b|
    ensures LexLeq(a, b) <==> Value(a) <= Value(b)
  {
    if a != [] {
      var x, y := a[1..], b[1..];
      LexIsNumeric(x, y);
      assert Value(a) == Digit(a[0]) * Pow10(|x|) + Value(x) by { assert a == [a[0]] + x; ValueFront(a[0], x); }
      assert Value(b) == Digit(b[0]) * Pow10(|x|) + Value(y) by { assert b == [b[0]] + y; ValueFront(b[0], y); }
      ValueBelow(x);
      ValueBelow(y);
      HigherDigitDecides(Digit(a[0]), Digit(b[0]), Pow10(|x|), Value(x), Value(y));
    }
  }

  function TrimZeros(s: string): (r: string)
    requires AllDigits(s)
    ensures AllDigits(r) && (r == [] || r[0] != '0') && Value(r) == Value(s)
    ensures r == [] <==> Value(s) == 0
  {
    if s != [] && s[0] == '0' then
      assert s == ['0'] + s[1..];
      ValueFront('0', s[1..]);
      TrimZeros(s[1..])
    else
      if s != [] then LeadingDigit(s); s else s
  }

  /** The string comparison is the numeric one. */
  method AmountRawLTE(v: string, threshold: nat) returns (b: bool)
    ensures b <==> WellFormedAmount(v) && Value(TrimSpace(v)) <= threshold
  {
    var value := TrimSpace(v);
    if value == "" { return false; }
    for i := 0 to |value|
      invariant AllDigits(value[..i])
    {
      if value[i] < '0' || value[i] > '9' {
        assert value[i] in value;
        return false;
      }
      assert value[..i + 1] == value[..i] + [value[i]];
    }
    assert value[..|value|] == value;
    var trimmed := TrimZeros(value);
    if trimmed == "" { return true; }
    var text := ToDecimal(threshold);
    if |trimmed| != |text| {
      if |trimmed| < |text| {
        ShorterIsLess(trimmed, text);
      } else {
        ShorterIsLess(text, trimmed);
      }
      return |trimmed| < |text|;
    }
    LexIsNumeric(trimmed, text);
    return LexLeq(trimmed, text);
  }

  /** Whether a trimmed amount consists of zeros only. */
  method AmountRawIsZero(v: string) returns (b: bool)
    ensures b <==> WellFormedAmount(v) && Value(TrimSpace(v)) == 0
  {
    var value := TrimSpace(v);
    if value == "" { return false; }
    for i := 0 to |value|
      invariant AllDigits(value[..i]) && Value(value[..i]) == 0
    {
      assert value[..i + 1] == value[..i] + [value[i]];
      if value[i] != '0' {
        if AllDigits(value) {
          assert value == value[..i] + value[i..];
          NonZeroDigit(value, i);
        }
        return false;
      }
      assert value[..i + 1][..i] == value[..i];
    }
    assert value[..|value|] == value;
    return true;
  }

  lemma {:induction false} NonZeroDigit(s: string, i: nat)
    requires AllDigits(s) && i < |s| && s[i] != '0'
    ensures Value(s) > 0
  {
    if i < |s| - 1 {
      NonZeroDigit(s[..|s| - 1], i);
    }
  }
}
