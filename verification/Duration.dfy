/** ParseDurationToSeconds of api/v1alpha1/duration.go, on int64. */
module Duration {
  import opened Text

  datatype Parsed = Seconds(value: int) | Invalid | UnknownUnit(unit: char)

  const TWO_TO_64: int := 0x1_0000_0000_0000_0000

  /** What an int64 multiplication leaves of the product. */
  function Wrap64(n: int): (r: int)
    ensures IsInt64(r)
    ensures (r - n) % TWO_TO_64 == 0
  {
    var m := n % TWO_TO_64;
    if m <= MAX_INT64 then m else m - TWO_TO_64
  }

  predicate IsBlank(c: char) {
    c == ' ' || 9 as char <= c <= 13 as char
  }

  function TrimLeft(s: string): string {
    if s != "" && IsBlank(s[0]) then TrimLeft(s[1..]) else s
  }

  function TrimRight(s: string): string {
    if s != "" && IsBlank(s[|s| - 1]) then TrimRight(s[..|s| - 1]) else s
  }

  function TrimSpace(s: string): string {
    TrimRight(TrimLeft(s))
  }

  function ParseDurationToSeconds(text: string): Parsed {
    var s := TrimSpace(text);
    if s == "" then Seconds(0)
    else match ParseInt64(s)
      case Some(v) => Seconds(v)
      case None =>
        if |s| < 2 then Invalid
        else match ParseInt64(s[..|s| - 1])
          case None => Invalid
          case Some(num) =>
            var unit := s[|s| - 1];
            if unit == 's' then Seconds(num)
            else if unit == 'm' then Seconds(Wrap64(num * 60))
            else if unit == 'h' then Seconds(Wrap64(num * 3600))
            else if unit == 'd' then Seconds(Wrap64(num * 86400))
            else if unit == 'y' then Seconds(Wrap64(Wrap64(num * 365) * 86400))
            else UnknownUnit(unit)
  }

  predicate IsUnit(unit: char) {
    unit == 's' || unit == 'm' || unit == 'h' || unit == 'd' || unit == 'y'
  }

  /** Seconds in a unit. */
  function Factor(unit: char): int
    requires IsUnit(unit)
  {
    if unit == 's' then 1 else if unit == 'm' then 60 else if unit == 'h' then 3600
    else if unit == 'd' then 86400 else 31536000
  }

  /** Space, tab, line feed, vertical tab, form feed, carriage return. */
  ghost predicate Blank(s: string) {
    forall c :: c in s ==> c in {' ', 9 as char, 10 as char, 11 as char, 12 as char, 13 as char}
  }

  lemma BlankIff(c: char)
    ensures IsBlank(c) <==> Blank([c])
  {
    assert c in [c];
  }

  /** A number with anything but a unit behind it is refused, naming what is there. */
  lemma UnknownUnitIsNamed(n: int, c: char)
    requires !IsUnit(c) && !IsBlank(c) && !IsDigit(c)
    ensures ParseDurationToSeconds(Decimal(n) + [c]) == if IsInt64(n) then UnknownUnit(c) else Invalid
    ensures ParseDurationToSeconds("") == Seconds(0) && ParseDurationToSeconds([c]) == Invalid
  {
    var s := Decimal(n) + [c];
    DecimalEnds(n);
    assert s[0] == Decimal(n)[0];
    TrimsTo("", s, "");
    assert "" + s + "" == s;
    NoPlainNumber(s);
    assert s[..|s| - 1] == Decimal(n);
    ParseInt64OfDecimal(n);
    TrimsTo("", [c], "");
    assert "" + [c] + "" == [c];
  }

  lemma {:induction false} TrimLeftBlank(left: string, s: string)
    requires Blank(left) && s != "" && !IsBlank(s[0])
    ensures TrimLeft(left + s) == s
  {
    if left == "" {
      assert left + s == s;
    } else {
      assert left[0] in left && forall c :: c in left[1..] ==> c in left;
      assert (left + s)[1..] == left[1..] + s;
      TrimLeftBlank(left[1..], s);
    }
  }

  lemma {:induction false} TrimRightBlank(s: string, right: string)
    requires Blank(right) && s != "" && !IsBlank(s[|s| - 1])
    ensures TrimRight(s + right) == s
  {
    if right == "" {
      assert s + right == s;
    } else {
      var n := |right| - 1;
      assert right[n] in right && forall c :: c in right[..n] ==> c in right;
      assert (s + right)[..|s + right| - 1] == s + right[..n];
      TrimRightBlank(s, right[..n]);
    }
  }

  lemma TrimsTo(left: string, s: string, right: string)
    requires Blank(left) && Blank(right) && s != "" && !IsBlank(s[0]) && !IsBlank(s[|s| - 1])
    ensures TrimSpace(left + s + right) == s
  {
    assert left + s + right == left + (s + right);
    TrimLeftBlank(left, s + right);
    TrimRightBlank(s, right);
  }

  lemma DecimalEnds(n: int)
    ensures var d := Decimal(n); d != "" && !IsBlank(d[0]) && IsDigit(d[|d| - 1])
  {
    var digits := Digits(if n < 0 then -n else n);
    assert digits[0] in digits && digits[|digits| - 1] in digits;
  }

  /** A text that does not end in a digit is no plain number. */
  lemma NoPlainNumber(s: string)
    requires |s| >= 2 && !IsDigit(s[|s| - 1])
    ensures ParseInt64(s) == None
  {
  }

  /** Losing a multiple of 2^64 on the way does not change the result. */
  lemma WrapTwice(num: int)
    ensures Wrap64(Wrap64(num * 365) * 86400) == Wrap64(num * 31536000)
  {
    var a := Wrap64(num * 365);
    var q := (a - num * 365) / TWO_TO_64;
    assert a == num * 365 + q * TWO_TO_64;
    assert a * 86400 == num * 31536000 + (q * 86400) * TWO_TO_64;
    ModOfSum(num * 31536000, q * 86400);
  }

  lemma ModOfSum(x: int, k: int)
    ensures (x + k * TWO_TO_64) % TWO_TO_64 == x % TWO_TO_64
  {
  }

  /** Printing a number and a unit, with blanks around, parses back to the product as
      int64 arithmetic gives it; a number that is no int64 is refused. */
  lemma DurationRoundTrip(left: string, n: int, unit: char, right: string)
    requires Blank(left) && Blank(right) && IsUnit(unit)
    ensures ParseDurationToSeconds(left + (Decimal(n) + [unit]) + right)
         == if IsInt64(n) then Seconds(Wrap64(n * Factor(unit))) else Invalid
  {
    var s := Decimal(n) + [unit];
    DecimalEnds(n);
    TrimsTo(left, s, right);
    NoPlainNumber(s);
    assert s[..|s| - 1] == Decimal(n);
    ParseInt64OfDecimal(n);
    if IsInt64(n) {
      WrapExact(n);
      WrapTwice(n);
    }
  }

  lemma WrapExact(x: int)
    ensures Wrap64(x) == x <==> IsInt64(x)
  {
  }

  /** The result is the product exactly when the product fits. */
  lemma DurationExactIff(left: string, n: int, unit: char, right: string)
    requires Blank(left) && Blank(right) && IsUnit(unit)
    ensures ParseDurationToSeconds(left + (Decimal(n) + [unit]) + right) == Seconds(n * Factor(unit))
       <==> IsInt64(n * Factor(unit))
  {
    DurationRoundTrip(left, n, unit, right);
    var k := Factor(unit);
    WrapExact(n * k);
    if !IsInt64(n) {
      if n > 0 { assert n * k >= n; } else { assert n * k <= n; }
    }
  }

  /** A plain number counts seconds; beyond int64 it is an error. */
  lemma PlainNumber(left: string, n: int, right: string)
    requires Blank(left) && Blank(right)
    ensures var r := ParseDurationToSeconds(left + Decimal(n) + right);
            if IsInt64(n) then r == Seconds(n) else !r.Seconds?
  {
    DecimalEnds(n);
    TrimsTo(left, Decimal(n), right);
    ParseInt64OfDecimal(n);
  }
}
