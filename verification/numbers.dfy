/** `parseInt(s)` without a radix argument, on the integers it can
    produce: leading white space is skipped, an optional sign is read, a
    `0x`/`0X` prefix selects base 16, and the longest run of digits that
    follows is the value; no digit at all is `NaN`, here `None`. */
module Numbers {
  import opened Wrappers
  import opened Strings

  predicate IsDigit(c: char) {
    '0' <= c <= '9'
  }

  predicate IsHexDigit(c: char) {
    IsDigit(c) || 'a' <= c <= 'f' || 'A' <= c <= 'F'
  }

  function HexDigitValue(c: char): (v: nat)
    requires IsHexDigit(c)
    ensures v < 16
  {
    if IsDigit(c) then c as int - '0' as int
    else if 'a' <= c <= 'f' then c as int - 'a' as int + 10
    else c as int - 'A' as int + 10
  }

  /** The length of the longest prefix of `s` whose characters are digits
      of `base` (10 or 16). */
  function DigitRun(s: string, base: nat): (n: nat)
    ensures n <= |s|
    ensures forall i :: 0 <= i < n ==> (if base == 16 then IsHexDigit(s[i]) else IsDigit(s[i]))
    ensures n < |s| ==> !(if base == 16 then IsHexDigit(s[n]) else IsDigit(s[n]))
  {
    if |s| > 0 && (if base == 16 then IsHexDigit(s[0]) else IsDigit(s[0])) then 1 + DigitRun(s[1..], base)
    else 0
  }

  /** The value of a digit string in `base`, most significant digit first. */
  function Value(s: string, base: nat): (v: nat)
    requires forall i :: 0 <= i < |s| ==> IsHexDigit(s[i])
  {
    if |s| == 0 then 0
    else Value(s[..|s| - 1], base) * base + HexDigitValue(s[|s| - 1])
  }

  /** The unsigned part, after the sign. */
  function ParseUnsigned(s: string): (r: Option<nat>)
    ensures r.Some? ==> exists i :: 0 <= i < |s| && IsHexDigit(s[i])
  {
    if |s| >= 2 && s[0] == '0' && (s[1] == 'x' || s[1] == 'X') then
      var t := s[2..];
      var n := DigitRun(t, 16);
      if n == 0 then None else Some(Value(t[..n], 16))
    else
      var n := DigitRun(s, 10);
      if n == 0 then None else Some(Value(s[..n], 10))
  }

  /** `parseInt(s)`: `None` where JavaScript yields `NaN`. */
  function ParseInt(s: string): (r: Option<int>)
    ensures r.Some? ==> exists i :: 0 <= i < |s| && IsHexDigit(s[i])
  {
    var t := TrimStart(s);
    var k := |s| - |t|;
    if |t| > 0 && t[0] == '-' then
      match ParseUnsigned(t[1..])
      case None => None
      case Some(n) =>
        DigitInSuffix(s, k + 1, t[1..]);
        Some(-(n as int))
    else
      var signed := |t| > 0 && t[0] == '+';
      var u := if signed then t[1..] else t;
      match ParseUnsigned(u)
      case None => None
      case Some(n) =>
        DigitInSuffix(s, if signed then k + 1 else k, u);
        Some(n)
  }

  /** A digit of a suffix of `s` is a digit of `s`. */
  lemma DigitInSuffix(s: string, k: nat, u: string)
    requires k <= |s| && u == s[k..]
    requires exists i :: 0 <= i < |u| && IsHexDigit(u[i])
    ensures exists i :: 0 <= i < |s| && IsHexDigit(s[i])
  {
    var i :| 0 <= i < |u| && IsHexDigit(u[i]);
    assert s[k + i] == u[i];
  }

  function DigitChar(d: nat): (c: char)
    requires d < 10
    ensures IsDigit(c) && HexDigitValue(c) == d
  {
    ('0' as int + d) as char
  }

  /** The decimal digits of `n`, without leading zeros. */
  function Digits(n: nat): (s: string)
    ensures |s| > 0
    ensures forall i :: 0 <= i < |s| ==> IsDigit(s[i])
    ensures |s| > 1 ==> s[0] != '0'
  {
    if n < 10 then [DigitChar(n)] else Digits(n / 10) + [DigitChar(n % 10)]
  }

  /** `String(n)` for an integer. */
  function ToDecimal(n: int): string {
    if n < 0 then "-" + Digits(-n) else Digits(n)
  }

  lemma {:induction false} DigitsValue(n: nat)
    ensures Value(Digits(n), 10) == n
  {
    if n >= 10 {
      var s := Digits(n);
      DigitsValue(n / 10);
      assert s[..|s| - 1] == Digits(n / 10);
    }
  }

  lemma DigitRunAll(s: string)
    requires forall i :: 0 <= i < |s| ==> IsDigit(s[i])
    ensures DigitRun(s, 10) == |s|
  {
  }

  /** A run of decimal digits that is not a `0x` prefix parses to its
      value. */
  lemma ParseUnsignedDecimal(s: string, n: nat)
    requires n <= |s| && forall i :: 0 <= i < n ==> IsDigit(s[i])
    requires n > 0 && DigitRun(s, 10) == n
    requires !(|s| >= 2 && s[0] == '0' && (s[1] == 'x' || s[1] == 'X'))
    ensures ParseUnsigned(s) == Some(Value(s[..n], 10))
  {
  }

  lemma NoLeadingSpace(s: string)
    requires |s| > 0 && (IsDigit(s[0]) || s[0] == '-')
    ensures TrimStart(s) == s
  {
    assert !IsSpace(s[0]);
  }

  /** `parseInt(String(n)) == n`: printing an integer and parsing it back
      is the identity. */
  lemma ParseIntToDecimal(n: int)
    ensures ParseInt(ToDecimal(n)) == Some(n)
  {
    var m := if n < 0 then -n else n;
    var d := Digits(m);
    DigitsValue(m);
    DigitRunAll(d);
    assert d[..|d|] == d;
    ParseUnsignedDecimal(d, |d|);
    var s := ToDecimal(n);
    NoLeadingSpace(s);
    if n < 0 {
      assert s[1..] == d;
    }
  }

  /** A number followed by text that does not start with a digit parses
      as the number alone. */
  lemma ParseIntStopsAtNonDigit(n: nat, rest: string)
    requires |rest| > 0 && !IsDigit(rest[0]) && rest[0] != 'x' && rest[0] != 'X'
    ensures ParseInt(Digits(n) + rest) == Some(n)
  {
    var d := Digits(n);
    var s := d + rest;
    DigitsValue(n);
    DigitRunPrefix(d, rest);
    assert s[..|d|] == d;
    assert s[0] == d[0];
    if |d| > 1 {
      assert s[1] == d[1];
    } else {
      assert s[1] == rest[0];
    }
    ParseUnsignedDecimal(s, |d|);
    NoLeadingSpace(s);
    assert ParseUnsigned(s) == Some(n);
  }

  lemma {:induction false} DigitRunPrefix(d: string, rest: string)
    requires forall i :: 0 <= i < |d| ==> IsDigit(d[i])
    requires |rest| > 0 && !IsDigit(rest[0])
    ensures DigitRun(d + rest, 10) == |d|
  {
    if |d| > 0 {
      assert (d + rest)[1..] == d[1..] + rest;
      DigitRunPrefix(d[1..], rest);
    }
  }

  /** `parseInt("")` and `parseInt(undefined)` are `NaN`. */
  lemma ParseIntEmpty()
    ensures ParseInt("").None?
  {
  }
}
