/**
  Decimal text of exit codes: what `fmt.Sprintf("%d")` writes and `fmt.Sscanf("%d")` reads back.
 */
module Decimal {
  import opened Selection

  /** Go's `int` on a 64-bit platform. */
  type Int64 = n: int | -0x8000_0000_0000_0000 <= n < 0x8000_0000_0000_0000

  predicate IsDigit(c: char) {
    '0' <= c <= '9'
  }

  function Digit(d: nat): (c: char)
    requires d < 10
    ensures IsDigit(c) && DigitOf(c) == d
  {
    (d + '0' as int) as char
  }

  function DigitOf(c: char): (d: nat)
    requires IsDigit(c)
  {
    c as int - '0' as int
  }

  function NatToText(n: nat): (s: string)
    ensures s != [] && forall i :: 0 <= i < |s| ==> IsDigit(s[i])
  {
    if n < 10 then [Digit(n)] else NatToText(n / 10) + [Digit(n % 10)]
  }

  /** The text `%d` formats an exit code to. */
  function ToText(n: int): (s: string) {
    if n < 0 then "-" + NatToText(0 - n) else NatToText(n)
  }

  /** The longest prefix of `s` made of digits. */
  function LeadingDigits(s: string): (r: string)
    ensures r <= s && forall i :: 0 <= i < |r| ==> IsDigit(r[i])
  {
    if s == [] || !IsDigit(s[0]) then [] else [s[0]] + LeadingDigits(s[1..])
  }

  function DigitsValue(s: string): (n: nat)
    requires forall i :: 0 <= i < |s| ==> IsDigit(s[i])
  {
    if s == [] then 0 else 10 * DigitsValue(s[..|s| - 1]) + DigitOf(s[|s| - 1])
  }

  /** What scanning counts as a space; a line break is none, and ends the scan. */
  predicate IsSpace(c: char) {
    var n := c as int;
    || n == 0x09 || 0x0B <= n <= 0x0D || n == 0x20 || n == 0x85 || n == 0xA0 || n == 0x1680 || 0x2000 <= n <= 0x200A
    || n == 0x2028 || n == 0x2029 || n == 0x202F || n == 0x205F || n == 0x3000
  }

  function SkipSpaces(s: string): (r: string) {
    if s != [] && IsSpace(s[0]) then SkipSpaces(s[1..]) else s
  }

  /** `Sscanf(s, "%d", &n)`: after any spaces an optional sign and decimal digits that fit a 64-bit
      integer; anything else leaves the destination unchanged (`None`). */
  function Scan(s: string): (r: Option<int>) {
    ScanHere(SkipSpaces(s))
  }

  function ScanHere(s: string): (r: Option<int>) {
    var neg := s != [] && s[0] == '-';
    var body := if s != [] && (s[0] == '-' || s[0] == '+') then s[1..] else s;
    var digits := LeadingDigits(body);
    var value: int := if neg then 0 - DigitsValue(digits) else DigitsValue(digits);
    if digits == [] || !(-0x8000_0000_0000_0000 <= value < 0x8000_0000_0000_0000) then None else Some(value)
  }

  lemma {:induction false} AllDigitsLead(s: string)
    requires forall i :: 0 <= i < |s| ==> IsDigit(s[i])
    ensures LeadingDigits(s) == s
  {
    if s != [] {
      AllDigitsLead(s[1..]);
    }
  }

  lemma {:induction false} NatTextValue(n: nat)
    ensures DigitsValue(NatToText(n)) == n
  {
    if n < 10 {
      assert [Digit(n)][..0] == [];
    } else {
      NatTextValue(n / 10);
      var s := NatToText(n);
      assert s[..|s| - 1] == NatToText(n / 10);
    }
  }

  /** Reading back a formatted exit code gives that exit code. */
  lemma ScanToText(n: Int64)
    ensures Scan(ToText(n)) == Some(n)
  {
    var m: nat := if n < 0 then -(n as int) else n;
    assert SkipSpaces(ToText(n)) == ToText(n);
    AllDigitsLead(NatToText(m));
    NatTextValue(m);
    if n < 0 {
      assert ToText(n)[1..] == NatToText(m);
    } else {
      assert IsDigit(ToText(n)[0]);
    }
  }

  predicate AllDigits(s: string) {
    forall i :: 0 <= i < |s| ==> IsDigit(s[i])
  }

  lemma {:induction false} DigitsLead(digits: string, rest: string)
    requires AllDigits(digits) && (rest == [] || !IsDigit(rest[0]))
    ensures LeadingDigits(digits + rest) == digits
  {
    if digits == [] {
      assert digits + rest == rest;
    } else {
      assert (digits + rest)[1..] == digits[1..] + rest;
      DigitsLead(digits[1..], rest);
    }
  }

  lemma {:induction false} SpacesSkipped(spaces: string, s: string)
    requires (forall i :: 0 <= i < |spaces| ==> IsSpace(spaces[i])) && (s == [] || !IsSpace(s[0]))
    ensures SkipSpaces(spaces + s) == s
  {
    if spaces == [] {
      assert spaces + s == s;
    } else {
      assert (spaces + s)[1..] == spaces[1..] + s;
      SpacesSkipped(spaces[1..], s);
    }
  }

  /** What is read: after spaces and at most one sign, the digits up to the first other character, in
      base ten; without a digit, or out of range, nothing. */
  lemma ScanReads(spaces: string, sign: string, digits: string, rest: string)
    requires forall i :: 0 <= i < |spaces| ==> IsSpace(spaces[i])
    requires (sign == "" || sign == "-" || sign == "+") && AllDigits(digits) && (rest == [] || !IsDigit(rest[0]))
    requires sign == "" && digits == "" ==> rest == [] || (!IsSpace(rest[0]) && rest[0] != '-' && rest[0] != '+')
    ensures var n: int := if sign == "-" then 0 - DigitsValue(digits) else DigitsValue(digits);
            Scan(spaces + sign + digits + rest) ==
            if digits != "" && -0x8000_0000_0000_0000 <= n < 0x8000_0000_0000_0000 then Some(n) else None
  {
    hide SkipSpaces, LeadingDigits, DigitsValue;
    var s := sign + (digits + rest);
    assert s == [] || !IsSpace(s[0]);
    assert spaces + sign + digits + rest == spaces + s;
    SpacesSkipped(spaces, s);
    DigitsLead(digits, rest);
    if sign == "" {
      assert s == digits + rest;
    } else {
      assert s[1..] == digits + rest;
    }
  }

  /** The value of digits, one after the other, in base ten. */
  lemma DigitAppended(digits: string, d: nat)
    requires AllDigits(digits) && d < 10
    ensures AllDigits(digits + [('0' as int + d) as char])
    ensures DigitsValue("") == 0 && DigitsValue(digits + [('0' as int + d) as char]) == 10 * DigitsValue(digits) + d
  {
    var more := digits + [('0' as int + d) as char];
    assert more[..|more| - 1] == digits;
  }
}
