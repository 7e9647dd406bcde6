/**
 * Decimal text of integers as Python writes and reads it: `str(n)` and
 * `int(s)` for a string `s`.  Booking ids travel through the payment
 * providers as such text (a PayPal `reference_id`, a Stripe
 * `metadata.booking_id`) and are read back with `int(...)`.
 */
module Numerals {
  import opened Optional

  predicate IsDigit(c: char) {
    '0' <= c <= '9'
  }

  function DigitValue(c: char): (d: nat)
    requires IsDigit(c)
    ensures d < 10
  {
    (c as int) - ('0' as int)
  }

  function DigitChar(d: nat): (c: char)
    requires d < 10
    ensures IsDigit(c) && DigitValue(c) == d
  {
    ((('0' as int) + d) as char)
  }

  /** `str(n)` for a non-negative `n`: decimal digits without leading zeros. */
  function NatToString(n: nat): (s: string)
    ensures |s| > 0
    ensures forall i :: 0 <= i < |s| ==> IsDigit(s[i])
    ensures s[0] == '0' <==> n == 0
    ensures n == 0 ==> s == "0"
  {
    if n < 10 then [DigitChar(n)] else NatToString(n / 10) + [DigitChar(n % 10)]
  }

  /** `str(n)` for any integer. */
  function IntToString(n: int): string {
    if n < 0 then "-" + NatToString(-n) else NatToString(n)
  }

  /** The whitespace that `int()` strips around its argument (the ASCII part of it). */
  predicate IsSpace(c: char) {
    c == ' ' || (9 <= c as int <= 13) || (28 <= c as int <= 31)
  }

  function TrimLeft(s: string): (r: string)
    ensures |r| <= |s| && r == s[|s| - |r|..]
    ensures r != [] ==> !IsSpace(r[0])
  {
    if s != [] && IsSpace(s[0]) then TrimLeft(s[1..]) else s
  }

  function TrimRight(s: string): (r: string)
    ensures |r| <= |s| && r == s[..|r|]
    ensures r != [] ==> !IsSpace(r[|r| - 1])
  {
    if s != [] && IsSpace(s[|s| - 1]) then TrimRight(s[..|s| - 1]) else s
  }

  /**
   * The body of a base-10 integer literal as `int()` accepts it: digits,
   * possibly grouped by single underscores, starting and ending with a digit.
   */
  predicate IsDigitGroups(s: string) {
    && |s| > 0
    && IsDigit(s[0])
    && IsDigit(s[|s| - 1])
    && (forall i :: 0 <= i < |s| ==> IsDigit(s[i]) || s[i] == '_')
    && (forall i :: 0 <= i < |s| - 1 ==> s[i] == '_' ==> s[i + 1] != '_')
  }

  /** The value of digits and underscores, read left to right; underscores are skipped. */
  function GroupsValue(s: string): (v: nat)
    requires forall i :: 0 <= i < |s| ==> IsDigit(s[i]) || s[i] == '_'
  {
    if s == [] then 0
    else if s[|s| - 1] == '_' then GroupsValue(s[..|s| - 1])
    else GroupsValue(s[..|s| - 1]) * 10 + DigitValue(s[|s| - 1])
  }

  /** `int(s)`: `None` where Python raises `ValueError`. */
  function ParseInt(s: string): Option<int> {
    ParseSigned(TrimRight(TrimLeft(s)))
  }

  /** An optional sign, then the digit groups, with nothing around them. */
  function ParseSigned(t: string): Option<int> {
    if t != [] && (t[0] == '+' || t[0] == '-') then
      match ParseGroups(t[1..])
      case None => None
      case Some(v) => var w: int := v; Some(if t[0] == '-' then -w else w)
    else
      match ParseGroups(t)
      case None => None
      case Some(v) => Some(v)
  }

  function ParseGroups(b: string): Option<nat> {
    if IsDigitGroups(b) then Some(GroupsValue(b)) else None
  }

  lemma {:induction false} GroupsValueOfNatToString(n: nat)
    ensures GroupsValue(NatToString(n)) == n
  {
    if n >= 10 {
      var s := NatToString(n);
      assert s[..|s| - 1] == NatToString(n / 10);
      GroupsValueOfNatToString(n / 10);
    }
  }

  /** The digits `str` writes for a non-negative number parse back to it. */
  lemma ParseGroupsOfNatToString(n: nat)
    ensures ParseGroups(NatToString(n)) == Some(n)
  {
    GroupsValueOfNatToString(n);
  }

  /** Text with no whitespace at either end is left as it is by the trimming. */
  lemma TrimsKeep(s: string)
    requires s != [] && !IsSpace(s[0]) && !IsSpace(s[|s| - 1])
    ensures TrimRight(TrimLeft(s)) == s
  {
    assert TrimLeft(s) == s;
  }

  /** Reading back what `str` wrote gives the number: `int(str(n)) == n`. */
  lemma ParseIntOfNatToString(n: nat)
    ensures ParseInt(NatToString(n)) == Some(n)
  {
    var s := NatToString(n);
    assert IsDigit(s[0]) && IsDigit(s[|s| - 1]);
    TrimsKeep(s);
    ParseGroupsOfNatToString(n);
    assert ParseSigned(s) == ParseGroups(s);
  }

  /** The same holds for negative numbers, which `str` writes with a minus sign. */
  lemma ParseIntOfIntToString(x: int)
    ensures ParseInt(IntToString(x)) == Some(x)
  {
    if x < 0 {
      var s := IntToString(x);
      var digits := NatToString(-x);
      assert s == "-" + digits && s[1..] == digits;
      assert IsDigit(s[|s| - 1]);
      ParseGroupsOfNatToString(-x);
      assert ParseGroups(s[1..]) == Some(-x);
      assert ParseSigned(s) == Some(x);
      TrimsKeep(s);
    } else {
      ParseIntOfNatToString(x);
    }
  }
}
