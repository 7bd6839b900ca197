/** Decimal text of integers, as the relay stores bid values and validator indices in Redis. */
module Decimal {
  import opened RelayTypes

  predicate IsDigit(c: char) { '0' <= c <= '9' }

  function DigitValue(c: char): (d: nat)
    requires IsDigit(c)
    ensures d < 10
  {
    c as int - '0' as int
  }

  function Digit(d: nat): (c: char)
    requires d < 10
    ensures IsDigit(c) && DigitValue(c) == d
  {
    ('0' as int + d) as char
  }

  // The canonical text of n: no sign, no leading zero.
  function ToText(n: nat): string {
    if n < 10 then [Digit(n)] else ToText(n / 10) + [Digit(n % 10)]
  }

  // Unsigned parse: digits only, at least one.
  function ParseUint(s: string): Option<nat> {
    if s == [] || !IsDigit(s[|s| - 1]) then None
    else if |s| == 1 then Some(DigitValue(s[0]))
    else match ParseUint(s[..|s| - 1])
      case None => None
      case Some(n) => Some(10 * n + DigitValue(s[|s| - 1]))
  }

  // Signed parse, as a big integer reads base-10 text.
  function ParseInt(s: string): Option<int> {
    var signed := s != [] && (s[0] == '-' || s[0] == '+');
    match ParseUint(if signed then s[1..] else s)
    case None => None
    case Some(n) =>
      var m: int := if signed && s[0] == '-' then -(n as int) else n;
      Some(m)
  }

  // Parse into 64 bits, rejecting what does not fit.
  function ParseUint64(s: string): Option<nat> {
    match ParseUint(s)
    case None => None
    case Some(n) => if n < 0x1_0000_0000_0000_0000 then Some(n) else None
  }

  function PowerOfTen(k: nat): nat { if k == 0 then 1 else 10 * PowerOfTen(k - 1) }

  // The value of a digit string by position.
  function Positional(s: string): int {
    if s == [] then 0 else (s[0] as int - '0' as int) * PowerOfTen(|s| - 1) + Positional(s[1..])
  }

  lemma {:induction false} PositionalAppend(s: string, c: char)
    ensures Positional(s + [c]) == 10 * Positional(s) + (c as int - '0' as int)
  {
    if s == [] {
      assert s + [c] == [c];
      assert Positional([c]) == (c as int - '0' as int) * PowerOfTen(0) + Positional([]);
    } else {
      assert (s + [c])[1..] == s[1..] + [c];
      PositionalAppend(s[1..], c);
      var d := s[0] as int - '0' as int;
      assert d * PowerOfTen(|s|) == 10 * (d * PowerOfTen(|s| - 1));
    }
  }

  // The text of n consists of the digits 0 to 9, has the positional value n, and no leading zero.
  lemma {:induction false} TextIsDecimal(n: nat)
    ensures Positional(ToText(n)) == n
    ensures |ToText(n)| > 0 && forall i :: 0 <= i < |ToText(n)| ==> '0' <= ToText(n)[i] <= '9'
    ensures ToText(n)[0] == '0' <==> n == 0
  {
    if n < 10 {
      PositionalAppend([], Digit(n));
      assert [] + [Digit(n)] == ToText(n);
    } else {
      TextIsDecimal(n / 10);
      PositionalAppend(ToText(n / 10), Digit(n % 10));
    }
  }

  lemma {:induction false} ParseUintOfText(n: nat)
    ensures ParseUint(ToText(n)) == Some(n)
    ensures ToText(n) != [] && IsDigit(ToText(n)[0])
  {
    if n >= 10 {
      ParseUintOfText(n / 10);
      var s := ToText(n);
      assert s[..|s| - 1] == ToText(n / 10);
    }
  }

  // Text written for n is read back as n.
  lemma {:induction false} ParseIntOfText(n: nat)
    ensures ParseInt(ToText(n)) == Some(n)
  {
    ParseUintOfText(n);
  }

  // Different numbers have different texts, so the text determines the number.
  lemma TextIsInjective(m: nat, n: nat)
    ensures ToText(m) == ToText(n) <==> m == n
  {
    ParseUintOfText(m);
    ParseUintOfText(n);
  }
}
