/** The hand-written decimal printer, and why round identifiers do not collide. */
module Decimal {

  predicate AllDigits(s: string) {
    forall i | 0 <= i < |s| :: '0' <= s[i] <= '9'
  }

  function Digit(d: nat): (c: char)
    requires d < 10
    ensures '0' <= c <= '9'
  {
    ((('0' as int) + d) as char)
  }

  function Digits(n: nat): (s: string)
    ensures AllDigits(s)
  {
    if n == 0 then "" else Digits(n / 10) + [Digit(n % 10)]
  }

  function Dec(n: nat): (s: string)
    ensures s != "" && AllDigits(s)
  {
    if n == 0 then "0" else Digits(n)
  }

  method PrintDecimal(n: nat) returns (out: string)
    ensures out == Dec(n)
  {
    if n == 0 {
      return "0";
    }
    out := "";
    var rest := n;
    while rest > 0
      invariant Digits(rest) + out == Digits(n)
    {
      ghost var before, tail := rest, out;
      out := [Digit(rest % 10)] + out;
      rest := rest / 10;
      assert Digits(rest) + out == Digits(before) + tail;
    }
  }

  /** The number a string of digits denotes. */
  function Value(s: string): nat
    requires AllDigits(s)
  {
    if s == "" then 0 else Value(s[..|s| - 1]) * 10 + (s[|s| - 1] as int - '0' as int)
  }

  lemma {:induction false} DigitsValue(n: nat)
    ensures Value(Digits(n)) == n
  {
    if n > 0 {
      DigitsValue(n / 10);
      var s := Digits(n);
      assert s[..|s| - 1] == Digits(n / 10);
    }
  }

  lemma DecValue(n: nat)
    ensures Value(Dec(n)) == n
  {
    DigitsValue(n);
    assert "0"[..0] == "";
  }

  lemma DecInjective(a: nat, b: nat)
    requires Dec(a) == Dec(b)
    ensures a == b
  {
    DecValue(a);
    DecValue(b);
  }

  /** A whole number with its sign. */
  function IntStr(v: int): string {
    if v < 0 then "-" + Dec(-v) else Dec(v)
  }

  lemma IntStrInjective(v: int, w: int)
    ensures IntStr(v) == IntStr(w) <==> v == w
  {
    hide Dec, AllDigits;
    SignShows(v);
    SignShows(w);
    if IntStr(v) == IntStr(w) {
      if v < 0 && w < 0 {
        DecInjective(-v, -w);
      } else if v >= 0 && w >= 0 {
        DecInjective(v, w);
      }
    }
  }

  lemma SignShows(v: int)
    ensures var s := IntStr(v); s != "" && (s[0] == '-' <==> v < 0) && (v < 0 ==> s[1..] == Dec(-v))
  {
    hide Dec;
  }
}
