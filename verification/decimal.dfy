/**
  Decimal text of integers, as Python's `str(int)` writes it and `int(str)`
  reads a plain digit string. The acknowledgement labels start with
  `str(command)`, and the wrapper generator rewrites a leading digit group
  through `str(int(...))`.
 */
module Decimal {
  import opened Values

  predicate IsDigit(c: char) {
    '0' <= c <= '9'
  }

  predicate AllDigits(s: string) {
    forall i :: 0 <= i < |s| ==> IsDigit(s[i])
  }

  /** A digit string as `str` prints a natural number: no leading zero unless it is "0". */
  predicate Canonical(s: string) {
    |s| >= 1 && AllDigits(s) && (s[0] == '0' ==> |s| == 1)
  }

  function DigitChar(d: nat): (c: char)
    requires d < 10
    ensures IsDigit(c)
  {
    ('0' as int + d) as char
  }

  function DigitValue(c: char): (d: nat)
    requires IsDigit(c)
    ensures d < 10
  {
    c as int - '0' as int
  }

  /** `str(n)` for a natural number. */
  function ShowNat(n: nat): (s: string)
    ensures Canonical(s)
    ensures s[0] == '0' <==> n == 0
    decreases n
  {
    if n < 10 then [DigitChar(n)] else ShowNat(n / 10) + [DigitChar(n % 10)]
  }

  /** `str(n)` for any integer: a minus sign, then the digits of the magnitude. */
  function Show(n: int): (s: string)
    ensures |s| >= 1
    ensures forall i :: 0 <= i < |s| ==> IsDigit(s[i]) || (i == 0 && s[i] == '-')
    ensures s[0] == '-' <==> n < 0
  {
    if n < 0 then "-" + ShowNat(-n) else ShowNat(n)
  }

  /** `int(s)` for a string of ASCII digits (leading zeros allowed). */
  function Value(s: string): nat
    requires AllDigits(s)
  {
    if s == [] then 0 else Value(s[..|s| - 1]) * 10 + DigitValue(s[|s| - 1])
  }

  /** Reads back what `Show` writes: an optional minus sign and at least one digit. */
  function ReadInt(s: string): Option<int> {
    if |s| >= 2 && s[0] == '-' && AllDigits(s[1..]) then
      var magnitude: int := Value(s[1..]);
      Some(-magnitude)
    else if |s| >= 1 && AllDigits(s) then Some(Value(s))
    else None
  }

  /** The digits of `s` without its leading zeros, or "0" when nothing else is left. */
  function DropLeadingZeros(s: string): (r: string)
    requires |s| >= 1 && AllDigits(s)
    ensures Canonical(r)
    ensures |r| <= |s| && r == s[|s| - |r|..]
  {
    if s[0] == '0' && |s| >= 2 then DropLeadingZeros(s[1..]) else s
  }

  lemma {:induction false} ValueOfShowNat(n: nat)
    ensures Value(ShowNat(n)) == n
    decreases n
  {
    var s := ShowNat(n);
    if n >= 10 {
      ValueOfShowNat(n / 10);
      assert s[..|s| - 1] == ShowNat(n / 10);
    }
  }

  lemma {:induction false} ValueIgnoresLeadingZero(s: string)
    requires AllDigits(s)
    ensures AllDigits(['0'] + s) && Value(['0'] + s) == Value(s)
    decreases |s|
  {
    var t := ['0'] + s;
    if s != [] {
      assert t[..|t| - 1] == ['0'] + s[..|s| - 1];
      ValueIgnoresLeadingZero(s[..|s| - 1]);
    }
  }

  lemma {:induction false} ValueOfDropLeadingZeros(s: string)
    requires |s| >= 1 && AllDigits(s)
    ensures Value(DropLeadingZeros(s)) == Value(s)
    decreases |s|
  {
    if s[0] == '0' && |s| >= 2 {
      ValueOfDropLeadingZeros(s[1..]);
      assert s == ['0'] + s[1..];
      ValueIgnoresLeadingZero(s[1..]);
    }
  }

  lemma {:induction false} ValuePositive(s: string)
    requires Canonical(s) && s[0] != '0'
    ensures Value(s) >= 1
    decreases |s|
  {
    if |s| >= 2 {
      ValuePositive(s[..|s| - 1]);
    }
  }

  /** `str(int(s))` is the identity on the digit strings `str` produces. */
  lemma {:induction false} ShowNatOfValue(s: string)
    requires Canonical(s)
    ensures ShowNat(Value(s)) == s
    decreases |s|
  {
    var p := s[..|s| - 1];
    if |s| >= 2 {
      ValuePositive(p);
      ShowNatOfValue(p);
      assert DigitChar(DigitValue(s[|s| - 1])) == s[|s| - 1];
      assert s == p + [s[|s| - 1]];
    } else {
      assert DigitChar(DigitValue(s[0])) == s[0];
    }
  }

  /** `str(int(s))` on a digit string drops exactly its leading zeros. */
  lemma IntThenStr(s: string)
    requires |s| >= 1 && AllDigits(s)
    ensures ShowNat(Value(s)) == DropLeadingZeros(s)
  {
    ValueOfDropLeadingZeros(s);
    ShowNatOfValue(DropLeadingZeros(s));
  }

  /** Every integer's decimal text reads back as that integer. */
  lemma ReadShow(n: int)
    ensures ReadInt(Show(n)) == Some(n)
  {
    if n < 0 {
      var s := Show(n);
      assert s[1..] == ShowNat(-n);
      ValueOfShowNat(-n);
    } else {
      ValueOfShowNat(n);
    }
  }

  /** Distinct integers have distinct decimal texts. */
  lemma ShowInjective(m: int, n: int)
    ensures Show(m) == Show(n) <==> m == n
  {
    ReadShow(m);
    ReadShow(n);
  }
}
