/** How a generation is written in a label and read back. */
module Decimal {
  import opened Prelude

  const U64_MAX: nat := 0xFFFF_FFFF_FFFF_FFFF

  type Generation = g: nat | g <= U64_MAX

  function Digit(d: nat): (c: char)
    requires d < 10
    ensures '0' <= c <= '9'
  {
    '0' + d as char
  }

  predicate IsDigit(c: char) { '0' <= c <= '9' }

  function DigitValue(c: char): (d: nat)
    requires IsDigit(c)
    ensures d < 10
  {
    (c - '0') as nat
  }

  /** Decimal, with no leading zero. */
  function Print(n: nat): (s: string)
    ensures s != [] && forall i :: 0 <= i < |s| ==> IsDigit(s[i])
  {
    if n < 10 then [Digit(n)] else Print(n / 10) + [Digit(n % 10)]
  }

  /** The number a string of digits denotes, however large. */
  function Value(s: string): nat
    requires forall i :: 0 <= i < |s| ==> IsDigit(s[i])
  {
    if s == [] then 0 else 10 * Value(s[..|s| - 1]) + DigitValue(s[|s| - 1])
  }

  /** Read digits from the left, failing on a bad digit or as soon as the total overflows. */
  function Accumulate(s: string, total: nat): Option<nat>
    decreases |s|
  {
    if s == [] then Some(total)
    else if !IsDigit(s[0]) then None
    else
      var next := 10 * total + DigitValue(s[0]);
      if next > U64_MAX then None else Accumulate(s[1..], next)
  }

  function Unsigned(s: string): string { if s != [] && s[0] == '+' then s[1..] else s }

  /** Parse an unsigned 64-bit integer: an optional plus sign, then at least one digit. */
  function Parse(s: string): (r: Option<Generation>)
  {
    var digits := Unsigned(s);
    if digits == [] then None
    else
      AccumulateBounded(digits, 0);
      match Accumulate(digits, 0) case Some(n) => Some(n) case None => None
  }

  lemma AccumulateBounded(s: string, total: nat)
    requires total <= U64_MAX
    ensures Accumulate(s, total).Some? ==> Accumulate(s, total).value <= U64_MAX
    decreases |s|
  {
  }

  lemma {:induction false} ValueAppend(s: string, c: char)
    requires IsDigit(c) && forall i :: 0 <= i < |s| ==> IsDigit(s[i])
    ensures Value(s + [c]) == 10 * Value(s) + DigitValue(c)
  {
    assert (s + [c])[..|s|] == s;
  }

  lemma {:induction false} PrintDenotes(n: nat)
    ensures Value(Print(n)) == n
  {
    if n >= 10 {
      PrintDenotes(n / 10);
      ValueAppend(Print(n / 10), Digit(n % 10));
    } else {
      assert [Digit(n)][..0] == [];
    }
  }

  /** Reading from the left is reading the value, cut off at the largest 64-bit number. */
  lemma {:induction false} AccumulateIsValue(s: string, seen: string)
    requires forall i :: 0 <= i < |s| ==> IsDigit(s[i])
    requires forall i :: 0 <= i < |seen| ==> IsDigit(seen[i])
    requires Value(seen) <= U64_MAX
    ensures Accumulate(s, Value(seen)) == if Value(seen + s) <= U64_MAX then Some(Value(seen + s)) else None
    decreases |s|
  {
    if s == [] {
      assert seen + s == seen;
    } else {
      ValueAppend(seen, s[0]);
      assert seen + s == (seen + [s[0]]) + s[1..];
      if Value(seen + [s[0]]) <= U64_MAX {
        AccumulateIsValue(s[1..], seen + [s[0]]);
      } else {
        ValueGrows(seen + [s[0]], s[1..]);
      }
    }
  }

  lemma {:induction false} ValueGrows(s: string, more: string)
    requires forall i :: 0 <= i < |s| ==> IsDigit(s[i])
    requires forall i :: 0 <= i < |more| ==> IsDigit(more[i])
    ensures Value(s) <= Value(s + more)
    decreases |more|
  {
    if more == [] {
      assert s + more == s;
    } else {
      var n := |more| - 1;
      ValueGrows(s, more[..n]);
      assert s + more == (s + more[..n]) + [more[n]];
      ValueAppend(s + more[..n], more[n]);
    }
  }

  lemma {:induction false} AccumulateRefuses(s: string, total: nat, i: nat)
    requires i < |s| && !IsDigit(s[i])
    ensures Accumulate(s, total).None?
    decreases |s|
  {
    if i > 0 && IsDigit(s[0]) {
      AccumulateRefuses(s[1..], 10 * total + DigitValue(s[0]), i - 1);
    }
  }

  ghost predicate AllDigits(s: string) { forall i :: 0 <= i < |s| ==> IsDigit(s[i]) }

  /** Exactly what parses, and to what: after an optional plus, digits, at least one, of a value that fits 64 bits. */
  lemma ParseExactly(s: string)
    ensures
      var digits := Unsigned(s);
      Parse(s) == if digits != [] && AllDigits(digits) && Value(digits) <= U64_MAX then Some(Value(digits)) else None
  {
    var digits := Unsigned(s);
    if AllDigits(digits) {
      AccumulateIsValue(digits, []);
      assert [] + digits == digits;
    } else {
      var i :| 0 <= i < |digits| && !IsDigit(digits[i]);
      AccumulateRefuses(digits, 0, i);
    }
  }

  /** A printed number parses back exactly when it fits 64 bits. */
  lemma ParsePrint(n: nat)
    ensures Parse(Print(n)) == if n <= U64_MAX then Some(n) else None
  {
    PrintDenotes(n);
    ParseExactly(Print(n));
  }

  lemma PrintInjective(a: nat, b: nat)
    ensures Print(a) == Print(b) <==> a == b
  {
    PrintDenotes(a);
    PrintDenotes(b);
  }
}
