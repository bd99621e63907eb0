/** The pieces of Rust's standard library that the modifier relies on:
    the `u64` width, `str::split_once('.')`, `u64::from_str` and
    `u64::to_string`. */
module Primitives {
  import opened Wrappers

  const U64_MAX: int := 0xFFFF_FFFF_FFFF_FFFF

  /** Rust's `u64`: the range of every version number and pre-release counter. */
  type u64 = x: int | 0 <= x <= U64_MAX

  // ---------------------------------------------------------------------
  // Splitting at the first dot (`str::split_once('.')`)
  // ---------------------------------------------------------------------

  /** Position of the first '.' in `s` at or after `from`, if any. */
  function IndexOfDotFrom(s: string, from: nat): (r: Option<nat>)
    requires from <= |s|
    ensures r.None? ==> forall j | from <= j < |s| :: s[j] != '.'
    ensures r.Some? ==> from <= r.value < |s| && s[r.value] == '.'
    ensures r.Some? ==> forall j | from <= j < r.value :: s[j] != '.'
    decreases |s| - from
  {
    if from == |s| then None
    else if s[from] == '.' then Some(from)
    else IndexOfDotFrom(s, from + 1)
  }

  /** Position of the first '.' in `s`, if any. */
  function IndexOfDot(s: string): (r: Option<nat>)
    ensures r.None? <==> '.' !in s
    ensures r.Some? ==> r.value < |s| && s[r.value] == '.' && '.' !in s[..r.value]
  {
    var r := IndexOfDotFrom(s, 0);
    assert r.Some? ==> '.' !in s[..r.value] by {
      if r.Some? {
        forall j | 0 <= j < r.value ensures s[..r.value][j] != '.' { }
      }
    }
    r
  }

  /** `s.split_once('.')`: the text before and after the first dot. */
  function SplitOnce(s: string): (r: Option<(string, string)>)
    ensures r.None? <==> '.' !in s
    ensures r.Some? ==> s == r.value.0 + "." + r.value.1 && '.' !in r.value.0
  {
    match IndexOfDot(s)
    case None => None
    case Some(i) =>
      assert s == s[..i] + "." + s[i + 1..];
      Some((s[..i], s[i + 1..]))
  }

  /** Splitting `a + "." + b` with a dot-free `a` gives back `a` and `b`. */
  lemma SplitOnceOfJoin(a: string, b: string)
    requires '.' !in a
    ensures SplitOnce(a + "." + b) == Some((a, b))
  {
    var s := a + "." + b;
    assert s[|a|] == '.';
    assert s[..|a|] == a;
    assert s[|a| + 1..] == b;
  }

  // ---------------------------------------------------------------------
  // Decimal digits
  // ---------------------------------------------------------------------

  predicate IsDigit(c: char) {
    '0' <= c <= '9'
  }

  predicate AllDigits(s: string) {
    forall i | 0 <= i < |s| :: IsDigit(s[i])
  }

  function DigitValue(c: char): (d: nat)
    requires IsDigit(c)
    ensures d < 10
  {
    c as int - '0' as int
  }

  function DigitChar(d: nat): (c: char)
    requires d < 10
    ensures IsDigit(c) && DigitValue(c) == d
  {
    ('0' as int + d) as char
  }

  /** The number a string of decimal digits denotes (leading zeros allowed). */
  function DigitsValue(s: string): nat
    requires AllDigits(s)
  {
    if s == [] then 0 else DigitsValue(s[..|s| - 1]) * 10 + DigitValue(s[|s| - 1])
  }

  // ---------------------------------------------------------------------
  // `u64::from_str` and `u64::to_string`
  // ---------------------------------------------------------------------

  /** `u64::from_str(s)`: an optional leading '+', then at least one decimal
      digit; leading zeros are accepted; a value above `u64::MAX` is an error. */
  function ParseU64(s: string): (r: Option<u64>)
    ensures r.Some? ==> s != "" && s != "+" && (s[0] == '+' || IsDigit(s[0])) && forall i | 1 <= i < |s| :: IsDigit(s[i])
    ensures s != "" && AllDigits(s) ==>
      (r.Some? <==> DigitsValue(s) <= U64_MAX) && (r.Some? ==> r.value == DigitsValue(s))
    ensures |s| > 1 && s[0] == '+' && AllDigits(s[1..]) ==>
      (r.Some? <==> DigitsValue(s[1..]) <= U64_MAX) && (r.Some? ==> r.value == DigitsValue(s[1..]))
  {
    var t := if |s| > 0 && s[0] == '+' then s[1..] else s;
    if t != [] && AllDigits(t) && DigitsValue(t) <= U64_MAX then
      assert forall i | 1 <= i < |s| :: IsDigit(s[i]) by {
        forall i | 1 <= i < |s| ensures IsDigit(s[i]) {
          if s[0] == '+' { assert s[i] == t[i - 1]; } else { assert s[i] == t[i]; }
        }
      }
      Some(DigitsValue(t))
    else
      None
  }

  /** `n.to_string()`: the shortest decimal numeral of `n`. */
  function Decimal(n: nat): (r: string)
    ensures r != [] && AllDigits(r) && DigitsValue(r) == n
    ensures (r[0] == '0') <==> n == 0
    ensures |r| > 1 ==> r[0] != '0'
  {
    if n < 10 then [DigitChar(n)]
    else
      var p := Decimal(n / 10);
      var r := p + [DigitChar(n % 10)];
      assert r[..|r| - 1] == p;
      r
  }

  /** Printing a `u64` and parsing it back gives the same number. */
  lemma ParseDecimal(n: u64)
    ensures ParseU64(Decimal(n)) == Some(n)
  {
  }

  /** A digit string without a leading zero denotes a positive number
      unless it is the single digit 0. */
  lemma {:induction false} DigitsValuePositive(s: string)
    requires s != [] && AllDigits(s) && s[0] != '0'
    ensures DigitsValue(s) >= 1
  {
    if |s| > 1 {
      DigitsValuePositive(s[..|s| - 1]);
    }
  }

  /** Printing the value of a digit string without a leading zero gives
      back the same string. */
  lemma {:induction false} DecimalOfDigits(s: string)
    requires s != [] && AllDigits(s) && (|s| > 1 ==> s[0] != '0')
    ensures Decimal(DigitsValue(s)) == s
  {
    if |s| > 1 {
      var p := s[..|s| - 1];
      assert p[0] == s[0];
      DigitsValuePositive(p);
      DecimalOfDigits(p);
      var n := DigitsValue(s);
      assert n / 10 == DigitsValue(p) && n % 10 == DigitValue(s[|s| - 1]);
      assert s == p + [s[|s| - 1]];
    }
  }
}
