/** Parsing of unsigned integers as Rust's `from_str_radix` and `str::parse` do it. */
module Numeric {
  import opened Wrappers

  /** Value of `c` as a digit in base `radix` (2..36), letters of either case. */
  function DigitValue(c: char, radix: nat): (r: Option<nat>)
    requires 2 <= radix <= 36
    ensures r.Some? ==> r.value < radix
  {
    var v :=
      if '0' <= c <= '9' then c as int - '0' as int
      else if 'a' <= c <= 'z' then c as int - 'a' as int + 10
      else if 'A' <= c <= 'Z' then c as int - 'A' as int + 10
      else 36;
    if v < radix then Some(v) else None
  }

  /** Value of a non-empty run of digits, or None when some character is not a digit. */
  function DigitsValue(s: string, radix: nat): (r: Option<nat>)
    requires 2 <= radix <= 36
    decreases |s|
  {
    if s == [] then Some(0)
    else
      match (DigitsValue(s[..|s| - 1], radix), DigitValue(s[|s| - 1], radix))
      case (Some(hi), Some(d)) => Some(hi * radix + d)
      case _ => None
  }

  /** Rust's `uN::from_str_radix(s, radix)` where `limit` is 2^N: an optional
      leading '+', then at least one digit; a value of `limit` or more overflows. */
  function ParseUnsigned(s: string, radix: nat, limit: nat): (r: Option<nat>)
    requires 2 <= radix <= 36
    ensures r.Some? ==> r.value < limit
    ensures s == [] ==> r.None?
  {
    var digits := if |s| > 0 && s[0] == '+' then s[1..] else s;
    if digits == [] then None
    else
      match DigitsValue(digits, radix)
      case Some(v) => if v < limit then Some(v) else None
      case None => None
  }

  lemma {:induction false} DigitsValueFailsOnNonDigit(s: string, radix: nat, i: nat)
    requires 2 <= radix <= 36
    requires i < |s| && DigitValue(s[i], radix).None?
    ensures DigitsValue(s, radix).None?
    decreases |s|
  {
    if i < |s| - 1 {
      assert s[..|s| - 1][i] == s[i];
      DigitsValueFailsOnNonDigit(s[..|s| - 1], radix, i);
    }
  }

  /** A character outside the digits (other than a leading '+') makes parsing fail. */
  lemma ParseFailsOnNonDigit(s: string, radix: nat, limit: nat, i: nat)
    requires 2 <= radix <= 36
    requires 0 < i < |s| && DigitValue(s[i], radix).None?
    ensures ParseUnsigned(s, radix, limit).None?
  {
    var digits := if s[0] == '+' then s[1..] else s;
    if s[0] == '+' {
      assert digits[i - 1] == s[i];
      DigitsValueFailsOnNonDigit(digits, radix, i - 1);
    } else {
      DigitsValueFailsOnNonDigit(digits, radix, i);
    }
  }

  /** The share `part / whole` of a non-empty whole, in [0, 1]. */
  function Share(part: nat, whole: nat): (r: real)
    requires 0 < whole && part <= whole
    ensures 0.0 <= r <= 1.0
    ensures r * whole as real == part as real
    ensures part > 0 ==> r > 0.0
  {
    var p, w := part as real, whole as real;
    ShareFacts(p, w);
    p / w
  }

  /** Real division by a positive whole: the quotient times the whole is the part. */
  lemma ShareFacts(p: real, w: real)
    requires 0.0 <= p <= w && 0.0 < w
    ensures p / w * w == p
    ensures 0.0 <= p / w <= 1.0
    ensures p > 0.0 ==> p / w > 0.0
  {
    var r := p / w;
    assert r * w == p;
  }
}
