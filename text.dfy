/** String helpers shared by the modules: substring search, ASCII case mapping,
    UTF-8 byte length, decimal rendering and line splitting. */
module Text {
  import opened Wrappers

  predicate StartsWith(s: string, p: string) {
    |p| <= |s| && s[..|p|] == p
  }

  predicate EndsWith(s: string, p: string) {
    |p| <= |s| && s[|s| - |p|..] == p
  }

  /** `p` occurs in `s` at index `i`. */
  predicate OccursAt<T(==)>(s: seq<T>, p: seq<T>, i: int) {
    0 <= i && i + |p| <= |s| && s[i..i + |p|] == p
  }

  /** The first occurrence of `p` in `s` at or after `from`
      (Rust's `windows(..).position(..)` and `str::find`). */
  function Position<T(==)>(s: seq<T>, p: seq<T>, from: nat): (r: Option<nat>)
    ensures r.Some? ==> from <= r.value && OccursAt(s, p, r.value)
    ensures r.Some? ==> forall j :: from <= j < r.value ==> !OccursAt(s, p, j)
    ensures r.None? ==> forall j :: from <= j ==> !OccursAt(s, p, j)
    decreases |s| - from
  {
    if from + |p| > |s| then None
    else if s[from..from + |p|] == p then Some(from)
    else Position(s, p, from + 1)
  }

  /** The last occurrence of `p` in `s` starting below `upto`
      (Rust's `windows(..).rposition(..)`). */
  function RPosition<T(==)>(s: seq<T>, p: seq<T>, upto: nat): (r: Option<nat>)
    ensures r.Some? ==> r.value < upto && OccursAt(s, p, r.value)
    ensures r.Some? ==> forall j :: r.value < j < upto ==> !OccursAt(s, p, j)
    ensures r.None? ==> forall j :: 0 <= j < upto ==> !OccursAt(s, p, j)
    decreases upto
  {
    if upto == 0 then None
    else if OccursAt(s, p, upto - 1) then Some(upto - 1)
    else RPosition(s, p, upto - 1)
  }

  /** Substring test, as Rust's `str::contains` and Python's `in`. */
  predicate Contains(s: string, p: string) {
    exists i | 0 <= i <= |s| - |p| :: OccursAt(s, p, i)
  }

  lemma ContainsInMiddle(a: string, p: string, b: string)
    ensures Contains(a + p + b, p)
  {
    var s := a + p + b;
    assert s[|a|..|a| + |p|] == p;
    assert OccursAt(s, p, |a|);
  }

  function AsciiLowerChar(c: char): (r: char)
    ensures 'A' <= c <= 'Z' ==> 'a' <= r <= 'z'
    ensures !('A' <= c <= 'Z') ==> r == c
  {
    if 'A' <= c <= 'Z' then (c as int + 32) as char else c
  }

  function AsciiUpperChar(c: char): (r: char)
    ensures 'a' <= c <= 'z' ==> 'A' <= r <= 'Z'
    ensures !('a' <= c <= 'z') ==> r == c
  {
    if 'a' <= c <= 'z' then (c as int - 32) as char else c
  }

  /** Lower-casing of the ASCII letters; other characters are kept. */
  function Lower(s: string): (r: string)
    ensures |r| == |s|
    ensures forall i :: 0 <= i < |s| ==> r[i] == AsciiLowerChar(s[i])
  {
    seq(|s|, i requires 0 <= i < |s| => AsciiLowerChar(s[i]))
  }

  /** Upper-casing of the ASCII letters; other characters are kept. */
  function Upper(s: string): (r: string)
    ensures |r| == |s|
    ensures forall i :: 0 <= i < |s| ==> r[i] == AsciiUpperChar(s[i])
  {
    seq(|s|, i requires 0 <= i < |s| => AsciiUpperChar(s[i]))
  }

  /** Rust's `char::is_whitespace`: the Unicode White_Space property. */
  predicate IsWhitespace(c: char) {
    var n := c as int;
    (0x09 <= n <= 0x0D) || n == 0x20 || n == 0x85 || n == 0xA0 || n == 0x1680
    || (0x2000 <= n <= 0x200A) || n == 0x2028 || n == 0x2029 || n == 0x202F
    || n == 0x205F || n == 0x3000
  }

  predicate IsAsciiDigit(c: char) { '0' <= c <= '9' }

  predicate IsAsciiLetter(c: char) { 'a' <= c <= 'z' || 'A' <= c <= 'Z' }

  /** Bytes taken by `c` in UTF-8. */
  function Utf8Len(c: char): (n: nat)
    ensures 1 <= n <= 4
  {
    if c as int < 0x80 then 1
    else if c as int < 0x800 then 2
    else if c as int < 0x10000 then 3
    else 4
  }

  /** Byte length of `s` in UTF-8, which is what Rust's `str::len` returns. */
  function ByteLen(s: string): (n: nat)
    ensures |s| <= n <= 4 * |s|
  {
    if s == [] then 0 else Utf8Len(s[0]) + ByteLen(s[1..])
  }

  lemma {:induction false} ByteLenConcat(a: string, b: string)
    ensures ByteLen(a + b) == ByteLen(a) + ByteLen(b)
    decreases |a|
  {
    if a != [] {
      assert (a + b)[0] == a[0];
      assert (a + b)[1..] == a[1..] + b;
      ByteLenConcat(a[1..], b);
    } else {
      assert a + b == b;
    }
  }

  function DigitChar(d: nat): (c: char)
    requires d < 10
    ensures IsAsciiDigit(c)
  {
    ('0' as int + d) as char
  }

  /** Decimal rendering of a natural number, without leading zeros. */
  function NatToString(n: nat): (s: string)
    ensures |s| >= 1
    ensures forall i :: 0 <= i < |s| ==> IsAsciiDigit(s[i])
    decreases n
  {
    if n < 10 then [DigitChar(n)] else NatToString(n / 10) + [DigitChar(n % 10)]
  }

  /** Decimal rendering of an integer, with a leading '-' when negative. */
  function IntToString(i: int): (s: string)
    ensures |s| >= 1
  {
    if i < 0 then "-" + NatToString(-i) else NatToString(i)
  }

  /** Debug rendering of a list of numbers, as Rust's `{:?}` prints a `Vec` of integers. */
  function NatList(xs: seq<nat>): string {
    "[" + NatItems(xs) + "]"
  }

  function NatItems(xs: seq<nat>): string
    decreases |xs|
  {
    if xs == [] then ""
    else if |xs| == 1 then NatToString(xs[0])
    else NatToString(xs[0]) + ", " + NatItems(xs[1..])
  }

  /** Two-digit zero-padded rendering used by `{:02d}` for values below 100. */
  function TwoDigits(n: nat): (s: string)
    requires n < 100
    ensures |s| == 2 && IsAsciiDigit(s[0]) && IsAsciiDigit(s[1])
  {
    [DigitChar(n / 10), DigitChar(n % 10)]
  }

  /** Prefix of `s` before the first `sep`, or all of `s` (the first item of Rust's `split`). */
  function FirstPiece(s: string, sep: char): (r: string)
    ensures |r| <= |s| && r == s[..|r|]
    ensures sep !in r
    ensures |r| < |s| ==> s[|r|] == sep
  {
    if s == [] then []
    else if s[0] == sep then []
    else [s[0]] + FirstPiece(s[1..], sep)
  }

  /** Removes every non-overlapping occurrence of `p`, scanning left to right
      (Rust's `s.replace(p, "")`; an empty `p` leaves `s` unchanged). */
  function RemoveAll(s: string, p: string): (r: string)
    ensures |r| <= |s|
    decreases |s|
  {
    if p == [] then s
    else if s == [] then []
    else if StartsWith(s, p) then RemoveAll(s[|p|..], p)
    else [s[0]] + RemoveAll(s[1..], p)
  }

  /** Text in which `p` does not occur is left as it is. */
  lemma {:induction false} RemoveAllAbsent(s: string, p: string)
    requires forall i :: !OccursAt(s, p, i)
    ensures RemoveAll(s, p) == s
    decreases |s|
  {
    if p != [] && s != [] {
      assert !OccursAt(s, p, 0);
      forall i ensures !OccursAt(s[1..], p, i) {
        assert !OccursAt(s, p, i + 1);
        if 0 <= i && i + |p| <= |s| - 1 {
          assert s[1..][i..i + |p|] == s[i + 1..i + 1 + |p|];
        }
      }
      RemoveAllAbsent(s[1..], p);
    }
  }

  /** Rust's `split(sep)`: the pieces between separators, empty ones included. */
  function Split(s: string, sep: char): (r: seq<string>)
    ensures |r| >= 1
    ensures forall i :: 0 <= i < |r| ==> sep !in r[i]
    decreases |s|
  {
    var head := FirstPiece(s, sep);
    if |head| == |s| then [head] else [head] + Split(s[|head| + 1..], sep)
  }

  /** The pieces put back together with `sep` between them (Rust's `join`). */
  function Join(pieces: seq<string>, sep: char): string
    decreases |pieces|
  {
    if pieces == [] then []
    else if |pieces| == 1 then pieces[0]
    else pieces[0] + [sep] + Join(pieces[1..], sep)
  }

  /** Splitting loses nothing: joining the pieces with the separator gives `s` back. */
  lemma {:induction false} SplitJoin(s: string, sep: char)
    ensures Join(Split(s, sep), sep) == s
    decreases |s|
  {
    var head := FirstPiece(s, sep);
    if |head| < |s| {
      var rest := s[|head| + 1..];
      SplitJoin(rest, sep);
      var pieces := Split(rest, sep);
      assert Split(s, sep) == [head] + pieces;
      assert ([head] + pieces)[1..] == pieces;
      assert s == head + [sep] + rest;
    }
  }

  /** Rust's `str::lines`: pieces ended by '\n' or "\r\n" (the ending is dropped);
      a final line ending does not open an empty last line. */
  function Lines(s: string): (r: seq<string>)
    ensures forall i :: 0 <= i < |r| ==> '\n' !in r[i]
    decreases |s|
  {
    if s == [] then []
    else
      var head := FirstPiece(s, '\n');
      if |head| == |s| then [head]
      else
        var line := if |head| > 0 && head[|head| - 1] == '\r' then head[..|head| - 1] else head;
        [line] + Lines(s[|head| + 1..])
  }

  /** Without carriage returns and without a final line ending, `lines` is `split('\n')`. */
  lemma {:induction false} LinesAsSplit(s: string)
    requires s != [] && '\r' !in s && s[|s| - 1] != '\n'
    ensures Lines(s) == Split(s, '\n')
    decreases |s|
  {
    var head := FirstPiece(s, '\n');
    if |head| < |s| {
      var rest := s[|head| + 1..];
      assert forall i :: 0 <= i < |rest| ==> rest[i] == s[|head| + 1 + i];
      assert head == s[..|head|];
      assert |head| > 0 ==> head[|head| - 1] != '\r' by {
        if |head| > 0 { assert head[|head| - 1] == s[|head| - 1]; }
      }
      LinesAsSplit(rest);
    }
  }
}
