/** The ten transforms of the build-chain verifier, each on its own: Bacon encoding,
    single-key XOR, the golden-ratio multiply, the Caesar box, the scytale, the MD5
    and SHA-256 layers (hashes are parameters), the Ed25519-style clamp, the
    multi-key XOR and the clock decomposition. */
module ChainLayers {
  import opened Wrappers
  import opened Bytes
  import Text

  const XorKey: byte := 73
  const GoldenSeed: nat := 618033988
  const MasterKey: seq<byte> := [3, 5, 5, 4, 6]
  const KeySum: nat := 23
  const Modulus32: nat := 0x1_0000_0000

  lemma MasterKeySum()
    ensures |MasterKey| == 5
    ensures MasterKey[0] as nat + MasterKey[1] as nat + MasterKey[2] as nat + MasterKey[3] as nat
            + MasterKey[4] as nat == KeySum
  {
  }

  // ---------------------------------------------------------------------------
  // Layer 1: Bacon

  predicate IsUpperLetter(c: char) { 'A' <= c <= 'Z' }

  /** `format(i, 'b')` on `width` digits, with 0 written 'A' and 1 written 'B'. */
  function BaconBits(i: nat, width: nat): (code: string)
    ensures |code| == width
    ensures forall k :: 0 <= k < |code| ==> code[k] == 'A' || code[k] == 'B'
  {
    if width == 0 then "" else BaconBits(i / 2, width - 1) + [if i % 2 == 1 then 'B' else 'A']
  }

  /** The five-symbol code of the letter with index `i` (A = 0, ..., Z = 25). */
  function BaconCode(i: nat): (code: string)
    requires i < 26
    ensures |code| == 5
  {
    BaconBits(i, 5)
  }

  /** The number a string of 'A'/'B' symbols writes in binary, 'B' being 1. */
  function BaconValue(code: string): (n: nat)
    decreases |code|
  {
    if code == [] then 0
    else 2 * BaconValue(code[..|code| - 1]) + (if code[|code| - 1] == 'B' then 1 else 0)
  }

  function Pow2(k: nat): (n: nat)
    ensures n >= 1
  {
    if k == 0 then 1 else 2 * Pow2(k - 1)
  }

  lemma {:induction false} BaconBitsDecode(i: nat, width: nat)
    requires i < Pow2(width)
    ensures BaconValue(BaconBits(i, width)) == i
  {
    if width > 0 {
      BaconBitsDecode(i / 2, width - 1);
      var code := BaconBits(i, width);
      assert code[..|code| - 1] == BaconBits(i / 2, width - 1);
    }
  }

  /** Every letter's code reads back as its index: the codes are distinct. */
  lemma BaconCodeDecodes(i: nat)
    requires i < 26
    ensures BaconValue(BaconCode(i)) == i
  {
    assert Pow2(5) == 32;
    BaconBitsDecode(i, 5);
  }

  /** The letters of an upper-cased text, in order. */
  function Letters(s: string): (r: string)
    ensures |r| <= |s|
    ensures forall k :: 0 <= k < |r| ==> IsUpperLetter(r[k])
    decreases |s|
  {
    if s == [] then ""
    else Letters(s[..|s| - 1]) + (if IsUpperLetter(s[|s| - 1]) then [s[|s| - 1]] else "")
  }

  /** The Bacon encoding of an upper-cased text: the code of every letter, in order. */
  function Bacon(s: string): (r: string)
    ensures |r| == 5 * |Letters(s)|
    ensures forall k :: 0 <= k < |r| ==> r[k] == 'A' || r[k] == 'B'
    decreases |s|
  {
    if s == [] then ""
    else
      var last := s[|s| - 1];
      Bacon(s[..|s| - 1]) + (if IsUpperLetter(last) then BaconCode(last as int - 'A' as int) else "")
  }

  /** Reads a Bacon string back five symbols at a time; a group that is no
      letter's code reads as '?'. */
  function BaconDecode(code: string): (r: string)
    decreases |code|
  {
    if |code| < 5 then ""
    else
      var v := BaconValue(code[|code| - 5..]);
      BaconDecode(code[..|code| - 5]) + [if v < 26 then ('A' as int + v) as char else '?']
  }

  /** Decoding a text followed by one group of five reads that group last. */
  lemma DecodeAppend(prefix: string, code: string)
    requires |code| == 5
    ensures var v := BaconValue(code);
      BaconDecode(prefix + code) == BaconDecode(prefix) + [if v < 26 then ('A' as int + v) as char else '?']
  {
    var b := prefix + code;
    assert b[..|b| - 5] == prefix;
    assert b[|b| - 5..] == code;
  }

  /** Decoding the encoding gives back exactly the letters: nothing but the
      non-letters is lost. */
  lemma {:induction false} BaconRoundTrip(s: string)
    ensures BaconDecode(Bacon(s)) == Letters(s)
    decreases |s|
  {
    if s != [] {
      var init, last := s[..|s| - 1], s[|s| - 1];
      BaconRoundTrip(init);
      if IsUpperLetter(last) {
        var i := last as int - 'A' as int;
        var code := BaconCode(i);
        assert Bacon(s) == Bacon(init) + code;
        DecodeAppend(Bacon(init), code);
        BaconCodeDecodes(i);
        assert Letters(s) == Letters(init) + [last];
      } else {
        assert Bacon(s) == Bacon(init);
        assert Letters(s) == Letters(init);
      }
    }
  }

  /** `layer1_bacon`: upper-case the text and append the code of each letter. */
  method Layer1Bacon(text: string) returns (result: string)
    ensures result == Bacon(Text.Upper(text))
  {
    var upper := Text.Upper(text);
    result := "";
    for i := 0 to |upper|
      invariant result == Bacon(upper[..i])
    {
      var c := upper[i];
      if IsUpperLetter(c) {
        result := result + BaconCode(c as int - 'A' as int);
      }
      assert upper[..i + 1][..i] == upper[..i];
    }
    assert upper[..|upper|] == upper;
  }

  // ---------------------------------------------------------------------------
  // Layer 2: single-key XOR

  /** `layer2_xor`: every byte XOR the key. */
  function Layer2Xor(data: seq<byte>, key: byte): (r: seq<byte>)
    ensures |r| == |data|
  {
    XorAll(data, key)
  }

  /** Applying the layer twice with the same key gives the input back. */
  lemma Layer2Involution(data: seq<byte>, key: byte)
    ensures Layer2Xor(Layer2Xor(data, key), key) == data
  {
    var once := Layer2Xor(data, key);
    assert forall i :: 0 <= i < |data| ==> once[i] ^ key == data[i];
  }

  // ---------------------------------------------------------------------------
  // Layer 3: golden-ratio multiply

  /** `layer3_golden`: the value times the golden seed, modulo 2^32 (the remainder of
      a positive divisor, which Python and Dafny agree on). */
  function Layer3Golden(value: int): (r: nat)
    ensures r < Modulus32
  {
    (value * GoldenSeed) % Modulus32
  }

  /** The seed is a multiple of 4, so every result is. */
  lemma GoldenMultipleOf4(value: int)
    ensures Layer3Golden(value) % 4 == 0
  {
    var q := (value * GoldenSeed) / Modulus32;
    assert value * GoldenSeed == 4 * (value * 154508497);
    assert Modulus32 * q == 4 * (0x4000_0000 * q);
    assert Layer3Golden(value) == 4 * (value * 154508497 - 0x4000_0000 * q);
  }

  /** The seed is not odd, so the layer is not one-to-one: values 2^30 apart collide. */
  lemma GoldenPeriod(value: int)
    ensures Layer3Golden(value + 0x4000_0000) == Layer3Golden(value)
  {
    var a := value * GoldenSeed;
    assert (value + 0x4000_0000) * GoldenSeed == a + Modulus32 * 154508497;
    ModPeriod(a, 154508497);
  }

  /** Adding a multiple of 2^32 leaves the remainder modulo 2^32 as it is. */
  lemma ModPeriod(a: int, k: int)
    ensures (a + Modulus32 * k) % Modulus32 == a % Modulus32
  {
    var q, r := a / Modulus32, a % Modulus32;
    assert a + Modulus32 * k == (q + k) * Modulus32 + r;
    DivModUnique(a + Modulus32 * k, Modulus32, q + k, r);
  }

  // ---------------------------------------------------------------------------
  // Layers 4 and 5: the Caesar box and the scytale, both a transposition of a grid

  lemma MulMonotone(a: int, b: int, c: nat)
    requires a <= b
    ensures a * c <= b * c
  {
    assert b * c - a * c == (b - a) * c;
    assert (b - a) * c >= 0;
  }

  /** Division by `d` splits an index into its quotient and remainder uniquely. */
  lemma DivModUnique(k: int, d: int, q: int, r: int)
    requires d > 0 && 0 <= r < d && k == q * d + r
    ensures k / d == q && k % d == r
  {
    var q', r' := k / d, k % d;
    assert k == q' * d + r';
    assert (q - q') * d == r' - r;
    if q > q' {
      MulMonotone(1, q - q', d);
    } else if q < q' {
      MulMonotone(1, q' - q, d);
    }
  }

  /** Index `k` of a `rows` x `cols` grid read column by column lies in row `k % rows`
      and column `k / rows`, inside the grid. */
  lemma GridIndex(k: int, rows: nat, cols: nat)
    requires 0 <= k < rows * cols
    ensures rows > 0 && cols > 0
    ensures k / rows < cols
    ensures (k % rows) * cols + k / rows < rows * cols
  {
    assert rows != 0 && cols != 0;
    var q, r := k / rows, k % rows;
    assert k == q * rows + r;
    if q >= cols {
      MulMonotone(cols, q, rows);
    }
    MulMonotone(r, rows - 1, cols);
    assert (rows - 1) * cols == rows * cols - cols;
  }

  /** Row `row`, column `col` of the grid is index `col * rows + row`, inside it. */
  lemma ColumnIndex(rows: nat, cols: nat, row: nat, col: nat)
    requires row < rows && col < cols
    ensures col * rows + row < rows * cols
    ensures (col * rows + row) / rows == col && (col * rows + row) % rows == row
  {
    MulMonotone(col, cols - 1, rows);
    assert (cols - 1) * rows == rows * cols - rows;
    DivModUnique(col * rows + row, rows, col, row);
  }

  /** Where the transposition reads output `k` from. */
  function SourceIndex(k: nat, rows: nat, cols: nat): (j: nat)
    requires k < rows * cols
    ensures j < rows * cols
  {
    GridIndex(k, rows, cols);
    (k % rows) * cols + k / rows
  }

  /** The text laid out row by row in a `rows` x `cols` grid, read column by column. */
  function Transpose(p: string, rows: nat, cols: nat): (r: string)
    requires |p| == rows * cols
    ensures |r| == rows * cols
  {
    seq(rows * cols, k requires 0 <= k < rows * cols => p[SourceIndex(k, rows, cols)])
  }

  /** Row `row`, column `col` of the grid is output `col * rows + row`. */
  lemma TransposeAt(p: string, rows: nat, cols: nat, row: nat, col: nat)
    requires |p| == rows * cols && row < rows && col < cols
    ensures col * rows + row < rows * cols && row * cols + col < rows * cols
    ensures Transpose(p, rows, cols)[col * rows + row] == p[row * cols + col]
  {
    ColumnIndex(rows, cols, row, col);
    ColumnIndex(cols, rows, col, row);
    var k := col * rows + row;
    assert SourceIndex(k, rows, cols) == row * cols + col;
  }

  /** Reading the transposed text as a `cols` x `rows` grid undoes the index map. */
  lemma SourceIndexInverse(k: nat, rows: nat, cols: nat)
    requires k < rows * cols
    ensures SourceIndex(k, rows, cols) < cols * rows
    ensures SourceIndex(SourceIndex(k, rows, cols), cols, rows) == k
  {
    GridIndex(k, rows, cols);
    var row, col := k % rows, k / rows;
    ColumnIndex(cols, rows, col, row);
    assert k == col * rows + row;
  }

  /** Transposing back with the dimensions swapped restores the grid. */
  lemma TransposeInverse(p: string, rows: nat, cols: nat)
    requires |p| == rows * cols
    ensures Transpose(Transpose(p, rows, cols), cols, rows) == p
  {
    var t := Transpose(p, rows, cols);
    var u := Transpose(t, cols, rows);
    forall j | 0 <= j < |p| ensures u[j] == p[j] {
      var k := SourceIndex(j, cols, rows);
      SourceIndexInverse(j, cols, rows);
    }
  }

  /** A sequence that reads every position of another exactly once, through a
      one-to-one index map, holds the same elements. */
  lemma {:induction false} PermutationByIndex<T>(s: seq<T>, p: seq<T>, f: nat -> nat)
    requires |s| == |p|
    requires forall k :: 0 <= k < |s| ==> f(k) < |p| && s[k] == p[f(k)]
    requires forall k1, k2 :: 0 <= k1 < k2 < |s| ==> f(k1) != f(k2)
    ensures multiset(s) == multiset(p)
    decreases |s|
  {
    if s != [] {
      var n := |s| - 1;
      var j := f(n);
      var rest := p[..j] + p[j + 1..];
      var g := (k: nat) => if f(k) <= j then f(k) else f(k) - 1;
      forall k | 0 <= k < n ensures g(k) < |rest| && s[..n][k] == rest[g(k)] {
        assert f(k) != j;
      }
      PermutationByIndex(s[..n], rest, g);
      assert s == s[..n] + [s[n]];
      assert p == p[..j] + [p[j]] + p[j + 1..];
    }
  }

  /** The transposition only moves characters. */
  lemma TransposePermutes(p: string, rows: nat, cols: nat)
    requires |p| == rows * cols
    ensures multiset(Transpose(p, rows, cols)) == multiset(p)
  {
    var n := rows * cols;
    var t := Transpose(p, rows, cols);
    var f := (k: nat) => if k < n then SourceIndex(k, rows, cols) else 0;
    forall k | 0 <= k < n ensures f(k) < n && t[k] == p[f(k)] {
    }
    forall k1, k2 | 0 <= k1 < k2 < n ensures f(k1) != f(k2) {
      SourceIndexInverse(k1, rows, cols);
      SourceIndexInverse(k2, rows, cols);
    }
    PermutationByIndex(t, p, f);
  }

  /** `n` copies of the padding letter. */
  function Xs(n: nat): (r: string)
    ensures |r| == n
    ensures forall k :: 0 <= k < n ==> r[k] == 'X'
  {
    seq(n, _ => 'X')
  }

  /** `text.ljust(n, 'X')[:n]`: padded on the right with 'X' and cut to `n`. */
  function BoxPadded(text: string, n: nat): (r: string)
    ensures |r| == n
    ensures forall k :: 0 <= k < n ==> r[k] == if k < |text| then text[k] else 'X'
  {
    if |text| >= n then text[..n] else text + Xs(n - |text|)
  }

  /** `layer4_box`: the padded text as `rows` rows of `cols`, read column by column.
      A dimension that is not positive leaves a loop with nothing to do. */
  function Box(text: string, rows: int, cols: int): (r: string)
    ensures rows > 0 && cols > 0 ==> |r| == rows * cols
    ensures rows <= 0 || cols <= 0 ==> r == ""
  {
    if rows <= 0 || cols <= 0 then "" else Transpose(BoxPadded(text, rows * cols), rows, cols)
  }

  /** The Caesar box of a text that exactly fills the grid is undone by the box
      with the dimensions swapped. */
  lemma BoxInverse(text: string, rows: nat, cols: nat)
    requires rows > 0 && cols > 0 && |text| == rows * cols
    ensures Box(Box(text, rows, cols), cols, rows) == text
  {
    assert BoxPadded(text, rows * cols) == text;
    var once := Box(text, rows, cols);
    assert BoxPadded(once, cols * rows) == once;
    TransposeInverse(text, rows, cols);
  }

  /** The box adds no character but the padding letter. */
  lemma BoxFrom(text: string, rows: int, cols: int)
    ensures forall k :: 0 <= k < |Box(text, rows, cols)| ==>
      Box(text, rows, cols)[k] == 'X' || Box(text, rows, cols)[k] in text
  {
    if rows > 0 && cols > 0 {
      var p := BoxPadded(text, rows * cols);
      var b := Box(text, rows, cols);
      forall k | 0 <= k < |b| ensures b[k] == 'X' || b[k] in text {
        var j := SourceIndex(k, rows, cols);
        assert b[k] == p[j];
      }
    }
  }

  /** `layer4_box` with its two loops: for each column, for each row, append the
      character of the padded grid. */
  method Layer4Box(text: string, rows: int, cols: int) returns (result: string)
    ensures result == Box(text, rows, cols)
  {
    result := "";
    if rows <= 0 || cols <= 0 {
      return;
    }
    var padded := BoxPadded(text, rows * cols);
    ghost var expected := Transpose(padded, rows, cols);
    for col := 0 to cols
      invariant |result| == col * rows
      invariant col * rows <= rows * cols
      invariant result == expected[..col * rows]
    {
      var c := BoxColumn(padded, rows, cols, col);
      MulMonotone(col + 1, cols, rows);
      forall row | 0 <= row < rows ensures expected[col * rows + row] == c[row] {
        TransposeAt(padded, rows, cols, row, col);
      }
      assert expected[..(col + 1) * rows] == expected[..col * rows] + c;
      result := result + c;
    }
  }

  /** The inner loop of `layer4_box`: column `col` of the grid, top to bottom. */
  method BoxColumn(padded: string, rows: nat, cols: nat, col: nat) returns (c: string)
    requires |padded| == rows * cols && col < cols
    ensures |c| == rows
    ensures forall row :: 0 <= row < rows ==> row * cols + col < |padded| && c[row] == padded[row * cols + col]
  {
    c := "";
    for row := 0 to rows
      invariant |c| == row
      invariant forall q :: 0 <= q < row ==> q * cols + col < |padded| && c[q] == padded[q * cols + col]
    {
      ColumnIndex(cols, rows, col, row);
      c := c + [padded[row * cols + col]];
    }
  }

  /** How many 'X' make `n` a multiple of `d`. */
  function PadCount(n: nat, d: nat): (k: nat)
    requires d > 0
    ensures k < d && (n + k) % d == 0
  {
    var q, r := n / d, n % d;
    if r == 0 then 0
    else
      DivModUnique(n + (d - r), d, q + 1, 0);
      d - r
  }

  /** The text padded with 'X' to the next multiple of `d`. */
  function ScytalePadded(text: string, d: nat): (r: string)
    requires d > 0
    ensures |r| % d == 0 && |text| <= |r| < |text| + d
    ensures r[..|text|] == text
    ensures forall k :: |text| <= k < |r| ==> r[k] == 'X'
  {
    text + Xs(PadCount(|text|, d))
  }

  /** The scytale: the padded text as rows of `d`, read column by column. */
  function Scytale(text: string, d: nat): (r: string)
    requires d > 0
    ensures |r| == |ScytalePadded(text, d)|
  {
    var p := ScytalePadded(text, d);
    assert |p| == (|p| / d) * d;
    Transpose(p, |p| / d, d)
  }

  /** The scytale keeps every character of the padded text and adds none. */
  lemma ScytalePermutes(text: string, d: nat)
    requires d > 0
    ensures multiset(Scytale(text, d)) == multiset(ScytalePadded(text, d))
  {
    var p := ScytalePadded(text, d);
    assert |p| == (|p| / d) * d;
    TransposePermutes(p, |p| / d, d);
  }

  /** Fewer 'X' than the pad count leave the length off a multiple of `d`. */
  lemma PadCountLeast(n: nat, k: nat, d: nat)
    requires d > 0 && k <= PadCount(n, d) && (n + k) % d == 0
    ensures k == PadCount(n, d)
  {
    var q, r := n / d, n % d;
    if r != 0 && r + k < d {
      DivModUnique(n + k, d, q, r + k);
    }
  }

  /** The first loop of `layer5_scytale`: append 'X' while the length is not a
      multiple of `m`. */
  method PadToMultiple(text: string, m: nat) returns (t: string)
    requires m > 0
    ensures t == ScytalePadded(text, m)
  {
    t := text;
    while |t| % m != 0
      invariant |text| <= |t| && t[..|text|] == text
      invariant forall k :: |text| <= k < |t| ==> t[k] == 'X'
      invariant |t| - |text| <= PadCount(|text|, m)
      decreases PadCount(|text|, m) - (|t| - |text|)
    {
      t := t + "X";
    }
    PadCountLeast(|text|, |t| - |text|, m);
    assert t == ScytalePadded(text, m);
  }

  /** The scytale adds no character but the padding letter. */
  lemma ScytaleFrom(text: string, d: nat)
    requires d > 0
    ensures forall k :: 0 <= k < |Scytale(text, d)| ==>
      Scytale(text, d)[k] == 'X' || Scytale(text, d)[k] in text
  {
    var p := ScytalePadded(text, d);
    var rows := |p| / d;
    var s := Scytale(text, d);
    forall k | 0 <= k < |s| ensures s[k] == 'X' || s[k] in text {
      var j := SourceIndex(k, rows, d);
      assert s[k] == p[j];
      if j < |text| {
        assert p[j] == text[j];
      }
    }
  }

  /** A text that already fills whole rows is not padded. */
  lemma ScytaleOfFullRows(text: string, d: nat)
    requires d > 0 && |text| % d == 0
    ensures ScytalePadded(text, d) == text
    ensures multiset(Scytale(text, d)) == multiset(text)
  {
    ScytalePermutes(text, d);
  }

  /** The inner loop of `layer5_scytale`: every `d`-th character from `i` on. */
  method ReadColumn(t: string, d: nat, i: nat) returns (c: string)
    requires i < d && |t| % d == 0
    ensures |c| == |t| / d
    ensures forall q :: 0 <= q < |c| ==> q * d + i < |t| && c[q] == t[q * d + i]
  {
    var n := |t|;
    var rows := n / d;
    assert n == rows * d;
    c := "";
    var j := i;
    while j < n
      invariant 0 <= |c| <= rows && j == |c| * d + i
      invariant forall q :: 0 <= q < |c| ==> q * d + i < n && c[q] == t[q * d + i]
      decreases n - j
    {
      c := c + [t[j]];
      j := j + d;
    }
    if |c| < rows {
      ColumnIndex(d, rows, i, |c|);
    }
  }

  /** The second loop of `layer5_scytale`: for each start below `d`, every `d`-th
      character of a text that has a multiple of `d` characters. */
  method ReadColumns(t: string, d: nat) returns (result: string)
    requires d > 0 && |t| % d == 0
    ensures |t| == (|t| / d) * d
    ensures result == Transpose(t, |t| / d, d)
  {
    var n := |t|;
    var rows := n / d;
    assert n == rows * d;
    ghost var expected := Transpose(t, rows, d);
    result := "";
    for i := 0 to d
      invariant |result| == i * rows
      invariant i * rows <= n
      invariant result == expected[..i * rows]
    {
      var c := ReadColumn(t, d, i);
      MulMonotone(i + 1, d, rows);
      forall q | 0 <= q < rows ensures expected[i * rows + q] == c[q] {
        TransposeAt(t, rows, d, q, i);
      }
      assert expected[..(i + 1) * rows] == expected[..i * rows] + c;
      result := result + c;
    }
  }

  /** `layer5_scytale`: pad with 'X' while the length is not a multiple of the
      diameter, then for each start below the diameter read every diameter-th
      character. A zero diameter fails (the remainder by zero); a negative one pads
      to a multiple of its magnitude and reads nothing. */
  method Layer5Scytale(text: string, diameter: int) returns (r: Option<string>)
    ensures diameter == 0 ==> r == None
    ensures diameter < 0 ==> r == Some("")
    ensures diameter > 0 ==> r == Some(Scytale(text, diameter))
  {
    if diameter == 0 {
      return None;
    }
    var m := if diameter > 0 then diameter else -diameter;
    var t := PadToMultiple(text, m);
    if diameter < 0 {
      return Some("");
    }
    var result := ReadColumns(t, diameter);
    r := Some(result);
  }

  // ---------------------------------------------------------------------------
  // Layers 6 and 8: the hash layers, with the hash functions as parameters

  /** `layer6_md5`: the lower-case hex digest; it decodes back to the digest. */
  function Layer6Md5(data: seq<byte>, md5: seq<byte> -> Md5Digest): (r: string)
    ensures |r| == 32
    ensures forall i :: 0 <= i < |r| ==> IsLowerHexChar(r[i])
    ensures Unhex(r) == Some(md5(data))
  {
    UnhexHex(md5(data));
    Hex(md5(data))
  }

  /** `layer8_sha256`: the lower-case hex digest; it decodes back to the digest. */
  function Layer8Sha256(data: seq<byte>, sha256: seq<byte> -> Sha256Digest): (r: string)
    ensures |r| == 64
    ensures forall i :: 0 <= i < |r| ==> IsLowerHexChar(r[i])
    ensures Unhex(r) == Some(sha256(data))
  {
    UnhexHex(sha256(data));
    Hex(sha256(data))
  }

  // ---------------------------------------------------------------------------
  // Layer 7: Ed25519-style clamping of a derived key

  /** Clears the low three bits of the first byte, clears the top bit of the last
      byte and sets the bit below it. */
  function ClampBytes(k: seq<byte>): (r: seq<byte>)
    requires |k| == 32
    ensures |r| == 32
    ensures r[0] & 7 == 0 && r[0] | 7 == k[0] | 7
    ensures r[31] & 0x80 == 0 && r[31] & 0x40 == 0x40 && r[31] & 0x3F == k[31] & 0x3F
    ensures forall i :: 0 < i < 31 ==> r[i] == k[i]
  {
    k[0 := k[0] & 248][31 := (k[31] & 127) | 64]
  }

  /** A clamped key is left as it is by clamping again. */
  lemma ClampIdempotent(k: seq<byte>)
    requires |k| == 32
    ensures ClampBytes(ClampBytes(k)) == ClampBytes(k)
  {
    var c := ClampBytes(k);
    var cc := ClampBytes(c);
    assert cc[0] == c[0] by {
      assert c[0] & 248 == c[0] by {
        assert c[0] == k[0] & 248;
      }
    }
    assert cc[31] == c[31] by {
      assert (((k[31] & 127) | 64) & 127) | 64 == (k[31] & 127) | 64;
    }
    assert forall i :: 0 <= i < 32 ==> cc[i] == c[i];
  }

  /** `layer7_ed25519_derive`: the first half of the SHA-512 digest of the seed,
      clamped. */
  function Layer7Derive(seed: seq<byte>, sha512: seq<byte> -> Sha512Digest): (r: seq<byte>)
    ensures |r| == 32
    ensures r[0] & 7 == 0 && r[31] & 0xC0 == 0x40
    ensures forall i :: 0 < i < 31 ==> r[i] == sha512(seed)[i]
  {
    var r := ClampBytes(sha512(seed)[..32]);
    assert r[31] & 0xC0 == 0x40 by {
      assert r[31] & 0x80 == 0 && r[31] & 0x40 == 0x40;
    }
    r
  }

  // ---------------------------------------------------------------------------
  // Layer 9: multi-key XOR

  /** The key byte at position `i`: the master key repeated. */
  function MasterKeyAt(i: nat): (b: byte)
    ensures b == MasterKey[i % 5]
  {
    MasterKey[i % |MasterKey|]
  }

  /** Every byte XOR the repeated master key and the single key. */
  function CombinedXor(data: seq<byte>): (r: seq<byte>)
    ensures |r| == |data|
    ensures forall i :: 0 <= i < |data| ==> r[i] == data[i] ^ MasterKeyAt(i) ^ XorKey
  {
    seq(|data|, i requires 0 <= i < |data| => data[i] ^ MasterKeyAt(i) ^ XorKey)
  }

  /** The combined XOR undoes itself. */
  lemma CombinedXorInvolution(data: seq<byte>)
    ensures CombinedXor(CombinedXor(data)) == data
  {
    var once := CombinedXor(data);
    forall i | 0 <= i < |data| ensures CombinedXor(once)[i] == data[i] {
      var k := MasterKeyAt(i);
      assert once[i] ^ k ^ XorKey == data[i] ^ k ^ XorKey ^ k ^ XorKey;
    }
  }

  /** No master-key byte equals the single key, so the two never cancel and the
      layer changes every byte. */
  lemma CombinedXorChangesEveryByte(data: seq<byte>)
    ensures forall i :: 0 <= i < |data| ==> CombinedXor(data)[i] != data[i]
  {
    forall i | 0 <= i < |data| ensures CombinedXor(data)[i] != data[i] {
      var k := MasterKeyAt(i);
      assert k ^ XorKey != 0 by {
        assert k == 3 || k == 5 || k == 4 || k == 6;
      }
      assert CombinedXor(data)[i] == data[i] ^ (k ^ XorKey);
    }
  }

  /** `layer9_combined_xor`: copies the bytes into a buffer and rewrites each in
      place. */
  method Layer9CombinedXor(data: seq<byte>) returns (r: seq<byte>)
    ensures r == CombinedXor(data)
  {
    var buffer := new byte[|data|](i requires 0 <= i < |data| => data[i]);
    ghost var expected := CombinedXor(data);
    for i := 0 to buffer.Length
      invariant buffer[..i] == expected[..i]
      invariant buffer[i..] == data[i..]
    {
      var keyByte := MasterKeyAt(i);
      buffer[i] := buffer[i] ^ keyByte ^ XorKey;
      assert buffer[..i + 1] == expected[..i + 1];
    }
    r := buffer[..];
    assert r == buffer[..buffer.Length];
  }

  // ---------------------------------------------------------------------------
  // Layer 10: clock decomposition and the grid cell

  /** `layer10_berlin_clock`: hours of the day, minutes and seconds of a count of
      seconds (floor division, which Dafny's division by a positive number is). */
  function Layer10Berlin(value: int): (hms: (nat, nat, nat))
    ensures hms.0 < 24 && hms.1 < 60 && hms.2 < 60
  {
    ((value / 3600) % 24, (value / 60) % 60, value % 60)
  }

  /** The three parts are the time of day the value names. */
  lemma BerlinTimeOfDay(value: int)
    ensures var (h, m, s) := Layer10Berlin(value); h * 3600 + m * 60 + s == value % 86400
  {
    var (h, m, s) := Layer10Berlin(value);
    var a := value / 60;
    var b := a / 60;
    var c := b / 24;
    assert a == 60 * b + m;
    assert b == 24 * c + h;
    assert value == 3600 * b + (60 * m + s);
    DivModUnique(value, 3600, b, 60 * m + s);
    assert value == 86400 * c + (h * 3600 + m * 60 + s);
    DivModUnique(value, 86400, c, h * 3600 + m * 60 + s);
  }

  const GridCells: nat := 64 * 32 * 64

  /** The cell of the 64 x 32 x 64 grid an index names, after reduction modulo the
      number of cells. */
  function GridCell(value: nat): (xyz: (nat, nat, nat))
    ensures xyz.0 < 64 && xyz.1 < 32 && xyz.2 < 64
  {
    var zkq := value % GridCells;
    (zkq / (32 * 64), (zkq / 64) % 32, zkq % 64)
  }

  /** The coordinates are the digits of the reduced index. */
  lemma GridCellDecomposes(value: nat)
    ensures var (x, y, z) := GridCell(value); x * 2048 + y * 64 + z == value % GridCells
  {
    var (x, y, z) := GridCell(value);
    var zkq := value % GridCells;
    var a := zkq / 64;
    assert zkq == 64 * a + z;
    assert a == 32 * (a / 32) + y;
    DivModUnique(zkq, 2048, a / 32, y * 64 + z);
  }

  /** Different indices below the number of cells land in different cells. */
  lemma GridCellInjective(v: nat, w: nat)
    requires v < GridCells && w < GridCells && GridCell(v) == GridCell(w)
    ensures v == w
  {
    GridCellDecomposes(v);
    GridCellDecomposes(w);
  }
}
