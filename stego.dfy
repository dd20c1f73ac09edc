/** The steganography detector: data past a PNG or JPEG end marker, trailing
    whitespace patterns and Cyrillic/Greek look-alike letters. The file's bytes,
    and its text when it is valid UTF-8, are given as inputs. */
module Stego {
  import opened Wrappers
  import opened Json
  import opened Bytes
  import opened Skills
  import Text
  import opened Sets

  const PngMagic: seq<byte> := [0x89, 0x50, 0x4E, 0x47]
  /** A zero chunk length followed by the chunk type "IEND". */
  const IendWindow: seq<byte> := [0x00, 0x00, 0x00, 0x00, 0x49, 0x45, 0x4E, 0x44]
  const JpegMagic: seq<byte> := [0xFF, 0xD8, 0xFF]
  const EoiMarker: seq<byte> := [0xFF, 0xD9]

  predicate BytesStartWith(data: seq<byte>, p: seq<byte>) {
    |p| <= |data| && data[..|p|] == p
  }

  /** Hidden data found past an end marker. */
  datatype EofHit = EofHit(fileType: string, offset: nat, extraBytes: nat)

  /** PNG: the first IEND window at `pos`, data beyond `pos + 12` (chunk type and CRC). */
  function PngHit(data: seq<byte>): (r: Option<EofHit>)
    ensures r.Some? <==> BytesStartWith(data, PngMagic) && Text.Position(data, IendWindow, 0).Some?
                         && Text.Position(data, IendWindow, 0).value + 12 < |data|
    ensures r.Some? ==> r.value.fileType == "PNG"
                        && r.value.offset == Text.Position(data, IendWindow, 0).value + 12
    ensures r.Some? ==> r.value.extraBytes > 0 && r.value.offset + r.value.extraBytes == |data|
  {
    if !BytesStartWith(data, PngMagic) then None
    else match Text.Position(data, IendWindow, 0)
      case None => None
      case Some(pos) =>
        if pos + 12 < |data| then Some(EofHit("PNG", pos + 12, |data| - (pos + 12))) else None
  }

  /** JPEG: the last EOI marker at `pos`, data beyond `pos + 2`. */
  function JpegHit(data: seq<byte>): (r: Option<EofHit>)
    ensures r.Some? <==> BytesStartWith(data, JpegMagic) && Text.RPosition(data, EoiMarker, |data|).Some?
                         && Text.RPosition(data, EoiMarker, |data|).value + 2 < |data|
    ensures r.Some? ==> r.value.fileType == "JPEG"
                        && r.value.offset == Text.RPosition(data, EoiMarker, |data|).value + 2
    ensures r.Some? ==> r.value.extraBytes > 0 && r.value.offset + r.value.extraBytes == |data|
  {
    if !BytesStartWith(data, JpegMagic) then None
    else match Text.RPosition(data, EoiMarker, |data|)
      case None => None
      case Some(pos) =>
        if pos + 2 < |data| then Some(EofHit("JPEG", pos + 2, |data| - (pos + 2))) else None
  }

  /** The two magic numbers differ in their first byte, so a file is never both. */
  lemma AtMostOneEofHit(data: seq<byte>)
    ensures PngHit(data).None? || JpegHit(data).None?
  {
    if BytesStartWith(data, PngMagic) {
      assert data[0] == data[..4][0] == 0x89;
      assert !BytesStartWith(data, JpegMagic) by {
        if |JpegMagic| <= |data| {
          assert data[..3][0] == data[0];
        }
      }
    }
  }

  function EofFinding(h: EofHit, location: string): (f: Finding)
    ensures f.findingType == "eof_hidden_data" && f.confidence == 0.9 && f.severity == High
    ensures f.location == location
  {
    Finding(
      "eof_hidden_data",
      Obj(map["file_type" := Str(h.fileType), "extra_bytes" := NatNum(h.extraBytes), "offset" := NatNum(h.offset)]),
      0.9,
      location,
      High,
      Obj(map[
        "pattern" := Str("Data after " + h.fileType + (if h.fileType == "PNG" then " IEND chunk" else " EOI marker")),
        "description" := Str(Text.NatToString(h.extraBytes) + " bytes hidden after " + h.fileType + " end marker")]))
  }

  function HitFindings(h: Option<EofHit>, location: string): seq<Finding> {
    if h.Some? then [EofFinding(h.value, location)] else []
  }

  /** `detect_eof_data` on the file's bytes: at most one finding, present exactly
      when one of the two end-marker checks reports hidden data. */
  function DetectEofData(data: seq<byte>, location: string): (r: seq<Finding>)
    ensures |r| <= 1
    ensures r != [] <==> PngHit(data).Some? || JpegHit(data).Some?
    ensures PngHit(data).Some? ==> r == [EofFinding(PngHit(data).value, location)]
    ensures JpegHit(data).Some? ==> r == [EofFinding(JpegHit(data).value, location)]
  {
    AtMostOneEofHit(data);
    HitFindings(PngHit(data), location) + HitFindings(JpegHit(data), location)
  }

  // Whitespace encoding.

  /** The run of whitespace at the end of `line` (the source collects it reversed,
      which changes neither its length nor the characters it holds). */
  function TrailingWhitespace(line: string): (r: string)
    ensures |r| <= |line| && r == line[|line| - |r|..]
    ensures forall i :: 0 <= i < |r| ==> Text.IsWhitespace(r[i])
    ensures |r| < |line| ==> !Text.IsWhitespace(line[|line| - |r| - 1])
    decreases |line|
  {
    if line == [] || !Text.IsWhitespace(line[|line| - 1]) then []
    else
      var rest := TrailingWhitespace(line[..|line| - 1]);
      assert line[..|line| - 1][|line| - 1 - |rest|..] == line[|line| - 1 - |rest|..|line| - 1];
      rest + [line[|line| - 1]]
  }

  /** More than two bytes, holding both a tab and a space. */
  predicate SuspiciousRun(run: string) {
    Text.ByteLen(run) > 2 && '\t' in run && ' ' in run
  }

  function SuspiciousCount(lines: seq<string>): (n: nat)
    ensures n <= |lines|
    decreases |lines|
  {
    if lines == [] then 0
    else SuspiciousCount(lines[..|lines| - 1])
         + (if SuspiciousRun(TrailingWhitespace(lines[|lines| - 1])) then 1 else 0)
  }

  /** Sum of the byte lengths of the suspicious runs. */
  function TrailingTotal(lines: seq<string>): nat
    decreases |lines|
  {
    if lines == [] then 0
    else
      var run := TrailingWhitespace(lines[|lines| - 1]);
      TrailingTotal(lines[..|lines| - 1]) + (if SuspiciousRun(run) then Text.ByteLen(run) else 0)
  }

  /** Every suspicious run is at least three bytes long. */
  lemma {:induction false} TrailingTotalAtLeast(lines: seq<string>)
    ensures TrailingTotal(lines) >= 3 * SuspiciousCount(lines)
    decreases |lines|
  {
    if lines != [] {
      TrailingTotalAtLeast(lines[..|lines| - 1]);
    }
  }

  function Min(a: real, b: real): real { if a <= b then a else b }

  function WhitespaceFinding(suspicious: nat, total: nat, location: string): (f: Finding)
    ensures f.findingType == "whitespace_encoding" && f.severity == Medium
    ensures f.confidence == Min(suspicious as real / 100.0, 0.95)
  {
    Finding(
      "whitespace_encoding",
      Obj(map["suspicious_lines" := NatNum(suspicious), "total_trailing_chars" := NatNum(total)]),
      Min(suspicious as real / 100.0, 0.95),
      location,
      Medium,
      Obj(map[
        "pattern" := Str("Whitespace steganography"),
        "description" := Str(Text.NatToString(suspicious) + " lines with suspicious trailing whitespace patterns")]))
  }

  /** The findings `detect_whitespace_encoding` reports for `content`. */
  function WhitespaceFindings(content: string, location: string): (r: seq<Finding>)
    ensures |r| <= 1
    ensures r != [] <==> SuspiciousCount(Text.Lines(content)) > 5
  {
    var lines := Text.Lines(content);
    if SuspiciousCount(lines) > 5
    then [WhitespaceFinding(SuspiciousCount(lines), TrailingTotal(lines), location)]
    else []
  }

  /** A whitespace finding survives the 0.7 threshold exactly when at least 70 lines are suspicious. */
  lemma WhitespaceSurvivesThreshold(suspicious: nat, total: nat, location: string)
    requires suspicious > 5
    ensures 0.05 < WhitespaceFinding(suspicious, total, location).confidence <= 0.95
    ensures WhitespaceFinding(suspicious, total, location).confidence >= DefaultConfidenceThreshold <==> suspicious >= 70
  {
  }

  /** The counting loop over the lines. */
  method CountSuspiciousLines(lines: seq<string>) returns (suspiciousLines: nat, totalTrailing: nat)
    ensures suspiciousLines == SuspiciousCount(lines)
    ensures totalTrailing == TrailingTotal(lines)
  {
    suspiciousLines, totalTrailing := 0, 0;
    for i := 0 to |lines|
      invariant suspiciousLines == SuspiciousCount(lines[..i])
      invariant totalTrailing == TrailingTotal(lines[..i])
    {
      suspiciousLines, totalTrailing := CountLine(lines, i, suspiciousLines, totalTrailing);
    }
    assert lines[..|lines|] == lines;
  }

  /** One pass of the counting loop: the counters over the first `i` lines become those over `i + 1`. */
  method CountLine(lines: seq<string>, i: nat, suspicious: nat, total: nat) returns (suspicious': nat, total': nat)
    requires i < |lines|
    requires suspicious == SuspiciousCount(lines[..i]) && total == TrailingTotal(lines[..i])
    ensures suspicious' == SuspiciousCount(lines[..i + 1]) && total' == TrailingTotal(lines[..i + 1])
  {
    var count, bytes := LineContribution(lines[i]);
    CountStep(lines, i);
    suspicious', total' := suspicious + count, total + bytes;
  }

  /** One line of the loop: its trailing run, and whether it is suspicious. */
  method LineContribution(line: string) returns (count: nat, bytes: nat)
    ensures var run := TrailingWhitespace(line);
      count == (if SuspiciousRun(run) then 1 else 0)
      && bytes == (if SuspiciousRun(run) then Text.ByteLen(run) else 0)
  {
    var trailing := TrailingWhitespace(line);
    if SuspiciousRun(trailing) {
      count, bytes := 1, Text.ByteLen(trailing);
    } else {
      count, bytes := 0, 0;
    }
  }

  lemma CountStep(lines: seq<string>, i: nat)
    requires i < |lines|
    ensures var run := TrailingWhitespace(lines[i]);
      SuspiciousCount(lines[..i + 1]) == SuspiciousCount(lines[..i]) + (if SuspiciousRun(run) then 1 else 0)
      && TrailingTotal(lines[..i + 1]) == TrailingTotal(lines[..i]) + (if SuspiciousRun(run) then Text.ByteLen(run) else 0)
  {
    assert lines[..i + 1][..i] == lines[..i];
  }

  method DetectWhitespaceEncoding(content: string, location: string) returns (findings: seq<Finding>)
    ensures findings == WhitespaceFindings(content, location)
  {
    var suspiciousLines, totalTrailing := CountSuspiciousLines(Text.Lines(content));
    findings := [];
    if suspiciousLines > 5 {
      findings := [WhitespaceFinding(suspiciousLines, totalTrailing, location)];
    }
  }

  // Homoglyphs.

  datatype Homoglyph = Homoglyph(fake: char, latin: char, script: string)

  /** Cyrillic and Greek letters that look like Latin ones, in the source's order. */
  const HomoglyphTable: seq<Homoglyph> := CyrillicHomoglyphs + GreekHomoglyphs

  const CyrillicHomoglyphs: seq<Homoglyph> := [
    Homoglyph('\U{0430}', 'a', "Cyrillic"),
    Homoglyph('\U{0435}', 'e', "Cyrillic"),
    Homoglyph('\U{043E}', 'o', "Cyrillic"),
    Homoglyph('\U{0440}', 'p', "Cyrillic"),
    Homoglyph('\U{0441}', 'c', "Cyrillic"),
    Homoglyph('\U{0445}', 'x', "Cyrillic")
  ]

  const GreekHomoglyphs: seq<Homoglyph> := [
    Homoglyph('\U{0391}', 'A', "Greek"),
    Homoglyph('\U{0392}', 'B', "Greek"),
    Homoglyph('\U{0395}', 'E', "Greek"),
    Homoglyph('\U{0397}', 'H', "Greek"),
    Homoglyph('\U{0399}', 'I', "Greek"),
    Homoglyph('\U{039A}', 'K', "Greek"),
    Homoglyph('\U{039C}', 'M', "Greek"),
    Homoglyph('\U{039D}', 'N', "Greek"),
    Homoglyph('\U{039F}', 'O', "Greek"),
    Homoglyph('\U{03A1}', 'P', "Greek"),
    Homoglyph('\U{03A4}', 'T', "Greek"),
    Homoglyph('\U{03A7}', 'X', "Greek"),
    Homoglyph('\U{0396}', 'Z', "Greek")
  ]

  /** The entries of `table` whose look-alike occurs in `content`, in table order. */
  function Present(table: seq<Homoglyph>, content: string): seq<Homoglyph>
    decreases |table|
  {
    if table == [] then []
    else
      var last := table[|table| - 1];
      Present(table[..|table| - 1], content) + (if last.fake in content then [last] else [])
  }

  lemma {:induction false} PresentMembers(table: seq<Homoglyph>, content: string)
    ensures forall e :: e in Present(table, content) <==> e in table && e.fake in content
    decreases |table|
  {
    if table != [] {
      PresentMembers(table[..|table| - 1], content);
      assert table == table[..|table| - 1] + [table[|table| - 1]];
    }
  }

  /** Selection keeps the table's order: it distributes over concatenation. */
  lemma {:induction false} PresentConcat(a: seq<Homoglyph>, b: seq<Homoglyph>, content: string)
    ensures Present(a + b, content) == Present(a, content) + Present(b, content)
    decreases |b|
  {
    if b == [] {
      assert a + b == a;
    } else {
      assert (a + b)[..|a + b| - 1] == a + b[..|b| - 1];
      PresentConcat(a, b[..|b| - 1], content);
    }
  }

  lemma {:induction false} PresentDistinct(table: seq<Homoglyph>, content: string)
    requires Distinct(table)
    ensures Distinct(Present(table, content))
    decreases |table|
  {
    if table != [] {
      var init := table[..|table| - 1];
      var last := table[|table| - 1];
      assert Distinct(init);
      PresentDistinct(init, content);
      PresentMembers(init, content);
      assert last !in init;
    }
  }

  lemma HomoglyphTableDistinct()
    ensures Distinct(HomoglyphTable)
  {
    CyrillicDistinct();
    GreekDistinct();
    ScriptsDisjoint();
    Sets.DistinctConcat(CyrillicHomoglyphs, GreekHomoglyphs);
  }

  lemma CyrillicDistinct()
    ensures Distinct(CyrillicHomoglyphs)
  {
    var c := CyrillicHomoglyphs;
    assert c[0].fake < c[1].fake < c[2].fake < c[3].fake < c[4].fake < c[5].fake;
    Sets.IncreasingDistinct(c, FakeCode);
  }

  lemma GreekDistinct()
    ensures Distinct(GreekHomoglyphs)
  {
    var g := GreekHomoglyphs;
    assert g[0].latin < g[1].latin < g[2].latin < g[3].latin < g[4].latin < g[5].latin < g[6].latin;
    assert g[6].latin < g[7].latin < g[8].latin < g[9].latin < g[10].latin < g[11].latin < g[12].latin;
    Sets.IncreasingDistinct(g, LatinCode);
  }

  /** Every Cyrillic look-alike lies above U+0400, every Greek one below it. */
  lemma ScriptsDisjoint()
    ensures forall h :: h in CyrillicHomoglyphs ==> h !in GreekHomoglyphs
  {
    assert forall i :: 0 <= i < |CyrillicHomoglyphs| ==> CyrillicHomoglyphs[i].fake as int >= 0x400;
    assert forall i :: 0 <= i < |GreekHomoglyphs| ==> GreekHomoglyphs[i].fake as int < 0x400;
  }

  /** The Cyrillic entries are listed by increasing code point, the Greek ones
      by increasing Latin letter. */
  function FakeCode(h: Homoglyph): int { h.fake as int }

  function LatinCode(h: Homoglyph): int { h.latin as int }

  function HomoglyphJson(h: Homoglyph): Json {
    Obj(map["fake" := Str([h.fake]), "real" := Str([h.latin]), "script" := Str(h.script)])
  }

  function HomoglyphFinding(found: seq<Homoglyph>, location: string): (f: Finding)
    ensures f.findingType == "unicode_homoglyph" && f.confidence == 0.85 && f.severity == High
  {
    Finding(
      "unicode_homoglyph",
      Obj(map["homoglyphs" := Arr(seq(|found|, i requires 0 <= i < |found| => HomoglyphJson(found[i])))]),
      0.85,
      location,
      High,
      Obj(map[
        "pattern" := Str("Unicode homoglyph substitution"),
        "description" := Str("Found " + Text.NatToString(|found|) + " homoglyph characters that look like ASCII")]))
  }

  /** The findings `detect_homoglyphs` reports for `content`: one, listing the
      look-alikes present, when there is any. */
  function HomoglyphFindings(content: string, location: string): (r: seq<Finding>)
    ensures |r| <= 1
    ensures r != [] <==> Present(HomoglyphTable, content) != []
  {
    var found := Present(HomoglyphTable, content);
    if found != [] then [HomoglyphFinding(found, location)] else []
  }

  /** The reported list holds each table entry whose look-alike occurs in the
      content, once; there is a finding iff some look-alike occurs. */
  lemma HomoglyphsReported(content: string, location: string)
    ensures forall e :: e in Present(HomoglyphTable, content) <==> e in HomoglyphTable && e.fake in content
    ensures Distinct(Present(HomoglyphTable, content))
    ensures HomoglyphFindings(content, location) != [] <==> exists e :: e in HomoglyphTable && e.fake in content
  {
    PresentMembers(HomoglyphTable, content);
    HomoglyphTableDistinct();
    PresentDistinct(HomoglyphTable, content);
    var found := Present(HomoglyphTable, content);
    if found != [] {
      assert found[0] in found;
    }
  }

  method DetectHomoglyphs(content: string, location: string) returns (findings: seq<Finding>)
    ensures findings == HomoglyphFindings(content, location)
  {
    var found: seq<Homoglyph> := [];
    for i := 0 to |HomoglyphTable|
      invariant found == Present(HomoglyphTable[..i], content)
    {
      var entry := HomoglyphTable[i];
      assert HomoglyphTable[..i + 1][..i] == HomoglyphTable[..i];
      if entry.fake in content {
        found := found + [entry];
      }
    }
    assert HomoglyphTable[..|HomoglyphTable|] == HomoglyphTable;
    findings := [];
    if found != [] {
      findings := [HomoglyphFinding(found, location)];
    }
  }

  /** The findings of the two text checks. */
  function TextFindings(text: Option<string>, location: string): seq<Finding> {
    if text.Some? then WhitespaceFindings(text.value, location) + HomoglyphFindings(text.value, location) else []
  }

  /** `analyze_file`: the end-marker check on the bytes, then the two text checks
      when the file reads as UTF-8 text. */
  method AnalyzeFile(data: seq<byte>, text: Option<string>, location: string) returns (findings: seq<Finding>)
    ensures findings == DetectEofData(data, location) + TextFindings(text, location)
  {
    var eof := DetectEofData(data, location);
    var rest: seq<Finding> := [];
    if text.Some? {
      var ws := DetectWhitespaceEncoding(text.value, location);
      var hg := DetectHomoglyphs(text.value, location);
      rest := ws + hg;
    }
    findings := eof + rest;
  }

  const Descriptor: Skill := Skill(
    "detect_steganography",
    "Detects steganographic patterns including EOF hidden data, whitespace encoding, and Unicode homoglyph substitution.",
    ["steganography", "hidden_data", "pattern_detection"],
    Obj(map[
      "path" := StringParam("File or directory to scan"),
      "recursive" := BoolParam("Scan directories recursively", true),
      "check_images" := BoolParam("Perform LSB analysis on images", false)]),
    DefaultConfidenceThreshold)
}
