/** The audio covert-channel detector: ultrasonic frequencies next to audio APIs,
    microphone access, and long zero-byte runs in WAV data. The regular-expression
    matches on the file's text and the file's bytes are given as inputs. */
module Audio {
  import opened Wrappers
  import opened Json
  import opened Bytes
  import opened Skills
  import Text
  import Numeric

  /** What the detector's regular expressions find in a text file. */
  datatype TextMatches = TextMatches(
    audioApis: seq<string>,    // AudioContext, WebAudio, createOscillator, ...
    frequencies: seq<string>,  // tokens of the frequency pattern
    micKeywords: seq<string>,  // microphone, MediaRecorder, ...
    hasNetwork: bool)          // fetch, XMLHttpRequest, WebSocket or send occurs

  /** The shape of the frequency pattern `1[89]\d{3}|2[0-4]\d{3}` on a whole token,
      with ASCII digits. It only describes the regular expression's tokens: the
      frequency matches reach `UltrasonicFindings` as given, and the regular
      expression's `\d` also accepts non-ASCII decimal digits, which this leaves out. */
  predicate FrequencyPattern(t: string) {
    |t| == 5 && (forall i :: 0 <= i < 5 ==> Text.IsAsciiDigit(t[i]))
    && ((t[0] == '1' && (t[1] == '8' || t[1] == '9')) || (t[0] == '2' && '0' <= t[1] <= '4'))
  }

  function Dig(c: char): (n: nat)
    requires Text.IsAsciiDigit(c)
    ensures n < 10
  {
    c as int - '0' as int
  }

  /** The decimal value of a five-digit token, digit by digit. */
  lemma FiveDigitValue(t: string)
    requires |t| == 5 && forall i :: 0 <= i < |t| ==> Text.IsAsciiDigit(t[i])
    ensures Numeric.DigitsValue(t, 10)
            == Some(Dig(t[0]) * 10000 + Dig(t[1]) * 1000 + Dig(t[2]) * 100 + Dig(t[3]) * 10 + Dig(t[4]))
  {
    assert t[..1][..0] == t[..0] && Numeric.DigitsValue(t[..0], 10) == Some(0);
    assert Numeric.DigitsValue(t[..1], 10) == Some(Dig(t[0]));
    assert t[..2][..1] == t[..1];
    assert Numeric.DigitsValue(t[..2], 10) == Some(Dig(t[0]) * 10 + Dig(t[1]));
    assert t[..3][..2] == t[..2];
    assert Numeric.DigitsValue(t[..3], 10) == Some(Dig(t[0]) * 100 + Dig(t[1]) * 10 + Dig(t[2]));
    assert t[..4][..3] == t[..3];
    assert Numeric.DigitsValue(t[..4], 10)
           == Some(Dig(t[0]) * 1000 + Dig(t[1]) * 100 + Dig(t[2]) * 10 + Dig(t[3]));
    assert t[..5][..4] == t[..4];
    assert t[..5] == t;
  }

  /** A five-digit token has the frequency pattern's shape exactly when its value
      lies in 18000..24999 (the source's comment says 18-24 kHz). */
  lemma FrequencyPatternRange(t: string)
    requires |t| == 5 && forall i :: 0 <= i < |t| ==> Text.IsAsciiDigit(t[i])
    ensures Numeric.DigitsValue(t, 10).Some?
    ensures FrequencyPattern(t) <==> 18000 <= Numeric.DigitsValue(t, 10).value <= 24999
  {
    FiveDigitValue(t);
  }

  function QuotedList(xs: seq<string>): string {
    "[" + QuotedItems(xs) + "]"
  }

  function QuotedItems(xs: seq<string>): string
    decreases |xs|
  {
    if xs == [] then ""
    else if |xs| == 1 then "\"" + xs[0] + "\""
    else "\"" + xs[0] + "\", " + QuotedItems(xs[1..])
  }

  /** `detect_ultrasonic`: one finding when both an audio API and a frequency token occur. */
  function UltrasonicFindings(m: TextMatches, location: string): (r: seq<Finding>)
    ensures |r| <= 1
    ensures r != [] <==> m.audioApis != [] && m.frequencies != []
    ensures r != [] ==> r[0].findingType == "ultrasonic_frequency" && r[0].confidence == 0.8 && r[0].severity == High
  {
    if m.audioApis != [] && m.frequencies != [] then
      [Finding(
        "ultrasonic_frequency",
        Obj(map["audio_apis" := StrArr(m.audioApis), "frequencies" := StrArr(m.frequencies)]),
        0.8,
        location,
        High,
        Obj(map[
          "pattern" := Str("Ultrasonic frequency usage"),
          "description" := Str("Audio API with ultrasonic frequencies: " + QuotedList(m.frequencies))]))]
    else []
  }

  /** `detect_mic_access`: one finding per file with microphone keywords; network
      capability makes it Critical at 0.85, otherwise Medium at 0.6. */
  function MicFindings(m: TextMatches, location: string): (r: seq<Finding>)
    ensures |r| <= 1
    ensures r != [] <==> m.micKeywords != []
    ensures r != [] ==> r[0].findingType == "microphone_access"
    ensures r != [] ==> (r[0].severity == Critical && r[0].confidence == 0.85 <==> m.hasNetwork)
    ensures r != [] ==> (r[0].severity == Medium && r[0].confidence == 0.6 <==> !m.hasNetwork)
  {
    if m.micKeywords == [] then []
    else
      var severity := if m.hasNetwork then Critical else Medium;
      var confidence := if m.hasNetwork then 0.85 else 0.6;
      [Finding(
        "microphone_access",
        Obj(map["keywords" := StrArr(m.micKeywords), "has_network" := Bool(m.hasNetwork)]),
        confidence,
        location,
        severity,
        Obj(map[
          "pattern" := Str("Microphone access"),
          "description" := Str(if m.hasNetwork
                               then "Microphone access with network capability - potential audio exfiltration"
                               else "Microphone access detected")]))]
  }

  // Zero runs in WAV data.

  const AudioExtensions: seq<string> := ["wav", "mp3", "ogg", "flac", "aac"]
  const WavHeaderSize: nat := 44
  const ScanLimit: nat := 10000
  const LongRun: nat := 100

  /** The bytes after the 44-byte header, at most 10000 of them. */
  function ScanWindow(data: seq<byte>): (w: seq<byte>)
    requires |data| > WavHeaderSize
    ensures |w| == if |data| - WavHeaderSize < ScanLimit then |data| - WavHeaderSize else ScanLimit
    ensures w == data[WavHeaderSize..WavHeaderSize + |w|]
  {
    var stop := if |data| < WavHeaderSize + ScanLimit then |data| else WavHeaderSize + ScanLimit;
    data[WavHeaderSize..stop]
  }

  /** Length of the run of zero bytes at the end of `s`. */
  function TrailingZeros(s: seq<byte>): (n: nat)
    ensures n <= |s|
    ensures forall k :: |s| - n <= k < |s| ==> s[k] == 0
    ensures n < |s| ==> s[|s| - n - 1] != 0
    decreases |s|
  {
    if s == [] || s[|s| - 1] != 0 then 0 else TrailingZeros(s[..|s| - 1]) + 1
  }

  /** The number of non-zero bytes of `s` that end a run of more than 100 zeros. */
  function LongRunEnds(s: seq<byte>): nat
    decreases |s|
  {
    if s == [] then 0
    else
      var init := s[..|s| - 1];
      LongRunEnds(init) + (if s[|s| - 1] != 0 && TrailingZeros(init) > LongRun then 1 else 0)
  }

  function NonZeroCount(s: seq<byte>): nat
    decreases |s|
  {
    if s == [] then 0 else NonZeroCount(s[..|s| - 1]) + (if s[|s| - 1] != 0 then 1 else 0)
  }

  /** Each counted run ends at its own non-zero byte. */
  lemma {:induction false} LongRunEndsBound(s: seq<byte>)
    ensures LongRunEnds(s) <= NonZeroCount(s)
    decreases |s|
  {
    if s != [] {
      LongRunEndsBound(s[..|s| - 1]);
    }
  }

  function ZeroBytes(n: nat): (z: seq<byte>)
    ensures |z| == n && forall i :: 0 <= i < n ==> z[i] == 0
  {
    seq(n, _ => 0)
  }

  /** A run of zeros still open at the end of the window is not counted. */
  lemma {:induction false} TrailingRunUncounted(s: seq<byte>, zeros: nat)
    ensures LongRunEnds(s + ZeroBytes(zeros)) == LongRunEnds(s)
    decreases zeros
  {
    if zeros == 0 {
      assert s + ZeroBytes(zeros) == s;
    } else {
      var t := s + ZeroBytes(zeros);
      assert t[..|t| - 1] == s + ZeroBytes(zeros - 1);
      assert t[|t| - 1] == 0;
      TrailingRunUncounted(s, zeros - 1);
    }
  }

  /** The loop of `detect_audio_manipulation` over the window. */
  method CountZeroRuns(window: seq<byte>) returns (zeroRuns: nat)
    ensures zeroRuns == LongRunEnds(window)
  {
    zeroRuns := 0;
    var currentRun := 0;
    var i := 0;
    while i < |window|
      invariant 0 <= i <= |window|
      invariant zeroRuns == LongRunEnds(window[..i])
      invariant currentRun == TrailingZeros(window[..i])
    {
      var b := window[i];
      assert window[..i + 1][..i] == window[..i];
      if b == 0 {
        currentRun := currentRun + 1;
      } else {
        if currentRun > LongRun {
          zeroRuns := zeroRuns + 1;
        }
        currentRun := 0;
      }
      i := i + 1;
    }
    assert window[..i] == window;
  }

  predicate IsWav(extension: string, data: seq<byte>) {
    Text.Lower(extension) == "wav" && |data| > WavHeaderSize
  }

  function AnomalyFinding(zeroRuns: nat, location: string): (f: Finding)
    ensures f.findingType == "audio_anomaly" && f.confidence == 0.65 && f.severity == Medium
  {
    Finding(
      "audio_anomaly",
      Obj(map["file_type" := Str("WAV"), "zero_runs" := NatNum(zeroRuns)]),
      0.65,
      location,
      Medium,
      Obj(map[
        "pattern" := Str("Audio file anomaly"),
        "description" := Str("WAV file has " + Text.NatToString(zeroRuns) + " unusual zero-byte runs")]))
  }

  /** `detect_audio_manipulation`: only the five audio extensions (lower-cased) are
      read, only WAV files over 44 bytes are analysed, and more than five long
      zero runs in the window give a finding. */
  function ManipulationFindings(extension: string, data: Option<seq<byte>>, location: string): (r: seq<Finding>)
    ensures |r| <= 1
    ensures r != [] <==> Text.Lower(extension) in AudioExtensions && data.Some? && IsWav(extension, data.value)
                         && LongRunEnds(ScanWindow(data.value)) > 5
    ensures r != [] ==> r[0] == AnomalyFinding(LongRunEnds(ScanWindow(data.value)), location)
  {
    if Text.Lower(extension) in AudioExtensions && data.Some? && IsWav(extension, data.value)
       && LongRunEnds(ScanWindow(data.value)) > 5
    then [AnomalyFinding(LongRunEnds(ScanWindow(data.value)), location)]
    else []
  }

  method DetectAudioManipulation(extension: string, data: Option<seq<byte>>, location: string)
    returns (findings: seq<Finding>)
    ensures findings == ManipulationFindings(extension, data, location)
  {
    findings := [];
    var ext := Text.Lower(extension);
    if ext in AudioExtensions && data.Some? {
      var bytes := data.value;
      if ext == "wav" && |bytes| > WavHeaderSize {
        var zeroRuns := CountZeroRuns(ScanWindow(bytes));
        if zeroRuns > 5 {
          findings := [AnomalyFinding(zeroRuns, location)];
        }
      }
    }
  }

  function TextFindings(text: Option<TextMatches>, location: string): seq<Finding> {
    if text.Some? then UltrasonicFindings(text.value, location) + MicFindings(text.value, location) else []
  }

  /** `analyze_file`: the WAV check, then the two text checks when the file reads as text. */
  method AnalyzeFile(extension: string, data: Option<seq<byte>>, text: Option<TextMatches>, location: string)
    returns (findings: seq<Finding>)
    ensures findings == ManipulationFindings(extension, data, location) + TextFindings(text, location)
  {
    findings := DetectAudioManipulation(extension, data, location);
    findings := findings + TextFindings(text, location);
  }

  /** After the 0.7 threshold of `execute`, no WAV anomaly and no microphone finding
      without network capability is left. */
  lemma ThresholdDropsWeakFindings(extension: string, data: Option<seq<byte>>, text: Option<TextMatches>, location: string)
    ensures var kept := Confident(ManipulationFindings(extension, data, location) + TextFindings(text, location),
                                  Descriptor.confidenceThreshold);
            forall f :: f in kept ==> f.findingType != "audio_anomaly" && f.severity != Medium
  {
    var m := ManipulationFindings(extension, data, location);
    var t := TextFindings(text, location);
    assert Descriptor.confidenceThreshold == 0.7;
    forall f: Finding | f in m + t && f.confidence >= 0.7
      ensures f.findingType != "audio_anomaly" && f.severity != Medium
    {
      if f !in m && text.Some? {
        var u, c := UltrasonicFindings(text.value, location), MicFindings(text.value, location);
        if f in u {
          assert f == u[0];
        } else {
          assert f == c[0];
        }
      }
    }
  }

  const Descriptor: Skill := Skill(
    "detect_audio_channels",
    "Detects audio-based covert channels including ultrasonic communication, microphone access patterns, and audio file anomalies.",
    ["audio", "covert_channel", "exfiltration"],
    Obj(map[
      "path" := StringParam("File or directory to scan"),
      "recursive" := BoolParam("Scan directories recursively", true),
      "analyze_audio_files" := BoolParam("Analyze audio file contents", true)]),
    DefaultConfidenceThreshold)
}
