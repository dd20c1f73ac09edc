/** The cipher pattern detector: power-of-two grids, self-referencing hashes,
    GUID modular correlations and low-discrepancy sequence indicators. */
module Cipher {
  import opened Wrappers
  import opened Json
  import opened Skills
  import opened Bytes
  import Text
  import Numeric
  import Sets

  // ---------------------------------------------------------------- powers of two

  /** `is_power_of_2` on a `u64`: non-zero with a single bit set. */
  predicate IsPowerOf2(n: bv64) {
    n > 0 && n & (n - 1) == 0
  }

  function Bit(k: bv64): bv64
    requires k < 64
  {
    1 << k
  }

  lemma BitIsPowerOf2(k: bv64)
    requires k < 64
    ensures IsPowerOf2(Bit(k))
  {
  }

  /** The bit test accepts exactly the 64 values `1 << k`. */
  lemma {:induction false} PowerOf2IsBit(n: bv64)
    requires IsPowerOf2(n)
    ensures exists k: bv64 :: k < 64 && n == Bit(k)
    decreases n
  {
    if n == 1 {
      assert n == Bit(0);
    } else {
      assert n & 1 == 0;
      var h := n >> 1;
      assert IsPowerOf2(h);
      PowerOf2IsBit(h);
      var k: bv64 :| k < 64 && h == Bit(k);
      assert k < 63;
      assert n == Bit(k + 1);
    }
  }

  lemma PowerOf2Examples()
    ensures IsPowerOf2(64) && IsPowerOf2(256) && IsPowerOf2(131072)
    ensures !IsPowerOf2(100) && !IsPowerOf2(0)
  {
  }

  // ---------------------------------------------------------------- grids

  const U64Limit: nat := 0x1_0000_0000_0000_0000

  /** The captured dimensions that parse as a `u64`; the others are dropped. */
  function ParseDims(groups: seq<string>): (dims: seq<bv64>)
    ensures |dims| <= |groups|
    decreases |groups|
  {
    if groups == [] then []
    else
      var rest := ParseDims(groups[..|groups| - 1]);
      match Numeric.ParseUnsigned(groups[|groups| - 1], 10, U64Limit)
      case Some(d) => rest + [d as bv64]
      case None => rest
  }

  /** Groups none of which parses leave no dimensions. */
  lemma {:induction false} ParseDimsNone(groups: seq<string>)
    requires forall j :: 0 <= j < |groups| ==> Numeric.ParseUnsigned(groups[j], 10, U64Limit).None?
    ensures ParseDims(groups) == []
    decreases |groups|
  {
    if groups != [] {
      ParseDimsNone(groups[..|groups| - 1]);
    }
  }

  /** `dims.iter().product()` on `u64`, wrapping as a release build does. */
  function Product(dims: seq<bv64>): bv64
    decreases |dims|
  {
    if dims == [] then 1 else Product(dims[..|dims| - 1]) * dims[|dims| - 1]
  }

  /** A 64 x 64 x 64 grid has 262144 cells; 2^32 x 2^32 cells wrap around to 0. */
  lemma ProductExamples()
    ensures Product([64, 64, 64]) == 262144
    ensures Product([0x1_0000_0000, 0x1_0000_0000]) == 0
  {
    var one: seq<bv64> := [64];
    assert one[..0] == [] && Product(one) == 64;
    var two: seq<bv64> := [64, 64];
    assert two[..1] == one && Product(two) == 4096;
    var cube: seq<bv64> := [64, 64, 64];
    assert cube[..2] == two;
    var half: seq<bv64> := [0x1_0000_0000];
    assert half[..0] == [] && Product(half) == 0x1_0000_0000;
    var wide: seq<bv64> := [0x1_0000_0000, 0x1_0000_0000];
    assert wide[..1] == half;
  }

  predicate AllPowersOf2(dims: seq<bv64>) {
    forall i :: 0 <= i < |dims| ==> IsPowerOf2(dims[i])
  }

  function BvNats(dims: seq<bv64>): (r: seq<nat>)
    ensures |r| == |dims|
    ensures forall i :: 0 <= i < |dims| ==> r[i] == dims[i] as nat
  {
    seq(|dims|, i requires 0 <= i < |dims| => dims[i] as nat)
  }

  function GridFinding(dims: seq<bv64>, location: string): Finding {
    var total := Product(dims);
    Finding("power2_grid",
      Obj(map["dimensions" := NatArr(BvNats(dims)), "total_cells" := NatNum(total as nat)]),
      0.9, location, Medium,
      Obj(map["pattern" := Str("Power-of-2 grid structure"),
              "description" := Str(Text.NatList(BvNats(dims)) + " = " + Text.NatToString(total as nat) + " cells")]))
  }

  /** The grid findings of a list of dimension captures (two or three groups each):
      one per capture whose parsable dimensions are all powers of two. */
  function GridFindings(captures: seq<seq<string>>, location: string): seq<Finding> {
    Sets.FilterMap(captures, (c: seq<string>) => AllPowersOf2(ParseDims(c)),
                   (c: seq<string>) => GridFinding(ParseDims(c), location))
  }

  /** One finding per capture whose parsable dimensions are all powers of two. */
  lemma GridFindingsCharacterized(captures: seq<seq<string>>, location: string)
    ensures |GridFindings(captures, location)| <= |captures|
    ensures forall f :: f in GridFindings(captures, location) <==>
      exists c :: c in captures && AllPowersOf2(ParseDims(c)) && f == GridFinding(ParseDims(c), location)
  {
    Sets.FilterMapMembers(captures, (c: seq<string>) => AllPowersOf2(ParseDims(c)),
                          (c: seq<string>) => GridFinding(ParseDims(c), location));
  }

  /** A capture none of whose groups parses has no dimensions: `all` holds vacuously
      and it is reported as a one-cell grid. */
  lemma UnparsableGridIsReported(groups: seq<string>, location: string)
    requires forall j :: 0 <= j < |groups| ==> Numeric.ParseUnsigned(groups[j], 10, U64Limit).None?
    ensures GridFindings([groups], location) == [GridFinding([], location)]
    ensures Product(ParseDims(groups)) == 1
  {
    ParseDimsNone(groups);
    assert AllPowersOf2(ParseDims(groups));
    Sets.FilterMapSingle(groups, (c: seq<string>) => AllPowersOf2(ParseDims(c)),
                         (c: seq<string>) => GridFinding(ParseDims(c), location));
  }

  method DetectGridPatterns(captures: seq<seq<string>>, location: string) returns (findings: seq<Finding>)
    ensures findings == GridFindings(captures, location)
  {
    findings := [];
    for i := 0 to |captures|
      invariant findings == GridFindings(captures[..i], location)
    {
      assert captures[..i + 1][..i] == captures[..i];
      var dims := ParseDims(captures[i]);
      if AllPowersOf2(dims) {
        findings := findings + [GridFinding(dims, location)];
      }
    }
    assert captures[..|captures|] == captures;
  }

  // ---------------------------------------------------------------- self-referencing hashes

  /** The hash written in the text equals (ignoring ASCII case) the lower-case hex
      digest of the text with every copy of that hash removed. */
  predicate SelfReferencing(hash: string, content: string, digest: string -> seq<byte>) {
    Text.Lower(Hex(digest(Text.RemoveAll(content, hash)))) == Text.Lower(hash)
  }

  function SelfReferenceFinding(hash: string, algorithm: string, tag: string, location: string): Finding {
    Finding("self_referencing_hash",
      Obj(map["hash" := Str(hash), "algorithm" := Str(algorithm), "verified" := Bool(true)]),
      0.99, location, Critical,
      Obj(map["pattern" := Str("Self-referencing " + tag + " hash"),
              "description" := Str("File contains hash of itself (minus the hash)")]))
  }

  function SelfReferenceFindings(hashes: seq<string>, content: string, digest: string -> seq<byte>,
                                 algorithm: string, tag: string, location: string): seq<Finding>
  {
    Sets.FilterMap(hashes, (h: string) => SelfReferencing(h, content, digest),
                   (h: string) => SelfReferenceFinding(h, algorithm, tag, location))
  }

  /** A candidate is reported exactly when its (lower-cased) text is the hex digest
      of the text without it; nothing else is reported. */
  lemma SelfReferenceReported(hashes: seq<string>, content: string, digest: string -> seq<byte>,
                              algorithm: string, tag: string, location: string)
    ensures forall h :: h in hashes ==>
      (SelfReferenceFinding(h, algorithm, tag, location) in SelfReferenceFindings(hashes, content, digest, algorithm, tag, location)
       <==> Text.Lower(h) == Hex(digest(Text.RemoveAll(content, h))))
    ensures forall f :: f in SelfReferenceFindings(hashes, content, digest, algorithm, tag, location) ==>
      f.findingType == "self_referencing_hash" && f.severity == Critical
  {
    Sets.FilterMapMembers(hashes, (h: string) => SelfReferencing(h, content, digest),
                          (h: string) => SelfReferenceFinding(h, algorithm, tag, location));
    forall h | h in hashes
      ensures SelfReferenceFinding(h, algorithm, tag, location) in SelfReferenceFindings(hashes, content, digest, algorithm, tag, location)
              <==> Text.Lower(h) == Hex(digest(Text.RemoveAll(content, h)))
    {
      LowerHex(digest(Text.RemoveAll(content, h)));
      if SelfReferenceFinding(h, algorithm, tag, location) in SelfReferenceFindings(hashes, content, digest, algorithm, tag, location) {
        var x :| x in hashes && SelfReferencing(x, content, digest)
                 && SelfReferenceFinding(h, algorithm, tag, location) == SelfReferenceFinding(x, algorithm, tag, location);
        assert SelfReferenceFinding(x, algorithm, tag, location).value.fields["hash"] == Str(x);
      }
    }
  }

  method CheckHashes(hashes: seq<string>, content: string, digest: string -> seq<byte>,
                     algorithm: string, tag: string, location: string) returns (findings: seq<Finding>)
    ensures findings == SelfReferenceFindings(hashes, content, digest, algorithm, tag, location)
  {
    findings := [];
    for i := 0 to |hashes|
      invariant findings == SelfReferenceFindings(hashes[..i], content, digest, algorithm, tag, location)
    {
      assert hashes[..i + 1][..i] == hashes[..i];
      var h := hashes[i];
      if SelfReferencing(h, content, digest) {
        findings := findings + [SelfReferenceFinding(h, algorithm, tag, location)];
      }
    }
    assert hashes[..|hashes|] == hashes;
  }

  function SelfReferencePart(md5Candidates: seq<string>, sha256Candidates: seq<string>, content: string,
                             md5: string -> Md5Digest, sha256: string -> Sha256Digest, location: string): seq<Finding>
  {
    SelfReferenceFindings(md5Candidates, content, md5, "md5", "MD5", location)
      + SelfReferenceFindings(sha256Candidates, content, sha256, "sha256", "SHA256", location)
  }

  /** `detect_self_reference`: the 32-digit candidates checked against MD5, then the
      64-digit candidates against SHA-256. */
  method DetectSelfReference(md5Candidates: seq<string>, sha256Candidates: seq<string>, content: string,
                             md5: string -> Md5Digest, sha256: string -> Sha256Digest, location: string)
    returns (findings: seq<Finding>)
    ensures findings == SelfReferencePart(md5Candidates, sha256Candidates, content, md5, sha256, location)
  {
    var m := CheckHashes(md5Candidates, content, md5, "md5", "MD5", location);
    var s := CheckHashes(sha256Candidates, content, sha256, "sha256", "SHA256", location);
    findings := m + s;
  }

  // ---------------------------------------------------------------- GUID correlations

  const Moduli: seq<nat> := [64, 256, 1024, 131072]
  const U128Limit: nat := 0x1_0000_0000_0000_0000_0000_0000_0000_0000

  /** The GUID's hex digits (dashes removed) read as a `u128`; None when that parse
      fails. */
  function GuidValue(guid: string): (r: Option<nat>)
    ensures r.Some? ==> r.value < U128Limit
  {
    Numeric.ParseUnsigned(Text.RemoveAll(guid, "-"), 16, U128Limit)
  }

  /** The values of the GUIDs that parse, in order. */
  function GuidValues(guids: seq<string>): (values: seq<nat>)
    ensures |values| <= |guids|
    decreases |guids|
  {
    if guids == [] then []
    else
      var rest := GuidValues(guids[..|guids| - 1]);
      match GuidValue(guids[|guids| - 1])
      case Some(v) => rest + [v]
      case None => rest
  }

  /** Each parsed value reduced by the modulus. */
  function Residues(values: seq<nat>, modulus: nat): (residues: seq<nat>)
    requires modulus > 0
    ensures |residues| == |values|
    ensures forall i :: 0 <= i < |values| ==> residues[i] == values[i] % modulus < modulus
  {
    seq(|values|, i requires 0 <= i < |values| => values[i] % modulus)
  }

  /** The largest multiplicity among `candidates` of the values in `values`. */
  function MaxOver(values: seq<nat>, candidates: seq<nat>): (c: nat)
    ensures forall i :: 0 <= i < |candidates| ==> multiset(values)[candidates[i]] <= c
    ensures candidates != [] ==> exists i :: 0 <= i < |candidates| && multiset(values)[candidates[i]] == c
    decreases |candidates|
  {
    if candidates == [] then 0
    else
      var rest := MaxOver(values, candidates[1..]);
      var here := multiset(values)[candidates[0]];
      if here >= rest then here else rest
  }

  /** The multiplicity of the most common value. */
  function MaxCount(values: seq<nat>): (c: nat)
    ensures forall v :: multiset(values)[v] <= c
    ensures values != [] ==> exists v :: v in values && multiset(values)[v] == c
    ensures c <= |values|
  {
    MaxOverAll(values);
    MaxOver(values, values)
  }

  lemma MaxOverAll(values: seq<nat>)
    ensures forall v :: multiset(values)[v] <= MaxOver(values, values)
    ensures values != [] ==> exists v :: v in values && multiset(values)[v] == MaxOver(values, values)
    ensures MaxOver(values, values) <= |values|
  {
    var c := MaxOver(values, values);
    forall v ensures multiset(values)[v] <= c {
      if v in values {
        var i :| 0 <= i < |values| && values[i] == v;
      }
    }
    if values != [] {
      var i :| 0 <= i < |values| && multiset(values)[values[i]] == c;
      MultiplicityBound(values, values[i]);
    }
  }

  lemma {:induction false} MultiplicityBound(values: seq<nat>, v: nat)
    ensures multiset(values)[v] <= |values|
    decreases |values|
  {
    if values != [] {
      var init := values[..|values| - 1];
      assert values == init + [values[|values| - 1]];
      MultiplicityBound(init, v);
    }
  }

  /** `counts.entry(v).or_insert(0) += 1` over the values: a map from each value
      present to its multiplicity. */
  method CountValues(values: seq<nat>) returns (counts: map<nat, nat>)
    ensures forall v :: v in counts <==> v in values
    ensures forall v :: v in counts ==> counts[v] == multiset(values)[v]
  {
    counts := map[];
    for i := 0 to |values|
      invariant forall v :: v in counts <==> v in values[..i]
      invariant forall v :: v in counts ==> counts[v] == multiset(values[..i])[v]
    {
      assert values[..i + 1] == values[..i] + [values[i]];
      var v := values[i];
      if v in counts {
        counts := counts[v := counts[v] + 1];
      } else {
        counts := counts[v := 1];
      }
    }
    assert values[..|values|] == values;
  }

  /** `max_by_key` over the map in its unspecified iteration order: some key of
      largest count (the last one met among equals). */
  method MostCommon(counts: map<nat, nat>) returns (best: nat, bestCount: nat)
    requires counts != map[]
    ensures best in counts && bestCount == counts[best]
    ensures forall v :: v in counts ==> counts[v] <= bestCount
  {
    var keys := Sets.Enumerate(counts.Keys);
    assert keys != [] by {
      var k :| k in counts.Keys;
    }
    best, bestCount := keys[0], counts[keys[0]];
    for j := 1 to |keys|
      invariant best in counts && bestCount == counts[best]
      invariant forall t :: 0 <= t < j ==> counts[keys[t]] <= bestCount
    {
      if counts[keys[j]] >= bestCount {
        best, bestCount := keys[j], counts[keys[j]];
      }
    }
    forall v | v in counts ensures counts[v] <= bestCount {
      var t :| 0 <= t < |keys| && keys[t] == v;
    }
  }

  function GuidFinding(modulus: nat, common: nat, count: nat, total: nat, ratio: real, location: string)
    : (f: Finding)
    ensures f.findingType == "guid_modular_correlation" && f.confidence == ratio
  {
    Finding("guid_modular_correlation",
      Obj(map["modulus" := NatNum(modulus), "common_value" := NatNum(common), "count" := NatNum(count),
              "total" := NatNum(total), "ratio" := Num(ratio)]),
      ratio, location, High,
      Obj(map["pattern" := Str("GUID modular correlation"),
              "description" := Str(Text.NatToString(count) + "/" + Text.NatToString(total) + " GUIDs have mod "
                                   + Text.NatToString(modulus) + " = " + Text.NatToString(common))]))
  }

  /** The share of the residues that the most common one takes. */
  function ClusterRatio(values: seq<nat>): (r: real)
    requires values != []
    ensures 0.0 < r <= 1.0
  {
    var c := MaxCount(values);
    assert c >= 1 by {
      var v :| v in values && multiset(values)[v] == c;
    }
    Numeric.Share(c, |values|)
  }

  /** What one modulus contributes: nothing unless more than 30% of the residues
      share a value, and then one finding naming a most common residue. */
  ghost predicate ModulusPart(part: seq<Finding>, modulus: nat, parsed: seq<nat>, total: nat, location: string)
    requires modulus > 0
  {
    var values := Residues(parsed, modulus);
    if values == [] || ClusterRatio(values) <= 0.3 then part == []
    else exists v :: 0 <= v < modulus && multiset(values)[v] == MaxCount(values)
                     && part == [GuidFinding(modulus, v, MaxCount(values), total, ClusterRatio(values), location)]
  }

  /** A modulus contributes at most one finding, a GUID correlation above 30%. */
  lemma ModulusPartShape(part: seq<Finding>, modulus: nat, parsed: seq<nat>, total: nat, location: string)
    requires modulus > 0
    requires ModulusPart(part, modulus, parsed, total, location)
    ensures |part| <= 1
    ensures forall i :: 0 <= i < |part| ==>
      part[i].findingType == "guid_modular_correlation" && 0.3 < part[i].confidence <= 1.0
  {
  }

  /** One part per modulus, each what that modulus contributes. */
  ghost predicate PartsFor(parts: seq<seq<Finding>>, moduli: seq<nat>, parsed: seq<nat>, total: nat, location: string)
    requires forall i :: 0 <= i < |moduli| ==> moduli[i] > 0
    decreases |moduli|
  {
    |parts| == |moduli|
    && (moduli != [] ==>
          PartsFor(parts[..|parts| - 1], moduli[..|moduli| - 1], parsed, total, location)
          && ModulusPart(parts[|parts| - 1], moduli[|moduli| - 1], parsed, total, location))
  }

  function Concat(parts: seq<seq<Finding>>): seq<Finding>
    decreases |parts|
  {
    if parts == [] then [] else Concat(parts[..|parts| - 1]) + parts[|parts| - 1]
  }

  /** The findings of the moduli in order: their parts one after another. */
  ghost predicate GuidFindingsFor(findings: seq<Finding>, moduli: seq<nat>, parsed: seq<nat>, total: nat, location: string)
    requires forall i :: 0 <= i < |moduli| ==> moduli[i] > 0
  {
    exists parts :: PartsFor(parts, moduli, parsed, total, location) && findings == Concat(parts)
  }

  /** Parts of at most one GUID correlation each make at most one per modulus. */
  lemma {:induction false} ConcatBound(parts: seq<seq<Finding>>, moduli: seq<nat>, parsed: seq<nat>, total: nat, location: string)
    requires forall i :: 0 <= i < |moduli| ==> moduli[i] > 0
    requires PartsFor(parts, moduli, parsed, total, location)
    ensures |Concat(parts)| <= |moduli|
    ensures forall i :: 0 <= i < |Concat(parts)| ==>
      Concat(parts)[i].findingType == "guid_modular_correlation" && 0.3 < Concat(parts)[i].confidence <= 1.0
    decreases |moduli|
  {
    if moduli != [] {
      var n := |moduli| - 1;
      ConcatBound(parts[..n], moduli[..n], parsed, total, location);
      ModulusPartShape(parts[n], moduli[n], parsed, total, location);
    }
  }

  /** At most one finding per modulus. */
  lemma GuidFindingsBound(findings: seq<Finding>, moduli: seq<nat>, parsed: seq<nat>, total: nat, location: string)
    requires forall i :: 0 <= i < |moduli| ==> moduli[i] > 0
    requires GuidFindingsFor(findings, moduli, parsed, total, location)
    ensures |findings| <= |moduli|
    ensures forall i :: 0 <= i < |findings| ==>
      findings[i].findingType == "guid_modular_correlation" && 0.3 < findings[i].confidence <= 1.0
  {
    var parts :| PartsFor(parts, moduli, parsed, total, location) && findings == Concat(parts);
    ConcatBound(parts, moduli, parsed, total, location);
  }

  method ModulusFinding(parsed: seq<nat>, total: nat, modulus: nat, location: string) returns (part: seq<Finding>)
    requires modulus > 0
    ensures ModulusPart(part, modulus, parsed, total, location)
  {
    var values := Residues(parsed, modulus);
    if values == [] {
      return [];
    }
    var counts := CountValues(values);
    assert values[0] in counts;
    var common, count := MostCommon(counts);
    assert count == MaxCount(values) by {
      var v :| v in values && multiset(values)[v] == MaxCount(values);
      assert counts[v] <= count;
    }
    var ratio := Numeric.Share(count, |values|);
    assert ratio == ClusterRatio(values);
    if ratio > 0.3 {
      assert common < modulus by {
        var i :| 0 <= i < |values| && values[i] == common;
      }
      part := [GuidFinding(modulus, common, count, total, ratio, location)];
    } else {
      part := [];
    }
  }

  ghost predicate GuidPart(findings: seq<Finding>, guids: seq<string>, location: string) {
    if |guids| < 3 then findings == [] else GuidFindingsFor(findings, Moduli, GuidValues(guids), |guids|, location)
  }

  /** `detect_guid_patterns`: nothing for fewer than three GUIDs, otherwise the
      moduli 64, 256, 1024 and 131072 in turn. */
  method DetectGuidPatterns(guids: seq<string>, location: string) returns (findings: seq<Finding>)
    ensures GuidPart(findings, guids, location)
  {
    findings := [];
    if |guids| >= 3 {
      var parsed := GuidValues(guids);
      findings := ModulusFindings(parsed, |guids|, Moduli, location);
    }
  }

  /** One modulus after another, each adding its finding if it has one. */
  method ModulusFindings(parsed: seq<nat>, total: nat, moduli: seq<nat>, location: string) returns (findings: seq<Finding>)
    requires forall i :: 0 <= i < |moduli| ==> moduli[i] > 0
    ensures GuidFindingsFor(findings, moduli, parsed, total, location)
  {
    findings := [];
    ghost var parts: seq<seq<Finding>> := [];
    for j := 0 to |moduli|
      invariant findings == Concat(parts)
      invariant PartsFor(parts, moduli[..j], parsed, total, location)
    {
      var part := ModulusFinding(parsed, total, moduli[j], location);
      ghost var done := parts;
      parts := parts + [part];
      assert parts[..j] == done && moduli[..j + 1][..j] == moduli[..j];
      findings := findings + part;
    }
    assert moduli[..|moduli|] == moduli;
  }

  // ---------------------------------------------------------------- sequence indicators

  datatype KeywordEntry = KeywordEntry(keyword: string, sequenceType: string)

  /** The keyword table; a `HashMap`, so it is visited in no particular order. */
  const SequenceKeywords: set<KeywordEntry> := {
    KeywordEntry("golden", "weyl_golden"),
    KeywordEntry("halton", "halton"),
    KeywordEntry("sobol", "sobol"),
    KeywordEntry("quasi", "quasi_random"),
    KeywordEntry("weyl", "weyl")}

  function SequenceFinding(e: KeywordEntry, location: string): Finding {
    Finding("sequence_indicator",
      Obj(map["keyword" := Str(e.keyword), "sequence_type" := Str(e.sequenceType)]),
      0.7, location, Medium,
      Obj(map["pattern" := Str("Low-discrepancy sequence indicator"),
              "description" := Str("Found '" + e.keyword + "' suggesting " + e.sequenceType + " sequence")]))
  }

  function KeywordFindings(order: seq<KeywordEntry>, lowered: string, location: string): seq<Finding> {
    Sets.FilterMap(order, (e: KeywordEntry) => Text.Contains(lowered, e.keyword),
                   (e: KeywordEntry) => SequenceFinding(e, location))
  }

  /** A keyword entry yields a finding exactly when the lower-cased text contains
      its keyword, and every finding comes from such an entry. */
  lemma KeywordFindingsCharacterized(order: seq<KeywordEntry>, lowered: string, location: string)
    ensures |KeywordFindings(order, lowered, location)| <= |order|
    ensures forall f :: f in KeywordFindings(order, lowered, location) <==>
      exists e :: e in order && Text.Contains(lowered, e.keyword) && f == SequenceFinding(e, location)
  {
    Sets.FilterMapMembers(order, (e: KeywordEntry) => Text.Contains(lowered, e.keyword),
                          (e: KeywordEntry) => SequenceFinding(e, location));
  }

  predicate CipherHint(identifier: string) {
    var lowered := Text.Lower(identifier);
    Text.Contains(lowered, "bacon") || Text.Contains(lowered, "cipher")
  }

  function HintFinding(identifier: string, location: string): Finding {
    Finding("cipher_hint_identifier",
      Obj(map["identifier" := Str(identifier)]),
      0.7, location, Low,
      Obj(map["pattern" := Str("Cipher hint in identifier"),
              "description" := Str("Identifier '" + identifier + "' suggests cipher involvement")]))
  }

  function HintFindings(identifiers: seq<string>, location: string): seq<Finding> {
    Sets.FilterMap(identifiers, CipherHint, (id: string) => HintFinding(id, location))
  }

  /** The hints are exactly the identifiers mentioning bacon or cipher, at severity Low. */
  lemma HintFindingsCharacterized(identifiers: seq<string>, location: string)
    ensures forall f :: f in HintFindings(identifiers, location) <==>
      exists id :: id in identifiers && CipherHint(id) && f == HintFinding(id, location)
    ensures forall f :: f in HintFindings(identifiers, location) ==> f.severity == Low && f.confidence == 0.7
  {
    Sets.FilterMapMembers(identifiers, CipherHint, (id: string) => HintFinding(id, location));
  }

  method ScanKeywords(order: seq<KeywordEntry>, lowered: string, location: string) returns (findings: seq<Finding>)
    ensures findings == KeywordFindings(order, lowered, location)
  {
    findings := [];
    for i := 0 to |order|
      invariant findings == KeywordFindings(order[..i], lowered, location)
    {
      assert order[..i + 1][..i] == order[..i];
      if Text.Contains(lowered, order[i].keyword) {
        findings := findings + [SequenceFinding(order[i], location)];
      }
    }
    assert order[..|order|] == order;
  }

  method ScanIdentifiers(identifiers: seq<string>, location: string) returns (findings: seq<Finding>)
    ensures findings == HintFindings(identifiers, location)
  {
    findings := [];
    for i := 0 to |identifiers|
      invariant findings == HintFindings(identifiers[..i], location)
    {
      assert identifiers[..i + 1][..i] == identifiers[..i];
      if CipherHint(identifiers[i]) {
        findings := findings + [HintFinding(identifiers[i], location)];
      }
    }
    assert identifiers[..|identifiers|] == identifiers;
  }

  /** The keyword findings for the keyword table in some order, then the identifier hints. */
  ghost predicate SequencePart(findings: seq<Finding>, content: string, identifiers: seq<string>, location: string) {
    exists order :: Sets.IsEnumeration(order, SequenceKeywords)
      && findings == KeywordFindings(order, Text.Lower(content), location) + HintFindings(identifiers, location)
  }

  /** `detect_sequence_patterns`: the keyword table in some order against the
      lower-cased text, then the identifiers (`\b[A-Za-z_][A-Za-z0-9_]{2,30}\b`
      matches, given) that mention bacon or cipher. */
  method DetectSequencePatterns(content: string, identifiers: seq<string>, location: string)
    returns (findings: seq<Finding>)
    ensures SequencePart(findings, content, identifiers, location)
  {
    var order := Sets.Enumerate(SequenceKeywords);
    var k := ScanKeywords(order, Text.Lower(content), location);
    var h := ScanIdentifiers(identifiers, location);
    findings := k + h;
  }

  // ---------------------------------------------------------------- the file

  /** The matches the detector's regular expressions find in one text file. */
  datatype CipherMatches = CipherMatches(
    dimensionCaptures: seq<seq<string>>,
    md5Candidates: seq<string>,
    sha256Candidates: seq<string>,
    guids: seq<string>,
    identifiers: seq<string>)

  /** `analyze_file` on a file read as text (the constant-seed check is not modelled). */
  method AnalyzeFile(content: Option<string>, matches: CipherMatches, md5: string -> Md5Digest,
                     sha256: string -> Sha256Digest, location: string) returns (findings: seq<Finding>)
    ensures content.None? ==> findings == []
    ensures content.Some? ==>
      exists guidPart :: GuidPart(guidPart, matches.guids, location) &&
        exists sequencePart :: SequencePart(sequencePart, content.value, matches.identifiers, location) &&
          findings == GridFindings(matches.dimensionCaptures, location)
                      + SelfReferencePart(matches.md5Candidates, matches.sha256Candidates, content.value, md5, sha256, location)
                      + guidPart + sequencePart
  {
    if content.None? {
      return [];
    }
    var text := content.value;
    var grid := DetectGridPatterns(matches.dimensionCaptures, location);
    var selfRef := DetectSelfReference(matches.md5Candidates, matches.sha256Candidates, text, md5, sha256, location);
    var guidPart := DetectGuidPatterns(matches.guids, location);
    var sequencePart := DetectSequencePatterns(text, matches.identifiers, location);
    findings := grid + selfRef + guidPart + sequencePart;
  }

  const Descriptor: Skill := Skill(
    "detect_cipher_patterns",
    "Detects cryptographic patterns including mathematical constant seeds, power-of-2 grids, self-referencing hashes, GUID correlations, and low-discrepancy sequence indicators. These patterns are update-proof as they detect methodology, not specific values.",
    ["cipher", "crypto", "pattern_detection"],
    Obj(map[
      "path" := StringParam("File or directory to scan"),
      "recursive" := BoolParam("Scan directories recursively", true),
      "deep_scan" := BoolParam("Perform deeper binary analysis", false)]),
    DefaultConfidenceThreshold)

}
