/** The skill framework of the firewall: severities, findings, skill outputs,
    the shared scan parameters, the schema helpers and the descriptor of a skill. */
module Skills {
  import opened Wrappers
  import opened Json
  import Text

  datatype SkillError =
    | InvalidParams(message: string)
    | Io(message: string)
    | AnalysisFailed(message: string)
    | Serialization(message: string)

  type SkillResult<T> = Result<T, SkillError>

  /** Severity levels, ordered as declared (the derived `Ord`). */
  datatype Severity = Info | Low | Medium | High | Critical {
    function Rank(): (r: nat)
      ensures r <= 4
    {
      match this
      case Info => 0
      case Low => 1
      case Medium => 2
      case High => 3
      case Critical => 4
    }
  }

  /** `a <= b` in the derived order. */
  predicate SeverityLe(a: Severity, b: Severity) {
    a.Rank() <= b.Rank()
  }

  lemma SeverityTotalOrder()
    ensures forall a: Severity :: SeverityLe(a, a)
    ensures forall a: Severity, b: Severity :: SeverityLe(a, b) && SeverityLe(b, a) ==> a == b
    ensures forall a: Severity, b: Severity, c: Severity :: SeverityLe(a, b) && SeverityLe(b, c) ==> SeverityLe(a, c)
    ensures forall a: Severity, b: Severity :: SeverityLe(a, b) || SeverityLe(b, a)
  {
  }

  lemma SeverityChain()
    ensures Info.Rank() < Low.Rank() < Medium.Rank() < High.Rank() < Critical.Rank()
  {
  }

  datatype Finding = Finding(
    findingType: string,
    value: Json,
    confidence: real,
    location: string,
    severity: Severity,
    metadata: Json)

  datatype SkillOutput = SkillOutput(
    findings: seq<Finding>,
    confidence: real,
    metadata: Json,
    complete: bool)

  function SumConfidence(fs: seq<Finding>): real
    decreases |fs|
  {
    if fs == [] then 0.0 else fs[0].confidence + SumConfidence(fs[1..])
  }

  /** `SkillOutput::empty`. */
  function EmptyOutput(): (o: SkillOutput)
    ensures o.findings == [] && o.confidence == 1.0 && o.complete && o.metadata == Null
  {
    SkillOutput([], 1.0, Null, true)
  }

  /** `SkillOutput::with_findings`: the findings unchanged, confidence 1.0 for none
      and otherwise the mean confidence. */
  function WithFindings(fs: seq<Finding>): (o: SkillOutput)
    ensures o.findings == fs && o.complete && o.metadata == Null
    ensures fs == [] ==> o.confidence == 1.0
    ensures fs != [] ==> o.confidence * |fs| as real == SumConfidence(fs)
  {
    if fs == [] then SkillOutput(fs, 1.0, Null, true)
    else SkillOutput(fs, SumConfidence(fs) / |fs| as real, Null, true)
  }

  lemma {:induction false} SumConfidenceBounds(fs: seq<Finding>, lo: real, hi: real)
    requires forall i :: 0 <= i < |fs| ==> lo <= fs[i].confidence <= hi
    ensures lo * |fs| as real <= SumConfidence(fs) <= hi * |fs| as real
    decreases |fs|
  {
    if fs != [] {
      SumConfidenceBounds(fs[1..], lo, hi);
    }
  }

  /** The overall confidence lies between the smallest and the largest finding confidence;
      in particular it stays within [0, 1] when every finding's does. */
  lemma WithFindingsConfidenceBounds(fs: seq<Finding>, lo: real, hi: real)
    requires lo <= 1.0 <= hi
    requires forall i :: 0 <= i < |fs| ==> lo <= fs[i].confidence <= hi
    ensures lo <= WithFindings(fs).confidence <= hi
  {
    SumConfidenceBounds(fs, lo, hi);
    if fs != [] {
      var n := |fs| as real;
      var c := WithFindings(fs).confidence;
      assert c * n <= hi * n;
      assert lo * n <= c * n;
    }
  }

  /** The findings of `fs` that `keep` accepts, in their order. */
  function Filter(fs: seq<Finding>, keep: Finding -> bool): (r: seq<Finding>)
    ensures |r| <= |fs|
    ensures forall i :: 0 <= i < |r| ==> keep(r[i])
    ensures forall f :: multiset(r)[f] == if keep(f) then multiset(fs)[f] else 0
    ensures forall f :: f in r <==> f in fs && keep(f)
    decreases |fs|
  {
    if fs == [] then []
    else
      var rest := Filter(fs[1..], keep);
      assert fs == [fs[0]] + fs[1..];
      if keep(fs[0]) then [fs[0]] + rest else rest
  }

  /** The positions of `fs` whose finding `keep` accepts. */
  function KeptPositions(fs: seq<Finding>, keep: Finding -> bool): set<nat> {
    set i: nat | i < |fs| && keep(fs[i])
  }

  /** The filter keeps one finding per accepted position, so its length counts them. */
  lemma {:induction false} FilterCountsPositions(fs: seq<Finding>, keep: Finding -> bool)
    ensures |Filter(fs, keep)| == |KeptPositions(fs, keep)|
    decreases |fs|
  {
    if fs != [] {
      var init := fs[..|fs| - 1];
      FilterCountsPositions(init, keep);
      FilterSnoc(fs, keep);
      KeptPositionsSnoc(fs, keep);
    }
  }

  lemma FilterSnoc(fs: seq<Finding>, keep: Finding -> bool)
    requires fs != []
    ensures |Filter(fs, keep)| == |Filter(fs[..|fs| - 1], keep)| + (if keep(fs[|fs| - 1]) then 1 else 0)
  {
    var init, last := fs[..|fs| - 1], fs[|fs| - 1];
    assert fs == init + [last];
    FilterConcat(init, [last], keep);
    assert [last][1..] == [];
  }

  lemma KeptPositionsSnoc(fs: seq<Finding>, keep: Finding -> bool)
    requires fs != []
    ensures |KeptPositions(fs, keep)|
            == |KeptPositions(fs[..|fs| - 1], keep)| + (if keep(fs[|fs| - 1]) then 1 else 0)
  {
    var k := |fs| - 1;
    var before := KeptPositions(fs[..k], keep);
    assert KeptPositions(fs, keep) == before + (if keep(fs[k]) then {k} else {});
    assert k !in before;
  }

  /** Filtering keeps the relative order: it distributes over concatenation. */
  lemma {:induction false} FilterConcat(a: seq<Finding>, b: seq<Finding>, keep: Finding -> bool)
    ensures Filter(a + b, keep) == Filter(a, keep) + Filter(b, keep)
    decreases |a|
  {
    if a == [] {
      assert a + b == b;
    } else {
      assert (a + b)[0] == a[0];
      assert (a + b)[1..] == a[1..] + b;
      FilterConcat(a[1..], b, keep);
    }
  }

  lemma {:induction false} FilterKeepsAll(fs: seq<Finding>, keep: Finding -> bool)
    requires forall f :: f in fs ==> keep(f)
    ensures Filter(fs, keep) == fs
    decreases |fs|
  {
    if fs != [] {
      assert forall f :: f in fs[1..] ==> f in fs;
      FilterKeepsAll(fs[1..], keep);
      assert fs == [fs[0]] + fs[1..];
    }
  }

  /** `execute`'s filter: the findings whose confidence reaches the threshold, in order. */
  function Confident(fs: seq<Finding>, threshold: real): (r: seq<Finding>)
    ensures forall f :: f in r <==> f in fs && f.confidence >= threshold
    ensures (forall f :: f in fs ==> f.confidence >= threshold) ==> r == fs
  {
    var keep := (f: Finding) => f.confidence >= threshold;
    if forall f :: f in fs ==> keep(f) then
      FilterKeepsAll(fs, keep);
      Filter(fs, keep)
    else Filter(fs, keep)
  }

  /** The parameters every detector accepts. */
  datatype ScanParams = ScanParams(
    path: string,
    recursive: bool,
    deepScan: bool,
    includes: seq<string>,
    excludes: seq<string>)

  const DefaultConfidenceThreshold: real := 0.7

  function ParseFailure<T>(reason: string): SkillResult<T> {
    Err(InvalidParams("Failed to parse scan params: " + reason))
  }

  /** A string field that must be present. */
  function StringField(v: Option<Json>, name: string): SkillResult<string> {
    match v
    case Some(Str(s)) => Ok(s)
    case Some(_) => ParseFailure("invalid type for field `" + name + "`")
    case None => ParseFailure("missing field `" + name + "`")
  }

  /** A boolean field marked `#[serde(default)]`: absent means false. */
  function BoolField(v: Option<Json>, name: string): SkillResult<bool> {
    match v
    case Some(Bool(b)) => Ok(b)
    case Some(_) => ParseFailure("invalid type for field `" + name + "`")
    case None => Ok(false)
  }

  function AllStrings(items: seq<Json>): (r: Option<seq<string>>)
    ensures r.Some? ==> |r.value| == |items|
  {
    if items == [] then Some([])
    else if !items[0].Str? then None
    else
      match AllStrings(items[1..])
      case Some(rest) => Some([items[0].s] + rest)
      case None => None
  }

  /** A list-of-strings field marked `#[serde(default)]`: absent means empty. */
  function StringListField(v: Option<Json>, name: string): SkillResult<seq<string>> {
    match v
    case Some(Arr(items)) =>
      (match AllStrings(items)
       case Some(xs) => Ok(xs)
       case None => ParseFailure("invalid type in field `" + name + "`"))
    case Some(_) => ParseFailure("invalid type for field `" + name + "`")
    case None => Ok([])
  }

  function Element(items: seq<Json>, i: nat): Option<Json> {
    if i < |items| then Some(items[i]) else None
  }

  /** `ScanParams::from_value`: serde reads the struct from an object (unknown keys
      ignored) or from an array of at most five positional fields; anything else
      fails, and every failure becomes `InvalidParams`. */
  function ScanParamsFromValue(v: Json): (r: SkillResult<ScanParams>)
    ensures r.Err? ==> r.error.InvalidParams?
    ensures v.Obj? && "path" in v.fields && v.fields["path"].Str?
            && (forall k :: k in {"recursive", "deep_scan", "include", "exclude"} ==> k !in v.fields)
            ==> r == Ok(ScanParams(v.fields["path"].s, false, false, [], []))
    ensures v.Obj? && "path" !in v.fields ==> r.Err?
    ensures !v.Obj? && !v.Arr? ==> r.Err?
    ensures r.Ok? && v.Obj? ==> Get(v, "path") == Some(Str(r.value.path))
  {
    match v
    case Obj(m) =>
      var path :- StringField(Get(v, "path"), "path");
      var recursive :- BoolField(Get(v, "recursive"), "recursive");
      var deepScan :- BoolField(Get(v, "deep_scan"), "deep_scan");
      var includes :- StringListField(Get(v, "include"), "include");
      var excludes :- StringListField(Get(v, "exclude"), "exclude");
      Ok(ScanParams(path, recursive, deepScan, includes, excludes))
    case Arr(items) =>
      if |items| > 5 then ParseFailure("invalid length")
      else if items == [] then ParseFailure("invalid length 0")
      else
        var path :- StringField(Some(items[0]), "path");
        var recursive :- BoolField(Element(items, 1), "recursive");
        var deepScan :- BoolField(Element(items, 2), "deep_scan");
        var includes :- StringListField(Element(items, 3), "include");
        var excludes :- StringListField(Element(items, 4), "exclude");
        Ok(ScanParams(path, recursive, deepScan, includes, excludes))
    case _ => ParseFailure("invalid type, expected struct ScanParams")
  }

  /** The `execute` every detector implements: parse the parameters, reject a
      missing path, analyse, keep the findings whose confidence reaches the
      threshold and wrap them with `with_findings`. */
  function Execute(params: Json, pathExists: string -> bool, analyze: ScanParams -> seq<Finding>,
                   threshold: real): (r: SkillResult<SkillOutput>)
    ensures ScanParamsFromValue(params).Err? ==> r == Err(ScanParamsFromValue(params).error)
    ensures ScanParamsFromValue(params).Ok? ==>
      var sp := ScanParamsFromValue(params).value;
      if !pathExists(sp.path) then r == Err(InvalidParams("Path does not exist: " + sp.path))
      else r.Ok? && r.value.complete
           && r.value.findings == Confident(analyze(sp), threshold)
  {
    var sp :- ScanParamsFromValue(params);
    if !pathExists(sp.path) then Err(InvalidParams("Path does not exist: " + sp.path))
    else Ok(WithFindings(Confident(analyze(sp), threshold)))
  }

  // JSON-schema helpers (the `schema` module of the skill trait).

  function StringParam(description: string): Json {
    Obj(map["type" := Str("string"), "description" := Str(description)])
  }

  function BoolParam(description: string, default: bool): Json {
    Obj(map["type" := Str("boolean"), "description" := Str(description), "default" := Bool(default)])
  }

  function ArrayParam(description: string, itemType: string): Json {
    Obj(map["type" := Str("array"), "description" := Str(description),
            "items" := Obj(map["type" := Str(itemType)])])
  }

  function SkillSchema(name: string, description: string, properties: Json, required: seq<string>): (r: Json)
    ensures Get(r, "name") == Some(Str(name))
    ensures Get(r, "description") == Some(Str(description))
    ensures r.Obj? && r.fields.Keys == {"name", "description", "parameters"}
  {
    Obj(map[
      "name" := Str(name),
      "description" := Str(description),
      "parameters" := Obj(map[
        "type" := Str("object"),
        "properties" := properties,
        "required" := StrArr(required)])])
  }

  /** A skill as the registry sees it: its name, description, categories,
      parameter properties and confidence threshold. */
  datatype Skill = Skill(
    name: string,
    description: string,
    categories: seq<string>,
    properties: Json,
    confidenceThreshold: real)
  {
    /** Every built-in skill requires only "path". */
    function Schema(): Json {
      SkillSchema(name, description, properties, ["path"])
    }
  }

  /** A skill that keeps the trait's defaults: threshold 0.7 and no categories. */
  function DefaultSkill(name: string, description: string, properties: Json): (s: Skill)
    ensures s.confidenceThreshold == 0.7 && s.categories == []
    ensures s.name == name
  {
    Skill(name, description, [], properties, DefaultConfidenceThreshold)
  }
}
