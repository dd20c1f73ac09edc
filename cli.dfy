/** The command-line front end: the minimum-severity option and the filter it
    drives, the parameters of the `invoke` command and the summary of a report. */
module Cli {
  import opened Wrappers
  import opened Json
  import opened Skills
  import Text
  import Sets
  import opened Registry
  import opened Firewall

  /** The default of `--min-severity`. */
  const DefaultMinSeverity: string := "low"

  /** `parse_min_severity`: the four names above Info, in any letter case; every
      other string, "info" included, means Info. Letter case is folded for ASCII. */
  function ParseMinSeverity(s: string): (r: Severity)
    ensures r == Critical <==> Text.Lower(s) == "critical"
    ensures r == High <==> Text.Lower(s) == "high"
    ensures r == Medium <==> Text.Lower(s) == "medium"
    ensures r == Low <==> Text.Lower(s) == "low"
  {
    var l := Text.Lower(s);
    if l == "critical" then Critical
    else if l == "high" then High
    else if l == "medium" then Medium
    else if l == "low" then Low
    else Info
  }

  /** The label `severity_color` prints for a severity. */
  function SeverityLabel(s: Severity): (r: string)
    ensures r != []
  {
    match s
    case Critical => "CRITICAL"
    case High => "HIGH"
    case Medium => "MEDIUM"
    case Low => "LOW"
    case Info => "INFO"
  }

  /** The printed label of a severity parses back to that severity. */
  lemma ParseLabel(s: Severity)
    ensures ParseMinSeverity(SeverityLabel(s)) == s
  {
    match s
    case Critical => assert Text.Lower("CRITICAL") == "critical";
    case High => assert Text.Lower("HIGH") == "high";
    case Medium => assert Text.Lower("MEDIUM") == "medium";
    case Low => assert Text.Lower("LOW") == "low";
    case Info => assert Text.Lower("INFO") == "info";
  }

  /** Only case matters not: a string and its lower-case form mean the same. */
  lemma ParseIgnoresCase(s: string)
    ensures ParseMinSeverity(Text.Lower(s)) == ParseMinSeverity(s)
  {
    assert Text.Lower(Text.Lower(s)) == Text.Lower(s);
  }

  /** The report filter: the findings of severity at least `min`, in order. */
  function AtLeast(fs: seq<Finding>, min: Severity): (r: seq<Finding>)
    ensures forall f :: f in r <==> f in fs && SeverityLe(min, f.severity)
    ensures forall f :: multiset(r)[f] == if SeverityLe(min, f.severity) then multiset(fs)[f] else 0
  {
    Filter(fs, (f: Finding) => SeverityLe(min, f.severity))
  }

  /** By default Info findings are dropped and every other finding is kept. */
  lemma DefaultDropsInfo(fs: seq<Finding>)
    ensures forall f :: f in AtLeast(fs, ParseMinSeverity(DefaultMinSeverity)) <==> f in fs && f.severity != Info
  {
    assert Text.Lower(DefaultMinSeverity) == "low";
  }

  /** The head of a sorted report is in order with everything after it. */
  lemma RankedTail(fs: seq<Finding>)
    requires Ranked(fs) && fs != []
    ensures Ranked(fs[1..])
    ensures forall x :: x in fs[1..] ==> InOrder(fs[0], x)
  {
    var tail := fs[1..];
    forall i, j | 0 <= i < j < |tail| ensures InOrder(tail[i], tail[j]) {
      assert tail[i] == fs[i + 1] && tail[j] == fs[j + 1];
    }
    forall x | x in tail ensures InOrder(fs[0], x) {
      var k :| 0 <= k < |tail| && tail[k] == x;
      assert fs[k + 1] == x;
    }
  }

  lemma RankedCons(h: Finding, t: seq<Finding>)
    requires Ranked(t)
    requires forall x :: x in t ==> InOrder(h, x)
    ensures Ranked([h] + t)
  {
    var r := [h] + t;
    forall i, j | 0 <= i < j < |r| ensures InOrder(r[i], r[j]) {
      if i == 0 {
        assert r[j] == t[j - 1];
      } else {
        assert r[i] == t[i - 1];
      }
    }
  }

  /** Filtering keeps a sorted report sorted. */
  lemma {:induction false} FilterKeepsRanked(fs: seq<Finding>, keep: Finding -> bool)
    requires Ranked(fs)
    ensures Ranked(Filter(fs, keep))
    decreases |fs|
  {
    if fs != [] {
      RankedTail(fs);
      FilterKeepsRanked(fs[1..], keep);
      var rest := Filter(fs[1..], keep);
      if keep(fs[0]) {
        RankedCons(fs[0], rest);
      }
    }
  }

  lemma AtLeastKeepsRanked(fs: seq<Finding>, min: Severity)
    requires Ranked(fs)
    ensures Ranked(AtLeast(fs, min))
  {
    FilterKeepsRanked(fs, (f: Finding) => SeverityLe(min, f.severity));
  }

  /** Reordering the findings reorders the report the same way. */
  lemma AtLeastRespectsMultiset(a: seq<Finding>, b: seq<Finding>, min: Severity)
    requires multiset(a) == multiset(b)
    ensures multiset(AtLeast(a, min)) == multiset(AtLeast(b, min))
  {
    var ra, rb := AtLeast(a, min), AtLeast(b, min);
    assert forall f :: multiset(ra)[f] == multiset(rb)[f];
  }

  /** `scan` without `--skill`: every skill's merged findings, sorted, then those of
      severity at least the parsed minimum. */
  method ScanAllSkills(path: string, minSeverity: string, execute: Executor) returns (report: seq<Finding>)
    ensures Ranked(report)
    ensures exists all :: MergedFindings(all, path, execute) && multiset(report) == multiset(AtLeast(all, ParseMinSeverity(minSeverity)))
  {
    var min := ParseMinSeverity(minSeverity);
    var scanned := ScanPath(path, execute);
    ghost var all :| MergedFindings(all, path, execute) && multiset(scanned.value) == multiset(all);
    report := AtLeast(scanned.value, min);
    AtLeastKeepsRanked(scanned.value, min);
    AtLeastRespectsMultiset(scanned.value, all, min);
  }

  /** `scan --skill name`: that skill's findings of severity at least the parsed
      minimum, or the skill's error. */
  function ScanOneSkill(skills: map<string, Skill>, name: string, path: string, minSeverity: string,
                        execute: Executor): (r: SkillResult<seq<Finding>>)
    ensures Dispatch(skills, name, PathParams(path), execute).Err? ==>
      r == Err(Dispatch(skills, name, PathParams(path), execute).error)
    ensures name !in skills ==> r == Err(InvalidParams("Unknown skill: " + name))
    ensures Dispatch(skills, name, PathParams(path), execute).Ok? ==>
      r == Ok(AtLeast(Dispatch(skills, name, PathParams(path), execute).value.findings, ParseMinSeverity(minSeverity)))
  {
    match Dispatch(skills, name, PathParams(path), execute)
    case Ok(output) => Ok(AtLeast(output.findings, ParseMinSeverity(minSeverity)))
    case Err(e) => Err(e)
  }

  /** Writes every entry of `obj` into `fields`, one key at a time, in the map's
      order: the entries of `obj` win over those of `fields`. */
  method Overlay<V>(fields: map<string, V>, obj: map<string, V>) returns (merged: map<string, V>)
    ensures merged == fields + obj
  {
    merged := fields;
    var keys := Sets.Enumerate(obj.Keys);
    ghost var done: set<string> := {};
    for i := 0 to |keys|
      invariant forall t :: 0 <= t < i ==> keys[t] in done
      invariant done <= obj.Keys
      invariant merged.Keys == fields.Keys + done
      invariant forall n :: n in done ==> merged[n] == obj[n]
      invariant forall n :: n in fields && n !in done ==> merged[n] == fields[n]
    {
      merged := merged[keys[i] := obj[keys[i]]];
      done := done + {keys[i]};
    }
    CoveredAll(keys, obj.Keys, done);
    OverlayOf(fields, obj, merged);
  }

  lemma CoveredAll(keys: seq<string>, s: set<string>, done: set<string>)
    requires Sets.IsEnumeration(keys, s)
    requires forall t :: 0 <= t < |keys| ==> keys[t] in done
    requires done <= s
    ensures done == s
  {
    forall n | n in s ensures n in done {
      var t :| 0 <= t < |keys| && keys[t] == n;
    }
  }

  lemma OverlayOf<V>(fields: map<string, V>, obj: map<string, V>, merged: map<string, V>)
    requires merged.Keys == fields.Keys + obj.Keys
    requires forall n :: n in obj ==> merged[n] == obj[n]
    requires forall n :: n in fields && n !in obj ==> merged[n] == fields[n]
    ensures merged == fields + obj
  {
  }

  /** The parameters of `invoke`: `{"path": path}` with every key of the extra
      JSON object written over it, "path" included. `parse` is the JSON parser; an
      absent argument, text that does not parse and a value that is not an object
      leave the parameters as they are. */
  method InvokeParams(path: string, extra: Option<string>, parse: string -> Option<Json>) returns (params: Json)
    ensures params.Obj?
    ensures extra.Some? && parse(extra.value).Some? && parse(extra.value).value.Obj? ==>
      params.fields == map["path" := Str(path)] + parse(extra.value).value.fields
    ensures !(extra.Some? && parse(extra.value).Some? && parse(extra.value).value.Obj?) ==>
      params == PathParams(path)
  {
    var fields := map["path" := Str(path)];
    if extra.Some? {
      var parsed := parse(extra.value);
      if parsed.Some? && parsed.value.Obj? {
        fields := Overlay(fields, parsed.value.fields);
      }
    }
    params := Obj(fields);
  }

  /** The extra object decides every key it has; "path" keeps the command-line path
      unless the object overrides it. */
  lemma MergedParams(path: string, obj: map<string, Json>)
    ensures forall k :: k in obj ==> (map["path" := Str(path)] + obj)[k] == obj[k]
    ensures "path" !in obj ==> (map["path" := Str(path)] + obj)["path"] == Str(path)
    ensures (map["path" := Str(path)] + obj).Keys == obj.Keys + {"path"}
  {
  }

  /** The number of findings of severity `s`. */
  function CountOf(fs: seq<Finding>, s: Severity): (n: nat)
    ensures n <= |fs|
    ensures n == |set i: nat | i < |fs| && fs[i].severity == s|
    ensures n > 0 <==> exists f :: f in fs && f.severity == s
  {
    var ofSeverity := (f: Finding) => f.severity == s;
    var matching := Filter(fs, ofSeverity);
    assert matching != [] ==> matching[0] in matching;
    FilterCountsPositions(fs, ofSeverity);
    assert KeptPositions(fs, ofSeverity) == set i: nat | i < |fs| && fs[i].severity == s;
    |matching|
  }

  /** What `print_findings` reports around the findings themselves. */
  datatype Summary =
    | NoThreats
    | Found(count: nat, noun: string, critical: nat, high: nat, warn: bool)

  /** `print_findings`' heading and closing summary: nothing found is its own line;
      otherwise the count, and a warning exactly when a finding is Critical or High. */
  function Summarize(fs: seq<Finding>): (r: Summary)
    ensures r == NoThreats <==> fs == []
    ensures r.Found? ==> r.count == |fs| && r.critical == CountOf(fs, Critical) && r.high == CountOf(fs, High)
    ensures r.Found? ==> (r.noun == "finding" <==> |fs| == 1)
    ensures r.Found? ==> (r.warn <==> exists f :: f in fs && (f.severity == Critical || f.severity == High))
  {
    if fs == [] then NoThreats
    else
      var critical, high := CountOf(fs, Critical), CountOf(fs, High);
      Found(|fs|, if |fs| == 1 then "finding" else "findings", critical, high, critical > 0 || high > 0)
  }

  /** The summary never warns when no finding is above Medium. */
  lemma QuietScanDoesNotWarn(fs: seq<Finding>)
    requires forall f :: f in fs ==> SeverityLe(f.severity, Medium)
    ensures Summarize(fs).Found? ==> !Summarize(fs).warn
  {
  }
}
