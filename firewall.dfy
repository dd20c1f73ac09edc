/** The library entry points: scanning a path with every registered skill and
    sorting the merged findings, and exporting the tool schemas. */
module Firewall {
  import opened Wrappers
  import opened Json
  import opened Skills
  import Sets
  import opened Registry

  /** `a` sorts strictly before `b`: higher severity first, and for equal severity
      higher confidence first (the comparator of the final sort). */
  predicate Precedes(a: Finding, b: Finding) {
    a.severity.Rank() > b.severity.Rank()
    || (a.severity.Rank() == b.severity.Rank() && a.confidence > b.confidence)
  }

  /** `a` may stand before `b` in the sorted output. */
  predicate InOrder(a: Finding, b: Finding) {
    !Precedes(b, a)
  }

  /** Every pair of findings is in order. */
  predicate Ranked(s: seq<Finding>) {
    forall i, j :: 0 <= i < j < |s| ==> InOrder(s[i], s[j])
  }

  /** What `Ranked` says in the source's terms: severities never increase, and
      between two findings of the same severity confidence never increases. */
  lemma RankedMeaning(s: seq<Finding>)
    requires Ranked(s)
    ensures forall i, j :: 0 <= i < j < |s| ==> SeverityLe(s[j].severity, s[i].severity)
    ensures forall i, j :: 0 <= i < j < |s| && s[i].severity == s[j].severity ==>
      s[j].confidence <= s[i].confidence
  {
    forall i, j | 0 <= i < j < |s|
      ensures SeverityLe(s[j].severity, s[i].severity)
    {
      assert InOrder(s[i], s[j]);
    }
  }

  /** The findings of the skills among `names` whose invocation succeeds, in order. */
  function Collected(skills: map<string, Skill>, names: seq<string>, params: Json, execute: Executor)
    : (r: seq<Finding>)
    decreases |names|
  {
    if names == [] then []
    else
      var last := names[|names| - 1];
      var outcome := Dispatch(skills, last, params, execute);
      Collected(skills, names[..|names| - 1], params, execute)
        + (if outcome.Ok? then outcome.value.findings else [])
  }

  /** A finding is collected exactly when some named skill succeeds and reports it;
      a failing skill contributes nothing. */
  lemma {:induction false} CollectedMembers(skills: map<string, Skill>, names: seq<string>, params: Json,
                                            execute: Executor)
    ensures forall f :: f in Collected(skills, names, params, execute) <==>
      exists n :: n in names && Dispatch(skills, n, params, execute).Ok?
                  && f in Dispatch(skills, n, params, execute).value.findings
    decreases |names|
  {
    if names != [] {
      var init, last := names[..|names| - 1], names[|names| - 1];
      CollectedMembers(skills, init, params, execute);
      assert names == init + [last];
      forall f ensures f in Collected(skills, names, params, execute) <==>
        exists n :: n in names && Dispatch(skills, n, params, execute).Ok?
                    && f in Dispatch(skills, n, params, execute).value.findings
      {
        if f in Collected(skills, init, params, execute) {
          var n :| n in init && Dispatch(skills, n, params, execute).Ok?
                   && f in Dispatch(skills, n, params, execute).value.findings;
          assert n in names;
        }
        if exists n :: n in names && Dispatch(skills, n, params, execute).Ok?
                       && f in Dispatch(skills, n, params, execute).value.findings {
          var n :| n in names && Dispatch(skills, n, params, execute).Ok?
                   && f in Dispatch(skills, n, params, execute).value.findings;
          if n != last {
            assert n in init;
          }
        }
      }
    }
  }

  /** Sorts `a` in place by `Precedes`: an insertion sort that moves each
      finding left past the findings it strictly precedes. */
  method SortFindings(a: array<Finding>)
    modifies a
    ensures Ranked(a[..])
    ensures multiset(a[..]) == multiset(old(a[..]))
  {
    var i := 0;
    while i < a.Length
      invariant 0 <= i <= a.Length
      invariant forall p, q :: 0 <= p < q < i ==> InOrder(a[p], a[q])
      invariant multiset(a[..]) == multiset(old(a[..]))
    {
      var j := i;
      while 0 < j && Precedes(a[j], a[j - 1])
        invariant 0 <= j <= i
        invariant forall p, q :: 0 <= p < q <= i && p != j && q != j ==> InOrder(a[p], a[q])
        invariant forall q :: j < q <= i ==> InOrder(a[j], a[q])
        invariant multiset(a[..]) == multiset(old(a[..]))
      {
        a[j - 1], a[j] := a[j], a[j - 1];
        j := j - 1;
      }
      i := i + 1;
    }
  }

  /** The merged findings of one scan: the findings of the skills that succeed,
      taken in some order of the default registry's names. */
  ghost predicate MergedFindings(all: seq<Finding>, path: string, execute: Executor) {
    exists order :: Sets.IsEnumeration(order, DefaultNames) && all == Collected(DefaultRegistry, order, PathParams(path), execute)
  }

  /** The skills of the default registry, by name. */
  const DefaultRegistry: map<string, Skill> := Registered(map[], DefaultSkills)

  /** The loop of `scan_path`: invoke each named skill and extend the merged list
      with the findings of those that succeed. */
  method CollectFindings(registry: SkillRegistry, names: seq<string>, params: Json, execute: Executor)
    returns (all: seq<Finding>)
    ensures all == Collected(registry.skills, names, params, execute)
  {
    all := [];
    for k := 0 to |names|
      invariant all == Collected(registry.skills, names[..k], params, execute)
    {
      var outcome := registry.Invoke(names[k], params, execute);
      if outcome.Ok? {
        all := all + outcome.value.findings;
      }
      assert names[..k + 1][..k] == names[..k];
    }
    assert names[..|names|] == names;
  }

  /** The first half of `scan_path`: build the default registry, invoke every
      skill it lists and merge the findings of those that succeed. */
  method MergeDefaultScan(path: string, execute: Executor) returns (all: seq<Finding>)
    ensures MergedFindings(all, path, execute)
  {
    var registry := CreateDefaultRegistry();
    var names := registry.List();
    DefaultRegistryNames();
    all := CollectFindings(registry, names, PathParams(path), execute);
  }

  /** `scan_path`: the merged findings of every built-in skill, sorted in place.
      It never fails. */
  method ScanPath(path: string, execute: Executor) returns (r: SkillResult<seq<Finding>>)
    ensures r.Ok?
    ensures Ranked(r.value)
    ensures exists all :: MergedFindings(all, path, execute) && multiset(r.value) == multiset(all)
  {
    var all := MergeDefaultScan(path, execute);
    var sorted := new Finding[|all|](i requires 0 <= i < |all| => all[i]);
    assert sorted[..] == all;
    SortFindings(sorted);
    r := Ok(sorted[..]);
  }

  /** `export_tool_schemas`: the default registry's export, which carries the
      skill schemas and the version. */
  method ExportToolSchemas() returns (j: Json)
    ensures exists order :: Sets.IsEnumeration(order, DefaultRegistry.Values) && j == ExportOf(order)
    ensures j.Obj? && "skills" in j.fields && "version" in j.fields
  {
    var registry := CreateDefaultRegistry();
    j := registry.ExportSchemas();
  }
}
