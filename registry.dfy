/** The skill registry: a map from skill names to skills that is filled by
    registration and then queried, invoked and exported. */
module Registry {
  import opened Wrappers
  import opened Json
  import opened Skills
  import Sets
  import Cipher
  import Stego
  import Network
  import Audio
  import Filesystem
  import PatternDetectors

  /** The `execute` of a skill. Each detector module models its own on its own
      inputs; the registry only passes the call on. */
  type Executor = (Skill, Json) -> SkillResult<SkillOutput>

  /** The parameters `{"path": path}` that a scan hands to every skill. */
  function PathParams(path: string): (r: Json)
    ensures Get(r, "path") == Some(Str(path))
  {
    Obj(map["path" := Str(path)])
  }

  /** `invoke`: an unknown name is an error and runs nothing; a known name runs that
      skill's `execute` on the parameters. */
  function Dispatch(skills: map<string, Skill>, name: string, params: Json, execute: Executor)
    : (r: SkillResult<SkillOutput>)
    ensures name !in skills ==> r == Err(InvalidParams("Unknown skill: " + name))
    ensures name in skills ==> r == execute(skills[name], params)
  {
    if name in skills then execute(skills[name], params)
    else Err(InvalidParams("Unknown skill: " + name))
  }

  /** The skills of `order` whose categories contain `category`, in order. */
  function InCategory(order: seq<Skill>, category: string): (r: seq<Skill>)
    ensures |r| <= |order|
  {
    Sets.FilterMap(order, (s: Skill) => category in s.categories, (s: Skill) => s)
  }

  lemma InCategoryExact(order: seq<Skill>, category: string)
    ensures forall s :: s in InCategory(order, category) <==> s in order && category in s.categories
  {
    Sets.FilterMapMembers(order, (s: Skill) => category in s.categories, (s: Skill) => s);
  }

  /** The schemas of `order`, one per skill and in order. */
  function SchemasOf(order: seq<Skill>): (r: seq<Json>)
    ensures |r| == |order|
    ensures forall i :: 0 <= i < |r| ==> Get(r[i], "name") == Some(Str(order[i].name))
    ensures forall i :: 0 <= i < |r| ==> Get(r[i], "description") == Some(Str(order[i].description))
  {
    seq(|order|, i requires 0 <= i < |order| => order[i].Schema())
  }

  /** `export_schemas` over the skills taken in `order`. */
  function ExportOf(order: seq<Skill>): (r: Json)
    ensures r.Obj? && r.fields.Keys == {"skills", "version", "format"}
    ensures Get(r, "skills") == Some(Arr(SchemasOf(order)))
    ensures Get(r, "version") == Some(Str("1.0"))
    ensures Get(r, "format") == Some(Str("openai_function_calling"))
  {
    Obj(map[
      "skills" := Arr(SchemasOf(order)),
      "version" := Str("1.0"),
      "format" := Str("openai_function_calling")])
  }

  /** The map after registering `added` one after the other into `skills`:
      each skill is filed under its name, a later one replacing an earlier one. */
  function Registered(skills: map<string, Skill>, added: seq<Skill>): (r: map<string, Skill>)
    ensures skills.Keys <= r.Keys
    ensures forall i :: 0 <= i < |added| ==> added[i].name in r
    decreases |added|
  {
    if added == [] then skills
    else
      var last := added[|added| - 1];
      Registered(skills, added[..|added| - 1])[last.name := last]
  }

  /** Every name in `skills` files the skill of that name. */
  ghost predicate FiledByName(skills: map<string, Skill>) {
    forall n :: n in skills ==> skills[n].name == n
  }

  lemma {:induction false} RegisteredFiles(skills: map<string, Skill>, added: seq<Skill>)
    requires FiledByName(skills)
    ensures FiledByName(Registered(skills, added))
    ensures Registered(skills, added).Keys == skills.Keys + set s | s in added :: s.name
    ensures forall s :: s in added ==> s.name in Registered(skills, added)
    decreases |added|
  {
    if added != [] {
      var init, last := added[..|added| - 1], added[|added| - 1];
      RegisteredFiles(skills, init);
      assert added == init + [last];
      assert (set s | s in added :: s.name) == (set s | s in init :: s.name) + {last.name};
    }
  }

  /** With distinct names no registration replaces another: each added skill is
      found under its own name. */
  lemma {:induction false} RegisteredDistinct(skills: map<string, Skill>, added: seq<Skill>)
    requires forall i, j :: 0 <= i < j < |added| ==> added[i].name != added[j].name
    ensures forall i :: 0 <= i < |added| ==> Registered(skills, added)[added[i].name] == added[i]
    decreases |added|
  {
    if added != [] {
      var init, last := added[..|added| - 1], added[|added| - 1];
      RegisteredDistinct(skills, init);
      forall i | 0 <= i < |added|
        ensures Registered(skills, added)[added[i].name] == added[i]
      {
        if i < |init| {
          assert added[i] == init[i];
        }
      }
    }
  }

  /** The built-in skills in the order they are registered. */
  const DefaultSkills: seq<Skill> := [
    Cipher.Descriptor, Stego.Descriptor, PatternDetectors.Obfuscation,
    Network.Descriptor, PatternDetectors.Temporal, Audio.Descriptor,
    PatternDetectors.Injection, PatternDetectors.Svg, Filesystem.Descriptor]

  /** The names the registry test expects. */
  const DefaultNames: set<string> := {
    "detect_cipher_patterns", "detect_steganography", "detect_obfuscation",
    "detect_network_patterns", "detect_temporal_attacks", "detect_audio_channels",
    "detect_injection_attacks", "detect_svg_injection", "detect_filesystem_threats"}

  const DefaultNameList: seq<string> := [
    "detect_cipher_patterns", "detect_steganography", "detect_obfuscation",
    "detect_network_patterns", "detect_temporal_attacks", "detect_audio_channels",
    "detect_injection_attacks", "detect_svg_injection", "detect_filesystem_threats"]

  lemma DefaultSkillNames()
    ensures |DefaultSkills| == |DefaultNameList|
    ensures forall i :: 0 <= i < |DefaultSkills| ==> DefaultSkills[i].name == DefaultNameList[i]
  {
  }

  lemma DefaultNamesDistinct()
    ensures Sets.IsEnumeration(DefaultNameList, DefaultNames)
    ensures (set n | n in DefaultNameList) == DefaultNames
  {
  }

  /** The nine expected names are distinct. */
  lemma DefaultNameCount()
    ensures |DefaultNames| == 9
  {
    DefaultNamesDistinct();
    Sets.EnumerationSize(DefaultNameList, DefaultNames);
  }

  /** Registering skills with distinct names into an empty registry files each
      one under its name and nothing else. */
  lemma RegisteredFromEmpty(added: seq<Skill>, names: seq<string>)
    requires |added| == |names|
    requires forall i :: 0 <= i < |added| ==> added[i].name == names[i]
    requires Sets.Distinct(names)
    ensures Registered(map[], added).Keys == set n | n in names
    ensures FiledByName(Registered(map[], added))
    ensures forall i :: 0 <= i < |added| ==> Registered(map[], added)[added[i].name] == added[i]
  {
    RegisteredFiles(map[], added);
    assert (set s | s in added :: s.name) == set n | n in names by {
      forall n | n in names ensures n in (set s | s in added :: s.name) {
        var i :| 0 <= i < |names| && names[i] == n;
        assert added[i] in added;
      }
    }
    RegisteredDistinct(map[], added);
  }

  /** The default registry holds exactly the nine expected names. */
  lemma DefaultRegistryNames()
    ensures Registered(map[], DefaultSkills).Keys == DefaultNames
  {
    DefaultSkillNames();
    DefaultNamesDistinct();
    RegisteredFromEmpty(DefaultSkills, DefaultNameList);
  }

  /** No built-in skill replaces another: each is filed under its own name. */
  lemma DefaultRegistryEntries()
    ensures FiledByName(Registered(map[], DefaultSkills))
    ensures forall i :: 0 <= i < |DefaultSkills| ==>
      Registered(map[], DefaultSkills)[DefaultSkills[i].name] == DefaultSkills[i]
  {
    DefaultSkillNames();
    DefaultNamesDistinct();
    RegisteredFromEmpty(DefaultSkills, DefaultNameList);
  }

  /** The names among the `(name, result)` pairs of a scan. */
  function NamesOf(results: seq<(string, SkillResult<SkillOutput>)>): (r: seq<string>)
    ensures |r| == |results|
    ensures forall i :: 0 <= i < |r| ==> r[i] == results[i].0
  {
    seq(|results|, i requires 0 <= i < |results| => results[i].0)
  }

  class SkillRegistry {
    var skills: map<string, Skill>

    /** Registration files every skill under its own name. */
    ghost predicate Valid()
      reads this
    {
      FiledByName(skills)
    }

    constructor()
      ensures skills == map[]
      ensures Valid()
    {
      skills := map[];
    }

    /** `register`: the skill is stored under its name, replacing a skill of
        the same name; no other entry changes. */
    method Register(skill: Skill)
      modifies this
      requires Valid()
      ensures Valid()
      ensures skills == old(skills)[skill.name := skill]
    {
      skills := skills[skill.name := skill];
    }

    /** `get`: present exactly for the registered names. */
    function Get(name: string): (r: Option<Skill>)
      reads this
      ensures r.Some? <==> name in skills
      ensures r.Some? ==> r.value == skills[name]
      ensures Valid() && r.Some? ==> r.value.name == name
    {
      if name in skills then Some(skills[name]) else None
    }

    /** `list`: every registered name once, in the map's (unspecified) order. */
    method List() returns (names: seq<string>)
      ensures Sets.IsEnumeration(names, skills.Keys)
      ensures |names| == |skills|
    {
      names := Sets.Enumerate(skills.Keys);
    }

    /** `schemas`: one schema per registered skill, in the map's order. */
    method Schemas() returns (schemas: seq<Json>)
      ensures exists order :: Sets.IsEnumeration(order, skills.Values) && schemas == SchemasOf(order)
    {
      var order := Sets.Enumerate(skills.Values);
      schemas := SchemasOf(order);
    }

    function Invoke(name: string, params: Json, execute: Executor): (r: SkillResult<SkillOutput>)
      reads this
      ensures r == Dispatch(skills, name, params, execute)
    {
      Dispatch(skills, name, params, execute)
    }

    /** `scan_all`: every registered skill once, paired with the result of running
        it on `{"path": path}`. */
    method ScanAll(path: string, execute: Executor) returns (results: seq<(string, SkillResult<SkillOutput>)>)
      ensures Sets.IsEnumeration(NamesOf(results), skills.Keys)
      ensures forall i :: 0 <= i < |results| ==>
        results[i].0 in skills && results[i].1 == execute(skills[results[i].0], PathParams(path))
    {
      var names := Sets.Enumerate(skills.Keys);
      var params := PathParams(path);
      results := [];
      for k := 0 to |names|
        invariant NamesOf(results) == names[..k]
        invariant forall i :: 0 <= i < |results| ==>
          results[i].0 in skills && results[i].1 == execute(skills[results[i].0], params)
      {
        results := results + [(names[k], execute(skills[names[k]], params))];
        assert names[..k + 1] == names[..k] + [names[k]];
      }
      assert names[..|names|] == names;
    }

    /** `by_category`: the registered skills whose categories contain `category`. */
    method ByCategory(category: string) returns (r: seq<Skill>)
      ensures exists order :: Sets.IsEnumeration(order, skills.Values) && r == InCategory(order, category)
      ensures forall s :: s in r <==> s in skills.Values && category in s.categories
    {
      var order := Sets.Enumerate(skills.Values);
      r := InCategory(order, category);
      InCategoryExact(order, category);
    }

    /** `export_schemas`. */
    method ExportSchemas() returns (j: Json)
      ensures exists order :: Sets.IsEnumeration(order, skills.Values) && j == ExportOf(order)
      ensures j.Obj? && "version" in j.fields && j.fields["version"] == Str("1.0")
      ensures "format" in j.fields && j.fields["format"] == Str("openai_function_calling")
    {
      var order := Sets.Enumerate(skills.Values);
      j := ExportOf(order);
    }
  }

  /** Registers `added` into `r` one after the other. */
  method RegisterAll(r: SkillRegistry, added: seq<Skill>)
    requires r.Valid()
    modifies r
    ensures r.Valid()
    ensures r.skills == Registered(old(r.skills), added)
  {
    ghost var start := r.skills;
    for k := 0 to |added|
      invariant r.Valid()
      invariant r.skills == Registered(start, added[..k])
    {
      r.Register(added[k]);
      assert added[..k + 1][..k] == added[..k];
    }
    assert added[..|added|] == added;
  }

  /** `create_default_registry`: the nine built-in skills registered in order. */
  method CreateDefaultRegistry() returns (r: SkillRegistry)
    ensures fresh(r)
    ensures r.Valid()
    ensures r.skills == Registered(map[], DefaultSkills)
  {
    r := new SkillRegistry();
    RegisterAll(r, DefaultSkills);
  }
}
