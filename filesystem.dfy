/** The filesystem threat detector: hidden sensitive dotfiles, exposed `.git`
    directories, screenshot collections, sensitive files and path traversal in
    file names. The directory walks are inputs: lists of the entries they yield. */
module Filesystem {
  import opened Wrappers
  import opened Json
  import opened Skills
  import Text
  import Sets

  /** A walked directory entry: its file name, its full path as displayed and,
      when its metadata could be read, its size in bytes. */
  datatype Entry = Entry(name: string, path: string, size: Option<nat>)

  // ---------------------------------------------------------------- hidden files

  /** Only names starting with '.' other than "." and ".." are examined. */
  predicate HiddenName(name: string) {
    Text.StartsWith(name, ".") && name != "." && name != ".."
  }

  predicate SuspiciousHiddenName(name: string) {
    name == ".bashrc" || name == ".profile" || name == ".bash_profile" || name == ".zshrc" || name == ".vimrc"
    || Text.Contains(name, "rc") || Text.Contains(name, "history") || Text.Contains(name, "secret")
    || Text.Contains(name, "credential") || Text.Contains(name, "token") || Text.Contains(name, "key")
  }

  predicate FlaggedHidden(e: Entry) {
    HiddenName(e.name) && SuspiciousHiddenName(e.name)
  }

  function HiddenFinding(e: Entry): Finding {
    Finding("hidden_sensitive_file",
      Obj(map["name" := Str(e.name), "path" := Str(e.path)]),
      0.8, e.path, Medium,
      Obj(map["pattern" := Str("Hidden sensitive file"),
              "description" := Str("Hidden file '" + e.name + "' may contain sensitive data")]))
  }

  function HiddenFindings(entries: seq<Entry>): seq<Finding> {
    Sets.FilterMap(entries, FlaggedHidden, HiddenFinding)
  }

  /** A root entry is reported exactly when it is a dotfile (not "." or "..") in the
      named list or mentioning rc, history, secret, credential, token or key. */
  lemma HiddenFindingsCharacterized(entries: seq<Entry>)
    ensures forall f :: f in HiddenFindings(entries) <==>
      exists e :: e in entries && FlaggedHidden(e) && f == HiddenFinding(e)
    ensures forall e :: e in entries && HiddenFinding(e) in HiddenFindings(entries) ==> HiddenName(e.name)
  {
    Sets.FilterMapMembers(entries, FlaggedHidden, HiddenFinding);
    forall e | e in entries && HiddenFinding(e) in HiddenFindings(entries) ensures HiddenName(e.name) {
      var x :| x in entries && FlaggedHidden(x) && HiddenFinding(e) == HiddenFinding(x);
      assert HiddenFinding(x).value.fields["name"] == Str(x.name);
    }
  }

  /** `detect_hidden_root` over the entries of the scanned directory itself. */
  method DetectHiddenRoot(rootEntries: seq<Entry>) returns (findings: seq<Finding>)
    ensures findings == HiddenFindings(rootEntries)
  {
    findings := [];
    for i := 0 to |rootEntries|
      invariant findings == HiddenFindings(rootEntries[..i])
    {
      assert rootEntries[..i + 1][..i] == rootEntries[..i];
      var e := rootEntries[i];
      if HiddenName(e.name) {
        var suspicious := SuspiciousHiddenName(e.name);
        if suspicious {
          findings := findings + [HiddenFinding(e)];
        }
      }
    }
    assert rootEntries[..|rootEntries|] == rootEntries;
  }

  // ---------------------------------------------------------------- .git directories

  const GitSensitive: seq<string> := ["config", "COMMIT_EDITMSG", "HEAD", "index", "objects", "refs"]

  /** A walked directory whose last component is `.git`, with the names of the
      children that exist and the text of its `config` when readable. */
  datatype GitDir = GitDir(path: string, present: set<string>, config: Option<string>)

  predicate HasCredentials(config: Option<string>) {
    config.Some? && (Text.Contains(config.value, "password") || Text.Contains(config.value, "token")
                     || Text.Contains(config.value, "credential"))
  }

  function ExposedFiles(g: GitDir): seq<string> {
    Sets.FilterMap(GitSensitive, (s: string) => s in g.present, (s: string) => s)
  }

  function GitFinding(g: GitDir): Finding {
    GitFindingFrom(g.path, ExposedFiles(g), HasCredentials(g.config))
  }

  function GitFindingFrom(path: string, exposed: seq<string>, creds: bool): Finding {
    Finding("git_directory_exposed",
      Obj(map["path" := Str(path), "exposed_files" := StrArr(exposed), "has_credentials" := Bool(creds)]),
      0.95, path, if creds then Critical else High,
      Obj(map["pattern" := Str("Exposed .git directory"),
              "description" := Str(if creds then "Git directory with credentials exposed - source code and secrets at risk"
                                   else "Git directory exposed - source code disclosure risk")]))
  }

  /** The exposed files are the present entries of the sensitive list, in list order
      and without repeats; the finding is Critical exactly when the config mentions
      a password, token or credential. */
  lemma GitFindingProperties(g: GitDir)
    ensures forall s :: s in ExposedFiles(g) <==> s in GitSensitive && s in g.present
    ensures |ExposedFiles(g)| <= |GitSensitive|
    ensures GitFinding(g).severity == Critical <==> HasCredentials(g.config)
    ensures GitFinding(g).severity != Critical ==> GitFinding(g).severity == High
  {
    Sets.FilterMapMembers(GitSensitive, (s: string) => s in g.present, (s: string) => s);
  }

  method ExposedFilesOf(g: GitDir) returns (exposed: seq<string>)
    ensures exposed == ExposedFiles(g)
  {
    exposed := [];
    for i := 0 to |GitSensitive|
      invariant exposed == Sets.FilterMap(GitSensitive[..i], (s: string) => s in g.present, (s: string) => s)
    {
      assert GitSensitive[..i + 1][..i] == GitSensitive[..i];
      if GitSensitive[i] in g.present {
        exposed := exposed + [GitSensitive[i]];
      }
    }
    assert GitSensitive[..|GitSensitive|] == GitSensitive;
  }

  /** `detect_git_exposure`: one finding per `.git` directory met (depth at most 5). */
  method DetectGitExposure(gitDirs: seq<GitDir>) returns (findings: seq<Finding>)
    ensures |findings| == |gitDirs|
    ensures forall i :: 0 <= i < |gitDirs| ==> findings[i] == GitFinding(gitDirs[i])
  {
    findings := [];
    for i := 0 to |gitDirs|
      invariant |findings| == i
      invariant forall j :: 0 <= j < i ==> findings[j] == GitFinding(gitDirs[j])
    {
      var exposed := ExposedFilesOf(gitDirs[i]);
      var creds := HasCredentials(gitDirs[i].config);
      findings := findings + [GitFindingFrom(gitDirs[i].path, exposed, creds)];
    }
  }

  // ---------------------------------------------------------------- screenshots

  const SuspiciousDirs: seq<string> := ["temp", "tmp", ".cache", "hidden", "data", "uploads"]

  predicate InSuspiciousDir(path: string) {
    exists d :: d in SuspiciousDirs && Text.Contains(Text.Lower(path), d)
  }

  predicate AnyInSuspiciousDir(paths: seq<string>) {
    exists i :: 0 <= i < |paths| && InSuspiciousDir(paths[i])
  }

  function Min(a: nat, b: nat): nat { if a < b then a else b }

  /** Sum of the sizes that could be read. */
  function TotalSize(shots: seq<Entry>): nat
    decreases |shots|
  {
    if shots == [] then 0
    else TotalSize(shots[..|shots| - 1]) + shots[|shots| - 1].size.GetOr(0)
  }

  function Paths(shots: seq<Entry>): (r: seq<string>)
    ensures |r| == |shots|
    ensures forall i :: 0 <= i < |shots| ==> r[i] == shots[i].path
  {
    seq(|shots|, i requires 0 <= i < |shots| => shots[i].path)
  }

  /** The whole number of tenths of a megabyte nearest to `bytes / 1000000`; an exact
      half goes to the even neighbour, as `{:.1}` breaks ties. */
  function TenthsOfMegabyte(bytes: nat): (t: nat)
    ensures bytes <= 100000 * t + 50000 && 100000 * t <= bytes + 50000
    ensures bytes % 100000 == 50000 ==> t % 2 == 0
  {
    var q, r := bytes / 100000, bytes % 100000;
    if r < 50000 || (r == 50000 && q % 2 == 0) then q else q + 1
  }

  /** The nearest tenth with ties to even is the only one: any tenth count within half a
      tenth of the exact value, and even on a tie, is the one `TenthsOfMegabyte` gives. */
  lemma TenthsUnique(bytes: nat, t: nat)
    requires bytes <= 100000 * t + 50000 && 100000 * t <= bytes + 50000
    requires bytes % 100000 == 50000 ==> t % 2 == 0
    ensures t == TenthsOfMegabyte(bytes)
  {
    var u := TenthsOfMegabyte(bytes);
    var q, r := bytes / 100000, bytes % 100000;
    assert bytes == 100000 * q + r;
  }

  /** `{:.1}` of the megabyte count: the whole megabytes, a point, and the tenths digit. */
  function OneDecimalMegabytes(bytes: nat): string {
    var tenths := TenthsOfMegabyte(bytes);
    Text.NatToString(tenths / 10) + "." + [Text.DigitChar(tenths % 10)]
  }

  /** An exact tie goes to the even tenth; other values to the nearer one. */
  lemma OneDecimalExamples()
    ensures OneDecimalMegabytes(250000) == "0.2" && OneDecimalMegabytes(350000) == "0.4"
    ensures OneDecimalMegabytes(0) == "0.0" && OneDecimalMegabytes(12349999) == "12.3"
  {
    assert Text.NatToString(12) == "12" by { assert Text.NatToString(1) == "1"; }
  }

  function ScreenshotFinding(root: string, paths: seq<string>, totalSize: nat): Finding
    requires |paths| >= 5
  {
    var suspicious := AnyInSuspiciousDir(paths);
    Finding("screenshot_collection",
      Obj(map["count" := NatNum(|paths|), "total_size_mb" := Num(totalSize as real / 1000000.0),
              "samples" := StrArr(paths[..Min(|paths|, 5)])]),
      if suspicious then 0.9 else 0.75, root,
      if |paths| > 20 || suspicious then Critical else High,
      Obj(map["pattern" := Str("Screenshot collection"),
              "description" := Str("Found " + Text.NatToString(|paths|) + " screenshot files ("
                                   + OneDecimalMegabytes(totalSize) + " MB) - potential spyware/surveillance")]))
  }

  /** The screenshot part of the analysis: nothing below five matching names. */
  function ScreenshotFindings(root: string, shots: seq<Entry>): (r: seq<Finding>)
    ensures |r| <= 1
    ensures r != [] <==> |shots| >= 5
  {
    if |shots| >= 5 then [ScreenshotFinding(root, Paths(shots), TotalSize(shots))] else []
  }

  /** At most five samples; Critical exactly for more than twenty screenshots or one in
      a suspicious directory, High otherwise; 0.9 confidence exactly in the latter case. */
  lemma ScreenshotFindingProperties(root: string, shots: seq<Entry>)
    requires |shots| >= 5
    ensures var f := ScreenshotFinding(root, Paths(shots), TotalSize(shots));
      |Get(f.value, "samples").value.items| == 5
      && (f.severity == Critical <==> |shots| > 20 || AnyInSuspiciousDir(Paths(shots)))
      && (f.severity != Critical ==> f.severity == High)
      && (f.confidence == 0.9 <==> AnyInSuspiciousDir(Paths(shots)))
      && (f.confidence != 0.9 ==> f.confidence == 0.75)
  {
  }

  /** `detect_screenshot_collection`: collect the entries (depth at most 10) whose
      name matches the screenshot pattern, summing their sizes, then report. */
  method DetectScreenshotCollection(root: string, walk: seq<Entry>, isScreenshotName: string -> bool)
    returns (findings: seq<Finding>)
    ensures findings == ScreenshotFindings(root, Sets.FilterMap(walk, (e: Entry) => isScreenshotName(e.name), (e: Entry) => e))
  {
    var shots: seq<Entry> := [];
    var paths: seq<string> := [];
    var totalSize: nat := 0;
    for i := 0 to |walk|
      invariant shots == Sets.FilterMap(walk[..i], (e: Entry) => isScreenshotName(e.name), (e: Entry) => e)
      invariant paths == Paths(shots)
      invariant totalSize == TotalSize(shots)
    {
      assert walk[..i + 1][..i] == walk[..i];
      var e := walk[i];
      if isScreenshotName(e.name) {
        assert (shots + [e])[..|shots|] == shots;
        shots := shots + [e];
        paths := paths + [e.path];
        if e.size.Some? {
          totalSize := totalSize + e.size.value;
        }
      }
    }
    assert walk[..|walk|] == walk;
    if |paths| >= 5 {
      findings := [ScreenshotFinding(root, paths, totalSize)];
    } else {
      findings := [];
    }
  }

  // ---------------------------------------------------------------- sensitive files

  const SensitiveFiles: seq<string> := [
    ".env", ".env.local", ".env.production", "credentials.json", "secrets.yaml", "secrets.yml",
    ".aws/credentials", ".ssh/id_rsa", ".ssh/id_ed25519", ".npmrc", ".pypirc", "wp-config.php",
    "config.php", ".htpasswd", "shadow", "passwd"]

  predicate MatchesSensitive(e: Entry, s: string) {
    e.name == s || Text.EndsWith(e.path, s)
  }

  /** The first list item, in list order, that the entry matches. */
  function FirstSensitive(e: Entry, list: seq<string>): (r: Option<nat>)
    ensures r.Some? ==> r.value < |list| && MatchesSensitive(e, list[r.value])
                        && forall j :: 0 <= j < r.value ==> !MatchesSensitive(e, list[j])
    ensures r.None? ==> forall j :: 0 <= j < |list| ==> !MatchesSensitive(e, list[j])
    decreases |list|
  {
    if list == [] then None
    else if MatchesSensitive(e, list[0]) then Some(0)
    else
      match FirstSensitive(e, list[1..])
      case Some(k) => Some(k + 1)
      case None => None
  }

  function SensitiveFinding(e: Entry, s: string): Finding {
    Finding("sensitive_file_exposed",
      Obj(map["file" := Str(s), "path" := Str(e.path)]),
      0.95, e.path, Critical,
      Obj(map["pattern" := Str("Sensitive file exposure"),
              "description" := Str("'" + s + "' contains credentials or secrets")]))
  }

  function EntrySensitiveFindings(e: Entry): (r: seq<Finding>)
    ensures |r| <= 1
  {
    match FirstSensitive(e, SensitiveFiles)
    case Some(k) => [SensitiveFinding(e, SensitiveFiles[k])]
    case None => []
  }

  function SensitiveFindings(walk: seq<Entry>): seq<Finding>
    decreases |walk|
  {
    if walk == [] then []
    else SensitiveFindings(walk[..|walk| - 1]) + EntrySensitiveFindings(walk[|walk| - 1])
  }

  /** The inner search with its `break`: the index of the first matching item. */
  method FindSensitive(e: Entry) returns (found: Option<nat>)
    ensures found == FirstSensitive(e, SensitiveFiles)
  {
    found := None;
    var k := 0;
    while k < |SensitiveFiles|
      invariant 0 <= k <= |SensitiveFiles|
      invariant forall j :: 0 <= j < k ==> !MatchesSensitive(e, SensitiveFiles[j])
    {
      if MatchesSensitive(e, SensitiveFiles[k]) {
        found := Some(k);
        break;
      }
      k := k + 1;
    }
    FirstSensitiveUnique(e, SensitiveFiles, found);
  }

  /** The first match is the only index with the two properties `FirstSensitive` states. */
  lemma FirstSensitiveUnique(e: Entry, list: seq<string>, found: Option<nat>)
    requires found.Some? ==> found.value < |list| && MatchesSensitive(e, list[found.value])
                             && forall j :: 0 <= j < found.value ==> !MatchesSensitive(e, list[j])
    requires found.None? ==> forall j :: 0 <= j < |list| ==> !MatchesSensitive(e, list[j])
    ensures found == FirstSensitive(e, list)
  {
  }

  /** `detect_sensitive_files` over the walked entries (depth at most 10). */
  method DetectSensitiveFiles(walk: seq<Entry>) returns (findings: seq<Finding>)
    ensures findings == SensitiveFindings(walk)
  {
    findings := [];
    for i := 0 to |walk|
      invariant findings == SensitiveFindings(walk[..i])
    {
      assert walk[..i + 1][..i] == walk[..i];
      var found := FindSensitive(walk[i]);
      if found.Some? {
        findings := findings + [SensitiveFinding(walk[i], SensitiveFiles[found.value])];
      }
    }
    assert walk[..|walk|] == walk;
  }

  /** At most one finding per entry; every one is Critical at 0.95. */
  lemma {:induction false} SensitiveFindingsBound(walk: seq<Entry>)
    ensures |SensitiveFindings(walk)| <= |walk|
    ensures forall f :: f in SensitiveFindings(walk) ==> f.confidence == 0.95 && f.severity == Critical
    decreases |walk|
  {
    if walk != [] {
      SensitiveFindingsBound(walk[..|walk| - 1]);
    }
  }

  // ---------------------------------------------------------------- path traversal

  predicate TraversalName(name: string) {
    Text.Contains(name, "..") || Text.Contains(name, "./") || Text.Contains(name, "/.")
  }

  function TraversalFinding(e: Entry): Finding {
    Finding("path_traversal_filename",
      Obj(map["name" := Str(e.name), "path" := Str(e.path)]),
      0.9, e.path, High,
      Obj(map["pattern" := Str("Path traversal in filename"),
              "description" := Str("Filename contains directory traversal characters")]))
  }

  function TraversalFindings(walk: seq<Entry>): seq<Finding> {
    Sets.FilterMap(walk, (e: Entry) => TraversalName(e.name), TraversalFinding)
  }

  /** An entry is reported exactly when its file name contains "..", "./" or "/.". */
  lemma TraversalFindingsCharacterized(walk: seq<Entry>)
    ensures forall f :: f in TraversalFindings(walk) <==>
      exists e :: e in walk && TraversalName(e.name) && f == TraversalFinding(e)
  {
    Sets.FilterMapMembers(walk, (e: Entry) => TraversalName(e.name), TraversalFinding);
  }

  method DetectPathTraversal(walk: seq<Entry>) returns (findings: seq<Finding>)
    ensures findings == TraversalFindings(walk)
  {
    findings := [];
    for i := 0 to |walk|
      invariant findings == TraversalFindings(walk[..i])
    {
      assert walk[..i + 1][..i] == walk[..i];
      if TraversalName(walk[i].name) {
        findings := findings + [TraversalFinding(walk[i])];
      }
    }
    assert walk[..|walk|] == walk;
  }

  // ---------------------------------------------------------------- the analysis

  /** What the walks of one scanned path yield. */
  datatype Tree = Tree(
    root: string,
    rootEntries: seq<Entry>,
    gitDirs: seq<GitDir>,
    walk: seq<Entry>)

  function GitFindings(gitDirs: seq<GitDir>): (r: seq<Finding>)
    ensures |r| == |gitDirs| && forall i :: 0 <= i < |gitDirs| ==> r[i] == GitFinding(gitDirs[i])
  {
    seq(|gitDirs|, i requires 0 <= i < |gitDirs| => GitFinding(gitDirs[i]))
  }

  function Analysis(t: Tree, isScreenshotName: string -> bool): seq<Finding> {
    HiddenFindings(t.rootEntries)
      + GitFindings(t.gitDirs)
      + ScreenshotFindings(t.root, Sets.FilterMap(t.walk, (e: Entry) => isScreenshotName(e.name), (e: Entry) => e))
      + SensitiveFindings(t.walk)
      + TraversalFindings(t.walk)
  }

  /** `analyze` without the symlink checks: the five detectors' findings in turn. */
  method Analyze(t: Tree, isScreenshotName: string -> bool) returns (findings: seq<Finding>)
    ensures findings == Analysis(t, isScreenshotName)
  {
    var hidden := DetectHiddenRoot(t.rootEntries);
    var git := DetectGitExposure(t.gitDirs);
    var shots := DetectScreenshotCollection(t.root, t.walk, isScreenshotName);
    var sensitive := DetectSensitiveFiles(t.walk);
    var traversal := DetectPathTraversal(t.walk);
    assert git == GitFindings(t.gitDirs);
    findings := hidden + git + shots + sensitive + traversal;
  }

  /** Every finding of these detectors has confidence at least 0.75. */
  lemma AnalysisConfidence(t: Tree, isScreenshotName: string -> bool)
    ensures forall f :: f in Analysis(t, isScreenshotName) ==> f.confidence >= 0.75
  {
    var shots := Sets.FilterMap(t.walk, (e: Entry) => isScreenshotName(e.name), (e: Entry) => e);
    var parts := [HiddenFindings(t.rootEntries), GitFindings(t.gitDirs), ScreenshotFindings(t.root, shots),
                  SensitiveFindings(t.walk), TraversalFindings(t.walk)];
    HiddenFindingsCharacterized(t.rootEntries);
    TraversalFindingsCharacterized(t.walk);
    SensitiveFindingsBound(t.walk);
    forall f | f in Analysis(t, isScreenshotName) ensures f.confidence >= 0.75 {
      assert f in parts[0] || f in parts[1] || f in parts[2] || f in parts[3] || f in parts[4];
      if f in parts[1] {
        var i :| 0 <= i < |t.gitDirs| && parts[1][i] == f;
      }
    }
  }

  /** So `execute`'s 0.7 threshold drops nothing these detectors report. */
  lemma ThresholdKeepsEverything(t: Tree, isScreenshotName: string -> bool)
    ensures Confident(Analysis(t, isScreenshotName), Descriptor.confidenceThreshold) == Analysis(t, isScreenshotName)
  {
    AnalysisConfidence(t, isScreenshotName);
  }

  /** The skill's `execute`: the shared parameter handling around `analyze`. */
  function Execute(params: Json, pathExists: string -> bool, walkOf: ScanParams -> Tree,
                   isScreenshotName: string -> bool): (r: SkillResult<SkillOutput>)
    ensures ScanParamsFromValue(params).Ok? && pathExists(ScanParamsFromValue(params).value.path) ==>
      r.Ok? && r.value.findings == Analysis(walkOf(ScanParamsFromValue(params).value), isScreenshotName)
    ensures ScanParamsFromValue(params).Ok? && !pathExists(ScanParamsFromValue(params).value.path) ==>
      r == Err(InvalidParams("Path does not exist: " + ScanParamsFromValue(params).value.path))
  {
    var sp := ScanParamsFromValue(params);
    if sp.Ok? && pathExists(sp.value.path) then
      ThresholdKeepsEverything(walkOf(sp.value), isScreenshotName);
      Skills.Execute(params, pathExists, (p: ScanParams) => Analysis(walkOf(p), isScreenshotName),
                     Descriptor.confidenceThreshold)
    else
      Skills.Execute(params, pathExists, (p: ScanParams) => Analysis(walkOf(p), isScreenshotName),
                     Descriptor.confidenceThreshold)
  }

  const Descriptor: Skill := Skill(
    "detect_filesystem_threats",
    "Detects filesystem-based security threats including recursive symlinks, hidden sensitive files, exposed .git directories, screenshot collection (spyware), sensitive file exposure, and path traversal patterns.",
    ["filesystem", "symlink", "git", "spyware", "exposure"],
    Obj(map[
      "path" := StringParam("Directory to scan"),
      "follow_symlinks" := BoolParam("Follow symlinks during scan", false),
      "max_depth" := Obj(map["type" := Str("integer"), "description" := Str("Maximum directory depth to scan"),
                             "default" := NatNum(10)])]),
    DefaultConfidenceThreshold)
}
