/** The registry entries of the four detectors whose analysis is regular-expression
    matching only: their names, descriptions, categories, parameter schemas and
    thresholds. Their analyses are not part of this model. */
module PatternDetectors {
  import opened Json
  import opened Skills

  const Obfuscation: Skill := Skill(
    "detect_obfuscation",
    "Detects code obfuscation patterns including encrypted strings, control flow flattening, and opaque predicates.",
    ["obfuscation", "malware", "pattern_detection"],
    Obj(map[
      "path" := StringParam("File or directory to scan"),
      "recursive" := BoolParam("Scan directories recursively", true)]),
    DefaultConfidenceThreshold)

  const Temporal: Skill := Skill(
    "detect_temporal_attacks",
    "Detects time-based attack patterns including time bombs, delayed execution for sandbox evasion, and scheduling mechanisms.",
    ["temporal", "evasion", "malware"],
    Obj(map[
      "path" := StringParam("File or directory to scan"),
      "recursive" := BoolParam("Scan directories recursively", true)]),
    DefaultConfidenceThreshold)

  const Injection: Skill := Skill(
    "detect_injection_attacks",
    "Detects input injection patterns including keyboard simulation, clipboard hijacking, HID attacks, and automation frameworks.",
    ["injection", "hid", "clipboard", "malware"],
    Obj(map[
      "path" := StringParam("File or directory to scan"),
      "recursive" := BoolParam("Scan directories recursively", true)]),
    DefaultConfidenceThreshold)

  /** The SVG detector overrides the threshold with the same value, 0.7. */
  const Svg: Skill := Skill(
    "detect_svg_injection",
    "Detects malicious patterns in SVG files including embedded JavaScript, event handlers, external resource loading, data URIs, foreignObject exploits, CSS injection, and XXE attacks.",
    ["svg", "xss", "injection", "web_security"],
    Obj(map[
      "path" := StringParam("File or directory to scan"),
      "recursive" := BoolParam("Scan directories recursively", true)]),
    0.7)
}
