# GentlyOS core, modelled in Dafny

This project models the parts of GentlyOS that can be reasoned about without I/O, and proves properties of them:

- **Firewall skill framework** (`skills.dfy`, `registry.dfy`, `firewall.dfy`).
  - The ordered severities and skill outputs.
  - The scan-parameter parser and the shared `execute` shape of a detector skill.
  - The name-to-skill registry, a class whose map is updated in place.
  - `scan_path`: it merges every skill's findings and sorts them in place in an array.
- **Firewall detectors** (`stego.dfy`, `audio.dfy`, `network.dfy`, `cipher.dfy`, `filesystem.dfy`).
  - `descriptors.dfy` holds only the registry entries of the four regular-expression-only detectors.
  - Each detector's analysis runs over the file bytes, the text and the regular-expression matches, given as inputs.
  - The loops of the source are methods, proved against specification functions.
- **Firewall CLI** (`cli.dfy`).
  - Minimum-severity parsing and the severity filter.
  - The `invoke` parameter merge.
  - The summary counts.
- **Build-chain verifier** (`chain_layers.dfy`, `chain_verifier.dfy`).
  - The ten cipher layers, each with its inverse or its invariant.
  - The chain processor, which records every state.
  - Per-file verification, the manifest counts and the critical-file build check.
- **Desktop backend** (`desktop_app.dfy`).
  - The XOR-code generator and content hashing.
  - The routing rule.
  - The application state as a class whose commands append to the XOR chain.
- **Genesis token program** (`genesis.dfy`).
  - The genesis, wallet, checkpoint and audit accounts as classes.
  - Each instruction as a state transition.
  - Supply accounting over any run of mints, and conservation on transfer.

The helpers are `wrappers.dfy` (Option/Result), `sets.dfy`, `text.dfy`, `bytes.dfy` (bytes, hex, big-endian), `numeric.dfy` (Rust integer parsing) and `json.dfy` (a JSON value type).

Everything that comes from outside the program is a parameter of the model:
- hash functions;
- clocks;
- file contents and directory walks;
- whether a path exists;
- regular-expression matches;
- the outcome of Solana token-program calls.

Floating-point values are modelled as reals.

Where the source has no fixed order, the model says "in some order" and chooses nondeterministically. This covers the iteration order of a Rust `HashMap` or `HashSet` and the order of a directory walk.

Two details of the code that the model keeps as written:
- The suspicious-port list has fifteen entries (`security/firewall/core/src/detectors/network.rs:163-169`).
- `parse_min_severity` maps "info" and every unknown word to Info.

## Model

| member | source | states |
|---|---|---|
| Skills.SeverityTotalOrder | security/firewall/core/src/skills/trait.rs:53-61 | the derived order on severities is reflexive, antisymmetric, transitive and total |
| Skills.SeverityChain | security/firewall/core/src/skills/trait.rs:55-61 | Info < Low < Medium < High < Critical, the order of declaration |
| Skills.EmptyOutput | security/firewall/core/src/skills/trait.rs:81-88 | an empty output has no findings, confidence 1.0, null metadata and is complete |
| Skills.WithFindings | security/firewall/core/src/skills/trait.rs:90-103 | the findings are kept as given; confidence is 1.0 for none and otherwise times the count equals the sum of the finding confidences |
| Skills.SumConfidenceBounds | security/firewall/core/src/skills/trait.rs:94 | the sum of n confidences that lie in [lo, hi] lies in [lo·n, hi·n] |
| Skills.WithFindingsConfidenceBounds | security/firewall/core/src/skills/trait.rs:90-103 | the overall confidence lies between the lowest and the highest finding confidence, so it stays in [0, 1] when they do |
| Skills.Filter | security/firewall/core/src/detectors/stego.rs:262-265 | the filter keeps exactly the findings the predicate accepts, each with its multiplicity |
| Skills.FilterConcat | security/firewall/core/src/detectors/stego.rs:262-265 | filtering distributes over concatenation, so relative order is kept |
| Skills.FilterKeepsAll | security/firewall/core/src/detectors/stego.rs:262-265 | a filter that accepts every finding returns the list unchanged |
| Skills.Confident | security/firewall/core/src/detectors/stego.rs:261-265 | a finding survives iff its confidence reaches the threshold; when every finding does, the list is unchanged |
| Skills.AllStrings | security/firewall/core/src/skills/trait.rs:145-151 | an array of strings decodes to a list of the same length |
| Skills.ScanParamsFromValue | security/firewall/core/src/skills/trait.rs:131-159 | every failure is InvalidParams; an object with a string path and no optional keys gives the defaults false, false, [], []; a missing path or a value that is neither object nor array fails; a decoded object's path is its "path" field |
| Skills.Execute | security/firewall/core/src/detectors/stego.rs:244-268 | a parse error is passed on; a path that does not exist gives InvalidParams("Path does not exist: …"); otherwise a complete output holding exactly the analysed findings that reach the threshold |
| Skills.SkillSchema | security/firewall/core/src/skills/trait.rs:193-208 | the schema has exactly the keys name, description and parameters, holding the given name and description |
| Skills.DefaultSkill | security/firewall/core/src/skills/trait.rs:106-129 | a skill with the trait's defaults has threshold 0.7 and no categories |
| Skills.SeverityLe | security/firewall/core/src/skills/trait.rs:53 | the derived order on severities: Info, Low, Medium, High, Critical |
| Skills.SumConfidence | security/firewall/core/src/skills/trait.rs:94 | the sum of the findings' confidences |
| Skills.KeptPositions | security/firewall/core/src/detectors/stego.rs:262-265 | the positions of a list whose finding the filter accepts |
| Skills.FilterCountsPositions | security/firewall/core/src/detectors/stego.rs:262-265 | the filter keeps one finding per accepted position, so its length is the number of such positions |
| Skills.ParseFailure | security/firewall/core/src/skills/trait.rs:155-158 | a parse error is InvalidParams with the text "Failed to parse scan params: " and the reason |
| Skills.StringField | security/firewall/core/src/skills/trait.rs:135 | the required path field: a string is taken, another type or a missing field fails to parse |
| Skills.BoolField | security/firewall/core/src/skills/trait.rs:137-143 | a boolean field with a default: absent is false, another type fails to parse |
| Skills.StringListField | security/firewall/core/src/skills/trait.rs:145-151 | a list-of-strings field with a default: absent is empty, a non-list or a non-string item fails to parse |
| Skills.StringParam | security/firewall/core/src/skills/trait.rs:170-175 | the schema object of a string parameter with its description |
| Skills.BoolParam | security/firewall/core/src/skills/trait.rs:177-183 | the schema object of a boolean parameter with its description and default |
| Skills.ArrayParam | security/firewall/core/src/skills/trait.rs:185-191 | the schema object of an array parameter with its description and item type |
| Json.Get | security/firewall/cli/src/main.rs:257 | looking a key up succeeds exactly on an object that has the key |
| Sets.FilterMap | security/firewall/core/src/detectors/filesystem.rs:400-428 | the images of the accepted elements in their order and no more than the input's length, as a for loop that pushes one item per accepted element does |
| Sets.IsEnumeration | security/firewall/core/src/skills/registry.rs:32-34 | a list names every element of a set exactly once, as iterating a hash map or set does in an unspecified order |
| Sets.Enumerate | security/firewall/core/src/skills/registry.rs:32-34 | the elements of a set listed once each in some order, as many as the set has |
| Registry.PathParams | security/firewall/core/src/skills/registry.rs:54 | the scan parameters hold the path under "path" |
| Registry.Dispatch | security/firewall/core/src/skills/registry.rs:42-50 | an unknown name gives InvalidParams("Unknown skill: name") and runs nothing; a known name gives that skill's execute result |
| Registry.InCategory | security/firewall/core/src/skills/registry.rs:63-69 | no more skills than were given |
| Registry.InCategoryExact | security/firewall/core/src/skills/registry.rs:63-69 | a skill is selected iff it is given and its categories contain the category |
| Registry.SchemasOf | security/firewall/core/src/skills/registry.rs:37-39 | one schema per skill, in order, each naming and describing its skill |
| Registry.ExportOf | security/firewall/core/src/skills/registry.rs:72-78 | the export has exactly the keys skills, version = "1.0" and format = "openai_function_calling" |
| Registry.Registered | security/firewall/core/src/skills/registry.rs:21-24 | registering keeps every earlier name and adds each new skill's name |
| Registry.RegisteredFiles | security/firewall/core/src/skills/registry.rs:21-24 | each name files the skill of that name, and the names are the old ones plus the added skills' |
| Registry.RegisteredDistinct | security/firewall/core/src/skills/registry.rs:21-24 | with distinct names no registration replaces another |
| Registry.DefaultSkillNames | security/firewall/core/src/skills/registry.rs:94-102 | the nine built-in skills carry the nine expected names, in registration order |
| Registry.DefaultNamesDistinct | security/firewall/core/src/lib.rs:91-99 | the expected names are listed once each |
| Registry.DefaultNameCount | security/firewall/core/src/lib.rs:87-100 | there are nine distinct expected names |
| Registry.RegisteredFromEmpty | security/firewall/core/src/skills/registry.rs:14-24 | registering skills with distinct names into an empty registry files each under its name and nothing else |
| Registry.DefaultRegistryNames | security/firewall/core/src/skills/registry.rs:88-104 | the default registry holds exactly the nine expected names |
| Registry.DefaultRegistryEntries | security/firewall/core/src/skills/registry.rs:88-104 | each built-in skill is filed under its own name |
| Registry.NamesOf | security/firewall/core/src/skills/registry.rs:53-60 | the names of the results, in order |
| Registry.SkillRegistry.constructor | security/firewall/core/src/skills/registry.rs:14-18 | a new registry is empty |
| Registry.SkillRegistry.Register | security/firewall/core/src/skills/registry.rs:21-24 | the skill is stored under its name, replacing one of that name; nothing else changes |
| Registry.SkillRegistry.Get | security/firewall/core/src/skills/registry.rs:27-29 | present iff the name is registered, and then the skill of that name |
| Registry.SkillRegistry.List | security/firewall/core/src/skills/registry.rs:32-34 | every registered name exactly once |
| Registry.SkillRegistry.Schemas | security/firewall/core/src/skills/registry.rs:37-39 | one schema per registered skill, in some order |
| Registry.SkillRegistry.Invoke | security/firewall/core/src/skills/registry.rs:42-50 | invoke is the dispatch on the registered skills |
| Registry.SkillRegistry.ScanAll | security/firewall/core/src/skills/registry.rs:53-60 | every registered name once, paired with its skill's result on {"path": path} |
| Registry.SkillRegistry.ByCategory | security/firewall/core/src/skills/registry.rs:63-69 | exactly the registered skills whose categories contain the category |
| Registry.SkillRegistry.ExportSchemas | security/firewall/core/src/skills/registry.rs:72-78 | the schemas in some order, with version "1.0" and the function-calling format |
| Registry.CreateDefaultRegistry | security/firewall/core/src/skills/registry.rs:88-104 | a fresh registry holding the nine built-in skills registered in order |
| Registry.RegisterAll | security/firewall/core/src/skills/registry.rs:88-104 | registering a list of skills one after another keeps the registry valid and leaves it holding the skills added in order, a later name replacing an earlier one |
| Registry.FiledByName | security/firewall/core/src/skills/registry.rs:21-24 | every name in the map files the skill of that name |
| Registry.SkillRegistry.Valid | security/firewall/core/src/skills/registry.rs:21-24 | the registry's map files every skill under its own name |
| Firewall.RankedMeaning | security/firewall/core/src/lib.rs:66-71 | in a ranked list severities never increase, and within one severity confidence never increases |
| Firewall.CollectedMembers | security/firewall/core/src/lib.rs:60-64 | a finding is collected iff some named skill succeeds and reports it; failing skills contribute nothing |
| Firewall.SortFindings | security/firewall/core/src/lib.rs:67-71 | after the in-place sort the array is ranked (severity descending, then confidence descending) and a permutation of its old contents |
| Firewall.CollectFindings | security/firewall/core/src/lib.rs:58-64 | the loop extends the list with the findings of each skill whose invocation succeeds, in name order |
| Firewall.MergeDefaultScan | security/firewall/core/src/lib.rs:55-64 | the merged findings are those of the default registry's skills that succeed, in some order of its nine names |
| Firewall.ScanPath | security/firewall/core/src/lib.rs:54-74 | scan_path always returns Ok, ranked, and a permutation of the merged findings |
| Firewall.ExportToolSchemas | security/firewall/core/src/lib.rs:77-80 | the default registry's export, which has the keys skills and version |
| Firewall.Precedes | security/firewall/core/src/lib.rs:67-71 | a finding sorts strictly first when its severity is higher, or equal with a higher confidence |
| Firewall.InOrder | security/firewall/core/src/lib.rs:67-71 | a finding may stand before another when the other does not sort strictly first |
| Firewall.Ranked | security/firewall/core/src/lib.rs:66-71 | every pair of findings in the list is in order |
| Firewall.Collected | security/firewall/core/src/lib.rs:60-64 | the findings of the named skills whose invocation succeeds, in the order of the names |
| Firewall.MergedFindings | security/firewall/core/src/lib.rs:55-64 | the merged findings are those collected over some listing order of the default registry's names |
| Cli.ParseMinSeverity | security/firewall/cli/src/main.rs:82-90 | Critical, High, Medium and Low exactly for their lower-cased names; anything else, "info" included, is Info |
| Cli.SeverityLabel | security/firewall/cli/src/main.rs:72-80 | every severity has a non-empty label |
| Cli.ParseLabel | security/firewall/cli/src/main.rs:72-90 | the printed label of a severity parses back to that severity |
| Cli.ParseIgnoresCase | security/firewall/cli/src/main.rs:83 | a string and its lower-case form parse to the same severity |
| Cli.AtLeast | security/firewall/cli/src/main.rs:140-143 | the filter keeps exactly the findings of severity at least the minimum, each with its multiplicity |
| Cli.DefaultDropsInfo | security/firewall/cli/src/main.rs:36-37 | with the default "low" only Info findings are dropped |
| Cli.RankedTail | security/firewall/core/src/lib.rs:66-71 | the rest of a sorted report is sorted and follows its head |
| Cli.RankedCons | security/firewall/core/src/lib.rs:66-71 | a head in order with a sorted rest makes a sorted report |
| Cli.FilterKeepsRanked | security/firewall/cli/src/main.rs:140-143 | filtering keeps a sorted report sorted |
| Cli.AtLeastKeepsRanked | security/firewall/cli/src/main.rs:140-143 | the severity filter keeps a sorted report sorted |
| Cli.AtLeastRespectsMultiset | security/firewall/cli/src/main.rs:140-143 | filtering two permutations of one list gives two permutations of one report |
| Cli.ScanAllSkills | security/firewall/cli/src/main.rs:136-155 | the report is sorted and is, up to order, the merged findings of severity at least the parsed minimum |
| Cli.ScanOneSkill | security/firewall/cli/src/main.rs:113-135 | an unknown skill or a failing one gives its error; otherwise that skill's findings of severity at least the minimum |
| Cli.Overlay | security/firewall/cli/src/main.rs:212-214 | writing the object's keys one at a time yields the base map overridden by the object |
| Cli.CoveredAll | security/firewall/cli/src/main.rs:212-214 | once every enumerated key is written, all of the object's keys are |
| Cli.OverlayOf | security/firewall/cli/src/main.rs:212-214 | a map with the object's values on its keys and the base's elsewhere is the override |
| Cli.InvokeParams | security/firewall/cli/src/main.rs:205-217 | {"path": path} overridden by every key of the extra object; absent, unparsable or non-object extras leave it unchanged |
| Cli.MergedParams | security/firewall/cli/src/main.rs:205-217 | the extra object decides each of its keys, and "path" keeps the command-line value unless overridden |
| Cli.CountOf | security/firewall/cli/src/main.rs:267-268 | the count is the number of positions in the list whose finding has the severity, so it is positive iff some finding has it |
| Cli.Summarize | security/firewall/cli/src/main.rs:231-281 | an empty list prints the no-threats line; otherwise the count, the noun "finding" iff one, the numbers of Critical and High findings as CountOf counts them, and a warning iff some finding is Critical or High |
| Cli.QuietScanDoesNotWarn | security/firewall/cli/src/main.rs:270 | no warning when no finding is above Medium |
| Stego.PngHit | security/firewall/core/src/detectors/stego.rs:31-39 | a PNG hit exists iff the file starts with the PNG magic, an IEND window occurs and its offset + 12 is inside the file; the offset is that position + 12 and the extra bytes run to the end |
| Stego.JpegHit | security/firewall/core/src/detectors/stego.rs:60-65 | a JPEG hit exists iff the file starts with the JPEG magic, the last EOI marker ends before the end of the file; offset + extra bytes equals the file length |
| Stego.AtMostOneEofHit | security/firewall/core/src/detectors/stego.rs:31-60 | no file starts with both magic numbers, so at most one end-marker check fires |
| Stego.EofFinding | security/firewall/core/src/detectors/stego.rs:40-54 | an eof_hidden_data finding has confidence 0.9 and severity High |
| Stego.DetectEofData | security/firewall/core/src/detectors/stego.rs:26-87 | at most one finding, present iff the PNG or the JPEG check reports hidden data, and built from that hit |
| Stego.TrailingWhitespace | security/firewall/core/src/detectors/stego.rs:98 | the result is the maximal whitespace suffix of the line |
| Stego.SuspiciousCount | security/firewall/core/src/detectors/stego.rs:97-103 | no more lines are suspicious than there are lines |
| Stego.TrailingTotalAtLeast | security/firewall/core/src/detectors/stego.rs:99-101 | the trailing total is at least three bytes per suspicious line |
| Stego.WhitespaceFinding | security/firewall/core/src/detectors/stego.rs:106-119 | a whitespace_encoding finding has severity Medium and confidence min(lines / 100, 0.95) |
| Stego.WhitespaceFindings | security/firewall/core/src/detectors/stego.rs:105-120 | at most one finding, present iff more than five lines are suspicious |
| Stego.WhitespaceSurvivesThreshold | security/firewall/core/src/detectors/stego.rs:112 | a whitespace finding's confidence is in (0.05, 0.95] and reaches 0.7 iff at least 70 lines are suspicious |
| Stego.CountSuspiciousLines | security/firewall/core/src/detectors/stego.rs:94-103 | the loop's counters equal the suspicious-line count and the total trailing length |
| Stego.CountLine | security/firewall/core/src/detectors/stego.rs:96-102 | one pass of the loop turns the counters over the first i lines into the counters over the first i + 1 |
| Stego.LineContribution | security/firewall/core/src/detectors/stego.rs:97-101 | one line adds one to the count and its trailing-whitespace byte length to the total exactly when its trailing run is suspicious, and nothing otherwise |
| Stego.CountStep | security/firewall/core/src/detectors/stego.rs:99-102 | one line adds one to the count, and its run length to the total, exactly when its run is suspicious |
| Stego.DetectWhitespaceEncoding | security/firewall/core/src/detectors/stego.rs:90-124 | the method returns the findings of the whitespace specification |
| Stego.PresentMembers | security/firewall/core/src/detectors/stego.rs:156-160 | an entry is selected iff it is in the table and its look-alike occurs in the text |
| Stego.PresentConcat | security/firewall/core/src/detectors/stego.rs:156-160 | selection distributes over concatenation, so table order is kept |
| Stego.PresentDistinct | security/firewall/core/src/detectors/stego.rs:156-160 | selection from a table without repeats has no repeats |
| Stego.HomoglyphTableDistinct | security/firewall/core/src/detectors/stego.rs:131-151 | the nineteen table entries are pairwise different |
| Stego.CyrillicDistinct | security/firewall/core/src/detectors/stego.rs:132-137 | the six Cyrillic entries are pairwise different |
| Stego.GreekDistinct | security/firewall/core/src/detectors/stego.rs:138-150 | the thirteen Greek entries are pairwise different |
| Stego.ScriptsDisjoint | security/firewall/core/src/detectors/stego.rs:131-151 | no entry is listed under both scripts: every Cyrillic look-alike lies at or above U+0400 and every Greek one below it |
| Stego.HomoglyphFinding | security/firewall/core/src/detectors/stego.rs:163-177 | a unicode_homoglyph finding has confidence 0.85 and severity High |
| Stego.HomoglyphFindings | security/firewall/core/src/detectors/stego.rs:162-178 | at most one finding, present iff some look-alike is present |
| Stego.HomoglyphsReported | security/firewall/core/src/detectors/stego.rs:127-182 | the reported list holds each table entry whose look-alike occurs, once; there is a finding iff some look-alike occurs |
| Stego.DetectHomoglyphs | security/firewall/core/src/detectors/stego.rs:153-160 | the loop returns the findings of the homoglyph specification |
| Stego.AnalyzeFile | security/firewall/core/src/detectors/stego.rs:185-193 | the end-marker findings come first, then the whitespace and homoglyph findings when the file is text |
| Stego.BytesStartWith | security/firewall/core/src/detectors/stego.rs:31 | the data begins with the given magic bytes |
| Stego.HitFindings | security/firewall/core/src/detectors/stego.rs:38-54 | a hit past an end marker gives one finding, no hit gives none |
| Stego.SuspiciousRun | security/firewall/core/src/detectors/stego.rs:99 | a trailing run is suspicious when it is longer than two bytes and holds both a tab and a space |
| Stego.TrailingTotal | security/firewall/core/src/detectors/stego.rs:101 | the sum of the byte lengths of the suspicious trailing runs |
| Stego.Present | security/firewall/core/src/detectors/stego.rs:156-160 | the table entries whose look-alike character occurs in the text, in table order |
| Stego.HomoglyphJson | security/firewall/core/src/detectors/stego.rs:166-168 | one reported homoglyph as an object of its fake character, the real one and the script |
| Stego.TextFindings | security/firewall/core/src/detectors/stego.rs:189-190 | when the file reads as text, the whitespace findings followed by the homoglyph findings; nothing otherwise |
| Audio.FiveDigitValue | security/firewall/core/src/detectors/audio.rs:32 | a five-digit token's decimal value is the weighted sum of its digits |
| Audio.FrequencyPatternRange | security/firewall/core/src/detectors/audio.rs:32 | a five-digit token matches the frequency pattern iff its value lies in 18000..24999 |
| Audio.UltrasonicFindings | security/firewall/core/src/detectors/audio.rs:41-76 | at most one finding, present iff both an audio API and a frequency token occur; it is ultrasonic_frequency, 0.8, High |
| Audio.MicFindings | security/firewall/core/src/detectors/audio.rs:79-116 | at most one finding, present iff a microphone keyword occurs; Critical at 0.85 iff network capability, Medium at 0.6 iff none |
| Audio.ScanWindow | security/firewall/core/src/detectors/audio.rs:135-140 | the window is the data after the 44-byte header, cut to at most 10000 bytes |
| Audio.TrailingZeros | security/firewall/core/src/detectors/audio.rs:141-147 | the count is the length of the maximal run of zero bytes at the end |
| Audio.LongRunEndsBound | security/firewall/core/src/detectors/audio.rs:138-149 | no more runs are counted than there are non-zero bytes |
| Audio.TrailingRunUncounted | security/firewall/core/src/detectors/audio.rs:140-149 | a run of zeros still open at the end of the window adds nothing to the count |
| Audio.CountZeroRuns | security/firewall/core/src/detectors/audio.rs:138-149 | the loop counts exactly the non-zero bytes that close a run of more than 100 zeros |
| Audio.AnomalyFinding | security/firewall/core/src/detectors/audio.rs:152-165 | an audio_anomaly finding has confidence 0.65 and severity Medium |
| Audio.ManipulationFindings | security/firewall/core/src/detectors/audio.rs:119-172 | at most one finding, present iff the lower-cased extension is an audio one, the file reads, it is a WAV over 44 bytes and more than five long zero runs occur in the window |
| Audio.DetectAudioManipulation | security/firewall/core/src/detectors/audio.rs:119-172 | the method returns the findings of the manipulation specification |
| Audio.AnalyzeFile | security/firewall/core/src/detectors/audio.rs:175-188 | the WAV findings come first, then the ultrasonic and microphone findings when the file is text |
| Audio.ThresholdDropsWeakFindings | security/firewall/core/src/detectors/audio.rs:239-262 | after the 0.7 threshold no WAV anomaly and no Medium microphone finding is left |
| Audio.FrequencyPattern | security/firewall/core/src/detectors/audio.rs:32 | a frequency token is five ASCII digits starting 18, 19 or 20 to 24 |
| Audio.QuotedList | security/firewall/core/src/detectors/audio.rs:69 | the debug text of a list of strings: each item in double quotes, separated by ", ", inside brackets |
| Audio.LongRunEnds | security/firewall/core/src/detectors/audio.rs:140-149 | the number of non-zero bytes that end a run of more than 100 zero bytes |
| Audio.NonZeroCount | security/firewall/core/src/detectors/audio.rs:140-149 | the number of non-zero bytes, the most runs that can end |
| Audio.IsWav | security/firewall/core/src/detectors/audio.rs:128-133 | the data section is examined only when the lower-cased extension is wav and the file is longer than the 44-byte header |
| Audio.TextFindings | security/firewall/core/src/detectors/audio.rs:182-185 | when the file reads as text, the ultrasonic findings followed by the microphone findings; nothing otherwise |
| Network.Letters | security/firewall/core/src/detectors/network.rs:40 | the letters kept are lower-case ASCII and no more than the input's characters |
| Network.ConsonantCount | security/firewall/core/src/detectors/network.rs:46 | no more consonants than letters |
| Network.ConsonantRatio | security/firewall/core/src/detectors/network.rs:38-48 | the ratio is in [0, 1]: 0 without letters, otherwise consonants over letters |
| Network.Host | security/firewall/core/src/detectors/network.rs:58 | a host exists iff the URL contains "://", and it holds no '/' |
| Network.DgaFinding | security/firewall/core/src/detectors/network.rs:68-82 | a potential_dga_domain finding has confidence 0.75 and severity High |
| Network.UrlFindings | security/firewall/core/src/detectors/network.rs:55-84 | a URL gives at most one finding, and one iff its host's first label has consonant ratio > 0.7, a digit and more than 10 bytes |
| Network.Base64Finding | security/firewall/core/src/detectors/network.rs:89-99 | a base64_domain finding has confidence 0.8 and severity High |
| Network.UrlsFindings | security/firewall/core/src/detectors/network.rs:54-85 | no more findings than URLs |
| Network.Base64Findings | security/firewall/core/src/detectors/network.rs:88-100 | exactly one base64_domain finding per match, in match order |
| Network.UrlsFindingsSource | security/firewall/core/src/detectors/network.rs:54-85 | every generated-domain finding is the finding of one of the URLs |
| Network.ScanUrls | security/firewall/core/src/detectors/network.rs:54-85 | the first loop returns the URL findings of the specification |
| Network.ScanUrl | security/firewall/core/src/detectors/network.rs:55-84 | one pass of the loop yields, for a single URL, exactly its generated-domain finding, or none |
| Network.ScanBase64Domains | security/firewall/core/src/detectors/network.rs:88-100 | the second loop returns one finding per base64 match |
| Network.DetectDgaDomains | security/firewall/core/src/detectors/network.rs:51-103 | the URL findings in match order, then the base64 ones |
| Network.ParsedOctets | security/firewall/core/src/detectors/network.rs:126 | only pieces that parse as u8 are kept, so every octet is below 256 and there are no more octets than pieces |
| Network.ParsedOctetsDropFailures | security/firewall/core/src/detectors/network.rs:126 | a piece that does not parse makes the octet list shorter than the piece list |
| Network.OutOfRangeOctetIsReported | security/firewall/core/src/detectors/network.rs:126-135 | an address with an octet of 256 or more is never taken for a private one and is reported unless it is a safe address |
| Network.IpFinding | security/firewall/core/src/detectors/network.rs:139-152 | a hardcoded_public_ip finding has confidence 0.7 and severity Medium |
| Network.PublicIpsStep | security/firewall/core/src/detectors/network.rs:117-136 | one more match adds its address to the set exactly when it is neither safe nor private |
| Network.DetectHardcodedIps | security/firewall/core/src/detectors/network.rs:106-156 | no finding when no public address occurs, otherwise one listing every public address once, in some order, with that count |
| Network.PortOf | security/firewall/core/src/detectors/network.rs:174 | a parsed port is below 65536 |
| Network.PortsFoundMembers | security/firewall/core/src/detectors/network.rs:171-179 | the found ports have no repeats; a port is found iff it is suspicious and some match parses to it |
| Network.FoundInStep | security/firewall/core/src/detectors/network.rs:171-179 | a port is found in a list of matches iff it is found in all but the last, or it is suspicious and the last match parses to it |
| Network.PortsFoundPrefix | security/firewall/core/src/detectors/network.rs:171-179 | ports are only ever appended, so they are listed in order of first appearance |
| Network.PortFindings | security/firewall/core/src/detectors/network.rs:181-196 | at most one finding, present iff some suspicious port is found; it is suspicious_ports, 0.75, High |
| Network.DetectSuspiciousPorts | security/firewall/core/src/detectors/network.rs:159-199 | the loop returns the port findings of the specification |
| Network.AnalyzeFile | security/firewall/core/src/detectors/network.rs:202-212 | generated domains, then public addresses, then ports |
| Network.IsConsonant | security/firewall/core/src/detectors/network.rs:39 | the consonants are the twenty letters of "bcdfghjklmnpqrstvwxyz" |
| Network.HasDigit | security/firewall/core/src/detectors/network.rs:63 | the first label contains a digit |
| Network.LooksGenerated | security/firewall/core/src/detectors/network.rs:61-67 | the first label looks generated when its consonant ratio exceeds 0.7, it contains a digit and it is longer than ten bytes |
| Network.Octets | security/firewall/core/src/detectors/network.rs:126 | the pieces of the address between dots that parse as bytes, failures dropped |
| Network.IsPrivate | security/firewall/core/src/detectors/network.rs:127-133 | an address is skipped as private only when exactly four octets parse and they fall in 10/8, 172.16/12 or 192.168/16 |
| Network.PublicIps | security/firewall/core/src/detectors/network.rs:110-136 | the reported addresses are the matched ones that are neither in the six-address safe list nor private |
| Network.IpFindingsFor | security/firewall/core/src/detectors/network.rs:138-155 | no finding when no public address was found, otherwise one finding listing the public addresses in some order |
| Network.PortsFound | security/firewall/core/src/detectors/network.rs:171-179 | the suspicious ports the matches parse to, each once, in order of first appearance |
| Network.FoundIn | security/firewall/core/src/detectors/network.rs:173-176 | a port counts as found when it is suspicious and some match parses to it |
| Cipher.BitIsPowerOf2 | security/firewall/core/src/detectors/cipher.rs:88-90 | every 1 << k with k < 64 passes the bit test |
| Cipher.PowerOf2IsBit | security/firewall/core/src/detectors/cipher.rs:88-90 | every value passing the bit test is 1 << k for some k < 64 |
| Cipher.PowerOf2Examples | security/firewall/core/src/detectors/cipher.rs:438-445 | the test's cases: 64, 256 and 131072 pass; 100 and 0 do not |
| Cipher.ParseDims | security/firewall/core/src/detectors/cipher.rs:126-129 | the groups that do not parse as u64 are dropped |
| Cipher.ParseDimsNone | security/firewall/core/src/detectors/cipher.rs:126-129 | groups none of which parses leave no dimensions |
| Cipher.BvNats | security/firewall/core/src/detectors/cipher.rs:137 | the dimensions are reported with their values |
| Cipher.GridFindingsCharacterized | security/firewall/core/src/detectors/cipher.rs:122-152 | one power2_grid finding per capture whose parsed dimensions are all powers of two, and no other |
| Cipher.UnparsableGridIsReported | security/firewall/core/src/detectors/cipher.rs:126-133 | a capture none of whose groups parses is still reported, as a grid of one cell |
| Cipher.DetectGridPatterns | security/firewall/core/src/detectors/cipher.rs:122-152 | the loop returns the grid findings of the specification |
| Cipher.SelfReferenceReported | security/firewall/core/src/detectors/cipher.rs:159-181 | a candidate is reported iff its lower-cased text is the hex digest of the text with it removed; every such finding is self_referencing_hash, Critical |
| Cipher.CheckHashes | security/firewall/core/src/detectors/cipher.rs:159-208 | each loop returns the self-reference findings of its candidates |
| Cipher.DetectSelfReference | security/firewall/core/src/detectors/cipher.rs:155-211 | the MD5 candidates' findings, then the SHA-256 candidates' |
| Cipher.GuidValue | security/firewall/core/src/detectors/cipher.rs:229-230 | a parsed GUID value fits in u128 |
| Cipher.GuidValues | security/firewall/core/src/detectors/cipher.rs:226-232 | GUIDs that do not parse are dropped |
| Cipher.Residues | security/firewall/core/src/detectors/cipher.rs:230 | each residue is its value mod the modulus, so below the modulus |
| Cipher.MaxOver | security/firewall/core/src/detectors/cipher.rs:244 | the largest multiplicity over the candidates, reached by one of them |
| Cipher.MaxCount | security/firewall/core/src/detectors/cipher.rs:244 | the count is the largest multiplicity of any value, reached by a present one, and at most the list length |
| Cipher.MaxOverAll | security/firewall/core/src/detectors/cipher.rs:244 | taken over the values themselves, the largest multiplicity bounds every value's |
| Cipher.MultiplicityBound | security/firewall/core/src/detectors/cipher.rs:239-242 | no value occurs more often than the list is long |
| Cipher.CountValues | security/firewall/core/src/detectors/cipher.rs:239-242 | the counts map holds exactly the values present, each with its multiplicity |
| Cipher.MostCommon | security/firewall/core/src/detectors/cipher.rs:244 | max_by_key returns a key of the map with the largest count |
| Cipher.GuidFinding | security/firewall/core/src/detectors/cipher.rs:249-265 | a guid_modular_correlation finding has the ratio as its confidence |
| Cipher.ClusterRatio | security/firewall/core/src/detectors/cipher.rs:245 | the ratio of a non-empty list lies in (0, 1] |
| Cipher.ModulusPartShape | security/firewall/core/src/detectors/cipher.rs:244-267 | a modulus contributes at most one finding, with confidence in (0.3, 1] |
| Cipher.ConcatBound | security/firewall/core/src/detectors/cipher.rs:225-268 | the moduli together give at most one finding each |
| Cipher.GuidFindingsBound | security/firewall/core/src/detectors/cipher.rs:223-268 | at most one finding per modulus, so at most four, each a correlation above 0.3 |
| Cipher.ModulusFinding | security/firewall/core/src/detectors/cipher.rs:226-267 | no finding when no GUID parses or the ratio is at most 0.3; otherwise one naming a residue below the modulus with the largest count |
| Cipher.DetectGuidPatterns | security/firewall/core/src/detectors/cipher.rs:214-271 | no findings for fewer than three GUIDs, otherwise the parts of the four moduli in order |
| Cipher.ModulusFindings | security/firewall/core/src/detectors/cipher.rs:225-268 | the loop over the moduli returns their parts one after another |
| Cipher.KeywordFindingsCharacterized | security/firewall/core/src/detectors/cipher.rs:278-295 | a keyword entry gives a sequence_indicator finding iff the lower-cased text contains its keyword |
| Cipher.HintFindingsCharacterized | security/firewall/core/src/detectors/cipher.rs:297-316 | the hints are exactly the identifiers mentioning bacon or cipher, at Low and 0.7 |
| Cipher.ScanKeywords | security/firewall/core/src/detectors/cipher.rs:278-295 | the loop returns the keyword findings of the specification |
| Cipher.ScanIdentifiers | security/firewall/core/src/detectors/cipher.rs:298-316 | the loop returns the hint findings of the specification |
| Cipher.DetectSequencePatterns | security/firewall/core/src/detectors/cipher.rs:274-319 | the keyword table in some order against the lower-cased text, then the identifier hints |
| Cipher.AnalyzeFile | security/firewall/core/src/detectors/cipher.rs:322-335 | nothing for a file that is not text; otherwise grid, self-reference, GUID and sequence findings in that order |
| Cipher.IsPowerOf2 | security/firewall/core/src/detectors/cipher.rs:88-90 | a 64-bit number is a power of two when it is non-zero and clearing its lowest set bit leaves zero |
| Cipher.Product | security/firewall/core/src/detectors/cipher.rs:132 | the product of the dimensions in 64-bit arithmetic, wrapping around |
| Cipher.ProductExamples | security/firewall/core/src/detectors/cipher.rs:132 | a 64 x 64 x 64 grid has 262144 cells, and 2^32 x 2^32 wraps around to 0 cells |
| Cipher.AllPowersOf2 | security/firewall/core/src/detectors/cipher.rs:131 | every parsed dimension is a power of two; an empty list of dimensions passes |
| Cipher.GridFinding | security/firewall/core/src/detectors/cipher.rs:134-147 | the grid finding: type power2_grid, the dimensions and their wrapped product, confidence 0.9, Medium, and the description "[dims] = total cells" |
| Cipher.GridFindings | security/firewall/core/src/detectors/cipher.rs:125-149 | one grid finding per dimension capture whose parsed dimensions are all powers of two, in match order |
| Cipher.SelfReferencing | security/firewall/core/src/detectors/cipher.rs:160-164 | a hash candidate refers to itself when the lower-case hex digest of the text with every copy of it removed equals it, ignoring ASCII case |
| Cipher.SelfReferenceFinding | security/firewall/core/src/detectors/cipher.rs:165-179 | the self-reference finding: type self_referencing_hash, the hash, the algorithm, verified true, confidence 0.99, Critical |
| Cipher.SelfReferenceFindings | security/firewall/core/src/detectors/cipher.rs:159-181 | one finding per candidate that refers to itself, in match order |
| Cipher.SelfReferencePart | security/firewall/core/src/detectors/cipher.rs:159-208 | the MD5 candidates' findings followed by the SHA-256 candidates' findings |
| Cipher.ModulusPart | security/firewall/core/src/detectors/cipher.rs:226-267 | a modulus contributes nothing when no GUID parses or at most 30% of the residues share a value, and otherwise one finding naming a residue of greatest count |
| Cipher.GuidFindingsFor | security/firewall/core/src/detectors/cipher.rs:225-268 | the findings are the parts of the moduli, one after another in the order of the moduli |
| Cipher.GuidPart | security/firewall/core/src/detectors/cipher.rs:217-270 | no findings for fewer than three GUIDs, otherwise the parts of 64, 256, 1024 and 131072 in turn |
| Cipher.SequenceFinding | security/firewall/core/src/detectors/cipher.rs:280-293 | the keyword finding: type sequence_indicator, the keyword and its sequence type, confidence 0.7, Medium |
| Cipher.KeywordFindings | security/firewall/core/src/detectors/cipher.rs:278-295 | one finding per table entry, in table order, whose keyword the lower-cased text contains |
| Cipher.CipherHint | security/firewall/core/src/detectors/cipher.rs:301-303 | an identifier is a hint when its lower-cased text contains bacon or cipher |
| Cipher.HintFinding | security/firewall/core/src/detectors/cipher.rs:304-314 | the hint finding: type cipher_hint_identifier, the identifier, confidence 0.7, Low |
| Cipher.HintFindings | security/firewall/core/src/detectors/cipher.rs:299-316 | one hint finding per matched identifier that is a hint, in match order |
| Cipher.SequencePart | security/firewall/core/src/detectors/cipher.rs:274-319 | the keyword findings for the table in some iteration order, then the identifier hints |
| Filesystem.HiddenFindingsCharacterized | security/firewall/core/src/detectors/filesystem.rs:194-238 | a root entry is reported iff it is a dotfile other than "." and "..", in the named list or mentioning rc, history, secret, credential, token or key |
| Filesystem.DetectHiddenRoot | security/firewall/core/src/detectors/filesystem.rs:198-234 | the loop returns the hidden-file findings of the specification |
| Filesystem.GitFindingProperties | security/firewall/core/src/detectors/filesystem.rs:253-290 | the exposed files are the present entries of the sensitive list in list order; the finding is Critical iff the config mentions password, token or credential, and High otherwise |
| Filesystem.ExposedFilesOf | security/firewall/core/src/detectors/filesystem.rs:253-260 | the loop returns the present sensitive entries in list order |
| Filesystem.DetectGitExposure | security/firewall/core/src/detectors/filesystem.rs:241-293 | one finding per .git directory met, in walk order |
| Filesystem.Paths | security/firewall/core/src/detectors/filesystem.rs:311-318 | the collected paths are the screenshots' paths, in order |
| Filesystem.ScreenshotFindings | security/firewall/core/src/detectors/filesystem.rs:321-351 | at most one finding, present iff at least five names match |
| Filesystem.ScreenshotFindingProperties | security/firewall/core/src/detectors/filesystem.rs:321-341 | five samples at most; Critical iff more than twenty or one is in a suspicious directory, else High; 0.9 iff in a suspicious directory, else 0.75 |
| Filesystem.DetectScreenshotCollection | security/firewall/core/src/detectors/filesystem.rs:296-354 | the walk loop collects the matching entries and their sizes and returns the screenshot findings of the specification |
| Filesystem.FirstSensitive | security/firewall/core/src/detectors/filesystem.rs:371-388 | the index is the first list item that equals the name or ends the path; None iff no item matches |
| Filesystem.EntrySensitiveFindings | security/firewall/core/src/detectors/filesystem.rs:371-388 | at most one finding per entry |
| Filesystem.FindSensitive | security/firewall/core/src/detectors/filesystem.rs:371-388 | the loop with its break returns the first matching item |
| Filesystem.FirstSensitiveUnique | security/firewall/core/src/detectors/filesystem.rs:371-388 | the first match is the only index that matches with no earlier match |
| Filesystem.DetectSensitiveFiles | security/firewall/core/src/detectors/filesystem.rs:357-394 | the walk loop returns the sensitive-file findings of the specification |
| Filesystem.SensitiveFindingsBound | security/firewall/core/src/detectors/filesystem.rs:371-388 | at most one finding per entry, each Critical at 0.95 |
| Filesystem.TraversalFindingsCharacterized | security/firewall/core/src/detectors/filesystem.rs:407-425 | an entry is reported iff its name contains "..", "./" or "/." |
| Filesystem.DetectPathTraversal | security/firewall/core/src/detectors/filesystem.rs:397-431 | the walk loop returns the traversal findings of the specification |
| Filesystem.GitFindings | security/firewall/core/src/detectors/filesystem.rs:244-290 | one finding per .git directory |
| Filesystem.Analyze | security/firewall/core/src/detectors/filesystem.rs:434-445 | hidden, git, screenshot, sensitive and traversal findings in that order |
| Filesystem.AnalysisConfidence | security/firewall/core/src/detectors/filesystem.rs:224-418 | every finding of the modelled detectors has confidence at least 0.75 |
| Filesystem.ThresholdKeepsEverything | security/firewall/core/src/detectors/filesystem.rs:495-499 | the 0.7 threshold drops none of these findings |
| Filesystem.Execute | security/firewall/core/src/detectors/filesystem.rs:482-502 | a path that does not exist gives InvalidParams; otherwise the output holds exactly the analysis findings |
| Filesystem.HiddenName | security/firewall/core/src/detectors/filesystem.rs:203 | a root entry is examined only when its name starts with '.' and is neither "." nor ".." |
| Filesystem.SuspiciousHiddenName | security/firewall/core/src/detectors/filesystem.rs:205-215 | a hidden name is suspicious when it is one of the five shell and editor rc files or contains rc, history, secret, credential, token or key |
| Filesystem.FlaggedHidden | security/firewall/core/src/detectors/filesystem.rs:203-217 | an entry is reported when it is both hidden and suspicious |
| Filesystem.HiddenFinding | security/firewall/core/src/detectors/filesystem.rs:218-231 | the hidden-file finding: type hidden_sensitive_file, the name and path, confidence 0.8, Medium, and the description naming the file |
| Filesystem.HiddenFindings | security/firewall/core/src/detectors/filesystem.rs:194-238 | one finding per flagged root entry, in directory order |
| Filesystem.HasCredentials | security/firewall/core/src/detectors/filesystem.rs:263-268 | a readable config that mentions password, token or credential has credentials; an unreadable config has none |
| Filesystem.ExposedFiles | security/firewall/core/src/detectors/filesystem.rs:253-260 | the entries of the sensitive git list that exist inside the directory, in list order |
| Filesystem.GitFinding | security/firewall/core/src/detectors/filesystem.rs:251-289 | the finding for one walked .git directory, built from its exposed files and whether its config has credentials |
| Filesystem.GitFindingFrom | security/firewall/core/src/detectors/filesystem.rs:270-288 | the git finding: type git_directory_exposed, confidence 0.95, Critical with credentials and High without, and the matching description |
| Filesystem.InSuspiciousDir | security/firewall/core/src/detectors/filesystem.rs:323-325 | a path is in a suspicious directory when its lower-cased text contains temp, tmp, .cache, hidden, data or uploads |
| Filesystem.AnyInSuspiciousDir | security/firewall/core/src/detectors/filesystem.rs:324-326 | some collected screenshot path is in a suspicious directory |
| Filesystem.TotalSize | security/firewall/core/src/detectors/filesystem.rs:314-316 | the sum of the sizes of the screenshots whose metadata could be read; the others add nothing |
| Filesystem.TenthsOfMegabyte | security/firewall/core/src/detectors/filesystem.rs:344-347 | the number of tenths of a megabyte lies within half a tenth of the exact value, and is even on an exact tie |
| Filesystem.TenthsUnique | security/firewall/core/src/detectors/filesystem.rs:344-347 | any tenth count within half a tenth of the exact value, and even on a tie, is the one TenthsOfMegabyte gives, so the rounding is fully determined |
| Filesystem.OneDecimalMegabytes | security/firewall/core/src/detectors/filesystem.rs:345 | the one-decimal text of the megabyte count: the whole megabytes, a point and the tenths digit of the rounded value |
| Filesystem.OneDecimalExamples | security/firewall/core/src/detectors/filesystem.rs:345 | ties go to the even tenth (0.25 MB gives "0.2", 0.35 MB gives "0.4"); zero gives "0.0"; 12.349999 MB gives "12.3" |
| Filesystem.ScreenshotFinding | security/firewall/core/src/detectors/filesystem.rs:328-350 | the collection finding: the count, the exact megabytes, at most five sample paths, confidence 0.9 or 0.75 by directory, Critical above twenty or in a suspicious directory and High otherwise, and the description with the one-decimal size |
| Filesystem.MatchesSensitive | security/firewall/core/src/detectors/filesystem.rs:372 | an entry matches a sensitive name when its file name equals it or its path ends with it |
| Filesystem.SensitiveFinding | security/firewall/core/src/detectors/filesystem.rs:373-386 | the sensitive-file finding: type sensitive_file_exposed, the matched name and the path, confidence 0.95, Critical |
| Filesystem.SensitiveFindings | security/firewall/core/src/detectors/filesystem.rs:360-391 | each walked entry contributes the finding for its first matching sensitive name, in walk order |
| Filesystem.TraversalName | security/firewall/core/src/detectors/filesystem.rs:411 | a file name shows traversal when it contains "..", "./" or "/." |
| Filesystem.TraversalFinding | security/firewall/core/src/detectors/filesystem.rs:412-425 | the traversal finding: type path_traversal_filename, the name and path, confidence 0.9, High |
| Filesystem.TraversalFindings | security/firewall/core/src/detectors/filesystem.rs:400-428 | one finding per walked entry whose name shows traversal, in walk order |
| Filesystem.Analysis | security/firewall/core/src/detectors/filesystem.rs:434-445 | the hidden, git, screenshot, sensitive and traversal findings concatenated in that order |
| ChainLayers.MasterKeySum | security/chain/verifier.py:41-42 | the master key has five bytes summing to 23, the stated key sum |
| ChainLayers.BaconBits | security/chain/verifier.py:62-63 | `width` symbols, each 'A' or 'B' |
| ChainLayers.BaconBitsDecode | security/chain/verifier.py:62-63 | reading the symbols as binary digits gives back the number |
| ChainLayers.BaconCodeDecodes | security/chain/verifier.py:62-63 | each letter's five-symbol code reads back as its index, so the 26 codes are distinct |
| ChainLayers.Letters | security/chain/verifier.py:65-67 | keeps only upper-case letters, never lengthening the text |
| ChainLayers.Bacon | security/chain/verifier.py:60-68 | five 'A'/'B' symbols per letter of the text |
| ChainLayers.BaconRoundTrip | security/chain/verifier.py:60-68 | decoding the Bacon string five symbols at a time gives back exactly the text's letters |
| ChainLayers.DecodeAppend | security/chain/verifier.py:60-68 | decoding a Bacon string with one more five-symbol group appended adds exactly the letter that group stands for, or "?" for a value of 26 or more |
| ChainLayers.Layer1Bacon | security/chain/verifier.py:60-68 | the loop over the upper-cased text appends the code of each letter and skips other characters |
| ChainLayers.Layer2Xor | security/chain/verifier.py:70-72 | one output byte per input byte |
| ChainLayers.Layer2Involution | security/chain/verifier.py:70-72 | XOR with the same key twice gives the input back |
| ChainLayers.Layer3Golden | security/chain/verifier.py:74-76 | the product modulo 2^32 is below 2^32 |
| ChainLayers.GoldenMultipleOf4 | security/chain/verifier.py:74-76 | the golden seed is a multiple of 4, so every result is |
| ChainLayers.GoldenPeriod | security/chain/verifier.py:74-76 | values 2^30 apart give the same result: the layer is not one-to-one |
| ChainLayers.ModPeriod | security/chain/verifier.py:74-76 | adding a multiple of 2^32 does not change the value modulo 2^32 |
| ChainLayers.GridIndex | security/chain/verifier.py:81-85 | position k of the column-major reading lies inside the row-major grid |
| ChainLayers.ColumnIndex | security/chain/verifier.py:83-85 | row `row`, column `col` is read at position col * rows + row |
| ChainLayers.SourceIndex | security/chain/verifier.py:83-85 | the grid position that output k reads lies inside the grid |
| ChainLayers.Transpose | security/chain/verifier.py:81-86 | the column-major reading of a rows x cols grid has rows * cols characters |
| ChainLayers.TransposeAt | security/chain/verifier.py:83-85 | output col * rows + row is grid cell (row, col) |
| ChainLayers.SourceIndexInverse | security/chain/verifier.py:83-85 | reading the output as a cols x rows grid undoes the index map |
| ChainLayers.TransposeInverse | security/chain/verifier.py:78-86 | transposing back with the dimensions swapped restores the text |
| ChainLayers.TransposePermutes | security/chain/verifier.py:78-86 | the transposition only moves characters |
| ChainLayers.Xs | security/chain/verifier.py:80 | n padding letters 'X' |
| ChainLayers.BoxPadded | security/chain/verifier.py:80 | `ljust(n, 'X')[:n]`: the text's first n characters, then 'X' up to length n |
| ChainLayers.Box | security/chain/verifier.py:78-86 | rows * cols characters for a positive grid, and the empty string otherwise |
| ChainLayers.BoxInverse | security/chain/verifier.py:78-86 | a text that fills the grid is restored by the box with the dimensions swapped |
| ChainLayers.BoxFrom | security/chain/verifier.py:78-86 | every output character is a character of the text or the padding 'X' |
| ChainLayers.Layer4Box | security/chain/verifier.py:78-86 | the two nested loops compute the box |
| ChainLayers.BoxColumn | security/chain/verifier.py:84-85 | the inner loop reads column `col` of the grid top to bottom |
| ChainLayers.PadCount | security/chain/verifier.py:90-91 | fewer than d letters make the length a multiple of d |
| ChainLayers.ScytalePadded | security/chain/verifier.py:90-91 | the text followed by fewer than d letters 'X', a multiple of d long |
| ChainLayers.PadCountLeast | security/chain/verifier.py:90-91 | the pad count is the least number of letters that makes a multiple of d |
| ChainLayers.PadToMultiple | security/chain/verifier.py:90-91 | the padding loop stops at the padded text |
| ChainLayers.Scytale | security/chain/verifier.py:88-96 | as many characters as the padded text |
| ChainLayers.ScytalePermutes | security/chain/verifier.py:88-96 | the reading keeps every character of the padded text and adds none |
| ChainLayers.ScytaleFrom | security/chain/verifier.py:88-96 | every output character is a character of the text or 'X' |
| ChainLayers.ScytaleOfFullRows | security/chain/verifier.py:88-96 | a text whose length is already a multiple of d is only rearranged |
| ChainLayers.ReadColumn | security/chain/verifier.py:94-95 | the inner loop collects every d-th character from i on |
| ChainLayers.ReadColumns | security/chain/verifier.py:93-95 | the outer loop yields the column-major reading of the padded text |
| ChainLayers.Layer5Scytale | security/chain/verifier.py:88-96 | a zero diameter raises (None), a negative one gives the empty string, a positive one the scytale |
| ChainLayers.Layer6Md5 | security/chain/verifier.py:98-100 | 32 lower-case hex digits that decode back to the digest |
| ChainLayers.Layer8Sha256 | security/chain/verifier.py:111-113 | 64 lower-case hex digits that decode back to the digest |
| ChainLayers.ClampBytes | security/chain/verifier.py:105-108 | low three bits of byte 0 cleared, bit 7 of byte 31 cleared and bit 6 set, all other bits kept |
| ChainLayers.ClampIdempotent | security/chain/verifier.py:105-108 | clamping a clamped key changes nothing |
| ChainLayers.Layer7Derive | security/chain/verifier.py:102-109 | 32 bytes, clamped, equal to the SHA-512 digest elsewhere |
| ChainLayers.MasterKeyAt | security/chain/verifier.py:119 | byte i of the master key repeated with period five |
| ChainLayers.CombinedXor | security/chain/verifier.py:115-121 | byte i is the input byte XOR the repeated master key XOR the single key |
| ChainLayers.CombinedXorInvolution | security/chain/verifier.py:115-121 | applying the layer twice gives the input back |
| ChainLayers.CombinedXorChangesEveryByte | security/chain/verifier.py:115-121 | no master-key byte equals the single key, so every byte changes |
| ChainLayers.Layer9CombinedXor | security/chain/verifier.py:115-121 | the in-place loop over the buffer computes the combined XOR |
| ChainLayers.Layer10Berlin | security/chain/verifier.py:123-128 | hours below 24, minutes and seconds below 60 |
| ChainLayers.BerlinTimeOfDay | security/chain/verifier.py:123-128 | the three parts name the value's time of day modulo 86400 seconds |
| ChainLayers.GridCell | security/chain/verifier.py:192-195 | coordinates inside the 64 x 32 x 64 grid |
| ChainLayers.GridCellDecomposes | security/chain/verifier.py:192-195 | the coordinates are the digits of the reduced index |
| ChainLayers.GridCellInjective | security/chain/verifier.py:192-195 | different indices below the cell count land in different cells |
| ChainLayers.IsUpperLetter | security/chain/verifier.py:65-66 | the Bacon table's keys are the upper-case letters A to Z |
| ChainLayers.BaconCode | security/chain/verifier.py:62-63 | the code of a letter is five symbols |
| ChainLayers.BaconValue | security/chain/verifier.py:62 | the number a string of A and B symbols writes in binary, B being 1 |
| ChainLayers.BaconDecode | security/chain/verifier.py:62-63 | a Bacon text read back five symbols at a time, a group that is no letter's code reading as '?' |
| ChainVerifier.Take | security/chain/verifier.py:143-147 | `s[:n]`: the first n elements, or all of a shorter sequence |
| ChainVerifier.Encode | security/chain/verifier.py:146 | `str.encode()` of an ASCII text: one byte per character, with its code |
| ChainVerifier.Pad4 | security/chain/verifier.py:150 | `ljust(4, b'\x00')`: the bytes followed by zeros up to four |
| ChainVerifier.HexOrXIsAscii | security/chain/verifier.py:155-163 | hex text padded with 'X' encodes without error |
| ChainVerifier.XorStage | security/chain/verifier.py:146 | layer 2 XORs each byte of the encoded Bacon text with the key |
| ChainVerifier.GoldenStage | security/chain/verifier.py:150-151 | layer 3 gives a 32-bit multiple of 4 |
| ChainVerifier.BoxStage | security/chain/verifier.py:155 | layer 4 is 42 characters, each a hex digit of layer 2 or 'X' |
| ChainVerifier.ScytaleStage | security/chain/verifier.py:159 | with diameter 3 the 42 characters fill whole rows, so layer 5 only rearranges them |
| ChainVerifier.KeyStage | security/chain/verifier.py:184-186 | the 32-byte final key, unmasked by the coordinate byte, is the SHA-256 digest of layer 9 |
| ChainVerifier.ChainOf | security/chain/verifier.py:142-195 | the Bacon and scytale texts are ASCII, layer 9 and the key are 32 bytes, and the clock is a time of day |
| ChainVerifier.BaconState | security/chain/verifier.py:143 | the Bacon text when at most 64 long, otherwise its first 64 characters and "..." |
| ChainVerifier.ClockText | security/chain/verifier.py:181 | `HH:MM:SS`, each part two digits |
| ChainVerifier.CellText | security/chain/verifier.py:196 | `(x,y,z)` in parentheses |
| ChainVerifier.StatesOf | security/chain/verifier.py:139-196 | the dictionary has exactly the recorded keys |
| ChainVerifier.RunLayers | security/chain/verifier.py:141-195 | the sequence of layer computations yields the chain of the seed |
| ChainVerifier.ProcessChain | security/chain/verifier.py:134-198 | the states dictionary of the seed's chain |
| ChainVerifier.ChainKeyUnmasks | security/chain/verifier.py:184-189 | the chain key is 64 hex digits that decode to the key, unmasked gives the layer-9 digest, and the short key is its first 16 digits |
| ChainVerifier.ChainXorBytes | security/chain/verifier.py:142-146 | layer 2 has five bytes per letter of the seed, each 8 or 11 |
| ChainVerifier.ChainNumbers | security/chain/verifier.py:150-195 | the golden state is a 32-bit multiple of 4, the clock is the time of day of layer 9's first four bytes, and the cell is the digits of the key's first three bytes |
| ChainVerifier.ChainDigests | security/chain/verifier.py:162-176 | layers 7 and 9 run on the decoded digests, and layer 9 unmasks back to the SHA-256 digest |
| ChainVerifier.HashFile | security/chain/verifier.py:204-210 | "MISSING" exactly when the file cannot be read; otherwise 64 hex digits decoding to its digest |
| ChainVerifier.VerifyFile | security/chain/verifier.py:212-226 | verified exactly when the file can be read, with a 64-digit hash, a 16-digit key and an 8-character clock |
| ChainVerifier.ChainReport | security/chain/verifier.py:218-226 | a verified report carrying the file and its hash |
| ChainVerifier.VerifiedCount | security/chain/verifier.py:260 | never more than the number of reports |
| ChainVerifier.AllHashesLength | security/chain/verifier.py:250 | the joined hashes take 64 characters per verified report |
| ChainVerifier.AllVerified | security/chain/verifier.py:259-260 | the verified count equals the file count exactly when every report is verified |
| ChainVerifier.GenerateManifest | security/chain/verifier.py:245-264 | the manifest lists the reports and their count, verified count at most file count, with a 64-digit master key |
| ChainVerifier.ManifestCounts | security/chain/verifier.py:245-264 | for reports of `verify_file`, the joined hash has 64 characters per verified file, and every file counts exactly when every file is readable |
| ChainVerifier.JoinPath | security/chain/verifier.py:283 | the joined path ends with the name |
| ChainVerifier.CountReadable | security/chain/verifier.py:281-289 | never more than the number of names |
| ChainVerifier.CountReadableAll | security/chain/verifier.py:281-297 | the count reaches the number of names exactly when every joined path is readable |
| ChainVerifier.IsVerified | security/chain/verifier.py:284-285 | true exactly when the file can be read |
| ChainVerifier.CountVerified | security/chain/verifier.py:281-289 | the loop counts the readable critical files |
| ChainVerifier.VerifyBuild | security/chain/verifier.py:266-297 | true exactly when no saved key differs from the current master key and every critical file can be read |
| ChainVerifier.IsAscii | security/chain/verifier.py:146 | every character of the text is below 128, so encoding it gives one byte per character |
| ChainVerifier.AllHashes | security/chain/verifier.py:250 | the hashes of the verified reports joined in order |
| DesktopApp.Hex3 | apps/tauri/src-tauri/src/main.rs:72 | `{:03X}`: three upper-case hex digits |
| DesktopApp.ThreeDigits | apps/tauri/src-tauri/src/main.rs:68 | `from_str_radix(_, 16)` reads three digits most significant first |
| DesktopApp.UpperDigitValue | apps/tauri/src-tauri/src/main.rs:68-72 | each upper-case digit written reads back as its value |
| DesktopApp.Hex3Parses | apps/tauri/src-tauri/src/main.rs:68-72 | a written code parses back as the value it was written from |
| DesktopApp.PrevPart | apps/tauri/src-tauri/src/main.rs:67-69 | the previous code's base-16 `u32` value, or 0 when there is none or it does not parse |
| DesktopApp.XorValue | apps/tauri/src-tauri/src/main.rs:57-71 | the masked XOR of the digest's first four bytes, the millisecond clock and the previous part is below 0x1000 |
| DesktopApp.GenerateXor | apps/tauri/src-tauri/src/main.rs:56-73 | three upper-case hex digits that parse back as the 12-bit XOR value |
| DesktopApp.UnparsablePrevious | apps/tauri/src-tauri/src/main.rs:67-69 | an unparsable previous code counts as none |
| DesktopApp.HashContent | apps/tauri/src-tauri/src/main.rs:76-81 | 32 lower-case hex digits decoding to the first 16 digest bytes |
| DesktopApp.Route | apps/tauri/src-tauri/src/main.rs:134-138 | "claude" exactly for a prompt over 100 bytes or containing "redesign" or "analyze", "tiny" otherwise |
| DesktopApp.AnalysisGoesLarge | apps/tauri/src-tauri/src/main.rs:134 | any prompt containing "analyze" is routed to "claude" |
| DesktopApp.Response | apps/tauri/src-tauri/src/main.rs:144-145 | the reply quotes the action after "Processed '" |
| DesktopApp.AppState.constructor | apps/tauri/src-tauri/src/main.rs:234-239 | the empty chain, no nodes, no boot code, not initialized; the invariant holds |
| DesktopApp.AppState.CurrentStatus | apps/tauri/src-tauri/src/main.rs:106-116 | the status reports the fields, the chain's length and the fixed mode and licence |
| DesktopApp.AppState.Chain | apps/tauri/src-tauri/src/main.rs:189-192 | a copy of the chain, element by element |
| DesktopApp.AppState.Last | apps/tauri/src-tauri/src/main.rs:122 | the chain's last code, None exactly when it is empty |
| DesktopApp.AppState.Initialize | apps/tauri/src-tauri/src/main.rs:85-104 | the boot code of "boot:" and the time with no previous code is stored and appended; the fixed status is returned |
| DesktopApp.AppState.ProcessInteraction | apps/tauri/src-tauri/src/main.rs:118-149 | the prompt's code chained on the last one is appended, the node count grows by one modulo 2^32, and the route and reply follow the prompt |
| DesktopApp.Outcome | apps/tauri/src-tauri/src/main.rs:122-148 | the code, route and reply of one interaction; the code is a valid chain element |
| DesktopApp.AppendCode | apps/tauri/src-tauri/src/main.rs:128 | appending a code keeps every chain element a code and the boot code in the chain |
| DesktopApp.CodeParses | apps/tauri/src-tauri/src/main.rs:67-69 | every chain element parses, so a chained code never falls back to 0 |
| DesktopApp.IsCode | apps/tauri/src-tauri/src/main.rs:71-72 | a chain element is three upper-case hex digits, as "{:03X}" of a value below 0x1000 prints |
| DesktopApp.AppState.Valid | apps/tauri/src-tauri/src/main.rs:85-149 | every chain element is a code, the node count fits a u32, and once initialized the boot code is in the chain |
| Genesis.CheckedAdd | infra/solana/gentlyos-genesis/programs/gentlyos-genesis/src/lib.rs:83-84 | a u64 sum is Some exactly when it stays below 2^64, and then it is the sum |
| Genesis.CheckedSub | infra/solana/gentlyos-genesis/programs/gentlyos-genesis/src/lib.rs:200 | a u64 difference is Some exactly when it does not go below zero, and then it is the difference |
| Genesis.MintTotals | infra/solana/gentlyos-genesis/programs/gentlyos-genesis/src/lib.rs:81-84 | a failed mint_to aborts; otherwise the layer's supply grows by the value and the wallet count by one, or the instruction aborts on overflow; nothing else changes |
| Genesis.ReplayCounts | infra/solana/gentlyos-genesis/programs/gentlyos-genesis/src/lib.rs:54-143 | over any run of mints the wallet counter counts exactly the mints that went through, each supply grows by exactly their value in its layer, and no other field changes |
| Genesis.GenesisAccount.Initialize | infra/solana/gentlyos-genesis/programs/gentlyos-genesis/src/lib.rs:20-51 | the account records version, serial, block hash and height, authority and mints, the clock, spawn order 1, all totals 0 and initialized |
| Genesis.Wallet.constructor | infra/solana/gentlyos-genesis/programs/gentlyos-genesis/src/lib.rs:412-422 | a wallet account holding the given fields |
| Genesis.MintOsWallet | infra/solana/gentlyos-genesis/programs/gentlyos-genesis/src/lib.rs:54-96 | on success a fresh frozen Os wallet owned by the genesis account with the path, value, block and clock, and the genesis totals as MintTotals says; on failure the genesis account is unchanged |
| Genesis.MintUserWallet | infra/solana/gentlyos-genesis/programs/gentlyos-genesis/src/lib.rs:99-143 | on success a fresh unfrozen User wallet owned by the user with its parent recorded, and the genesis totals as MintTotals says; on failure the genesis account is unchanged |
| Genesis.Transfer | infra/solana/gentlyos-genesis/programs/gentlyos-genesis/src/lib.rs:172-214 | InvalidWalletType unless both wallets are User; success exactly when the token transfer succeeds and neither value leaves u64; then only the two values change, by the amount |
| Genesis.TransferConserves | infra/solana/gentlyos-genesis/programs/gentlyos-genesis/src/lib.rs:172-201 | a successful transfer keeps the sum of the two values |
| Genesis.OsWalletsNeverTransfer | infra/solana/gentlyos-genesis/programs/gentlyos-genesis/src/lib.rs:180-187 | any transfer touching an Os wallet fails with InvalidWalletType |
| Genesis.SelfTransferAsWritten | infra/solana/gentlyos-genesis/programs/gentlyos-genesis/src/lib.rs:172-214 | with one wallet passed as both sides, the copy written back last keeps only its raised value |
| Genesis.SelfTransferInflates | infra/solana/gentlyos-genesis/programs/gentlyos-genesis/src/lib.rs:200-201 | a User wallet holding 1 that sends 1 to itself ends holding 2 |
| Genesis.TransferUserTokens | infra/solana/gentlyos-genesis/programs/gentlyos-genesis/src/lib.rs:172-214 | one wallet on both sides is refused with nothing changed; otherwise the two wallets change exactly as Transfer says, or not at all on error, and a success keeps their sum |
| Genesis.Checkpoint.Record | infra/solana/gentlyos-genesis/programs/gentlyos-genesis/src/lib.rs:146-170 | a fresh checkpoint copying its name, hash, height, data, the clock and the genesis key |
| Genesis.AuditLog.Record | infra/solana/gentlyos-genesis/programs/gentlyos-genesis/src/lib.rs:216-244 | a fresh audit record copying its event type, target, actor key, hash, height and the clock |
| Genesis.Replay | infra/solana/gentlyos-genesis/programs/gentlyos-genesis/src/lib.rs:54-143 | the genesis counters after a run of mints, each applied when its additions do not overflow and dropped when the instruction aborts |
| Genesis.Accepted | infra/solana/gentlyos-genesis/programs/gentlyos-genesis/src/lib.rs:83-84 | how many of a run of mints go through, and the total value of those minted in one layer |
| Bytes.Hex | apps/tauri/src-tauri/src/main.rs:80 | two lower-case hex digits per byte |
| Bytes.UnhexHex | security/chain/verifier.py:167-175 | `bytes.fromhex` of a hex digest gives back the digest |
| Bytes.HexDigit | security/chain/verifier.py:147 | the lower-case hex digit of a value below 16 |
| Bytes.HexDigitUpper | apps/tauri/src-tauri/src/main.rs:72 | the upper-case hex digit of a value below 16 is an upper-case hex character |
| Bytes.HexValue | security/chain/verifier.py:167 | the value of a hex digit of either case is below 16; any other character has none |
| Bytes.Unhex | security/chain/verifier.py:167 | decoding pairs of hex digits gives half as many bytes as digits, or fails |
| Bytes.BigEndian | security/chain/verifier.py:179 | the big-endian value of a byte sequence |
| Bytes.BigEndianBound | security/chain/verifier.py:179 | the big-endian value of k bytes is below 256^k |
| Bytes.XorAll | security/chain/verifier.py:186 | every byte exclusive-or'ed with the key, the length unchanged |
| Text.Position | security/firewall/core/src/detectors/stego.rs:33-35 | the first occurrence at or after the start, and none earlier; None iff there is no occurrence |
| Text.RPosition | security/firewall/core/src/detectors/stego.rs:62 | the last occurrence, and none later; None iff there is no occurrence |
| Text.StartsWith | security/firewall/core/src/detectors/filesystem.rs:203 | the text begins with the prefix |
| Text.EndsWith | security/firewall/core/src/detectors/filesystem.rs:372 | the text ends with the suffix |
| Text.Contains | security/firewall/core/src/detectors/filesystem.rs:210-215 | the pattern occurs somewhere in the text |
| Text.Lower | security/firewall/core/src/detectors/cipher.rs:276 | the text with its ASCII capitals lower-cased, every other character kept |
| Text.Upper | security/chain/verifier.py:65 | the text with its ASCII small letters upper-cased, every other character kept |
| Text.IsWhitespace | security/firewall/core/src/detectors/stego.rs:98 | the Unicode White_Space characters |
| Text.Utf8Len | security/firewall/core/src/detectors/network.rs:64 | a character takes one to four bytes in UTF-8 |
| Text.ByteLen | security/firewall/core/src/detectors/network.rs:64 | the UTF-8 byte length of a text is between its character count and four times it |
| Text.NatToString | security/firewall/core/src/detectors/filesystem.rs:345 | the decimal text of a number is at least one digit and made only of digits |
| Text.NatList | security/firewall/core/src/detectors/cipher.rs:145 | the debug text of a list of numbers: decimal items separated by ", " inside brackets |
| Text.TwoDigits | security/chain/verifier.py:181 | a value below 100 as exactly two decimal digits |
| Text.FirstPiece | security/firewall/core/src/detectors/network.rs:59 | the longest prefix without the separator; when shorter than the text, the separator follows it |
| Text.RemoveAll | security/firewall/core/src/detectors/cipher.rs:161 | every non-overlapping occurrence removed from left to right, never lengthening the text |
| Text.RemoveAllAbsent | security/firewall/core/src/detectors/cipher.rs:161 | removing a pattern that does not occur leaves the text unchanged |
| Text.Split | security/firewall/core/src/detectors/network.rs:126 | at least one piece, none containing the separator |
| Text.SplitJoin | security/firewall/core/src/detectors/network.rs:126 | splitting loses nothing: joining the pieces with the separator gives the text back |
| Text.Lines | security/firewall/core/src/detectors/stego.rs:97 | the lines, none containing a line feed, with a trailing carriage return dropped and no empty last line after a final line ending |
| Text.LinesAsSplit | security/firewall/core/src/detectors/stego.rs:97 | a non-empty text without carriage returns or a final line ending has as its lines the pieces of splitting at line feeds |
| Numeric.ParseUnsigned | apps/tauri/src-tauri/src/main.rs:68 | `from_str_radix` fails on the empty string, and a parsed value is below the type's limit |
| Numeric.ParseFailsOnNonDigit | apps/tauri/src-tauri/src/main.rs:68 | a character that is not a digit, other than a leading '+', makes parsing fail |
| Numeric.DigitValue | apps/tauri/src-tauri/src/main.rs:68 | a character's value as a digit of the radix is below the radix, letters of either case counting from 10 |
| Numeric.DigitsValue | apps/tauri/src-tauri/src/main.rs:68 | the value of a run of digits in the radix, or none when a character is not a digit |
| Numeric.DigitsValueFailsOnNonDigit | apps/tauri/src-tauri/src/main.rs:68 | one character that is not a digit makes the value of the run fail |
| Numeric.Share | security/firewall/core/src/detectors/network.rs:47 | the share of a part in a non-empty whole lies in [0, 1], is positive for a positive part, and times the whole gives the part |

## Left out

- File and directory I/O is not modelled. This covers `WalkDir`, `fs::read`, `canonicalize`, `read_link`, `scan_directory` and manifest writing. Detectors receive what they would have read as inputs.
- `verify_build` reads the saved manifest with `json.load` (security/chain/verifier.py:270-274). The model takes its `master_key` as already read. It leaves out the exceptions raised by a manifest that is not valid JSON and by one without a "master_key" key.
- ChainLayers.Layer2Xor: the key is a byte. Python's `layer2_xor` takes any integer and raises ValueError from `bytes(...)` for a key outside 0..255 (security/chain/verifier.py:70-72). The chain only uses the key 73.
- Symlink detection is left out, including its 0.7 confidence Low findings (security/firewall/core/src/detectors/filesystem.rs:70-191). It depends entirely on reading links from the file system.
- The regular-expression engine is not modelled. Its matches are inputs, already extracted.
- The analyses of the obfuscation, temporal, injection and SVG detectors are left out. They are regular-expression matches with fixed severity and confidence ladders. Only their registry entries are modelled.
- `check_constant` and `detect_math_constants` are left out (security/firewall/core/src/detectors/cipher.rs:71-85). They compare floating-point values against tolerances.
- Floating point is modelled as exact reals. This covers `f32` confidences, the average in `with_findings` and the `total_size_mb` value. The one rounding the model states is the `{:.1}` text in the screenshot description, taken on the exact quotient.
- Filesystem.OneDecimalMegabytes: rounds the exact value `bytes / 1000000` to the nearest tenth, a tie going to the even tenth. The source formats the `f64` quotient, which is not always the exact value. On a tie that `f64` cannot hold exactly, the result can differ: for 150000 bytes the quotient is stored just below 0.15, so the source prints "0.1" where the model prints "0.2". A byte count of 2^53 or more is also rounded when converted to `f64`, and the model does not follow that either.
- Filesystem.ScreenshotFindings: its description carries the megabyte text of Filesystem.OneDecimalMegabytes, with that one's gap on `f64` ties.
- Filesystem.DetectScreenshotCollection: its findings are those of Filesystem.ScreenshotFindings, with the same gap in the megabyte text.
- Filesystem.TotalSize: sums the sizes as unbounded numbers. The source adds them into a `u64` (security/firewall/core/src/detectors/filesystem.rs:299-315), which could only overflow past 2^64 bytes in total.
- Hashes (MD5, SHA-256, SHA-512) are uninterpreted functions. The properties proved hold for any hash function of the right digest size.
- Clocks (`datetime.utcnow`, `SystemTime::now`, `chrono::Utc::now`, `Clock::get`) are parameters. ISO timestamps are passed in as text.
- The Mutex locking of the desktop state is not modelled, and neither is the gap between releasing and re-taking the chain lock. Each command is one atomic step.
- The desktop's `parse_codie` and `hydrate_codie` are left out. They are regular-expression matching plus HTML formatting.
- Printing is left out. This covers colour, banners, JSON pretty-printing, command-line argument parsing and the process exit code.
- Solana is simplified:
  - Token-program calls (`mint_to`, `transfer`) are booleans saying whether they succeed.
  - `emit!` events and account sizes are left out.
  - Account creation and seeds are left out.
  - `u64` arithmetic is modelled with overflow checks on, as the Anchor workspace template builds it: an overflowing sum or difference aborts the instruction with nothing changed.
- Case folding is ASCII-only (`to_lowercase`, `to_uppercase`, `is_alphabetic`). Non-ASCII letters are treated as non-letters.
- A NaN confidence is not modelled. The in-place sort's `partial_cmp(...).unwrap()` would panic on it.
- Firewall.SortFindings: proves the result is ranked and a permutation of its input, not that equal findings keep their order (`sort_by` is stable).
- Registry.SkillRegistry.List: states only which names are listed, each once, because a `HashMap`'s iteration order is unspecified. The same holds for Registry.SkillRegistry.Schemas, Registry.SkillRegistry.ScanAll, Registry.SkillRegistry.ExportSchemas and Firewall.MergeDefaultScan.
- Network.DetectHardcodedIps: states the reported addresses as a set, in some order, because the source collects them in a `HashSet`.
- Cipher.MostCommon: states that some key of largest count is chosen, not which one on a tie, because ties are broken by `HashMap` order.
- Cipher.DetectGuidPatterns: the GUID values are parsed once and shared by the four moduli, where the source re-parses them per modulus. The result is the same.
- Cipher.DetectSequencePatterns: the keyword table is a `HashMap`, so its findings are stated in some order of the table.
- Layer 5 (the scytale) with a negative diameter is stated by its result, the empty string, not by its padding loop.

## Findings

| source | as written | input that shows it | evidently intended | confidence | as-written member | corrected member |
|---|---|---|---|---|---|---|
| infra/solana/gentlyos-genesis/programs/gentlyos-genesis/src/lib.rs:172-214 | `transfer_user_tokens` accepts the same wallet account as both `from_wallet` and `to_wallet` (lines 354-359 place no constraint between them). Each side is written back from its own copy, and the receiving copy keeps its raised value. | a User wallet holding 1 that transfers 1 to itself ends holding 2 | a fixed supply: a transfer never raises the sum of the wallet values | not executed; newer Anchor releases may reject the same mutable account passed twice before the instruction runs | Genesis.SelfTransferAsWritten, Genesis.SelfTransferInflates | Genesis.TransferUserTokens |
