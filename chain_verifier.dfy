/** The chain processor and the build verification of the verifier script: the ten
    layers run one after another, the per-file report, the manifest counts and the
    critical-file check. Hash functions, file reads and the clock are parameters. */
module ChainVerifier {
  import opened Wrappers
  import opened Bytes
  import opened Json
  import opened ChainLayers
  import Text

  /** The three `hashlib` digests the script uses. */
  datatype Hashes = Hashes(
    md5: seq<byte> -> Md5Digest,
    sha256: seq<byte> -> Sha256Digest,
    sha512: seq<byte> -> Sha512Digest)

  /** Python's `s[:n]`. */
  function Take<T>(s: seq<T>, n: nat): (r: seq<T>)
    ensures |r| == if |s| <= n then |s| else n
    ensures r == s[..|r|]
  {
    if |s| <= n then s else s[..n]
  }

  predicate IsAscii(s: string) {
    forall i :: 0 <= i < |s| ==> s[i] as int < 128
  }

  /** `str.encode()` of an ASCII text: one byte per character. */
  function Encode(s: string): (r: seq<byte>)
    requires IsAscii(s)
    ensures |r| == |s|
    ensures forall i :: 0 <= i < |s| ==> r[i] as int == s[i] as int
  {
    Latin1(s)
  }

  /** `b.ljust(4, b'\x00')` of at most four bytes. */
  function Pad4(b: seq<byte>): (r: seq<byte>)
    requires |b| <= 4
    ensures |r| == 4 && r[..|b|] == b
    ensures forall i :: |b| <= i < 4 ==> r[i] == 0
  {
    b + seq(4 - |b|, _ => 0)
  }

  const Coord4D: seq<nat> := [26, 11, 17, 929]

  /** `sum(COORD_4D) % 256`, the byte the final hash is masked with. */
  const CoordModifier: byte := ((Coord4D[0] + Coord4D[1] + Coord4D[2] + Coord4D[3]) % 256) as byte

  /** Every intermediate value of `process_chain`. */
  datatype Chain = Chain(
    l1: string, l2: seq<byte>, l3: nat, l4: string, l5: string, l6: string,
    l7: seq<byte>, l8: string, l9: seq<byte>, berlin: (nat, nat, nat),
    key: seq<byte>, cell: (nat, nat, nat))

  /** The hex text of the bytes, or the letter X, is ASCII. */
  lemma HexOrXIsAscii(s: string, bs: seq<byte>)
    requires forall k :: 0 <= k < |s| ==> s[k] == 'X' || s[k] in Hex(bs)
    ensures IsAscii(s)
  {
    forall k | 0 <= k < |s| ensures s[k] as int < 128 {
      if s[k] != 'X' {
        var j :| 0 <= j < |Hex(bs)| && Hex(bs)[j] == s[k];
        assert IsLowerHexChar(Hex(bs)[j]);
      }
    }
  }

  /** Layer 2 on the encoded Bacon text. */
  function XorStage(l1: string): (l2: seq<byte>)
    requires IsAscii(l1)
    ensures |l2| == |l1|
    ensures forall i :: 0 <= i < |l1| ==> l2[i] == Encode(l1)[i] ^ XorKey
  {
    Layer2Xor(Encode(l1), XorKey)
  }

  /** Layer 3 on the first four bytes of layer 2, zero-filled. */
  function GoldenStage(l2: seq<byte>): (l3: nat)
    ensures l3 < Modulus32 && l3 % 4 == 0
  {
    var v := BigEndian(Pad4(Take(l2, 4)));
    GoldenMultipleOf4(v);
    Layer3Golden(v)
  }

  /** Layer 4 on the hex text of layer 2, as a 3 x 14 grid. */
  function BoxStage(l2: seq<byte>): (l4: string)
    ensures |l4| == 42
    ensures forall k :: 0 <= k < |l4| ==> l4[k] == 'X' || l4[k] in Hex(l2)
  {
    BoxFrom(Hex(l2), 3, 14);
    Box(Hex(l2), 3, 14)
  }

  /** Layer 5 with the first master-key digit as diameter: 42 characters fill whole
      rows of 3, so nothing is padded and the characters are only moved. */
  function ScytaleStage(l4: string): (l5: string)
    requires |l4| == 42
    ensures |l5| == 42 && multiset(l5) == multiset(l4)
    ensures forall k :: 0 <= k < |l5| ==> l5[k] == 'X' || l5[k] in l4
  {
    ScytaleOfFullRows(l4, 3);
    ScytaleFrom(l4, 3);
    Scytale(l4, MasterKey[0] as nat)
  }

  /** The final key: the SHA-256 digest of layer 9, re-read from its hex text and
      masked with the coordinate byte; masking again gives the digest back. */
  function KeyStage(l9: seq<byte>, h: Hashes): (key: seq<byte>)
    ensures |key| == 32
    ensures XorAll(key, CoordModifier) == h.sha256(l9)
  {
    var d := h.sha256(l9);
    UnhexHex(d);
    Layer2Involution(d, CoordModifier);
    XorAll(Unhex(Hex(d)).value, CoordModifier)
  }

  /** The ten layers on a seed text, each fed the previous one's output as the
      script feeds it. */
  function ChainOf(seed: string, h: Hashes): (c: Chain)
    ensures IsAscii(c.l1) && IsAscii(c.l5) && |c.l9| == 32 && |c.key| == 32
    ensures c.berlin.0 < 24 && c.berlin.1 < 60 && c.berlin.2 < 60
  {
    var l1 := Bacon(Text.Upper(seed));
    assert IsAscii(l1);
    var l2 := XorStage(l1);
    var l4 := BoxStage(l2);
    var l5 := ScytaleStage(l4);
    HexOrXIsAscii(l5, l2);
    var l6 := Layer6Md5(Encode(l5), h.md5);
    var l7 := Layer7Derive(Unhex(l6).value, h.sha512);
    var l8 := Layer8Sha256(l7, h.sha256);
    var l9 := CombinedXor(Unhex(l8).value);
    var key := KeyStage(l9, h);
    Chain(l1, l2, GoldenStage(l2), l4, l5, l6, l7, l8, l9, Layer10Berlin(BigEndian(l9[..4])), key,
          GridCell(BigEndian(key[..3])))
  }

  /** `l1[:64] + "..."` when the Bacon text is longer than 64, else all of it. */
  function BaconState(l1: string): (r: string)
    ensures |l1| <= 64 ==> r == l1
    ensures |l1| > 64 ==> |r| == 67 && r[..64] == l1[..64] && r[64..] == "..."
  {
    if |l1| > 64 then l1[..64] + "..." else l1
  }

  /** `f"{h:02d}:{m:02d}:{s:02d}"`. */
  function ClockText(hms: (nat, nat, nat)): (r: string)
    requires hms.0 < 100 && hms.1 < 100 && hms.2 < 100
    ensures |r| == 8 && r[2] == ':' && r[5] == ':'
    ensures r[..2] == Text.TwoDigits(hms.0) && r[3..5] == Text.TwoDigits(hms.1)
    ensures r[6..] == Text.TwoDigits(hms.2)
  {
    Text.TwoDigits(hms.0) + ":" + Text.TwoDigits(hms.1) + ":" + Text.TwoDigits(hms.2)
  }

  /** `f"({x},{y},{z})"`. */
  function CellText(xyz: (nat, nat, nat)): (r: string)
    ensures |r| >= 7 && r[0] == '(' && r[|r| - 1] == ')'
  {
    "(" + Text.NatToString(xyz.0) + "," + Text.NatToString(xyz.1) + ","
      + Text.NatToString(xyz.2) + ")"
  }

  const StateKeys: set<string> := {
    "input", "timestamp", "L1_bacon", "L2_xor", "L3_golden", "L4_box", "L5_scytale",
    "L6_md5", "L7_ed25519", "L8_sha256", "L9_combined", "L10_berlin", "chain_key",
    "chain_key_short", "grid_cell"}

  /** The `states` dictionary `process_chain` returns for a chain. */
  function StatesOf(seed: string, timestamp: string, c: Chain): (states: map<string, Json>)
    requires c.berlin.0 < 100 && c.berlin.1 < 100 && c.berlin.2 < 100
    ensures states.Keys == StateKeys
  {
    map[
      "input" := Str(seed),
      "timestamp" := Str(timestamp),
      "L1_bacon" := Str(BaconState(c.l1)),
      "L2_xor" := Str(Take(Hex(c.l2), 32)),
      "L3_golden" := Num(c.l3 as real),
      "L4_box" := Str(Take(c.l4, 32)),
      "L5_scytale" := Str(Take(c.l5, 32)),
      "L6_md5" := Str(c.l6),
      "L7_ed25519" := Str(Take(Hex(c.l7), 32)),
      "L8_sha256" := Str(c.l8),
      "L9_combined" := Str(Take(Hex(c.l9), 32)),
      "L10_berlin" := Str(ClockText(c.berlin)),
      "chain_key" := Str(Hex(c.key)),
      "chain_key_short" := Str(Take(Hex(c.key), 16)),
      "grid_cell" := Str(CellText(c.cell))]
  }

  /** The layer computations of `process_chain`, one after another. */
  method RunLayers(seed: string, h: Hashes) returns (c: Chain)
    ensures c == ChainOf(seed, h)
  {
    ghost var spec := ChainOf(seed, h);
    var l1 := Layer1Bacon(seed);
    var l2 := Layer2Xor(Encode(l1), XorKey);
    var l3 := Layer3Golden(BigEndian(Pad4(Take(l2, 4))));
    var l4 := Layer4Box(Hex(l2), 3, 14);
    var l5opt := Layer5Scytale(l4, MasterKey[0] as int);
    var l5 := l5opt.value;
    assert l5 == spec.l5;
    var l6 := Layer6Md5(Encode(l5), h.md5);
    var l7 := Layer7Derive(Unhex(l6).value, h.sha512);
    var l8 := Layer8Sha256(l7, h.sha256);
    var l9 := Layer9CombinedXor(Unhex(l8).value);
    var l10 := Layer10Berlin(BigEndian(l9[..4]));
    var finalHash := Hex(h.sha256(l9));
    UnhexHex(h.sha256(l9));
    var finalBytes := XorAll(Unhex(finalHash).value, CoordModifier);
    assert finalBytes == spec.key;
    var cell := GridCell(BigEndian(finalBytes[..3]));
    c := Chain(l1, l2, l3, l4, l5, l6, l7, l8, l9, l10, finalBytes, cell);
  }

  /** `process_chain`: runs the layers and records each state in the dictionary in
      the script's order; the clock reading is the `timestamp` parameter. */
  method ProcessChain(seed: string, timestamp: string, h: Hashes) returns (states: map<string, Json>)
    ensures states == StatesOf(seed, timestamp, ChainOf(seed, h))
  {
    var c := RunLayers(seed, h);
    states := map["input" := Str(seed), "timestamp" := Str(timestamp)];
    states := states["L1_bacon" := Str(BaconState(c.l1))];
    states := states["L2_xor" := Str(Take(Hex(c.l2), 32))];
    states := states["L3_golden" := Num(c.l3 as real)];
    states := states["L4_box" := Str(Take(c.l4, 32))];
    states := states["L5_scytale" := Str(Take(c.l5, 32))];
    states := states["L6_md5" := Str(c.l6)];
    states := states["L7_ed25519" := Str(Take(Hex(c.l7), 32))];
    states := states["L8_sha256" := Str(c.l8)];
    states := states["L9_combined" := Str(Take(Hex(c.l9), 32))];
    states := states["L10_berlin" := Str(ClockText(c.berlin))];
    states := states["chain_key" := Str(Hex(c.key))];
    states := states["chain_key_short" := Str(Take(Hex(c.key), 16))];
    states := states["grid_cell" := Str(CellText(c.cell))];
  }

  // ---------------------------------------------------------------------------
  // What the chain promises about its states

  /** The recorded chain key is 64 hex digits that, masked once more with the same
      byte, give back the SHA-256 digest of the ninth layer; the short key is its
      first 16 digits. */
  lemma ChainKeyUnmasks(seed: string, h: Hashes)
    ensures var c := ChainOf(seed, h);
      |Hex(c.key)| == 64 && Unhex(Hex(c.key)) == Some(c.key)
      && XorAll(c.key, CoordModifier) == h.sha256(c.l9)
      && Take(Hex(c.key), 16) == Hex(c.key)[..16]
  {
    var c := ChainOf(seed, h);
    UnhexHex(c.key);
  }

  /** Every byte the second layer sees is 'A' or 'B', so every byte it emits is
      8 or 11, five per letter of the seed. */
  lemma ChainXorBytes(seed: string, h: Hashes)
    ensures var c := ChainOf(seed, h);
      |c.l2| == 5 * |Letters(Text.Upper(seed))|
      && forall i :: 0 <= i < |c.l2| ==> c.l2[i] == 8 || c.l2[i] == 11
  {
    var c := ChainOf(seed, h);
    var l1 := Bacon(Text.Upper(seed));
    forall i | 0 <= i < |c.l2| ensures c.l2[i] == 8 || c.l2[i] == 11 {
      assert c.l2[i] == Encode(l1)[i] ^ XorKey;
      assert l1[i] == 'A' || l1[i] == 'B';
    }
  }

  /** The golden state is a 32-bit multiple of 4, the clock state is a time of day
      and a well-formed `HH:MM:SS` text, and the grid cell is the cell of the masked
      key's first three bytes. */
  lemma ChainNumbers(seed: string, h: Hashes)
    ensures var c := ChainOf(seed, h);
      c.l3 < Modulus32 && c.l3 % 4 == 0
      && c.berlin.0 < 24 && c.berlin.1 < 60 && c.berlin.2 < 60
      && c.berlin.0 * 3600 + c.berlin.1 * 60 + c.berlin.2 == BigEndian(c.l9[..4]) % 86400
      && c.cell.0 < 64 && c.cell.1 < 32 && c.cell.2 < 64
      && c.cell.0 * 2048 + c.cell.1 * 64 + c.cell.2 == BigEndian(c.key[..3]) % GridCells
  {
    var c := ChainOf(seed, h);
    BerlinTimeOfDay(BigEndian(c.l9[..4]));
    GridCellDecomposes(BigEndian(c.key[..3]));
  }

  /** The seventh and ninth layers run on the decoded MD5 and SHA-256 digests: the
      hex round trip between layers loses nothing. */
  lemma ChainDigests(seed: string, h: Hashes)
    ensures var c := ChainOf(seed, h);
      c.l7 == Layer7Derive(h.md5(Encode(c.l5)), h.sha512)
      && c.l9 == CombinedXor(h.sha256(c.l7))
      && CombinedXor(c.l9) == h.sha256(c.l7)
  {
    var c := ChainOf(seed, h);
    CombinedXorInvolution(h.sha256(c.l7));
  }

  // ---------------------------------------------------------------------------
  // Files, the manifest and the build check

  /** Reading a file: its bytes, or None when it cannot be opened or read. */
  type Reader = string -> Option<seq<byte>>

  /** `hash_file`: the hex SHA-256 digest of the contents, or `MISSING` on any
      read failure. A digest is never the word, so the word means exactly that the
      read failed. */
  function HashFile(path: string, read: Reader, h: Hashes): (r: string)
    ensures r == "MISSING" <==> read(path).None?
    ensures read(path).Some? ==> |r| == 64 && Unhex(r) == Some(h.sha256(read(path).value))
  {
    match read(path)
    case None => "MISSING"
    case Some(data) =>
      UnhexHex(h.sha256(data));
      Hex(h.sha256(data))
  }

  /** The dictionary `verify_file` returns, as a record. */
  datatype FileReport =
    | Missing(file: string)
    | Verified(file: string, hash: string, chainKey: string, gridCell: string, berlin: string)

  /** `verify_file`: a missing file is reported as such; any other file is run through
      the chain on its hex digest. */
  function VerifyFile(path: string, read: Reader, h: Hashes): (r: FileReport)
    ensures r.file == path
    ensures r.Verified? <==> read(path).Some?
    ensures r.Verified? ==> |r.hash| == 64 && |r.chainKey| == 16 && |r.berlin| == 8
  {
    var fileHash := HashFile(path, read, h);
    if fileHash == "MISSING" then Missing(path) else ChainReport(path, fileHash, h)
  }

  /** The report of a file whose hash was read: the short chain key, the grid cell
      and the clock text of the chain run on the hex digest. */
  function ChainReport(path: string, fileHash: string, h: Hashes): (r: FileReport)
    ensures r.Verified? && r.file == path && r.hash == fileHash
    ensures |r.chainKey| == 16 && |r.berlin| == 8
  {
    var c := ChainOf(fileHash, h);
    UnhexHex(c.key);
    Verified(path, fileHash, Take(Hex(c.key), 16), CellText(c.cell), ClockText(c.berlin))
  }

  /** The verified reports' hashes, joined in order. */
  function AllHashes(files: seq<FileReport>): (r: string)
    decreases |files|
  {
    if files == [] then ""
    else
      var last := files[|files| - 1];
      AllHashes(files[..|files| - 1]) + (if last.Verified? then last.hash else "")
  }

  /** How many reports are verified. */
  function VerifiedCount(files: seq<FileReport>): (n: nat)
    ensures n <= |files|
    decreases |files|
  {
    if files == [] then 0
    else VerifiedCount(files[..|files| - 1]) + (if files[|files| - 1].Verified? then 1 else 0)
  }

  /** Every hash in the joined string takes 64 characters. */
  lemma {:induction false} AllHashesLength(files: seq<FileReport>)
    requires forall i :: 0 <= i < |files| && files[i].Verified? ==> |files[i].hash| == 64
    ensures |AllHashes(files)| == 64 * VerifiedCount(files)
    decreases |files|
  {
    if files != [] {
      AllHashesLength(files[..|files| - 1]);
    }
  }

  /** The scanned files are all verified exactly when none was missing. */
  lemma {:induction false} AllVerified(files: seq<FileReport>)
    ensures VerifiedCount(files) == |files| <==> forall i :: 0 <= i < |files| ==> files[i].Verified?
    decreases |files|
  {
    if files != [] {
      var init := files[..|files| - 1];
      AllVerified(init);
      assert forall i :: 0 <= i < |init| ==> init[i] == files[i];
    }
  }

  /** The build manifest, as a record. */
  datatype Manifest = Manifest(
    version: string, generated: string, masterKey: string, masterCell: string,
    masterBerlin: string, fileCount: nat, verifiedCount: nat, files: seq<FileReport>)

  /** `generate_manifest` over the reports of a directory scan (the walk itself is
      not modelled): the master chain runs on all verified hashes joined. */
  function GenerateManifest(files: seq<FileReport>, generated: string, h: Hashes): (m: Manifest)
    ensures m.files == files && m.fileCount == |files|
    ensures m.verifiedCount <= m.fileCount
    ensures |m.masterKey| == 64 && |m.masterBerlin| == 8
  {
    var master := ChainOf(AllHashes(files), h);
    Manifest("0.1.0", generated, Hex(master.key), CellText(master.cell), ClockText(master.berlin),
             |files|, VerifiedCount(files), files)
  }

  /** A manifest built from `verify_file` reports counts its verified files, has 64
      characters of joined hash per verified file, and counts every file exactly
      when every file could be read. */
  lemma ManifestCounts(paths: seq<string>, files: seq<FileReport>, read: Reader, generated: string,
                       h: Hashes)
    requires |files| == |paths|
    requires forall i :: 0 <= i < |paths| ==> files[i] == VerifyFile(paths[i], read, h)
    ensures |AllHashes(files)| == 64 * GenerateManifest(files, generated, h).verifiedCount
    ensures GenerateManifest(files, generated, h).verifiedCount == |paths|
      <==> forall i :: 0 <= i < |paths| ==> read(paths[i]).Some?
  {
    AllHashesLength(files);
    AllVerified(files);
    assert GenerateManifest(files, generated, h).verifiedCount == VerifiedCount(files);
  }

  const CriticalFiles: seq<string> := [
    "index.js",
    "core/codie/parser.js",
    "core/xor/chain.js",
    "intelligence/fusion/graph.js",
    "intelligence/tiny-model/inference.js",
    "security/index.js"]

  /** `os.path.join(root, name)` for a relative name. */
  function JoinPath(root: string, name: string): (r: string)
    ensures |r| >= |name| && r[|r| - |name|..] == name
  {
    if root == [] || root[|root| - 1] == '/' then root + name else root + "/" + name
  }

  /** How many of the names, joined to the root, can be read. */
  function CountReadable(root: string, names: seq<string>, read: Reader): (n: nat)
    ensures n <= |names|
    decreases |names|
  {
    if names == [] then 0
    else
      var last := names[|names| - 1];
      CountReadable(root, names[..|names| - 1], read) + (if read(JoinPath(root, last)).Some? then 1 else 0)
  }

  /** They are all readable exactly when the count reaches their number. */
  lemma {:induction false} CountReadableAll(root: string, names: seq<string>, read: Reader)
    ensures CountReadable(root, names, read) == |names|
      <==> forall i :: 0 <= i < |names| ==> read(JoinPath(root, names[i])).Some?
    decreases |names|
  {
    if names != [] {
      var init := names[..|names| - 1];
      CountReadableAll(root, init, read);
      assert forall i :: 0 <= i < |init| ==> init[i] == names[i];
    }
  }

  /** `verify_file(path)["status"] == "VERIFIED"`. */
  method IsVerified(path: string, read: Reader, h: Hashes) returns (verified: bool)
    ensures verified <==> read(path).Some?
  {
    var result := VerifyFile(path, read, h);
    verified := result.Verified?;
  }

  /** The loop of `verify_build` over the critical files, counting those that
      verify. */
  method CountVerified(root: string, names: seq<string>, read: Reader, h: Hashes)
    returns (verified: nat)
    ensures verified == CountReadable(root, names, read)
  {
    verified := 0;
    for i := 0 to |names|
      invariant verified == CountReadable(root, names[..i], read)
    {
      var isVerified := IsVerified(JoinPath(root, names[i]), read, h);
      if isVerified {
        verified := verified + 1;
      }
      assert names[..i + 1][..i] == names[..i];
    }
    assert names[..|names|] == names;
  }

  /** `verify_build`: fails when a saved manifest's master key differs from the
      current one; otherwise passes exactly when every critical file verifies.
      `expectedKey` is the `master_key` of the saved manifest, None when no manifest
      path was given or none exists; `files` are the reports of the scan. */
  method VerifyBuild(root: string, files: seq<FileReport>, expectedKey: Option<string>,
                     read: Reader, generated: string, h: Hashes)
    returns (ok: bool)
    ensures ok <==> ((expectedKey.None? || expectedKey.value == GenerateManifest(files, generated, h).masterKey)
      && forall i :: 0 <= i < |CriticalFiles| ==> read(JoinPath(root, CriticalFiles[i])).Some?)
  {
    var current := GenerateManifest(files, generated, h);
    if expectedKey.Some? && current.masterKey != expectedKey.value {
      return false;
    }
    var criticalVerified := CountVerified(root, CriticalFiles, read, h);
    CountReadableAll(root, CriticalFiles, read);
    ok := criticalVerified == |CriticalFiles|;
  }
}
