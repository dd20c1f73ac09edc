/** The network detector: domains that look generated, hard-coded public IP
    addresses and ports favoured by malware. The matches of the detector's
    regular expressions on a text file are given as inputs. */
module Network {
  import opened Wrappers
  import opened Json
  import opened Skills
  import opened Sets
  import Text
  import Numeric

  /** What the detector's regular expressions find in a text file. */
  datatype NetworkMatches = NetworkMatches(
    urls: seq<string>,           // http(s)://host.tld matches
    base64Domains: seq<string>,  // twenty or more base64 characters before .com/.net/...
    ips: seq<string>,            // dotted quads of one to three digits each
    portDigits: seq<string>)     // the two to five digits after a ':'

  // Consonant ratio and generated domains.

  predicate IsConsonant(c: char) {
    c in "bcdfghjklmnpqrstvwxyz"
  }

  /** The letters of `s` after lower-casing. */
  function Letters(s: string): (r: string)
    ensures |r| <= |s|
    ensures forall i :: 0 <= i < |r| ==> 'a' <= r[i] <= 'z'
    decreases |s|
  {
    if s == [] then []
    else
      var c := Text.AsciiLowerChar(s[0]);
      (if Text.IsAsciiLetter(c) then [c] else []) + Letters(s[1..])
  }

  function ConsonantCount(letters: string): (n: nat)
    ensures n <= |letters|
    decreases |letters|
  {
    if letters == [] then 0 else (if IsConsonant(letters[0]) then 1 else 0) + ConsonantCount(letters[1..])
  }

  /** `consonant_ratio`: 0 without letters, else the share of consonants among the letters. */
  function ConsonantRatio(domain: string): (r: real)
    ensures 0.0 <= r <= 1.0
    ensures Letters(domain) == [] ==> r == 0.0
    ensures Letters(domain) != [] ==> r == Numeric.Share(ConsonantCount(Letters(domain)), |Letters(domain)|)
  {
    var letters := Letters(domain);
    if letters == [] then 0.0
    else
      Numeric.Share(ConsonantCount(letters), |letters|)
  }

  predicate HasDigit(s: string) {
    exists i | 0 <= i < |s| :: Text.IsAsciiDigit(s[i])
  }

  /** The host of a URL: after the first "://", up to the next "://" and the first '/'. */
  function Host(url: string): (r: Option<string>)
    ensures r.Some? ==> '/' !in r.value
    ensures r.Some? <==> Text.Position(url, "://", 0).Some?
  {
    match Text.Position(url, "://", 0)
    case None => None
    case Some(i) =>
      var rest := url[i + 3..];
      var piece := match Text.Position(rest, "://", 0)
                   case None => rest
                   case Some(j) => rest[..j];
      Some(Text.FirstPiece(piece, '/'))
  }

  /** The generated-domain rule on the host's first label. */
  predicate LooksGenerated(firstLabel: string) {
    ConsonantRatio(firstLabel) > 0.7 && HasDigit(firstLabel) && Text.ByteLen(firstLabel) > 10
  }

  function DgaFinding(host: string, firstLabel: string, location: string): (f: Finding)
    ensures f.findingType == "potential_dga_domain" && f.confidence == 0.75 && f.severity == High
  {
    Finding(
      "potential_dga_domain",
      Obj(map["domain" := Str(host), "consonant_ratio" := Num(ConsonantRatio(firstLabel)),
              "length" := NatNum(Text.ByteLen(firstLabel))]),
      0.75,
      location,
      High,
      Obj(map["pattern" := Str("Domain Generation Algorithm"),
              "description" := Str("Domain '" + host + "' has DGA characteristics")]))
  }

  /** The finding one URL gives, if any. */
  function UrlFindings(url: string, location: string): (r: seq<Finding>)
    ensures |r| <= 1
    ensures r != [] <==> Host(url).Some? && LooksGenerated(Text.FirstPiece(Host(url).value, '.'))
  {
    match Host(url)
    case None => []
    case Some(host) =>
      var firstLabel := Text.FirstPiece(host, '.');
      if LooksGenerated(firstLabel) then [DgaFinding(host, firstLabel, location)] else []
  }

  function Base64Finding(domain: string, location: string): (f: Finding)
    ensures f.findingType == "base64_domain" && f.confidence == 0.8 && f.severity == High
  {
    Finding(
      "base64_domain",
      Obj(map["domain" := Str(domain)]),
      0.8,
      location,
      High,
      Obj(map["pattern" := Str("Base64-encoded domain"),
              "description" := Str("Domain appears to contain encoded data")]))
  }

  function UrlsFindings(urls: seq<string>, location: string): (r: seq<Finding>)
    ensures |r| <= |urls|
    decreases |urls|
  {
    if urls == [] then []
    else UrlsFindings(urls[..|urls| - 1], location) + UrlFindings(urls[|urls| - 1], location)
  }

  function Base64Findings(domains: seq<string>, location: string): (r: seq<Finding>)
    ensures |r| == |domains|
    ensures forall i :: 0 <= i < |domains| ==> r[i] == Base64Finding(domains[i], location)
    decreases |domains|
  {
    if domains == [] then []
    else Base64Findings(domains[..|domains| - 1], location) + [Base64Finding(domains[|domains| - 1], location)]
  }

  /** Each generated-domain finding comes from one URL of the list whose first host label qualifies. */
  lemma {:induction false} UrlsFindingsSource(urls: seq<string>, location: string)
    ensures forall f :: f in UrlsFindings(urls, location) ==>
      exists k :: 0 <= k < |urls| && UrlFindings(urls[k], location) == [f]
    decreases |urls|
  {
    if urls != [] {
      var init := urls[..|urls| - 1];
      UrlsFindingsSource(init, location);
      forall f | f in UrlsFindings(urls, location)
        ensures exists k :: 0 <= k < |urls| && UrlFindings(urls[k], location) == [f]
      {
        if f in UrlsFindings(init, location) {
          var k :| 0 <= k < |init| && UrlFindings(init[k], location) == [f];
          assert urls[k] == init[k];
        } else {
          assert UrlFindings(urls[|urls| - 1], location) == [f];
        }
      }
    }
  }

  /** The first loop of `detect_dga_domains`: one finding per URL whose host's first label looks generated. */
  method ScanUrls(urls: seq<string>, location: string) returns (findings: seq<Finding>)
    ensures findings == UrlsFindings(urls, location)
  {
    findings := [];
    for i := 0 to |urls|
      invariant findings == UrlsFindings(urls[..i], location)
    {
      var found := ScanUrl(urls[i], location);
      assert urls[..i + 1][..i] == urls[..i];
      findings := findings + found;
    }
    assert urls[..|urls|] == urls;
  }

  /** One pass of the URL loop: the finding for a single URL, if its first host label looks generated. */
  method ScanUrl(url: string, location: string) returns (found: seq<Finding>)
    ensures found == UrlFindings(url, location)
  {
    found := [];
    match Host(url) {
      case None =>
      case Some(host) =>
        var firstLabel := Text.FirstPiece(host, '.');
        if LooksGenerated(firstLabel) {
          found := [DgaFinding(host, firstLabel, location)];
        }
    }
  }

  /** The second loop of `detect_dga_domains`: one finding per base64-looking domain. */
  method ScanBase64Domains(domains: seq<string>, location: string) returns (findings: seq<Finding>)
    ensures findings == Base64Findings(domains, location)
  {
    findings := [];
    for i := 0 to |domains|
      invariant findings == Base64Findings(domains[..i], location)
    {
      assert domains[..i + 1][..i] == domains[..i];
      findings := findings + [Base64Finding(domains[i], location)];
    }
    assert domains[..|domains|] == domains;
  }

  /** `detect_dga_domains`: the URL findings in match order, then the base64 ones. */
  method DetectDgaDomains(urls: seq<string>, base64Domains: seq<string>, location: string)
    returns (findings: seq<Finding>)
    ensures findings == UrlsFindings(urls, location) + Base64Findings(base64Domains, location)
  {
    var dga := ScanUrls(urls, location);
    var encoded := ScanBase64Domains(base64Domains, location);
    findings := dga + encoded;
  }

  // Hard-coded public IP addresses.

  const SafeIps: set<string> :=
    {"127.0.0.1", "0.0.0.0", "255.255.255.255", "192.168.0.1", "192.168.1.1", "10.0.0.1"}

  /** The pieces that parse as `u8`, in order (`filter_map(|s| s.parse().ok())`). */
  function ParsedOctets(pieces: seq<string>): (r: seq<nat>)
    ensures |r| <= |pieces|
    ensures forall i :: 0 <= i < |r| ==> r[i] < 256
    decreases |pieces|
  {
    if pieces == [] then []
    else
      var rest := ParsedOctets(pieces[1..]);
      match Numeric.ParseUnsigned(pieces[0], 10, 256)
      case Some(v) => [v] + rest
      case None => rest
  }

  function Octets(ip: string): seq<nat> {
    ParsedOctets(Text.Split(ip, '.'))
  }

  /** 10/8, 172.16/12 or 192.168/16, judged only when four octets parse. */
  predicate IsPrivate(ip: string) {
    var o := Octets(ip);
    |o| == 4 && (o[0] == 10 || (o[0] == 172 && 16 <= o[1] <= 31) || (o[0] == 192 && o[1] == 168))
  }

  /** The addresses `detect_hardcoded_ips` reports. */
  function PublicIps(ips: seq<string>): set<string> {
    set ip | ip in ips && ip !in SafeIps && !IsPrivate(ip)
  }

  lemma {:induction false} ParsedOctetsDropFailures(pieces: seq<string>, k: nat)
    requires k < |pieces| && Numeric.ParseUnsigned(pieces[k], 10, 256).None?
    ensures |ParsedOctets(pieces)| < |pieces|
    decreases |pieces|
  {
    if k > 0 {
      ParsedOctetsDropFailures(pieces[1..], k - 1);
    }
  }

  /** An octet of 256 or more drops out, so the address is never taken for a private one
      and is reported unless it is one of the safe addresses. */
  lemma OutOfRangeOctetIsReported(ips: seq<string>, ip: string, k: nat)
    requires ip in ips && ip !in SafeIps
    requires |Text.Split(ip, '.')| == 4 && k < 4
    requires Numeric.DigitsValue(Text.Split(ip, '.')[k], 10).Some?
    requires Numeric.DigitsValue(Text.Split(ip, '.')[k], 10).value >= 256
    ensures !IsPrivate(ip)
    ensures ip in PublicIps(ips)
  {
    var piece := Text.Split(ip, '.')[k];
    assert Numeric.ParseUnsigned(piece, 10, 256).None? by {
      if |piece| > 0 && piece[0] == '+' {
        Numeric.DigitsValueFailsOnNonDigit(piece, 10, 0);
      }
    }
    ParsedOctetsDropFailures(Text.Split(ip, '.'), k);
  }

  function IpFinding(order: seq<string>, location: string): (f: Finding)
    ensures f.findingType == "hardcoded_public_ip" && f.confidence == 0.7 && f.severity == Medium
  {
    Finding(
      "hardcoded_public_ip",
      Obj(map["ips" := StrArr(order), "count" := NatNum(|order|)]),
      0.7,
      location,
      Medium,
      Obj(map["pattern" := Str("Hardcoded public IP addresses"),
              "description" := Str("Found " + Text.NatToString(|order|) + " public IP addresses")]))
  }

  /** The findings for the address matches: one listing the public addresses, in
      some order, when there is any. */
  ghost predicate IpFindingsFor(findings: seq<Finding>, ips: seq<string>, location: string) {
    if PublicIps(ips) == {} then findings == []
    else exists order :: IsEnumeration(order, PublicIps(ips)) && findings == [IpFinding(order, location)]
  }

  lemma PublicIpsStep(ips: seq<string>, i: nat)
    requires i < |ips|
    ensures PublicIps(ips[..i + 1])
            == PublicIps(ips[..i]) + (if ips[i] !in SafeIps && !IsPrivate(ips[i]) then {ips[i]} else {})
  {
    assert ips[..i + 1] == ips[..i] + [ips[i]];
  }

  /** `detect_hardcoded_ips`: the set of reported addresses skips safe ones,
      duplicates and private ranges; count is the number of distinct addresses. */
  method DetectHardcodedIps(ips: seq<string>, location: string) returns (findings: seq<Finding>)
    ensures IpFindingsFor(findings, ips, location)
    ensures |findings| <= 1
    ensures findings != [] ==> |PublicIps(ips)| == |findings[0].value.fields["ips"].items|
  {
    var found: set<string> := {};
    for i := 0 to |ips|
      invariant found == PublicIps(ips[..i])
    {
      var ip := ips[i];
      PublicIpsStep(ips, i);
      if ip in SafeIps || ip in found {
        continue;
      }
      var octets := Octets(ip);
      if |octets| == 4 {
        if octets[0] == 10 || (octets[0] == 172 && octets[1] >= 16 && octets[1] <= 31)
           || (octets[0] == 192 && octets[1] == 168) {
          continue;
        }
      }
      found := found + {ip};
    }
    assert ips[..|ips|] == ips;
    findings := [];
    if found != {} {
      var order := Enumerate(found);
      findings := [IpFinding(order, location)];
    }
  }

  // Suspicious ports.

  const SuspiciousPorts: set<nat> :=
    {4444, 5555, 6666, 7777, 8888, 9999, 1337, 31337, 4443, 8443, 6667, 6668, 6669, 5900, 5901}

  /** `cap.parse::<u16>()`. */
  function PortOf(digits: string): (r: Option<nat>)
    ensures r.Some? ==> r.value < 65536
  {
    Numeric.ParseUnsigned(digits, 10, 65536)
  }

  /** The suspicious ports in order of first appearance. */
  function PortsFound(caps: seq<string>): seq<nat>
    decreases |caps|
  {
    if caps == [] then []
    else
      var before := PortsFound(caps[..|caps| - 1]);
      match PortOf(caps[|caps| - 1])
      case Some(p) => if p in SuspiciousPorts && p !in before then before + [p] else before
      case None => before
  }

  /** A port is found in the matches iff it is suspicious and one of them parses to it. */
  predicate FoundIn(caps: seq<string>, p: nat) {
    p in SuspiciousPorts && exists i :: 0 <= i < |caps| && PortOf(caps[i]) == Some(p)
  }

  /** The found ports have no repeats, and they are exactly the suspicious ports
      some match parses to. */
  lemma {:induction false} PortsFoundMembers(caps: seq<string>)
    ensures Distinct(PortsFound(caps))
    ensures forall p :: p in PortsFound(caps) <==> FoundIn(caps, p)
    decreases |caps|
  {
    if caps != [] {
      var init := caps[..|caps| - 1];
      PortsFoundMembers(init);
      forall p ensures p in PortsFound(caps) <==> FoundIn(caps, p) {
        FoundInStep(caps, p);
      }
    }
  }

  /** A port is found in the matches iff it is found in all but the last or the
      last parses to it. */
  lemma FoundInStep(caps: seq<string>, p: nat)
    requires caps != []
    ensures FoundIn(caps, p) <==>
      FoundIn(caps[..|caps| - 1], p) || (p in SuspiciousPorts && PortOf(caps[|caps| - 1]) == Some(p))
  {
    var init := caps[..|caps| - 1];
    if FoundIn(caps, p) {
      var i :| 0 <= i < |caps| && PortOf(caps[i]) == Some(p);
      if i < |caps| - 1 {
        assert init[i] == caps[i];
      }
    }
    if FoundIn(init, p) {
      var i :| 0 <= i < |init| && PortOf(init[i]) == Some(p);
      assert caps[i] == init[i];
    }
  }

  /** Ports are only ever appended: the ports of a prefix of the matches lead the
      ports of all of them, which puts them in order of first appearance. */
  lemma {:induction false} PortsFoundPrefix(caps: seq<string>, k: nat)
    requires k <= |caps|
    ensures PortsFound(caps[..k]) <= PortsFound(caps)
    decreases |caps| - k
  {
    if k < |caps| {
      PortsFoundPrefix(caps, k + 1);
      assert caps[..k + 1][..k] == caps[..k];
    } else {
      assert caps[..k] == caps;
    }
  }

  function PortFindings(caps: seq<string>, location: string): (r: seq<Finding>)
    ensures |r| <= 1
    ensures r != [] <==> PortsFound(caps) != []
    ensures r != [] ==> r[0].findingType == "suspicious_ports" && r[0].confidence == 0.75 && r[0].severity == High
  {
    var ports := PortsFound(caps);
    if ports == [] then []
    else
      [Finding(
        "suspicious_ports",
        Obj(map["ports" := NatArr(ports), "count" := NatNum(|ports|)]),
        0.75,
        location,
        High,
        Obj(map["pattern" := Str("Suspicious port numbers"),
                "description" := Str("Found ports commonly used by malware: " + Text.NatList(ports))]))]
  }

  method DetectSuspiciousPorts(caps: seq<string>, location: string) returns (findings: seq<Finding>)
    ensures findings == PortFindings(caps, location)
  {
    var foundPorts: seq<nat> := [];
    for i := 0 to |caps|
      invariant foundPorts == PortsFound(caps[..i])
    {
      assert caps[..i + 1][..i] == caps[..i];
      match PortOf(caps[i]) {
        case Some(port) =>
          if port in SuspiciousPorts && port !in foundPorts {
            foundPorts := foundPorts + [port];
          }
        case None =>
      }
    }
    assert caps[..|caps|] == caps;
    findings := PortFindings(caps, location);
    assert foundPorts == PortsFound(caps);
  }

  /** `analyze_file` on a file that reads as text: generated domains, then public
      addresses, then ports. */
  method AnalyzeFile(m: NetworkMatches, location: string) returns (findings: seq<Finding>)
    ensures exists ipPart ::
              IpFindingsFor(ipPart, m.ips, location)
              && findings == UrlsFindings(m.urls, location) + Base64Findings(m.base64Domains, location)
                             + ipPart + PortFindings(m.portDigits, location)
  {
    var dga := DetectDgaDomains(m.urls, m.base64Domains, location);
    var ipPart := DetectHardcodedIps(m.ips, location);
    var ports := DetectSuspiciousPorts(m.portDigits, location);
    findings := dga + ipPart + ports;
  }

  const Descriptor: Skill := Skill(
    "detect_network_patterns",
    "Detects malicious network patterns including DGA domains, hardcoded IPs, and suspicious ports commonly used by malware.",
    ["network", "c2", "malware"],
    Obj(map[
      "path" := StringParam("File or directory to scan"),
      "recursive" := BoolParam("Scan directories recursively", true)]),
    DefaultConfidenceThreshold)
}
