/** The desktop backend's XOR chain: 12-bit codes derived from a state digest, the
    clock and the previous code, kept in order in the application state, and the
    rule that routes a prompt to the large or the small model. The digest and the
    clock readings are parameters. */
module DesktopApp {
  import opened Wrappers
  import opened Bytes
  import Text
  import Numeric

  /** SHA-256 of the UTF-8 bytes of a text. */
  type TextDigest = string -> Sha256Digest

  const U32Limit: nat := 0x1_0000_0000

  /** `format!("{:03X}", v)` for a value that fits in three digits. */
  function Hex3(v: nat): (s: string)
    requires v < 0x1000
    ensures |s| == 3
    ensures forall i :: 0 <= i < 3 ==> IsUpperHexChar(s[i])
  {
    [HexDigitUpper(v / 16 / 16), HexDigitUpper(v / 16 % 16), HexDigitUpper(v % 16)]
  }

  /** Three base-16 digits parse as a `u32`, most significant first. */
  lemma ThreeDigits(s: string, a: nat, b: nat, c: nat)
    requires |s| == 3
    requires Numeric.DigitValue(s[0], 16) == Some(a)
    requires Numeric.DigitValue(s[1], 16) == Some(b)
    requires Numeric.DigitValue(s[2], 16) == Some(c)
    ensures Numeric.ParseUnsigned(s, 16, U32Limit) == Some((a * 16 + b) * 16 + c)
  {
    assert s[..1][..0] == [] && s[..2][..1] == s[..1] && s[..3][..2] == s[..2];
    assert Numeric.DigitsValue(s[..1], 16) == Some(a);
    assert Numeric.DigitsValue(s[..2], 16) == Some(a * 16 + b);
    assert s[..3] == s;
  }

  lemma UpperDigitValue(d: nat)
    requires d < 16
    ensures Numeric.DigitValue(HexDigitUpper(d), 16) == Some(d)
  {
  }

  /** Three hex digits read back as the value they were written from. */
  lemma Hex3Parses(v: nat)
    requires v < 0x1000
    ensures Numeric.ParseUnsigned(Hex3(v), 16, U32Limit) == Some(v)
  {
    var q := v / 16;
    UpperDigitValue(q / 16);
    UpperDigitValue(q % 16);
    UpperDigitValue(v % 16);
    ThreeDigits(Hex3(v), q / 16, q % 16, v % 16);
  }

  /** The previous code's contribution: its value as a `u32` in base 16, or 0 when
      there is none or it does not parse. */
  function PrevPart(previous: Option<string>): (p: nat)
    ensures p < U32Limit
    ensures previous.None? ==> p == 0
    ensures previous.Some? && Numeric.ParseUnsigned(previous.value, 16, U32Limit).None? ==> p == 0
    ensures previous.Some? && Numeric.ParseUnsigned(previous.value, 16, U32Limit).Some? ==>
      p == Numeric.ParseUnsigned(previous.value, 16, U32Limit).value
  {
    match previous
    case None => 0
    case Some(text) => Numeric.ParseUnsigned(text, 16, U32Limit).GetOr(0)
  }

  /** The 12-bit value `(state_part ^ time_part ^ prev_part) & 0xFFF`: the first four
      digest bytes read big-endian, the clock in milliseconds cut to 32 bits, and
      the previous code's value. */
  function XorValue(state: string, previous: Option<string>, sha256: TextDigest, millis: nat): (v: nat)
    ensures v < 0x1000
  {
    var digest := sha256(state);
    BigEndianBound(digest[..4]);
    assert Pow256(4) == U32Limit;
    var statePart := BigEndian(digest[..4]) as bv32;
    var timePart := (millis % U32Limit) as bv32;
    var prevPart := PrevPart(previous) as bv32;
    ((statePart ^ timePart ^ prevPart) & 0xFFF) as nat
  }

  /** `generate_xor`: the 12-bit value as three upper-case hex digits. */
  function GenerateXor(state: string, previous: Option<string>, sha256: TextDigest, millis: nat)
    : (code: string)
    ensures |code| == 3
    ensures forall i :: 0 <= i < 3 ==> IsUpperHexChar(code[i])
    ensures Numeric.ParseUnsigned(code, 16, U32Limit) == Some(XorValue(state, previous, sha256, millis))
  {
    var v := XorValue(state, previous, sha256, millis);
    Hex3Parses(v);
    Hex3(v)
  }

  /** A previous code that does not parse counts as no previous code at all. */
  lemma UnparsablePrevious(state: string, previous: string, sha256: TextDigest, millis: nat)
    requires Numeric.ParseUnsigned(previous, 16, U32Limit).None?
    ensures GenerateXor(state, Some(previous), sha256, millis) == GenerateXor(state, None, sha256, millis)
  {
  }

  /** `hash_content`: the first 16 digest bytes in lower-case hex. */
  function HashContent(content: string, sha256: TextDigest): (r: string)
    ensures |r| == 32
    ensures forall i :: 0 <= i < |r| ==> IsLowerHexChar(r[i])
    ensures Unhex(r) == Some(sha256(content)[..16])
  {
    UnhexHex(sha256(content)[..16]);
    Hex(sha256(content)[..16])
  }

  /** The model a prompt is routed to: the large one for a prompt of more than 100
      bytes or one that mentions a redesign or an analysis, the small one otherwise. */
  function Route(prompt: string): (route: string)
    ensures route == "claude" || route == "tiny"
    ensures route == "claude" <==>
      Text.ByteLen(prompt) > 100 || Text.Contains(prompt, "redesign") || Text.Contains(prompt, "analyze")
  {
    if Text.ByteLen(prompt) > 100 || Text.Contains(prompt, "redesign") || Text.Contains(prompt, "analyze")
    then "claude"
    else "tiny"
  }

  /** Asking for an analysis anywhere in a prompt sends it to the large model. */
  lemma AnalysisGoesLarge(before: string, after: string)
    ensures Route(before + "analyze" + after) == "claude"
  {
    Text.ContainsInMiddle(before, "analyze", after);
  }

  /** `format!("Processed '{}' via {} model", action, route)`. */
  function Response(action: string, route: string): (r: string)
    ensures |r| == |action| + |route| + 23
    ensures r[11..11 + |action|] == action
  {
    "Processed '" + action + "' via " + route + " model"
  }

  datatype Interaction = Interaction(interactionType: string, action: string, prompt: Option<string>)

  datatype ProcessResult = ProcessResult(response: string, xor: string, route: string)

  datatype Status = Status(
    initialized: bool, mode: string, license: string, bootXor: string,
    xorChain: nat, graphNodes: nat)

  /** A chain element is a code `generate_xor` can produce. */
  predicate IsCode(s: string) {
    |s| == 3 && forall i :: 0 <= i < 3 ==> IsUpperHexChar(s[i])
  }

  /** The state shared by the commands. */
  class AppState {
    var xorChain: seq<string>
    var graphNodes: nat
    var bootXor: string
    var initialized: bool

    /** Every element of the chain is a three-digit code, the node count fits a
        `u32`, and once initialized the boot code is in the chain. */
    predicate Valid()
      reads this
    {
      (forall i :: 0 <= i < |xorChain| ==> IsCode(xorChain[i]))
      && graphNodes < U32Limit
      && (initialized ==> bootXor in xorChain)
    }

    /** The state as the application starts it: nothing in the chain, no nodes. */
    constructor ()
      ensures Valid()
      ensures xorChain == [] && graphNodes == 0 && bootXor == "" && !initialized
    {
      xorChain := [];
      graphNodes := 0;
      bootXor := "";
      initialized := false;
    }

    /** `get_status`. */
    function CurrentStatus(): (s: Status)
      reads this
      ensures s.initialized == initialized && s.bootXor == bootXor
      ensures s.xorChain == |xorChain| && s.graphNodes == graphNodes
      ensures s.mode == "production" && s.license == "Personal"
    {
      Status(initialized, "production", "Personal", bootXor, |xorChain|, graphNodes)
    }

    /** `get_xor_chain`: a copy of the chain. */
    function Chain(): (chain: seq<string>)
      reads this
      ensures |chain| == CurrentStatus().xorChain
      ensures forall i :: 0 <= i < |chain| ==> chain[i] == xorChain[i]
    {
      xorChain
    }

    /** The code the chain ends with, if any. */
    function Last(): (last: Option<string>)
      reads this
      ensures last.None? <==> xorChain == []
      ensures last.Some? ==> last.value == xorChain[|xorChain| - 1]
    {
      if xorChain == [] then None else Some(xorChain[|xorChain| - 1])
    }

    /** `initialize`: derives a boot code from the boot time with no previous code,
        records it as the boot code, appends it and marks the state initialized.
        The status it returns reports one chain element and no nodes whatever the
        state was. */
    method Initialize(nowSeconds: int, millis: nat, sha256: TextDigest) returns (status: Status)
      requires Valid()
      modifies this
      ensures Valid()
      ensures bootXor == GenerateXor("boot:" + Text.IntToString(nowSeconds), None, sha256, millis)
      ensures xorChain == old(xorChain) + [bootXor]
      ensures initialized && graphNodes == old(graphNodes)
      ensures status == Status(true, "production", "Personal", bootXor, 1, 0)
    {
      var bootState := "boot:" + Text.IntToString(nowSeconds);
      var xor := GenerateXor(bootState, None, sha256, millis);
      bootXor := xor;
      xorChain := xorChain + [xor];
      initialized := true;
      assert xorChain[|xorChain| - 1] == bootXor;
      status := Status(true, "production", "Personal", xor, 1, 0);
    }

    /** `process_interaction`: derives a code from the prompt (empty when there is
        none) with the chain's last code as `previous`, appends it, counts one more
        node (wrapping at 2^32, as the release build does) and routes the prompt. */
    method ProcessInteraction(interaction: Interaction, millis: nat, sha256: TextDigest)
      returns (result: ProcessResult)
      requires Valid()
      modifies this
      ensures Valid()
      ensures var prompt := interaction.prompt.GetOr("");
        result.xor == GenerateXor(prompt, old(Last()), sha256, millis)
        && result.route == Route(prompt)
        && result.response == Response(interaction.action, result.route)
      ensures xorChain == old(xorChain) + [result.xor]
      ensures graphNodes == (old(graphNodes) + 1) % U32Limit
      ensures bootXor == old(bootXor) && initialized == old(initialized)
    {
      result := Outcome(interaction, Last(), sha256, millis);
      AppendCode(xorChain, result.xor, bootXor, initialized);
      xorChain := xorChain + [result.xor];
      graphNodes := (graphNodes + 1) % U32Limit;
    }
  }

  /** The code, route and reply of one interaction given the chain's last code. */
  function Outcome(interaction: Interaction, previous: Option<string>, sha256: TextDigest, millis: nat)
    : (r: ProcessResult)
    ensures var prompt := interaction.prompt.GetOr("");
      r.xor == GenerateXor(prompt, previous, sha256, millis)
      && r.route == Route(prompt)
      && r.response == Response(interaction.action, r.route)
    ensures IsCode(r.xor)
  {
    var prompt := interaction.prompt.GetOr("");
    var route := Route(prompt);
    ProcessResult(Response(interaction.action, route), GenerateXor(prompt, previous, sha256, millis), route)
  }

  /** Appending a code keeps every element a code and keeps the boot code in. */
  lemma AppendCode(chain: seq<string>, code: string, boot: string, initialized: bool)
    requires forall i :: 0 <= i < |chain| ==> IsCode(chain[i])
    requires initialized ==> boot in chain
    requires IsCode(code)
    ensures forall i :: 0 <= i < |chain + [code]| ==> IsCode((chain + [code])[i])
    ensures initialized ==> boot in chain + [code]
  {
    assert forall i :: 0 <= i < |chain| ==> (chain + [code])[i] == chain[i];
    if initialized {
      var j :| 0 <= j < |chain| && chain[j] == boot;
      assert (chain + [code])[j] == boot;
    }
  }

  /** Every code in a valid chain reads back as a 12-bit value: once the chain has
      an element, the next code always mixes in the last one's value and never
      the 0 fallback. */
  lemma CodeParses(code: string)
    requires IsCode(code)
    ensures Numeric.ParseUnsigned(code, 16, U32Limit).Some?
    ensures PrevPart(Some(code)) < 0x1000
  {
    var a, b, c := HexValue(code[0]).value, HexValue(code[1]).value, HexValue(code[2]).value;
    assert IsUpperHexChar(code[0]) && IsUpperHexChar(code[1]) && IsUpperHexChar(code[2]);
    ThreeDigits(code, a, b, c);
  }
}
