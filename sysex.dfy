/** The SysEx envelope: `F0h`, a manufacturer id, a body and `F7h`. Bodies from
  * Roland and the two universal ids are handed to their interpreters; the rest
  * are kept raw. */
module SysEx {
  import opened Wrappers
  import opened Bytes
  import opened SysExCommon
  import opened RolandTypes
  import opened Roland
  import opened Universal

  const SYSEX_START: byte := 0xF0
  const SYSEX_END: byte := 0xF7

  /** Why a byte string is not a SysEx. `NotDataByte` stands for the assertion
    * that every byte between `F0h` and `F7h` is a data byte, which the source
    * checks by panicking. */
  datatype ParseFailure = NotSysEx | IncompleteSysEx | NotDataByte

  /** `ParsedSysExBody`: a body one of the interpreters understood. */
  datatype ParsedSysExBody = RolandParsed(roland: RolandBody) | UniversalParsed(universal: UniversalBody)

  /** `ParsedSysEx`. */
  datatype ParsedSysEx = ParsedSysEx(manufacturerId: byte, content: MaybeParsed<ParsedSysExBody>)

  /** The body after the manufacturer id, parsed by the interpreter for that
    * id when there is one and it succeeds, otherwise kept as it is. */
  function ParseContent(models: seq<ModelInfo>, manufacturerId: byte, body: seq<byte>): (r: MaybeParsed<ParsedSysExBody>)
    requires AddressesNonEmpty(models)
    ensures r.Unknown? ==> r.bytes == body
    ensures r.Parsed? <==> (manufacturerId == MF_ID_ROLAND && ParseBody(models, body).Some?) ||
                           ((manufacturerId == MF_ID_UNIVERSAL_NON_REAL_TIME || manufacturerId == MF_ID_UNIVERSAL_REAL_TIME) &&
                            |body| >= 3)
    ensures r.Parsed? && r.parsed.RolandParsed? ==>
              manufacturerId == MF_ID_ROLAND && ParseBody(models, body) == Some(r.parsed.roland)
    ensures r.Parsed? && r.parsed.UniversalParsed? ==>
              manufacturerId != MF_ID_ROLAND &&
              ParseUniversalBody(manufacturerId == MF_ID_UNIVERSAL_REAL_TIME, body) == Some(r.parsed.universal)
  {
    var parsed: Option<ParsedSysExBody> :=
      if manufacturerId == MF_ID_ROLAND then
        match ParseBody(models, body) case None => None case Some(b) => Some(RolandParsed(b))
      else if manufacturerId == MF_ID_UNIVERSAL_NON_REAL_TIME || manufacturerId == MF_ID_UNIVERSAL_REAL_TIME then
        match ParseUniversalBody(manufacturerId == MF_ID_UNIVERSAL_REAL_TIME, body)
        case None => None
        case Some(u) => Some(UniversalParsed(u))
      else None;
    match parsed
    case None => Unknown(body)
    case Some(p) => Parsed(p)
  }

  /** `parse_sysex`, with `models` for the list of known Roland models. */
  function ParseSysEx(models: seq<ModelInfo>, data: seq<byte>): (r: Result<ParsedSysEx, ParseFailure>)
    requires AddressesNonEmpty(models)
    ensures r == Err(NotSysEx) <==> |data| == 0 || data[0] != SYSEX_START
    ensures r == Err(IncompleteSysEx) <==>
              |data| >= 1 && data[0] == SYSEX_START && (data[|data| - 1] != SYSEX_END || |data| == 2)
    ensures r == Err(NotDataByte) <==>
              |data| >= 3 && data[0] == SYSEX_START && data[|data| - 1] == SYSEX_END && !AllData(data[1..|data| - 1])
    ensures r.Ok? ==> |data| >= 3 && data[0] == SYSEX_START && data[|data| - 1] == SYSEX_END &&
                      AllData(data[1..|data| - 1]) &&
                      r.value == ParsedSysEx(data[1], ParseContent(models, data[1], data[2..|data| - 1]))
  {
    if |data| == 0 || data[0] != SYSEX_START then Err(NotSysEx)
    else
      var afterStart := data[1..];
      if |afterStart| == 0 || afterStart[|afterStart| - 1] != SYSEX_END then Err(IncompleteSysEx)
      else
        var inner := afterStart[..|afterStart| - 1];
        assert inner == data[1..|data| - 1];
        if !AllData(inner) then Err(NotDataByte)
        else if |inner| == 0 then Err(IncompleteSysEx)
        else
          assert inner[1..] == data[2..|data| - 1];
          Ok(ParsedSysEx(inner[0], ParseContent(models, inner[0], inner[1..])))
  }

  /** A framed body of data bytes parses as its manufacturer id and content. */
  lemma ParseFramed(models: seq<ModelInfo>, manufacturerId: byte, body: seq<byte>)
    requires AddressesNonEmpty(models) && IsDataByte(manufacturerId) && AllData(body)
    ensures ParseSysEx(models, [SYSEX_START, manufacturerId] + body + [SYSEX_END]) ==
            Ok(ParsedSysEx(manufacturerId, ParseContent(models, manufacturerId, body)))
  {
    var data := [SYSEX_START, manufacturerId] + body + [SYSEX_END];
    assert data[1..|data| - 1] == [manufacturerId] + body;
    assert data[2..|data| - 1] == body;
    AllDataAppend([manufacturerId], body);
  }

  /** A framed Roland body of data bytes that the Roland interpreter parses
    * gives a parsed Roland message. */
  lemma ParseFramedRoland(models: seq<ModelInfo>, body: seq<byte>, b: RolandBody)
    requires AddressesNonEmpty(models) && AllData(body) && ParseBody(models, body) == Some(b)
    ensures ParseSysEx(models, [SYSEX_START, MF_ID_ROLAND] + body + [SYSEX_END]) ==
            Ok(ParsedSysEx(MF_ID_ROLAND, Parsed(RolandParsed(b))))
  {
    ParseFramed(models, MF_ID_ROLAND, body);
  }

  /** What generating a content appends: raw bytes as they are, a parsed body
    * as its interpreter generates it. */
  function ContentBytes(c: MaybeParsed<ParsedSysExBody>): seq<byte> {
    match c
    case Unknown(bytes) => bytes
    case Parsed(RolandParsed(b)) => BodyBytes(b)
    case Parsed(UniversalParsed(u)) => UniversalBytes(u)
  }

  /** A complete message: `F0h`, the manufacturer id, the content, `F7h`. */
  function SysExBytes(p: ParsedSysEx): seq<byte> {
    [SYSEX_START, p.manufacturerId] + ContentBytes(p.content) + [SYSEX_END]
  }

  /** Generating a parsed message appends the complete message to `out`. */
  method GenerateSysEx(p: ParsedSysEx, out: seq<byte>) returns (out': seq<byte>)
    ensures out' == out + SysExBytes(p)
  {
    out' := out + [SYSEX_START, p.manufacturerId];
    match p.content {
      case Unknown(bytes) =>
        out' := out' + bytes;
      case Parsed(RolandParsed(b)) =>
        out' := GenerateBody(b, out');
      case Parsed(UniversalParsed(u)) =>
        out' := out' + UniversalBytes(u);
    }
    out' := out' + [SYSEX_END];
  }

  /** A content generated again after parsing gives back the body, unless it
    * is a Roland DT1 command with a wrong checksum. */
  predicate CorrectedOnRegeneration(c: MaybeParsed<ParsedSysExBody>) {
    c.Parsed? && c.parsed.RolandParsed? && c.parsed.roland.command.Parsed? &&
    !c.parsed.roland.command.parsed.validChecksum
  }

  lemma ParseThenGenerateContent(models: seq<ModelInfo>, manufacturerId: byte, body: seq<byte>)
    requires AddressesNonEmpty(models) && AllData(body)
    ensures var c := ParseContent(models, manufacturerId, body);
      ContentBytes(c) == body <==> !CorrectedOnRegeneration(c)
  {
    var c := ParseContent(models, manufacturerId, body);
    if c.Parsed? && c.parsed.RolandParsed? {
      ParseThenGenerateBody(models, body);
    }
  }

  /** Parsing a message and generating it again gives it back, except a
    * Roland DT1 command with a wrong checksum, which comes back corrected;
    * nothing else is lost. */
  lemma ParseThenGenerate(models: seq<ModelInfo>, data: seq<byte>)
    requires AddressesNonEmpty(models)
    requires ParseSysEx(models, data).Ok?
    ensures var p := ParseSysEx(models, data).value;
      SysExBytes(p) == data <==> !CorrectedOnRegeneration(p.content)
  {
    var p := ParseSysEx(models, data).value;
    var body := data[2..|data| - 1];
    assert data == [SYSEX_START, p.manufacturerId] + body + [SYSEX_END];
    assert AllData(body) by { assert forall i :: 0 <= i < |body| ==> body[i] == data[1..|data| - 1][i + 1]; }
    ParseThenGenerateContent(models, p.manufacturerId, body);
  }

  /** The start of the rendering of a message, naming its manufacturer. */
  function ManufacturerPrefix(manufacturerId: byte): string {
    if manufacturerId == MF_ID_ROLAND then "Roland"
    else if manufacturerId == MF_ID_UNIVERSAL_NON_REAL_TIME then "Universal Non-Real Time"
    else if manufacturerId == MF_ID_UNIVERSAL_REAL_TIME then "Universal Real Time"
    else "Manufacturer " + Hex2(manufacturerId) + "h"
  }

  /** Different manufacturers are rendered differently. */
  lemma ManufacturerPrefixDistinguishes(a: byte, b: byte)
    ensures ManufacturerPrefix(a) == ManufacturerPrefix(b) ==> a == b
  {
    var pa, pb := ManufacturerPrefix(a), ManufacturerPrefix(b);
    if pa == pb {
      if |pa| == 16 && pa[..13] == "Manufacturer " {
        assert pa[13..15] == Hex2(a) by { assert pa[..13] == "Manufacturer "; }
        ParseHex2RoundTrip(a);
        ParseHex2RoundTrip(b);
        assert pb[13..15] == Hex2(b);
      }
    }
  }

  /** `StaticSysExGenerator::generate`: appends exactly the stored bytes and
    * leaves what `out` held alone. */
  method GenerateStatic(stored: seq<byte>, out: seq<byte>) returns (out': seq<byte>)
    ensures |out'| == |out| + |stored| && out'[..|out|] == out && out'[|out|..] == stored
  {
    out' := out + stored;
  }

  /** The submenus of the top-level generator menu. The one it has is the
    * universal generator menu, which is not part of this model. */
  datatype GeneratorMenu = UniversalGenerators

  /** The labels and submenus of the top-level generator menu. */
  const SYSEX_GENERATORS: seq<(string, GeneratorMenu)> := [("Universal", UniversalGenerators)]

  /** The number of items in the top-level generator menu. */
  function TopItemsCount(): (n: nat)
    ensures n == 1
  {
    |SYSEX_GENERATORS|
  }

  /** The label of an item of the top-level generator menu. */
  function TopItemLabel(i: nat): (name: string)
    requires i < TopItemsCount()
    ensures name == "Universal"
  {
    SYSEX_GENERATORS[i].0
  }

  /** Descending an item of the top-level generator menu always leads to a
    * submenu, never straight to a message. */
  function TopItemDescend(i: nat): (r: MenuItemResult<GeneratorMenu, seq<byte>>)
    requires i < TopItemsCount()
    ensures r.Submenu? && r.menu == UniversalGenerators
  {
    Submenu(SYSEX_GENERATORS[i].1)
  }
}
