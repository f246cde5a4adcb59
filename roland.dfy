/** Roland "Type IV" exclusive messages: the body after the manufacturer id is
  * a device id, a model id, a command id and the command. Only the "Data set
  * 1" (DT1) command is understood: an address whose size depends on the
  * model, data, and a checksum. Addresses are looked up in the model's
  * two-level address map. */
module Roland {
  import opened Wrappers
  import opened Bytes
  import opened SysExCommon
  import opened RolandTypes

  /** "Data set 1". */
  const CM_ID_DT1: seq<byte> := [0x12]

  // ------------------------------------------------------ variable-length ids

  /** A model or command id: any number of 00h bytes, then one non-zero byte. */
  predicate IsVariableLengthId(id: seq<byte>) {
    |id| >= 1 && id[|id| - 1] != 0 && forall i :: 0 <= i < |id| - 1 ==> id[i] == 0
  }

  /** Splits a variable-length id off the front of `data`; there is none when
    * `data` holds no non-zero byte. */
  function VariableLengthId(data: seq<byte>): (r: Option<(seq<byte>, seq<byte>)>)
    ensures r.Some? ==> r.value.0 + r.value.1 == data && IsVariableLengthId(r.value.0)
    ensures r.None? <==> forall i :: 0 <= i < |data| ==> data[i] == 0
  {
    if data == [] then None
    else if data[0] != 0 then Some(([data[0]], data[1..]))
    else
      match VariableLengthId(data[1..])
      case None => None
      case Some((id, rest)) => Some(([0] + id, rest))
  }

  /** An id and what follows it determine the split: the id ends at the first
    * non-zero byte. */
  lemma {:induction false} VariableLengthIdUnique(id: seq<byte>, rest: seq<byte>)
    requires IsVariableLengthId(id)
    ensures VariableLengthId(id + rest) == Some((id, rest))
  {
    if |id| > 1 {
      assert (id + rest)[1..] == id[1..] + rest;
      VariableLengthIdUnique(id[1..], rest);
      assert [0] + id[1..] == id;
    }
  }

  /** `consume_variable_length_id`: the loop that moves `idEnd` past 00h bytes. */
  method ConsumeVariableLengthId(data: seq<byte>) returns (r: Option<(seq<byte>, seq<byte>)>)
    ensures r == VariableLengthId(data)
  {
    var idEnd := 1;
    while true
      invariant 1 <= idEnd <= |data| + 1
      invariant forall i :: 0 <= i < idEnd - 1 ==> data[i] == 0
      decreases |data| + 1 - idEnd
    {
      if idEnd > |data| {
        return None;
      } else if data[idEnd - 1] == 0 {
        idEnd := idEnd + 1;
      } else {
        VariableLengthIdUnique(data[..idEnd], data[idEnd..]);
        assert data[..idEnd] + data[idEnd..] == data;
        return Some((data[..idEnd], data[idEnd..]));
      }
    }
  }

  // ------------------------------------------------------------- checksum

  /** The plain sum of the bytes. */
  function Sum(s: seq<byte>): nat {
    if s == [] then 0 else Sum(s[..|s| - 1]) + s[|s| - 1]
  }

  /** What `compute_checksum` computes: the sum modulo 128. */
  function Checksum(s: seq<byte>): (c: byte)
    ensures c < 0x80
  {
    Sum(s) % 0x80
  }

  /** `compute_checksum`: `sum = (sum + byte) & 0x7F` on a `u8`, which wraps at
    * 256 before the mask is applied. */
  method ComputeChecksum(data: seq<byte>) returns (sum: byte)
    ensures sum == Checksum(data)
  {
    sum := 0;
    for i := 0 to |data|
      invariant sum == Sum(data[..i]) % 0x80
    {
      assert data[..i + 1][..i] == data[..i];
      WrapThenMask(sum, data[i], Sum(data[..i]));
      sum := ((sum + data[i]) % 0x100) % 0x80;
    }
    assert data[..|data|] == data;
  }

  /** Wrapping at 256 and masking to seven bits is the sum modulo 128, and the
    * running value may itself be kept modulo 128. */
  lemma WrapThenMask(acc: nat, b: nat, total: nat)
    requires acc == total % 0x80
    ensures ((acc + b) % 0x100) % 0x80 == (total + b) % 0x80
  {
    var x := acc + b;
    assert x % 0x100 == x - (x / 0x100) * 0x100;
    assert (x % 0x100) % 0x80 == x % 0x80 by {
      DivModStep(x, x / 0x100);
    }
    assert total == (total / 0x80) * 0x80 + acc;
    assert total + b == (total / 0x80) * 0x80 + x;
    ShiftMod(x, total / 0x80);
  }

  lemma DivModStep(x: nat, q: nat)
    requires q * 0x100 <= x
    ensures (x - q * 0x100) % 0x80 == x % 0x80
  {
    ShiftMod(x - q * 0x100, 2 * q);
  }

  /** Adding a multiple of 128 does not change a value modulo 128. */
  lemma ShiftMod(x: nat, k: nat)
    ensures (k * 0x80 + x) % 0x80 == x % 0x80
  {
    var y := k * 0x80 + x;
    var q, r := x / 0x80, x % 0x80;
    assert x == q * 0x80 + r;
    assert y == (k + q) * 0x80 + r;
    DivModUnique(y, k + q, r);
  }

  lemma DivModUnique(y: int, q: int, r: int)
    requires 0 <= r < 0x80 && y == q * 0x80 + r
    ensures y % 0x80 == r
  {
  }

  /** `validate_checksum`: the bytes including the checksum sum to 0 modulo 128. */
  predicate ValidChecksum(s: seq<byte>) {
    Checksum(s) == 0
  }

  /** `generate_checksum`: `(0x80 - sum) & 0x7F`. */
  function GenerateChecksum(s: seq<byte>): (c: byte)
    ensures c < 0x80
  {
    (0x80 - Checksum(s)) % 0x80
  }

  /** The generated checksum is the only data byte that makes the message
    * valid. */
  lemma GenerateChecksumValidates(s: seq<byte>, c: byte)
    requires c < 0x80
    ensures ValidChecksum(s + [c]) <==> c == GenerateChecksum(s)
  {
    var t := s + [c];
    assert t[..|t| - 1] == s;
    assert Sum(t) == Sum(s) + c;
    var k := Sum(s) / 0x80;
    assert Sum(s) == k * 0x80 + Checksum(s);
    ShiftMod(Checksum(s) + c, k);
  }

  /** Changing one byte of a valid message to another data byte makes it invalid. */
  lemma SingleByteChangeDetected(s: seq<byte>, i: nat, b: byte)
    requires ValidChecksum(s) && i < |s| && AllData(s) && b < 0x80 && b != s[i]
    ensures !ValidChecksum(s[i := b])
  {
    SumUpdate(s, i, b);
    var t := s[i := b];
    var k := Sum(s) / 0x80;
    assert Sum(s) == k * 0x80;
    if b > s[i] {
      assert Sum(t) == k * 0x80 + (b - s[i]);
      ShiftMod(b - s[i], k);
    } else {
      assert k >= 1;
      assert Sum(t) == (k - 1) * 0x80 + (0x80 - (s[i] - b));
      ShiftMod(0x80 - (s[i] - b), k - 1);
    }
  }

  /** Replacing one byte changes the sum by the difference. */
  lemma {:induction false} SumUpdate(s: seq<byte>, i: nat, b: byte)
    requires i < |s|
    ensures Sum(s[i := b]) + s[i] == Sum(s) + b
  {
    var t := s[i := b];
    if i == |s| - 1 {
      assert t[..|t| - 1] == s[..|s| - 1];
    } else {
      assert t[..|t| - 1] == s[..|s| - 1][i := b];
      SumUpdate(s[..|s| - 1], i, b);
    }
  }

  // --------------------------------------------------------------- lookup

  /** `p` is a prefix of `s`, as `strip_prefix` succeeds. */
  predicate IsPrefix(p: seq<byte>, s: seq<byte>) {
    |p| <= |s| && s[..|p|] == p
  }

  /** The first block at or after `from` whose prefix starts `address`. */
  function FirstBlock(blocks: AddressBlockMap, address: seq<byte>, from: nat): (r: Option<nat>)
    ensures r.Some? ==> from <= r.value < |blocks| && IsPrefix(blocks[r.value].0, address) &&
                        forall j :: from <= j < r.value ==> !IsPrefix(blocks[j].0, address)
    ensures r.None? ==> forall j :: from <= j < |blocks| ==> !IsPrefix(blocks[j].0, address)
    decreases |blocks| - from
  {
    if from >= |blocks| then None
    else if IsPrefix(blocks[from].0, address) then Some(from)
    else FirstBlock(blocks, address, from + 1)
  }

  /** The first entry at or after `from` whose key is exactly `key`: the
    * `find` over a parameter address map and over an enumeration's values. */
  function FirstWithKey<V>(entries: seq<(seq<byte>, V)>, key: seq<byte>, from: nat): (r: Option<nat>)
    ensures r.Some? ==> from <= r.value < |entries| && entries[r.value].0 == key &&
                        forall j :: from <= j < r.value ==> entries[j].0 != key
    ensures r.None? ==> forall j :: from <= j < |entries| ==> entries[j].0 != key
    decreases |entries| - from
  {
    if from >= |entries| then None
    else if entries[from].0 == key then Some(from)
    else FirstWithKey(entries, key, from + 1)
  }

  /** `look_up_parameter`: the first block whose prefix starts the address,
    * with the prefix's length, and the parameter whose suffix is the rest of
    * the address. */
  function LookUpParameter(model: ModelInfo, address: seq<byte>): (r: (Option<(string, nat)>, Option<Parameter>))
    ensures r.1.Some? ==> r.0.Some?
    ensures r.0.Some? ==> r.0.value.1 <= |address|
  {
    match FirstBlock(model.blocks, address, 0)
    case None => (None, None)
    case Some(i) =>
      var (prefix, name, params) := model.blocks[i];
      var suffix := address[|prefix|..];
      (Some((name, |prefix|)), match FirstWithKey(params, suffix, 0) case None => None case Some(k) => Some(params[k].1))
  }

  /** No block whose prefix starts the address: nothing is found. */
  lemma LookUpParameterMisses(model: ModelInfo, address: seq<byte>)
    requires forall j :: 0 <= j < |model.blocks| ==> !IsPrefix(model.blocks[j].0, address)
    ensures LookUpParameter(model, address) == (None, None)
  {
    var r := FirstBlock(model.blocks, address, 0);
    assert r.None?;
  }

  /** When block `i` is the first whose prefix starts the address, the lookup
    * names it with its prefix size, and finds a parameter exactly when one of
    * the block's suffixes is the rest of the address, the first such. */
  lemma LookUpParameterFinds(model: ModelInfo, address: seq<byte>, i: nat)
    requires i < |model.blocks| && IsPrefix(model.blocks[i].0, address)
    requires forall j :: 0 <= j < i ==> !IsPrefix(model.blocks[j].0, address)
    ensures var (prefix, name, params) := model.blocks[i];
      var r := LookUpParameter(model, address);
      r.0 == Some((name, |prefix|)) &&
      (r.1.Some? <==> exists k :: 0 <= k < |params| && params[k].0 == address[|prefix|..]) &&
      (forall k :: (0 <= k < |params| && params[k].0 == address[|prefix|..] &&
                    (forall l :: 0 <= l < k ==> params[l].0 != address[|prefix|..])) ==> r.1 == Some(params[k].1))
  {
    var r := FirstBlock(model.blocks, address, 0);
    assert r == Some(i);
    var f := FirstWithKey(model.blocks[i].2, address[|model.blocks[i].0|..], 0);
  }

  // -------------------------------------------------------------- command

  /** `ParsedRolandSysExCommand::DT1`: the raw address and data, and what was
    * made of them: checksum validity, the block's name and prefix size, the
    * parameter, and whether the data size disagrees with the parameter's. */
  datatype Command = DT1(
    address: seq<byte>,
    data: seq<byte>,
    validChecksum: bool,
    block: Option<(string, nat)>,
    param: Option<Parameter>,
    invalidSize: bool)

  /** `parse_sysex_command`: only DT1 is understood; its body is the address,
    * the data and a checksum byte, and the checksum covers the whole body.
    * The source computes `body.len() - 1` once the address fits, which
    * panics on an empty body when the address size is 0; callers must not
    * get there. */
  function ParseCommand(model: ModelInfo, commandId: seq<byte>, body: seq<byte>): (r: Option<Command>)
    requires model.addressSize > 0 || |body| > 0
    ensures r.Some? <==> commandId == CM_ID_DT1 && model.addressSize < |body|
    ensures r.Some? ==> |r.value.address| == model.addressSize &&
                        r.value.address + r.value.data + [body[|body| - 1]] == body
    ensures r.Some? ==> r.value.validChecksum == ValidChecksum(body)
    ensures r.Some? ==> (r.value.block, r.value.param) == LookUpParameter(model, r.value.address)
    ensures r.Some? ==> (r.value.invalidSize <==> r.value.param.Some? && r.value.param.value.size != |r.value.data|)
  {
    if commandId != CM_ID_DT1 then None
    else
      var addressEnd := model.addressSize;
      if addressEnd > |body| then None
      else
        var checksumBegin := |body| - 1;
        if checksumBegin < addressEnd then None
        else
          var address := body[..addressEnd];
          var data := body[addressEnd..checksumBegin];
          assert address + data + [body[checksumBegin]] == body;
          var (block, param) := LookUpParameter(model, address);
          var invalidSize := match param case None => false case Some(p) => p.size != |data|;
          Some(DT1(address, data, ValidChecksum(body), block, param, invalidSize))
  }

  /** What generating a DT1 command appends: the address, the data, and a
    * checksum computed over just those. */
  function CommandBytes(c: Command): seq<byte> {
    c.address + c.data + [GenerateChecksum(c.address + c.data)]
  }

  /** Generating a DT1 command: the checksum is computed over the bytes this
    * call appended, not over anything already in `out`. */
  method GenerateCommand(c: Command, out: seq<byte>) returns (out': seq<byte>)
    ensures out' == out + CommandBytes(c)
  {
    var commandStart := |out|;
    out' := out + c.address;
    out' := out' + c.data;
    assert out'[commandStart..] == c.address + c.data;
    out' := out' + [GenerateChecksum(out'[commandStart..])];
  }

  /** Parsing a DT1 body and generating it again gives the body back exactly
    * when its checksum was valid. */
  lemma ParseThenGenerateCommand(model: ModelInfo, commandId: seq<byte>, body: seq<byte>)
    requires model.addressSize > 0 || |body| > 0
    requires ParseCommand(model, commandId, body).Some? && body[|body| - 1] < 0x80
    ensures var c := ParseCommand(model, commandId, body).value;
      CommandBytes(c) == body <==> c.validChecksum
  {
    var c := ParseCommand(model, commandId, body).value;
    var last := body[|body| - 1];
    assert body == (c.address + c.data) + [last];
    GenerateChecksumValidates(c.address + c.data, last);
    if CommandBytes(c) == body {
      assert CommandBytes(c)[|body| - 1] == GenerateChecksum(c.address + c.data);
    }
  }

  /** `data_is_out_of_range`: a known parameter of the right size, and some
    * data byte outside its range. */
  predicate DataIsOutOfRange(c: Command) {
    c.param.Some? && !c.invalidSize && AnyOutside(c.data, c.param.value.rangeStart, c.param.value.rangeEnd)
  }

  /** Some byte of `data` lies outside `lo..=hi`. */
  function AnyOutside(data: seq<byte>, lo: byte, hi: byte): (r: bool)
    ensures r <==> exists i :: 0 <= i < |data| && !(lo <= data[i] <= hi)
  {
    if data == [] then false
    else if !(lo <= data[0] <= hi) then true
    else
      var r := AnyOutside(data[1..], lo, hi);
      assert forall i :: 1 <= i < |data| ==> data[i] == data[1..][i - 1];
      r
  }

  // ----------------------------------------------------------------- body

  /** `ParsedRolandSysExBody::TypeIV`. */
  datatype RolandBody = TypeIV(
    deviceId: byte,
    modelId: seq<byte>,
    modelName: Option<string>,
    commandId: seq<byte>,
    command: MaybeParsed<Command>)

  /** The first of `models` whose id is `modelId`. */
  function FindModel(models: seq<ModelInfo>, modelId: seq<byte>, from: nat): (r: Option<nat>)
    ensures r.Some? ==> from <= r.value < |models| && models[r.value].modelId == modelId &&
                        forall j :: from <= j < r.value ==> models[j].modelId != modelId
    ensures r.None? ==> forall j :: from <= j < |models| ==> models[j].modelId != modelId
    decreases |models| - from
  {
    if from >= |models| then None
    else if models[from].modelId == modelId then Some(from)
    else FindModel(models, modelId, from + 1)
  }

  /** Every model's DT1 address is at least one byte long, so that the
    * command parser never meets an empty body with nothing to take for the
    * address. `MODELS` has this property. */
  predicate AddressesNonEmpty(models: seq<ModelInfo>) {
    forall i :: 0 <= i < |models| ==> models[i].addressSize > 0
  }

  /** The fields before the command: the device id, then the model id and the
    * command id, each a variable-length id; the rest is the command's body. */
  function SplitIds(body: seq<byte>): (r: Option<(byte, seq<byte>, seq<byte>, seq<byte>)>)
    ensures r.Some? <==> |body| >= 1 && VariableLengthId(body[1..]).Some? &&
                         VariableLengthId(VariableLengthId(body[1..]).value.1).Some?
    ensures r.Some? ==> [r.value.0] + r.value.1 + r.value.2 + r.value.3 == body &&
                        IsVariableLengthId(r.value.1) && IsVariableLengthId(r.value.2)
  {
    if body == [] then None
    else
      match VariableLengthId(body[1..])
      case None => None
      case Some((modelId, afterModel)) =>
        match VariableLengthId(afterModel)
        case None => None
        case Some((commandId, rest)) =>
          assert [body[0]] + modelId + commandId + rest == body by {
            assert body == [body[0]] + body[1..];
          }
          Some((body[0], modelId, commandId, rest))
  }

  /** The command of a body whose model and command ids are known: parsed when
    * the model is found and the command understood, otherwise the raw bytes. */
  function CommandOf(models: seq<ModelInfo>, modelId: seq<byte>, commandId: seq<byte>, rest: seq<byte>): (r: MaybeParsed<Command>)
    requires AddressesNonEmpty(models)
    ensures r.Unknown? ==> r.bytes == rest
    ensures r.Parsed? <==> FindModel(models, modelId, 0).Some? &&
                           ParseCommand(models[FindModel(models, modelId, 0).value], commandId, rest).Some?
    ensures r.Parsed? ==> Some(r.parsed) == ParseCommand(models[FindModel(models, modelId, 0).value], commandId, rest)
  {
    match FindModel(models, modelId, 0)
    case None => Unknown(rest)
    case Some(i) =>
      match ParseCommand(models[i], commandId, rest)
      case None => Unknown(rest)
      case Some(c) => Parsed(c)
  }

  /** `parse_sysex_body`: the device id, the model id, the command id, and the
    * command, parsed when the model is one of `models` (`MODELS` in the
    * source) and the command is understood. */
  function ParseBody(models: seq<ModelInfo>, body: seq<byte>): (r: Option<RolandBody>)
    requires AddressesNonEmpty(models)
    ensures r.Some? <==> |body| >= 1 && VariableLengthId(body[1..]).Some? &&
                         VariableLengthId(VariableLengthId(body[1..]).value.1).Some?
    ensures r.Some? ==> r.value.deviceId == body[0] && IsVariableLengthId(r.value.modelId) &&
                        IsVariableLengthId(r.value.commandId)
    ensures r.Some? ==> (r.value.modelName.Some? <==> exists j :: 0 <= j < |models| && models[j].modelId == r.value.modelId)
    ensures r.Some? && r.value.command.Unknown? ==>
      [body[0]] + r.value.modelId + r.value.commandId + r.value.command.bytes == body
  {
    match SplitIds(body)
    case None => None
    case Some((deviceId, modelId, commandId, rest)) =>
      var model := FindModel(models, modelId, 0);
      var modelName := match model case None => None case Some(i) => Some(models[i].name);
      Some(TypeIV(deviceId, modelId, modelName, commandId, CommandOf(models, modelId, commandId, rest)))
  }

  /** What generating a body appends. An unparsed command is written back as
    * its raw bytes. */
  function BodyBytes(b: RolandBody): seq<byte> {
    [b.deviceId] + b.modelId + b.commandId +
      match b.command
      case Unknown(bytes) => bytes
      case Parsed(c) => CommandBytes(c)
  }

  /** Generating a body: device id, model id, command id, then the command. */
  method GenerateBody(b: RolandBody, out: seq<byte>) returns (out': seq<byte>)
    ensures out' == out + BodyBytes(b)
  {
    out' := out + [b.deviceId];
    out' := out' + b.modelId;
    out' := out' + b.commandId;
    match b.command {
      case Unknown(bytes) =>
        out' := out' + bytes;
      case Parsed(c) =>
        out' := GenerateCommand(c, out');
    }
  }

  /** Parsing a body of data bytes and generating it again reproduces it,
    * unless it holds a DT1 command with a wrong checksum, which comes back
    * with the checksum corrected. */
  lemma ParseThenGenerateBody(models: seq<ModelInfo>, body: seq<byte>)
    requires AddressesNonEmpty(models)
    requires ParseBody(models, body).Some? && AllData(body)
    ensures var b := ParseBody(models, body).value;
      BodyBytes(b) == body <==> (b.command.Unknown? || b.command.parsed.validChecksum)
  {
    var b := ParseBody(models, body).value;
    var (deviceId, modelId, commandId, rest) := SplitIds(body).value;
    var head := [b.deviceId] + b.modelId + b.commandId;
    assert body == head + rest;
    if b.command.Parsed? {
      var i := FindModel(models, modelId, 0).value;
      assert rest[|rest| - 1] == body[|body| - 1];
      ParseThenGenerateCommand(models[i], commandId, rest);
    }
  }

  // ------------------------------------------------------------- describe

  /** Whether every character of `s` is a decimal digit. */
  predicate IsDigits(s: string) {
    forall i :: 0 <= i < |s| ==> '0' <= s[i] <= '9'
  }

  /** The decimal digits of `n`. */
  function Decimal(n: nat): (s: string)
    ensures |s| >= 1 && IsDigits(s)
    decreases n
  {
    if n < 10 then [('0' as int + n) as char]
    else Decimal(n / 10) + [('0' as int + n % 10) as char]
  }

  /** Reading decimal digits back. */
  function DecimalValue(s: string): nat
    requires IsDigits(s)
  {
    if s == [] then 0 else DecimalValue(s[..|s| - 1]) * 10 + (s[|s| - 1] as int - '0' as int)
  }

  lemma {:induction false} DecimalRoundTrip(n: nat)
    ensures DecimalValue(Decimal(n)) == n
    decreases n
  {
    var s := Decimal(n);
    if n >= 10 {
      assert s[..|s| - 1] == Decimal(n / 10);
      DecimalRoundTrip(n / 10);
    }
  }

  /** A signed integer as `{}` prints it, or as `{:+}` when `plus` is set. */
  function SignedDecimal(v: int, plus: bool): string {
    if v < 0 then "-" + Decimal(-v)
    else if plus then "+" + Decimal(v)
    else Decimal(v)
  }

  /** Reading a signed decimal back: an optional sign, then at least one digit. */
  function SignedDecimalValue(s: string): Option<int> {
    if s == [] then None
    else if s[0] == '-' || s[0] == '+' then
      var digits := s[1..];
      if digits == [] || !IsDigits(digits) then None
      else
        var n: int := DecimalValue(digits);
        if s[0] == '-' then Some(-n) else Some(n)
    else if IsDigits(s) then Some(DecimalValue(s))
    else None
  }

  /** The integer part of `Parameter::describe`: for a single data byte,
    * " = " and the value less the zero offset, with an explicit sign when the
    * zero offset is neither end of the range. `Other` describes nothing. */
  function DescribeValue(p: Parameter, data: seq<byte>): (s: string)
    requires |data| == p.size
  {
    if p.description.Other? || |data| != 1 then ""
    else
      var zeroOffset := if p.description.Numeric? then p.description.zeroOffset else 0;
      var differingSigns := zeroOffset != p.rangeStart && zeroOffset != p.rangeEnd;
      " = " + SignedDecimal(data[0] - zeroOffset, differingSigns)
  }

  /** The name `describe` gives an enumerated value: that of the first entry
    * whose bytes are the data, after an em dash or in brackets. */
  function DescribeName(p: Parameter, data: seq<byte>, emDash: bool): string
    requires |data| == p.size
  {
    if !p.description.Enum? then ""
    else
      var values := p.description.values;
      match FirstWithKey(values, data, 0)
      case None => ""
      case Some(k) => if emDash then " — " + values[k].1 else " [" + values[k].1 + "]"
  }

  /** `describe` without the unit conversion: the value, then the name. */
  function Describe(p: Parameter, data: seq<byte>, emDash: bool): string
    requires |data| == p.size
  {
    DescribeValue(p, data) + DescribeName(p, data, emDash)
  }

  /** A signed decimal reads back as its value, and starts with a plus sign
    * exactly when one was asked for and the value is not negative. */
  lemma SignedDecimalRoundTrip(v: int, plus: bool)
    ensures SignedDecimalValue(SignedDecimal(v, plus)) == Some(v)
    ensures SignedDecimal(v, plus)[0] == '+' <==> plus && v >= 0
  {
    if v < 0 {
      NegativeRoundTrip(v, plus);
    } else if plus {
      PlusRoundTrip(v);
    } else {
      UnsignedRoundTrip(v);
    }
  }

  lemma NegativeRoundTrip(v: int, plus: bool)
    requires v < 0
    ensures SignedDecimalValue(SignedDecimal(v, plus)) == Some(v) && SignedDecimal(v, plus)[0] == '-'
  {
    var n: nat := -v;
    SignedRoundTrip('-', n);
    assert SignedDecimal(v, plus) == "-" + Decimal(n);
  }

  lemma PlusRoundTrip(v: nat)
    ensures SignedDecimalValue(SignedDecimal(v, true)) == Some(v) && SignedDecimal(v, true)[0] == '+'
  {
    SignedRoundTrip('+', v);
    assert SignedDecimal(v, true) == "+" + Decimal(v);
  }

  lemma UnsignedRoundTrip(n: nat)
    ensures SignedDecimalValue(SignedDecimal(n, false)) == Some(n) && SignedDecimal(n, false)[0] != '+'
  {
    DecimalRoundTrip(n);
    var d := Decimal(n);
    assert SignedDecimal(n, false) == d;
    assert '0' <= d[0] <= '9';
  }

  lemma SignedRoundTrip(sign: char, n: nat)
    requires sign == '-' || sign == '+'
    ensures SignedDecimalValue([sign] + Decimal(n)) == Some(if sign == '-' then 0 - n else n as int)
  {
    var t := [sign] + Decimal(n);
    DecimalRoundTrip(n);
    assert t[1..] == Decimal(n);
  }

  /** What the value part shows: nothing for `Other` or several bytes;
    * otherwise a number that reads back as the byte less the zero offset
    * (0 for enumerations), signed explicitly exactly when the zero offset
    * is neither end of the range. */
  lemma DescribeValueShows(p: Parameter, data: seq<byte>)
    requires |data| == p.size
    ensures p.description.Other? || |data| != 1 <==> DescribeValue(p, data) == ""
    ensures !p.description.Other? && |data| == 1 ==>
      var zeroOffset := if p.description.Numeric? then p.description.zeroOffset else 0;
      var s := DescribeValue(p, data);
      |s| > 3 && s[..3] == " = " &&
      SignedDecimalValue(s[3..]) == Some(data[0] - zeroOffset) &&
      (s[3] == '+' <==> data[0] >= zeroOffset && zeroOffset != p.rangeStart && zeroOffset != p.rangeEnd)
  {
    if !p.description.Other? && |data| == 1 {
      var zeroOffset := if p.description.Numeric? then p.description.zeroOffset else 0;
      var plus := zeroOffset != p.rangeStart && zeroOffset != p.rangeEnd;
      var t := SignedDecimal(data[0] - zeroOffset, plus);
      SignedDecimalRoundTrip(data[0] - zeroOffset, plus);
      assert DescribeValue(p, data)[3..] == t;
    }
  }

  /** An enumeration that names every value of the parameter's one-byte
    * range, in order, each once. */
  predicate EnumeratesRange(p: Parameter) {
    p.description.Enum? && p.size == 1 && p.rangeStart <= p.rangeEnd &&
    |p.description.values| == p.rangeEnd - p.rangeStart + 1 &&
    forall i :: 0 <= i < |p.description.values| ==> p.description.values[i].0 == [p.rangeStart + i]
  }

  /** For such an enumeration, `describe` names every value of the range, with
    * the name listed for it. */
  lemma EnumeratedValueNamed(p: Parameter, v: byte, emDash: bool)
    requires EnumeratesRange(p) && p.rangeStart <= v <= p.rangeEnd
    ensures var name := p.description.values[v - p.rangeStart].1;
      DescribeName(p, [v], emDash) == if emDash then " — " + name else " [" + name + "]"
  {
    var values := p.description.values;
    var k := v - p.rangeStart;
    assert values[k].0 == [v];
    assert forall j :: 0 <= j < k ==> values[j].0 != [v] by {
      forall j | 0 <= j < k ensures values[j].0 != [v] {
        assert values[j].0 == [p.rangeStart + j];
      }
    }
    assert FirstWithKey(values, [v], 0) == Some(k);
  }
}
