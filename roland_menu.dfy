/** The Roland generator menu: a chain of menus from the model, to the address
  * block, to the parameter, to its value, which ends in a generator of one
  * DT1 message. Each menu is the indices of the choices made so far in the
  * list of models (`MODELS` in the source) and its tables. */
module RolandMenu {
  import opened Wrappers
  import opened Bytes
  import opened SysExCommon
  import opened RolandTypes
  import opened Roland
  import opened SysEx

  datatype Menu =
    | ModelsMenu
    | AddressBlockMenu(model: nat)
    | ParameterAddressMenu(model: nat, block: nat)
    | ParameterValueMenu(model: nat, block: nat, param: nat)

  /** `DT1Generator`: the choices of the menus above it and the value. */
  datatype Dt1Generator = Dt1Generator(model: nat, block: nat, param: nat, value: byte)

  /** The indices a menu carries. */
  function MenuPath(m: Menu): seq<nat> {
    match m
    case ModelsMenu => []
    case AddressBlockMenu(i) => [i]
    case ParameterAddressMenu(i, b) => [i, b]
    case ParameterValueMenu(i, b, k) => [i, b, k]
  }

  /** A menu whose indices are in their tables. A value menu is only made for
    * a one-byte parameter: the source asserts this when descending. */
  predicate ValidMenu(models: seq<ModelInfo>, m: Menu) {
    match m
    case ModelsMenu => true
    case AddressBlockMenu(i) => i < |models|
    case ParameterAddressMenu(i, b) => i < |models| && b < |models[i].blocks|
    case ParameterValueMenu(i, b, k) =>
      i < |models| && b < |models[i].blocks| && k < |models[i].blocks[b].2| && models[i].blocks[b].2[k].1.size == 1
  }

  /** The parameter a value menu is for. */
  function ValueMenuParam(models: seq<ModelInfo>, m: Menu): Parameter
    requires m.ParameterValueMenu? && ValidMenu(models, m)
  {
    models[m.model].blocks[m.block].2[m.param].1
  }

  /** A generator whose indices are in their tables, for a one-byte parameter,
    * with a value in the parameter's range that is a data byte. */
  predicate ValidGenerator(models: seq<ModelInfo>, g: Dt1Generator) {
    var m := ParameterValueMenu(g.model, g.block, g.param);
    ValidMenu(models, m) &&
    ValueMenuParam(models, m).rangeStart <= g.value <= ValueMenuParam(models, m).rangeEnd && g.value < 0x80
  }

  /** The value menu's item count is the size of the parameter's range, which
    * the source computes in `usize` and so cannot do for an inverted range. */
  predicate CountableMenu(models: seq<ModelInfo>, m: Menu) {
    ValidMenu(models, m) &&
    (m.ParameterValueMenu? ==> ValueMenuParam(models, m).rangeStart <= ValueMenuParam(models, m).rangeEnd + 1)
  }

  /** `items_count`: models, blocks, parameters, or the values of the range. */
  function ItemsCount(models: seq<ModelInfo>, m: Menu): nat
    requires CountableMenu(models, m)
  {
    match m
    case ModelsMenu => |models|
    case AddressBlockMenu(i) => |models[i].blocks|
    case ParameterAddressMenu(i, b) => |models[i].blocks[b].2|
    case ParameterValueMenu(_, _, _) =>
      var p := ValueMenuParam(models, m);
      p.rangeEnd + 1 - p.rangeStart
  }

  /** `item_value`: the `i`th value of the range. The source asserts that it is
    * a data byte. */
  function ItemValue(models: seq<ModelInfo>, m: Menu, i: nat): (v: byte)
    requires m.ParameterValueMenu? && CountableMenu(models, m) && i < ItemsCount(models, m)
    requires ValueMenuParam(models, m).rangeStart + i < 0x80
    ensures ValueMenuParam(models, m).rangeStart <= v <= ValueMenuParam(models, m).rangeEnd && v < 0x80
    ensures v - ValueMenuParam(models, m).rangeStart == i
  {
    ValueMenuParam(models, m).rangeStart + i
  }

  /** `item_disabled`: a model without blocks, a block without parameters, a
    * parameter that is not one byte or whose values are not described. The
    * value menu keeps the trait's default, which is not part of this model. */
  function ItemDisabled(models: seq<ModelInfo>, m: Menu, i: nat): bool
    requires CountableMenu(models, m) && !m.ParameterValueMenu? && i < ItemsCount(models, m)
  {
    match m
    case ModelsMenu => |models[i].blocks| == 0
    case AddressBlockMenu(j) => |models[j].blocks[i].2| == 0
    case ParameterAddressMenu(j, b) =>
      var p := models[j].blocks[b].2[i].1;
      p.size != 1 || p.description.Other?
  }

  /** `item_descend`: the next menu, carrying the choice of item `i`, or for a
    * value the generator. The source asserts that a parameter chosen is one
    * byte and that a value chosen is a data byte. */
  function ItemDescend(models: seq<ModelInfo>, m: Menu, i: nat): (r: MenuItemResult<Menu, Dt1Generator>)
    requires CountableMenu(models, m) && i < ItemsCount(models, m)
    requires m.ParameterAddressMenu? ==> models[m.model].blocks[m.block].2[i].1.size == 1
    requires m.ParameterValueMenu? ==> ValueMenuParam(models, m).rangeStart + i < 0x80
    ensures r.Command? <==> m.ParameterValueMenu?
    ensures r.Submenu? ==> ValidMenu(models, r.menu) && MenuPath(r.menu) == MenuPath(m) + [i]
    ensures r.Command? ==>
      (ValidGenerator(models, r.command) &&
       [r.command.model, r.command.block, r.command.param] == MenuPath(m) &&
       r.command.value == ItemValue(models, m, i))
  {
    match m
    case ModelsMenu => Submenu(AddressBlockMenu(i))
    case AddressBlockMenu(j) => Submenu(ParameterAddressMenu(j, i))
    case ParameterAddressMenu(j, b) => Submenu(ParameterValueMenu(j, b, i))
    case ParameterValueMenu(j, b, k) => Command(Dt1Generator(j, b, k, ItemValue(models, m, i)))
  }

  /** The message a generator stands for: a Roland DT1 to the model's default
    * device, at the block's prefix followed by the parameter's suffix, with
    * the value as its one data byte. The fields the source marks meaningless
    * are left at their defaults. */
  function GeneratorMessage(models: seq<ModelInfo>, g: Dt1Generator): ParsedSysEx
    requires ValidGenerator(models, g)
  {
    var model := models[g.model];
    var (prefix, _, params) := model.blocks[g.block];
    var (suffix, param) := params[g.param];
    var command := DT1(prefix + suffix, [g.value], false, None, Some(param), false);
    ParsedSysEx(MF_ID_ROLAND, Parsed(RolandParsed(
      TypeIV(model.defaultDeviceId, model.modelId, None, CM_ID_DT1, Parsed(command)))))
  }

  /** The bytes a generator writes. */
  function GeneratorBytes(models: seq<ModelInfo>, g: Dt1Generator): seq<byte>
    requires ValidGenerator(models, g)
  {
    SysExBytes(GeneratorMessage(models, g))
  }

  /** `DT1Generator::generate`: builds the address from the prefix and the
    * suffix, then generates the message. */
  method GenerateDt1(models: seq<ModelInfo>, g: Dt1Generator, out: seq<byte>) returns (out': seq<byte>)
    requires ValidGenerator(models, g)
    ensures out' == out + GeneratorBytes(models, g)
  {
    var model := models[g.model];
    var (prefix, _, params) := model.blocks[g.block];
    var (suffix, param) := params[g.param];
    var address := [];
    address := address + prefix;
    address := address + suffix;
    assert address == prefix + suffix;
    var command := DT1(address, [g.value], false, None, Some(param), false);
    var message := ParsedSysEx(MF_ID_ROLAND, Parsed(RolandParsed(
      TypeIV(model.defaultDeviceId, model.modelId, None, CM_ID_DT1, Parsed(command)))));
    assert message == GeneratorMessage(models, g);
    out' := GenerateSysEx(message, out);
  }

  // ------------------------------------------------------- well-formed tables

  /** A block whose prefix and suffixes are data bytes, whose every address
    * has the model's size, whose suffixes are distinct, and whose parameters
    * have ranges of data bytes. */
  predicate WellFormedBlock(block: (seq<byte>, string, ParameterAddressMap), addressSize: nat) {
    var (prefix, _, params) := block;
    AllData(prefix) &&
    (forall k :: 0 <= k < |params| ==>
       AllData(params[k].0) && |prefix| + |params[k].0| == addressSize &&
       params[k].1.rangeStart <= params[k].1.rangeEnd < 0x80) &&
    (forall k, l :: 0 <= k < l < |params| ==> params[k].0 != params[l].0)
  }

  /** A model whose id is a variable-length id of data bytes, whose default
    * device is a data byte, and whose blocks are well formed and have
    * distinct prefixes of one length. */
  predicate WellFormedModel(model: ModelInfo) {
    IsVariableLengthId(model.modelId) && AllData(model.modelId) && IsDataByte(model.defaultDeviceId) &&
    model.addressSize > 0 &&
    (forall b :: 0 <= b < |model.blocks| ==> WellFormedBlock(model.blocks[b], model.addressSize)) &&
    (forall b, c :: 0 <= b < c < |model.blocks| ==>
       |model.blocks[b].0| == |model.blocks[c].0| && model.blocks[b].0 != model.blocks[c].0)
  }

  /** Well-formed models with distinct ids. */
  predicate WellFormedModels(models: seq<ModelInfo>) {
    (forall i :: 0 <= i < |models| ==> WellFormedModel(models[i])) &&
    (forall i, j :: 0 <= i < j < |models| ==> models[i].modelId != models[j].modelId)
  }

  lemma WellFormedAddresses(models: seq<ModelInfo>)
    requires WellFormedModels(models)
    ensures AddressesNonEmpty(models)
  {
    assert forall i :: 0 <= i < |models| ==> WellFormedModel(models[i]);
  }

  // ------------------------------------------------------------- properties

  /** In a well-formed model, looking up a block's prefix followed by one of
    * its suffixes finds that block, with its prefix size, and that parameter. */
  lemma LookUpTableEntry(model: ModelInfo, b: nat, k: nat)
    requires WellFormedModel(model) && b < |model.blocks| && k < |model.blocks[b].2|
    ensures var (prefix, name, params) := model.blocks[b];
      LookUpParameter(model, prefix + params[k].0) == (Some((name, |prefix|)), Some(params[k].1))
  {
    var (prefix, name, params) := model.blocks[b];
    var address := prefix + params[k].0;
    assert address[..|prefix|] == prefix;
    assert forall j :: 0 <= j < b ==> !IsPrefix(model.blocks[j].0, address);
    LookUpParameterFinds(model, address, b);
    assert address[|prefix|..] == params[k].0;
    assert WellFormedBlock(model.blocks[b], model.addressSize);
    assert forall l :: 0 <= l < k ==> params[l].0 != params[k].0;
  }

  /** The command a generator writes parses back as DT1 with a valid checksum,
    * the generator's address, its value as the data, and the block and
    * parameter found by lookup, of the right size. */
  lemma GeneratedCommandParses(model: ModelInfo, b: nat, k: nat, value: byte)
    requires WellFormedModel(model) && b < |model.blocks| && k < |model.blocks[b].2|
    requires model.blocks[b].2[k].1.size == 1 && value < 0x80
    ensures var (prefix, name, params) := model.blocks[b];
      var command := DT1(prefix + params[k].0, [value], false, None, Some(params[k].1), false);
      ParseCommand(model, CM_ID_DT1, CommandBytes(command)) ==
        Some(DT1(prefix + params[k].0, [value], true, Some((name, |prefix|)), Some(params[k].1), false))
  {
    var (prefix, name, params) := model.blocks[b];
    var address := prefix + params[k].0;
    assert WellFormedBlock(model.blocks[b], model.addressSize);
    var command := DT1(address, [value], false, None, Some(params[k].1), false);
    var bytes := CommandBytes(command);
    var checksum := GenerateChecksum(address + [value]);
    assert bytes == (address + [value]) + [checksum];
    GenerateChecksumValidates(address + [value], checksum);
    assert bytes[..|address|] == address;
    assert bytes[|address|..|bytes| - 1] == [value];
    LookUpTableEntry(model, b, k);
  }

  /** Every byte a generator writes between `F0h` and `F7h` is a data byte. */
  lemma GeneratedBodyIsData(models: seq<ModelInfo>, g: Dt1Generator)
    requires WellFormedModels(models) && ValidGenerator(models, g)
    ensures var p := GeneratorMessage(models, g);
      AllData(BodyBytes(p.content.parsed.roland))
  {
    var model := models[g.model];
    assert WellFormedModel(model);
    var (prefix, _, params) := model.blocks[g.block];
    assert WellFormedBlock(model.blocks[g.block], model.addressSize);
    var address := prefix + params[g.param].0;
    AllDataAppend(prefix, params[g.param].0);
    var data := address + [g.value];
    AllDataAppend(address, [g.value]);
    var head := [model.defaultDeviceId] + model.modelId;
    AllDataAppend([model.defaultDeviceId], model.modelId);
    AllDataAppend(head, CM_ID_DT1);
    AllDataAppend(data, [GenerateChecksum(data)]);
    AllDataAppend(head + CM_ID_DT1, data + [GenerateChecksum(data)]);
    assert BodyBytes(GeneratorMessage(models, g).content.parsed.roland) == head + CM_ID_DT1 + (data + [GenerateChecksum(data)]);
  }

  /** The DT1 command a generator's message should parse as: its address and
    * value, a valid checksum, its block with the prefix size, its parameter,
    * and no size error. */
  function ExpectedCommand(models: seq<ModelInfo>, g: Dt1Generator): Command
    requires ValidGenerator(models, g)
  {
    var (prefix, name, params) := models[g.model].blocks[g.block];
    DT1(prefix + params[g.param].0, [g.value], true, Some((name, |prefix|)), Some(params[g.param].1), false)
  }

  /** The body a generator's message should parse as: the model's default
    * device, its id and its name, and the expected DT1 command. */
  function ExpectedBody(models: seq<ModelInfo>, g: Dt1Generator): RolandBody
    requires ValidGenerator(models, g)
  {
    var model := models[g.model];
    TypeIV(model.defaultDeviceId, model.modelId, Some(model.name), CM_ID_DT1, Parsed(ExpectedCommand(models, g)))
  }

  /** The body a generator writes parses back as the expected body. */
  lemma GeneratedBodyParses(models: seq<ModelInfo>, g: Dt1Generator)
    requires WellFormedModels(models) && ValidGenerator(models, g)
    ensures AddressesNonEmpty(models)
    ensures ParseBody(models, BodyBytes(GeneratorMessage(models, g).content.parsed.roland)) == Some(ExpectedBody(models, g))
  {
    WellFormedAddresses(models);
    var model := models[g.model];
    assert WellFormedModel(model);
    var body := GeneratorMessage(models, g).content.parsed.roland;
    var command := body.command.parsed;
    var rest := CommandBytes(command);
    var bytes := BodyBytes(body);
    assert bytes == [model.defaultDeviceId] + (model.modelId + (CM_ID_DT1 + rest));
    assert bytes[1..] == model.modelId + (CM_ID_DT1 + rest);
    VariableLengthIdUnique(model.modelId, CM_ID_DT1 + rest);
    VariableLengthIdUnique(CM_ID_DT1, rest);
    assert SplitIds(bytes) == Some((model.defaultDeviceId, model.modelId, CM_ID_DT1, rest));
    assert FindModel(models, model.modelId, 0) == Some(g.model);
    GeneratedCommandParses(model, g.block, g.param, g.value);
  }

  /** What a generator writes is a complete SysEx that parses back as a
    * Roland DT1 message for the generator's model, block, parameter and value,
    * with a valid checksum and the right size. */
  lemma GeneratedMessageParses(models: seq<ModelInfo>, g: Dt1Generator)
    requires WellFormedModels(models) && ValidGenerator(models, g)
    ensures AddressesNonEmpty(models)
    ensures ParseSysEx(models, GeneratorBytes(models, g)) ==
            Ok(ParsedSysEx(MF_ID_ROLAND, Parsed(RolandParsed(ExpectedBody(models, g)))))
  {
    WellFormedAddresses(models);
    var body := BodyBytes(GeneratorMessage(models, g).content.parsed.roland);
    assert GeneratorBytes(models, g) == [SYSEX_START, MF_ID_ROLAND] + body + [SYSEX_END];
    GeneratedBodyIsData(models, g);
    GeneratedBodyParses(models, g);
    ParseFramedRoland(models, body, ExpectedBody(models, g));
  }

  /** The data a generator writes is within its parameter's range. */
  lemma GeneratedDataInRange(models: seq<ModelInfo>, g: Dt1Generator)
    requires ValidGenerator(models, g)
    ensures !DataIsOutOfRange(ExpectedCommand(models, g))
  {
    var p := models[g.model].blocks[g.block].2[g.param].1;
    assert !AnyOutside([g.value], p.rangeStart, p.rangeEnd);
  }

  /** An enabled item of a menu over well-formed tables can be descended, and
    * leads to a menu with at least one item. */
  lemma EnabledItemLeadsOn(models: seq<ModelInfo>, m: Menu, i: nat)
    requires WellFormedModels(models)
    requires CountableMenu(models, m) && !m.ParameterValueMenu? && i < ItemsCount(models, m)
    requires !ItemDisabled(models, m, i)
    ensures m.ParameterAddressMenu? ==> models[m.model].blocks[m.block].2[i].1.size == 1
    ensures var r := ItemDescend(models, m, i);
      r.Submenu? && CountableMenu(models, r.menu) && ItemsCount(models, r.menu) >= 1
  {
    if m.ParameterAddressMenu? {
      var model := models[m.model];
      assert WellFormedModel(model);
      assert WellFormedBlock(model.blocks[m.block], model.addressSize);
    }
  }

  /** The items of a value menu are exactly the values of the parameter's
    * range, each once, in order. */
  lemma ValueMenuCoversRange(models: seq<ModelInfo>, m: Menu, v: int)
    requires m.ParameterValueMenu? && CountableMenu(models, m) && ValueMenuParam(models, m).rangeEnd < 0x80
    ensures ValueMenuParam(models, m).rangeStart <= v <= ValueMenuParam(models, m).rangeEnd <==>
            exists i :: 0 <= i < ItemsCount(models, m) && ItemValue(models, m, i) == v
  {
    var p := ValueMenuParam(models, m);
    if p.rangeStart <= v <= p.rangeEnd {
      assert ItemValue(models, m, v - p.rangeStart) == v;
    }
  }
}
