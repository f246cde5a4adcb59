/** The data model of Roland "Type IV" exclusive messages: model information,
  * the two-level address map and the parameters in it. */
module RolandTypes {
  import opened Wrappers
  import opened Bytes

  /** `Numeric`'s mapping of the data byte onto a unit: the unit's range and
    * name. Every range in the tables has integer ends, so they are kept as
    * integers. */
  datatype UnitRange = UnitRange(lo: int, hi: int, unit: string)

  /** `ParameterValueDescription`: what the values of a parameter mean. */
  datatype ValueDescription =
    | Numeric(zeroOffset: byte, unitInRange: Option<UnitRange>)
    | Enum(values: seq<(seq<byte>, string)>)
    | Other

  /** A row of a "Parameter Address Map": size in data bytes, name, the
    * inclusive range `rangeStart..=rangeEnd` of each data byte, and the
    * meaning of the values. */
  datatype Parameter = Parameter(size: byte, name: string, rangeStart: byte, rangeEnd: byte, description: ValueDescription)

  /** Address suffixes (least significant bytes) and the parameters at them. */
  type ParameterAddressMap = seq<(seq<byte>, Parameter)>

  /** Address prefixes (most significant bytes), the block's name and its parameters. */
  type AddressBlockMap = seq<(seq<byte>, string, ParameterAddressMap)>

  /** `ModelInfo`: the model id, name, default device id, the size of a DT1
    * address and the address map. */
  datatype ModelInfo = ModelInfo(modelId: seq<byte>, name: string, defaultDeviceId: byte, addressSize: byte, blocks: AddressBlockMap)
}
