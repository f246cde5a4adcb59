/** The model tables: SC-7, SC-55/SC-155 and GS, and `MODELS`, the list the
  * parser and the generator menu search.
  *
  * The four row constructors stand for helpers that are not part of this
  * model; what each builds is an assumption, written out in its comment. */
module RolandMaps {
  import opened Wrappers
  import opened Bytes
  import opened RolandTypes

  /** A parameter whose values are named one by one. */
  function ParamEnum(suffix: seq<byte>, size: byte, name: string, lo: byte, hi: byte, values: seq<(seq<byte>, string)>)
    : (seq<byte>, Parameter)
  {
    (suffix, Parameter(size, name, lo, hi, Enum(values)))
  }

  /** A plain unsigned number: numeric with zero offset 0 and no unit. */
  function ParamUnsigned(suffix: seq<byte>, size: byte, name: string, lo: byte, hi: byte): (seq<byte>, Parameter) {
    (suffix, Parameter(size, name, lo, hi, Numeric(0, None)))
  }

  /** An on/off switch: one byte, range 00h..=01h, numeric with zero offset 0. */
  function ParamBool(suffix: seq<byte>, name: string): (seq<byte>, Parameter) {
    (suffix, Parameter(1, name, 0, 1, Numeric(0, None)))
  }

  /** A number biased by `zero` and mapped onto a unit's range. */
  function ParamRange(suffix: seq<byte>, size: byte, name: string, lo: byte, hi: byte, zero: byte, unitLo: int, unitHi: int, unit: string)
    : (seq<byte>, Parameter)
  {
    (suffix, Parameter(size, name, lo, hi, Numeric(zero, Some(UnitRange(unitLo, unitHi, unit)))))
  }

  /** Roland GS. */
  const GS: ModelInfo := ModelInfo([0x42], "Roland GS", 0x10, 3, [])

  /** Roland SC-55/SC-155. */
  const SC_55: ModelInfo := ModelInfo([0x45], "Roland SC-55/SC-155", 0x10, 3, [])

  /** Roland SC-7. */
  const SC_7: ModelInfo := ModelInfo([0x56], "Roland SC-7", 0x10, 3, SC_7_ABM)

  const SC_7_ABM: AddressBlockMap := [
    ([0x00, 0x00], "System parameters, Effect Control", SC_7_PAM_SYSTEM),
    ([0x01, 0x00], "Patch parameters, Part 10", SC_7_PAM_PATCH),
    ([0x01, 0x01], "Patch parameters, Part 1", SC_7_PAM_PATCH),
    ([0x01, 0x02], "Patch parameters, Part 2", SC_7_PAM_PATCH),
    ([0x01, 0x03], "Patch parameters, Part 3", SC_7_PAM_PATCH),
    ([0x01, 0x04], "Patch parameters, Part 4", SC_7_PAM_PATCH),
    ([0x01, 0x05], "Patch parameters, Part 5", SC_7_PAM_PATCH),
    ([0x01, 0x06], "Patch parameters, Part 6", SC_7_PAM_PATCH),
    ([0x01, 0x07], "Patch parameters, Part 7", SC_7_PAM_PATCH),
    ([0x01, 0x08], "Patch parameters, Part 8", SC_7_PAM_PATCH),
    ([0x01, 0x09], "Patch parameters, Part 9", SC_7_PAM_PATCH),
    ([0x01, 0x0A], "Patch parameters, Part 11", SC_7_PAM_PATCH),
    ([0x01, 0x0B], "Patch parameters, Part 12", SC_7_PAM_PATCH),
    ([0x01, 0x0C], "Patch parameters, Part 13", SC_7_PAM_PATCH),
    ([0x01, 0x0D], "Patch parameters, Part 14", SC_7_PAM_PATCH),
    ([0x01, 0x0E], "Patch parameters, Part 15", SC_7_PAM_PATCH),
    ([0x01, 0x0F], "Patch parameters, Part 16", SC_7_PAM_PATCH)
  ]

  const SC_7_PAM_SYSTEM: ParameterAddressMap := [
    ParamEnum([0x00], 0x01, "REVERB CHARACTER", 0x00, 0x07, [
      ([0x00], "Room 1"),
      ([0x01], "Room 2"),
      ([0x02], "Room 3"),
      ([0x03], "Hall 1"),
      ([0x04], "Hall 2"),
      ([0x05], "Plate"),
      ([0x06], "Delay"),
      ([0x07], "Panning Delay")
    ]),
    ParamUnsigned([0x01], 0x01, "REVERB LEVEL", 0x00, 0x7F),
    ParamUnsigned([0x02], 0x01, "REVERB (DELAY) TIME", 0x00, 0x7F),
    ParamUnsigned([0x03], 0x01, "DELAY TIME", 0x00, 0x7F),
    ParamUnsigned([0x04], 0x01, "DELAY FEEDBACK", 0x00, 0x7F),
    ParamUnsigned([0x05], 0x01, "CHORUS LEVEL", 0x00, 0x7F),
    ParamUnsigned([0x06], 0x01, "CHORUS FEEDBACK", 0x00, 0x7F),
    ParamUnsigned([0x07], 0x01, "CHORUS DELAY", 0x00, 0x7F),
    ParamUnsigned([0x08], 0x01, "CHORUS RATE", 0x00, 0x7F),
    ParamUnsigned([0x09], 0x01, "CHORUS DEPTH", 0x00, 0x7F)
  ]

  const SC_7_PAM_PATCH: ParameterAddressMap := [
    ParamEnum([0x00], 0x01, "RX. CHANNEL", 0x00, 0x10, [
      ([0x00], "Channel 1"),
      ([0x01], "Channel 2"),
      ([0x02], "Channel 3"),
      ([0x03], "Channel 4"),
      ([0x04], "Channel 5"),
      ([0x05], "Channel 6"),
      ([0x06], "Channel 7"),
      ([0x07], "Channel 8"),
      ([0x08], "Channel 9"),
      ([0x09], "Channel 10"),
      ([0x0A], "Channel 11"),
      ([0x0B], "Channel 12"),
      ([0x0C], "Channel 13"),
      ([0x0D], "Channel 14"),
      ([0x0E], "Channel 15"),
      ([0x0F], "Channel 16"),
      ([0x10], "OFF")
    ]),
    ParamBool([0x01], "RX. NRPN"),
    ParamRange([0x02], 0x01, "MOD LFO RATE CONTROL", 0x00, 0x7F, 0x40, -10, 10, "Hz"),
    ParamRange([0x03], 0x01, "MOD LFO PITCH DEPTH", 0x00, 0x7F, 0x00, 0, 600, "cents"),
    ParamRange([0x04], 0x01, "CAF TVF CUT OFF CONTROL", 0x00, 0x7F, 0x40, -9600, 9600, "cents"),
    ParamRange([0x05], 0x01, "CAF AMPLITUDE CONTROL", 0x00, 0x7F, 0x40, -100, 100, "%"),
    ParamRange([0x06], 0x01, "CAF LFO RATE CONTROL", 0x00, 0x7F, 0x40, -10, 10, "Hz"),
    ParamRange([0x07], 0x01, "CAF LFO PITCH DEPTH", 0x00, 0x7F, 0x00, 0, 600, "Hz")
  ]

  /** `MODELS`: the known models, in the order the menu lists them. */
  const MODELS: seq<ModelInfo> := [SC_7, SC_55, GS]
}
