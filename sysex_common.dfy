/** What the SysEx envelope and the manufacturer interpreters share: the
  * manufacturer ids and the parsed-or-raw wrapper. */
module SysExCommon {
  import opened Bytes

  const MF_ID_ROLAND: byte := 0x41
  const MF_ID_UNIVERSAL_NON_REAL_TIME: byte := 0x7E
  const MF_ID_UNIVERSAL_REAL_TIME: byte := 0x7F

  /** "All call" in the MIDI 1.0 Detailed Specification; shown as "Broadcast". */
  const DV_ID_BROADCAST: byte := 0x7F

  /** `MaybeParsed`: the parsed form when it was understood, otherwise the raw
    * bytes, so that nothing is lost either way. */
  datatype MaybeParsed<T> = Parsed(parsed: T) | Unknown(bytes: seq<byte>)

  /** `MenuItemResult`: descending a menu item leads to another menu or to a
    * command that generates a message. */
  datatype MenuItemResult<M, C> = Submenu(menu: M) | Command(command: C)
}
