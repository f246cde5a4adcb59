# SoundPalette core, modelled in Dafny

SoundPalette is a tool for working with MIDI System Exclusive (SysEx)
messages. Its core has four parts:

- A Standard MIDI File (SMF) codec. It reads format 0 and format 1 files into
  one list of channel messages and one list of other events (SysEx and meta
  events). It writes that data back as a format 0 file with a single track.
- A SysEx parser. It dispatches on the manufacturer id to a Roland
  interpreter and a universal-message interpreter. A part that is not
  understood is kept as raw bytes.
- The Roland interpreter:
  - variable-length model and command ids;
  - the DT1 ("data set 1") command and its checksum;
  - the address maps of the SC-7, SC-55/SC-155 and GS;
  - the text `describe` gives for a value;
  - the menus that build a DT1 message for one parameter.
- The text front end `check_sysex`, which reads whitespace-separated hex
  bytes, checks them and reports the result. Beside it is the NUL-delimited
  table stream used to pass tables to a browser.

The modules follow the source files:

| module | models |
|---|---|
| `Wrappers`, `Bytes` | `Option`/`Result`, bytes, hex digits |
| `MidiPrimitives` | byte budget ("within") reads and writes, big-endian words, variable-length quantities (VLQs) |
| `Midi` | `read_midi` and `read_message_within` |
| `MidiWriter` | `write_midi` |
| `MidiRoundTrip` | reading back what `write_midi` writes |
| `SysExCommon`, `SysEx` | `parse_sysex`, `MaybeParsed`, the generators and the top-level menu |
| `Universal` | universal (7Eh/7Fh) bodies |
| `RolandTypes`, `RolandMaps`, `Roland`, `RolandMenu`, `RolandTables` | the Roland interpreter, its maps, its menus and facts about the concrete maps |
| `Ui` | `check_sysex` and the NUL-delimited table stream |

Code that changes state step by step is modelled as methods with loops:
- the byte-budget reader and writer;
- the VLQ loops;
- the chunk loop and the event loop;
- the merge-and-write loop;
- the checksum loop;
- the hex-token loop of `check_sysex`.

Each method is proved to compute exactly a specification function. The
properties are then proved about those functions.

The table stream, which appends to a string in place, is a class. Its
methods keep an invariant: the text written so far is the encoding of the
rows and cells written so far.

Reading, writing and parsing all work on byte sequences. A file is the
sequence of its bytes, and a writer's output is the sequence it returns.

## Model

| member | source | states |
|---|---|---|
| MidiPrimitives.ReadByteWithin | src/midi.rs:360-367 | A spent budget is "unterminated sequence" before any read. A missing byte is end of file. Otherwise the byte is returned and the budget drops by one. |
| MidiPrimitives.TakeWithin | src/midi.rs:216-219 | Reading `n` bytes within a budget succeeds exactly when both the budget and the input have `n` bytes left, and returns exactly `n` bytes. |
| MidiPrimitives.ReadBytesWithin | src/midi.rs:216-219 | The byte-by-byte payload loop returns what `TakeWithin` specifies, error included. |
| MidiPrimitives.ReadExact | src/midi.rs:347-351 | `read_exact` succeeds exactly when `n` bytes remain, and returns them. |
| MidiPrimitives.U16Bytes | src/midi.rs:552-554 | Two big-endian bytes whose value read back is the word written. |
| MidiPrimitives.U32Bytes | src/midi.rs:555-557 | Four big-endian bytes whose value read back is the word written. |
| MidiPrimitives.VlqReadFrom | src/midi.rs:368-382 | A VLQ read ends on the first byte with bit 7 clear. Its value fits in `u32`, because each step shifts left by seven with 32-bit wrap-around. The budget drops by exactly the bytes consumed. |
| MidiPrimitives.ReadVlqWithin | src/midi.rs:368-382 | The reading loop computes `VlqRead`, errors included. |
| MidiPrimitives.SeptetCount | src/midi.rs:575-585 | The fewest septets, from one to four, that hold a quantity below 2^28. |
| MidiPrimitives.VlqEncode | src/midi.rs:570-600 | As many bytes as septets. Every byte but the last has bit 7 set, and the last has it clear. |
| MidiPrimitives.EncodedByte | src/midi.rs:586-598 | Byte `k` of an encoding carries the septets of the quantity from the most significant one down. |
| MidiPrimitives.PutWithin | src/midi.rs:558-569 | Writing succeeds exactly when the chunk length stays at most `u32::MAX`. It then appends the bytes and counts them. |
| MidiPrimitives.WriteByteWithin | src/midi.rs:558-569 | Writing one byte is `PutWithin` of that byte. |
| MidiPrimitives.WriteVlqWithin | src/midi.rs:570-600 | The shifting loop writes exactly `VlqEncode(q)`, or fails with the first byte that would overflow the chunk length. A quantity of 2^28 or more is an overflow error. |
| MidiPrimitives.VlqRoundTrip | src/midi.rs:368-382 | Reading back what the writer encodes gives the quantity and consumes exactly the encoding. |
| Midi.SmpteFromCode | src/midi.rs:45-56 | Only the codes -24, -25, -29 and -30 are SMPTE formats, each mapped to its own format. |
| Midi.SmpteCodeRoundTrip | src/midi.rs:35-56 | Every SMPTE format's code converts back to that format. |
| Midi.Discriminant | src/midi.rs:103-111 | The message kind's status nibble is in 8h..Eh. |
| Midi.ParseDivision | src/midi.rs:150-160 | A word below 8000h is ticks per quarter note. Otherwise the high byte, read as `i8`, must be an SMPTE code, and the low byte is ticks per frame. |
| Midi.ParseDivisionWord | src/midi.rs:150-160 | The method computes `ParseDivision`. |
| Midi.ReadHeader | src/midi.rs:120-160 | A header that reads starts with `MThd`, has a length of at least 6 and format 0 or 1, and has at least one track (exactly one for format 0). Its division is the parsed division word. |
| Midi.ReadHeaderChunk | src/midi.rs:120-160 | The method computes `ReadHeader`, each error on its own check. |
| Midi.ReadExactly | src/midi.rs:347-351 | The method computes `ReadExact`. |
| Midi.ByteRead | src/midi.rs:360-367 | A byte read within a budget succeeds exactly when one byte can be taken. On an error it gives the short-read error. |
| Midi.ReadByte | src/midi.rs:360-367 | The method computes `ByteRead`. |
| Midi.PitchBendValue | src/midi.rs:339-341 | For a data-byte LSB, the bend value is `lsb + 128 * msb`. |
| Midi.ReadMessage | src/midi.rs:297-345 | The channel is the status's low nibble and the kind matches its high nibble. Program change and channel pressure read nothing more. The other kinds read one byte. A system status is an error. The fields are the data bytes read: the first data byte, then the byte at the cursor, and a pitch bend is `PitchBendValue` of the two. |
| Midi.ReadMessageWithin | src/midi.rs:297-345 | The method computes `ReadMessage`. |
| Midi.ReadPayload | src/midi.rs:212-231 | A length-prefixed payload keeps the bytes read before it as its prefix and consumes at least one byte of the budget. |
| Midi.ReadPayloadWithin | src/midi.rs:212-231 | The method computes `ReadPayload`. |
| Midi.ReadMeta | src/midi.rs:232-257 | A meta event clears running status. It is End of Track exactly when its type is 2Fh. Otherwise it is kept as `FF`, type and payload, with a type below 80h. |
| Midi.ReadMetaWithin | src/midi.rs:232-257 | The method computes `ReadMeta`. |
| Midi.ReadEventAfter | src/midi.rs:212-283 | An event keeps the song time. A data byte with no running status is "missing status byte". After `F0`, `F7` or `FF` there is no running status. After any other status byte the running status is that byte, and under running status it stays unchanged. An `F0`/`F7` event is the byte followed by exactly the payload its length announces. `F1`..`FE` other than `F7` is an error. A channel event's channel is the low nibble of the status in force. |
| Midi.ReadEventAfterWithin | src/midi.rs:212-283 | The method computes `ReadEventAfter`. |
| Midi.EventHead | src/midi.rs:198-210 | The new song time is the old one plus the delta time read. A positive delta that carries it past `u32::MAX` is "song is too long". Otherwise the head succeeds exactly when the first byte can be read, and that byte is returned. A bad delta time's error is passed on. |
| Midi.SongTooLongStops | src/midi.rs:198-206 | An overflowing delta time ends the whole track read with "song is too long". |
| Midi.ReadEventHead | src/midi.rs:198-210 | The method computes `EventHead`. |
| Midi.ReadEvent | src/midi.rs:198-284 | Every event consumes at least one byte of the chunk budget, so the event loop ends. The song time never decreases. |
| Midi.ReadEventWithin | src/midi.rs:198-284 | The method computes `ReadEvent`. |
| Midi.ReadEvents | src/midi.rs:192-285 | A track that reads ends exactly at the end of its chunk. |
| Midi.ReadTrackEvents | src/midi.rs:192-285 | The event loop computes `ReadEvents`, appending channel messages and kept other events with their absolute times. |
| Midi.ReadEventsStep | src/midi.rs:198-285 | One turn of the event loop: an error ends it; otherwise the event is appended to its list, except End of Track, which is dropped. |
| Midi.ChunkHeaderRead | src/midi.rs:170-171 | A chunk header is a four-byte type and a big-endian length. It fails only at end of file. |
| Midi.ReadChunkHeader | src/midi.rs:170-171 | The method computes `ChunkHeaderRead`. |
| Midi.ChunkRead | src/midi.rs:170-205 | A chunk counts as a track exactly when its type is `MTrk`. Any other chunk is skipped by its length and adds nothing. |
| Midi.ReadChunk | src/midi.rs:170-205 | The method computes `ChunkRead`. |
| Midi.ReadTrackChunks | src/midi.rs:163-286 | The chunk loop computes `ReadTracks`. |
| Midi.ReadMidiFile | src/midi.rs:113-295 | The reader computes `ReadMidi`. |
| MidiWriter.SortBy | src/midi.rs:395-399 | The sorted list is a permutation of the input, in non-decreasing key order. |
| MidiWriter.InsertByWithKey | src/midi.rs:395-399 | Inserting an element puts it first among the elements with its key and leaves every key's other elements in order. |
| MidiWriter.SortByStable | src/midi.rs:395-399 | `sort_by_key` is stable: for every key, the elements with that key come out in their input order. |
| MidiWriter.ChannelKeyOrdersTime | src/midi.rs:395-398 | Sorting by `time << 4 \| channel` orders channel messages by time. |
| MidiWriter.Merge | src/midi.rs:434-447 | The merged stream has exactly as many entries as the two lists together. `MergeSplits` shows which entries they are. |
| MidiWriter.MergeSplits | src/midi.rs:442-490 | The other events and the channel messages of the merged stream are exactly the two input lists, each in its own order. |
| MidiWriter.MergeOrdered | src/midi.rs:435-447 | Merging two time-ordered lists never goes back in time, so every delta time is non-negative. |
| MidiWriter.MergeOthersFirst | src/midi.rs:435-447 | A channel message is never written before an other event with the same or an earlier time. |
| MidiWriter.StatusByte | src/midi.rs:495 | The status byte has the kind's nibble on top and the channel below. |
| MidiWriter.DataBytes | src/midi.rs:501-528 | Program change and channel pressure write one data byte; every other kind writes two. |
| MidiWriter.PutOtherEvent | src/midi.rs:455-486 | Only `F0`, `F7` and `FF` events are written. The bytes already written are kept, and the chunk length counts exactly the bytes added. |
| MidiWriter.WriteOtherBytes | src/midi.rs:455-486 | The method computes `PutOtherEvent`. |
| MidiWriter.WriteItem | src/midi.rs:449-528 | Times may not go back. The output only grows, and the length counts it. Running status becomes none after an other event and the message's status after a channel message. |
| MidiWriter.WriteItemWithin | src/midi.rs:449-528 | The method computes `WriteItem`. |
| MidiWriter.WriteItems | src/midi.rs:434-529 | The writer loop keeps its output as a prefix, and the chunk length counts exactly the bytes written. |
| MidiWriter.DivisionWord | src/midi.rs:411-420 | An SMPTE division sets the top bit and keeps ticks per frame in the low byte. |
| MidiWriter.DivisionRoundTrip | src/midi.rs:411-420 | Every division the header can hold reads back as itself. |
| MidiWriter.FileHeader | src/midi.rs:407-424 | The header chunk and the track type take 18 bytes. |
| MidiWriter.InitialState | src/midi.rs:407-430 | Before the first event, the header and a placeholder length are out, and the chunk length is 0. |
| MidiWriter.WriteMidiLayout | src/midi.rs:531-540 | The file is the format-0 header for the division, then `MTrk`. Its patched length equals the bytes after the length field, and the track ends with End of Track. |
| MidiWriter.WriteBytesWithin | src/midi.rs:466-468 | The byte-by-byte loop computes `PutWithin`. |
| MidiWriter.WriteLengthWithin | src/midi.rs:461-465 | A payload length is written as a VLQ. |
| MidiWriter.WriteEndOfTrack | src/midi.rs:531-536 | End of Track is four bytes written within the chunk length. |
| MidiWriter.WriteMidiFile | src/midi.rs:385-547 | The writer computes `WriteMidi`. |
| MidiRoundTrip.PayloadRead | src/midi.rs:212-231 | A length VLQ followed by that many bytes is read back as exactly those bytes after the prefix, and consumes exactly what was written. |
| MidiRoundTrip.MessageRead | src/midi.rs:297-345 | The data bytes the writer puts for a message, with every data byte below 80h and a 14-bit bend, are read back by `read_message_within` as that message. |
| MidiRoundTrip.OtherEventWritten | src/midi.rs:455-486 | A SysEx is written as its first byte, its payload length as a VLQ and its payload. A meta event is written as `FF`, its type, its payload length and its payload. The chunk length counts exactly those bytes. |
| MidiRoundTrip.OtherEventRead | src/midi.rs:212-257 | After its first byte, a written SysEx event or meta event (not End of Track) is read back as the same bytes. It consumes exactly what was written and clears running status. |
| MidiRoundTrip.ChannelEventRead | src/midi.rs:259-283 | A written channel message is read back as the same message, whether or not the writer left out its status byte. The reader's running status becomes the message's status byte. |
| MidiRoundTrip.ItemWritten | src/midi.rs:449-528 | Writing an event appends exactly its delta-time VLQ and its event bytes. The status byte is left out when it equals the running status. |
| MidiRoundTrip.ItemRead | src/midi.rs:198-283 | The bytes written for an event are read back as that event at its absolute time. Afterwards the reader's running status equals the writer's. |
| MidiRoundTrip.ItemsRead | src/midi.rs:198-285 | Over a whole written stream, the event loop appends exactly the stream's channel messages to one list and its other events to the other, each in the order written. |
| MidiRoundTrip.EndOfTrackRead | src/midi.rs:232-257 | The closing `00 FF 2F 00` ends the event loop exactly at the end of the chunk and adds nothing to either list. |
| MidiRoundTrip.HeaderRead | src/midi.rs:120-160 | The header the writer puts is read as format 0, one track and the song's division, for a tick count below 8000h. |
| MidiRoundTrip.PatchedBytes | src/midi.rs:538-540 | Patching the length over the placeholder keeps the header, `MTrk`, the events and End of Track in place. The patched field reads as the chunk length. |
| MidiRoundTrip.TrackRead | src/midi.rs:163-286 | The chunk loop reads the one written `MTrk` chunk as the written stream's channel messages and other events. |
| MidiRoundTrip.SortByKeeps | src/midi.rs:395-399 | Sorting keeps every element, so any property that every input element has, every sorted element has. |
| MidiRoundTrip.MergeReadable | src/midi.rs:434-447 | Every event in the merge of readable other events and readable channel messages is readable. |
| MidiRoundTrip.FileRead | src/midi.rs:385-547 | A file the writer completes reads back as its division and the channel messages and other events of the stream it wrote. |
| MidiRoundTrip.WriteThenRead | src/midi.rs:113-295 | `read_midi` of what `write_midi` writes is the same song, with the same division. The channel messages come back sorted by time and channel, and the other events sorted by time. This holds for every song the file format can carry. |
| MidiRoundTrip.WriteThenReadInOrder | src/midi.rs:395-399 | Across the round trip, the events that share a sort key keep their input order. Examples are a SysEx and its `F7` continuations at one time, or a note-off and a note-on on one channel at one tick. |
| Bytes.ParseHex2 | src/ui.rs:143-157 | Exactly two hex digits of either case read as a byte, high digit first. |
| Bytes.ParseHex2RoundTrip | src/ui.rs:143-157 | The two upper-case digits printed for a byte read back as that byte. |
| SysEx.ParseContent | src/sysex.rs:103-116 | Content is parsed exactly when the Roland interpreter accepts a Roland body, or when a universal body has its three header bytes. Otherwise it is kept unchanged. |
| SysEx.ParseSysEx | src/sysex.rs:87-122 | Each error has an exact cause. Without a leading F0h the data is not a SysEx. Without a trailing F7h, or with no manufacturer id, it is incomplete. A byte above 7Fh in between hits the assertion. Otherwise the result is the manufacturer id and its parsed content. |
| SysEx.ParseFramed | src/sysex.rs:87-122 | `F0h`, a manufacturer id, a body of data bytes and `F7h` parse to that id and the content of that body. |
| SysEx.ParseFramedRoland | src/sysex.rs:103-104 | A framed Roland body that the interpreter accepts parses as that Roland body. |
| SysEx.GenerateSysEx | src/sysex.rs:124-129 | Generating appends `F0h`, the manufacturer id, the content's bytes and `F7h` to the output. |
| SysEx.ParseThenGenerateContent | src/sysex.rs:103-116 | Regenerating parsed content gives back the body, except a Roland DT1 with a wrong checksum. |
| SysEx.ParseThenGenerate | src/sysex.rs:87-129 | Parsing then generating gives back the message, except that a wrong Roland checksum comes back corrected. |
| SysEx.ManufacturerPrefixDistinguishes | src/sysex.rs:41-52 | The rendered manufacturer names tell manufacturers apart. |
| SysEx.GenerateStatic | src/sysex.rs:131-138 | A static generator keeps the output and appends exactly its stored bytes. |
| SysEx.TopItemsCount | src/sysex.rs:147-153 | The top menu has one item. |
| SysEx.TopItemLabel | src/sysex.rs:154-156 | Its label is "Universal". |
| SysEx.TopItemDescend | src/sysex.rs:157-159 | Descending it leads to the universal generator menu. |
| Universal.ParseUniversalBody | src/sysex/universal.rs:50-63 | A universal body parses exactly when it has three bytes. Device, sub-id 1, sub-id 2 and the data put back together are the body. |
| Universal.UniversalRoundTrip | src/sysex/universal.rs:50-63 | The bytes of a universal body parse back to it. |
| Universal.HeaderShows | src/sysex/universal.rs:28-48 | The device and both sub-ids can be read back from the rendered header, which says "Broadcast" exactly for device 7Fh. |
| Roland.VariableLengthId | src/sysex/roland.rs:86-98 | A split is an id (zeros, then one non-zero byte) and the rest, and together they are the input. It fails exactly when every byte is zero. |
| Roland.VariableLengthIdUnique | src/sysex/roland.rs:86-98 | An id followed by anything is split back into that id and the rest. |
| Roland.ConsumeVariableLengthId | src/sysex/roland.rs:86-98 | The scanning loop computes `VariableLengthId`. |
| Roland.Checksum | src/sysex/roland.rs:247-253 | The checksum is a data byte. |
| Roland.ComputeChecksum | src/sysex/roland.rs:247-253 | The loop of wrapping `u8` additions masked to seven bits computes `Checksum`, the byte sum modulo 128. |
| Roland.GenerateChecksum | src/sysex/roland.rs:257-259 | The generated checksum is a data byte. |
| Roland.GenerateChecksumValidates | src/sysex/roland.rs:254-259 | Appending a data byte to a body gives a valid checksum exactly when that byte is the generated checksum. |
| Roland.SingleByteChangeDetected | src/sysex/roland.rs:254-256 | Changing any one data byte of a validly checksummed body makes the checksum invalid. |
| Roland.FirstBlock | src/sysex/roland.rs:323-333 | Finds the first block whose prefix starts the address, or shows that there is none. |
| Roland.FirstWithKey | src/sysex/roland.rs:334-343 | Finds the first entry whose key is the given bytes, or shows that there is none. It serves both the parameter map and an enumeration's values. |
| Roland.LookUpParameter | src/sysex/roland.rs:320-344 | A parameter is only found within a block, and the block's prefix size fits in the address. |
| Roland.LookUpParameterMisses | src/sysex/roland.rs:320-344 | With no matching prefix, nothing is found. |
| Roland.LookUpParameterFinds | src/sysex/roland.rs:320-344 | The first matching block is found, with its prefix size. A parameter is found exactly when some suffix matches the rest of the address, and it is the first one that does. |
| Roland.ParseCommand | src/sysex/roland.rs:262-299 | Only DT1 with a body longer than the address parses. The result has the address, the data and the checksum byte, a checksum validity computed over the whole body, the looked-up block and parameter, and a size error exactly when a found parameter's size differs from the data's. |
| Roland.GenerateCommand | src/sysex/roland.rs:301-318 | Appends the address, the data and a freshly generated checksum. |
| Roland.ParseThenGenerateCommand | src/sysex/roland.rs:262-318 | A parsed DT1 regenerates its own body exactly when its checksum was valid. |
| Roland.AnyOutside | src/sysex/roland.rs:178-190 | True exactly when some data byte is outside the parameter's range. |
| Roland.FindModel | src/sysex/roland.rs:106 | Finds the first model with the id, or shows that there is none. |
| Roland.SplitIds | src/sysex/roland.rs:101-115 | A body splits into a device id, a model id and a command id exactly when both ids can be consumed. The parts put back together are the body. |
| Roland.CommandOf | src/sysex/roland.rs:106-123 | The command is parsed exactly when the model is known and the command parses for it. Otherwise the rest is kept raw. |
| Roland.ParseBody | src/sysex/roland.rs:101-125 | A body parses exactly when both ids can be consumed. A model name is given exactly when the model is known, and an unparsed command keeps the rest of the body. |
| Roland.GenerateBody | src/sysex/roland.rs:127-142 | Appends the device id, the model id, the command id and the command. |
| Roland.ParseThenGenerateBody | src/sysex/roland.rs:101-142 | A parsed body regenerates itself exactly when its command is raw or has a valid checksum. |
| Roland.Decimal | src/sysex/roland.rs:442-452 | A decimal numeral is a non-empty string of digits. |
| Roland.DecimalRoundTrip | src/sysex/roland.rs:442-452 | A decimal numeral reads back as its number. |
| Roland.SignedDecimalRoundTrip | src/sysex/roland.rs:440-453 | `{}` and `{:+}` of a number read back as that number. A plus sign appears exactly with `{:+}` on a non-negative value. |
| Roland.DescribeValueShows | src/sysex/roland.rs:429-454 | `describe` shows a value exactly for a one-byte numeric or enumerated parameter. It shows " = " and the value minus the zero offset, signed exactly when the zero offset equals neither end of the range. |
| Roland.EnumeratedValueNamed | src/sysex/roland.rs:456-465 | In a table that names every value of its range in order, a value's name is shown after an em dash or in brackets. |
| RolandMenu.ItemValue | src/sysex/roland.rs:640-653 | Item `i` of a value menu is the `i`-th value of the range, a data byte. |
| RolandMenu.ValueMenuCoversRange | src/sysex/roland.rs:640-656 | The value menu's items are exactly the values of the range. |
| RolandMenu.ItemDescend | src/sysex/roland.rs:559-668 | Descending adds the chosen index to the menu's path. The value menu, and only it, yields a DT1 generator, which carries the model, block, parameter and chosen value. |
| RolandMenu.EnabledItemLeadsOn | src/sysex/roland.rs:578-631 | An enabled item of a menu over well-formed maps leads to a non-empty menu, and a parameter chosen is one byte. |
| RolandMenu.GenerateDt1 | src/sysex/roland.rs:670-697 | The generator appends `F0h`, Roland, the default device, the model id, DT1, the address, the value and its checksum, and `F7h`. |
| RolandMenu.LookUpTableEntry | src/sysex/roland.rs:320-344 | In a well-formed model, a block's prefix followed by a parameter's suffix is looked up back to that block and parameter. |
| RolandMenu.GeneratedCommandParses | src/sysex/roland.rs:670-697 | A generated DT1 parses back with a valid checksum, its address and value, and its block and parameter. |
| RolandMenu.GeneratedBodyIsData | src/sysex/roland.rs:670-697 | Every byte between `F0h` and `F7h` of a generated message is a data byte. |
| RolandMenu.GeneratedBodyParses | src/sysex/roland.rs:670-697 | A generated body parses back to the model, the command and its lookup. |
| RolandMenu.GeneratedMessageParses | src/sysex/roland.rs:670-697 | A generated message is a complete SysEx. It parses back to the generator's model, block, parameter and value. |
| RolandMenu.GeneratedDataInRange | src/sysex/roland.rs:178-190 | A generated value is never out of range. |
| RolandTables.SystemSuffixes | src/sysex/roland/maps/sc_7.rs:50-76 | The SC-7 system map has ten parameters at suffixes 00h..09h. |
| RolandTables.PatchSuffixes | src/sysex/roland/maps/sc_7.rs:78-161 | The SC-7 patch map has eight parameters at suffixes 00h..07h. |
| RolandTables.Sc7Blocks | src/sysex/roland/maps/sc_7.rs:26-48 | The SC-7 has seventeen blocks: the system block at 00 00 and the patch blocks at 01 00..01 0F. |
| RolandTables.Sc7WellFormed | src/sysex/roland/maps/sc_7.rs:18-24 | The SC-7 has model id 56h, default device 10h and three-byte addresses, and its map is well formed. |
| RolandTables.ModelsWellFormed | src/sysex/roland.rs:530 | The known models are well formed, with distinct one-byte data ids. |
| RolandTables.Sc7LookUp | src/sysex/roland/maps/sc_7.rs:26-161 | Every SC-7 parameter address is looked up back to its block and parameter. |
| RolandTables.UnmappedModelsParse | src/sysex/roland/maps/sc_55.rs:17-23 | For SC-55/SC-155 and GS, a DT1 parses with no block and no parameter. |
| RolandTables.ModelsMenuItems | src/sysex/roland.rs:559-586 | The model menu lists SC-7, SC-55/SC-155 and GS, and only SC-7 is enabled. |
| RolandTables.Sc7Described | src/sysex/roland/maps/sc_7.rs:50-161 | Every SC-7 parameter is one byte. Each enumeration names its whole range in order, and each zero offset lies in its range. |
| RolandTables.Sc7Enumerations | src/sysex/roland/maps/sc_7.rs:50-161 | REVERB CHARACTER names 00h..07h. RX. CHANNEL names 00h..10h, with 10h "OFF". |
| Ui.WordLength | src/ui.rs:138 | The first word ends at the first whitespace character. |
| Ui.Tokens | src/ui.rs:138 | `split_whitespace` gives non-empty tokens without whitespace. |
| Ui.TokensOfJoin | src/ui.rs:138 | Splitting words joined by spaces gives back the words. |
| Ui.StripHexSuffix | src/ui.rs:139-142 | Stripping the hex suffixes leaves a prefix of the token. |
| Ui.HexBytes | src/ui.rs:138-158 | Reading tokens as bytes gives one byte per token. |
| Ui.HexBytesMeaning | src/ui.rs:138-158 | Reading succeeds exactly when every token is a hex byte, each read as its own byte. Otherwise the error names the first bad token, suffix stripped. |
| Ui.HexBytesStop | src/ui.rs:143-155 | The first bad token ends the reading with that token. |
| Ui.CheckSysEx | src/ui.rs:134-189 | The output gets exactly the message for the outcome: a bad token, an incomplete message, a non-data byte, or the parse result. |
| Ui.CheckFramedBytes | src/ui.rs:160-188 | The framing check, the data-byte scan and the parse compute `CheckBytes`. |
| Ui.InteriorData | src/ui.rs:169-179 | The scan finds no byte above 7Fh exactly when every byte between the first and last is a data byte. |
| Ui.HexWords | src/ui.rs:143-157 | Each byte is printed as two hex digits and `h`. |
| Ui.HexWordsRead | src/ui.rs:143-157 | Hex words read back as the bytes. |
| Ui.PrintedHexReadBack | src/ui.rs:138-158 | Bytes printed as space-separated hex words read back as those bytes. |
| Ui.CheckedParseFailure | src/ui.rs:160-188 | Once framing and data bytes are checked, the parser can fail only for `F0 F7`, as an incomplete SysEx. |
| Ui.OutcomeTextStarts | src/ui.rs:148-187 | The message starts "SysEx: " exactly on success and "Error: " otherwise. |
| Ui.TableRoundTrip | src/ui.rs:60-83 | A table of non-empty, NUL-free cells, each followed by NUL and each row by one more NUL, decodes back to its rows. |
| Ui.NullTerminatedTableStream.constructor | src/ui.rs:55-58 | A new stream starts after the given text with no rows. |
| Ui.NullTerminatedTableStream.Td | src/ui.rs:64-77 | A cell must be non-empty and NUL-free. It is appended with a NUL and added to the current row. |
| Ui.NullTerminatedTableStream.Th | src/ui.rs:61-63 | A header cell is written as a cell. |
| Ui.NullTerminatedTableStream.EndTr | src/ui.rs:78-82 | Ending a row appends a NUL and closes the row. |
| Ui.StreamReadsBack | src/ui.rs:60-83 | After each closed row, the stream's text decodes to the rows written. |
| Ui.WriteRowOfTwo | src/ui.rs:90-98 | Two cells and the end of the row append `a\0b\0\0` and one row. |
| Ui.TableStreamExample | src/ui.rs:85-100 | The test's calls produce "foo\0bar\0\0foo1\0bar1\0\0foo2\0bar2\0\0". |

## Left out

- Midi.ChannelMessage: the channel is a number from 0 to 15 where the source has a `u8`. The reader masks the status byte with `& 0xf` when it builds a message (src/midi.rs:303), so no message the model covers has a larger channel.
- I/O: files, `BufWriter`, `seek`, `stream_position` and `flush` are replaced by byte sequences. The reader's `seek` past an unknown chunk is a position change; past the end of the file the next read fails as end of file.
- Logging (`log!`, `logif!`, the verbose flag and `log_to`) has no effect on results and is left out.
- `Display` for parsed messages, `format_bytes`, menu labels and the float arithmetic of `describe`'s unit ranges are not modelled. The model covers the integer part of `describe`, the enumeration names, the universal header and the manufacturer name. `check_sysex`'s rendering of a parsed message is a parameter (`render`), and `{:?}` quoting of a bad token is a parameter (`debug`).
- `StderrTableStream` and `list_other_events` are not modelled. They are rendering only.
- The `Menu`/`MenuStack` traits and their UI are not modelled. The menus are functions over a `Menu` datatype. The universal generator menu behind the top-level item is not part of this model.
- src/main.rs, src/lib.rs and src/wasm_ffi.rs are not part of this model. Neither is src/sysex/roland/maps.rs, which is older than the maps it lists.
- The `param_*` helpers that build map entries and the definition of `MODELS` are not among the source files. The maps use these readings:
  - unsigned: numeric with zero offset 0 and no unit;
  - bool: one byte, range 00h..01h;
  - range: numeric with a zero offset and a unit;
  - enum: a list of named values;
  - `MODELS` is SC-7, SC-55/SC-155, GS, in that order.
- The `generate` of `ParsedSysEx`, `MaybeParsed` and `ParsedSysExBody` are not among the source files. They are modelled on the documented promise of `SysExGenerator` (sysex.rs:124-129): `F0h`, the id, the content, `F7h`. Unparsed content is written back as it is.
- Roland.ComputeChecksum: the `u8` addition panics on overflow in debug builds. The model follows release builds, where it wraps.
- MidiWriter.PutOtherEvent, MidiWriter.WriteItem and the length writes inside them: the writer's panics become the `Panic` error, which `WriteMidiFile` returns where the source aborts. They are:
  - an empty other event, where `event_bytes[0]` fails;
  - a meta event without a type byte, where `event_bytes[1]` fails;
  - a first byte other than `F0`, `F7` or `FF`, which is `unreachable!()`;
  - a payload of 2^32 bytes or more, where `try_into().unwrap()` fails;
  - an event earlier than the one before it, where the `u32` subtraction underflows. The sorted merge never produces one (`MergeOrdered`).
- SysEx.ParseSysEx: the assertion at sysex.rs:97 is modelled as the `NotDataByte` error instead of a panic.
- RolandMenu.ItemDescend: the assertions at roland.rs:631 and 647-649 become preconditions. `EnabledItemLeadsOn` and `ValueMenuCoversRange` show that they hold for enabled items over well-formed maps.
- Roland.ParseCommand: on an empty body with address size 0 the source panics computing `body.len() - 1`. That input is excluded by a precondition. Every known model has a non-zero address size (`ModelsWellFormed`).
- The Roland interpreter takes its list of models as a parameter. `ModelsWellFormed` shows that the concrete list meets what the interpreter requires of it.
- MidiRoundTrip.WriteThenRead: the round trip is stated for songs the file format can carry (`Readable`). Every channel data byte must be below 80h and every pitch bend must fit in 14 bits. Other events must be a SysEx (`F0`/`F7`) or a meta event with a type byte below 80h other than End of Track. A tick count must fit in 15 bits. Other songs are written without complaint but do not read back as written:
  - a data byte of 80h or more can be taken for a status byte;
  - the reader drops End of Track events;
  - a meta event whose type byte is 80h or more makes the whole read fail with "invalid meta event type";
  - a wider tick count is read as an SMPTE division, or rejected when its high byte is not an SMPTE code.
