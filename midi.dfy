/** Standard MIDI File data and the reader: header chunk, track chunks, delta
  * times, running status, channel messages and the other (SysEx and meta)
  * events.
  *
  * The reader is given as specification functions (`ReadMidi` and the functions
  * it is built from) and as the imperative `ReadMidiFile`, which walks the
  * input with a cursor the way the source walks its file, and is proved to
  * compute exactly `ReadMidi`. */
module Midi {
  import opened Wrappers
  import opened Bytes
  import opened MidiPrimitives

  type u16 = x: int | 0 <= x < 0x1_0000
  type u32 = x: int | 0 <= x < 0x1_0000_0000

  /** A MIDI channel, the low nibble of a status byte. */
  type Channel = x: int | 0 <= x < 16

  /** The SMPTE frame rates, with the negative `i8` values that encode them. */
  datatype SmpteFormat = Smpte24 | Smpte25 | Smpte29 | Smpte30

  function SmpteCode(f: SmpteFormat): int {
    match f
    case Smpte24 => -24
    case Smpte25 => -25
    case Smpte29 => -29
    case Smpte30 => -30
  }

  /** `SMPTEFormat::try_from(i8)`. */
  function SmpteFromCode(code: int): (r: Option<SmpteFormat>)
    ensures r.Some? <==> code in {-24, -25, -29, -30}
    ensures r.Some? ==> SmpteCode(r.value) == code
  {
    if code == -24 then Some(Smpte24)
    else if code == -25 then Some(Smpte25)
    else if code == -29 then Some(Smpte29)
    else if code == -30 then Some(Smpte30)
    else None
  }

  lemma SmpteCodeRoundTrip(f: SmpteFormat)
    ensures SmpteFromCode(SmpteCode(f)) == Some(f)
  {
  }

  datatype Division =
    | TicksPerQuarterNote(ticks: u16)
    | TicksPerFrame(frameRate: SmpteFormat, ticksPerFrame: byte)

  /** The kinds of channel message; `Discriminant` gives each one's status nibble. */
  datatype ChannelMessageKind =
    | NoteOff(key: byte, velocity: byte)
    | NoteOn(key: byte, velocity: byte)
    | PolyKeyPressure(key: byte, pressure: byte)
    | ControlChange(control: byte, value: byte)
    | ProgramChange(program: byte)
    | ChannelPressure(pressure: byte)
    | PitchBendChange(bend: u16)

  /** The enum tag of each kind, which is also its MIDI status nibble. */
  function Discriminant(k: ChannelMessageKind): (d: nat)
    ensures 0x8 <= d <= 0xE
  {
    match k
    case NoteOff(_, _) => 0x8
    case NoteOn(_, _) => 0x9
    case PolyKeyPressure(_, _) => 0xA
    case ControlChange(_, _) => 0xB
    case ProgramChange(_) => 0xC
    case ChannelPressure(_) => 0xD
    case PitchBendChange(_) => 0xE
  }

  datatype ChannelMessage = ChannelMessage(channel: Channel, kind: ChannelMessageKind)

  /** A song: the division, timed channel messages, and timed other events (a
    * SysEx or meta event as it appears in the file, minus its length field). */
  datatype MidiData = MidiData(
    division: Division,
    channelMessages: seq<(u32, ChannelMessage)>,
    otherEvents: seq<(u32, seq<byte>)>)

  // ---------------------------------------------------------------- header

  const MTHD: seq<byte> := [0x4D, 0x54, 0x68, 0x64]
  const MTRK: seq<byte> := [0x4D, 0x54, 0x72, 0x6B]

  /** The fields of the header chunk the reader keeps. */
  datatype Header = Header(format: nat, ntrks: nat, division: Division)

  /** The high byte of a division word, reinterpreted as `i8`. */
  function HighByteAsI8(word: u16): (code: int)
    ensures -128 <= code < 128
  {
    var high := word / 0x100;
    if high >= 0x80 then high - 0x100 else high
  }

  /** Decoding the header's division word: its top bit selects SMPTE timing. */
  function ParseDivision(word: u16): (r: Result<Division, MidiError>)
    ensures word < 0x8000 ==> r == Ok(TicksPerQuarterNote(word))
    ensures word >= 0x8000 ==>
      (r.Ok? <==> HighByteAsI8(word) in {-24, -25, -29, -30}) &&
      (r.Ok? ==> r.value.TicksPerFrame? && SmpteCode(r.value.frameRate) == HighByteAsI8(word) &&
                 r.value.ticksPerFrame == word % 0x100)
    ensures r.Err? ==> r.error == UnrecognizedSmpteFormat
  {
    if word / 0x8000 == 0 then Ok(TicksPerQuarterNote(word))
    else
      match SmpteFromCode(HighByteAsI8(word))
      case None => Err(UnrecognizedSmpteFormat)
      case Some(f) => Ok(TicksPerFrame(f, word % 0x100))
  }

  /** Reads and validates the 14 bytes of the header chunk. Bytes a longer
    * header declares beyond the six it reads are not skipped. */
  function ReadHeader(input: seq<byte>): (r: Result<Header, MidiError>)
    ensures r.Ok? ==> 14 <= |input| && input[..4] == MTHD && BigEndian(input[4..8]) >= 6
    ensures r.Ok? ==> r.value.format in {0, 1} && r.value.ntrks >= 1
    ensures r.Ok? && r.value.format == 0 ==> r.value.ntrks == 1
    ensures r.Ok? ==> r.value.format == BigEndian(input[8..10]) && r.value.ntrks == BigEndian(input[10..12])
    ensures r.Ok? ==> ParseDivision(BigEndian(input[12..14])) == Ok(r.value.division)
  {
    var magic :- ReadExact(input, 0, 4);
    if magic.0 != MTHD then Err(NotStandardMidiFile)
    else
      var headerLen :- ReadExact(input, 4, 4);
      if BigEndian(headerLen.0) < 6 then Err(HeaderTooShort)
      else
        var format :- ReadExact(input, 8, 2);
        var fmt := BigEndian(format.0);
        if fmt == 2 then Err(Format2NotSupported)
        else if fmt != 0 && fmt != 1 then Err(UnknownFormat)
        else
          var ntrks :- ReadExact(input, 10, 2);
          var n := BigEndian(ntrks.0);
          if n == 0 then Err(NoTracks)
          else if n > 1 && fmt == 0 then Err(MultipleTracksInFormat0)
          else
            var division :- ReadExact(input, 12, 2);
            var d :- ParseDivision(BigEndian(division.0));
            Ok(Header(fmt, n, d))
  }

  // ---------------------------------------------------------------- events

  /** The reader's state inside a track chunk. */
  datatype TrackState = TrackState(pos: nat, within: nat, time: nat, running: Option<byte>)

  /** What one event of a track turns into. */
  datatype Event = ChannelEvent(message: ChannelMessage) | OtherEvent(bytes: seq<byte>) | EndOfTrack

  /** Reading one byte charged to the chunk budget. */
  function ByteRead(input: seq<byte>, pos: nat, within: nat): (r: Result<Read<byte>, MidiError>)
    ensures r.Ok? <==> TakeWithin(input, pos, within, 1).Ok?
    ensures r.Ok? ==> r.value.pos == pos + 1 && r.value.within == within - 1
    ensures r.Err? ==> r == Err(ShortRead(input, pos, within))
  {
    if within < 1 then Err(UnterminatedSequence)
    else if pos >= |input| then Err(UnexpectedEof)
    else Ok(Read(input[pos], pos + 1, within - 1))
  }

  /** `(lsb as u16) | ((msb as u16) << 7)`, as the pitch bend is assembled. */
  function PitchBendValue(lsb: byte, msb: byte): (v: u16)
    ensures lsb < 0x80 ==> v == lsb + msb * 0x80
  {
    assert Pow2(7) == 0x80 && Pow2(16) == 0x1_0000;
    BitOrBelow(lsb, msb * 0x80, 16);
    BitOrDisjoint(lsb, msb, 7);
    BitOr(lsb, msb * 0x80)
  }

  /** `read_message_within`: the data bytes of a channel message whose status
    * byte and first data byte are known. */
  function ReadMessage(input: seq<byte>, pos: nat, within: nat, status: byte, first: byte): (r: Result<Read<ChannelMessage>, MidiError>)
    ensures r.Ok? ==> 0x80 <= status < 0xF0 && r.value.value.channel == status % 16 &&
                      Discriminant(r.value.value.kind) == status / 16
    ensures r.Ok? ==> pos <= r.value.pos && r.value.pos - pos == within - r.value.within
    ensures status / 16 in {0xC, 0xD} ==> r.Ok? && r.value.pos == pos
    ensures status / 16 in {0x8, 0x9, 0xA, 0xB, 0xE} ==> (r.Ok? <==> ByteRead(input, pos, within).Ok?)
    ensures !(0x8 <= status / 16 <= 0xE) ==> r == Err(SystemMessageInChannelMessage)
    ensures r.Ok? && status / 16 == 0xC ==> r.value.value.kind == ProgramChange(first)
    ensures r.Ok? && status / 16 == 0xD ==> r.value.value.kind == ChannelPressure(first)
    ensures r.Ok? && status / 16 == 0x8 ==> pos < |input| && r.value.value.kind == NoteOff(first, input[pos])
    ensures r.Ok? && status / 16 == 0x9 ==> pos < |input| && r.value.value.kind == NoteOn(first, input[pos])
    ensures r.Ok? && status / 16 == 0xA ==> pos < |input| && r.value.value.kind == PolyKeyPressure(first, input[pos])
    ensures r.Ok? && status / 16 == 0xB ==> pos < |input| && r.value.value.kind == ControlChange(first, input[pos])
    ensures r.Ok? && status / 16 == 0xE ==>
      pos < |input| && r.value.value.kind == PitchBendChange(PitchBendValue(first, input[pos]))
  {
    var channel := status % 16;
    var kind := status / 16;
    if kind == 0xC then Ok(Read(ChannelMessage(channel, ProgramChange(first)), pos, within))
    else if kind == 0xD then Ok(Read(ChannelMessage(channel, ChannelPressure(first)), pos, within))
    else if 0x8 <= kind <= 0xE then
      var second :- ByteRead(input, pos, within);
      var b := second.value;
      var k :=
        if kind == 0x8 then NoteOff(first, b)
        else if kind == 0x9 then NoteOn(first, b)
        else if kind == 0xA then PolyKeyPressure(first, b)
        else if kind == 0xB then ControlChange(first, b)
        else PitchBendChange(PitchBendValue(first, b));
      Ok(Read(ChannelMessage(channel, k), second.pos, second.within))
    else Err(SystemMessageInChannelMessage)
  }

  /** A SysEx or meta event's length and payload; `prefix` is what precedes the payload. */
  function ReadPayload(input: seq<byte>, pos: nat, within: nat, prefix: seq<byte>): (r: Result<Read<seq<byte>>, MidiError>)
    ensures r.Ok? ==> pos < r.value.pos && r.value.pos - pos == within - r.value.within
    ensures r.Ok? ==> |r.value.value| >= |prefix| && r.value.value[..|prefix|] == prefix
  {
    var length :- VlqRead(input, pos, within);
    var payload :- TakeWithin(input, length.pos, length.within, length.value);
    Ok(Read(prefix + payload.value, payload.pos, payload.within))
  }

  /** A meta event after its `FF`: type, length and payload; type `2F` ends the track. */
  function ReadMeta(input: seq<byte>, pos: nat, within: nat, time: nat): (r: Result<(TrackState, Event), MidiError>)
    ensures r.Ok? ==> pos < r.value.0.pos && r.value.0.pos - pos == within - r.value.0.within
    ensures r.Ok? ==> r.value.0.time == time && r.value.0.running.None?
    ensures r.Ok? ==> pos < |input| && (r.value.1.EndOfTrack? <==> input[pos] == 0x2F)
    ensures r.Ok? && r.value.1.OtherEvent? ==>
      (pos < |input| && |r.value.1.bytes| >= 2 && r.value.1.bytes[..2] == [0xFF, input[pos]] && input[pos] < 0x80)
  {
    var metaType :- ByteRead(input, pos, within);
    if metaType.value >= 0x80 then Err(InvalidMetaEventType)
    else
      var event :- ReadPayload(input, metaType.pos, metaType.within, [0xFF, metaType.value]);
      var next := TrackState(event.pos, event.within, time, None);
      if metaType.value == 0x2F then Ok((next, EndOfTrack)) else Ok((next, OtherEvent(event.value)))
  }

  /** The event whose first byte `b` has just been read; `pos` is just after it. */
  function ReadEventAfter(input: seq<byte>, pos: nat, within: nat, time: nat, running: Option<byte>, b: byte)
    : (r: Result<(TrackState, Event), MidiError>)
    ensures r.Ok? ==> pos <= r.value.0.pos && r.value.0.pos - pos == within - r.value.0.within
    ensures r.Ok? ==> r.value.0.time == time
    ensures b < 0x80 && running.None? ==> r == Err(MissingStatusByte)
    ensures r.Ok? && (b == 0xF0 || b == 0xF7 || b == 0xFF) ==> r.value.0.running.None?
    ensures r.Ok? && 0x80 <= b && b != 0xF0 && b != 0xF7 && b != 0xFF ==> r.value.0.running == Some(b)
    ensures r.Ok? && b < 0x80 ==> r.value.0.running == running
    ensures b == 0xF0 || b == 0xF7 ==>
      (r.Ok? <==> ReadPayload(input, pos, within, [b]).Ok?) &&
      (r.Ok? ==> r.value.1 == OtherEvent(ReadPayload(input, pos, within, [b]).value.value) &&
                 r.value.0.pos == ReadPayload(input, pos, within, [b]).value.pos)
    ensures 0xF0 < b < 0xFF && b != 0xF7 ==> r.Err?
    ensures 0x80 <= b < 0xF0 ==> r.Ok? ==> r.value.1.ChannelEvent? && r.value.1.message.channel == b % 0x10
    ensures b < 0x80 && running.Some? ==> r.Ok? ==> r.value.1.ChannelEvent? && r.value.1.message.channel == running.value % 0x10
  {
    if b == 0xF0 || b == 0xF7 then
      var event :- ReadPayload(input, pos, within, [b]);
      Ok((TrackState(event.pos, event.within, time, None), OtherEvent(event.value)))
    else if b == 0xFF then ReadMeta(input, pos, within, time)
    else if b >= 0x80 then
      var data :- ByteRead(input, pos, within);
      var msg :- ReadMessage(input, data.pos, data.within, b, data.value);
      Ok((TrackState(msg.pos, msg.within, time, Some(b)), ChannelEvent(msg.value)))
    else if running.None? then Err(MissingStatusByte)
    else
      var msg :- ReadMessage(input, pos, within, running.value, b);
      Ok((TrackState(msg.pos, msg.within, time, running), ChannelEvent(msg.value)))
  }

  /** The start of an event: its delta time, added to the song time, and its
    * first byte. The song time is a `u32`; a delta that would carry it past
    * `u32::MAX` is an error. */
  function EventHead(input: seq<byte>, st: TrackState): (r: Result<(nat, Read<byte>), MidiError>)
    ensures r.Ok? ==> st.pos < r.value.1.pos && r.value.1.pos - st.pos == st.within - r.value.1.within
    ensures VlqRead(input, st.pos, st.within).Err? ==> r == Err(VlqRead(input, st.pos, st.within).error)
    ensures r.Ok? ==> VlqRead(input, st.pos, st.within).Ok? &&
                      r.value.0 == st.time + VlqRead(input, st.pos, st.within).value.value
    ensures (VlqRead(input, st.pos, st.within).Ok? && VlqRead(input, st.pos, st.within).value.value > 0 &&
             st.time + VlqRead(input, st.pos, st.within).value.value > U32_MAX) ==> r == Err(SongTooLong)
    ensures st.time <= U32_MAX && r.Ok? ==> r.value.0 <= U32_MAX
    ensures VlqRead(input, st.pos, st.within).Ok? && st.time + VlqRead(input, st.pos, st.within).value.value <= U32_MAX ==>
      var delta := VlqRead(input, st.pos, st.within).value;
      (r.Ok? <==> ByteRead(input, delta.pos, delta.within).Ok?) &&
      (r.Ok? ==> r.value.1 == ByteRead(input, delta.pos, delta.within).value)
  {
    var delta :- VlqRead(input, st.pos, st.within);
    if delta.value > 0 && st.time + delta.value > U32_MAX then Err(SongTooLong)
    else
      var first :- ByteRead(input, delta.pos, delta.within);
      Ok((st.time + delta.value, first))
  }

  /** One iteration of the event loop: a delta time, then one event. */
  function ReadEvent(input: seq<byte>, st: TrackState): (r: Result<(TrackState, Event), MidiError>)
    ensures r.Ok? ==> st.pos < r.value.0.pos && r.value.0.within < st.within &&
                      r.value.0.pos - st.pos == st.within - r.value.0.within
    ensures r.Ok? ==> st.time <= r.value.0.time && (r.value.0.time <= U32_MAX || r.value.0.time == st.time)
  {
    var head :- EventHead(input, st);
    ReadEventAfter(input, head.1.pos, head.1.within, head.0, st.running, head.1.value)
  }

  /** The event loop of one track: it runs while the chunk budget is not spent. */
  function ReadEvents(input: seq<byte>, st: TrackState, chans: seq<(u32, ChannelMessage)>, others: seq<(u32, seq<byte>)>)
    : (r: Result<(nat, seq<(u32, ChannelMessage)>, seq<(u32, seq<byte>)>), MidiError>)
    requires st.time <= U32_MAX
    ensures r.Ok? ==> r.value.0 == st.pos + st.within
    decreases st.within
  {
    if st.within == 0 then Ok((st.pos, chans, others))
    else
      var step :- ReadEvent(input, st);
      var next, event := step.0, step.1;
      assert next.time <= U32_MAX;
      match event
      case ChannelEvent(m) => ReadEvents(input, next, chans + [(next.time, m)], others)
      case OtherEvent(bytes) => ReadEvents(input, next, chans, others + [(next.time, bytes)])
      case EndOfTrack => ReadEvents(input, next, chans, others)
  }

  /** One turn of the event loop. */
  lemma ReadEventsStep(input: seq<byte>, st: TrackState, chans: seq<(u32, ChannelMessage)>, others: seq<(u32, seq<byte>)>)
    requires st.time <= U32_MAX && st.within > 0
    ensures ReadEvent(input, st).Err? ==> ReadEvents(input, st, chans, others) == Err(ReadEvent(input, st).error)
    ensures ReadEvent(input, st).Ok? ==> ReadEvent(input, st).value.0.time <= U32_MAX
    ensures ReadEvent(input, st).Ok? ==>
      var (next, event) := ReadEvent(input, st).value;
      ReadEvents(input, st, chans, others) ==
        match event
        case ChannelEvent(m) => ReadEvents(input, next, chans + [(next.time, m)], others)
        case OtherEvent(bytes) => ReadEvents(input, next, chans, others + [(next.time, bytes)])
        case EndOfTrack => ReadEvents(input, next, chans, others)
  {
  }

  /** A delta time that would carry the song time past `u32::MAX` ends the
    * whole track read with "song is too long", whatever follows it. */
  lemma SongTooLongStops(input: seq<byte>, st: TrackState, chans: seq<(u32, ChannelMessage)>, others: seq<(u32, seq<byte>)>)
    requires st.time <= U32_MAX && st.within > 0
    requires VlqRead(input, st.pos, st.within).Ok? && VlqRead(input, st.pos, st.within).value.value > 0
    requires st.time + VlqRead(input, st.pos, st.within).value.value > U32_MAX
    ensures ReadEvents(input, st, chans, others) == Err(SongTooLong)
  {
    ReadEventsStep(input, st, chans, others);
  }

  /** The measure of the chunk loop: a chunk that is skipped moves the cursor on. */
  function Unread(input: seq<byte>, pos: nat): nat {
    if pos <= |input| then |input| - pos + 1 else 0
  }

  /** A chunk's type and length. */
  function ChunkHeaderRead(input: seq<byte>, pos: nat): (r: Result<(seq<byte>, nat), MidiError>)
    ensures r.Ok? <==> pos + 8 <= |input|
    ensures r.Ok? ==> r.value == (input[pos..pos + 4], BigEndian(input[pos + 4..pos + 8]))
    ensures r.Err? ==> r.error == UnexpectedEof
  {
    var fourCC :- ReadExact(input, pos, 4);
    var chunkLen :- ReadExact(input, pos + 4, 4);
    Ok((fourCC.0, BigEndian(chunkLen.0)))
  }

  /** One chunk: a track chunk's events are appended to the lists, any other
    * chunk is skipped. The result is the new position and whether a track was read. */
  function ChunkRead(input: seq<byte>, pos: nat, chans: seq<(u32, ChannelMessage)>, others: seq<(u32, seq<byte>)>)
    : (r: Result<(nat, bool, seq<(u32, ChannelMessage)>, seq<(u32, seq<byte>)>), MidiError>)
    ensures r.Ok? ==> pos + 8 <= |input| && (input[pos..pos + 4] == MTRK <==> r.value.1)
    ensures r.Ok? ==> r.value.0 == pos + 8 + BigEndian(input[pos + 4..pos + 8])
    ensures r.Ok? && !r.value.1 ==> r.value.2 == chans && r.value.3 == others
  {
    var chunk :- ChunkHeaderRead(input, pos);
    var (fourCC, len) := chunk;
    if fourCC != MTRK then Ok((pos + 8 + len, false, chans, others))
    else
      var events :- ReadEvents(input, TrackState(pos + 8, len, 0, None), chans, others);
      Ok((events.0, true, events.1, events.2))
  }

  /** The chunk loop: `MTrk` chunks are read until `ntrks` have been, any other
    * chunk is skipped without counting. */
  function ReadTracks(input: seq<byte>, pos: nat, trk: nat, ntrks: nat, chans: seq<(u32, ChannelMessage)>, others: seq<(u32, seq<byte>)>)
    : Result<(seq<(u32, ChannelMessage)>, seq<(u32, seq<byte>)>), MidiError>
    decreases ntrks - trk, Unread(input, pos)
  {
    if trk >= ntrks then Ok((chans, others))
    else
      var step :- ChunkRead(input, pos, chans, others);
      var (next, isTrack, chans', others') := step;
      ReadTracks(input, next, if isTrack then trk + 1 else trk, ntrks, chans', others')
  }

  /** One turn of the chunk loop. */
  lemma ReadTracksStep(input: seq<byte>, pos: nat, trk: nat, ntrks: nat, chans: seq<(u32, ChannelMessage)>, others: seq<(u32, seq<byte>)>)
    requires trk < ntrks
    ensures var step := ChunkRead(input, pos, chans, others);
      ReadTracks(input, pos, trk, ntrks, chans, others) ==
      if step.Err? then Err(step.error)
      else ReadTracks(input, step.value.0, if step.value.1 then trk + 1 else trk, ntrks, step.value.2, step.value.3)
  {
  }

  /** `read_midi`: a Standard MIDI File of format 0 or 1. */
  function ReadMidi(input: seq<byte>): Result<MidiData, MidiError> {
    var header :- ReadHeader(input);
    var tracks :- ReadTracks(input, 14, 0, header.ntrks, [], []);
    Ok(MidiData(header.division, tracks.0, tracks.1))
  }

  // ------------------------------------------------------ the imperative reader

  /** `read_byte_within` in the reader's terms. */
  method ReadByte(input: seq<byte>, pos: nat, within: nat) returns (r: Result<Read<byte>, MidiError>)
    ensures r == ByteRead(input, pos, within)
  {
    r := ReadByteWithin(input, pos, within);
  }

  /** `read_message_within`. */
  method ReadMessageWithin(input: seq<byte>, pos: nat, within: nat, status: byte, first: byte)
    returns (r: Result<Read<ChannelMessage>, MidiError>)
    ensures r == ReadMessage(input, pos, within, status, first)
  {
    var channel := status % 16;
    var kind: ChannelMessageKind;
    var p, w := pos, within;
    match status / 16 {
      case 0x8 =>
        var velocity :- ReadByte(input, p, w);
        kind := NoteOff(first, velocity.value);
        p, w := velocity.pos, velocity.within;
      case 0x9 =>
        var velocity :- ReadByte(input, p, w);
        kind := NoteOn(first, velocity.value);
        p, w := velocity.pos, velocity.within;
      case 0xA =>
        var pressure :- ReadByte(input, p, w);
        kind := PolyKeyPressure(first, pressure.value);
        p, w := pressure.pos, pressure.within;
      case 0xB =>
        var value :- ReadByte(input, p, w);
        kind := ControlChange(first, value.value);
        p, w := value.pos, value.within;
      case 0xC =>
        kind := ProgramChange(first);
      case 0xD =>
        kind := ChannelPressure(first);
      case 0xE =>
        var msb :- ReadByte(input, p, w);
        kind := PitchBendChange(PitchBendValue(first, msb.value));
        p, w := msb.pos, msb.within;
      case _ =>
        return Err(SystemMessageInChannelMessage);
    }
    r := Ok(Read(ChannelMessage(channel, kind), p, w));
  }

  /** The length and payload of a SysEx or meta event, read byte by byte. */
  method ReadPayloadWithin(input: seq<byte>, pos: nat, within: nat, prefix: seq<byte>)
    returns (r: Result<Read<seq<byte>>, MidiError>)
    ensures r == ReadPayload(input, pos, within, prefix)
  {
    var length :- ReadVlqWithin(input, pos, within);
    var payload :- ReadBytesWithin(input, length.pos, length.within, length.value);
    r := Ok(Read(prefix + payload.value, payload.pos, payload.within));
  }

  /** The meta-event branch of the source's event loop. */
  method ReadMetaWithin(input: seq<byte>, pos: nat, within: nat, time: nat) returns (r: Result<(TrackState, Event), MidiError>)
    ensures r == ReadMeta(input, pos, within, time)
  {
    var metaType :- ReadByte(input, pos, within);
    if metaType.value >= 0x80 {
      return Err(InvalidMetaEventType);
    }
    var event :- ReadPayloadWithin(input, metaType.pos, metaType.within, [0xFF, metaType.value]);
    var next := TrackState(event.pos, event.within, time, None);
    if metaType.value == 0x2F {
      return Ok((next, EndOfTrack));
    }
    r := Ok((next, OtherEvent(event.value)));
  }

  /** The source's event loop once it has the event's first byte. */
  method ReadEventAfterWithin(input: seq<byte>, pos: nat, within: nat, time: nat, running: Option<byte>, b: byte)
    returns (r: Result<(TrackState, Event), MidiError>)
    ensures r == ReadEventAfter(input, pos, within, time, running, b)
  {
    if b == 0xF0 || b == 0xF7 {
      var event :- ReadPayloadWithin(input, pos, within, [b]);
      return Ok((TrackState(event.pos, event.within, time, None), OtherEvent(event.value)));
    } else if b == 0xFF {
      r := ReadMetaWithin(input, pos, within, time);
      return;
    }
    var status: byte;
    var firstData: byte;
    var p, w := pos, within;
    var runningStatus := running;
    if b >= 0x80 {
      runningStatus := Some(b);
      var data :- ReadByte(input, p, w);
      status, firstData := b, data.value;
      p, w := data.pos, data.within;
    } else {
      if runningStatus.None? {
        return Err(MissingStatusByte);
      }
      status, firstData := runningStatus.value, b;
    }
    var msg :- ReadMessageWithin(input, p, w, status, firstData);
    r := Ok((TrackState(msg.pos, msg.within, time, runningStatus), ChannelEvent(msg.value)));
  }

  /** The delta time and first byte of an event. */
  method ReadEventHead(input: seq<byte>, st: TrackState) returns (r: Result<(nat, Read<byte>), MidiError>)
    ensures r == EventHead(input, st)
  {
    var delta :- ReadVlqWithin(input, st.pos, st.within);
    var time := st.time;
    if delta.value > 0 {
      if time + delta.value > U32_MAX {
        return Err(SongTooLong);
      }
      time := time + delta.value;
    }
    assert time == st.time + delta.value;
    var first :- ReadByte(input, delta.pos, delta.within);
    r := Ok((time, first));
  }

  /** One iteration of the source's event loop. */
  method ReadEventWithin(input: seq<byte>, st: TrackState) returns (r: Result<(TrackState, Event), MidiError>)
    ensures r == ReadEvent(input, st)
  {
    var head :- ReadEventHead(input, st);
    r := ReadEventAfterWithin(input, head.1.pos, head.1.within, head.0, st.running, head.1.value);
  }

  /** The event loop of one track chunk: events are read until the chunk's
    * length is used up, and appended to the song's two lists. */
  method ReadTrackEvents(input: seq<byte>, start: TrackState, chans: seq<(u32, ChannelMessage)>, others: seq<(u32, seq<byte>)>)
    returns (r: Result<(nat, seq<(u32, ChannelMessage)>, seq<(u32, seq<byte>)>), MidiError>)
    requires start.time <= U32_MAX
    ensures r == ReadEvents(input, start, chans, others)
  {
    var st := start;
    var channelMessages, otherEvents := chans, others;
    while st.within > 0
      invariant st.time <= U32_MAX
      invariant ReadEvents(input, start, chans, others) == ReadEvents(input, st, channelMessages, otherEvents)
      decreases st.within
    {
      ReadEventsStep(input, st, channelMessages, otherEvents);
      var step :- ReadEventWithin(input, st);
      var next, event := step.0, step.1;
      match event {
        case ChannelEvent(m) =>
          channelMessages := channelMessages + [(next.time, m)];
        case OtherEvent(bytes) =>
          otherEvents := otherEvents + [(next.time, bytes)];
        case EndOfTrack =>
      }
      st := next;
    }
    r := Ok((st.pos, channelMessages, otherEvents));
  }

  /** The chunk loop of `read_midi`: track chunks are read until `ntrks` have
    * been, and chunks of any other type are skipped. */
  method ReadTrackChunks(input: seq<byte>, ntrks: nat)
    returns (r: Result<(seq<(u32, ChannelMessage)>, seq<(u32, seq<byte>)>), MidiError>)
    ensures r == ReadTracks(input, 14, 0, ntrks, [], [])
  {
    var channelMessages: seq<(u32, ChannelMessage)> := [];
    var otherEvents: seq<(u32, seq<byte>)> := [];
    var pos := 14;
    var trk := 0;
    while trk < ntrks
      invariant trk <= ntrks
      invariant ReadTracks(input, 14, 0, ntrks, [], []) == ReadTracks(input, pos, trk, ntrks, channelMessages, otherEvents)
      decreases ntrks - trk, Unread(input, pos)
    {
      ReadTracksStep(input, pos, trk, ntrks, channelMessages, otherEvents);
      var step :- ReadChunk(input, pos, channelMessages, otherEvents);
      if step.1 {
        trk := trk + 1;
      }
      pos, channelMessages, otherEvents := step.0, step.2, step.3;
    }
    r := Ok((channelMessages, otherEvents));
  }

  /** One chunk of the chunk loop. */
  method ReadChunk(input: seq<byte>, pos: nat, chans: seq<(u32, ChannelMessage)>, others: seq<(u32, seq<byte>)>)
    returns (r: Result<(nat, bool, seq<(u32, ChannelMessage)>, seq<(u32, seq<byte>)>), MidiError>)
    ensures r == ChunkRead(input, pos, chans, others)
  {
    var chunk :- ReadChunkHeader(input, pos);
    var fourCC, len := chunk.0, chunk.1;
    if fourCC != MTRK {
      return Ok((pos + 8 + len, false, chans, others));
    }
    var events :- ReadTrackEvents(input, TrackState(pos + 8, len, 0, None), chans, others);
    r := Ok((events.0, true, events.1, events.2));
  }

  /** Reads a chunk's type and length. */
  method ReadChunkHeader(input: seq<byte>, pos: nat) returns (r: Result<(seq<byte>, nat), MidiError>)
    ensures r == ChunkHeaderRead(input, pos)
  {
    var fourCC :- ReadExactly(input, pos, 4);
    var chunkLen :- ReadExactly(input, pos + 4, 4);
    r := Ok((fourCC.0, BigEndian(chunkLen.0)));
  }

  /** `read_midi`: the header, then the track chunks. */
  method ReadMidiFile(input: seq<byte>) returns (r: Result<MidiData, MidiError>)
    ensures r == ReadMidi(input)
  {
    var header :- ReadHeaderChunk(input);
    var tracks :- ReadTrackChunks(input, header.ntrks);
    r := Ok(MidiData(header.division, tracks.0, tracks.1));
  }

  /** `read_bytes` outside a chunk. */
  method ReadExactly(input: seq<byte>, pos: nat, n: nat) returns (r: Result<(seq<byte>, nat), MidiError>)
    ensures r == ReadExact(input, pos, n)
  {
    if pos + n > |input| {
      return Err(UnexpectedEof);
    }
    r := Ok((input[pos..pos + n], pos + n));
  }

  /** The header part of `read_midi`. */
  method ReadHeaderChunk(input: seq<byte>) returns (r: Result<Header, MidiError>)
    ensures r == ReadHeader(input)
  {
    var magic :- ReadExactly(input, 0, 4);
    if magic.0 != MTHD {
      return Err(NotStandardMidiFile);
    }
    var headerLen :- ReadExactly(input, 4, 4);
    if BigEndian(headerLen.0) < 6 {
      return Err(HeaderTooShort);
    }
    var format :- ReadExactly(input, 8, 2);
    var fmt := BigEndian(format.0);
    if fmt == 2 {
      return Err(Format2NotSupported);
    } else if fmt != 0 && fmt != 1 {
      return Err(UnknownFormat);
    }
    var ntrks :- ReadExactly(input, 10, 2);
    var n := BigEndian(ntrks.0);
    if n == 0 {
      return Err(NoTracks);
    } else if n > 1 && fmt == 0 {
      return Err(MultipleTracksInFormat0);
    }
    var division :- ReadExactly(input, 12, 2);
    var d :- ParseDivisionWord(BigEndian(division.0));
    r := Ok(Header(fmt, n, d));
  }

  /** The division part of `read_midi`. */
  method ParseDivisionWord(word: u16) returns (r: Result<Division, MidiError>)
    ensures r == ParseDivision(word)
  {
    if word / 0x8000 == 0 {
      return Ok(TicksPerQuarterNote(word));
    }
    var frameRate := SmpteFromCode(HighByteAsI8(word));
    if frameRate.None? {
      return Err(UnrecognizedSmpteFormat);
    }
    r := Ok(TicksPerFrame(frameRate.value, word % 0x100));
  }
}
