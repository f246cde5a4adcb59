/** Reading back a written file: what `write_midi` writes, `read_midi` reads
  * as the same song, with the channel messages and other events in the order
  * the writer sorted them into.
  *
  * The round trip needs the song to be one the file format can carry: channel
  * data bytes below 80h (so that they cannot be taken for status bytes under
  * running status), pitch bends of 14 bits, other events that are a SysEx
  * (`F0`/`F7` and payload) or a meta event other than End of Track (which the
  * reader drops), and a tick count of at most 15 bits. */
module MidiRoundTrip {
  import opened Wrappers
  import opened Bytes
  import opened MidiPrimitives
  import opened Midi
  import opened MidiWriter

  // ------------------------------------------------------------- songs

  /** A channel message whose bytes read back as itself. */
  predicate ReadableMessage(m: ChannelMessage) {
    AllData(DataBytes(m.kind)) && (m.kind.PitchBendChange? ==> m.kind.bend < 0x4000)
  }

  /** An other event that reads back as itself. */
  predicate ReadableEvent(bytes: seq<byte>) {
    |bytes| >= 1 &&
    (bytes[0] == 0xF0 || bytes[0] == 0xF7 ||
     (bytes[0] == 0xFF && |bytes| >= 2 && bytes[1] < 0x80 && bytes[1] != 0x2F))
  }

  predicate ReadableItem(item: Item) {
    match item
    case OtherItem(_, bytes) => ReadableEvent(bytes)
    case ChannelItem(_, m) => ReadableMessage(m)
  }

  /** A song the file format can carry. */
  predicate Readable(data: MidiData) {
    (data.division.TicksPerQuarterNote? ==> data.division.ticks < 0x8000) &&
    (forall i :: 0 <= i < |data.channelMessages| ==> ReadableMessage(data.channelMessages[i].1)) &&
    (forall i :: 0 <= i < |data.otherEvents| ==> ReadableEvent(data.otherEvents[i].1))
  }

  /** What the reader makes of an item. */
  function EventOf(item: Item): Event {
    match item
    case OtherItem(_, bytes) => OtherEvent(bytes)
    case ChannelItem(_, m) => ChannelEvent(m)
  }

  // ------------------------------------------------------------- the input

  /** `s` lies in `input` at `pos`. */
  predicate At(input: seq<byte>, pos: nat, s: seq<byte>) {
    pos + |s| <= |input| && input[pos..pos + |s|] == s
  }

  lemma AtSplit(input: seq<byte>, pos: nat, a: seq<byte>, b: seq<byte>)
    requires At(input, pos, a + b)
    ensures At(input, pos, a) && At(input, pos + |a|, b)
  {
    assert input[pos..pos + |a|] == (a + b)[..|a|];
    assert input[pos + |a|..pos + |a| + |b|] == (a + b)[|a|..];
  }

  // ------------------------------------------------------------- one event

  /** A byte in the input is read as itself. */
  lemma ByteReadAt(input: seq<byte>, pos: nat, within: nat, b: byte)
    requires At(input, pos, [b]) && within >= 1
    ensures ByteRead(input, pos, within) == Ok(Read(b, pos + 1, within - 1))
  {
  }

  /** Bytes in the input are taken as themselves. */
  lemma TakeAt(input: seq<byte>, pos: nat, within: nat, s: seq<byte>)
    requires At(input, pos, s) && within >= |s|
    ensures TakeWithin(input, pos, within, |s|) == Ok(Read(s, pos + |s|, within - |s|))
  {
    assert Rest(input, pos)[..|s|] == s;
  }

  /** `read_midi`'s payload read is a length read followed by a take. */
  lemma PayloadSteps(input: seq<byte>, pos: nat, within: nat, prefix: seq<byte>, p: nat, w: nat, s: seq<byte>)
    requires VlqRead(input, pos, within) == Ok(Read(|s| as nat, p, w)) && |s| <= w
    requires TakeWithin(input, p, w, |s|) == Ok(Read(s, p + |s|, w - |s|))
    ensures ReadPayload(input, pos, within, prefix) == Ok(Read(prefix + s, p + |s|, w - |s|))
  {
  }

  /** A length and a payload are read back as the payload. */
  lemma PayloadRead(input: seq<byte>, pos: nat, within: nat, prefix: seq<byte>, payload: seq<byte>, e: nat)
    requires e <= within && VlqRead(input, pos, within) == Ok(Read(|payload| as nat, pos + e, within - e))
    requires At(input, pos + e, payload) && within >= e + |payload|
    ensures ReadPayload(input, pos, within, prefix) == Ok(Read(prefix + payload, pos + e + |payload|, within - e - |payload|))
  {
    TakeAt(input, pos + e, within - e, payload);
    PayloadSteps(input, pos, within, prefix, pos + e, within - e, payload);
  }

  /** A VLQ the writer wrote is read back, and what follows it lies after it. */
  lemma VlqAt(input: seq<byte>, pos: nat, within: nat, q: nat, rest: seq<byte>)
    requires q < VLQ_LIMIT && At(input, pos, VlqEncode(q) + rest) && within >= |VlqEncode(q)|
    ensures VlqRead(input, pos, within) == Ok(Read(q, pos + |VlqEncode(q)|, within - |VlqEncode(q)|))
    ensures At(input, pos + |VlqEncode(q)|, rest)
  {
    AtSplit(input, pos, VlqEncode(q), rest);
    VlqRoundTrip(q, input, pos, within);
  }

  /** The data bytes after the first, read by `read_message_within`, give back
    * the message. */
  lemma MessageRead(input: seq<byte>, pos: nat, within: nat, m: ChannelMessage)
    requires ReadableMessage(m)
    requires At(input, pos, DataBytes(m.kind)[1..]) && within >= |DataBytes(m.kind)| - 1
    ensures var n := |DataBytes(m.kind)| - 1;
      ReadMessage(input, pos, within, StatusByte(m), DataBytes(m.kind)[0]) == Ok(Read(m, pos + n, within - n))
  {
    var d := DataBytes(m.kind);
    if |d| == 2 {
      ByteReadAt(input, pos, within, d[1]);
      if m.kind.PitchBendChange? {
        var v := m.kind.bend;
        assert PitchBendValue(d[0], d[1]) == v;
      }
    }
  }

  // ------------------------------------------------------------- the bytes of an item

  /** The payload of an other event: what follows `F0`/`F7`, or `FF` and the type. */
  function EventPayload(bytes: seq<byte>): seq<byte>
    requires ReadableEvent(bytes)
  {
    if bytes[0] == 0xFF then bytes[2..] else bytes[1..]
  }

  /** A meta event as written: `FF`, the type, the length and the payload. */
  function MetaBytes(t: byte, payload: seq<byte>): seq<byte>
    requires |payload| < VLQ_LIMIT
  {
    [0xFF, t] + VlqEncode(|payload|) + payload
  }

  /** A SysEx event as written: `F0` or `F7`, the length and the payload. */
  function SysExBytes(b: byte, payload: seq<byte>): seq<byte>
    requires |payload| < VLQ_LIMIT
  {
    [b] + VlqEncode(|payload|) + payload
  }

  /** The bytes `write_midi` writes for an other event after its delta time. */
  function OtherEventBytes(bytes: seq<byte>): (s: seq<byte>)
    requires ReadableEvent(bytes) && |EventPayload(bytes)| < VLQ_LIMIT
    ensures |s| > |EventPayload(bytes)| && s[0] == bytes[0]
  {
    if bytes[0] == 0xFF then MetaBytes(bytes[1], bytes[2..]) else SysExBytes(bytes[0], bytes[1..])
  }

  /** The bytes written for a channel message after its delta time: the status
    * byte unless it is the running status, then the data bytes. */
  function ChannelEventBytes(running: Option<byte>, m: ChannelMessage): seq<byte> {
    (if running == Some(StatusByte(m)) then [] else [StatusByte(m)]) + DataBytes(m.kind)
  }

  /** `write_midi` writes an other event's head, length and payload. */
  lemma OtherEventWritten(w: Written, bytes: seq<byte>)
    requires ReadableEvent(bytes) && PutOtherEvent(w, bytes).Ok?
    ensures |EventPayload(bytes)| < VLQ_LIMIT
    ensures PutOtherEvent(w, bytes).value.out == w.out + OtherEventBytes(bytes)
  {
    var payload := EventPayload(bytes);
    var e := VlqEncode(|payload|);
    if bytes[0] == 0xFF {
      assert w.out + [0xFF] + [bytes[1]] + e + payload == w.out + ([0xFF, bytes[1]] + e + payload);
    } else {
      assert w.out + [bytes[0]] + e + payload == w.out + ([bytes[0]] + e + payload);
    }
  }

  /** `read_midi`'s meta event read is a type byte followed by a payload. */
  lemma MetaSteps(input: seq<byte>, p: nat, within: nat, time: nat, running: Option<byte>, b: byte, t: byte, bytes: seq<byte>,
                  p1: nat, w1: nat, next: nat, rest: nat)
    requires b == 0xFF && t < 0x80 && t != 0x2F
    requires ByteRead(input, p, within) == Ok(Read(t, p1, w1))
    requires ReadPayload(input, p1, w1, [0xFF, t]) == Ok(Read(bytes, next, rest))
    ensures ReadEventAfter(input, p, within, time, running, b) == Ok((TrackState(next, rest, time, None), OtherEvent(bytes)))
  {
  }

  /** The pieces of a meta event after its `FF`: the type byte, then the
    * length and payload, `n` bytes in all. */
  lemma MetaPieces(input: seq<byte>, pos: nat, within: nat, t: byte, payload: seq<byte>, e: nat, n: nat)
    requires n == 1 + e + |payload| && within >= n
    requires At(input, pos, [t])
    requires VlqRead(input, pos + 1, within - 1) == Ok(Read(|payload| as nat, pos + 1 + e, within - 1 - e))
    requires At(input, pos + 1 + e, payload)
    ensures ByteRead(input, pos, within) == Ok(Read(t, pos + 1, within - 1))
    ensures ReadPayload(input, pos + 1, within - 1, [0xFF, t]) == Ok(Read([0xFF, t] + payload, pos + n, within - n))
  {
    ByteReadAt(input, pos, within, t);
    PayloadRead(input, pos + 1, within - 1, [0xFF, t], payload, e);
  }

  /** Where the parts of a written meta event lie. */
  lemma MetaLayout(input: seq<byte>, pos: nat, t: byte, payload: seq<byte>)
    requires |payload| < VLQ_LIMIT && At(input, pos, MetaBytes(t, payload))
    ensures At(input, pos + 1, [t]) && At(input, pos + 2, VlqEncode(|payload|) + payload)
    ensures |MetaBytes(t, payload)| == 2 + |VlqEncode(|payload|)| + |payload|
  {
    var e := VlqEncode(|payload|);
    assert MetaBytes(t, payload) == [0xFF] + ([t] + (e + payload));
    AtSplit(input, pos, [0xFF], [t] + (e + payload));
    AtSplit(input, pos + 1, [t], e + payload);
  }

  /** The reads a written meta event's type, length and payload give. */
  lemma MetaBody(input: seq<byte>, pos: nat, within: nat, t: byte, payload: seq<byte>)
    requires |payload| < VLQ_LIMIT && At(input, pos, MetaBytes(t, payload)) && within >= |MetaBytes(t, payload)| - 1
    ensures var n := |MetaBytes(t, payload)| - 1;
      ByteRead(input, pos + 1, within) == Ok(Read(t, pos + 2, within - 1)) &&
      ReadPayload(input, pos + 2, within - 1, [0xFF, t]) == Ok(Read([0xFF, t] + payload, pos + 1 + n, within - n))
  {
    MetaLayout(input, pos, t, payload);
    VlqAt(input, pos + 2, within - 1, |payload|, payload);
    MetaPieces(input, pos + 1, within, t, payload, |VlqEncode(|payload|)|, |MetaBytes(t, payload)| - 1);
  }

  /** A written meta event is read back as itself once its `FF` is read. */
  lemma MetaRead(input: seq<byte>, pos: nat, within: nat, time: nat, running: Option<byte>, t: byte, payload: seq<byte>, bytes: seq<byte>,
                 p: nat, next: nat, rest: nat)
    requires |bytes| >= 2 && bytes[0] == 0xFF && t == bytes[1] && payload == bytes[2..]
    requires t < 0x80 && t != 0x2F && |payload| < VLQ_LIMIT
    requires At(input, pos, MetaBytes(t, payload)) && within >= |MetaBytes(t, payload)| - 1
    requires p == pos + 1 && next == pos + |MetaBytes(t, payload)| && rest == within - (|MetaBytes(t, payload)| - 1)
    ensures ReadEventAfter(input, p, within, time, running, bytes[0]) == Ok((TrackState(next, rest, time, None), OtherEvent(bytes)))
  {
    assert bytes == [0xFF, t] + payload;
    MetaBody(input, pos, within, t, payload);
    MetaSteps(input, p, within, time, running, bytes[0], t, bytes, pos + 2, within - 1, next, rest);
  }

  /** The read a written SysEx event's length and payload give. */
  lemma SysExBody(input: seq<byte>, pos: nat, within: nat, b: byte, payload: seq<byte>)
    requires |payload| < VLQ_LIMIT && At(input, pos, SysExBytes(b, payload)) && within >= |SysExBytes(b, payload)| - 1
    ensures var n := |SysExBytes(b, payload)| - 1;
      ReadPayload(input, pos + 1, within, [b]) == Ok(Read([b] + payload, pos + 1 + n, within - n))
  {
    var e := VlqEncode(|payload|);
    assert SysExBytes(b, payload) == [b] + (e + payload);
    AtSplit(input, pos, [b], e + payload);
    VlqAt(input, pos + 1, within, |payload|, payload);
    PayloadRead(input, pos + 1, within, [b], payload, |e|);
  }

  /** A written SysEx event is read back as itself once its `F0` or `F7` is read. */
  lemma SysExRead(input: seq<byte>, pos: nat, within: nat, time: nat, running: Option<byte>, b: byte, payload: seq<byte>, bytes: seq<byte>,
                  p: nat, next: nat, rest: nat)
    requires (b == 0xF0 || b == 0xF7) && |payload| < VLQ_LIMIT && bytes == [b] + payload
    requires At(input, pos, SysExBytes(b, payload)) && within >= |SysExBytes(b, payload)| - 1
    requires p == pos + 1 && next == pos + |SysExBytes(b, payload)| && rest == within - (|SysExBytes(b, payload)| - 1)
    ensures ReadEventAfter(input, p, within, time, running, b) == Ok((TrackState(next, rest, time, None), OtherEvent(bytes)))
  {
    SysExBody(input, pos, within, b, payload);
  }

  /** `OtherEventRead` for a meta event. */
  lemma MetaEventRead(input: seq<byte>, pos: nat, within: nat, time: nat, running: Option<byte>, bytes: seq<byte>,
                      p: nat, next: nat, rest: nat)
    requires ReadableEvent(bytes) && bytes[0] == 0xFF && |EventPayload(bytes)| < VLQ_LIMIT
    requires At(input, pos, OtherEventBytes(bytes)) && within >= |OtherEventBytes(bytes)| - 1
    requires p == pos + 1 && next == pos + |OtherEventBytes(bytes)| && rest == within - (|OtherEventBytes(bytes)| - 1)
    ensures ReadEventAfter(input, p, within, time, running, bytes[0]) == Ok((TrackState(next, rest, time, None), OtherEvent(bytes)))
  {
    assert OtherEventBytes(bytes) == MetaBytes(bytes[1], bytes[2..]);
    MetaRead(input, pos, within, time, running, bytes[1], bytes[2..], bytes, p, next, rest);
  }

  /** `OtherEventRead` for a SysEx event. */
  lemma SysExEventRead(input: seq<byte>, pos: nat, within: nat, time: nat, running: Option<byte>, bytes: seq<byte>,
                       p: nat, next: nat, rest: nat)
    requires ReadableEvent(bytes) && bytes[0] != 0xFF && |EventPayload(bytes)| < VLQ_LIMIT
    requires At(input, pos, OtherEventBytes(bytes)) && within >= |OtherEventBytes(bytes)| - 1
    requires p == pos + 1 && next == pos + |OtherEventBytes(bytes)| && rest == within - (|OtherEventBytes(bytes)| - 1)
    ensures ReadEventAfter(input, p, within, time, running, bytes[0]) == Ok((TrackState(next, rest, time, None), OtherEvent(bytes)))
  {
    var b, payload := bytes[0], bytes[1..];
    assert [b] + payload == bytes;
    assert OtherEventBytes(bytes) == SysExBytes(b, payload);
    SysExRead(input, pos, within, time, running, b, payload, bytes, p, next, rest);
  }

  /** A written other event is read back as itself once its first byte is
    * read, and running status is cleared; `p` is the position after the first
    * byte, `next` and `rest` the position and budget after the event. */
  lemma OtherEventRead(input: seq<byte>, pos: nat, within: nat, time: nat, running: Option<byte>, bytes: seq<byte>,
                       p: nat, next: nat, rest: nat)
    requires ReadableEvent(bytes) && |EventPayload(bytes)| < VLQ_LIMIT
    requires At(input, pos, OtherEventBytes(bytes)) && within >= |OtherEventBytes(bytes)| - 1
    requires p == pos + 1 && next == pos + |OtherEventBytes(bytes)| && rest == within - (|OtherEventBytes(bytes)| - 1)
    ensures ReadEventAfter(input, p, within, time, running, bytes[0]) == Ok((TrackState(next, rest, time, None), OtherEvent(bytes)))
  {
    if bytes[0] == 0xFF {
      MetaEventRead(input, pos, within, time, running, bytes, p, next, rest);
    } else {
      SysExEventRead(input, pos, within, time, running, bytes, p, next, rest);
    }
  }

  /** The reads a written channel message gives after its first byte: under
    * running status the data bytes alone, otherwise the first data byte and
    * the rest. */
  lemma ChannelBody(input: seq<byte>, pos: nat, within: nat, running: Option<byte>, m: ChannelMessage)
    requires ReadableMessage(m)
    requires At(input, pos, ChannelEventBytes(running, m)) && within >= |ChannelEventBytes(running, m)| - 1
    ensures var n := |ChannelEventBytes(running, m)| - 1; var d := DataBytes(m.kind);
      running == Some(StatusByte(m)) ==>
        ReadMessage(input, pos + 1, within, StatusByte(m), d[0]) == Ok(Read(m, pos + 1 + n, within - n))
    ensures var n := |ChannelEventBytes(running, m)| - 1; var d := DataBytes(m.kind);
      running != Some(StatusByte(m)) ==>
        ByteRead(input, pos + 1, within) == Ok(Read(d[0], pos + 2, within - 1)) &&
        ReadMessage(input, pos + 2, within - 1, StatusByte(m), d[0]) == Ok(Read(m, pos + 1 + n, within - n))
  {
    var d := DataBytes(m.kind);
    var status := StatusByte(m);
    assert d == [d[0]] + d[1..];
    if running == Some(status) {
      assert ChannelEventBytes(running, m) == [d[0]] + d[1..];
      AtSplit(input, pos, [d[0]], d[1..]);
      MessageRead(input, pos + 1, within, m);
    } else {
      assert ChannelEventBytes(running, m) == [status] + ([d[0]] + d[1..]);
      AtSplit(input, pos, [status], [d[0]] + d[1..]);
      AtSplit(input, pos + 1, [d[0]], d[1..]);
      ByteReadAt(input, pos + 1, within, d[0]);
      MessageRead(input, pos + 2, within - 1, m);
    }
  }

  /** A written channel message is read back as itself once its first byte is
    * read; the running status becomes its status byte. `p` is the position
    * after the first byte, `next` and `rest` the position and budget after
    * the message. */
  lemma ChannelEventRead(input: seq<byte>, pos: nat, within: nat, time: nat, running: Option<byte>, m: ChannelMessage,
                         p: nat, next: nat, rest: nat)
    requires ReadableMessage(m)
    requires At(input, pos, ChannelEventBytes(running, m)) && within >= |ChannelEventBytes(running, m)| - 1
    requires p == pos + 1 && next == pos + |ChannelEventBytes(running, m)| && rest == within - (|ChannelEventBytes(running, m)| - 1)
    ensures ReadEventAfter(input, p, within, time, running, ChannelEventBytes(running, m)[0]) ==
      Ok((TrackState(next, rest, time, Some(StatusByte(m))), ChannelEvent(m)))
  {
    ChannelBody(input, pos, within, running, m);
  }

  // ------------------------------------------------------------- one item

  /** An item the writer can encode: its delta time fits a VLQ, and an other
    * event has a payload whose length does too. */
  predicate Encodable(st: WriterState, item: Item) {
    st.lastTime <= item.time < st.lastTime + VLQ_LIMIT &&
    (item.OtherItem? ==> ReadableEvent(item.bytes) && |EventPayload(item.bytes)| < VLQ_LIMIT)
  }

  /** The bytes written for an item's event, after its delta time. */
  function EventBytes(running: Option<byte>, item: Item): (s: seq<byte>)
    requires item.OtherItem? ==> ReadableEvent(item.bytes) && |EventPayload(item.bytes)| < VLQ_LIMIT
    ensures |s| >= 1
  {
    match item
    case OtherItem(_, bytes) => OtherEventBytes(bytes)
    case ChannelItem(_, m) => ChannelEventBytes(running, m)
  }

  /** The bytes written for an item: its delta time, then its event. */
  function ItemBytes(st: WriterState, item: Item): seq<byte>
    requires Encodable(st, item)
  {
    VlqEncode(item.time - st.lastTime) + EventBytes(st.running, item)
  }

  /** The running status after an item, for the writer and the reader alike. */
  function RunningAfter(item: Item): Option<byte> {
    if item.OtherItem? then None else Some(StatusByte(item.message))
  }

  lemma Associative<T>(a: seq<T>, b: seq<T>, c: seq<T>)
    ensures a + b + c == a + (b + c)
  {
  }

  /** `write_midi` writes an other event's item as its delta time and the event's bytes. */
  lemma OtherItemWritten(st: WriterState, item: Item)
    requires item.OtherItem? && ReadableEvent(item.bytes) && WriteItem(st, item).Ok?
    ensures Encodable(st, item)
    ensures WriteItem(st, item).value.w.out == st.w.out + ItemBytes(st, item)
  {
    var delta := item.time - st.lastTime;
    var w := VlqPut(st.w, delta).value;
    assert w.out == st.w.out + VlqEncode(delta);
    assert WriteItem(st, item).value.w == PutOtherEvent(w, item.bytes).value;
    OtherEventWritten(w, item.bytes);
    assert ItemBytes(st, item) == VlqEncode(delta) + OtherEventBytes(item.bytes);
    Associative(st.w.out, VlqEncode(delta), OtherEventBytes(item.bytes));
  }

  /** `write_midi` writes a channel message's item as its delta time, the
    * status byte unless it is the running status, and the data bytes. */
  lemma ChannelItemWritten(st: WriterState, item: Item)
    requires item.ChannelItem? && WriteItem(st, item).Ok?
    ensures Encodable(st, item)
    ensures WriteItem(st, item).value.w.out == st.w.out + ItemBytes(st, item)
  {
    var delta := item.time - st.lastTime;
    var w := VlqPut(st.w, delta).value;
    assert w.out == st.w.out + VlqEncode(delta);
    var m := item.message;
    var status := StatusByte(m);
    var head: seq<byte> := if st.running == Some(status) then [] else [status];
    var w1 := if st.running == Some(status) then w else PutWithin(w, [status]).value;
    assert w1.out == w.out + head;
    assert WriteItem(st, item).value.w == PutWithin(w1, DataBytes(m.kind)).value;
    Associative(w.out, head, DataBytes(m.kind));
    Associative(st.w.out, VlqEncode(delta), head + DataBytes(m.kind));
    assert ItemBytes(st, item) == VlqEncode(delta) + (head + DataBytes(m.kind));
  }

  /** `write_midi` writes an item as its delta time and its event's bytes. */
  lemma ItemWritten(st: WriterState, item: Item)
    requires ReadableItem(item) && WriteItem(st, item).Ok?
    ensures Encodable(st, item)
    ensures WriteItem(st, item).value.w.out == st.w.out + ItemBytes(st, item)
  {
    if item.OtherItem? {
      OtherItemWritten(st, item);
    } else {
      ChannelItemWritten(st, item);
    }
  }

  /** `read_midi`'s event head is a delta time followed by one byte. */
  lemma HeadSteps(input: seq<byte>, pos: nat, within: nat, time: nat, running: Option<byte>, q: nat, t: nat, e: nat, b: byte)
    requires t == time + q && t <= U32_MAX && e + 1 <= within
    requires VlqRead(input, pos, within) == Ok(Read(q, pos + e, within - e))
    requires ByteRead(input, pos + e, within - e) == Ok(Read(b, pos + e + 1, within - e - 1))
    ensures EventHead(input, TrackState(pos, within, time, running)) == Ok((t, Read(b, pos + e + 1, within - e - 1)))
  {
  }

  /** The reads a written delta time and the event's first byte give. */
  lemma HeadBody(input: seq<byte>, pos: nat, within: nat, q: nat, body: seq<byte>)
    requires q < VLQ_LIMIT && |body| >= 1
    requires At(input, pos, VlqEncode(q) + body) && within >= |VlqEncode(q)| + |body|
    ensures At(input, pos + |VlqEncode(q)|, body)
    ensures VlqRead(input, pos, within) == Ok(Read(q, pos + |VlqEncode(q)|, within - |VlqEncode(q)|))
    ensures ByteRead(input, pos + |VlqEncode(q)|, within - |VlqEncode(q)|) ==
      Ok(Read(body[0], pos + |VlqEncode(q)| + 1, within - |VlqEncode(q)| - 1))
  {
    VlqAt(input, pos, within, q, body);
    assert body == [body[0]] + body[1..];
    AtSplit(input, pos + |VlqEncode(q)|, [body[0]], body[1..]);
    ByteReadAt(input, pos + |VlqEncode(q)|, within - |VlqEncode(q)|, body[0]);
  }

  /** The reader's event head over a written delta time: the song time moves
    * on by the delta and the event's first byte is read; `p` and `w` are the
    * position and budget after it. */
  lemma HeadRead(input: seq<byte>, pos: nat, within: nat, time: nat, running: Option<byte>, q: nat, t: nat, body: seq<byte>,
                 b: byte, p: nat, w: nat)
    requires q < VLQ_LIMIT && t == time + q && t <= U32_MAX && |body| >= 1 && body[0] == b
    requires At(input, pos, VlqEncode(q) + body) && within >= |VlqEncode(q)| + |body|
    requires p == pos + |VlqEncode(q)| + 1 && w == within - |VlqEncode(q)| - 1
    ensures EventHead(input, TrackState(pos, within, time, running)) == Ok((t, Read(b, p, w)))
  {
    HeadBody(input, pos, within, q, body);
    HeadSteps(input, pos, within, time, running, q, t, |VlqEncode(q)|, b);
  }

  /** `read_midi`'s event read is an event head followed by the event. */
  lemma EventSteps(input: seq<byte>, pos: nat, within: nat, time: nat, running: Option<byte>, t: nat, b: byte, p: nat, w: nat,
                   r: Result<(TrackState, Event), MidiError>)
    requires EventHead(input, TrackState(pos, within, time, running)) == Ok((t, Read(b, p, w)))
    requires ReadEventAfter(input, p, w, t, running, b) == r
    ensures ReadEvent(input, TrackState(pos, within, time, running)) == r
  {
  }

  /** A written other event's item is read back as that event at the item's
    * time, with running status cleared. */
  lemma OtherItemRead(input: seq<byte>, pos: nat, within: nat, st: WriterState, item: Item, after: TrackState)
    requires item.OtherItem? && Encodable(st, item)
    requires At(input, pos, ItemBytes(st, item)) && within >= |ItemBytes(st, item)|
    requires after == TrackState(pos + |ItemBytes(st, item)|, within - |ItemBytes(st, item)|, item.time, None)
    ensures ReadEvent(input, TrackState(pos, within, st.lastTime, st.running)) == Ok((after, OtherEvent(item.bytes)))
  {
    var q := item.time - st.lastTime;
    var body := OtherEventBytes(item.bytes);
    assert ItemBytes(st, item) == VlqEncode(q) + body;
    AtSplit(input, pos, VlqEncode(q), body);
    var p, w := pos + |VlqEncode(q)| + 1, within - |VlqEncode(q)| - 1;
    var b := item.bytes[0];
    OtherEventRead(input, pos + |VlqEncode(q)|, w, item.time, st.running, item.bytes, p, after.pos, after.within);
    var r := Ok((after, OtherEvent(item.bytes)));
    assert ReadEventAfter(input, p, w, item.time, st.running, b) == r;
    HeadRead(input, pos, within, st.lastTime, st.running, q, item.time, body, b, p, w);
    EventSteps(input, pos, within, st.lastTime, st.running, item.time, b, p, w, r);
  }

  /** A written channel message's item is read back as that message at the
    * item's time, with its status byte as the running status. */
  lemma ChannelItemRead(input: seq<byte>, pos: nat, within: nat, st: WriterState, item: Item, after: TrackState)
    requires item.ChannelItem? && ReadableMessage(item.message) && Encodable(st, item)
    requires At(input, pos, ItemBytes(st, item)) && within >= |ItemBytes(st, item)|
    requires after == TrackState(pos + |ItemBytes(st, item)|, within - |ItemBytes(st, item)|, item.time, Some(StatusByte(item.message)))
    ensures ReadEvent(input, TrackState(pos, within, st.lastTime, st.running)) == Ok((after, ChannelEvent(item.message)))
  {
    var q := item.time - st.lastTime;
    var body := ChannelEventBytes(st.running, item.message);
    assert ItemBytes(st, item) == VlqEncode(q) + body;
    AtSplit(input, pos, VlqEncode(q), body);
    var p, w := pos + |VlqEncode(q)| + 1, within - |VlqEncode(q)| - 1;
    ChannelEventRead(input, pos + |VlqEncode(q)|, w, item.time, st.running, item.message, p, after.pos, after.within);
    var b := body[0];
    var r := Ok((after, ChannelEvent(item.message)));
    assert ReadEventAfter(input, p, w, item.time, st.running, b) == r;
    HeadRead(input, pos, within, st.lastTime, st.running, q, item.time, body, b, p, w);
    EventSteps(input, pos, within, st.lastTime, st.running, item.time, b, p, w, r);
  }

  /** A written item is read back as its event at its time; the running status
    * the reader keeps is the one the writer kept. */
  lemma ItemRead(input: seq<byte>, pos: nat, within: nat, st: WriterState, item: Item, after: TrackState)
    requires ReadableItem(item) && Encodable(st, item)
    requires At(input, pos, ItemBytes(st, item)) && within >= |ItemBytes(st, item)|
    requires after == TrackState(pos + |ItemBytes(st, item)|, within - |ItemBytes(st, item)|, item.time, RunningAfter(item))
    ensures ReadEvent(input, TrackState(pos, within, st.lastTime, st.running)) == Ok((after, EventOf(item)))
  {
    if item.OtherItem? {
      OtherItemRead(input, pos, within, st, item, after);
    } else {
      ChannelItemRead(input, pos, within, st, item, after);
    }
  }

  // ------------------------------------------------------------- the track

  /** What follows a prefix of a longer sequence splits at the prefix's end. */
  lemma SuffixSplit(a: seq<byte>, m: seq<byte>, c: seq<byte>)
    requires |a + m| <= |c| && c[..|a + m|] == a + m
    ensures c[|a|..] == m + c[|a + m|..]
  {
    assert c[|a|..|a + m|] == m;
    assert c[|a|..] == c[|a|..|a + m|] + c[|a + m|..];
  }

  /** The writer loop's first turn. */
  lemma FirstItemWritten(st: WriterState, items: seq<Item>)
    requires items != [] && WriteItems(st, items).Ok?
    ensures WriteItem(st, items[0]).Ok?
    ensures WriteItems(WriteItem(st, items[0]).value, items[1..]) == WriteItems(st, items)
  {
  }

  /** Output written after `out` lies in the input where `out` ends: then so
    * does its first piece `bytes`, and what follows right after it. */
  lemma StreamSplit(input: seq<byte>, out: seq<byte>, bytes: seq<byte>, next: seq<byte>, last: seq<byte>)
    requires next == out + bytes && |next| <= |last| && last[..|next|] == next
    requires At(input, |out|, last[|out|..])
    ensures At(input, |out|, bytes) && At(input, |next|, last[|next|..])
  {
    SuffixSplit(out, bytes, last);
    AtSplit(input, |out|, bytes, last[|next|..]);
  }

  /** One turn of the event loop over a channel message read back. */
  lemma ChannelLoopStep(input: seq<byte>, ts: TrackState, next: TrackState, m: ChannelMessage,
                        chans: seq<(u32, ChannelMessage)>, others: seq<(u32, seq<byte>)>, chans1: seq<(u32, ChannelMessage)>)
    requires ts.time <= U32_MAX && ts.within > 0 && next.time <= U32_MAX
    requires ReadEvent(input, ts) == Ok((next, ChannelEvent(m))) && chans1 == chans + [(next.time, m)]
    ensures ReadEvents(input, ts, chans, others) == ReadEvents(input, next, chans1, others)
  {
    ReadEventsStep(input, ts, chans, others);
  }

  /** One turn of the event loop over an other event read back. */
  lemma OtherLoopStep(input: seq<byte>, ts: TrackState, next: TrackState, bytes: seq<byte>,
                      chans: seq<(u32, ChannelMessage)>, others: seq<(u32, seq<byte>)>, others1: seq<(u32, seq<byte>)>)
    requires ts.time <= U32_MAX && ts.within > 0 && next.time <= U32_MAX
    requires ReadEvent(input, ts) == Ok((next, OtherEvent(bytes))) && others1 == others + [(next.time, bytes)]
    ensures ReadEvents(input, ts, chans, others) == ReadEvents(input, next, chans, others1)
  {
    ReadEventsStep(input, ts, chans, others);
  }

  /** Where the writer's first item and the rest of its output lie. */
  lemma FirstItemLayout(input: seq<byte>, st: WriterState, item: Item, next: WriterState, last: WriterState)
    requires ReadableItem(item) && WriteItem(st, item) == Ok(next)
    requires |next.w.out| <= |last.w.out| && last.w.out[..|next.w.out|] == next.w.out
    requires At(input, |st.w.out|, last.w.out[|st.w.out|..])
    ensures Encodable(st, item) && |next.w.out| == |st.w.out| + |ItemBytes(st, item)|
    ensures At(input, |st.w.out|, ItemBytes(st, item)) && At(input, |next.w.out|, last.w.out[|next.w.out|..])
  {
    ItemWritten(st, item);
    StreamSplit(input, st.w.out, ItemBytes(st, item), next.w.out, last.w.out);
  }

  /** The event loop's turn over one written item. */
  lemma ItemStep(input: seq<byte>, within: nat, st: WriterState, item: Item, next: WriterState, nextWithin: nat,
                 chans: seq<(u32, ChannelMessage)>, others: seq<(u32, seq<byte>)>,
                 chans1: seq<(u32, ChannelMessage)>, others1: seq<(u32, seq<byte>)>)
    requires ReadableItem(item) && Encodable(st, item) && st.lastTime <= U32_MAX
    requires At(input, |st.w.out|, ItemBytes(st, item)) && within >= |ItemBytes(st, item)|
    requires |next.w.out| == |st.w.out| + |ItemBytes(st, item)| && nextWithin == within - |ItemBytes(st, item)|
    requires next.lastTime == item.time && next.running == RunningAfter(item)
    requires chans1 == chans + (if item.ChannelItem? then [(item.time, item.message)] else [])
    requires others1 == others + (if item.OtherItem? then [(item.time, item.bytes)] else [])
    ensures ReadEvents(input, TrackState(|st.w.out|, within, st.lastTime, st.running), chans, others) ==
            ReadEvents(input, TrackState(|next.w.out|, nextWithin, next.lastTime, next.running), chans1, others1)
  {
    var ts := TrackState(|st.w.out|, within, st.lastTime, st.running);
    var nextTs := TrackState(|next.w.out|, nextWithin, next.lastTime, next.running);
    ItemRead(input, |st.w.out|, within, st, item, nextTs);
    if item.ChannelItem? {
      assert chans1 == chans + [(nextTs.time, item.message)] && others1 == others;
      ChannelLoopStep(input, ts, nextTs, item.message, chans, others, chans1);
    } else {
      assert others1 == others + [(nextTs.time, item.bytes)] && chans1 == chans;
      OtherLoopStep(input, ts, nextTs, item.bytes, chans, others, others1);
    }
  }

  /** The lists the event loop builds grow by the first item's entry. */
  lemma ListsStep(items: seq<Item>, chans: seq<(u32, ChannelMessage)>, others: seq<(u32, seq<byte>)>,
                  chans1: seq<(u32, ChannelMessage)>, others1: seq<(u32, seq<byte>)>)
    requires items != []
    requires chans1 == chans + (if items[0].ChannelItem? then [(items[0].time, items[0].message)] else [])
    requires others1 == others + (if items[0].OtherItem? then [(items[0].time, items[0].bytes)] else [])
    ensures chans1 + ChansOf(items[1..]) == chans + ChansOf(items)
    ensures others1 + OthersOf(items[1..]) == others + OthersOf(items)
  {
    var c: seq<(u32, ChannelMessage)> := if items[0].ChannelItem? then [(items[0].time, items[0].message)] else [];
    var o: seq<(u32, seq<byte>)> := if items[0].OtherItem? then [(items[0].time, items[0].bytes)] else [];
    assert ChansOf(items) == c + ChansOf(items[1..]);
    assert OthersOf(items) == o + OthersOf(items[1..]);
    Associative(chans, c, ChansOf(items[1..]));
    Associative(others, o, OthersOf(items[1..]));
  }

  /** The event loop reads the bytes of the written items back as those
    * items, channel messages and other events each in the order written. */
  lemma {:induction false} ItemsRead(input: seq<byte>, within: nat, rest: nat, st: WriterState, items: seq<Item>,
                                     chans: seq<(u32, ChannelMessage)>, others: seq<(u32, seq<byte>)>)
    requires forall i :: 0 <= i < |items| ==> ReadableItem(items[i])
    requires st.lastTime <= U32_MAX && WriteItems(st, items).Ok?
    requires At(input, |st.w.out|, WriteItems(st, items).value.w.out[|st.w.out|..])
    requires within == rest + (|WriteItems(st, items).value.w.out| - |st.w.out|)
    ensures var last := WriteItems(st, items).value;
      last.lastTime <= U32_MAX &&
      ReadEvents(input, TrackState(|st.w.out|, within, st.lastTime, st.running), chans, others) ==
      ReadEvents(input, TrackState(|last.w.out|, rest, last.lastTime, last.running),
                 chans + ChansOf(items), others + OthersOf(items))
    decreases |items|
  {
    if items == [] {
      assert WriteItems(st, items) == Ok(st);
      assert within == rest;
      assert chans + ChansOf(items) == chans && others + OthersOf(items) == others;
    } else {
      var item := items[0];
      FirstItemWritten(st, items);
      var next := WriteItem(st, item).value;
      var last := WriteItems(next, items[1..]).value;
      FirstItemLayout(input, st, item, next, last);
      var nextWithin := within - |ItemBytes(st, item)|;
      var chans1 := chans + if item.ChannelItem? then [(item.time, item.message)] else [];
      var others1 := others + if item.OtherItem? then [(item.time, item.bytes)] else [];
      ItemStep(input, within, st, item, next, nextWithin, chans, others, chans1, others1);
      ItemsRead(input, nextWithin, rest, next, items[1..], chans1, others1);
      ListsStep(items, chans, others, chans1, others1);
    }
  }

  // ------------------------------------------------------------- the end of the track

  lemma VlqZero()
    ensures VlqEncode(0) == [0]
  {
    assert SeptetCount(0) == 1 && Septet(0, 0) == 0;
  }

  /** The End of Track event's delta time, 0. */
  lemma EndOfTrackDelta(input: seq<byte>, pos: nat)
    requires At(input, pos, END_OF_TRACK)
    ensures VlqRead(input, pos, 4) == Ok(Read(0, pos + 1, 3))
  {
    VlqZero();
    assert END_OF_TRACK == VlqEncode(0) + [0xFF, 0x2F, 0x00];
    VlqAt(input, pos, 4, 0, [0xFF, 0x2F, 0x00]);
  }

  /** The End of Track event's first byte, `FF`. */
  lemma EndOfTrackStatus(input: seq<byte>, pos: nat)
    requires At(input, pos, END_OF_TRACK)
    ensures ByteRead(input, pos + 1, 3) == Ok(Read(0xFF, pos + 2, 2))
  {
    assert input[pos + 1] == 0xFF;
  }

  /** The head of an event with delta time 0 and first byte `FF`. */
  lemma EndOfTrackSteps(input: seq<byte>, pos: nat, time: nat, running: Option<byte>)
    requires time <= U32_MAX
    requires VlqRead(input, pos, 4) == Ok(Read(0, pos + 1, 3))
    requires ByteRead(input, pos + 1, 3) == Ok(Read(0xFF, pos + 2, 2))
    ensures EventHead(input, TrackState(pos, 4, time, running)) == Ok((time, Read(0xFF, pos + 2, 2)))
  {
  }

  /** The head of the End of Track event: delta 0, then `FF`. */
  lemma EndOfTrackHead(input: seq<byte>, pos: nat, time: nat, running: Option<byte>)
    requires time <= U32_MAX && At(input, pos, END_OF_TRACK)
    ensures EventHead(input, TrackState(pos, 4, time, running)) == Ok((time, Read(0xFF, pos + 2, 2)))
  {
    EndOfTrackDelta(input, pos);
    EndOfTrackStatus(input, pos);
    EndOfTrackSteps(input, pos, time, running);
  }

  /** The End of Track event's length, 0. */
  lemma EndOfTrackLength(input: seq<byte>, pos: nat)
    requires At(input, pos, END_OF_TRACK)
    ensures VlqRead(input, pos + 3, 1) == Ok(Read(0, pos + 4, 0))
  {
    VlqZero();
    assert END_OF_TRACK == [0x00, 0xFF, 0x2F] + VlqEncode(0);
    AtSplit(input, pos, [0x00, 0xFF, 0x2F], VlqEncode(0) + []);
    VlqAt(input, pos + 3, 1, 0, []);
  }

  /** The End of Track event's empty payload. */
  lemma EndOfTrackPayload(input: seq<byte>, pos: nat)
    requires VlqRead(input, pos + 3, 1) == Ok(Read(0, pos + 4, 0))
    ensures ReadPayload(input, pos + 3, 1, [0xFF, 0x2F]) == Ok(Read([0xFF, 0x2F], pos + 4, 0))
  {
    assert TakeWithin(input, pos + 4, 0, 0) == Ok(Read([], pos + 4, 0));
    assert [0xFF, 0x2F] + [] == [0xFF, 0x2F];
  }

  /** A meta event of type `2F` ends the track. */
  lemma EndOfTrackMetaSteps(input: seq<byte>, pos: nat, time: nat)
    requires ByteRead(input, pos + 2, 2) == Ok(Read(0x2F, pos + 3, 1))
    requires ReadPayload(input, pos + 3, 1, [0xFF, 0x2F]) == Ok(Read([0xFF, 0x2F], pos + 4, 0))
    ensures ReadMeta(input, pos + 2, 2, time) == Ok((TrackState(pos + 4, 0, time, None), EndOfTrack))
  {
  }

  /** The rest of the End of Track event: type `2F` and length 0. */
  lemma EndOfTrackMeta(input: seq<byte>, pos: nat, time: nat)
    requires At(input, pos, END_OF_TRACK)
    ensures ReadMeta(input, pos + 2, 2, time) == Ok((TrackState(pos + 4, 0, time, None), EndOfTrack))
  {
    EndOfTrackType(input, pos);
    EndOfTrackLength(input, pos);
    EndOfTrackPayload(input, pos);
    EndOfTrackMetaSteps(input, pos, time);
  }

  /** The End of Track event's meta type, `2F`. */
  lemma EndOfTrackType(input: seq<byte>, pos: nat)
    requires At(input, pos, END_OF_TRACK)
    ensures ByteRead(input, pos + 2, 2) == Ok(Read(0x2F, pos + 3, 1))
  {
    assert input[pos + 2] == 0x2F;
  }

  /** The writer's closing End of Track ends the event loop with nothing
    * added, exactly where the chunk ends. */
  lemma EndOfTrackRead(input: seq<byte>, pos: nat, time: nat, running: Option<byte>,
                       chans: seq<(u32, ChannelMessage)>, others: seq<(u32, seq<byte>)>)
    requires time <= U32_MAX && At(input, pos, END_OF_TRACK)
    ensures ReadEvents(input, TrackState(pos, 4, time, running), chans, others) == Ok((pos + 4, chans, others))
  {
    var ts := TrackState(pos, 4, time, running);
    var next := TrackState(pos + 4, 0, time, None);
    EndOfTrackHead(input, pos, time, running);
    EndOfTrackMeta(input, pos, time);
    assert ReadEventAfter(input, pos + 2, 2, time, running, 0xFF) == Ok((next, EndOfTrack));
    assert ReadEvent(input, ts) == Ok((next, EndOfTrack));
    ReadEventsStep(input, ts, chans, others);
  }

  // ------------------------------------------------------------- the file

  /** The header `write_midi` writes is read back as format 0, one track, and
    * the song's division. */
  lemma HeaderRead(input: seq<byte>, d: Division)
    requires |input| >= LENGTH_POS && input[..LENGTH_POS] == FileHeader(d)
    requires d.TicksPerQuarterNote? ==> d.ticks < 0x8000
    ensures ReadHeader(input) == Ok(Header(0, 1, d))
  {
    var h := FileHeader(d);
    assert h[..4] == MTHD && h[4..8] == U32Bytes(6) && h[8..10] == U16Bytes(0) &&
           h[10..12] == U16Bytes(1) && h[12..14] == U16Bytes(DivisionWord(d));
    assert input[..4] == h[..4] && input[4..8] == h[4..8] && input[8..10] == h[8..10] &&
           input[10..12] == h[10..12] && input[12..14] == h[12..14];
    DivisionRoundTrip(d);
  }

  /** The writer's output, patched: the header with the track length, the
    * events after it, and the End of Track last. */
  lemma PatchedBytes(w: Written, last: seq<byte>, d: Division)
    requires w.out == last + END_OF_TRACK && |last| >= LENGTH_POS + 4 && last[..LENGTH_POS] == FileHeader(d)
    requires w.length == |w.out| - (LENGTH_POS + 4) && w.length <= U32_MAX
    ensures var out := Patched(w);
      |out| == |last| + 4 && out[..LENGTH_POS] == FileHeader(d) && out[14..LENGTH_POS] == MTRK &&
      BigEndian(out[LENGTH_POS..LENGTH_POS + 4]) == w.length &&
      At(out, LENGTH_POS + 4, last[LENGTH_POS + 4..]) && At(out, |last|, END_OF_TRACK)
  {
    var out := Patched(w);
    var tail := w.out[LENGTH_POS + 4..];
    assert out == w.out[..LENGTH_POS] + U32Bytes(w.length) + tail;
    assert out[..LENGTH_POS] == w.out[..LENGTH_POS] == last[..LENGTH_POS];
    assert out[LENGTH_POS..LENGTH_POS + 4] == U32Bytes(w.length);
    assert out[LENGTH_POS + 4..] == tail;
    assert tail == last[LENGTH_POS + 4..] + END_OF_TRACK;
    assert FileHeader(d)[14..LENGTH_POS] == MTRK;
    assert out[14..LENGTH_POS] == out[..LENGTH_POS][14..];
    assert out[LENGTH_POS + 4..|last|] == tail[..|last| - (LENGTH_POS + 4)];
    assert out[|last|..|last| + 4] == tail[|last| - (LENGTH_POS + 4)..];
  }

  /** The track chunk `write_midi` writes is read back as the items written
    * into it, split into channel messages and other events. */
  lemma TrackRead(input: seq<byte>, st: WriterState, items: seq<Item>, last: WriterState, len: nat)
    requires |st.w.out| == LENGTH_POS + 4 && st.lastTime == 0 && st.running == None
    requires forall i :: 0 <= i < |items| ==> ReadableItem(items[i])
    requires WriteItems(st, items) == Ok(last)
    requires len == |last.w.out| + 4 - (LENGTH_POS + 4) && |input| == |last.w.out| + 4
    requires input[14..LENGTH_POS] == MTRK && BigEndian(input[LENGTH_POS..LENGTH_POS + 4]) == len
    requires At(input, LENGTH_POS + 4, last.w.out[LENGTH_POS + 4..]) && At(input, |last.w.out|, END_OF_TRACK)
    ensures ReadTracks(input, 14, 0, 1, [], []) == Ok((ChansOf(items), OthersOf(items)))
  {
    var chans: seq<(u32, ChannelMessage)>, others: seq<(u32, seq<byte>)> := [], [];
    ItemsRead(input, len, 4, st, items, chans, others);
    EndOfTrackRead(input, |last.w.out|, last.lastTime, last.running, chans + ChansOf(items), others + OthersOf(items));
    assert chans + ChansOf(items) == ChansOf(items) && others + OthersOf(items) == OthersOf(items);
    assert ReadEvents(input, TrackState(LENGTH_POS + 4, len, 0, None), chans, others) ==
           Ok((|input|, ChansOf(items), OthersOf(items)));
    assert ChunkRead(input, 14, chans, others) == Ok((|input|, true, ChansOf(items), OthersOf(items)));
    ReadTracksStep(input, 14, 0, 1, chans, others);
  }

  /** Sorting keeps every element, so it keeps any property all of them have. */
  lemma SortByKeeps<T>(s: seq<T>, key: T -> nat, P: T -> bool)
    requires forall i :: 0 <= i < |s| ==> P(s[i])
    ensures forall i :: 0 <= i < |SortBy(s, key)| ==> P(SortBy(s, key)[i])
  {
    var r := SortBy(s, key);
    forall i | 0 <= i < |r|
      ensures P(r[i])
    {
      assert r[i] in multiset(r);
      assert r[i] in multiset(s);
      var j :| 0 <= j < |s| && s[j] == r[i];
    }
  }

  /** The merge of readable events and messages is a stream of readable items. */
  lemma {:induction false} MergeReadable(others: seq<(u32, seq<byte>)>, chans: seq<(u32, ChannelMessage)>)
    requires forall i :: 0 <= i < |others| ==> ReadableEvent(others[i].1)
    requires forall i :: 0 <= i < |chans| ==> ReadableMessage(chans[i].1)
    ensures forall i :: 0 <= i < |Merge(others, chans)| ==> ReadableItem(Merge(others, chans)[i])
    decreases |others| + |chans|
  {
    var m := Merge(others, chans);
    if others == [] && chans == [] {
    } else if others != [] && (chans == [] || others[0].0 <= chans[0].0) {
      MergeReadable(others[1..], chans);
      assert m == [OtherItem(others[0].0, others[0].1)] + Merge(others[1..], chans);
    } else {
      MergeReadable(others, chans[1..]);
      assert m == [ChannelItem(chans[0].0, chans[0].1)] + Merge(others, chans[1..]);
    }
  }

  /** The file before the length is patched: the header, the placeholder,
    * the items, then the End of Track, with the chunk length counting all
    * but the first 22 bytes. */
  lemma FileLayout(d: Division, items: seq<Item>, last: WriterState, w: Written)
    requires WriteItems(InitialState(d), items) == Ok(last) && PutWithin(last.w, END_OF_TRACK) == Ok(w)
    ensures w.out == last.w.out + END_OF_TRACK && |last.w.out| >= LENGTH_POS + 4
    ensures last.w.out[..LENGTH_POS] == FileHeader(d)
    ensures w.length == |w.out| - (LENGTH_POS + 4) && w.length <= U32_MAX
  {
    var st := InitialState(d);
    assert last.w.out[..LENGTH_POS] == st.w.out[..LENGTH_POS];
  }

  /** `read_midi` is the header read followed by the chunk loop. */
  lemma ReadMidiSteps(input: seq<byte>, d: Division, chans: seq<(u32, ChannelMessage)>, others: seq<(u32, seq<byte>)>)
    requires ReadHeader(input) == Ok(Header(0, 1, d))
    requires ReadTracks(input, 14, 0, 1, [], []) == Ok((chans, others))
    ensures ReadMidi(input) == Ok(MidiData(d, chans, others))
  {
  }

  /** A file `write_midi` completes is read back as its division and the
    * item stream it wrote, split into channel messages and other events. */
  lemma FileRead(d: Division, items: seq<Item>, last: WriterState, w: Written)
    requires d.TicksPerQuarterNote? ==> d.ticks < 0x8000
    requires forall i :: 0 <= i < |items| ==> ReadableItem(items[i])
    requires WriteItems(InitialState(d), items) == Ok(last) && PutWithin(last.w, END_OF_TRACK) == Ok(w)
    ensures |w.out| >= LENGTH_POS + 4 && w.length < U32_LIMIT
    ensures ReadMidi(Patched(w)) == Ok(MidiData(d, ChansOf(items), OthersOf(items)))
  {
    FileLayout(d, items, last, w);
    var out := Patched(w);
    PatchedBytes(w, last.w.out, d);
    HeaderRead(out, d);
    TrackRead(out, InitialState(d), items, last, w.length);
    ReadMidiSteps(out, d, ChansOf(items), OthersOf(items));
  }

  /** `read_midi` reads what `write_midi` writes as the same song: the same
    * division, and the channel messages and other events in the order the
    * writer sorted them into. */
  lemma WriteThenRead(data: MidiData)
    requires Readable(data) && WriteMidi(data).Ok?
    ensures ReadMidi(WriteMidi(data).value) ==
            Ok(MidiData(data.division, SortBy(data.channelMessages, ChannelKey), SortBy(data.otherEvents, EventTime)))
  {
    var chans := SortBy(data.channelMessages, ChannelKey);
    var others := SortBy(data.otherEvents, EventTime);
    var items := Merge(others, chans);
    var last := WriteItems(InitialState(data.division), items).value;
    var w := PutWithin(last.w, END_OF_TRACK).value;
    assert WriteMidi(data).value == Patched(w);
    SortByKeeps(data.channelMessages, ChannelKey, (e: (u32, ChannelMessage)) => ReadableMessage(e.1));
    SortByKeeps(data.otherEvents, EventTime, (e: (u32, seq<byte>)) => ReadableEvent(e.1));
    MergeReadable(others, chans);
    MergeSplits(others, chans);
    FileRead(data.division, items, last, w);
  }

  /** Events that share a sort key come back in the order they were given:
    * a SysEx and its `F7` continuations at one time, or two messages on one
    * channel at one tick, are not reordered by the round trip. */
  lemma {:induction false} WriteThenReadInOrder(data: MidiData, k: nat)
    requires Readable(data) && WriteMidi(data).Ok?
    ensures ReadMidi(WriteMidi(data).value).Ok?
    ensures WithKey(ReadMidi(WriteMidi(data).value).value.otherEvents, EventTime, k) == WithKey(data.otherEvents, EventTime, k)
    ensures WithKey(ReadMidi(WriteMidi(data).value).value.channelMessages, ChannelKey, k) ==
            WithKey(data.channelMessages, ChannelKey, k)
  {
    WriteThenRead(data);
    SortByStable(data.otherEvents, EventTime, k);
    SortByStable(data.channelMessages, ChannelKey, k);
  }
}
