/** The Standard MIDI File writer: the song is written as a format 0 file with
  * one track. Channel messages are ordered by time, then channel; other events
  * by time; the two lists are then merged, other events first at equal times,
  * with running status and delta times. The track length is patched into the
  * chunk header at the end.
  *
  * `WriteMidi` is the specification and `WriteMidiFile` the imperative writer
  * proved to produce exactly its bytes. The output file is the byte sequence
  * returned. */
module MidiWriter {
  import opened Wrappers
  import opened Bytes
  import opened MidiPrimitives
  import opened Midi

  // ------------------------------------------------------------- ordering

  /** `s` is in non-decreasing order of `key`. */
  predicate SortedBy<T>(s: seq<T>, key: T -> nat) {
    forall i, j :: 0 <= i < j < |s| ==> key(s[i]) <= key(s[j])
  }

  /** Inserts `x` before the first element whose key is at least its own, so
    * that it goes first among equal keys: `x` comes from earlier in the input. */
  function InsertBy<T>(x: T, s: seq<T>, key: T -> nat): (r: seq<T>)
    ensures |r| == |s| + 1 && multiset(r) == multiset(s) + multiset{x}
  {
    if s == [] || key(x) <= key(s[0]) then [x] + s
    else
      assert s == [s[0]] + s[1..];
      [s[0]] + InsertBy(x, s[1..], key)
  }

  /** A lower bound on the keys of `x` and of `s` bounds the keys after insertion. */
  lemma {:induction false} InsertByAtLeast<T>(x: T, s: seq<T>, key: T -> nat, k: nat)
    requires k <= key(x) && forall i :: 0 <= i < |s| ==> k <= key(s[i])
    ensures forall i :: 0 <= i < |InsertBy(x, s, key)| ==> k <= key(InsertBy(x, s, key)[i])
  {
    if s == [] || key(x) <= key(s[0]) {
    } else {
      InsertByAtLeast(x, s[1..], key, k);
    }
  }

  lemma {:induction false} InsertBySorted<T>(x: T, s: seq<T>, key: T -> nat)
    requires SortedBy(s, key)
    ensures SortedBy(InsertBy(x, s, key), key)
  {
    if s == [] || key(x) <= key(s[0]) {
    } else {
      var tail := InsertBy(x, s[1..], key);
      InsertBySorted(x, s[1..], key);
      InsertByAtLeast(x, s[1..], key, key(s[0]));
      var r := InsertBy(x, s, key);
      assert r == [s[0]] + tail;
      forall i, j | 0 <= i < j < |r|
        ensures key(r[i]) <= key(r[j])
      {
        if i > 0 {
          assert r[i] == tail[i - 1] && r[j] == tail[j - 1];
        } else {
          assert r[j] == tail[j - 1];
        }
      }
    }
  }

  /** `sort_by_key`: a stable sort, here as insertion sort. */
  function SortBy<T>(s: seq<T>, key: T -> nat): (r: seq<T>)
    ensures |r| == |s| && multiset(r) == multiset(s)
    ensures SortedBy(r, key)
  {
    if s == [] then []
    else
      assert s == [s[0]] + s[1..];
      InsertBySorted(s[0], SortBy(s[1..], key), key);
      InsertBy(s[0], SortBy(s[1..], key), key)
  }

  /** The elements of `s` whose key is `k`, in their order in `s`. */
  function WithKey<T>(s: seq<T>, key: T -> nat, k: nat): seq<T> {
    if s == [] then []
    else (if key(s[0]) == k then [s[0]] else []) + WithKey(s[1..], key, k)
  }

  lemma WithKeyCons<T>(y: T, t: seq<T>, key: T -> nat, k: nat)
    ensures WithKey([y] + t, key, k) == (if key(y) == k then [y] else []) + WithKey(t, key, k)
  {
    assert ([y] + t)[1..] == t;
  }

  /** Inserting `x` puts it first among the elements with its key and keeps
    * every other key's elements as they were. */
  lemma {:induction false} InsertByWithKey<T>(x: T, s: seq<T>, key: T -> nat, k: nat)
    ensures WithKey(InsertBy(x, s, key), key, k) == (if key(x) == k then [x] else []) + WithKey(s, key, k)
  {
    if s == [] || key(x) <= key(s[0]) {
      WithKeyCons(x, s, key, k);
    } else {
      var tail := InsertBy(x, s[1..], key);
      var here: seq<T> := if key(s[0]) == k then [s[0]] else [];
      var mine: seq<T> := if key(x) == k then [x] else [];
      assert here == [] || mine == [];
      InsertByWithKey(x, s[1..], key, k);
      WithKeyCons(s[0], tail, key, k);
      assert s == [s[0]] + s[1..];
      WithKeyCons(s[0], s[1..], key, k);
      calc {
        WithKey(InsertBy(x, s, key), key, k);
        here + WithKey(tail, key, k);
        here + (mine + WithKey(s[1..], key, k));
        { SwapEmpty(here, mine, WithKey(s[1..], key, k)); }
        mine + (here + WithKey(s[1..], key, k));
        mine + WithKey(s, key, k);
      }
    }
  }

  /** Two sequences of which one is empty can be swapped in front of a third. */
  lemma SwapEmpty<T>(a: seq<T>, b: seq<T>, c: seq<T>)
    requires a == [] || b == []
    ensures a + (b + c) == b + (a + c)
  {
  }

  /** `sort_by_key` is stable: the elements with any one key come out in
    * their input order. */
  lemma {:induction false} SortByStable<T>(s: seq<T>, key: T -> nat, k: nat)
    ensures WithKey(SortBy(s, key), key, k) == WithKey(s, key, k)
  {
    if s != [] {
      SortByStable(s[1..], key, k);
      InsertByWithKey(s[0], SortBy(s[1..], key), key, k);
    }
  }

  /** The key channel messages are sorted by: `(time << 4) | channel`. */
  function ChannelKey(e: (u32, ChannelMessage)): nat {
    e.0 * 0x10 + e.1.channel
  }

  /** The key other events are sorted by: their time. */
  function EventTime(e: (u32, seq<byte>)): nat {
    e.0
  }

  /** Channel messages sorted by `ChannelKey` are sorted by time too. */
  lemma ChannelKeyOrdersTime(chans: seq<(u32, ChannelMessage)>)
    requires SortedBy(chans, ChannelKey)
    ensures forall i, j :: 0 <= i < j < |chans| ==> chans[i].0 <= chans[j].0
  {
    forall i, j | 0 <= i < j < |chans|
      ensures chans[i].0 <= chans[j].0
    {
      assert ChannelKey(chans[i]) <= ChannelKey(chans[j]);
    }
  }

  // ------------------------------------------------------------- merging

  /** One entry of the merged event stream. */
  datatype Item = OtherItem(time: u32, bytes: seq<byte>) | ChannelItem(time: u32, message: ChannelMessage)

  /** The two peeked iterators of the writer loop: the other event is taken
    * when its time is at most the channel message's. */
  function Merge(others: seq<(u32, seq<byte>)>, chans: seq<(u32, ChannelMessage)>): (r: seq<Item>)
    ensures |r| == |others| + |chans|
    decreases |others| + |chans|
  {
    if others == [] && chans == [] then []
    else if others != [] && (chans == [] || others[0].0 <= chans[0].0) then
      [OtherItem(others[0].0, others[0].1)] + Merge(others[1..], chans)
    else [ChannelItem(chans[0].0, chans[0].1)] + Merge(others, chans[1..])
  }

  /** The other events of an item stream, in order. */
  function OthersOf(items: seq<Item>): seq<(u32, seq<byte>)> {
    if items == [] then []
    else (if items[0].OtherItem? then [(items[0].time, items[0].bytes)] else []) + OthersOf(items[1..])
  }

  /** The channel messages of an item stream, in order. */
  function ChansOf(items: seq<Item>): seq<(u32, ChannelMessage)> {
    if items == [] then []
    else (if items[0].ChannelItem? then [(items[0].time, items[0].message)] else []) + ChansOf(items[1..])
  }

  /** The merge loses, adds and reorders nothing within each list. */
  lemma {:induction false} MergeSplits(others: seq<(u32, seq<byte>)>, chans: seq<(u32, ChannelMessage)>)
    ensures OthersOf(Merge(others, chans)) == others
    ensures ChansOf(Merge(others, chans)) == chans
    decreases |others| + |chans|
  {
    var m := Merge(others, chans);
    if others == [] && chans == [] {
    } else if others != [] && (chans == [] || others[0].0 <= chans[0].0) {
      MergeSplits(others[1..], chans);
      assert m[1..] == Merge(others[1..], chans);
      assert others == [others[0]] + others[1..];
    } else {
      MergeSplits(others, chans[1..]);
      assert m[1..] == Merge(others, chans[1..]);
      assert chans == [chans[0]] + chans[1..];
    }
  }

  /** Every time in the merge is one of the inputs' times, so lower bounds carry over. */
  lemma {:induction false} MergeAtLeast(others: seq<(u32, seq<byte>)>, chans: seq<(u32, ChannelMessage)>, t: nat)
    requires forall i :: 0 <= i < |others| ==> t <= others[i].0
    requires forall i :: 0 <= i < |chans| ==> t <= chans[i].0
    ensures forall i :: 0 <= i < |Merge(others, chans)| ==> t <= Merge(others, chans)[i].time
    decreases |others| + |chans|
  {
    if others == [] && chans == [] {
    } else if others != [] && (chans == [] || others[0].0 <= chans[0].0) {
      MergeAtLeast(others[1..], chans, t);
    } else {
      MergeAtLeast(others, chans[1..], t);
    }
  }

  /** Other events above `t` stay above `t` in the merge. */
  lemma {:induction false} MergeOthersAbove(others: seq<(u32, seq<byte>)>, chans: seq<(u32, ChannelMessage)>, t: nat)
    requires forall i :: 0 <= i < |others| ==> t < others[i].0
    ensures forall i :: 0 <= i < |Merge(others, chans)| && Merge(others, chans)[i].OtherItem? ==>
      t < Merge(others, chans)[i].time
    decreases |others| + |chans|
  {
    if others == [] && chans == [] {
    } else if others != [] && (chans == [] || others[0].0 <= chans[0].0) {
      MergeOthersAbove(others[1..], chans, t);
    } else {
      MergeOthersAbove(others, chans[1..], t);
    }
  }

  /** The merge never goes back in time. */
  lemma {:induction false} MergeOrdered(others: seq<(u32, seq<byte>)>, chans: seq<(u32, ChannelMessage)>)
    requires SortedBy(others, EventTime)
    requires forall i, j :: 0 <= i < j < |chans| ==> chans[i].0 <= chans[j].0
    ensures forall i, j :: 0 <= i < j < |Merge(others, chans)| ==>
      Merge(others, chans)[i].time <= Merge(others, chans)[j].time
    decreases |others| + |chans|
  {
    var m := Merge(others, chans);
    if others == [] && chans == [] {
    } else {
      var rest;
      if others != [] && (chans == [] || others[0].0 <= chans[0].0) {
        SortedByTail(others, EventTime);
        MergeAtLeast(others[1..], chans, others[0].0);
        MergeOrdered(others[1..], chans);
        rest := Merge(others[1..], chans);
      } else {
        MergeAtLeast(others, chans[1..], chans[0].0);
        MergeOrdered(others, chans[1..]);
        rest := Merge(others, chans[1..]);
      }
      assert m == [m[0]] + rest;
      forall i, j | 0 <= i < j < |m|
        ensures m[i].time <= m[j].time
      {
        assert m[j] == rest[j - 1];
        if i > 0 {
          assert m[i] == rest[i - 1];
        }
      }
    }
  }

  /** The tail of a sorted sequence is sorted and bounded below by its head. */
  lemma SortedByTail<T>(s: seq<T>, key: T -> nat)
    requires s != [] && SortedBy(s, key)
    ensures SortedBy(s[1..], key)
    ensures forall i :: 0 <= i < |s[1..]| ==> key(s[0]) <= key(s[1..][i])
  {
    forall i, j | 0 <= i < j < |s[1..]|
      ensures key(s[1..][i]) <= key(s[1..][j])
    {
      assert s[1..][i] == s[i + 1] && s[1..][j] == s[j + 1];
    }
  }

  /** At equal times every other event precedes every channel message: a channel
    * message comes before an other event only when its time is strictly smaller. */
  lemma {:induction false} MergeOthersFirst(others: seq<(u32, seq<byte>)>, chans: seq<(u32, ChannelMessage)>)
    requires SortedBy(others, EventTime)
    ensures forall i, j :: (0 <= i < j < |Merge(others, chans)| &&
      Merge(others, chans)[i].ChannelItem? && Merge(others, chans)[j].OtherItem?) ==>
      Merge(others, chans)[i].time < Merge(others, chans)[j].time
    decreases |others| + |chans|
  {
    var m := Merge(others, chans);
    if others == [] && chans == [] {
    } else {
      var rest;
      if others != [] && (chans == [] || others[0].0 <= chans[0].0) {
        SortedByTail(others, EventTime);
        MergeOthersFirst(others[1..], chans);
        rest := Merge(others[1..], chans);
      } else {
        var t := chans[0].0;
        assert forall i :: 0 <= i < |others| ==> t < others[i].0 by {
          forall i | 0 <= i < |others|
            ensures t < others[i].0
          {
            assert EventTime(others[0]) <= EventTime(others[i]);
          }
        }
        MergeOthersAbove(others, chans[1..], t);
        MergeOthersFirst(others, chans[1..]);
        rest := Merge(others, chans[1..]);
      }
      assert m == [m[0]] + rest;
      forall i, j | 0 <= i < j < |m| && m[i].ChannelItem? && m[j].OtherItem?
        ensures m[i].time < m[j].time
      {
        assert m[j] == rest[j - 1];
        if i > 0 {
          assert m[i] == rest[i - 1];
        }
      }
    }
  }

  // ------------------------------------------------------------- events

  /** The writer's state between events. */
  datatype WriterState = WriterState(w: Written, lastTime: nat, running: Option<byte>)

  /** `channel | (discriminant << 4)`. */
  function StatusByte(m: ChannelMessage): (s: byte)
    ensures s / 16 == Discriminant(m.kind) && s % 16 == m.channel
  {
    m.channel + 0x10 * Discriminant(m.kind)
  }

  /** The data bytes written for each kind; a pitch bend as its low seven bits,
    * then the rest truncated to a byte. */
  function DataBytes(k: ChannelMessageKind): (s: seq<byte>)
    ensures |s| == (if k.ProgramChange? || k.ChannelPressure? then 1 else 2)
  {
    match k
    case NoteOff(a, b) => [a, b]
    case NoteOn(a, b) => [a, b]
    case PolyKeyPressure(a, b) => [a, b]
    case ControlChange(a, b) => [a, b]
    case PitchBendChange(v) => [v % 0x80, (v / 0x80) % 0x100]
    case ProgramChange(a) => [a]
    case ChannelPressure(a) => [a]
  }

  /** A length field: the length is converted to `u32` (a panic above it) and
    * written as a VLQ. */
  function LengthPut(w: Written, n: nat): Result<Written, MidiError> {
    if n >= U32_LIMIT then Err(Panic) else VlqPut(w, n)
  }

  /** An other event after its delta time: `F0`/`F7`, length, payload; or `FF`,
    * type, length, payload. Any other first byte is unreachable in the source. */
  function PutOtherEvent(w: Written, bytes: seq<byte>): (r: Result<Written, MidiError>)
    ensures r.Ok? ==> |bytes| >= 1 && bytes[0] in {0xF0, 0xF7, 0xFF}
    ensures r.Ok? ==> |w.out| <= |r.value.out| && r.value.out[..|w.out|] == w.out &&
                      r.value.length - w.length == |r.value.out| - |w.out| && r.value.length <= U32_MAX
  {
    if |bytes| == 0 then Err(Panic)
    else if bytes[0] == 0xF0 || bytes[0] == 0xF7 then
      var w1 :- PutWithin(w, [bytes[0]]);
      var w2 :- LengthPut(w1, |bytes[1..]|);
      PutWithin(w2, bytes[1..])
    else if bytes[0] == 0xFF then
      var w1 :- PutWithin(w, [0xFF]);
      if |bytes| < 2 then Err(Panic)
      else
        var w2 :- PutWithin(w1, [bytes[1]]);
        var w3 :- LengthPut(w2, |bytes[2..]|);
        PutWithin(w3, bytes[2..])
    else Err(Panic)
  }

  /** One iteration of the writer loop: the delta time, then the event; a
    * channel message's status byte is left out when it equals the running
    * status. The subtraction of times is a `u32` one, which panics on underflow. */
  function WriteItem(st: WriterState, item: Item): (r: Result<WriterState, MidiError>)
    ensures r.Ok? ==> st.lastTime <= item.time && r.value.lastTime == item.time
    ensures r.Ok? ==> |st.w.out| <= |r.value.w.out| && r.value.w.out[..|st.w.out|] == st.w.out &&
                      r.value.w.length - st.w.length == |r.value.w.out| - |st.w.out| && r.value.w.length <= U32_MAX
    ensures r.Ok? ==> r.value.running == (if item.OtherItem? then None else Some(StatusByte(item.message)))
  {
    if item.time < st.lastTime then Err(Panic)
    else
      var w :- VlqPut(st.w, item.time - st.lastTime);
      match item
      case OtherItem(_, bytes) =>
        var w1 :- PutOtherEvent(w, bytes);
        Ok(WriterState(w1, item.time, None))
      case ChannelItem(_, m) =>
        var status := StatusByte(m);
        var w1 :- if st.running == Some(status) then Ok(w) else PutWithin(w, [status]);
        var w2 :- PutWithin(w1, DataBytes(m.kind));
        Ok(WriterState(w2, item.time, Some(status)))
  }

  /** The writer loop over the merged stream. */
  function WriteItems(st: WriterState, items: seq<Item>): (r: Result<WriterState, MidiError>)
    ensures r.Ok? ==> |st.w.out| <= |r.value.w.out| && r.value.w.out[..|st.w.out|] == st.w.out &&
                      r.value.w.length - st.w.length == |r.value.w.out| - |st.w.out|
    ensures r.Ok? && st.w.length <= U32_MAX ==> r.value.w.length <= U32_MAX
    decreases |items|
  {
    if items == [] then Ok(st)
    else
      var next :- WriteItem(st, items[0]);
      WriteItems(next, items[1..])
  }

  // ------------------------------------------------------------- the file

  /** The header's division word; an SMPTE frame rate is its `i8` code
    * sign-extended to `u16` and shifted into the high byte. */
  function DivisionWord(d: Division): (word: u16)
    ensures d.TicksPerFrame? ==> word >= 0x8000 && word % 0x100 == d.ticksPerFrame
  {
    match d
    case TicksPerQuarterNote(ticks) => ticks
    case TicksPerFrame(frameRate, ticksPerFrame) =>
      ((SmpteCode(frameRate) % 0x1_0000) * 0x100) % 0x1_0000 + ticksPerFrame
  }

  /** Header chunk (format 0, one track) and the track chunk's type. */
  function FileHeader(d: Division): (s: seq<byte>)
    ensures |s| == 18
  {
    MTHD + U32Bytes(6) + U16Bytes(0) + U16Bytes(1) + U16Bytes(DivisionWord(d)) + MTRK
  }

  /** Where the track length is patched in. */
  const LENGTH_POS: nat := 18

  const END_OF_TRACK: seq<byte> := [0x00, 0xFF, 0x2F, 0x00]

  /** The writer's state when the first event is written: header, type and a
    * placeholder length are out, the chunk length counter is 0. */
  function InitialState(d: Division): (st: WriterState)
    ensures |st.w.out| == LENGTH_POS + 4 && st.w.length == 0
  {
    WriterState(Written(FileHeader(d) + U32Bytes(0), 0), 0, None)
  }

  /** `write_midi`: the bytes of the file it writes. */
  function WriteMidi(data: MidiData): Result<seq<byte>, MidiError> {
    var chans := SortBy(data.channelMessages, ChannelKey);
    var others := SortBy(data.otherEvents, EventTime);
    var st :- WriteItems(InitialState(data.division), Merge(others, chans));
    var w :- PutWithin(st.w, END_OF_TRACK);
    Ok(Patched(w))
  }

  /** The output with the track length written over the placeholder. */
  function Patched(w: Written): seq<byte>
    requires |w.out| >= LENGTH_POS + 4 && w.length < U32_LIMIT
  {
    w.out[..LENGTH_POS] + U32Bytes(w.length) + w.out[LENGTH_POS + 4..]
  }

  /** A division the writer puts in the header reads back as itself, provided
    * a tick count fits in the 15 bits the header gives it. */
  lemma DivisionRoundTrip(d: Division)
    requires d.TicksPerQuarterNote? ==> d.ticks < 0x8000
    ensures ParseDivision(DivisionWord(d)) == Ok(d)
  {
    if d.TicksPerFrame? {
      var code := SmpteCode(d.frameRate);
      var word := DivisionWord(d);
      assert (code % 0x1_0000) * 0x100 % 0x1_0000 == 0x1_0000 + code * 0x100 by {
        assert code % 0x1_0000 == 0x1_0000 + code;
        DivMod((0x1_0000 + code) * 0x100, 0x1_0000, 0xFF, 0x1_0000 + code * 0x100);
      }
      DivMod(word, 0x100, 0x100 + code, d.ticksPerFrame);
      assert HighByteAsI8(word) == code;
      SmpteCodeRoundTrip(d.frameRate);
    }
  }

  /** The file `write_midi` produces: the header chunk for one format-0 track,
    * the track chunk's type, a length field equal to the number of bytes after
    * it, and a track ending with End of Track. */
  lemma WriteMidiLayout(data: MidiData)
    requires WriteMidi(data).Ok?
    ensures var out := WriteMidi(data).value;
      |out| >= LENGTH_POS + 8 && out[..LENGTH_POS] == FileHeader(data.division) &&
      BigEndian(out[LENGTH_POS..LENGTH_POS + 4]) == |out| - (LENGTH_POS + 4) &&
      out[|out| - 4..] == END_OF_TRACK
  {
    var chans := SortBy(data.channelMessages, ChannelKey);
    var others := SortBy(data.otherEvents, EventTime);
    var init := InitialState(data.division);
    var st := WriteItems(init, Merge(others, chans)).value;
    var w := PutWithin(st.w, END_OF_TRACK).value;
    assert WriteMidi(data).value == Patched(w);
    TrackLayout(data.division, st.w, w);
  }

  /** The events written after the initial state, then End of Track. */
  lemma TrackLayout(d: Division, events: Written, w: Written)
    requires |InitialState(d).w.out| <= |events.out| && events.out[..|InitialState(d).w.out|] == InitialState(d).w.out
    requires events.length == |events.out| - |InitialState(d).w.out|
    requires w == Written(events.out + END_OF_TRACK, events.length + |END_OF_TRACK|) && w.length < U32_LIMIT
    ensures var out := Patched(w);
      |out| >= LENGTH_POS + 8 && out[..LENGTH_POS] == FileHeader(d) &&
      BigEndian(out[LENGTH_POS..LENGTH_POS + 4]) == |out| - (LENGTH_POS + 4) &&
      out[|out| - 4..] == END_OF_TRACK
  {
    var init := InitialState(d);
    assert w.out[..LENGTH_POS] == init.w.out[..LENGTH_POS];
    PatchedLayout(w);
  }

  lemma PatchedLayout(w: Written)
    requires |w.out| >= LENGTH_POS + 8 && w.length < U32_LIMIT
    requires w.length == |w.out| - (LENGTH_POS + 4) && w.out[|w.out| - 4..] == END_OF_TRACK
    ensures var out := Patched(w);
      |out| == |w.out| && out[..LENGTH_POS] == w.out[..LENGTH_POS] &&
      BigEndian(out[LENGTH_POS..LENGTH_POS + 4]) == w.length && out[|out| - 4..] == END_OF_TRACK
  {
    var out := Patched(w);
    assert out[LENGTH_POS..LENGTH_POS + 4] == U32Bytes(w.length);
    assert out[|out| - 4..] == w.out[|w.out| - 4..];
  }

  // ------------------------------------------------------------- the imperative writer

  /** The byte-by-byte payload loop. */
  method WriteBytesWithin(w: Written, bytes: seq<byte>) returns (r: Result<Written, MidiError>)
    requires w.length <= U32_MAX
    ensures r == PutWithin(w, bytes)
  {
    var cur := w;
    for i := 0 to |bytes|
      invariant cur == Written(w.out + bytes[..i], w.length + i)
      invariant cur.length <= U32_MAX
    {
      var next := WriteByteWithin(cur, bytes[i]);
      if next.Err? {
        return Err(next.error);
      }
      cur := next.value;
      assert bytes[..i + 1] == bytes[..i] + [bytes[i]];
    }
    assert bytes[..|bytes|] == bytes;
    r := Ok(cur);
  }

  /** A length field, as `try_into().unwrap()` then a VLQ. */
  method WriteLengthWithin(w: Written, n: nat) returns (r: Result<Written, MidiError>)
    requires w.length <= U32_MAX
    ensures r == LengthPut(w, n)
  {
    if n >= U32_LIMIT {
      return Err(Panic);
    }
    r := WriteVlqWithin(w, n);
  }

  /** The other-event branch of the writer loop, after the delta time. */
  method WriteOtherBytes(w: Written, bytes: seq<byte>) returns (r: Result<Written, MidiError>)
    requires w.length <= U32_MAX
    ensures r == PutOtherEvent(w, bytes)
  {
    if |bytes| == 0 {
      return Err(Panic);
    }
    if bytes[0] == 0xF0 || bytes[0] == 0xF7 {
      var w1 :- WriteByteWithin(w, bytes[0]);
      var w2 :- WriteLengthWithin(w1, |bytes[1..]|);
      r := WriteBytesWithin(w2, bytes[1..]);
    } else if bytes[0] == 0xFF {
      var w1 :- WriteByteWithin(w, 0xFF);
      if |bytes| < 2 {
        return Err(Panic);
      }
      var w2 :- WriteByteWithin(w1, bytes[1]);
      var w3 :- WriteLengthWithin(w2, |bytes[2..]|);
      r := WriteBytesWithin(w3, bytes[2..]);
    } else {
      r := Err(Panic);
    }
  }

  /** One iteration of the writer loop. */
  method WriteItemWithin(st: WriterState, item: Item) returns (r: Result<WriterState, MidiError>)
    requires st.w.length <= U32_MAX
    ensures r == WriteItem(st, item)
  {
    if item.time < st.lastTime {
      return Err(Panic);
    }
    var w :- WriteVlqWithin(st.w, item.time - st.lastTime);
    match item {
      case OtherItem(_, bytes) =>
        var w1 :- WriteOtherBytes(w, bytes);
        r := Ok(WriterState(w1, item.time, None));
      case ChannelItem(_, m) =>
        var status := StatusByte(m);
        var w1 := w;
        if st.running != Some(status) {
          w1 :- WriteByteWithin(w, status);
        }
        var w2 :- WriteBytesWithin(w1, DataBytes(m.kind));
        r := Ok(WriterState(w2, item.time, Some(status)));
    }
  }

  /** `write_midi`: sorts both lists, writes the header, then merges the lists
    * event by event, then End of Track, then patches the track length. */
  method WriteMidiFile(data: MidiData) returns (r: Result<seq<byte>, MidiError>)
    ensures r == WriteMidi(data)
  {
    var chans := SortBy(data.channelMessages, ChannelKey);
    var others := SortBy(data.otherEvents, EventTime);
    var st := InitialState(data.division);
    var i, j := 0, 0;
    while i < |others| || j < |chans|
      invariant i <= |others| && j <= |chans|
      invariant st.w.length <= U32_MAX
      invariant WriteItems(InitialState(data.division), Merge(others, chans))
             == WriteItems(st, Merge(others[i..], chans[j..]))
      decreases |others| - i + |chans| - j
    {
      var item;
      if i < |others| && (j == |chans| || others[i].0 <= chans[j].0) {
        item := OtherItem(others[i].0, others[i].1);
        assert others[i..][1..] == others[i + 1..];
        i := i + 1;
      } else {
        item := ChannelItem(chans[j].0, chans[j].1);
        assert chans[j..][1..] == chans[j + 1..];
        j := j + 1;
      }
      st :- WriteItemWithin(st, item);
    }
    assert others[i..] == [] && chans[j..] == [];
    var w :- WriteEndOfTrack(st.w);
    r := Ok(Patched(w));
  }

  /** The four bytes of the End of Track meta event, one write at a time. */
  method WriteEndOfTrack(w: Written) returns (r: Result<Written, MidiError>)
    requires w.length <= U32_MAX
    ensures r == PutWithin(w, END_OF_TRACK)
  {
    var w1 :- WriteByteWithin(w, 0x00);
    var w2 :- WriteByteWithin(w1, 0xFF);
    var w3 :- WriteByteWithin(w2, 0x2F);
    var w4 :- WriteByteWithin(w3, 0x00);
    assert w.out + END_OF_TRACK == w.out + [0x00] + [0xFF] + [0x2F] + [0x00];
    r := Ok(w4);
  }
}
