/** Cursor primitives of the Standard MIDI File codec: big-endian integers and
  * variable-length quantities (VLQs), read against a remaining-byte budget for
  * the current chunk and written while counting the chunk's length.
  *
  * The input file is a `seq<byte>` read from a position `pos`; a position past
  * the end (reachable by seeking over a chunk) simply has nothing left to read.
  * The output file is a `seq<byte>` that only grows. */
module MidiPrimitives {
  import opened Wrappers
  import opened Bytes

  /** Every way reading or writing a Standard MIDI File can fail. */
  datatype MidiError =
    | UnexpectedEof
    | NotStandardMidiFile
    | HeaderTooShort
    | Format2NotSupported
    | UnknownFormat
    | NoTracks
    | MultipleTracksInFormat0
    | UnrecognizedSmpteFormat
    | UnterminatedSequence
    | SongTooLong
    | InvalidMetaEventType
    | MissingStatusByte
    | SystemMessageInChannelMessage
    | ChunkSizeOverflow
    | VlqOverflow
      /** An index out of bounds, `unreachable!()` or `unwrap()` in the writer. */
    | Panic

  /** The text each error carries. */
  function Message(e: MidiError): string {
    match e
    case UnexpectedEof => "failed to fill whole buffer"
    case NotStandardMidiFile => "File is not in Standard MIDI File format"
    case HeaderTooShort => "Header is too short"
    case Format2NotSupported => "Standard MIDI File format 2 is not supported"
    case UnknownFormat => "Unknown Standard MIDI File format (not 0, 1 or 2)"
    case NoTracks => "MIDI file has no tracks!"
    case MultipleTracksInFormat0 => "Multiple tracks in a Standard MIDI File format 0 file"
    case UnrecognizedSmpteFormat => "Unrecognized SMPTE format"
    case UnterminatedSequence => "Unterminated sequence within chunk"
    case SongTooLong => "Song is too long (more than 4,294,967,295 ticks)"
    case InvalidMetaEventType => "Invalid meta event type"
    case MissingStatusByte => "Missing status byte in MIDI channel message"
    case SystemMessageInChannelMessage => "System message present where channel message expected"
    case ChunkSizeOverflow => "Chunk size overflow during writing"
    case VlqOverflow => "Variable-length quantity overflow during writing"
    case Panic => "panic"
  }

  // ---------------------------------------------------------------- reading

  /** A value read from the input together with the cursor after it. */
  datatype Read<T> = Read(value: T, pos: nat, within: nat)

  /** What is left of the input at `pos`. */
  function Rest(input: seq<byte>, pos: nat): (r: seq<byte>)
    ensures |r| <= |input|
    ensures pos <= |input| ==> r == input[pos..]
    ensures pos >= |input| ==> r == []
  {
    if pos <= |input| then input[pos..] else []
  }

  /** The error of a bounded read that runs short: the chunk budget is checked
    * before each byte, so whichever of the budget and the file ends first decides. */
  function ShortRead(input: seq<byte>, pos: nat, within: nat): MidiError {
    if within <= |Rest(input, pos)| then UnterminatedSequence else UnexpectedEof
  }

  /** Reading `n` bytes charged to the budget `within`. */
  function TakeWithin(input: seq<byte>, pos: nat, within: nat, n: nat): (r: Result<Read<seq<byte>>, MidiError>)
    ensures r.Ok? <==> n <= within && n <= |Rest(input, pos)|
    ensures r.Ok? ==> |r.value.value| == n && r.value.pos == pos + n && r.value.within == within - n
  {
    if n <= within && n <= |Rest(input, pos)| then Ok(Read(Rest(input, pos)[..n], pos + n, within - n))
    else Err(ShortRead(input, pos, within))
  }

  /** Reads one byte inside a chunk, charging it to the chunk's budget. */
  method ReadByteWithin(input: seq<byte>, pos: nat, within: nat) returns (r: Result<Read<byte>, MidiError>)
    ensures within == 0 ==> r == Err(UnterminatedSequence)
    ensures within > 0 && pos >= |input| ==> r == Err(UnexpectedEof)
    ensures r.Ok? <==> within > 0 && pos < |input|
    ensures r.Ok? ==> r.value == Read(input[pos], pos + 1, within - 1)
    ensures r.Err? ==> TakeWithin(input, pos, within, 1) == Err(r.error)
  {
    if within < 1 {
      return Err(UnterminatedSequence);
    }
    if pos >= |input| {
      return Err(UnexpectedEof);
    }
    r := Ok(Read(input[pos], pos + 1, within - 1));
  }

  /** Reads `n` bytes inside a chunk one at a time, as the event loop does for
    * the payload of a SysEx or meta event. */
  method ReadBytesWithin(input: seq<byte>, pos: nat, within: nat, n: nat) returns (r: Result<Read<seq<byte>>, MidiError>)
    ensures r == TakeWithin(input, pos, within, n)
  {
    var bytes: seq<byte> := [];
    var p, w := pos, within;
    var i := 0;
    while i < n
      invariant 0 <= i <= n && p == pos + i && w == within - i
      invariant i <= within && i <= |Rest(input, pos)|
      invariant bytes == Rest(input, pos)[..i]
    {
      var b := ReadByteWithin(input, p, w);
      if b.Err? {
        return Err(b.error);
      }
      assert Rest(input, pos)[..i + 1] == Rest(input, pos)[..i] + [b.value.value];
      bytes := bytes + [b.value.value];
      p, w := b.value.pos, b.value.within;
      i := i + 1;
    }
    r := Ok(Read(bytes, p, w));
  }

  /** `read_bytes` outside any chunk budget (header fields, chunk headers). */
  function ReadExact(input: seq<byte>, pos: nat, n: nat): (r: Result<(seq<byte>, nat), MidiError>)
    ensures r.Ok? <==> pos + n <= |input|
    ensures r.Ok? ==> r.value == (input[pos..pos + n], pos + n)
  {
    if pos + n <= |input| then Ok((input[pos..pos + n], pos + n)) else Err(UnexpectedEof)
  }

  /** `u16::from_be_bytes` / `u32::from_be_bytes`. */
  function BigEndian(s: seq<byte>): (v: nat)
    ensures |s| == 1 ==> v == s[0] as nat
    ensures |s| == 2 ==> v == s[0] as nat * 0x100 + s[1] as nat
    ensures |s| == 3 ==> v == s[0] as nat * 0x1_0000 + s[1] as nat * 0x100 + s[2] as nat
    ensures |s| == 4 ==> v == s[0] as nat * 0x100_0000 + s[1] as nat * 0x1_0000 + s[2] as nat * 0x100 + s[3] as nat
  {
    if s == [] then 0 else BigEndian(s[..|s| - 1]) * 0x100 + s[|s| - 1] as nat
  }

  /** `u16::to_be_bytes`. */
  function U16Bytes(v: nat): (s: seq<byte>)
    requires v < 0x1_0000
    ensures |s| == 2 && BigEndian(s) == v
  {
    [v / 0x100, v % 0x100]
  }

  /** `u32::to_be_bytes`. */
  function U32Bytes(v: nat): (s: seq<byte>)
    requires v < U32_LIMIT
    ensures |s| == 4 && BigEndian(s) == v
  {
    var hi := v / 0x1_0000;
    var lo := v % 0x1_0000;
    assert v == hi * 0x1_0000 + lo;
    assert hi == (hi / 0x100) * 0x100 + hi % 0x100;
    assert lo == (lo / 0x100) * 0x100 + lo % 0x100;
    assert (v / 0x100) % 0x100 == lo / 0x100;
    [hi / 0x100, hi % 0x100, lo / 0x100, lo % 0x100]
  }

  // ---------------------------------------------- variable-length quantities

  /** `(quantity << 7) | (byte & 0x7F)` on a `u32`: the top seven bits of the
    * quantity are shifted out. */
  function VlqShift(acc: nat, b: byte): (v: nat)
    ensures v < U32_LIMIT
  {
    (acc % 0x200_0000) * 0x80 + b % 0x80
  }

  /** The reader's VLQ loop from `pos`, having accumulated `acc`: one byte per
    * step, stopping after the first byte with bit 7 clear, however many bytes
    * that takes. The budget is checked before the end of the file. */
  function VlqReadFrom(input: seq<byte>, pos: nat, within: nat, acc: nat): (r: Result<Read<nat>, MidiError>)
    ensures r.Ok? ==> r.value.value < U32_LIMIT && pos < r.value.pos && r.value.pos - pos == within - r.value.within
    ensures r.Ok? ==> r.value.pos <= |input| && input[r.value.pos - 1] < 0x80
    decreases within
  {
    if within == 0 then Err(UnterminatedSequence)
    else if pos >= |input| then Err(UnexpectedEof)
    else
      var b := input[pos];
      if b < 0x80 then Ok(Read(VlqShift(acc, b), pos + 1, within - 1))
      else VlqReadFrom(input, pos + 1, within - 1, VlqShift(acc, b))
  }

  /** Reading a VLQ inside a chunk. */
  function VlqRead(input: seq<byte>, pos: nat, within: nat): (r: Result<Read<nat>, MidiError>)
    ensures r.Ok? ==> r.value.value < U32_LIMIT && pos < r.value.pos && r.value.pos - pos == within - r.value.within
  {
    VlqReadFrom(input, pos, within, 0)
  }

  /** `read_variable_length_quantity_within`. */
  method ReadVlqWithin(input: seq<byte>, pos: nat, within: nat) returns (r: Result<Read<nat>, MidiError>)
    ensures r == VlqRead(input, pos, within)
  {
    var quantity: nat := 0;
    var p, w := pos, within;
    while true
      invariant VlqReadFrom(input, pos, within, 0) == VlqReadFrom(input, p, w, quantity)
      decreases w
    {
      var b := ReadByteWithin(input, p, w);
      if b.Err? {
        return Err(b.error);
      }
      var byte := b.value.value;
      quantity := (quantity % 0x200_0000) * 0x80 + byte % 0x80;
      p, w := b.value.pos, b.value.within;
      if byte < 0x80 {
        break;
      }
    }
    r := Ok(Read(quantity, p, w));
  }

  // ------------------------------------------------------------- writing

  /** Largest value a VLQ can carry in four bytes, plus one. */
  const VLQ_LIMIT: nat := 0x1000_0000

  /** 128 to the power `n`, for the four septets of a VLQ. */
  function Pow128(n: nat): (p: nat)
    requires n <= 4
    ensures p > 0
  {
    if n == 0 then 1 else if n == 1 then 0x80 else if n == 2 then 0x4000 else if n == 3 then 0x20_0000 else 0x1000_0000
  }

  /** `q >> (7 * j)`: the septets of `q` from septet `j` up. */
  function Above(q: nat, j: nat): nat
    requires j <= 4
  {
    if j == 0 then q else if j == 1 then q / 0x80 else if j == 2 then q / 0x4000
    else if j == 3 then q / 0x20_0000 else q / 0x1000_0000
  }

  /** Septet `i` of `q`, counting from the least significant. */
  function Septet(q: nat, i: nat): (d: nat)
    requires i <= 3
    ensures d < 0x80
  {
    Above(q, i) % 0x80
  }

  /** The number of septets the writer uses for `q`. */
  function SeptetCount(q: nat): (n: nat)
    requires q < VLQ_LIMIT
    ensures 1 <= n <= 4 && q < Pow128(n)
    ensures n > 1 ==> q >= Pow128(n - 1)
  {
    if q < 0x80 then 1 else if q < 0x4000 then 2 else if q < 0x20_0000 then 3 else 4
  }

  /** The VLQ encoding of `q`: its septets from the most significant, every
    * byte but the last with bit 7 set. */
  function VlqEncode(q: nat): (s: seq<byte>)
    requires q < VLQ_LIMIT
    ensures |s| == SeptetCount(q) && 1 <= |s| <= 4
    ensures forall i :: 0 <= i < |s| - 1 ==> s[i] >= 0x80
    ensures s[|s| - 1] < 0x80
  {
    var n := SeptetCount(q);
    seq(n, i requires 0 <= i < n => (if i < n - 1 then 0x80 else 0) + Septet(q, n - 1 - i))
  }

  /** `write_byte_within`: the result of a write is the new output and length. */
  datatype Written = Written(out: seq<byte>, length: nat)

  /** Writing `bytes` while counting the chunk length in a `u32`: each byte
    * fails once the counter has reached `u32::MAX`. */
  function PutWithin(w: Written, bytes: seq<byte>): (r: Result<Written, MidiError>)
    ensures r.Ok? <==> w.length + |bytes| <= U32_MAX
    ensures r.Ok? ==> r.value == Written(w.out + bytes, w.length + |bytes|)
  {
    if w.length + |bytes| <= U32_MAX then Ok(Written(w.out + bytes, w.length + |bytes|))
    else Err(ChunkSizeOverflow)
  }

  /** `write_byte_within`. */
  method WriteByteWithin(w: Written, b: byte) returns (r: Result<Written, MidiError>)
    requires w.length <= U32_MAX
    ensures r == PutWithin(w, [b])
  {
    if w.length == U32_MAX {
      return Err(ChunkSizeOverflow);
    }
    r := Ok(Written(w.out + [b], w.length + 1));
  }

  /** Writing a VLQ: fails for values that need more than four septets. */
  function VlqPut(w: Written, q: nat): Result<Written, MidiError> {
    if q < VLQ_LIMIT then PutWithin(w, VlqEncode(q)) else Err(VlqOverflow)
  }

  /** The low `c` septets of `q`, moved to the top of a `u32`: the writer's
    * shifted quantity with `c` septets still to emit. */
  function Aligned(q: nat, c: nat): nat
    requires 1 <= c <= 4
  {
    if c == 1 then (q % 0x80) * 0x200_0000
    else if c == 2 then (q % 0x4000) * 0x4_0000
    else if c == 3 then (q % 0x20_0000) * 0x800
    else (q % 0x1000_0000) * 0x10
  }

  /** 2 to the power 32 - 7c: the shift that moves a `c`-septet value to the
    * top of a `u32`. */
  function TopShift(c: nat): (f: nat)
    requires 1 <= c <= 4
    ensures f > 0
  {
    if c == 1 then 0x200_0000 else if c == 2 then 0x4_0000 else if c == 3 then 0x800 else 0x10
  }

  /** `write_variable_length_quantity_within`: shifts the value to the top of a
    * `u32` and emits its top seven bits per step. */
  method WriteVlqWithin(w: Written, quantity: nat) returns (r: Result<Written, MidiError>)
    requires w.length <= U32_MAX && quantity < U32_LIMIT
    ensures r == VlqPut(w, quantity)
  {
    var septetCount: nat;
    if quantity < 0x80 {
      septetCount := 1;
    } else if quantity < 0x4000 {
      septetCount := 2;
    } else if quantity < 0x20_0000 {
      septetCount := 3;
    } else if quantity < 0x1000_0000 {
      septetCount := 4;
    } else {
      return Err(VlqOverflow);
    }
    ghost var n := septetCount;
    ghost var encoding := VlqEncode(quantity);
    assert n == SeptetCount(quantity);
    var shifted := (quantity * TopShift(septetCount)) % U32_LIMIT;
    TopOfU32(quantity, n);
    var cur := w;
    while true
      invariant 1 <= septetCount <= n == |encoding|
      invariant shifted == Aligned(quantity, septetCount)
      invariant cur == Written(w.out + encoding[..n - septetCount], w.length + (n - septetCount))
      invariant cur.length <= U32_MAX
      decreases septetCount
    {
      EncodingByte(quantity, septetCount);
      VlqPrefixPut(w, quantity, n - septetCount);
      var next, rest := WriteSeptet(cur, shifted, septetCount == 1);
      septetCount := septetCount - 1;
      if next.Err? {
        return Err(next.error);
      }
      shifted := rest;
      cur := next.value;
      if septetCount == 0 {
        break;
      }
    }
    assert encoding[..n] == encoding;
    r := Ok(cur);
  }

  /** Writing byte `k` of an encoding after the first `k`: the bytes so far
    * grow by one, or the count overflows and so does the whole write. */
  lemma VlqPrefixPut(w: Written, q: nat, k: nat)
    requires q < VLQ_LIMIT && k < |VlqEncode(q)|
    ensures var e := VlqEncode(q);
      PutWithin(Written(w.out + e[..k], w.length + k), [e[k]]) ==
      if w.length + k + 1 <= U32_MAX then Ok(Written(w.out + e[..k + 1], w.length + k + 1))
      else Err(ChunkSizeOverflow)
    ensures w.length + k + 1 > U32_MAX ==> VlqPut(w, q) == Err(ChunkSizeOverflow)
    ensures w.length + |VlqEncode(q)| <= U32_MAX ==> VlqPut(w, q) == Ok(Written(w.out + VlqEncode(q), w.length + |VlqEncode(q)|))
  {
    var e := VlqEncode(q);
    assert w.out + e[..k] + [e[k]] == w.out + e[..k + 1];
  }

  /** One turn of the writer's VLQ loop: the top seven bits of the shifted
    * quantity are written, with bit 7 set unless they are the last, and
    * shifted out. */
  method WriteSeptet(cur: Written, shifted: nat, last: bool) returns (r: Result<Written, MidiError>, rest: nat)
    requires cur.length <= U32_MAX && shifted < U32_LIMIT
    ensures r == PutWithin(cur, [(if last then 0 else 0x80) + shifted / 0x200_0000])
    ensures rest == (shifted * 0x80) % U32_LIMIT
  {
    var septet := shifted / 0x200_0000;
    rest := (shifted * 0x80) % U32_LIMIT;
    if last {
      r := WriteByteWithin(cur, septet);
    } else {
      r := WriteByteWithin(cur, 0x80 + septet);
    }
  }

  /** The initial shift loses nothing: `q` fits in `c` septets. */
  lemma TopOfU32(q: nat, c: nat)
    requires 1 <= c <= 4 && q < Pow128(c)
    ensures (q * TopShift(c)) % U32_LIMIT == Aligned(q, c)
  {
    var t := TopShift(c);
    assert q % Pow128(c) == q;
    DivMod(q * t, U32_LIMIT, 0, q * t);
  }

  /** Division with remainder is unique. */
  lemma DivMod(x: int, d: int, a: int, b: int)
    requires d > 0 && 0 <= b < d && x == a * d + b
    ensures x / d == a && x % d == b
  {
    var k := x / d - a;
    assert k * d == (x / d) * d - a * d;
    assert k * d == b - x % d;
    SmallMultiple(k, d);
  }

  /** The only multiple of `d` strictly between `-d` and `d` is zero. */
  lemma SmallMultiple(k: int, d: int)
    ensures d > 0 && -d < k * d < d ==> k == 0
  {
    if d > 0 && k >= 1 {
      assert k * d == (k - 1) * d + d;
      assert (k - 1) * d >= 0;
    } else if d > 0 && k <= -1 {
      assert k * d == (k + 1) * d - d;
      assert (k + 1) * d <= 0;
    }
  }

  /** One step of the writer's loop: the top seven bits of the shifted value are
    * septet `c - 1`, and shifting them out leaves the lower `c - 1` septets at
    * the top. */
  lemma SeptetStep(q: nat, c: nat)
    requires 1 <= c <= 4
    ensures Aligned(q, c) / 0x200_0000 == Septet(q, c - 1)
    ensures c > 1 ==> (Aligned(q, c) * 0x80) % U32_LIMIT == Aligned(q, c - 1)
  {
    if c == 1 {
      DivMod((q % 0x80) * 0x200_0000, 0x200_0000, q % 0x80, 0);
    } else if c == 2 {
      SeptetStep2(q);
    } else if c == 3 {
      SeptetStep3(q);
    } else {
      SeptetStep4(q);
    }
  }

  /** The byte the writer emits with `c` septets left is the encoding's byte
    * `n - c`, and the shifted quantity moves on to `c - 1` septets. */
  lemma EncodingByte(q: nat, c: nat)
    requires q < VLQ_LIMIT && 1 <= c <= SeptetCount(q)
    ensures VlqEncode(q)[SeptetCount(q) - c] == (if c == 1 then 0 else 0x80) + Aligned(q, c) / 0x200_0000
    ensures Aligned(q, c) / 0x200_0000 < 0x80
    ensures c > 1 ==> (Aligned(q, c) * 0x80) % U32_LIMIT == Aligned(q, c - 1)
  {
    SeptetStep(q, c);
  }

  lemma SeptetStep2(q: nat)
    ensures Aligned(q, 2) / 0x200_0000 == Septet(q, 1)
    ensures (Aligned(q, 2) * 0x80) % U32_LIMIT == Aligned(q, 1)
  {
    var hi, m := q / 0x4000, q % 0x4000;
    var s, r := m / 0x80, m % 0x80;
    DivMod(m * 0x4_0000, 0x200_0000, s, r * 0x4_0000);
    DivMod(q, 0x80, hi * 0x80 + s, r);
    DivMod(hi * 0x80 + s, 0x80, hi, s);
    DivMod(m * 0x4_0000 * 0x80, U32_LIMIT, s, r * 0x200_0000);
  }

  lemma SeptetStep3(q: nat)
    ensures Aligned(q, 3) / 0x200_0000 == Septet(q, 2)
    ensures (Aligned(q, 3) * 0x80) % U32_LIMIT == Aligned(q, 2)
  {
    var hi, m := q / 0x20_0000, q % 0x20_0000;
    var s, r := m / 0x4000, m % 0x4000;
    DivMod(m * 0x800, 0x200_0000, s, r * 0x800);
    DivMod(q, 0x4000, hi * 0x80 + s, r);
    DivMod(hi * 0x80 + s, 0x80, hi, s);
    DivMod(m * 0x800 * 0x80, U32_LIMIT, s, r * 0x4_0000);
  }

  lemma SeptetStep4(q: nat)
    ensures Aligned(q, 4) / 0x200_0000 == Septet(q, 3)
    ensures (Aligned(q, 4) * 0x80) % U32_LIMIT == Aligned(q, 3)
  {
    var hi, m := q / 0x1000_0000, q % 0x1000_0000;
    var s, r := m / 0x20_0000, m % 0x20_0000;
    DivMod(m * 0x10, 0x200_0000, s, r * 0x10);
    DivMod(q, 0x20_0000, hi * 0x80 + s, r);
    DivMod(hi * 0x80 + s, 0x80, hi, s);
    DivMod(m * 0x10 * 0x80, U32_LIMIT, s, r * 0x800);
  }

  // ------------------------------------------------------------- round trip

  /** Appending septet `j` to the value of the septets above it. */
  lemma SeptetAccumulate(q: nat, j: nat)
    requires q < VLQ_LIMIT && j <= 3
    ensures Above(q, j + 1) < 0x200_0000
    ensures Above(q, j + 1) * 0x80 + Septet(q, j) == Above(q, j)
  {
    var a := Above(q, j);
    assert a / 0x80 == Above(q, j + 1) by {
      if j == 1 {
        assert (q / 0x80) / 0x80 == q / 0x4000;
      } else if j == 2 {
        assert (q / 0x4000) / 0x80 == q / 0x20_0000;
      } else if j == 3 {
        assert (q / 0x20_0000) / 0x80 == q / 0x1000_0000;
      }
    }
    assert a == (a / 0x80) * 0x80 + a % 0x80;
  }

  /** Reading the rest of an encoding from byte `k`, with the septets above it
    * already accumulated, completes the value. */
  lemma {:induction false} VlqReadSuffix(q: nat, input: seq<byte>, pos: nat, within: nat, k: nat)
    requires q < VLQ_LIMIT && k < |VlqEncode(q)|
    requires pos + |VlqEncode(q)| <= |input| && input[pos..pos + |VlqEncode(q)|] == VlqEncode(q)
    requires |VlqEncode(q)| <= within
    ensures VlqReadFrom(input, pos + k, within - k, Above(q, |VlqEncode(q)| - k))
         == Ok(Read(q, pos + |VlqEncode(q)|, within - |VlqEncode(q)|))
    decreases |VlqEncode(q)| - k
  {
    var e := VlqEncode(q);
    var n := |e|;
    var b := input[pos + k];
    assert b == e[k];
    EncodedByte(q, k);
    ShiftSeptet(q, n - 1 - k, b);
    VlqReadOne(input, pos + k, within - k, Above(q, n - k));
    if k + 1 < n {
      VlqReadSuffix(q, input, pos, within, k + 1);
    } else {
      assert Above(q, 0) == q;
    }
  }

  /** One step of the reader's VLQ loop. */
  lemma VlqReadOne(input: seq<byte>, pos: nat, within: nat, acc: nat)
    requires within > 0 && pos < |input|
    ensures VlqReadFrom(input, pos, within, acc) ==
      if input[pos] < 0x80 then Ok(Read(VlqShift(acc, input[pos]), pos + 1, within - 1))
      else VlqReadFrom(input, pos + 1, within - 1, VlqShift(acc, input[pos]))
  {
  }

  /** Shifting the byte carrying septet `j` into the septets above it gives the
    * value from septet `j` up. */
  lemma ShiftSeptet(q: nat, j: nat, b: byte)
    requires q < VLQ_LIMIT && j <= 3 && b % 0x80 == Septet(q, j)
    ensures VlqShift(Above(q, j + 1), b) == Above(q, j)
  {
    SeptetAccumulate(q, j);
  }

  /** Byte `k` of the encoding carries septet `n - 1 - k`, with the top bit set
    * on every byte but the last. */
  lemma EncodedByte(q: nat, k: nat)
    requires q < VLQ_LIMIT && k < |VlqEncode(q)|
    ensures VlqEncode(q)[k] % 0x80 == Septet(q, |VlqEncode(q)| - 1 - k)
    ensures VlqEncode(q)[k] < 0x80 <==> k == |VlqEncode(q)| - 1
  {
  }

  /** The VLQ round trip: reading back what the writer emits for `q` gives `q`,
    * consuming exactly the encoding's bytes from the budget. */
  lemma VlqRoundTrip(q: nat, input: seq<byte>, pos: nat, within: nat)
    requires q < VLQ_LIMIT
    requires pos + |VlqEncode(q)| <= |input| && input[pos..pos + |VlqEncode(q)|] == VlqEncode(q)
    requires |VlqEncode(q)| <= within
    ensures VlqRead(input, pos, within) == Ok(Read(q, pos + |VlqEncode(q)|, within - |VlqEncode(q)|))
  {
    assert Above(q, |VlqEncode(q)|) == 0;
    VlqReadSuffix(q, input, pos, within, 0);
  }
}
