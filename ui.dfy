/** The user-facing helpers shared by the front ends: the hexadecimal SysEx
  * checker, and the table stream that encodes a table as NUL-terminated
  * cells. */
module Ui {
  import opened Wrappers
  import opened Bytes
  import opened SysExCommon
  import opened RolandTypes
  import opened Roland
  import opened SysEx

  // --------------------------------------------------------------- tokens

  /** A character `split_whitespace` splits on: Unicode `White_Space`. */
  predicate IsWhitespace(c: char) {
    ('\U{0009}' <= c <= '\U{000D}') || c == ' ' || c == '\U{0085}' || c == '\U{00A0}' ||
    c == '\U{1680}' || ('\U{2000}' <= c <= '\U{200A}') || c == '\U{2028}' || c == '\U{2029}' ||
    c == '\U{202F}' || c == '\U{205F}' || c == '\U{3000}'
  }

  predicate NoWhitespace(s: string) {
    forall i :: 0 <= i < |s| ==> !IsWhitespace(s[i])
  }

  /** The length of the run of non-whitespace characters that starts `s`. */
  function WordLength(s: string): (n: nat)
    ensures n <= |s| && NoWhitespace(s[..n]) && (n == |s| || IsWhitespace(s[n]))
  {
    if s == [] || IsWhitespace(s[0]) then 0
    else
      var n := 1 + WordLength(s[1..]);
      assert forall i :: 1 <= i < n ==> s[..n][i] == s[1..][..n - 1][i - 1];
      n
  }

  /** `split_whitespace`: the maximal runs of non-whitespace characters. */
  function Tokens(s: string): (ts: seq<string>)
    ensures forall i :: 0 <= i < |ts| ==> |ts[i]| > 0 && NoWhitespace(ts[i])
    decreases |s|
  {
    if s == [] then []
    else if IsWhitespace(s[0]) then Tokens(s[1..])
    else
      var n := WordLength(s);
      [s[..n]] + Tokens(s[n..])
  }

  /** Words joined with single spaces. */
  function Join(words: seq<string>): string {
    if words == [] then ""
    else if |words| == 1 then words[0]
    else words[0] + " " + Join(words[1..])
  }

  lemma WordLengthOf(w: string, rest: string)
    requires NoWhitespace(w) && (rest == [] || IsWhitespace(rest[0]))
    ensures WordLength(w + rest) == |w|
    decreases |w|
  {
    if w != [] {
      assert (w + rest)[1..] == w[1..] + rest;
      WordLengthOf(w[1..], rest);
    }
  }

  /** Splitting words joined with spaces gives the words back. */
  lemma {:induction false} TokensOfJoin(words: seq<string>)
    requires forall i :: 0 <= i < |words| ==> |words[i]| > 0 && NoWhitespace(words[i])
    ensures Tokens(Join(words)) == words
  {
    if words == [] {
    } else if |words| == 1 {
      var w := words[0];
      WordLengthOf(w, []);
      assert w + [] == w;
      assert w[|w|..] == [];
    } else {
      var w := words[0];
      var rest := " " + Join(words[1..]);
      WordLengthOf(w, rest);
      assert Join(words) == w + rest;
      assert (w + rest)[..|w|] == w;
      assert (w + rest)[|w|..] == rest;
      assert rest[1..] == Join(words[1..]);
      TokensOfJoin(words[1..]);
      assert words == [w] + words[1..];
    }
  }

  // ------------------------------------------------------------ hex bytes

  /** A trailing 'h' is stripped, then a trailing 'H': the suffix styles of
    * SoundPalette and of the MIDI specification and Roland's manuals. */
  function StripHexSuffix(token: string): (t: string)
    ensures |t| <= |token| && t == token[..|t|]
  {
    var t1 := if |token| > 0 && token[|token| - 1] == 'h' then token[..|token| - 1] else token;
    if |t1| > 0 && t1[|t1| - 1] == 'H' then t1[..|t1| - 1] else t1
  }

  /** A token as a byte: two hexadecimal digits once the suffix is stripped. */
  function HexToken(token: string): Option<byte> {
    ParseHex2(StripHexSuffix(token))
  }

  /** The bytes the tokens stand for, or the first token, stripped, that is
    * not exactly two hexadecimal digits. */
  function HexBytes(tokens: seq<string>): (r: Result<seq<byte>, string>)
    ensures r.Ok? ==> |r.value| == |tokens|
  {
    if tokens == [] then Ok([])
    else
      match HexBytes(tokens[..|tokens| - 1])
      case Err(t) => Err(t)
      case Ok(bytes) =>
        match HexToken(tokens[|tokens| - 1])
        case None => Err(StripHexSuffix(tokens[|tokens| - 1]))
        case Some(b) => Ok(bytes + [b])
  }

  /** The tokens are all read, each as its own byte, or the error names the
    * first token that is not a hex byte. */
  lemma {:induction false} HexBytesMeaning(tokens: seq<string>)
    ensures HexBytes(tokens).Ok? <==> forall i :: 0 <= i < |tokens| ==> HexToken(tokens[i]).Some?
    ensures HexBytes(tokens).Ok? ==>
      forall i :: 0 <= i < |tokens| ==> HexToken(tokens[i]) == Some(HexBytes(tokens).value[i])
    ensures HexBytes(tokens).Err? ==> exists i :: (0 <= i < |tokens| &&
      HexToken(tokens[i]).None? && HexBytes(tokens).error == StripHexSuffix(tokens[i]) &&
      forall j :: 0 <= j < i ==> HexToken(tokens[j]).Some?)
  {
    if tokens != [] {
      var init := tokens[..|tokens| - 1];
      HexBytesMeaning(init);
      assert forall i :: 0 <= i < |init| ==> init[i] == tokens[i];
    }
  }

  /** One more token read as a byte. */
  lemma HexBytesExtend(tokens: seq<string>, i: nat, bytes: seq<byte>, b: byte)
    requires i < |tokens| && HexBytes(tokens[..i]) == Ok(bytes) && HexToken(tokens[i]) == Some(b)
    ensures HexBytes(tokens[..i + 1]) == Ok(bytes + [b])
  {
    assert tokens[..i + 1] == tokens[..i] + [tokens[i]];
    HexBytesSnoc(tokens[..i], tokens[i], bytes, b);
  }

  /** What `check_sysex` found. */
  datatype CheckOutcome =
    | NotHexByte(token: string)
    | NotComplete
    | NotDataBytes
    | Checked(result: Result<ParsedSysEx, ParseFailure>)

  /** The checks on the bytes: they must start with `F0h`, end with `F7h` and
    * hold only data bytes between, before they are parsed. */
  function CheckBytes(models: seq<ModelInfo>, bytes: seq<byte>): CheckOutcome
    requires AddressesNonEmpty(models)
  {
    if |bytes| == 0 || bytes[0] != SYSEX_START || bytes[|bytes| - 1] != SYSEX_END then NotComplete
    else if !AllData(bytes[1..|bytes| - 1]) then NotDataBytes
    else Checked(ParseSysEx(models, bytes))
  }

  /** `check_sysex` without its output. */
  function Check(models: seq<ModelInfo>, input: string): CheckOutcome
    requires AddressesNonEmpty(models)
  {
    match HexBytes(Tokens(input))
    case Err(t) => NotHexByte(t)
    case Ok(bytes) => CheckBytes(models, bytes)
  }

  /** The `Debug` name of a parse failure. */
  function FailureName(f: ParseFailure): string {
    match f
    case NotSysEx => "NotSysEx"
    case IncompleteSysEx => "IncompleteSysEx"
    case NotDataByte => "NotDataByte"
  }

  /** Whether the input parsed as a SysEx message. */
  predicate Succeeded(o: CheckOutcome) {
    o.Checked? && o.result.Ok?
  }

  /** What `check_sysex` writes for an outcome: "SysEx: " and the message, or
    * "Error: " and what is wrong. `debug` is how `{:?}` quotes a string and
    * `render` how a parsed message displays; neither is part of this
    * model. */
  function OutcomeText(o: CheckOutcome, debug: string -> string, render: ParsedSysEx -> string): string {
    (if Succeeded(o) then "SysEx: " else "Error: ") +
    match o
    case NotHexByte(t) => debug(t) + " is not recognised as a hex byte"
    case NotComplete => "not a complete sysex, needs to start with F0h and end with F7h"
    case NotDataBytes => "contains invalid data bytes, out of range (> 7Fh)"
    case Checked(Ok(p)) => render(p)
    case Checked(Err(f)) => FailureName(f)
  }

  /** `check_sysex`: reads the tokens one by one, stopping at the first that
    * is not a hex byte, checks the framing and the data bytes, then parses,
    * and appends one message to `out`. */
  method CheckSysEx(models: seq<ModelInfo>, out: string, input: string, debug: string -> string, render: ParsedSysEx -> string)
    returns (out': string)
    requires AddressesNonEmpty(models)
    ensures out' == out + OutcomeText(Check(models, input), debug, render)
  {
    var tokens := Tokens(input);
    var bytes: seq<byte> := [];
    var i := 0;
    while i < |tokens|
      invariant 0 <= i <= |tokens|
      invariant HexBytes(tokens[..i]) == Ok(bytes)
    {
      var token := StripHexSuffix(tokens[i]);
      if !(|token| == 2 && IsHexDigitChar(token[0]) && IsHexDigitChar(token[1])) {
        HexBytesStop(tokens, i);
        out' := out + OutcomeText(NotHexByte(token), debug, render);
        return;
      }
      var b := ParseHex2(token).value;
      HexBytesExtend(tokens, i, bytes, b);
      bytes := bytes + [b];
      i := i + 1;
    }
    assert tokens[..i] == tokens;
    var outcome := CheckFramedBytes(models, bytes);
    out' := out + OutcomeText(outcome, debug, render);
  }

  /** The checks `check_sysex` makes once every token was a hex byte. */
  method CheckFramedBytes(models: seq<ModelInfo>, bytes: seq<byte>) returns (outcome: CheckOutcome)
    requires AddressesNonEmpty(models)
    ensures outcome == CheckBytes(models, bytes)
  {
    if |bytes| == 0 || bytes[0] != SYSEX_START || bytes[|bytes| - 1] != SYSEX_END {
      return NotComplete;
    }
    InteriorData(bytes);
    if exists k :: 1 <= k < |bytes| - 1 && bytes[k] > 0x7F {
      return NotDataBytes;
    }
    return Checked(ParseSysEx(models, bytes));
  }

  lemma InteriorData(bytes: seq<byte>)
    requires |bytes| >= 2
    ensures AllData(bytes[1..|bytes| - 1]) <==> !exists k :: 1 <= k < |bytes| - 1 && bytes[k] > 0x7F
  {
    var interior := bytes[1..|bytes| - 1];
    assert forall k :: 0 <= k < |interior| ==> interior[k] == bytes[k + 1];
  }

  /** Once a token is not a hex byte, the tokens after it do not matter. */
  lemma {:induction false} HexBytesStop(tokens: seq<string>, i: nat)
    requires i < |tokens| && HexBytes(tokens[..i]).Ok?
    requires HexToken(tokens[i]).None?
    ensures HexBytes(tokens) == Err(StripHexSuffix(tokens[i]))
    decreases |tokens|
  {
    if i + 1 < |tokens| {
      assert tokens[..|tokens| - 1][..i] == tokens[..i];
      HexBytesStop(tokens[..|tokens| - 1], i);
    } else {
      assert tokens[..|tokens| - 1] == tokens[..i];
    }
  }

  /** The bytes as SoundPalette prints them, each as two hexadecimal digits
    * and 'h'. */
  function HexWords(bytes: seq<byte>): (words: seq<string>)
    ensures |words| == |bytes|
    ensures forall i :: 0 <= i < |words| ==> words[i] == Hex2(bytes[i]) + "h"
  {
    if bytes == [] then [] else HexWords(bytes[..|bytes| - 1]) + [Hex2(bytes[|bytes| - 1]) + "h"]
  }

  /** The checker reads back exactly the bytes SoundPalette prints. */
  lemma {:induction false} PrintedHexReadBack(bytes: seq<byte>)
    ensures HexBytes(Tokens(Join(HexWords(bytes)))) == Ok(bytes)
  {
    var words := HexWords(bytes);
    forall i | 0 <= i < |words|
      ensures |words[i]| > 0 && NoWhitespace(words[i])
    {
      var h := Hex2(bytes[i]);
      assert words[i] == [h[0], h[1], 'h'];
    }
    TokensOfJoin(words);
    HexWordsRead(bytes);
  }

  lemma HexWordRead(b: byte)
    ensures HexToken(Hex2(b) + "h") == Some(b)
  {
    assert StripHexSuffix(Hex2(b) + "h") == Hex2(b);
    ParseHex2RoundTrip(b);
  }

  lemma {:induction false} HexWordsRead(bytes: seq<byte>)
    ensures HexBytes(HexWords(bytes)) == Ok(bytes)
  {
    if bytes != [] {
      var init := bytes[..|bytes| - 1];
      var b := bytes[|bytes| - 1];
      HexWordsRead(init);
      HexWordRead(b);
      HexBytesSnoc(HexWords(init), Hex2(b) + "h", init, b);
      assert HexWords(bytes) == HexWords(init) + [Hex2(b) + "h"];
      assert init + [b] == bytes;
    }
  }

  lemma HexBytesSnoc(tokens: seq<string>, token: string, bytes: seq<byte>, b: byte)
    requires HexBytes(tokens) == Ok(bytes) && HexToken(token) == Some(b)
    ensures HexBytes(tokens + [token]) == Ok(bytes + [b])
  {
    assert (tokens + [token])[..|tokens|] == tokens;
  }

  /** What reaches the parser is framed and made of data bytes, so the parser
    * can only fail because the message is empty between `F0h` and `F7h`. */
  lemma CheckedParseFailure(models: seq<ModelInfo>, input: string)
    requires AddressesNonEmpty(models)
    requires Check(models, input).Checked? && Check(models, input).result.Err?
    ensures Check(models, input).result.error == IncompleteSysEx
    ensures HexBytes(Tokens(input)) == Ok([SYSEX_START, SYSEX_END])
  {
    var bytes := HexBytes(Tokens(input)).value;
    assert |bytes| == 2;
    assert bytes == [bytes[0], bytes[1]];
  }

  lemma PrefixOf(a: string, b: string)
    ensures (a + b)[..|a|] == a
  {
  }

  /** The message begins "SysEx: " exactly when the input parsed, and
    * "Error: " otherwise. */
  lemma OutcomeTextStarts(o: CheckOutcome, debug: string -> string, render: ParsedSysEx -> string)
    ensures var s := OutcomeText(o, debug, render);
      (|s| >= 7 && s[..7] == "SysEx: ") <==> Succeeded(o)
    ensures var s := OutcomeText(o, debug, render);
      (|s| >= 7 && s[..7] == "Error: ") <==> !Succeeded(o)
  {
    var head := if Succeeded(o) then "SysEx: " else "Error: ";
    PrefixOf(head, OutcomeText(o, debug, render)[7..]);
  }

  // --------------------------------------------------------- table stream

  /** A cell can be delimited by NUL: it is not empty and holds no NUL. */
  predicate ValidCell(cell: string) {
    |cell| > 0 && '\0' !in cell
  }

  /** Every cell of a row can be delimited by NUL. */
  predicate ValidRow(cells: seq<string>) {
    forall i :: 0 <= i < |cells| ==> ValidCell(cells[i])
  }

  /** The cells of a row, each followed by NUL. */
  function EncodeCells(cells: seq<string>): string {
    if cells == [] then "" else cells[0] + "\0" + EncodeCells(cells[1..])
  }

  /** A table: each row's cells, then one more NUL to end the row. */
  function EncodeTable(rows: seq<seq<string>>): string {
    if rows == [] then "" else EncodeCells(rows[0]) + "\0" + EncodeTable(rows[1..])
  }

  /** The position of the first NUL in `s`, or its length. */
  function NulIndex(s: string): (n: nat)
    ensures n <= |s| && (n < |s| ==> s[n] == '\0') && forall i :: 0 <= i < n ==> s[i] != '\0'
  {
    if s == [] || s[0] == '\0' then 0 else 1 + NulIndex(s[1..])
  }

  /** Reads the cells of one row, up to the empty cell that ends it. */
  function DecodeRow(s: string): (r: (seq<string>, string))
    ensures |r.1| <= |s|
    ensures |r.1| < |s| || s == []
    decreases |s|
  {
    if s == [] then ([], [])
    else if s[0] == '\0' then ([], s[1..])
    else
      var n := NulIndex(s);
      var rest := if n < |s| then s[n + 1..] else [];
      var (cells, after) := DecodeRow(rest);
      ([s[..n]] + cells, after)
  }

  /** Reads a whole table, the inverse of `EncodeTable`. */
  function DecodeTable(s: string): seq<seq<string>>
    decreases |s|
  {
    if s == [] then []
    else
      var (row, rest) := DecodeRow(s);
      [row] + DecodeTable(rest)
  }

  lemma NulIndexOf(cell: string, rest: string)
    requires ValidCell(cell)
    ensures NulIndex(cell + "\0" + rest) == |cell|
    decreases |cell|
  {
    if |cell| > 1 {
      assert (cell + "\0" + rest)[1..] == cell[1..] + "\0" + rest;
      NulIndexOf(cell[1..], rest);
    }
  }

  /** A row's first cell is read up to its NUL. */
  lemma DecodeRowCell(cell: string, tail: string)
    requires ValidCell(cell)
    ensures DecodeRow(cell + "\0" + tail) == ([cell] + DecodeRow(tail).0, DecodeRow(tail).1)
  {
    var s := cell + "\0" + tail;
    NulIndexOf(cell, tail);
    assert s[..|cell|] == cell;
    assert s[|cell| + 1..] == tail;
  }

  lemma {:induction false} DecodeRowOf(cells: seq<string>, rest: string)
    requires ValidRow(cells)
    ensures DecodeRow(EncodeCells(cells) + "\0" + rest) == (cells, rest)
  {
    if cells == [] {
      var s := "\0" + rest;
      assert EncodeCells(cells) + "\0" + rest == s;
      assert s[1..] == rest;
    } else {
      var c := cells[0];
      var tail := EncodeCells(cells[1..]) + "\0" + rest;
      assert EncodeCells(cells) + "\0" + rest == c + "\0" + tail;
      DecodeRowCell(c, tail);
      DecodeRowOf(cells[1..], rest);
      assert [c] + cells[1..] == cells;
    }
  }

  /** Decoding an encoded table gives it back. */
  lemma {:induction false} TableRoundTrip(rows: seq<seq<string>>)
    requires forall r :: 0 <= r < |rows| ==> ValidRow(rows[r])
    ensures DecodeTable(EncodeTable(rows)) == rows
  {
    if rows != [] {
      var rest := EncodeTable(rows[1..]);
      assert EncodeTable(rows) == EncodeCells(rows[0]) + "\0" + rest;
      DecodeRowOf(rows[0], rest);
      TableRoundTrip(rows[1..]);
      assert [rows[0]] + rows[1..] == rows;
    }
  }

  /** `NullTerminatedStringTableStream`: appends cells and row ends to a
    * string it was given. `start` is what the string held before; `rows` are
    * the finished rows and `row` the cells of the current one. */
  class NullTerminatedTableStream {
    var text: string
    ghost var start: string
    ghost var rows: seq<seq<string>>
    ghost var row: seq<string>

    ghost predicate Valid()
      reads this
    {
      (forall r :: 0 <= r < |rows| ==> ValidRow(rows[r])) && ValidRow(row) &&
      text == start + EncodeTable(rows) + EncodeCells(row)
    }

    constructor (text: string)
      ensures Valid() && this.text == text && start == text && rows == [] && row == []
    {
      this.text := text;
      start := text;
      rows := [];
      row := [];
    }

    /** `td`: the cell, then NUL. The source asserts the cell is not empty
      * and holds no NUL. */
    method Td(cell: string)
      requires Valid() && ValidCell(cell)
      modifies this
      ensures Valid() && text == old(text) + cell + "\0"
      ensures start == old(start) && rows == old(rows) && row == old(row) + [cell]
    {
      EncodeCellsAppend(row, cell);
      text := text + cell + "\0";
      row := row + [cell];
    }

    /** `th`: the same as a normal cell. */
    method Th(cell: string)
      requires Valid() && ValidCell(cell)
      modifies this
      ensures Valid() && text == old(text) + cell + "\0"
      ensures start == old(start) && rows == old(rows) && row == old(row) + [cell]
    {
      Td(cell);
    }

    /** `end_tr`: one NUL, ending the row. */
    method EndTr()
      requires Valid()
      modifies this
      ensures Valid() && text == old(text) + "\0"
      ensures start == old(start) && rows == old(rows) + [old(row)] && row == []
    {
      EncodeTableAppend(rows, row);
      text := text + "\0";
      rows := rows + [row];
      row := [];
    }
  }

  lemma {:induction false} EncodeCellsAppend(cells: seq<string>, cell: string)
    ensures EncodeCells(cells + [cell]) == EncodeCells(cells) + cell + "\0"
  {
    if cells != [] {
      assert (cells + [cell])[1..] == cells[1..] + [cell];
      EncodeCellsAppend(cells[1..], cell);
    } else {
      assert [] + [cell] == [cell];
    }
  }

  lemma {:induction false} EncodeTableAppend(rows: seq<seq<string>>, row: seq<string>)
    ensures EncodeTable(rows + [row]) == EncodeTable(rows) + EncodeCells(row) + "\0"
  {
    if rows != [] {
      assert (rows + [row])[1..] == rows[1..] + [row];
      EncodeTableAppend(rows[1..], row);
    } else {
      assert [] + [row] == [row];
    }
  }

  /** The table the stream has written, after a row end, reads back as the
    * rows written. */
  lemma StreamReadsBack(s: NullTerminatedTableStream)
    requires s.Valid() && s.row == []
    ensures |s.start| <= |s.text| && DecodeTable(s.text[|s.start|..]) == s.rows
  {
    assert s.text[|s.start|..] == EncodeTable(s.rows);
    TableRoundTrip(s.rows);
  }

  /** One row of two cells, as header cells or as normal ones. */
  method WriteRowOfTwo(stream: NullTerminatedTableStream, first: string, second: string, header: bool)
    requires stream.Valid() && stream.row == [] && ValidCell(first) && ValidCell(second)
    modifies stream
    ensures stream.Valid() && stream.text == old(stream.text) + (first + "\0" + second + "\0\0")
    ensures stream.start == old(stream.start) && stream.rows == old(stream.rows) + [[first, second]]
    ensures stream.row == []
  {
    if header {
      stream.Th(first);
      stream.Th(second);
    } else {
      stream.Td(first);
      stream.Td(second);
    }
    stream.EndTr();
    assert [] + [first] + [second] == [first, second];
  }

  /** The source's own example: a header row and two rows of two cells. */
  method TableStreamExample() returns (buf: string)
    ensures buf == "foo\0bar\0\0" + "foo1\0bar1\0\0" + "foo2\0bar2\0\0"
  {
    var stream := new NullTerminatedTableStream("");
    WriteRowOfTwo(stream, "foo", "bar", true);
    WriteRowOfTwo(stream, "foo1", "bar1", false);
    WriteRowOfTwo(stream, "foo2", "bar2", false);
    buf := stream.text;
  }
}
