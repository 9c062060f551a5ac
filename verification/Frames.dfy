/** The binary frames of the V3 protocol: type, flags, big-endian request id, payload. */
module Frames {
  import opened Utf8

  const MESSAGE_TYPE_DATA: Byte := 0
  const MESSAGE_TYPE_HEADER: Byte := 1
  const MESSAGE_TYPE_RST_STREAM: Byte := 3
  const MESSAGE_TYPE_WINDOW_UPDATE: Byte := 8

  const HEADER_CHUNK_SIZE: nat := 16000

  type I32 = n: int | -0x8000_0000 <= n < 0x8000_0000

  /** Rust's `as i32` */
  function AsI32(n: int): I32 {
    var m := n % 0x1_0000_0000;
    if m < 0x8000_0000 then m else m - 0x1_0000_0000
  }

  function PutI32(n: I32): (bs: seq<Byte>)
    ensures |bs| == 4
  {
    var u := if n < 0 then n + 0x1_0000_0000 else n;
    [u / 256 / 256 / 256, u / 256 / 256 % 256, u / 256 % 256, u % 256]
  }

  function GetI32(bs: seq<Byte>): I32
    requires |bs| >= 4
  {
    AsI32(((bs[0] as int * 256 + bs[1]) * 256 + bs[2]) * 256 + bs[3])
  }

  /** Numbers are in two's complement, the most significant byte first. */
  lemma BigEndian(n: I32)
    ensures var bs := PutI32(n);
      ((bs[0] as int * 256 + bs[1]) * 256 + bs[2]) * 256 + bs[3] == if n < 0 then n + 0x1_0000_0000 else n
  {
  }

  lemma GetPutI32(n: I32, rest: seq<Byte>)
    ensures GetI32(PutI32(n) + rest) == n
  {
  }

  // ---- flags ----

  /** `flags & 0b1 == 0b1` */
  predicate EndsStream(flags: Byte) {
    flags % 2 == 1
  }

  /** `flags & 0b100 == 0b100` */
  predicate EndsHeader(flags: Byte) {
    flags / 4 % 2 == 1
  }

  function HeaderFlags(endHeader: bool, endStream: bool): (flags: Byte)
    ensures EndsStream(flags) == endStream && EndsHeader(flags) == endHeader
  {
    (if endStream then 1 else 0) + (if endHeader then 4 else 0)
  }

  // ---- frames ----

  function Frame(ty: Byte, flags: Byte, id: I32, payload: seq<Byte>): seq<Byte> {
    [ty, flags] + PutI32(id) + payload
  }

  function DataMessage(id: I32, isEnd: bool, payload: seq<Byte>): seq<Byte> {
    Frame(MESSAGE_TYPE_DATA, if isEnd then 1 else 0, id, payload)
  }

  function HeaderMessage(id: I32, endHeader: bool, endStream: bool, part: string): seq<Byte> {
    Frame(MESSAGE_TYPE_HEADER, HeaderFlags(endHeader, endStream), id, Encode(part))
  }

  function WindowUpdateMessage(id: I32, n: I32): seq<Byte> {
    Frame(MESSAGE_TYPE_WINDOW_UPDATE, 0, id, PutI32(n))
  }

  function RstMessage(id: I32, code: I32, message: string): seq<Byte> {
    Frame(MESSAGE_TYPE_RST_STREAM, 0, id, PutI32(code) + Encode(message))
  }

  /** The bytes of each kind of frame, as the protocol fixes them. */
  lemma WireFormat(id: I32, endHeader: bool, end: bool, payload: seq<Byte>, text: string, n: I32)
    ensures DataMessage(id, end, payload) == [0, if end then 1 else 0] + PutI32(id) + payload
    ensures HeaderMessage(id, endHeader, end, text)
         == [1, (if end then 1 else 0) + if endHeader then 4 else 0] + PutI32(id) + Encode(text)
    ensures RstMessage(id, n, text) == [3, 0] + PutI32(id) + (PutI32(n) + Encode(text))
    ensures WindowUpdateMessage(id, n) == [8, 0] + PutI32(id) + PutI32(n)
  {
  }

  datatype Parsed =
    | TooShort
    | Parsed(ty: Byte, flags: Byte, id: I32, payload: seq<Byte>)

  /** What `on_binary` reads off the front of a message. */
  function Parse(bs: seq<Byte>): Parsed {
    if |bs| < 6 then TooShort else Parsed(bs[0], bs[1], GetI32(bs[2..]), bs[6..])
  }

  lemma ParseFrame(ty: Byte, flags: Byte, id: I32, payload: seq<Byte>)
    ensures Parse(Frame(ty, flags, id, payload)) == Parsed(ty, flags, id, payload)
  {
    GetPutI32(id, payload);
  }

  // ---- splitting a header text ----

  /** `chars().chunks(16000)` */
  function Chunks(text: string): (parts: seq<string>)
    requires text != []
    ensures parts != []
    decreases |text|
  {
    if |text| <= HEADER_CHUNK_SIZE then [text]
    else [text[..HEADER_CHUNK_SIZE]] + Chunks(text[HEADER_CHUNK_SIZE..])
  }

  /** The pieces a header text is sent in. */
  function HeaderParts(text: string): (parts: seq<string>)
    ensures parts != []
  {
    if |Encode(text)| < HEADER_CHUNK_SIZE then [text] else Chunks(text)
  }

  function Join(parts: seq<string>): string {
    if parts == [] then [] else parts[0] + Join(parts[1..])
  }

  lemma {:induction false} JoinChunks(text: string)
    requires text != []
    ensures Join(Chunks(text)) == text
    decreases |text|
  {
    if |text| <= HEADER_CHUNK_SIZE {
      assert Join([text]) == text + Join([]);
    } else {
      JoinChunks(text[HEADER_CHUNK_SIZE..]);
      assert Chunks(text)[1..] == Chunks(text[HEADER_CHUNK_SIZE..]);
    }
  }

  lemma JoinHeaderParts(text: string)
    ensures Join(HeaderParts(text)) == text
  {
    if |Encode(text)| < HEADER_CHUNK_SIZE {
      assert Join([text]) == text + Join([]);
    } else {
      JoinChunks(text);
    }
  }

  /** A text is sent in one piece exactly when it is short in bytes or in characters. */
  lemma OnePieceExactly(text: string)
    ensures |HeaderParts(text)| == 1 <==> |text| <= 16000
  {
  }

  /** The frames of one text; only the last piece may end the header. */
  function PartFrames(id: I32, endStream: bool, parts: seq<string>): (frames: seq<seq<Byte>>)
    ensures |frames| == |parts|
    ensures forall i :: 0 <= i < |parts| ==> frames[i] == HeaderMessage(id, i == |parts| - 1, endStream, parts[i])
  {
    if parts == [] then []
    else [HeaderMessage(id, |parts| == 1, endStream, parts[0])] + PartFrames(id, endStream, parts[1..])
  }

  /** Characters 16000 * i and on, at most 16000 of them. */
  function Piece(text: string, i: nat): string
    requires i * HEADER_CHUNK_SIZE <= |text|
  {
    var start := i * HEADER_CHUNK_SIZE;
    text[start..if start + HEADER_CHUNK_SIZE < |text| then start + HEADER_CHUNK_SIZE else |text|]
  }

  /** Piece `i` of a text is piece `i - 1` of what follows its first piece. */
  lemma PieceOfRest(text: string, i: nat)
    requires 0 < i && HEADER_CHUNK_SIZE < |text| && (i - 1) * HEADER_CHUNK_SIZE <= |text| - HEADER_CHUNK_SIZE
    ensures i * HEADER_CHUNK_SIZE <= |text| && Piece(text, i) == Piece(text[HEADER_CHUNK_SIZE..], i - 1)
  {
    var rest := text[HEADER_CHUNK_SIZE..];
    var a := (i - 1) * HEADER_CHUNK_SIZE;
    var b := if a + HEADER_CHUNK_SIZE < |rest| then a + HEADER_CHUNK_SIZE else |rest|;
    assert i * HEADER_CHUNK_SIZE == a + HEADER_CHUNK_SIZE;
    assert Piece(rest, i - 1) == rest[a..b];
    assert text[a + HEADER_CHUNK_SIZE..b + HEADER_CHUNK_SIZE] == rest[a..b];
  }

  lemma {:induction false} ChunksAt(text: string)
    requires text != []
    ensures |Chunks(text)| == (|text| + HEADER_CHUNK_SIZE - 1) / HEADER_CHUNK_SIZE
    ensures forall i :: 0 <= i < |Chunks(text)| ==>
      i * HEADER_CHUNK_SIZE <= |text| && Chunks(text)[i] == Piece(text, i)
    decreases |text|
  {
    if |text| > HEADER_CHUNK_SIZE {
      var rest := text[HEADER_CHUNK_SIZE..];
      ChunksAt(rest);
      forall i | 0 <= i < |Chunks(text)|
        ensures i * HEADER_CHUNK_SIZE <= |text| && Chunks(text)[i] == Piece(text, i)
      {
        if i > 0 {
          assert Chunks(text)[i] == Chunks(rest)[i - 1];
          PieceOfRest(text, i);
        }
      }
    }
  }

  lemma NextPieceFrame(id: I32, endStream: bool, text: string, i: nat)
    requires text != [] && i < |Chunks(text)|
    ensures i * HEADER_CHUNK_SIZE <= |text|
    ensures var all := PartFrames(id, endStream, Chunks(text));
      all[..i + 1] == all[..i] + [HeaderMessage(id, i == |Chunks(text)| - 1, endStream, Piece(text, i))]
  {
    ChunksAt(text);
    var all := PartFrames(id, endStream, Chunks(text));
    assert all[..i + 1] == all[..i] + [all[i]];
  }

  /** `header_messages`, called with is_header_end set */
  method HeaderMessages(id: I32, endStream: bool, text: string) returns (frames: seq<seq<Byte>>)
    ensures frames == PartFrames(id, endStream, HeaderParts(text))
  {
    if |Encode(text)| < HEADER_CHUNK_SIZE {
      return [HeaderMessage(id, true, endStream, text)];
    }
    frames := LongHeaderMessages(id, endStream, text);
  }

  method LongHeaderMessages(id: I32, endStream: bool, text: string) returns (frames: seq<seq<Byte>>)
    requires text != []
    ensures frames == PartFrames(id, endStream, Chunks(text))
  {
    ghost var all := PartFrames(id, endStream, Chunks(text));
    var count := (|text| + HEADER_CHUNK_SIZE - 1) / HEADER_CHUNK_SIZE;
    assert count == |all| by { ChunksAt(text); }
    frames := [];
    var i := 0;
    while i < count
      invariant 0 <= i <= count
      invariant frames == all[..i]
    {
      NextPieceFrame(id, endStream, text, i);
      frames := frames + [HeaderMessage(id, i == count - 1, endStream, Piece(text, i))];
      i := i + 1;
    }
  }
}
