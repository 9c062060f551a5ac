/**
 What the V3 stream layer delivers: a request's frames fed to the receiving state machine
 give back its text and body, credits match deliveries, a finished or broken response is
 closed for good.
 */
module Delivery {
  import opened Wrappers
  import opened Utf8
  import opened Frames
  import opened Streams
  import opened Demux

  // ---------------------------------------------------------------------------------------
  // The frames of a request
  // ---------------------------------------------------------------------------------------

  function DataFrames(id: I32, chunks: seq<seq<Byte>>): (frames: seq<seq<Byte>>)
    ensures |frames| == |chunks|
    ensures forall i :: 0 <= i < |chunks| ==> frames[i] == DataMessage(id, false, chunks[i])
  {
    if chunks == [] then [] else [DataMessage(id, false, chunks[0])] + DataFrames(id, chunks[1..])
  }

  /** What `split_part_one_send_or_err` puts on the outgoing queue. */
  function RequestFrames(id: I32, text: string, body: Option<seq<seq<Byte>>>): seq<seq<Byte>> {
    match body
    case None => PartFrames(id, true, HeaderParts(text))
    case Some(chunks) =>
      PartFrames(id, false, HeaderParts(text)) + DataFrames(id, chunks) + [DataMessage(id, true, [])]
  }

  /** The payload bytes of frames, each with its six-byte head. */
  function PayloadBytes(frames: seq<seq<Byte>>): int {
    if frames == [] then 0 else PayloadBytes(frames[..|frames| - 1]) + |frames[|frames| - 1]| - 6
  }

  lemma {:induction false} PayloadBytesCons(frame: seq<Byte>, frames: seq<seq<Byte>>)
    ensures PayloadBytes([frame] + frames) == |frame| - 6 + PayloadBytes(frames)
    decreases |frames|
  {
    var all := [frame] + frames;
    if frames == [] {
      assert all[..0] == [];
    } else {
      assert all[..|all| - 1] == [frame] + frames[..|frames| - 1];
      PayloadBytesCons(frame, frames[..|frames| - 1]);
    }
  }

  /** However a header text is split, its frames carry exactly its UTF-8 bytes. */
  lemma {:induction false} HeaderPayload(id: I32, endStream: bool, parts: seq<string>)
    ensures PayloadBytes(PartFrames(id, endStream, parts)) == |Encode(Join(parts))|
    decreases |parts|
  {
    hide Encode, PayloadBytes;
    if parts == [] {
      NoPayload();
    } else {
      PayloadBytesCons(HeaderMessage(id, |parts| == 1, endStream, parts[0]), PartFrames(id, endStream, parts[1..]));
      HeaderPayload(id, endStream, parts[1..]);
      EncodeConcat(parts[0], Join(parts[1..]));
    }
  }

  lemma NoPayload()
    ensures PayloadBytes([]) == 0 == |Encode([])|
  {
  }

  function TotalBytes(chunks: seq<seq<Byte>>): nat {
    if chunks == [] then 0 else |chunks[0]| + TotalBytes(chunks[1..])
  }

  /** The bytes a request uploads: its header text in UTF-8 and its body. */
  function UploadBytes(text: string, body: Option<seq<seq<Byte>>>): nat {
    |Encode(text)| + if body.Some? then TotalBytes(body.value) else 0
  }

  lemma {:induction false} BodyPayload(id: I32, chunks: seq<seq<Byte>>)
    ensures PayloadBytes(DataFrames(id, chunks)) == TotalBytes(chunks)
    decreases |chunks|
  {
    if chunks != [] {
      PayloadBytesCons(DataMessage(id, false, chunks[0]), DataFrames(id, chunks[1..]));
      BodyPayload(id, chunks[1..]);
    }
  }

  /** With a body, END_HEADER is on the last header frame only and END_STREAM on the last frame only. */
  lemma FlagsWithBody(id: I32, text: string, chunks: seq<seq<Byte>>, i: nat)
    requires i < |RequestFrames(id, text, Some(chunks))|
    ensures var frames, parts := RequestFrames(id, text, Some(chunks)), |HeaderParts(text)|;
      var p := Parse(frames[i]);
      && p.Parsed? && p.id == id
      && (p.ty == MESSAGE_TYPE_HEADER <==> i < parts)
      && (p.ty == MESSAGE_TYPE_HEADER ==> (EndsHeader(p.flags) <==> i == parts - 1))
      && (EndsStream(p.flags) <==> i == |frames| - 1)
  {
    var parts := HeaderParts(text);
    if i < |parts| {
      ParseFrame(MESSAGE_TYPE_HEADER, HeaderFlags(i == |parts| - 1, false), id, Encode(parts[i]));
    } else if i < |parts| + |chunks| {
      ParseFrame(MESSAGE_TYPE_DATA, 0, id, chunks[i - |parts|]);
    } else {
      ParseFrame(MESSAGE_TYPE_DATA, 1, id, []);
    }
  }

  /** Without a body, END_STREAM is on the last frame only exactly when the text is one piece. */
  lemma FlagsWithoutBody(id: I32, text: string)
    ensures var frames := RequestFrames(id, text, None);
      (forall i :: 0 <= i < |frames| ==>
         (Parse(frames[i]).Parsed? && EndsStream(Parse(frames[i]).flags) <==> i == |frames| - 1))
      <==> |text| <= HEADER_CHUNK_SIZE
  {
    var frames, parts := RequestFrames(id, text, None), HeaderParts(text);
    forall i | 0 <= i < |frames|
      ensures Parse(frames[i]).Parsed? && EndsStream(Parse(frames[i]).flags)
    {
      ParseFrame(MESSAGE_TYPE_HEADER, HeaderFlags(i == |parts| - 1, true), id, Encode(parts[i]));
    }
    OnePieceExactly(text);
    if |parts| > 1 {
      assert Parse(frames[0]).Parsed? && EndsStream(Parse(frames[0]).flags);
    }
  }

  // ---------------------------------------------------------------------------------------
  // Feeding them to the receiver
  // ---------------------------------------------------------------------------------------

  function Binaries(frames: seq<seq<Byte>>): (es: seq<Event>)
    ensures |es| == |frames|
    ensures forall i :: 0 <= i < |frames| ==> es[i] == Binary(frames[i])
  {
    if frames == [] then [] else [Binary(frames[0])] + Binaries(frames[1..])
  }

  lemma BinariesOne(frame: seq<Byte>)
    ensures Binaries([frame]) == [Binary(frame)]
  {
  }

  lemma {:induction false} BinariesConcat(a: seq<seq<Byte>>, b: seq<seq<Byte>>)
    ensures Binaries(a + b) == Binaries(a) + Binaries(b)
  {
  }

  lemma RunOne(s: Socket, e: Event)
    requires Valid(s)
    ensures Run(s, [e]) == Step(s, e)
  {
    assert Run(s, [e]) == Run(Step(s, e), []);
  }

  /** Request `id` is live, may be answered, and both its channels are open. */
  ghost predicate Receptive(s: Socket, id: I32) {
    && Valid(s) && s.receiving && s.outOpen && id in s.live
    && s.ctxs[id].canRespond && !s.ctxs[id].header.closed && !s.ctxs[id].body.closed
  }

  /** From `s` to `s'` request `id` stays receptive and its channels and builder grow by these. */
  ghost predicate Grows(s: Socket, s': Socket, id: I32,
                        header: seq<Item<string>>, body: seq<Item<seq<Byte>>>, text: string)
  {
    && Receptive(s, id) && Receptive(s', id)
    && s'.ctxs[id].header.items == s.ctxs[id].header.items + header
    && s'.ctxs[id].body.items == s.ctxs[id].body.items + body
    && s'.ctxs[id].builder == s.ctxs[id].builder + text
  }

  lemma GrowsOn(s: Socket, s1: Socket, s2: Socket, id: I32,
                h1: seq<Item<string>>, b1: seq<Item<seq<Byte>>>, t1: string,
                h2: seq<Item<string>>, b2: seq<Item<seq<Byte>>>, t2: string)
    requires Grows(s, s1, id, h1, b1, t1) && Grows(s1, s2, id, h2, b2, t2)
    ensures Grows(s, s2, id, h1 + h2, b1 + b2, t1 + t2)
  {
  }

  /** Request `id` is receptive and has collected the header text `text` so far. */
  ghost predicate Collected(s: Socket, id: I32, text: string) {
    Receptive(s, id) && s.ctxs[id].builder == text
  }

  lemma CollectedMore(s: Socket, s1: Socket, id: I32, h: seq<Item<string>>, b: seq<Item<seq<Byte>>>,
                      t: string, text: string)
    requires Collected(s, id, text) && Grows(s, s1, id, h, b, t)
    ensures Valid(s1) && Collected(s1, id, text + t)
  {
  }

  lemma HeaderFrameArrives(s: Socket, id: I32, endHeader: bool, part: string, text: string)
    requires Valid(s) && Collected(s, id, text) && |Encode(part)| < 0x8000_0000
    ensures Grows(s, Step(s, Binary(HeaderMessage(id, endHeader, false, part))), id,
                  if endHeader then [Ok(text + part)] else [], [], part)
  {
    hide Encode, Decode, DecodeChar;
    ParseFrame(MESSAGE_TYPE_HEADER, HeaderFlags(endHeader, false), id, Encode(part));
    DecodeEncode(part);
  }

  lemma DataFrameArrives(s: Socket, id: I32, chunk: seq<Byte>)
    requires Receptive(s, id)
    ensures var s' := Step(s, Binary(DataMessage(id, false, chunk)));
      Grows(s, s', id, [], if chunk == [] then [] else [Ok(chunk)], [])
  {
    ParseFrame(MESSAGE_TYPE_DATA, 0, id, chunk);
  }

  lemma EndFrameArrives(s: Socket, id: I32)
    requires Receptive(s, id)
    ensures var s', c := Step(s, Binary(DataMessage(id, true, []))), s.ctxs[id];
      && id in s'.ctxs
      && s'.ctxs[id].header == Close(c.header) && s'.ctxs[id].body == Close(c.body)
  {
    ParseFrame(MESSAGE_TYPE_DATA, 1, id, []);
  }

  lemma {:induction false} EncodedLength(s: string)
    ensures |Encode(s)| <= 4 * |s|
  {
    if s != [] { EncodedLength(s[1..]); }
  }

  ghost predicate SmallParts(parts: seq<string>) {
    forall p :: p in parts ==> |p| <= HEADER_CHUNK_SIZE
  }

  lemma {:induction false} ChunksAreSmall(text: string)
    requires text != []
    ensures SmallParts(Chunks(text))
    decreases |text|
  {
    if |text| > HEADER_CHUNK_SIZE { ChunksAreSmall(text[HEADER_CHUNK_SIZE..]); }
  }

  lemma HeaderPartsAreSmall(text: string)
    ensures SmallParts(HeaderParts(text))
  {
    if |Encode(text)| >= HEADER_CHUNK_SIZE { ChunksAreSmall(text); }
  }

  lemma PartFramesCons(id: I32, parts: seq<string>)
    requires parts != []
    ensures Binaries(PartFrames(id, false, parts))
         == [Binary(HeaderMessage(id, |parts| == 1, false, parts[0]))] + Binaries(PartFrames(id, false, parts[1..]))
  {
  }

  lemma JoinOn(text: string, parts: seq<string>)
    requires parts != []
    ensures Join(parts) == parts[0] + Join(parts[1..]) && text + Join(parts) == (text + parts[0]) + Join(parts[1..])
    ensures parts[1..] == [] ==> Join(parts) == parts[0]
  {
  }

  lemma {:induction false} HeaderArrives(s: Socket, id: I32, parts: seq<string>, text: string)
    requires Valid(s) && Collected(s, id, text) && parts != [] && SmallParts(parts)
    ensures Grows(s, Run(s, Binaries(PartFrames(id, false, parts))), id, [Ok(text + Join(parts))], [], Join(parts))
    decreases |parts|
  {
    hide Step, Run, Encode, HeaderMessage, PartFrames, Binaries, Grows, Collected, Valid, Join;
    JoinOn(text, parts);
    var rest := parts[1..];
    var e, es := Binary(HeaderMessage(id, |parts| == 1, false, parts[0])), Binaries(PartFrames(id, false, rest));
    EncodedLength(parts[0]);
    HeaderFrameArrives(s, id, |parts| == 1, parts[0], text);
    PartFramesCons(id, parts);
    RunOne(s, e);
    if rest == [] {
      assert [e] + es == [e];
    } else {
      var s1 := Step(s, e);
      CollectedMore(s, s1, id, [], [], parts[0], text);
      HeaderArrives(s1, id, rest, text + parts[0]);
      RunConcat(s, [e], es);
      GrowsOn(s, s1, Run(s1, es), id, [], [], parts[0], [Ok(text + Join(parts))], [], Join(rest));
      assert [] + [Ok(text + Join(parts))] == [Ok(text + Join(parts))];
    }
  }

  /** The body chunks the client gets to see. */
  function Delivered(chunks: seq<seq<Byte>>): seq<Item<seq<Byte>>> {
    if chunks == [] then []
    else (if chunks[0] == [] then [] else [Ok(chunks[0])]) + Delivered(chunks[1..])
  }

  lemma DataFramesCons(id: I32, chunks: seq<seq<Byte>>)
    requires chunks != []
    ensures Binaries(DataFrames(id, chunks))
         == [Binary(DataMessage(id, false, chunks[0]))] + Binaries(DataFrames(id, chunks[1..]))
  {
  }

  lemma GrowsByNothing(s: Socket, id: I32)
    requires Receptive(s, id)
    ensures Grows(s, s, id, [], [], [])
  {
  }

  lemma {:induction false} BodyArrives(s: Socket, id: I32, chunks: seq<seq<Byte>>)
    requires Valid(s) && Receptive(s, id)
    ensures Grows(s, Run(s, Binaries(DataFrames(id, chunks))), id, [], Delivered(chunks), [])
    decreases |chunks|
  {
    hide Step, DataMessage, DataFrames, Binaries, Valid, Receptive;
    if chunks == [] {
      GrowsByNothing(s, id);
    } else {
      hide Run;
      var e, es := Binary(DataMessage(id, false, chunks[0])), Binaries(DataFrames(id, chunks[1..]));
      DataFrameArrives(s, id, chunks[0]);
      DataFramesCons(id, chunks);
      RunOne(s, e);
      RunConcat(s, [e], es);
      var s1 := Step(s, e);
      ReceptiveIsValid(s1, id);
      BodyArrives(s1, id, chunks[1..]);
      var head := if chunks[0] == [] then [] else [Ok(chunks[0])];
      GrowsOn(s, s1, Run(s1, es), id, [], head, [], [], Delivered(chunks[1..]), []);
    }
  }

  lemma ReceptiveIsValid(s: Socket, id: I32)
    requires Receptive(s, id)
    ensures Valid(s)
  {
  }

  /** A request that may be answered and has received nothing yet. */
  ghost predicate Fresh(s: Socket, id: I32) {
    Receptive(s, id) && s.ctxs[id].header.items == [] && s.ctxs[id].body.items == [] && s.ctxs[id].builder == []
  }

  /** The header text was delivered once, then exactly these chunks, and both channels are closed. */
  ghost predicate Complete(s: Socket, id: I32, text: string, chunks: seq<seq<Byte>>) {
    && id in s.ctxs
    && s.ctxs[id].header == Chan([Ok(text)], true)
    && s.ctxs[id].body == Chan(Delivered(chunks), true)
  }

  /**
   Framing end to end: the frames of a request with a body deliver its header text once and
   unchanged, then its non-empty chunks in order, then close both channels.
   */
  lemma FramingEndToEnd(s: Socket, id: I32, text: string, chunks: seq<seq<Byte>>)
    requires Fresh(s, id)
    ensures Complete(Run(s, Binaries(RequestFrames(id, text, Some(chunks)))), id, text, chunks)
  {
    hide Step, Encode, HeaderMessage, DataMessage, Chunks, PartFrames, DataFrames, Binaries, HeaderParts, Join, Valid;
    var hs, ds, e := PartFrames(id, false, HeaderParts(text)), DataFrames(id, chunks), [DataMessage(id, true, [])];
    BinariesConcat(hs + ds, e);
    BinariesConcat(hs, ds);
    RunConcat(s, Binaries(hs) + Binaries(ds), [Binary(e[0])]);
    RunConcat(s, Binaries(hs), Binaries(ds));
    BinariesOne(e[0]);
    HeaderPartsAreSmall(text);
    HeaderArrives(s, id, HeaderParts(text), []);
    JoinHeaderParts(text);
    var s1 := Run(s, Binaries(hs));
    BodyArrives(s1, id, chunks);
    var s2 := Run(s1, Binaries(ds));
    EndFrameArrives(s2, id);
    assert [] + text == text;
    GrowsOn(s, s1, s2, id, [Ok(text)], [], text, [], Delivered(chunks), []);
    assert [] + ([Ok(text)] + []) == [Ok(text)];
    assert [] + ([] + Delivered(chunks)) == Delivered(chunks);
    RunOne(s2, Binary(DataMessage(id, true, [])));
  }

  /** A request that a socket accepts may be answered once its sender starts. */
  lemma StartedIsFresh(s: Socket, id: I32)
    requires Valid(s) && s.receiving && s.outOpen && !s.removed && id !in s.ctxs
    ensures Fresh(Step(Step(s, Start(id)), AllowResponse(id)), id)
  {
  }

  /** From its start: the request is accepted, its sender starts, and the whole response arrives. */
  lemma NewRequestAnswered(s: Socket, id: I32, text: string, chunks: seq<seq<Byte>>)
    requires Valid(s) && s.receiving && s.outOpen && !s.removed && id !in s.ctxs
    ensures var frames := Binaries(RequestFrames(id, text, Some(chunks)));
      Complete(Run(s, [Start(id), AllowResponse(id)] + frames), id, text, chunks)
  {
    StartedIsFresh(s, id);
    var s1 := Step(s, Start(id));
    var s2 := Step(s1, AllowResponse(id));
    hide Step, Fresh, RequestFrames;
    FramingEndToEnd(s2, id, text, chunks);
    var frames := Binaries(RequestFrames(id, text, Some(chunks)));
    RunConcat(s, [Start(id), AllowResponse(id)], frames);
    RunConcat(s, [Start(id)], [AllowResponse(id)]);
    assert [Start(id)] + [AllowResponse(id)] == [Start(id), AllowResponse(id)];
    RunOne(s, Start(id));
    RunOne(s1, AllowResponse(id));
  }

  /**
   The same however the request's frames are interleaved with events of other requests, as long
   as none of them is a short window update that ends the receive loop.
   */
  lemma FramingAmongOthers(s: Socket, id: I32, text: string, chunks: seq<seq<Byte>>, es: seq<Event>)
    requires Fresh(s, id) && Spared(s, es, id)
    requires Project(es, id) == Binaries(RequestFrames(id, text, Some(chunks)))
    ensures Complete(Run(s, es), id, text, chunks)
  {
    FramingEndToEnd(s, id, text, chunks);
    NonInterference(s, es, id);
  }
}
