/**
 The response side of a V1 router socket as functions on values: one header text, then body
 chunks, on two channels to the client, until either side closes.
 */
module V1Response {
  import opened Wrappers
  import opened Utf8
  import opened Streams

  const HEADER_MAX_SIZE: nat := 64 * 1024

  /** The fields that the handlers of the socket change. */
  datatype Response = Response(
    canRespond: bool,           // is_tgt_can_send_res_now_according_to_rfc2616
    headerReceived: bool,
    headerSent: bool,
    bytesSent: nat,
    bodyFrames: nat,            // binary_frame_received
    header: Chan<string>,
    body: Chan<seq<Byte>>,
    errors: nat                 // sent to the error channel
  )

  const FRESH := Response(false, false, false, 0, 0, Chan([], false), Chan([], false), 0)

  // ---------------------------------------------------------------------------------------
  // What each event does
  // ---------------------------------------------------------------------------------------

  /** `send_target_response_header_text_to_client`; the flag says whether it returns without error. */
  function SendHeader(r: Response, text: string): (Response, bool) {
    if r.headerSent || r.headerReceived then (r, false)
    else
      var r1 := r.(headerReceived := true);
      if |Encode(text)| > HEADER_MAX_SIZE then (r1, false)
      else
        var sent := r1.(header := Close(Put(r1.header, Ok(text))), headerSent := true);
        if r1.header.closed then (sent, false) else (sent.(bytesSent := r1.bytesSent + |Encode(text)|), true)
  }

  /** `on_text` */
  function OnText(r: Response, text: string): (Response, bool) {
    if !r.canRespond then (r, false) else SendHeader(r, text)
  }

  /** `on_binary` */
  function OnBinary(r: Response, bin: seq<Byte>): (Response, bool) {
    if !r.canRespond then (r, false)
    else
      var r1 := r.(bodyFrames := r.bodyFrames + 1);
      if !r1.headerReceived || !r1.headerSent || r1.body.closed then (r1, false)
      else (r1.(body := Put(r1.body, Ok(bin)), bytesSent := r1.bytesSent + |bin|), true)
  }

  /** `on_close`; a missing close frame counts as code 4000. */
  function OnClose(r: Response, fromClient: nat, frame: Option<int>): Response {
    var code := if frame.Some? then frame.value else 4000;
    var failed := r.canRespond && fromClient == 0 && (code == 1011 || code == 1008);
    var r1 := if failed then r.(errors := r.errors + 1) else r;
    if r1.header.closed && r1.body.closed then r1
    else
      var r2 :=
        if code == 1000 then r1
        else r1.(header := Put(r1.header, Err), body := Put(r1.body, Err), errors := r1.errors + 1);
      r2.(header := Close(r2.header), body := Close(r2.body))
  }

  /** `terminate_all_conn` */
  function Terminate(r: Response): Response {
    r.(header := Close(Put(r.header, Err)), body := Close(Put(r.body, Err)))
  }

  datatype Event =
    | Enable                                            // the request is being sent
    | Text(text: string)
    | Binary(bin: seq<Byte>)
    | Closed(fromClient: nat, frame: Option<int>)
    | Failed

  function Step(r: Response, e: Event): Response {
    match e
    case Enable => r.(canRespond := true)
    case Text(text) => OnText(r, text).0
    case Binary(bin) => OnBinary(r, bin).0
    case Closed(fromClient, frame) => OnClose(r, fromClient, frame)
    case Failed => Terminate(r)
  }

  function Run(r: Response, es: seq<Event>): Response
    decreases |es|
  {
    if es == [] then r else Run(Step(r, es[0]), es[1..])
  }

  // ---------------------------------------------------------------------------------------
  // Properties of runs
  // ---------------------------------------------------------------------------------------

  ghost function OkHeaders(items: seq<Item<string>>): seq<string> {
    if items == [] then []
    else OkHeaders(items[..|items| - 1]) + if items[|items| - 1].Ok? then [items[|items| - 1].value] else []
  }

  ghost predicate HasOk<T(!new)>(items: seq<Item<T>>) {
    exists i :: 0 <= i < |items| && items[i].Ok?
  }

  ghost function HeaderBytes(items: seq<Item<string>>): nat {
    if OkHeaders(items) == [] then 0 else |Encode(OkHeaders(items)[0])|
  }

  ghost predicate Inv(r: Response) {
    && |OkHeaders(r.header.items)| <= 1
    && (OkHeaders(r.header.items) != [] ==> r.headerSent)
    && (r.headerSent ==> r.headerReceived && r.header.closed)
    && (r.headerSent && !r.body.closed ==> OkHeaders(r.header.items) != [])
    && (HasOk(r.body.items) ==> OkHeaders(r.header.items) != [])
    && (r.body.closed ==> r.header.closed)
    && (!r.headerSent && r.header.closed ==> r.body.closed)
    && r.bytesSent == HeaderBytes(r.header.items) + OkBytes(r.body.items)
  }

  lemma PutHeader(ch: Chan<string>, item: Item<string>)
    ensures !ch.closed ==> OkHeaders(Put(ch, item).items) == OkHeaders(ch.items) + if item.Ok? then [item.value] else []
  {
    assert (ch.items + [item])[..|ch.items|] == ch.items;
  }

  lemma PutBody(ch: Chan<seq<Byte>>, item: Item<seq<Byte>>)
    ensures !ch.closed ==> OkBytes(Put(ch, item).items) == OkBytes(ch.items) + if item.Ok? then |item.value| else 0
    ensures HasOk(Put(ch, item).items) <==> HasOk(ch.items) || (!ch.closed && item.Ok?)
  {
    if !ch.closed { OkBytesPut(ch, item); }
    var items := ch.items + [item];
    assert items[|ch.items|] == item;
    assert forall i :: 0 <= i < |ch.items| ==> items[i] == ch.items[i];
  }

  lemma TextKeepsInv(r: Response, text: string)
    requires Inv(r)
    ensures Inv(OnText(r, text).0)
  {
    PutHeader(r.header, Ok(text));
    hide OkHeaders, OkBytes, HasOk;
    assert OkHeaders(r.header.items) == [] ==> OkHeaders(r.header.items) + [text] == [text];
  }

  lemma BinaryKeepsInv(r: Response, bin: seq<Byte>)
    requires Inv(r)
    ensures Inv(OnBinary(r, bin).0)
  {
    PutBody(r.body, Ok(bin));
    hide OkHeaders, OkBytes, HasOk, Put;
  }

  lemma ErrKeeps(r: Response)
    ensures OkHeaders(Put(r.header, Err).items) == OkHeaders(r.header.items)
    ensures OkBytes(Put(r.body, Err).items) == OkBytes(r.body.items)
    ensures HasOk(Put(r.body, Err).items) <==> HasOk(r.body.items)
  {
    PutHeader(r.header, Err);
    PutBody(r.body, Err);
    hide OkHeaders, OkBytes, HasOk;
    assert OkHeaders(r.header.items) + [] == OkHeaders(r.header.items);
  }

  lemma CloseKeepsInv(r: Response, fromClient: nat, frame: Option<int>)
    requires Inv(r)
    ensures Inv(OnClose(r, fromClient, frame)) && Inv(Terminate(r))
  {
    ErrKeeps(r);
    hide OkHeaders, OkBytes, HasOk, Put;
  }

  lemma StepKeepsInv(r: Response, e: Event)
    requires Inv(r)
    ensures Inv(Step(r, e))
  {
    hide OnText, OnBinary, OnClose, Terminate;
    match e
    case Enable =>
    case Text(text) => TextKeepsInv(r, text);
    case Binary(bin) => BinaryKeepsInv(r, bin);
    case Closed(fromClient, frame) => CloseKeepsInv(r, fromClient, frame);
    case Failed => CloseKeepsInv(r, 0, None);
  }

  lemma {:induction false} RunKeepsInv(r: Response, es: seq<Event>)
    requires Inv(r)
    ensures Inv(Run(r, es))
    decreases |es|
  {
    hide Step, Inv;
    if es != [] {
      StepKeepsInv(r, es[0]);
      RunKeepsInv(Step(r, es[0]), es[1..]);
    }
  }

  lemma FreshInv()
    ensures Inv(FRESH)
  {
  }

  /** The state after events `es` on a new socket. */
  ghost predicate Reached(es: seq<Event>, r: Response) {
    r == Run(FRESH, es)
  }

  lemma ReachedInv(es: seq<Event>, r: Response)
    requires Reached(es, r)
    ensures Inv(r)
  {
    FreshInv();
    hide Run, Inv;
    RunKeepsInv(FRESH, es);
  }

  /**
   In every run: at most one header is delivered; no body chunk is delivered before it; and
   `bytes_sent` is its UTF-8 length plus the lengths of the chunks delivered.
   */
  lemma HeaderOnceThenBody(es: seq<Event>, r: Response)
    requires Reached(es, r)
    ensures |OkHeaders(r.header.items)| <= 1
    ensures HasOk(r.body.items) ==> OkHeaders(r.header.items) != []
    ensures r.bytesSent == HeaderBytes(r.header.items) + OkBytes(r.body.items)
  {
    ReachedInv(es, r);
    hide Reached, OkHeaders, OkBytes, HasOk, HeaderBytes;
  }

  // ---- what is delivered ----

  /** The text is the first one, may be sent on now, and is not too long. */
  ghost predicate Delivers(r: Response, text: string) {
    r.canRespond && !r.headerReceived && !r.headerSent && !r.header.closed && |Encode(text)| <= 65536
  }

  /** A text that is delivered closes the header channel; any other is not put on any channel. */
  lemma TextExactly(r: Response, text: string)
    ensures var r' := Step(r, Text(text));
      && r'.body == r.body
      && (Delivers(r, text) ==>
            && r'.header == Chan(r.header.items + [Ok(text)], true) && r'.headerSent && r'.headerReceived
            && r'.bytesSent == r.bytesSent + |Encode(text)| && r'.canRespond)
      && (!Delivers(r, text) ==> r'.header.items == r.header.items && r'.bytesSent == r.bytesSent)
  {
    hide Encode;
  }

  /** A chunk after a delivered header goes on the open body channel; any other goes nowhere. */
  lemma ChunkExactly(r: Response, bin: seq<Byte>)
    ensures var r' := Step(r, Event.Binary(bin));
      && r'.header == r.header && r'.headerSent == r.headerSent && r'.headerReceived == r.headerReceived
      && r'.canRespond == r.canRespond
      && if r.canRespond && r.headerReceived && r.headerSent && !r.body.closed
         then r'.body == Chan(r.body.items + [Ok(bin)], false) && r'.bytesSent == r.bytesSent + |bin|
         else r'.body == r.body && r'.bytesSent == r.bytesSent
  {
  }

  function Binaries(chunks: seq<seq<Byte>>): seq<Event> {
    if chunks == [] then [] else [Event.Binary(chunks[0])] + Binaries(chunks[1..])
  }

  ghost function Oks(chunks: seq<seq<Byte>>): seq<Item<seq<Byte>>> {
    if chunks == [] then [] else [Ok(chunks[0])] + Oks(chunks[1..])
  }

  lemma NextChunk(r: Response, chunks: seq<seq<Byte>>, items: seq<Item<seq<Byte>>>)
    requires chunks != []
    ensures Run(r, Binaries(chunks)) == Run(Step(r, Event.Binary(chunks[0])), Binaries(chunks[1..]))
    ensures items + [Ok(chunks[0])] + Oks(chunks[1..]) == items + Oks(chunks)
  {
    hide Step;
    assert Binaries(chunks)[0] == Event.Binary(chunks[0]) && Binaries(chunks)[1..] == Binaries(chunks[1..]);
  }

  lemma NoChunk(r: Response)
    ensures Run(r, Binaries([])) == r && r.body.items + Oks([]) == r.body.items
  {
  }

  lemma {:induction false} ChunksArrive(r: Response, chunks: seq<seq<Byte>>)
    requires r.canRespond && r.headerReceived && r.headerSent && !r.body.closed
    ensures var r' := Run(r, Binaries(chunks));
      r'.header == r.header && r'.body == Chan(r.body.items + Oks(chunks), false)
    decreases |chunks|
  {
    hide *;
    if chunks == [] {
      NoChunk(r);
    } else {
      ChunkExactly(r, chunks[0]);
      NextChunk(r, chunks, r.body.items);
      ChunksArrive(Step(r, Event.Binary(chunks[0])), chunks[1..]);
    }
  }

  /**
   The response comes through: on a new socket, once the request is being sent, a header text of at
   most 64 KiB and then every chunk are delivered unchanged and in order.
   */
  lemma DeliveredInOrder(text: string, chunks: seq<seq<Byte>>)
    requires |Encode(text)| <= 65536
    ensures var r := Run(FRESH, [Enable, Text(text)] + Binaries(chunks));
      r.header == Chan([Ok(text)], true) && r.body == Chan(Oks(chunks), false)
  {
    var r1 := Step(FRESH, Enable);
    TextExactly(r1, text);
    var r2 := Step(r1, Text(text));
    var es := [Enable, Text(text)] + Binaries(chunks);
    assert es[1..] == [Text(text)] + Binaries(chunks) && es[1..][1..] == Binaries(chunks);
    assert Run(FRESH, es) == Run(r1, es[1..]) == Run(r2, Binaries(chunks));
    hide Run, Step, Encode;
    ChunksArrive(r2, chunks);
    assert [] + Oks(chunks) == Oks(chunks) && [] + [Ok(text)] == [Ok(text)];
  }

  /** A header was received and refused. */
  ghost predicate Stuck(r: Response) {
    r.headerReceived && !r.headerSent
  }

  lemma StuckStep(r: Response, e: Event)
    requires Inv(r) && Stuck(r)
    ensures var r' := Step(r, e);
      && Stuck(r') && OkHeaders(r'.header.items) == [] && !HasOk(r'.body.items)
  {
    StepKeepsInv(r, e);
    hide OkHeaders, OkBytes, HasOk, Put;
  }

  lemma {:induction false} StuckForever(r: Response, es: seq<Event>)
    requires Inv(r) && Stuck(r)
    ensures var r' := Run(r, es);
      && Stuck(r') && OkHeaders(r'.header.items) == [] && !HasOk(r'.body.items)
    decreases |es|
  {
    if es != [] {
      StepKeepsInv(r, es[0]);
      StuckStep(r, es[0]);
      hide Step, Inv, OkHeaders, HasOk;
      StuckForever(Step(r, es[0]), es[1..]);
    }
  }

  /** A first text of more than 64 KiB blocks every later header and body chunk. */
  lemma OversizedHeaderBlocks(before: seq<Event>, r: Response, text: string, after: seq<Event>)
    requires Reached(before, r) && r.canRespond && !r.headerReceived
    requires |Encode(text)| > 65536
    ensures var r' := Run(Step(r, Text(text)), after);
      OkHeaders(r'.header.items) == [] && !HasOk(r'.body.items)
  {
    ReachedInv(before, r);
    hide Reached, Run, OkHeaders, OkBytes, HasOk, HeaderBytes;
    StepKeepsInv(r, Text(text));
    StuckForever(Step(r, Text(text)), after);
  }

  /** What is on the channels when both are closed stays as it is. */
  lemma {:induction false} ClosedIsFinal(r: Response, es: seq<Event>)
    requires r.header.closed && r.body.closed
    ensures Run(r, es).header == r.header && Run(r, es).body == r.body
    decreases |es|
  {
    if es != [] {
      var r' := Step(r, es[0]);
      assert r'.header == r.header && r'.body == r.body;
      ClosedIsFinal(r', es[1..]);
    }
  }

  /**
   After a close both channels are closed for good. With any code but 1000, or without a frame,
   a channel that was open ends in an error; otherwise nothing is added.
   */
  lemma AbnormalCloseVisible(r: Response, fromClient: nat, frame: Option<int>, es: seq<Event>)
    ensures var r', normal := Run(OnClose(r, fromClient, frame), es), frame == Some(1000);
      && r'.body == Chan(r.body.items + (if r.body.closed || normal then [] else [Err]), true)
      && r'.header == Chan(r.header.items + (if r.header.closed || normal then [] else [Err]), true)
  {
    hide Run;
    ClosedIsFinal(OnClose(r, fromClient, frame), es);
    assert r.body.items + [] == r.body.items && r.header.items + [] == r.header.items;
  }

  /** A connection that is given up: every open channel ends in an error and is closed for good. */
  lemma TerminationVisible(r: Response, es: seq<Event>)
    ensures var r' := Run(Step(r, Failed), es);
      && r'.body == Chan(r.body.items + (if r.body.closed then [] else [Err]), true)
      && r'.header == Chan(r.header.items + (if r.header.closed then [] else [Err]), true)
  {
    hide Run;
    ClosedIsFinal(Step(r, Failed), es);
    assert r.body.items + [] == r.body.items && r.header.items + [] == r.header.items;
  }

  /**
   The errors reported by a close: one if it is abnormal and something was open, and one more when
   the connector gives up, with 1011 or 1008, before anything of the request was sent.
   */
  lemma CloseReports(r: Response, fromClient: nat, frame: Option<int>)
    ensures OnClose(r, fromClient, frame).errors == r.errors
      + (if r.canRespond && fromClient == 0 && (frame == Some(1011) || frame == Some(1008)) then 1 else 0)
      + (if frame != Some(1000) && !(r.header.closed && r.body.closed) then 1 else 0)
  {
  }
}
