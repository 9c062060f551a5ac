/**
 How V3 responses end: a finished response stays silent, a broken connection is visible in
 every response, and window updates account for every byte handed on.
 */
module Closing {
  import opened Wrappers
  import opened Utf8
  import opened Frames
  import opened Streams
  import opened Demux
  import opened Delivery
  import opened StreamEffects

  /** Both channels of request `r` are closed and hold exactly these items. */
  ghost predicate Shut(s: Socket, r: I32, header: seq<Item<string>>, body: seq<Item<seq<Byte>>>) {
    r in s.ctxs && s.ctxs[r].header == Chan(header, true) && s.ctxs[r].body == Chan(body, true)
  }

  lemma RunKeepsShut(s: Socket, es: seq<Event>, r: I32, header: seq<Item<string>>, body: seq<Item<seq<Byte>>>)
    requires Valid(s) && Shut(s, r, header, body)
    ensures Shut(Run(s, es), r, header, body)
  {
    NothingTakenBack(s, es, r);
    hide Run;
  }

  /** `bs` is a data or header frame of `r` with END_STREAM, and handling it raises no error. */
  ghost predicate EndsCleanly(s: Socket, bs: seq<Byte>, r: I32) {
    var p := Parse(bs);
    && Valid(s) && s.receiving && p.Parsed? && p.id == r && r in s.live
    && (p.ty == MESSAGE_TYPE_DATA || p.ty == MESSAGE_TYPE_HEADER) && EndsStream(p.flags)
    && Dispatch(s.ctxs[r], p.ty, p.flags, p.payload, s.outOpen).ok
  }

  lemma EndShuts(s: Socket, bs: seq<Byte>, r: I32)
    requires EndsCleanly(s, bs, r)
    ensures var c := Step(s, Binary(bs)).ctxs; r in c && c[r].header.closed && c[r].body.closed
  {
  }

  /** Once an END_STREAM frame is handled without error nothing more is ever put on either channel. */
  lemma SilenceAfterEnd(s: Socket, bs: seq<Byte>, r: I32, es: seq<Event>)
    requires EndsCleanly(s, bs, r)
    ensures r in Step(s, Binary(bs)).ctxs
    ensures var c := Step(s, Binary(bs)).ctxs[r];
      Shut(Run(s, [Binary(bs)] + es), r, c.header.items, c.body.items)
  {
    hide Step;
    EndShuts(s, bs, r);
    var s1 := Step(s, Binary(bs));
    RunKeepsShut(s1, es, r, s1.ctxs[r].header.items, s1.ctxs[r].body.items);
    RunConcat(s, [Binary(bs)], es);
    RunOne(s, Binary(bs));
  }

  // ---------------------------------------------------------------------------------------
  // Requests without a body
  // ---------------------------------------------------------------------------------------

  lemma FirstOfManyShuts(s: Socket, id: I32, part: string, last: bool)
    requires Fresh(s, id) && |Encode(part)| < 0x8000_0000
    ensures Shut(Step(s, Binary(HeaderMessage(id, last, true, part))), id, if last then [Ok(part)] else [], [])
  {
    hide Encode, Decode, DecodeChar;
    ParseFrame(MESSAGE_TYPE_HEADER, HeaderFlags(last, true), id, Encode(part));
    DecodeEncode(part);
    assert [] + part == part;
  }

  /**
   A request without a body carries END_STREAM on each of its header frames, so a header
   text of more than 16000 characters is never delivered; a shorter one is delivered once.
   */
  lemma HeaderWithoutBodyExactly(s: Socket, id: I32, text: string)
    requires Fresh(s, id)
    ensures Shut(Run(s, Binaries(RequestFrames(id, text, None))), id,
                 if |text| <= HEADER_CHUNK_SIZE then [Ok(text)] else [], [])
  {
    hide Step, Encode, HeaderMessage, Chunks, Binaries;
    var parts := HeaderParts(text);
    var frames := PartFrames(id, true, parts);
    OnePieceExactly(text);
    HeaderPartsAreSmall(text);
    EncodedLength(parts[0]);
    FirstOfManyShuts(s, id, parts[0], |parts| == 1);
    JoinHeaderParts(text);
    if |parts| == 1 { assert Join(parts) == parts[0] + Join(parts[1..]) == parts[0]; }
    var e := Binary(frames[0]);
    assert frames == [frames[0]] + frames[1..];
    BinariesConcat([frames[0]], frames[1..]);
    BinariesOne(frames[0]);
    RunConcat(s, [e], Binaries(frames[1..]));
    RunOne(s, e);
    RunKeepsShut(Step(s, e), Binaries(frames[1..]), id, if |parts| == 1 then [Ok(parts[0])] else [], []);
  }

  // ---------------------------------------------------------------------------------------
  // The websocket closes
  // ---------------------------------------------------------------------------------------

  /**
   The errors that a close puts on an open channel: one unless the code is 1000, and before it one
   more when the connector gives up, with 1011 or 1008, before anything of the request was sent.
   */
  ghost function CloseErrors<T(!new)>(c: Ctx, code: int): seq<Item<T>> {
    (if c.canRespond && c.fromClient == 0 && (code == 1011 || code == 1008) then [Err] else [])
    + if code == 1000 then [] else [Err]
  }

  lemma CloseCtx(c: Ctx, code: int)
    ensures var c' := NotifyClose(c, code);
      && c'.header == Heard(c.header, CloseErrors(c, code), true)
      && c'.body == Heard(c.body, CloseErrors(c, code), true)
      && c' == c.(header := c'.header, body := c'.body)
  {
    assert c.header.items + [Err] + [Err] == c.header.items + ([Err] + [Err]);
    assert c.body.items + [Err] + [Err] == c.body.items + ([Err] + [Err]);
    assert c.header.items + [] == c.header.items && c.body.items + [] == c.body.items;
    assert forall t: seq<Item<string>> :: t + [] == t && [] + t == t;
    assert forall t: seq<Item<seq<Byte>>> :: t + [] == t && [] + t == t;
  }

  /**
   What a close does: every request in the table gets these errors, both its channels are closed
   and it is to be removed; a close frame without a code counts as 4000. Once the receive loop has
   ended a close does nothing.
   */
  lemma CloseExactly(s: Socket, frame: Option<int>, r: I32)
    requires Valid(s) && r in s.ctxs
    ensures var s', c, code := Step(s, CloseFrame(frame)), s.ctxs[r], if frame.Some? then frame.value else 4000;
      if !s.receiving then s' == s
      else
        && r in s'.ctxs && s'.removed && s'.removing == s.removing + s.live && s'.live == s.live
        && (r !in s.live ==> s'.ctxs[r] == c)
        && (r in s.live ==>
              && s'.ctxs[r].header == Heard(c.header, CloseErrors(c, code), true)
              && s'.ctxs[r].body == Heard(c.body, CloseErrors(c, code), true))
  {
    CloseCtx(s.ctxs[r], if frame.Some? then frame.value else 4000);
    hide NotifyClose, CloseErrors;
  }

  /** An open channel was given an error, last of all. */
  ghost predicate EndsInError<T(!new)>(ch: Chan<T>, ch': Chan<T>) {
    !ch.closed ==> ch.items < ch'.items && ch'.items[|ch'.items| - 1] == Err
  }

  /** Both channels are closed, and those that were open end in an error. */
  ghost predicate Broken(c: Ctx, c': Ctx) {
    c'.header.closed && c'.body.closed && EndsInError(c.header, c'.header) && EndsInError(c.body, c'.body)
  }

  lemma CloseStep(s: Socket, frame: Option<int>, r: I32)
    requires Valid(s) && frame != Some(1000) && r in s.live && !(s.ctxs[r].header.closed && s.ctxs[r].body.closed)
    ensures r in Step(s, CloseFrame(frame)).ctxs
    ensures Broken(s.ctxs[r], Step(s, CloseFrame(frame)).ctxs[r]) <==> s.receiving
  {
    CloseExactly(s, frame, r);
    hide Step;
  }

  /**
   An abnormal close shows: both channels of a response end in an error if they were open, and
   are closed for good, if and only if the receive loop is still there to call `on_close`.
   */
  lemma AbnormalCloseVisible(s: Socket, frame: Option<int>, r: I32, es: seq<Event>)
    requires Valid(s) && frame != Some(1000) && r in s.live && !(s.ctxs[r].header.closed && s.ctxs[r].body.closed)
    ensures r in Step(s, CloseFrame(frame)).ctxs
    ensures Broken(s.ctxs[r], Step(s, CloseFrame(frame)).ctxs[r]) <==> s.receiving
    ensures s.receiving ==>
      var c := Step(s, CloseFrame(frame)).ctxs[r];
      Shut(Run(s, [CloseFrame(frame)] + es), r, c.header.items, c.body.items)
  {
    CloseStep(s, frame, r);
    if s.receiving {
      hide Run, Step;
      var s1 := Step(s, CloseFrame(frame));
      RunKeepsShut(s1, es, r, s1.ctxs[r].header.items, s1.ctxs[r].body.items);
      RunConcat(s, [CloseFrame(frame)], es);
      RunOne(s, CloseFrame(frame));
    }
  }

  /** After any run: exactly when no short window update of a live request came before the close. */
  lemma AbnormalCloseAfterRun(s: Socket, es: seq<Event>, frame: Option<int>, r: I32)
    requires Valid(s) && frame != Some(1000) && r in Run(s, es).live
    requires !(Run(s, es).ctxs[r].header.closed && Run(s, es).ctxs[r].body.closed)
    ensures r in Run(s, es + [CloseFrame(frame)]).ctxs
    ensures Broken(Run(s, es).ctxs[r], Run(s, es + [CloseFrame(frame)]).ctxs[r]) <==> s.receiving && Survives(s, es)
  {
    CloseStep(Run(s, es), frame, r);
    ReceivingExactly(s, es);
    RunOneMore(s, es, CloseFrame(frame));
    hide *;
  }

  lemma StepStaysRemoved(s: Socket, e: Event)
    requires Valid(s) && s.removed
    ensures Step(s, e).removed && Step(s, e).ctxs.Keys == s.ctxs.Keys
  {
    hide Dispatch, Settle, NotifyClose, NotifyError, IncPending, WriteItMaybe;
  }

  lemma {:induction false} RemovedStays(s: Socket, es: seq<Event>)
    requires Valid(s) && s.removed
    ensures Run(s, es).removed && Run(s, es).ctxs.Keys == s.ctxs.Keys
    decreases |es|
  {
    hide Step;
    if es != [] {
      StepStaysRemoved(s, es[0]);
      RemovedStays(Step(s, es[0]), es[1..]);
    }
  }

  lemma CloseRemoves(s: Socket, frame: Option<int>)
    requires Valid(s)
    ensures var s' := Step(s, CloseFrame(frame));
      (s'.removed <==> s.removed || s.receiving) && s'.ctxs.Keys == s.ctxs.Keys
  {
    hide NotifyClose;
  }

  /**
   After a close the socket takes no new request, whatever follows, if and only if it was
   removed before or the receive loop was still there to call `on_close`.
   */
  lemma ClosedSocketRefuses(s: Socket, frame: Option<int>, es: seq<Event>, id: I32)
    requires Valid(s) && id !in s.ctxs
    ensures s.removed || s.receiving ==> Run(s, [CloseFrame(frame)] + es).ctxs.Keys == s.ctxs.Keys
    ensures id in Step(Step(s, CloseFrame(frame)), Start(id)).ctxs <==> !(s.removed || s.receiving)
  {
    CloseRemoves(s, frame);
    var s1 := Step(s, CloseFrame(frame));
    if s.removed || s.receiving {
      hide Run, Step;
      RunConcat(s, [CloseFrame(frame)], es);
      RunOne(s, CloseFrame(frame));
      RemovedStays(s1, es);
    }
  }

  // ---------------------------------------------------------------------------------------
  // Credits
  // ---------------------------------------------------------------------------------------

  /** The credit that one outgoing frame gives to request `r`. */
  function Credit(frame: seq<Byte>, r: I32): int {
    var p := Parse(frame);
    if p.Parsed? && p.ty == MESSAGE_TYPE_WINDOW_UPDATE && p.id == r && |p.payload| >= 4 then GetI32(p.payload) else 0
  }

  function Credits(out: seq<seq<Byte>>, r: I32): int {
    if out == [] then 0 else Credits(out[..|out| - 1], r) + Credit(out[|out| - 1], r)
  }

  lemma {:induction false} CreditsConcat(a: seq<seq<Byte>>, b: seq<seq<Byte>>, r: I32)
    ensures Credits(a + b, r) == Credits(a, r) + Credits(b, r)
    decreases |b|
  {
    if b == [] {
      assert a + b == a;
    } else {
      assert (a + b)[..|a + b| - 1] == a + b[..|b| - 1];
      CreditsConcat(a, b[..|b| - 1], r);
    }
  }

  function ToClient(s: Socket, r: I32): nat {
    if r in s.ctxs then s.ctxs[r].toClient else 0
  }

  /** The header bytes of request `r` that step `e` handles without error. */
  function HeaderBytes(s: Socket, e: Event, r: I32): nat
    requires Valid(s)
  {
    if e.Binary? && s.receiving && Parse(e.bs).Parsed? && Parse(e.bs).id == r && r in s.live
       && Parse(e.bs).ty == MESSAGE_TYPE_HEADER
       && HandleHeader(s.ctxs[r], Parse(e.bs).flags, Parse(e.bs).payload, s.outOpen).ok
    then |Parse(e.bs).payload| else 0
  }

  function AllHeaderBytes(s: Socket, es: seq<Event>, r: I32): nat
    requires Valid(s)
    decreases |es|
  {
    if es == [] then 0 else HeaderBytes(s, es[0], r) + AllHeaderBytes(Step(s, es[0]), es[1..], r)
  }

  lemma UpdateCredit(id: I32, n: I32, r: I32)
    ensures Credits([WindowUpdateMessage(id, n)], r) == if id == r then n else 0
  {
    ParseFrame(MESSAGE_TYPE_WINDOW_UPDATE, 0, id, PutI32(n));
    GetPutI32(n, []);
    assert PutI32(n) + [] == PutI32(n);
    assert [WindowUpdateMessage(id, n)][..0] == [];
  }

  lemma ResetCredit(c: Ctx, code: I32, open: bool, r: I32)
    ensures Credits(ResetFrames(c, code, open), r) == 0
  {
    var frames := ResetFrames(c, code, open);
    ParseFrame(MESSAGE_TYPE_RST_STREAM, 0, c.id, PutI32(code) + Encode(GOING_AWAY));
    if frames != [] { assert frames[..0] == []; }
  }

  lemma DispatchCredit(c: Ctx, ty: Byte, flags: Byte, payload: seq<Byte>, r: I32)
    requires |payload| < 0x8000_0000
    ensures var o := Dispatch(c, ty, flags, payload, true);
      Credits(o.sent, r) == if c.id == r then
        (o.ctx.toClient - c.toClient) + (if ty == MESSAGE_TYPE_HEADER && o.ok then |payload| else 0) else 0
  {
    hide Decode, AckBytes, WindowUpdateMessage, NotifyClose, GetI32, Credit;
    UpdateCredit(c.id, |payload|, r);
    CloseKeepsCount(1000);
    assert AsI32(|payload|) == |payload|;
  }

  lemma CloseKeepsCount(code: int)
    ensures forall c: Ctx :: NotifyClose(c, code).toClient == c.toClient && NotifyClose(c, code).id == c.id
  {
  }

  lemma ApplyCredit(s: Socket, id: I32, o: Outcome, r: I32)
    requires Valid(s) && id in s.live && o.ctx.id == id
    ensures Credits(Apply(s, id, o).out, r) == Credits(s.out, r) + Credits(o.sent, r)
    ensures ToClient(Apply(s, id, o), r) == if r == id then o.ctx.toClient else ToClient(s, r)
  {
    CreditsConcat(s.out, o.sent, r);
  }

  lemma SettleCredit(o: Outcome, r: I32)
    ensures Credits(Settle(o, true).sent, r) == Credits(o.sent, r)
    ensures Settle(o, true).ctx.toClient == o.ctx.toClient
  {
    hide RstMessage, Credit;
    ResetCredit(o.ctx, 1001, true, r);
    CreditsConcat(o.sent, ResetFrames(o.ctx, 1001, true), r);
  }

  lemma BinaryCredit(s: Socket, bs: seq<Byte>, r: I32)
    requires Valid(s) && s.outOpen && |bs| < 0x8000_0000
    ensures Credits(OnBinary(s, bs).out, r) - Credits(s.out, r)
         == ToClient(OnBinary(s, bs), r) - ToClient(s, r) + HeaderBytes(s, Binary(bs), r)
  {
    hide Credits, Settle, Apply, HandleData, HandleHeader, AckBytes;
    var p := Parse(bs);
    if s.receiving && p.Parsed? && p.id in s.live && !(p.ty == MESSAGE_TYPE_WINDOW_UPDATE && |p.payload| < 4) {
      var o := Dispatch(s.ctxs[p.id], p.ty, p.flags, p.payload, true);
      DispatchCredit(s.ctxs[p.id], p.ty, p.flags, p.payload, r);
      SettleCredit(o, r);
      ApplyCredit(s, p.id, Settle(o, true), r);
    }
  }

  lemma OtherCredit(s: Socket, e: Event, r: I32)
    requires Valid(s) && !e.Binary?
    ensures Credits(Step(s, e).out, r) == Credits(s.out, r) && ToClient(Step(s, e), r) == ToClient(s, r)
  {
    hide Credits, Apply, ResetFrames, IncPending, WriteItMaybe;
    if e.ClientGone? && e.id in s.live {
      ResetCredit(s.ctxs[e.id], 1001, s.outOpen, r);
      ApplyCredit(s, e.id, Reset(s.ctxs[e.id], s.outOpen), r);
    }
  }

  lemma StepCredit(s: Socket, e: Event, r: I32)
    requires Valid(s) && s.outOpen && (e.Binary? ==> |e.bs| < 0x8000_0000)
    ensures Credits(Step(s, e).out, r) - Credits(s.out, r)
         == ToClient(Step(s, e), r) - ToClient(s, r) + HeaderBytes(s, e, r)
  {
    if e.Binary? {
      hide Credits, OnBinary, HeaderBytes, ToClient;
      BinaryCredit(s, e.bs, r);
    } else {
      OtherCredit(s, e, r);
      hide Step, Credits, ToClient;
    }
  }

  /**
   Credit conservation: with the outgoing queue open, the window updates sent for a request
   during a run are the body bytes handed on plus the header bytes handled without error.
   */
  lemma {:induction false} CreditsConserved(s: Socket, es: seq<Event>, r: I32)
    requires Valid(s) && s.outOpen
    requires forall e :: e in es ==> !e.OutgoingClosed? && (e.Binary? ==> |e.bs| < 0x8000_0000)
    ensures Credits(Run(s, es).out, r) - Credits(s.out, r)
         == ToClient(Run(s, es), r) - ToClient(s, r) + AllHeaderBytes(s, es, r)
    decreases |es|
  {
    if es != [] {
      StepCredit(s, es[0], r);
      StaysOpen(s, es[0]);
      hide Step, Credits, HeaderBytes;
      CreditsConserved(Step(s, es[0]), es[1..], r);
    }
  }

  lemma StaysOpen(s: Socket, e: Event)
    requires Valid(s) && s.outOpen && !e.OutgoingClosed?
    ensures Step(s, e).outOpen
  {
  }

  ghost predicate Counted(s: Socket) {
    forall r :: r in s.ctxs ==> s.ctxs[r].toClient == OkBytes(s.ctxs[r].body.items)
  }

  lemma PutErrCounts(c: Ctx)
    ensures OkBytes(PutErr(c).body.items) == OkBytes(c.body.items)
  {
    if !c.body.closed { OkBytesPut(c.body, Err); }
  }

  lemma CloseCounts(c: Ctx, code: int)
    ensures OkBytes(NotifyClose(c, code).body.items) == OkBytes(c.body.items)
    ensures NotifyClose(c, code).toClient == c.toClient
  {
    hide OkBytes;
    PutErrCounts(c);
    PutErrCounts(PutErr(c));
  }

  lemma DispatchCounts(c: Ctx, ty: Byte, flags: Byte, payload: seq<Byte>, open: bool)
    requires c.toClient == OkBytes(c.body.items)
    ensures var c' := Dispatch(c, ty, flags, payload, open).ctx; c'.toClient == OkBytes(c'.body.items)
  {
    hide OkBytes, Decode, NotifyClose, AckBytes, WindowUpdateMessage, GetI32;
    PutErrCounts(c);
    if ty == MESSAGE_TYPE_DATA && !c.body.closed { OkBytesPut(c.body, Ok(payload)); }
    forall d: Ctx
      ensures OkBytes(NotifyClose(d, 1000).body.items) == OkBytes(d.body.items)
      ensures NotifyClose(d, 1000).toClient == d.toClient
    {
      CloseCounts(d, 1000);
    }
  }

  lemma SettleCounts(o: Outcome, open: bool)
    requires o.ctx.toClient == OkBytes(o.ctx.body.items)
    ensures var c := Settle(o, open).ctx; c.toClient == OkBytes(c.body.items)
  {
    hide OkBytes, RstMessage;
    PutErrCounts(o.ctx);
  }

  lemma BinaryCounts(s: Socket, bs: seq<Byte>)
    requires Valid(s) && Counted(s)
    ensures Counted(OnBinary(s, bs))
  {
    hide OkBytes, Dispatch, Settle;
    var p := Parse(bs);
    if p.Parsed? && p.id in s.live {
      DispatchCounts(s.ctxs[p.id], p.ty, p.flags, p.payload, s.outOpen);
      SettleCounts(Dispatch(s.ctxs[p.id], p.ty, p.flags, p.payload, s.outOpen), s.outOpen);
    }
  }

  lemma CloseFrameCounts(s: Socket, frame: Option<int>)
    requires Valid(s) && Counted(s)
    ensures Counted(OnClose(s, frame))
  {
    hide OkBytes, NotifyClose;
    var code := if frame.Some? then frame.value else 4000;
    forall r | r in s.ctxs
      ensures NotifyClose(s.ctxs[r], code).toClient == OkBytes(NotifyClose(s.ctxs[r], code).body.items)
    {
      CloseCounts(s.ctxs[r], code);
    }
  }

  lemma TerminateCounts(s: Socket)
    requires Valid(s) && Counted(s)
    ensures Counted(Terminate(s))
  {
    hide OkBytes, NotifyError;
    forall r | r in s.ctxs
      ensures NotifyError(s.ctxs[r]).toClient == OkBytes(NotifyError(s.ctxs[r]).body.items)
    {
      ErrorCounts(s.ctxs[r]);
    }
  }

  lemma StepCounts(s: Socket, e: Event)
    requires Valid(s) && Counted(s)
    ensures Counted(Step(s, e))
  {
    hide OkBytes, OnBinary, OnClose, Terminate, NotifyError, ResetFrames, WriteItMaybe, IncPending;
    match e
    case Binary(bs) => BinaryCounts(s, bs);
    case CloseFrame(frame) => CloseFrameCounts(s, frame);
    case TerminateAll => TerminateCounts(s);
    case Start(id) => NewCtxCounts(id);
    case SenderFailed(id) => if id in s.ctxs { ErrorCounts(s.ctxs[id]); }
    case _ =>
  }

  lemma ErrorCounts(c: Ctx)
    requires c.toClient == OkBytes(c.body.items)
    ensures NotifyError(c).toClient == OkBytes(NotifyError(c).body.items)
  {
    PutErrCounts(c);
  }

  lemma NewCtxCounts(id: I32)
    ensures NewCtx(id).toClient == OkBytes(NewCtx(id).body.items)
  {
  }

  /** In every run `to_client_bytes` is the total length of the delivered body chunks. */
  lemma {:induction false} ToClientCounts(s: Socket, es: seq<Event>)
    requires Valid(s) && Counted(s)
    ensures Counted(Run(s, es))
    decreases |es|
  {
    hide Step, OkBytes;
    if es != [] {
      StepCounts(s, es[0]);
      ToClientCounts(Step(s, es[0]), es[1..]);
    }
  }
}
