/**
 What each event of a V3 socket does to a request, read off the bytes of the frames and written
 out on the items of its channels; and what that adds up to over whole runs.
 */
module StreamEffects {
  import opened Wrappers
  import opened Utf8
  import opened Frames
  import opened Streams
  import opened Demux

  /** `bs` is a frame of type `ty` for request `r`, which the receive loop hands to it. */
  ghost predicate Arrives(s: Socket, bs: seq<Byte>, ty: Byte, r: I32) {
    Valid(s) && s.receiving && r in s.live && |bs| >= 6 && bs[0] == ty && GetI32(bs[2..6]) == r
  }

  lemma ParsesAs(bs: seq<Byte>)
    requires |bs| >= 6
    ensures Parse(bs) == Parsed(bs[0], bs[1], GetI32(bs[2..6]), bs[6..])
  {
  }

  /** An open channel gets these items and is then closed or not; a closed one stays as it is. */
  ghost function Heard<T>(ch: Chan<T>, more: seq<Item<T>>, close: bool): Chan<T> {
    if ch.closed then ch else Chan(ch.items + more, close)
  }

  // ---------------------------------------------------------------------------------------
  // Acknowledgements
  // ---------------------------------------------------------------------------------------

  /** The bytes of request `r` that one event acknowledges. */
  ghost function AckOf(s: Socket, e: Event, r: I32): int {
    if e.Binary? && Arrives(s, e.bs, 8, r) && |e.bs| >= 10 then GetI32(e.bs[6..10]) else 0
  }

  /** The bytes that it adds to the upload of `r`. */
  ghost function UploadOf(s: Socket, e: Event, r: I32): int {
    if e.Uploaded? && e.id == r && r in s.ctxs then e.n else 0
  }

  ghost function AckedIn(s: Socket, es: seq<Event>, r: I32): int
    requires Valid(s)
    decreases |es|
  {
    if es == [] then 0 else AckOf(s, es[0], r) + AckedIn(Step(s, es[0]), es[1..], r)
  }

  ghost function UploadedIn(s: Socket, es: seq<Event>, r: I32): int
    requires Valid(s)
    decreases |es|
  {
    if es == [] then 0 else UploadOf(s, es[0], r) + UploadedIn(Step(s, es[0]), es[1..], r)
  }

  /** The upload side of `r`; before the request starts it is that of a new one. */
  ghost function FlowOf(s: Socket, r: I32): Flow {
    if r in s.ctxs then s.ctxs[r].flow else Flow(0, 0, true, [], [])
  }

  /** Frames other than window updates leave the upload side alone. */
  lemma OtherFramesKeepFlow(c: Ctx, ty: Byte, flags: Byte, payload: seq<Byte>, open: bool)
    requires ty != MESSAGE_TYPE_WINDOW_UPDATE || |payload| < 4
    ensures Settle(Dispatch(c, ty, flags, payload, open), open).ctx.flow == c.flow
  {
    hide Decode, AckBytes, WindowUpdateMessage, RstMessage, EndsStream, EndsHeader, GetI32, NotifyClose;
    forall d: Ctx
      ensures NotifyClose(d, 1000).flow == d.flow
    {
      CloseKeepsFlow(d, 1000);
    }
  }

  /** What an acknowledgement of `n` bytes does to the upload side. */
  ghost predicate Acknowledged(f: Flow, f': Flow, n: int) {
    && f'.acked == f.acked + n && f'.pending == f.pending - n
    && (!f.writable && f.pending - n < 16384 ==>
          f'.writable && f'.queue == [] && f'.woken == f.woken + f.queue)
    && (f.writable || f.pending - n >= 16384 ==>
          f'.writable == f.writable && f'.queue == f.queue && f'.woken == f.woken)
  }

  lemma UpdateAcknowledges(c: Ctx, flags: Byte, payload: seq<Byte>, open: bool)
    requires |payload| >= 4
    ensures var c' := Settle(Dispatch(c, 8, flags, payload, open), open).ctx;
      Acknowledged(c.flow, c'.flow, GetI32(payload)) && c' == c.(flow := c'.flow)
  {
    hide GetI32;
  }

  /**
   A window update of at least four bytes acknowledges the bytes it names. If that brings an
   unwritable stream below 16 KiB, all waiting callbacks are released, in order.
   */
  lemma WindowUpdateExactly(s: Socket, bs: seq<Byte>, r: I32)
    requires Arrives(s, bs, 8, r) && |bs| >= 10
    ensures var s' := Step(s, Binary(bs));
      && s' == s.(ctxs := s.ctxs[r := s.ctxs[r].(flow := FlowOf(s', r))])
      && Acknowledged(s.ctxs[r].flow, FlowOf(s', r), GetI32(bs[6..10]))
  {
    ParsesAs(bs);
    assert GetI32(bs[6..10]) == GetI32(bs[6..]);
    UpdateAcknowledges(s.ctxs[r], bs[1], bs[6..], s.outOpen);
    hide Parse, GetI32, Settle, AckBytes;
    assert s.out + [] == s.out && s.removing + {} == s.removing;
  }

  /** What each event does to the upload side of `r`. */
  ghost predicate FlowStep(f: Flow, f': Flow, acked: int, uploaded: int) {
    f'.acked == f.acked + acked && f'.pending == f.pending + uploaded - acked
  }

  lemma BinaryFlow(s: Socket, bs: seq<Byte>, r: I32)
    requires Valid(s)
    ensures FlowStep(FlowOf(s, r), FlowOf(OnBinary(s, bs), r), AckOf(s, Binary(bs), r), 0)
    ensures !(Arrives(s, bs, 8, r) && |bs| >= 10) ==> FlowOf(OnBinary(s, bs), r) == FlowOf(s, r)
  {
    if Arrives(s, bs, 8, r) && |bs| >= 10 {
      WindowUpdateExactly(s, bs, r);
      hide OnBinary, GetI32;
    } else {
      var p := Parse(bs);
      if p.Parsed? { ParsesAs(bs); }
      hide Parse, GetI32, Dispatch, Settle;
      if p.Parsed? && p.id == r && r in s.live && !(p.ty == MESSAGE_TYPE_WINDOW_UPDATE && |p.payload| >= 4) {
        OtherFramesKeepFlow(s.ctxs[r], p.ty, p.flags, p.payload, s.outOpen);
      }
    }
  }

  lemma CloseKeepsFlow(c: Ctx, code: int)
    ensures NotifyClose(c, code).flow == c.flow && NotifyError(c).flow == c.flow
  {
  }

  /** Events that neither bring a frame nor come from the sender of `r` leave its upload side alone. */
  lemma OtherEventsKeepFlow(s: Socket, e: Event, r: I32)
    requires Valid(s) && !e.Binary? && !((e.Uploaded? || e.Parks?) && e.id == r)
    ensures FlowOf(Step(s, e), r) == FlowOf(s, r)
  {
    hide OnBinary, NotifyClose, NotifyError, WriteItMaybe, IncPending, ResetFrames;
    match e
    case CloseFrame(frame) =>
      if r in s.ctxs { CloseKeepsFlow(s.ctxs[r], if frame.Some? then frame.value else 4000); }
    case TerminateAll => if r in s.ctxs { CloseKeepsFlow(s.ctxs[r], 0); }
    case SenderFailed(id) => if id in s.ctxs { CloseKeepsFlow(s.ctxs[id], 0); }
    case _ =>
  }

  lemma StepFlow(s: Socket, e: Event, r: I32)
    requires Valid(s)
    ensures FlowStep(FlowOf(s, r), FlowOf(Step(s, e), r), AckOf(s, e, r), UploadOf(s, e, r))
  {
    hide OnBinary, GetI32, OnClose, Terminate, FailSender, ResetByClient;
    if e.Binary? {
      BinaryFlow(s, e.bs, r);
    } else if !((e.Uploaded? || e.Parks?) && e.id == r) {
      hide Step;
      OtherEventsKeepFlow(s, e, r);
    }
  }

  /**
   In every run the bytes acknowledged for a request are those its window updates name, and the
   bytes pending are those uploaded less those acknowledged, whatever other requests do.
   */
  lemma {:induction false} UploadExactly(s: Socket, es: seq<Event>, r: I32)
    requires Valid(s)
    ensures FlowStep(FlowOf(s, r), FlowOf(Run(s, es), r), AckedIn(s, es, r), UploadedIn(s, es, r))
    decreases |es|
  {
    hide Step, AckOf, UploadOf, FlowOf;
    if es != [] {
      StepFlow(s, es[0], r);
      UploadExactly(Step(s, es[0]), es[1..], r);
    }
  }

  /** The sender's own events: bytes it counts, and a callback it queues when it has to wait. */
  lemma SenderExactly(s: Socket, r: I32, n: nat)
    requires Valid(s) && r in s.ctxs
    ensures var f, f' := s.ctxs[r].flow, FlowOf(Step(s, Uploaded(r, n)), r);
      f' == f.(pending := f.pending + n, writable := f.writable && f.pending + n <= 65536)
    ensures var f, f' := s.ctxs[r].flow, FlowOf(Step(s, Parks(r)), r);
      var cb := |f.queue| + |f.woken|;
      f' == if f.writable then f.(queue := [], woken := f.woken + (f.queue + [cb])) else f.(queue := f.queue + [cb])
    ensures Step(s, Uploaded(r, n)).ctxs[r].fromClient == s.ctxs[r].fromClient + n
  {
  }

  /** On a writable stream nobody waits, and callbacks are released once each, in the order they came. */
  ghost predicate CallbacksOk(f: Flow) {
    (f.writable ==> f.queue == []) && f.woken + f.queue == seq(|f.woken| + |f.queue|, i => i)
  }

  lemma AcknowledgedCallbacks(f: Flow, f': Flow, n: int)
    requires Acknowledged(f, f', n) && CallbacksOk(f)
    ensures CallbacksOk(f')
  {
    if !f.writable && f.pending - n < 16384 { assert f'.woken + f'.queue == f.woken + f.queue; }
  }

  lemma ParksCallbacks(f: Flow)
    requires CallbacksOk(f)
    ensures var cb := |f.queue| + |f.woken|;
      CallbacksOk(f.(queue := [], woken := f.woken + (f.queue + [cb])))
      && (!f.writable ==> CallbacksOk(f.(queue := f.queue + [cb])))
  {
    var cb := |f.queue| + |f.woken|;
    assert f.woken + (f.queue + [cb]) == (f.woken + f.queue) + [cb];
    assert f.woken + (f.queue + [cb]) + [] == f.woken + (f.queue + [cb]);
  }

  lemma BinaryCallbacks(s: Socket, bs: seq<Byte>, r: I32)
    requires Valid(s) && CallbacksOk(FlowOf(s, r))
    ensures CallbacksOk(FlowOf(OnBinary(s, bs), r))
  {
    BinaryFlow(s, bs, r);
    if Arrives(s, bs, 8, r) && |bs| >= 10 {
      WindowUpdateExactly(s, bs, r);
      AcknowledgedCallbacks(s.ctxs[r].flow, FlowOf(OnBinary(s, bs), r), GetI32(bs[6..10]));
    }
    hide OnBinary, GetI32, CallbacksOk, Acknowledged;
  }

  lemma SenderCallbacks(s: Socket, r: I32, n: nat)
    requires Valid(s) && CallbacksOk(FlowOf(s, r))
    ensures CallbacksOk(FlowOf(Step(s, Uploaded(r, n)), r)) && CallbacksOk(FlowOf(Step(s, Parks(r)), r))
  {
    if r in s.ctxs {
      SenderExactly(s, r, n);
      ParksCallbacks(s.ctxs[r].flow);
      hide Step;
    }
  }

  lemma StepCallbacks(s: Socket, e: Event, r: I32)
    requires Valid(s) && CallbacksOk(FlowOf(s, r))
    ensures CallbacksOk(FlowOf(Step(s, e), r))
  {
    hide OnBinary, CallbacksOk;
    if e.Binary? {
      BinaryCallbacks(s, e.bs, r);
    } else {
      hide Step;
      if (e.Uploaded? || e.Parks?) && e.id == r {
        SenderCallbacks(s, r, if e.Uploaded? then e.n else 0);
      } else {
        OtherEventsKeepFlow(s, e, r);
      }
    }
  }

  /** So it is in every run: no callback is forgotten, released twice or out of turn. */
  lemma {:induction false} CallbacksInOrder(s: Socket, es: seq<Event>, r: I32)
    requires Valid(s) && CallbacksOk(FlowOf(s, r))
    ensures CallbacksOk(FlowOf(Run(s, es), r))
    decreases |es|
  {
    hide Step, CallbacksOk, FlowOf;
    if es != [] {
      StepCallbacks(s, es[0], r);
      CallbacksInOrder(Step(s, es[0]), es[1..], r);
    }
  }

  // ---------------------------------------------------------------------------------------
  // What the client hears
  // ---------------------------------------------------------------------------------------

  /** Both channels of the client, if open, get an error and stay open. */
  ghost predicate HearsError(c: Ctx, c': Ctx) {
    c'.header == Heard(c.header, [Err], false) && c'.body == Heard(c.body, [Err], false)
  }

  /** The frame that resets the stream of `r`: code 1001, "Going away". */
  ghost function ResetSent(c: Ctx, r: I32, open: bool): seq<seq<Byte>> {
    if !c.rstSent && open then [[3, 0] + PutI32(r) + (PutI32(1001) + Encode("Going away"))] else []
  }

  /** RST_STREAM from the connector: the client hears an error, and the request is to be removed. */
  lemma ResetFrameExactly(s: Socket, bs: seq<Byte>, r: I32)
    requires Arrives(s, bs, 3, r)
    ensures var s' := Step(s, Binary(bs));
      && r in s'.ctxs && HearsError(s.ctxs[r], s'.ctxs[r])
      && s' == s.(ctxs := s.ctxs[r := s.ctxs[r].(header := s'.ctxs[r].header, body := s'.ctxs[r].body)],
                  removing := s.removing + {r})
  {
    ParsesAs(bs);
    hide Parse, GetI32;
    assert s.out + [] == s.out;
  }

  /** `terminate_all_conn`: every client hears an error and no request is left. */
  lemma TerminateExactly(s: Socket, r: I32)
    requires Valid(s) && r in s.ctxs
    ensures var s' := Step(s, TerminateAll);
      && r in s'.ctxs && s'.live == {} && s'.removing == s.removing + s.live
      && (r in s.live ==> HearsError(s.ctxs[r], s'.ctxs[r]))
      && (r !in s.live ==> s'.ctxs[r] == s.ctxs[r])
  {
  }

  /** A failed sender: the client hears an error unless the response has ended. */
  lemma SenderFailureExactly(s: Socket, r: I32)
    requires Valid(s) && r in s.ctxs
    ensures var s' := Step(s, SenderFailed(r));
      if s.ctxs[r].endStream then s' == s
      else r in s'.ctxs && HearsError(s.ctxs[r], s'.ctxs[r]) && r in s'.removing && s'.live == s.live
  {
  }

  /** A client that goes away before the response has ended: the connector is told, once. */
  lemma ClientGoneExactly(s: Socket, r: I32)
    requires Valid(s) && r in s.ctxs
    ensures var s' := Step(s, ClientGone(r));
      if s.ctxs[r].endStream || r !in s.live then s' == s
      else && s'.out == s.out + ResetSent(s.ctxs[r], r, s.outOpen) && r in s'.removing
           && s'.ctxs == s.ctxs[r := s.ctxs[r].(rstSent := true)]
  {
  }

  /** A frame that is handed to the request changes it, the outgoing queue and the removals. */
  lemma FrameApplies(s: Socket, bs: seq<Byte>, ty: Byte, r: I32)
    requires Arrives(s, bs, ty, r) && ty != 8
    ensures var o, s' := Settle(Dispatch(s.ctxs[r], ty, bs[1], bs[6..], s.outOpen), s.outOpen), Step(s, Binary(bs));
      && s'.ctxs == s.ctxs[r := o.ctx] && s'.out == s.out + o.sent
      && s'.removing == (if o.removal then s.removing + {r} else s.removing)
  {
    ParsesAs(bs);
    hide Parse, GetI32, Settle, Dispatch;
  }

  /** A frame that could not be handled: the client hears an error and the stream is reset. */
  ghost predicate Refused(c: Ctx, o: Outcome, open: bool) {
    HearsError(c, o.ctx) && o.ctx.rstSent && o.removal && o.sent == ResetSent(c, c.id, open)
  }

  /** Taken from a frame: these items, and the credit for `n` bytes. */
  ghost predicate Taken(c: Ctx, o: Outcome, header: seq<Item<string>>, body: seq<Item<seq<Byte>>>, end: bool) {
    && o.ctx.header == Heard(c.header, header, end) && o.ctx.body == Heard(c.body, body, end)
    && o.ctx.endStream == (c.endStream || end) && o.removal == end && o.ctx.rstSent == c.rstSent
  }

  ghost function CreditSent(r: I32, n: int, open: bool): seq<seq<Byte>> {
    if open then [[8, 0] + PutI32(r) + PutI32(AsI32(n))] else []
  }

  lemma SettleRefused(c: Ctx, o: Outcome, open: bool)
    requires !o.ok && o.ctx.header == c.header && o.ctx.body == c.body && o.sent == []
    requires o.ctx.rstSent == c.rstSent && o.ctx.id == c.id
    ensures Refused(c, Settle(o, open), open) && Settle(o, open).ctx.toClient == o.ctx.toClient
    ensures Settle(o, open).ctx.builder == o.ctx.builder
  {
    hide PutI32, Encode;
  }

  lemma DataTaken(c: Ctx, flags: Byte, payload: seq<Byte>, open: bool)
    requires c.canRespond && (payload == [] || !c.body.closed)
    ensures var o, end := Dispatch(c, 0, flags, payload, open), flags % 2 == 1;
      && o.ok && Taken(c, o, [], if payload == [] then [] else [Ok(payload)], end)
      && o.ctx.toClient == c.toClient + |payload|
      && o.sent == if payload == [] then [] else CreditSent(c.id, |payload|, open)
  {
    hide PutI32, AsI32;
    assert c.header.items + [] == c.header.items && c.body.items + [] == c.body.items;
  }

  lemma DataOutcome(c: Ctx, flags: Byte, payload: seq<Byte>, open: bool)
    ensures var o, end := Settle(Dispatch(c, 0, flags, payload, open), open), flags % 2 == 1;
      if !c.canRespond || (payload != [] && c.body.closed) then
        Refused(c, o, open) && o.ctx.toClient == c.toClient
      else
        && Taken(c, o, [], if payload == [] then [] else [Ok(payload)], end)
        && o.ctx.toClient == c.toClient + |payload|
        && o.sent == if payload == [] then [] else CreditSent(c.id, |payload|, open)
  {
    hide Refused, Taken, CreditSent, PutI32, AsI32;
    if !c.canRespond || (payload != [] && c.body.closed) {
      SettleRefused(c, Dispatch(c, 0, flags, payload, open), open);
    } else {
      DataTaken(c, flags, payload, open);
    }
  }

  /**
   A data frame. It is refused before the response may start, and when it has bytes and the body
   is closed. Otherwise its bytes are the next item of the body and are credited to the connector,
   and END_STREAM closes both channels.
   */
  lemma DataFrameExactly(s: Socket, bs: seq<Byte>, r: I32)
    requires Arrives(s, bs, 0, r)
    ensures var s', c, payload, end := Step(s, Binary(bs)), s.ctxs[r], bs[6..], bs[1] % 2 == 1;
      && r in s'.ctxs
      && var c' := s'.ctxs[r];
      if !c.canRespond || (payload != [] && c.body.closed) then
        && HearsError(c, c') && c'.toClient == c.toClient
        && r in s'.removing && s'.out == s.out + ResetSent(c, r, s.outOpen)
      else
        && c'.header == Heard(c.header, [], end)
        && c'.body == Heard(c.body, if payload == [] then [] else [Ok(payload)], end)
        && c'.toClient == c.toClient + |payload| && (end ==> c'.endStream && r in s'.removing)
        && s'.out == s.out + if payload == [] then [] else CreditSent(r, |payload|, s.outOpen)
  {
    FrameApplies(s, bs, 0, r);
    DataOutcome(s.ctxs[r], bs[1], bs[6..], s.outOpen);
    hide Step, Settle, Dispatch, GetI32, HearsError, ResetSent, CreditSent, Heard;
  }

  /** A normal end closes both channels and adds nothing. */
  lemma ClosesQuietly(c: Ctx)
    ensures var c' := NotifyClose(c, 1000);
      && c'.header == Heard(c.header, [], true) && c'.body == Heard(c.body, [], true)
      && c' == c.(header := c'.header, body := c'.body)
  {
    assert c.header.items + [] == c.header.items && c.body.items + [] == c.body.items;
  }

  /** The request with the text of a header frame collected, and handed on if `endHeader`. */
  ghost function WithText(c: Ctx, text: string, endHeader: bool, end: bool): Ctx {
    c.(endStream := c.endStream || end, builder := c.builder + text,
       header := if endHeader then Chan(c.header.items + [Ok(c.builder + text)], c.header.closed) else c.header)
  }

  lemma HeaderForm(c: Ctx, flags: Byte, payload: seq<Byte>, open: bool)
    requires c.canRespond && |payload| < 0x8000_0000 && Decode(payload).Some?
    requires flags / 4 % 2 == 1 ==> !c.header.closed
    ensures var o := Dispatch(c, 1, flags, payload, open);
      var c1 := WithText(c, Decode(payload).value, flags / 4 % 2 == 1, flags % 2 == 1);
      && o.ctx == (if flags % 2 == 1 then NotifyClose(c1, 1000) else c1)
      && o.ok == open && o.removal == (flags % 2 == 1) && o.sent == CreditSent(c.id, |payload|, open)
  {
    hide PutI32, Decode, NotifyClose, AckBytes, GetI32, HandleData, NotifyError;
  }

  lemma TextTaken(c: Ctx, text: string, endHeader: bool, end: bool)
    requires endHeader ==> !c.header.closed
    ensures var c1 := WithText(c, text, endHeader, end);
      var c2 := if end then NotifyClose(c1, 1000) else c1;
      && c2.header == Heard(c.header, if endHeader then [Ok(c.builder + text)] else [], end)
      && c2.body == Heard(c.body, [], end) && c2.endStream == (c.endStream || end) && c2.rstSent == c.rstSent
      && c2.builder == c.builder + text && c2.id == c.id && c2.toClient == c.toClient
  {
    hide NotifyClose;
    var c1 := WithText(c, text, endHeader, end);
    ClosesQuietly(c1);
    assert c.header.items + [] == c.header.items && c.body.items + [] == c.body.items;
    assert c1.header.items + [] == c1.header.items;
  }

  lemma HeaderTaken(c: Ctx, flags: Byte, payload: seq<Byte>, open: bool)
    requires c.canRespond && |payload| < 0x8000_0000 && Decode(payload).Some?
    requires flags / 4 % 2 == 1 ==> !c.header.closed
    ensures var o, text := Dispatch(c, 1, flags, payload, open), c.builder + Decode(payload).value;
      && o.ok == open && o.ctx.builder == text && o.sent == CreditSent(c.id, |payload|, open)
      && Taken(c, o, if flags / 4 % 2 == 1 then [Ok(text)] else [], [], flags % 2 == 1)
      && o.ctx.id == c.id && o.ctx.toClient == c.toClient
  {
    hide Dispatch, Decode, NotifyClose, WithText, CreditSent, Heard;
    HeaderForm(c, flags, payload, open);
    TextTaken(c, Decode(payload).value, flags / 4 % 2 == 1, flags % 2 == 1);
  }

  lemma HeaderRefused(c: Ctx, flags: Byte, payload: seq<Byte>, open: bool)
    requires
      || !c.canRespond || |payload| >= 0x8000_0000 || Decode(payload).None?
      || (flags / 4 % 2 == 1 && c.header.closed)
    ensures Refused(c, Settle(Dispatch(c, 1, flags, payload, open), open), open)
  {
    hide Refused, PutI32, Decode;
    SettleRefused(c, Dispatch(c, 1, flags, payload, open), open);
  }

  /**
   A header frame. It is refused before the response may start, when it is not UTF-8 text, and
   when it ends a header that was closed. Otherwise its text is added to what was collected;
   END_HEADER hands the whole on, END_STREAM closes both channels, and the bytes are credited.
   */
  lemma HeaderFrameExactly(s: Socket, bs: seq<Byte>, r: I32)
    requires Arrives(s, bs, 1, r) && s.outOpen
    ensures var s', c, payload := Step(s, Binary(bs)), s.ctxs[r], bs[6..];
      var endHeader, end := bs[1] / 4 % 2 == 1, bs[1] % 2 == 1;
      && r in s'.ctxs
      && var c' := s'.ctxs[r];
      if !c.canRespond || |payload| >= 0x8000_0000 || Decode(payload).None? || (endHeader && c.header.closed) then
        HearsError(c, c') && r in s'.removing && s'.out == s.out + ResetSent(c, r, s.outOpen)
      else
        && c'.builder == c.builder + Decode(payload).value
        && c'.header == Heard(c.header, if endHeader then [Ok(c'.builder)] else [], end)
        && c'.body == Heard(c.body, [], end) && (end ==> c'.endStream && r in s'.removing)
        && s'.out == s.out + CreditSent(r, |payload|, true)
  {
    FrameApplies(s, bs, 1, r);
    var c, payload := s.ctxs[r], bs[6..];
    hide Step, Dispatch, GetI32, HearsError, ResetSent, CreditSent, Heard, Decode;
    if !c.canRespond || |payload| >= 0x8000_0000 || Decode(payload).None? || (bs[1] / 4 % 2 == 1 && c.header.closed) {
      HeaderRefused(c, bs[1], payload, s.outOpen);
      hide Settle;
    } else {
      HeaderTaken(c, bs[1], payload, s.outOpen);
    }
  }

  lemma TakenThenError(c: Ctx, o: Outcome, header: seq<Item<string>>, end: bool)
    requires Taken(c, o, header, [], end) && !o.ok && o.sent == []
    ensures var o' := Settle(o, false);
      && o'.ctx.header == Heard(c.header, if end then header else header + [Err], end)
      && o'.ctx.body == Heard(c.body, if end then [] else [Err], end)
      && o'.ctx.rstSent && o'.removal && o'.sent == [] && o'.ctx.builder == o.ctx.builder
  {
    assert c.header.items + header + [Err] == c.header.items + (header + [Err]);
    assert c.body.items + [] + [Err] == c.body.items + [Err];
  }

  /**
   A header frame when the outgoing queue is closed: the credit cannot be sent, which is an error
   too. What the frame delivered comes first; if END_STREAM closed the channels nothing follows.
   */
  lemma HeaderFrameWithoutCredit(s: Socket, bs: seq<Byte>, r: I32)
    requires Arrives(s, bs, 1, r) && !s.outOpen
    ensures var s', c, payload := Step(s, Binary(bs)), s.ctxs[r], bs[6..];
      var endHeader, end := bs[1] / 4 % 2 == 1, bs[1] % 2 == 1;
      && r in s'.ctxs && r in s'.removing && s'.out == s.out
      && var c' := s'.ctxs[r];
      if !c.canRespond || |payload| >= 0x8000_0000 || Decode(payload).None? || (endHeader && c.header.closed) then
        HearsError(c, c')
      else
        var delivered := if endHeader then [Ok(c.builder + Decode(payload).value)] else [];
        && c'.header == Heard(c.header, if end then delivered else delivered + [Err], end)
        && c'.body == Heard(c.body, if end then [] else [Err], end)
  {
    FrameApplies(s, bs, 1, r);
    var c, payload := s.ctxs[r], bs[6..];
    var endHeader, end := bs[1] / 4 % 2 == 1, bs[1] % 2 == 1;
    assert s.out + [] == s.out;
    hide Step, Dispatch, GetI32, HearsError, Heard, Decode, Settle;
    if !c.canRespond || |payload| >= 0x8000_0000 || Decode(payload).None? || (endHeader && c.header.closed) {
      HeaderRefused(c, bs[1], payload, false);
    } else {
      HeaderTaken(c, bs[1], payload, false);
      var delivered := if endHeader then [Ok(c.builder + Decode(payload).value)] else [];
      TakenThenError(c, Dispatch(c, 1, bs[1], payload, false), delivered, end);
    }
  }

  /** A response may not start before the request is being sent: an earlier frame is an error. */
  lemma EarlyFrameRefused(s: Socket, id: I32, bs: seq<Byte>)
    requires Valid(s) && s.receiving && !s.removed && id !in s.ctxs
    requires |bs| >= 6 && (bs[0] == 0 || bs[0] == 1) && GetI32(bs[2..6]) == id
    ensures var s1 := Step(s, Start(id));
      && Valid(s1) && id in s1.live
      && var s2 := Step(s1, Binary(bs));
      && id in s2.ctxs && s2.ctxs[id].header == Chan([Err], false) && s2.ctxs[id].body == Chan([Err], false)
      && id in s2.removing
  {
    hide GetI32;
    var s1 := Step(s, Start(id));
    var c := s1.ctxs[id];
    assert c.header.items + [Err] == [Err] && c.body.items + [Err] == [Err];
    FrameApplies(s1, bs, bs[0], id);
    if bs[0] == 0 {
      DataOutcome(c, bs[1], bs[6..], s.outOpen);
    } else {
      HeaderRefused(c, bs[1], bs[6..], s.outOpen);
    }
    hide Step, Settle, Dispatch, ResetSent;
  }

  // ---------------------------------------------------------------------------------------
  // Over runs
  // ---------------------------------------------------------------------------------------

  /** Items are added at the end, and a closed channel is left alone. */
  ghost predicate Later<T(!new)>(ch: Chan<T>, ch': Chan<T>) {
    ch.items <= ch'.items && (ch.closed ==> ch' == ch)
  }

  ghost predicate LaterCtx(c: Ctx, c': Ctx) {
    Later(c.header, c'.header) && Later(c.body, c'.body)
  }

  lemma HeardLater<T(!new)>(ch: Chan<T>, more: seq<Item<T>>, close: bool)
    ensures Later(ch, Heard(ch, more, close))
  {
  }

  lemma DataLater(c: Ctx, flags: Byte, payload: seq<Byte>, open: bool)
    ensures LaterCtx(c, Dispatch(c, 0, flags, payload, open).ctx)
  {
    if c.canRespond && (payload == [] || !c.body.closed) {
      DataTaken(c, flags, payload, open);
      HeardLater(c.header, [], flags % 2 == 1);
      HeardLater(c.body, if payload == [] then [] else [Ok(payload)], flags % 2 == 1);
      hide Dispatch, Heard, Later;
    }
  }

  lemma HeaderLater(c: Ctx, flags: Byte, payload: seq<Byte>, open: bool)
    ensures LaterCtx(c, Dispatch(c, 1, flags, payload, open).ctx)
  {
    hide Decode;
    if c.canRespond && |payload| < 0x8000_0000 && Decode(payload).Some? && (flags / 4 % 2 == 1 ==> !c.header.closed) {
      HeaderTaken(c, flags, payload, open);
      var text := c.builder + Decode(payload).value;
      HeardLater(c.header, if flags / 4 % 2 == 1 then [Ok(text)] else [], flags % 2 == 1);
      HeardLater(c.body, [], flags % 2 == 1);
      hide Dispatch, Heard, Later;
    }
  }

  lemma DispatchLater(c: Ctx, ty: Byte, flags: Byte, payload: seq<Byte>, open: bool)
    ensures LaterCtx(c, Dispatch(c, ty, flags, payload, open).ctx)
  {
    if ty == 0 {
      DataLater(c, flags, payload, open);
    } else if ty == 1 {
      HeaderLater(c, flags, payload, open);
    } else {
      hide AckBytes, GetI32, HandleData, HandleHeader;
    }
  }

  lemma FrameLater(c: Ctx, ty: Byte, flags: Byte, payload: seq<Byte>, open: bool)
    ensures LaterCtx(c, Settle(Dispatch(c, ty, flags, payload, open), open).ctx)
  {
    hide Dispatch, RstMessage;
    DispatchLater(c, ty, flags, payload, open);
  }

  lemma NotifyLater(c: Ctx, code: int)
    ensures LaterCtx(c, NotifyClose(c, code)) && LaterCtx(c, NotifyError(c))
  {
  }

  lemma BinaryLater(s: Socket, bs: seq<Byte>, r: I32)
    requires Valid(s) && r in s.ctxs
    ensures r in OnBinary(s, bs).ctxs && LaterCtx(s.ctxs[r], OnBinary(s, bs).ctxs[r])
  {
    hide Dispatch, Settle, Parse, LaterCtx;
    LaterSame(s.ctxs[r]);
    var p := Parse(bs);
    if p.Parsed? && p.id == r { FrameLater(s.ctxs[r], p.ty, p.flags, p.payload, s.outOpen); }
  }

  lemma AllLater(s: Socket, frame: Option<int>, r: I32)
    requires Valid(s) && r in s.ctxs
    ensures r in OnClose(s, frame).ctxs && LaterCtx(s.ctxs[r], OnClose(s, frame).ctxs[r])
    ensures r in Terminate(s).ctxs && LaterCtx(s.ctxs[r], Terminate(s).ctxs[r])
  {
    LaterSame(s.ctxs[r]);
    NotifyLater(s.ctxs[r], if frame.Some? then frame.value else 4000);
    hide NotifyClose, NotifyError, LaterCtx;
  }

  lemma SameLater(c: Ctx, c': Ctx)
    requires c'.header == c.header && c'.body == c.body
    ensures LaterCtx(c, c')
  {
  }

  lemma StepLater(s: Socket, e: Event, r: I32)
    requires Valid(s) && r in s.ctxs
    ensures r in Step(s, e).ctxs && LaterCtx(s.ctxs[r], Step(s, e).ctxs[r])
  {
    hide OnBinary, OnClose, Terminate, NotifyError, WriteItMaybe, IncPending, ResetFrames, LaterCtx;
    match e
    case Binary(bs) => BinaryLater(s, bs, r);
    case CloseFrame(frame) => AllLater(s, frame, r);
    case TerminateAll => AllLater(s, None, r);
    case SenderFailed(id) =>
      NotifyLater(s.ctxs[r], 0);
      LaterSame(s.ctxs[r]);
    case _ => SameLater(s.ctxs[r], Step(s, e).ctxs[r]);
  }

  /** What a client has been sent stays: no event of any request takes an item back or reopens a channel. */
  lemma {:induction false} NothingTakenBack(s: Socket, es: seq<Event>, r: I32)
    requires Valid(s) && r in s.ctxs
    ensures r in Run(s, es).ctxs && LaterCtx(s.ctxs[r], Run(s, es).ctxs[r])
    decreases |es|
  {
    hide Step, LaterCtx;
    if es == [] {
      LaterSame(s.ctxs[r]);
    } else {
      StepLater(s, es[0], r);
      var s1 := Step(s, es[0]);
      NothingTakenBack(s1, es[1..], r);
      LaterStill(s.ctxs[r], s1.ctxs[r], Run(s1, es[1..]).ctxs[r]);
    }
  }

  lemma LaterSame(c: Ctx)
    ensures LaterCtx(c, c)
  {
  }

  lemma LaterStill(a: Ctx, b: Ctx, c: Ctx)
    requires LaterCtx(a, b) && LaterCtx(b, c)
    ensures LaterCtx(a, c)
  {
  }

  /** The scheduled removal takes a request out of the table, and it never comes back. */
  lemma RemovalExactly(s: Socket, r: I32, es: seq<Event>)
    requires Valid(s) && r in s.ctxs && r in s.removing
    ensures Step(s, Removal(r)) == s.(live := s.live - {r}, removing := s.removing - {r})
    ensures r !in Run(Step(s, Removal(r)), es).live
  {
    NeverLiveAgain(Step(s, Removal(r)), es, r);
    hide Run;
  }

  lemma StepNotLive(s: Socket, e: Event, r: I32)
    requires Valid(s) && r in s.ctxs && r !in s.live
    ensures r in Step(s, e).ctxs && r !in Step(s, e).live
  {
    hide Dispatch, Settle, NotifyClose, NotifyError, WriteItMaybe, IncPending, ResetFrames, Parse;
  }

  lemma {:induction false} NeverLiveAgain(s: Socket, es: seq<Event>, r: I32)
    requires Valid(s) && r in s.ctxs && r !in s.live
    ensures r !in Run(s, es).live
    decreases |es|
  {
    hide Step;
    if es != [] {
      StepNotLive(s, es[0], r);
      NeverLiveAgain(Step(s, es[0]), es[1..], r);
    }
  }

  lemma StepSilent(s: Socket, e: Event)
    requires Valid(s) && !s.outOpen
    ensures !Step(s, e).outOpen && Step(s, e).out == s.out
  {
    hide Decode, AckBytes, WindowUpdateMessage, RstMessage, EndsStream, EndsHeader, GetI32, NotifyClose, NotifyError;
    if e.Binary? {
      BinarySilent(s, e.bs);
    } else {
      hide OnBinary;
      assert s.out + [] == s.out;
    }
  }

  lemma BinarySilent(s: Socket, bs: seq<Byte>)
    requires Valid(s) && !s.outOpen
    ensures !OnBinary(s, bs).outOpen && OnBinary(s, bs).out == s.out
  {
    hide Decode, AckBytes, WindowUpdateMessage, RstMessage, EndsStream, EndsHeader, GetI32, NotifyClose, NotifyError;
    hide Parse;
    assert s.out + [] == s.out;
  }

  lemma {:induction false} RunSilent(s: Socket, es: seq<Event>)
    requires Valid(s) && !s.outOpen
    ensures Run(s, es).out == s.out
    decreases |es|
  {
    hide Step;
    if es != [] {
      StepSilent(s, es[0]);
      RunSilent(Step(s, es[0]), es[1..]);
    }
  }

  /** Once the outgoing queue is closed nothing is sent any more. */
  lemma ClosedQueueIsSilent(s: Socket, es: seq<Event>)
    requires Valid(s)
    ensures Run(Step(s, OutgoingClosed), es).out == s.out
  {
    hide Run;
    RunSilent(Step(s, OutgoingClosed), es);
  }

  // ---- resets ----

  predicate IsReset(f: seq<Byte>, r: I32) {
    |f| >= 6 && f[0] == 3 && GetI32(f[2..6]) == r
  }

  function Resets(out: seq<seq<Byte>>, r: I32): nat {
    if out == [] then 0 else Resets(out[..|out| - 1], r) + if IsReset(out[|out| - 1], r) then 1 else 0
  }

  lemma {:induction false} ResetsConcat(a: seq<seq<Byte>>, b: seq<seq<Byte>>, r: I32)
    ensures Resets(a + b, r) == Resets(a, r) + Resets(b, r)
    decreases |b|
  {
    hide IsReset;
    if b == [] {
      assert a + b == a;
    } else {
      assert (a + b)[..|a + b| - 1] == a + b[..|b| - 1];
      ResetsConcat(a, b[..|b| - 1], r);
    }
  }

  /** How many resets of `r` have been sent and may still be sent. */
  ghost function ResetBudget(s: Socket, r: I32): nat {
    Resets(s.out, r) + if r in s.ctxs && s.ctxs[r].rstSent then 0 else 1
  }

  lemma ResetFrameIs(id: I32, code: I32, message: string, r: I32)
    ensures IsReset(RstMessage(id, code, message), r) <==> id == r
  {
    ParseFrame(MESSAGE_TYPE_RST_STREAM, 0, id, PutI32(code) + Encode(message));
    ParsesAs(RstMessage(id, code, message));
    hide PutI32, GetI32, Encode;
  }

  lemma CreditIsNoReset(id: I32, n: I32, r: I32)
    ensures !IsReset(WindowUpdateMessage(id, n), r)
  {
  }

  lemma ResetsOne(f: seq<Byte>, r: I32)
    ensures Resets([f], r) == if IsReset(f, r) then 1 else 0
  {
    hide IsReset;
    assert [f][..0] == [];
  }

  lemma NoResets(r: I32)
    ensures Resets([], r) == 0
  {
  }

  /** The frames that handling sends: a credit, or a reset that uses up the budget of its request. */
  lemma SentResets(c: Ctx, ty: Byte, flags: Byte, payload: seq<Byte>, open: bool, r: I32)
    ensures var o := Settle(Dispatch(c, ty, flags, payload, open), open);
      && (c.rstSent ==> o.ctx.rstSent)
      && Resets(o.sent, r) <= if c.id == r && !c.rstSent && o.ctx.rstSent then 1 else 0
  {
    var d := Dispatch(c, ty, flags, payload, open);
    DispatchSends(c, ty, flags, payload, open, r);
    hide Dispatch, RstMessage, IsReset, Resets;
    NoResets(r);
    ResetsConcat(d.sent, ResetFrames(d.ctx, 1001, open), r);
    ResetsOne(RstMessage(d.ctx.id, 1001, GOING_AWAY), r);
    ResetFrameIs(d.ctx.id, 1001, GOING_AWAY, r);
  }

  lemma DispatchSends(c: Ctx, ty: Byte, flags: Byte, payload: seq<Byte>, open: bool, r: I32)
    ensures var d := Dispatch(c, ty, flags, payload, open); Resets(d.sent, r) == 0 && d.ctx.rstSent == c.rstSent
  {
    hide Decode, AckBytes, WindowUpdateMessage, EndsStream, EndsHeader, GetI32, Resets, IsReset;
    NoResets(r);
    forall n: I32
      ensures Resets([WindowUpdateMessage(c.id, n)], r) == 0
    {
      ResetsOne(WindowUpdateMessage(c.id, n), r);
      CreditIsNoReset(c.id, n, r);
    }
  }

  lemma BinaryBudget(s: Socket, bs: seq<Byte>, r: I32)
    requires Valid(s)
    ensures ResetBudget(OnBinary(s, bs), r) <= ResetBudget(s, r)
  {
    hide Dispatch, Settle, Parse, Resets;
    var p := Parse(bs);
    if p.Parsed? && p.id in s.live {
      var o := Settle(Dispatch(s.ctxs[p.id], p.ty, p.flags, p.payload, s.outOpen), s.outOpen);
      SentResets(s.ctxs[p.id], p.ty, p.flags, p.payload, s.outOpen, r);
      ResetsConcat(s.out, o.sent, r);
    }
  }

  lemma GoneBudget(s: Socket, id: I32, r: I32)
    requires Valid(s)
    ensures ResetBudget(ResetByClient(s, id), r) <= ResetBudget(s, r)
  {
    hide Resets, IsReset, RstMessage;
    if id in s.live {
      NoResets(r);
      ResetsConcat(s.out, ResetFrames(s.ctxs[id], 1001, s.outOpen), r);
      ResetsOne(RstMessage(id, 1001, GOING_AWAY), r);
      ResetFrameIs(id, 1001, GOING_AWAY, r);
    }
  }

  lemma NotifyKeepsReset(c: Ctx, code: int)
    ensures NotifyClose(c, code).rstSent == c.rstSent && NotifyError(c).rstSent == c.rstSent
  {
  }

  lemma StepBudget(s: Socket, e: Event, r: I32)
    requires Valid(s)
    ensures ResetBudget(Step(s, e), r) <= ResetBudget(s, r)
  {
    hide OnBinary, ResetByClient, NotifyClose, NotifyError, WriteItMaybe, IncPending, Resets;
    match e
    case Binary(bs) => BinaryBudget(s, bs, r);
    case ClientGone(id) => GoneBudget(s, id, r);
    case CloseFrame(frame) =>
      if r in s.ctxs { NotifyKeepsReset(s.ctxs[r], if frame.Some? then frame.value else 4000); }
    case TerminateAll => if r in s.ctxs { NotifyKeepsReset(s.ctxs[r], 0); }
    case SenderFailed(id) => if id in s.ctxs { NotifyKeepsReset(s.ctxs[id], 0); }
    case _ =>
  }

  lemma {:induction false} RunBudget(s: Socket, es: seq<Event>, r: I32)
    requires Valid(s)
    ensures ResetBudget(Run(s, es), r) <= ResetBudget(s, r)
    decreases |es|
  {
    hide Step, ResetBudget;
    if es != [] {
      StepBudget(s, es[0], r);
      RunBudget(Step(s, es[0]), es[1..], r);
    }
  }

  /** In every run at most one reset frame is sent for a request, whatever fails and whoever leaves. */
  lemma ResetAtMostOnce(s: Socket, es: seq<Event>, r: I32)
    requires Valid(s) && s.out == []
    ensures Resets(Run(s, es).out, r) <= 1
  {
    RunBudget(s, es, r);
    NoResets(r);
    hide Run, Resets;
  }
}
