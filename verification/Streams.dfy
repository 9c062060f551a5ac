/**
 What the V3 router socket does with each incoming message, as functions on values: the
 specification of the classes in RouterSocketV3.dfy and the step function of its runs.
 */
module Streams {
  import opened Wrappers
  import opened Utf8
  import opened Frames
  import FlowControl

  // ---- unbounded channels ----

  datatype Item<T> = Ok(value: T) | Err

  /** Everything ever put on a channel, in order, and whether it is closed. */
  datatype Chan<T> = Chan(items: seq<Item<T>>, closed: bool)

  function Put<T>(ch: Chan<T>, item: Item<T>): Chan<T> {
    if ch.closed then ch else ch.(items := ch.items + [item])
  }

  function Close<T>(ch: Chan<T>): Chan<T> {
    ch.(closed := true)
  }

  /** The total length of the body chunks on a channel. */
  function OkBytes(items: seq<Item<seq<Byte>>>): nat {
    if items == [] then 0
    else
      var last := items[|items| - 1];
      OkBytes(items[..|items| - 1]) + if last.Ok? then |last.value| else 0
  }

  lemma OkBytesPut(ch: Chan<seq<Byte>>, item: Item<seq<Byte>>)
    requires !ch.closed
    ensures OkBytes(Put(ch, item).items) == OkBytes(ch.items) + if item.Ok? then |item.value| else 0
  {
    assert (ch.items + [item])[..|ch.items|] == ch.items;
  }

  // ---- one request ----

  /** The upload side of a request. */
  datatype Flow = Flow(
    pending: int,
    acked: int,
    writable: bool,
    queue: seq<nat>,            // callbacks of parked senders
    woken: seq<nat>             // callbacks released by write_it_maybe
  )

  datatype Ctx = Ctx(
    id: I32,
    canRespond: bool,           // is_tgt_can_send_res_now_according_to_rfc2616
    fromClient: nat,
    toClient: nat,
    header: Chan<string>,       // tgt_res_hdr
    body: Chan<seq<Byte>>,      // tgt_res_bdy
    builder: string,            // header_line_builder
    bodyFrames: nat,            // wss_on_binary_call_count
    endStream: bool,            // is_end_stream_received_from_tgt
    rstSent: bool,
    flow: Flow
  )

  function NewCtx(id: I32): Ctx {
    Ctx(id, false, 0, 0, Chan([], false), Chan([], false), [], 0, false, false, Flow(0, 0, true, [], []))
  }

  function PutErr(c: Ctx): Ctx {
    c.(header := Put(c.header, Err), body := Put(c.body, Err))
  }

  /** `notify_client_request_close`, without the removal it spawns */
  function NotifyClose(c: Ctx, code: int): Ctx {
    var c1 := if c.canRespond && c.fromClient == 0 && (code == 1011 || code == 1008) then PutErr(c) else c;
    if c1.header.closed && c1.body.closed then c1
    else
      var c2 := if code == 1000 then c1 else PutErr(c1);
      c2.(header := Close(c2.header), body := Close(c2.body))
  }

  /** `notify_client_request_error`, without the removal it spawns */
  function NotifyError(c: Ctx): Ctx {
    PutErr(c)
  }

  /** `write_it_maybe` when nothing else runs */
  function WriteItMaybe(f: Flow): Flow {
    if f.writable then f.(woken := f.woken + f.queue, queue := []) else f
  }

  /** `inc_rtr_to_tgt_pending_ack_bytes` */
  function IncPending(f: Flow, n: int): Flow {
    f.(pending := f.pending + n, writable := f.writable && f.pending + n <= FlowControl.WATER_MARK_HIGH)
  }

  /** `target_connector_ack_bytes` */
  function AckBytes(f: Flow, n: int): Flow {
    var f1 := f.(acked := f.acked + n, pending := f.pending - n);
    if f1.pending < FlowControl.WATER_MARK_LOW && !f1.writable then WriteItMaybe(f1.(writable := true)) else f1
  }

  /** What handling one frame does: the request, the frames sent back, and the side effects. */
  datatype Outcome = Outcome(
    ctx: Ctx,
    sent: seq<seq<Byte>>,
    ok: bool,
    removal: bool               // removal of the request is scheduled
  )

  /** The part of `handle_data` that hands a non-empty chunk on. */
  function ForwardBody(c: Ctx, end: bool, payload: seq<Byte>, open: bool): (o: Outcome)
    ensures o.ctx.id == c.id
  {
    var c1 := c.(bodyFrames := c.bodyFrames + 1);
    if c1.body.closed then Outcome(c1, [], false, false)
    else
      var c2 := c1.(body := Put(c1.body, Ok(payload)));
      var c3 := if end then NotifyClose(c2, 1000) else c2;
      Outcome(c3.(toClient := c3.toClient + |payload|),
              if open then [WindowUpdateMessage(c.id, AsI32(|payload|))] else [], true, end)
  }

  function HandleData(c: Ctx, flags: Byte, payload: seq<Byte>, open: bool): (o: Outcome)
    ensures o.ctx.id == c.id
  {
    if !c.canRespond then Outcome(c, [], false, false)
    else
      var end := EndsStream(flags);
      var c1 := c.(endStream := c.endStream || end);
      if payload == [] then
        Outcome(if end then NotifyClose(c1, 1000) else c1, [], true, end)
      else ForwardBody(c1, end, payload, open)
  }

  function HandleHeader(c: Ctx, flags: Byte, payload: seq<Byte>, open: bool): (o: Outcome)
    ensures o.ctx.id == c.id
  {
    if !c.canRespond then Outcome(c, [], false, false)
    else
      var end := EndsStream(flags);
      var c1 := c.(endStream := c.endStream || end);
      var text := Decode(payload);
      if |payload| >= 0x8000_0000 || text.None? then Outcome(c1, [], false, false)
      else
        var c2 := c1.(builder := c1.builder + text.value);
        if EndsHeader(flags) && c2.header.closed then Outcome(c2, [], false, false)
        else
          var c3 := if EndsHeader(flags) then c2.(header := Put(c2.header, Ok(c2.builder))) else c2;
          var c4 := if end then NotifyClose(c3, 1000) else c3;
          Outcome(c4, if open then [WindowUpdateMessage(c.id, |payload|)] else [], open, end)
  }

  /** One frame for a known request; a short window update is dealt with by `OnBinary`. */
  function Dispatch(c: Ctx, ty: Byte, flags: Byte, payload: seq<Byte>, open: bool): (o: Outcome)
    ensures o.ctx.id == c.id
  {
    if ty == MESSAGE_TYPE_DATA then HandleData(c, flags, payload, open)
    else if ty == MESSAGE_TYPE_HEADER then HandleHeader(c, flags, payload, open)
    else if ty == MESSAGE_TYPE_RST_STREAM then Outcome(NotifyError(c), [], true, true)
    else if ty == MESSAGE_TYPE_WINDOW_UPDATE && |payload| >= 4 then
      Outcome(c.(flow := AckBytes(c.flow, GetI32(payload))), [], true, false)
    else Outcome(c, [], true, false)
  }

  const GOING_AWAY := "Going away"

  /** `reset_stream`: the reset frame goes out once per request. */
  function ResetFrames(c: Ctx, code: I32, open: bool): seq<seq<Byte>> {
    if !c.rstSent && open then [RstMessage(c.id, code, GOING_AWAY)] else []
  }

  lemma ErrorKeepsReset(c: Ctx, code: I32, open: bool)
    ensures ResetFrames(NotifyError(c), code, open) == ResetFrames(c, code, open)
  {
  }

  /** `reset_stream` with code 1001 */
  function Reset(c: Ctx, open: bool): (o: Outcome)
    ensures o.ctx.id == c.id
  {
    Outcome(c.(rstSent := true), ResetFrames(c, 1001, open), true, true)
  }

  /** After an error the client is told and the stream is reset. */
  function Settle(o: Outcome, open: bool): (o': Outcome)
    ensures o'.ctx.id == o.ctx.id
  {
    if o.ok then o
    else
      o.(ctx := NotifyError(o.ctx).(rstSent := true),
         sent := o.sent + ResetFrames(o.ctx, 1001, open),
         removal := true)
  }

  // ---- the socket ----

  datatype Socket = Socket(
    ctxs: map<I32, Ctx>,        // every request ever started
    live: set<I32>,             // the keys of context_map
    removing: set<I32>,         // removals spawned and not yet run
    out: seq<seq<Byte>>,        // everything put on the outgoing queue
    outOpen: bool,
    removed: bool,
    receiving: bool             // the receive loop is alive
  )

  ghost predicate Valid(s: Socket) {
    && s.live <= s.ctxs.Keys
    && (forall r :: r in s.ctxs ==> s.ctxs[r].id == r)
  }

  function Apply(s: Socket, id: I32, o: Outcome): (s': Socket)
    requires Valid(s) && id in s.live && o.ctx.id == id
    ensures Valid(s')
  {
    s.(ctxs := s.ctxs[id := o.ctx],
       out := s.out + o.sent,
       removing := s.removing + (if o.removal then {id} else {}))
  }

  function OnBinary(s: Socket, bs: seq<Byte>): (s': Socket)
    requires Valid(s)
    ensures Valid(s')
  {
    var p := Parse(bs);
    if !s.receiving || p.TooShort? || p.id !in s.live then s
    else if p.ty == MESSAGE_TYPE_WINDOW_UPDATE && |p.payload| < 4 then
      s.(receiving := false)    // Bytes::get_i32 panics
    else
      Apply(s, p.id, Settle(Dispatch(s.ctxs[p.id], p.ty, p.flags, p.payload, s.outOpen), s.outOpen))
  }

  /**
   `on_close`, which the receive loop calls: nothing is closed once the loop has ended. The
   code is 4000 when the close frame is missing.
   */
  function OnClose(s: Socket, frame: Option<int>): Socket {
    var code := if frame.Some? then frame.value else 4000;
    if !s.receiving then s
    else
      s.(ctxs := map r | r in s.ctxs :: if r in s.live then NotifyClose(s.ctxs[r], code) else s.ctxs[r],
         removing := s.removing + s.live,
         removed := true)
  }

  /** `terminate_all_conn`: every request gets the error, then context_map is emptied. */
  function Terminate(s: Socket): Socket {
    s.(ctxs := map r | r in s.ctxs :: if r in s.live then NotifyError(s.ctxs[r]) else s.ctxs[r],
       removing := s.removing + s.live,
       live := {})
  }

  /** `on_client_req` up to the insertion into context_map; a removed socket refuses. */
  function StartRequest(s: Socket, id: I32): Socket {
    if s.removed || id in s.ctxs then s
    else s.(ctxs := s.ctxs[id := NewCtx(id)], live := s.live + {id})
  }

  function Update(s: Socket, id: I32, c: Ctx): Socket {
    s.(ctxs := s.ctxs[id := c])
  }

  /** The sender reports an error unless the response is complete; its context may be out of the table. */
  function FailSender(s: Socket, id: I32): (s': Socket)
    requires Valid(s)
    ensures Valid(s')
  {
    if id !in s.ctxs || s.ctxs[id].endStream then s
    else Update(s, id, NotifyError(s.ctxs[id])).(removing := s.removing + {id})
  }

  /** What follows the end of the body stream: an unfinished response is reset. */
  function ResetByClient(s: Socket, id: I32): (s': Socket)
    requires Valid(s)
    ensures Valid(s')
  {
    if id !in s.live || s.ctxs[id].endStream then s
    else Apply(s, id, Reset(s.ctxs[id], s.outOpen))
  }

  datatype Event =
    | Binary(bs: seq<Byte>)
    | Removal(id: I32)            // spawned by try_spawn_remove_req_ctx
    | Start(id: I32)
    | AllowResponse(id: I32)      // the sender is about to send its first header frame
    | Uploaded(id: I32, n: nat)   // the sender counted and queued n bytes
    | Parks(id: I32)              // the sender queued a callback and called write_it_maybe
    | SenderFailed(id: I32)       // sending the request failed
    | ClientGone(id: I32)         // the client stopped reading the response body
    | CloseFrame(frame: Option<int>)
    | TerminateAll
    | OutgoingClosed

  function Step(s: Socket, e: Event): (s': Socket)
    requires Valid(s)
    ensures Valid(s')
  {
    match e
    case Binary(bs) => OnBinary(s, bs)
    case Removal(id) =>
      if id in s.removing then s.(live := s.live - {id}, removing := s.removing - {id}) else s
    case Start(id) => StartRequest(s, id)
    case AllowResponse(id) =>
      if id in s.ctxs then Update(s, id, s.ctxs[id].(canRespond := true)) else s
    case Uploaded(id, n) =>
      if id in s.ctxs then
        Update(s, id, s.ctxs[id].(flow := IncPending(s.ctxs[id].flow, n), fromClient := s.ctxs[id].fromClient + n))
      else s
    case Parks(id) =>
      if id in s.ctxs then
        var f := s.ctxs[id].flow;
        Update(s, id, s.ctxs[id].(flow := WriteItMaybe(f.(queue := f.queue + [|f.queue| + |f.woken|]))))
      else s
    case SenderFailed(id) => FailSender(s, id)
    case ClientGone(id) => ResetByClient(s, id)
    case CloseFrame(frame) => OnClose(s, frame)
    case TerminateAll => Terminate(s)
    case OutgoingClosed => s.(outOpen := false)
  }

  function Run(s: Socket, es: seq<Event>): (s': Socket)
    requires Valid(s)
    ensures Valid(s')
    decreases |es|
  {
    if es == [] then s else Run(Step(s, es[0]), es[1..])
  }

  lemma {:induction false} RunConcat(s: Socket, es: seq<Event>, fs: seq<Event>)
    requires Valid(s)
    ensures Run(s, es + fs) == Run(Run(s, es), fs)
    decreases |es|
  {
    if es == [] {
      assert es + fs == fs;
    } else {
      assert (es + fs)[1..] == es[1..] + fs;
      RunConcat(Step(s, es[0]), es[1..], fs);
    }
  }
}
