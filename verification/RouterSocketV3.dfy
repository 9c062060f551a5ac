/** The V3 router socket and its request contexts as objects, proved against `Streams`. */
module RouterSocketV3 {
  import opened Wrappers
  import opened Utf8
  import opened Frames
  import Streams
  import FlowControl
  import Delivery

  class RequestContext {
    const id: I32
    var canRespond: bool
    var fromClient: nat
    var toClient: nat
    var header: Streams.Chan<string>
    var body: Streams.Chan<seq<Byte>>
    var builder: string
    var bodyFrames: nat
    var endStream: bool
    var rstSent: bool
    var pending: int
    var acked: int
    var writable: bool
    var writing: bool
    var queue: seq<nat>
    var woken: seq<nat>

    ghost function Flow(): Streams.Flow
      reads this
    {
      Streams.Flow(pending, acked, writable, queue, woken)
    }

    ghost function Abs(): Streams.Ctx
      reads this
    {
      Streams.Ctx(id, canRespond, fromClient, toClient, header, body, builder, bodyFrames, endStream, rstSent, Flow())
    }

    constructor (id: I32)
      ensures this.id == id && Abs() == Streams.NewCtx(id) && !writing
    {
      this.id := id;
      canRespond, fromClient, toClient, builder, bodyFrames := false, 0, 0, [], 0;
      header, body := Streams.Chan([], false), Streams.Chan([], false);
      endStream, rstSent := false, false;
      pending, acked, writable, writing, queue, woken := 0, 0, true, false, [], [];
    }

    /** `write_it_maybe` run alone; when another call is draining it leaves the queue to that one. */
    method WriteItMaybe()
      modifies this`writing, this`queue, this`woken
      ensures writing == old(writing)
      ensures Flow() == if writing then old(Flow()) else Streams.WriteItMaybe(old(Flow()))
      decreases |queue|
    {
      if writable && queue != [] {
        if !writing {
          writing := true;
          while writable && queue != []
            invariant woken + queue == old(woken + queue)
            invariant old(queue) != [] && |queue| <= |old(queue)|
            invariant |queue| == |old(queue)| ==> queue == old(queue)
            decreases |queue|
          {
            var cb := queue[0];
            queue := queue[1..];
            woken := woken + [cb];
          }
          writing := false;
          WriteItMaybe();
        }
      }
    }

    method IncPending(n: int)
      modifies this`pending, this`writable
      ensures Flow() == Streams.IncPending(old(Flow()), n)
    {
      pending := pending + n;
      if pending > FlowControl.WATER_MARK_HIGH {
        writable := false;
      }
    }

    method AckBytes(n: int)
      modifies this`pending, this`acked, this`writable, this`writing, this`queue, this`woken
      ensures writing == old(writing) && (!writing ==> Flow() == Streams.AckBytes(old(Flow()), n))
      ensures writing ==> Flow() == Streams.AckBytes(old(Flow()), n).(queue := old(queue), woken := old(woken))
    {
      acked := acked + n;
      pending := pending - n;
      if pending < FlowControl.WATER_MARK_LOW {
        if !writable {
          writable := true;
          WriteItMaybe();
        }
      }
    }
  }

  lemma OneLess(ids: set<I32>, keys: set<I32>, todo: set<I32>, r: I32)
    requires r in todo && todo <= keys
    ensures ids + (keys - todo) + {r} == ids + (keys - (todo - {r})) && todo - {r} <= keys
  {
  }

  /** The contexts when those outside `todo` have been handled. */
  ghost function Handled(before: map<I32, Streams.Ctx>, todo: set<I32>, f: Streams.Ctx -> Streams.Ctx)
    : map<I32, Streams.Ctx>
  {
    map r | r in before :: if r in todo then before[r] else f(before[r])
  }

  lemma HandleOne(before: map<I32, Streams.Ctx>, todo: set<I32>, f: Streams.Ctx -> Streams.Ctx, r: I32)
    requires r in todo && r in before
    ensures Handled(before, todo, f)[r := f(Handled(before, todo, f)[r])] == Handled(before, todo - {r}, f)
  {
  }

  class RouterSocket {
    var contextMap: map<I32, RequestContext>
    ghost var created: map<I32, RequestContext>   // every context ever put into contextMap
    var removing: set<I32>
    var out: seq<seq<Byte>>
    var outOpen: bool
    var isRemoved: bool
    var receiving: bool
    var reqIdGenerator: I32

    ghost predicate Valid()
      reads this, created.Values
    {
      && (forall r :: r in contextMap ==> r in created && created[r] == contextMap[r])
      && (forall r :: r in created ==> created[r].id == r && !created[r].writing && r <= reqIdGenerator)
    }

    ghost function Abs(): (s: Streams.Socket)
      reads this, created.Values
      ensures Valid() ==> Streams.Valid(s)
    {
      Streams.Socket((map r | r in created :: created[r].Abs()), contextMap.Keys,
                     removing, out, outOpen, isRemoved, receiving)
    }

    constructor ()
      ensures Valid() && Abs() == Streams.Socket(map[], {}, {}, [], true, false, true)
    {
      contextMap, created, removing, out := map[], map[], {}, [];
      outOpen, isRemoved, receiving, reqIdGenerator := true, false, true, 0;
    }

    /** `ctx`, the outgoing queue and the removals are as outcome `o` says. */
    ghost predicate Did(o: Streams.Outcome, ctx: RequestContext, ok: bool, out0: seq<seq<Byte>>, removing0: set<I32>)
      reads this, ctx
    {
      && ctx.Abs() == o.ctx && ok == o.ok && out == out0 + o.sent
      && removing == removing0 + (if o.removal then {ctx.id} else {})
    }

    method SendData(message: seq<Byte>) returns (ok: bool)
      modifies this`out
      ensures ok == outOpen && out == old(out) + if outOpen then [message] else []
    {
      ok := outOpen;
      if outOpen {
        out := out + [message];
      }
    }

    /** Spawns the removal of the request from contextMap. */
    method SpawnRemoval(id: I32)
      modifies this`removing
      ensures removing == old(removing) + {id}
    {
      removing := removing + {id};
    }

    method PutErr(ctx: RequestContext)
      modifies ctx`header, ctx`body
      ensures ctx.Abs() == Streams.PutErr(old(ctx.Abs()))
    {
      if !ctx.header.closed { ctx.header := ctx.header.(items := ctx.header.items + [Streams.Err]); }
      if !ctx.body.closed { ctx.body := ctx.body.(items := ctx.body.items + [Streams.Err]); }
    }

    method NotifyClientRequestClose(ctx: RequestContext, code: int)
      modifies ctx`header, ctx`body, this`removing
      ensures ctx.Abs() == Streams.NotifyClose(old(ctx.Abs()), code)
      ensures removing == old(removing) + {ctx.id}
    {
      if ctx.canRespond && ctx.fromClient == 0 {
        if code == 1011 {
          PutErr(ctx);
        } else if code == 1008 {
          PutErr(ctx);
        }
      }
      if !ctx.header.closed || !ctx.body.closed {
        if code != 1000 {
          PutErr(ctx);
        }
        ctx.header := ctx.header.(closed := true);
        ctx.body := ctx.body.(closed := true);
      }
      SpawnRemoval(ctx.id);
    }

    method NotifyClientRequestError(ctx: RequestContext)
      modifies ctx`header, ctx`body, this`removing
      ensures ctx.Abs() == Streams.NotifyError(old(ctx.Abs()))
      ensures removing == old(removing) + {ctx.id}
    {
      PutErr(ctx);
      SpawnRemoval(ctx.id);
    }

    method ResetStream(ctx: RequestContext, code: I32)
      modifies ctx`rstSent, this`out, this`removing
      ensures ctx.Abs() == old(ctx.Abs()).(rstSent := true)
      ensures out == old(out) + Streams.ResetFrames(old(ctx.Abs()), code, outOpen)
      ensures removing == old(removing) + {ctx.id}
    {
      hide RstMessage;
      if !ctx.rstSent {
        var _ := SendData(RstMessage(ctx.id, code, Streams.GOING_AWAY));
        ctx.rstSent := true;
      }
      SpawnRemoval(ctx.id);
    }

    method ForwardBody(ctx: RequestContext, end: bool, payload: seq<Byte>) returns (ok: bool)
      modifies ctx`header, ctx`body, ctx`toClient, ctx`bodyFrames, this`out, this`removing
      ensures Did(Streams.ForwardBody(old(ctx.Abs()), end, payload, outOpen), ctx, ok, old(out), old(removing))
    {
      hide WindowUpdateMessage, AsI32, Streams.NotifyClose;
      ctx.bodyFrames := ctx.bodyFrames + 1;
      if ctx.body.closed {
        return false;
      }
      ctx.body := ctx.body.(items := ctx.body.items + [Streams.Ok(payload)]);
      if end {
        NotifyClientRequestClose(ctx, 1000);
      }
      ctx.toClient := ctx.toClient + |payload|;
      var _ := SendData(WindowUpdateMessage(ctx.id, AsI32(|payload|)));
      return true;
    }

    method HandleData(ctx: RequestContext, flags: Byte, payload: seq<Byte>) returns (ok: bool)
      modifies ctx`header, ctx`body, ctx`toClient, ctx`endStream, ctx`bodyFrames, this`out, this`removing
      ensures Did(Streams.HandleData(old(ctx.Abs()), flags, payload, outOpen), ctx, ok, old(out), old(removing))
    {
      hide EndsStream, WindowUpdateMessage, Streams.NotifyClose;
      if !ctx.canRespond {
        return false;
      }
      var end := EndsStream(flags);
      if end {
        ctx.endStream := true;
      }
      if payload == [] {
        if end {
          NotifyClientRequestClose(ctx, 1000);
        }
        return true;
      }
      ok := ForwardBody(ctx, end, payload);
    }

    method HandleHeader(ctx: RequestContext, flags: Byte, payload: seq<Byte>) returns (ok: bool)
      modifies ctx`header, ctx`body, ctx`builder, ctx`endStream, this`out, this`removing
      ensures Did(Streams.HandleHeader(old(ctx.Abs()), flags, payload, outOpen), ctx, ok, old(out), old(removing))
    {
      hide WindowUpdateMessage, EndsStream, EndsHeader, Decode, Streams.NotifyClose;
      if !ctx.canRespond {
        return false;
      }
      var end := EndsStream(flags);
      if end {
        ctx.endStream := true;
      }
      var text := Decode(payload);
      if |payload| >= 0x8000_0000 || text.None? {
        return false;
      }
      ctx.builder := ctx.builder + text.value;
      if EndsHeader(flags) {
        if ctx.header.closed {
          return false;
        }
        ctx.header := ctx.header.(items := ctx.header.items + [Streams.Ok(ctx.builder)]);
      }
      if end {
        NotifyClientRequestClose(ctx, 1000);
      }
      ok := SendData(WindowUpdateMessage(ctx.id, |payload|));
    }

    twostate lemma ValidKept(id: I32)
      requires old(Valid()) && id in created && created == old(created) && contextMap == old(contextMap)
      requires reqIdGenerator == old(reqIdGenerator) && !created[id].writing
      requires forall r :: r in created && r != id ==> unchanged(created[r])
      ensures Valid()
    {
    }

    /** When only request `id` changed, the socket's value changed there and nowhere else. */
    twostate lemma AbsUpdated(id: I32)
      requires old(Valid()) && id in created && created == old(created)
      requires contextMap == old(contextMap) && outOpen == old(outOpen) && isRemoved == old(isRemoved)
      requires receiving == old(receiving)
      requires forall r :: r in created && r != id ==> created[r].Abs() == old(created[r].Abs())
      ensures Abs() == old(Abs()).(ctxs := old(Abs()).ctxs[id := created[id].Abs()], out := out, removing := removing)
    {
    }

    method Dispatch(ctx: RequestContext, p: Parsed) returns (ok: bool)
      requires p.Parsed? && p.id == ctx.id && !ctx.writing
      requires p.ty == MESSAGE_TYPE_WINDOW_UPDATE ==> |p.payload| >= 4
      modifies this`out, this`removing, ctx
      ensures Did(Streams.Dispatch(old(ctx.Abs()), p.ty, p.flags, p.payload, outOpen), ctx, ok, old(out), old(removing))
      ensures !ctx.writing
    {
      hide Streams.HandleData, Streams.HandleHeader, Streams.AckBytes, Streams.NotifyError, GetI32;
      ok := true;
      if p.ty == MESSAGE_TYPE_DATA {
        ok := HandleData(ctx, p.flags, p.payload);
      } else if p.ty == MESSAGE_TYPE_HEADER {
        ok := HandleHeader(ctx, p.flags, p.payload);
      } else if p.ty == MESSAGE_TYPE_RST_STREAM {
        NotifyClientRequestError(ctx);
      } else if p.ty == MESSAGE_TYPE_WINDOW_UPDATE {
        ctx.AckBytes(GetI32(p.payload));
      }
    }

    /** Dispatch, then tell the client and reset the stream if handling failed. */
    method HandleFrame(ctx: RequestContext, p: Parsed)
      requires p.Parsed? && p.id == ctx.id && !ctx.writing
      requires p.ty == MESSAGE_TYPE_WINDOW_UPDATE ==> |p.payload| >= 4
      modifies this`out, this`removing, ctx
      ensures !ctx.writing
      ensures var o := Streams.Settle(Streams.Dispatch(old(ctx.Abs()), p.ty, p.flags, p.payload, outOpen), outOpen);
        Did(o, ctx, o.ok, old(out), old(removing))
    {
      hide Streams.Dispatch, Streams.NotifyError, Streams.ResetFrames;
      var ok := Dispatch(ctx, p);
      if !ok {
        Streams.ErrorKeepsReset(ctx.Abs(), 1001, outOpen);
        NotifyClientRequestError(ctx);
        ResetStream(ctx, 1001);
      }
    }

    method HandleKnown(p: Parsed)
      requires Valid() && p.Parsed? && p.id in contextMap
      requires p.ty == MESSAGE_TYPE_WINDOW_UPDATE ==> |p.payload| >= 4
      modifies this`out, this`removing, contextMap.Values
      ensures Valid()
      ensures Abs() == Streams.Apply(old(Abs()), p.id,
        Streams.Settle(Streams.Dispatch(old(Abs()).ctxs[p.id], p.ty, p.flags, p.payload, outOpen), outOpen))
    {
      hide Streams.Dispatch, Streams.Settle;
      assert forall r :: r in created && r != p.id ==> created[r] != contextMap[p.id];
      HandleFrame(contextMap[p.id], p);
      ValidKept(p.id);
      AbsUpdated(p.id);
    }

    method OnBinary(bs: seq<Byte>)
      requires Valid()
      modifies this`out, this`removing, this`receiving, contextMap.Values
      ensures Valid() && Abs() == Streams.OnBinary(old(Abs()), bs)
    {
      hide Streams.Dispatch, Streams.Settle, Streams.Apply, Parse;
      var p := Parse(bs);
      if !receiving || p.TooShort? || p.id !in contextMap {
        return;
      }
      if p.ty == MESSAGE_TYPE_WINDOW_UPDATE && |p.payload| < 4 {
        receiving := false;
        return;
      }
      HandleKnown(p);
    }

    /** Contexts are kept under their own ids, so no two entries are the same object. */
    ghost predicate Keyed()
      reads this
    {
      forall r :: r in contextMap ==> contextMap[r].id == r
    }

    ghost function Contexts(): map<I32, Streams.Ctx>
      reads this, contextMap.Values
    {
      map r | r in contextMap :: contextMap[r].Abs()
    }

    method CloseOne(id: I32, ctx: RequestContext, code: int)
      requires Keyed() && id in contextMap && contextMap[id] == ctx
      modifies this`removing, ctx`header, ctx`body
      ensures removing == old(removing) + {id}
      ensures Contexts() == old(Contexts())[id := Streams.NotifyClose(old(Contexts())[id], code)]
    {
      hide Streams.NotifyClose;
      NotifyClientRequestClose(ctx, code);
    }

    /** The loop of `on_close`. */
    method CloseAll(code: int)
      requires Keyed()
      modifies this`removing, contextMap.Values`header, contextMap.Values`body
      ensures removing == old(removing) + contextMap.Keys
      ensures forall r :: r in contextMap ==> contextMap[r].Abs() == Streams.NotifyClose(old(contextMap[r].Abs()), code)
    {
      hide Streams.NotifyClose, RequestContext.Abs;
      ghost var before, f := Contexts(), (c: Streams.Ctx) => Streams.NotifyClose(c, code);
      var todo := contextMap.Keys;
      while todo != {}
        invariant todo <= contextMap.Keys && removing == old(removing) + (contextMap.Keys - todo)
        invariant Contexts() == Handled(before, todo, f)
        decreases todo
      {
        hide Contexts;
        var r :| r in todo;
        OneLess(old(removing), contextMap.Keys, todo, r);
        HandleOne(before, todo, f, r);
        CloseOne(r, contextMap[r], code);
        todo := todo - {r};
      }
      assert forall r :: r in contextMap ==> Contexts()[r] == f(before[r]);
    }

    /** What `on_close` does to the socket as a value. */
    twostate lemma AbsClosed(frame: Option<int>)
      requires old(Valid()) && created == old(created) && contextMap == old(contextMap)
      requires out == old(out) && outOpen == old(outOpen) && receiving == old(receiving)
      requires receiving && isRemoved && removing == old(removing) + contextMap.Keys
      requires forall r :: r in created && r !in contextMap ==> created[r].Abs() == old(created[r].Abs())
      requires var code := if frame.Some? then frame.value else 4000;
        forall r :: r in contextMap ==> created[r].Abs() == Streams.NotifyClose(old(created[r].Abs()), code)
      ensures Abs() == Streams.OnClose(old(Abs()), frame)
    {
      hide Streams.NotifyClose, RequestContext.Abs;
      assert Abs().ctxs == Streams.OnClose(old(Abs()), frame).ctxs;
    }

    /** Every context in the table is closed; the others are not touched. */
    method CloseLive(code: int)
      requires Valid()
      modifies this`removing, contextMap.Values`header, contextMap.Values`body
      ensures Valid() && removing == old(removing) + contextMap.Keys
      ensures forall r :: r in created && r !in contextMap ==> created[r].Abs() == old(created[r].Abs())
      ensures forall r :: r in contextMap ==> created[r].Abs() == Streams.NotifyClose(old(created[r].Abs()), code)
    {
      CloseAll(code);
      OthersUntouched();
      hide Streams.NotifyClose, RequestContext.Abs;
    }

    /** Called by the receive loop, as `OnBinary` is: nothing happens once the loop has ended. */
    method OnClose(frame: Option<int>)
      requires Valid()
      modifies this`removing, this`isRemoved, contextMap.Values`header, contextMap.Values`body
      ensures Valid() && Abs() == Streams.OnClose(old(Abs()), frame)
    {
      if !receiving {
        return;
      }
      hide Streams.NotifyClose, Streams.OnClose, RequestContext.Abs, Abs;
      isRemoved := true;
      CloseLive(if frame.Some? then frame.value else 4000);
      AbsClosed(frame);
    }

    /** Contexts no longer in the table are other objects than those in it. */
    twostate lemma OthersUntouched()
      requires old(Valid()) && created == old(created) && contextMap == old(contextMap)
      requires forall c :: c in created.Values && c !in contextMap.Values ==> unchanged(c)
      requires forall r :: r in created ==> created[r].writing == old(created[r].writing)
      requires reqIdGenerator == old(reqIdGenerator)
      ensures Valid()
      ensures forall r :: r in created && r !in contextMap ==> created[r].Abs() == old(created[r].Abs())
      ensures forall r :: r in contextMap ==> created[r] == contextMap[r]
    {
      forall r | r in created && r !in contextMap
        ensures created[r] !in contextMap.Values
      {
        assert forall q :: q in contextMap ==> contextMap[q].id != created[r].id;
      }
    }

    method FailOne(id: I32, ctx: RequestContext)
      requires Keyed() && id in contextMap && contextMap[id] == ctx
      modifies this`removing, ctx`header, ctx`body
      ensures removing == old(removing) + {id}
      ensures Contexts() == old(Contexts())[id := Streams.NotifyError(old(Contexts())[id])]
    {
      hide Streams.NotifyError;
      NotifyClientRequestError(ctx);
    }

    /** The loop of `terminate_all_conn`. */
    method FailAll()
      requires Keyed()
      modifies this`removing, contextMap.Values`header, contextMap.Values`body
      ensures removing == old(removing) + contextMap.Keys
      ensures forall r :: r in contextMap ==> contextMap[r].Abs() == Streams.NotifyError(old(contextMap[r].Abs()))
    {
      hide Streams.NotifyError, RequestContext.Abs;
      ghost var before, f := Contexts(), (c: Streams.Ctx) => Streams.NotifyError(c);
      var todo := contextMap.Keys;
      while todo != {}
        invariant todo <= contextMap.Keys && removing == old(removing) + (contextMap.Keys - todo)
        invariant Contexts() == Handled(before, todo, f)
        decreases todo
      {
        hide Contexts;
        var r :| r in todo;
        OneLess(old(removing), contextMap.Keys, todo, r);
        HandleOne(before, todo, f, r);
        FailOne(r, contextMap[r]);
        todo := todo - {r};
      }
      assert forall r :: r in contextMap ==> Contexts()[r] == f(before[r]);
    }

    /** What `terminate_all_conn` does to the socket as a value. */
    twostate lemma AbsTerminated()
      requires old(Valid()) && created == old(created) && contextMap == map[]
      requires out == old(out) && outOpen == old(outOpen) && receiving == old(receiving) && isRemoved == old(isRemoved)
      requires removing == old(removing) + old(contextMap).Keys
      requires forall r :: r in created && r !in old(contextMap) ==> created[r].Abs() == old(created[r].Abs())
      requires forall r :: r in old(contextMap) ==> created[r].Abs() == Streams.NotifyError(old(created[r].Abs()))
      ensures Abs() == Streams.Terminate(old(Abs()))
    {
      hide Streams.NotifyError, RequestContext.Abs;
      assert Abs().ctxs == Streams.Terminate(old(Abs())).ctxs;
    }

    /** Every context in the table fails; the others are not touched. */
    method FailLive()
      requires Valid()
      modifies this`removing, contextMap.Values`header, contextMap.Values`body
      ensures Valid() && removing == old(removing) + contextMap.Keys
      ensures forall r :: r in created && r !in contextMap ==> created[r].Abs() == old(created[r].Abs())
      ensures forall r :: r in contextMap ==> created[r].Abs() == Streams.NotifyError(old(created[r].Abs()))
    {
      FailAll();
      OthersUntouched();
      hide Streams.NotifyError, RequestContext.Abs;
    }

    method TerminateAllConn()
      requires Valid()
      modifies this`removing, this`contextMap, contextMap.Values`header, contextMap.Values`body
      ensures Valid() && Abs() == Streams.Terminate(old(Abs()))
    {
      hide Streams.NotifyError, Streams.Terminate, RequestContext.Abs, Abs;
      FailLive();
      contextMap := map[];
      AbsTerminated();
    }

    /** What the spawned sender does when sending the request failed. */
    method SenderFailed(id: I32, ctx: RequestContext)
      requires Valid() && id in created && created[id] == ctx
      modifies this`removing, ctx`header, ctx`body
      ensures Valid() && Abs() == Streams.FailSender(old(Abs()), id)
    {
      hide Streams.NotifyError;
      if ctx.endStream {
        return;
      }
      assert forall r :: r in created && r != id ==> created[r] != ctx;
      NotifyClientRequestError(ctx);
      ValidKept(id);
      AbsUpdated(id);
    }

    /** What the body stream's guard does when the client stops reading. */
    method ClientGone(id: I32, ctx: RequestContext)
      requires Valid() && id in created && created[id] == ctx
      modifies this`removing, this`out, ctx`rstSent
      ensures Valid() && Abs() == Streams.ResetByClient(old(Abs()), id)
    {
      hide Streams.ResetFrames;
      if ctx.endStream || id !in contextMap {
        return;
      }
      assert forall r :: r in created && r != id ==> created[r] != ctx;
      ResetStream(ctx, 1001);
      ValidKept(id);
      AbsUpdated(id);
    }

    /** The removal that `SpawnRemoval` scheduled runs. */
    method RunRemoval(id: I32)
      requires Valid()
      modifies this`removing, this`contextMap
      ensures Valid() && Abs() == Streams.Step(old(Abs()), Streams.Removal(id))
    {
      if id in removing {
        contextMap := contextMap - {id};
        removing := removing - {id};
        assert contextMap.Keys == old(contextMap.Keys) - {id};
      }
    }

    /** `on_client_req` up to the insertion of the new context; a removed socket refuses. */
    method OnClientReq() returns (ctx: Option<RequestContext>)
      requires Valid() && reqIdGenerator < 0x7FFF_FFFF
      modifies this`contextMap, this`created, this`reqIdGenerator
      ensures Valid() && (ctx.None? <==> isRemoved)
      ensures isRemoved ==> contextMap == old(contextMap) && created == old(created)
      ensures !isRemoved ==>
        var id := old(reqIdGenerator) + 1;
        && id !in old(created) && fresh(ctx.value) && ctx.value.Abs() == Streams.NewCtx(id)
        && contextMap == old(contextMap)[id := ctx.value] && created == old(created)[id := ctx.value]
    {
      if isRemoved {
        return None;
      }
      reqIdGenerator := reqIdGenerator + 1;
      var c := new RequestContext(reqIdGenerator);
      contextMap := contextMap[reqIdGenerator := c];
      created := created[reqIdGenerator := c];
      ctx := Some(c);
    }

    /** Counts each frame's payload as pending, queues it, then counts it as received from the client. */
    method SendFrames(ctx: RequestContext, frames: seq<seq<Byte>>) returns (ok: bool)
      requires forall f :: f in frames ==> |f| >= 6
      modifies ctx`fromClient, ctx`pending, ctx`writable, this`out
      ensures outOpen ==> ok && out == old(out) + frames
      ensures outOpen ==> ctx.fromClient == old(ctx.fromClient) + Delivery.PayloadBytes(frames)
      ensures outOpen ==> ctx.pending == old(ctx.pending) + Delivery.PayloadBytes(frames)
      ensures !outOpen ==> out == old(out) && ctx.fromClient == old(ctx.fromClient) && (ok <==> frames == [])
    {
      for i := 0 to |frames|
        invariant outOpen ==> out == old(out) + frames[..i]
        invariant outOpen ==> ctx.fromClient == old(ctx.fromClient) + Delivery.PayloadBytes(frames[..i])
        invariant outOpen ==> ctx.pending == old(ctx.pending) + Delivery.PayloadBytes(frames[..i])
        invariant !outOpen ==> i == 0 && out == old(out) && ctx.fromClient == old(ctx.fromClient)
      {
        assert frames[..i + 1][..i] == frames[..i];
        ctx.IncPending(|frames[i]| - 6);
        var sent := SendData(frames[i]);
        if !sent {
          return false;
        }
        ctx.fromClient := ctx.fromClient + (|frames[i]| - 6);
      }
      assert frames[..|frames|] == frames;
      return true;
    }

    /** `split_part_one_send_or_err`; its waits for a writable stream are in `FlowControl`. */
    method SendRequest(ctx: RequestContext, text: string, body: Option<seq<seq<Byte>>>) returns (ok: bool)
      modifies ctx`canRespond, ctx`fromClient, ctx`pending, ctx`writable, this`out
      ensures ctx.canRespond && ok == outOpen
      ensures outOpen ==> out == old(out) + Delivery.RequestFrames(ctx.id, text, body)
      ensures outOpen ==> ctx.fromClient == old(ctx.fromClient) + Delivery.UploadBytes(text, body)
      ensures outOpen ==> ctx.pending == old(ctx.pending) + Delivery.UploadBytes(text, body)
      ensures !outOpen ==> out == old(out) && ctx.fromClient == old(ctx.fromClient)
    {
      hide Encode, DataMessage, PartFrames, HeaderParts, Join;
      hide Delivery.PayloadBytes, Delivery.TotalBytes, Delivery.DataFrames;
      var headerFrames := HeaderMessages(ctx.id, body.None?, text);
      ctx.canRespond := true;
      HeaderFramesHaveHeads(ctx.id, body.None?, HeaderParts(text));
      Delivery.HeaderPayload(ctx.id, body.None?, HeaderParts(text));
      JoinHeaderParts(text);
      ok := SendFrames(ctx, headerFrames);
      if !ok || body.None? {
        return;
      }
      var dataFrames := Delivery.DataFrames(ctx.id, body.value);
      Delivery.BodyPayload(ctx.id, body.value);
      DataFramesHaveHeads(ctx.id, body.value);
      ok := SendFrames(ctx, dataFrames);
      ok := SendData(DataMessage(ctx.id, true, []));
    }
  }

  lemma HeaderFramesHaveHeads(id: I32, endStream: bool, parts: seq<string>)
    ensures |PartFrames(id, endStream, parts)| == |parts|
    ensures forall f :: f in PartFrames(id, endStream, parts) ==> |f| >= 6
  {
  }

  lemma DataFramesHaveHeads(id: I32, chunks: seq<seq<Byte>>)
    ensures forall f :: f in Delivery.DataFrames(id, chunks) ==> |f| >= 6
  {
  }
}
