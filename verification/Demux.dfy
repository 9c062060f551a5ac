/**
 Requests multiplexed on one V3 socket do not disturb each other: what a run does for
 request r is what the events that concern r do on their own. The one exception is a window
 update too short to read, which ends the receive loop of the whole socket.
 */
module Demux {
  import opened Utf8
  import opened Frames
  import opened Streams

  /** The events that name request `r`, and those that name no request. */
  predicate Concerns(e: Event, r: I32) {
    match e
    case Binary(bs) => Parse(bs).Parsed? && Parse(bs).id == r
    case Removal(id) => id == r
    case Start(id) => id == r
    case AllowResponse(id) => id == r
    case Uploaded(id, _) => id == r
    case Parks(id) => id == r
    case SenderFailed(id) => id == r
    case ClientGone(id) => id == r
    case _ => true
  }

  function Project(es: seq<Event>, r: I32): seq<Event> {
    if es == [] then []
    else if Concerns(es[0], r) then [es[0]] + Project(es[1..], r)
    else Project(es[1..], r)
  }

  /** A window update whose payload is too short to hold a number. */
  predicate ShortUpdate(e: Event) {
    e.Binary? && Parse(e.bs).Parsed? && Parse(e.bs).ty == MESSAGE_TYPE_WINDOW_UPDATE && |Parse(e.bs).payload| < 4
  }

  /** The event ends the receive loop: a short window update of a request that is there. */
  predicate Kills(s: Socket, e: Event) {
    s.receiving && ShortUpdate(e) && Parse(e.bs).id in s.live
  }

  /** No event of the run ends the receive loop. */
  predicate Survives(s: Socket, es: seq<Event>)
    requires Valid(s)
    decreases |es|
  {
    es == [] || (!Kills(s, es[0]) && Survives(Step(s, es[0]), es[1..]))
  }

  /** No event of another request than `r` ends the receive loop. */
  predicate Spared(s: Socket, es: seq<Event>, r: I32)
    requires Valid(s)
    decreases |es|
  {
    es == [] || ((Kills(s, es[0]) ==> Concerns(es[0], r)) && Spared(Step(s, es[0]), es[1..], r))
  }

  /** The frames of `out` that are addressed to request `r`. */
  function OutFor(out: seq<seq<Byte>>, r: I32): seq<seq<Byte>> {
    if out == [] then []
    else
      var last := out[|out| - 1];
      OutFor(out[..|out| - 1], r) + if Parse(last).Parsed? && Parse(last).id == r then [last] else []
  }

  lemma {:induction false} OutForConcat(a: seq<seq<Byte>>, b: seq<seq<Byte>>, r: I32)
    ensures OutFor(a + b, r) == OutFor(a, r) + OutFor(b, r)
    decreases |b|
  {
    if b == [] {
      assert a + b == a;
    } else {
      var b' := b[..|b| - 1];
      assert (a + b)[..|a + b| - 1] == a + b';
      OutForConcat(a, b', r);
    }
  }

  /** Two sockets that agree on request `r` and on what all requests share. */
  ghost predicate Same(s1: Socket, s2: Socket, r: I32) {
    && (r in s1.ctxs <==> r in s2.ctxs)
    && (r in s1.ctxs ==> s1.ctxs[r] == s2.ctxs[r])
    && (r in s1.live <==> r in s2.live)
    && (r in s1.removing <==> r in s2.removing)
    && s1.outOpen == s2.outOpen && s1.removed == s2.removed && s1.receiving == s2.receiving
    && OutFor(s1.out, r) == OutFor(s2.out, r)
  }

  ghost predicate AddressedTo(out: seq<seq<Byte>>, r: I32) {
    forall m :: m in out ==> Parse(m).Parsed? && Parse(m).id == r
  }

  lemma DispatchSendsUpdates(c: Ctx, ty: Byte, flags: Byte, payload: seq<Byte>, open: bool)
    ensures AddressedTo(Dispatch(c, ty, flags, payload, open).sent, c.id)
  {
    if ty == MESSAGE_TYPE_DATA {
      ParseFrame(MESSAGE_TYPE_WINDOW_UPDATE, 0, c.id, PutI32(AsI32(|payload|)));
    } else if ty == MESSAGE_TYPE_HEADER && |payload| < 0x8000_0000 {
      ParseFrame(MESSAGE_TYPE_WINDOW_UPDATE, 0, c.id, PutI32(|payload|));
    }
  }

  lemma SettleSendsReset(o: Outcome, open: bool)
    requires AddressedTo(o.sent, o.ctx.id)
    ensures AddressedTo(Settle(o, open).sent, o.ctx.id)
  {
    ParseFrame(MESSAGE_TYPE_RST_STREAM, 0, o.ctx.id, PutI32(1001) + Encode(GOING_AWAY));
  }

  lemma {:induction false} OutForOthers(out: seq<seq<Byte>>, q: I32, r: I32)
    requires AddressedTo(out, q) && q != r
    ensures OutFor(out, r) == []
    decreases |out|
  {
    if out != [] {
      OutForOthers(out[..|out| - 1], q, r);
    }
  }

  lemma ApplyToOther(s: Socket, q: I32, o: Outcome, r: I32)
    requires Valid(s) && q in s.live && o.ctx.id == q && AddressedTo(o.sent, q) && q != r
    ensures Same(s, Apply(s, q, o), r)
  {
    OutForOthers(o.sent, q, r);
    OutForConcat(s.out, o.sent, r);
  }

  lemma ApplyToItself(s1: Socket, s2: Socket, o: Outcome, r: I32)
    requires Valid(s1) && Valid(s2) && Same(s1, s2, r) && r in s1.live && o.ctx.id == r
    ensures Same(Apply(s1, r, o), Apply(s2, r, o), r)
  {
    OutForConcat(s1.out, o.sent, r);
    OutForConcat(s2.out, o.sent, r);
  }

  lemma OtherSent(s: Socket, p: Parsed)
    requires Valid(s) && p.Parsed? && p.id in s.live
    ensures var o := Settle(Dispatch(s.ctxs[p.id], p.ty, p.flags, p.payload, s.outOpen), s.outOpen);
      o.ctx.id == p.id && AddressedTo(o.sent, p.id)
  {
    var c := s.ctxs[p.id];
    DispatchSendsUpdates(c, p.ty, p.flags, p.payload, s.outOpen);
    hide Dispatch, Settle, AddressedTo;
    SettleSendsReset(Dispatch(c, p.ty, p.flags, p.payload, s.outOpen), s.outOpen);
  }

  lemma FrameForOther(s: Socket, bs: seq<Byte>, r: I32)
    requires Valid(s) && !Concerns(Binary(bs), r) && !Kills(s, Binary(bs))
    ensures Same(s, OnBinary(s, bs), r)
  {
    var p := Parse(bs);
    if s.receiving && p.Parsed? && p.id in s.live {
      OtherSent(s, p);
      hide Dispatch, Settle, AddressedTo, Same, Apply;
      ApplyToOther(s, p.id, Settle(Dispatch(s.ctxs[p.id], p.ty, p.flags, p.payload, s.outOpen), s.outOpen), r);
    }
  }

  lemma FrameForItself(s1: Socket, s2: Socket, bs: seq<Byte>, r: I32)
    requires Valid(s1) && Valid(s2) && Same(s1, s2, r) && Concerns(Binary(bs), r)
    ensures Same(OnBinary(s1, bs), OnBinary(s2, bs), r)
  {
    var p := Parse(bs);
    if s1.receiving && p.id in s1.live && !(p.ty == MESSAGE_TYPE_WINDOW_UPDATE && |p.payload| < 4) {
      ApplyToItself(s1, s2, Settle(Dispatch(s1.ctxs[r], p.ty, p.flags, p.payload, s1.outOpen), s1.outOpen), r);
    }
  }

  /** Only the context of another request changes. */
  lemma OtherUpdate(s: Socket, s': Socket, id: I32, r: I32)
    requires id != r && id in s'.ctxs && s' == Update(s, id, s'.ctxs[id])
    ensures Same(s, s', r)
  {
    hide OutFor;
  }

  lemma ResetForOther(s: Socket, id: I32, r: I32)
    requires Valid(s) && id != r
    ensures Same(s, ResetByClient(s, id), r)
  {
    if id in s.live && !s.ctxs[id].endStream {
      ParseFrame(MESSAGE_TYPE_RST_STREAM, 0, id, PutI32(1001) + Encode(GOING_AWAY));
      hide OutFor, Encode, PutI32;
      ApplyToOther(s, id, Reset(s.ctxs[id], s.outOpen), r);
    }
  }

  lemma ResetForItself(s1: Socket, s2: Socket, r: I32)
    requires Valid(s1) && Valid(s2) && Same(s1, s2, r)
    ensures Same(ResetByClient(s1, r), ResetByClient(s2, r), r)
  {
    if r in s1.live && !s1.ctxs[r].endStream {
      hide ResetFrames;
      ApplyToItself(s1, s2, Reset(s1.ctxs[r], s1.outOpen), r);
    }
  }

  lemma OtherRequest(s: Socket, e: Event, r: I32)
    requires Valid(s) && !Concerns(e, r) && !e.Binary? && !e.ClientGone?
    ensures Same(s, Step(s, e), r)
  {
    hide IncPending, WriteItMaybe, OutFor, NotifyError;
    if (e.AllowResponse? || e.Uploaded? || e.Parks?) && e.id in s.ctxs { OtherUpdate(s, Step(s, e), e.id, r); }
  }

  lemma OtherStep(s: Socket, e: Event, r: I32)
    requires Valid(s) && !Concerns(e, r) && !Kills(s, e)
    ensures Same(s, Step(s, e), r)
  {
    if e.Binary? {
      hide OnBinary, Kills, Same, Concerns;
      FrameForOther(s, e.bs, r);
    } else if e.ClientGone? {
      ResetForOther(s, e.id, r);
    } else {
      OtherRequest(s, e, r);
    }
  }

  lemma OwnStep(s1: Socket, s2: Socket, e: Event, r: I32)
    requires Valid(s1) && Valid(s2) && Same(s1, s2, r) && Concerns(e, r)
    ensures Same(Step(s1, e), Step(s2, e), r)
  {
    hide OnBinary, IncPending, WriteItMaybe, NotifyClose, NotifyError, ResetByClient, OutFor;
    if e.Binary? { FrameForItself(s1, s2, e.bs, r); }
    if e.ClientGone? { ResetForItself(s1, s2, r); }
  }

  // ---------------------------------------------------------------------------------------
  // When the receive loop stays alive
  // ---------------------------------------------------------------------------------------

  lemma StepReceiving(s: Socket, e: Event)
    requires Valid(s)
    ensures Step(s, e).receiving <==> s.receiving && !Kills(s, e)
  {
    hide Dispatch, Settle, IncPending, WriteItMaybe, NotifyClose, NotifyError;
  }

  /** The receive loop is alive after a run exactly when it was before and no event ends it. */
  lemma {:induction false} ReceivingExactly(s: Socket, es: seq<Event>)
    requires Valid(s)
    ensures Run(s, es).receiving <==> s.receiving && Survives(s, es)
    decreases |es|
  {
    if es != [] {
      StepReceiving(s, es[0]);
      hide Step;
      ReceivingExactly(Step(s, es[0]), es[1..]);
    }
  }

  /** Without short window updates the receive loop survives and every request is spared. */
  lemma {:induction false} LongUpdatesSpare(s: Socket, es: seq<Event>, r: I32)
    requires Valid(s) && forall e :: e in es ==> !ShortUpdate(e)
    ensures Survives(s, es) && Spared(s, es, r)
    decreases |es|
  {
    if es != [] {
      hide Step;
      assert es[0] in es;
      LongUpdatesSpare(Step(s, es[0]), es[1..], r);
    }
  }

  // ---------------------------------------------------------------------------------------
  // Non-interference
  // ---------------------------------------------------------------------------------------

  lemma {:induction false} RunsAgree(s1: Socket, s2: Socket, es: seq<Event>, r: I32)
    requires Valid(s1) && Valid(s2) && Same(s1, s2, r) && Spared(s1, es, r)
    ensures Same(Run(s1, es), Run(s2, Project(es, r)), r)
    decreases |es|
  {
    hide Step, Concerns, Kills, OutFor;
    if es != [] {
      var s1' := Step(s1, es[0]);
      if Concerns(es[0], r) {
        OwnStep(s1, s2, es[0], r);
        RunsAgree(s1', Step(s2, es[0]), es[1..], r);
        assert Project(es, r)[1..] == Project(es[1..], r);
      } else {
        OtherStep(s1, es[0], r);
        RunsAgree(s1', s2, es[1..], r);
      }
    }
  }

  /** What request `r` is and does is the same in both. */
  ghost predicate SameFor(s1: Socket, s2: Socket, r: I32) {
    && (r in s1.ctxs <==> r in s2.ctxs)
    && (r in s1.ctxs ==> s1.ctxs[r] == s2.ctxs[r])
    && (r in s1.live <==> r in s2.live)
    && (r in s1.removing <==> r in s2.removing)
    && OutFor(s1.out, r) == OutFor(s2.out, r)
  }

  /**
   Non-interference: for any interleaving of events over many requests in which no short
   window update of another request ends the receive loop, request `r` ends with the channels,
   counters, pending removal and outgoing frames that its own events alone give it.
   */
  lemma NonInterference(s: Socket, es: seq<Event>, r: I32)
    requires Valid(s) && Spared(s, es, r)
    ensures SameFor(Run(s, es), Run(s, Project(es, r)), r)
  {
    RunsAgree(s, s, es, r);
    hide Run, Spared, Project, OutFor;
  }

  /** Messages too short for a request id, unknown ids and unknown types change nothing. */
  lemma IgnoredFrames(s: Socket, bs: seq<Byte>)
    requires Valid(s)
    requires |bs| < 6 || Parse(bs).id !in s.live || Parse(bs).ty !in {0, 1, 3, 8}
    ensures OnBinary(s, bs) == s
  {
    var p := Parse(bs);
    if s.receiving && p.Parsed? && p.id in s.live {
      assert s.ctxs[p.id := s.ctxs[p.id]] == s.ctxs;
      assert s.out + [] == s.out;
    }
  }

  // ---------------------------------------------------------------------------------------
  // Exactly when requests disturb each other
  // ---------------------------------------------------------------------------------------

  /** Request `r` would deliver a body chunk. */
  predicate TakesBody(s: Socket, r: I32) {
    s.receiving && r in s.live && r in s.ctxs && s.ctxs[r].canRespond && !s.ctxs[r].body.closed
  }

  /** Whatever events of `r` follow, the run `es` has left `r` as its own events would have. */
  ghost predicate Undisturbed(s: Socket, es: seq<Event>, r: I32)
    requires Valid(s)
  {
    forall fs :: (forall f :: f in fs ==> Concerns(f, r)) ==> SameFor(Run(s, es + fs), Run(s, Project(es, r) + fs), r)
  }

  lemma {:induction false} ProjectOwn(fs: seq<Event>, r: I32)
    requires forall f :: f in fs ==> Concerns(f, r)
    ensures Project(fs, r) == fs
    decreases |fs|
  {
    hide Concerns;
    if fs != [] {
      assert fs[0] in fs;
      ProjectOwn(fs[1..], r);
    }
  }

  lemma {:induction false} ProjectConcat(es: seq<Event>, fs: seq<Event>, r: I32)
    requires forall f :: f in fs ==> Concerns(f, r)
    ensures Project(es + fs, r) == Project(es, r) + fs
    decreases |es|
  {
    hide Concerns;
    if es == [] {
      assert es + fs == fs && Project(es, r) + fs == fs;
      ProjectOwn(fs, r);
    } else {
      assert (es + fs)[0] == es[0] && (es + fs)[1..] == es[1..] + fs;
      ProjectConcat(es[1..], fs, r);
    }
  }

  lemma {:induction false} SparedConcat(s: Socket, es: seq<Event>, fs: seq<Event>, r: I32)
    requires Valid(s) && Spared(s, es, r) && forall f :: f in fs ==> Concerns(f, r)
    ensures Spared(s, es + fs, r)
    decreases |es| + |fs|
  {
    hide Step, Concerns, Kills;
    if es != [] {
      assert (es + fs)[1..] == es[1..] + fs;
      SparedConcat(Step(s, es[0]), es[1..], fs, r);
    } else if fs != [] {
      assert es + fs == fs && fs[0] in fs;
      SparedConcat(Step(s, fs[0]), [], fs[1..], r);
      assert [] + fs[1..] == fs[1..];
    }
  }

  lemma DeadStep(s: Socket, bs: seq<Byte>)
    requires Valid(s) && !s.receiving
    ensures Step(s, Binary(bs)) == s
  {
  }

  /** A run in which another request ends the receive loop leaves it dead. */
  lemma {:induction false} NotSparedDies(s: Socket, es: seq<Event>, r: I32)
    requires Valid(s) && !Spared(s, es, r)
    ensures !Run(s, es).receiving
    decreases |es|
  {
    StepReceiving(s, es[0]);
    hide Step, Kills, Concerns;
    var s' := Step(s, es[0]);
    ReceivingExactly(s', es[1..]);
    if !Spared(s', es[1..], r) { NotSparedDies(s', es[1..], r); }
  }

  lemma ChunkArrives(s: Socket, r: I32, chunk: seq<Byte>)
    requires Valid(s) && TakesBody(s, r) && chunk != []
    ensures var s' := Step(s, Binary(DataMessage(r, false, chunk)));
      r in s'.ctxs && s'.ctxs[r].body.items == s.ctxs[r].body.items + [Ok(chunk)]
  {
    ParseFrame(MESSAGE_TYPE_DATA, 0, r, chunk);
  }

  lemma RunOneMore(s: Socket, es: seq<Event>, e: Event)
    requires Valid(s)
    ensures Run(s, es + [e]) == Step(Run(s, es), e)
  {
    RunConcat(s, es, [e]);
    hide Step;
    assert Run(Run(s, es), [e]) == Run(Step(Run(s, es), e), []);
  }

  /** If the loop died and `r` could still take a chunk on its own, a chunk tells them apart. */
  lemma DisturbedByChunk(s: Socket, es: seq<Event>, r: I32)
    requires Valid(s) && !Spared(s, es, r) && TakesBody(Run(s, Project(es, r)), r)
    ensures !Undisturbed(s, es, r)
  {
    NotSparedDies(s, es, r);
    var e := Binary(DataMessage(r, false, [0]));
    ParseFrame(MESSAGE_TYPE_DATA, 0, r, [0]);
    assert forall f :: f in [e] ==> Concerns(f, r);
    var all, own := Run(s, es), Run(s, Project(es, r));
    hide Run, Spared, Project, Concerns, DataMessage, OutFor;
    ChunkArrives(own, r, [0]);
    DeadStep(all, DataMessage(r, false, [0]));
    hide Step;
    RunOneMore(s, es, e);
    RunOneMore(s, Project(es, r), e);
    assert es + [] == es && Project(es, r) + [] == Project(es, r);
    assert !SameFor(Run(s, es + []), Run(s, Project(es, r) + []), r)
        || !SameFor(Run(s, es + [e]), Run(s, Project(es, r) + [e]), r);
  }

  /**
   Non-interference, exactly: a request is undisturbed by any run in which no short window
   update of another request ends the receive loop; and a run in which one does disturbs every
   request that could still take a body chunk.
   */
  lemma UndisturbedExactly(s: Socket, es: seq<Event>, r: I32)
    requires Valid(s)
    ensures Spared(s, es, r) ==> Undisturbed(s, es, r)
    ensures TakesBody(Run(s, Project(es, r)), r) ==> (Undisturbed(s, es, r) <==> Spared(s, es, r))
  {
    hide Run, Step, Concerns, SameFor;
    if Spared(s, es, r) {
      forall fs | forall f :: f in fs ==> Concerns(f, r)
        ensures SameFor(Run(s, es + fs), Run(s, Project(es, r) + fs), r)
      {
        SparedConcat(s, es, fs, r);
        ProjectConcat(es, fs, r);
        NonInterference(s, es + fs, r);
      }
    } else if TakesBody(Run(s, Project(es, r)), r) {
      DisturbedByChunk(s, es, r);
    }
  }

  lemma RunNothing(s: Socket)
    requires Valid(s)
    ensures Run(s, []) == s
  {
  }

  /** Runs whose window updates are all long enough disturb no request. */
  lemma LongUpdatesUndisturbed(s: Socket, es: seq<Event>, r: I32)
    requires Valid(s) && forall e :: e in es ==> !ShortUpdate(e)
    ensures Undisturbed(s, es, r)
  {
    LongUpdatesSpare(s, es, r);
    UndisturbedExactly(s, es, r);
    hide *;
  }

  /** One frame of another request disturbs `r` exactly when it is a short window update of a live one. */
  lemma FrameDisturbsExactly(s: Socket, bs: seq<Byte>, r: I32)
    requires Valid(s) && TakesBody(s, r) && !Concerns(Binary(bs), r)
    ensures Undisturbed(s, [Binary(bs)], r) <==> !(ShortUpdate(Binary(bs)) && Parse(bs).id in s.live)
  {
    hide Step, Concerns, Undisturbed;
    var es := [Binary(bs)];
    assert es[1..] == [];
    assert Project(es, r) == Project(es[1..], r) == [];
    RunNothing(s);
    assert Spared(Step(s, es[0]), es[1..], r);
    UndisturbedExactly(s, es, r);
  }

  /** For example: after a short window update of another request a body frame of `r` is lost. */
  lemma ShortUpdateDisturbsOthers(s: Socket, q: I32, r: I32, payload: seq<Byte>, chunk: seq<Byte>)
    requires Valid(s) && s.receiving && q in s.live && r in s.live && q != r
    requires |payload| < 4 && chunk != []
    requires s.ctxs[r].canRespond && !s.ctxs[r].body.closed
    ensures var short, data := Frame(8, 0, q, payload), DataMessage(r, false, chunk);
      && Project([Binary(short), Binary(data)], r) == [Binary(data)]
      && Run(s, [Binary(short), Binary(data)]).ctxs == s.ctxs
      && var alone := Run(s, [Binary(data)]);
         r in alone.ctxs && alone.ctxs[r].body.items == s.ctxs[r].body.items + [Ok(chunk)]
  {
    var short, data := Frame(8, 0, q, payload), DataMessage(r, false, chunk);
    ParseFrame(8, 0, q, payload);
    ParseFrame(0, 0, r, chunk);
    var es := [Binary(short), Binary(data)];
    assert es[1..] == [Binary(data)];
    assert Project([Binary(data)], r) == [Binary(data)] + Project([Binary(data)][1..], r);
    assert Run(s, es) == Run(Step(Step(s, Binary(short)), Binary(data)), []);
    assert Run(s, [Binary(data)]) == Step(s, Binary(data));
  }
}
