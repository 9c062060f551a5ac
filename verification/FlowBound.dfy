/**
 How many unacknowledged bytes one upload can pile up.  A drainer may act on a loop test of
 is_wss_writable made before the sender's last chunk, so the sender can overshoot the high
 watermark by two chunks, not one.  The runs built here show that the bound of
 `FlowControl.PendingBound` is reached, and exactly when one chunk of overshoot is a bound.
 */
module FlowBound {
  import opened Wrappers
  import opened FlowControl

  lemma {:induction false} RunSnoc(r: Request, s: State, es: seq<Event>, e: Event)
    ensures Run(r, s, es + [e]) == Step(r, Run(r, s, es), e)
    decreases |es|
  {
    if es == [] {
      assert es + [e] == [e];
      assert Run(r, s, [e]) == Run(r, Step(r, s, e), []);
    } else {
      assert (es + [e])[1..] == es[1..] + [e];
      RunSnoc(r, Step(r, s, es[0]), es[1..], e);
    }
  }

  /** Extend a run by one event. */
  lemma Do(r: Request, s: State, e: Event) returns (s': State)
    requires Reachable(r, s)
    ensures s' == Step(r, s, e) && Reachable(r, s')
  {
    s' := Step(r, s, e);
    var es :| Run(r, Init(r), es) == s;
    RunSnoc(r, Init(r), es, e);
  }

  lemma {:induction false} SendHeader(r: Request, s: State) returns (s': State)
    requires Reachable(r, s) && s.sender.ReadyHeader? && s.threads == map[] && s.queue == []
    requires s.writable <==> s.pending <= WATER_MARK_HIGH
    ensures Reachable(r, s') && s'.sender == ReadyBody(true) && s'.threads == map[] && s'.queue == []
    ensures s'.pending == s.pending + Sum(s.frames) && s'.nextCb == s.nextCb && s'.writing == s.writing
    ensures s'.writable <==> s'.pending <= WATER_MARK_HIGH
    decreases |s.frames|
  {
    if s.frames == [] {
      s' := Do(r, s, StartBody);
    } else {
      s' := Do(r, s, IncHeader);
      s' := Do(r, s', SendOk);
      s' := Do(r, s', Count);
      s' := SendHeader(r, s');
    }
  }

  /** Chunks that keep the stream writable bring the backlog up to any `goal`. */
  lemma {:induction false} FillUpTo(r: Request, s: State, goal: int) returns (s': State)
    requires Reachable(r, s) && s.sender.ReadyBody? && r.maxChunk > 0
    requires s.writable && s.pending <= goal <= WATER_MARK_HIGH
    ensures Reachable(r, s') && s'.sender.ReadyBody? && s'.pending == goal
    ensures s' == s.(pending := s'.pending, fromClient := s'.fromClient, bodySent := s'.bodySent, sender := s'.sender)
    decreases goal - s.pending
  {
    if s.pending == goal {
      s' := s;
    } else {
      var n := if goal - s.pending < r.maxChunk then goal - s.pending else r.maxChunk;
      s' := Do(r, s, IncBody(n));
      s' := Do(r, s', SendOk);
      s' := Do(r, s', Count);
      s' := Do(r, s', Test);
      s' := FillUpTo(r, s', goal);
    }
  }

  /** A chunk that ends above the high watermark parks the sender. */
  lemma SendAndPark(r: Request, s: State) returns (s': State)
    requires Reachable(r, s) && s.sender.ReadyBody? && s.pending + r.maxChunk > WATER_MARK_HIGH
    requires SENDER !in s.threads && s.queue == []
    ensures Reachable(r, s') && s'.sender == Waiting(s.nextCb) && s'.queue == [s.nextCb]
    ensures s'.pending == s.pending + r.maxChunk && s'.threads == s.threads && !s'.writable
    ensures s'.writing == s.writing
  {
    s' := Do(r, s, IncBody(r.maxChunk));
    s' := Do(r, s', SendOk);
    s' := Do(r, s', Count);
    s' := Do(r, s', Test);
    s' := Do(r, s', Park);
    s' := Do(r, s', Op(SENDER));
    assert s'.threads == s.threads;
  }

  lemma PopQueued(r: Request, s: State, t: nat) returns (s': State)
    requires Reachable(r, s) && s.queue != [] && s.threads == map[t := LoopQueue]
    ensures Reachable(r, s') && s'.threads == map[t := StoreFlag(s.queue[0])]
    ensures s' == s.(queue := s.queue[1..], popped := s'.popped, threads := s'.threads)
  {
    s' := Do(r, s, Op(t));
    s' := Do(r, s', Op(t));
    assert s'.threads == map[t := StoreFlag(s.queue[0])];
  }

  lemma NotifyPopped(r: Request, s: State, t: nat, cb: nat) returns (s': State)
    requires Reachable(r, s) && s.threads == map[t := StoreFlag(cb)]
    ensures Reachable(r, s') && s'.threads == map[t := LoopWritable] && cb in s'.flags && cb in s'.notified
    ensures s' == s.(flags := s'.flags, notified := s'.notified, threads := s'.threads)
  {
    s' := Do(r, s, Op(t));
    s' := Do(r, s', Op(t));
    s' := Do(r, s', Op(t));
    assert s'.threads == map[t := LoopWritable];
  }

  /** A drainer past the loop test of is_wss_writable releases the sender, writable or not. */
  lemma ReleaseFromLoop(r: Request, s: State, t: nat) returns (s': State)
    requires Reachable(r, s) && s.sender.Waiting? && s.queue == [s.sender.cb]
    requires s.threads == map[t := LoopQueue]
    ensures Reachable(r, s') && s'.sender.ReadyBody? && s'.pending == s.pending && s'.writable == s.writable
    ensures s'.queue == [] && s'.writing == s.writing && s'.threads == map[t := LoopWritable]
  {
    s' := PopQueued(r, s, t);
    s' := NotifyPopped(r, s', t, s.sender.cb);
    s' := Do(r, s', Wake);
    s' := Do(r, s', CheckFlag);
  }

  /** A window update for everything releases the sender and leaves its thread in the loop. */
  lemma AckAndRelease(r: Request, s: State, t: nat) returns (s': State)
    requires Reachable(r, s) && s.sender.Waiting? && s.queue == [s.sender.cb]
    requires s.threads == map[] && s.writing == None && !s.writable && s.pending > 0 && t != SENDER
    ensures Reachable(r, s') && s'.sender.ReadyBody? && s'.queue == [] && s'.pending == 0 && s'.writable
    ensures s'.threads == map[t := LoopWritable]
  {
    s' := Do(r, s, Ack(t, s.pending));
    s' := Do(r, s', Op(t));
    s' := Do(r, s', Op(t));
    s' := Do(r, s', Op(t));
    s' := Do(r, s', Op(t));
    assert s'.threads == map[t := LoopQueue];
    s' := ReleaseFromLoop(r, s', t);
  }

  lemma AfterHeader(r: Request) returns (s: State)
    ensures Reachable(r, s) && s.sender == ReadyBody(true) && s.pending == Sum(r.frames)
    ensures s.threads == map[] && s.queue == [] && s.nextCb == 0 && s.writing == None
    ensures s.writable <==> s.pending <= WATER_MARK_HIGH
  {
    assert Run(r, Init(r), []) == Init(r);
    s := SendHeader(r, Init(r));
  }

  lemma HeaderPlusChunkReached(r: Request) returns (s: State)
    ensures Reachable(r, s) && s.pending == Sum(r.frames) + r.maxChunk
  {
    s := AfterHeader(r);
    s := Do(r, s, IncBody(r.maxChunk));
  }

  /** A run that leaves two whole chunks above the high watermark. */
  lemma TwoChunksOverReached(r: Request) returns (s: State)
    requires r.maxChunk > 0
    ensures Reachable(r, s) && s.pending == WATER_MARK_HIGH + 2 * r.maxChunk
  {
    s := AfterHeader(r);
    if s.writable { s := FillUpTo(r, s, WATER_MARK_HIGH); }
    s := SendAndPark(r, s);
    s := AckAndRelease(r, s, 1);
    s := FillUpTo(r, s, WATER_MARK_HIGH);
    s := Do(r, s, Op(1));
    s := SendAndPark(r, s);
    s := ReleaseFromLoop(r, s, 1);
    s := Do(r, s, IncBody(r.maxChunk));
  }

  /** The bound of `PendingBound` is the least one. */
  lemma PendingBoundReached(r: Request)
    requires r.maxChunk > 0
    ensures exists s ::
      Reachable(r, s) && s.pending == Max(Sum(r.frames) + r.maxChunk, WATER_MARK_HIGH + 2 * r.maxChunk)
  {
    if Sum(r.frames) >= WATER_MARK_HIGH + r.maxChunk {
      var s := HeaderPlusChunkReached(r);
    } else {
      var s := TwoChunksOverReached(r);
    }
  }

  /**
   One chunk above the larger of the high watermark and the header is a bound for every run
   of a request exactly when the request has no body bytes or its header alone is at least a
   chunk above the watermark.
   */
  lemma OneChunkBoundExactly(r: Request)
    ensures (forall s :: Reachable(r, s) ==> s.pending <= Max(WATER_MARK_HIGH, Sum(r.frames)) + r.maxChunk)
       <==> (r.maxChunk == 0 || Sum(r.frames) >= WATER_MARK_HIGH + r.maxChunk)
  {
    if r.maxChunk == 0 || Sum(r.frames) >= WATER_MARK_HIGH + r.maxChunk {
      forall s | Reachable(r, s)
        ensures s.pending <= Max(WATER_MARK_HIGH, Sum(r.frames)) + r.maxChunk
      {
        PendingBound(r, s);
      }
    } else {
      var s := TwoChunksOverReached(r);
    }
  }
}
