/**
 The protocol of `FlowControl`, when nothing interferes, does what the sequential
 functions of `Streams` say: the two models of the upload side agree.
 */
module FlowSequential {
  import opened Wrappers
  import opened FlowControl
  import Streams

  /** What the sequential model sees of a state. */
  ghost function View(s: State): Streams.Flow {
    Streams.Flow(s.pending, s.acked, s.writable, s.queue, s.popped)
  }

  /** `s'` follows from `s` by operations of thread `t` alone. */
  ghost predicate ByThread(r: Request, s: State, t: nat, s': State) {
    exists n: nat :: After(r, s, t, n) == s'
  }

  ghost function After(r: Request, s: State, t: nat, n: nat): State {
    if n == 0 then s else Step(r, After(r, s, t, n - 1), Op(t))
  }

  lemma Stay(r: Request, s: State, t: nat)
    ensures ByThread(r, s, t, s)
  {
    assert After(r, s, t, 0) == s;
  }

  lemma OneMore(r: Request, s: State, t: nat, s1: State) returns (s2: State)
    requires ByThread(r, s, t, s1)
    ensures s2 == Step(r, s1, Op(t)) && ByThread(r, s, t, s2)
  {
    var n: nat :| After(r, s, t, n) == s1;
    s2 := Step(r, s1, Op(t));
    assert After(r, s, t, n + 1) == s2;
  }

  /** One turn of the loop releases the first callback. */
  lemma Turn(r: Request, s0: State, t: nat, s: State) returns (s': State)
    requires ByThread(r, s0, t, s) && s.threads == map[t := LoopWritable] && s.writable && s.queue != []
    ensures ByThread(r, s0, t, s') && s'.threads == map[t := LoopWritable] && s'.writing == s.writing
    ensures View(s') == View(s).(queue := s.queue[1..], woken := s.popped + [s.queue[0]]) && s'.sender == s.sender
  {
    hide ByThread;
    s' := OneMore(r, s0, t, s);
    s' := OneMore(r, s0, t, s');
    s' := OneMore(r, s0, t, s');
    s' := OneMore(r, s0, t, s');
    s' := OneMore(r, s0, t, s');
    s' := OneMore(r, s0, t, s');
    assert s'.threads == map[t := LoopWritable];
  }

  /** With an empty queue the thread unlocks, looks once more and returns. */
  lemma Leave(r: Request, s0: State, t: nat, s: State) returns (s': State)
    requires ByThread(r, s0, t, s) && s.threads == map[t := LoopWritable] && s.writable && s.queue == []
    ensures ByThread(r, s0, t, s') && s'.threads == map[] && s'.writing == None && View(s') == View(s)
  {
    hide ByThread;
    s' := OneMore(r, s0, t, s);
    s' := OneMore(r, s0, t, s');
    s' := OneMore(r, s0, t, s');
    s' := OneMore(r, s0, t, s');
    s' := OneMore(r, s0, t, s');
    assert s'.threads == map[];
  }

  lemma {:induction false} Loop(r: Request, s0: State, t: nat, s: State) returns (s': State)
    requires ByThread(r, s0, t, s) && s.threads == map[t := LoopWritable] && s.writable
    ensures ByThread(r, s0, t, s') && s'.threads == map[] && s'.writing == None
    ensures View(s') == View(s).(queue := [], woken := s.popped + s.queue)
    decreases |s.queue|
  {
    hide ByThread, Step;
    if s.queue == [] {
      s' := Leave(r, s0, t, s);
      assert s.popped + s.queue == s.popped;
    } else {
      s' := Turn(r, s0, t, s);
      assert s.popped + [s.queue[0]] + s.queue[1..] == s.popped + s.queue;
      s' := Loop(r, s0, t, s');
    }
  }

  /** A thread alone in `write_it_maybe` leaves it having done what the sequential form says. */
  lemma DrainAlone(r: Request, s: State, t: nat) returns (s': State)
    requires s.threads == map[t := LoadWritable] && s.writing == None
    ensures ByThread(r, s, t, s') && s'.threads == map[] && s'.writing == None
    ensures View(s') == Streams.WriteItMaybe(View(s))
  {
    Stay(r, s, t);
    hide ByThread;
    s' := OneMore(r, s, t, s);
    if s.writable {
      s' := OneMore(r, s, t, s');
      if s.queue != [] {
        s' := OneMore(r, s, t, s');
        assert s'.threads == map[t := LoopWritable];
        s' := Loop(r, s, t, s');
      } else {
        assert s.popped + s.queue == s.popped;
      }
    }
    assert s'.threads == map[];
  }

  /** An acknowledgement that meets no other thread does what the sequential form says. */
  lemma AckAlone(r: Request, s: State, t: nat, n: nat) returns (s': State)
    requires s.threads == map[] && s.writing == None && t != SENDER
    ensures ByThread(r, Step(r, s, Ack(t, n)), t, s') && s'.threads == map[] && s'.writing == None
    ensures View(s') == Streams.AckBytes(View(s), n)
  {
    var s1 := Step(r, s, Ack(t, n));
    if s1.threads == map[] {
      Stay(r, s1, t);
      s' := s1;
    } else {
      assert s1.threads == map[t := LoadWritable];
      s' := DrainAlone(r, s1, t);
    }
  }

  /**
   What the sender does with a body chunk, whatever other threads are doing: the bytes are pending
   and counted, and it goes on if the stream is still writable; else it queues a callback last and
   calls `write_it_maybe`.
   */
  lemma ChunkAmongOthers(r: Request, s: State, n: nat)
    requires SENDER !in s.threads && s.sender.ReadyBody? && n <= r.maxChunk
    ensures var open := s.writable && s.pending + n <= 65536;
      var s1 := s.(pending := s.pending + n, writable := open,
                   fromClient := s.fromClient + n, bodySent := s.bodySent + n);
      Run(r, s, [IncBody(n), SendOk, Count, Test, Park])
      == if open then s1.(sender := ReadyBody(false))
         else s1.(sender := InDrain(s.nextCb), queue := s.queue + [s.nextCb], nextCb := s.nextCb + 1,
                  threads := s.threads[SENDER := LoadWritable])
  {
    FiveSteps(r, s, IncBody(n), SendOk, Count, Test, Park);
    hide Run;
  }

  /** And with a header frame: it is pending, sent and counted, and the next one follows. */
  lemma HeaderFrameAmongOthers(r: Request, s: State)
    requires s.sender.ReadyHeader? && s.frames != []
    ensures var n := s.frames[0];
      Step(r, Step(r, Step(r, s, IncHeader), SendOk), Count)
      == s.(pending := s.pending + n, writable := s.writable && s.pending + n <= 65536, frames := s.frames[1..],
            fromClient := s.fromClient + n, headerSent := s.headerSent + n)
  {
  }

  /**
   A body chunk that meets no other thread does what the sequential form says: the bytes are
   pending, and the sender goes on if the stream is still writable and else waits for a callback
   it has put last in the queue.
   */
  lemma ChunkAlone(r: Request, s: State, n: nat) returns (s': State)
    requires s.threads == map[] && s.sender.ReadyBody? && n <= r.maxChunk
    ensures ByThread(r, Run(r, s, [IncBody(n), SendOk, Count, Test, Park]), SENDER, s')
    ensures var f := Streams.IncPending(View(s), n);
      && View(s') == (if f.writable then f else f.(queue := s.queue + [s.nextCb]))
      && s'.sender == if f.writable then ReadyBody(false) else Waiting(s.nextCb)
    ensures s'.threads == map[] && s'.fromClient == s.fromClient + n && s'.bodySent == s.bodySent + n
  {
    ChunkAmongOthers(r, s, n);
    var s5 := Run(r, s, [IncBody(n), SendOk, Count, Test, Park]);
    hide Run;
    Stay(r, s5, SENDER);
    if s5.writable {
      s' := s5;
    } else {
      s' := OneMore(r, s5, SENDER, s5);
      assert s'.threads == map[];
    }
  }

  lemma FiveSteps(r: Request, s: State, a: Event, b: Event, c: Event, d: Event, e: Event)
    ensures Run(r, s, [a, b, c, d, e]) == Step(r, Step(r, Step(r, Step(r, Step(r, s, a), b), c), d), e)
  {
    hide Step;
    var s1 := Step(r, s, a);
    var s3 := Step(r, Step(r, s1, b), c);
    assert [a, b, c, d, e][1..] == [b, c, d, e] && [b, c, d, e][1..] == [c, d, e] && [c, d, e][1..] == [d, e];
    assert Run(r, s3, [d, e]) == Step(r, Step(r, s3, d), e) by {
      assert [d, e][1..] == [e];
      assert Run(r, Step(r, s3, d), [e]) == Step(r, Step(r, s3, d), e);
    }
    assert Run(r, s1, [b, c, d, e]) == Run(r, s3, [d, e]);
  }
}
