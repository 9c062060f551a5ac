/**
 What a run of the upload side amounts to, read off its events: which bytes were acknowledged and
 sent, when the stream is writable, and that a waiting sender can always be brought back to work.
 */
module FlowEffects {
  import opened Wrappers
  import opened FlowControl
  import opened FlowBound

  // ---------------------------------------------------------------------------------------
  // Sums over events
  // ---------------------------------------------------------------------------------------

  /** The bytes acknowledged by one event: every acknowledgement counts, whoever else is draining. */
  ghost function AckOf(s: State, e: Event): nat {
    if e.Ack? && e.thread != SENDER && e.thread !in s.threads then e.bytes else 0
  }

  ghost function AckedIn(r: Request, s: State, es: seq<Event>): nat
    decreases |es|
  {
    if es == [] then 0 else AckOf(s, es[0]) + AckedIn(r, Step(r, s, es[0]), es[1..])
  }

  /** The body bytes one event takes from the client. */
  ghost function ChunkOf(r: Request, s: State, e: Event): nat {
    if e.IncBody? && s.sender.ReadyBody? && e.n <= r.maxChunk then e.n else 0
  }

  ghost function ChunksIn(r: Request, s: State, es: seq<Event>): nat
    decreases |es|
  {
    if es == [] then 0 else ChunkOf(r, s, es[0]) + ChunksIn(r, Step(r, s, es[0]), es[1..])
  }

  function BodyInFlight(s: State): nat {
    if (s.sender.Sending? || s.sender.Counting?) && s.sender.body then s.sender.n else 0
  }

  lemma StepAcked(r: Request, s: State, e: Event)
    ensures Step(r, s, e).acked == s.acked + AckOf(s, e)
  {
    if e.Op? && e.thread in s.threads { DrainOpCounts(s, e.thread); }
    hide DrainOp;
  }

  /** In every run `acked` is the sum of the acknowledgements that arrived. */
  lemma {:induction false} AckedExactly(r: Request, s: State, es: seq<Event>)
    ensures Run(r, s, es).acked == s.acked + AckedIn(r, s, es)
    decreases |es|
  {
    hide Step, AckOf;
    if es != [] {
      StepAcked(r, s, es[0]);
      AckedExactly(r, Step(r, s, es[0]), es[1..]);
    }
  }

  lemma DrainOpBody(s: State, t: nat)
    requires t in s.threads
    ensures BodyInFlight(DrainOp(s, t)) == BodyInFlight(s)
  {
  }

  lemma StepChunks(r: Request, s: State, e: Event)
    requires !Step(r, s, e).sender.Failed?
    ensures !s.sender.Failed?
    ensures var s' := Step(r, s, e); s'.bodySent + BodyInFlight(s') == s.bodySent + BodyInFlight(s) + ChunkOf(r, s, e)
  {
    if e.Op? && e.thread in s.threads {
      DrainOpCounts(s, e.thread);
      DrainOpBody(s, e.thread);
    }
    hide DrainOp;
  }

  /** In every run the body bytes sent and in flight are the chunks that were taken from the client. */
  lemma {:induction false} ChunksExactly(r: Request, s: State, es: seq<Event>)
    requires !Run(r, s, es).sender.Failed?
    ensures !s.sender.Failed?
    ensures var s' := Run(r, s, es); s'.bodySent + BodyInFlight(s') == s.bodySent + BodyInFlight(s) + ChunksIn(r, s, es)
    decreases |es|
  {
    hide Step, ChunkOf, BodyInFlight;
    if es != [] {
      ChunksExactly(r, Step(r, s, es[0]), es[1..]);
      StepChunks(r, s, es[0]);
    }
  }

  /**
   Every byte is accounted for: in every run of a request whose sender has not failed, what is
   pending is the header frames sent and the chunks taken, less the acknowledgements that arrived.
   */
  lemma PendingExactly(r: Request, es: seq<Event>)
    requires !Run(r, Init(r), es).sender.Failed?
    ensures var s := Run(r, Init(r), es);
      s.pending == Sum(r.frames) - Sum(s.frames) + ChunksIn(r, Init(r), es) - AckedIn(r, Init(r), es)
  {
    var s := Run(r, Init(r), es);
    assert Reachable(r, s);
    UploadConserved(r, s);
    AckedExactly(r, Init(r), es);
    ChunksExactly(r, Init(r), es);
    InFlightSplits(s);
    hide Run, AckedIn, ChunksIn, Sum, Reachable, InFlight, BodyInFlight, HeaderInFlight;
    InitIdle(r);
  }

  lemma InitIdle(r: Request)
    ensures BodyInFlight(Init(r)) == 0 && Init(r).bodySent == 0 && Init(r).acked == 0
  {
  }

  lemma InFlightSplits(s: State)
    ensures InFlight(s) == HeaderInFlight(s) + BodyInFlight(s)
  {
  }

  /** The sender has stopped, and these bytes are all it has sent. */
  ghost predicate Stopped(s: State, sender: Sender, header: nat, body: nat, cbs: nat) {
    s.sender == sender && s.headerSent == header && s.bodySent == body && s.nextCb == cbs
  }

  lemma StepStopped(r: Request, s: State, e: Event)
    requires s.sender.Failed? || s.sender.Finished?
    ensures Stopped(Step(r, s, e), s.sender, s.headerSent, s.bodySent, s.nextCb)
  {
  }

  lemma {:induction false} RunStopped(r: Request, s: State, es: seq<Event>)
    requires s.sender.Failed? || s.sender.Finished?
    ensures Stopped(Run(r, s, es), s.sender, s.headerSent, s.bodySent, s.nextCb)
    decreases |es|
  {
    hide Step;
    if es != [] {
      StepStopped(r, s, es[0]);
      RunStopped(r, Step(r, s, es[0]), es[1..]);
    }
  }

  /** A send that fails, and the end of the body, stop the sender for good. */
  lemma StopsForGood(r: Request, s: State, es: seq<Event>)
    ensures s.sender.Sending? ==>
      Stopped(Run(r, Step(r, s, SendFail), es), Failed, s.headerSent, s.bodySent, s.nextCb)
    ensures s.sender.ReadyBody? ==>
      Stopped(Run(r, Step(r, s, Finish), es), Finished, s.headerSent, s.bodySent, s.nextCb)
  {
    hide Run;
    if s.sender.Sending? { RunStopped(r, Step(r, s, SendFail), es); }
    if s.sender.ReadyBody? { RunStopped(r, Step(r, s, Finish), es); }
  }

  // ---------------------------------------------------------------------------------------
  // When the stream is writable
  // ---------------------------------------------------------------------------------------

  /**
   Writability has two thresholds: after every step of every run the stream is writable exactly
   when less than 16 KiB are pending, or it was writable and at most 64 KiB are.
   */
  lemma WritableExactly(r: Request, s: State, e: Event)
    requires Reachable(r, s)
    ensures var s' := Step(r, s, e); s'.writable <==> s'.pending < 16384 || (s.writable && s'.pending <= 65536)
  {
    ReachableInv(r, s);
    hide Core, Conserved, Reachable;
    if e.Op? && e.thread in s.threads { DrainOpKeeps(s, e.thread); }
    hide DrainOp;
  }

  lemma DrainOpKeeps(s: State, t: nat)
    requires t in s.threads
    ensures DrainOp(s, t).writable == s.writable && DrainOp(s, t).pending == s.pending
  {
  }

  /**
   An acknowledgement is taken whatever other threads are doing. When it brings an unwritable
   stream below 16 KiB its thread, and no other, is sent into `write_it_maybe`.
   */
  lemma AckAmongOthers(r: Request, s: State, t: nat, n: nat)
    requires t != SENDER && t !in s.threads
    ensures var s' := Step(r, s, Ack(t, n));
      && s'.pending == s.pending - n && s'.acked == s.acked + n
      && (!s.writable && s.pending - n < 16384 ==> s'.writable && s'.threads == s.threads[t := LoadWritable])
      && (s.writable || s.pending - n >= 16384 ==> s'.writable == s.writable && s'.threads == s.threads)
      && s'.queue == s.queue && s'.popped == s.popped && s'.writing == s.writing && s'.sender == s.sender
  {
  }

  // ---------------------------------------------------------------------------------------
  // Every thread can leave write_it_maybe
  // ---------------------------------------------------------------------------------------

  /** `n` operations of thread `t`. */
  ghost function Ops(r: Request, s: State, t: nat, n: nat): State
    decreases n
  {
    if n == 0 then s else Ops(r, Step(r, s, Op(t)), t, n - 1)
  }

  /** How many operations of its own bring a thread to its return or to the next callback. */
  ghost function Rank(pc: Pc, writable: bool, empty: bool): nat {
    match pc
    case LoadWritable => if writable && !empty then 6 else 2
    case LoadQueue => if writable && !empty then 5 else if empty then 1 else 6
    case TryLock => if empty then 6 else if writable then 4 else 5
    case LoopWritable => if writable && !empty then 3 else if writable then 5 else 4
    case LoopQueue => if !empty then 2 else 4
    case Pop => if !empty then 1 else 6
    case StoreFlag(_) => 8
    case NotifyOne(_) => 7
    case NotifyWaiters(_) => 6
    case Unlock => if writable && !empty then 7 else 3
  }

  /** Thread `t` goes on, nearer to its return, or takes a callback; the other threads stay where they are. */
  ghost predicate Nearer(s: State, s': State, t: nat) {
    && t in s.threads && s'.writable == s.writable && s'.pending == s.pending && s'.acked == s.acked
    && s'.threads - {t} == s.threads - {t} && |s'.queue| <= |s.queue|
    && (t in s'.threads && s'.queue == s.queue ==>
          Rank(s'.threads[t], s.writable, s.queue == []) < Rank(s.threads[t], s.writable, s.queue == []))
    && (s'.queue != s.queue ==> |s'.queue| < |s.queue|)
    && (s.sender.Parked() ==> s'.sender.Parked())
  }

  lemma OpNearer(r: Request, s: State, t: nat)
    requires t in s.threads
    ensures Nearer(s, Step(r, s, Op(t)), t)
  {
  }

  ghost predicate Left(r: Request, s: State, t: nat, n: nat, s': State) {
    && s' == Ops(r, s, t, n) && t !in s'.threads && s'.threads == s.threads - {t}
    && s'.writable == s.writable && s'.pending == s.pending && s'.acked == s.acked
  }

  /**
   No thread needs another to make progress: from any state, wherever the other threads stand, a
   thread inside `write_it_maybe` returns after at most eight operations of its own for each
   callback and eight more.
   */
  lemma {:induction false} Leaves(r: Request, s: State, t: nat) returns (n: nat, s': State)
    requires t in s.threads
    ensures Left(r, s, t, n, s') && n <= 8 * |s.queue| + Rank(s.threads[t], s.writable, s.queue == [])
    decreases |s.queue|, Rank(s.threads[t], s.writable, s.queue == [])
  {
    var s1 := Step(r, s, Op(t));
    OpNearer(r, s, t);
    RankBound(s, t);
    hide Step, Rank;
    if t !in s1.threads {
      assert Ops(r, s1, t, 0) == s1;
      assert s.threads - {t} == s1.threads - {t} == s1.threads;
      n, s' := 1, s1;
    } else {
      RankBound(s1, t);
      n, s' := Leaves(r, s1, t);
      n := n + 1;
    }
  }

  lemma RankBound(s: State, t: nat)
    requires t in s.threads
    ensures 1 <= Rank(s.threads[t], s.writable, s.queue == []) <= 8
  {
  }

  // ---------------------------------------------------------------------------------------
  // A waiting sender can always go on
  // ---------------------------------------------------------------------------------------

  /** What happens without the client: drains, the sender waking up and, if `acks`, acknowledgements. */
  ghost predicate Background(e: Event, acks: bool) {
    e.Op? || e.Wake? || e.CheckFlag? || (acks && e.Ack?)
  }

  /** Such events, and no others, lead from `s` to `s'`. */
  ghost predicate Goes(r: Request, s: State, s': State, acks: bool) {
    exists es :: Run(r, s, es) == s' && forall e :: e in es ==> Background(e, acks)
  }

  lemma GoesNowhere(r: Request, s: State, acks: bool)
    ensures Goes(r, s, s, acks)
  {
    assert Run(r, s, []) == s;
  }

  lemma GoesOn(r: Request, s: State, s1: State, e: Event, acks: bool) returns (s2: State)
    requires Goes(r, s, s1, acks) && Background(e, acks) && Reachable(r, s1)
    ensures s2 == Step(r, s1, e) && Goes(r, s, s2, acks) && Reachable(r, s2)
  {
    s2 := Do(r, s1, e);
    hide Step, Reachable;
    var es :| Run(r, s, es) == s1 && forall e :: e in es ==> Background(e, acks);
    RunSnoc(r, s, es, e);
    hide Run;
    assert forall f :: f in es + [e] ==> Background(f, acks);
  }

  /** Nothing but drains happened, so the counters are as they were and a parked sender is still parked. */
  ghost predicate Drained(s: State, s': State) {
    && s'.writable == s.writable && s'.pending == s.pending && s'.acked == s.acked
    && (s.sender.Parked() ==> s'.sender.Parked())
  }

  lemma {:induction false} LeaveOne(r: Request, s0: State, s: State, t: nat, acks: bool) returns (s': State)
    requires Goes(r, s0, s, acks) && Reachable(r, s) && t in s.threads
    ensures Goes(r, s0, s', acks) && Reachable(r, s') && Drained(s, s') && s'.threads == s.threads - {t}
    decreases |s.queue|, Rank(s.threads[t], s.writable, s.queue == [])
  {
    OpNearer(r, s, t);
    hide Step, Rank, Goes, Reachable;
    s' := GoesOn(r, s0, s, Op(t), acks);
    if t in s'.threads {
      var rest := s.threads - {t};
      assert rest == s'.threads - {t};
      s' := LeaveOne(r, s0, s', t, acks);
    } else {
      assert s'.threads - {t} == s'.threads;
    }
  }

  lemma {:induction false} AllLeave(r: Request, s0: State, s: State, acks: bool) returns (s': State)
    requires Goes(r, s0, s, acks) && Reachable(r, s)
    ensures Goes(r, s0, s', acks) && Reachable(r, s') && Drained(s, s') && s'.threads == map[]
    decreases |s.threads|
  {
    hide Goes, Reachable;
    if s.threads == map[] {
      s' := s;
    } else {
      var t :| t in s.threads;
      s' := LeaveOne(r, s0, s, t, acks);
      assert s'.threads.Keys == s.threads.Keys - {t};
      assert |s'.threads.Keys| < |s.threads.Keys|;
      s' := AllLeave(r, s0, s', acks);
    }
  }

  /** A sender whose callback was released wakes up and takes the next chunk. */
  lemma WakesUp(r: Request, s0: State, s: State, acks: bool) returns (s': State)
    requires Goes(r, s0, s, acks) && Reachable(r, s) && s.threads == map[]
    requires s.sender.Woken? || (s.sender.Waiting? && s.sender.cb in s.notified)
    ensures Goes(r, s0, s', acks) && s'.sender == ReadyBody(false)
  {
    hide Goes, Reachable;
    ReachableInv(r, s);
    s' := s;
    if s.sender.Waiting? {
      s' := GoesOn(r, s0, s, Wake, acks);
    }
    s' := GoesOn(r, s0, s', CheckFlag, acks);
  }

  lemma ParkedOutside(r: Request, s: State)
    requires Reachable(r, s) && s.threads == map[] && s.sender.Parked()
    ensures s.sender.Waiting? || s.sender.Woken?
  {
    ReachableInv(r, s);
  }

  /**
   An upload never stalls: from every reachable state in which the sender is parked, wherever all
   other threads stand, drains and acknowledgements bring it back to reading from the client. On a
   writable stream no acknowledgement is needed.
   */
  lemma ParkedSenderCanGoOn(r: Request, s: State) returns (s': State)
    requires Reachable(r, s) && s.sender.Parked()
    ensures Goes(r, s, s', !s.writable) && s'.sender == ReadyBody(false)
  {
    var acks := !s.writable;
    GoesNowhere(r, s, acks);
    hide Goes, Reachable;
    s' := AllLeave(r, s, s, acks);
    ParkedOutside(r, s');
    if s'.sender.Waiting? && s'.sender.cb !in s'.notified {
      if s'.writable { NoLostWakeUp(r, s'); }
      ParkedSenderHasBacklog(r, s');
      s' := GoesOn(r, s, s', Ack(1, s'.pending), acks);
      s' := AllLeave(r, s, s', acks);
      ParkedOutside(r, s');
      NoLostWakeUp(r, s');
    }
    s' := WakesUp(r, s, s', acks);
  }
}
