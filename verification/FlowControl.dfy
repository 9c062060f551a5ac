/**
 The upload side of one V3 request: the sender task of `split_part_one_send_or_err`, the
 window updates that acknowledge its bytes, and the lock-free callback queue of
 `write_it_maybe`, as one state machine.

 `write_it_maybe` is split into its individual atomic operations, run by any number of
 threads at once.  `inc_rtr_to_tgt_pending_ack_bytes` and `target_connector_ack_bytes` are
 one step each (the latter up to its call of `write_it_maybe`).
 */
module FlowControl {
  import opened Wrappers

  const WATER_MARK_HIGH: int := 64 * 1024
  const WATER_MARK_LOW: int := 16 * 1024

  /** The thread id under which the sender task runs `write_it_maybe`. */
  const SENDER: nat := 0

  /** Where a thread stands inside `write_it_maybe`: the operation it performs next. */
  datatype Pc =
    | LoadWritable            // first test of is_wss_writable
    | LoadQueue               // first test that a callback is queued
    | TryLock                 // compare_exchange(is_wss_writing, false, true)
    | LoopWritable            // loop test of is_wss_writable
    | LoopQueue               // loop test that a callback is queued
    | Pop                     // try_recv
    | StoreFlag(cb: nat)      // should_read_from_cli.store(true)
    | NotifyOne(cb: nat)
    | NotifyWaiters(cb: nat)
    | Unlock                  // is_wss_writing.store(false), then start over
  {
    /** Past the compare_exchange: this thread owns is_wss_writing. */
    predicate Draining() {
      !LoadWritable? && !LoadQueue? && !TryLock?
    }

    /** Has seen is_wss_writable in the loop test and acts on that value. */
    predicate SawWritable() {
      LoopQueue? || Pop?
    }

    /** Has taken `c` out of the queue and not yet released its waiter. */
    predicate Carries(c: nat) {
      (StoreFlag? || NotifyOne?) && cb == c
    }
  }

  /** The sender task: the step it performs next. */
  datatype Sender =
    | ReadyHeader
    | ReadyBody(first: bool)
    | Sending(n: nat, body: bool)    // bytes counted as pending, frame not yet queued
    | Counting(n: nat, body: bool)   // frame queued, from_client_bytes not yet raised
    | Testing                        // the flow-control test after a body chunk
    | Parking                        // about to queue a callback
    | InDrain(cb: nat)               // its own call of write_it_maybe
    | Waiting(cb: nat)               // notified().await
    | Woken(cb: nat)                 // about to test should_read_from_cli
    | Finished
    | Failed                         // send_data failed
    | WokenWithoutFlag               // the "very rare and weird" error return
  {
    predicate Parked() {
      InDrain? || Waiting? || Woken?
    }
  }

  datatype State = State(
    pending: int,
    acked: int,
    fromClient: int,
    writable: bool,
    writing: Option<nat>,     // is_wss_writing: None is false, Some(t) is true and was set by t
    queue: seq<nat>,
    popped: seq<nat>,         // callbacks taken out of the queue, in order
    nextCb: nat,
    flags: set<nat>,          // callbacks whose should_read_from_cli is true
    notified: set<nat>,       // callbacks on which notify_one was called
    threads: map<nat, Pc>,    // the threads inside write_it_maybe
    sender: Sender,
    frames: seq<nat>,         // payload lengths of the header frames still to send
    headerSent: nat,
    bodySent: nat
  )

  /** A request: the payload lengths of its header frames and a bound on its body chunks. */
  datatype Request = Request(frames: seq<nat>, maxChunk: nat)

  datatype Event =
    | IncHeader | StartBody | IncBody(n: nat) | SendOk | SendFail | Count | Test | Park
    | Wake | CheckFlag | Finish
    | Ack(thread: nat, bytes: nat)
    | Op(thread: nat)

  function Init(r: Request): State {
    State(0, 0, 0, true, None, [], [], 0, {}, {}, map[], ReadyHeader, r.frames, 0, 0)
  }

  /** `inc_rtr_to_tgt_pending_ack_bytes` */
  function Inc(s: State, n: nat): State {
    s.(pending := s.pending + n,
       writable := s.writable && s.pending + n <= WATER_MARK_HIGH)
  }

  /** `target_connector_ack_bytes`; when it turns the stream writable its thread owes a drain. */
  function AckBytes(s: State, t: nat, n: nat): State {
    var s' := s.(acked := s.acked + n, pending := s.pending - n);
    if s'.pending < WATER_MARK_LOW && !s'.writable then
      s'.(writable := true, threads := s'.threads[t := LoadWritable])
    else s'
  }

  /** A thread returns from `write_it_maybe`; the sender goes on to wait for its callback. */
  function Return(s: State, t: nat): State {
    s.(threads := s.threads - {t},
       sender := if t == SENDER && s.sender.InDrain? then Waiting(s.sender.cb) else s.sender)
  }

  /** One atomic operation of thread `t` inside `write_it_maybe`. */
  function DrainOp(s: State, t: nat): State
    requires t in s.threads
  {
    match s.threads[t]
    case LoadWritable => if s.writable then Goto(s, t, LoadQueue) else Return(s, t)
    case LoadQueue => if s.queue != [] then Goto(s, t, TryLock) else Return(s, t)
    case TryLock => if s.writing.Some? then Return(s, t) else Goto(s.(writing := Some(t)), t, LoopWritable)
    case LoopWritable => Goto(s, t, if s.writable then LoopQueue else Unlock)
    case LoopQueue => Goto(s, t, if s.queue != [] then Pop else Unlock)
    case Pop =>
      if s.queue == [] then Goto(s, t, LoopWritable)
      else Goto(s.(queue := s.queue[1..], popped := s.popped + [s.queue[0]]), t, StoreFlag(s.queue[0]))
    case StoreFlag(cb) => Goto(s.(flags := s.flags + {cb}), t, NotifyOne(cb))
    case NotifyOne(cb) => Goto(s.(notified := s.notified + {cb}), t, NotifyWaiters(cb))
    case NotifyWaiters(cb) => Goto(s, t, LoopWritable)
    case Unlock => Goto(s.(writing := None), t, LoadWritable)
  }

  function Goto(s: State, t: nat, pc: Pc): State {
    s.(threads := s.threads[t := pc])
  }

  /** One step; an event that is not possible in `s` leaves it unchanged. */
  function Step(r: Request, s: State, e: Event): State {
    match e
    case IncHeader =>
      if s.sender.ReadyHeader? && s.frames != [] then
        Inc(s, s.frames[0]).(frames := s.frames[1..], sender := Sending(s.frames[0], false))
      else s
    case StartBody =>
      if s.sender.ReadyHeader? && s.frames == [] then s.(sender := ReadyBody(true)) else s
    case IncBody(n) =>
      if s.sender.ReadyBody? && n <= r.maxChunk then Inc(s, n).(sender := Sending(n, true)) else s
    case SendOk =>
      if s.sender.Sending? then s.(sender := Counting(s.sender.n, s.sender.body)) else s
    case SendFail =>
      if s.sender.Sending? then s.(sender := Failed) else s
    case Count =>
      if s.sender.Counting? then
        var n := s.sender.n;
        if s.sender.body then s.(fromClient := s.fromClient + n, bodySent := s.bodySent + n, sender := Testing)
        else s.(fromClient := s.fromClient + n, headerSent := s.headerSent + n, sender := ReadyHeader)
      else s
    case Test =>
      if s.sender.Testing? then s.(sender := if s.writable then ReadyBody(false) else Parking) else s
    case Park =>
      if s.sender.Parking? && SENDER !in s.threads then
        s.(queue := s.queue + [s.nextCb], nextCb := s.nextCb + 1, sender := InDrain(s.nextCb),
           threads := s.threads[SENDER := LoadWritable])
      else s
    case Wake =>
      if s.sender.Waiting? && s.sender.cb in s.notified then s.(sender := Woken(s.sender.cb)) else s
    case CheckFlag =>
      if s.sender.Woken? then
        s.(sender := if s.sender.cb in s.flags then ReadyBody(false) else WokenWithoutFlag)
      else s
    case Finish =>
      if s.sender.ReadyBody? then s.(sender := Finished) else s
    case Ack(t, n) =>
      if t != SENDER && t !in s.threads then AckBytes(s, t, n) else s
    case Op(t) =>
      if t in s.threads then DrainOp(s, t) else s
  }

  function Run(r: Request, s: State, es: seq<Event>): State
    decreases |es|
  {
    if es == [] then s else Run(r, Step(r, s, es[0]), es[1..])
  }

  ghost predicate Reachable(r: Request, s: State) {
    exists es :: Run(r, Init(r), es) == s
  }

  function Sum(ns: seq<nat>): nat {
    if ns == [] then 0 else ns[0] + Sum(ns[1..])
  }

  function Max(a: int, b: int): int {
    if a < b then b else a
  }

  // ---------------------------------------------------------------------------------------
  // The invariant
  // ---------------------------------------------------------------------------------------

  /** The thread that set is_wss_writing, and no other, drains. */
  ghost predicate Exclusive(s: State) {
    && (s.writing.Some? ==> s.writing.value in s.threads)
    && (forall t :: t in s.threads ==> (s.threads[t].Draining() <==> s.writing == Some(t)))
  }

  /** A queued callback on a writable stream always has a thread left to look at it. */
  ghost predicate SomebodyLooks(s: State) {
    s.writable && s.queue != [] ==> s.threads.Keys != {}
  }

  /** Callbacks leave the queue exactly once and in order. */
  ghost predicate Fifo(s: State) {
    s.popped + s.queue == seq(s.nextCb, i => i)
  }

  ghost predicate SenderThread(s: State) {
    && (SENDER in s.threads <==> s.sender.InDrain?)
    && (s.sender.Parked() ==> s.sender.cb + 1 == s.nextCb && |s.queue| <= 1)
    && (!s.sender.Parked() ==> s.queue == [])
    && (s.sender.Woken? ==> s.sender.cb in s.notified && s.queue == [])
  }

  predicate DrainerCarries(s: State, c: nat) {
    s.writing.Some? && s.writing.value in s.threads && s.threads[s.writing.value].Carries(c)
  }

  /** The drainer's loop test of is_wss_writable may be out of date. */
  predicate DrainerSawWritable(s: State) {
    s.writing.Some? && s.writing.value in s.threads && s.threads[s.writing.value].SawWritable()
  }

  /** The callback of a parked sender is queued, in the drainer's hands, or notified. */
  ghost predicate CallbackTracked(s: State) {
    && s.notified <= s.flags
    && (forall c :: c in s.flags ==> c in s.popped)
    && (forall t, c :: t in s.threads && s.threads[t] == NotifyOne(c) ==> c in s.flags)
    && (forall c :: DrainerCarries(s, c) ==> c in s.popped)
    && (s.sender.Parked() && s.queue == [] ==> Released(s))
  }

  ghost predicate Watermark(s: State) {
    && (s.pending > WATER_MARK_HIGH ==> !s.writable)
    && (s.pending < WATER_MARK_LOW ==> s.writable)
  }

  /** Before the first park nobody can be past the queue test. */
  ghost predicate QuietBeforeFirstPark(s: State) {
    s.nextCb == 0 ==> forall t :: t in s.threads ==> s.threads[t].LoadWritable? || s.threads[t].LoadQueue?
  }

  ghost predicate Released(s: State) {
    s.sender.Parked() && (s.sender.cb in s.notified || DrainerCarries(s, s.sender.cb))
  }

  /** What bounds the next chunk: how much can be pending when the sender may send. */
  ghost predicate Bounded(r: Request, s: State) {
    && (DrainerSawWritable(s) ==> s.pending <= WATER_MARK_HIGH + r.maxChunk)
    && (s.sender == ReadyBody(false) || Released(s) ==>
          && s.pending <= WATER_MARK_HIGH + r.maxChunk
          && (DrainerSawWritable(s) ==> s.pending <= WATER_MARK_HIGH))
    && (s.sender.ReadyHeader? || s.sender == ReadyBody(true) || (s.sender.Sending? && !s.sender.body)
        || (s.sender.Counting? && !s.sender.body) ==>
          s.nextCb == 0 && s.pending + Sum(s.frames) <= Sum(r.frames))
    && (s.sender == ReadyBody(true) ==> s.frames == [])
    && s.pending <= Max(Sum(r.frames) + r.maxChunk, WATER_MARK_HIGH + 2 * r.maxChunk)
    && ((s.sender.Sending? || s.sender.Counting?) && s.sender.body ==> s.sender.n <= r.maxChunk)
  }

  /** Bytes counted as pending whose frame is not yet in from_client_bytes. */
  function InFlight(s: State): nat {
    if s.sender.Sending? || s.sender.Counting? then s.sender.n else 0
  }

  /** The part of them that belongs to the header. */
  function HeaderInFlight(s: State): nat {
    if (s.sender.Sending? || s.sender.Counting?) && !s.sender.body then s.sender.n else 0
  }

  ghost predicate Conserved(r: Request, s: State) {
    && s.fromClient == s.headerSent + s.bodySent
    && (!s.sender.Failed? ==> s.headerSent + HeaderInFlight(s) + Sum(s.frames) == Sum(r.frames))
    && (!s.sender.Failed? ==> s.pending + s.acked == s.fromClient + InFlight(s))
  }

  /** The drain, the sender's callbacks and the backlog. */
  ghost predicate Core(r: Request, s: State) {
    && Exclusive(s) && SomebodyLooks(s) && Fifo(s) && SenderThread(s) && CallbackTracked(s)
    && QuietBeforeFirstPark(s) && Bounded(r, s) && !s.sender.WokenWithoutFlag?
  }

  ghost predicate Inv(r: Request, s: State) {
    Watermark(s) && Conserved(r, s) && Core(r, s)
  }

  // ---------------------------------------------------------------------------------------
  // Every step keeps it
  // ---------------------------------------------------------------------------------------

  lemma PoppedAreOld(s: State)
    requires Fifo(s)
    ensures forall c :: c in s.popped || c in s.queue ==> c < s.nextCb
  {
    forall c | c in s.popped || c in s.queue
      ensures c < s.nextCb
    {
      assert c in s.popped + s.queue;
    }
  }

  /** A queued callback is the parked sender's own, and has not been popped before. */
  lemma QueuedIsOwn(s: State)
    requires Fifo(s) && SenderThread(s) && s.queue != []
    ensures s.queue == [s.sender.cb] && s.sender.cb !in s.popped
  {
    var all := s.popped + s.queue;
    assert all[|s.popped|] == s.queue[0];
    forall i | 0 <= i < |s.popped|
      ensures s.popped[i] != s.sender.cb
    {
      assert all[i] == s.popped[i];
    }
  }

  lemma StepKeepsWatermark(r: Request, s: State, e: Event)
    requires Watermark(s)
    ensures Watermark(Step(r, s, e))
  {
  }

  /** A drain touches no counter, and the sender only while it has nothing in flight. */
  lemma DrainOpCounts(s: State, t: nat)
    requires t in s.threads
    ensures var s' := DrainOp(s, t);
      && s'.pending == s.pending && s'.acked == s.acked && s'.fromClient == s.fromClient && s'.frames == s.frames
      && s'.headerSent == s.headerSent && s'.bodySent == s.bodySent
      && InFlight(s') == InFlight(s) && HeaderInFlight(s') == HeaderInFlight(s)
      && (s'.sender.Failed? <==> s.sender.Failed?)
  {
  }

  lemma IncHeaderKeepsConserved(r: Request, s: State)
    requires Conserved(r, s)
    ensures Conserved(r, Step(r, s, IncHeader))
  {
  }

  lemma StepKeepsConserved(r: Request, s: State, e: Event)
    requires Conserved(r, s)
    ensures Conserved(r, Step(r, s, e))
  {
    if e.IncHeader? {
      IncHeaderKeepsConserved(r, s);
    } else {
      if e.Op? && e.thread in s.threads { DrainOpCounts(s, e.thread); }
      hide DrainOp, Sum;
    }
  }

  lemma IncHeaderKeepsCore(r: Request, s: State)
    requires Watermark(s) && Core(r, s)
    ensures Core(r, Step(r, s, IncHeader))
  {
  }

  lemma IncBodyKeepsCore(r: Request, s: State, n: nat)
    requires Watermark(s) && Core(r, s)
    ensures Core(r, Step(r, s, IncBody(n)))
  {
  }

  lemma SendKeepsCore(r: Request, s: State, e: Event)
    requires Watermark(s) && Core(r, s) && (e.SendOk? || e.SendFail?)
    ensures Core(r, Step(r, s, e))
  {
  }

  lemma PhaseKeepsCore(r: Request, s: State, e: Event)
    requires Watermark(s) && Core(r, s) && (e.StartBody? || e.Finish?)
    ensures Core(r, Step(r, s, e))
  {
  }

  lemma CountKeepsCore(r: Request, s: State)
    requires Watermark(s) && Core(r, s)
    ensures Core(r, Step(r, s, Count))
  {
  }

  lemma WaitKeepsCore(r: Request, s: State, e: Event)
    requires Watermark(s) && Core(r, s) && (e.Test? || e.Wake? || e.CheckFlag?)
    ensures Core(r, Step(r, s, e))
  {
    if s.queue != [] { QueuedIsOwn(s); }
  }

  lemma ParkKeepsCore(r: Request, s: State)
    requires Watermark(s) && Core(r, s)
    ensures Core(r, Step(r, s, Park))
  {
    var s' := Step(r, s, Park);
    if s' != s {
      PoppedAreOld(s);
      assert s'.popped + s'.queue == (s.popped + s.queue) + [s.nextCb];
    }
  }

  lemma AckKeepsCore(r: Request, s: State, t: nat, n: nat)
    requires Watermark(s) && Core(r, s)
    ensures Core(r, Step(r, s, Ack(t, n)))
  {
  }

  lemma ReturnKeepsCore(r: Request, s: State, t: nat)
    requires Watermark(s) && Core(r, s) && t in s.threads && !s.threads[t].Draining()
    requires s.writable && s.queue != [] ==> s.writing.Some?
    ensures Core(r, Return(s, t))
  {
  }

  lemma EnterKeepsCore(r: Request, s: State, t: nat)
    requires Watermark(s) && Core(r, s) && t in s.threads && !s.threads[t].Draining()
    ensures Core(r, DrainOp(s, t))
  {
    match s.threads[t]
    case LoadWritable => if !s.writable { ReturnKeepsCore(r, s, t); }
    case LoadQueue => if s.queue == [] { ReturnKeepsCore(r, s, t); }
    case TryLock => if s.writing.Some? { ReturnKeepsCore(r, s, t); }
  }

  lemma PopKeepsCore(r: Request, s: State, t: nat)
    requires Watermark(s) && Core(r, s) && t in s.threads && s.threads[t].Pop?
    ensures Core(r, DrainOp(s, t))
  {
    if s.queue != [] {
      QueuedIsOwn(s);
      assert (s.popped + [s.queue[0]]) + s.queue[1..] == s.popped + s.queue;
    }
  }

  lemma LoopKeepsCore(r: Request, s: State, t: nat)
    requires Watermark(s) && Core(r, s) && t in s.threads
    requires s.threads[t].LoopWritable? || s.threads[t].LoopQueue? || s.threads[t].Unlock?
    ensures Core(r, DrainOp(s, t))
  {
  }

  lemma NotifyKeepsCore(r: Request, s: State, t: nat)
    requires Watermark(s) && Core(r, s) && t in s.threads
    requires s.threads[t].StoreFlag? || s.threads[t].NotifyOne? || s.threads[t].NotifyWaiters?
    ensures Core(r, DrainOp(s, t))
  {
  }

  lemma StepKeepsCore(r: Request, s: State, e: Event)
    requires Watermark(s) && Core(r, s)
    ensures Core(r, Step(r, s, e))
  {
    hide Watermark, Core;
    match e
    case IncHeader => IncHeaderKeepsCore(r, s);
    case IncBody(n) => IncBodyKeepsCore(r, s, n);
    case Park => ParkKeepsCore(r, s);
    case Ack(t, n) => AckKeepsCore(r, s, t, n);
    case Op(t) =>
      if t in s.threads {
        if !s.threads[t].Draining() { EnterKeepsCore(r, s, t); }
        else if s.threads[t].Pop? { PopKeepsCore(r, s, t); }
        else if s.threads[t].LoopWritable? || s.threads[t].LoopQueue? || s.threads[t].Unlock? {
          LoopKeepsCore(r, s, t);
        }
        else { NotifyKeepsCore(r, s, t); }
      }
    case Count => CountKeepsCore(r, s);
    case Test => WaitKeepsCore(r, s, e);
    case Wake => WaitKeepsCore(r, s, e);
    case CheckFlag => WaitKeepsCore(r, s, e);
    case SendOk => SendKeepsCore(r, s, e);
    case SendFail => SendKeepsCore(r, s, e);
    case _ => PhaseKeepsCore(r, s, e);
  }

  lemma StepKeepsInv(r: Request, s: State, e: Event)
    requires Inv(r, s)
    ensures Inv(r, Step(r, s, e))
  {
    hide Watermark, Conserved, Core, Step;
    StepKeepsWatermark(r, s, e);
    StepKeepsConserved(r, s, e);
    StepKeepsCore(r, s, e);
  }

  lemma {:induction false} RunKeepsInv(r: Request, s: State, es: seq<Event>)
    requires Inv(r, s)
    ensures Inv(r, Run(r, s, es))
    decreases |es|
  {
    hide Inv, Step;
    if es != [] {
      StepKeepsInv(r, s, es[0]);
      RunKeepsInv(r, Step(r, s, es[0]), es[1..]);
    }
  }

  lemma ReachableInv(r: Request, s: State)
    requires Reachable(r, s)
    ensures Inv(r, s)
  {
    var es :| Run(r, Init(r), es) == s;
    RunKeepsInv(r, Init(r), es);
  }

  // ---------------------------------------------------------------------------------------
  // What every run guarantees
  // ---------------------------------------------------------------------------------------

  /** Two threads are never in the drain loop together. */
  lemma MutualExclusion(r: Request, s: State, t: nat, u: nat)
    requires Reachable(r, s) && t in s.threads && u in s.threads
    requires s.threads[t].Draining() && s.threads[u].Draining()
    ensures t == u
  {
    ReachableInv(r, s);
  }

  /** Callback `i` is the `i`-th to leave the queue, and leaves it at most once. */
  lemma PoppedAtMostOnce(r: Request, s: State, i: nat, j: nat)
    requires Reachable(r, s) && i < |s.popped| && j < |s.popped| && s.popped[i] == s.popped[j]
    ensures i == j && s.popped[i] == i && i !in s.queue
  {
    ReachableInv(r, s);
    var all := s.popped + s.queue;
    assert all[i] == s.popped[i] && all[j] == s.popped[j];
    forall k | 0 <= k < |s.queue|
      ensures s.queue[k] != i
    {
      assert all[|s.popped| + k] == s.queue[k];
    }
  }

  /** When no thread is inside write_it_maybe, a writable stream has no callback left behind. */
  lemma NoLostWakeUp(r: Request, s: State)
    requires Reachable(r, s) && s.threads == map[] && s.writable
    ensures s.queue == []
    ensures s.sender.Waiting? ==> s.sender.cb in s.notified
  {
    ReachableInv(r, s);
  }

  /** The error return after a wake-up without should_read_from_cli is unreachable. */
  lemma NeverWokenWithoutFlag(r: Request, s: State)
    requires Reachable(r, s)
    ensures !s.sender.WokenWithoutFlag?
  {
    ReachableInv(r, s);
  }

  lemma WatermarkLaw(r: Request, s: State)
    requires Reachable(r, s)
    ensures s.pending > WATER_MARK_HIGH ==> !s.writable
    ensures s.pending < WATER_MARK_LOW ==> s.writable
  {
    ReachableInv(r, s);
  }

  /** A sender that waits while nobody owes it a drain has at least 16 KiB unacknowledged. */
  lemma ParkedSenderHasBacklog(r: Request, s: State)
    requires Reachable(r, s) && s.threads == map[]
    requires s.sender.Waiting? && s.sender.cb !in s.notified
    ensures s.pending >= WATER_MARK_LOW && s.queue == [s.sender.cb]
  {
    ReachableInv(r, s);
    if s.queue != [] { QueuedIsOwn(s); }
  }

  /**
   After every frame sent, received = unacknowledged + acknowledged = header + body bytes, and
   what is sent, in flight and still to send of the header is the header of the request.
   */
  lemma UploadConserved(r: Request, s: State)
    requires Reachable(r, s) && !s.sender.Failed?
    ensures s.fromClient == s.headerSent + s.bodySent
    ensures s.pending + s.acked == s.fromClient + InFlight(s)
    ensures s.headerSent + HeaderInFlight(s) + Sum(s.frames) == Sum(r.frames)
  {
    ReachableInv(r, s);
  }

  lemma PendingBound(r: Request, s: State)
    requires Reachable(r, s)
    ensures s.pending <= Max(Sum(r.frames) + r.maxChunk, WATER_MARK_HIGH + 2 * r.maxChunk)
  {
    ReachableInv(r, s);
  }
}
