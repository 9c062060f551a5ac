/**
 Token conservation in the farm: whatever requests, registrations and cancellations overlap,
 no socket ever has two queue entries, none is lost, and no V1 socket is handed out twice.
 */
module FarmTokens {
  import opened Wrappers
  import opened FarmProtocol

  // ---------------------------------------------------------------------------------------
  // Counting tokens
  // ---------------------------------------------------------------------------------------

  /** The tokens a request has taken from a queue and not given back. */
  ghost function Hand(pc: Pc): multiset<Id> {
    match pc
    case Hold(_, id) => multiset{id}
    case Fall(_, skipped, _) => multiset(skipped)
    case FallHold(_, skipped, id, _) => multiset(skipped) + multiset{id}
    case Flush(_, skipped, chosen, _) => multiset(skipped) + if chosen.Some? then multiset{chosen.value} else multiset{}
    case _ => multiset{}
  }

  ghost function InQueues(qs: seq<seq<Id>>, x: Id): nat {
    if qs == [] then 0 else multiset(qs[0])[x] + InQueues(qs[1..], x)
  }

  ghost function InHands(reqs: seq<Req>, x: Id): nat {
    if reqs == [] then 0 else Hand(reqs[0].pc)[x] + InHands(reqs[1..], x)
  }

  ghost function InPuts(puts: seq<Put>, x: Id): nat {
    if puts == [] then 0 else (if puts[0].id == x then 1 else 0) + InPuts(puts[1..], x)
  }

  ghost function Tokens(s: State, x: Id): nat {
    InQueues(s.queues, x) + InHands(s.reqs, x) + InPuts(s.puts, x)
  }

  /** How many requests were given the V1 socket `x`. */
  ghost function Uses(s: State, x: Id): nat {
    if V3(s, x) then 0 else multiset(s.served)[x]
  }

  ghost function Weight(s: State, x: Id): nat {
    Tokens(s, x) + Uses(s, x)
  }

  lemma {:induction false} QueuesUpdate(qs: seq<seq<Id>>, c: nat, q: seq<Id>, x: Id)
    requires c < |qs|
    ensures InQueues(qs[c := q], x) == InQueues(qs, x) - multiset(qs[c])[x] + multiset(q)[x]
    decreases |qs|
  {
    if c > 0 {
      assert qs[c := q][1..] == qs[1..][c - 1 := q];
      QueuesUpdate(qs[1..], c - 1, q, x);
    } else {
      assert qs[0 := q][1..] == qs[1..];
    }
  }

  lemma {:induction false} QueuesAppend(qs: seq<seq<Id>>, x: Id)
    ensures InQueues(qs + [[]], x) == InQueues(qs, x)
    decreases |qs|
  {
    if qs == [] {
      assert qs + [[]] == [[]];
    } else {
      assert (qs + [[]])[1..] == qs[1..] + [[]];
      QueuesAppend(qs[1..], x);
    }
  }

  lemma {:induction false} HandsUpdate(reqs: seq<Req>, r: nat, q: Req, x: Id)
    requires r < |reqs|
    ensures InHands(reqs[r := q], x) == InHands(reqs, x) - Hand(reqs[r].pc)[x] + Hand(q.pc)[x]
    decreases |reqs|
  {
    hide Hand;
    if r > 0 {
      assert reqs[r := q][1..] == reqs[1..][r - 1 := q];
      HandsUpdate(reqs[1..], r - 1, q, x);
    } else {
      assert reqs[0 := q][1..] == reqs[1..];
    }
  }

  lemma {:induction false} HandsAppend(reqs: seq<Req>, q: Req, x: Id)
    ensures InHands(reqs + [q], x) == InHands(reqs, x) + Hand(q.pc)[x]
    decreases |reqs|
  {
    hide Hand;
    if reqs == [] {
      assert reqs + [q] == [q];
    } else {
      assert (reqs + [q])[1..] == reqs[1..] + [q];
      HandsAppend(reqs[1..], q, x);
    }
  }

  lemma {:induction false} PutsConcat(a: seq<Put>, b: seq<Put>, x: Id)
    ensures InPuts(a + b, x) == InPuts(a, x) + InPuts(b, x)
    decreases |a|
  {
    if a == [] {
      assert a + b == b;
    } else {
      assert (a + b)[1..] == a[1..] + b;
      PutsConcat(a[1..], b, x);
    }
  }

  lemma PutsRemove(puts: seq<Put>, k: nat, x: Id)
    requires k < |puts|
    ensures InPuts(puts, x) == InPuts(puts[..k] + puts[k + 1..], x) + if puts[k].id == x then 1 else 0
  {
    assert puts == puts[..k] + ([puts[k]] + puts[k + 1..]);
    PutsConcat(puts[..k], [puts[k]] + puts[k + 1..], x);
    PutsConcat([puts[k]], puts[k + 1..], x);
    PutsConcat(puts[..k], puts[k + 1..], x);
  }

  lemma TwiceCounts(q: seq<Id>, i: nat, j: nat)
    requires i < j < |q| && q[i] == q[j]
    ensures multiset(q)[q[i]] >= 2
  {
    assert q == q[..j] + q[j..];
    assert q[i] == q[..j][i] && q[j] == q[j..][0];
    assert q[i] in multiset(q[..j]) && q[i] in multiset(q[j..]);
  }

  // ---------------------------------------------------------------------------------------
  // What the operations on shared state do to the count
  // ---------------------------------------------------------------------------------------

  ghost function One(id: Id, x: Id): nat {
    if id == x then 1 else 0
  }

  lemma SendCount(s: State, c: nat, id: Id, x: Id)
    requires c < |s.queues|
    ensures Tokens(Send(s, c, id), x) == Tokens(s, x) + One(id, x)
    ensures Weight(Send(s, c, id), x) == Weight(s, x) + One(id, x)
  {
    QueuesUpdate(s.queues, c, s.queues[c] + [id], x);
  }

  lemma TakeCount(s: State, c: nat, x: Id)
    requires c < |s.queues| && s.queues[c] != []
    ensures Weight(Take(s, c), x) == Weight(s, x) - One(s.queues[c][0], x)
  {
    QueuesUpdate(s.queues, c, s.queues[c][1..], x);
    assert s.queues[c] == [s.queues[c][0]] + s.queues[c][1..];
  }

  lemma GotoCount(s: State, r: nat, pc: Pc, x: Id)
    requires r < |s.reqs|
    ensures Weight(Goto(s, r, pc), x) == Weight(s, x) - Hand(s.reqs[r].pc)[x] + Hand(pc)[x]
  {
    hide Hand;
    HandsUpdate(s.reqs, r, s.reqs[r].(pc := pc), x);
  }

  lemma SendBackCount(s: State, c: nat, id: Id, who: Option<nat>, x: Id)
    requires c < |s.queues|
    ensures Weight(SendBack(s, c, id, who), x) == Weight(s, x) + One(id, x)
  {
    SendCount(s, c, id, x);
    hide InQueues, InHands, InPuts;
  }

  lemma LookCount(s: State, r: nat, id: Id, x: Id)
    requires r < |s.reqs|
    ensures Weight(Look(s, r, id), x) == Weight(s, x)
  {
    RecordConserves(s, r, s.reqs[r].(looked := s.reqs[r].looked + {id}), x);
    hide Weight;
  }

  lemma ServeCount(s: State, c: nat, id: Id, r: nat, x: Id)
    requires c < |s.queues|
    ensures Serve(s, c, id, r).reqs == s.reqs
    ensures Weight(Serve(s, c, id, r), x) == Weight(s, x) + One(id, x)
  {
    hide InQueues;
    SendBackCount(s, c, id, Some(r), x);
    assert multiset(s.served + [id])[x] == multiset(s.served)[x] + One(id, x);
  }

  // ---------------------------------------------------------------------------------------
  // Steps
  // ---------------------------------------------------------------------------------------

  /** Only the token of a socket that is gone or removed may be dropped. */
  ghost predicate Conserves(s: State, s': State, x: Id) {
    || Weight(s', x) == Weight(s, x)
    || (Weight(s', x) == Weight(s, x) - 1 && (x !in s.alive || x in s.removed))
  }

  lemma ReceiveConserves(s: State, r: nat, x: Id)
    requires WF(s) && r < |s.reqs|
    ensures Conserves(s, DoReceive(s, r), x)
  {
    ChannelsOf(s, r);
    hide WF, Weight;
    var q := s.reqs[r];
    if q.pc.Scan? && s.queues[q.chan] != [] {
      TakeCount(s, q.chan, x);
      GotoCount(Take(s, q.chan), r, Hold(q.pc.visited, s.queues[q.chan][0]), x);
    }
  }

  lemma HoldHands(visited: set<Id>, id: Id, c: nat, x: Id)
    ensures Hand(Hold(visited, id))[x] == One(id, x)
    ensures Hand(Done) == Hand(Scan(visited)) == Hand(Scan(visited + {id})) == Hand(Flush(c, [], None, 0)) == multiset{}
  {
  }

  lemma JudgeConserves(s: State, r: nat, use: bool, x: Id)
    requires WF(s) && r < |s.reqs|
    ensures Conserves(s, DoJudge(s, r, use), x)
  {
    ChannelsOf(s, r);
    hide WF, Weight, Serve, Hand;
    var q := s.reqs[r];
    if q.pc.Hold? {
      var id := q.pc.id;
      HoldHands(q.pc.visited, id, q.chan, x);
      if id !in s.alive {
        GotoCount(s, r, Scan(q.pc.visited), x);
      } else if id in q.pc.visited {
        SendBackCount(s, q.chan, id, Some(r), x);
        GotoCount(SendBack(s, q.chan, id, Some(r)), r, Flush(q.chan, [], None, 0), x);
      } else if id in s.removed {
        GotoCount(s, r, Scan(q.pc.visited), x);
      } else if use {
        ServeCount(s, q.chan, id, r, x);
        GotoCount(Serve(s, q.chan, id, r), r, Done, x);
      } else {
        SendBackCount(s, q.chan, id, Some(r), x);
        GotoCount(SendBack(s, q.chan, id, Some(r)), r, Scan(q.pc.visited + {id}), x);
      }
      LookCount(Place(s, r, use), r, id, x);
    }
  }

  lemma StopConserves(s: State, r: nat, pc: Pc, x: Id)
    requires r < |s.reqs| && Hand(pc) == multiset{}
    ensures Conserves(s, DoStop(s, r, pc), x)
  {
    var q := s.reqs[r];
    GotoCount(s, r, pc, x);
    if q.pc.Hold? {
      hide Hand;
      HoldHands(q.pc.visited, q.pc.id, q.chan, x);
      PutsConcat(s.puts, [Put(q.chan, q.pc.id)], x);
      assert InPuts([Put(q.chan, q.pc.id)], x) == One(q.pc.id, x);
    }
    hide InQueues, InHands, InPuts;
  }

  lemma TimeoutConserves(s: State, r: nat, x: Id)
    requires r < |s.reqs|
    ensures Conserves(s, DoTimeout(s, r), x)
  {
    var q := s.reqs[r];
    var pc := Flush(q.chan, [], None, 0);
    StopConserves(s, r, pc, x);
    var s1 := DoStop(s, r, pc);
    HandsUpdate(s1.reqs, r, s1.reqs[r].(final := true), x);
    hide InQueues, InHands, InPuts, DoStop;
  }

  lemma FallHands(c: nat, skipped: seq<Id>, id: Id, stage: nat, x: Id)
    ensures Hand(FallHold(c, skipped, id, stage))[x] == Hand(Fall(c, skipped, stage))[x] + One(id, x)
    ensures Hand(Flush(c, skipped, Some(id), stage)) == Hand(FallHold(c, skipped, id, stage))
    ensures Hand(Fall(c, skipped + [id], stage)) == Hand(FallHold(c, skipped, id, stage))
    ensures Hand(Flush(c, skipped, None, stage)) == Hand(Fall(c, skipped, stage))
  {
  }

  lemma TryRecvConserves(s: State, r: nat, x: Id)
    requires WF(s) && r < |s.reqs|
    ensures Conserves(s, DoTryRecv(s, r), x)
  {
    ChannelsOf(s, r);
    hide WF, Weight, Hand;
    var pc := s.reqs[r].pc;
    if pc.Fall? {
      if s.queues[pc.chan] == [] {
        FallHands(pc.chan, pc.skipped, x, pc.stage, x);
        GotoCount(s, r, Flush(pc.chan, pc.skipped, None, pc.stage), x);
      } else {
        FallHands(pc.chan, pc.skipped, s.queues[pc.chan][0], pc.stage, x);
        TakeCount(s, pc.chan, x);
        GotoCount(Take(s, pc.chan), r, FallHold(pc.chan, pc.skipped, s.queues[pc.chan][0], pc.stage), x);
      }
    }
  }

  lemma FallJudgeConserves(s: State, r: nat, dark: bool, x: Id)
    requires r < |s.reqs|
    ensures Conserves(s, DoFallJudge(s, r, dark), x)
  {
    hide Weight, Hand;
    var pc := s.reqs[r].pc;
    if pc.FallHold? {
      FallHands(pc.chan, pc.skipped, pc.id, pc.stage, x);
      GotoCount(s, r, AfterFall(s, pc, dark), x);
      LookCount(Goto(s, r, AfterFall(s, pc, dark)), r, pc.id, x);
    }
  }

  lemma FlushHands(c: nat, skipped: seq<Id>, chosen: Option<Id>, stage: nat, x: Id)
    ensures skipped != [] ==>
      Hand(Flush(c, skipped, chosen, stage))[x] == Hand(Flush(c, skipped[1..], chosen, stage))[x] + One(skipped[0], x)
    ensures skipped == [] ==>
      Hand(Flush(c, skipped, chosen, stage))[x] == if chosen.Some? then One(chosen.value, x) else 0
    ensures Hand(Done)[x] == 0
  {
    if skipped != [] {
      assert skipped == [skipped[0]] + skipped[1..];
    }
  }

  lemma NextStageHand(s: State, q: Req, stage: nat, run: bool)
    ensures Hand(NextStage(s, q, stage, run)) == multiset{}
  {
  }

  lemma AdvanceConserves(s: State, r: nat, run: bool, x: Id)
    requires WF(s) && r < |s.reqs|
    ensures Conserves(s, DoAdvance(s, r, run), x)
  {
    ChannelsOf(s, r);
    hide WF, Weight, Serve, Hand, NextStage;
    var pc := s.reqs[r].pc;
    if pc.Flush? {
      FlushHands(pc.chan, pc.skipped, pc.chosen, pc.stage, x);
      if pc.skipped != [] {
        SendBackCount(s, pc.chan, pc.skipped[0], Some(r), x);
        var rest := Flush(pc.chan, pc.skipped[1..], pc.chosen, pc.stage);
        GotoCount(SendBack(s, pc.chan, pc.skipped[0], Some(r)), r, rest, x);
      } else if pc.chosen.Some? {
        ServeCount(s, pc.chan, pc.chosen.value, r, x);
        GotoCount(Serve(s, pc.chan, pc.chosen.value, r), r, Done, x);
      } else {
        NextStageHand(s, s.reqs[r], pc.stage, run);
        GotoCount(s, r, NextStage(s, s.reqs[r], pc.stage, run), x);
      }
    }
  }

  lemma RecordConserves(s: State, r: nat, q: Req, x: Id)
    requires r < |s.reqs| && Hand(q.pc) == Hand(s.reqs[r].pc)
    ensures Weight(s.(reqs := s.reqs[r := q]), x) == Weight(s, x)
  {
    HandsUpdate(s.reqs, r, q, x);
  }

  lemma WaitConserves(s: State, r: nat, e: Event, x: Id)
    requires WF(s) && r < |s.reqs| && (e.Notice? || e.Subscribe?)
    ensures Conserves(s, DoReq(s, r, e), x)
  {
    hide WF, Weight;
    var q := s.reqs[r];
    if e.Notice? && q.pc.Parked? {
      RecordConserves(s, r, Heard(s, q), x);
    } else if e.Subscribe? && q.pc.Fresh? {
      RecordConserves(s, r, Rescan(q, |s.notes|, s.clock), x);
    }
  }

  lemma ReqConserves(s: State, r: nat, e: Event, x: Id)
    requires WF(s) && r < |s.reqs|
    ensures Conserves(s, DoReq(s, r, e), x)
  {
    if e.Notice? || e.Subscribe? {
      WaitConserves(s, r, e, x);
      return;
    }
    hide WF, Weight, DoReceive, DoJudge, DoStop, DoTimeout, DoTryRecv, DoFallJudge, DoAdvance;
    match e
    case Receive(_) => ReceiveConserves(s, r, x);
    case Judge(_, use) => JudgeConserves(s, r, use, x);
    case Leave(_) => StopConserves(s, r, Done, x);
    case Timeout(_) => TimeoutConserves(s, r, x);
    case TryRecv(_) => TryRecvConserves(s, r, x);
    case FallJudge(_, dark) => FallJudgeConserves(s, r, dark, x);
    case Advance(_, run) => AdvanceConserves(s, r, run, x);
    case _ =>
  }

  // ---------------------------------------------------------------------------------------
  // The invariant
  // ---------------------------------------------------------------------------------------

  /** The registration of `x` has put it in its queue. */
  ghost predicate Queued(s: State, x: Id) {
    x in s.socks && !s.socks[x].adding.Inserted?
  }

  ghost predicate TokenOk(s: State, x: Id) {
    && Weight(s, x) <= 1
    && (!Queued(s, x) ==> Weight(s, x) == 0)
    && (Queued(s, x) && x in s.alive && x !in s.removed ==> Weight(s, x) == 1)
  }

  /** What no step of a request changes. */
  ghost predicate SameFarm(s: State, s': State) {
    && s'.socks == s.socks && s'.registered == s.registered && s'.removed == s.removed && s'.alive == s.alive
    && s'.current == s.current && s'.owners == s.owners
    && s'.notes == s.notes && s'.lights == s.lights && s'.clock == s.clock
  }

  lemma ServeFrame(s: State, c: nat, id: Id, r: nat)
    requires c < |s.queues|
    ensures SameFarm(s, Serve(s, c, id, r)) && Serve(s, c, id, r).reqs == s.reqs
  {
  }

  lemma GotoFrame(s: State, s': State, r: nat, pc: Pc)
    requires r < |s.reqs| && SameFarm(s, s') && s'.reqs == s.reqs
    ensures SameFarm(s, Goto(s', r, pc)) && Goto(s', r, pc).reqs == s.reqs[r := s.reqs[r].(pc := pc)]
  {
  }

  lemma LookFrame(s: State, s': State, r: nat, id: Id)
    requires r < |s'.reqs| && SameFarm(s, s')
    ensures SameFarm(s, Look(s', r, id))
  {
  }

  /** Where a judgement leaves the request: scanning, done, or at the fallback. */
  lemma JudgeForm(s: State, r: nat, use: bool) returns (pc: Pc)
    requires WF(s) && r < |s.reqs| && s.reqs[r].pc.Hold?
    ensures var s', q := DoJudge(s, r, use), s.reqs[r];
      SameFarm(s, s') && s'.reqs == s.reqs[r := q.(pc := pc, looked := q.looked + {q.pc.id})]
    ensures pc.Scan? || pc.Done? || pc == Flush(s.reqs[r].chan, [], None, 0)
  {
    ChannelsOf(s, r);
    var q, id := s.reqs[r], s.reqs[r].pc.id;
    var sent, served := SendBack(s, q.chan, id, Some(r)), Serve(s, q.chan, id, r);
    ServeFrame(s, q.chan, id, r);
    assert SameFarm(s, sent) && SameFarm(s, s);
    pc := Place(s, r, use).reqs[r].pc;
    hide WF, Serve, SendBack, SameFarm, Goto;
    GotoFrame(s, s, r, Scan(q.pc.visited));
    GotoFrame(s, sent, r, Flush(q.chan, [], None, 0));
    GotoFrame(s, sent, r, Scan(q.pc.visited + {id}));
    GotoFrame(s, served, r, Done);
    LookFrame(s, Place(s, r, use), r, id);
  }

  lemma ScanFrame(s: State, r: nat, use: bool)
    requires WF(s) && r < |s.reqs|
    ensures SameFarm(s, DoReceive(s, r)) && SameFarm(s, DoJudge(s, r, use))
  {
    ChannelsOf(s, r);
    hide WF, Place;
    if s.reqs[r].pc.Hold? {
      var _ := JudgeForm(s, r, use);
    }
  }

  lemma StopFrame(s: State, r: nat)
    requires r < |s.reqs|
    ensures SameFarm(s, DoStop(s, r, Done)) && SameFarm(s, DoTimeout(s, r))
  {
  }

  lemma FallFrame(s: State, r: nat, dark: bool)
    requires WF(s) && r < |s.reqs|
    ensures SameFarm(s, DoTryRecv(s, r)) && SameFarm(s, DoFallJudge(s, r, dark))
  {
    ChannelsOf(s, r);
    hide WF;
  }

  lemma AdvanceFrame(s: State, r: nat, run: bool)
    requires WF(s) && r < |s.reqs|
    ensures SameFarm(s, DoAdvance(s, r, run))
  {
    ChannelsOf(s, r);
    hide WF, NextStage;
  }

  lemma ReqFrame(s: State, r: nat, e: Event)
    requires WF(s) && r < |s.reqs|
    ensures SameFarm(s, DoReq(s, r, e))
  {
    hide WF, DoReceive, DoJudge, DoStop, DoTimeout, DoTryRecv, DoFallJudge, DoAdvance, Heard;
    match e
    case Receive(_) => ScanFrame(s, r, true);
    case Judge(_, use) => ScanFrame(s, r, use);
    case Leave(_) => StopFrame(s, r);
    case Timeout(_) => StopFrame(s, r);
    case TryRecv(_) => FallFrame(s, r, true);
    case FallJudge(_, dark) => FallFrame(s, r, dark);
    case Advance(_, run) => AdvanceFrame(s, r, run);
    case _ =>
  }

  lemma ReqKeepsTokens(s: State, r: nat, e: Event, x: Id)
    requires WF(s) && r < |s.reqs| && TokenOk(s, x)
    ensures TokenOk(DoReq(s, r, e), x)
  {
    ReqFrame(s, r, e);
    ReqConserves(s, r, e, x);
    hide DoReq, WF, Weight;
  }

  lemma EnqueueCount(s: State, id: Id, x: Id)
    requires WF(s) && id in s.socks && s.socks[id].adding.Inserted?
    ensures Weight(DoEnqueue(s, id), x) == Weight(s, x) + One(id, x)
  {
    var route := s.socks[id].route;
    var s1 := WithChannel(s, route);
    ChannelCount(s, route, x);
    SendCount(s1, s1.current[route], id, x);
    AddingCount(Send(s1, s1.current[route], id), id, Enqueued(s.clock, s1.current[route]), x);
    hide Weight;
  }

  lemma ChannelCount(s: State, route: string, x: Id)
    ensures Weight(WithChannel(s, route), x) == Weight(s, x)
  {
    QueuesAppend(s.queues, x);
    hide InQueues, InHands, InPuts;
  }

  lemma AddingCount(s: State, id: Id, a: Adding, x: Id)
    requires id in s.socks
    ensures Weight(SetAdding(s, id, a), x) == Weight(s, x)
  {
    hide InQueues, InHands, InPuts;
  }

  lemma PutBackCount(s: State, k: nat, x: Id)
    requires WF(s)
    ensures Weight(DoPutBack(s, k), x) == Weight(s, x)
  {
    if k < |s.puts| {
      var c, id := s.puts[k].chan, s.puts[k].id;
      SendBackCount(s, c, id, None, x);
      PutsRemove(s.puts, k, x);
      hide InQueues, InHands, InPuts;
    }
  }

  lemma FarmKeepsTokens(s: State, e: Event, x: Id)
    requires WF(s) && TokenOk(s, x)
    ensures TokenOk(DoFarm(s, e), x)
  {
    if e.Enqueue? && e.id in s.socks && s.socks[e.id].adding.Inserted? {
      EnqueueCount(s, e.id, x);
      EnqueueFrame(s, e.id);
      hide DoEnqueue, Weight, WF;
    } else if e.PutBack? {
      PutBackCount(s, e.k, x);
      hide Weight, WF;
    } else if e.Start? {
      StartKeepsTokens(s, e.route, x);
    } else if e.Insert? || e.Announce? {
      AddingKeepsTokens(s, e, x);
    } else {
      hide InQueues, InHands, InPuts, WF;
    }
  }

  lemma StartKeepsTokens(s: State, route: string, x: Id)
    requires WF(s) && TokenOk(s, x)
    ensures TokenOk(DoFarm(s, Start(route)), x)
  {
    if route in s.current {
      HandsAppend(s.reqs, Req(route, s.current[route], Fresh, false, 0, 0, {}), x);
    }
    hide InQueues, InHands, InPuts, WF;
  }

  lemma AddingKeepsTokens(s: State, e: Event, x: Id)
    requires WF(s) && TokenOk(s, x) && (e.Insert? || e.Announce?)
    ensures TokenOk(DoFarm(s, e), x)
  {
    hide InQueues, InHands, InPuts, WF;
  }

  lemma EnqueueFrame(s: State, id: Id)
    requires WF(s) && id in s.socks && s.socks[id].adding.Inserted?
    ensures var s' := DoEnqueue(s, id);
      && s'.socks == s.socks[id := s.socks[id].(adding := s'.socks[id].adding)] && !s'.socks[id].adding.Inserted?
      && s'.registered == s.registered && s'.removed == s.removed && s'.alive == s.alive
  {
  }

  lemma {:induction false} RunKeepsTokens(es: seq<Event>, x: Id)
    ensures TokenOk(Run(es), x)
    decreases |es|
  {
    if es != [] {
      var before, e := Run(es[..|es| - 1]), es[|es| - 1];
      RunKeepsTokens(es[..|es| - 1], x);
      StepKeepsTokens(before, e, x);
      hide Step, TokenOk;
    }
  }

  lemma ClockIrrelevant(s: State, n: nat, x: Id)
    requires TokenOk(s, x)
    ensures TokenOk(s.(clock := n), x)
  {
    hide InQueues, InHands, InPuts;
  }

  lemma StepKeepsTokens(s: State, e: Event, x: Id)
    requires WF(s) && TokenOk(s, x)
    ensures TokenOk(Step(s, e), x)
  {
    hide DoReq, DoFarm, TokenOk, WF;
    if !OfReq(e) {
      FarmKeepsTokens(s, e, x);
    } else if e.r < |s.reqs| {
      ReqKeepsTokens(s, e.r, e, x);
    }
    ClockIrrelevant(Do(s, e), s.clock + 1, x);
  }
}
