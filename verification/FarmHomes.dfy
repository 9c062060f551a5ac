/**
 Where the tokens are: the token of a socket is always in the channel it was first queued in, or
 in the hands of a request or a put-back that returns it there; and for a registered socket that
 is the channel its route has now.
 */
module FarmHomes {
  import opened Wrappers
  import opened FarmProtocol
  import opened FarmTokens

  /** Channel `c` is the one `x` was queued in. */
  ghost predicate Home(s: State, c: nat, x: Id) {
    Queued(s, x) && s.socks[x].adding.chan == c
  }

  /** The channel a request returns its tokens to. */
  ghost function HandChan(pc: Pc, chan: nat): nat {
    if pc.Fall? || pc.FallHold? || pc.Flush? then pc.chan else chan
  }

  ghost predicate QueuesHome(s: State, x: Id) {
    forall c :: 0 <= c < |s.queues| && x in s.queues[c] ==> Home(s, c, x)
  }

  ghost predicate HandsHome(s: State, x: Id) {
    forall i :: 0 <= i < |s.reqs| && x in Hand(s.reqs[i].pc) ==> Home(s, HandChan(s.reqs[i].pc, s.reqs[i].chan), x)
  }

  ghost predicate PutsHome(s: State, x: Id) {
    forall i :: 0 <= i < |s.puts| && s.puts[i].id == x ==> Home(s, s.puts[i].chan, x)
  }

  ghost predicate AllHome(s: State, x: Id) {
    QueuesHome(s, x) && HandsHome(s, x) && PutsHome(s, x)
  }

  /** It was queued in the channel its route has now. */
  ghost predicate QueuedHome(s: State, x: Id) {
    Queued(s, x) ==> s.socks[x].route in s.current && s.current[s.socks[x].route] == s.socks[x].adding.chan
  }

  /** All tokens are at home, and a registered socket is alive and its home is its route's channel. */
  ghost predicate HomeOk(s: State, x: Id) {
    AllHome(s, x) && (x in s.registered ==> x in s.socks && x in s.alive && QueuedHome(s, x))
  }

  // ---------------------------------------------------------------------------------------
  // Counts and places
  // ---------------------------------------------------------------------------------------

  lemma {:induction false} QueueMembers(qs: seq<seq<Id>>, x: Id)
    ensures InQueues(qs, x) == 0 <==> forall c :: 0 <= c < |qs| ==> x !in qs[c]
    decreases |qs|
  {
    if qs != [] {
      QueueMembers(qs[1..], x);
      assert forall c :: 0 < c < |qs| ==> qs[c] == qs[1..][c - 1];
    }
  }

  lemma {:induction false} HandMembers(reqs: seq<Req>, x: Id)
    ensures InHands(reqs, x) == 0 <==> forall i :: 0 <= i < |reqs| ==> x !in Hand(reqs[i].pc)
    decreases |reqs|
  {
    hide Hand;
    if reqs != [] {
      HandMembers(reqs[1..], x);
      assert forall i :: 0 < i < |reqs| ==> reqs[i] == reqs[1..][i - 1];
    }
  }

  lemma {:induction false} PutMembers(puts: seq<Put>, x: Id)
    ensures InPuts(puts, x) == 0 <==> forall i :: 0 <= i < |puts| ==> puts[i].id != x
    decreases |puts|
  {
    if puts != [] {
      PutMembers(puts[1..], x);
      assert forall i :: 0 < i < |puts| ==> puts[i] == puts[1..][i - 1];
    }
  }

  // ---------------------------------------------------------------------------------------
  // Steps
  // ---------------------------------------------------------------------------------------

  lemma SendHome(s: State, c: nat, id: Id, x: Id)
    requires c < |s.queues| && AllHome(s, x) && (id == x ==> Home(s, c, x))
    ensures AllHome(Send(s, c, id), x)
  {
    hide Hand;
  }

  lemma TakeHome(s: State, c: nat, x: Id)
    requires c < |s.queues| && s.queues[c] != [] && AllHome(s, x)
    ensures AllHome(Take(s, c), x)
    ensures s.queues[c][0] == x ==> Home(s, c, x)
  {
    hide Hand;
    assert s.queues[c][0] in s.queues[c];
  }

  lemma RecordHome(s: State, r: nat, q: Req, x: Id)
    requires r < |s.reqs| && AllHome(s, x)
    requires x in Hand(q.pc) ==> Home(s, HandChan(q.pc, q.chan), x)
    ensures AllHome(s.(reqs := s.reqs[r := q]), x)
  {
    hide Hand, HandChan;
  }

  lemma GotoHome(s: State, r: nat, pc: Pc, x: Id)
    requires r < |s.reqs| && AllHome(s, x)
    requires x in Hand(pc) ==> Home(s, HandChan(pc, s.reqs[r].chan), x)
    ensures AllHome(Goto(s, r, pc), x)
  {
    RecordHome(s, r, s.reqs[r].(pc := pc), x);
    hide Hand, HandChan, AllHome;
  }

  lemma SendBackHome(s: State, c: nat, id: Id, who: Option<nat>, x: Id)
    requires c < |s.queues| && AllHome(s, x) && (id == x ==> Home(s, c, x))
    ensures AllHome(SendBack(s, c, id, who), x)
  {
    hide Hand;
    SendHome(s, c, id, x);
  }

  lemma LookHome(s: State, r: nat, id: Id, x: Id)
    requires r < |s.reqs| && AllHome(s, x)
    ensures AllHome(Look(s, r, id), x)
  {
    if x in Hand(s.reqs[r].pc) { HandHome(s, r, x); }
    RecordHome(s, r, s.reqs[r].(looked := s.reqs[r].looked + {id}), x);
    hide Hand, AllHome;
  }

  lemma ServeHome(s: State, c: nat, id: Id, r: nat, x: Id)
    requires c < |s.queues| && AllHome(s, x) && (id == x ==> Home(s, c, x))
    ensures AllHome(Serve(s, c, id, r), x) && Serve(s, c, id, r).reqs == s.reqs
    ensures SameFarm(s, Serve(s, c, id, r))
  {
    hide Hand;
    SendBackHome(s, c, id, Some(r), x);
  }

  lemma HandHome(s: State, r: nat, x: Id)
    requires r < |s.reqs| && AllHome(s, x) && x in Hand(s.reqs[r].pc)
    ensures Home(s, HandChan(s.reqs[r].pc, s.reqs[r].chan), x)
  {
  }

  lemma ReceiveHome(s: State, r: nat, x: Id)
    requires WF(s) && r < |s.reqs| && AllHome(s, x)
    ensures AllHome(DoReceive(s, r), x) && AllHome(DoTryRecv(s, r), x)
  {
    ChannelsOf(s, r);
    hide WF, AllHome;
    var q := s.reqs[r];
    if q.pc.Scan? && s.queues[q.chan] != [] {
      TakeHome(s, q.chan, x);
      GotoHome(Take(s, q.chan), r, Hold(q.pc.visited, s.queues[q.chan][0]), x);
    }
    if q.pc.Fall? {
      if x in Hand(q.pc) { HandHome(s, r, x); }
      if s.queues[q.pc.chan] == [] {
        GotoHome(s, r, Flush(q.pc.chan, q.pc.skipped, None, q.pc.stage), x);
      } else {
        TakeHome(s, q.pc.chan, x);
        GotoHome(Take(s, q.pc.chan), r, FallHold(q.pc.chan, q.pc.skipped, s.queues[q.pc.chan][0], q.pc.stage), x);
      }
    }
  }

  lemma JudgeHome(s: State, r: nat, use: bool, x: Id)
    requires WF(s) && r < |s.reqs| && AllHome(s, x)
    ensures AllHome(DoJudge(s, r, use), x)
  {
    ChannelsOf(s, r);
    hide WF, AllHome, Serve;
    var q := s.reqs[r];
    if q.pc.Hold? {
      var id := q.pc.id;
      if x in Hand(q.pc) { HandHome(s, r, x); }
      if id !in s.alive || (id !in q.pc.visited && id in s.removed) {
        GotoHome(s, r, Scan(q.pc.visited), x);
      } else if id in q.pc.visited {
        SendBackHome(s, q.chan, id, Some(r), x);
        GotoHome(SendBack(s, q.chan, id, Some(r)), r, Flush(q.chan, [], None, 0), x);
      } else if use {
        ServeHome(s, q.chan, id, r, x);
        GotoHome(Serve(s, q.chan, id, r), r, Done, x);
      } else {
        SendBackHome(s, q.chan, id, Some(r), x);
        GotoHome(SendBack(s, q.chan, id, Some(r)), r, Scan(q.pc.visited + {id}), x);
      }
      LookHome(Place(s, r, use), r, id, x);
    }
  }

  lemma StopHome(s: State, r: nat, pc: Pc, x: Id)
    requires r < |s.reqs| && AllHome(s, x) && Hand(pc) == multiset{}
    ensures AllHome(DoStop(s, r, pc), x)
  {
    var q := s.reqs[r];
    if q.pc.Hold? && x in Hand(q.pc) { HandHome(s, r, x); }
    GotoHome(s, r, pc, x);
    hide Hand;
  }

  lemma TimeoutHome(s: State, r: nat, x: Id)
    requires r < |s.reqs| && AllHome(s, x)
    ensures AllHome(DoTimeout(s, r), x)
  {
    var pc := Flush(s.reqs[r].chan, [], None, 0);
    StopHome(s, r, pc, x);
    var s1 := DoStop(s, r, pc);
    if x in Hand(s1.reqs[r].pc) { HandHome(s1, r, x); }
    RecordHome(s1, r, s1.reqs[r].(final := true), x);
    hide DoStop, AllHome;
  }

  lemma FallJudgeHome(s: State, r: nat, dark: bool, x: Id)
    requires r < |s.reqs| && AllHome(s, x)
    ensures AllHome(DoFallJudge(s, r, dark), x)
  {
    hide AllHome, Hand;
    var pc := s.reqs[r].pc;
    if pc.FallHold? {
      FallHands(pc.chan, pc.skipped, pc.id, pc.stage, x);
      if x in Hand(pc) { HandHome(s, r, x); }
      GotoHome(s, r, AfterFall(s, pc, dark), x);
      LookHome(Goto(s, r, AfterFall(s, pc, dark)), r, pc.id, x);
    }
  }

  lemma AdvanceHome(s: State, r: nat, run: bool, x: Id)
    requires WF(s) && r < |s.reqs| && AllHome(s, x)
    ensures AllHome(DoAdvance(s, r, run), x)
  {
    ChannelsOf(s, r);
    hide WF, AllHome, Serve, NextStage;
    var pc := s.reqs[r].pc;
    if pc.Flush? {
      if x in Hand(pc) { HandHome(s, r, x); }
      if pc.skipped != [] {
        assert pc.skipped[0] in pc.skipped;
        SendBackHome(s, pc.chan, pc.skipped[0], Some(r), x);
        var rest := Flush(pc.chan, pc.skipped[1..], pc.chosen, pc.stage);
        GotoHome(SendBack(s, pc.chan, pc.skipped[0], Some(r)), r, rest, x);
      } else if pc.chosen.Some? {
        ServeHome(s, pc.chan, pc.chosen.value, r, x);
        GotoHome(Serve(s, pc.chan, pc.chosen.value, r), r, Done, x);
      } else {
        NextStageHand(s, s.reqs[r], pc.stage, run);
        GotoHome(s, r, NextStage(s, s.reqs[r], pc.stage, run), x);
      }
    }
  }

  lemma WaitHome(s: State, r: nat, e: Event, x: Id)
    requires WF(s) && r < |s.reqs| && AllHome(s, x) && (e.Notice? || e.Subscribe?)
    ensures AllHome(DoReq(s, r, e), x)
  {
    hide WF, AllHome;
    var q := s.reqs[r];
    if e.Notice? && q.pc.Parked? {
      RecordHome(s, r, Heard(s, q), x);
    } else if e.Subscribe? && q.pc.Fresh? {
      RecordHome(s, r, Rescan(q, |s.notes|, s.clock), x);
    }
  }

  lemma ReqHome(s: State, r: nat, e: Event, x: Id)
    requires WF(s) && r < |s.reqs| && AllHome(s, x)
    ensures AllHome(DoReq(s, r, e), x)
  {
    if e.Notice? || e.Subscribe? {
      WaitHome(s, r, e, x);
      return;
    }
    hide WF, AllHome, DoReceive, DoJudge, DoStop, DoTimeout, DoTryRecv, DoFallJudge, DoAdvance;
    match e
    case Receive(_) => ReceiveHome(s, r, x);
    case Judge(_, use) => JudgeHome(s, r, use, x);
    case Leave(_) => StopHome(s, r, Done, x);
    case Timeout(_) => TimeoutHome(s, r, x);
    case TryRecv(_) => ReceiveHome(s, r, x);
    case FallJudge(_, dark) => FallJudgeHome(s, r, dark, x);
    case Advance(_, run) => AdvanceHome(s, r, run, x);
    case _ =>
  }

  lemma ChannelHome(s: State, route: string, x: Id)
    requires WF(s) && AllHome(s, x)
    ensures AllHome(WithChannel(s, route), x)
  {
    hide Hand;
  }

  /** Steps that move no token and leave the queueing of `x` as it is. */
  lemma SameHome(s: State, s': State, x: Id)
    requires AllHome(s, x) && s'.queues == s.queues && s'.puts == s.puts && s'.reqs == s.reqs
    requires Queued(s, x) ==> Queued(s', x) && s'.socks[x].adding.chan == s.socks[x].adding.chan
    ensures AllHome(s', x)
  {
    hide Hand;
  }

  /** The socket that is queued has no token yet. */
  lemma FirstSendHome(s: State, c: nat, x: Id, a: Adding)
    requires c < |s.queues| && AllHome(s, x) && x in s.socks && !Queued(s, x) && !a.Inserted? && a.chan == c
    ensures AllHome(SetAdding(Send(s, c, x), x, a), x)
  {
    hide Hand;
  }

  lemma EnqueueHome(s: State, id: Id, x: Id)
    requires WF(s) && AllHome(s, x)
    ensures AllHome(DoEnqueue(s, id), x)
  {
    if id in s.socks && s.socks[id].adding.Inserted? {
      var route := s.socks[id].route;
      var s1 := WithChannel(s, route);
      var c := s1.current[route];
      ChannelHome(s, route, x);
      hide WF, Hand, AllHome;
      if id == x {
        FirstSendHome(s1, c, x, Enqueued(s.clock, c));
      } else {
        SendHome(s1, c, id, x);
        SameHome(Send(s1, c, id), SetAdding(Send(s1, c, id), id, Enqueued(s.clock, c)), x);
      }
    }
  }

  lemma PutBackHome(s: State, k: nat, x: Id)
    requires WF(s) && AllHome(s, x)
    ensures AllHome(DoPutBack(s, k), x)
  {
    if k < |s.puts| {
      SendBackHome(s, s.puts[k].chan, s.puts[k].id, None, x);
      hide Hand, WF;
    }
  }

  lemma StartHome(s: State, q: Req, x: Id)
    requires AllHome(s, x) && Hand(q.pc) == multiset{}
    ensures AllHome(s.(reqs := s.reqs + [q]), x)
  {
    hide Hand;
  }

  lemma FarmAllHome(s: State, e: Event, x: Id)
    requires WF(s) && AllHome(s, x)
    ensures AllHome(DoFarm(s, e), x)
  {
    hide AllHome, DoEnqueue, WF;
    if e.Enqueue? {
      EnqueueHome(s, e.id, x);
    } else if e.PutBack? {
      PutBackHome(s, e.k, x);
    } else if e.Start? && e.route in s.current {
      StartHome(s, Req(e.route, s.current[e.route], Fresh, false, 0, 0, {}), x);
    } else {
      SameHome(s, DoFarm(s, e), x);
    }
  }

  /** A registered socket keeps the channel of its route: cleaning spares it. */
  lemma FarmQueuedHome(s: State, e: Event, x: Id)
    requires WF(s) && (x in s.registered ==> x in s.socks && x in s.alive && QueuedHome(s, x))
    ensures var s' := DoFarm(s, e); x in s'.registered ==> x in s'.socks && x in s'.alive && QueuedHome(s', x)
  {
    hide WF;
  }

  lemma FarmHome(s: State, e: Event, x: Id)
    requires WF(s) && HomeOk(s, x)
    ensures HomeOk(DoFarm(s, e), x)
  {
    hide AllHome, DoFarm, WF;
    FarmAllHome(s, e, x);
    FarmQueuedHome(s, e, x);
  }

  lemma StepHome(s: State, e: Event, x: Id)
    requires WF(s) && HomeOk(s, x)
    ensures HomeOk(Step(s, e), x)
  {
    hide DoReq, DoFarm, WF;
    if !OfReq(e) {
      FarmHome(s, e, x);
    } else if e.r < |s.reqs| {
      ReqFrame(s, e.r, e);
      hide AllHome;
      ReqHome(s, e.r, e, x);
    }
    ClockHome(Do(s, e), s.clock + 1, x);
  }

  lemma ClockHome(s: State, n: nat, x: Id)
    requires HomeOk(s, x)
    ensures HomeOk(s.(clock := n), x)
  {
    hide Hand;
  }

  lemma {:induction false} RunHome(es: seq<Event>, x: Id)
    ensures HomeOk(Run(es), x)
    decreases |es|
  {
    if es != [] {
      RunHome(es[..|es| - 1], x);
      hide Step, HomeOk, WF;
      StepHome(Run(es[..|es| - 1]), es[|es| - 1], x);
    }
  }

  // ---------------------------------------------------------------------------------------
  // The theorems
  // ---------------------------------------------------------------------------------------

  /** The token of `x` is in the queue of its route or with someone who returns it there. */
  ghost predicate Reachable(s: State, x: Id) {
    && x in s.socks && s.socks[x].route in s.current && s.current[s.socks[x].route] < |s.queues|
    && var c := s.current[s.socks[x].route];
       || x in s.queues[c]
       || (exists i :: 0 <= i < |s.reqs| && x in Hand(s.reqs[i].pc) && HandChan(s.reqs[i].pc, s.reqs[i].chan) == c)
       || (exists k :: 0 <= k < |s.puts| && s.puts[k] == Put(c, x))
  }

  lemma PlacedAtHome(s: State, x: Id)
    requires WF(s) && AllHome(s, x) && QueuedHome(s, x) && Tokens(s, x) > 0
    ensures Reachable(s, x)
  {
    QueueMembers(s.queues, x);
    HandMembers(s.reqs, x);
    PutMembers(s.puts, x);
    hide Hand, HandChan, InQueues, InHands, InPuts;
  }

  /**
   Token conservation: in every run, a socket that was queued, is alive and is not removed has
   exactly one token, unless it is a V1 socket that was handed out, which has none. No socket
   ever has two. The token of a registered socket is within reach of its route.
   */
  lemma TokenConservation(es: seq<Event>, x: Id)
    ensures var s := Run(es);
      && Tokens(s, x) <= 1
      && (Queued(s, x) && x in s.alive && x !in s.removed ==>
            Tokens(s, x) == if !V3(s, x) && x in s.served then 0 else 1)
      && (Tokens(s, x) == 1 && x in s.registered ==> Reachable(s, x))
  {
    RunKeepsTokens(es, x);
    RunHome(es, x);
    var s := Run(es);
    hide Run, WF, AllHome, Tokens;
    if Tokens(s, x) == 1 && x in s.registered { PlacedAtHome(s, x); }
  }

  /** No two requests are ever given the same V1 socket. */
  lemma V1ServesOnce(es: seq<Event>, i: nat, j: nat)
    requires i < j < |Run(es).served| && Run(es).served[i] == Run(es).served[j]
    ensures V3(Run(es), Run(es).served[i])
  {
    var s := Run(es);
    var x := s.served[i];
    RunKeepsTokens(es, x);
    TwiceCounts(s.served, i, j);
    hide Run, WF, Tokens;
  }
}
