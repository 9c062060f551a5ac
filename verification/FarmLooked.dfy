/**
 What a request looks at: sockets that were queued in its own channel or, through the fallback,
 catch-all sockets. With module FarmSeen this says exactly which sockets of its route a waiting
 request has looked at.
 */
module FarmLooked {
  import opened Wrappers
  import opened FarmProtocol
  import opened FarmTokens
  import opened FarmHomes
  import opened FarmWakeUp
  import opened FarmSeen

  /** The channel of a route was made for it. */
  ghost predicate OwnersOk(s: State) {
    forall route :: route in s.current ==> s.current[route] < |s.owners| && s.owners[s.current[route]] == route
  }

  ghost predicate QueuedByOwner(s: State, x: Id) {
    Queued(s, x) ==> s.socks[x].adding.chan < |s.owners| && s.owners[s.socks[x].adding.chan] == s.socks[x].route
  }

  /** A fallback loop works on the channel of the request or on one of the catch-all route. */
  ghost predicate FallOk(s: State, q: Req) {
    q.pc.Fall? || q.pc.FallHold? || q.pc.Flush? ==>
      q.pc.chan == q.chan || (q.pc.chan < |s.owners| && s.owners[q.pc.chan] == "*")
  }

  ghost predicate LookedOk(s: State, q: Req, x: Id) {
    x in q.looked ==> Queued(s, x) && (s.socks[x].adding.chan == q.chan || s.socks[x].route == "*")
  }

  ghost predicate PlaceOk(s: State, r: nat, x: Id) {
    && OwnersOk(s) && QueuedByOwner(s, x)
    && (r < |s.reqs| ==> FallOk(s, s.reqs[r]) && LookedOk(s, s.reqs[r], x))
  }

  /** The socket in hand may be looked at. */
  lemma HeldMayBeLookedAt(s: State, r: nat, x: Id)
    requires r < |s.reqs| && AllHome(s, x) && QueuedByOwner(s, x) && FallOk(s, s.reqs[r])
    requires x in Hand(s.reqs[r].pc)
    ensures Queued(s, x) && (s.socks[x].adding.chan == s.reqs[r].chan || s.socks[x].route == "*")
  {
    HandHome(s, r, x);
    hide Hand, AllHome;
  }

  /** What a step of a request does to the record of what it looked at. */
  ghost predicate Looks(q: Req, q': Req) {
    && q'.chan == q.chan
    && (q'.looked <= q.looked || ((q.pc.Hold? || q.pc.FallHold?) && q'.looked <= q.looked + {q.pc.id}))
  }

  lemma ScanLooks(s: State, r: nat, use: bool)
    requires WF(s) && r < |s.reqs| && FallOk(s, s.reqs[r])
    ensures Looks(s.reqs[r], DoReceive(s, r).reqs[r]) && FallOk(s, DoReceive(s, r).reqs[r])
    ensures Looks(s.reqs[r], DoJudge(s, r, use).reqs[r]) && FallOk(s, DoJudge(s, r, use).reqs[r])
  {
    ChannelsOf(s, r);
    hide WF, Place;
    if s.reqs[r].pc.Hold? {
      var _ := JudgeForm(s, r, use);
    }
  }

  lemma StopLooks(s: State, r: nat)
    requires r < |s.reqs| && FallOk(s, s.reqs[r])
    ensures Looks(s.reqs[r], DoStop(s, r, Done).reqs[r]) && FallOk(s, DoStop(s, r, Done).reqs[r])
    ensures Looks(s.reqs[r], DoTimeout(s, r).reqs[r]) && FallOk(s, DoTimeout(s, r).reqs[r])
  {
  }

  lemma FallLooks(s: State, r: nat, dark: bool)
    requires WF(s) && r < |s.reqs| && FallOk(s, s.reqs[r])
    ensures Looks(s.reqs[r], DoTryRecv(s, r).reqs[r]) && FallOk(s, DoTryRecv(s, r).reqs[r])
    ensures Looks(s.reqs[r], DoFallJudge(s, r, dark).reqs[r]) && FallOk(s, DoFallJudge(s, r, dark).reqs[r])
  {
    ChannelsOf(s, r);
    hide WF;
  }

  lemma NextStageLooks(s: State, q: Req, stage: nat, run: bool)
    requires OwnersOk(s)
    ensures FallOk(s, q.(pc := NextStage(s, q, stage, run)))
  {
  }

  lemma AdvanceLooks(s: State, r: nat, run: bool)
    requires WF(s) && r < |s.reqs| && FallOk(s, s.reqs[r]) && OwnersOk(s)
    ensures Looks(s.reqs[r], DoAdvance(s, r, run).reqs[r]) && FallOk(s, DoAdvance(s, r, run).reqs[r])
  {
    ChannelsOf(s, r);
    var pc := s.reqs[r].pc;
    if pc.Flush? {
      NextStageLooks(s, s.reqs[r], pc.stage, run);
      if pc.chosen.Some? { ServeFrame(s, pc.chan, pc.chosen.value, r); }
    }
    hide WF, NextStage, Serve, OwnersOk;
  }

  lemma ReqLooks(s: State, r: nat, e: Event)
    requires WF(s) && r < |s.reqs| == |DoReq(s, r, e).reqs| && FallOk(s, s.reqs[r]) && OwnersOk(s) && OfReq(e)
    ensures Looks(s.reqs[r], DoReq(s, r, e).reqs[r]) && FallOk(s, DoReq(s, r, e).reqs[r])
  {
    hide WF, DoReceive, DoJudge, DoStop, DoTimeout, DoTryRecv, DoFallJudge, DoAdvance, OwnersOk;
    match e
    case Receive(_) => ScanLooks(s, r, true);
    case Judge(_, use) => ScanLooks(s, r, use);
    case Leave(_) => StopLooks(s, r);
    case Timeout(_) => StopLooks(s, r);
    case TryRecv(_) => FallLooks(s, r, true);
    case FallJudge(_, dark) => FallLooks(s, r, dark);
    case Advance(_, run) => AdvanceLooks(s, r, run);
    case Notice(_) =>
    case Subscribe(_) =>
  }

  /** A step of any request. */
  lemma ReqKeepsPlace(s: State, r: nat, e: Event, x: Id)
    requires WF(s) && OfReq(e) && e.r < |s.reqs| && PlaceOk(s, r, x) && AllHome(s, x)
    ensures PlaceOk(DoReq(s, e.r, e), r, x)
  {
    hide WF, DoReq, AllHome, Fate, Hand, OwnersOk;
    var s' := DoReq(s, e.r, e);
    ReqFate(s, e.r, e, x);
    FateFrame(s, s', e.r, x);
    if e.r == r {
      ReqLooks(s, r, e);
      if x in Hand(s.reqs[r].pc) { HeldMayBeLookedAt(s, r, x); }
      InHandIfHeld(s.reqs[r].pc);
    }
    SameOwners(s, s');
  }

  lemma InHandIfHeld(pc: Pc)
    ensures pc.Hold? || pc.FallHold? ==> pc.id in Hand(pc)
  {
  }

  lemma SameOwners(s: State, s': State)
    requires OwnersOk(s) && SameFarm(s, s')
    ensures OwnersOk(s')
  {
  }

  /** Channels keep their owners, and a queued socket its channel. */
  ghost predicate Keeps(s: State, s': State, x: Id) {
    && s.owners <= s'.owners
    && (Queued(s, x) ==> Queued(s', x) && s'.socks[x].route == s.socks[x].route
                         && s'.socks[x].adding.chan == s.socks[x].adding.chan)
  }

  lemma EnqueueOwners(s: State, id: Id, x: Id)
    requires WF(s) && OwnersOk(s) && QueuedByOwner(s, x)
    ensures var s' := DoEnqueue(s, id); OwnersOk(s') && QueuedByOwner(s', x) && Keeps(s, s', x)
  {
  }

  /** Routes are at most dropped, and nothing is queued. */
  lemma OwnersStay(s: State, s': State, x: Id)
    requires OwnersOk(s) && QueuedByOwner(s, x) && Keeps(s, s', x) && (Queued(s', x) ==> Queued(s, x))
    requires forall route :: route in s'.current ==> route in s.current && s'.current[route] == s.current[route]
    ensures OwnersOk(s') && QueuedByOwner(s', x)
  {
  }

  lemma FarmOwners(s: State, e: Event, x: Id)
    requires WF(s) && OwnersOk(s) && QueuedByOwner(s, x)
    ensures var s' := DoFarm(s, e); OwnersOk(s') && QueuedByOwner(s', x) && Keeps(s, s', x)
  {
    hide WF, OwnersOk, QueuedByOwner;
    if e.Enqueue? {
      hide DoEnqueue;
      EnqueueOwners(s, e.id, x);
    } else {
      OwnersStay(s, DoFarm(s, e), x);
    }
  }

  lemma FarmKeepsPlace(s: State, e: Event, r: nat, x: Id)
    requires WF(s) && PlaceOk(s, r, x)
    ensures PlaceOk(DoFarm(s, e), r, x)
  {
    hide WF, DoFarm, OwnersOk, QueuedByOwner;
    FarmReqs(s, e);
    FarmOwners(s, e, x);
  }

  lemma ClockPlace(s: State, n: nat, r: nat, x: Id)
    requires PlaceOk(s, r, x)
    ensures PlaceOk(s.(clock := n), r, x)
  {
  }

  lemma StepPlace(s: State, e: Event, r: nat, x: Id)
    requires WF(s) && PlaceOk(s, r, x) && AllHome(s, x)
    ensures PlaceOk(Step(s, e), r, x)
  {
    hide WF, AllHome, DoReq, DoFarm, PlaceOk;
    if !OfReq(e) {
      FarmKeepsPlace(s, e, r, x);
    } else if e.r < |s.reqs| {
      ReqKeepsPlace(s, r, e, x);
    }
    ClockPlace(Do(s, e), s.clock + 1, r, x);
  }

  lemma {:induction false} RunPlace(es: seq<Event>, r: nat, x: Id)
    ensures PlaceOk(Run(es), r, x)
    decreases |es|
  {
    if es != [] {
      RunPlace(es[..|es| - 1], r, x);
      RunHome(es[..|es| - 1], x);
      hide Step, PlaceOk, AllHome, WF;
      StepPlace(Run(es[..|es| - 1]), es[|es| - 1], r, x);
    }
  }

  /**
   Exactly when a waiting request has looked at a socket of its route that nobody else held
   since its last scan began: if and only if its channel is still the channel of the route.
   Only a request of the catch-all route may, through the fallback, look into another channel.
   */
  lemma LookedAtExactly(es: seq<Event>, r: nat, x: Id)
    requires Waiting(Run(es), r) && OnItsRoute(Run(es), r, x) && Run(es).reqs[r].route != "*"
    requires !HeldByOther(Run(es), r, x)
    ensures var s := Run(es);
      var q := s.reqs[r];
      q.route in s.current && (x in q.looked <==> q.chan == s.current[q.route])
  {
    LookedAtOrHeld(es, r, x);
    RunPlace(es, r, x);
    RunHome(es, x);
    hide Run, WF, AllHome, HeldByOther;
  }
}
