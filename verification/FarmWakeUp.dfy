/**
 Wake-up: what was queued for the route of a waiting request, or lit again, after its last scan
 began is still to be announced to it. This is about when and where sockets were queued; which of
 them the scan has looked at is the subject of module FarmSeen.
 */
module FarmWakeUp {
  import opened FarmProtocol
  import opened FarmTokens
  import opened FarmHomes

  /** Every announcement the request has read was of something done before its scan began. */
  ghost predicate ReqHeard(q: Req, notes: seq<Note>, clock: nat) {
    q.pc.Fresh? || q.pc.Done? ||
      (&& q.cursor <= |notes| && q.scanAt < clock
       && forall j :: 0 <= j < q.cursor && Matches(notes[j], q) ==> notes[j].since < q.scanAt)
  }

  /** The announcement of `x` comes after its enqueueing and carries its time. */
  ghost predicate AddOk(info: Info, notes: seq<Note>, clock: nat) {
    match info.adding
    case Inserted => true
    case Enqueued(at, _) => at < clock
    case Announced(at, _, j) => at < clock && j < |notes| && notes[j] == Note(info.route, at)
  }

  /** The same for a host that is lit again. */
  ghost predicate LightOk(l: Lighting, notes: seq<Note>, clock: nat) {
    match l
    case Lit(at) => at < clock
    case Told(at, j) => at < clock && j < |notes| && notes[j] == Note("*", at)
  }

  ghost predicate LightsOk(s: State, notes: seq<Note>, clock: nat) {
    forall k :: 0 <= k < |s.lights| ==> LightOk(s.lights[k], notes, clock)
  }

  ghost predicate Inv(s: State) {
    && LightsOk(s, s.notes, s.clock)
    && (forall j :: 0 <= j < |s.notes| ==> s.notes[j].since < s.clock)
    && (forall i :: 0 <= i < |s.reqs| ==> ReqHeard(s.reqs[i], s.notes, s.clock))
    && (forall x :: x in s.socks ==> AddOk(s.socks[x], s.notes, s.clock))
  }

  /** A step changes one request record, appends records, or appends notes. */
  lemma HeardLater(q: Req, notes: seq<Note>, more: seq<Note>, clock: nat)
    requires ReqHeard(q, notes, clock)
    ensures ReqHeard(q, notes + more, clock + 1)
  {
  }

  lemma AddLater(info: Info, notes: seq<Note>, more: seq<Note>, clock: nat)
    requires AddOk(info, notes, clock)
    ensures AddOk(info, notes + more, clock + 1)
  {
  }

  /** A step of request `r` other than subscribing and being notified keeps what it has heard. */
  ghost predicate SameEar(s: State, s': State, r: nat) {
    && |s'.reqs| == |s.reqs| && r < |s.reqs| && s'.reqs == s.reqs[r := s'.reqs[r]]
    && var q, q' := s.reqs[r], s'.reqs[r];
       && q'.route == q.route && q'.chan == q.chan && q'.cursor == q.cursor && q'.scanAt == q.scanAt
       && (q.pc.Fresh? ==> q'.pc.Fresh? || q'.pc.Done?)
  }

  lemma ScanEar(s: State, r: nat, use: bool)
    requires WF(s) && r < |s.reqs|
    ensures SameEar(s, DoReceive(s, r), r) && SameEar(s, DoJudge(s, r, use), r)
  {
    ChannelsOf(s, r);
    hide WF, Place;
    if s.reqs[r].pc.Hold? {
      var _ := JudgeForm(s, r, use);
    }
  }

  lemma StopEar(s: State, r: nat)
    requires r < |s.reqs|
    ensures SameEar(s, DoStop(s, r, Done), r) && SameEar(s, DoTimeout(s, r), r)
  {
  }

  lemma FallEar(s: State, r: nat, dark: bool)
    requires WF(s) && r < |s.reqs|
    ensures SameEar(s, DoTryRecv(s, r), r) && SameEar(s, DoFallJudge(s, r, dark), r)
  {
    ChannelsOf(s, r);
    hide WF;
  }

  lemma AdvanceEar(s: State, r: nat, run: bool)
    requires WF(s) && r < |s.reqs|
    ensures SameEar(s, DoAdvance(s, r, run), r)
  {
    ChannelsOf(s, r);
    hide WF, NextStage;
  }

  lemma ReqEar(s: State, r: nat, e: Event)
    requires WF(s) && r < |s.reqs| && !e.Subscribe? && !e.Notice?
    ensures SameEar(s, DoReq(s, r, e), r)
  {
    hide WF, DoReceive, DoJudge, DoStop, DoTimeout, DoTryRecv, DoFallJudge, DoAdvance;
    match e
    case Receive(_) => ScanEar(s, r, true);
    case Judge(_, use) => ScanEar(s, r, use);
    case Leave(_) => StopEar(s, r);
    case Timeout(_) => StopEar(s, r);
    case TryRecv(_) => FallEar(s, r, true);
    case FallJudge(_, dark) => FallEar(s, r, dark);
    case Advance(_, run) => AdvanceEar(s, r, run);
    case _ =>
  }

  /** The record of request `r` is replaced and the notes grow by `more`. */
  lemma InvStep(s: State, s': State, r: nat, more: seq<Note>)
    requires Inv(s) && s'.clock == s.clock && s'.notes == s.notes + more && s'.socks == s.socks && s'.lights == s.lights
    requires forall j :: 0 <= j < |more| ==> more[j].since <= s.clock
    requires r < |s.reqs| == |s'.reqs| && s'.reqs == s.reqs[r := s'.reqs[r]]
    requires ReqHeard(s'.reqs[r], s'.notes, s.clock + 1)
    ensures Inv(s'.(clock := s.clock + 1))
  {
    forall i | 0 <= i < |s.reqs|
      ensures ReqHeard(s'.reqs[i], s'.notes, s.clock + 1)
    {
      HeardLater(s.reqs[i], s.notes, more, s.clock);
    }
    hide ReqHeard;
    forall x | x in s.socks
      ensures AddOk(s.socks[x], s'.notes, s.clock + 1)
    {
      AddLater(s.socks[x], s.notes, more, s.clock);
    }
    LightsLater(s, more);
  }

  lemma LightsLater(s: State, more: seq<Note>)
    requires LightsOk(s, s.notes, s.clock)
    ensures LightsOk(s, s.notes + more, s.clock + 1)
  {
  }

  lemma WokenHeard(s: State, q: Req)
    requires Inv(s) && ReqHeard(q, s.notes, s.clock) && q.pc.Parked?
    ensures ReqHeard(Heard(s, q), s.notes, s.clock + 1)
  {
  }

  lemma ReqKeepsInv(s: State, r: nat, e: Event)
    requires WF(s) && Inv(s) && r < |s.reqs|
    ensures Inv(DoReq(s, r, e).(clock := s.clock + 1))
  {
    var s', q := DoReq(s, r, e), s.reqs[r];
    assert ReqHeard(q, s.notes, s.clock);
    HeardLater(q, s.notes, [], s.clock);
    assert s.notes + [] == s.notes;
    ReqFrame(s, r, e);
    if e.Notice? && q.pc.Parked? {
      WokenHeard(s, q);
    } else if !e.Notice? && !e.Subscribe? {
      ReqEar(s, r, e);
      hide DoReq;
    }
    assert ReqHeard(s'.reqs[r], s.notes, s.clock + 1);
    hide WF, Heard, ReqHeard, Inv;
    InvStep(s, s', r, []);
  }

  /** Records, sockets and notes are added; what was there stays. */
  lemma InvGrows(s: State, s': State, newReqs: seq<Req>, more: seq<Note>)
    requires Inv(s) && s'.clock == s.clock && s'.notes == s.notes + more && s'.reqs == s.reqs + newReqs
    requires forall j :: 0 <= j < |more| ==> more[j].since <= s.clock
    requires forall j :: 0 <= j < |newReqs| ==> newReqs[j].pc.Fresh?
    requires forall x :: x in s'.socks ==>
      (x in s.socks && s'.socks[x] == s.socks[x]) || AddOk(s'.socks[x], s'.notes, s.clock + 1)
    requires LightsOk(s', s'.notes, s.clock + 1)
    ensures Inv(s'.(clock := s.clock + 1))
  {
    forall i | 0 <= i < |s'.reqs|
      ensures ReqHeard(s'.reqs[i], s'.notes, s.clock + 1)
    {
      if i < |s.reqs| { HeardLater(s.reqs[i], s.notes, more, s.clock); }
    }
    hide ReqHeard;
    forall x | x in s'.socks
      ensures AddOk(s'.socks[x], s'.notes, s.clock + 1)
    {
      if x in s.socks { AddLater(s.socks[x], s.notes, more, s.clock); }
    }
  }

  /** A registration or a host is announced. */
  lemma AnnounceKeepsInv(s: State, e: Event)
    requires WF(s) && Inv(s) && (e.Announce? || e.TellLight?)
    ensures Inv(DoFarm(s, e).(clock := s.clock + 1))
  {
    var s' := DoFarm(s, e);
    var more := s'.notes[|s.notes|..];
    if e.Announce? && e.id in s.socks { assert AddOk(s.socks[e.id], s.notes, s.clock); }
    if e.TellLight? && e.k < |s.lights| { assert LightOk(s.lights[e.k], s.notes, s.clock); }
    hide ReqHeard, WF;
    assert s'.notes == s.notes + more && s'.reqs == s.reqs + [];
    LightsLater(s, more);
    InvGrows(s, s', [], more);
  }

  lemma FarmKeepsInv(s: State, e: Event)
    requires WF(s) && Inv(s)
    ensures Inv(DoFarm(s, e).(clock := s.clock + 1))
  {
    if e.Announce? || e.TellLight? {
      hide WF, Inv, DoFarm;
      AnnounceKeepsInv(s, e);
    } else {
      hide ReqHeard, WF;
      var s' := DoFarm(s, e);
      var newReqs := s'.reqs[|s.reqs|..];
      assert s'.notes == s.notes + [] && s'.reqs == s.reqs + newReqs;
      LightsLater(s, []);
      InvGrows(s, s', newReqs, []);
    }
  }

  lemma {:induction false} RunKeepsInv(es: seq<Event>)
    ensures Inv(Run(es))
    decreases |es|
  {
    if es != [] {
      hide Inv, Step, WF;
      RunKeepsInv(es[..|es| - 1]);
      StepKeepsInv(Run(es[..|es| - 1]), es[|es| - 1]);
    }
  }

  lemma StepKeepsInv(s: State, e: Event)
    requires WF(s) && Inv(s)
    ensures Inv(Step(s, e))
  {
    hide DoReq, DoFarm, WF, Inv;
    if !OfReq(e) {
      FarmKeepsInv(s, e);
    } else if e.r < |s.reqs| {
      ReqKeepsInv(s, e.r, e);
    } else {
      NothingKeepsInv(s);
    }
  }

  lemma NothingKeepsInv(s: State)
    requires Inv(s)
    ensures Inv(s.(clock := s.clock + 1))
  {
    assert s.notes + [] == s.notes && s.reqs + [] == s.reqs;
    LightsLater(s, []);
    hide ReqHeard, AddOk, LightsOk;
    InvGrows(s, s, [], []);
  }

  /**
   No lost registration: when a request waits for a notification, every socket of its route
   that was queued after its last scan began is still to be announced, or its announcement is
   among those the request has not read.
   */
  lemma WakeUpOwed(es: seq<Event>, r: nat, x: Id)
    requires r < |Run(es).reqs| && Run(es).reqs[r].pc.Parked?
    requires Queued(Run(es), x)
    requires var s := Run(es); s.socks[x].route == s.reqs[r].route || s.socks[x].route == "*"
    requires var s := Run(es); s.socks[x].adding.at >= s.reqs[r].scanAt
    ensures var s := Run(es);
      || s.socks[x].adding.Enqueued?
      || s.reqs[r].cursor <= s.socks[x].adding.index < |s.notes|
  {
    RunKeepsInv(es);
    var s := Run(es);
    hide Run, WF;
    assert ReqHeard(s.reqs[r], s.notes, s.clock) && AddOk(s.socks[x], s.notes, s.clock);
  }

  /**
   The same for a host that was lit after the scan began: the notice is owed or not yet read.
   */
  lemma LightOwed(es: seq<Event>, r: nat, k: nat)
    requires r < |Run(es).reqs| && Run(es).reqs[r].pc.Parked?
    requires k < |Run(es).lights| && Run(es).lights[k].at >= Run(es).reqs[r].scanAt
    ensures var s := Run(es);
      s.lights[k].Lit? || s.reqs[r].cursor <= s.lights[k].index < |s.notes|
  {
    RunKeepsInv(es);
    var s := Run(es);
    hide Run, WF;
    assert ReqHeard(s.reqs[r], s.notes, s.clock) && LightOk(s.lights[k], s.notes, s.clock);
  }

  /**
   A request that waits with nothing unread began its last scan after every socket announced
   for it was queued, and every host announced was lit; lagging receivers included.
   */
  lemma AnnouncedBeforeScan(es: seq<Event>, r: nat, j: nat)
    requires r < |Run(es).reqs| && Run(es).reqs[r].pc.Parked? && Run(es).reqs[r].cursor == |Run(es).notes|
    requires j < |Run(es).notes| && Matches(Run(es).notes[j], Run(es).reqs[r])
    ensures Run(es).notes[j].since < Run(es).reqs[r].scanAt
  {
    RunKeepsInv(es);
    var s := Run(es);
    hide Run, WF;
    assert ReqHeard(s.reqs[r], s.notes, s.clock);
  }

  /**
   For a waiting request with nothing unread: a registered socket announced on its route was
   queued in the channel it scans, before its last scan began, if and only if the request's
   channel is still the channel of the route.
   */
  lemma QueuedInItsChannelExactly(es: seq<Event>, r: nat, x: Id)
    requires r < |Run(es).reqs| && Run(es).reqs[r].pc.Parked? && Run(es).reqs[r].cursor == |Run(es).notes|
    requires x in Run(es).registered && x in Run(es).socks && Run(es).socks[x].adding.Announced?
    requires Run(es).socks[x].route == Run(es).reqs[r].route
    ensures var s := Run(es);
      var q, added := s.reqs[r], s.socks[x].adding;
      && q.route in s.current
      && (added.at < q.scanAt && added.chan == q.chan <==> q.chan == s.current[q.route])
  {
    RunKeepsInv(es);
    RunHome(es, x);
    var s := Run(es);
    hide Run, WF, AllHome;
    assert ReqHeard(s.reqs[r], s.notes, s.clock) && AddOk(s.socks[x], s.notes, s.clock);
  }

  /** A registered catch-all socket was queued before, in the channel that a fallback looks up. */
  lemma CatchAllQueuedBefore(es: seq<Event>, r: nat, x: Id)
    requires r < |Run(es).reqs| && Run(es).reqs[r].pc.Parked? && Run(es).reqs[r].cursor == |Run(es).notes|
    requires x in Run(es).registered && x in Run(es).socks && Run(es).socks[x].adding.Announced?
    requires Run(es).socks[x].route == "*"
    ensures var s := Run(es);
      "*" in s.current && s.socks[x].adding.chan == s.current["*"] && s.socks[x].adding.at < s.reqs[r].scanAt
  {
    RunKeepsInv(es);
    RunHome(es, x);
    var s := Run(es);
    hide Run, WF, AllHome;
    assert ReqHeard(s.reqs[r], s.notes, s.clock) && AddOk(s.socks[x], s.notes, s.clock);
  }
}
