/**
 Who is handed out, and when: only a socket that was alive, unremoved and wanted when it was
 judged; never one that was flagged before. And what cancelled and notified requests do.
 */
module FarmServed {
  import opened Wrappers
  import opened FarmProtocol
  import opened FarmTokens

  // ---------------------------------------------------------------------------------------
  // Handing out
  // ---------------------------------------------------------------------------------------

  /** What the event hands out: a socket that a scan finds suitable, or that a finished fallback has chosen. */
  ghost function HandedOut(s: State, e: Event): Option<Id> {
    if e.Judge? && e.use && e.r < |s.reqs| && s.reqs[e.r].pc.Hold? then
      var x := s.reqs[e.r].pc.id;
      if x in s.alive && x !in s.removed && x !in s.reqs[e.r].pc.visited then Some(x) else None
    else if e.Advance? && e.r < |s.reqs| && s.reqs[e.r].pc.Flush? && s.reqs[e.r].pc.skipped == [] then
      s.reqs[e.r].pc.chosen
    else None
  }

  ghost function Opt(x: Option<Id>): seq<Id> {
    if x.Some? then [x.value] else []
  }

  lemma JudgeServed(s: State, r: nat, use: bool)
    requires WF(s) && r < |s.reqs|
    ensures var q := s.reqs[r];
      DoJudge(s, r, use).served
      == if q.pc.Hold? && use && q.pc.id in s.alive && q.pc.id !in s.removed && q.pc.id !in q.pc.visited
         then s.served + [q.pc.id] else s.served
  {
    ChannelsOf(s, r);
    hide WF;
  }

  lemma AdvanceServed(s: State, r: nat, run: bool)
    requires WF(s) && r < |s.reqs|
    ensures var pc := s.reqs[r].pc;
      DoAdvance(s, r, run).served
      == if pc.Flush? && pc.skipped == [] && pc.chosen.Some? then s.served + [pc.chosen.value] else s.served
  {
    ChannelsOf(s, r);
    hide WF, NextStage;
  }

  lemma OthersServed(s: State, e: Event)
    requires WF(s) && !e.Judge? && !e.Advance?
    ensures Do(s, e).served == s.served
  {
    if OfReq(e) {
      if e.r < |s.reqs| { ChannelsOf(s, e.r); }
      hide WF, Heard;
    } else if e.Enqueue? {
      assert DoEnqueue(s, e.id).served == s.served;
    } else if e.PutBack? {
      assert DoPutBack(s, e.k).served == s.served;
    } else {
      hide WF;
    }
  }

  lemma NothingMore(q: seq<Id>)
    ensures q + Opt(None) == q
  {
  }

  /** Exactly what is handed out by every event. */
  lemma ServedExactly(s: State, e: Event)
    requires WF(s)
    ensures Step(s, e).served == s.served + Opt(HandedOut(s, e))
  {
    hide WF, DoJudge, DoAdvance, DoReceive, DoStop, DoTimeout, DoTryRecv, DoFallJudge, DoFarm, Heard;
    NothingMore(s.served);
    if e.Judge? {
      if e.r < |s.reqs| { JudgeServed(s, e.r, e.use); }
    } else if e.Advance? {
      if e.r < |s.reqs| { AdvanceServed(s, e.r, e.run); }
    } else {
      hide Do;
      OthersServed(s, e);
    }
  }

  // ---------------------------------------------------------------------------------------
  // Flagged sockets
  // ---------------------------------------------------------------------------------------

  lemma StepRemoved(s: State, e: Event)
    requires WF(s)
    ensures Step(s, e).removed == if e.Flag? then s.removed + {e.id} else s.removed
  {
    hide DoReq;
    if OfReq(e) {
      if e.r < |s.reqs| { ReqFrame(s, e.r, e); }
      hide WF;
    } else if e.Enqueue? {
      assert DoEnqueue(s, e.id).removed == s.removed;
    } else if e.PutBack? {
      assert DoPutBack(s, e.k).removed == s.removed;
    } else {
      hide WF;
    }
  }

  /** A socket is flagged if and only if the run has flagged it. */
  lemma {:induction false} RemovedExactly(es: seq<Event>, x: Id)
    ensures x in Run(es).removed <==> Flag(x) in es
    decreases |es|
  {
    hide Step, WF;
    if es != [] {
      var rest, e := es[..|es| - 1], es[|es| - 1];
      RemovedExactly(rest, x);
      StepRemoved(Run(rest), e);
      assert es == rest + [e];
    }
  }

  /** A fallback of some request has chosen `x` and is about to hand it out. */
  ghost predicate ChosenBy(pc: Pc, x: Id) {
    pc.Flush? && pc.chosen == Some(x)
  }

  ghost predicate NobodyChose(s: State, x: Id) {
    forall i :: 0 <= i < |s.reqs| ==> !ChosenBy(s.reqs[i].pc, x)
  }

  /** Only a fallback that judges a live, unremoved socket chooses it. */
  lemma FallChooses(s: State, r: nat, dark: bool, x: Id)
    requires WF(s) && r < |s.reqs| && x in s.removed && NobodyChose(s, x)
    ensures NobodyChose(DoFallJudge(s, r, dark), x) && NobodyChose(DoTryRecv(s, r), x)
  {
    ChannelsOf(s, r);
    hide WF;
    assert !ChosenBy(s.reqs[r].pc, x);
  }

  lemma ScanChooses(s: State, r: nat, use: bool, x: Id)
    requires WF(s) && r < |s.reqs| && NobodyChose(s, x)
    ensures NobodyChose(DoReceive(s, r), x) && NobodyChose(DoJudge(s, r, use), x)
  {
    ChannelsOf(s, r);
    hide WF, Place;
    if s.reqs[r].pc.Hold? {
      var _ := JudgeForm(s, r, use);
    }
  }

  lemma StopChooses(s: State, r: nat, x: Id)
    requires r < |s.reqs| && NobodyChose(s, x)
    ensures NobodyChose(DoStop(s, r, Done), x) && NobodyChose(DoTimeout(s, r), x)
  {
  }

  lemma AdvanceChooses(s: State, r: nat, run: bool, x: Id)
    requires WF(s) && r < |s.reqs| && NobodyChose(s, x)
    ensures NobodyChose(DoAdvance(s, r, run), x)
  {
    ChannelsOf(s, r);
    assert !ChosenBy(s.reqs[r].pc, x);
    var pc := s.reqs[r].pc;
    if pc.Flush? && pc.chosen.Some? { ServeFrame(s, pc.chan, pc.chosen.value, r); }
    hide WF, Serve;
  }

  lemma WaitChooses(s: State, r: nat, e: Event, x: Id)
    requires WF(s) && r < |s.reqs| && NobodyChose(s, x) && (e.Notice? || e.Subscribe?)
    ensures NobodyChose(DoReq(s, r, e), x)
  {
    hide WF;
  }

  lemma ReqChooses(s: State, r: nat, e: Event, x: Id)
    requires WF(s) && r < |s.reqs| && x in s.removed && NobodyChose(s, x) && OfReq(e)
    ensures NobodyChose(DoReq(s, r, e), x)
  {
    hide WF, NobodyChose, DoReceive, DoJudge, DoStop, DoTimeout, DoTryRecv, DoFallJudge, DoAdvance, Heard;
    match e
    case Receive(_) => ScanChooses(s, r, true, x);
    case Judge(_, use) => ScanChooses(s, r, use, x);
    case Leave(_) => StopChooses(s, r, x);
    case Timeout(_) => StopChooses(s, r, x);
    case TryRecv(_) => FallChooses(s, r, true, x);
    case FallJudge(_, dark) => FallChooses(s, r, dark, x);
    case Advance(_, run) => AdvanceChooses(s, r, run, x);
    case Notice(_) => WaitChooses(s, r, e, x);
    case Subscribe(_) => WaitChooses(s, r, e, x);
  }

  lemma FarmChooses(s: State, e: Event, x: Id)
    requires WF(s) && NobodyChose(s, x)
    ensures NobodyChose(DoFarm(s, e), x)
  {
    if e.PutBack? {
      assert DoPutBack(s, e.k).reqs == s.reqs;
    } else if e.Enqueue? {
      assert DoEnqueue(s, e.id).reqs == s.reqs;
    } else {
      hide WF;
    }
  }

  lemma StepChooses(s: State, e: Event, x: Id)
    requires WF(s) && x in s.removed && NobodyChose(s, x)
    ensures NobodyChose(Step(s, e), x) && HandedOut(s, e) != Some(x) && x in Step(s, e).removed
  {
    StepRemoved(s, e);
    NotHanded(s, e, x);
    hide WF, DoReq, DoFarm, HandedOut;
    if !OfReq(e) {
      FarmChooses(s, e, x);
    } else if e.r < |s.reqs| {
      ReqChooses(s, e.r, e, x);
    }
  }

  lemma NotHanded(s: State, e: Event, x: Id)
    requires x in s.removed && NobodyChose(s, x)
    ensures HandedOut(s, e) != Some(x)
  {
    if e.Advance? && e.r < |s.reqs| { assert !ChosenBy(s.reqs[e.r].pc, x); }
  }

  lemma CountKept(q: seq<Id>, o: Option<Id>, x: Id)
    requires o != Some(x)
    ensures multiset(q + Opt(o))[x] == multiset(q)[x]
  {
  }

  lemma StepNotServed(s: State, e: Event, x: Id)
    requires WF(s) && x in s.removed && NobodyChose(s, x)
    ensures var s' := Step(s, e);
      x in s'.removed && NobodyChose(s', x) && multiset(s'.served)[x] == multiset(s.served)[x]
  {
    hide Step, WF, NobodyChose, HandedOut, Opt;
    StepChooses(s, e, x);
    ServedExactly(s, e);
    CountKept(s.served, HandedOut(s, e), x);
  }

  lemma {:induction false} NotServedOn(es: seq<Event>, fs: seq<Event>, x: Id)
    requires x in Run(es).removed && NobodyChose(Run(es), x)
    ensures var s' := Run(es + fs);
      x in s'.removed && NobodyChose(s', x) && multiset(s'.served)[x] == multiset(Run(es).served)[x]
    decreases |fs|
  {
    hide Run, Step, WF, NobodyChose;
    if fs == [] {
      assert es + fs == es;
    } else {
      LastStep(es, fs);
      NotServedOn(es, fs[..|fs| - 1], x);
      StepNotServed(Run(es + fs[..|fs| - 1]), fs[|fs| - 1], x);
    }
  }

  /**
   A removed socket is not handed out: once a socket is flagged and no fallback has already chosen
   it, no continuation of the run hands it to any request.
   */
  lemma FlaggedNeverServed(es: seq<Event>, fs: seq<Event>, x: Id)
    requires Flag(x) in es && NobodyChose(Run(es), x)
    ensures multiset(Run(es + fs).served)[x] == multiset(Run(es).served)[x]
  {
    RemovedExactly(es, x);
    hide Run;
    NotServedOn(es, fs, x);
  }

  // ---------------------------------------------------------------------------------------
  // Cancelled requests
  // ---------------------------------------------------------------------------------------

  /** A request cancelled while it holds a socket: the send its guard starts returns the token, last. */
  lemma CancelledTokenReturns(s: State, r: nat)
    requires WF(s) && r < |s.reqs| && s.reqs[r].pc.Hold?
    ensures WF(Step(s, Leave(r)))
    ensures var q, s' := s.reqs[r], Step(Step(s, Leave(r)), PutBack(|s.puts|));
      && q.chan < |s.queues| && s'.queues == s.queues[q.chan := s.queues[q.chan] + [q.pc.id]]
      && s'.puts == s.puts && s'.reqs == s.reqs[r := q.(pc := Done)] && s'.served == s.served
  {
    ChannelsOf(s, r);
    StepKeepsWF(s, Leave(r));
    hide WF;
    var q, s1 := s.reqs[r], Step(s, Leave(r));
    assert s1.puts == s.puts + [Put(q.chan, q.pc.id)] && s1.queues == s.queues;
    assert s1.puts[..|s.puts|] + s1.puts[|s.puts| + 1..] == s.puts;
  }

  // ---------------------------------------------------------------------------------------
  // Notifications
  // ---------------------------------------------------------------------------------------

  /** The request reads `n` notifications. */
  ghost function Notices(s: State, r: nat, n: nat): (s': State)
    requires WF(s)
    ensures WF(s')
    decreases n
  {
    StepKeepsWF(s, Notice(r));
    if n == 0 then s else Notices(Step(s, Notice(r)), r, n - 1)
  }

  /** A waiting request that has not fallen more than 128 notifications behind. */
  ghost predicate KeepsUp(s: State, r: nat) {
    && r < |s.reqs| && s.reqs[r].pc.Parked?
    && s.reqs[r].cursor <= |s.notes| <= s.reqs[r].cursor + 128
  }

  lemma NoticeStep(s: State, r: nat)
    requires WF(s) && KeepsUp(s, r) && s.reqs[r].cursor < |s.notes|
    ensures var q, note := s.reqs[r], s.notes[s.reqs[r].cursor];
      Step(s, Notice(r))
      == s.(clock := s.clock + 1,
            reqs := s.reqs[r := if note.route == q.route || note.route == "*"
                                then q.(pc := Scan({}), cursor := q.cursor + 1, scanAt := s.clock, looked := {})
                                else q.(cursor := q.cursor + 1)])
  {
    hide WF;
  }

  /** `s` when the request has read `n` notifications more, to no effect. */
  ghost function ReadMore(s: State, r: nat, n: nat): State
    requires r < |s.reqs|
  {
    s.(clock := s.clock + n, reqs := s.reqs[r := s.reqs[r].(cursor := s.reqs[r].cursor + n)])
  }

  lemma ReadMoreAdds(s: State, r: nat, n: nat)
    requires r < |s.reqs|
    ensures ReadMore(s, r, 0) == s && r < |ReadMore(s, r, 1).reqs|
    ensures ReadMore(ReadMore(s, r, 1), r, n) == ReadMore(s, r, n + 1)
  {
    assert s.reqs[r := s.reqs[r].(cursor := s.reqs[r].cursor)] == s.reqs;
  }

  /** None of the next `n` notifications is for the request. */
  ghost predicate NoneForIt(s: State, r: nat, n: nat) {
    && KeepsUp(s, r) && s.reqs[r].cursor + n <= |s.notes|
    && forall j :: s.reqs[r].cursor <= j < s.reqs[r].cursor + n ==>
         s.notes[j].route != s.reqs[r].route && s.notes[j].route != "*"
  }

  lemma ReadOne(s: State, r: nat, n: nat)
    requires WF(s) && NoneForIt(s, r, n + 1)
    ensures Step(s, Notice(r)) == ReadMore(s, r, 1) && NoneForIt(ReadMore(s, r, 1), r, n)
  {
    NoticeStep(s, r);
    hide WF, Step;
  }

  /** Notifications for other routes are read and change nothing else. */
  lemma {:induction false} ReadsOn(s: State, r: nat, n: nat)
    requires WF(s) && NoneForIt(s, r, n)
    ensures Notices(s, r, n) == ReadMore(s, r, n)
    decreases n
  {
    hide WF, Step, ReadMore, NoneForIt;
    NoneFacts(s, r, n);
    ReadMoreAdds(s, r, if n == 0 then 0 else n - 1);
    if n > 0 {
      StepKeepsWF(s, Notice(r));
      ReadOne(s, r, n - 1);
      ReadsOn(ReadMore(s, r, 1), r, n - 1);
    }
  }

  lemma NoneFacts(s: State, r: nat, n: nat)
    requires NoneForIt(s, r, n)
    ensures r < |s.reqs|
  {
  }

  lemma {:induction false} OneMoreNotice(s: State, r: nat, n: nat)
    requires WF(s)
    ensures Notices(s, r, n + 1) == Step(Notices(s, r, n), Notice(r))
    decreases n
  {
    StepKeepsWF(s, Notice(r));
    hide WF, Step;
    if n == 0 {
      assert Notices(Step(s, Notice(r)), r, 0) == Step(s, Notice(r));
    } else {
      OneMoreNotice(Step(s, Notice(r)), r, n - 1);
    }
  }

  /** Notification `j` is the first unread one that is for the request. */
  ghost predicate FirstForIt(s: State, q: Req, j: nat) {
    && q.cursor <= j < |s.notes| && (s.notes[j].route == q.route || s.notes[j].route == "*")
    && forall i :: q.cursor <= i < j ==> s.notes[i].route != q.route && s.notes[i].route != "*"
  }

  /**
   A waiting request is woken by the first unread notification for its route or for all routes, and
   scans again.
   */
  lemma WokenExactly(s: State, r: nat, j: nat)
    requires WF(s) && KeepsUp(s, r) && FirstForIt(s, s.reqs[r], j)
    ensures var q := s.reqs[r];
      var s' := Notices(s, r, j - q.cursor + 1);
      && r < |s'.reqs|
      && s'.reqs[r] == q.(pc := Scan({}), cursor := j + 1, scanAt := s.clock + (j - q.cursor), looked := {})
  {
    hide WF, Step, Notices;
    var q := s.reqs[r];
    ReadsOn(s, r, j - q.cursor);
    OneMoreNotice(s, r, j - q.cursor);
    NoticeStep(Notices(s, r, j - q.cursor), r);
  }

  /**
   One that has fallen more than 128 notifications behind scans again at once, and goes on reading
   with the oldest one that is left.
   */
  lemma WokenByLag(s: State, r: nat)
    requires WF(s) && r < |s.reqs| && s.reqs[r].pc.Parked? && |s.notes| > s.reqs[r].cursor + 128
    ensures Step(s, Notice(r)).reqs
         == s.reqs[r := s.reqs[r].(pc := Scan({}), cursor := |s.notes| - 128, scanAt := s.clock, looked := {})]
  {
    hide WF;
  }

  /** The first of the notifications from `k` on that is for the request. */
  lemma {:induction false} SomeFirst(s: State, q: Req, k: nat, j: nat) returns (i: nat)
    requires q.cursor <= k <= j < |s.notes| && (s.notes[j].route == q.route || s.notes[j].route == "*")
    requires forall i :: q.cursor <= i < k ==> s.notes[i].route != q.route && s.notes[i].route != "*"
    ensures FirstForIt(s, q, i) && i <= j
    decreases j - k
  {
    if s.notes[k].route == q.route || s.notes[k].route == "*" {
      i := k;
    } else {
      i := SomeFirst(s, q, k + 1, j);
    }
  }

  /** The event announces a socket of that route, or of all routes, or a host no longer dark. */
  ghost predicate Announces(s: State, e: Event, route: string) {
    || (e.Announce? && e.id in s.socks && s.socks[e.id].adding.Enqueued?
        && (s.socks[e.id].route == route || s.socks[e.id].route == "*"))
    || (e.TellLight? && e.k < |s.lights| && s.lights[e.k].Lit?)
  }

  lemma AnnounceAdds(s: State, e: Event, route: string)
    requires WF(s) && Announces(s, e, route)
    ensures var s1 := Step(s, e);
      && s1.reqs == s.reqs && |s1.notes| == |s.notes| + 1
      && (s1.notes[|s.notes|].route == route || s1.notes[|s.notes|].route == "*")
  {
    hide WF;
  }

  /**
   A waiting request that keeps up is woken: by the announcement of a socket of its route, and by
   that of a host that is no longer dark.
   */
  lemma AnnouncementWakes(s: State, e: Event, r: nat) returns (n: nat)
    requires WF(s) && KeepsUp(s, r) && |s.notes| < s.reqs[r].cursor + 128 && Announces(s, e, s.reqs[r].route)
    ensures WF(Step(s, e)) && n <= 128
    ensures var s' := Notices(Step(s, e), r, n); r < |s'.reqs| && s'.reqs[r].pc == Scan({})
  {
    hide WF, Notices, Step, Announces;
    StepKeepsWF(s, e);
    AnnounceAdds(s, e, s.reqs[r].route);
    var s1 := Step(s, e);
    var q := s1.reqs[r];
    var i := SomeFirst(s1, q, q.cursor, |s.notes|);
    WokenExactly(s1, r, i);
    n := i - q.cursor + 1;
  }

  /** A host that is lit is to be announced, once. */
  lemma LightingExactly(s: State)
    requires WF(s)
    ensures var s1 := Step(s, Light);
      && WF(s1) && s1.lights == s.lights + [Lit(s.clock)]
      && Step(s1, TellLight(|s.lights|)).notes == s.notes + [Note("*", s.clock)]
      && Step(s1, TellLight(|s.lights|)).lights == s.lights + [Told(s.clock, |s.notes|)]
  {
    StepKeepsWF(s, Light);
    hide WF;
  }

  /** A request that is cancelled while it waits or scans is done; the registry keeps its sockets alive. */
  lemma LeaveAndDie(s: State, r: nat, x: Id)
    requires WF(s)
    ensures r < |s.reqs| && (s.reqs[r].pc.Fresh? || s.reqs[r].pc.Scan? || s.reqs[r].pc.Parked?) ==>
      Step(s, Leave(r)).reqs == s.reqs[r := s.reqs[r].(pc := Done)] && Step(s, Leave(r)).puts == s.puts
    ensures x in Step(s, Die(x)).alive <==> x in s.alive && x in s.registered
    ensures x !in Step(s, Unregister(x)).registered
  {
    hide WF;
  }
}
