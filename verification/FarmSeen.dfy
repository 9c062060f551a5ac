/**
 Which sockets a waiting request has looked at. A scan ends when it meets a socket again, and the
 queue is first in first out: a token that stays in the queue is received before that. So a
 request that waits has looked at every socket that was in its channel when its scan began,
 except those whose token somebody else held in the meantime.
 */
module FarmSeen {
  import opened Wrappers
  import opened FarmProtocol
  import opened FarmTokens
  import opened FarmHomes
  import opened FarmWakeUp

  // ---------------------------------------------------------------------------------------
  // The invariant
  // ---------------------------------------------------------------------------------------

  /** The request scans, falls back or waits, and its time has not run out. */
  ghost predicate Active(q: Req) {
    !q.pc.Fresh? && !q.pc.Done? && (q.final ==> q.pc.Parked?)
  }

  /** The socket could still be handed out. */
  ghost predicate Usable(s: State, x: Id) {
    x in s.alive && x !in s.removed && (V3(s, x) || x !in s.served)
  }

  /** It was queued in the request's channel before the request's scan began. */
  ghost predicate Candidate(s: State, q: Req, x: Id) {
    Usable(s, x) && Queued(s, x) && s.socks[x].adding.at < q.scanAt && s.socks[x].adding.chan == q.chan
  }

  ghost predicate InOtherHand(s: State, r: nat, x: Id) {
    exists i :: 0 <= i < |s.reqs| && i != r && x in Hand(s.reqs[i].pc)
  }

  ghost predicate InPut(s: State, x: Id) {
    exists k :: 0 <= k < |s.puts| && s.puts[k].id == x
  }

  ghost predicate SentByOther(sends: seq<Sent>, r: nat, x: Id, since: nat) {
    exists k :: 0 <= k < |sends| && sends[k].id == x && sends[k].who != Some(r) && sends[k].at >= since
  }

  /** Somebody else holds the token of `x`, or has put it back since the scan of request `r` began. */
  ghost predicate HeldByOther(s: State, r: nat, x: Id)
    requires r < |s.reqs|
  {
    InOtherHand(s, r, x) || InPut(s, x) || SentByOther(s.sends, r, x, s.reqs[r].scanAt)
  }

  /** Entry `p` is `x`, and none of the sockets in `visited` stands before it. */
  ghost predicate ClearAt(q: seq<Id>, p: nat, x: Id, visited: set<Id>) {
    p < |q| && q[p] == x && forall i :: 0 <= i < p ==> q[i] !in visited
  }

  ghost predicate Clear(q: seq<Id>, x: Id, visited: set<Id>) {
    exists p :: ClearAt(q, p, x, visited)
  }

  /** The scan is still to receive or to judge `x`. */
  ghost predicate Ahead(s: State, q: Req, x: Id)
    requires q.chan < |s.queues|
  {
    match q.pc
    case Scan(visited) => Clear(s.queues[q.chan], x, visited)
    case Hold(visited, y) => y == x || (y !in visited && Clear(s.queues[q.chan], x, visited))
    case _ => false
  }

  ghost predicate SeenOk(s: State, r: nat, x: Id) {
    r < |s.reqs| && s.reqs[r].chan < |s.queues| && Active(s.reqs[r]) && Candidate(s, s.reqs[r], x) ==>
      x in s.reqs[r].looked || HeldByOther(s, r, x) || Ahead(s, s.reqs[r], x)
  }

  // ---------------------------------------------------------------------------------------
  // Queues
  // ---------------------------------------------------------------------------------------

  lemma ClearLonger(q: seq<Id>, q': seq<Id>, x: Id, visited: set<Id>)
    requires Clear(q, x, visited) && q <= q'
    ensures Clear(q', x, visited)
  {
    var p: nat :| ClearAt(q, p, x, visited);
    assert ClearAt(q', p, x, visited);
  }

  /** Behind a socket put back last, one more may count as visited. */
  lemma ClearPutBack(q: seq<Id>, y: Id, x: Id, visited: set<Id>)
    requires Clear(q, x, visited) && y !in q
    ensures Clear(q + [y], x, visited + {y})
  {
    var p: nat :| ClearAt(q, p, x, visited);
    assert ClearAt(q + [y], p, x, visited + {y});
  }

  lemma ClearTail(q: seq<Id>, x: Id, visited: set<Id>)
    requires Clear(q, x, visited) && q[0] != x
    ensures q[0] !in visited && Clear(q[1..], x, visited)
  {
    var p: nat :| ClearAt(q, p, x, visited);
    assert ClearAt(q[1..], p - 1, x, visited);
  }

  lemma ClearNone(q: seq<Id>, x: Id)
    requires x in q
    ensures Clear(q, x, {})
  {
    var p :| 0 <= p < |q| && q[p] == x;
    assert ClearAt(q, p, x, {});
  }

  // ---------------------------------------------------------------------------------------
  // What somebody else does
  // ---------------------------------------------------------------------------------------

  /** A queue is left alone, loses its head to a hand, or gets an entry at its end. */
  ghost predicate QueueFate(q: seq<Id>, q': seq<Id>, hand: multiset<Id>) {
    || q' == q
    || (q != [] && q' == q[1..] && q[0] in hand)
    || (q' != [] && q == q'[..|q'| - 1])
  }

  /** What a step of request `i` does to tokens, seen from `x`. */
  ghost predicate Fate(s: State, s': State, i: nat, x: Id) {
    && SameFarm(s, s') && i < |s.reqs| == |s'.reqs| && s'.reqs == s.reqs[i := s'.reqs[i]]
    && s.served <= s'.served && s.sends <= s'.sends && s.puts <= s'.puts && |s'.queues| == |s.queues|
    && (forall c :: 0 <= c < |s.queues| ==> QueueFate(s.queues[c], s'.queues[c], Hand(s'.reqs[i].pc)))
    && (x in Hand(s.reqs[i].pc) ==>
          x in Hand(s'.reqs[i].pc) || InPut(s', x) || SentNow(s', i, x) || !Usable(s', x))
  }

  ghost predicate SentNow(s: State, i: nat, x: Id) {
    s.sends != [] && s.sends[|s.sends| - 1] == Sent(x, Some(i), s.clock)
  }

  lemma FateFrame(s: State, s': State, i: nat, x: Id)
    requires Fate(s, s', i, x)
    ensures SameFarm(s, s') && |s'.queues| == |s.queues|
    ensures i < |s.reqs| == |s'.reqs| && s'.reqs == s.reqs[i := s'.reqs[i]]
  {
    hide Hand, QueueFate, SameFarm;
  }

  lemma FateHeld(s: State, s': State, i: nat, r: nat, x: Id)
    requires Fate(s, s', i, x) && r < |s.reqs| && i != r && s.reqs[r].scanAt <= s.clock && Usable(s', x)
    requires HeldByOther(s, r, x)
    ensures HeldByOther(s', r, x)
  {
    hide Hand;
    assert s'.reqs[r] == s.reqs[r];
    if InOtherHand(s, r, x) {
      var j :| 0 <= j < |s.reqs| && j != r && x in Hand(s.reqs[j].pc);
      if j != i {
        assert s'.reqs[j] == s.reqs[j];
      } else if SentNow(s', i, x) {
        assert s'.sends[|s'.sends| - 1].who == Some(i);
      }
    } else if InPut(s, x) {
      var k :| 0 <= k < |s.puts| && s.puts[k].id == x;
      assert s'.puts[k] == s.puts[k];
    } else {
      var t := s.reqs[r].scanAt;
      var k :| 0 <= k < |s.sends| && s.sends[k].id == x && s.sends[k].who != Some(r) && s.sends[k].at >= t;
      assert s'.sends[k] == s.sends[k];
    }
  }

  lemma FateClear(s: State, s': State, i: nat, r: nat, c: nat, x: Id, visited: set<Id>)
    requires Fate(s, s', i, x) && i != r && c < |s.queues| && Clear(s.queues[c], x, visited)
    ensures Clear(s'.queues[c], x, visited) || InOtherHand(s', r, x)
  {
    hide Hand, SameFarm, Usable;
    var q, q' := s.queues[c], s'.queues[c];
    assert QueueFate(q, q', Hand(s'.reqs[i].pc));
    if q' == q {
    } else if q != [] && q' == q[1..] {
      if q[0] != x { ClearTail(q, x, visited); }
    } else {
      ClearLonger(q, q', x, visited);
    }
  }

  lemma FateKeepsSeen(s: State, s': State, i: nat, r: nat, x: Id)
    requires Fate(s, s', i, x) && SeenOk(s, r, x) && i != r
    requires r < |s.reqs| && Active(s.reqs[r]) ==> s.reqs[r].scanAt <= s.clock
    ensures SeenOk(s', r, x)
  {
    if r < |s.reqs| && s.reqs[r].chan < |s.queues| && Active(s.reqs[r]) && Candidate(s', s.reqs[r], x) {
      var q := s.reqs[r];
      assert s'.reqs[r] == q;
      assert Candidate(s, q, x) by { hide Fate; UsableBefore(s, s', i, x); }
      hide Hand, Candidate, Usable;
      if x in q.looked {
      } else if HeldByOther(s, r, x) {
        assert Usable(s', x) by { CandidateUsable(s', q, x); }
        FateHeld(s, s', i, r, x);
      } else if q.pc.Scan? {
        FateClear(s, s', i, r, q.chan, x, q.pc.visited);
      } else if q.pc.id != x {
        FateClear(s, s', i, r, q.chan, x, q.pc.visited);
      }
    }
  }

  lemma CandidateUsable(s: State, q: Req, x: Id)
    requires Candidate(s, q, x)
    ensures Usable(s, x)
  {
  }

  lemma UsableBefore(s: State, s': State, i: nat, x: Id)
    requires Fate(s, s', i, x)
    ensures Usable(s', x) ==> Usable(s, x)
    ensures s'.socks == s.socks
  {
    hide Hand;
  }

  /** Nothing but `id` may leave the hand. */
  ghost predicate LetsGo(pc: Pc, next: Pc, id: Id) {
    forall y :: y in Hand(pc) ==> y == id || y in Hand(next)
  }

  ghost predicate KeepsAll(pc: Pc, next: Pc) {
    forall y :: y in Hand(pc) ==> y in Hand(next)
  }

  lemma FallGrip(c: nat, skipped: seq<Id>, id: Id, stage: nat)
    ensures var held := FallHold(c, skipped, id, stage); KeepsAll(Fall(c, skipped, stage), held) && id in Hand(held)
    ensures LetsGo(FallHold(c, skipped, id, stage), Fall(c, skipped, stage), id)
    ensures KeepsAll(Fall(c, skipped, stage), Flush(c, skipped, None, stage))
  {
  }

  lemma FallHoldGrip(c: nat, skipped: seq<Id>, id: Id, stage: nat)
    ensures KeepsAll(FallHold(c, skipped, id, stage), Fall(c, skipped + [id], stage))
    ensures KeepsAll(FallHold(c, skipped, id, stage), Flush(c, skipped, Some(id), stage))
  {
    assert Hand(Fall(c, skipped + [id], stage)) == Hand(FallHold(c, skipped, id, stage));
    assert Hand(Flush(c, skipped, Some(id), stage)) == Hand(FallHold(c, skipped, id, stage));
    hide Hand;
  }

  lemma NoGrip(pc: Pc, next: Pc)
    requires pc.Parked? || pc.Fresh?
    ensures KeepsAll(pc, next)
  {
  }

  lemma FlushGrip(c: nat, skipped: seq<Id>, chosen: Option<Id>, stage: nat, pc: Pc)
    ensures skipped != [] ==>
      LetsGo(Flush(c, skipped, chosen, stage), Flush(c, skipped[1..], chosen, stage), skipped[0])
    ensures skipped == [] && chosen.Some? ==> LetsGo(Flush(c, skipped, chosen, stage), pc, chosen.value)
    ensures skipped == [] && chosen.None? ==> KeepsAll(Flush(c, skipped, chosen, stage), pc)
  {
    if skipped != [] {
      assert skipped == [skipped[0]] + skipped[1..];
    }
  }

  lemma SameGrip(pc: Pc)
    ensures KeepsAll(pc, pc)
  {
  }

  /** A socket held goes back to its queue; it may have been handed out as well. */
  lemma ReturnFate(s: State, s': State, i: nat, c: nat, id: Id, x: Id)
    requires i < |s.reqs| == |s'.reqs| && c < |s.queues| && LetsGo(s.reqs[i].pc, s'.reqs[i].pc, id)
    requires s.served <= s'.served
    requires s' == SendBack(s, c, id, Some(i)).(reqs := s.reqs[i := s'.reqs[i]], served := s'.served)
    ensures Fate(s, s', i, x)
  {
    hide Hand;
    assert (s.queues[c] + [id])[..|s.queues[c]|] == s.queues[c];
  }

  /** A socket held is dropped or, if V1, handed out. */
  lemma LoseFate(s: State, s': State, i: nat, id: Id, x: Id)
    requires i < |s.reqs| == |s'.reqs| && LetsGo(s.reqs[i].pc, s'.reqs[i].pc, id) && !Usable(s', id)
    requires s' == s.(reqs := s.reqs[i := s'.reqs[i]], served := s'.served) && s.served <= s'.served
    ensures Fate(s, s', i, x)
  {
    hide Hand;
  }

  /** The head of a queue is taken. */
  lemma TakeFate(s: State, s': State, i: nat, c: nat, x: Id)
    requires i < |s.reqs| == |s'.reqs| && c < |s.queues| && s.queues[c] != []
    requires KeepsAll(s.reqs[i].pc, s'.reqs[i].pc) && s.queues[c][0] in Hand(s'.reqs[i].pc)
    requires s' == Take(s, c).(reqs := s.reqs[i := s'.reqs[i]])
    ensures Fate(s, s', i, x)
  {
    hide Hand;
  }

  /** No token moves. */
  lemma StillFate(s: State, s': State, i: nat, x: Id)
    requires i < |s.reqs| == |s'.reqs| && s' == s.(reqs := s.reqs[i := s'.reqs[i]])
    requires KeepsAll(s.reqs[i].pc, s'.reqs[i].pc)
    ensures Fate(s, s', i, x)
  {
    hide Hand;
  }

  lemma ReceiveFate(s: State, i: nat, x: Id)
    requires WF(s) && i < |s.reqs|
    ensures Fate(s, DoReceive(s, i), i, x)
  {
    ChannelsOf(s, i);
    hide WF, Fate;
    var s', q := DoReceive(s, i), s.reqs[i];
    if q.pc.Scan? && s.queues[q.chan] != [] {
      TakeFate(s, s', i, q.chan, x);
    } else {
      StillFate(s, s', i, x);
    }
  }

  lemma JudgeFate(s: State, i: nat, use: bool, x: Id)
    requires WF(s) && i < |s.reqs|
    ensures Fate(s, DoJudge(s, i, use), i, x)
  {
    ChannelsOf(s, i);
    var s', q := DoJudge(s, i, use), s.reqs[i];
    hide WF, Fate;
    if !q.pc.Hold? {
      StillFate(s, s', i, x);
    } else if q.pc.id !in s.alive || (q.pc.id !in q.pc.visited && q.pc.id in s.removed) {
      LoseFate(s, s', i, q.pc.id, x);
    } else if use && q.pc.id !in q.pc.visited && !V3(s, q.pc.id) {
      assert s'.served[|s.served|] == q.pc.id;
      LoseFate(s, s', i, q.pc.id, x);
    } else {
      ReturnFate(s, s', i, q.chan, q.pc.id, x);
    }
  }

  lemma StopFate(s: State, i: nat, x: Id)
    requires i < |s.reqs|
    ensures Fate(s, DoStop(s, i, Done), i, x) && Fate(s, DoTimeout(s, i), i, x)
  {
    StopFrame(s, i);
    hide SameFarm;
    var q := s.reqs[i];
    if q.pc.Hold? {
      var puts := s.puts + [Put(q.chan, q.pc.id)];
      assert puts[|s.puts|].id == q.pc.id;
    }
  }

  lemma TryRecvFate(s: State, i: nat, x: Id)
    requires WF(s) && i < |s.reqs|
    ensures Fate(s, DoTryRecv(s, i), i, x)
  {
    ChannelsOf(s, i);
    hide WF, Fate, Hand, KeepsAll;
    var s', pc := DoTryRecv(s, i), s.reqs[i].pc;
    SameGrip(pc);
    if pc.Fall? && s.queues[pc.chan] == [] { FallGrip(pc.chan, pc.skipped, 0, pc.stage); }
    if pc.Fall? && s.queues[pc.chan] != [] {
      FallGrip(pc.chan, pc.skipped, s.queues[pc.chan][0], pc.stage);
      TakeFate(s, s', i, pc.chan, x);
    } else {
      StillFate(s, s', i, x);
    }
  }

  lemma FallJudgeFate(s: State, i: nat, dark: bool, x: Id)
    requires i < |s.reqs|
    ensures Fate(s, DoFallJudge(s, i, dark), i, x)
  {
    hide Fate, Hand, KeepsAll, LetsGo;
    var s', pc := DoFallJudge(s, i, dark), s.reqs[i].pc;
    SameGrip(pc);
    if pc.FallHold? {
      FallGrip(pc.chan, pc.skipped, pc.id, pc.stage);
      FallHoldGrip(pc.chan, pc.skipped, pc.id, pc.stage);
    }
    if pc.FallHold? && (pc.id !in s.alive || pc.id in s.removed) {
      LoseFate(s, s', i, pc.id, x);
    } else {
      StillFate(s, s', i, x);
    }
  }

  lemma AdvanceFate(s: State, i: nat, run: bool, x: Id)
    requires WF(s) && i < |s.reqs|
    ensures Fate(s, DoAdvance(s, i, run), i, x)
  {
    ChannelsOf(s, i);
    hide WF, Fate, NextStage, Hand, KeepsAll, LetsGo;
    var s', pc := DoAdvance(s, i, run), s.reqs[i].pc;
    SameGrip(pc);
    if pc.Flush? { FlushGrip(pc.chan, pc.skipped, pc.chosen, pc.stage, s'.reqs[i].pc); }
    if !pc.Flush? || (pc.skipped == [] && pc.chosen.None?) {
      StillFate(s, s', i, x);
    } else if pc.skipped != [] {
      ReturnFate(s, s', i, pc.chan, pc.skipped[0], x);
    } else if V3(s, pc.chosen.value) {
      ReturnFate(s, s', i, pc.chan, pc.chosen.value, x);
    } else {
      assert s'.served[|s.served|] == pc.chosen.value;
      LoseFate(s, s', i, pc.chosen.value, x);
    }
  }

  lemma WaitFate(s: State, i: nat, e: Event, x: Id)
    requires WF(s) && i < |s.reqs| && (e.Notice? || e.Subscribe?)
    ensures Fate(s, DoReq(s, i, e), i, x)
  {
    hide WF, Fate, Hand, KeepsAll, Heard;
    var s', pc := DoReq(s, i, e), s.reqs[i].pc;
    if pc.Parked? || pc.Fresh? {
      NoGrip(pc, s'.reqs[i].pc);
    } else {
      SameGrip(pc);
    }
    StillFate(s, s', i, x);
  }

  lemma ReqFate(s: State, i: nat, e: Event, x: Id)
    requires WF(s) && i < |s.reqs| && OfReq(e)
    ensures Fate(s, DoReq(s, i, e), i, x)
  {
    hide WF, Fate, DoReceive, DoJudge, DoStop, DoTimeout, DoTryRecv, DoFallJudge, DoAdvance, Heard;
    match e
    case Receive(_) => ReceiveFate(s, i, x);
    case Judge(_, use) => JudgeFate(s, i, use, x);
    case Leave(_) => StopFate(s, i, x);
    case Timeout(_) => StopFate(s, i, x);
    case TryRecv(_) => TryRecvFate(s, i, x);
    case FallJudge(_, dark) => FallJudgeFate(s, i, dark, x);
    case Advance(_, run) => AdvanceFate(s, i, run, x);
    case Notice(_) => WaitFate(s, i, e, x);
    case Subscribe(_) => WaitFate(s, i, e, x);
  }

  // ---------------------------------------------------------------------------------------
  // What the request itself does
  // ---------------------------------------------------------------------------------------

  /** A token in a hand is in no queue. */
  lemma HeldNotQueued(s: State, r: nat, c: nat, y: Id)
    requires r < |s.reqs| && c < |s.queues| && y in Hand(s.reqs[r].pc) && TokenOk(s, y)
    ensures y !in s.queues[c]
  {
    QueueMembers(s.queues, y);
    HandMembers(s.reqs, y);
    hide Hand, InQueues, InHands, InPuts;
  }

  /** When a scan begins, a candidate stands in the queue or somebody holds it. */
  lemma FoundAtStart(s: State, r: nat, q: Req, x: Id)
    requires r < |s.reqs| && q.chan < |s.queues| && Candidate(s, q, x) && TokenOk(s, x) && AllHome(s, x)
    requires x !in Hand(s.reqs[r].pc)
    ensures x in s.queues[q.chan] || InOtherHand(s, r, x) || InPut(s, x)
  {
    QueueMembers(s.queues, x);
    HandMembers(s.reqs, x);
    PutMembers(s.puts, x);
    hide Hand, InQueues, InHands, InPuts, HandsHome, PutsHome;
  }

  /** A request whose scan begins has everything ahead of it. */
  lemma RescanSeen(s: State, s': State, r: nat, cursor: nat, x: Id)
    requires r < |s.reqs| && (s.reqs[r].pc.Fresh? || s.reqs[r].pc.Parked?)
    requires s' == s.(reqs := s.reqs[r := Rescan(s.reqs[r], cursor, s.clock)])
    requires TokenOk(s, x) && AllHome(s, x)
    ensures SeenOk(s', r, x)
  {
    var q := s'.reqs[r];
    if q.chan < |s.queues| && Active(q) && Candidate(s', q, x) {
      assert x !in Hand(s.reqs[r].pc);
      assert Candidate(s, q, x);
      hide Hand, TokenOk, AllHome, Candidate;
      FoundAtStart(s, r, q, x);
      if x in s.queues[q.chan] {
        ClearNone(s.queues[q.chan], x);
      } else if InOtherHand(s, r, x) {
        var i :| 0 <= i < |s.reqs| && i != r && x in Hand(s.reqs[i].pc);
        assert s'.reqs[i] == s.reqs[i];
      }
    }
  }

  /** A step after which nothing is left ahead changes neither what was seen nor what others held. */
  lemma LaterSeen(s: State, s': State, r: nat, x: Id)
    requires Fate(s, s', r, x) && SeenOk(s, r, x)
    requires s.reqs[r].looked <= s'.reqs[r].looked && s'.reqs[r].scanAt == s.reqs[r].scanAt
    requires s'.reqs[r].chan == s.reqs[r].chan && (Active(s'.reqs[r]) ==> Active(s.reqs[r]))
    requires s.reqs[r].chan < |s.queues|
    requires Ahead(s, s.reqs[r], x) ==> x in s'.reqs[r].looked || Ahead(s', s'.reqs[r], x)
    ensures SeenOk(s', r, x)
  {
    hide Hand, Ahead;
    if Active(s'.reqs[r]) && Candidate(s', s'.reqs[r], x) {
      UsableBefore(s, s', r, x);
      if HeldByOther(s, r, x) {
        OwnHeld(s, s', r, x);
      }
    }
  }

  lemma OwnHeld(s: State, s': State, r: nat, x: Id)
    requires Fate(s, s', r, x) && HeldByOther(s, r, x) && s'.reqs[r].scanAt == s.reqs[r].scanAt
    ensures HeldByOther(s', r, x)
  {
    hide Hand, QueueFate, Usable, SameFarm;
    if InOtherHand(s, r, x) {
      var j :| 0 <= j < |s.reqs| && j != r && x in Hand(s.reqs[j].pc);
      assert s'.reqs[j] == s.reqs[j];
    } else if InPut(s, x) {
      var k :| 0 <= k < |s.puts| && s.puts[k].id == x;
      assert s'.puts[k] == s.puts[k];
    } else {
      var t := s.reqs[r].scanAt;
      var k :| 0 <= k < |s.sends| && s.sends[k].id == x && s.sends[k].who != Some(r) && s.sends[k].at >= t;
      assert s'.sends[k] == s.sends[k];
    }
  }

  lemma OwnReceiveSeen(s: State, r: nat, x: Id)
    requires WF(s) && r < |s.reqs| && SeenOk(s, r, x)
    ensures SeenOk(DoReceive(s, r), r, x)
  {
    ReceiveFate(s, r, x);
    ChannelsOf(s, r);
    var s', q := DoReceive(s, r), s.reqs[r];
    if q.pc.Scan? && s.queues[q.chan] != [] && Ahead(s, q, x) {
      if s.queues[q.chan][0] != x { ClearTail(s.queues[q.chan], x, q.pc.visited); }
    }
    hide Hand, WF, Fate, SeenOk, Clear;
    LaterSeen(s, s', r, x);
  }

  /** Judging one socket leaves the others ahead, or hands it out. */
  lemma JudgeAhead(s: State, r: nat, use: bool, x: Id)
    requires WF(s) && r < |s.reqs| && s.reqs[r].pc.Hold? && Ahead(s, s.reqs[r], x)
    requires s.reqs[r].chan < |s.queues| && s.reqs[r].pc.id !in s.queues[s.reqs[r].chan]
    ensures var s' := DoJudge(s, r, use);
      var q' := s'.reqs[r];
      q'.pc.Done? || x in q'.looked || (q'.chan < |s'.queues| && Ahead(s', q', x))
  {
    hide WF, Clear;
    var q := s.reqs[r];
    if q.pc.id != x {
      ClearPutBack(s.queues[q.chan], q.pc.id, x, q.pc.visited);
    }
  }

  lemma JudgeKeepsScan(s: State, r: nat, use: bool)
    requires WF(s) && r < |s.reqs|
    ensures var q, q' := s.reqs[r], DoJudge(s, r, use).reqs[r];
      && q.looked <= q'.looked && q'.scanAt == q.scanAt && q'.chan == q.chan
      && (Active(q') ==> Active(q)) && (Active(q') ==> !q'.pc.Done?)
  {
    hide WF, Place;
    if s.reqs[r].pc.Hold? {
      var _ := JudgeForm(s, r, use);
    }
  }

  lemma OwnJudgeSeen(s: State, r: nat, use: bool, x: Id)
    requires WF(s) && r < |s.reqs| && SeenOk(s, r, x)
    requires s.reqs[r].pc.Hold? ==> TokenOk(s, s.reqs[r].pc.id)
    ensures SeenOk(DoJudge(s, r, use), r, x)
  {
    var s', q := DoJudge(s, r, use), s.reqs[r];
    if !q.pc.Hold? { return; }
    ChannelsOf(s, r);
    JudgeFate(s, r, use, x);
    JudgeKeepsScan(s, r, use);
    HeldNotQueued(s, r, q.chan, q.pc.id);
    hide Hand, WF, Fate, SeenOk, Ahead, TokenOk, DoJudge, Active;
    if Ahead(s, q, x) { JudgeAhead(s, r, use, x); }
    if Active(s'.reqs[r]) { LaterSeen(s, s', r, x); } else { InactiveSeen(s', r, x); }
  }

  lemma InactiveSeen(s: State, r: nat, x: Id)
    requires r < |s.reqs| && !Active(s.reqs[r])
    ensures SeenOk(s, r, x)
  {
  }

  lemma OwnStopSeen(s: State, r: nat, x: Id)
    requires WF(s) && r < |s.reqs| && SeenOk(s, r, x)
    ensures SeenOk(DoStop(s, r, Done), r, x) && SeenOk(DoTimeout(s, r), r, x)
  {
    hide WF, Candidate, HeldByOther, Ahead;
  }

  /** In a fallback nothing is ahead of the scan any more. */
  lemma OwnFallSeen(s: State, r: nat, dark: bool, x: Id)
    requires WF(s) && r < |s.reqs| && SeenOk(s, r, x)
    ensures SeenOk(DoTryRecv(s, r), r, x) && SeenOk(DoFallJudge(s, r, dark), r, x)
  {
    TryRecvFate(s, r, x);
    FallJudgeFate(s, r, dark, x);
    ChannelsOf(s, r);
    hide Hand, WF, Fate, SeenOk, Clear;
    LaterSeen(s, DoTryRecv(s, r), r, x);
    LaterSeen(s, DoFallJudge(s, r, dark), r, x);
  }

  lemma OwnAdvanceSeen(s: State, r: nat, run: bool, x: Id)
    requires WF(s) && r < |s.reqs| && SeenOk(s, r, x)
    ensures SeenOk(DoAdvance(s, r, run), r, x)
  {
    AdvanceFate(s, r, run, x);
    ChannelsOf(s, r);
    hide Hand, WF, Fate, SeenOk, Clear;
    LaterSeen(s, DoAdvance(s, r, run), r, x);
  }

  lemma OwnSubscribeSeen(s: State, r: nat, x: Id)
    requires WF(s) && r < |s.reqs| && SeenOk(s, r, x) && TokenOk(s, x) && AllHome(s, x)
    ensures SeenOk(DoReq(s, r, Subscribe(r)), r, x)
  {
    hide WF, SeenOk, TokenOk, AllHome;
    var q := s.reqs[r];
    if q.pc.Fresh? {
      RescanSeen(s, s.(reqs := s.reqs[r := Rescan(q, |s.notes|, s.clock)]), r, |s.notes|, x);
    }
  }

  /** A notice that is not for the request only moves its cursor. */
  lemma CursorSeen(s: State, r: nat, n: nat, x: Id)
    requires r < |s.reqs| && s.reqs[r].pc.Parked? && s.reqs[r].chan < |s.queues| && SeenOk(s, r, x)
    ensures SeenOk(s.(reqs := s.reqs[r := s.reqs[r].(cursor := n)]), r, x)
  {
    SameGrip(s.reqs[r].pc);
    var s' := s.(reqs := s.reqs[r := s.reqs[r].(cursor := n)]);
    StillFate(s, s', r, x);
    hide Hand, Fate, KeepsAll, SeenOk;
    LaterSeen(s, s', r, x);
  }

  lemma HeardForm(s: State, q: Req)
    ensures Heard(s, q) == q.(cursor := Heard(s, q).cursor) || Heard(s, q) == Rescan(q, Heard(s, q).cursor, s.clock)
  {
  }

  lemma OwnNoticeSeen(s: State, r: nat, x: Id)
    requires WF(s) && r < |s.reqs| && SeenOk(s, r, x) && TokenOk(s, x) && AllHome(s, x)
    ensures SeenOk(DoReq(s, r, Notice(r)), r, x)
  {
    ChannelsOf(s, r);
    var q := s.reqs[r];
    HeardForm(s, q);
    hide WF, SeenOk, TokenOk, AllHome, Heard;
    if q.pc.Parked? {
      var q' := Heard(s, q);
      if q' == q.(cursor := q'.cursor) {
        CursorSeen(s, r, q'.cursor, x);
      } else {
        RescanSeen(s, s.(reqs := s.reqs[r := q']), r, q'.cursor, x);
      }
    }
  }

  lemma OwnSeen(s: State, r: nat, e: Event, x: Id)
    requires WF(s) && r < |s.reqs| && SeenOk(s, r, x) && OfReq(e)
    requires TokenOk(s, x) && AllHome(s, x) && (s.reqs[r].pc.Hold? ==> TokenOk(s, s.reqs[r].pc.id))
    ensures SeenOk(DoReq(s, r, e), r, x)
  {
    hide WF, SeenOk, TokenOk, AllHome;
    hide DoReceive, DoJudge, DoStop, DoTimeout, DoTryRecv, DoFallJudge, DoAdvance, Heard;
    match e
    case Receive(_) => OwnReceiveSeen(s, r, x);
    case Judge(_, use) => OwnJudgeSeen(s, r, use, x);
    case Leave(_) => OwnStopSeen(s, r, x);
    case Timeout(_) => OwnStopSeen(s, r, x);
    case TryRecv(_) => OwnFallSeen(s, r, true, x);
    case FallJudge(_, dark) => OwnFallSeen(s, r, dark, x);
    case Advance(_, run) => OwnAdvanceSeen(s, r, run, x);
    case Notice(_) => OwnNoticeSeen(s, r, x);
    case Subscribe(_) => OwnSubscribeSeen(s, r, x);
  }

  // ---------------------------------------------------------------------------------------
  // What the farm does
  // ---------------------------------------------------------------------------------------

  ghost predicate SentByGuard(s: State, x: Id) {
    s.sends != [] && s.sends[|s.sends| - 1] == Sent(x, None, s.clock)
  }

  /** Requests and queues are as they were, but for what is added at their ends. */
  ghost predicate FarmFate(s: State, s': State, x: Id) {
    && s.clock == s'.clock && s.reqs <= s'.reqs && s.sends <= s'.sends && |s.queues| <= |s'.queues|
    && (forall c :: 0 <= c < |s.queues| ==> s.queues[c] <= s'.queues[c])
    && (InPut(s, x) ==> InPut(s', x) || SentByGuard(s', x))
  }

  lemma FarmHeld(s: State, s': State, r: nat, x: Id)
    requires FarmFate(s, s', x) && r < |s.reqs| && s.reqs[r].scanAt <= s.clock && HeldByOther(s, r, x)
    ensures HeldByOther(s', r, x)
  {
    hide Hand;
    if InOtherHand(s, r, x) {
      var j :| 0 <= j < |s.reqs| && j != r && x in Hand(s.reqs[j].pc);
      assert s'.reqs[j] == s.reqs[j];
    } else if InPut(s, x) {
      if SentByGuard(s', x) { assert s'.sends[|s'.sends| - 1].who == None; }
    } else {
      var t := s.reqs[r].scanAt;
      var k :| 0 <= k < |s.sends| && s.sends[k].id == x && s.sends[k].who != Some(r) && s.sends[k].at >= t;
      assert s'.sends[k] == s.sends[k];
    }
  }

  lemma FarmFateSeen(s: State, s': State, r: nat, x: Id)
    requires FarmFate(s, s', x) && SeenOk(s, r, x) && r < |s.reqs| && s.reqs[r].chan < |s.queues|
    requires Active(s.reqs[r]) ==> s.reqs[r].scanAt <= s.clock
    requires Active(s.reqs[r]) && Candidate(s', s.reqs[r], x) ==> Candidate(s, s.reqs[r], x)
    ensures SeenOk(s', r, x)
  {
    hide Hand, Candidate;
    var q := s.reqs[r];
    assert s'.reqs[r] == q;
    if Active(q) && Candidate(s', q, x) && x !in q.looked {
      if HeldByOther(s, r, x) {
        FarmHeld(s, s', r, x);
      } else if q.pc.Scan? || q.pc.id != x {
        ClearLonger(s.queues[q.chan], s'.queues[q.chan], x, q.pc.visited);
      }
    }
  }

  lemma PutBackFate(s: State, k: nat, x: Id)
    requires WF(s)
    ensures FarmFate(s, DoPutBack(s, k), x)
  {
    if k < |s.puts| && InPut(s, x) && s.puts[k].id != x {
      var j :| 0 <= j < |s.puts| && s.puts[j].id == x;
      var s' := DoPutBack(s, k);
      assert s'.puts[if j < k then j else j - 1].id == x;
    }
  }

  lemma EnqueueFate(s: State, id: Id, x: Id)
    requires WF(s)
    ensures FarmFate(s, DoEnqueue(s, id), x)
  {
  }

  lemma FarmEventFate(s: State, e: Event, x: Id)
    requires WF(s)
    ensures FarmFate(s, DoFarm(s, e), x)
  {
    if e.PutBack? {
      PutBackFate(s, e.k, x);
    } else if e.Enqueue? {
      EnqueueFate(s, e.id, x);
    } else {
      hide WF;
    }
  }

  lemma FarmCandidate(s: State, e: Event, q: Req, x: Id)
    requires WF(s) && q.scanAt <= s.clock && Candidate(DoFarm(s, e), q, x)
    ensures Candidate(s, q, x)
  {
    hide WF;
  }

  /** The farm starts requests and leaves the others alone. */
  lemma FarmReqs(s: State, e: Event)
    requires WF(s)
    ensures var reqs := DoFarm(s, e).reqs; reqs == s.reqs || exists q: Req ::
      q.pc.Fresh? && q.looked == {} && reqs == s.reqs + [q]
  {
    if e.PutBack? {
      assert DoPutBack(s, e.k).reqs == s.reqs;
    } else if e.Enqueue? {
      assert DoEnqueue(s, e.id).reqs == s.reqs;
    } else {
      hide WF;
    }
  }

  lemma FarmKeepsSeen(s: State, e: Event, r: nat, x: Id)
    requires WF(s) && SeenOk(s, r, x) && (r < |s.reqs| && Active(s.reqs[r]) ==> s.reqs[r].scanAt <= s.clock)
    ensures SeenOk(DoFarm(s, e), r, x)
  {
    var s' := DoFarm(s, e);
    if r < |s.reqs| {
      FarmEventFate(s, e, x);
      ChannelsOf(s, r);
      hide WF, FarmFate, SeenOk, DoFarm, Candidate;
      if Active(s.reqs[r]) && Candidate(s', s.reqs[r], x) { FarmCandidate(s, e, s.reqs[r], x); }
      FarmFateSeen(s, s', r, x);
    } else if r < |s'.reqs| {
      FarmReqs(s, e);
      hide DoFarm;
      InactiveSeen(s', r, x);
    }
  }

  // ---------------------------------------------------------------------------------------
  // Runs
  // ---------------------------------------------------------------------------------------

  lemma ClockSeen(s: State, n: nat, r: nat, x: Id)
    requires SeenOk(s, r, x)
    ensures SeenOk(s.(clock := n), r, x)
  {
    hide Hand, Clear;
  }

  lemma ScanBegan(s: State, r: nat)
    requires Inv(s) && r < |s.reqs| && Active(s.reqs[r])
    ensures s.reqs[r].scanAt < s.clock && s.reqs[r].cursor <= |s.notes|
  {
    assert ReqHeard(s.reqs[r], s.notes, s.clock);
  }

  lemma StepSeen(s: State, e: Event, r: nat, x: Id)
    requires WF(s) && Inv(s) && SeenOk(s, r, x) && TokenOk(s, x) && AllHome(s, x)
    requires r < |s.reqs| && s.reqs[r].pc.Hold? ==> TokenOk(s, s.reqs[r].pc.id)
    ensures SeenOk(Step(s, e), r, x)
  {
    hide WF, Inv, SeenOk, TokenOk, AllHome, DoReq, DoFarm, Fate, Active;
    if r < |s.reqs| && Active(s.reqs[r]) { ScanBegan(s, r); }
    if !OfReq(e) {
      FarmKeepsSeen(s, e, r, x);
    } else if e.r < |s.reqs| && e.r == r {
      OwnSeen(s, r, e, x);
    } else if e.r < |s.reqs| {
      ReqFate(s, e.r, e, x);
      FateKeepsSeen(s, DoReq(s, e.r, e), e.r, r, x);
    }
    ClockSeen(Do(s, e), s.clock + 1, r, x);
  }

  lemma {:induction false} RunSeen(es: seq<Event>, r: nat, x: Id)
    ensures SeenOk(Run(es), r, x)
    decreases |es|
  {
    if es != [] {
      var rest := es[..|es| - 1];
      RunSeen(rest, r, x);
      RunKeepsInv(rest);
      RunKeepsTokens(rest, x);
      RunHome(rest, x);
      var s := Run(rest);
      if r < |s.reqs| && s.reqs[r].pc.Hold? { RunKeepsTokens(rest, s.reqs[r].pc.id); }
      hide Step, SeenOk, Inv, TokenOk, AllHome, WF;
      StepSeen(s, es[|es| - 1], r, x);
    }
  }

  // ---------------------------------------------------------------------------------------
  // The theorem
  // ---------------------------------------------------------------------------------------

  /** Request `r` waits for a notification and has read them all. */
  ghost predicate Waiting(s: State, r: nat) {
    r < |s.reqs| && s.reqs[r].pc.Parked? && s.reqs[r].cursor == |s.notes|
  }

  /** `x` is registered on the route of request `r` and announced, and could be handed out. */
  ghost predicate OnItsRoute(s: State, r: nat, x: Id) {
    && r < |s.reqs| && x in s.registered && x in s.socks && x !in s.removed && (V3(s, x) || x !in s.served)
    && s.socks[x].adding.Announced? && s.socks[x].route == s.reqs[r].route
  }

  /**
   A request that waits with nothing unread, and whose channel is still the channel of its
   route, has looked at every such socket, or somebody else held the token of the socket
   since the request's last scan began.
   */
  lemma LookedAtOrHeld(es: seq<Event>, r: nat, x: Id)
    requires Waiting(Run(es), r) && OnItsRoute(Run(es), r, x)
    ensures var s := Run(es);
      var q := s.reqs[r];
      q.route in s.current && (q.chan == s.current[q.route] ==> x in q.looked || HeldByOther(s, r, x))
  {
    QueuedInItsChannelExactly(es, r, x);
    RunHome(es, x);
    RunSeen(es, r, x);
    var s := Run(es);
    ChannelsOf(s, r);
    hide Run, WF, AllHome, HeldByOther;
  }
}
