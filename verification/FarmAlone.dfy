/**
 A request that scans undisturbed in the concurrent model does what the scheduler says: from
 every reachable state, its receives and judgements leave the queue and the choice that the
 simple form of the scan gives.
 */
module FarmAlone {
  import opened Wrappers
  import opened Scheduler
  import opened FarmProtocol
  import opened FarmTokens

  ghost function Live(s: State): Id -> bool {
    (x: Id) => x in s.alive && x !in s.removed
  }

  ghost function Fit(s: State, use: Id -> bool): Id -> bool {
    (x: Id) => x in s.alive && x !in s.removed && use(x)
  }

  ghost function Shared(s: State): Id -> bool {
    (x: Id) => x in s.socks && s.socks[x].v3
  }

  /** A receive and the judgement of what was received; `use` is what the filters answer. */
  ghost function Round(s: State, r: nat, use: Id -> bool): (s': State)
    requires WF(s) && r < |s.reqs|
    ensures WF(s') && |s'.reqs| == |s.reqs|
  {
    var q := s.reqs[r];
    if q.pc.Scan? && s.queues[q.chan] != [] then
      ScanKeepsWF(s, r, true);
      ScanKeepsWF(DoReceive(s, r), r, use(s.queues[q.chan][0]));
      DoJudge(DoReceive(s, r), r, use(s.queues[q.chan][0]))
    else s
  }

  ghost function Rounds(s: State, r: nat, use: Id -> bool, n: nat): (s': State)
    requires WF(s) && r < |s.reqs|
    ensures WF(s') && |s'.reqs| == |s.reqs|
    decreases n
  {
    if n == 0 then s else Rounds(Round(s, r, use), r, use, n - 1)
  }

  /** `s` differs from `s0` in the queue and the position of request `r` and in what was served. */
  ghost predicate At(s0: State, s: State, r: nat, queue: seq<Id>, pc: Pc, served: seq<Id>) {
    && r < |s0.reqs| && s0.reqs[r].chan < |s0.queues|
    && |s.reqs| == |s0.reqs|
    && s == s0.(queues := s0.queues[s0.reqs[r].chan := queue],
                reqs := s0.reqs[r := s0.reqs[r].(pc := pc, looked := s.reqs[r].looked)],
                served := served, sends := s.sends)
  }

  /** Where a round leaves the request, the queue and the list of served sockets. */
  lemma RoundAt(s0: State, s: State, r: nat, queue: seq<Id>, visited: set<Id>, use: Id -> bool)
    requires At(s0, s, r, queue, Scan(visited), s0.served) && WF(s) && queue != []
    ensures var x, rest, s' := queue[0], queue[1..], Round(s, r, use);
      if x !in s0.alive then At(s0, s', r, rest, Scan(visited), s0.served)
      else if x in visited then At(s0, s', r, rest + [x], Flush(s0.reqs[r].chan, [], None, 0), s0.served)
      else if x in s0.removed then At(s0, s', r, rest, Scan(visited), s0.served)
      else if use(x) then At(s0, s', r, rest + Requeued(x, Shared(s0)), Done, s0.served + [x])
      else At(s0, s', r, rest + [x], Scan(visited + {x}), s0.served)
  {
    var x, rest, c := queue[0], queue[1..], s0.reqs[r].chan;
    var s1 := DoReceive(s, r);
    hide WF;
    assert s1.queues == s0.queues[c := rest];
    assert s1.reqs == s0.reqs[r := s0.reqs[r].(pc := Hold(visited, x), looked := s.reqs[r].looked)];
    JudgeAt(s0, s1, r, rest, visited, x, use(x));
  }

  lemma JudgeAt(s0: State, s: State, r: nat, rest: seq<Id>, visited: set<Id>, x: Id, use: bool)
    requires At(s0, s, r, rest, Hold(visited, x), s0.served) && WF(s)
    ensures var s' := DoJudge(s, r, use);
      if x !in s0.alive then At(s0, s', r, rest, Scan(visited), s0.served)
      else if x in visited then At(s0, s', r, rest + [x], Flush(s0.reqs[r].chan, [], None, 0), s0.served)
      else if x in s0.removed then At(s0, s', r, rest, Scan(visited), s0.served)
      else if use then At(s0, s', r, rest + Requeued(x, Shared(s0)), Done, s0.served + [x])
      else At(s0, s', r, rest + [x], Scan(visited + {x}), s0.served)
  {
    hide WF;
    var c := s0.reqs[r].chan;
    assert rest + [] == rest;
    assert s.queues[c := rest] == s.queues;
  }

  ghost predicate NoRepeats(q: seq<Id>) {
    forall i, j :: 0 <= i < j < |q| ==> q[i] != q[j]
  }

  ghost function Members(q: seq<Id>): set<Id> {
    set x | x in q
  }

  /** Where the scheduler's outcome leaves the request. */
  ghost function EndPc(o: Outcome<Id>, c: nat): Pc {
    match o
    case Chosen(_) => Done
    case NoneSuitable => Flush(c, [], None, 0)
    case Blocked => Scan({})
  }

  ghost function EndServed(o: Outcome<Id>, served: seq<Id>): seq<Id> {
    if o.Chosen? then served + [o.sock] else served
  }

  /** `s` is where the scheduler's scan of the queue of request `r` in `s0` ends. */
  ghost predicate Ended(s0: State, s: State, r: nat, use: Id -> bool) {
    && r < |s0.reqs| && s0.reqs[r].chan < |s0.queues|
    && var c, live, fit := s0.reqs[r].chan, Live(s0), Fit(s0, use);
       var o := ScanOutcome(s0.queues[c], live, fit);
       At(s0, s, r, AfterScan(s0.queues[c], live, fit, Shared(s0)), EndPc(o, c), EndServed(o, s0.served))
  }

  lemma NotYetSeen(q: seq<Id>, k: nat, live: Id -> bool)
    requires NoRepeats(q) && k < |q|
    ensures q[k] !in Members(Keep(q[..k], live))
  {
    KeepMember(q[..k], live, q[k]);
  }

  /** The request has received `k` sockets, none of them suitable. */
  ghost predicate Halfway(s0: State, s: State, r: nat, use: Id -> bool, k: nat) {
    && r < |s0.reqs| && s0.reqs[r].chan < |s0.queues|
    && var q, live := s0.queues[s0.reqs[r].chan], Live(s0);
       && k <= |q| && (forall i :: 0 <= i < k ==> !Fit(s0, use)(q[i]))
       && At(s0, s, r, Half(q, k, live), Scan(Members(Keep(q[..k], live))), s0.served)
  }

  /** One round on: either the scan has ended or one more socket is done with. */
  lemma Onward(s0: State, s: State, r: nat, use: Id -> bool, k: nat)
    requires Halfway(s0, s, r, use, k) && WF(s) && NoRepeats(s0.queues[s0.reqs[r].chan])
    requires k < |s0.queues[s0.reqs[r].chan]|
    ensures Halfway(s0, Round(s, r, use), r, use, k + 1) || Ended(s0, Round(s, r, use), r, use)
  {
    var q, live, fit := s0.queues[s0.reqs[r].chan], Live(s0), Fit(s0, use);
    HalfStep(q, k, live);
    NotYetSeen(q, k, live);
    hide Keep, Half, Round, WF, First, AfterScan, ScanOutcome, NoRepeats;
    RoundAt(s0, s, r, Half(q, k, live), Members(Keep(q[..k], live)), use);
    if fit(q[k]) {
      ChoosesAt(q, k, live, fit, Shared(s0));
    } else {
      assert Half(q, k, live)[1..] + [] == Half(q, k, live)[1..] && Keep(q[..k], live) + [] == Keep(q[..k], live);
      assert live(q[k]) ==> Members(Keep(q[..k], live) + [q[k]]) == Members(Keep(q[..k], live)) + {q[k]};
    }
  }

  /** All sockets were received: the scan meets one again, or waits on an empty queue. */
  lemma LastRound(s0: State, s: State, r: nat, use: Id -> bool)
    requires r < |s0.reqs| && s0.reqs[r].chan < |s0.queues|
    requires Halfway(s0, s, r, use, |s0.queues[s0.reqs[r].chan]|) && WF(s)
    ensures Ended(s0, Round(s, r, use), r, use)
  {
    var q, live, fit := s0.queues[s0.reqs[r].chan], Live(s0), Fit(s0, use);
    HalfEnd(q, live);
    ChoosesNone(q, live, fit, Shared(s0));
    var l := Keep(q, live);
    if l != [] {
      KeepMember(q, live, l[0]);
      hide Keep, Half, Round, WF, First, AfterScan, ScanOutcome;
      RoundAt(s0, s, r, l, Members(l), use);
    } else {
      assert Members(l) == {};
    }
  }

  /** `s'` is `s` after `n` rounds of request `r`. */
  ghost predicate Follows(s: State, r: nat, use: Id -> bool, n: nat, s': State) {
    WF(s) && r < |s.reqs| && s' == Rounds(s, r, use, n)
  }

  lemma FollowsOne(s: State, r: nat, use: Id -> bool, n: nat, s': State)
    requires WF(s) && r < |s.reqs| && Follows(Round(s, r, use), r, use, n, s')
    ensures Follows(s, r, use, n + 1, s')
  {
    hide Round, WF;
  }

  lemma FollowsNone(s: State, r: nat, use: Id -> bool)
    requires WF(s) && r < |s.reqs|
    ensures Follows(s, r, use, 0, s)
  {
  }

  lemma {:induction false} ScanFrom(s0: State, s: State, r: nat, use: Id -> bool, k: nat) returns (n: nat, s': State)
    requires Halfway(s0, s, r, use, k) && WF(s) && NoRepeats(s0.queues[s0.reqs[r].chan])
    ensures Follows(s, r, use, n, s') && Ended(s0, s', r, use)
    ensures n <= |s0.queues[s0.reqs[r].chan]| + 1 - k
    decreases |s0.queues[s0.reqs[r].chan]| - k
  {
    hide *;
    HalfwayFacts(s0, s, r, use, k);
    var s1 := Round(s, r, use);
    if k == |s0.queues[s0.reqs[r].chan]| {
      LastRound(s0, s, r, use);
    } else {
      Onward(s0, s, r, use, k);
    }
    if Ended(s0, s1, r, use) {
      FollowsNone(s1, r, use);
      n, s' := 0, s1;
    } else {
      n, s' := ScanFrom(s0, s1, r, use, k + 1);
    }
    FollowsOne(s, r, use, n, s');
    n := n + 1;
  }

  lemma HalfwayFacts(s0: State, s: State, r: nat, use: Id -> bool, k: nat)
    requires Halfway(s0, s, r, use, k)
    ensures r < |s.reqs| && r < |s0.reqs| && s0.reqs[r].chan < |s0.queues| && k <= |s0.queues[s0.reqs[r].chan]|
  {
  }

  // ---------------------------------------------------------------------------------------
  // Reachable states
  // ---------------------------------------------------------------------------------------

  lemma {:induction false} OneQueue(qs: seq<seq<Id>>, c: nat, x: Id)
    requires c < |qs|
    ensures InQueues(qs, x) >= multiset(qs[c])[x]
    decreases |qs|
  {
    if c > 0 { OneQueue(qs[1..], c - 1, x); }
  }

  /** No queue of a reachable state holds a socket twice. */
  lemma QueuesDistinct(es: seq<Event>, c: nat)
    requires c < |Run(es).queues|
    ensures NoRepeats(Run(es).queues[c])
  {
    var s := Run(es);
    var q := s.queues[c];
    forall i, j | 0 <= i < j < |q|
      ensures q[i] != q[j]
    {
      if q[i] == q[j] {
        TwiceCounts(q, i, j);
        OneQueue(s.queues, c, q[i]);
        RunKeepsTokens(es, q[i]);
        assert false;
      }
    }
  }

  /**
   From every reachable state a request that starts to scan, if left alone, ends within one
   round more than there are sockets in its queue, where the scheduler says it does.
   */
  lemma UndisturbedScan(es: seq<Event>, r: nat, use: Id -> bool) returns (n: nat, s': State)
    requires r < |Run(es).reqs| && Run(es).reqs[r].pc == Scan({})
    ensures Follows(Run(es), r, use, n, s') && Ended(Run(es), s', r, use)
    ensures Run(es).reqs[r].chan < |Run(es).queues| && n <= |Run(es).queues[Run(es).reqs[r].chan]| + 1
  {
    var s := Run(es);
    ChannelsOf(s, r);
    QueuesDistinct(es, s.reqs[r].chan);
    var q := s.queues[s.reqs[r].chan];
    HalfStart(q, Live(s));
    hide Keep, Half, WF, Run;
    assert s.queues[s.reqs[r].chan := q] == s.queues;
    assert s.reqs[r := s.reqs[r].(pc := Scan({}), looked := s.reqs[r].looked)] == s.reqs;
    assert Members([]) == {};
    n, s' := ScanFrom(s, s, r, use, 0);
  }
}
