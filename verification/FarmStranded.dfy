/**
 Two runs in which a waiting request misses a socket of its route. In the first the request keeps
 the channel it looked up once, and cleaning the route gives later sockets another channel. In the
 second another request holds the token of the socket while the scan goes round.
 */
module FarmStranded {
  import opened Wrappers
  import opened FarmProtocol

  ghost predicate Reached(s: State) {
    exists es :: Run(es) == s
  }

  /** Extend a run by one event. */
  lemma Do(s: State, e: Event) returns (s': State)
    requires Reached(s)
    ensures WF(s) && s' == Step(s, e) && Reached(s')
  {
    var es :| Run(es) == s;
    assert (es + [e])[..|es|] == es;
    assert Run(es + [e]) == Step(s, e);
    s' := Step(s, e);
  }

  /** Socket 1 is registered on "a", queued in channel 0, and there is no other. */
  ghost predicate OnlySocket1(s: State) {
    && s.registered == {1} && s.removed == {} && s.socks.Keys == {1}
    && s.current == map["a" := 0] && s.queues == [[1]]
  }

  /** Request 0, at `pc`, holds channel 0, whose only entry is the live socket 1. */
  ghost predicate OldChannel(s: State, pc: Pc) {
    && |s.reqs| == 1 && s.reqs[0].chan == 0 && !s.reqs[0].final && s.reqs[0].pc == pc
    && |s.queues| > 0 && s.queues[0] == [1] && 1 in s.alive && 1 !in s.removed
  }

  /** `s'` is `s` later, with request 0 at `pc`. */
  ghost predicate Later(s: State, s': State, pc: Pc)
    requires |s.reqs| == 1
  {
    && |s'.reqs| == 1
    && s' == s.(clock := s'.clock, sends := s'.sends, reqs := [s.reqs[0].(pc := pc, looked := s'.reqs[0].looked)])
  }

  /** Socket 1 is received and put back. */
  lemma LookAt(s: State, visited: set<Id>) returns (s': State)
    requires Reached(s) && OldChannel(s, Scan(visited))
    ensures Reached(s') && Later(s, s', if 1 in visited then Flush(0, [], None, 0) else Scan(visited + {1}))
  {
    hide Reached;
    var s1 := Do(s, Receive(0));
    assert s.queues[0][1..] == [] && s.queues[0][0] == 1;
    assert s1.queues == s.queues[0 := []] && s1.reqs == [s.reqs[0].(pc := Hold(visited, 1))];
    s' := Do(s1, Judge(0, false));
    assert s1.queues[0] + [1] == s.queues[0];
    assert s'.queues == s.queues;
    assert s'.reqs == [s.reqs[0].(pc := s'.reqs[0].pc, looked := s'.reqs[0].looked)];
  }

  /** No fallback is configured. */
  lemma Park(s: State) returns (s': State)
    requires Reached(s) && OldChannel(s, Flush(0, [], None, 0))
    ensures Reached(s') && Later(s, s', Parked)
  {
    hide Reached;
    s' := Do(s, Advance(0, false));
    assert Later(s, s', Flush(0, [], None, 1));
    s' := Do(s', Advance(0, false));
    assert Later(s, s', Flush(0, [], None, 2));
    s' := Do(s', Advance(0, false));
  }

  /** A scan that finds socket 1 unsuitable parks the request. */
  lemma ScanInVain(s: State) returns (s': State)
    requires Reached(s) && OldChannel(s, Scan({}))
    ensures Reached(s') && Later(s, s', Parked)
  {
    hide Reached;
    s' := LookAt(s, {});
    s' := LookAt(s', {1});
    s' := Park(s');
  }

  /** Socket 1 is registered on "a". */
  lemma First() returns (s: State)
    ensures Reached(s) && s.reqs == [] && |s.notes| == 1 && 1 in s.alive
    ensures OnlySocket1(s)
  {
    s := Empty();
    hide Reached;
    s := Do(s, Insert(1, "a", true));
    s := Queue(s, 1);
    assert s.queues == [[1]];
    s := Do(s, Announce(1));
  }

  /** And request 0 subscribes. */
  lemma Begin() returns (s: State)
    ensures Reached(s) && OldChannel(s, Scan({})) && s.reqs[0].route == "a" && s.reqs[0].cursor == |s.notes| == 1
    ensures OnlySocket1(s)
  {
    hide Reached;
    s := First();
    s := Ask(s);
  }

  lemma Empty() returns (s: State)
    ensures Reached(s) && s.socks == map[] && s.registered == {} && s.removed == {} && s.current == map[]
    ensures s.queues == [] && s.reqs == [] && s.notes == []
  {
    s := INIT;
    assert Run([]) == INIT;
  }

  /** The first request looks up the channel of "a" and subscribes. */
  lemma Ask(s: State) returns (s': State)
    requires Reached(s) && s.reqs == [] && "a" in s.current
    ensures Reached(s') && s' == s.(clock := s'.clock, reqs := s'.reqs)
    ensures |s'.reqs| == 1 && s'.reqs[0] == Req("a", s.current["a"], Scan({}), false, |s.notes|, s'.reqs[0].scanAt, {})
  {
    hide Reached;
    s' := Do(s, Start("a"));
    assert s'.reqs == [Req("a", s.current["a"], Fresh, false, 0, 0, {})];
    s' := Do(s', Subscribe(0));
  }

  /** A socket of a route without a channel is queued in a new one. */
  lemma Queue(s: State, id: Id) returns (s': State)
    requires Reached(s) && id in s.socks && s.socks[id].adding.Inserted? && s.socks[id].route !in s.current
    ensures Reached(s')
    ensures s' == s.(socks := s'.socks, current := s'.current, queues := s'.queues, owners := s'.owners,
                     clock := s'.clock)
    ensures s'.socks == s.socks[id := s.socks[id].(adding := Enqueued(s.clock, |s.queues|))]
    ensures s'.current == s.current[s.socks[id].route := |s.queues|] && s'.queues == s.queues + [[id]]
  {
    hide Reached;
    s' := Do(s, Enqueue(id));
    var made := s.queues + [[]];
    assert made[|s.queues|] + [id] == [id];
    assert s'.queues == made[|s.queues| := [id]] == s.queues + [[id]];
  }

  /** Route "a" is cleaned after its last socket was deregistered, and socket 2 registers on it. */
  lemma Replace(s: State) returns (s': State)
    requires Reached(s) && OldChannel(s, Parked) && s.reqs[0].route == "a"
    requires OnlySocket1(s)
    ensures Reached(s') && OldChannel(s', Parked) && s'.reqs == s.reqs
    ensures |s'.notes| == |s.notes| + 1 && s'.notes[|s.notes|].route == "a"
    ensures s'.registered == {2} && 2 in s'.alive && s'.removed == {} && 2 in s'.socks
    ensures s'.socks[2].route == "a" && s'.socks[2].adding.Announced?
    ensures s'.current == map["a" := 1] && s'.queues == [[1], [2]]
  {
    hide Reached;
    s' := Do(s, Unregister(1));
    assert s'.registered == {};
    s' := Do(s', Clean("a"));
    assert s'.current == map[];
    s' := Do(s', Insert(2, "a", true));
    s' := Queue(s', 2);
    assert s'.queues == [[1], [2]];
    s' := Do(s', Announce(2));
  }

  /**
   The failing run: at its end request 0 waits for a notification with none unread, while the
   registered, live and unremoved socket 2 of its route stands in a channel it does not scan.
   */
  lemma WaitingRequestMissesSocket() returns (s: State)
    ensures Reached(s) && |s.reqs| == 1 && s.reqs[0].pc.Parked? && s.reqs[0].cursor == |s.notes|
    ensures 2 in s.registered && 2 in s.alive && 2 !in s.removed && 2 in s.socks
    ensures s.socks[2].route == s.reqs[0].route && s.socks[2].adding.Announced?
    ensures |s.queues| == 2 && 2 in s.queues[1] && s.reqs[0].chan == 0 && 2 !in s.queues[0]
    ensures s.current == map[s.reqs[0].route := 1]
  {
    hide Reached;
    s := Begin();
    s := ScanInVain(s);
    s := Replace(s);
    s := Do(s, Notice(0));
    s := ScanInVain(s);
  }

  // ---------------------------------------------------------------------------------------
  // The second run
  // ---------------------------------------------------------------------------------------

  /** Two requests on channel 0, with live sockets 1 and 2. */
  ghost predicate TwoRequests(s: State) {
    && |s.reqs| == 2 && s.reqs[0].chan == s.reqs[1].chan == 0 && !s.reqs[0].final && !s.reqs[1].final
    && s.removed == {} && 1 in s.alive && 2 in s.alive
  }

  /** `s` is `s0` later, with this queue, and the requests at these places. */
  ghost predicate Pair(s0: State, s: State, queue: seq<Id>, pcs: seq<Pc>, looked: seq<set<Id>>) {
    && TwoRequests(s0) && |pcs| == |looked| == 2
    && s == s0.(clock := s.clock, sends := s.sends, queues := [queue], reqs := [
         s0.reqs[0].(pc := pcs[0], looked := looked[0]), s0.reqs[1].(pc := pcs[1], looked := looked[1])])
  }

  /** Request `r` receives the head of the queue. */
  lemma Next(s0: State, s: State, r: nat, queue: seq<Id>, rest: seq<Id>, pcs: seq<Pc>, pcs': seq<Pc>,
             looked: seq<set<Id>>) returns (s': State)
    requires Reached(s) && Pair(s0, s, queue, pcs, looked) && r < 2 && pcs[r].Scan?
    requires queue != [] && rest == queue[1..] && pcs' == pcs[r := Hold(pcs[r].visited, queue[0])]
    ensures Reached(s') && Pair(s0, s', rest, pcs', looked)
  {
    hide Reached;
    s' := Do(s, Receive(r));
    assert s'.queues == [rest];
  }

  /** Request `r` puts the socket back. */
  lemma Reject(s0: State, s: State, r: nat, queue: seq<Id>, more: seq<Id>, pcs: seq<Pc>, pcs': seq<Pc>,
               looked: seq<set<Id>>, looked': seq<set<Id>>) returns (s': State)
    requires Reached(s) && Pair(s0, s, queue, pcs, looked) && r < 2 && pcs[r].Hold? && pcs[r].id in {1, 2}
    requires more == queue + [pcs[r].id] && |pcs'| == |looked'| == 2
    requires pcs' == pcs[r := pcs'[r]] && looked' == looked[r := looked'[r]]
    requires if pcs[r].id in pcs[r].visited then pcs'[r] == Flush(0, [], None, 0)
      else pcs'[r].Scan? && pcs'[r].visited == pcs[r].visited + {pcs[r].id}
    requires looked'[r] == looked[r] + {pcs[r].id}
    ensures Reached(s') && Pair(s0, s', more, pcs', looked')
  {
    hide Reached;
    s' := Do(s, Judge(r, false));
    var id := pcs[r].id;
    assert s.reqs[r].pc == pcs[r] && s.reqs[r].chan == 0;
    assert s'.queues == [more];
    assert s'.reqs[r] == s.reqs[r].(pc := pcs'[r], looked := looked'[r]);
    assert s'.reqs == s.reqs[r := s'.reqs[r]];
  }

  lemma GiveUp(s0: State, s: State, queue: seq<Id>, pc: Pc, looked: seq<set<Id>>) returns (s': State)
    requires Reached(s) && Pair(s0, s, queue, [pc, Flush(0, [], None, 0)], looked)
    ensures Reached(s') && Pair(s0, s', queue, [pc, Parked], looked)
  {
    hide Reached;
    s' := Do(s, Advance(1, false));
    assert Pair(s0, s', queue, [pc, Flush(0, [], None, 1)], looked);
    s' := Do(s', Advance(1, false));
    assert Pair(s0, s', queue, [pc, Flush(0, [], None, 2)], looked);
    s' := Do(s', Advance(1, false));
  }

  /** Sockets 1 and 2 are registered on "a". */
  lemma Register() returns (s: State)
    ensures Reached(s) && s.queues == [[1, 2]] && s.reqs == [] && s.current == map["a" := 0]
    ensures s.registered == {1, 2} && s.removed == {} && 1 in s.alive && 2 in s.alive
    ensures 2 in s.socks && s.socks[2].route == "a" && s.socks[2].adding.Announced?
  {
    hide Reached;
    s := First();
    s := Do(s, Insert(2, "a", true));
    s := Do(s, Enqueue(2));
    assert [1] + [2] == [1, 2];
    assert s.queues == [[1, 2]];
    s := Do(s, Announce(2));
  }

  /** And both requests subscribe. */
  lemma AskTwice(s: State) returns (s': State)
    requires Reached(s) && s.reqs == [] && "a" in s.current
    ensures Reached(s') && s' == s.(clock := s'.clock, reqs := s'.reqs) && |s'.reqs| == 2
    ensures forall i :: 0 <= i < 2 ==>
      s'.reqs[i] == Req("a", s.current["a"], Scan({}), false, |s.notes|, s'.reqs[i].scanAt, {})
  {
    hide Reached, Run, WF;
    var s1 := Ask(s);
    var s2 := Do(s1, Start("a"));
    assert s2.reqs == s1.reqs + [Req("a", s.current["a"], Fresh, false, 0, 0, {})];
    s' := Do(s2, Subscribe(1));
    assert s'.reqs == s1.reqs + [s'.reqs[1]];
  }

  /** While request 0 holds socket 2, request 1 meets socket 1 twice and waits. */
  lemma GoRound(s0: State) returns (s: State)
    requires Reached(s0) && Pair(s0, s0, [1, 2], [Scan({}), Scan({})], [{}, {}])
    ensures Reached(s) && Pair(s0, s, [1, 2], [Scan({1, 2}), Parked], [{1, 2}, {1}])
  {
    hide Reached, Pair;
    var scan, hold1, hold2 := Scan({}), Hold({}, 1), Hold({1}, 2);
    s := Next(s0, s0, 0, [1, 2], [2], [scan, scan], [hold1, scan], [{}, {}]);
    s := Reject(s0, s, 0, [2], [2, 1], [hold1, scan], [Scan({1}), scan], [{}, {}], [{1}, {}]);
    s := Next(s0, s, 0, [2, 1], [1], [Scan({1}), scan], [hold2, scan], [{1}, {}]);
    s := Next(s0, s, 1, [1], [], [hold2, scan], [hold2, hold1], [{1}, {}]);
    s := Reject(s0, s, 1, [], [1], [hold2, hold1], [hold2, Scan({1})], [{1}, {}], [{1}, {1}]);
    s := Next(s0, s, 1, [1], [], [hold2, Scan({1})], [hold2, Hold({1}, 1)], [{1}, {1}]);
    var flush := Flush(0, [], None, 0);
    s := Reject(s0, s, 1, [], [1], [hold2, Hold({1}, 1)], [hold2, flush], [{1}, {1}], [{1}, {1}]);
    s := GiveUp(s0, s, [1], hold2, [{1}, {1}]);
    s := Reject(s0, s, 0, [1], [1, 2], [hold2, Parked], [Scan({1, 2}), Parked], [{1}, {1}], [{1, 2}, {1}]);
  }

  /**
   The second failing run: at its end request 1 waits with nothing unread, its channel is the
   channel of its route, and the registered, live and unremoved socket 2 of the route stands in
   it; the request has never looked at that socket.
   */
  lemma HeldSocketIsMissed() returns (s: State)
    ensures Reached(s) && |s.reqs| == 2 && s.reqs[1].pc.Parked? && s.reqs[1].cursor == |s.notes|
    ensures 2 in s.registered && 2 in s.alive && 2 !in s.removed && 2 in s.socks
    ensures s.socks[2].route == s.reqs[1].route && s.socks[2].adding.Announced?
    ensures s.current == map[s.reqs[1].route := s.reqs[1].chan] && s.reqs[1].chan == 0
    ensures |s.queues| == 1 && 2 in s.queues[0] && 2 !in s.reqs[1].looked
  {
    s := Register();
    s := AskTwice(s);
    s := GoRound(s);
  }
}
