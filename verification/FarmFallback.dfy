/**
 A request that falls back undisturbed in the concurrent model does what the scheduler says: the
 route's own queue first, then the catch-all queue, each searched for the first live socket that
 is not dark; and then it waits, or gives up if its time has run out.
 */
module FarmFallback {
  import opened Wrappers
  import opened Scheduler
  import opened FarmProtocol
  import opened FarmTokens
  import opened FarmAlone

  /** The sockets a fallback may hand out; `dark` is what the dark hosts make of a socket. */
  ghost function Lit(s: State, dark: Id -> bool): Id -> bool {
    (x: Id) => x in s.alive && x !in s.removed && !dark(x)
  }

  /** The next step of a request in its fallback; `run` says which of the two searches are configured. */
  ghost function FallStep(s: State, r: nat, dark: Id -> bool, run: nat -> bool): (s': State)
    requires WF(s) && r < |s.reqs|
    ensures WF(s') && |s'.reqs| == |s.reqs|
  {
    var pc := s.reqs[r].pc;
    FallKeepsWF(s, r, pc.FallHold? && dark(pc.id));
    AdvanceKeepsWF(s, r, pc.Flush? && run(pc.stage));
    if pc.Fall? then DoTryRecv(s, r)
    else if pc.FallHold? then DoFallJudge(s, r, dark(pc.id))
    else if pc.Flush? then DoAdvance(s, r, run(pc.stage))
    else s
  }

  ghost function FallSteps(s: State, r: nat, dark: Id -> bool, run: nat -> bool, n: nat): (s': State)
    requires WF(s) && r < |s.reqs|
    ensures WF(s') && |s'.reqs| == |s.reqs|
    decreases n
  {
    if n == 0 then s else FallSteps(FallStep(s, r, dark, run), r, dark, run, n - 1)
  }

  /** `s` differs from `s0` in queue `c`, in the position of request `r` and in what was served. */
  ghost predicate FallAt(s0: State, s: State, r: nat, c: nat, queue: seq<Id>, pc: Pc, served: seq<Id>) {
    && r < |s0.reqs| == |s.reqs| && c < |s0.queues|
    && s == s0.(queues := s0.queues[c := queue],
                reqs := s0.reqs[r := s0.reqs[r].(pc := pc, looked := s.reqs[r].looked)],
                served := served, sends := s.sends)
  }

  // ---------------------------------------------------------------------------------------
  // Single steps
  // ---------------------------------------------------------------------------------------

  lemma RecvAt(s0: State, s: State, r: nat, c: nat, queue: seq<Id>, skipped: seq<Id>, stage: nat,
               dark: Id -> bool, run: nat -> bool)
    requires FallAt(s0, s, r, c, queue, Fall(c, skipped, stage), s0.served) && WF(s)
    ensures var s' := FallStep(s, r, dark, run);
      if queue == [] then FallAt(s0, s', r, c, [], Flush(c, skipped, None, stage), s0.served)
      else FallAt(s0, s', r, c, queue[1..], FallHold(c, skipped, queue[0], stage), s0.served)
  {
    hide WF;
    assert s0.queues[c := queue][c := queue[if queue == [] then 0 else 1..]]
        == s0.queues[c := queue[if queue == [] then 0 else 1..]];
  }

  lemma JudgeFallAt(s0: State, s: State, r: nat, c: nat, queue: seq<Id>, skipped: seq<Id>, x: Id, stage: nat,
                    dark: Id -> bool, run: nat -> bool)
    requires FallAt(s0, s, r, c, queue, FallHold(c, skipped, x, stage), s0.served) && WF(s)
    ensures var s' := FallStep(s, r, dark, run);
      if x !in s0.alive || x in s0.removed then FallAt(s0, s', r, c, queue, Fall(c, skipped, stage), s0.served)
      else if dark(x) then FallAt(s0, s', r, c, queue, Fall(c, skipped + [x], stage), s0.served)
      else FallAt(s0, s', r, c, queue, Flush(c, skipped, Some(x), stage), s0.served)
  {
    hide WF;
  }

  lemma PutBackAt(s0: State, s: State, r: nat, c: nat, queue: seq<Id>, skipped: seq<Id>, chosen: Option<Id>,
                  stage: nat, dark: Id -> bool, run: nat -> bool)
    requires FallAt(s0, s, r, c, queue, Flush(c, skipped, chosen, stage), s0.served) && WF(s) && skipped != []
    ensures FallAt(s0, FallStep(s, r, dark, run), r, c, queue + [skipped[0]],
                   Flush(c, skipped[1..], chosen, stage), s0.served)
  {
    hide WF;
    assert s0.queues[c := queue][c := queue + [skipped[0]]] == s0.queues[c := queue + [skipped[0]]];
  }

  lemma HandOutAt(s0: State, s: State, r: nat, c: nat, queue: seq<Id>, x: Id, stage: nat,
                  dark: Id -> bool, run: nat -> bool)
    requires FallAt(s0, s, r, c, queue, Flush(c, [], Some(x), stage), s0.served) && WF(s)
    ensures FallAt(s0, FallStep(s, r, dark, run), r, c, queue + Requeued(x, Shared(s0)), Done, s0.served + [x])
  {
    hide WF;
    assert queue + [] == queue;
    assert s0.queues[c := queue][c := queue + [x]] == s0.queues[c := queue + [x]];
  }

  // ---------------------------------------------------------------------------------------
  // One queue
  // ---------------------------------------------------------------------------------------

  /** `s'` is `s` after `n` steps of request `r`. */
  ghost predicate Steps(s: State, r: nat, dark: Id -> bool, run: nat -> bool, n: nat, s': State) {
    WF(s) && r < |s.reqs| && s' == FallSteps(s, r, dark, run, n)
  }

  lemma OneStep(s: State, r: nat, dark: Id -> bool, run: nat -> bool, n: nat, s': State)
    requires WF(s) && r < |s.reqs| && Steps(FallStep(s, r, dark, run), r, dark, run, n, s')
    ensures Steps(s, r, dark, run, n + 1, s')
  {
    hide FallStep, WF;
  }

  lemma NoStep(s: State, r: nat, dark: Id -> bool, run: nat -> bool)
    requires WF(s) && r < |s.reqs|
    ensures Steps(s, r, dark, run, 0, s)
  {
  }

  /** The skipped sockets go back, in order. */
  lemma {:induction false} PutAllBack(s0: State, s: State, r: nat, c: nat, queue: seq<Id>, skipped: seq<Id>,
                                      chosen: Option<Id>, stage: nat, dark: Id -> bool, run: nat -> bool)
    returns (s': State)
    requires FallAt(s0, s, r, c, queue, Flush(c, skipped, chosen, stage), s0.served) && WF(s)
    ensures Steps(s, r, dark, run, |skipped|, s') && WF(s')
    ensures FallAt(s0, s', r, c, queue + skipped, Flush(c, [], chosen, stage), s0.served)
    decreases |skipped|
  {
    hide WF, FallStep, FallAt;
    AtFacts(s0, s, r, c, queue, Flush(c, skipped, chosen, stage), s0.served);
    if skipped == [] {
      NoStep(s, r, dark, run);
      assert queue + skipped == queue;
      s' := s;
    } else {
      PutBackAt(s0, s, r, c, queue, skipped, chosen, stage, dark, run);
      var s1 := FallStep(s, r, dark, run);
      s' := PutAllBack(s0, s1, r, c, queue + [skipped[0]], skipped[1..], chosen, stage, dark, run);
      OneStep(s, r, dark, run, |skipped| - 1, s');
      assert queue + [skipped[0]] + skipped[1..] == queue + skipped;
    }
  }

  lemma AtFacts(s0: State, s: State, r: nat, c: nat, queue: seq<Id>, pc: Pc, served: seq<Id>)
    requires FallAt(s0, s, r, c, queue, pc, served)
    ensures r < |s.reqs| && c < |s0.queues| && r < |s0.reqs|
  {
  }

  /** `s'` is where the search of queue `c` ends. */
  ghost predicate Searched(s0: State, s': State, r: nat, c: nat, stage: nat, dark: Id -> bool) {
    && c < |s0.queues|
    && var q, lit := s0.queues[c], Lit(s0, dark);
       var k, after := First(q, lit), AfterFallback(q, Live(s0), lit, Shared(s0));
       if k < |q| then FallAt(s0, s', r, c, after, Done, s0.served + [q[k]])
       else FallAt(s0, s', r, c, after, Flush(c, [], None, stage), s0.served)
  }

  /** `k` sockets were received, none of which may be handed out. */
  ghost predicate Searching(s0: State, s: State, r: nat, c: nat, stage: nat, dark: Id -> bool, k: nat) {
    && c < |s0.queues| && k <= |s0.queues[c]|
    && (forall i :: 0 <= i < k ==> !Lit(s0, dark)(s0.queues[c][i]))
    && FallAt(s0, s, r, c, s0.queues[c][k..], Fall(c, Keep(s0.queues[c][..k], Live(s0)), stage), s0.served)
  }

  lemma SearchEnds(s0: State, s: State, r: nat, c: nat, stage: nat, dark: Id -> bool, run: nat -> bool)
    returns (n: nat, s': State)
    requires c < |s0.queues| && Searching(s0, s, r, c, stage, dark, |s0.queues[c]|) && WF(s)
    ensures Steps(s, r, dark, run, n, s') && Searched(s0, s', r, c, stage, dark) && n <= |s0.queues[c]| + 1
  {
    var q, live, lit := s0.queues[c], Live(s0), Lit(s0, dark);
    FirstIs(q, lit, |q|);
    assert q[|q|..] == [] && q[..|q|] == q;
    var skipped := Keep(q, live);
    hide WF, FallStep, FallAt, Keep, First;
    AtFacts(s0, s, r, c, [], Fall(c, skipped, stage), s0.served);
    RecvAt(s0, s, r, c, [], skipped, stage, dark, run);
    var s1 := FallStep(s, r, dark, run);
    s' := PutAllBack(s0, s1, r, c, [], skipped, None, stage, dark, run);
    assert [] + skipped == skipped;
    n := |skipped| + 1;
    OneStep(s, r, dark, run, |skipped|, s');
  }

  /** Socket `k` may be handed out: the skipped ones go back, and it is. */
  lemma SearchFinds(s0: State, s: State, r: nat, c: nat, stage: nat, dark: Id -> bool, run: nat -> bool, k: nat)
    returns (n: nat, s': State)
    requires c < |s0.queues| && k < |s0.queues[c]| && Lit(s0, dark)(s0.queues[c][k])
    requires forall i :: 0 <= i < k ==> !Lit(s0, dark)(s0.queues[c][i])
    requires FallAt(s0, s, r, c, s0.queues[c][k + 1..],
                    Flush(c, Keep(s0.queues[c][..k], Live(s0)), Some(s0.queues[c][k]), stage), s0.served)
    requires WF(s)
    ensures Steps(s, r, dark, run, n, s') && Searched(s0, s', r, c, stage, dark) && n <= k + 1
  {
    var q, live, lit := s0.queues[c], Live(s0), Lit(s0, dark);
    FirstIs(q, lit, k);
    var skipped := Keep(q[..k], live);
    hide WF, FallStep, FallAt, Keep, First;
    AtFacts(s0, s, r, c, q[k + 1..], Flush(c, skipped, Some(q[k]), stage), s0.served);
    var s1 := PutAllBack(s0, s, r, c, q[k + 1..], skipped, Some(q[k]), stage, dark, run);
    AtFacts(s0, s1, r, c, q[k + 1..] + skipped, Flush(c, [], Some(q[k]), stage), s0.served);
    HandOutAt(s0, s1, r, c, q[k + 1..] + skipped, q[k], stage, dark, run);
    s' := FallStep(s1, r, dark, run);
    n := |skipped| + 1;
    StepAfter(s, r, dark, run, |skipped|, s1);
  }

  lemma {:induction false} StepAfter(s: State, r: nat, dark: Id -> bool, run: nat -> bool, n: nat, s1: State)
    requires Steps(s, r, dark, run, n, s1)
    ensures WF(s1) && r < |s1.reqs| && Steps(s, r, dark, run, n + 1, FallStep(s1, r, dark, run))
    decreases n
  {
    hide FallStep, WF;
    if n > 0 {
      StepAfter(FallStep(s, r, dark, run), r, dark, run, n - 1, s1);
    } else {
      NoStep(FallStep(s, r, dark, run), r, dark, run);
    }
  }

  /** One socket further: received, and dropped, skipped or chosen. */
  lemma SearchOne(s0: State, s: State, r: nat, c: nat, stage: nat, dark: Id -> bool, run: nat -> bool, k: nat)
    returns (s2: State)
    requires Searching(s0, s, r, c, stage, dark, k) && WF(s) && k < |s0.queues[c]|
    ensures Steps(s, r, dark, run, 2, s2) && WF(s2)
    ensures var q := s0.queues[c];
      if Lit(s0, dark)(q[k]) then
        FallAt(s0, s2, r, c, q[k + 1..], Flush(c, Keep(q[..k], Live(s0)), Some(q[k]), stage), s0.served)
      else Searching(s0, s2, r, c, stage, dark, k + 1)
  {
    var q, live := s0.queues[c], Live(s0);
    HalfStep(q, k, live);
    assert q[k..][0] == q[k] && q[k..][1..] == q[k + 1..];
    var skipped := Keep(q[..k], live);
    assert skipped + [] == skipped;
    hide WF, FallStep, FallAt, Keep, Half;
    AtFacts(s0, s, r, c, q[k..], Fall(c, skipped, stage), s0.served);
    RecvAt(s0, s, r, c, q[k..], skipped, stage, dark, run);
    var s1 := FallStep(s, r, dark, run);
    JudgeFallAt(s0, s1, r, c, q[k + 1..], skipped, q[k], stage, dark, run);
    s2 := FallStep(s1, r, dark, run);
    NoStep(s, r, dark, run);
    StepAfter(s, r, dark, run, 0, s);
    StepAfter(s, r, dark, run, 1, s1);
  }

  lemma {:induction false} StepsConcat(s: State, r: nat, dark: Id -> bool, run: nat -> bool, m: nat, s1: State,
                                       n: nat, s2: State)
    requires Steps(s, r, dark, run, m, s1) && Steps(s1, r, dark, run, n, s2)
    ensures Steps(s, r, dark, run, m + n, s2)
    decreases m
  {
    hide FallStep, WF;
    if m > 0 {
      StepsConcat(FallStep(s, r, dark, run), r, dark, run, m - 1, s1, n, s2);
    }
  }

  lemma {:induction false} SearchFrom(s0: State, s: State, r: nat, c: nat, stage: nat, dark: Id -> bool,
                                      run: nat -> bool, k: nat) returns (n: nat, s': State)
    requires Searching(s0, s, r, c, stage, dark, k) && WF(s)
    ensures Steps(s, r, dark, run, n, s') && Searched(s0, s', r, c, stage, dark) && n <= 3 * |s0.queues[c]| + 1 - 2 * k
    decreases |s0.queues[c]| - k
  {
    hide WF, FallStep, FallAt, Searched, Keep, Steps;
    if k == |s0.queues[c]| {
      n, s' := SearchEnds(s0, s, r, c, stage, dark, run);
    } else {
      var s2 := SearchOne(s0, s, r, c, stage, dark, run, k);
      if Lit(s0, dark)(s0.queues[c][k]) {
        n, s' := SearchFinds(s0, s2, r, c, stage, dark, run, k);
      } else {
        n, s' := SearchFrom(s0, s2, r, c, stage, dark, run, k + 1);
      }
      StepsConcat(s, r, dark, run, 2, s2, n, s');
      n := n + 2;
    }
  }

  /**
   From every state a request at the start of a fallback search, if left alone, ends it within
   three steps for each socket of the queue and one more. It is given the first live, unremoved
   socket that is not dark, if there is one; the queue is as the simple form of the search says.
   */
  lemma UndisturbedSearch(s: State, r: nat, c: nat, stage: nat, dark: Id -> bool, run: nat -> bool)
    returns (n: nat, s': State)
    requires WF(s) && r < |s.reqs| && s.reqs[r].pc == Fall(c, [], stage)
    ensures c < |s.queues| && n <= 3 * |s.queues[c]| + 1
    ensures Steps(s, r, dark, run, n, s') && Searched(s, s', r, c, stage, dark)
  {
    ChannelsOf(s, r);
    var q := s.queues[c];
    HalfStart(q, Live(s));
    hide Keep, Half, WF, FallStep;
    assert s.queues[c := q] == s.queues && q[0..] == q;
    assert s.reqs[r := s.reqs[r].(pc := Fall(c, [], stage), looked := s.reqs[r].looked)] == s.reqs;
    n, s' := SearchFrom(s, s, r, c, stage, dark, run, 0);
  }

  // ---------------------------------------------------------------------------------------
  // The whole fallback
  // ---------------------------------------------------------------------------------------

  /** What is left of a fallback: who is handed out, and the queues. */
  datatype Found = Found(sock: Option<Id>, queues: seq<seq<Id>>)

  /** A search of queue `c`, if configured. */
  ghost function Search(s: State, queues: seq<seq<Id>>, c: nat, dark: Id -> bool): Found
    requires c < |queues|
  {
    var q, lit := queues[c], Lit(s, dark);
    var k := First(q, lit);
    Found(if k < |q| then Some(q[k]) else None, queues[c := AfterFallback(q, Live(s), lit, Shared(s))])
  }

  /** The route's own queue, and then the queue of the catch-all route. */
  ghost function Fallback(s: State, r: nat, dark: Id -> bool, first: bool, catchAll: bool): Found
    requires WF(s) && r < |s.reqs|
  {
    var own := if first then Search(s, s.queues, s.reqs[r].chan, dark) else Found(None, s.queues);
    if own.sock.Some? || !catchAll || "*" !in s.current then own else Search(s, own.queues, s.current["*"], dark)
  }

  /** `s` is `s0` with these queues and request `r` there. */
  ghost predicate Stands(s0: State, s: State, r: nat, queues: seq<seq<Id>>, pc: Pc, served: seq<Id>) {
    && r < |s0.reqs| == |s.reqs| && |queues| == |s0.queues|
    && s == s0.(queues := queues, reqs := s0.reqs[r := s0.reqs[r].(pc := pc, looked := s.reqs[r].looked)],
                served := served, sends := s.sends)
  }

  lemma AdvanceStands(s0: State, s: State, r: nat, queues: seq<seq<Id>>, c: nat, stage: nat, dark: Id -> bool,
                      run: nat -> bool)
    requires Stands(s0, s, r, queues, Flush(c, [], None, stage), s0.served) && WF(s)
    ensures Stands(s0, FallStep(s, r, dark, run), r, queues, NextStage(s0, s0.reqs[r], stage, run(stage)), s0.served)
  {
    hide WF;
  }

  lemma SearchStands(s0: State, s: State, r: nat, queues: seq<seq<Id>>, c: nat, stage: nat, dark: Id -> bool,
                     run: nat -> bool) returns (n: nat, s': State)
    requires Stands(s0, s, r, queues, Fall(c, [], stage), s0.served) && WF(s)
    ensures Steps(s, r, dark, run, n, s') && WF(s') && c < |queues| && n <= 3 * |queues[c]| + 1
    ensures var f := Search(s0, queues, c, dark);
      if f.sock.Some? then Stands(s0, s', r, f.queues, Done, s0.served + [f.sock.value])
      else Stands(s0, s', r, f.queues, Flush(c, [], None, stage), s0.served)
  {
    n, s' := UndisturbedSearch(s, r, c, stage, dark, run);
    hide WF, FallSteps, FallStep, First, AfterFallback;
    SearchSame(s0, s, r, queues, Fall(c, [], stage), dark);
  }

  /** Searches only look at what no step of the request changes. */
  lemma SearchSame(s0: State, s: State, r: nat, queues: seq<seq<Id>>, pc: Pc, dark: Id -> bool)
    requires Stands(s0, s, r, queues, pc, s0.served)
    ensures Lit(s, dark) == Lit(s0, dark) && Live(s) == Live(s0) && Shared(s) == Shared(s0)
  {
  }

  lemma StartsStanding(s: State, r: nat)
    requires r < |s.reqs|
    ensures Stands(s, s, r, s.queues, s.reqs[r].pc, s.served)
  {
    assert s.reqs[r := s.reqs[r].(pc := s.reqs[r].pc, looked := s.reqs[r].looked)] == s.reqs;
  }

  /** The first search, if it is configured, and where it leaves the request. */
  lemma OwnSearch(s0: State, s: State, r: nat, c: nat, dark: Id -> bool, run: nat -> bool)
    returns (n: nat, s': State)
    requires Stands(s0, s, r, s0.queues, Flush(c, [], None, 0), s0.served) && WF(s0) && WF(s)
    ensures Steps(s, r, dark, run, n, s') && WF(s') && s0.reqs[r].chan < |s0.queues|
    ensures n <= 3 * |s0.queues[s0.reqs[r].chan]| + 2
    ensures var f := if run(0) then Search(s0, s0.queues, s0.reqs[r].chan, dark) else Found(None, s0.queues);
      if f.sock.Some? then Stands(s0, s', r, f.queues, Done, s0.served + [f.sock.value])
      else Stands(s0, s', r, f.queues, Flush(s0.reqs[r].chan, [], None, 1), s0.served)
  {
    ChannelsOf(s0, r);
    hide WF, Stands, FallStep, Search, Steps;
    StandFacts(s0, s, r, s0.queues, Flush(c, [], None, 0), s0.served);
    AdvanceStands(s0, s, r, s0.queues, c, 0, dark, run);
    NextOwn(s, r, dark, run);
    var s1 := FallStep(s, r, dark, run);
    if run(0) {
      n, s' := SearchStands(s0, s1, r, s0.queues, s0.reqs[r].chan, 1, dark, run);
      OneStep(s, r, dark, run, n, s');
      n := n + 1;
    } else {
      NoStep(s1, r, dark, run);
      OneStep(s, r, dark, run, 0, s1);
      n, s' := 1, s1;
    }
  }

  lemma NextOwn(s: State, r: nat, dark: Id -> bool, run: nat -> bool)
    requires WF(s) && r < |s.reqs|
    ensures WF(FallStep(s, r, dark, run)) && r < |FallStep(s, r, dark, run).reqs|
  {
  }

  lemma StandFacts(s0: State, s: State, r: nat, queues: seq<seq<Id>>, pc: Pc, served: seq<Id>)
    requires Stands(s0, s, r, queues, pc, served)
    ensures r < |s.reqs| && r < |s0.reqs| && |queues| == |s0.queues|
  {
  }

  /** The second, and what follows when it finds nothing. */
  lemma CatchAllSearch(s0: State, s: State, r: nat, queues: seq<seq<Id>>, c: nat, dark: Id -> bool, run: nat -> bool)
    returns (n: nat, s': State)
    requires Stands(s0, s, r, queues, Flush(c, [], None, 1), s0.served) && WF(s0) && WF(s)
    ensures Steps(s, r, dark, run, n, s') && ("*" in s0.current ==> s0.current["*"] < |queues|)
    ensures n <= 3 + if run(1) && "*" in s0.current then 3 * |queues[s0.current["*"]]| else 0
    ensures var f := if run(1) && "*" in s0.current then Search(s0, queues, s0.current["*"], dark)
                     else Found(None, queues);
      var end := if f.sock.Some? || s0.reqs[r].final then Done else Parked;
      Stands(s0, s', r, f.queues, end, s0.served + if f.sock.Some? then [f.sock.value] else [])
  {
    hide WF, Stands, FallStep, Search, Steps;
    StandFacts(s0, s, r, queues, Flush(c, [], None, 1), s0.served);
    ChannelsOf(s0, r);
    AdvanceStands(s0, s, r, queues, c, 1, dark, run);
    NextOwn(s, r, dark, run);
    assert s0.served + [] == s0.served;
    var s1, c1 := FallStep(s, r, dark, run), s0.reqs[r].chan;
    n, s' := 0, s1;
    NoStep(s1, r, dark, run);
    var f := Found(None, queues);
    if run(1) && "*" in s0.current {
      c1 := s0.current["*"];
      f := Search(s0, queues, c1, dark);
      n, s' := SearchStands(s0, s1, r, queues, c1, 2, dark, run);
    }
    if f.sock.None? {
      StandFacts(s0, s', r, f.queues, Flush(c1, [], None, 2), s0.served);
      AdvanceStands(s0, s', r, f.queues, c1, 2, dark, run);
      StepAfter(s1, r, dark, run, n, s');
      n, s' := n + 1, FallStep(s', r, dark, run);
    }
    OneStep(s, r, dark, run, n, s');
    n := n + 1;
  }

  /** The request has been through its whole fallback. */
  ghost predicate FellBack(s0: State, s': State, r: nat, dark: Id -> bool, first: bool, catchAll: bool)
    requires WF(s0) && r < |s0.reqs|
  {
    var f := Fallback(s0, r, dark, first, catchAll);
    var end := if f.sock.Some? || s0.reqs[r].final then Done else Parked;
    Stands(s0, s', r, f.queues, end, s0.served + if f.sock.Some? then [f.sock.value] else [])
  }

  /**
   From every reachable state a request whose scan has found nothing, or whose time has run out,
   ends its fallback, if left alone, within a bounded number of steps: it is given the first live,
   unremoved socket that is not dark in the queue of its route, else in the catch-all queue, as far
   as these are configured; with none it waits, or gives up if its time has run out.
   */
  lemma UndisturbedFallback(s: State, r: nat, c: nat, dark: Id -> bool, run: nat -> bool)
    returns (n: nat, s': State)
    requires WF(s) && r < |s.reqs| && s.reqs[r].pc == Flush(c, [], None, 0)
    ensures Steps(s, r, dark, run, n, s') && FellBack(s, s', r, dark, run(0), run(1))
  {
    StartsStanding(s, r);
    hide WF, Stands, FallStep, Search, Steps;
    var m, s1 := OwnSearch(s, s, r, c, dark, run);
    var own := if run(0) then Search(s, s.queues, s.reqs[r].chan, dark) else Found(None, s.queues);
    if own.sock.Some? {
      n, s' := m, s1;
    } else {
      n, s' := CatchAllSearch(s, s1, r, own.queues, s.reqs[r].chan, dark, run);
      StepsConcat(s, r, dark, run, m, s1, n, s');
      n := m + n;
      assert s.served + [] == s.served;
    }
  }

  /** When its time runs out a request that scans or waits falls back once more and is then done. */
  lemma TimeoutEnds(s: State, r: nat, dark: Id -> bool, run: nat -> bool) returns (n: nat, s': State)
    requires WF(s) && r < |s.reqs| && !s.reqs[r].final
    requires s.reqs[r].pc.Scan? || s.reqs[r].pc.Hold? || s.reqs[r].pc.Parked?
    ensures WF(DoTimeout(s, r)) && Steps(DoTimeout(s, r), r, dark, run, n, s')
    ensures r < |s'.reqs| && s'.reqs[r].pc.Done? && |DoTimeout(s, r).reqs| == |s.reqs|
    ensures FellBack(DoTimeout(s, r), s', r, dark, run(0), run(1))
  {
    TimeoutKeepsWF(s, r);
    var s1 := DoTimeout(s, r);
    hide WF, FallStep, Fallback, Steps;
    n, s' := UndisturbedFallback(s1, r, s.reqs[r].chan, dark, run);
  }

  /** A turn of the main loop: the scan, and if it found nothing suitable the fallback. */
  lemma UndisturbedTurn(es: seq<Event>, r: nat, use: Id -> bool, dark: Id -> bool, run: nat -> bool)
    returns (m: nat, s1: State, n: nat, s': State)
    requires r < |Run(es).reqs| && Run(es).reqs[r].pc == Scan({})
    ensures Follows(Run(es), r, use, m, s1) && Ended(Run(es), s1, r, use)
    ensures WF(s1) && r < |s1.reqs| && Steps(s1, r, dark, run, n, s')
    ensures var o := ScanOutcome(Run(es).queues[Run(es).reqs[r].chan], Live(Run(es)), Fit(Run(es), use));
      if o.NoneSuitable? then FellBack(s1, s', r, dark, run(0), run(1)) else s' == s1
  {
    m, s1 := UndisturbedScan(es, r, use);
    FollowsWF(Run(es), r, use, m, s1);
    var s := Run(es);
    hide Run, WF, FallStep, AfterScan, Steps, Rounds;
    var o := ScanOutcome(s.queues[s.reqs[r].chan], Live(s), Fit(s, use));
    if o.NoneSuitable? {
      n, s' := UndisturbedFallback(s1, r, s.reqs[r].chan, dark, run);
    } else {
      NoStep(s1, r, dark, run);
      n, s' := 0, s1;
    }
  }

  lemma FollowsWF(s: State, r: nat, use: Id -> bool, m: nat, s1: State)
    requires Follows(s, r, use, m, s1)
    ensures WF(s1) && r < |s1.reqs|
  {
  }
}
