/**
 The farm under concurrency: many requests scan, fall back, park and give up while sockets are
 added, removed and cleaned away. A step is one operation on shared state: one channel send or
 receive, one registry change, one broadcast. A queue entry is a token for its socket.
 */
module FarmProtocol {
  import opened Wrappers

  type Id = nat

  /** How far the registration of a socket has come; `at` and `chan` say when and where it queued it. */
  datatype Adding = Inserted | Enqueued(at: nat, chan: nat) | Announced(at: nat, chan: nat, index: nat)

  datatype Info = Info(route: string, v3: bool, adding: Adding)

  datatype Pc =
    | Fresh                                                   // channel looked up, not subscribed yet
    | Scan(visited: set<Id>)                                  // waiting in `recv`
    | Hold(visited: set<Id>, id: Id)                          // received, guard armed
    | Fall(chan: nat, skipped: seq<Id>, stage: nat)           // in a fallback loop
    | FallHold(chan: nat, skipped: seq<Id>, id: Id, stage: nat)
    | Flush(chan: nat, skipped: seq<Id>, chosen: Option<Id>, stage: nat)
    | Parked                                                  // waiting for a notification
    | Done

  /** `looked` are the sockets judged since the last scan began, at `scanAt`. */
  datatype Req = Req(route: string, chan: nat, pc: Pc, final: bool, cursor: nat, scanAt: nat, looked: set<Id>)

  /** A send that a dropped guard has started. */
  datatype Put = Put(chan: nat, id: Id)

  /** A token put back into its queue, by a request or by a dropped guard. */
  datatype Sent = Sent(id: Id, who: Option<nat>, at: nat)

  /** How far lighting a dark host has come: done, and then announced. */
  datatype Lighting = Lit(at: nat) | Told(at: nat, index: nat)

  /** A broadcast and when what it announces was done. */
  datatype Note = Note(route: string, since: nat)

  datatype State = State(
    socks: map<Id, Info>,
    registered: set<Id>,
    removed: set<Id>,             // is_removed is set
    alive: set<Id>,               // a weak reference upgrades
    current: map<string, nat>,    // the channel of each route
    queues: seq<seq<Id>>,         // every channel ever made
    owners: seq<string>,          // and the routes they were made for
    puts: seq<Put>,
    reqs: seq<Req>,
    served: seq<Id>,
    sends: seq<Sent>,
    notes: seq<Note>,
    lights: seq<Lighting>,
    clock: nat
  )

  datatype Event =
    | Insert(id: Id, route: string, v3: bool)
    | Enqueue(id: Id)
    | Announce(id: Id)
    | Unregister(id: Id)      // a removal or a deregistration takes the socket out of the registry
    | Flag(id: Id)            // is_removed is set: by a removal, a deregistration or a close
    | Die(id: Id)
    | Clean(route: string)
    | Light                   // a host is no longer dark
    | TellLight(k: nat)
    | Start(route: string)
    | Subscribe(r: nat)
    | Receive(r: nat)
    | Judge(r: nat, use: bool)
    | Leave(r: nat)
    | Timeout(r: nat)
    | PutBack(k: nat)
    | TryRecv(r: nat)
    | FallJudge(r: nat, dark: bool)
    | Advance(r: nat, run: bool)
    | Notice(r: nat)

  /** Capacity of the broadcast channel. */
  const CAPACITY: nat := 128

  const INIT := State(map[], {}, {}, {}, map[], [], [], [], [], [], [], [], [], 0)

  // ---------------------------------------------------------------------------------------
  // Steps
  // ---------------------------------------------------------------------------------------

  ghost predicate PcWF(pc: Pc, n: nat) {
    pc.Fall? || pc.FallHold? || pc.Flush? ==> pc.chan < n
  }

  /** Every channel number in use is the number of a channel. */
  ghost predicate WF(s: State) {
    && |s.owners| == |s.queues|
    && (forall r :: r in s.current ==> s.current[r] < |s.queues|)
    && (forall i :: 0 <= i < |s.reqs| ==> s.reqs[i].chan < |s.queues| && PcWF(s.reqs[i].pc, |s.queues|))
    && (forall i :: 0 <= i < |s.puts| ==> s.puts[i].chan < |s.queues|)
  }

  predicate V3(s: State, id: Id) {
    id in s.socks && s.socks[id].v3
  }

  function Send(s: State, c: nat, id: Id): State
    requires c < |s.queues|
  {
    s.(queues := s.queues[c := s.queues[c] + [id]])
  }

  /** A token goes back to its queue. */
  function SendBack(s: State, c: nat, id: Id, who: Option<nat>): State
    requires c < |s.queues|
  {
    Send(s, c, id).(sends := s.sends + [Sent(id, who, s.clock)])
  }

  function Take(s: State, c: nat): State
    requires c < |s.queues| && s.queues[c] != []
  {
    s.(queues := s.queues[c := s.queues[c][1..]])
  }

  function Goto(s: State, r: nat, pc: Pc): State
    requires r < |s.reqs|
  {
    s.(reqs := s.reqs[r := s.reqs[r].(pc := pc)])
  }

  /** A handed-out V3 socket goes back to the queue. */
  function Serve(s: State, c: nat, id: Id, r: nat): State
    requires c < |s.queues|
  {
    (if V3(s, id) then SendBack(s, c, id, Some(r)) else s).(served := s.served + [id])
  }

  function Look(s: State, r: nat, id: Id): State
    requires r < |s.reqs|
  {
    s.(reqs := s.reqs[r := s.reqs[r].(looked := s.reqs[r].looked + {id})])
  }

  function DoInsert(s: State, id: Id, route: string, v3: bool): State {
    if id in s.socks then s
    else
      s.(socks := s.socks[id := Info(route, v3, Inserted)], registered := s.registered + {id}, alive := s.alive + {id})
  }

  /** The channel of a route, made on first use. */
  function WithChannel(s: State, route: string): State {
    if route in s.current then s
    else s.(current := s.current[route := |s.queues|], queues := s.queues + [[]], owners := s.owners + [route])
  }

  function SetAdding(s: State, id: Id, a: Adding): State
    requires id in s.socks
  {
    s.(socks := s.socks[id := s.socks[id].(adding := a)])
  }

  function DoEnqueue(s: State, id: Id): State
    requires WF(s)
  {
    if id !in s.socks || !s.socks[id].adding.Inserted? then s
    else
      var s1 := WithChannel(s, s.socks[id].route);
      var c := s1.current[s.socks[id].route];
      SetAdding(Send(s1, c, id), id, Enqueued(s.clock, c))
  }

  function DoAnnounce(s: State, id: Id): State {
    if id !in s.socks || !s.socks[id].adding.Enqueued? then s
    else
      var info := s.socks[id];
      SetAdding(s, id, Announced(info.adding.at, info.adding.chan, |s.notes|))
        .(notes := s.notes + [Note(info.route, info.adding.at)])
  }

  function DoTellLight(s: State, k: nat): State {
    if k >= |s.lights| || !s.lights[k].Lit? then s
    else s.(lights := s.lights[k := Told(s.lights[k].at, |s.notes|)], notes := s.notes + [Note("*", s.lights[k].at)])
  }

  function DoClean(s: State, route: string): State {
    if exists id :: id in s.registered && id in s.socks && s.socks[id].route == route then s
    else s.(current := s.current - {route})
  }

  function DoReceive(s: State, r: nat): State
    requires WF(s) && r < |s.reqs|
  {
    var q := s.reqs[r];
    if !q.pc.Scan? || s.queues[q.chan] == [] then s
    else Goto(Take(s, q.chan), r, Hold(q.pc.visited, s.queues[q.chan][0]))
  }

  /** Where the filter loop puts the socket it holds; `use` is whether the socket is suitable. */
  function Place(s: State, r: nat, use: bool): State
    requires WF(s) && r < |s.reqs| && s.reqs[r].pc.Hold?
  {
    var q := s.reqs[r];
    var id, visited := q.pc.id, q.pc.visited;
    if id !in s.alive then Goto(s, r, Scan(visited))
    else if id in visited then Goto(SendBack(s, q.chan, id, Some(r)), r, Flush(q.chan, [], None, 0))
    else if id in s.removed then Goto(s, r, Scan(visited))
    else if use then Goto(Serve(s, q.chan, id, r), r, Done)
    else Goto(SendBack(s, q.chan, id, Some(r)), r, Scan(visited + {id}))
  }

  /** The body of the filter loop. */
  function DoJudge(s: State, r: nat, use: bool): State
    requires WF(s) && r < |s.reqs|
  {
    if !s.reqs[r].pc.Hold? then s else Look(Place(s, r, use), r, s.reqs[r].pc.id)
  }

  /** A cancelled wait. An armed guard starts the send that gives the token back. */
  function DoStop(s: State, r: nat, pc: Pc): State
    requires r < |s.reqs|
  {
    var q := s.reqs[r];
    if q.pc.Hold? then Goto(s, r, pc).(puts := s.puts + [Put(q.chan, q.pc.id)])
    else if q.pc.Fresh? || q.pc.Scan? || q.pc.Parked? then Goto(s, r, pc)
    else s
  }

  /** The wait ran out: one last fallback, and then an error. */
  function DoTimeout(s: State, r: nat): State
    requires r < |s.reqs|
  {
    var q := s.reqs[r];
    if q.final || !(q.pc.Scan? || q.pc.Hold? || q.pc.Parked?) then s
    else
      var s1 := DoStop(s, r, Flush(q.chan, [], None, 0));
      s1.(reqs := s1.reqs[r := s1.reqs[r].(final := true)])
  }

  function DoPutBack(s: State, k: nat): State
    requires WF(s)
  {
    if k >= |s.puts| then s
    else SendBack(s, s.puts[k].chan, s.puts[k].id, None).(puts := s.puts[..k] + s.puts[k + 1..])
  }

  function DoTryRecv(s: State, r: nat): State
    requires WF(s) && r < |s.reqs|
  {
    var pc := s.reqs[r].pc;
    if !pc.Fall? then s
    else if s.queues[pc.chan] == [] then Goto(s, r, Flush(pc.chan, pc.skipped, None, pc.stage))
    else Goto(Take(s, pc.chan), r, FallHold(pc.chan, pc.skipped, s.queues[pc.chan][0], pc.stage))
  }

  function AfterFall(s: State, pc: Pc, dark: bool): Pc
    requires pc.FallHold?
  {
    if pc.id !in s.alive || pc.id in s.removed then Fall(pc.chan, pc.skipped, pc.stage)
    else if dark then Fall(pc.chan, pc.skipped + [pc.id], pc.stage)
    else Flush(pc.chan, pc.skipped, Some(pc.id), pc.stage)
  }

  function DoFallJudge(s: State, r: nat, dark: bool): State
    requires r < |s.reqs|
  {
    var pc := s.reqs[r].pc;
    if !pc.FallHold? then s else Look(Goto(s, r, AfterFall(s, pc, dark)), r, pc.id)
  }

  /** What follows a finished stage: the route's own fallback, the catch-all, then the wait. */
  function NextStage(s: State, q: Req, stage: nat, run: bool): Pc {
    if stage == 0 then if run then Fall(q.chan, [], 1) else Flush(q.chan, [], None, 1)
    else if stage == 1 then
      if run && "*" in s.current then Fall(s.current["*"], [], 2) else Flush(q.chan, [], None, 2)
    else if q.final then Done else Parked
  }

  function DoAdvance(s: State, r: nat, run: bool): State
    requires WF(s) && r < |s.reqs|
  {
    var pc := s.reqs[r].pc;
    if !pc.Flush? then s
    else if pc.skipped != [] then
      Goto(SendBack(s, pc.chan, pc.skipped[0], Some(r)), r, Flush(pc.chan, pc.skipped[1..], pc.chosen, pc.stage))
    else if pc.chosen.Some? then Goto(Serve(s, pc.chan, pc.chosen.value, r), r, Done)
    else Goto(s, r, NextStage(s, s.reqs[r], pc.stage, run))
  }

  predicate Matches(note: Note, q: Req) {
    note.route == q.route || note.route == "*"
  }

  /** The main loop begins a scan. */
  function Rescan(q: Req, cursor: nat, now: nat): Req {
    q.(pc := Scan({}), cursor := cursor, scanAt := now, looked := {})
  }

  /** `new_socket_rx.recv()`: a receiver that fell more than CAPACITY behind has missed some. */
  function Heard(s: State, q: Req): Req {
    if |s.notes| <= q.cursor then q
    else if |s.notes| - q.cursor > CAPACITY then Rescan(q, |s.notes| - CAPACITY, s.clock)
    else if Matches(s.notes[q.cursor], q) then Rescan(q, q.cursor + 1, s.clock)
    else q.(cursor := q.cursor + 1)
  }

  function DoReq(s: State, r: nat, e: Event): State
    requires WF(s) && r < |s.reqs|
  {
    match e
    case Subscribe(_) =>
      if !s.reqs[r].pc.Fresh? then s
      else s.(reqs := s.reqs[r := Rescan(s.reqs[r], |s.notes|, s.clock)])
    case Receive(_) => DoReceive(s, r)
    case Judge(_, use) => DoJudge(s, r, use)
    case Leave(_) => DoStop(s, r, Done)
    case Timeout(_) => DoTimeout(s, r)
    case TryRecv(_) => DoTryRecv(s, r)
    case FallJudge(_, dark) => DoFallJudge(s, r, dark)
    case Advance(_, run) => DoAdvance(s, r, run)
    case Notice(_) => if !s.reqs[r].pc.Parked? then s else s.(reqs := s.reqs[r := Heard(s, s.reqs[r])])
    case _ => s
  }

  function DoFarm(s: State, e: Event): State
    requires WF(s)
  {
    match e
    case Insert(id, route, v3) => DoInsert(s, id, route, v3)
    case Enqueue(id) => DoEnqueue(s, id)
    case Announce(id) => DoAnnounce(s, id)
    case Unregister(id) => s.(registered := s.registered - {id})
    case Flag(id) => s.(removed := s.removed + {id})
    case Die(id) => if id in s.registered then s else s.(alive := s.alive - {id})
    case Clean(route) => DoClean(s, route)
    case Light => s.(lights := s.lights + [Lit(s.clock)])
    case TellLight(k) => DoTellLight(s, k)
    case Start(route) =>
      if route !in s.current then s
      else s.(reqs := s.reqs + [Req(route, s.current[route], Fresh, false, 0, 0, {})])
    case PutBack(k) => DoPutBack(s, k)
    case _ => s
  }

  predicate OfReq(e: Event) {
    || e.Subscribe? || e.Receive? || e.Judge? || e.Leave? || e.Timeout?
    || e.TryRecv? || e.FallJudge? || e.Advance? || e.Notice?
  }

  function Do(s: State, e: Event): State
    requires WF(s)
  {
    if !OfReq(e) then DoFarm(s, e) else if e.r < |s.reqs| then DoReq(s, e.r, e) else s
  }

  function Step(s: State, e: Event): State
    requires WF(s)
  {
    Do(s, e).(clock := s.clock + 1)
  }

  // ---------------------------------------------------------------------------------------
  // Runs
  // ---------------------------------------------------------------------------------------

  lemma GotoWF(s: State, r: nat, pc: Pc)
    requires WF(s) && r < |s.reqs| && PcWF(pc, |s.queues|)
    ensures WF(Goto(s, r, pc))
  {
  }

  lemma QueueWF(s: State, c: nat, q: seq<Id>)
    requires WF(s) && c < |s.queues|
    ensures WF(s.(queues := s.queues[c := q]))
  {
  }

  lemma SendBackWF(s: State, c: nat, id: Id, who: Option<nat>)
    requires WF(s) && c < |s.queues|
    ensures WF(SendBack(s, c, id, who))
  {
  }

  lemma LookWF(s: State, r: nat, id: Id)
    requires WF(s) && r < |s.reqs|
    ensures WF(Look(s, r, id))
  {
  }

  lemma ServeWF(s: State, c: nat, id: Id, r: nat)
    requires WF(s) && c < |s.queues|
    ensures WF(Serve(s, c, id, r))
  {
  }

  lemma ChannelsOf(s: State, r: nat)
    requires WF(s) && r < |s.reqs|
    ensures s.reqs[r].chan < |s.queues| && PcWF(s.reqs[r].pc, |s.queues|)
    ensures "*" in s.current ==> s.current["*"] < |s.queues|
  {
  }

  lemma ScanKeepsWF(s: State, r: nat, use: bool)
    requires WF(s) && r < |s.reqs|
    ensures WF(DoReceive(s, r)) && WF(DoJudge(s, r, use))
  {
    ChannelsOf(s, r);
    var q := s.reqs[r];
    if q.pc.Scan? && s.queues[q.chan] != [] {
      QueueWF(s, q.chan, s.queues[q.chan][1..]);
      hide WF;
      GotoWF(Take(s, q.chan), r, Hold(q.pc.visited, s.queues[q.chan][0]));
    }
    if q.pc.Hold? { JudgeKeepsWF(s, r, use); }
  }

  lemma JudgeKeepsWF(s: State, r: nat, use: bool)
    requires WF(s) && r < |s.reqs| && s.reqs[r].pc.Hold?
    ensures WF(DoJudge(s, r, use))
  {
    ChannelsOf(s, r);
    var q, id := s.reqs[r], s.reqs[r].pc.id;
    SendBackWF(s, q.chan, id, Some(r));
    ServeWF(s, q.chan, id, r);
    ServeReqs(s, q.chan, id, r);
    hide WF, Serve;
    GotoWF(s, r, Scan(q.pc.visited));
    GotoWF(SendBack(s, q.chan, id, Some(r)), r, Flush(q.chan, [], None, 0));
    GotoWF(SendBack(s, q.chan, id, Some(r)), r, Scan(q.pc.visited + {id}));
    GotoWF(Serve(s, q.chan, id, r), r, Done);
    LookWF(Place(s, r, use), r, id);
  }

  lemma ServeReqs(s: State, c: nat, id: Id, r: nat)
    requires c < |s.queues|
    ensures Serve(s, c, id, r).reqs == s.reqs
  {
  }

  lemma StopKeepsWF(s: State, r: nat, pc: Pc)
    requires WF(s) && r < |s.reqs| && PcWF(pc, |s.queues|)
    ensures WF(DoStop(s, r, pc)) && DoStop(s, r, pc).queues == s.queues && |DoStop(s, r, pc).reqs| == |s.reqs|
  {
    ChannelsOf(s, r);
    GotoWF(s, r, pc);
  }

  lemma FinalWF(s: State, r: nat)
    requires WF(s) && r < |s.reqs|
    ensures WF(s.(reqs := s.reqs[r := s.reqs[r].(final := true)]))
  {
  }

  lemma TimeoutKeepsWF(s: State, r: nat)
    requires WF(s) && r < |s.reqs|
    ensures WF(DoTimeout(s, r))
  {
    ChannelsOf(s, r);
    var pc := Flush(s.reqs[r].chan, [], None, 0);
    StopKeepsWF(s, r, pc);
    hide WF, DoStop;
    FinalWF(DoStop(s, r, pc), r);
  }

  lemma FallKeepsWF(s: State, r: nat, dark: bool)
    requires WF(s) && r < |s.reqs|
    ensures WF(DoTryRecv(s, r)) && WF(DoFallJudge(s, r, dark))
  {
    ChannelsOf(s, r);
    var pc := s.reqs[r].pc;
    if pc.Fall? {
      GotoWF(s, r, Flush(pc.chan, pc.skipped, None, pc.stage));
      if s.queues[pc.chan] != [] {
        QueueWF(s, pc.chan, s.queues[pc.chan][1..]);
        hide WF;
        GotoWF(Take(s, pc.chan), r, FallHold(pc.chan, pc.skipped, s.queues[pc.chan][0], pc.stage));
      }
    }
    if pc.FallHold? {
      hide WF;
      GotoWF(s, r, AfterFall(s, pc, dark));
      LookWF(Goto(s, r, AfterFall(s, pc, dark)), r, pc.id);
    }
  }

  lemma AdvanceKeepsWF(s: State, r: nat, run: bool)
    requires WF(s) && r < |s.reqs|
    ensures WF(DoAdvance(s, r, run))
  {
    ChannelsOf(s, r);
    var pc := s.reqs[r].pc;
    if pc.Flush? {
      if pc.skipped != [] {
        SendBackWF(s, pc.chan, pc.skipped[0], Some(r));
        hide WF;
        GotoWF(SendBack(s, pc.chan, pc.skipped[0], Some(r)), r, Flush(pc.chan, pc.skipped[1..], pc.chosen, pc.stage));
      } else if pc.chosen.Some? {
        ServeWF(s, pc.chan, pc.chosen.value, r);
        ServeReqs(s, pc.chan, pc.chosen.value, r);
        hide WF, Serve;
        GotoWF(Serve(s, pc.chan, pc.chosen.value, r), r, Done);
      } else {
        GotoWF(s, r, NextStage(s, s.reqs[r], pc.stage, run));
      }
    }
  }

  lemma NoticeKeepsWF(s: State, r: nat)
    requires WF(s) && r < |s.reqs|
    ensures WF(DoReq(s, r, Notice(r))) && WF(DoReq(s, r, Subscribe(r)))
  {
  }

  lemma ReqKeepsWF(s: State, r: nat, e: Event)
    requires WF(s) && r < |s.reqs|
    ensures WF(DoReq(s, r, e))
  {
    hide WF, DoReceive, DoJudge, DoStop, DoTimeout, DoTryRecv, DoFallJudge, DoAdvance, Heard;
    match e
    case Subscribe(_) => NoticeKeepsWF(s, r);
    case Receive(_) => ScanKeepsWF(s, r, true);
    case Judge(_, use) => ScanKeepsWF(s, r, use);
    case Leave(_) => StopKeepsWF(s, r, Done);
    case Timeout(_) => TimeoutKeepsWF(s, r);
    case TryRecv(_) => FallKeepsWF(s, r, true);
    case FallJudge(_, dark) => FallKeepsWF(s, r, dark);
    case Advance(_, run) => AdvanceKeepsWF(s, r, run);
    case Notice(_) => NoticeKeepsWF(s, r);
    case _ =>
  }

  lemma FarmKeepsWF(s: State, e: Event)
    requires WF(s)
    ensures WF(DoFarm(s, e))
  {
  }

  lemma StepKeepsWF(s: State, e: Event)
    requires WF(s)
    ensures WF(Step(s, e))
  {
    if OfReq(e) {
      if e.r < |s.reqs| { ReqKeepsWF(s, e.r, e); }
    } else {
      FarmKeepsWF(s, e);
    }
    hide DoReq, DoFarm;
  }

  function Run(es: seq<Event>): (s: State)
    ensures WF(s)
    decreases |es|
  {
    if es == [] then INIT
    else
      var before := Run(es[..|es| - 1]);
      StepKeepsWF(before, es[|es| - 1]);
      Step(before, es[|es| - 1])
  }

  lemma RunLast(es: seq<Event>)
    requires es != []
    ensures Run(es) == Step(Run(es[..|es| - 1]), es[|es| - 1])
  {
    hide WF, Step;
  }

  lemma LastStep(es: seq<Event>, fs: seq<Event>)
    requires fs != []
    ensures var n := |fs| - 1; Run(es + fs) == Step(Run(es + fs[..n]), fs[n])
  {
    hide Run, WF, Step;
    RunLast(es + fs);
    assert (es + fs)[..|es + fs| - 1] == es + fs[..|fs| - 1];
  }
}
