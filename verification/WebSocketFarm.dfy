/**
 The socket farm: a registry that owns the connector sockets, a queue of weak references per
 route, and the operations that add, remove and choose sockets. Each background task is one
 call here; module FarmProtocol lets them overlap.
 */
module WebSocketFarm {
  import opened Wrappers
  import opened Scheduler

  /** What the farm reads of a router socket; a queue holds weak references to sockets. */
  datatype Sock = Sock(id: string, route: string, domain: string, address: string, connectorId: string, v3: bool)

  predicate IsV3(s: Sock) {
    s.v3
  }

  datatype Choice = Got(sock: Sock) | WaitForNotice | WaitForSocket

  /** `gone` are the sockets whose weak reference no longer upgrades. */
  function LiveIn(gone: set<string>, removed: set<string>): Sock -> bool {
    (s: Sock) => s.id !in gone && s.id !in removed
  }

  function StaleIn(gone: set<string>, removed: set<string>): Sock -> bool {
    (s: Sock) => s.id !in gone && s.id in removed
  }

  /** The sockets the scan may choose. */
  function FitIn(gone: set<string>, removed: set<string>, dark: set<string>, precise: bool, use: Sock -> bool)
    : Sock -> bool
  {
    (s: Sock) => LiveIn(gone, removed)(s) && s.address !in dark && !(precise && s.domain == "*") && use(s)
  }

  /** The sockets the fallback may choose. */
  function UsableIn(gone: set<string>, removed: set<string>, dark: set<string>): Sock -> bool {
    (s: Sock) => LiveIn(gone, removed)(s) && s.address !in dark
  }

  ghost predicate Distinct(q: seq<Sock>) {
    forall i, j :: 0 <= i < j < |q| ==> q[i].id != q[j].id
  }

  lemma {:induction false} KeepDistinct(q: seq<Sock>, p: Sock -> bool)
    requires Distinct(q)
    ensures Distinct(Keep(q, p))
    decreases |q|
  {
    if q != [] {
      KeepDistinct(q[1..], p);
      var rest := Keep(q[1..], p);
      forall i | 0 <= i < |rest|
        ensures rest[i].id != q[0].id
      {
        KeepMember(q[1..], p, rest[i]);
      }
    }
  }

  ghost predicate GoodQueue(q: seq<Sock>, route: string, known: set<string>) {
    Distinct(q) && forall i :: 0 <= i < |q| ==> q[i].route == route && q[i].id in known
  }

  type Registry = map<(string, string), Sock>

  /** Sockets are owned under their own route and id, each once. */
  ghost predicate GoodRegistry(registry: Registry, known: set<string>) {
    && (forall key :: key in registry ==>
          registry[key].route == key.0 && registry[key].id == key.1 && key.1 in known)
    && (forall a, b :: a in registry && b in registry && a.1 == b.1 ==> a == b)
  }

  ghost predicate SameRoutes(routes: set<string>, queues: map<string, seq<Sock>>) {
    routes == queues.Keys
  }

  ghost predicate Covered(registry: Registry, routes: set<string>) {
    forall key :: key in registry ==> key.0 in routes
  }

  ghost predicate GoodQueues(queues: map<string, seq<Sock>>, known: set<string>) {
    forall r :: r in queues ==> GoodQueue(queues[r], r, known)
  }

  function Enqueued(queues: map<string, seq<Sock>>, s: Sock): map<string, seq<Sock>> {
    queues[s.route := (if s.route in queues then queues[s.route] else []) + [s]]
  }

  lemma AddGoodRegistry(registry: Registry, known: set<string>, routes: set<string>, s: Sock)
    requires GoodRegistry(registry, known) && Covered(registry, routes) && s.id !in known
    ensures var r := registry[(s.route, s.id) := s];
      GoodRegistry(r, known + {s.id}) && Covered(r, routes + {s.route}) && |r| == |registry| + 1
  {
    assert (s.route, s.id) !in registry;
  }

  lemma AddGoodQueues(queues: map<string, seq<Sock>>, known: set<string>, routes: set<string>, s: Sock)
    requires GoodQueues(queues, known) && SameRoutes(routes, queues) && s.id !in known
    ensures GoodQueues(Enqueued(queues, s), known + {s.id})
    ensures SameRoutes(routes + {s.route}, Enqueued(queues, s))
  {
    forall r | r in queues
      ensures GoodQueue(queues[r], r, known + {s.id})
    {
    }
    if s.route in queues {
      assert GoodQueue(queues[s.route], s.route, known);
    }
  }

  /** The sockets among `ks` without a request under way. */
  function Idle(ks: set<(string, string)>, active: set<string>): set<(string, string)> {
    set key | key in ks && key.1 !in active
  }

  function Ids(ks: set<(string, string)>): set<string> {
    set key | key in ks :: key.1
  }

  lemma AllIdle(ks: set<(string, string)>, active: set<string>)
    ensures Idle(ks, active) <= ks
    ensures |Idle(ks, active)| == |ks| <==> forall key :: key in ks ==> key.1 !in active
  {
    var idle := Idle(ks, active);
    assert ks == idle + (ks - idle);
    assert |ks| == |idle| + |ks - idle|;
    if forall key :: key in ks ==> key.1 !in active {
      assert idle == ks;
    }
  }

  lemma IdleIds(ks: set<(string, string)>, route: string, active: set<string>, id: string)
    requires forall key :: key in ks ==> key.0 == route
    ensures id in Ids(Idle(ks, active)) <==> id !in active && (route, id) in ks
  {
    if id !in active && (route, id) in ks { assert (route, id) in Idle(ks, active); }
  }

  lemma DropGoodRegistry(registry: Registry, known: set<string>, routes: set<string>, ks: set<(string, string)>)
    requires GoodRegistry(registry, known) && Covered(registry, routes) && ks <= registry.Keys
    ensures GoodRegistry(registry - ks, known) && Covered(registry - ks, routes)
    ensures |registry| == |registry - ks| + |ks|
  {
    var rest := registry - ks;
    assert registry.Keys == rest.Keys + ks && rest.Keys !! ks;
    assert |registry.Keys| == |rest.Keys| + |ks|;
  }

  lemma UnknownRoute(registry: Registry, routes: set<string>, route: string)
    requires Covered(registry, routes) && route !in routes
    ensures forall key :: key in registry ==> key.0 != route
  {
  }

  /** Sockets of one route leave the registry, and the idle ones among them are flagged and counted. */
  lemma Leaving(registry: Registry, known: set<string>, routes: set<string>, ks: set<(string, string)>,
                route: string, active: set<string>)
    requires GoodRegistry(registry, known) && Covered(registry, routes) && ks <= registry.Keys
    requires forall key :: key in ks ==> key.0 == route
    ensures GoodRegistry(registry - ks, known) && Covered(registry - ks, routes)
    ensures |registry| == |registry - ks| + |ks|
    ensures |Idle(ks, active)| == |ks| <==> forall key :: key in ks ==> key.1 !in active
    ensures forall id :: id in Ids(Idle(ks, active)) <==> id !in active && (route, id) in ks
  {
    hide GoodRegistry, Covered, Idle, Ids;
    AllIdle(ks, active);
    DropGoodRegistry(registry, known, routes, ks);
    forall id
      ensures id in Ids(Idle(ks, active)) <==> id !in active && (route, id) in ks
    {
      IdleIds(ks, route, active, id);
    }
  }

  lemma GoodAfterScan(q: seq<Sock>, route: string, known: set<string>, live: Sock -> bool, k: nat, last: seq<Sock>)
    requires GoodQueue(q, route, known) && k <= |q|
    requires last == [] || (k < |q| && last == [q[k]])
    ensures GoodQueue((if k < |q| then q[k + 1..] else []) + Keep(q[..k], live) + last, route, known)
  {
    var post, pre := if k < |q| then q[k + 1..] else [], Keep(q[..k], live);
    KeepDistinct(q[..k], live);
    forall i | 0 <= i < |pre|
      ensures exists j :: 0 <= j < k && q[j] == pre[i]
    {
      KeepMember(q[..k], live, pre[i]);
    }
    hide Keep;
    var all := post + pre + last;
    forall i | 0 <= i < |all|
      ensures all[i].route == route && all[i].id in known
    {
      if |post| <= i < |post| + |pre| {
        var j :| 0 <= j < k && q[j] == pre[i - |post|];
      }
    }
    forall i, j | 0 <= i < j < |all|
      ensures all[i].id != all[j].id
    {
      Apart(q, k, post, pre, last, i, j);
    }
  }

  lemma Apart(q: seq<Sock>, k: nat, post: seq<Sock>, pre: seq<Sock>, last: seq<Sock>, i: nat, j: nat)
    requires Distinct(q) && k <= |q| && (last == [] || (k < |q| && last == [q[k]]))
    requires post == (if k < |q| then q[k + 1..] else []) && Distinct(pre)
    requires forall n :: 0 <= n < |pre| ==> exists m :: 0 <= m < k && q[m] == pre[n]
    requires i < j < |post + pre + last|
    ensures (post + pre + last)[i].id != (post + pre + last)[j].id
  {
    var all := post + pre + last;
    if |post| <= i < |post| + |pre| {
      assert all[i] == pre[i - |post|];
      var m :| 0 <= m < k && q[m] == pre[i - |post|];
    }
    if |post| <= j < |post| + |pre| {
      assert all[j] == pre[j - |post|];
      var m :| 0 <= m < k && q[m] == pre[j - |post|];
    }
  }

  // ---------------------------------------------------------------------------------------
  // The loops that choose a socket
  // ---------------------------------------------------------------------------------------

  ghost function IdsOf(q: seq<Sock>): set<string> {
    set s | s in q :: s.id
  }

  lemma NotSeen(q: seq<Sock>, k: nat, live: Sock -> bool)
    requires Distinct(q) && k < |q|
    ensures q[k].id !in IdsOf(Keep(q[..k], live))
  {
    forall s | s in Keep(q[..k], live)
      ensures s.id != q[k].id
    {
      KeepMember(q[..k], live, s);
    }
  }

  lemma HeadSeen(q: seq<Sock>, live: Sock -> bool)
    requires Keep(q, live) != []
    ensures Keep(q, live)[0].id in IdsOf(Keep(q, live)) && live(Keep(q, live)[0])
  {
    assert Keep(q, live)[0] in Keep(q, live);
    KeepMember(q, live, Keep(q, live)[0]);
  }

  lemma LiveOnes(q: seq<Sock>, live: Sock -> bool)
    ensures Keep(q, live) == [] <==> forall i :: 0 <= i < |q| ==> !live(q[i])
  {
    if Keep(q, live) == [] {
      forall i | 0 <= i < |q|
        ensures !live(q[i])
      {
        KeepMember(q, live, q[i]);
      }
    } else {
      KeepMember(q, live, Keep(q, live)[0]);
    }
  }

  /** Socket `k` of the queue is the first that is alive, unflagged, not dark, not passed over and wanted. */
  ghost predicate IsFirstFit(q: seq<Sock>, k: nat, gone: set<string>, removed: set<string>, dark: set<string>,
                             precise: bool, use: Sock -> bool)
    requires k < |q|
  {
    && q[k].id !in gone + removed && q[k].address !in dark && use(q[k]) && !(precise && q[k].domain == "*")
    && forall i :: 0 <= i < k ==>
         q[i].id in gone + removed || q[i].address in dark || !use(q[i]) || (precise && q[i].domain == "*")
  }

  /** What the outcome of a scan means for the sockets of the queue. */
  lemma ScanMeans(q: seq<Sock>, gone: set<string>, removed: set<string>, dark: set<string>, precise: bool,
                  use: Sock -> bool)
    ensures var fit := FitIn(gone, removed, dark, precise, use);
      var r, n := ScanOutcome(q, LiveIn(gone, removed), fit), First(q, fit);
      && (r.Chosen? <==> n < |q|)
      && (n < |q| ==> r.sock == q[n] && IsFirstFit(q, n, gone, removed, dark, precise, use))
      && (forall i :: 0 <= i < n ==>
            q[i].id in gone + removed || q[i].address in dark || !use(q[i]) || (precise && q[i].domain == "*"))
      && (r.Blocked? <==> forall i :: 0 <= i < |q| ==> q[i].id in gone + removed)
  {
    var live, fit := LiveIn(gone, removed), FitIn(gone, removed, dark, precise, use);
    BeforeFirst(q, fit);
    LiveOnes(q, live);
    hide First, Keep;
  }

  lemma OneFirstFit(q: seq<Sock>, i: nat, j: nat, gone: set<string>, removed: set<string>, dark: set<string>,
                    precise: bool, use: Sock -> bool)
    requires i < |q| && IsFirstFit(q, i, gone, removed, dark, precise, use) && j < |q|
    requires IsFirstFit(q, j, gone, removed, dark, precise, use)
    ensures i == j
  {
  }

  /**
   The filter loop over the queue of a route. `stale` are the sockets found flagged removed,
   for each of which the source starts a removal.
   */
  method ScanQueue(q: seq<Sock>, gone: set<string>, removed: set<string>, dark: set<string>, precise: bool,
                   use: Sock -> bool)
    returns (r: Outcome<Sock>, queue: seq<Sock>, received: nat, stale: seq<Sock>)
    requires Distinct(q)
    ensures var live, fit := LiveIn(gone, removed), FitIn(gone, removed, dark, precise, use);
      && r == ScanOutcome(q, live, fit) && queue == AfterScan(q, live, fit, IsV3)
      && received == (if r.Chosen? then First(q, fit) + 1 else if r.Blocked? then |q| else |q| + 1)
      && stale == Keep(q[..First(q, fit)], StaleIn(gone, removed))
  {
    ghost var live, flagged := LiveIn(gone, removed), StaleIn(gone, removed);
    ghost var fit := FitIn(gone, removed, dark, precise, use);
    var visited: set<string> := {};
    queue, received, stale := q, 0, [];
    HalfStart(q, live);
    HalfStart(q, flagged);
    hide Keep, First, Half, Distinct, ScanOutcome, AfterScan, Requeued;
    while queue != []
      invariant received <= |q| && queue == Half(q, received, live)
      invariant forall i :: 0 <= i < received ==> !fit(q[i])
      invariant visited == IdsOf(Keep(q[..received], live)) && stale == Keep(q[..received], flagged)
      decreases |q| - received
    {
      ghost var k := received;
      if k < |q| {
        HalfStep(q, k, live);
        HalfStep(q, k, flagged);
        NotSeen(q, k, live);
      } else {
        HalfEnd(q, live);
        HeadSeen(q, live);
      }
      var s := queue[0];
      queue := queue[1..];
      received := received + 1;
      if s.id in gone {
        continue;
      }
      if s.id in visited {
        queue := queue + [s];
        ChoosesNone(q, live, fit, IsV3);
        return NoneSuitable, queue, received, stale;
      }
      visited := visited + {s.id};
      if s.id in removed {
        visited := visited - {s.id};
        stale := stale + [s];
        continue;
      }
      if s.address in dark || (precise && s.domain == "*") {
        queue := queue + [s];
        continue;
      }
      if use(s) {
        ChoosesAt(q, k, live, fit, IsV3);
        queue := queue + Requeued(s, IsV3);
        return Chosen(s), queue, received, stale;
      }
      queue := queue + [s];
    }
    HalfEnd(q, live);
    ChoosesNone(q, live, fit, IsV3);
    return Blocked, queue, received, stale;
  }

  function Pick(q: seq<Sock>, usable: Sock -> bool): Option<Sock> {
    var k := First(q, usable);
    if k < |q| then Some(q[k]) else None
  }

  /** `r` is the first socket of `q` that is alive, not flagged and not dark. */
  ghost predicate FirstUsable(r: Option<Sock>, q: seq<Sock>, gone: set<string>, removed: set<string>,
                              dark: set<string>)
  {
    if r.Some? then
      exists k :: 0 <= k < |q| && r.value == q[k] && q[k].id !in gone + removed && q[k].address !in dark
        && forall i :: 0 <= i < k ==> q[i].id in gone + removed || q[i].address in dark
    else forall i :: 0 <= i < |q| ==> q[i].id in gone + removed || q[i].address in dark
  }

  /** The fallback loop over one queue; it never waits. */
  method FallbackQueue(q: seq<Sock>, gone: set<string>, removed: set<string>, dark: set<string>)
    returns (r: Option<Sock>, queue: seq<Sock>, stale: seq<Sock>)
    ensures var live, usable := LiveIn(gone, removed), UsableIn(gone, removed, dark);
      && r == Pick(q, usable) && queue == AfterFallback(q, live, usable, IsV3)
      && stale == Keep(q[..First(q, usable)], StaleIn(gone, removed))
    ensures FirstUsable(r, q, gone, removed, dark)
  {
    ghost var live, usable, flagged := LiveIn(gone, removed), UsableIn(gone, removed, dark), StaleIn(gone, removed);
    ghost var k := 0;
    var skipped: seq<Sock> := [];
    queue, stale := q, [];
    HalfStart(q, live);
    HalfStart(q, flagged);
    hide Keep, First, Half;
    while queue != []
      invariant k <= |q| && queue == q[k..]
      invariant forall i :: 0 <= i < k ==> !usable(q[i])
      invariant skipped == Keep(q[..k], live) && stale == Keep(q[..k], flagged)
      decreases |q| - k
    {
      HalfStep(q, k, live);
      HalfStep(q, k, flagged);
      var s := queue[0];
      queue := queue[1..];
      if s.id in gone {
      } else if s.id in removed {
        stale := stale + [s];
      } else if s.address in dark {
        skipped := skipped + [s];
      } else {
        FirstIs(q, usable, k);
        queue := queue + skipped + Requeued(s, IsV3);
        return Some(s), queue, stale;
      }
      k := k + 1;
    }
    HalfEnd(q, live);
    FirstIs(q, usable, |q|);
    assert [] + skipped == skipped;
    queue := queue + skipped;
    return None, queue, stale;
  }

  /** A queue in which the fallback found nothing still holds nothing for it. */
  lemma StillNone(r: Option<Sock>, q: seq<Sock>, gone: set<string>, removed: set<string>, dark: set<string>)
    requires FirstUsable(None, q, gone, removed, dark)
    requires var after := AfterFallback(q, LiveIn(gone, removed), UsableIn(gone, removed, dark), IsV3);
      FirstUsable(r, after, gone, removed, dark)
    ensures r.None?
  {
    var live, usable := LiveIn(gone, removed), UsableIn(gone, removed, dark);
    FirstIs(q, usable, |q|);
    if r.Some? {
      hide Keep, First;
      KeepMember(q, live, r.value);
    }
  }

  /** If nothing is usable in the queue a fruitless scan leaves, nothing was before. */
  lemma NoneBefore(q: seq<Sock>, fit: Sock -> bool, gone: set<string>, removed: set<string>, dark: set<string>)
    requires ScanOutcome(q, LiveIn(gone, removed), fit).NoneSuitable?
    requires FirstUsable(None, AfterScan(q, LiveIn(gone, removed), fit, IsV3), gone, removed, dark)
    ensures FirstUsable(None, q, gone, removed, dark)
  {
    var live := LiveIn(gone, removed);
    hide First;
    forall i | 0 <= i < |q|
      ensures q[i].id in gone + removed || q[i].address in dark
    {
      if live(q[i]) {
        KeepMember(q, live, q[i]);
        var l := Keep(q, live);
        RotateSame(l);
        assert q[i] in multiset(Rotate(l));
      }
    }
  }

  /** What a turn of the main loop makes of the outcome of its scan. */
  lemma TurnFacts(q: seq<Sock>, gone: set<string>, removed: set<string>, dark: set<string>, precise: bool,
                  use: Sock -> bool)
    ensures var live, fit := LiveIn(gone, removed), FitIn(gone, removed, dark, precise, use);
      var r := ScanOutcome(q, live, fit);
      && (forall k :: 0 <= k < |q| && IsFirstFit(q, k, gone, removed, dark, precise, use) ==> r == Chosen(q[k]))
      && (r.Blocked? <==> Keep(q, live) == [])
      && (r.NoneSuitable? && FirstUsable(None, AfterScan(q, live, fit, IsV3), gone, removed, dark) ==>
            FirstUsable(None, q, gone, removed, dark))
  {
    var live, fit := LiveIn(gone, removed), FitIn(gone, removed, dark, precise, use);
    NoneLive(q, live, fit);
    ScanMeans(q, gone, removed, dark, precise, use);
    hide Keep, First, ScanOutcome, AfterScan, FirstUsable, IsFirstFit;
    forall k | 0 <= k < |q| && IsFirstFit(q, k, gone, removed, dark, precise, use)
      ensures ScanOutcome(q, live, fit) == Chosen(q[k])
    {
      LaterThanFirst(q, k, gone, removed, dark, precise, use);
      OneFirstFit(q, k, First(q, fit), gone, removed, dark, precise, use);
    }
    var after := AfterScan(q, live, fit, IsV3);
    if ScanOutcome(q, live, fit).NoneSuitable? && FirstUsable(None, after, gone, removed, dark) {
      NoneBefore(q, fit, gone, removed, dark);
    }
  }

  lemma LaterThanFirst(q: seq<Sock>, k: nat, gone: set<string>, removed: set<string>, dark: set<string>,
                       precise: bool, use: Sock -> bool)
    requires k < |q| && IsFirstFit(q, k, gone, removed, dark, precise, use)
    ensures First(q, FitIn(gone, removed, dark, precise, use)) < |q|
  {
    BeforeFirst(q, FitIn(gone, removed, dark, precise, use));
    hide First;
  }

  /** `try_fallback_sockets`: what it returns and the queues it leaves. */
  function Fallback(queues: map<string, seq<Sock>>, route: string, firstPath: bool, catchAll: bool,
                    live: Sock -> bool, usable: Sock -> bool): (Option<Sock>, map<string, seq<Sock>>)
    requires route in queues
  {
    var first := if firstPath then Pick(queues[route], usable) else None;
    var queues1 := if firstPath then queues[route := AfterFallback(queues[route], live, usable, IsV3)] else queues;
    if first.Some? then (first, queues1)
    else if catchAll && "*" in queues1 then
      (Pick(queues1["*"], usable), queues1["*" := AfterFallback(queues1["*"], live, usable, IsV3)])
    else (None, queues1)
  }

  /** One turn of the main loop: the scan, and the fallback if nothing suitable was found. */
  function Attempted(queues: map<string, seq<Sock>>, route: string, firstPath: bool, catchAll: bool,
                     live: Sock -> bool, fit: Sock -> bool, usable: Sock -> bool): (Choice, map<string, seq<Sock>>)
    requires route in queues
  {
    var scanned := queues[route := AfterScan(queues[route], live, fit, IsV3)];
    match ScanOutcome(queues[route], live, fit)
    case Chosen(s) => (Got(s), scanned)
    case Blocked => (WaitForSocket, scanned)
    case NoneSuitable =>
      var (found, left) := Fallback(scanned, route, firstPath, catchAll, live, usable);
      (if found.Some? then Got(found.value) else WaitForNotice, left)
  }

  /** The scan has to wait exactly when no socket of the queue is live. */
  lemma NoneLive(q: seq<Sock>, live: Sock -> bool, fit: Sock -> bool)
    requires Stronger(fit, live)
    ensures ScanOutcome(q, live, fit).Blocked? <==> Keep(q, live) == []
  {
    var k := First(q, fit);
    if k < |q| { KeepMember(q, live, q[k]); }
  }

  lemma PickGood(q: seq<Sock>, route: string, known: set<string>, live: Sock -> bool, usable: Sock -> bool)
    requires GoodQueue(q, route, known)
    ensures GoodQueue(AfterFallback(q, live, usable, IsV3), route, known)
    ensures GoodQueue(AfterScan(q, live, usable, IsV3), route, known)
  {
    var k := First(q, usable);
    hide First;
    if k < |q| {
      GoodAfterScan(q, route, known, live, k, Requeued(q[k], IsV3));
    } else {
      GoodAfterScan(q, route, known, live, |q|, []);
      assert q[..|q|] == q;
      var l := Keep(q, live);
      assert [] + l + [] == l;
      hide Keep;
      RotateGood(l, route, known);
    }
  }

  lemma RotateGood(q: seq<Sock>, route: string, known: set<string>)
    requires GoodQueue(q, route, known)
    ensures GoodQueue(Rotate(q), route, known)
  {
  }

  /** A chosen socket goes to the end of its queue if V3 and leaves it if V1. */
  ghost predicate Handled(s: Sock, queues: map<string, seq<Sock>>) {
    && (s.v3 ==> s.route in queues && queues[s.route] != [] && queues[s.route][|queues[s.route]| - 1] == s)
    && (!s.v3 ==> forall r :: r in queues ==> s !in queues[r])
  }

  lemma ChosenHandled(q: seq<Sock>, k: nat, live: Sock -> bool, route: string, known: set<string>,
                      queues: map<string, seq<Sock>>)
    requires GoodQueue(q, route, known) && k < |q|
    requires forall r :: r in queues && r != route ==> GoodQueue(queues[r], r, known)
    requires route in queues && queues[route] == q[k + 1..] + Keep(q[..k], live) + Requeued(q[k], IsV3)
    ensures Handled(q[k], queues)
  {
    var s := q[k];
    assert s.route == route;
    if s in Keep(q[..k], live) { KeepMember(q[..k], live, s); }
    hide Keep;
    if !s.v3 {
      forall r | r in queues
        ensures s !in queues[r]
      {
      }
    }
  }

  lemma RouteQueue(queues: map<string, seq<Sock>>, route: string, known: set<string>)
    requires GoodQueues(queues, known) && route in queues
    ensures GoodQueue(queues[route], route, known) && Distinct(queues[route])
  {
  }

  lemma SameRoutesUpdated(routes: set<string>, queues: map<string, seq<Sock>>, route: string, q: seq<Sock>)
    requires SameRoutes(routes, queues) && route in queues
    ensures SameRoutes(routes, queues[route := q])
  {
  }

  /** Putting the queue of a scan or a fallback back keeps the queues good and handles the socket chosen. */
  lemma AfterPick(queues: map<string, seq<Sock>>, route: string, known: set<string>,
                  live: Sock -> bool, fit: Sock -> bool, after: seq<Sock>)
    requires GoodQueues(queues, known) && route in queues
    requires
      || after == AfterScan(queues[route], live, fit, IsV3)
      || after == AfterFallback(queues[route], live, fit, IsV3)
    ensures GoodQueues(queues[route := after], known)
    ensures var q, k := queues[route], First(queues[route], fit);
      k < |q| ==> q[k].route == route && fit(q[k]) && Handled(q[k], queues[route := after])
  {
    var q, k := queues[route], First(queues[route], fit);
    PickGood(q, route, known, live, fit);
    if k < |q| {
      hide First, Keep, Handled;
      ChosenHandled(q, k, live, route, known, queues[route := after]);
    }
  }

  lemma DropRoute(registry: Registry, routes: set<string>, queues: map<string, seq<Sock>>, known: set<string>,
                  r: string)
    requires SameRoutes(routes, queues) && Covered(registry, routes) && GoodQueues(queues, known)
    requires forall key :: key in registry ==> key.0 != r
    ensures SameRoutes(routes - {r}, queues - {r}) && Covered(registry, routes - {r}) && GoodQueues(queues - {r}, known)
  {
    hide GoodQueue;
  }

  class Farm {
    var routes: set<string>              // routes of the registry
    var registry: Registry               // by route and socket id
    var queues: map<string, seq<Sock>>
    var lastRemoval: map<string, int>
    var idleCount: int
    var dark: set<string>
    var removed: set<string>             // ids whose is_removed flag is set
    var notices: seq<string>             // sent on new_socket_notifier
    ghost var known: set<string>         // every id ever added

    ghost predicate Valid()
      reads this
    {
      && SameRoutes(routes, queues) && Covered(registry, routes)
      && GoodRegistry(registry, known) && GoodQueues(queues, known)
    }

    /** `idle_count` is the number of registered sockets. */
    ghost predicate Agrees()
      reads this
    {
      idleCount == |registry|
    }

    constructor ()
      ensures Valid() && Agrees()
      ensures registry == map[] && queues == map[] && notices == [] && dark == {} && removed == {}
    {
      routes, registry, queues, lastRemoval := {}, map[], map[], map[];
      idleCount, dark, removed, notices, known := 0, {}, {}, [], {};
    }

    /** `add_router_socket_in_background` */
    method Add(s: Sock)
      requires Valid() && s.id !in known
      modifies this
      ensures Valid() && (old(Agrees()) ==> Agrees())
      ensures registry == old(registry)[(s.route, s.id) := s]
      ensures queues == old(queues)[s.route := (if s.route in old(queues) then old(queues)[s.route] else []) + [s]]
      ensures notices == old(notices) + [s.route] && known == old(known) + {s.id}
      ensures unchanged(`lastRemoval, `dark, `removed)
    {
      hide GoodRegistry, GoodQueues, Covered, SameRoutes;
      AddGoodRegistry(registry, known, routes, s);
      AddGoodQueues(queues, known, routes, s);
      routes := routes + {s.route};
      registry := registry[(s.route, s.id) := s];
      queues := Enqueued(queues, s);
      idleCount := idleCount + 1;
      notices := notices + [s.route];
      known := known + {s.id};
    }

    /** `remove_router_socket_in_background`: only the call that finds the socket counts it down. */
    method Remove(route: string, id: string, now: int)
      requires Valid()
      modifies this`lastRemoval, this`registry, this`idleCount, this`removed
      ensures Valid() && (old(Agrees()) ==> Agrees())
      ensures lastRemoval == old(lastRemoval)[route := now]
      ensures (route, id) in old(registry) ==>
        registry == old(registry) - {(route, id)} && removed == old(removed) + {id} && idleCount == old(idleCount) - 1
      ensures (route, id) !in old(registry) ==> unchanged(`registry, `removed, `idleCount)
    {
      hide GoodRegistry, GoodQueues, Covered, SameRoutes;
      lastRemoval := lastRemoval[route := now];
      var success := (route, id) in registry;
      if success {
        DropGoodRegistry(registry, known, routes, {(route, id)});
        registry := registry - {(route, id)};
        idleCount := idleCount - 1;
        removed := removed + {id};
      }
    }

    /** A V3 socket that receives a close flags itself; the removal it starts runs later. */
    method FlagRemoved(id: string)
      requires Valid()
      modifies this`removed
      ensures Valid() && removed == old(removed) + {id}
    {
      removed := removed + {id};
    }

    /** The sockets of a connector that are registered under a route. */
    function Matching(route: string, connectorId: string): (ks: set<(string, string)>)
      reads this
      ensures ks <= registry.Keys
    {
      set key | key in registry && key.0 == route && registry[key].connectorId == connectorId
    }

    /** Flags and counts down the sockets of `toClose` that are not in `active`. */
    method CloseIdle(toClose: set<(string, string)>, active: set<string>)
      modifies this`idleCount, this`removed
      ensures removed == old(removed) + Ids(Idle(toClose, active))
      ensures idleCount == old(idleCount) - |Idle(toClose, active)|
    {
      var left := toClose;
      while left != {}
        invariant left <= toClose
        invariant removed == old(removed) + Ids(Idle(toClose - left, active))
        invariant idleCount == old(idleCount) - |Idle(toClose - left, active)|
        decreases |left|
      {
        var key :| key in left;
        ghost var before, after := Idle(toClose - left, active), Idle(toClose - (left - {key}), active);
        left := left - {key};
        if key.1 !in active {
          assert after == before + {key};
          assert Ids(after) == Ids(before) + {key.1};
          removed := removed + {key.1};
          idleCount := idleCount - 1;
        } else {
          assert after == before;
        }
      }
      assert toClose - left == toClose;
    }

    /**
     `de_register_router_socket_in_background`; `active` are the sockets with a request under
     way. Those leave the registry without being counted down or flagged, so the count agrees
     afterwards exactly when there were none.
     */
    method DeRegister(route: string, connectorId: string, active: set<string>, now: int)
      requires Valid()
      modifies this`lastRemoval, this`registry, this`idleCount, this`removed
      ensures Valid()
      ensures forall key :: key in registry <==>
        key in old(registry) && !(key.0 == route && old(registry)[key].connectorId == connectorId)
      ensures forall key :: key in registry ==> registry[key] == old(registry)[key]
      ensures lastRemoval == if route in routes then old(lastRemoval)[route := now] else old(lastRemoval)
      ensures forall id :: id in removed <==>
        id in old(removed) || (id !in active && (route, id) in old(registry)
                               && old(registry)[(route, id)].connectorId == connectorId)
      ensures old(Agrees()) ==>
        (Agrees() <==> forall key :: key in old(registry) && key !in registry ==> key.1 !in active)
    {
      hide GoodRegistry, GoodQueues, SameRoutes, Ids, Idle, Covered;
      var toClose := Matching(route, connectorId);
      Leaving(registry, known, routes, toClose, route, active);
      if route in routes {
        lastRemoval := lastRemoval[route := now];
        registry := registry - toClose;
      } else {
        UnknownRoute(registry, routes, route);
        assert toClose == {};
        assert registry - toClose == registry;
      }
      CloseIdle(toClose, active);
    }

    predicate Expired(r: string, cutOff: int)
      reads this`registry, this`lastRemoval
    {
      (forall key :: key in registry ==> key.0 != r) && r in lastRemoval && lastRemoval[r] < cutOff
    }

    /** `clean_routes_in_background`: never drops a route with a registered socket. */
    method CleanRoutes(cutOff: int)
      requires Valid()
      modifies this`routes, this`queues
      ensures Valid()
      ensures forall r :: r in routes <==>
        && r in old(routes)
        && ((exists key :: key in registry && key.0 == r) || r !in lastRemoval || lastRemoval[r] >= cutOff)
      ensures forall r :: r in routes ==> r in queues && r in old(queues) && queues[r] == old(queues)[r]
      ensures forall key :: key in registry ==> key.0 in routes
    {
      var left := routes;
      while left != {}
        invariant left <= routes <= old(routes) && Valid()
        invariant forall r :: r in routes ==> r in old(queues) && queues[r] == old(queues)[r]
        invariant forall r :: r in old(routes) - left ==> (r in routes <==> !Expired(r, cutOff))
        decreases |left|
      {
        hide GoodRegistry, GoodQueues, Covered;
        var r :| r in left;
        left := left - {r};
        if Expired(r, cutOff) {
          DropRoute(registry, routes, queues, known, r);
          queues := queues - {r};
          routes := routes - {r};
        }
      }
    }

    method EnableDarkMode(host: string)
      modifies this`dark
      ensures dark == old(dark) + {host}
    {
      dark := dark + {host};
    }

    /** Disabling wakes every waiting request, but only when the host was dark. */
    method DisableDarkMode(host: string)
      modifies this`dark, this`notices
      ensures dark == old(dark) - {host}
      ensures notices == old(notices) + if host in old(dark) then ["*"] else []
    {
      if host in dark {
        dark := dark - {host};
        notices := notices + ["*"];
      }
    }

    predicate HasPreciseMatch(route: string, host: Option<string>)
      reads this`registry, this`removed
    {
      host.Some? && exists key ::
        key in registry && key.0 == route && key.1 !in removed && registry[key].domain == host.value
    }

    /** The scan of the route's queue, up to its end or to where it has to wait. */
    method Scan(route: string, host: Option<string>, gone: set<string>, use: Sock -> bool)
      returns (r: Outcome<Sock>, received: nat, stale: seq<Sock>)
      requires Valid() && route in queues
      modifies this`queues
      ensures Valid()
      ensures var q := old(queues)[route];
        var live, fit := LiveIn(gone, removed), FitIn(gone, removed, dark, HasPreciseMatch(route, host), use);
        && r == ScanOutcome(q, live, fit) && queues == old(queues)[route := AfterScan(q, live, fit, IsV3)]
        && received <= |q| + 1 && stale == Keep(q[..First(q, fit)], StaleIn(gone, removed))
      ensures r.Chosen? ==> r.sock.route == route && r.sock.id !in gone + removed && r.sock.address !in dark
      ensures r.Chosen? ==> 0 < received <= |old(queues)[route]| && r.sock == old(queues)[route][received - 1]
      ensures r.Chosen? ==> use(r.sock) && Handled(r.sock, queues)
      ensures r.Chosen? && r.sock.domain == "*" && host.Some? ==>
        forall key :: key in registry && key.0 == route && key.1 !in removed ==> registry[key].domain != host.value
      ensures var q := old(queues)[route];
        forall i :: 0 <= i < (if r.Chosen? then received - 1 else |q|) ==>
          || q[i].id in gone + removed || q[i].address in dark || !use(q[i])
          || (q[i].domain == "*" && host.Some? && exists key ::
                key in registry && key.0 == route && key.1 !in removed && registry[key].domain == host.value)
      ensures r.Blocked? <==> forall i :: 0 <= i < |old(queues)[route]| ==> old(queues)[route][i].id in gone + removed
    {
      ghost var live, fit := LiveIn(gone, removed), FitIn(gone, removed, dark, HasPreciseMatch(route, host), use);
      RouteQueue(queues, route, known);
      AfterPick(queues, route, known, live, fit, AfterScan(queues[route], live, fit, IsV3));
      SameRoutesUpdated(routes, queues, route, AfterScan(queues[route], live, fit, IsV3));
      ScanMeans(queues[route], gone, removed, dark, HasPreciseMatch(route, host), use);
      hide Covered, GoodRegistry, GoodQueues, GoodQueue, SameRoutes, Keep, First, AfterScan, Handled, ScanOutcome;
      hide FitIn, LiveIn, StaleIn;
      var queue;
      r, queue, received, stale := ScanQueue(queues[route], gone, removed, dark, HasPreciseMatch(route, host), use);
      queues := queues[route := queue];
    }

    /** `try_fallback_sockets`; `darkNow` is the set of dark hosts taken before the call. */
    method TryFallback(route: string, firstPath: bool, catchAll: bool, darkNow: set<string>, gone: set<string>)
      returns (r: Option<Sock>)
      requires Valid() && route in queues
      modifies this`queues
      ensures Valid()
      ensures (r, queues) ==
        Fallback(old(queues), route, firstPath, catchAll, LiveIn(gone, removed), UsableIn(gone, removed, darkNow))
      ensures r.Some? ==> (r.value.route == route || r.value.route == "*") && Handled(r.value, queues)
      ensures r.Some? ==> r.value.id !in gone + removed && r.value.address !in darkNow
      ensures
        || (firstPath && r.Some? && FirstUsable(r, old(queues)[route], gone, removed, darkNow))
        || ((firstPath ==> FirstUsable(None, old(queues)[route], gone, removed, darkNow))
            && if catchAll && "*" in old(queues) then FirstUsable(r, old(queues)["*"], gone, removed, darkNow)
               else r.None?)
    {
      r := None;
      if firstPath {
        r := FallbackOn(route, darkNow, gone);
        if r.Some? {
          return;
        }
      }
      if catchAll && "*" in queues {
        r := FallbackOn("*", darkNow, gone);
        if firstPath && route == "*" { StillNone(r, old(queues)[route], gone, removed, darkNow); }
      }
    }

    method FallbackOn(route: string, darkNow: set<string>, gone: set<string>) returns (r: Option<Sock>)
      requires Valid() && route in queues
      modifies this`queues
      ensures Valid()
      ensures r == Pick(old(queues)[route], UsableIn(gone, removed, darkNow))
      ensures queues
        == old(queues)[route :=
             AfterFallback(old(queues)[route], LiveIn(gone, removed), UsableIn(gone, removed, darkNow), IsV3)]
      ensures FirstUsable(r, old(queues)[route], gone, removed, darkNow)
      ensures r.Some? ==> r.value.route == route && Handled(r.value, queues)
    {
      ghost var live, usable := LiveIn(gone, removed), UsableIn(gone, removed, darkNow);
      RouteQueue(queues, route, known);
      AfterPick(queues, route, known, live, usable, AfterFallback(queues[route], live, usable, IsV3));
      SameRoutesUpdated(routes, queues, route, AfterFallback(queues[route], live, usable, IsV3));
      hide Covered, GoodRegistry, GoodQueues, GoodQueue, SameRoutes, Keep, First, AfterFallback, Handled;
      var queue, stale;
      r, queue, stale := FallbackQueue(queues[route], gone, removed, darkNow);
      queues := queues[route := queue];
    }

    /** The fallback of a turn that found nothing suitable. */
    method FallBack(route: string, firstPath: bool, catchAll: bool, gone: set<string>) returns (r: Choice)
      requires Valid() && route in queues
      modifies this`queues
      ensures Valid()
      ensures var f := Fallback(old(queues), route, firstPath, catchAll, LiveIn(gone, removed),
                                UsableIn(gone, removed, dark));
        (r, queues) == (if f.0.Some? then Got(f.0.value) else WaitForNotice, f.1)
      ensures r.Got? ==> r.sock.id !in gone + removed && r.sock.address !in dark
      ensures r.Got? ==> (r.sock.route == route || r.sock.route == "*") && Handled(r.sock, queues)
      ensures r.WaitForNotice? ==>
        && (firstPath ==> FirstUsable(None, old(queues)[route], gone, removed, dark))
        && (catchAll && "*" in old(queues) ==> FirstUsable(None, old(queues)["*"], gone, removed, dark))
    {
      hide FirstUsable, Fallback, Handled;
      var found := TryFallback(route, firstPath, catchAll, dark, gone);
      r := if found.Some? then Got(found.value) else WaitForNotice;
    }

    /**
     One turn of the main loop of a request. The first socket of the queue that passes every test
     is given; if there is none, the fallback decides. Whatever socket is given is neither removed
     nor dark nor gone, and waits on the route or on the catch-all route.
     */
    method Attempt(route: string, host: Option<string>, gone: set<string>, use: Sock -> bool, firstPath: bool,
                   catchAll: bool)
      returns (r: Choice)
      requires Valid() && route in queues
      modifies this`queues
      ensures Valid()
      ensures r.Got? ==> r.sock.id !in gone + removed && r.sock.address !in dark
      ensures r.Got? ==> (r.sock.route == route || r.sock.route == "*") && Handled(r.sock, queues)
      ensures var q := old(queues)[route];
        forall k :: 0 <= k < |q| && IsFirstFit(q, k, gone, removed, dark, HasPreciseMatch(route, host), use) ==>
          r == Got(q[k])
      ensures r.WaitForNotice? ==>
        && (firstPath ==> FirstUsable(None, old(queues)[route], gone, removed, dark))
        && (catchAll && "*" in old(queues) ==> FirstUsable(None, old(queues)["*"], gone, removed, dark))
      ensures var live, fit := LiveIn(gone, removed), FitIn(gone, removed, dark, HasPreciseMatch(route, host), use);
        (r, queues) == Attempted(old(queues), route, firstPath, catchAll, live, fit, UsableIn(gone, removed, dark))
      ensures r.WaitForSocket? <==> Keep(old(queues)[route], LiveIn(gone, removed)) == []
    {
      hide Keep, First, GoodQueues, GoodRegistry, Covered, SameRoutes, FirstUsable, IsFirstFit, Handled;
      hide Fallback, ScanOutcome, AfterScan, HasPreciseMatch, FitIn, LiveIn, UsableIn;
      TurnFacts(queues[route], gone, removed, dark, HasPreciseMatch(route, host), use);
      var outcome, _, _ := Scan(route, host, gone, use);
      match outcome {
        case Chosen(s) =>
          r := Got(s);
        case Blocked =>
          r := WaitForSocket;
        case NoneSuitable =>
          r := FallBack(route, firstPath, catchAll, gone);
      }
    }
  }
}
