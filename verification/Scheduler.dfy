/**
 Choosing a connector socket from the FIFO queue of a route, as a function of the queue: what
 is chosen, and in which order the sockets stand afterwards. The sockets are of any type; `live`,
 `fit` and `v3` say which of them are alive, suitable and shared.
 */
module Scheduler {
  datatype Outcome<T> =
    | Chosen(sock: T)
    | NoneSuitable            // every socket of the queue was looked at
    | Blocked                 // the queue ran empty: the scan waits in `recv`

  // ---------------------------------------------------------------------------------------
  // Filters
  // ---------------------------------------------------------------------------------------

  /** The sockets of `q` that satisfy `p`, in order. */
  function Keep<T>(q: seq<T>, p: T -> bool): (r: seq<T>)
    ensures |r| <= |q|
  {
    if |q| == 0 then [] else if p(q[0]) then [q[0]] + Keep(q[1..], p) else Keep(q[1..], p)
  }

  /** The index of the first socket that satisfies `p`, or |q|. */
  function First<T>(q: seq<T>, p: T -> bool): (k: nat)
    ensures k <= |q| && (k < |q| ==> p(q[k]))
  {
    if |q| == 0 || p(q[0]) then 0 else 1 + First(q[1..], p)
  }

  lemma {:induction false} BeforeFirst<T>(q: seq<T>, p: T -> bool)
    ensures forall i :: 0 <= i < First(q, p) ==> !p(q[i])
    decreases |q|
  {
    if q != [] && !p(q[0]) { BeforeFirst(q[1..], p); }
  }

  /** The first index is the only one with these two properties. */
  lemma {:induction false} FirstIs<T>(q: seq<T>, p: T -> bool, k: nat)
    requires k <= |q| && (k < |q| ==> p(q[k])) && forall i :: 0 <= i < k ==> !p(q[i])
    ensures First(q, p) == k
    decreases |q|
  {
    if q != [] && !p(q[0]) { FirstIs(q[1..], p, k - 1); }
  }

  ghost predicate Stronger<T(!new)>(f: T -> bool, p: T -> bool) {
    forall s :: f(s) ==> p(s)
  }

  lemma {:induction false} KeepMember<T>(q: seq<T>, p: T -> bool, s: T)
    ensures s in Keep(q, p) <==> s in q && p(s)
    decreases |q|
  {
    if q != [] { KeepMember(q[1..], p, s); }
  }

  lemma {:induction false} KeepConcat<T>(a: seq<T>, b: seq<T>, p: T -> bool)
    ensures Keep(a + b, p) == Keep(a, p) + Keep(b, p)
    decreases |a|
  {
    if a == [] {
      assert a + b == b;
    } else {
      assert (a + b)[0] == a[0] && (a + b)[1..] == a[1..] + b;
      KeepConcat(a[1..], b, p);
      assert [a[0]] + (Keep(a[1..], p) + Keep(b, p)) == [a[0]] + Keep(a[1..], p) + Keep(b, p);
    }
  }

  lemma {:induction false} KeepKeep<T(!new)>(q: seq<T>, p: T -> bool, f: T -> bool)
    requires Stronger(f, p)
    ensures Keep(Keep(q, p), f) == Keep(q, f)
    decreases |q|
  {
    if q != [] {
      KeepKeep(q[1..], p, f);
      assert ([q[0]] + Keep(q[1..], p))[1..] == Keep(q[1..], p);
    }
  }

  lemma {:induction false} KeepNone<T>(q: seq<T>, p: T -> bool)
    requires forall i :: 0 <= i < |q| ==> !p(q[i])
    ensures Keep(q, p) == []
    decreases |q|
  {
    if q != [] { KeepNone(q[1..], p); }
  }

  lemma {:induction false} KeepAll<T>(q: seq<T>, p: T -> bool)
    requires forall i :: 0 <= i < |q| ==> p(q[i])
    ensures Keep(q, p) == q
    decreases |q|
  {
    if q != [] { KeepAll(q[1..], p); }
  }

  lemma KeepPush<T>(q: seq<T>, s: T, p: T -> bool)
    ensures Keep(q + [s], p) == Keep(q, p) + if p(s) then [s] else []
  {
    KeepConcat(q, [s], p);
  }

  // ---------------------------------------------------------------------------------------
  // One scan
  // ---------------------------------------------------------------------------------------

  function Requeued<T>(s: T, v3: T -> bool): seq<T> {
    if v3(s) then [s] else []
  }

  function Rotate<T>(q: seq<T>): seq<T> {
    if |q| == 0 then [] else q[1..] + [q[0]]
  }

  /** The simple form of the scan of the route queue. */
  function ScanOutcome<T>(q: seq<T>, live: T -> bool, fit: T -> bool): Outcome<T> {
    var k := First(q, fit);
    if k < |q| then Chosen(q[k]) else if |Keep(q, live)| == 0 then Blocked else NoneSuitable
  }

  /** The queue after the scan. */
  function AfterScan<T>(q: seq<T>, live: T -> bool, fit: T -> bool, v3: T -> bool): seq<T> {
    var k := First(q, fit);
    if k < |q| then q[k + 1..] + Keep(q[..k], live) + Requeued(q[k], v3) else Rotate(Keep(q, live))
  }

  /** The queue after the fallback loop: `usable` are the live sockets that are not dark. */
  function AfterFallback<T>(q: seq<T>, live: T -> bool, usable: T -> bool, v3: T -> bool): seq<T> {
    var k := First(q, usable);
    if k < |q| then q[k + 1..] + Keep(q[..k], live) + Requeued(q[k], v3) else Keep(q, live)
  }

  lemma {:induction false} FirstSplit<T>(q: seq<T>, p: T -> bool)
    ensures var k := First(q, p);
      Keep(q, p) == if k < |q| then [q[k]] + Keep(q[k + 1..], p) else []
    decreases |q|
  {
    if q != [] && !p(q[0]) {
      FirstSplit(q[1..], p);
      var k := First(q[1..], p);
      if k < |q[1..]| {
        assert q[1..][k] == q[k + 1] && q[1..][k + 1..] == q[k + 2..];
      }
    }
  }

  lemma RotateSame<T>(q: seq<T>)
    ensures multiset(Rotate(q)) == multiset(q)
  {
    if q != [] {
      assert q == [q[0]] + q[1..];
    }
  }

  lemma KeepOne<T>(s: T, p: T -> bool)
    ensures Keep([s], p) == if p(s) then [s] else []
  {
  }

  lemma KeepSplit<T>(pre: seq<T>, s: T, post: seq<T>, p: T -> bool)
    ensures Keep(pre + ([s] + post), p) == Keep(pre, p) + ((if p(s) then [s] else []) + Keep(post, p))
  {
    hide Keep;
    KeepConcat(pre, [s] + post, p);
    KeepConcat([s], post, p);
    KeepOne(s, p);
  }

  lemma Cut<T>(q: seq<T>, k: nat)
    requires k < |q|
    ensures q[..k] + ([q[k]] + q[k + 1..]) == q
  {
  }

  lemma KeepPrefix<T>(q: seq<T>, k: nat, p: T -> bool)
    requires k < |q|
    ensures Keep(q, p) == Keep(q[..k], p) + ((if p(q[k]) then [q[k]] else []) + Keep(q[k + 1..], p))
  {
    hide *;
    Cut(q, k);
    KeepSplit(q[..k], q[k], q[k + 1..], p);
  }

  lemma KeepMoved<T(!new)>(q: seq<T>, k: nat, p: T -> bool, f: T -> bool, v3: T -> bool)
    requires k < |q| && p(q[k]) && Stronger(f, p)
    ensures Keep(q[k + 1..] + Keep(q[..k], p) + Requeued(q[k], v3), f)
         == Keep(q[k + 1..], f) + Keep(q[..k], f) + Keep(Requeued(q[k], v3), f)
  {
    var pre, s, post := q[..k], q[k], q[k + 1..];
    KeepConcat(post + Keep(pre, p), Requeued(s, v3), f);
    KeepConcat(post, Keep(pre, p), f);
    KeepKeep(pre, p, f);
  }

  lemma MovedSame<T>(a: seq<T>, s: T, b: seq<T>, v3: T -> bool)
    ensures multiset(b + a + Requeued(s, v3)) + (if v3(s) then multiset{} else multiset{s}) == multiset(a + ([s] + b))
  {
  }

  /** Scanning drops only dead sockets and the V1 socket it hands out. */
  lemma ScanConserves<T(!new)>(q: seq<T>, live: T -> bool, fit: T -> bool, v3: T -> bool)
    requires Stronger(fit, live)
    ensures var k := First(q, fit);
      multiset(Keep(AfterScan(q, live, fit, v3), live)) + (if k < |q| && !v3(q[k]) then multiset{q[k]} else multiset{})
      == multiset(Keep(q, live))
  {
    var k := First(q, fit);
    if k < |q| {
      KeepPrefix(q, k, live);
      KeepMoved(q, k, live, live, v3);
      assert Keep(Requeued(q[k], v3), live) == Requeued(q[k], v3);
      hide Keep, First, Requeued, Stronger;
      MovedSame(Keep(q[..k], live), q[k], Keep(q[k + 1..], live), v3);
    } else {
      ScanRotates(Keep(q, live), live, q);
    }
  }

  lemma ScanRotates<T>(l: seq<T>, live: T -> bool, q: seq<T>)
    requires l == Keep(q, live)
    ensures multiset(Keep(Rotate(l), live)) == multiset(l)
  {
    RotateSame(l);
    forall i | 0 <= i < |Rotate(l)|
      ensures live(Rotate(l)[i])
    {
      assert Rotate(l)[i] in l;
      KeepMember(q, live, Rotate(l)[i]);
    }
    KeepAll(Rotate(l), live);
  }

  /** So does the fallback; and when it finds nothing, the live sockets stay in order. */
  lemma FallbackConserves<T(!new)>(q: seq<T>, live: T -> bool, usable: T -> bool, v3: T -> bool)
    requires Stronger(usable, live)
    ensures var k, after := First(q, usable), AfterFallback(q, live, usable, v3);
      && multiset(Keep(after, live)) + (if k < |q| && !v3(q[k]) then multiset{q[k]} else multiset{})
         == multiset(Keep(q, live))
      && (k == |q| ==> after == Keep(q, live) && Keep(after, live) == Keep(q, live))
  {
    if First(q, usable) < |q| {
      ScanConserves(q, live, usable, v3);
    } else {
      KeepKeep(q, live, live);
    }
  }

  /** The queue when `k` of its sockets have been received and none chosen. */
  ghost function Half<T>(q: seq<T>, k: nat, live: T -> bool): seq<T>
    requires k <= |q|
  {
    q[k..] + Keep(q[..k], live)
  }

  lemma HalfStep<T>(q: seq<T>, k: nat, live: T -> bool)
    requires k < |q|
    ensures Half(q, k, live)[0] == q[k]
    ensures Half(q, k, live)[1..] + (if live(q[k]) then [q[k]] else []) == Half(q, k + 1, live)
    ensures Keep(q[..k + 1], live) == Keep(q[..k], live) + if live(q[k]) then [q[k]] else []
  {
    assert q[..k + 1] == q[..k] + [q[k]];
    KeepPush(q[..k], q[k], live);
    hide Keep;
    assert Half(q, k, live)[1..] == q[k + 1..] + Keep(q[..k], live);
    assert q[k + 1..] + Keep(q[..k], live) + (if live(q[k]) then [q[k]] else [])
        == q[k + 1..] + (Keep(q[..k], live) + if live(q[k]) then [q[k]] else []);
  }

  lemma HalfStart<T>(q: seq<T>, live: T -> bool)
    ensures Half(q, 0, live) == q && Keep(q[..0], live) == []
  {
    assert q[..0] == [];
  }

  lemma HalfEnd<T>(q: seq<T>, live: T -> bool)
    ensures Half(q, |q|, live) == Keep(q, live) == Keep(q[..|q|], live)
  {
    assert q[..|q|] == q;
  }

  /** The scan chooses socket `k`. */
  lemma ChoosesAt<T>(q: seq<T>, k: nat, live: T -> bool, fit: T -> bool, v3: T -> bool)
    requires k < |q| && fit(q[k]) && forall i :: 0 <= i < k ==> !fit(q[i])
    ensures First(q, fit) == k && ScanOutcome(q, live, fit) == Chosen(q[k])
    ensures AfterScan(q, live, fit, v3) == Half(q, k, live)[1..] + Requeued(q[k], v3)
  {
    FirstIs(q, fit, k);
    hide Keep, First, Requeued;
    DropFront(q, k, Keep(q[..k], live));
  }

  lemma DropFront<T>(q: seq<T>, k: nat, more: seq<T>)
    requires k < |q|
    ensures (q[k..] + more)[1..] == q[k + 1..] + more
  {
  }

  /** The scan chooses none. */
  lemma ChoosesNone<T>(q: seq<T>, live: T -> bool, fit: T -> bool, v3: T -> bool)
    requires forall i :: 0 <= i < |q| ==> !fit(q[i])
    ensures First(q, fit) == |q| && AfterScan(q, live, fit, v3) == Rotate(Keep(q, live))
    ensures ScanOutcome(q, live, fit) == if Keep(q, live) == [] then Blocked else NoneSuitable
  {
    FirstIs(q, fit, |q|);
  }

  // ---------------------------------------------------------------------------------------
  // Many scans
  // ---------------------------------------------------------------------------------------

  /** One pick turns the suitable sockets by one: the front one is used and, if V3, goes last. */
  lemma PickTurns<T(!new)>(q: seq<T>, live: T -> bool, fit: T -> bool, v3: T -> bool)
    requires Stronger(fit, live) && Keep(q, fit) != []
    ensures var suitable := Keep(q, fit);
      && ScanOutcome(q, live, fit) == Chosen(suitable[0])
      && Keep(AfterScan(q, live, fit, v3), fit) == suitable[1..] + Requeued(suitable[0], v3)
  {
    FirstSplit(q, fit);
    var k := First(q, fit);
    var pre, s, post := q[..k], q[k], q[k + 1..];
    KeepMoved(q, k, live, fit, v3);
    BeforeFirst(q, fit);
    KeepNone(pre, fit);
    assert Keep(Requeued(s, v3), fit) == Requeued(s, v3);
    assert Keep(post, fit) + [] + Requeued(s, v3) == Keep(post, fit) + Requeued(s, v3);
  }

  /** The queue after `n` requests in a row. */
  function QueueAfter<T>(q: seq<T>, live: T -> bool, fit: T -> bool, v3: T -> bool, n: nat): seq<T> {
    if n == 0 then q else AfterScan(QueueAfter(q, live, fit, v3, n - 1), live, fit, v3)
  }

  /** What those requests were given. */
  function Outcomes<T>(q: seq<T>, live: T -> bool, fit: T -> bool, v3: T -> bool, n: nat): (r: seq<Outcome<T>>)
    ensures |r| == n
  {
    if n == 0 then []
    else Outcomes(q, live, fit, v3, n - 1) + [ScanOutcome(QueueAfter(q, live, fit, v3, n - 1), live, fit)]
  }

  lemma TurnsOnce<T>(suitable: seq<T>, v3: T -> bool, n: nat)
    requires n < |suitable|
    ensures var now := suitable[n..] + Keep(suitable[..n], v3);
      && now[0] == suitable[n]
      && now[1..] + Requeued(now[0], v3) == suitable[n + 1..] + Keep(suitable[..n + 1], v3)
  {
    assert suitable[..n + 1] == suitable[..n] + [suitable[n]];
    KeepPush(suitable[..n], suitable[n], v3);
    hide Keep;
    var used := Keep(suitable[..n], v3);
    assert (suitable[n..] + used)[1..] == suitable[n + 1..] + used;
    assert suitable[n + 1..] + used + Requeued(suitable[n], v3)
        == suitable[n + 1..] + (used + Requeued(suitable[n], v3));
  }

  lemma {:induction false} QueueTurns<T(!new)>(q: seq<T>, live: T -> bool, fit: T -> bool, v3: T -> bool, n: nat)
    requires Stronger(fit, live) && n <= |Keep(q, fit)|
    ensures Keep(QueueAfter(q, live, fit, v3, n), fit) == Keep(q, fit)[n..] + Keep(Keep(q, fit)[..n], v3)
  {
    var suitable := Keep(q, fit);
    if n == 0 {
      assert suitable[..0] == [] && suitable[0..] + [] == suitable;
    } else {
      hide AfterScan, ScanOutcome, Keep, Stronger;
      QueueTurns(q, live, fit, v3, n - 1);
      PickTurns(QueueAfter(q, live, fit, v3, n - 1), live, fit, v3);
      TurnsOnce(suitable, v3, n - 1);
    }
  }

  lemma NextPick<T(!new)>(q: seq<T>, live: T -> bool, fit: T -> bool, v3: T -> bool, n: nat)
    requires Stronger(fit, live) && n < |Keep(q, fit)|
    ensures ScanOutcome(QueueAfter(q, live, fit, v3, n), live, fit) == Chosen(Keep(q, fit)[n])
  {
    hide *;
    QueueTurns(q, live, fit, v3, n);
    TurnsOnce(Keep(q, fit), v3, n);
    PickTurns(QueueAfter(q, live, fit, v3, n), live, fit, v3);
  }

  lemma {:induction false} PicksInOrder<T(!new)>(q: seq<T>, live: T -> bool, fit: T -> bool, v3: T -> bool, n: nat)
    requires Stronger(fit, live) && n <= |Keep(q, fit)|
    ensures forall i :: 0 <= i < n ==> Outcomes(q, live, fit, v3, n)[i] == Chosen(Keep(q, fit)[i])
  {
    hide ScanOutcome, Keep, Stronger, QueueAfter;
    if n > 0 {
      PicksInOrder(q, live, fit, v3, n - 1);
      NextPick(q, live, fit, v3, n - 1);
    }
  }

  /**
   Round robin: as many requests as there are suitable sockets get each of them once, in queue
   order. Afterwards the suitable sockets are the V3 ones among them, in the same order.
   */
  lemma RoundRobin<T(!new)>(q: seq<T>, live: T -> bool, fit: T -> bool, v3: T -> bool)
    requires Stronger(fit, live)
    ensures var suitable := Keep(q, fit);
      && (forall i :: 0 <= i < |suitable| ==> Outcomes(q, live, fit, v3, |suitable|)[i] == Chosen(suitable[i]))
      && Keep(QueueAfter(q, live, fit, v3, |suitable|), fit) == Keep(suitable, v3)
  {
    var suitable := Keep(q, fit);
    QueueTurns(q, live, fit, v3, |suitable|);
    PicksInOrder(q, live, fit, v3, |suitable|);
    assert suitable[..|suitable|] == suitable && suitable[|suitable|..] == [];
  }

  lemma FrontFits<T>(q: seq<T>, live: T -> bool, fit: T -> bool, v3: T -> bool)
    requires q != [] && fit(q[0]) && v3(q[0])
    ensures AfterScan(q, live, fit, v3) == q[1..] + [q[0]]
  {
    assert q[..0] == [];
    assert q[1..] + [] + [q[0]] == q[1..] + [q[0]];
  }

  lemma {:induction false} AllFitQueue<T>(q: seq<T>, live: T -> bool, fit: T -> bool, v3: T -> bool, n: nat)
    requires n <= |q| && forall i :: 0 <= i < |q| ==> fit(q[i]) && v3(q[i])
    ensures QueueAfter(q, live, fit, v3, n) == q[n..] + q[..n]
  {
    if n > 0 {
      AllFitQueue(q, live, fit, v3, n - 1);
      var q' := q[n - 1..] + q[..n - 1];
      assert q'[0] == q[n - 1] && q'[1..] == q[n..] + q[..n - 1];
      hide AfterScan;
      FrontFits(q', live, fit, v3);
      assert q[n..] + q[..n - 1] + [q[n - 1]] == q[n..] + q[..n];
    }
  }

  /** When every socket is suitable and V3, one full turn restores the queue. */
  lemma FullTurnRestores<T(!new)>(q: seq<T>, live: T -> bool, fit: T -> bool, v3: T -> bool)
    requires Stronger(fit, live) && forall i :: 0 <= i < |q| ==> fit(q[i]) && v3(q[i])
    ensures QueueAfter(q, live, fit, v3, |q|) == q
    ensures forall i :: 0 <= i < |q| ==> Outcomes(q, live, fit, v3, |q|)[i] == Chosen(q[i])
  {
    AllFitQueue(q, live, fit, v3, |q|);
    KeepAll(q, fit);
    RoundRobin(q, live, fit, v3);
    assert q[|q|..] + q[..|q|] == q;
  }
}
