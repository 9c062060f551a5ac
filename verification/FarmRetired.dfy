/**
 A request that scans a channel its route no longer has. The channel map never points to such a
 channel again, so no registered socket ever comes there; and a request that waits in `recv`
 reads no notification.
 */
module FarmRetired {
  import opened FarmProtocol
  import opened FarmTokens
  import opened FarmHomes
  import opened FarmWakeUp
  import opened FarmSeen

  /** No route has the channel. */
  ghost predicate Retired(s: State, c: nat) {
    c < |s.queues| && forall route :: route in s.current ==> s.current[route] != c
  }

  /** Request `r` has the channel `c`. */
  ghost predicate Scans(s: State, r: nat, c: nat) {
    r < |s.reqs| && s.reqs[r].chan == c
  }

  lemma ReqSameChannel(s: State, i: nat, e: Event)
    requires WF(s) && i < |s.reqs| == |DoReq(s, i, e).reqs| && OfReq(e)
    ensures DoReq(s, i, e).reqs[i].chan == s.reqs[i].chan
  {
    if !e.Notice? && !e.Subscribe? {
      hide DoReq, WF;
      ReqEar(s, i, e);
    } else {
      hide WF;
    }
  }

  lemma ReqKeepsChannel(s: State, i: nat, e: Event, r: nat, c: nat)
    requires WF(s) && i < |s.reqs| && OfReq(e) && Scans(s, r, c) && Retired(s, c)
    ensures Scans(DoReq(s, i, e), r, c) && Retired(DoReq(s, i, e), c)
  {
    hide WF, Fate, DoReq;
    ReqFate(s, i, e, 0);
    FateFrame(s, DoReq(s, i, e), i, 0);
    ReqSameChannel(s, i, e);
  }

  lemma FarmKeepsChannel(s: State, e: Event, r: nat, c: nat)
    requires WF(s) && Scans(s, r, c) && Retired(s, c)
    ensures Scans(DoFarm(s, e), r, c) && Retired(DoFarm(s, e), c)
  {
    FarmReqs(s, e);
    hide WF;
  }

  lemma StepRetired(s: State, e: Event, r: nat, c: nat)
    requires WF(s) && Scans(s, r, c) && Retired(s, c)
    ensures Scans(Step(s, e), r, c) && Retired(Step(s, e), c)
  {
    hide WF, DoReq, DoFarm;
    if !OfReq(e) {
      FarmKeepsChannel(s, e, r, c);
    } else if e.r < |s.reqs| {
      ReqKeepsChannel(s, e.r, e, r, c);
    }
  }

  /** However the run `es` goes on, the channel stays without a route and the request keeps it. */
  lemma {:induction false} RetiredForever(es: seq<Event>, fs: seq<Event>, r: nat, c: nat)
    requires Scans(Run(es), r, c) && Retired(Run(es), c)
    ensures Scans(Run(es + fs), r, c) && Retired(Run(es + fs), c)
    decreases |fs|
  {
    hide Run, Step, WF, Scans, Retired;
    if fs == [] {
      assert es + fs == es;
    } else {
      LastStep(es, fs);
      RetiredForever(es, fs[..|fs| - 1], r, c);
      StepRetired(Run(es + fs[..|fs| - 1]), fs[|fs| - 1], r, c);
    }
  }

  /** A registered socket is neither in such a channel nor received from it. */
  lemma NotInRetired(s: State, r: nat, x: Id)
    requires r < |s.reqs| && Retired(s, s.reqs[r].chan) && HomeOk(s, x) && x in s.registered
    ensures x !in s.queues[s.reqs[r].chan] && (s.reqs[r].pc.Hold? ==> s.reqs[r].pc.id != x)
  {
    if s.reqs[r].pc.Hold? { assert s.reqs[r].pc.id in Hand(s.reqs[r].pc); }
    hide Hand, PutsHome;
  }

  lemma NoNoticeInScan(s: State, r: nat)
    requires WF(s) && r < |s.reqs| && s.reqs[r].pc.Scan?
    ensures Step(s, Notice(r)) == s.(clock := s.clock + 1)
  {
    hide WF;
  }

  /**
   A request on a channel that lost its route: however the run goes on, no registered socket is
   in its channel, and it receives none there; and while it waits in `recv`, no notification
   changes anything for it.
   */
  lemma CutOff(es: seq<Event>, fs: seq<Event>, r: nat, x: Id)
    requires r < |Run(es).reqs| && Retired(Run(es), Run(es).reqs[r].chan)
    ensures var s := Run(es + fs);
      && r < |s.reqs| && s.reqs[r].chan < |s.queues|
      && (x in s.registered ==> x !in s.queues[s.reqs[r].chan])
      && (x in s.registered && s.reqs[r].pc.Hold? ==> s.reqs[r].pc.id != x)
      && (s.reqs[r].pc.Scan? ==> Step(s, Notice(r)) == s.(clock := s.clock + 1))
  {
    RetiredForever(es, fs, r, Run(es).reqs[r].chan);
    RunHome(es + fs, x);
    var s := Run(es + fs);
    hide Run, WF, HomeOk, Step;
    if x in s.registered { NotInRetired(s, r, x); }
    if s.reqs[r].pc.Scan? { NoNoticeInScan(s, r); }
  }
}
