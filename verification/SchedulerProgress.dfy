/** Once no new requests come in, the scheduler comes to rest after a bounded number of steps, and then every call
    of Execute has returned. */
module SchedulerProgress {
  import opened Batch
  import opened Scheduler
  import opened SchedulerProofs
  import opened SchedulerOutcomes

  /** How far a batch is from being finished. */
  function Ahead(p: Phase): nat {
    match p
    case Collecting => 5
    case Clearing => 4
    case Locking => 3
    case Running => 2
    case Reporting(_, _) => 1
    case Finished(_) => 0
  }

  /** How far a call is from its return. */
  function Left(c: Caller): nat {
    match c
    case Waiting => 4
    case Solo => 3
    case SoloLocked => 2
    case SoloDone(_) => 1
    case Returned(_) => 0
  }

  ghost function BatchLoad(batches: seq<BatchState>): nat {
    if batches == [] then 0 else BatchLoad(batches[..|batches| - 1]) + Ahead(batches[|batches| - 1].phase)
  }

  ghost function Behind(callers: map<nat, Caller>, k: nat): set<nat> {
    set r | r in callers && Left(callers[r]) >= k
  }

  ghost function CallerLoad(callers: map<nat, Caller>): nat {
    |Behind(callers, 1)| + |Behind(callers, 2)| + |Behind(callers, 3)| + |Behind(callers, 4)|
  }

  /** A bound on the steps still to come while no new request does. */
  ghost function Load(w: World): nat {
    BatchLoad(w.batches) + CallerLoad(w.callers)
  }

  lemma {:induction false} BatchLoadAt(batches: seq<BatchState>, b: nat, s: BatchState)
    requires b < |batches|
    ensures BatchLoad(batches[b := s]) == BatchLoad(batches) - Ahead(batches[b].phase) + Ahead(s.phase)
  {
    var n := |batches| - 1;
    if b == n {
      assert batches[b := s][..n] == batches[..n];
    } else {
      BatchLoadAt(batches[..n], b, s);
      assert batches[b := s][..n] == batches[..n][b := s];
    }
  }

  lemma FewerBehind(callers: map<nat, Caller>, r: nat, c: Caller, k: nat)
    requires r in callers && Left(c) <= Left(callers[r])
    ensures |Behind(callers[r := c], k)| <= |Behind(callers, k)|
    ensures Left(c) < k <= Left(callers[r]) ==> |Behind(callers[r := c], k)| < |Behind(callers, k)|
  {
    var before, after := Behind(callers, k), Behind(callers[r := c], k);
    if Left(c) < k <= Left(callers[r]) {
      assert before == after + {r} && r !in after;
    } else {
      assert before == after;
    }
  }

  lemma CallerLoadAt(callers: map<nat, Caller>, r: nat, c: Caller)
    requires r in callers && Left(c) < Left(callers[r])
    ensures CallerLoad(callers[r := c]) < CallerLoad(callers)
  {
    FewerBehind(callers, r, c, 1);
    FewerBehind(callers, r, c, 2);
    FewerBehind(callers, r, c, 3);
    FewerBehind(callers, r, c, 4);
  }

  /** A trigger that finds its batch started. */
  predicate Spent(w: World, e: Event) {
    e.Trigger? && e.b < |w.batches| && w.batches[e.b].phase != Collecting
  }

  lemma PhaseDrops(w: World, w': World, b: nat, s: BatchState)
    requires b < |w.batches| && w'.batches == w.batches[b := s] && w'.callers == w.callers
    requires Ahead(s.phase) < Ahead(w.batches[b].phase)
    ensures Load(w') < Load(w)
  {
    BatchLoadAt(w.batches, b, s);
  }

  lemma CallerDrops(w: World, w': World, r: nat, c: Caller)
    requires r in w.callers && w'.callers == w.callers[r := c] && Left(c) < Left(w.callers[r])
    requires BatchLoad(w'.batches) == BatchLoad(w.batches)
    ensures Load(w') < Load(w)
  {
    CallerLoadAt(w.callers, r, c);
  }

  lemma AttemptDrops(env: Requests, w: World, w': World, b: nat, commitFails: bool)
    requires Told(w) && PhaseIs(w, b, Running) && w' == Attempted(env, w, b, commitFails)
    ensures Load(w') < Load(w)
  {
    var reqs := w.batches[b].reqs;
    FailsInRange(env, w.db, reqs);
    if reqs != [] && ApplyAll(env, w.db, reqs).FailedAt? {
      var i := ApplyAll(env, w.db, reqs).index;
      assert CallerIs(w, reqs[i], Expected(Running, i));
      BatchLoadAt(w.batches, b, w.batches[b].(reqs := SwapRemove(reqs, i)));
      CallerDrops(w, w', reqs[i], Solo);
    } else {
      PhaseDrops(w, w', b, w'.batches[b]);
    }
  }

  lemma ReportDrops(w: World, w': World, b: nat)
    requires Told(w) && ReportBounds(w) && b < |w.batches| && w.batches[b].phase.Reporting? && w' == Reported(w, b)
    ensures Load(w') < Load(w)
  {
    var BatchState(reqs, Reporting(i, ok), _) := w.batches[b];
    if i < |reqs| {
      assert CallerIs(w, reqs[i], Expected(w.batches[b].phase, i));
      BatchLoadAt(w.batches, b, w'.batches[b]);
      CallerDrops(w, w', reqs[i], Returned(ok));
    } else {
      PhaseDrops(w, w', b, w'.batches[b]);
    }
  }

  lemma SoloDrops(env: Requests, w: World, e: Event, w': World)
    requires Enabled(w, e) && Pointing(w) && (e.SoloAcquire? || e.SoloAttempt? || e.SoloReport?) && w' == Step(env, w, e)
    ensures Load(w') < Load(w)
  {
    CallerDrops(w, w', e.r, w'.callers[e.r]);
  }

  /** Every step but a new request and a spent trigger brings the scheduler closer to rest. */
  lemma StepDrops(env: Requests, w: World, e: Event, w': World)
    requires Told(w) && ReportBounds(w) && Pointing(w) && Enabled(w, e) && w' == Step(env, w, e)
    ensures !e.Submit? && !Spent(w, e) ==> Load(w') < Load(w)
    ensures Spent(w, e) ==> w' == w
  {
    if e.Attempt? {
      AttemptDrops(env, w, w', e.b, e.commitFails);
    } else if e.Report? {
      ReportDrops(w, w', e.b);
    } else if e.SoloAcquire? || e.SoloAttempt? || e.SoloReport? {
      SoloDrops(env, w, e, w');
    } else if !e.Submit? && !Spent(w, e) {
      PhaseDrops(w, w', e.b, w'.batches[e.b]);
    }
  }

  /** The steps of a run that change something. */
  ghost function Changes(env: Requests, w: World, events: seq<Event>, w': World): nat
    requires SchedulerProofs.Run(env, w, events, w')
    decreases events
  {
    if events == [] then 0
    else
      (if Spent(w, events[0]) then 0 else 1) + Changes(env, Step(env, w, events[0]), events[1..], w')
  }

  /** While no new request comes in, only boundedly many steps change something. */
  lemma {:induction false} RunDrains(env: Requests, db: DB, w: World, events: seq<Event>, w': World)
    requires Inv(env, db, w) && SchedulerProofs.Run(env, w, events, w')
    requires forall i :: 0 <= i < |events| ==> !events[i].Submit?
    ensures Changes(env, w, events, w') <= Load(w)
    decreases events
  {
    if events != [] {
      StepDrops(env, w, events[0], Step(env, w, events[0]));
      StepKeeps(env, db, w, events[0]);
      RunDrains(env, db, Step(env, w, events[0]), events[1..], w');
    }
  }

  /** Nothing but a new request can change anything. */
  ghost predicate AtRest(env: Requests, w: World)
    requires Pointing(w)
  {
    forall e :: Enabled(w, e) && !e.Submit? ==> Step(env, w, e) == w
  }

  lemma NotEnabled(env: Requests, w: World, e: Event)
    requires Told(w) && ReportBounds(w) && Pointing(w) && AtRest(env, w) && !e.Submit? && !Spent(w, e)
    ensures !Enabled(w, e)
  {
    if Enabled(w, e) { StepDrops(env, w, e, Step(env, w, e)); }
  }

  ghost predicate Settled(p: Phase) { p.Locking? || p.Finished? }

  lemma BatchesSettled(env: Requests, w: World, b: nat)
    requires Told(w) && ReportBounds(w) && Pointing(w) && AtRest(env, w) && b < |w.batches|
    ensures Settled(w.batches[b].phase)
    ensures LockFree(w) ==> w.batches[b].phase.Finished?
  {
    if w.batches[b].phase.Collecting? { NotEnabled(env, w, Trigger(b)); }
    NotEnabled(env, w, Clear(b));
    NotEnabled(env, w, Acquire(b));
    NotEnabled(env, w, Attempt(b, false));
    NotEnabled(env, w, Report(b));
  }

  lemma CallersSettled(env: Requests, w: World, r: nat)
    requires Told(w) && ReportBounds(w) && Pointing(w) && AtRest(env, w) && r in w.callers
    ensures !LockedCaller(w.callers[r])
    ensures LockFree(w) ==> w.callers[r] != Solo
  {
    NotEnabled(env, w, SoloAcquire(r));
    NotEnabled(env, w, SoloAttempt(r, false));
    NotEnabled(env, w, SoloReport(r));
  }

  lemma NobodyHolds(w: World)
    requires Exclusive(w)
    requires forall b :: 0 <= b < |w.batches| ==> Settled(w.batches[b].phase)
    requires forall r :: r in w.callers ==> !LockedCaller(w.callers[r])
    ensures LockFree(w)
  {
  }

  lemma WaitingMoves(w: World, r: nat)
    requires Placed(w) && Told(w) && CallerIs(w, r, Waiting)
    ensures !w.batches[w.joined[r]].phase.Finished?
  {
    var b := w.joined[r];
    var i :| 0 <= i < |w.batches[b].reqs| && w.batches[b].reqs[i] == r;
    assert CallerIs(w, r, Expected(w.batches[b].phase, i));
  }

  /** At rest every call has returned: there is no deadlock, and no request is lost. */
  lemma AtRestAllReturned(env: Requests, db: DB, w: World)
    requires Inv(env, db, w) && AtRest(env, w)
    ensures forall r :: r in w.callers ==> w.callers[r].Returned?
  {
    forall b | 0 <= b < |w.batches| ensures Settled(w.batches[b].phase) { BatchesSettled(env, w, b); }
    forall r | r in w.callers ensures !LockedCaller(w.callers[r]) { CallersSettled(env, w, r); }
    NobodyHolds(w);
    forall r | r in w.callers ensures w.callers[r].Returned? {
      CallersSettled(env, w, r);
      BatchesSettled(env, w, w.joined[r]);
      if w.callers[r] == Waiting { WaitingMoves(w, r); }
    }
  }

  /** Over every run: when the scheduler has come to rest, every submitted request has been answered. Those that were
      told of success are exactly the ones in the database, which were committed by some step of the run, and the
      others failed in one. */
  lemma EveryRunAnswers(env: Requests, db: DB, locker: bool, events: seq<Event>, w: World)
    requires SchedulerProofs.Run(env, Scheduler.Init(locker, db), events, w)
    ensures Pointing(w)
    ensures AtRest(env, w) ==>
      forall r :: r in w.callers ==>
        && w.callers[r].Returned? && (w.callers[r].ok <==> r in w.history)
        && Sealed(env, Scheduler.Init(locker, db), events, r, if w.callers[r].ok then Commits else Fails)
  {
    InitInv(env, db, locker);
    RunKeeps(env, db, Scheduler.Init(locker, db), events, w);
    EveryRun(env, db, locker, events, w);
    if AtRest(env, w) {
      AtRestAllReturned(env, db, w);
      forall r | r in w.callers
        ensures Sealed(env, Scheduler.Init(locker, db), events, r, if w.callers[r].ok then Commits else Fails)
      {
        EveryFate(env, db, locker, events, w, r, if w.callers[r].ok then Commits else Fails);
      }
    }
  }
}
