/** What becomes of a request, and why: over every run it is committed, fails or has to leave its batch exactly if
    the run has a step with that cause. */
module SchedulerOutcomes {
  import opened Options
  import opened Batch
  import opened Scheduler
  import opened SchedulerProofs

  datatype Fate = Commits | Fails | LeavesBatch

  /** Where a request with that fate can be recognised afterwards. */
  ghost predicate Met(w: World, r: nat, fate: Fate) {
    match fate
    case Commits => r in w.history
    case Fails => r in w.callers && Failed(w, r, w.callers[r])
    case LeavesBatch => Left(w, r)
  }

  /** The call of Execute has returned an error or is bound to. */
  ghost predicate Failed(w: World, r: nat, c: Caller) {
    match c
    case Waiting =>
      && r in w.joined && w.joined[r] < |w.batches|
      && w.batches[w.joined[r]].phase.Reporting? && !w.batches[w.joined[r]].phase.ok
    case SoloDone(ok) => !ok
    case Returned(ok) => !ok
    case _ => false
  }

  ghost predicate Left(w: World, r: nat) {
    r in w.joined && w.joined[r] < |w.batches| && r !in w.batches[w.joined[r]].reqs
  }

  /** The step that seals it. A batch commits or fails to commit as a whole, if all its updates succeed one after
      the other; a request leaves its batch if its update is the first to fail in such an attempt; a request on its
      own commits if its update succeeds on the database as it is, and fails if it does not. */
  ghost predicate Cause(env: Requests, w: World, e: Event, r: nat, fate: Fate) {
    match fate
    case Commits =>
      || (e == SoloAttempt(r, false) && env.update(r)(w.db).Some?)
      || (e.Attempt? && !e.commitFails && Transacts(env, w, e.b, r))
    case Fails =>
      || (e == SoloAttempt(r, false) && env.update(r)(w.db) == None)
      || e == SoloAttempt(r, true)
      || (e.Attempt? && e.commitFails && Transacts(env, w, e.b, r))
    case LeavesBatch =>
      e.Attempt? && Stops(env, w, e.b, r)
  }

  /** The request is in the batch, all of which can be applied. */
  ghost predicate Transacts(env: Requests, w: World, b: nat, r: nat) {
    b < |w.batches| && r in w.batches[b].reqs && exists d :: AllApply(env, w.db, w.batches[b].reqs, d)
  }

  /** The request is the first in the batch whose update fails. */
  ghost predicate Stops(env: Requests, w: World, b: nat, r: nat) {
    b < |w.batches| && exists i: nat :: StopsAt(env, w.db, w.batches[b].reqs, i) && w.batches[b].reqs[i] == r
  }

  // ----- one step

  /** The fates that the step seals. */
  ghost predicate Seals(env: Requests, w: World, e: Event, w': World, q: nat) {
    forall fate :: Met(w', q, fate) <==> Met(w, q, fate) || Cause(env, w, e, q, fate)
  }

  lemma SoloSeals(env: Requests, w: World, w': World, r: nat, commitFails: bool, q: nat)
    requires CallerIs(w, r, SoloLocked) && w' == SoloAttempted(env, w, r, commitFails)
    ensures Seals(env, w, SoloAttempt(r, commitFails), w', q)
  {
    forall fate ensures Met(w', q, fate) <==> Met(w, q, fate) || Cause(env, w, SoloAttempt(r, commitFails), q, fate) {
      match fate case Commits => case Fails => case LeavesBatch =>
    }
  }

  lemma AttemptSeals(env: Requests, w: World, w': World, b: nat, commitFails: bool, q: nat)
    requires Placed(w) && Told(w) && PhaseIs(w, b, Running) && w' == Attempted(env, w, b, commitFails)
    ensures Seals(env, w, Attempt(b, commitFails), w', q)
  {
    var reqs := w.batches[b].reqs;
    AppliesInChain(env, w.db, reqs);
    InBatch(w, b, q);
    match ApplyAll(env, w.db, reqs)
    case Applied(d) =>
      NeverStops(env, w.db, reqs, d);
      AppliedSeals(env, w, w', b, commitFails, d, q);
    case FailedAt(i) =>
      StopsOnce(env, w.db, reqs, i);
      InBatch(w, b, reqs[i]);
      RemovedOnly(reqs, i, q);
      FailedSeals(env, w, w', b, commitFails, i, q);
  }

  lemma NeverStops(env: Requests, db: DB, reqs: seq<nat>, d: DB)
    requires ApplyAll(env, db, reqs) == Applied(d)
    ensures forall i :: !StopsAt(env, db, reqs, i)
  {
    forall i ensures !StopsAt(env, db, reqs, i) { TransactionIff(env, db, reqs, d, i); }
  }

  lemma StopsOnce(env: Requests, db: DB, reqs: seq<nat>, i: nat)
    requires ApplyAll(env, db, reqs) == FailedAt(i)
    ensures forall d :: !AllApply(env, db, reqs, d)
    ensures forall j :: StopsAt(env, db, reqs, j) ==> j == i
  {
    forall d ensures !AllApply(env, db, reqs, d) { TransactionIff(env, db, reqs, d, i); }
    forall j | StopsAt(env, db, reqs, j) ensures j == i { TransactionIff(env, db, reqs, db, j); }
  }

  /** A request of a running batch waits for it, and no other request does. */
  lemma InBatch(w: World, b: nat, q: nat)
    requires Placed(w) && Told(w) && PhaseIs(w, b, Running)
    ensures q in w.batches[b].reqs <==> CallerIs(w, q, Waiting) && q in w.joined && w.joined[q] == b
    ensures NoRepeats(w.batches[b].reqs)
  {
    var reqs := w.batches[b].reqs;
    if q in reqs {
      var i :| 0 <= i < |reqs| && reqs[i] == q;
      assert CallerIs(w, reqs[i], Expected(Running, i));
    }
  }

  lemma AppliedSeals(env: Requests, w: World, w': World, b: nat, commitFails: bool, d: DB, q: nat)
    requires PhaseIs(w, b, Running) && w' == Attempted(env, w, b, commitFails)
    requires q in w.batches[b].reqs <==> CallerIs(w, q, Waiting) && q in w.joined && w.joined[q] == b
    requires ApplyAll(env, w.db, w.batches[b].reqs) == Applied(d) && AllApply(env, w.db, w.batches[b].reqs, d)
    requires forall i :: !StopsAt(env, w.db, w.batches[b].reqs, i)
    ensures Seals(env, w, Attempt(b, commitFails), w', q)
  {
    assert Transacts(env, w, b, q) <==> q in w.batches[b].reqs;
    assert !Stops(env, w, b, q);
    if w.batches[b].reqs == [] {
      PhaseOnly(w, w', b, Finished(false), q);
    } else if commitFails {
      FailedCommit(env, w, w', b, q);
    } else {
      GoodCommit(env, w, w', b, q);
    }
  }

  lemma PhaseOnly(w: World, w': World, b: nat, p: Phase, q: nat)
    requires b < |w.batches| && w'.batches == w.batches[b := w.batches[b].(phase := p)]
    requires w'.callers == w.callers && w'.joined == w.joined && w'.history == w.history
    requires CallerIs(w, q, Waiting) && q in w.joined ==> w.joined[q] != b
    ensures forall fate :: Met(w', q, fate) <==> Met(w, q, fate)
  {
    forall fate ensures Met(w', q, fate) <==> Met(w, q, fate) {
      match fate case Commits => case Fails => case LeavesBatch =>
    }
  }

  lemma FailedCommit(env: Requests, w: World, w': World, b: nat, q: nat)
    requires PhaseIs(w, b, Running) && w' == SetPhase(w, b, Reporting(0, false))
    requires q in w.batches[b].reqs <==> CallerIs(w, q, Waiting) && q in w.joined && w.joined[q] == b
    requires (Transacts(env, w, b, q) <==> q in w.batches[b].reqs) && !Stops(env, w, b, q)
    ensures Seals(env, w, Attempt(b, true), w', q)
  {
    forall fate ensures Met(w', q, fate) <==> Met(w, q, fate) || Cause(env, w, Attempt(b, true), q, fate) {
      match fate case Commits => case Fails => case LeavesBatch =>
    }
  }

  lemma GoodCommit(env: Requests, w: World, w': World, b: nat, q: nat)
    requires PhaseIs(w, b, Running)
    requires w' == SetPhase(w, b, Reporting(0, true)).(db := w'.db, history := w.history + w.batches[b].reqs)
    requires (Transacts(env, w, b, q) <==> q in w.batches[b].reqs) && !Stops(env, w, b, q)
    ensures Seals(env, w, Attempt(b, false), w', q)
  {
    forall fate ensures Met(w', q, fate) <==> Met(w, q, fate) || Cause(env, w, Attempt(b, false), q, fate) {
      match fate case Commits => case Fails => case LeavesBatch =>
    }
  }

  lemma FailedSeals(env: Requests, w: World, w': World, b: nat, commitFails: bool, i: nat, q: nat)
    requires PhaseIs(w, b, Running) && w' == Attempted(env, w, b, commitFails)
    requires ApplyAll(env, w.db, w.batches[b].reqs) == FailedAt(i) && StopsAt(env, w.db, w.batches[b].reqs, i)
    requires CallerIs(w, w.batches[b].reqs[i], Waiting)
    requires w.batches[b].reqs[i] in w.joined && w.joined[w.batches[b].reqs[i]] == b
    requires forall d :: !AllApply(env, w.db, w.batches[b].reqs, d)
    requires forall j :: StopsAt(env, w.db, w.batches[b].reqs, j) ==> j == i
    requires q in SwapRemove(w.batches[b].reqs, i) <==> q in w.batches[b].reqs && q != w.batches[b].reqs[i]
    ensures Seals(env, w, Attempt(b, commitFails), w', q)
  {
    assert !Transacts(env, w, b, q);
    assert Stops(env, w, b, q) <==> q == w.batches[b].reqs[i];
    forall fate ensures Met(w', q, fate) <==> Met(w, q, fate) || Cause(env, w, Attempt(b, commitFails), q, fate) {
      match fate case Commits => case Fails => case LeavesBatch =>
    }
  }

  lemma RemovedOnly(reqs: seq<nat>, i: nat, q: nat)
    requires i < |reqs| && NoRepeats(reqs)
    ensures q in SwapRemove(reqs, i) <==> q in reqs && q != reqs[i]
  {
    SwapRemoveMultiset(reqs, i);
    if q in reqs && q != reqs[i] { assert q in multiset(reqs); }
  }

  lemma SubmitSeals(env: Requests, w: World, w': World, r: nat, q: nat)
    requires Open(w) && Placed(w) && r !in w.callers && w' == Submitted(w, r)
    ensures Seals(env, w, Submit(r), w', q)
  {
    if w.current.Some? { assert OpenPhase(w.batches[w.current.value].phase); }
    forall fate ensures Met(w', q, fate) <==> Met(w, q, fate) {
      match fate case Commits => case Fails => case LeavesBatch =>
    }
  }

  lemma ReportSeals(env: Requests, w: World, w': World, b: nat, q: nat)
    requires Placed(w) && Told(w) && ReportBounds(w)
    requires b < |w.batches| && w.batches[b].phase.Reporting? && w' == Reported(w, b)
    ensures Seals(env, w, Report(b), w', q)
  {
    var BatchState(reqs, Reporting(i, ok), _) := w.batches[b];
    if i < |reqs| {
      assert CallerIs(w, reqs[i], Expected(w.batches[b].phase, i));
      ToldNext(w, w', b, reqs, i, ok, q);
    } else {
      if q in reqs {
        var j :| 0 <= j < |reqs| && reqs[j] == q;
        assert CallerIs(w, reqs[j], Expected(w.batches[b].phase, j));
      }
      PhaseOnly(w, w', b, Finished(ok), q);
    }
  }

  lemma ToldNext(w: World, w': World, b: nat, reqs: seq<nat>, i: nat, ok: bool, q: nat)
    requires b < |w.batches| && w.batches[b].phase == Reporting(i, ok) && w.batches[b].reqs == reqs && i < |reqs|
    requires w' == Reported(w, b) && CallerIs(w, reqs[i], Waiting) && reqs[i] in w.joined && w.joined[reqs[i]] == b
    ensures forall fate :: Met(w', q, fate) <==> Met(w, q, fate)
  {
    forall fate ensures Met(w', q, fate) <==> Met(w, q, fate) {
      match fate case Commits => case Fails => case LeavesBatch =>
    }
  }

  lemma MoveSeals(env: Requests, w: World, e: Event, w': World, q: nat)
    requires Pointing(w) && Enabled(w, e) && w' == Step(env, w, e)
    requires e.Trigger? || e.Clear? || e.Acquire? || e.SoloAcquire? || e.SoloReport?
    ensures Seals(env, w, e, w', q)
  {
    forall fate ensures Met(w', q, fate) <==> Met(w, q, fate) {
      match fate case Commits => case Fails => case LeavesBatch =>
    }
  }

  /** Every step seals the fates it is a cause of, and no others. */
  lemma StepSeals(env: Requests, w: World, e: Event, q: nat)
    requires Open(w) && Placed(w) && Told(w) && ReportBounds(w) && Enabled(w, e)
    ensures Seals(env, w, e, Step(env, w, e), q)
  {
    var w' := Step(env, w, e);
    if e.Submit? {
      SubmitSeals(env, w, w', e.r, q);
    } else if e.Attempt? {
      AttemptSeals(env, w, w', e.b, e.commitFails, q);
    } else if e.Report? {
      ReportSeals(env, w, w', e.b, q);
    } else if e.SoloAttempt? {
      SoloSeals(env, w, w', e.r, e.commitFails, q);
    } else {
      MoveSeals(env, w, e, w', q);
    }
  }

  /** A request on its own is committed exactly if its update succeeds on the database as it is: then the database
      is what that update makes of it, and otherwise nothing has happened to it. */
  lemma SoloResult(env: Requests, w: World, r: nat, w': World)
    requires Pointing(w) && Enabled(w, SoloAttempt(r, false)) && w' == Step(env, w, SoloAttempt(r, false))
    ensures CallerIs(w', r, SoloDone(env.update(r)(w.db).Some?))
    ensures env.update(r)(w.db).Some? ==> Some(w'.db) == env.update(r)(w.db) && w'.history == w.history + [r]
    ensures env.update(r)(w.db).None? ==> w'.db == w.db && w'.history == w.history
    ensures w'.callers - {r} == w.callers - {r} && w'.batches == w.batches && w'.lock == w.lock
  {
  }

  // ----- whole runs

  /** The k-th step of the run is taken in the state v. */
  ghost predicate At(env: Requests, w: World, events: seq<Event>, k: nat, v: World) {
    k < |events| && SchedulerProofs.Run(env, w, events[..k], v) && Enabled(v, events[k])
  }

  /** The run has a step that seals the fate of the request. */
  ghost predicate Sealed(env: Requests, w: World, events: seq<Event>, r: nat, fate: Fate) {
    exists k: nat, v :: At(env, w, events, k, v) && Cause(env, v, events[k], r, fate)
  }

  lemma SealedFirst(env: Requests, w: World, events: seq<Event>, r: nat, fate: Fate)
    requires events != [] && Enabled(w, events[0]) && Cause(env, w, events[0], r, fate)
    ensures Sealed(env, w, events, r, fate)
  {
    assert At(env, w, events, 0, w);
  }

  lemma SealedLater(env: Requests, w: World, e: Event, events: seq<Event>, r: nat, fate: Fate)
    requires Pointing(w) && Enabled(w, e) && Sealed(env, Step(env, w, e), events, r, fate)
    ensures Sealed(env, w, [e] + events, r, fate)
  {
    var k: nat, v :| At(env, Step(env, w, e), events, k, v) && Cause(env, v, events[k], r, fate);
    Prepend(env, w, e, events[..k], v);
    assert ([e] + events)[..k + 1] == [e] + events[..k];
    assert At(env, w, [e] + events, k + 1, v);
  }

  lemma SealedSplit(env: Requests, w: World, e: Event, events: seq<Event>, r: nat, fate: Fate)
    requires Pointing(w) && Enabled(w, e) && Sealed(env, w, [e] + events, r, fate)
    ensures Cause(env, w, e, r, fate) || Sealed(env, Step(env, w, e), events, r, fate)
  {
    var k: nat, v :| At(env, w, [e] + events, k, v) && Cause(env, v, ([e] + events)[k], r, fate);
    if k > 0 {
      assert ([e] + events)[..k][1..] == events[..k - 1];
      assert At(env, Step(env, w, e), events, k - 1, v);
    }
  }

  lemma SealedStep(env: Requests, w: World, e: Event, events: seq<Event>, r: nat, fate: Fate)
    requires Pointing(w) && Enabled(w, e)
    ensures Sealed(env, w, [e] + events, r, fate)
       <==> Cause(env, w, e, r, fate) || Sealed(env, Step(env, w, e), events, r, fate)
  {
    if Cause(env, w, e, r, fate) { SealedFirst(env, w, [e] + events, r, fate); }
    if Sealed(env, Step(env, w, e), events, r, fate) { SealedLater(env, w, e, events, r, fate); }
    if Sealed(env, w, [e] + events, r, fate) { SealedSplit(env, w, e, events, r, fate); }
  }

  lemma {:induction false} RunSeals(env: Requests, db: DB, w: World, events: seq<Event>, w': World, r: nat, fate: Fate)
    requires Inv(env, db, w) && SchedulerProofs.Run(env, w, events, w')
    ensures Met(w', r, fate) <==> Met(w, r, fate) || Sealed(env, w, events, r, fate)
    decreases events
  {
    if events != [] {
      StepSeals(env, w, events[0], r);
      StepKeeps(env, db, w, events[0]);
      RunSeals(env, db, Step(env, w, events[0]), events[1..], w', r, fate);
      SealedStep(env, w, events[0], events[1..], r, fate);
      assert events == [events[0]] + events[1..];
    }
  }

  /** Over every run: a request is in the history, fails or has left its batch exactly if the run has a step that
      is a cause for it. */
  lemma EveryFate(env: Requests, db: DB, locker: bool, events: seq<Event>, w: World, r: nat, fate: Fate)
    requires SchedulerProofs.Run(env, Scheduler.Init(locker, db), events, w)
    ensures Met(w, r, fate) <==> Sealed(env, Scheduler.Init(locker, db), events, r, fate)
  {
    InitInv(env, db, locker);
    RunSeals(env, db, Scheduler.Init(locker, db), events, w, r, fate);
  }

  predicate CommitFails(e: Event) {
    (e.Attempt? || e.SoloAttempt?) && e.commitFails
  }

  /** The request is alone in its transaction and its update fails on the database as it is. */
  ghost predicate FailsAlone(env: Requests, v: World, e: Event, r: nat) {
    e == SoloAttempt(r, false) && CallerIs(v, r, SoloLocked) && env.update(r)(v.db) == None
  }

  /** Over every run without a commit failure: a call that returned an error was alone in its transaction at some
      point of the run, and its own update failed on the database of that moment. */
  lemma OnlyItsOwnFault(env: Requests, db: DB, locker: bool, events: seq<Event>, w: World, r: nat)
    requires SchedulerProofs.Run(env, Scheduler.Init(locker, db), events, w) && CallerIs(w, r, Returned(false))
    requires forall i :: 0 <= i < |events| ==> !CommitFails(events[i])
    ensures exists k: nat, v ::
      At(env, Scheduler.Init(locker, db), events, k, v) && FailsAlone(env, v, events[k], r)
  {
    EveryFate(env, db, locker, events, w, r, Fails);
    var k: nat, v :| At(env, Scheduler.Init(locker, db), events, k, v) && Cause(env, v, events[k], r, Fails);
    assert !CommitFails(events[k]);
  }
}
