/** Every step of the scheduler keeps its invariant. */
module SchedulerProofs {
  import opened Options
  import opened Batch
  import opened Scheduler

  // ----- a batch moves to another phase and nothing else happens to its requests

  /** w' is w after a batch has changed phase, apart from the scheduler's pointer and the lock. */
  ghost predicate Moved(w: World, w': World, b: nat) {
    && b < |w.batches| == |w'.batches| && w'.batches == w.batches[b := w'.batches[b]]
    && w'.batches[b].reqs == w.batches[b].reqs
    && w'.callers == w.callers && w'.joined == w.joined
    && w'.locker == w.locker && w'.reported == w.reported
  }

  lemma MovedPlaced(w: World, w': World, b: nat)
    requires Placed(w) && Moved(w, w', b)
    ensures Placed(w')
  {}

  lemma MovedTold(w: World, w': World, b: nat)
    requires Told(w) && Moved(w, w', b)
    requires forall i :: 0 <= i < |w.batches[b].reqs| ==>
      Expected(w'.batches[b].phase, i) == Expected(w.batches[b].phase, i)
    ensures Told(w')
  {
    forall c, i | 0 <= c < |w'.batches| && 0 <= i < |w'.batches[c].reqs|
      ensures CallerIs(w', w'.batches[c].reqs[i], Expected(w'.batches[c].phase, i))
    {
      assert CallerIs(w, w.batches[c].reqs[i], Expected(w.batches[c].phase, i));
    }
  }

  predicate Reaches(p: Phase) {
    p.Reporting? && p.ok
  }

  lemma MovedRecorded(w: World, w': World, b: nat)
    requires Placed(w) && Placed(w') && Recorded(w) && Moved(w, w', b)
    requires w'.history == w.history && (Reaches(w'.batches[b].phase) <==> Reaches(w.batches[b].phase))
    ensures Recorded(w')
  {
    forall r ensures Committed(w', r) <==> Committed(w, r) {}
  }

  // ----- the steps before the transaction

  lemma TriggerKeeps(env: Requests, db: DB, w: World, w': World, b: nat)
    requires Inv(env, db, w) && b < |w.batches| && w' == Triggered(w, b)
    ensures Inv(env, db, w')
  {
    if w.batches[b].phase == Collecting {
      MovedPlaced(w, w', b);
      MovedTold(w, w', b);
      MovedRecorded(w, w', b);
      OpenMoved(w, w', b);
      ExclusiveMoved(w, w', b);
    }
  }

  lemma OpenMoved(w: World, w': World, b: nat)
    requires Open(w) && b < |w.batches| && |w'.batches| == |w.batches| && w'.batches == w.batches[b := w'.batches[b]]
    requires OpenPhase(w'.batches[b].phase) <==> w'.current == Some(b)
    requires w'.current == w.current || (w.current == Some(b) && w'.current == None)
    requires w'.batches[b].starts == if w'.batches[b].phase.Collecting? then 0 else 1
    ensures Open(w')
  {}

  /** The lock changes hands with the phase of the batch. */
  lemma ExclusiveMoved(w: World, w': World, b: nat)
    requires Exclusive(w) && Moved(w, w', b)
    requires LockedPhase(w'.batches[b].phase) == LockedPhase(w.batches[b].phase) && w'.lock == w.lock
    ensures Exclusive(w')
  {}

  lemma ClearKeeps(env: Requests, db: DB, w: World, w': World, b: nat)
    requires Inv(env, db, w) && PhaseIs(w, b, Clearing) && w' == Cleared(w, b)
    ensures Inv(env, db, w')
  {
    MovedPlaced(w, w', b);
    MovedTold(w, w', b);
    MovedRecorded(w, w', b);
    OpenMoved(w, w', b);
    ExclusiveMoved(w, w', b);
  }

  lemma AcquireKeeps(env: Requests, db: DB, w: World, w': World, b: nat)
    requires Inv(env, db, w) && PhaseIs(w, b, Locking) && LockFree(w)
    requires w' == Lock(SetPhase(w, b, Running), ByBatch(b))
    ensures Inv(env, db, w')
  {
    MovedPlaced(w, w', b);
    MovedTold(w, w', b);
    MovedRecorded(w, w', b);
    OpenMoved(w, w', b);
    AcquireExclusive(w, w', b);
  }

  lemma AcquireExclusive(w: World, w': World, b: nat)
    requires Exclusive(w) && PhaseIs(w, b, Locking) && LockFree(w)
    requires w' == Lock(SetPhase(w, b, Running), ByBatch(b))
    ensures Exclusive(w')
  {}

  // ----- joining a batch

  lemma SubmitKeeps(env: Requests, db: DB, w: World, w': World, r: nat)
    requires Inv(env, db, w) && r !in w.callers && w' == Submitted(w, r)
    ensures Inv(env, db, w')
  {
    SubmitOpen(w, w', r);
    SubmitPlaced(w, w', r);
    SubmitTold(w, w', r);
    SubmitRecorded(w, w', r);
    SubmitExclusive(w, w', r);
    SubmitOrder(w, w', r);
  }

  lemma SubmitOpen(w: World, w': World, r: nat)
    requires Open(w) && w' == Submitted(w, r)
    ensures Open(w')
  {}

  lemma SubmitPlaced(w: World, w': World, r: nat)
    requires Open(w) && Placed(w) && r !in w.callers && w' == Submitted(w, r)
    ensures Placed(w')
  {
    if w.current.None? { SubmitFirst(w, w', r); } else { SubmitNext(w, w', r); }
  }

  lemma SubmitFirst(w: World, w': World, r: nat)
    requires Placed(w) && w.current.None? && r !in w.callers && w' == Submitted(w, r)
    ensures Placed(w')
  {}

  lemma SubmitNext(w: World, w': World, r: nat)
    requires Open(w) && Placed(w) && w.current.Some? && r !in w.callers && w' == Submitted(w, r)
    ensures Placed(w')
  {
    var b := w.current.value;
    assert r !in w.batches[b].reqs;
  }

  lemma SubmitTold(w: World, w': World, r: nat)
    requires Open(w) && Placed(w) && Told(w) && r !in w.callers && w' == Submitted(w, r)
    ensures Told(w')
  {
    forall c, i | 0 <= c < |w'.batches| && 0 <= i < |w'.batches[c].reqs|
      ensures CallerIs(w', w'.batches[c].reqs[i], Expected(w'.batches[c].phase, i))
    {
      if c < |w.batches| && i < |w.batches[c].reqs| {
        assert CallerIs(w, w.batches[c].reqs[i], Expected(w.batches[c].phase, i));
      }
    }
  }

  lemma SubmitRecorded(w: World, w': World, r: nat)
    requires Open(w) && Placed(w) && Placed(w') && Recorded(w) && r !in w.callers && w' == Submitted(w, r)
    ensures Recorded(w')
  {
    assert w.current.Some? ==> OpenPhase(w.batches[w.current.value].phase);
    forall q | q in w.callers ensures Committed(w', q) <==> Committed(w, q) {
      assert w'.joined[q] == w.joined[q] && w'.batches[w.joined[q]].phase == w.batches[w.joined[q]].phase;
    }
  }

  lemma SubmitExclusive(w: World, w': World, r: nat)
    requires Open(w) && Exclusive(w) && r !in w.callers && w' == Submitted(w, r)
    ensures Exclusive(w')
  {}

  lemma SubmitOrder(w: World, w': World, r: nat)
    requires Open(w) && ReportBounds(w) && InOrder(w) && r !in w.callers && w' == Submitted(w, r)
    ensures ReportBounds(w') && InOrder(w')
  {
    if w.current.Some? { assert OpenPhase(w.batches[w.current.value].phase); }
    assert Pending(w') == Pending(w);
  }

  // ----- the transactions of a batch

  lemma EmptyKeeps(env: Requests, db: DB, w: World, w': World, b: nat)
    requires Inv(env, db, w) && PhaseIs(w, b, Running) && w.batches[b].reqs == []
    requires w' == Unlock(SetPhase(w, b, Finished(false)))
    ensures Inv(env, db, w')
  {
    MovedPlaced(w, w', b);
    MovedTold(w, w', b);
    MovedRecorded(w, w', b);
    OpenMoved(w, w', b);
    ReleaseExclusive(w, w', b, false);
  }

  lemma ReleaseExclusive(w: World, w': World, b: nat, ok: bool)
    requires Exclusive(w) && b < |w.batches| && LockedPhase(w.batches[b].phase)
    requires w' == Unlock(SetPhase(w, b, Finished(ok)))
    ensures Exclusive(w')
  {}

  /** Taking a failing request out of the batch. */
  function Extracted(w: World, b: nat, i: nat): World
    requires b < |w.batches| && i < |w.batches[b].reqs|
  {
    SetBatch(w, b, w.batches[b].(reqs := SwapRemove(w.batches[b].reqs, i)))
      .(callers := w.callers[w.batches[b].reqs[i] := Solo])
  }

  lemma SwapRemoveEntries(reqs: seq<nat>, i: nat)
    requires i < |reqs| && NoRepeats(reqs)
    ensures NoRepeats(SwapRemove(reqs, i))
    ensures forall r :: r in SwapRemove(reqs, i) <==> r in reqs && r != reqs[i]
  {
    var s := SwapRemove(reqs, i);
    forall r | r in reqs && r != reqs[i] ensures r in s {
      var k :| 0 <= k < |reqs| && reqs[k] == r;
      if k == |reqs| - 1 { assert s[i] == r; } else { assert s[k] == r; }
    }
  }

  lemma ExtractPlaced(w: World, w': World, b: nat, i: nat)
    requires Placed(w) && b < |w.batches| && i < |w.batches[b].reqs| && w' == Extracted(w, b, i)
    ensures Placed(w')
  {
    SwapRemoveEntries(w.batches[b].reqs, i);
    forall c, k | 0 <= c < |w'.batches| && 0 <= k < |w'.batches[c].reqs|
      ensures w'.batches[c].reqs[k] in w'.joined && w'.joined[w'.batches[c].reqs[k]] == c
    {
      assert w'.batches[c].reqs[k] in w.batches[c].reqs;
    }
  }

  lemma ExtractTold(w: World, w': World, b: nat, i: nat)
    requires Placed(w) && Told(w) && PhaseIs(w, b, Running) && i < |w.batches[b].reqs| && w' == Extracted(w, b, i)
    ensures Told(w')
  {
    var out := w.batches[b].reqs[i];
    SwapRemoveEntries(w.batches[b].reqs, i);
    forall c, k | 0 <= c < |w'.batches| && 0 <= k < |w'.batches[c].reqs|
      ensures CallerIs(w', w'.batches[c].reqs[k], Expected(w'.batches[c].phase, k))
    {
      var r := w'.batches[c].reqs[k];
      if c == b {
        var j :| 0 <= j < |w.batches[b].reqs| && w.batches[b].reqs[j] == r;
        assert CallerIs(w, w.batches[b].reqs[j], Expected(Running, j));
      } else {
        assert w.joined[r] == c && w.joined[out] == b;
        assert CallerIs(w, w.batches[c].reqs[k], Expected(w.batches[c].phase, k));
      }
    }
  }

  lemma ExtractRecorded(w: World, w': World, b: nat, i: nat)
    requires Placed(w) && Placed(w') && Told(w) && Recorded(w)
    requires PhaseIs(w, b, Running) && i < |w.batches[b].reqs| && w' == Extracted(w, b, i)
    ensures Recorded(w')
  {
    var out := w.batches[b].reqs[i];
    assert CallerIs(w, out, Expected(Running, i));
    forall r ensures Committed(w', r) <==> Committed(w, r) {}
  }

  lemma ExtractExclusive(w: World, w': World, b: nat, i: nat)
    requires Exclusive(w) && Told(w) && PhaseIs(w, b, Running) && i < |w.batches[b].reqs| && w' == Extracted(w, b, i)
    ensures Exclusive(w')
  {
    assert CallerIs(w, w.batches[b].reqs[i], Expected(Running, i));
  }

  lemma ExtractKeeps(env: Requests, db: DB, w: World, w': World, b: nat, i: nat)
    requires Inv(env, db, w) && PhaseIs(w, b, Running) && i < |w.batches[b].reqs| && w' == Extracted(w, b, i)
    ensures Inv(env, db, w')
  {
    ExtractPlaced(w, w', b, i);
    ExtractTold(w, w', b, i);
    ExtractRecorded(w, w', b, i);
    ExtractExclusive(w, w', b, i);
    assert CallerIs(w, w.batches[b].reqs[i], Expected(Running, i));
    assert Pending(w') == Pending(w);
  }

  lemma CommitFailsKeeps(env: Requests, db: DB, w: World, w': World, b: nat)
    requires Inv(env, db, w) && PhaseIs(w, b, Running) && w' == SetPhase(w, b, Reporting(0, false))
    ensures Inv(env, db, w')
  {
    MovedPlaced(w, w', b);
    MovedTold(w, w', b);
    MovedRecorded(w, w', b);
    OpenMoved(w, w', b);
    ExclusiveMoved(w, w', b);
  }

  lemma CommitRecorded(w: World, w': World, b: nat, db': DB)
    requires Placed(w) && Placed(w') && Told(w) && Recorded(w) && PhaseIs(w, b, Running)
    requires w' == SetPhase(w, b, Reporting(0, true)).(db := db', history := w.history + w.batches[b].reqs)
    ensures Recorded(w')
  {
    var reqs := w.batches[b].reqs;
    forall i | 0 <= i < |reqs| ensures reqs[i] !in w.history && Committed(w', reqs[i]) {
      assert CallerIs(w, reqs[i], Expected(Running, i));
    }
    forall r ensures Committed(w', r) <==> Committed(w, r) || r in reqs {}
  }

  lemma CommitKeeps(env: Requests, db: DB, w: World, w': World, b: nat, db': DB)
    requires Inv(env, db, w) && PhaseIs(w, b, Running) && ApplyAll(env, w.db, w.batches[b].reqs) == Applied(db')
    requires w' == SetPhase(w, b, Reporting(0, true)).(db := db', history := w.history + w.batches[b].reqs)
    ensures Inv(env, db, w')
  {
    MovedPlaced(w, w', b);
    MovedTold(w, w', b);
    CommitRecorded(w, w', b, db');
    OpenMoved(w, w', b);
    ExclusiveMoved(w, w', b);
    SerialAppend(env, db, w.history, w.db, w.batches[b].reqs, db');
    CommitOrder(w, w', b, db');
  }

  lemma CommitOrder(w: World, w': World, b: nat, db': DB)
    requires Exclusive(w) && InOrder(w) && PhaseIs(w, b, Running)
    requires w' == SetPhase(w, b, Reporting(0, true)).(db := db', history := w.history + w.batches[b].reqs)
    ensures InOrder(w')
  {
    if w.locker {
      assert w.lock == Some(ByBatch(b)) && Pending(w) == [];
      assert w.batches[b].reqs[0..] == w.batches[b].reqs;
      assert w.reported + [] == w.reported;
    }
  }

  lemma AttemptKeeps(env: Requests, db: DB, w: World, w': World, b: nat, commitFails: bool)
    requires Inv(env, db, w) && PhaseIs(w, b, Running) && w' == Attempted(env, w, b, commitFails)
    ensures Inv(env, db, w')
  {
    var reqs := w.batches[b].reqs;
    FailsInRange(env, w.db, reqs);
    if reqs == [] {
      EmptyKeeps(env, db, w, w', b);
    } else {
      match ApplyAll(env, w.db, reqs)
      case FailedAt(i) => ExtractKeeps(env, db, w, w', b, i);
      case Applied(db') =>
        if commitFails { CommitFailsKeeps(env, db, w, w', b); } else { CommitKeeps(env, db, w, w', b, db'); }
    }
  }

  // ----- handing out the commit error

  /** The state after the next request of the batch has been told. */
  ghost predicate ToldNext(w: World, w': World, b: nat, i: nat, ok: bool) {
    && PhaseIs(w, b, Reporting(i, ok)) && i < |w.batches[b].reqs|
    && w' == SetPhase(w, b, Reporting(i + 1, ok))
               .(callers := w.callers[w.batches[b].reqs[i] := Returned(ok)],
                 reported := if ok then w.reported + [w.batches[b].reqs[i]] else w.reported)
  }

  lemma ReportPlaced(w: World, w': World, b: nat, i: nat, ok: bool)
    requires Placed(w) && ToldNext(w, w', b, i, ok)
    ensures Placed(w')
  {}

  lemma ReportTold(w: World, w': World, b: nat, i: nat, ok: bool)
    requires Placed(w) && Told(w) && ToldNext(w, w', b, i, ok)
    ensures Told(w')
  {
    var out := w.batches[b].reqs[i];
    forall c, k | 0 <= c < |w'.batches| && 0 <= k < |w'.batches[c].reqs|
      ensures CallerIs(w', w'.batches[c].reqs[k], Expected(w'.batches[c].phase, k))
    {
      assert CallerIs(w, w.batches[c].reqs[k], Expected(w.batches[c].phase, k));
      if w.batches[c].reqs[k] == out {
        assert w.joined[out] == c && w.joined[out] == b;
        assert k == i;
      }
    }
  }

  lemma ReportRecorded(w: World, w': World, b: nat, i: nat, ok: bool)
    requires Placed(w) && Placed(w') && Told(w) && Recorded(w) && ToldNext(w, w', b, i, ok)
    ensures Recorded(w')
  {
    assert CallerIs(w, w.batches[b].reqs[i], Expected(Reporting(i, ok), i));
    forall r ensures Committed(w', r) <==> Committed(w, r) {}
  }

  lemma ReportExclusive(w: World, w': World, b: nat, i: nat, ok: bool)
    requires Exclusive(w) && Told(w) && ToldNext(w, w', b, i, ok)
    ensures Exclusive(w')
  {
    assert CallerIs(w, w.batches[b].reqs[i], Expected(Reporting(i, ok), i));
  }

  lemma ReportOrder(w: World, w': World, b: nat, i: nat, ok: bool)
    requires Exclusive(w) && InOrder(w) && ToldNext(w, w', b, i, ok)
    ensures InOrder(w')
  {
    if w.locker {
      var reqs := w.batches[b].reqs;
      assert w.lock == Some(ByBatch(b));
      assert reqs[i..] == [reqs[i]] + reqs[i + 1..];
    }
  }

  lemma ToldNextKeeps(env: Requests, db: DB, w: World, w': World, b: nat, i: nat, ok: bool)
    requires Inv(env, db, w) && ToldNext(w, w', b, i, ok)
    ensures Inv(env, db, w')
  {
    ReportPlaced(w, w', b, i, ok);
    ReportTold(w, w', b, i, ok);
    ReportRecorded(w, w', b, i, ok);
    ReportExclusive(w, w', b, i, ok);
    ReportOrder(w, w', b, i, ok);
    OpenMoved(w, w', b);
  }

  lemma FinishKeeps(env: Requests, db: DB, w: World, w': World, b: nat, ok: bool)
    requires Inv(env, db, w) && b < |w.batches| && PhaseIs(w, b, Reporting(|w.batches[b].reqs|, ok))
    requires w' == Unlock(SetPhase(w, b, Finished(ok)))
    ensures Inv(env, db, w')
  {
    MovedPlaced(w, w', b);
    MovedTold(w, w', b);
    FinishRecorded(w, w', b, ok);
    OpenMoved(w, w', b);
    ReleaseExclusive(w, w', b, ok);
    if w.locker { assert Pending(w) == [] && Pending(w') == []; }
  }

  lemma FinishRecorded(w: World, w': World, b: nat, ok: bool)
    requires Placed(w) && Placed(w') && Told(w) && Recorded(w)
    requires b < |w.batches| && PhaseIs(w, b, Reporting(|w.batches[b].reqs|, ok)) && w' == Unlock(SetPhase(w, b, Finished(ok)))
    ensures Recorded(w')
  {
    forall r ensures Committed(w', r) <==> Committed(w, r) {
      if CallerIs(w, r, Waiting) && w.joined[r] == b {
        var i :| 0 <= i < |w.batches[b].reqs| && w.batches[b].reqs[i] == r;
        assert CallerIs(w, w.batches[b].reqs[i], Expected(w.batches[b].phase, i));
      }
    }
  }

  lemma ReportTells(w: World, w': World, b: nat, i: nat, ok: bool)
    requires Told(w) && PhaseIs(w, b, Reporting(i, ok)) && i < |w.batches[b].reqs| && w' == Reported(w, b)
    ensures ToldNext(w, w', b, i, ok)
  {
  }

  lemma ReportEnds(w: World, w': World, b: nat, i: nat, ok: bool)
    requires PhaseIs(w, b, Reporting(i, ok)) && ReportBounds(w) && i >= |w.batches[b].reqs| && w' == Reported(w, b)
    ensures i == |w.batches[b].reqs| && w' == Unlock(SetPhase(w, b, Finished(ok)))
  {
  }

  lemma ReportKeeps(env: Requests, db: DB, w: World, w': World, b: nat)
    requires Inv(env, db, w) && b < |w.batches| && w.batches[b].phase.Reporting? && w' == Reported(w, b)
    ensures Inv(env, db, w')
  {
    var Reporting(i, ok) := w.batches[b].phase;
    if i < |w.batches[b].reqs| {
      ReportTells(w, w', b, i, ok);
      ToldNextKeeps(env, db, w, w', b, i, ok);
    } else {
      ReportEnds(w, w', b, i, ok);
      FinishKeeps(env, db, w, w', b, ok);
    }
  }

  // ----- solo re-runs

  /** A caller that is in no batch changes its state; neither of the two states is Waiting. */
  ghost predicate SoloMoved(w: World, w': World, r: nat) {
    && r in w.callers && r in w'.callers && w'.callers == w.callers[r := w'.callers[r]]
    && !w.callers[r].Waiting? && !w.callers[r].Returned? && !w'.callers[r].Waiting?
    && w'.batches == w.batches && w'.joined == w.joined && w'.current == w.current && w'.locker == w.locker
  }

  lemma SoloPlaced(w: World, w': World, r: nat)
    requires Open(w) && Placed(w) && Told(w) && ReportBounds(w) && SoloMoved(w, w', r)
    ensures Open(w') && Placed(w') && Told(w') && ReportBounds(w')
  {
    forall c, k | 0 <= c < |w'.batches| && 0 <= k < |w'.batches[c].reqs|
      ensures CallerIs(w', w'.batches[c].reqs[k], Expected(w'.batches[c].phase, k))
    {
      assert CallerIs(w, w.batches[c].reqs[k], Expected(w.batches[c].phase, k));
    }
  }

  lemma SoloRecorded(w: World, w': World, r: nat, commits: bool)
    requires Placed(w) && Placed(w') && Recorded(w) && SoloMoved(w, w', r)
    requires Committed(w', r) <==> commits || Committed(w, r)
    requires commits ==> !Committed(w, r)
    requires w'.history == if commits then w.history + [r] else w.history
    ensures Recorded(w')
  {
    forall q ensures Committed(w', q) <==> Committed(w, q) || (commits && q == r) {}
  }

  lemma SoloAcquireKeeps(env: Requests, db: DB, w: World, w': World, r: nat)
    requires Inv(env, db, w) && CallerIs(w, r, Solo) && LockFree(w)
    requires w' == Lock(w, BySolo(r)).(callers := w.callers[r := SoloLocked])
    ensures Inv(env, db, w')
  {
    SoloPlaced(w, w', r);
    SoloRecorded(w, w', r, false);
    if w.locker { assert Pending(w) == [] && Pending(w') == []; }
  }

  lemma SoloFailsKeeps(env: Requests, db: DB, w: World, w': World, r: nat)
    requires Inv(env, db, w) && CallerIs(w, r, SoloLocked) && w' == w.(callers := w.callers[r := SoloDone(false)])
    ensures Inv(env, db, w')
  {
    SoloPlaced(w, w', r);
    SoloRecorded(w, w', r, false);
    SoloExclusive(w, w', r);
    SoloFailsOrder(w, w', r);
  }

  lemma SoloFailsOrder(w: World, w': World, r: nat)
    requires Exclusive(w) && InOrder(w) && CallerIs(w, r, SoloLocked)
    requires w' == w.(callers := w.callers[r := SoloDone(false)])
    ensures InOrder(w')
  {
    if w.locker { assert w.lock == Some(BySolo(r)); }
  }

  lemma SoloCommitKeeps(env: Requests, db: DB, w: World, w': World, r: nat, db': DB)
    requires Inv(env, db, w) && CallerIs(w, r, SoloLocked) && env.update(r)(w.db) == Some(db')
    requires w' == w.(callers := w.callers[r := SoloDone(true)], db := db', history := w.history + [r])
    ensures Inv(env, db, w')
  {
    SoloPlaced(w, w', r);
    SoloRecorded(w, w', r, true);
    SoloExclusive(w, w', r);
    SoloSerial(env, db, w.history, w.db, r, db');
    SoloCommitOrder(w, w', r);
  }

  lemma SoloCommitOrder(w: World, w': World, r: nat)
    requires Exclusive(w) && InOrder(w) && CallerIs(w, r, SoloLocked)
    requires w' == w.(callers := w.callers[r := SoloDone(true)], db := w'.db, history := w.history + [r])
    ensures InOrder(w')
  {
    if w.locker { assert Pending(w) == [] && Pending(w') == [r]; }
  }

  lemma SoloExclusive(w: World, w': World, r: nat)
    requires Exclusive(w) && CallerIs(w, r, SoloLocked) && SoloMoved(w, w', r)
    requires w'.lock == w.lock && w'.callers[r].SoloDone?
    ensures Exclusive(w')
  {}

  lemma SoloSerial(env: Requests, db: DB, h: seq<nat>, db1: DB, r: nat, db2: DB)
    requires Serial(env, db, h, db1) && env.update(r)(db1) == Some(db2)
    ensures Serial(env, db, h + [r], db2)
  {
    assert (h + [r])[..|h|] == h;
  }

  lemma SoloReportKeeps(env: Requests, db: DB, w: World, w': World, r: nat)
    requires Inv(env, db, w) && r in w.callers && w.callers[r].SoloDone? && w' == SoloReported(w, r)
    ensures Inv(env, db, w')
  {
    SoloPlaced(w, w', r);
    SoloRecorded(w, w', r, false);
    SoloReleased(w, w', r);
    SoloReportOrder(w, w', r);
  }

  lemma SoloReleased(w: World, w': World, r: nat)
    requires Exclusive(w) && r in w.callers && w.callers[r].SoloDone? && w' == SoloReported(w, r)
    ensures Exclusive(w')
  {
  }

  lemma SoloReportOrder(w: World, w': World, r: nat)
    requires Exclusive(w) && InOrder(w) && r in w.callers && w.callers[r].SoloDone? && w' == SoloReported(w, r)
    ensures InOrder(w')
  {
    if w.locker { assert Pending(w) == (if w.callers[r].ok then [r] else []) && Pending(w') == []; }
  }

  lemma SoloAttemptKeeps(env: Requests, db: DB, w: World, w': World, r: nat, commitFails: bool)
    requires Inv(env, db, w) && CallerIs(w, r, SoloLocked) && w' == SoloAttempted(env, w, r, commitFails)
    ensures Inv(env, db, w')
  {
    match env.update(r)(w.db)
    case None => SoloFailsKeeps(env, db, w, w', r);
    case Some(db') =>
      if commitFails { SoloFailsKeeps(env, db, w, w', r); } else { SoloCommitKeeps(env, db, w, w', r, db'); }
  }

  // ----- runs

  lemma StepKeeps(env: Requests, db: DB, w: World, e: Event)
    requires Inv(env, db, w) && Enabled(w, e)
    ensures Inv(env, db, Step(env, w, e))
  {
    var w' := Step(env, w, e);
    match e
    case Submit(r) => SubmitKeeps(env, db, w, w', r);
    case Trigger(b) => TriggerKeeps(env, db, w, w', b);
    case Clear(b) => ClearKeeps(env, db, w, w', b);
    case Acquire(b) => AcquireKeeps(env, db, w, w', b);
    case Attempt(b, commitFails) => AttemptKeeps(env, db, w, w', b, commitFails);
    case Report(b) => ReportKeeps(env, db, w, w', b);
    case SoloAcquire(r) => SoloAcquireKeeps(env, db, w, w', r);
    case SoloAttempt(r, commitFails) => SoloAttemptKeeps(env, db, w, w', r, commitFails);
    case SoloReport(r) => SoloReportKeeps(env, db, w, w', r);
  }

  ghost predicate Run(env: Requests, w: World, events: seq<Event>, w': World)
    decreases events
  {
    if events == [] then w == w'
    else Pointing(w) && Enabled(w, events[0]) && Run(env, Step(env, w, events[0]), events[1..], w')
  }

  lemma {:induction false} RunKeeps(env: Requests, db: DB, w: World, events: seq<Event>, w': World)
    requires Inv(env, db, w) && Run(env, w, events, w')
    ensures Inv(env, db, w')
    decreases events
  {
    if events != [] {
      StepKeeps(env, db, w, events[0]);
      RunKeeps(env, db, Step(env, w, events[0]), events[1..], w');
    }
  }

  lemma InitInv(env: Requests, db: DB, locker: bool)
    ensures Inv(env, db, Scheduler.Init(locker, db))
  {}

  /** No request is listed twice, in one batch or in two. */
  ghost predicate OnlyOnce(w: World) {
    forall b, c, i, j :: Listed(w, b, i) && Listed(w, c, j) ==>
      w.batches[b].reqs[i] == w.batches[c].reqs[j] ==> b == c && i == j
  }

  predicate Listed(w: World, b: int, i: int) {
    0 <= b < |w.batches| && 0 <= i < |w.batches[b].reqs|
  }

  /** What holds after every interleaving of any number of calls. */
  lemma EveryRun(env: Requests, db: DB, locker: bool, events: seq<Event>, w: World)
    requires Run(env, Scheduler.Init(locker, db), events, w)
    // the database is a serial application of requests, each at most once
    ensures AllApply(env, db, w.history, w.db) && NoRepeats(w.history)
    // a call that has returned was told exactly whether its update is in that history
    ensures forall r :: r in w.callers && w.callers[r].Returned? ==> (w.callers[r].ok <==> r in w.history)
    // a request told to run solo has left no effect of the batch behind
    ensures forall r :: CallerIs(w, r, Solo) ==> r !in w.history
    // no request is lost, and none is in two places
    ensures forall r :: CallerIs(w, r, Waiting) ==>
      r in w.joined && w.joined[r] < |w.batches| && r in w.batches[w.joined[r]].reqs
    ensures OnlyOnce(w)
    // a batch is run once at most
    ensures forall b :: 0 <= b < |w.batches| ==> w.batches[b].starts <= 1
    // OnCommit closures run in commit order; all of them have run whenever the lock is free
    ensures locker ==> w.reported <= w.history && (w.lock.None? ==> w.reported == w.history)
  {
    InitInv(env, db, locker);
    RunKeeps(env, db, Scheduler.Init(locker, db), events, w);
    SameLocker(env, Scheduler.Init(locker, db), events, w);
    AppliesInChain(env, db, w.history);
    ReturnedTruth(w);
    OnePlace(w);
    if locker { assert w.lock.None? ==> w.reported + [] == w.reported; }
  }

  lemma ReturnedTruth(w: World)
    requires Placed(w) && Recorded(w)
    ensures forall r :: r in w.callers && w.callers[r].Returned? ==> (w.callers[r].ok <==> r in w.history)
    ensures forall r :: CallerIs(w, r, Solo) ==> r !in w.history
  {
    forall r | r in w.callers ensures r in w.history <==> Committed(w, r) {}
  }

  lemma OnePlace(w: World)
    requires Placed(w)
    ensures OnlyOnce(w)
  {}

  lemma {:induction false} SameLocker(env: Requests, w: World, events: seq<Event>, w': World)
    requires Run(env, w, events, w')
    ensures w'.locker == w.locker
    decreases events
  {
    if events != [] { SameLocker(env, Step(env, w, events[0]), events[1..], w'); }
  }

  /** A request always joins a batch that has not been cleared. */
  lemma JoinsOpenBatch(env: Requests, db: DB, w: World, r: nat)
    requires Inv(env, db, w) && r !in w.callers
    ensures var w' := Submitted(w, r);
      && r in w'.joined && OpenPhase(w'.batches[w'.joined[r]].phase)
      && r in w'.batches[w'.joined[r]].reqs
  {
    if w.current.Some? { assert OpenPhase(w.batches[w.current.value].phase); }
  }

  // ----- without a lock

  lemma Prepend(env: Requests, w: World, e: Event, events: seq<Event>, w': World)
    requires Pointing(w) && Enabled(w, e) && Run(env, Step(env, w, e), events, w')
    ensures Run(env, w, [e] + events, w')
  {
    assert ([e] + events)[1..] == events;
  }

  /** A batch of one request, from its submission to its commit. */
  lemma CommitStates(env: Requests, w: World, b: nat, r: nat, d: DB, w1: World, w2: World, w3: World, w4: World)
    requires !w.locker && w.current == None && Open(w) && b == |w.batches| && r !in w.callers
    requires env.update(r)(w.db) == Some(d)
    requires w1 == Submitted(w, r) && w2 == Triggered(w1, b) && w3 == Cleared(w2, b) && w4 == SetPhase(w3, b, Running)
    ensures Open(w1) && Open(w2) && Open(w3) && Open(w4)
    ensures w2.batches[b].phase == Clearing && w3.batches[b].phase == Locking && w4.batches[b].phase == Running
    ensures Attempted(env, w4, b, false) == AfterCommit(w, r, d)
  {
    assert [r][..0] == [];
    assert ApplyAll(env, w.db, [r]) == Applied(d);
    assert w4.batches == w.batches + [BatchState([r], Running, 1)];
    assert Attempted(env, w4, b, false).batches == w.batches + [BatchState([r], Reporting(0, true), 1)];
  }

  lemma CommitAlone(env: Requests, w: World, b: nat, r: nat, d: DB, rest: seq<Event>, w': World)
    requires !w.locker && w.current == None && Open(w) && b == |w.batches| && r !in w.callers
    requires env.update(r)(w.db) == Some(d)
    requires Run(env, AfterCommit(w, r, d), rest, w')
    ensures Run(env, w, CommitEvents(b, r) + rest, w')
  {
    var w1 := Submitted(w, r);
    var w2 := Triggered(w1, b);
    var w3 := Cleared(w2, b);
    var w4 := SetPhase(w3, b, Running);
    CommitStates(env, w, b, r, d, w1, w2, w3, w4);
    Prepend(env, w4, Attempt(b, false), rest, w');
    Prepend(env, w3, Acquire(b), [Attempt(b, false)] + rest, w');
    Prepend(env, w2, Clear(b), [Acquire(b)] + ([Attempt(b, false)] + rest), w');
    Prepend(env, w1, Trigger(b), [Clear(b)] + ([Acquire(b)] + ([Attempt(b, false)] + rest)), w');
    Prepend(env, w, Submit(r), [Trigger(b)] + ([Clear(b)] + ([Acquire(b)] + ([Attempt(b, false)] + rest))), w');
    assert CommitEvents(b, r) + rest
        == [Submit(r)] + ([Trigger(b)] + ([Clear(b)] + ([Acquire(b)] + ([Attempt(b, false)] + rest))));
  }

  function CommitEvents(b: nat, r: nat): seq<Event> {
    [Submit(r), Trigger(b), Clear(b), Acquire(b), Attempt(b, false)]
  }

  function AfterCommit(w: World, r: nat, d: DB): World {
    w.(batches := w.batches + [BatchState([r], Reporting(0, true), 1)], callers := w.callers[r := Waiting],
       joined := w.joined[r := |w.batches|], db := d, history := w.history + [r])
  }

  /** Requests whose updates never fail. */
  const HARMLESS := Requests(r => db => Some(db))

  /** Without a lock, a batch that commits second can report first. */
  lemma ReorderedWithoutLock(db: DB) returns (events: seq<Event>, w: World)
    ensures Run(HARMLESS, Scheduler.Init(false, db), events, w)
    ensures w.history == [1, 2] && w.reported == [2]
  {
    var w0 := Scheduler.Init(false, db);
    var w1 := AfterCommit(w0, 1, db);
    var w2 := AfterCommit(w1, 2, db);
    w := Reported(w2, 1);
    Prepend(HARMLESS, w2, Report(1), [], w);
    CommitAlone(HARMLESS, w1, 1, 2, db, [Report(1)] + [], w);
    CommitAlone(HARMLESS, w0, 0, 1, db, CommitEvents(1, 2) + ([Report(1)] + []), w);
    events := CommitEvents(0, 1) + (CommitEvents(1, 2) + ([Report(1)] + []));
  }

  /** In every run the OnCommit closures follow the order of the commits. */
  ghost predicate AlwaysInOrder(locker: bool) {
    forall env, db, events, w :: Run(env, Scheduler.Init(locker, db), events, w) ==> w.reported <= w.history
  }

  lemma OutOfOrder(env: Requests, db: DB, events: seq<Event>, w: World)
    requires Run(env, Scheduler.Init(false, db), events, w) && !(w.reported <= w.history)
    ensures !AlwaysInOrder(false)
  {}

  /** Cache updates made in OnCommit follow the commits exactly when a lock is supplied. */
  lemma OrderIffLocker(locker: bool)
    ensures AlwaysInOrder(locker) <==> locker
  {
    if locker {
      forall env, db, events, w | Run(env, Scheduler.Init(locker, db), events, w) ensures w.reported <= w.history {
        EveryRun(env, db, locker, events, w);
      }
    } else {
      var events, w := ReorderedWithoutLock(map[]);
      assert w.reported[0] != w.history[0];
      OutOfOrder(HARMLESS, map[], events, w);
    }
  }
}
