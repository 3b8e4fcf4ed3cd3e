/** TimeScheduler and its batches as a concurrent system: any number of callers of Execute, batches
    triggered by timers or at once, solo re-runs, and an optional cache lock. */
module Scheduler {
  import opened Options
  import opened Batch

  /** The life of a batch: collecting requests; started, but not yet cleared from its scheduler; waiting
      for the cache lock; running transactions; handing out the commit error; finished. */
  datatype Phase =
    | Collecting
    | Clearing
    | Locking
    | Running
    | Reporting(next: nat, ok: bool)
    | Finished(ok: bool)

  datatype BatchState = BatchState(reqs: seq<nat>, phase: Phase, starts: nat)

  /** A call of Execute: waiting for its batch; told to run solo; holding the cache lock for that; past
      its transaction; returned, with the fate of its update. */
  datatype Caller = Waiting | Solo | SoloLocked | SoloDone(ok: bool) | Returned(ok: bool)

  datatype Holder = ByBatch(b: nat) | BySolo(r: nat)

  /** `joined` records the batch that each request was appended to, `history` the order of the commits and
      `reported` the order in which their OnCommit closures were run. */
  datatype World = World(
    locker: bool,
    current: Option<nat>,
    batches: seq<BatchState>,
    callers: map<nat, Caller>,
    lock: Option<Holder>,
    db: DB,
    joined: map<nat, nat>,
    history: seq<nat>,
    reported: seq<nat>)

  function Init(locker: bool, db: DB): World {
    World(locker, None, [], map[], None, db, map[], [], [])
  }

  datatype Event =
    | Submit(r: nat)
    | Trigger(b: nat)
    | Clear(b: nat)
    | Acquire(b: nat)
    | Attempt(b: nat, commitFails: bool)
    | Report(b: nat)
    | SoloAcquire(r: nat)
    | SoloAttempt(r: nat, commitFails: bool)
    | SoloReport(r: nat)

  predicate PhaseIs(w: World, b: nat, p: Phase) {
    b < |w.batches| && w.batches[b].phase == p
  }

  predicate CallerIs(w: World, r: nat, c: Caller) {
    r in w.callers && w.callers[r] == c
  }

  predicate LockFree(w: World) {
    w.locker ==> w.lock.None?
  }

  /** A timer or a goroutine may trigger any batch at any time. */
  predicate Enabled(w: World, e: Event) {
    match e
    case Submit(r) => r !in w.callers
    case Trigger(b) => b < |w.batches|
    case Clear(b) => PhaseIs(w, b, Clearing)
    case Acquire(b) => PhaseIs(w, b, Locking) && LockFree(w)
    case Attempt(b, _) => PhaseIs(w, b, Running)
    case Report(b) => b < |w.batches| && w.batches[b].phase.Reporting?
    case SoloAcquire(r) => CallerIs(w, r, Solo) && LockFree(w)
    case SoloAttempt(r, _) => CallerIs(w, r, SoloLocked)
    case SoloReport(r) => r in w.callers && w.callers[r].SoloDone?
  }

  function SetBatch(w: World, b: nat, s: BatchState): World
    requires b < |w.batches|
  {
    w.(batches := w.batches[b := s])
  }

  function SetPhase(w: World, b: nat, p: Phase): World
    requires b < |w.batches|
  {
    SetBatch(w, b, w.batches[b].(phase := p))
  }

  function Lock(w: World, h: Holder): World {
    if w.locker then w.(lock := Some(h)) else w
  }

  function Unlock(w: World): World {
    w.(lock := None)
  }

  /** Execute up to the point where it waits. */
  function Submitted(w: World, r: nat): World
    requires Pointing(w)
  {
    if w.current.None? then
      w.(current := Some(|w.batches|), batches := w.batches + [BatchState([r], Collecting, 0)],
         callers := w.callers[r := Waiting], joined := w.joined[r := |w.batches|])
    else
      var b := w.current.value;
      SetBatch(w, b, w.batches[b].(reqs := w.batches[b].reqs + [r]))
        .(callers := w.callers[r := Waiting], joined := w.joined[r := b])
  }

  /** trigger: sync.Once starts run for the first caller only. */
  function Triggered(w: World, b: nat): World
    requires b < |w.batches|
  {
    if w.batches[b].phase == Collecting
    then SetBatch(w, b, w.batches[b].(phase := Clearing, starts := w.batches[b].starts + 1))
    else w
  }

  function Cleared(w: World, b: nat): World
    requires b < |w.batches|
  {
    SetPhase(w, b, Locking).(current := if w.current == Some(b) then None else w.current)
  }

  /** One pass of the loop in run: an empty batch is done; a failing request is taken out and told to run
      solo; otherwise the transaction commits or fails to commit. */
  function Attempted(env: Requests, w: World, b: nat, commitFails: bool): World
    requires b < |w.batches|
  {
    var reqs := w.batches[b].reqs;
    if reqs == [] then Unlock(SetPhase(w, b, Finished(false)))
    else
      match ApplyAll(env, w.db, reqs)
      case FailedAt(i) =>
        if i < |reqs| then
          SetBatch(w, b, w.batches[b].(reqs := SwapRemove(reqs, i))).(callers := w.callers[reqs[i] := Solo])
        else w
      case Applied(db') =>
        if commitFails then SetPhase(w, b, Reporting(0, false))
        else SetPhase(w, b, Reporting(0, true)).(db := db', history := w.history + reqs)
  }

  /** Handing the commit error to the next request, through its OnCommit closure if it has one; after the
      last one, run returns and releases the lock. */
  function Reported(w: World, b: nat): World
    requires b < |w.batches| && w.batches[b].phase.Reporting?
  {
    var BatchState(reqs, Reporting(i, ok), _) := w.batches[b];
    if i < |reqs| then
      SetPhase(w, b, Reporting(i + 1, ok))
        .(callers := w.callers[reqs[i] := Returned(ok)],
          reported := if ok then w.reported + [reqs[i]] else w.reported)
    else Unlock(SetPhase(w, b, Finished(ok)))
  }

  function SoloAttempted(env: Requests, w: World, r: nat, commitFails: bool): World {
    match env.update(r)(w.db)
    case None => w.(callers := w.callers[r := SoloDone(false)])
    case Some(db') =>
      if commitFails then w.(callers := w.callers[r := SoloDone(false)])
      else w.(callers := w.callers[r := SoloDone(true)], db := db', history := w.history + [r])
  }

  function SoloReported(w: World, r: nat): World
    requires r in w.callers && w.callers[r].SoloDone?
  {
    var ok := w.callers[r].ok;
    Unlock(w).(callers := w.callers[r := Returned(ok)], reported := if ok then w.reported + [r] else w.reported)
  }

  /** The scheduler's current batch is one of the batches. */
  predicate Pointing(w: World) {
    w.current.Some? ==> w.current.value < |w.batches|
  }

  function Step(env: Requests, w: World, e: Event): World
    requires Enabled(w, e) && Pointing(w)
  {
    match e
    case Submit(r) => Submitted(w, r)
    case Trigger(b) => Triggered(w, b)
    case Clear(b) => Cleared(w, b)
    case Acquire(b) => Lock(SetPhase(w, b, Running), ByBatch(b))
    case Attempt(b, commitFails) => Attempted(env, w, b, commitFails)
    case Report(b) => Reported(w, b)
    case SoloAcquire(r) => Lock(w, BySolo(r)).(callers := w.callers[r := SoloLocked])
    case SoloAttempt(r, commitFails) => SoloAttempted(env, w, r, commitFails)
    case SoloReport(r) => SoloReported(w, r)
  }

  // ----- the invariant

  predicate OpenPhase(p: Phase) {
    p.Collecting? || p.Clearing?
  }

  predicate LockedPhase(p: Phase) {
    p.Running? || p.Reporting?
  }

  predicate LockedCaller(c: Caller) {
    c.SoloLocked? || c.SoloDone?
  }

  /** The scheduler points at the one batch that has not been cleared, and a batch starts once. */
  ghost predicate Open(w: World) {
    && Pointing(w)
    && (forall b :: 0 <= b < |w.batches| ==> (OpenPhase(w.batches[b].phase) <==> w.current == Some(b)))
    && (forall b :: 0 <= b < |w.batches| ==>
          w.batches[b].starts == if w.batches[b].phase.Collecting? then 0 else 1)
  }

  ghost predicate NoRepeats(s: seq<nat>) {
    forall i, j :: 0 <= i < j < |s| ==> s[i] != s[j]
  }

  /** What the submitter of the i-th request of a batch sees. */
  function Expected(p: Phase, i: int): Caller {
    match p
    case Reporting(next, ok) => if i < next then Returned(ok) else Waiting
    case Finished(ok) => Returned(ok)
    case _ => Waiting
  }

  /** Every request is in the batch it joined and nowhere else, and no waiting request is lost. */
  ghost predicate Placed(w: World) {
    && w.callers.Keys == w.joined.Keys
    && (forall r :: r in w.joined ==> w.joined[r] < |w.batches|)
    && (forall b, i :: 0 <= b < |w.batches| && 0 <= i < |w.batches[b].reqs| ==>
          w.batches[b].reqs[i] in w.joined && w.joined[w.batches[b].reqs[i]] == b)
    && (forall b :: 0 <= b < |w.batches| ==> NoRepeats(w.batches[b].reqs))
    && (forall r :: r in w.callers && w.callers[r] == Waiting ==> r in w.batches[w.joined[r]].reqs)
  }

  ghost predicate Told(w: World) {
    forall b, i :: 0 <= b < |w.batches| && 0 <= i < |w.batches[b].reqs| ==>
      CallerIs(w, w.batches[b].reqs[i], Expected(w.batches[b].phase, i))
  }

  /** A request is in the history exactly when its caller has been or will be told so. */
  ghost predicate Committed(w: World, r: nat)
    requires w.callers.Keys == w.joined.Keys && (forall r :: r in w.joined ==> w.joined[r] < |w.batches|)
  {
    && r in w.callers
    && match w.callers[r]
       case Waiting => var p := w.batches[w.joined[r]].phase; p.Reporting? && p.ok
       case SoloDone(ok) => ok
       case Returned(ok) => ok
       case _ => false
  }

  ghost predicate Recorded(w: World)
    requires Placed(w)
  {
    && NoRepeats(w.history)
    && (forall r :: r in w.history <==> Committed(w, r))
  }

  /** The cache lock is held exactly while a batch or a solo request runs. */
  ghost predicate Exclusive(w: World) {
    && (w.lock.Some? ==> w.locker && match w.lock.value
                                      case ByBatch(b) => b < |w.batches|
                                      case BySolo(r) => r in w.callers)
    && (w.locker ==> forall b :: 0 <= b < |w.batches| ==>
          (LockedPhase(w.batches[b].phase) <==> w.lock == Some(ByBatch(b))))
    && (w.locker ==> forall r :: r in w.callers ==>
          (LockedCaller(w.callers[r]) <==> w.lock == Some(BySolo(r))))
  }

  /** Commits whose OnCommit closures have not been run yet: those of the holder of the lock. */
  function Pending(w: World): seq<nat> {
    if w.lock.None? then []
    else
      match w.lock.value
      case ByBatch(b) =>
        if b < |w.batches| && w.batches[b].phase.Reporting? && w.batches[b].phase.ok
           && w.batches[b].phase.next <= |w.batches[b].reqs|
        then w.batches[b].reqs[w.batches[b].phase.next..] else []
      case BySolo(r) => if CallerIs(w, r, SoloDone(true)) then [r] else []
  }

  ghost predicate InOrder(w: World) {
    w.locker ==> w.history == w.reported + Pending(w)
  }

  ghost predicate ReportBounds(w: World) {
    forall b :: 0 <= b < |w.batches| && w.batches[b].phase.Reporting? ==>
      w.batches[b].phase.next <= |w.batches[b].reqs|
  }

  ghost predicate Inv(env: Requests, db: DB, w: World) {
    && Open(w) && Placed(w) && Told(w) && Recorded(w) && Exclusive(w) && ReportBounds(w) && InOrder(w)
    && Serial(env, db, w.history, w.db)
  }
}
