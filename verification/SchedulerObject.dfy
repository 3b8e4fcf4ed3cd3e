/** TimeScheduler as an object: its current batch, and the batches it has handed out. Its critical sections keep
    the invariant of the whole system, whatever its callers and batches are doing. */
module SchedulerObject {
  import opened Options
  import opened Batch
  import opened Scheduler
  import opened SchedulerProofs

  class TimeScheduler {
    var current: Option<nat>
    var batches: seq<BatchState>
    ghost const env: Requests
    ghost const start: DB
    ghost var others: World  // callers, lock, database and records; its first two fields are not used

    ghost function View(): World
      reads this
    {
      others.(current := current, batches := batches)
    }

    ghost predicate Valid()
      reads this
    {
      Inv(env, start, View())
    }

    constructor (ghost env: Requests, ghost locker: bool, ghost db: DB)
      ensures Valid() && View() == Scheduler.Init(locker, db)
    {
      this.env, start := env, db;
      current, batches := None, [];
      others := Scheduler.Init(locker, db);
      new;
      InitInv(env, db, locker);
    }

    /** Execute inside the mutex: the request joins a batch that has not been cleared. */
    method Execute(r: nat) returns (b: nat)
      requires Valid() && r !in others.callers
      modifies this
      ensures Valid() && Enabled(old(View()), Event.Submit(r)) && View() == Submitted(old(View()), r)
      ensures b < |batches| && others.joined[r] == b && r in batches[b].reqs && OpenPhase(batches[b].phase)
    {
      ghost var before := View();
      b := Enqueue(r);
      SubmitKeeps(env, start, before, View(), r);
      JoinsOpenBatch(env, start, before, r);
    }

    method Enqueue(r: nat) returns (b: nat)
      requires Pointing(View())
      modifies this`current, this`batches, this`others
      ensures View() == Submitted(old(View()), r)
      ensures current == Some(b)
    {
      if current == None {
        current := Some(|batches|);
        batches := batches + [BatchState([], Collecting, 0)];
      }
      b := current.value;
      batches := batches[b := batches[b].(reqs := batches[b].reqs + [r])];
      others := others.(callers := others.callers[r := Waiting], joined := others.joined[r := b]);
      if old(current) == None {
        assert [] + [r] == [r];
        assert batches == old(batches) + [BatchState([r], Collecting, 0)];
      }
    }

    /** trigger: only the first call starts the batch. */
    method Trigger(b: nat) returns (starts: bool)
      requires Valid() && b < |batches|
      modifies this`batches
      ensures Valid() && Enabled(old(View()), Event.Trigger(b)) && View() == Triggered(old(View()), b)
      ensures starts <==> old(batches[b].starts) == 0
      ensures batches[b].starts == 1
    {
      ghost var before := View();
      starts := Start(b);
      TriggerKeeps(env, start, before, View(), b);
    }

    method Start(b: nat) returns (starts: bool)
      requires b < |batches|
      modifies this`batches
      ensures View() == Triggered(old(View()), b)
      ensures starts <==> old(batches[b].phase.Collecting?)
    {
      starts := batches[b].phase.Collecting?;
      if starts {
        batches := batches[b := batches[b].(phase := Clearing, starts := batches[b].starts + 1)];
      }
    }

    /** clear: from now on no request joins the batch. */
    method Clear(b: nat)
      requires Valid() && PhaseIs(View(), b, Clearing)
      modifies this`batches, this`current
      ensures Valid() && Enabled(old(View()), Event.Clear(b)) && View() == Cleared(old(View()), b)
      ensures current != Some(b)
    {
      ghost var before := View();
      Detach(b);
      ClearKeeps(env, start, before, View(), b);
    }

    method Detach(b: nat)
      requires b < |batches|
      modifies this`batches, this`current
      ensures View() == Cleared(old(View()), b)
    {
      batches := batches[b := batches[b].(phase := Locking)];
      if current == Some(b) {
        current := None;
      }
    }
  }
}
