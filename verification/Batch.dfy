/** batch.run: applying a batch of requests in one transaction, retrying without the ones that fail. */
module Batch {
  import opened Options

  /** The key-value database, as far as requests can tell its states apart. */
  type DB = map<nat, nat>

  /** The behaviour of the submitted requests, which are known by number: Update, with None for an error.
      Reset makes repeated calls of Update alike. */
  datatype Requests = Requests(update: nat -> DB -> Option<DB>)

  /** The outcome of the closure that kvdb.Update runs: the index of the first update that fails, or the
      state in which all have been applied. */
  datatype Outcome = FailedAt(index: nat) | Applied(db: DB)

  function ApplyAll(env: Requests, db: DB, reqs: seq<nat>): Outcome {
    if reqs == [] then Applied(db)
    else
      match ApplyAll(env, db, reqs[..|reqs| - 1])
      case FailedAt(i) => FailedAt(i)
      case Applied(db') =>
        match env.update(reqs[|reqs| - 1])(db')
        case None => FailedAt(|reqs| - 1)
        case Some(db'') => Applied(db'')
  }

  /** The state after a serial application of requests that all succeed. */
  ghost predicate Serial(env: Requests, db: DB, history: seq<nat>, db': DB) {
    ApplyAll(env, db, history) == Applied(db')
  }

  lemma {:induction false} SerialAppend(env: Requests, db: DB, h: seq<nat>, db1: DB, more: seq<nat>, db2: DB)
    requires Serial(env, db, h, db1) && Serial(env, db1, more, db2)
    ensures Serial(env, db, h + more, db2)
  {
    if more == [] {
      assert h + more == h;
    } else {
      var init := more[..|more| - 1];
      var Applied(mid) := ApplyAll(env, db1, init);
      SerialAppend(env, db, h, db1, init, mid);
      assert (h + more)[..|h + more| - 1] == h + init;
    }
  }

  /** The states that a transaction goes through: each request is applied to the state that the one before it
      left behind. */
  ghost predicate Chain(env: Requests, db: DB, reqs: seq<nat>, states: seq<DB>) {
    && |states| == |reqs| + 1 && states[0] == db
    && forall i :: 0 <= i < |reqs| ==> env.update(reqs[i])(states[i]) == Some(states[i + 1])
  }

  /** All requests have been applied, each to what the one before it left, and db' is what the last one leaves. */
  ghost predicate AllApply(env: Requests, db: DB, reqs: seq<nat>, db': DB) {
    exists states :: Chain(env, db, reqs, states) && states[|reqs|] == db'
  }

  /** Those before i are applied, and then the update of the i-th request fails. */
  ghost predicate StopsAt(env: Requests, db: DB, reqs: seq<nat>, i: nat) {
    i < |reqs| && exists d :: AllApply(env, db, reqs[..i], d) && env.update(reqs[i])(d) == None
  }

  lemma NoneApply(env: Requests, db: DB)
    ensures AllApply(env, db, [], db)
  {
    assert Chain(env, db, [], [db]);
  }

  lemma {:induction false} ChainApplies(env: Requests, db: DB, reqs: seq<nat>, states: seq<DB>)
    requires Chain(env, db, reqs, states)
    ensures ApplyAll(env, db, reqs) == Applied(states[|reqs|])
  {
    if reqs != [] {
      var n := |reqs| - 1;
      ChainApplies(env, db, reqs[..n], states[..|reqs|]);
    }
  }

  lemma {:induction false} AppliesInChain(env: Requests, db: DB, reqs: seq<nat>)
    ensures match ApplyAll(env, db, reqs)
            case Applied(db') => AllApply(env, db, reqs, db')
            case FailedAt(i) => StopsAt(env, db, reqs, i)
  {
    if reqs == [] {
      assert Chain(env, db, reqs, [db]);
    } else {
      var n := |reqs| - 1;
      AppliesInChain(env, db, reqs[..n]);
      match ApplyAll(env, db, reqs[..n])
      case FailedAt(i) =>
        assert reqs[..n][..i] == reqs[..i];
      case Applied(d) =>
        var states :| Chain(env, db, reqs[..n], states) && states[n] == d;
        match env.update(reqs[n])(d)
        case None =>
        case Some(db') => assert Chain(env, db, reqs, states + [db']);
    }
  }

  /** What a transaction comes to: a state is committed exactly if it is reached by applying all of them in order,
      and a request fails the transaction exactly if it is the first whose update fails on top of the others. */
  lemma TransactionIff(env: Requests, db: DB, reqs: seq<nat>, db': DB, i: nat)
    ensures ApplyAll(env, db, reqs) == Applied(db') <==> AllApply(env, db, reqs, db')
    ensures ApplyAll(env, db, reqs) == FailedAt(i) <==> StopsAt(env, db, reqs, i)
  {
    AppliesInChain(env, db, reqs);
    if AllApply(env, db, reqs, db') {
      var states :| Chain(env, db, reqs, states) && states[|reqs|] == db';
      ChainApplies(env, db, reqs, states);
    }
    if StopsAt(env, db, reqs, i) {
      var d :| AllApply(env, db, reqs[..i], d) && env.update(reqs[i])(d) == None;
      var states :| Chain(env, db, reqs[..i], states) && states[i] == d;
      ChainApplies(env, db, reqs[..i], states);
      assert reqs[..i + 1][..i] == reqs[..i];
      FailureStays(env, db, reqs, i);
    }
  }

  /** There are states in which the update of the request fails. */
  ghost predicate CanFail(env: Requests, r: nat) { exists db :: env.update(r)(db) == None }

  lemma {:induction false} FailsInRange(env: Requests, db: DB, reqs: seq<nat>)
    ensures var r := ApplyAll(env, db, reqs); r.FailedAt? ==> r.index < |reqs| && CanFail(env, reqs[r.index])
  {
    if reqs != [] { FailsInRange(env, db, reqs[..|reqs| - 1]); }
  }

  /** What is left of a batch when, time and again, the first request that fails is taken out. The k-th attempt
      finds the database dbs(k): without a cache lock others may commit in between. */
  ghost function Survivors(env: Requests, dbs: nat -> DB, k: nat, reqs: seq<nat>): (left: seq<nat>)
    ensures |left| <= |reqs|
    decreases |reqs|
  {
    match ApplyAll(env, dbs(k), reqs)
    case Applied(_) => reqs
    case FailedAt(i) => if i < |reqs| then Survivors(env, dbs, k + 1, SwapRemove(reqs, i)) else []
  }

  /** They can be applied in the one transaction that is left, which comes after one attempt for each of the
      others. */
  lemma {:induction false} SurvivorsApply(env: Requests, dbs: nat -> DB, k: nat, reqs: seq<nat>)
    ensures var left := Survivors(env, dbs, k, reqs); ApplyAll(env, dbs(k + |reqs| - |left|), left).Applied?
    decreases |reqs|
  {
    FailsInRange(env, dbs(k), reqs);
    match ApplyAll(env, dbs(k), reqs)
    case Applied(_) =>
    case FailedAt(i) => SurvivorsApply(env, dbs, k + 1, SwapRemove(reqs, i));
  }

  /** Swap-remove: the last request takes the place of the removed one. */
  function SwapRemove(reqs: seq<nat>, i: nat): seq<nat>
    requires i < |reqs|
  {
    reqs[i := reqs[|reqs| - 1]][..|reqs| - 1]
  }

  lemma SwapRemoveParts(reqs: seq<nat>, i: nat)
    requires i < |reqs|
    ensures i == |reqs| - 1 ==> SwapRemove(reqs, i) == reqs[..i]
    ensures i < |reqs| - 1 ==> SwapRemove(reqs, i) == reqs[..i] + [reqs[|reqs| - 1]] + reqs[i + 1..|reqs| - 1]
  {
  }

  lemma SwapRemoveMultiset(reqs: seq<nat>, i: nat)
    requires i < |reqs|
    ensures multiset(reqs) == multiset(SwapRemove(reqs, i)) + multiset{reqs[i]}
  {
    SwapRemoveParts(reqs, i);
    if i == |reqs| - 1 {
      assert reqs == reqs[..i] + [reqs[i]];
    } else {
      MovedUp(reqs[..i], reqs[i], reqs[i + 1..|reqs| - 1], reqs[|reqs| - 1]);
      assert reqs == reqs[..i] + [reqs[i]] + reqs[i + 1..|reqs| - 1] + [reqs[|reqs| - 1]];
    }
  }

  lemma MovedUp(before: seq<nat>, gone: nat, between: seq<nat>, last: nat)
    ensures multiset(before + [gone] + between + [last]) == multiset(before + [last] + between) + multiset{gone}
  {
  }

  /** The closure passed to kvdb.Update. */
  method Transact(env: Requests, db: DB, reqs: seq<nat>) returns (failIdx: int, tx: DB)
    ensures failIdx == -1 <==> ApplyAll(env, db, reqs).Applied?
    ensures failIdx == -1 ==> ApplyAll(env, db, reqs) == Applied(tx)
    ensures failIdx != -1 ==> 0 <= failIdx && ApplyAll(env, db, reqs) == FailedAt(failIdx)
    ensures if failIdx == -1 then AllApply(env, db, reqs, tx) else StopsAt(env, db, reqs, failIdx)
  {
    tx, failIdx := db, -1;
    for i := 0 to |reqs|
      invariant ApplyAll(env, db, reqs[..i]) == Applied(tx)
    {
      assert reqs[..i + 1][..i] == reqs[..i];
      match env.update(reqs[i])(tx)
      case None =>
        failIdx := i;
        FailureStays(env, db, reqs, i);
        TransactionIff(env, db, reqs, tx, i);
        return;
      case Some(tx') =>
        tx := tx';
    }
    assert reqs[..|reqs|] == reqs;
    TransactionIff(env, db, reqs, tx, 0);
  }

  lemma {:induction false} FailureStays(env: Requests, db: DB, reqs: seq<nat>, i: nat)
    requires i < |reqs| && ApplyAll(env, db, reqs[..i + 1]) == FailedAt(i)
    ensures ApplyAll(env, db, reqs) == FailedAt(i)
  {
    if i + 1 == |reqs| {
      assert reqs[..i + 1] == reqs;
    } else {
      assert reqs[..|reqs| - 1][..i + 1] == reqs[..i + 1];
      FailureStays(env, db, reqs[..|reqs| - 1], i);
    }
  }

  /** The state of a batch between two attempts. */
  ghost predicate Retrying(env: Requests, dbs: nat -> DB, batch: seq<nat>, solo: seq<nat>, reqs: seq<nat>) {
    && multiset(batch) == multiset(solo) + multiset(reqs)
    && Survivors(env, dbs, |solo|, reqs) == Survivors(env, dbs, 0, batch)
    && forall r :: r in solo ==> CanFail(env, r)
  }

  lemma RetryNext(env: Requests, dbs: nat -> DB, batch: seq<nat>, solo: seq<nat>, reqs: seq<nat>, i: nat)
    requires Retrying(env, dbs, batch, solo, reqs) && i < |reqs| && CanFail(env, reqs[i])
    requires ApplyAll(env, dbs(|solo|), reqs) == FailedAt(i)
    ensures Retrying(env, dbs, batch, solo + [reqs[i]], SwapRemove(reqs, i))
  {
    SwapRemoveMultiset(reqs, i);
  }

  /** Handing the commit error to the requests that are left, in order. */
  method Answer(reqs: seq<nat>) returns (answered: seq<nat>)
    ensures answered == reqs
  {
    answered := [];
    for i := 0 to |reqs|
      invariant answered == reqs[..i]
    {
      answered := answered + [reqs[i]];
    }
  }

  /** batch.run after the batch has been cleared and the cache lock, if any, taken; commitFails is the fate of the
      one transaction that gets as far as its commit. `solo` are the requests sent errSolo, `answered` those
      sent the commit error, which is nil when `ok`. Every request is sent exactly one message, the
      answered ones are committed together or not at all on top of the database that the last attempt finds, and
      the solo ones have left no trace. */
  method Run(env: Requests, dbs: nat -> DB, batch: seq<nat>, commitFails: bool)
    returns (db': DB, solo: seq<nat>, answered: seq<nat>, ok: bool)
    ensures multiset(batch) == multiset(solo) + multiset(answered)
    ensures answered == Survivors(env, dbs, 0, batch) && forall r :: r in solo ==> CanFail(env, r)
    ensures ok == !commitFails
    ensures AllApply(env, dbs(|solo|), if ok then answered else [], db')
  {
    var reqs := batch;
    solo, answered, ok := [], [], !commitFails;
    while |reqs| > 0
      invariant answered == [] && Retrying(env, dbs, batch, solo, reqs)
      decreases |reqs|
    {
      var failIdx, tx := Transact(env, dbs(|solo|), reqs);
      FailsInRange(env, dbs(|solo|), reqs);
      if failIdx >= 0 {
        var req := reqs[failIdx];
        RetryNext(env, dbs, batch, solo, reqs, failIdx);
        reqs := SwapRemove(reqs, failIdx);
        solo := solo + [req];
        continue;
      }
      db' := if ok then tx else dbs(|solo|);
      NoneApply(env, dbs(|solo|));
      answered := Answer(reqs);
      return;
    }
    db' := dbs(|solo|);
    NoneApply(env, db');
  }
}
