/** How long an eligible row can be overtaken: a bound on the number of polls that pass it over,
    however many unroutable or poison rows are ahead of it and however many polls compete. */
module OutboxProgress {
  import opened Prelude
  import opened Messages
  import opened Outbox

  /** Rows that may be claimed no later than a row created at time t. */
  predicate Ahead(row: Row, t: int) {
    Eligible(row) && row.occurredAt <= t
  }

  function AheadIds(rows: map<Id, Row>, t: int): set<Id> {
    set id | id in rows && Ahead(rows[id], t)
  }

  function Claims(steps: seq<Step>): nat {
    if steps == [] then 0 else (if steps[0].Claim? then 1 else 0) + Claims(steps[1..])
  }

  function Rollbacks(steps: seq<Step>): nat {
    if steps == [] then 0 else (if steps[0].Rollback? then 1 else 0) + Rollbacks(steps[1..])
  }

  /** A run that passes `target` over, resets no row and inserts only rows newer than t. */
  predicate PassesOver(steps: seq<Step>, target: Id, t: int) {
    forall k :: 0 <= k < |steps| ==> StepPassesOver(steps[k], target, t)
  }

  predicate StepPassesOver(step: Step, target: Id, t: int) {
    && !step.Reset?
    && (step.Insert? ==> step.row.occurredAt > t)
    && (step.Claim? ==> target !in step.batch)
  }

  /** What each row ahead can still cost: its remaining attempts, less the one its poll is about
      to use up if it is claimed. */
  ghost function Costs(s: State, t: int): map<Id, int> {
    map id | id in s.rows && Ahead(s.rows[id], t) :: MAX_ATTEMPTS - s.rows[id].attempts - if Locked(s, id) then 1 else 0
  }

  ghost predicate Waiting(s: State, target: Id, t: int) {
    target in s.rows && Eligible(s.rows[target]) && !Locked(s, target) && s.rows[target].occurredAt == t
  }

  lemma ClaimCosts(s: State, step: Step, target: Id, t: int)
    requires Inv(s) && Can(s, step) && step.Claim? && Waiting(s, target, t) && target !in step.batch
    ensures SumMap(Costs(Do(s, step), t)) + BATCH_SIZE <= SumMap(Costs(s, t))
    ensures Waiting(Do(s, step), target, t)
  {
    ClaimPasses(s, step, target, t);
    BatchIsAhead(s, step, target, t);
    ClaimLowers(s, step, t);
    DistinctSize(step.batch);
    SumDrop(Costs(s, t), Costs(Do(s, step), t), Elements(step.batch));
  }

  lemma ClaimPasses(s: State, step: Step, target: Id, t: int)
    requires Can(s, step) && step.Claim? && Waiting(s, target, t) && target !in step.batch
    ensures Waiting(Do(s, step), target, t) && Distinct(step.batch)
  {
    ClaimLocks(s, step);
  }

  /** A claim that passes an eligible row over is full, and of rows at or before it. */
  lemma BatchIsAhead(s: State, step: Step, target: Id, t: int)
    requires Can(s, step) && step.Claim? && Waiting(s, target, t) && target !in step.batch
    ensures |step.batch| == BATCH_SIZE
    ensures forall id :: id in step.batch ==> id in s.rows && Ahead(s.rows[id], t) && !Locked(s, id)
  {
  }

  lemma ClaimLowers(s: State, step: Step, t: int)
    requires Can(s, step) && step.Claim?
    requires forall id :: id in step.batch ==> id in s.rows && Ahead(s.rows[id], t) && !Locked(s, id)
    ensures Elements(step.batch) <= Costs(s, t).Keys == Costs(Do(s, step), t).Keys
    ensures forall id :: id in Costs(s, t) ==>
              Costs(Do(s, step), t)[id] == Costs(s, t)[id] - if id in step.batch then 1 else 0
  {
    ClaimLocks(s, step);
  }

  lemma ClaimLocks(s: State, step: Step)
    requires Can(s, step) && step.Claim?
    ensures forall id :: Locked(Do(s, step), id) <==> Locked(s, id) || id in step.batch
  {
    var s' := Do(s, step);
    forall id ensures Locked(s', id) <==> Locked(s, id) || id in step.batch {
      if id in step.batch {
        assert id in s'.txs[step.poll].snapshot;
      }
      if Locked(s, id) {
        var p :| p in s.txs && id in s.txs[p].snapshot;
        assert id in s'.txs[p].snapshot;
      }
    }
  }

  /** A poll that ends, or a row inserted, locks nothing new; inside a poll no lock changes. */
  lemma EndLocks(s: State, s': State, poll: PollId)
    requires Disjoint(s.txs) && poll in s.txs && s'.txs == s.txs - {poll}
    ensures forall id :: Locked(s', id) <==> Locked(s, id) && id !in s.txs[poll].snapshot
  {
    forall id ensures Locked(s', id) <==> Locked(s, id) && id !in s.txs[poll].snapshot {
      if Locked(s, id) && id !in s.txs[poll].snapshot {
        var p :| p in s.txs && id in s.txs[p].snapshot;
        assert id in s'.txs[p].snapshot;
      }
      if Locked(s', id) {
        var p :| p in s'.txs && id in s'.txs[p].snapshot;
        assert s.txs[p].snapshot.Keys !! s.txs[poll].snapshot.Keys;
      }
    }
  }

  lemma CommitCosts(s: State, poll: PollId, target: Id, t: int)
    requires Inv(s) && Can(s, Commit(poll)) && Waiting(s, target, t)
    ensures SumMap(Costs(Do(s, Commit(poll)), t)) <= SumMap(Costs(s, t))
    ensures Waiting(Do(s, Commit(poll)), target, t)
  {
    var s', tx := Do(s, Commit(poll)), s.txs[poll];
    assert TxOk(s, tx);
    EndLocks(s, s', poll);
    assert target !in tx.snapshot;
    forall id | id in tx.snapshot ensures id in tx.writes {
      var k :| 0 <= k < |tx.claimed| && tx.claimed[k] == id;
    }
    forall id | id in Costs(s', t)
      ensures id in Costs(s, t) && 0 <= Costs(s', t)[id] <= Costs(s, t)[id]
    {
      if id in tx.snapshot {
        assert Locked(s, id);
        assert WriteOk(s.log, id, tx.snapshot[id], tx.writes[id]);
      }
    }
    SumDrop(Costs(s, t), Costs(s', t), {});
  }

  lemma RollbackCosts(s: State, poll: PollId, target: Id, t: int)
    requires Inv(s) && Can(s, Rollback(poll)) && Waiting(s, target, t)
    ensures SumMap(Costs(Do(s, Rollback(poll)), t)) <= SumMap(Costs(s, t)) + BATCH_SIZE
    ensures Waiting(Do(s, Rollback(poll)), target, t)
  {
    var s', tx := Do(s, Rollback(poll)), s.txs[poll];
    assert TxOk(s, tx);
    EndLocks(s, s', poll);
    var hit := set id | id in tx.snapshot && id in Costs(s, t);
    forall id | id in hit ensures Locked(s, id) {
      assert id in s.txs[poll].snapshot;
    }
    SumShift(Costs(s, t), Costs(s', t), hit);
    DistinctSize(tx.claimed);
    SubsetSize(hit, Elements(tx.claimed));
  }

  lemma SameLocks(s: State, s': State)
    requires s'.txs.Keys == s.txs.Keys
    requires forall p :: p in s.txs ==> s'.txs[p].snapshot == s.txs[p].snapshot
    ensures forall id :: Locked(s', id) <==> Locked(s, id)
  {
    forall id ensures Locked(s', id) <==> Locked(s, id) {
      if Locked(s, id) {
        var p :| p in s.txs && id in s.txs[p].snapshot;
        assert id in s'.txs[p].snapshot;
      }
    }
  }

  lemma QuietStep(s: State, step: Step)
    requires Can(s, step) && !step.Claim? && !step.Commit? && !step.Rollback? && !step.Reset?
    ensures var s' := Do(s, step);
      && s'.txs.Keys == s.txs.Keys
      && (forall p :: p in s.txs ==> s'.txs[p].snapshot == s.txs[p].snapshot)
      && s'.rows == if step.Insert? then s.rows[step.id := step.row] else s.rows
  {
  }

  /** The steps inside a poll, and inserting a newer row, cost nothing. */
  lemma QuietCosts(s: State, step: Step, target: Id, t: int)
    requires Inv(s) && Can(s, step) && Waiting(s, target, t) && StepPassesOver(step, target, t)
    requires !step.Claim? && !step.Commit? && !step.Rollback?
    ensures Costs(Do(s, step), t) == Costs(s, t)
    ensures Waiting(Do(s, step), target, t)
  {
    QuietStep(s, step);
    SameLocks(s, Do(s, step));
    SameCosts(s, Do(s, step), t);
  }

  lemma SameCosts(s: State, s': State, t: int)
    requires forall id :: Locked(s', id) <==> Locked(s, id)
    requires forall id :: id in s.rows ==> id in s'.rows && s'.rows[id] == s.rows[id]
    requires forall id :: id in s'.rows && Ahead(s'.rows[id], t) ==> id in s.rows
    ensures Costs(s', t) == Costs(s, t)
  {
  }

  lemma {:induction false} RunCosts(s: State, steps: seq<Step>, target: Id, t: int)
    requires Inv(s) && Admissible(s, steps) && Waiting(s, target, t) && PassesOver(steps, target, t)
    ensures BATCH_SIZE * Claims(steps) + 1 <= SumMap(Costs(s, t)) + BATCH_SIZE * Rollbacks(steps)
    decreases |steps|
  {
    if steps == [] {
      SumDrop(Costs(s, t), map[], {target});
    } else {
      var step, s' := steps[0], Do(s, steps[0]);
      assert StepPassesOver(step, target, t);
      StepKeepsInv(s, step);
      match step {
        case Claim(_, _) => ClaimCosts(s, step, target, t);
        case Commit(poll) => CommitCosts(s, poll, target, t);
        case Rollback(poll) => RollbackCosts(s, poll, target, t);
        case _ => QuietCosts(s, step, target, t);
      }
      forall k | 0 <= k < |steps[1..]| ensures StepPassesOver(steps[1..][k], target, t) {
        assert steps[1..][k] == steps[k + 1];
      }
      RunCosts(s', steps[1..], target, t);
    }
  }

  /** Every run that passes an eligible, unclaimed row over, with k eligible rows at or before it:
      the claims that pass it over are fewer than k * MAX_ATTEMPTS / BATCH_SIZE, plus one per rollback. */
  lemma ProgressBound(s: State, steps: seq<Step>, target: Id)
    requires Inv(s) && Admissible(s, steps)
    requires target in s.rows && Eligible(s.rows[target]) && !Locked(s, target)
    requires PassesOver(steps, target, s.rows[target].occurredAt)
    ensures var k := |AheadIds(s.rows, s.rows[target].occurredAt)|;
      BATCH_SIZE * Claims(steps) < k * MAX_ATTEMPTS + BATCH_SIZE * Rollbacks(steps)
  {
    var t := s.rows[target].occurredAt;
    RunCosts(s, steps, target, t);
    assert Costs(s, t).Keys == AheadIds(s.rows, t);
    SumBound(Costs(s, t), MAX_ATTEMPTS);
  }

  /** The same as a promise: with committed batches, the row is claimed within
      k * MAX_ATTEMPTS / BATCH_SIZE + 1 polls. */
  lemma ClaimedInTime(s: State, steps: seq<Step>, target: Id)
    requires Inv(s) && Admissible(s, steps) && Rollbacks(steps) == 0
    requires target in s.rows && Eligible(s.rows[target]) && !Locked(s, target)
    requires forall i :: 0 <= i < |steps| ==>
      !steps[i].Reset? && (steps[i].Insert? ==> steps[i].row.occurredAt > s.rows[target].occurredAt)
    requires Claims(steps) >= |AheadIds(s.rows, s.rows[target].occurredAt)| * MAX_ATTEMPTS / BATCH_SIZE + 1
    ensures exists i :: 0 <= i < |steps| && steps[i].Claim? && target in steps[i].batch
  {
    if forall i :: 0 <= i < |steps| && steps[i].Claim? ==> target !in steps[i].batch {
      ProgressBound(s, steps, target);
      assert false;
    }
  }
}
