/** What the outbox guarantees about deliveries over whole runs: at least once for every marked
    row, at most once when nothing rolled back, and exact failure counts. */
module OutboxDelivery {
  import opened Messages
  import opened Outbox

  lemma ClaimsAreExclusive(s: State, p: PollId, q: PollId, id: Id)
    requires Inv(s) && p in s.txs && q in s.txs && id in s.txs[p].snapshot && id in s.txs[q].snapshot
    ensures p == q
  {
  }

  /** In every reachable state, whatever the polls, brokers and rollbacks did. */
  lemma RelayGuarantees(steps: seq<Step>)
    requires Admissible(EMPTY, steps)
    ensures var s := Exec(EMPTY, steps);
      && (forall id :: id in s.rows && s.rows[id].publishedAt.Some? ==>
            && s.rows[id].eventType in RELAY_ROUTING
            && Delivery(EnvelopeOf(id, s.rows[id]), RELAY_ROUTING[s.rows[id].eventType], true) in s.log)
      && (forall id :: id in s.rows ==> id in s.failures && s.rows[id].attempts == s.failures[id] <= MAX_ATTEMPTS)
      && (forall p, q, id :: p in s.txs && q in s.txs && id in s.txs[p].snapshot && id in s.txs[q].snapshot ==> p == q)
      && (forall p, id :: p in s.txs && id in s.txs[p].snapshot ==> id in s.rows && Eligible(s.rows[id]))
  {
    RunKeepsInv(EMPTY, steps);
    var s := Exec(EMPTY, steps);
    forall p, q, id | p in s.txs && q in s.txs && id in s.txs[p].snapshot && id in s.txs[q].snapshot
      ensures p == q
    {
      ClaimsAreExclusive(s, p, q, id);
    }
    forall p, id | p in s.txs && id in s.txs[p].snapshot
      ensures id in s.rows && Eligible(s.rows[id])
    {
      assert TxLocks(s.rows, s.txs[p]);
    }
    forall id | id in s.rows
      ensures id in s.failures && s.rows[id].attempts == s.failures[id] <= MAX_ATTEMPTS
    {
      assert RowOk(s.log, id, s.rows[id], s.failures[id]);
    }
  }

  /** Every row is exactly one of published, eligible and quarantined, and quarantine is the
      exact ceiling: a quarantined row failed MAX_ATTEMPTS committed times since its last reset. */
  lemma RowsSplit(steps: seq<Step>, id: Id)
    requires Admissible(EMPTY, steps) && id in Exec(EMPTY, steps).rows
    ensures var row := Exec(EMPTY, steps).rows[id];
      && (row.publishedAt.Some? || Eligible(row) || Quarantined(row))
      && !(row.publishedAt.Some? && Eligible(row)) && !(row.publishedAt.Some? && Quarantined(row))
      && !(Eligible(row) && Quarantined(row))
      && (Quarantined(row) ==> id in Exec(EMPTY, steps).failures && Exec(EMPTY, steps).failures[id] == MAX_ATTEMPTS)
  {
    RelayGuarantees(steps);
  }

  /** A rollback loses marks and nothing else: the claimed rows are unlocked and eligible again,
      no other row or delivery is touched. */
  lemma RollbackReleases(s: State, poll: PollId, id: Id)
    requires Inv(s) && poll in s.txs && id in s.txs[poll].snapshot
    ensures var s' := Do(s, Rollback(poll));
      && s'.rows == s.rows && s'.log == s.log && s'.failures == s.failures
      && id in s'.rows && Eligible(s'.rows[id]) && !Locked(s', id)
  {
    var s' := Do(s, Rollback(poll));
    assert TxLocks(s.rows, s.txs[poll]);
    forall p | p in s'.txs ensures id !in s'.txs[p].snapshot {
      assert s.txs[p].snapshot.Keys !! s.txs[poll].snapshot.Keys;
    }
  }

  // ----- at most once -----

  function Deliveries(log: seq<Delivery>, id: Id): nat {
    if log == [] then 0 else
      Deliveries(log[..|log| - 1], id) + if log[|log| - 1].envelope.messageId == id then 1 else 0
  }

  /** The poll has delivered the row and will mark it when it commits. */
  ghost predicate InFlight(tx: Tx, id: Id) {
    || (id in tx.writes && tx.writes[id].Published?)
    || (tx.sent && tx.done < |tx.claimed| && tx.claimed[tx.done] == id)
  }

  ghost predicate Delivered(s: State, id: Id) {
    || (id in s.rows && s.rows[id].publishedAt.Some?)
    || (exists p :: p in s.txs && InFlight(s.txs[p], id))
  }

  ghost predicate OnceInv(s: State) {
    s.rollbacks == 0 && forall id :: Deliveries(s.log, id) == if Delivered(s, id) then 1 else 0
  }

  lemma InFlightIsClaimed(s: State, p: PollId, id: Id)
    requires Inv(s) && p in s.txs && InFlight(s.txs[p], id)
    ensures id in s.txs[p].snapshot && id in s.rows && s.rows[id].publishedAt.None?
  {
    assert TxOk(s, s.txs[p]);
  }

  lemma DeliveriesAppend(log: seq<Delivery>, d: Delivery, id: Id)
    ensures Deliveries(log + [d], id) == Deliveries(log, id) + if d.envelope.messageId == id then 1 else 0
  {
    assert (log + [d])[..|log|] == log;
  }

  /** Only the current row of the poll that publishes becomes delivered. */
  lemma PublishDelivers(s: State, poll: PollId, id: Id)
    requires Inv(s) && Can(s, Publish(poll))
    ensures !Delivered(s, Current(s, poll))
    ensures Delivered(Do(s, Publish(poll)), id) <==> Delivered(s, id) || id == Current(s, poll)
  {
    var s', tx, cur := Do(s, Publish(poll)), s.txs[poll], Current(s, poll);
    assert TxOk(s, tx);
    forall p | p in s.txs ensures !InFlight(s.txs[p], cur) {
      if p != poll && InFlight(s.txs[p], cur) {
        InFlightIsClaimed(s, p, cur);
        ClaimsAreExclusive(s, p, poll, cur);
        assert false;
      }
    }
    assert InFlight(s'.txs[poll], cur);
    forall p | p in s.txs ensures InFlight(s.txs[p], id) ==> InFlight(s'.txs[p], id) {
    }
    forall p | p in s'.txs ensures InFlight(s'.txs[p], id) ==> InFlight(s.txs[p], id) || id == cur {
    }
  }

  /** Every other step that neither rolls back nor delivers a rejected publish. */
  lemma OtherStepsDeliver(s: State, step: Step, id: Id)
    requires Inv(s) && Can(s, step) && !step.Publish? && !step.Rollback? && !step.Late?
    requires !(step.Reject? && step.delivered)
    ensures Delivered(Do(s, step), id) <==> Delivered(s, id)
  {
    match step {
      case Insert(_, _) =>
        forall p | p in s.txs ensures s.txs[p] == Do(s, step).txs[p] {}
        if Delivered(s, id) && !(id in s.rows && s.rows[id].publishedAt.Some?) {
          var p :| p in s.txs && InFlight(s.txs[p], id);
          assert InFlight(Do(s, step).txs[p], id);
        }
      case Claim(poll, _) =>
        var s' := Do(s, step);
        assert !InFlight(s'.txs[poll], id);
        forall p | p in s.txs ensures s'.txs[p] == s.txs[p] {}
      case Mark(poll, at) => FinishDelivers(s, Do(s, step), poll, id, Published(at));
      case Reject(poll, _, at) =>
        FinishDelivers(s, Do(s, step), poll, id, Do(s, step).txs[poll].writes[Current(s, poll)]);
      case Unroutable(poll, at) =>
        FinishDelivers(s, Do(s, step), poll, id, Do(s, step).txs[poll].writes[Current(s, poll)]);
      case Commit(poll) => CommitDelivers(s, poll, id);
      case Reset(_) =>
        forall p | p in s.txs ensures s.txs[p] == Do(s, step).txs[p] {}
    }
  }

  lemma FinishDelivers(s: State, s': State, poll: PollId, id: Id, write: Write)
    requires Inv(s) && Busy(s, poll)
    requires s'.rows == s.rows && s'.txs == s.txs[poll := Finish(s.txs[poll], write)]
    requires write.Published? == s.txs[poll].sent
    ensures Delivered(s', id) <==> Delivered(s, id)
  {
    assert TxOk(s, s.txs[poll]);
    FinishInFlight(s.txs[poll], write, id);
    SameInFlight(s, s', poll, id);
  }

  lemma SameInFlight(s: State, s': State, poll: PollId, id: Id)
    requires poll in s.txs && s'.rows == s.rows && poll in s'.txs && s'.txs == s.txs[poll := s'.txs[poll]]
    requires InFlight(s'.txs[poll], id) <==> InFlight(s.txs[poll], id)
    ensures Delivered(s', id) <==> Delivered(s, id)
  {
    if p :| p in s.txs && InFlight(s.txs[p], id) {
      assert InFlight(s'.txs[p], id);
    }
    if p :| p in s'.txs && InFlight(s'.txs[p], id) {
      assert InFlight(s.txs[p], id);
    }
  }

  lemma FinishInFlight(tx: Tx, write: Write, id: Id)
    requires TxShape(tx) && tx.done < |tx.claimed| && write.Published? == tx.sent
    ensures InFlight(Finish(tx, write), id) <==> InFlight(tx, id)
  {
    assert tx.claimed[tx.done] !in tx.writes;
  }

  lemma CommitDelivers(s: State, poll: PollId, id: Id)
    requires Inv(s) && Can(s, Commit(poll))
    ensures Delivered(Do(s, Commit(poll)), id) <==> Delivered(s, id)
  {
    var s', tx := Do(s, Commit(poll)), s.txs[poll];
    assert TxOk(s, tx);
    forall p | p in s'.txs ensures s'.txs[p] == s.txs[p] {}
    if Delivered(s, id) && !(id in s.rows && s.rows[id].publishedAt.Some?) {
      var p :| p in s.txs && InFlight(s.txs[p], id);
      InFlightIsClaimed(s, p, id);
      if p != poll {
        assert InFlight(s'.txs[p], id);
      }
    }
  }

  lemma StepKeepsOnce(s: State, step: Step)
    requires Inv(s) && OnceInv(s) && Can(s, step) && !step.Rollback? && !(step.Reject? && step.delivered)
    ensures OnceInv(Do(s, step))
  {
    var s' := Do(s, step);
    LogOfStep(s, step);
    forall id ensures Deliveries(s'.log, id) == if Delivered(s', id) then 1 else 0 {
      if step.Publish? {
        PublishDelivers(s, step.poll, id);
        DeliveriesAppend(s.log, DeliveryOf(s, step.poll, true), id);
      } else {
        OtherStepsDeliver(s, step, id);
        assert s'.log == s.log;
      }
    }
  }

  /** If no poll rolled back and no rejected publish was delivered, every row was delivered
      at most once, and exactly once if it is marked. */
  lemma {:induction false} AtMostOnce(steps: seq<Step>)
    requires Admissible(EMPTY, steps)
    requires forall k :: 0 <= k < |steps| ==> !steps[k].Rollback? && !(steps[k].Reject? && steps[k].delivered)
    ensures var s := Exec(EMPTY, steps);
      forall id :: Deliveries(s.log, id) <= 1
        && (id in s.rows && s.rows[id].publishedAt.Some? ==> Deliveries(s.log, id) == 1)
  {
    assert OnceInv(EMPTY);
    RunKeepsOnce(EMPTY, steps);
    var s := Exec(EMPTY, steps);
    forall id
      ensures Deliveries(s.log, id) <= 1
      ensures id in s.rows && s.rows[id].publishedAt.Some? ==> Deliveries(s.log, id) == 1
    {
      assert Deliveries(s.log, id) == if Delivered(s, id) then 1 else 0;
    }
  }

  lemma {:induction false} RunKeepsOnce(s: State, steps: seq<Step>)
    requires Inv(s) && OnceInv(s) && Admissible(s, steps)
    requires forall k :: 0 <= k < |steps| ==> !steps[k].Rollback? && !(steps[k].Reject? && steps[k].delivered)
    ensures OnceInv(Exec(s, steps))
    decreases |steps|
  {
    if steps != [] {
      StepKeepsInv(s, steps[0]);
      StepKeepsOnce(s, steps[0]);
      RunKeepsOnce(Do(s, steps[0]), steps[1..]);
    }
  }
}
