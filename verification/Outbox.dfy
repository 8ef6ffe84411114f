/** The transactional outbox and any number of competing relay polls.

    Committed rows live in `rows`. Each poll is a transaction that claims a batch with
    FOR UPDATE SKIP LOCKED, talks to the brokers while it holds the row locks, buffers its
    row updates and either commits them all or rolls them all back. Publishing is not
    transactional: `log` never shrinks. A step label carries everything the scheduler,
    the brokers and the clock decide, so a run is a sequence of labels. */
module Outbox {
  import opened Prelude
  import opened Messages

  const MAX_ATTEMPTS := 10
  const BATCH_SIZE := 20

  type PollId = nat

  datatype Row = Row(
    correlationId: Id,
    eventType: string,
    eventVersion: int,
    source: string,
    occurredAt: int,
    payload: Payload,
    publishedAt: Option<int>,
    attempts: nat,
    lastAttemptAt: Option<int>)

  /** A row update that is buffered until its transaction commits. */
  datatype Write = Published(at: int) | Failed(attempts: nat, at: int)

  /** One broker acceptance. `resolved` tells whether the relay's publish call resolved. */
  datatype Delivery = Delivery(envelope: Envelope, route: Route, resolved: bool)

  /** A poll in flight: the claimed ids in claim order, the rows as the claim read them,
      how many of them are finished, whether the current one has been sent but not marked. */
  datatype Tx = Tx(claimed: seq<Id>, snapshot: map<Id, Row>, done: nat, sent: bool, writes: map<Id, Write>)

  /** `failures` counts, per row, the committed failures since its last reset; `rollbacks`
      and `phantoms` count rolled back polls and rejected publishes that were delivered anyway. */
  datatype State = State(
    rows: map<Id, Row>,
    txs: map<PollId, Tx>,
    log: seq<Delivery>,
    failures: map<Id, nat>,
    rollbacks: nat,
    phantoms: nat)

  datatype Step =
    | Insert(id: Id, row: Row)
    | Claim(poll: PollId, batch: seq<Id>)
    | Publish(poll: PollId)
    | Mark(poll: PollId, at: int)
    | Reject(poll: PollId, delivered: bool, at: int)
    | Unroutable(poll: PollId, at: int)
    | Commit(poll: PollId)
    | Rollback(poll: PollId)
    | Late(id: Id)
    | Reset(id: Id)

  const EMPTY := State(map[], map[], [], map[], 0, 0)

  function EnvelopeOf(id: Id, row: Row): Envelope {
    Envelope(id, row.correlationId, row.eventType, row.eventVersion, row.occurredAt, row.source, row.payload)
  }

  predicate Eligible(row: Row) {
    row.publishedAt.None? && row.attempts < MAX_ATTEMPTS
  }

  predicate Quarantined(row: Row) {
    row.publishedAt.None? && row.attempts >= MAX_ATTEMPTS
  }

  ghost predicate Locked(s: State, id: Id) {
    exists p :: p in s.txs && id in s.txs[p].snapshot
  }

  /** The rows the claim query may return: the oldest unlocked eligible rows, at most BATCH_SIZE,
      and fewer only when no further row qualifies. Ties in occurredAt are broken arbitrarily. */
  ghost predicate IsClaim(s: State, batch: seq<Id>) {
    && Distinct(batch)
    && |batch| <= BATCH_SIZE
    && (forall id :: id in batch ==> id in s.rows && Eligible(s.rows[id]) && !Locked(s, id))
    && (forall i, j :: 0 <= i < j < |batch| ==> s.rows[batch[i]].occurredAt <= s.rows[batch[j]].occurredAt)
    && (forall id :: id in s.rows && Eligible(s.rows[id]) && !Locked(s, id) && id !in batch ==>
          |batch| == BATCH_SIZE && forall b :: b in batch ==> s.rows[b].occurredAt <= s.rows[id].occurredAt)
  }

  /** The poll has a row left to handle. */
  predicate Busy(s: State, poll: PollId) {
    poll in s.txs && s.txs[poll].done < |s.txs[poll].claimed|
  }

  function Current(s: State, poll: PollId): Id
    requires Busy(s, poll)
  {
    s.txs[poll].claimed[s.txs[poll].done]
  }

  /** The poll is about to handle a claimed row that has a route. */
  predicate ReadyToPublish(s: State, poll: PollId) {
    && Busy(s, poll) && !s.txs[poll].sent
    && Current(s, poll) in s.txs[poll].snapshot
    && s.txs[poll].snapshot[Current(s, poll)].eventType in RELAY_ROUTING
  }

  /** `Late` is a publish that resolves after the transaction of its poll was rolled back, for instance
      by its timeout; any row may be the one, once some poll rolled back. */
  ghost predicate Can(s: State, step: Step) {
    match step
    case Insert(id, row) => id !in s.rows && row.publishedAt.None? && row.attempts == 0
    case Claim(poll, batch) => poll !in s.txs && IsClaim(s, batch)
    case Publish(poll) => ReadyToPublish(s, poll)
    case Mark(poll, _) => Busy(s, poll) && s.txs[poll].sent
    case Reject(poll, _, _) => ReadyToPublish(s, poll)
    case Unroutable(poll, _) =>
      && Busy(s, poll) && !s.txs[poll].sent
      && Current(s, poll) in s.txs[poll].snapshot
      && s.txs[poll].snapshot[Current(s, poll)].eventType !in RELAY_ROUTING
    case Commit(poll) => poll in s.txs && !Busy(s, poll)
    case Rollback(poll) => poll in s.txs
    case Late(id) => s.rollbacks > 0 && id in s.rows && s.rows[id].eventType in RELAY_ROUTING
    case Reset(id) => id in s.rows && id in s.failures && !Locked(s, id)
  }

  function Finish(tx: Tx, write: Write): Tx
    requires tx.done < |tx.claimed|
  {
    tx.(done := tx.done + 1, sent := false, writes := tx.writes[tx.claimed[tx.done] := write])
  }

  function DeliveryOf(s: State, poll: PollId, resolved: bool): Delivery
    requires ReadyToPublish(s, poll)
  {
    var id := Current(s, poll);
    var row := s.txs[poll].snapshot[id];
    Delivery(EnvelopeOf(id, row), RELAY_ROUTING[row.eventType], resolved)
  }

  function RowDelivery(id: Id, row: Row): Delivery
    requires row.eventType in RELAY_ROUTING
  {
    Delivery(EnvelopeOf(id, row), RELAY_ROUTING[row.eventType], true)
  }

  function ApplyWrite(row: Row, write: Write): Row {
    match write
    case Published(at) => row.(publishedAt := Some(at))
    case Failed(attempts, at) => row.(attempts := attempts, lastAttemptAt := Some(at))
  }

  function ApplyWrites(rows: map<Id, Row>, writes: map<Id, Write>): map<Id, Row> {
    map id | id in rows :: if id in writes then ApplyWrite(rows[id], writes[id]) else rows[id]
  }

  function CountFailures(failures: map<Id, nat>, writes: map<Id, Write>): map<Id, nat> {
    map id | id in failures :: if id in writes && writes[id].Failed? then failures[id] + 1 else failures[id]
  }

  ghost function Do(s: State, step: Step): State
    requires Can(s, step)
  {
    match step
    case Insert(id, row) => s.(rows := s.rows[id := row], failures := s.failures[id := 0])
    case Claim(poll, batch) =>
      s.(txs := s.txs[poll := Tx(batch, map id | id in batch :: s.rows[id], 0, false, map[])])
    case Publish(poll) =>
      s.(log := s.log + [DeliveryOf(s, poll, true)], txs := s.txs[poll := s.txs[poll].(sent := true)])
    case Mark(poll, at) => s.(txs := s.txs[poll := Finish(s.txs[poll], Published(at))])
    case Reject(poll, delivered, at) =>
      var attempts := s.txs[poll].snapshot[Current(s, poll)].attempts + 1;
      s.(log := if delivered then s.log + [DeliveryOf(s, poll, false)] else s.log,
         phantoms := if delivered then s.phantoms + 1 else s.phantoms,
         txs := s.txs[poll := Finish(s.txs[poll], Failed(attempts, at))])
    case Unroutable(poll, at) =>
      var attempts := s.txs[poll].snapshot[Current(s, poll)].attempts + 1;
      s.(txs := s.txs[poll := Finish(s.txs[poll], Failed(attempts, at))])
    case Commit(poll) =>
      s.(rows := ApplyWrites(s.rows, s.txs[poll].writes),
         failures := CountFailures(s.failures, s.txs[poll].writes),
         txs := s.txs - {poll})
    case Rollback(poll) => s.(txs := s.txs - {poll}, rollbacks := s.rollbacks + 1)
    case Late(id) => s.(log := s.log + [RowDelivery(id, s.rows[id])])
    case Reset(id) => s.(rows := s.rows[id := s.rows[id].(attempts := 0)], failures := s.failures[id := 0])
  }

  ghost predicate Admissible(s: State, steps: seq<Step>)
    decreases |steps|
  {
    steps == [] || (Can(s, steps[0]) && Admissible(Do(s, steps[0]), steps[1..]))
  }

  ghost function Exec(s: State, steps: seq<Step>): State
    requires Admissible(s, steps)
    decreases |steps|
  {
    if steps == [] then s else Exec(Do(s, steps[0]), steps[1..])
  }

  // ----- what every step keeps -----

  /** Some publish of this row resolved, at the broker and destination its type routes to. */
  ghost predicate Logged(log: seq<Delivery>, id: Id, row: Row) {
    && row.eventType in RELAY_ROUTING
    && Delivery(EnvelopeOf(id, row), RELAY_ROUTING[row.eventType], true) in log
  }

  ghost predicate TxShape(tx: Tx) {
    && |tx.claimed| <= BATCH_SIZE
    && Distinct(tx.claimed)
    && tx.done <= |tx.claimed|
    && (forall id :: id in tx.snapshot <==> id in tx.claimed)
    && (forall k :: 0 <= k < |tx.claimed| ==> (tx.claimed[k] in tx.writes <==> k < tx.done))
    && tx.writes.Keys <= tx.snapshot.Keys
  }

  /** The locks keep the committed rows equal to what the claim read. */
  ghost predicate TxLocks(rows: map<Id, Row>, tx: Tx) {
    forall id :: id in tx.snapshot ==> id in rows && rows[id] == tx.snapshot[id] && Eligible(rows[id])
  }

  ghost predicate WriteOk(log: seq<Delivery>, id: Id, row: Row, write: Write) {
    match write
    case Published(_) => Logged(log, id, row)
    case Failed(attempts, _) => attempts == row.attempts + 1
  }

  ghost predicate TxLogged(log: seq<Delivery>, tx: Tx) {
    && (tx.sent ==>
          && tx.done < |tx.claimed|
          && tx.claimed[tx.done] in tx.snapshot
          && Logged(log, tx.claimed[tx.done], tx.snapshot[tx.claimed[tx.done]]))
    && (forall id :: id in tx.writes ==> id in tx.snapshot && WriteOk(log, id, tx.snapshot[id], tx.writes[id]))
  }

  ghost predicate TxOk(s: State, tx: Tx) {
    TxShape(tx) && TxLocks(s.rows, tx) && TxLogged(s.log, tx)
  }

  ghost predicate Disjoint(txs: map<PollId, Tx>) {
    forall p, q :: p in txs && q in txs && p != q ==> txs[p].snapshot.Keys !! txs[q].snapshot.Keys
  }

  ghost predicate RowOk(log: seq<Delivery>, id: Id, row: Row, failures: nat) {
    && row.attempts == failures <= MAX_ATTEMPTS
    && (row.publishedAt.Some? ==> Logged(log, id, row))
  }

  ghost predicate RowsOk(s: State) {
    && s.failures.Keys == s.rows.Keys
    && (forall id :: id in s.rows ==> RowOk(s.log, id, s.rows[id], s.failures[id]))
    && (forall d :: d in s.log ==> d.envelope.messageId in s.rows)
  }

  ghost predicate Inv(s: State) {
    && RowsOk(s)
    && (forall p :: p in s.txs ==> TxOk(s, s.txs[p]))
    && Disjoint(s.txs)
  }

  ghost predicate Extends(log: seq<Delivery>, log': seq<Delivery>) {
    forall d :: d in log ==> d in log'
  }

  lemma LoggedGrows(log: seq<Delivery>, log': seq<Delivery>, tx: Tx)
    requires Extends(log, log') && TxLogged(log, tx)
    ensures TxLogged(log', tx)
  {
  }

  /** A step that touches no committed row and only one poll, whose claim it leaves alone. */
  lemma PollStepKeepsInv(s: State, s': State, poll: PollId)
    requires Inv(s) && poll in s.txs && poll in s'.txs
    requires s'.rows == s.rows && s'.failures == s.failures
    requires Extends(s.log, s'.log) && forall d :: d in s'.log ==> d.envelope.messageId in s.rows
    requires s'.txs == s.txs[poll := s'.txs[poll]]
    requires TxShape(s'.txs[poll]) && s'.txs[poll].snapshot == s.txs[poll].snapshot && TxLogged(s'.log, s'.txs[poll])
    ensures Inv(s')
  {
    forall p | p in s'.txs ensures TxOk(s', s'.txs[p]) {
      if p == poll {
        assert TxLocks(s.rows, s.txs[p]);
      } else {
        LoggedGrows(s.log, s'.log, s.txs[p]);
      }
    }
  }

  lemma FinishShape(tx: Tx, write: Write)
    requires TxShape(tx) && tx.done < |tx.claimed|
    ensures TxShape(Finish(tx, write)) && tx.claimed[tx.done] in tx.snapshot
  {
    var tx' := Finish(tx, write);
    assert tx.claimed[tx.done] in tx.claimed;
    forall k | 0 <= k < |tx'.claimed| ensures tx'.claimed[k] in tx'.writes <==> k < tx'.done {
      if k < tx.done {
        assert tx.claimed[k] != tx.claimed[tx.done];
      } else if k > tx.done {
        assert tx.claimed[tx.done] != tx.claimed[k];
      }
    }
  }

  /** The log one poll step appends. */
  ghost function Sends(s: State, step: Step): seq<Delivery>
    requires Can(s, step)
  {
    match step
    case Publish(poll) => [DeliveryOf(s, poll, true)]
    case Reject(poll, delivered, _) => if delivered then [DeliveryOf(s, poll, false)] else []
    case Late(id) => [RowDelivery(id, s.rows[id])]
    case _ => []
  }

  lemma LogOfStep(s: State, step: Step)
    requires Can(s, step)
    ensures Do(s, step).log == s.log + Sends(s, step)
    ensures Extends(s.log, Do(s, step).log)
  {
  }

  lemma PublishKeepsInv(s: State, poll: PollId)
    requires Inv(s) && Can(s, Publish(poll))
    ensures Inv(Do(s, Publish(poll)))
  {
    var s', tx := Do(s, Publish(poll)), s.txs[poll];
    LogOfStep(s, Publish(poll));
    assert TxOk(s, tx);
    assert DeliveryOf(s, poll, true) in s'.log;
    LoggedGrows(s.log, s'.log, tx);
    PollStepKeepsInv(s, s', poll);
  }

  lemma MarkKeepsInv(s: State, poll: PollId, at: int)
    requires Inv(s) && Can(s, Mark(poll, at))
    ensures Inv(Do(s, Mark(poll, at)))
  {
    assert TxOk(s, s.txs[poll]);
    FinishShape(s.txs[poll], Published(at));
    PollStepKeepsInv(s, Do(s, Mark(poll, at)), poll);
  }

  /** Recording a failure leaves the poll in order. */
  lemma FailureKeepsTx(log: seq<Delivery>, log': seq<Delivery>, tx: Tx, at: int)
    requires TxShape(tx) && TxLogged(log, tx) && Extends(log, log')
    requires tx.done < |tx.claimed| && tx.claimed[tx.done] in tx.snapshot
    ensures var tx' := Finish(tx, Failed(tx.snapshot[tx.claimed[tx.done]].attempts + 1, at));
      TxShape(tx') && TxLogged(log', tx')
  {
    LoggedGrows(log, log', tx);
    FinishShape(tx, Failed(tx.snapshot[tx.claimed[tx.done]].attempts + 1, at));
  }

  /** The poll fails its current row, and the brokers may have accepted that row. */
  ghost predicate FailsRow(s: State, s': State, poll: PollId, at: int) {
    && Busy(s, poll) && Current(s, poll) in s.txs[poll].snapshot
    && s'.rows == s.rows && s'.failures == s.failures
    && s'.txs == s.txs[poll := Finish(s.txs[poll], Failed(s.txs[poll].snapshot[Current(s, poll)].attempts + 1, at))]
    && Extends(s.log, s'.log) && forall d :: d in s'.log ==> d in s.log || d.envelope.messageId == Current(s, poll)
  }

  lemma FailureKeepsPoll(s: State, s': State, poll: PollId, at: int)
    requires FailsRow(s, s', poll, at) && TxShape(s.txs[poll]) && TxLogged(s.log, s.txs[poll])
    requires s.txs[poll].snapshot.Keys <= s.rows.Keys && forall d :: d in s.log ==> d.envelope.messageId in s.rows
    ensures TxShape(s'.txs[poll]) && s'.txs[poll].snapshot == s.txs[poll].snapshot && TxLogged(s'.log, s'.txs[poll])
    ensures forall d :: d in s'.log ==> d.envelope.messageId in s.rows
  {
    FailureKeepsTx(s.log, s'.log, s.txs[poll], at);
    assert Current(s, poll) in s.rows;
  }

  lemma FailureKeepsInv(s: State, s': State, poll: PollId, at: int)
    requires Inv(s) && FailsRow(s, s', poll, at)
    ensures Inv(s')
  {
    PollInOrder(s, poll);
    FailureKeepsPoll(s, s', poll, at);
    PollStepKeepsInv(s, s', poll);
  }

  lemma PollInOrder(s: State, poll: PollId)
    requires Inv(s) && poll in s.txs
    ensures TxShape(s.txs[poll]) && TxLogged(s.log, s.txs[poll])
    ensures s.txs[poll].snapshot.Keys <= s.rows.Keys
    ensures forall d :: d in s.log ==> d.envelope.messageId in s.rows
  {
    assert TxOk(s, s.txs[poll]);
  }

  lemma FailureShape(s: State, step: Step)
    requires Can(s, step) && (step.Reject? || step.Unroutable?)
    ensures FailsRow(s, Do(s, step), step.poll, step.at)
  {
    LogOfStep(s, step);
  }

  lemma LateKeepsInv(s: State, id: Id)
    requires Inv(s) && Can(s, Late(id))
    ensures Inv(Do(s, Late(id)))
  {
    var s' := Do(s, Late(id));
    LogOfStep(s, Late(id));
    forall p | p in s'.txs ensures TxOk(s', s'.txs[p]) {
      assert TxOk(s, s.txs[p]);
      LoggedGrows(s.log, s'.log, s.txs[p]);
    }
    forall row | row in s'.rows ensures RowOk(s'.log, row, s'.rows[row], s'.failures[row]) {
      assert RowOk(s.log, row, s.rows[row], s.failures[row]);
    }
  }

  lemma ClaimKeepsInv(s: State, poll: PollId, batch: seq<Id>)
    requires Inv(s) && Can(s, Claim(poll, batch))
    ensures Inv(Do(s, Claim(poll, batch)))
  {
    var s' := Do(s, Claim(poll, batch));
    var tx := s'.txs[poll];
    forall q | q in s.txs ensures s.txs[q].snapshot.Keys !! tx.snapshot.Keys {
      forall id | id in tx.snapshot ensures id !in s.txs[q].snapshot {
        assert !Locked(s, id);
      }
    }
    assert TxOk(s', tx);
  }

  lemma InsertKeepsInv(s: State, id: Id, row: Row)
    requires Inv(s) && Can(s, Insert(id, row))
    ensures Inv(Do(s, Insert(id, row)))
  {
    var s' := Do(s, Insert(id, row));
    forall p | p in s'.txs ensures TxOk(s', s'.txs[p]) {
      assert TxLocks(s.rows, s.txs[p]);
    }
  }

  lemma ResetKeepsInv(s: State, id: Id)
    requires Inv(s) && Can(s, Reset(id))
    ensures Inv(Do(s, Reset(id)))
  {
    var s' := Do(s, Reset(id));
    forall p | p in s'.txs ensures TxOk(s', s'.txs[p]) {
      assert TxLocks(s.rows, s.txs[p]) && id !in s.txs[p].snapshot;
    }
  }

  lemma CommitKeepsInv(s: State, poll: PollId)
    requires Inv(s) && Can(s, Commit(poll))
    ensures Inv(Do(s, Commit(poll)))
  {
    var s', tx := Do(s, Commit(poll)), s.txs[poll];
    assert TxOk(s, tx);
    forall id | id in s'.rows ensures RowOk(s'.log, id, s'.rows[id], s'.failures[id]) {
      assert RowOk(s.log, id, s.rows[id], s.failures[id]);
    }
    forall p | p in s'.txs ensures TxOk(s', s'.txs[p]) {
      assert TxOk(s, s.txs[p]) && s.txs[p].snapshot.Keys !! tx.snapshot.Keys;
      assert tx.writes.Keys <= tx.snapshot.Keys;
    }
  }

  lemma StepKeepsInv(s: State, step: Step)
    requires Inv(s) && Can(s, step)
    ensures Inv(Do(s, step))
  {
    match step {
      case Insert(id, row) => InsertKeepsInv(s, id, row);
      case Claim(poll, batch) => ClaimKeepsInv(s, poll, batch);
      case Publish(poll) => PublishKeepsInv(s, poll);
      case Mark(poll, at) => MarkKeepsInv(s, poll, at);
      case Reject(poll, _, at) =>
        FailureShape(s, step);
        FailureKeepsInv(s, Do(s, step), poll, at);
      case Unroutable(poll, at) =>
        FailureShape(s, step);
        FailureKeepsInv(s, Do(s, step), poll, at);
      case Commit(poll) => CommitKeepsInv(s, poll);
      case Rollback(_) =>
      case Late(id) => LateKeepsInv(s, id);
      case Reset(id) => ResetKeepsInv(s, id);
    }
  }

  lemma {:induction false} RunKeepsInv(s: State, steps: seq<Step>)
    requires Inv(s) && Admissible(s, steps)
    ensures Inv(Exec(s, steps))
    decreases |steps|
  {
    if steps != [] {
      StepKeepsInv(s, steps[0]);
      RunKeepsInv(Do(s, steps[0]), steps[1..]);
    }
  }
}
