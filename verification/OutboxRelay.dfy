/** The relay service itself: one poll as a loop over its claimed rows, proved to be a run of the
    outbox machine, so everything proved about runs holds of it. */
module OutboxRelay {
  import opened Messages
  import opened Outbox

  datatype PublishResult = Resolved | Rejected(delivered: bool)

  /** What the outside does while one claimed row is handled: how the publish ends, and whether
      the row update that follows it reaches the database. */
  datatype Weather = Weather(publish: PublishResult, updates: bool)

  function RowSteps(poll: PollId, row: Row, w: Weather, at: int): seq<Step> {
    if row.eventType !in RELAY_ROUTING then [Step.Unroutable(poll, at)] else
      match w.publish
      case Resolved => if w.updates then [Step.Publish(poll), Step.Mark(poll, at)] else [Step.Publish(poll)]
      case Rejected(delivered) => [Step.Reject(poll, delivered, at)]
  }

  /** The rest of a poll: rows in claim order until one update fails, then commit or roll back. */
  function BatchSteps(poll: PollId, rows: seq<Row>, ws: seq<Weather>, commits: bool, at: int): seq<Step>
    requires |rows| == |ws|
  {
    if rows == [] then [if commits then Step.Commit(poll) else Step.Rollback(poll)] else
      RowSteps(poll, rows[0], ws[0], at) +
      if ws[0].updates then BatchSteps(poll, rows[1..], ws[1..], commits, at) else [Step.Rollback(poll)]
  }

  lemma {:induction false} ExecAppend(s: State, a: seq<Step>, b: seq<Step>)
    requires Admissible(s, a) && Admissible(Exec(s, a), b)
    ensures Admissible(s, a + b) && Exec(s, a + b) == Exec(Exec(s, a), b)
    decreases |a|
  {
    if a == [] {
      assert a + b == b;
    } else {
      ExecAppend(Do(s, a[0]), a[1..], b);
      assert (a + b)[1..] == a[1..] + b;
    }
  }

  lemma ExecOne(s: State, step: Step)
    requires Can(s, step)
    ensures Admissible(s, [step]) && Exec(s, [step]) == Do(s, step)
  {
    assert [step][1..] == [];
  }

  lemma ExecTwo(s: State, a: Step, b: Step)
    requires Can(s, a) && Can(Do(s, a), b)
    ensures Admissible(s, [a, b]) && Exec(s, [a, b]) == Do(Do(s, a), b)
  {
    assert [a, b][1..] == [b];
    ExecOne(Do(s, a), b);
  }

  /** The claimed rows as the claim query returned them. */
  function RowsOf(rows: map<Id, Row>, batch: seq<Id>): (pending: seq<Row>)
    requires forall id :: id in batch ==> id in rows
    ensures |pending| == |batch| && forall k :: 0 <= k < |batch| ==> pending[k] == rows[batch[k]]
  {
    seq(|batch|, i requires 0 <= i < |batch| => rows[batch[i]])
  }

  // ----- one row, in closed form -----

  /** A poll is at an unsent claimed row, which it read as `row`. */
  ghost predicate AtRow(s: State, poll: PollId, row: Row) {
    && Busy(s, poll) && !s.txs[poll].sent
    && Current(s, poll) in s.txs[poll].snapshot
    && s.txs[poll].snapshot[Current(s, poll)] == row
  }

  function RowTx(tx: Tx, row: Row, w: Weather, at: int): Tx
    requires tx.done < |tx.claimed|
  {
    if row.eventType in RELAY_ROUTING && w.publish.Resolved? then
      if w.updates then Finish(tx, Published(at)) else tx.(sent := true)
    else
      Finish(tx, Failed(row.attempts + 1, at))
  }

  function RowSends(id: Id, row: Row, w: Weather): seq<Delivery> {
    if row.eventType !in RELAY_ROUTING || (w.publish.Rejected? && !w.publish.delivered) then [] else
      [Delivery(EnvelopeOf(id, row), RELAY_ROUTING[row.eventType], w.publish.Resolved?)]
  }

  function RowPhantoms(row: Row, w: Weather): nat {
    if row.eventType in RELAY_ROUTING && w.publish.Rejected? && w.publish.delivered then 1 else 0
  }

  function AfterRow(s: State, poll: PollId, row: Row, w: Weather, at: int): State
    requires Busy(s, poll)
  {
    s.(txs := s.txs[poll := RowTx(s.txs[poll], row, w, at)],
       log := s.log + RowSends(Current(s, poll), row, w),
       phantoms := s.phantoms + RowPhantoms(row, w))
  }

  lemma RowRun(s: State, poll: PollId, row: Row, w: Weather, at: int)
    requires AtRow(s, poll, row)
    ensures Admissible(s, RowSteps(poll, row, w, at))
    ensures Exec(s, RowSteps(poll, row, w, at)) == AfterRow(s, poll, row, w, at)
  {
    if row.eventType !in RELAY_ROUTING {
      ExecOne(s, Step.Unroutable(poll, at));
    } else if w.publish.Rejected? {
      ExecOne(s, Step.Reject(poll, w.publish.delivered, at));
    } else if w.updates {
      PublishThenMark(s, poll, row, at);
    } else {
      ExecOne(s, Step.Publish(poll));
    }
  }

  lemma PublishThenMark(s: State, poll: PollId, row: Row, at: int)
    requires AtRow(s, poll, row) && row.eventType in RELAY_ROUTING
    ensures Admissible(s, [Step.Publish(poll), Step.Mark(poll, at)])
    ensures Exec(s, [Step.Publish(poll), Step.Mark(poll, at)]) == AfterRow(s, poll, row, Weather(Resolved, true), at)
  {
    ExecTwo(s, Step.Publish(poll), Step.Mark(poll, at));
    var mid := Do(s, Step.Publish(poll));
    assert Finish(mid.txs[poll], Published(at)) == Finish(s.txs[poll], Published(at));
  }

  // ----- a whole poll, as the loop builds it -----

  /** Where the loop stands after i rows: the run so far and what is left of the poll. */
  ghost predicate LoopAt(s0: State, s: State, poll: PollId, batch: seq<Id>, pending: seq<Row>, done: seq<Step>, i: nat,
                         failed: bool) {
    && Admissible(s0, done) && s == Exec(s0, done)
    && Inv(s) && poll in s.txs && s.txs[poll].claimed == batch
    && |pending| == |batch| && i <= |batch|
    && (forall k :: 0 <= k < |batch| ==>
          batch[k] in s.txs[poll].snapshot && s.txs[poll].snapshot[batch[k]] == pending[k])
    && (!failed ==> s.txs[poll].done == i && !s.txs[poll].sent)
  }

  lemma LoopStarts(s: State, poll: PollId, batch: seq<Id>)
    requires Inv(s) && Can(s, Step.Claim(poll, batch))
    ensures LoopAt(s, Do(s, Step.Claim(poll, batch)), poll, batch, RowsOf(s.rows, batch), [Step.Claim(poll, batch)], 0,
                   false)
  {
    ExecOne(s, Step.Claim(poll, batch));
    StepKeepsInv(s, Step.Claim(poll, batch));
  }

  lemma LoopAdvances(s0: State, s: State, poll: PollId, batch: seq<Id>, pending: seq<Row>, done: seq<Step>, i: nat,
                     w: Weather, at: int)
    requires LoopAt(s0, s, poll, batch, pending, done, i, false) && i < |batch|
    ensures AtRow(s, poll, pending[i])
    ensures LoopAt(s0, AfterRow(s, poll, pending[i], w, at), poll, batch, pending,
                   done + RowSteps(poll, pending[i], w, at), i + 1, !w.updates)
  {
    RowRun(s, poll, pending[i], w, at);
    RunKeepsInv(s, RowSteps(poll, pending[i], w, at));
    ExecAppend(s0, done, RowSteps(poll, pending[i], w, at));
  }

  lemma LoopEnds(s0: State, s: State, poll: PollId, batch: seq<Id>, pending: seq<Row>, done: seq<Step>, i: nat,
                 failed: bool, last: Step)
    requires LoopAt(s0, s, poll, batch, pending, done, i, failed)
    requires last == Step.Rollback(poll) || (last == Step.Commit(poll) && !failed && i == |batch|)
    ensures Can(s, last) && Admissible(s0, done + [last]) && Exec(s0, done + [last]) == Do(s, last)
    ensures Inv(Do(s, last)) && poll !in Do(s, last).txs
  {
    ExecOne(s, last);
    ExecAppend(s0, done, [last]);
    StepKeepsInv(s, last);
  }

  /** The outbox table with its open transactions, and what the brokers accepted. The ghost fields
      are the machine's counters. */
  class OutboxStore {
    var rows: map<Id, Row>
    var txs: map<PollId, Tx>
    var log: seq<Delivery>
    ghost var failures: map<Id, nat>
    ghost var rollbacks: nat
    ghost var phantoms: nat

    ghost function Abs(): State
      reads this
    {
      State(rows, txs, log, failures, rollbacks, phantoms)
    }

    constructor ()
      ensures Abs() == EMPTY && Inv(Abs())
    {
      rows, txs, log := map[], map[], [];
      failures, rollbacks, phantoms := map[], 0, 0;
    }

    method ClaimRows(poll: PollId, batch: seq<Id>) returns (pending: seq<Row>)
      requires Can(Abs(), Step.Claim(poll, batch))
      modifies this
      ensures Abs() == Do(old(Abs()), Step.Claim(poll, batch))
      ensures pending == RowsOf(old(rows), batch)
    {
      pending := RowsOf(rows, batch);
      txs := txs[poll := Tx(batch, map id | id in batch :: rows[id], 0, false, map[])];
    }

    /** A broker accepts a delivery; `resolved` is what the publish call tells its caller. */
    method Accept(poll: PollId, d: Delivery)
      requires poll in txs
      modifies this
      ensures Abs() == old(Abs()).(log := old(log) + [d], txs := old(txs)[poll := old(txs)[poll].(sent := d.resolved)],
                                   phantoms := if d.resolved then old(phantoms) else old(phantoms) + 1)
    {
      log := log + [d];
      txs := txs[poll := txs[poll].(sent := d.resolved)];
      phantoms := if d.resolved then phantoms else phantoms + 1;
    }

    /** A row update inside the open transaction. */
    method Update(poll: PollId, write: Write)
      requires Busy(Abs(), poll)
      modifies this`txs
      ensures txs == old(txs)[poll := Finish(old(txs)[poll], write)]
    {
      var tx := txs[poll];
      txs := txs[poll := tx.(done := tx.done + 1, sent := false, writes := tx.writes[tx.claimed[tx.done] := write])];
    }

    method CommitTx(poll: PollId)
      requires Can(Abs(), Step.Commit(poll))
      modifies this
      ensures Abs() == Do(old(Abs()), Step.Commit(poll))
    {
      var writes := txs[poll].writes;
      rows := map id | id in rows :: if id in writes then ApplyWrite(rows[id], writes[id]) else rows[id];
      failures := CountFailures(failures, writes);
      txs := txs - {poll};
    }

    method RollbackTx(poll: PollId)
      requires poll in txs
      modifies this
      ensures Abs() == Do(old(Abs()), Step.Rollback(poll))
    {
      txs := txs - {poll};
      rollbacks := rollbacks + 1;
    }
  }

  class Relay {
    const store: OutboxStore

    constructor (store: OutboxStore)
      ensures this.store == store
    {
      this.store := store;
    }

    /** One interval tick. `weather` says what happens at each claimed row and `commits` whether
        the final commit goes through. */
    method Poll(poll: PollId, batch: seq<Id>, weather: seq<Weather>, commits: bool, at: int)
      requires Inv(store.Abs()) && Can(store.Abs(), Step.Claim(poll, batch)) && |weather| == |batch|
      modifies store
      ensures var steps :=
          [Step.Claim(poll, batch)] + BatchSteps(poll, RowsOf(old(store.rows), batch), weather, commits, at);
        Admissible(old(store.Abs()), steps) && store.Abs() == Exec(old(store.Abs()), steps)
      ensures Inv(store.Abs()) && poll !in store.txs
    {
      ghost var s0 := store.Abs();
      LoopStarts(s0, poll, batch);
      var pending := store.ClaimRows(poll, batch);
      var i, failed, steps := PublishBatch(s0, poll, batch, pending, weather, commits, at);
      ghost var last := if commits && !failed then Step.Commit(poll) else Step.Rollback(poll);
      LoopEnds(s0, store.Abs(), poll, batch, pending, steps, i, failed, last);
      if commits && !failed {
        store.CommitTx(poll);
      } else {
        store.RollbackTx(poll);
      }
    }

    /** The loop over the claimed rows: it ends when a row update fails. */
    method PublishBatch(ghost s0: State, poll: PollId, ghost batch: seq<Id>, pending: seq<Row>, weather: seq<Weather>,
                        ghost commits: bool, at: int)
      returns (i: nat, failed: bool, ghost steps: seq<Step>)
      requires LoopAt(s0, store.Abs(), poll, batch, pending, [Step.Claim(poll, batch)], 0, false)
      requires |weather| == |batch|
      modifies store
      ensures LoopAt(s0, store.Abs(), poll, batch, pending, steps, i, failed) && (failed || i == |batch|)
      ensures [Step.Claim(poll, batch)] + BatchSteps(poll, pending, weather, commits, at)
           == steps + [if commits && !failed then Step.Commit(poll) else Step.Rollback(poll)]
    {
      i, failed, steps := 0, false, [Step.Claim(poll, batch)];
      ghost var all := steps + BatchSteps(poll, pending, weather, commits, at);
      while i < |pending| && !failed
        invariant 0 <= i <= |pending|
        invariant LoopAt(s0, store.Abs(), poll, batch, pending, steps, i, failed)
        invariant all == steps + if failed then [Step.Rollback(poll)]
                                 else BatchSteps(poll, pending[i..], weather[i..], commits, at)
        decreases |pending| - i, !failed
      {
        LoopAdvances(s0, store.Abs(), poll, batch, pending, steps, i, weather[i], at);
        UnfoldBatch(poll, pending[i..], weather[i..], commits, at, steps);
        HandleRow(poll, pending[i], weather[i], at);
        steps := steps + RowSteps(poll, pending[i], weather[i], at);
        failed := !weather[i].updates;
        i := i + 1;
      }
    }

    static lemma UnfoldBatch(poll: PollId, rows: seq<Row>, ws: seq<Weather>, commits: bool, at: int, done: seq<Step>)
      requires |rows| == |ws| > 0
      ensures done + BatchSteps(poll, rows, ws, commits, at)
        == done + RowSteps(poll, rows[0], ws[0], at)
           + if ws[0].updates then BatchSteps(poll, rows[1..], ws[1..], commits, at) else [Step.Rollback(poll)]
    {
    }

    /** One claimed row: route it, publish it, record what happened. */
    method HandleRow(poll: PollId, row: Row, w: Weather, at: int)
      requires AtRow(store.Abs(), poll, row)
      modifies store
      ensures store.Abs() == AfterRow(old(store.Abs()), poll, row, w, at)
    {
      var id := store.txs[poll].claimed[store.txs[poll].done];
      if row.eventType !in RELAY_ROUTING {
        store.Update(poll, Failed(row.attempts + 1, at));
        return;
      }
      var route, envelope := RELAY_ROUTING[row.eventType], EnvelopeOf(id, row);
      match w.publish {
        case Resolved =>
          store.Accept(poll, Delivery(envelope, route, true));
          if w.updates {
            store.Update(poll, Published(at));
          }
        case Rejected(delivered) =>
          if delivered {
            store.Accept(poll, Delivery(envelope, route, false));
          }
          store.Update(poll, Failed(row.attempts + 1, at));
      }
    }
  }
}
