/** What one poll does to the outbox and to the brokers, row by row, in plain terms. */
module RelayEffects {
  import opened Prelude
  import opened Messages
  import opened Outbox
  import opened OutboxRelay

  predicate Routed(row: Row) {
    row.eventType == "moderation.job" || row.eventType == "moderation.completed"
  }

  function RouteOf(row: Row): Route
    requires Routed(row)
  {
    if row.eventType == "moderation.job" then Route(RabbitMq, "moderation.job")
    else Route(Kafka, "moderation-completed-events")
  }

  lemma RoutesExact(row: Row)
    ensures row.eventType in RELAY_ROUTING <==> Routed(row)
    ensures Routed(row) ==> RELAY_ROUTING[row.eventType] == RouteOf(row)
  {
  }

  /** The publish call of this row resolves. */
  predicate Succeeds(row: Row, w: Weather) {
    Routed(row) && w.publish.Resolved?
  }

  /** The row a commit leaves: marked if its publish resolved, otherwise with one more failed attempt. */
  function Handled(row: Row, w: Weather, at: int): Row {
    if Succeeds(row, w) then row.(publishedAt := Some(at))
    else row.(attempts := row.attempts + 1, lastAttemptAt := Some(at))
  }

  /** A broker accepts the row's envelope: if the publish resolves, or is rejected although it got there. */
  predicate Arrives(row: Row, w: Weather) {
    Routed(row) && (w.publish.Resolved? || w.publish.delivered)
  }

  /** What the brokers accept, in claim order, up to and including the first row whose update fails. */
  function Sent(batch: seq<Id>, rows: seq<Row>, ws: seq<Weather>): seq<Delivery>
    requires |batch| == |rows| == |ws|
  {
    if batch == [] then [] else
      var row := rows[0];
      (if !Arrives(row, ws[0]) then [] else
         [Delivery(Envelope(batch[0], row.correlationId, row.eventType, row.eventVersion, row.occurredAt, row.source,
                            row.payload),
                   RouteOf(row), ws[0].publish.Resolved?)])
      + if ws[0].updates then Sent(batch[1..], rows[1..], ws[1..]) else []
  }

  // ----- the run, from row i on -----

  function WriteOf(row: Row, w: Weather, at: int): Write {
    if Succeeds(row, w) then Published(at) else Failed(row.attempts + 1, at)
  }

  function Writes(batch: seq<Id>, rows: seq<Row>, ws: seq<Weather>, at: int, i: nat): map<Id, Write>
    requires |batch| == |rows| == |ws| && i <= |batch|
  {
    if i == 0 then map[] else Writes(batch, rows, ws, at, i - 1)[batch[i - 1] := WriteOf(rows[i - 1], ws[i - 1], at)]
  }

  lemma {:induction false} WritesKeys(batch: seq<Id>, rows: seq<Row>, ws: seq<Weather>, at: int, i: nat)
    requires |batch| == |rows| == |ws| && i <= |batch|
    ensures forall id :: id in Writes(batch, rows, ws, at, i) <==> id in batch[..i]
  {
    if i > 0 {
      WritesKeys(batch, rows, ws, at, i - 1);
      assert batch[..i] == batch[..i - 1] + [batch[i - 1]];
    }
  }

  lemma {:induction false} WritesAt(batch: seq<Id>, rows: seq<Row>, ws: seq<Weather>, at: int, i: nat, k: nat)
    requires |batch| == |rows| == |ws| && k < i <= |batch| && Distinct(batch)
    ensures batch[k] in Writes(batch, rows, ws, at, i)
    ensures Writes(batch, rows, ws, at, i)[batch[k]] == WriteOf(rows[k], ws[k], at)
  {
    if k < i - 1 {
      WritesAt(batch, rows, ws, at, i - 1, k);
      assert batch[k] != batch[i - 1];
    }
  }

  /** The poll stands before row i, with the rows before it written. */
  ghost predicate At(s: State, poll: PollId, batch: seq<Id>, rows: seq<Row>, ws: seq<Weather>, at: int, i: nat)
    requires |batch| == |rows| == |ws|
  {
    && i <= |batch| && poll in s.txs
    && var tx := s.txs[poll];
       && tx.claimed == batch && tx.done == i && !tx.sent && tx.writes == Writes(batch, rows, ws, at, i)
       && (forall k :: 0 <= k < |batch| ==> batch[k] in tx.snapshot && tx.snapshot[batch[k]] == rows[k])
  }

  /** Every row update from row i on reaches the database. */
  predicate AllUpdate(ws: seq<Weather>, i: nat) {
    forall k :: i <= k < |ws| ==> ws[k].updates
  }

  ghost predicate Effect(s: State, s': State, batch: seq<Id>, rows: seq<Row>, ws: seq<Weather>, commits: bool, at: int,
                         i: nat)
    requires |batch| == |rows| == |ws| && i <= |batch|
  {
    && s'.log == s.log + Sent(batch[i..], rows[i..], ws[i..])
    && s'.rows == if commits && AllUpdate(ws, i) then ApplyWrites(s.rows, Writes(batch, rows, ws, at, |batch|))
                  else s.rows
  }

  lemma LastStep(s: State, poll: PollId, batch: seq<Id>, rows: seq<Row>, ws: seq<Weather>, commits: bool, at: int)
    requires |batch| == |rows| == |ws| && At(s, poll, batch, rows, ws, at, |batch|)
    ensures var last := if commits then Step.Commit(poll) else Step.Rollback(poll);
      && Admissible(s, [last]) && Effect(s, Exec(s, [last]), batch, rows, ws, commits, at, |batch|)
  {
    ExecOne(s, if commits then Step.Commit(poll) else Step.Rollback(poll));
    assert s.log + [] == s.log;
  }

  lemma RowEffect(s: State, poll: PollId, batch: seq<Id>, rows: seq<Row>, ws: seq<Weather>, at: int, i: nat)
    requires |batch| == |rows| == |ws| && i < |batch| && At(s, poll, batch, rows, ws, at, i)
    ensures AtRow(s, poll, rows[i]) && Current(s, poll) == batch[i]
    ensures var s' := AfterRow(s, poll, rows[i], ws[i], at);
      && s'.rows == s.rows && s'.log == s.log + RowSends(batch[i], rows[i], ws[i]) && poll in s'.txs
      && (ws[i].updates ==> At(s', poll, batch, rows, ws, at, i + 1))
  {
    RoutesExact(rows[i]);
  }

  lemma SendsOne(batch: seq<Id>, rows: seq<Row>, ws: seq<Weather>, i: nat)
    requires |batch| == |rows| == |ws| && i < |batch|
    ensures Sent(batch[i..], rows[i..], ws[i..]) == RowSends(batch[i], rows[i], ws[i]) +
            if ws[i].updates then Sent(batch[i + 1..], rows[i + 1..], ws[i + 1..]) else []
  {
    RoutesExact(rows[i]);
    assert batch[i..][1..] == batch[i + 1..] && rows[i..][1..] == rows[i + 1..] && ws[i..][1..] == ws[i + 1..];
  }

  lemma {:induction false} SuffixEffect(s: State, poll: PollId, batch: seq<Id>, rows: seq<Row>, ws: seq<Weather>,
                                        commits: bool, at: int, i: nat)
    requires |batch| == |rows| == |ws| && At(s, poll, batch, rows, ws, at, i)
    ensures var steps := BatchSteps(poll, rows[i..], ws[i..], commits, at);
      Admissible(s, steps) && Effect(s, Exec(s, steps), batch, rows, ws, commits, at, i)
    decreases |batch| - i
  {
    if i == |batch| {
      LastStep(s, poll, batch, rows, ws, commits, at);
    } else {
      RowEffect(s, poll, batch, rows, ws, at, i);
      if ws[i].updates {
        SuffixEffect(AfterRow(s, poll, rows[i], ws[i], at), poll, batch, rows, ws, commits, at, i + 1);
        GoesOn(s, poll, batch, rows, ws, commits, at, i);
      } else {
        Stops(s, poll, batch, rows, ws, commits, at, i);
      }
    }
  }

  lemma BatchNext(poll: PollId, rows: seq<Row>, ws: seq<Weather>, commits: bool, at: int, i: nat)
    requires |rows| == |ws| && i < |rows|
    ensures BatchSteps(poll, rows[i..], ws[i..], commits, at) ==
            RowSteps(poll, rows[i], ws[i], at) +
            if ws[i].updates then BatchSteps(poll, rows[i + 1..], ws[i + 1..], commits, at) else [Step.Rollback(poll)]
  {
    assert rows[i..][1..] == rows[i + 1..] && ws[i..][1..] == ws[i + 1..];
  }

  lemma GoesOn(s: State, poll: PollId, batch: seq<Id>, rows: seq<Row>, ws: seq<Weather>, commits: bool, at: int, i: nat)
    requires |batch| == |rows| == |ws| && i < |batch| && AtRow(s, poll, rows[i]) && ws[i].updates
    requires Current(s, poll) == batch[i]
    requires var s1 := AfterRow(s, poll, rows[i], ws[i], at);
      var rest := BatchSteps(poll, rows[i + 1..], ws[i + 1..], commits, at);
      Admissible(s1, rest) && Effect(s1, Exec(s1, rest), batch, rows, ws, commits, at, i + 1)
    ensures var steps := BatchSteps(poll, rows[i..], ws[i..], commits, at);
      Admissible(s, steps) && Effect(s, Exec(s, steps), batch, rows, ws, commits, at, i)
  {
    var s1 := AfterRow(s, poll, rows[i], ws[i], at);
    var rest := BatchSteps(poll, rows[i + 1..], ws[i + 1..], commits, at);
    RowRun(s, poll, rows[i], ws[i], at);
    BatchNext(poll, rows, ws, commits, at, i);
    ExecAppend(s, RowSteps(poll, rows[i], ws[i], at), rest);
    SendsOne(batch, rows, ws, i);
    AddedLog(s.log, RowSends(batch[i], rows[i], ws[i]), Sent(batch[i + 1..], rows[i + 1..], ws[i + 1..]));
    assert AllUpdate(ws, i) <==> AllUpdate(ws, i + 1);
  }

  lemma AddedLog(a: seq<Delivery>, b: seq<Delivery>, c: seq<Delivery>)
    ensures (a + b) + c == a + (b + c)
  {
  }

  lemma Stops(s: State, poll: PollId, batch: seq<Id>, rows: seq<Row>, ws: seq<Weather>, commits: bool, at: int, i: nat)
    requires |batch| == |rows| == |ws| && i < |batch| && AtRow(s, poll, rows[i]) && !ws[i].updates
    requires Current(s, poll) == batch[i]
    ensures var steps := BatchSteps(poll, rows[i..], ws[i..], commits, at);
      Admissible(s, steps) && Effect(s, Exec(s, steps), batch, rows, ws, commits, at, i)
  {
    var s1 := AfterRow(s, poll, rows[i], ws[i], at);
    RowRun(s, poll, rows[i], ws[i], at);
    BatchNext(poll, rows, ws, commits, at, i);
    ExecOne(s1, Step.Rollback(poll));
    ExecAppend(s, RowSteps(poll, rows[i], ws[i], at), [Step.Rollback(poll)]);
    SendsOne(batch, rows, ws, i);
    AddedLog(s.log, RowSends(batch[i], rows[i], ws[i]), []);
    assert !AllUpdate(ws, i);
  }

  // ----- a whole poll -----

  /** What a poll over `batch` leaves. The brokers have accepted the rows that arrive, in claim order. If all
      row updates and the commit go through, each claimed row is marked or has one more failed attempt, and
      no other row has changed; otherwise no row has. */
  ghost predicate PollLeaves(s: State, s': State, batch: seq<Id>, rows: seq<Row>, ws: seq<Weather>, commits: bool,
                             at: int)
    requires |batch| == |rows| == |ws|
  {
    && s'.log == s.log + Sent(batch, rows, ws)
    && s'.rows.Keys == s.rows.Keys
    && (forall k :: 0 <= k < |batch| ==> batch[k] in s'.rows)
    && (commits && AllUpdate(ws, 0) ==>
          forall k :: 0 <= k < |batch| ==> s'.rows[batch[k]] == Handled(rows[k], ws[k], at))
    && (!(commits && AllUpdate(ws, 0)) ==> s'.rows == s.rows)
    && (forall id :: id in s.rows && id !in batch ==> s'.rows[id] == s.rows[id])
  }

  /** The run of the machine that a poll is has exactly that effect. */
  lemma PollEffect(s: State, poll: PollId, batch: seq<Id>, ws: seq<Weather>, commits: bool, at: int)
    requires Can(s, Step.Claim(poll, batch)) && |ws| == |batch|
    ensures var rows := RowsOf(s.rows, batch);
      var steps := [Step.Claim(poll, batch)] + BatchSteps(poll, rows, ws, commits, at);
      Admissible(s, steps) && PollLeaves(s, Exec(s, steps), batch, rows, ws, commits, at)
  {
    var rows := RowsOf(s.rows, batch);
    var s1 := Do(s, Step.Claim(poll, batch));
    ExecOne(s, Step.Claim(poll, batch));
    ClaimStarts(s, poll, batch, rows, ws, at);
    SuffixEffect(s1, poll, batch, rows, ws, commits, at, 0);
    assert batch[0..] == batch && rows[0..] == rows && ws[0..] == ws;
    ExecAppend(s, [Step.Claim(poll, batch)], BatchSteps(poll, rows, ws, commits, at));
    AppliedWrites(s.rows, batch, ws, at);
  }

  lemma ClaimStarts(s: State, poll: PollId, batch: seq<Id>, rows: seq<Row>, ws: seq<Weather>, at: int)
    requires Can(s, Step.Claim(poll, batch)) && rows == RowsOf(s.rows, batch) && |ws| == |batch|
    ensures At(Do(s, Step.Claim(poll, batch)), poll, batch, rows, ws, at, 0)
    ensures Do(s, Step.Claim(poll, batch)).rows == s.rows && Do(s, Step.Claim(poll, batch)).log == s.log
  {
  }

  lemma AppliedWrites(before: map<Id, Row>, batch: seq<Id>, ws: seq<Weather>, at: int)
    requires Distinct(batch) && |ws| == |batch| && forall id :: id in batch ==> id in before
    ensures var rows := RowsOf(before, batch);
      var after := ApplyWrites(before, Writes(batch, rows, ws, at, |batch|));
      && after.Keys == before.Keys
      && (forall k :: 0 <= k < |batch| ==> batch[k] in after && after[batch[k]] == Handled(rows[k], ws[k], at))
      && (forall id :: id in before && id !in batch ==> after[id] == before[id])
  {
    var rows := RowsOf(before, batch);
    WritesKeys(batch, rows, ws, at, |batch|);
    assert batch[..|batch|] == batch;
    var after := ApplyWrites(before, Writes(batch, rows, ws, at, |batch|));
    forall k | 0 <= k < |batch| ensures batch[k] in after && after[batch[k]] == Handled(rows[k], ws[k], at) {
      WritesAt(batch, rows, ws, at, |batch|, k);
      assert batch[k] in batch;
    }
  }
}
