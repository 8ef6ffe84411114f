/** From the content service's verdicts to the trend table: what the analytics service counts, fed with
    what the relay published, are the verdicts the content service applied. */
module EndToEnd {
  import opened Prelude
  import opened Messages
  import Outbox
  import Content
  import Pipeline
  import Rollup
  import RollupProgress

  /** The Kafka event of an applied verdict. */
  function EventOf(a: Content.Applied): Envelope
    requires a.result.payload.Completed?
  {
    Outbox.EnvelopeOf(a.rowId, Content.CompletedRow(a))
  }

  /** How often an applied verdict counts under a trend key. */
  function VerdictCount(a: Content.Applied, key: Rollup.Key): nat {
    if a.result.payload.Completed? && key.date == Rollup.ToDateOnly(a.at)
        && key.verdict == a.result.payload.verdict then
      if a.result.payload.categories == [] then (if key.category == Rollup.UNCATEGORIZED then 1 else 0)
      else multiset(a.result.payload.categories)[key.category]
    else 0
  }

  lemma EventCounts(a: Content.Applied, key: Rollup.Key)
    requires a.result.payload.Completed?
    ensures Rollup.Occurrences(EventOf(a), key) == VerdictCount(a, key)
  {
  }

  /** Added up over the applied verdicts, in the order of their application, whose events were processed. */
  ghost function CountOver(applied: seq<Content.Applied>, processed: set<Id>, key: Rollup.Key): int {
    if applied == [] then 0 else
      var last := applied[|applied| - 1];
      CountOver(applied[..|applied| - 1], processed, key)
      + if last.rowId in processed then VerdictCount(last, key) else 0
  }

  /** The events the rows stand for. */
  ghost function Bodies(rows: map<Id, Outbox.Row>): map<Id, Envelope> {
    map id | id in Content.CompletedRows(rows) :: Outbox.EnvelopeOf(id, rows[id])
  }

  /** The consumer group reads what Kafka accepted in this world, and perhaps records it skips. */
  ghost predicate ReadsFrom(w: Pipeline.World, s: Rollup.State) {
    forall e :: Rollup.InLog(s, e) ==> Pipeline.Accepted(w, e, Pipeline.EVENT_ROUTE)
  }

  lemma AcceptedIsBody(w: Pipeline.World, e: Envelope)
    requires Pipeline.Inv(w) && Pipeline.Accepted(w, e, Pipeline.EVENT_ROUTE)
    ensures e.messageId in Bodies(w.content.outbox.rows) && Bodies(w.content.outbox.rows)[e.messageId] == e
  {
    var d :| d in w.content.outbox.log && d.envelope == e && d.route == Pipeline.EVENT_ROUTE;
    assert Pipeline.FromRow(w.content.outbox.rows, d);
    assert RELAY_ROUTING[JOB_EVENT] == Pipeline.JOB_ROUTE && Pipeline.EVENT_ROUTE != Pipeline.JOB_ROUTE;
  }

  lemma LogIsConsistent(w: Pipeline.World, s: Rollup.State)
    requires Pipeline.Inv(w) && ReadsFrom(w, s)
    ensures Rollup.Consistent(s, Bodies(w.content.outbox.rows))
  {
    forall e | Rollup.InLog(s, e)
      ensures e.messageId in Bodies(w.content.outbox.rows) && Bodies(w.content.outbox.rows)[e.messageId] == e
    {
      AcceptedIsBody(w, e);
    }
  }

  lemma AppliedIsBody(c: Content.State, a: Content.Applied)
    requires Content.Inv(c) && a in c.applied
    ensures a.result.payload.Completed? && a.rowId in Bodies(c.outbox.rows)
    ensures Bodies(c.outbox.rows)[a.rowId] == EventOf(a)
  {
    assert Content.AppliedOk(a, c.outbox.rows, c.created);
    var k :| 0 <= k < |c.applied| && c.applied[k] == a;
    assert Content.RowIds(c.applied)[k] == a.rowId;
  }

  /** A sum over processed ids is the sum over the verdicts behind them. */
  lemma {:induction false} IdsAreVerdicts(applied: seq<Content.Applied>, ids: set<Id>, body: map<Id, Envelope>,
                                          key: Rollup.Key)
    requires Distinct(Content.RowIds(applied)) && ids <= body.Keys && ids <= Elements(Content.RowIds(applied))
    requires forall a :: a in applied ==> a.result.payload.Completed? && a.rowId in body && body[a.rowId] == EventOf(a)
    ensures Rollup.Recount(ids, body, key) == CountOver(applied, ids, key)
  {
    if applied == [] {
      assert ids == {};
    } else {
      var n := |applied| - 1;
      var rest, last := applied[..n], applied[n];
      LastRow(applied, ids);
      IdsAreVerdicts(rest, ids - {last.rowId}, body, key);
      SameCount(rest, ids, last.rowId, key);
      if last.rowId in ids {
        assert ids == (ids - {last.rowId}) + {last.rowId};
        Rollup.RecountAdd(ids - {last.rowId}, last.rowId, body, key);
        EventCounts(last, key);
      } else {
        assert ids - {last.rowId} == ids;
      }
    }
  }

  lemma LastRow(applied: seq<Content.Applied>, ids: set<Id>)
    requires applied != [] && Distinct(Content.RowIds(applied)) && ids <= Elements(Content.RowIds(applied))
    ensures var rest, last := applied[..|applied| - 1], applied[|applied| - 1];
      && Distinct(Content.RowIds(rest)) && ids - {last.rowId} <= Elements(Content.RowIds(rest))
      && last in applied && forall a :: a in rest ==> a.rowId != last.rowId
  {
    var n := |applied| - 1;
    var rest, all := applied[..n], Content.RowIds(applied);
    assert all == Content.RowIds(rest) + [applied[n].rowId];
    forall i | 0 <= i < n ensures rest[i].rowId != applied[n].rowId {
      assert all[i] != all[n];
    }
    assert forall i :: 0 <= i < n ==> Content.RowIds(rest)[i] == all[i];
  }

  lemma {:induction false} SameCount(applied: seq<Content.Applied>, ids: set<Id>, other: Id, key: Rollup.Key)
    requires forall a :: a in applied ==> a.rowId != other
    ensures CountOver(applied, ids - {other}, key) == CountOver(applied, ids, key)
  {
    if applied != [] {
      assert applied[|applied| - 1] in applied;
      SameCount(applied[..|applied| - 1], ids, other, key);
    }
  }

  /** In every reachable world, and after any run of a consumer group over what Kafka accepted there,
      with all its republished duplicates, failures and restarts: the trend table counts, under each
      key, the applied verdicts whose events were processed, each once. */
  lemma TrendsRecountVerdicts(steps: seq<Pipeline.Step>, s0: Rollup.State, run: seq<Rollup.Step>, key: Rollup.Key)
    requires Pipeline.Admissible(Pipeline.START, steps)
    requires Rollup.Fresh(s0) && Rollup.Admissible(s0, run)
    requires ReadsFrom(Pipeline.Exec(Pipeline.START, steps), Rollup.Exec(s0, run))
    ensures var c, s := Pipeline.Exec(Pipeline.START, steps).content, Rollup.Exec(s0, run);
      && s.processed <= Elements(Content.RowIds(c.applied))
      && Rollup.Get(s.table, key) == CountOver(c.applied, s.processed, key)
  {
    Pipeline.StartInv();
    Pipeline.RunKeepsInv(Pipeline.START, steps);
    var w, s := Pipeline.Exec(Pipeline.START, steps), Rollup.Exec(s0, run);
    var body := Bodies(w.content.outbox.rows);
    LogIsConsistent(w, s);
    Rollup.TableIsRecount(s0, run, body, key);
    forall a | a in w.content.applied
      ensures a.result.payload.Completed? && a.rowId in body && body[a.rowId] == EventOf(a)
    {
      AppliedIsBody(w.content, a);
    }
    IdsAreVerdicts(w.content.applied, s.processed, body, key);
  }

  /** Every applied verdict has been published to the group's log. */
  ghost predicate AllInLog(c: Content.State, s: Rollup.State) {
    forall a :: a in c.applied ==> a.result.payload.Completed? && Rollup.InLog(s, EventOf(a))
  }

  /** And once every applied verdict has been published to the group's log, and the group has read all of
      it without skipping a record, every verdict counts. */
  lemma EveryVerdictCounts(steps: seq<Pipeline.Step>, s0: Rollup.State, run: seq<Rollup.Step>, key: Rollup.Key)
    requires Pipeline.Admissible(Pipeline.START, steps)
    requires Rollup.Fresh(s0) && Rollup.Admissible(s0, run) && Rollup.Careful(s0, run)
    requires ReadsFrom(Pipeline.Exec(Pipeline.START, steps), Rollup.Exec(s0, run))
    requires AllInLog(Pipeline.Exec(Pipeline.START, steps).content, Rollup.Exec(s0, run))
    requires forall l :: l in Rollup.Exec(s0, run).lanes ==>
        Rollup.Exec(s0, run).lanes[l].position == |Rollup.Exec(s0, run).lanes[l].records|
    ensures var c, s := Pipeline.Exec(Pipeline.START, steps).content, Rollup.Exec(s0, run);
      && s.processed == Elements(Content.RowIds(c.applied))
      && Rollup.Get(s.table, key) == CountOver(c.applied, Elements(Content.RowIds(c.applied)), key)
  {
    Pipeline.StartInv();
    Pipeline.RunKeepsInv(Pipeline.START, steps);
    var c, s := Pipeline.Exec(Pipeline.START, steps).content, Rollup.Exec(s0, run);
    TrendsRecountVerdicts(steps, s0, run, key);
    Rollup.CaughtUp(s0, run);
    forall a | a in c.applied ensures a.rowId in s.processed {
      VerdictIsReadable(c, a);
      assert Rollup.InLog(s, EventOf(a));
    }
    AllRowsIn(c.applied, s.processed);
  }

  lemma AllRowsIn(applied: seq<Content.Applied>, ids: set<Id>)
    requires forall a :: a in applied ==> a.rowId in ids
    ensures Elements(Content.RowIds(applied)) <= ids
  {
    forall id | id in Content.RowIds(applied) ensures id in ids {
      var k :| 0 <= k < |applied| && Content.RowIds(applied)[k] == id;
      assert applied[k] in applied;
    }
  }

  /** The table counts, under this key, every applied verdict once. */
  ghost predicate CountsAt(c: Content.State, s: Rollup.State, key: Rollup.Key) {
    Rollup.Get(s.table, key) == CountOver(c.applied, Elements(Content.RowIds(c.applied)), key)
  }

  ghost predicate CountsAll(c: Content.State, s: Rollup.State) {
    s.processed == Elements(Content.RowIds(c.applied)) && forall key :: CountsAt(c, s, key)
  }

  ghost predicate NoNullAhead(s: Rollup.State) {
    forall l, k :: l in s.lanes && s.lanes[l].position <= k < |s.lanes[l].records| ==> !s.lanes[l].records[k].Null?
  }

  ghost predicate ReadsAll(s: Rollup.State, more: seq<Rollup.Step>) {
    && Rollup.Admissible(s, more) && RollupProgress.OnlyDeliveries(more)
    && RollupProgress.AllAtEnd(Rollup.Exec(s, more))
  }

  /** From here on deliveries alone bring the group to the end of its log with every verdict counted. */
  ghost predicate CanCountAll(c: Content.State, s: Rollup.State) {
    exists more :: ReadsAll(s, more) && CountsAll(c, Rollup.Exec(s, more))
  }

  /** A group that has skipped nothing and has every applied verdict in its log can go on to read all of it
      and count them all, if and only if no record ahead parses to null: what the relay publishes never
      holds it up, however often it is published. */
  lemma EveryVerdictCanCount(steps: seq<Pipeline.Step>, s0: Rollup.State, run: seq<Rollup.Step>)
    requires Pipeline.Admissible(Pipeline.START, steps)
    requires Rollup.Fresh(s0) && Rollup.Admissible(s0, run) && Rollup.Careful(s0, run)
    requires ReadsFrom(Pipeline.Exec(Pipeline.START, steps), Rollup.Exec(s0, run))
    requires AllInLog(Pipeline.Exec(Pipeline.START, steps).content, Rollup.Exec(s0, run))
    ensures CanCountAll(Pipeline.Exec(Pipeline.START, steps).content, Rollup.Exec(s0, run)) <==>
        NoNullAhead(Rollup.Exec(s0, run))
  {
    Pipeline.StartInv();
    Pipeline.RunKeepsInv(Pipeline.START, steps);
    Rollup.FreshInv(s0);
    Rollup.RunKeepsInv(s0, run);
    var w, s := Pipeline.Exec(Pipeline.START, steps), Rollup.Exec(s0, run);
    OnlyNullBlocks(w, s);
    RollupProgress.CatchUpExact(s);
    if NoNullAhead(s) {
      var more :| Rollup.Admissible(s, more) && RollupProgress.OnlyDeliveries(more)
        && RollupProgress.AllAtEnd(Rollup.Exec(s, more));
      ReadToTheEnd(steps, s0, run, more);
    }
  }

  /** What the relay published is readable. */
  lemma OnlyNullBlocks(w: Pipeline.World, s: Rollup.State)
    requires Pipeline.Inv(w) && Rollup.Inv(s) && ReadsFrom(w, s)
    ensures (forall l :: l in s.lanes ==> RollupProgress.ClearAhead(s.lanes[l])) <==> NoNullAhead(s)
    ensures forall l :: l in s.lanes ==> s.lanes[l].position <= |s.lanes[l].records|
  {
    forall l, k | l in s.lanes && s.lanes[l].position <= k < |s.lanes[l].records|
      ensures RollupProgress.Blocks(s.lanes[l].records[k]) <==> s.lanes[l].records[k].Null?
    {
      assert Rollup.LaneRange(s.lanes[l]);
      var record := s.lanes[l].records[k];
      if record.Event? {
        assert Rollup.InLog(s, record.envelope);
        AcceptedIsValid(w, record.envelope);
      }
    }
    forall l | l in s.lanes ensures s.lanes[l].position <= |s.lanes[l].records| {
      assert Rollup.LaneRange(s.lanes[l]);
    }
  }

  lemma AcceptedIsValid(w: Pipeline.World, e: Envelope)
    requires Pipeline.Inv(w) && Pipeline.Accepted(w, e, Pipeline.EVENT_ROUTE)
    ensures ValidCompleted(e.payload)
  {
    var d :| d in w.content.outbox.log && d.envelope == e && d.route == Pipeline.EVENT_ROUTE;
    Pipeline.EventOrigin(w.content, d);
    var a :| Pipeline.IsEventOf(w.content, a, e);
    assert Content.AppliedOk(a, w.content.outbox.rows, w.content.created);
  }

  lemma ReadToTheEnd(steps: seq<Pipeline.Step>, s0: Rollup.State, run: seq<Rollup.Step>, more: seq<Rollup.Step>)
    requires Pipeline.Admissible(Pipeline.START, steps)
    requires Rollup.Fresh(s0) && Rollup.Admissible(s0, run) && Rollup.Careful(s0, run)
    requires ReadsFrom(Pipeline.Exec(Pipeline.START, steps), Rollup.Exec(s0, run))
    requires AllInLog(Pipeline.Exec(Pipeline.START, steps).content, Rollup.Exec(s0, run))
    requires ReadsAll(Rollup.Exec(s0, run), more)
    ensures CountsAll(Pipeline.Exec(Pipeline.START, steps).content, Rollup.Exec(Rollup.Exec(s0, run), more))
  {
    var w, s := Pipeline.Exec(Pipeline.START, steps), Rollup.Exec(s0, run);
    var s' := Rollup.Exec(s, more);
    RollupProgress.DeliveriesRead(s, more);
    RollupProgress.ExecAppend(s0, run, more);
    RollupProgress.CarefulAppend(s0, run, more);
    forall e ensures Rollup.InLog(s', e) <==> Rollup.InLog(s, e) {
      SameInLog(s, s', e);
      SameInLog(s', s, e);
    }
    forall l | l in s'.lanes ensures s'.lanes[l].position == |s'.lanes[l].records| {
      assert RollupProgress.AtEnd(s', l);
    }
    forall key ensures CountsAt(w.content, s', key) {
      EveryVerdictCounts(steps, s0, run + more, key);
    }
    EveryVerdictCounts(steps, s0, run + more, Rollup.Key(0, "", Approved));
  }

  lemma SameInLog(s: Rollup.State, s': Rollup.State, e: Envelope)
    requires RollupProgress.SameLogs(s, s')
    ensures Rollup.InLog(s, e) ==> Rollup.InLog(s', e)
  {
    if Rollup.InLog(s, e) {
      var l, k :| l in s.lanes && s.lanes[l].start <= k < |s.lanes[l].records|
        && s.lanes[l].records[k] == Rollup.Event(e);
      assert s'.lanes[l].records[k] == Rollup.Event(e);
    }
  }

  lemma VerdictIsReadable(c: Content.State, a: Content.Applied)
    requires Content.Inv(c) && a in c.applied
    ensures a.result.payload.Completed? && Rollup.ReadingOf(Rollup.Event(EventOf(a))).Readable?
  {
    assert Content.AppliedOk(a, c.outbox.rows, c.created);
  }
}
