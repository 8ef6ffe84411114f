/** The analytics read model: a Kafka consumer group that redelivers from its committed offsets, and
    the transaction that dedupes an event and adds it to the trend table.

    A lane is one partition: its records, where the group started, the next record to hand out and
    the committed offset, if there is one yet. Without one, a restarted consumer begins at the end of
    the log. `applied` is history: the events that changed the table. */
module Rollup {
  import opened Prelude
  import opened Messages

  const DAY_MS := 86400000
  const UNCATEGORIZED := "none"

  /** `Null` is a value that parses to null, which no handler can read. */
  datatype Record = Empty | Malformed | Null | Event(envelope: Envelope)

  datatype Key = Key(date: int, category: string, verdict: Verdict)

  type Table = map<Key, nat>

  datatype Lane = Lane(records: seq<Record>, start: nat, position: nat, committed: Option<nat>)

  datatype State = State(lanes: map<nat, Lane>, processed: set<Id>, table: Table, applied: seq<Envelope>)

  datatype Step =
    | Append(lane: nat, record: Record)
    | Deliver(lane: nat, db: Db)
    | CommitOffset(lane: nat, offset: nat)
    | Restart(lane: nat)

  /** toDateOnly: midnight UTC of the day, as milliseconds. */
  function ToDateOnly(occurredAt: int): int {
    occurredAt / DAY_MS * DAY_MS
  }

  lemma DateOnly(occurredAt: int)
    ensures ToDateOnly(occurredAt) <= occurredAt < ToDateOnly(occurredAt) + DAY_MS
    ensures ToDateOnly(ToDateOnly(occurredAt)) == ToDateOnly(occurredAt)
  {
    var q := occurredAt / DAY_MS;
    assert q * DAY_MS / DAY_MS == q;
  }

  /** The handler returns without touching the database, throws before it, or runs the transaction. */
  datatype Reading = Skipped | Invalid | Readable

  function ReadingOf(record: Record): Reading {
    match record
    case Empty => Skipped
    case Malformed => Skipped
    case Null => Invalid
    case Event(e) =>
      if !SupportedEventVersion(e.eventType, e.eventVersion) then Skipped
      else if !ValidCompleted(e.payload) then Invalid
      else Readable
  }

  function CategoriesOf(e: Envelope): seq<string>
    requires e.payload.Completed?
  {
    if e.payload.categories == [] then [UNCATEGORIZED] else e.payload.categories
  }

  function Get(table: Table, key: Key): nat {
    if key in table then table[key] else 0
  }

  /** One upsert with count increment. */
  function Upsert(table: Table, key: Key): Table {
    table[key := Get(table, key) + 1]
  }

  function AddAll(table: Table, date: int, categories: seq<string>, verdict: Verdict): Table {
    if categories == [] then table else
      Upsert(AddAll(table, date, categories[..|categories| - 1], verdict),
             Key(date, categories[|categories| - 1], verdict))
  }

  function AddEvent(table: Table, e: Envelope): Table
    requires e.payload.Completed?
  {
    AddAll(table, ToDateOnly(e.occurredAt), CategoriesOf(e), e.payload.verdict)
  }

  predicate HasNext(s: State, lane: nat) {
    lane in s.lanes && s.lanes[lane].position < |s.lanes[lane].records|
  }

  /** Offsets below this one are not committed any more. */
  function Resumes(lane: Lane): nat {
    if lane.committed.Some? then lane.committed.value else lane.start
  }

  /** Where the group goes on after a restart: at the committed offset, or else at the end of the log
      (fromBeginning: false). */
  function RestartsAt(lane: Lane): nat {
    if lane.committed.Some? then lane.committed.value else |lane.records|
  }

  predicate Can(s: State, step: Step) {
    match step
    case Append(lane, _) => lane in s.lanes
    case Deliver(lane, _) => HasNext(s, lane)
    case CommitOffset(lane, offset) => lane in s.lanes && Resumes(s.lanes[lane]) <= offset <= s.lanes[lane].position
    case Restart(lane) => lane in s.lanes
  }

  function Advance(s: State, lane: nat): State
    requires lane in s.lanes
  {
    s.(lanes := s.lanes[lane := s.lanes[lane].(position := s.lanes[lane].position + 1)])
  }

  function Apply(s: State, e: Envelope): State
    requires e.payload.Completed?
  {
    s.(processed := s.processed + {e.messageId}, table := AddEvent(s.table, e), applied := s.applied + [e])
  }

  function Do(s: State, step: Step): State
    requires Can(s, step)
  {
    match step
    case Append(lane, record) =>
      s.(lanes := s.lanes[lane := s.lanes[lane].(records := s.lanes[lane].records + [record])])
    case Deliver(lane, db) =>
      var record := s.lanes[lane].records[s.lanes[lane].position];
      (match ReadingOf(record)
       case Skipped => Advance(s, lane)
       case Invalid => s
       case Readable =>
         if db.FailsBefore? then s
         else if record.envelope.messageId in s.processed then Advance(s, lane)
         else if db.FailsAfter? then Apply(s, record.envelope)
         else Advance(Apply(s, record.envelope), lane))
    case CommitOffset(lane, offset) => s.(lanes := s.lanes[lane := s.lanes[lane].(committed := Some(offset))])
    case Restart(lane) => s.(lanes := s.lanes[lane := s.lanes[lane].(position := RestartsAt(s.lanes[lane]))])
  }

  ghost predicate Admissible(s: State, steps: seq<Step>)
    decreases |steps|
  {
    steps == [] || (Can(s, steps[0]) && Admissible(Do(s, steps[0]), steps[1..]))
  }

  ghost function Exec(s: State, steps: seq<Step>): State
    requires Admissible(s, steps)
    decreases |steps|
  {
    if steps == [] then s else Exec(Do(s, steps[0]), steps[1..])
  }

  /** A new group: it starts at the end of each partition and has committed nothing. */
  ghost predicate Fresh(s: State) {
    && s.processed == {} && s.table == map[] && s.applied == []
    && forall l :: l in s.lanes ==>
         s.lanes[l].start == s.lanes[l].position == |s.lanes[l].records| && s.lanes[l].committed.None?
  }

  // ----- counting -----

  /** How often one event counts under a key: once per occurrence of the category. */
  function Occurrences(e: Envelope, key: Key): nat {
    if e.payload.Completed? && key.date == ToDateOnly(e.occurredAt) && key.verdict == e.payload.verdict
    then multiset(CategoriesOf(e))[key.category] else 0
  }

  function Tally(applied: seq<Envelope>, key: Key): nat {
    if applied == [] then 0 else Tally(applied[..|applied| - 1], key) + Occurrences(applied[|applied| - 1], key)
  }

  lemma {:induction false} AddAllCounts(table: Table, date: int, categories: seq<string>, verdict: Verdict, key: Key)
    ensures Get(AddAll(table, date, categories, verdict), key)
         == Get(table, key)
            + if key.date == date && key.verdict == verdict then multiset(categories)[key.category] else 0
    ensures key in AddAll(table, date, categories, verdict) ==>
        key in table || Get(AddAll(table, date, categories, verdict), key) > 0
  {
    if categories != [] {
      var rest := categories[..|categories| - 1];
      AddAllCounts(table, date, rest, verdict, key);
      assert categories == rest + [categories[|categories| - 1]];
    }
  }

  function IdsOf(applied: seq<Envelope>): seq<Id> {
    seq(|applied|, i requires 0 <= i < |applied| => applied[i].messageId)
  }

  /** The next record of a lane was passed for good. */
  ghost predicate Passed(s: State, record: Record) {
    ReadingOf(record).Skipped? || (ReadingOf(record).Readable? && record.envelope.messageId in s.processed)
  }

  ghost predicate LaneRange(lane: Lane) {
    lane.start <= Resumes(lane) <= lane.position <= |lane.records|
  }

  ghost predicate LaneOk(s: State, lane: Lane) {
    lane.position <= |lane.records| && forall k :: lane.start <= k < lane.position ==> Passed(s, lane.records[k])
  }

  ghost predicate InLog(s: State, e: Envelope) {
    exists l, k :: l in s.lanes && s.lanes[l].start <= k < |s.lanes[l].records| && s.lanes[l].records[k] == Event(e)
  }

  ghost predicate AppliedOk(s: State) {
    && Distinct(IdsOf(s.applied)) && s.processed == Elements(IdsOf(s.applied))
    && (forall e :: e in s.applied ==> ReadingOf(Event(e)).Readable? && InLog(s, e))
  }

  ghost predicate TableOk(table: Table, applied: seq<Envelope>) {
    forall key :: Get(table, key) == Tally(applied, key) && (key in table ==> table[key] > 0)
  }

  /** What holds however the group restarts. */
  ghost predicate Sound(s: State) {
    && (forall l :: l in s.lanes ==> LaneRange(s.lanes[l]))
    && AppliedOk(s) && TableOk(s.table, s.applied)
  }

  ghost predicate Inv(s: State) {
    Sound(s) && forall l :: l in s.lanes ==> LaneOk(s, s.lanes[l])
  }

  /** A restart before the first commit that jumps over a record which was not passed. */
  ghost predicate Skips(s: State, step: Step)
    requires Can(s, step)
  {
    step.Restart? && s.lanes[step.lane].committed.None? &&
    exists k :: s.lanes[step.lane].position <= k < |s.lanes[step.lane].records|
        && !Passed(s, s.lanes[step.lane].records[k])
  }

  ghost predicate Careful(s: State, steps: seq<Step>)
    requires Admissible(s, steps)
    decreases |steps|
  {
    steps == [] || (!Skips(s, steps[0]) && Careful(Do(s, steps[0]), steps[1..]))
  }

  lemma LogGrows(s: State, step: Step, e: Envelope)
    requires Can(s, step) && InLog(s, e)
    ensures InLog(Do(s, step), e)
  {
    var s' := Do(s, step);
    var l, k :| l in s.lanes && s.lanes[l].start <= k < |s.lanes[l].records| && s.lanes[l].records[k] == Event(e);
    assert l in s'.lanes && s'.lanes[l].start == s.lanes[l].start && s'.lanes[l].records[k] == Event(e);
  }

  lemma AppliedTable(table: Table, applied: seq<Envelope>, e: Envelope)
    requires TableOk(table, applied) && e.payload.Completed?
    ensures TableOk(AddEvent(table, e), applied + [e])
  {
    assert (applied + [e])[..|applied|] == applied;
    forall key
      ensures Get(AddEvent(table, e), key) == Tally(applied + [e], key)
      ensures key in AddEvent(table, e) ==> AddEvent(table, e)[key] > 0
    {
      AddAllCounts(table, ToDateOnly(e.occurredAt), CategoriesOf(e), e.payload.verdict, key);
      assert Get(table, key) == Tally(applied, key);
    }
  }

  /** An event of the lane changes the database and, perhaps, the position. */
  lemma ApplyKeepsSound(s: State, lane: nat, advance: bool)
    requires Sound(s) && HasNext(s, lane)
    requires var record := s.lanes[lane].records[s.lanes[lane].position];
      ReadingOf(record).Readable? && record.envelope.messageId !in s.processed
    ensures var applied := Apply(s, s.lanes[lane].records[s.lanes[lane].position].envelope);
      Sound(if advance then Advance(applied, lane) else applied)
  {
    var e := s.lanes[lane].records[s.lanes[lane].position].envelope;
    var applied := Apply(s, e);
    var s' := if advance then Advance(applied, lane) else applied;
    AppliedTable(s.table, s.applied, e);
    assert IdsOf(s'.applied) == IdsOf(s.applied) + [e.messageId];
    forall i | 0 <= i < |s.applied| ensures IdsOf(s.applied)[i] != e.messageId {
      assert IdsOf(s.applied)[i] in Elements(IdsOf(s.applied));
    }
    assert LaneRange(s.lanes[lane]);
    assert s'.lanes[lane].records[s.lanes[lane].position] == Event(e);
    assert InLog(s', e);
    forall a | a in s'.applied ensures ReadingOf(Event(a)).Readable? && InLog(s', a) {
      if a in s.applied {
        SameLog(s, s', a);
      }
    }
  }

  lemma SameLog(s: State, s': State, e: Envelope)
    requires InLog(s, e)
    requires forall l :: l in s.lanes ==>
        l in s'.lanes && s'.lanes[l].start == s.lanes[l].start && s'.lanes[l].records == s.lanes[l].records
    ensures InLog(s', e)
  {
    var l, k :| l in s.lanes && s.lanes[l].start <= k < |s.lanes[l].records| && s.lanes[l].records[k] == Event(e);
    assert s'.lanes[l].records[k] == Event(e);
  }

  lemma StepKeepsSound(s: State, step: Step)
    requires Sound(s) && Can(s, step)
    ensures Sound(Do(s, step))
  {
    var s' := Do(s, step);
    if s'.applied != s.applied {
      ApplyKeepsSound(s, step.lane, step.db.Commits?);
    } else {
      forall l | l in s'.lanes ensures LaneRange(s'.lanes[l]) {
        assert LaneRange(s.lanes[l]);
      }
      forall e | e in s'.applied ensures InLog(s', e) {
        LogGrows(s, step, e);
      }
    }
  }

  /** What was passed stays passed. */
  lemma PassedStays(s: State, step: Step, record: Record)
    requires Can(s, step) && Passed(s, record)
    ensures Passed(Do(s, step), record)
  {
  }

  lemma LaneStays(s: State, step: Step, l: nat)
    requires Inv(s) && Can(s, step) && l in s.lanes && !Skips(s, step)
    ensures LaneOk(Do(s, step), Do(s, step).lanes[l])
  {
    var lane, lane' := s.lanes[l], Do(s, step).lanes[l];
    assert LaneRange(lane) && LaneOk(s, lane);
    forall k | lane'.start <= k < lane'.position ensures Passed(Do(s, step), lane'.records[k]) {
      if Passed(s, lane.records[k]) {
        PassedStays(s, step, lane.records[k]);
      }
    }
  }

  /** A step keeps every lane in order exactly if it skips no record. */
  lemma SkipIsExact(s: State, step: Step)
    requires Inv(s) && Can(s, step)
    ensures Inv(Do(s, step)) <==> !Skips(s, step)
  {
    var s' := Do(s, step);
    StepKeepsSound(s, step);
    if Skips(s, step) {
      var k :| s.lanes[step.lane].position <= k < |s.lanes[step.lane].records|
          && !Passed(s, s.lanes[step.lane].records[k]);
      assert LaneRange(s.lanes[step.lane]);
      assert !Passed(s', s'.lanes[step.lane].records[k]);
      assert !LaneOk(s', s'.lanes[step.lane]);
    } else {
      forall l | l in s'.lanes ensures LaneOk(s', s'.lanes[l]) {
        LaneStays(s, step, l);
      }
    }
  }

  lemma {:induction false} RunKeepsSound(s: State, steps: seq<Step>)
    requires Sound(s) && Admissible(s, steps)
    ensures Sound(Exec(s, steps))
    decreases |steps|
  {
    if steps != [] {
      StepKeepsSound(s, steps[0]);
      RunKeepsSound(Do(s, steps[0]), steps[1..]);
    }
  }

  lemma {:induction false} RunKeepsInv(s: State, steps: seq<Step>)
    requires Inv(s) && Admissible(s, steps) && Careful(s, steps)
    ensures Inv(Exec(s, steps))
    decreases |steps|
  {
    if steps != [] {
      SkipIsExact(s, steps[0]);
      RunKeepsInv(Do(s, steps[0]), steps[1..]);
    }
  }

  lemma FreshInv(s: State)
    requires Fresh(s)
    ensures Inv(s)
  {
    assert IdsOf([]) == [];
  }

  // ----- the table is a recount -----

  /** `body` gives every event its one content: a message id never carries two different events. */
  ghost predicate Consistent(s: State, body: map<Id, Envelope>) {
    forall e :: InLog(s, e) ==> e.messageId in body && body[e.messageId] == e
  }

  /** Counting the distinct ids once each. */
  ghost function Recount(ids: set<Id>, body: map<Id, Envelope>, key: Key): int
    requires ids <= body.Keys
  {
    SumMap(map id | id in ids :: Occurrences(body[id], key))
  }

  lemma RecountAdd(ids: set<Id>, id: Id, body: map<Id, Envelope>, key: Key)
    requires ids <= body.Keys && id in body && id !in ids
    ensures Recount(ids + {id}, body, key) == Recount(ids, body, key) + Occurrences(body[id], key)
  {
    var all := map i | i in ids + {id} :: Occurrences(body[i], key);
    SumRemove(all, id);
    assert all - {id} == map i | i in ids :: Occurrences(body[i], key);
  }

  lemma LastId(applied: seq<Envelope>)
    requires applied != [] && Distinct(IdsOf(applied))
    ensures var rest, last := applied[..|applied| - 1], applied[|applied| - 1];
      && Distinct(IdsOf(rest))
      && Elements(IdsOf(applied)) == Elements(IdsOf(rest)) + {last.messageId}
      && last.messageId !in Elements(IdsOf(rest))
  {
    var rest, last := applied[..|applied| - 1], applied[|applied| - 1];
    assert IdsOf(applied) == IdsOf(rest) + [last.messageId];
    forall i | 0 <= i < |rest| ensures IdsOf(rest)[i] != last.messageId {
      assert IdsOf(applied)[i] != IdsOf(applied)[|rest|];
    }
    assert forall i :: 0 <= i < |rest| ==> IdsOf(rest)[i] == IdsOf(applied)[i];
  }

  lemma {:induction false} TallyIsRecount(applied: seq<Envelope>, body: map<Id, Envelope>, key: Key)
    requires Distinct(IdsOf(applied))
    requires forall e :: e in applied ==> e.messageId in body && body[e.messageId] == e
    ensures Elements(IdsOf(applied)) <= body.Keys
    ensures Tally(applied, key) == Recount(Elements(IdsOf(applied)), body, key)
  {
    if applied == [] {
      assert Elements(IdsOf(applied)) == {};
    } else {
      var rest, e := applied[..|applied| - 1], applied[|applied| - 1];
      LastId(applied);
      TallyIsRecount(rest, body, key);
      RecountAdd(Elements(IdsOf(rest)), e.messageId, body, key);
    }
  }

  /** In every reachable state the table counts, under each key, the category occurrences of the
      distinct processed messages, whatever was republished, failed or replayed after a restart. */
  lemma TableIsRecount(s0: State, steps: seq<Step>, body: map<Id, Envelope>, key: Key)
    requires Fresh(s0) && Admissible(s0, steps) && Consistent(Exec(s0, steps), body)
    ensures var s := Exec(s0, steps);
      s.processed <= body.Keys && Get(s.table, key) == Recount(s.processed, body, key)
  {
    FreshInv(s0);
    RunKeepsSound(s0, steps);
    var s := Exec(s0, steps);
    TallyIsRecount(s.applied, body, key);
    assert Get(s.table, key) == Tally(s.applied, key);
  }

  /** So the table depends only on which messages were processed: two runs over any two logs, in any
      order and with any duplicates, that processed the same ids have the same table. */
  lemma OrderAndMultiplicityDoNotMatter(s0: State, steps: seq<Step>, t0: State, steps': seq<Step>,
                                        body: map<Id, Envelope>)
    requires Fresh(s0) && Admissible(s0, steps) && Consistent(Exec(s0, steps), body)
    requires Fresh(t0) && Admissible(t0, steps') && Consistent(Exec(t0, steps'), body)
    requires Exec(s0, steps).processed == Exec(t0, steps').processed
    ensures Exec(s0, steps).table == Exec(t0, steps').table
  {
    var s, t := Exec(s0, steps), Exec(t0, steps');
    FreshInv(s0);
    RunKeepsSound(s0, steps);
    FreshInv(t0);
    RunKeepsSound(t0, steps');
    forall key ensures Get(s.table, key) == Get(t.table, key) {
      TableIsRecount(s0, steps, body, key);
      TableIsRecount(t0, steps', body, key);
    }
    SameTables(s.table, t.table);
  }

  lemma SameTables(a: Table, b: Table)
    requires forall key :: Get(a, key) == Get(b, key)
    requires forall key :: key in a ==> a[key] > 0
    requires forall key :: key in b ==> b[key] > 0
    ensures a == b
  {
    forall key ensures key in a <==> key in b {
      assert Get(a, key) == Get(b, key);
    }
    forall key | key in a ensures a[key] == b[key] {
      assert Get(a, key) == Get(b, key);
    }
  }

  /** In runs that skip no record, every offset a lane committed since its start was processed or can
      never be read. */
  lemma CommittedIsDone(s0: State, steps: seq<Step>, l: nat, k: nat)
    requires Fresh(s0) && Admissible(s0, steps) && Careful(s0, steps) && l in Exec(s0, steps).lanes
    requires Exec(s0, steps).lanes[l].start <= k < Resumes(Exec(s0, steps).lanes[l])
    ensures var s := Exec(s0, steps);
      && k < |s.lanes[l].records|
      && (ReadingOf(s.lanes[l].records[k]).Skipped?
          || (s.lanes[l].records[k].Event? && s.lanes[l].records[k].envelope.messageId in s.processed))
  {
    FreshInv(s0);
    RunKeepsInv(s0, steps);
    var s := Exec(s0, steps);
    assert LaneRange(s.lanes[l]) && LaneOk(s, s.lanes[l]) && Passed(s, s.lanes[l].records[k]);
  }

  /** And once the group has caught up with every lane, exactly the readable events of the log since
      its start have been processed, and none is invalid. */
  lemma CaughtUp(s0: State, steps: seq<Step>)
    requires Fresh(s0) && Admissible(s0, steps) && Careful(s0, steps)
    requires forall l :: l in Exec(s0, steps).lanes ==>
        Exec(s0, steps).lanes[l].position == |Exec(s0, steps).lanes[l].records|
    ensures var s := Exec(s0, steps);
      && (forall e :: InLog(s, e) ==>
            ReadingOf(Event(e)).Skipped? || (ReadingOf(Event(e)).Readable? && e.messageId in s.processed))
      && (forall id :: id in s.processed ==>
            exists e :: InLog(s, e) && e.messageId == id && ReadingOf(Event(e)).Readable?)
  {
    FreshInv(s0);
    RunKeepsInv(s0, steps);
    var s := Exec(s0, steps);
    forall e | InLog(s, e)
      ensures ReadingOf(Event(e)).Skipped? || (ReadingOf(Event(e)).Readable? && e.messageId in s.processed)
    {
      var l, k :| l in s.lanes && s.lanes[l].start <= k < |s.lanes[l].records| && s.lanes[l].records[k] == Event(e);
      assert LaneOk(s, s.lanes[l]) && Passed(s, s.lanes[l].records[k]);
    }
    forall id | id in s.processed
      ensures exists e :: InLog(s, e) && e.messageId == id && ReadingOf(Event(e)).Readable?
    {
      var k :| 0 <= k < |s.applied| && IdsOf(s.applied)[k] == id;
      assert s.applied[k] in s.applied;
      assert InLog(s, s.applied[k]);
    }
  }

  // ----- what a skipped record means -----

  /** Position k of the lane was neither processed nor is it skippable, and yet it is behind the group. */
  ghost predicate LeftBehind(s: State, l: nat, k: nat) {
    && l in s.lanes && s.lanes[l].start <= k < |s.lanes[l].records| && !Passed(s, s.lanes[l].records[k])
    && k < s.lanes[l].position && s.lanes[l].committed.Some? && k < s.lanes[l].committed.value
  }

  /** Over every careful run: a restart that skips a record makes both promises false. The group has
      caught up with the lane, it may commit the lane's end, and the record is left behind. */
  lemma SkipLeavesBehind(s0: State, steps: seq<Step>, restart: Step)
    requires Fresh(s0) && Admissible(s0, steps) && Careful(s0, steps)
    requires Can(Exec(s0, steps), restart) && Skips(Exec(s0, steps), restart)
    ensures var s1 := Do(Exec(s0, steps), restart);
      var end := |s1.lanes[restart.lane].records|;
      && s1.lanes[restart.lane].position == end && Can(s1, CommitOffset(restart.lane, end))
      && exists k :: LeftBehind(Do(s1, CommitOffset(restart.lane, end)), restart.lane, k)
  {
    FreshInv(s0);
    RunKeepsInv(s0, steps);
    var s := Exec(s0, steps);
    var k :| s.lanes[restart.lane].position <= k < |s.lanes[restart.lane].records|
        && !Passed(s, s.lanes[restart.lane].records[k]);
    assert LaneRange(s.lanes[restart.lane]);
    var s1 := Do(s, restart);
    assert LeftBehind(Do(s1, CommitOffset(restart.lane, |s1.lanes[restart.lane].records|)), restart.lane, k);
  }

  lemma ExecCons(s: State, step: Step, rest: seq<Step>)
    requires Can(s, step) && Admissible(Do(s, step), rest)
    ensures Admissible(s, [step] + rest) && Exec(s, [step] + rest) == Exec(Do(s, step), rest)
  {
    assert ([step] + rest)[1..] == rest;
  }

  /** It does happen: the first event of a new group fails once, the consumer restarts, and the event
      is left behind. */
  lemma FirstFailureIsLost(s0: State, l: nat, e: Envelope)
    requires Fresh(s0) && l in s0.lanes && ReadingOf(Event(e)).Readable?
    ensures exists steps, k: nat ::
        Admissible(s0, steps) && LeftBehind(Exec(s0, steps), l, k) && Exec(s0, steps).lanes[l].records[k] == Event(e)
  {
    var k := |s0.lanes[l].records|;
    var s1 := Do(s0, Append(l, Event(e)));
    var s2 := Do(s1, Deliver(l, FailsBefore));
    var s3 := Do(s2, Restart(l));
    var commit := CommitOffset(l, k + 1);
    var steps: seq<Step> := [];
    ExecCons(s3, commit, steps);
    steps := [commit] + steps;
    ExecCons(s2, Restart(l), steps);
    steps := [Restart(l)] + steps;
    ExecCons(s1, Deliver(l, FailsBefore), steps);
    steps := [Deliver(l, FailsBefore)] + steps;
    ExecCons(s0, Append(l, Event(e)), steps);
    steps := [Append(l, Event(e))] + steps;
    assert Exec(s0, steps) == Do(s3, commit);
    assert LeftBehind(Exec(s0, steps), l, k);
  }

  /** No copy of the message is left where the group could still read it. */
  ghost predicate OutOfReach(s: State, id: Id) {
    && id !in s.processed
    && forall l, k :: l in s.lanes && 0 <= k < |s.lanes[l].records| && Carries(s.lanes[l].records[k], id) ==>
         k < s.lanes[l].position && s.lanes[l].committed.Some? && k < s.lanes[l].committed.value
  }

  predicate Carries(record: Record, id: Id) {
    record.Event? && record.envelope.messageId == id
  }

  predicate Republishes(step: Step, id: Id) {
    step.Append? && Carries(step.record, id)
  }

  /** Then it is never counted, unless the relay publishes it again. */
  lemma {:induction false} OutOfReachStays(s: State, steps: seq<Step>, id: Id)
    requires Sound(s) && Admissible(s, steps) && OutOfReach(s, id)
    requires forall step :: step in steps ==> !Republishes(step, id)
    ensures OutOfReach(Exec(s, steps), id)
    decreases |steps|
  {
    if steps != [] {
      assert steps[0] in steps;
      StepKeepsSound(s, steps[0]);
      OutOfReachStep(s, steps[0], id);
      OutOfReachStays(Do(s, steps[0]), steps[1..], id);
    }
  }

  lemma OutOfReachStep(s: State, step: Step, id: Id)
    requires Sound(s) && Can(s, step) && OutOfReach(s, id) && !Republishes(step, id)
    ensures OutOfReach(Do(s, step), id)
  {
    assert LaneRange(s.lanes[step.lane]);
  }
}
