/** How far the consumer group gets. Deliveries bring a partition to its end exactly if nothing ahead is
    a record on which the handler throws every time; a duplicate, a malformed record and an event of an
    unknown version never hold the partition up. */
module RollupProgress {
  import opened Messages
  import opened Rollup

  /** The handler throws on this record whatever the database does. */
  predicate Blocks(record: Record) {
    match record
    case Empty => false
    case Malformed => false
    case Null => true
    case Event(e) => SupportedEventVersion(e.eventType, e.eventVersion) && !ValidCompleted(e.payload)
  }

  /** One delivery of the record gets past it. A readable event needs its transaction to end well: it
      commits, or it finds the message processed and is taken for a duplicate. */
  predicate Passes(record: Record, processed: set<Id>, db: Db) {
    match record
    case Empty => true
    case Malformed => true
    case Null => false
    case Event(e) =>
      if !SupportedEventVersion(e.eventType, e.eventVersion) then true
      else if !ValidCompleted(e.payload) then false
      else db.Commits? || (db.FailsAfter? && e.messageId in processed)
  }

  /** A delivery moves its own lane by one record or not at all, and no other lane. */
  lemma DeliverMoves(s: State, lane: nat, db: Db)
    requires Can(s, Deliver(lane, db))
    ensures var l, s' := s.lanes[lane], Do(s, Deliver(lane, db));
      s'.lanes == s.lanes[lane := l.(position :=
        l.position + if Passes(l.records[l.position], s.processed, db) then 1 else 0)]
  {
    assert s.lanes[lane := s.lanes[lane]] == s.lanes;
  }

  /** Without a failing database a record is passed at once exactly if it does not block. */
  lemma CommittedPasses(record: Record, processed: set<Id>)
    ensures Passes(record, processed, Commits) <==> !Blocks(record)
  {
  }

  ghost predicate AtEnd(s: State, lane: nat) {
    lane in s.lanes && s.lanes[lane].position == |s.lanes[lane].records|
  }

  /** No record from the lane's position on blocks. */
  ghost predicate ClearAhead(lane: Lane) {
    forall k :: lane.position <= k < |lane.records| ==> !Blocks(lane.records[k])
  }

  ghost predicate DeliversOnly(steps: seq<Step>, lane: nat) {
    forall step :: step in steps ==> step.Deliver? && step.lane == lane
  }

  /** As many committing deliveries as there are records ahead. */
  function Drain(lane: nat, n: nat): (steps: seq<Step>)
    ensures |steps| == n && forall step :: step in steps ==> step == Deliver(lane, Commits)
  {
    seq(n, _ => Deliver(lane, Commits))
  }

  lemma DrainTail(lane: nat, n: nat)
    requires n > 0
    ensures Drain(lane, n)[0] == Deliver(lane, Commits) && Drain(lane, n)[1..] == Drain(lane, n - 1)
  {
  }

  /** One committing delivery for each record ahead is enough. */
  lemma {:induction false} DrainReachesEnd(s: State, lane: nat)
    requires lane in s.lanes && s.lanes[lane].position <= |s.lanes[lane].records| && ClearAhead(s.lanes[lane])
    ensures var steps := Drain(lane, |s.lanes[lane].records| - s.lanes[lane].position);
      && Admissible(s, steps) && AtEnd(Exec(s, steps), lane)
      && Exec(s, steps).lanes == s.lanes[lane := s.lanes[lane].(position := |s.lanes[lane].records|)]
    decreases |s.lanes[lane].records| - s.lanes[lane].position
  {
    var l := s.lanes[lane];
    var n := |l.records| - l.position;
    if n == 0 {
      assert s.lanes[lane := l] == s.lanes;
    } else {
      DrainTail(lane, n);
      DeliverMoves(s, lane, Commits);
      CommittedPasses(l.records[l.position], s.processed);
      DrainReachesEnd(Do(s, Deliver(lane, Commits)), lane);
    }
  }

  /** No delivery gets a lane past a record that blocks. */
  lemma {:induction false} BlockedStays(s: State, steps: seq<Step>, lane: nat, k: nat)
    requires Admissible(s, steps) && DeliversOnly(steps, lane)
    requires lane in s.lanes && s.lanes[lane].position <= k < |s.lanes[lane].records|
    requires Blocks(s.lanes[lane].records[k])
    ensures lane in Exec(s, steps).lanes && Exec(s, steps).lanes[lane].position <= k
    ensures Exec(s, steps).lanes[lane].records == s.lanes[lane].records
    decreases |steps|
  {
    if steps != [] {
      assert steps[0] in steps;
      DeliverMoves(s, lane, steps[0].db);
      BlockedStays(Do(s, steps[0]), steps[1..], lane, k);
    }
  }

  ghost predicate CanReachEnd(s: State, lane: nat) {
    exists steps :: Admissible(s, steps) && DeliversOnly(steps, lane) && AtEnd(Exec(s, steps), lane)
  }

  /** From every reachable state a run of deliveries brings a lane to the end of its records if and only
      if no record from its position on blocks. */
  lemma ReachesEndUnlessBlocked(s0: State, steps: seq<Step>, lane: nat)
    requires Fresh(s0) && Admissible(s0, steps) && lane in Exec(s0, steps).lanes
    ensures CanReachEnd(Exec(s0, steps), lane) <==> ClearAhead(Exec(s0, steps).lanes[lane])
  {
    FreshInv(s0);
    RunKeepsSound(s0, steps);
    var s := Exec(s0, steps);
    assert LaneRange(s.lanes[lane]);
    if ClearAhead(s.lanes[lane]) {
      DrainReachesEnd(s, lane);
    } else {
      var k :| s.lanes[lane].position <= k < |s.lanes[lane].records| && Blocks(s.lanes[lane].records[k]);
      forall more | Admissible(s, more) && DeliversOnly(more, lane) ensures !AtEnd(Exec(s, more), lane) {
        BlockedStays(s, more, lane, k);
      }
    }
  }

  /** In runs that skip no record, whatever else happens, no lane ever gets past a record that blocks. */
  lemma BlockedForGood(s0: State, steps: seq<Step>, lane: nat, k: nat)
    requires Fresh(s0) && Admissible(s0, steps) && Careful(s0, steps) && lane in Exec(s0, steps).lanes
    requires Exec(s0, steps).lanes[lane].start <= k < |Exec(s0, steps).lanes[lane].records|
    requires Blocks(Exec(s0, steps).lanes[lane].records[k])
    ensures Exec(s0, steps).lanes[lane].position <= k
  {
    FreshInv(s0);
    RunKeepsInv(s0, steps);
    var s := Exec(s0, steps);
    assert LaneOk(s, s.lanes[lane]) && !Passed(s, s.lanes[lane].records[k]);
  }

  // ----- all lanes -----

  ghost predicate AllAtEnd(s: State) {
    forall l :: l in s.lanes ==> AtEnd(s, l)
  }

  ghost predicate OnlyDeliveries(steps: seq<Step>) {
    forall step :: step in steps ==> step.Deliver?
  }

  ghost predicate CanCatchUp(s: State) {
    exists steps :: Admissible(s, steps) && OnlyDeliveries(steps) && AllAtEnd(Exec(s, steps))
  }

  ghost function Behind(s: State): set<nat> {
    set l | l in s.lanes && s.lanes[l].position < |s.lanes[l].records|
  }

  lemma {:induction false} ExecAppend(s: State, a: seq<Step>, b: seq<Step>)
    requires Admissible(s, a) && Admissible(Exec(s, a), b)
    ensures Admissible(s, a + b) && Exec(s, a + b) == Exec(Exec(s, a), b)
    decreases |a|
  {
    if a == [] {
      assert a + b == b;
    } else {
      ExecAppend(Do(s, a[0]), a[1..], b);
      assert (a + b)[1..] == a[1..] + b;
    }
  }

  ghost predicate SameLogs(s: State, s': State) {
    && s'.lanes.Keys == s.lanes.Keys
    && forall l :: l in s.lanes ==> s'.lanes[l].records == s.lanes[l].records && s'.lanes[l].start == s.lanes[l].start
  }

  /** Deliveries read the log and skip nothing. */
  lemma {:induction false} DeliveriesRead(s: State, steps: seq<Step>)
    requires Admissible(s, steps) && OnlyDeliveries(steps)
    ensures SameLogs(s, Exec(s, steps)) && Careful(s, steps)
    decreases |steps|
  {
    if steps != [] {
      assert steps[0] in steps;
      DeliverMoves(s, steps[0].lane, steps[0].db);
      DeliveriesRead(Do(s, steps[0]), steps[1..]);
    }
  }

  lemma {:induction false} CarefulAppend(s: State, a: seq<Step>, b: seq<Step>)
    requires Admissible(s, a) && Careful(s, a) && Admissible(Exec(s, a), b) && Careful(Exec(s, a), b)
    ensures Admissible(s, a + b) && Careful(s, a + b)
    decreases |a|
  {
    ExecAppend(s, a, b);
    if a == [] {
      assert a + b == b;
    } else {
      CarefulAppend(Do(s, a[0]), a[1..], b);
      assert (a + b)[1..] == a[1..] + b;
    }
  }

  lemma {:induction false} CatchesUp(s: State)
    requires forall l :: l in s.lanes ==> s.lanes[l].position <= |s.lanes[l].records| && ClearAhead(s.lanes[l])
    ensures CanCatchUp(s)
    decreases |Behind(s)|
  {
    if l :| l in Behind(s) {
      var n := |s.lanes[l].records| - s.lanes[l].position;
      DrainReachesEnd(s, l);
      var s' := Exec(s, Drain(l, n));
      assert Behind(s') == Behind(s) - {l};
      CatchesUp(s');
      var rest :| Admissible(s', rest) && OnlyDeliveries(rest) && AllAtEnd(Exec(s', rest));
      ExecAppend(s, Drain(l, n), rest);
      assert OnlyDeliveries(Drain(l, n) + rest);
    } else {
      forall l | l in s.lanes ensures AtEnd(s, l) {
        assert l !in Behind(s);
      }
      assert Admissible(s, []) && Exec(s, []) == s && OnlyDeliveries([]);
    }
  }

  /** Deliveries to other lanes leave a lane alone. */
  lemma {:induction false} BlockedAmongAll(s: State, steps: seq<Step>, lane: nat, k: nat)
    requires Admissible(s, steps) && OnlyDeliveries(steps)
    requires lane in s.lanes && s.lanes[lane].position <= k < |s.lanes[lane].records|
    requires Blocks(s.lanes[lane].records[k])
    ensures !AllAtEnd(Exec(s, steps))
    decreases |steps|
  {
    if steps == [] {
      assert !AtEnd(s, lane);
    } else {
      assert steps[0] in steps;
      DeliverMoves(s, steps[0].lane, steps[0].db);
      BlockedAmongAll(Do(s, steps[0]), steps[1..], lane, k);
    }
  }

  /** The group can catch up with its whole log exactly if no lane has a blocking record ahead. */
  lemma CatchUpExact(s: State)
    requires forall l :: l in s.lanes ==> s.lanes[l].position <= |s.lanes[l].records|
    ensures CanCatchUp(s) <==> forall l :: l in s.lanes ==> ClearAhead(s.lanes[l])
  {
    if forall l :: l in s.lanes ==> ClearAhead(s.lanes[l]) {
      CatchesUp(s);
    } else {
      var l :| l in s.lanes && !ClearAhead(s.lanes[l]);
      var k :| s.lanes[l].position <= k < |s.lanes[l].records| && Blocks(s.lanes[l].records[k]);
      forall steps | Admissible(s, steps) && OnlyDeliveries(steps) ensures !AllAtEnd(Exec(s, steps)) {
        BlockedAmongAll(s, steps, l, k);
      }
    }
  }
}
