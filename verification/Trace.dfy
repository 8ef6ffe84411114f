/** Deriving a request's trace from log lines: one stage per hop of the pipeline, recognised by which
    service and context wrote its marker. */
module Trace {
  import opened Prelude

  /** `ts` is the instant the ISO 8601 timestamp denotes. */
  datatype LogEntry = LogEntry(id: string, ts: int, level: string, service: string, context: string, message: string)

  datatype Status = Pending | Done | Error

  datatype TraceStage = TraceStage(
    key: string,
    title: string,
    status: Status,
    entries: seq<LogEntry>,
    startedAt: Option<int>,
    latencyMs: Option<int>)

  const STAGES := 8

  const KEYS: seq<string> := [
    "gateway", "post-created", "job-published", "ai-verdict",
    "verdict-applied", "result-published", "analytics", "notification"]

  const TITLES: seq<string> := [
    "Gateway", "Post created", "Job → RabbitMQ", "AI verdict",
    "Verdict applied", "Result → Kafka", "Analytics", "Notification"]

  predicate Includes(s: string, part: string) {
    |part| <= |s| && (s[..|part|] == part || (s != "" && Includes(s[1..], part)))
  }

  /** The match function of stage k. */
  predicate Matches(k: nat, e: LogEntry) {
    match k
    case 0 => e.service == "api-gateway" && e.context == "PostsProxyService"
    case 1 => e.service == "content-service" && e.context == "PostsService"
    case 2 => e.service == "content-service" && e.context == "OutboxRelayService" && Includes(e.message, "rabbitmq")
    case 3 => e.service == "ai-processing-service"
    case 4 => e.service == "content-service" && e.context == "ModerationCompletedConsumerService"
    case 5 => e.service == "content-service" && e.context == "OutboxRelayService" && Includes(e.message, "kafka")
    case 6 => e.service == "analytics-service"
    case 7 => e.service == "notification-service"
    case _ => false
  }

  predicate IsError(e: LogEntry) {
    e.level == "error" || e.level == "fatal"
  }

  // ----- what a trace means, whatever the order of the entries -----

  function Earliest(entries: seq<LogEntry>, k: nat): Option<int> {
    if entries == [] then None else
      var rest := Earliest(entries[1..], k);
      if !Matches(k, entries[0]) then rest
      else if rest.None? || entries[0].ts <= rest.value then Some(entries[0].ts)
      else rest
  }

  function StatusOf(entries: seq<LogEntry>, k: nat): Status {
    if Earliest(entries, k).None? then Pending
    else if exists e :: e in entries && Matches(k, e) && IsError(e) then Error
    else Done
  }

  /** The start of the last reached stage before k. */
  function PreviousStart(entries: seq<LogEntry>, k: nat): Option<int> {
    if k == 0 then None
    else if Earliest(entries, k - 1).Some? then Earliest(entries, k - 1)
    else PreviousStart(entries, k - 1)
  }

  function Max(a: int, b: int): int {
    if a >= b then a else b
  }

  function Min(a: int, b: int): int {
    if a <= b then a else b
  }

  function Latency(entries: seq<LogEntry>, k: nat): Option<int> {
    if Earliest(entries, k).Some? && PreviousStart(entries, k).Some?
    then Some(Max(0, Earliest(entries, k).value - PreviousStart(entries, k).value))
    else None
  }

  /** Earliest is the least timestamp among the matching entries. */
  lemma {:induction false} EarliestIsLeast(entries: seq<LogEntry>, k: nat)
    ensures Earliest(entries, k).None? <==> forall e :: e in entries ==> !Matches(k, e)
    ensures Earliest(entries, k).Some? ==>
        exists e :: e in entries && Matches(k, e) && e.ts == Earliest(entries, k).value
    ensures Earliest(entries, k).Some? ==> forall e :: e in entries && Matches(k, e) ==>
        Earliest(entries, k).value <= e.ts
  {
    if entries != [] {
      EarliestIsLeast(entries[1..], k);
      forall e | e in entries ensures e == entries[0] || e in entries[1..] {}
      var rest := Earliest(entries[1..], k);
      if rest.Some? {
        var e :| e in entries[1..] && Matches(k, e) && e.ts == rest.value;
        assert e in entries;
      }
      assert entries[0] in entries;
    }
  }

  // ----- sort and filter -----

  function Insert(e: LogEntry, s: seq<LogEntry>): seq<LogEntry> {
    if s == [] || e.ts <= s[0].ts then [e] + s else [s[0]] + Insert(e, s[1..])
  }

  /** A stable sort by timestamp. */
  function SortByTs(s: seq<LogEntry>): seq<LogEntry> {
    if s == [] then [] else Insert(s[0], SortByTs(s[1..]))
  }

  function Matched(s: seq<LogEntry>, k: nat): seq<LogEntry> {
    if s == [] then [] else (if Matches(k, s[0]) then [s[0]] else []) + Matched(s[1..], k)
  }

  /** Each entry is no later than all that follow it. */
  ghost predicate Sorted(s: seq<LogEntry>) {
    s != [] ==> (forall e :: e in s[1..] ==> s[0].ts <= e.ts) && Sorted(s[1..])
  }

  lemma {:induction false} InsertKeeps(e: LogEntry, s: seq<LogEntry>)
    ensures multiset(Insert(e, s)) == multiset(s) + multiset{e}
  {
    if s != [] && e.ts > s[0].ts {
      InsertKeeps(e, s[1..]);
      assert s == [s[0]] + s[1..];
    }
  }

  lemma {:induction false} InsertSorts(e: LogEntry, s: seq<LogEntry>)
    requires Sorted(s)
    ensures Sorted(Insert(e, s))
  {
    if s == [] || e.ts <= s[0].ts {
      assert ([e] + s)[1..] == s;
      assert s != [] ==> s == [s[0]] + s[1..];
    } else {
      var rest := Insert(e, s[1..]);
      InsertSorts(e, s[1..]);
      InsertKeeps(e, s[1..]);
      assert Insert(e, s)[1..] == rest;
      forall x | x in rest ensures s[0].ts <= x.ts {
        assert x in multiset(rest);
      }
    }
  }

  lemma {:induction false} SortSorts(s: seq<LogEntry>)
    ensures Sorted(SortByTs(s)) && multiset(SortByTs(s)) == multiset(s)
  {
    if s != [] {
      SortSorts(s[1..]);
      InsertSorts(s[0], SortByTs(s[1..]));
      InsertKeeps(s[0], SortByTs(s[1..]));
      assert s == [s[0]] + s[1..];
    }
  }

  lemma SortElements(s: seq<LogEntry>)
    ensures forall e :: e in SortByTs(s) <==> e in s
  {
    SortSorts(s);
    forall e ensures e in SortByTs(s) <==> e in s {
      assert e in SortByTs(s) <==> e in multiset(SortByTs(s));
    }
  }

  lemma {:induction false} MatchedExact(s: seq<LogEntry>, k: nat)
    ensures forall e :: e in Matched(s, k) <==> e in s && Matches(k, e)
  {
    if s != [] {
      MatchedExact(s[1..], k);
      assert s == [s[0]] + s[1..];
    }
  }

  /** The first match in a sorted log is the least. */
  lemma {:induction false} FirstIsLeast(s: seq<LogEntry>, k: nat)
    requires Sorted(s) && Matched(s, k) != []
    ensures forall e :: e in s && Matches(k, e) ==> Matched(s, k)[0].ts <= e.ts
  {
    assert s == [s[0]] + s[1..];
    if !Matches(k, s[0]) {
      FirstIsLeast(s[1..], k);
    }
  }

  /** So the first matched entry of the sorted log starts the stage. */
  lemma FirstMatched(entries: seq<LogEntry>, k: nat)
    ensures var matched := Matched(SortByTs(entries), k);
      Earliest(entries, k) == if matched == [] then None else Some(matched[0].ts)
  {
    var sorted := SortByTs(entries);
    var matched := Matched(sorted, k);
    SortElements(entries);
    MatchedExact(sorted, k);
    if matched == [] {
      EarliestIsLeast(entries, k);
    } else {
      SortSorts(entries);
      FirstIsLeast(sorted, k);
      assert matched[0] in matched;
      LeastIsEarliest(entries, k, matched[0]);
    }
  }

  lemma LeastIsEarliest(entries: seq<LogEntry>, k: nat, first: LogEntry)
    requires first in entries && Matches(k, first)
    requires forall e :: e in entries && Matches(k, e) ==> first.ts <= e.ts
    ensures Earliest(entries, k) == Some(first.ts)
  {
    EarliestIsLeast(entries, k);
  }

  // ----- the trace -----

  function StageOf(entries: seq<LogEntry>, k: nat): TraceStage
    requires k < STAGES
  {
    TraceStage(KEYS[k], TITLES[k], StatusOf(entries, k), Matched(SortByTs(entries), k), Earliest(entries, k),
               Latency(entries, k))
  }

  function TraceOf(entries: seq<LogEntry>): (stages: seq<TraceStage>)
    ensures |stages| == STAGES && forall k :: 0 <= k < STAGES ==> stages[k] == StageOf(entries, k)
  {
    seq(STAGES, k requires 0 <= k < STAGES => StageOf(entries, k))
  }

  method DeriveTrace(entries: seq<LogEntry>) returns (stages: seq<TraceStage>)
    ensures stages == TraceOf(entries)
  {
    var sorted := SortByTs(entries);
    var previousStart: Option<int> := None;
    stages := [];
    for k := 0 to STAGES
      invariant stages == TraceOf(entries)[..k]
      invariant previousStart == PreviousStart(entries, k)
    {
      var stage;
      stage, previousStart := NextStage(entries, sorted, k, previousStart);
      stages := stages + [stage];
    }
  }

  /** One call of the function mapped over the stages. */
  method NextStage(ghost entries: seq<LogEntry>, sorted: seq<LogEntry>, k: nat, previousStart: Option<int>)
    returns (stage: TraceStage, nextStart: Option<int>)
    requires k < STAGES && sorted == SortByTs(entries) && previousStart == PreviousStart(entries, k)
    ensures stage == StageOf(entries, k) && nextStart == PreviousStart(entries, k + 1)
  {
    StageByMatching(entries, k);
    var matched := Matched(sorted, k);
    var hasError := exists e :: e in matched && IsError(e);
    var startedAt := if |matched| > 0 then Some(matched[0].ts) else None;
    var latencyMs :=
      if startedAt.Some? && previousStart.Some? then Some(Max(0, startedAt.value - previousStart.value)) else None;
    nextStart := if startedAt.Some? then startedAt else previousStart;
    var status := if |matched| == 0 then Pending else if hasError then Error else Done;
    stage := TraceStage(KEYS[k], TITLES[k], status, matched, startedAt, latencyMs);
  }

  lemma StageByMatching(entries: seq<LogEntry>, k: nat)
    requires k < STAGES
    ensures var matched := Matched(SortByTs(entries), k);
      && Earliest(entries, k) == (if |matched| > 0 then Some(matched[0].ts) else None)
      && StatusOf(entries, k) ==
         if |matched| == 0 then Pending else if exists e :: e in matched && IsError(e) then Error else Done
  {
    FirstMatched(entries, k);
    ErrorMatched(entries, k);
  }

  lemma ErrorMatched(entries: seq<LogEntry>, k: nat)
    ensures var matched := Matched(SortByTs(entries), k);
      (exists e :: e in matched && IsError(e)) <==> (exists e :: e in entries && Matches(k, e) && IsError(e))
  {
    SortElements(entries);
    MatchedExact(SortByTs(entries), k);
  }

  predicate IsTraceSettled(stages: seq<TraceStage>) {
    (exists s :: s in stages && s.status.Error?) || (forall s :: s in stages ==> s.status.Done?)
  }

  /** The starts of the reached stages, in pipeline order. */
  function Starts(stages: seq<TraceStage>): seq<int> {
    if stages == [] then [] else
      Starts(stages[..|stages| - 1]) +
      match stages[|stages| - 1].startedAt case Some(t) => [t] case None => []
  }

  function MaxOf(s: seq<int>): int
    requires s != []
  {
    if |s| == 1 then s[0] else Max(MaxOf(s[..|s| - 1]), s[|s| - 1])
  }

  function MinOf(s: seq<int>): int
    requires s != []
  {
    if |s| == 1 then s[0] else Min(MinOf(s[..|s| - 1]), s[|s| - 1])
  }

  function TotalDurationMs(stages: seq<TraceStage>): Option<int> {
    var starts := Starts(stages);
    if |starts| < 2 then None else Some(MaxOf(starts) - MinOf(starts))
  }

  // ----- order does not matter -----

  /** Stages depend only on which entries the sample holds: neither their order nor repetition changes
      a status, a start or a latency. */
  lemma TraceIgnoresOrder(a: seq<LogEntry>, b: seq<LogEntry>, k: nat)
    requires forall e :: e in a <==> e in b
    ensures Earliest(a, k) == Earliest(b, k) && StatusOf(a, k) == StatusOf(b, k)
    ensures PreviousStart(a, k) == PreviousStart(b, k) && Latency(a, k) == Latency(b, k)
  {
    EarliestIgnoresOrder(a, b, k);
    PreviousIgnoresOrder(a, b, k);
  }

  lemma EarliestIgnoresOrder(a: seq<LogEntry>, b: seq<LogEntry>, k: nat)
    requires forall e :: e in a <==> e in b
    ensures Earliest(a, k) == Earliest(b, k)
  {
    EarliestIsLeast(a, k);
    if Earliest(a, k).Some? {
      var first :| first in a && Matches(k, first) && first.ts == Earliest(a, k).value;
      LeastIsEarliest(b, k, first);
    } else {
      EarliestIsLeast(b, k);
    }
  }

  lemma {:induction false} PreviousIgnoresOrder(a: seq<LogEntry>, b: seq<LogEntry>, k: nat)
    requires forall e :: e in a <==> e in b
    ensures PreviousStart(a, k) == PreviousStart(b, k)
  {
    if k > 0 {
      EarliestIgnoresOrder(a, b, k - 1);
      PreviousIgnoresOrder(a, b, k - 1);
    }
  }

  // ----- settling is monotone -----

  /** More log lines never take a stage back: pending may become done or error, done may become error,
      error stays. */
  lemma StatusGrows(a: seq<LogEntry>, b: seq<LogEntry>, k: nat)
    requires forall e :: e in a ==> e in b
    ensures StatusOf(a, k).Error? ==> StatusOf(b, k).Error?
    ensures !StatusOf(a, k).Pending? ==> !StatusOf(b, k).Pending?
  {
    EarliestIsLeast(a, k);
    EarliestIsLeast(b, k);
  }

  /** So a settled trace stays settled, and to stop polling then is sound. */
  lemma SettledStaysSettled(a: seq<LogEntry>, b: seq<LogEntry>)
    requires forall e :: e in a ==> e in b
    requires IsTraceSettled(TraceOf(a))
    ensures IsTraceSettled(TraceOf(b))
  {
    forall k: nat | k < STAGES
      ensures StatusOf(a, k).Error? ==> StatusOf(b, k).Error?
      ensures !StatusOf(a, k).Pending? ==> !StatusOf(b, k).Pending?
    {
      StatusGrows(a, b, k);
    }
    if s :| s in TraceOf(a) && s.status.Error? {
      var k :| 0 <= k < STAGES && TraceOf(a)[k] == s;
      assert TraceOf(b)[k] in TraceOf(b) && TraceOf(b)[k].status.Error?;
    } else {
      forall s | s in TraceOf(b) ensures s.status.Done? || (exists t :: t in TraceOf(b) && t.status.Error?) {
        var k :| 0 <= k < STAGES && TraceOf(b)[k] == s;
        assert TraceOf(a)[k] in TraceOf(a);
      }
    }
  }

  /** An entry of stage k reports an error. */
  ghost predicate Fails(entries: seq<LogEntry>, k: nat) {
    exists e :: e in entries && Matches(k, e) && (e.level == "error" || e.level == "fatal")
  }

  ghost predicate Reached(entries: seq<LogEntry>, k: nat) {
    exists e :: e in entries && Matches(k, e)
  }

  lemma StatusExactly(entries: seq<LogEntry>, k: nat)
    ensures StatusOf(entries, k).Error? <==> Fails(entries, k)
    ensures StatusOf(entries, k).Done? <==> Reached(entries, k) && !Fails(entries, k)
  {
    EarliestIsLeast(entries, k);
  }

  /** A trace is settled if and only if some entry of a stage has level error or fatal, or every stage has
      an entry. */
  lemma SettledExactly(entries: seq<LogEntry>)
    ensures IsTraceSettled(TraceOf(entries)) <==>
      (exists k: nat :: k < STAGES && Fails(entries, k)) || (forall k: nat :: k < STAGES ==> Reached(entries, k))
  {
    var stages := TraceOf(entries);
    forall k: nat | k < STAGES
      ensures stages[k] in stages
      ensures stages[k].status.Error? <==> Fails(entries, k)
      ensures stages[k].status.Done? <==> Reached(entries, k) && !Fails(entries, k)
    {
      StatusExactly(entries, k);
    }
    forall s | s in stages ensures exists k: nat :: k < STAGES && stages[k] == s {
      var k :| 0 <= k < |stages| && stages[k] == s;
    }
    if k: nat :| k < STAGES && Fails(entries, k) {
      assert stages[k] in stages && stages[k].status.Error?;
    }
  }

  // ----- what a latency is -----

  lemma {:induction false} PreviousIsLast(entries: seq<LogEntry>, k: nat)
    ensures PreviousStart(entries, k).None? <==> forall j: nat :: j < k ==> !Reached(entries, j)
    ensures PreviousStart(entries, k).Some? ==>
      exists j: nat :: IsPrevious(entries, j, k) && Earliest(entries, j) == PreviousStart(entries, k)
  {
    if k > 0 {
      EarliestIsLeast(entries, k - 1);
      if Earliest(entries, k - 1).Some? {
        assert IsPrevious(entries, k - 1, k);
      } else {
        PreviousIsLast(entries, k - 1);
        if PreviousStart(entries, k).Some? {
          var j: nat :| IsPrevious(entries, j, k - 1) && Earliest(entries, j) == PreviousStart(entries, k - 1);
          assert IsPrevious(entries, j, k);
        }
      }
    }
  }

  /** Stage j is the last reached one before k. */
  ghost predicate IsPrevious(entries: seq<LogEntry>, j: nat, k: nat) {
    j < k && Reached(entries, j) && forall i: nat :: j < i < k ==> !Reached(entries, i)
  }

  /** The entry starts stage k: it belongs to it, and none of the stage is earlier. */
  ghost predicate StartsStage(entries: seq<LogEntry>, e: LogEntry, k: nat) {
    e in entries && Matches(k, e) && forall f :: f in entries && Matches(k, f) ==> e.ts <= f.ts
  }

  lemma StartOf(entries: seq<LogEntry>, k: nat) returns (e: LogEntry)
    requires Earliest(entries, k).Some?
    ensures StartsStage(entries, e, k) && Earliest(entries, k) == Some(e.ts)
  {
    EarliestIsLeast(entries, k);
    e :| e in entries && Matches(k, e) && e.ts == Earliest(entries, k).value;
  }

  /** A latency is the time from the first entry of the last reached stage before to the stage's own first
      entry, or 0 where the clocks disagree. */
  ghost predicate IsHop(entries: seq<LogEntry>, j: nat, k: nat, from: LogEntry, to: LogEntry, ms: int) {
    && IsPrevious(entries, j, k) && StartsStage(entries, from, j) && StartsStage(entries, to, k)
    && ms == if to.ts >= from.ts then to.ts - from.ts else 0
  }

  /** A stage has a latency if and only if it is reached and some stage before it is. */
  lemma LatencyIsTheHop(entries: seq<LogEntry>, k: nat)
    ensures Latency(entries, k).Some? <==> Reached(entries, k) && exists j: nat :: j < k && Reached(entries, j)
    ensures Latency(entries, k).Some? ==>
      exists j, from, to :: IsHop(entries, j, k, from, to, Latency(entries, k).value)
  {
    EarliestIsLeast(entries, k);
    PreviousIsLast(entries, k);
    if Latency(entries, k).Some? {
      var j: nat :| IsPrevious(entries, j, k) && Earliest(entries, j) == PreviousStart(entries, k);
      var from := StartOf(entries, j);
      var to := StartOf(entries, k);
      assert IsHop(entries, j, k, from, to, Latency(entries, k).value);
    }
  }

  // ----- latencies add up -----

  /** The sum of the first n stages' latencies. */
  function SumLatencies(stages: seq<TraceStage>): int {
    if stages == [] then 0 else
      SumLatencies(stages[..|stages| - 1]) +
      match stages[|stages| - 1].latencyMs case Some(t) => t case None => 0
  }

  ghost predicate NonDecreasing(s: seq<int>) {
    forall i, j :: 0 <= i < j < |s| ==> s[i] <= s[j]
  }

  lemma {:induction false} ExtremesOfSorted(s: seq<int>)
    requires s != [] && NonDecreasing(s)
    ensures MaxOf(s) == s[|s| - 1] && MinOf(s) == s[0]
  {
    if |s| > 1 {
      ExtremesOfSorted(s[..|s| - 1]);
    }
  }

  lemma {:induction false} ExtremesExact(s: seq<int>)
    requires s != []
    ensures MaxOf(s) in s && MinOf(s) in s && forall x :: x in s ==> MinOf(s) <= x <= MaxOf(s)
  {
    if |s| > 1 {
      var rest := s[..|s| - 1];
      ExtremesExact(rest);
      assert s == rest + [s[|s| - 1]];
    }
  }

  /** One of the first n stages starts at t. */
  ghost predicate StartsAt(entries: seq<LogEntry>, n: nat, t: int) {
    exists k: nat :: k < n && Earliest(entries, k) == Some(t)
  }

  ghost function ReachedStages(entries: seq<LogEntry>, n: nat): set<nat> {
    set k: nat | k < n && Earliest(entries, k).Some?
  }

  lemma {:induction false} StartsExact(entries: seq<LogEntry>, n: nat, t: int)
    requires n <= STAGES
    ensures t in Starts(TraceOf(entries)[..n]) <==> StartsAt(entries, n, t)
  {
    if n > 0 {
      StartsExact(entries, n - 1, t);
      LastStage(entries, n);
      StartsAtNext(entries, n, t);
    }
  }

  lemma StartsAtNext(entries: seq<LogEntry>, n: nat, t: int)
    requires n > 0
    ensures StartsAt(entries, n, t) <==> StartsAt(entries, n - 1, t) || Earliest(entries, n - 1) == Some(t)
  {
  }

  lemma ReachedNext(entries: seq<LogEntry>, n: nat)
    requires n > 0
    ensures |ReachedStages(entries, n)| ==
            |ReachedStages(entries, n - 1)| + if Earliest(entries, n - 1).Some? then 1 else 0
  {
    if Earliest(entries, n - 1).Some? {
      assert ReachedStages(entries, n) == ReachedStages(entries, n - 1) + {n - 1};
    } else {
      assert ReachedStages(entries, n) == ReachedStages(entries, n - 1);
    }
  }

  lemma {:induction false} StartsCount(entries: seq<LogEntry>, n: nat)
    requires n <= STAGES
    ensures |Starts(TraceOf(entries)[..n])| == |ReachedStages(entries, n)|
  {
    if n > 0 {
      StartsCount(entries, n - 1);
      LastStage(entries, n);
      ReachedNext(entries, n);
    } else {
      assert ReachedStages(entries, 0) == {};
    }
  }

  /** Stage j starts d before stage k. */
  ghost predicate Apart(entries: seq<LogEntry>, j: nat, k: nat, d: int) {
    && j < STAGES && k < STAGES && Earliest(entries, j).Some? && Earliest(entries, k).Some?
    && Earliest(entries, k).value - Earliest(entries, j).value == d
  }

  /** Two stages start this far apart, and no two further. */
  ghost predicate IsWidest(entries: seq<LogEntry>, d: int) {
    (exists j, k :: Apart(entries, j, k, d)) && forall j, k, less :: Apart(entries, j, k, less) ==> less <= d
  }

  /** The duration is there exactly if two stages are reached, and it is the widest distance between the
      starts of two stages, in whatever order the stages start. */
  lemma DurationIsWidest(entries: seq<LogEntry>)
    ensures var duration := TotalDurationMs(TraceOf(entries));
      && (duration.Some? <==> |ReachedStages(entries, STAGES)| >= 2)
      && (duration.Some? ==> IsWidest(entries, duration.value))
  {
    assert TraceOf(entries)[..STAGES] == TraceOf(entries);
    StartsCount(entries, STAGES);
    if |Starts(TraceOf(entries))| >= 2 {
      ExtremesExact(Starts(TraceOf(entries)));
      WidestOf(entries, Starts(TraceOf(entries)));
    }
  }

  lemma WidestOf(entries: seq<LogEntry>, starts: seq<int>)
    requires starts == Starts(TraceOf(entries)[..STAGES]) && starts != []
    requires MaxOf(starts) in starts && MinOf(starts) in starts
    requires forall x :: x in starts ==> MinOf(starts) <= x <= MaxOf(starts)
    ensures IsWidest(entries, MaxOf(starts) - MinOf(starts))
  {
    StartsExact(entries, STAGES, MinOf(starts));
    StartsExact(entries, STAGES, MaxOf(starts));
    var j: nat :| j < STAGES && Earliest(entries, j) == Some(MinOf(starts));
    var k: nat :| k < STAGES && Earliest(entries, k) == Some(MaxOf(starts));
    assert Apart(entries, j, k, MaxOf(starts) - MinOf(starts));
    forall j, k, d | Apart(entries, j, k, d) ensures d <= MaxOf(starts) - MinOf(starts) {
      StartsExact(entries, STAGES, Earliest(entries, j).value);
      StartsExact(entries, STAGES, Earliest(entries, k).value);
    }
  }

  /** What the first n stages have reached: their starts and the sum of their latencies. */
  ghost predicate Telescoped(starts: seq<int>, previous: Option<int>, sum: int) {
    if starts == [] then previous.None? && sum == 0 else
      && previous == Some(starts[|starts| - 1])
      && sum >= starts[|starts| - 1] - starts[0]
      && (sum == starts[|starts| - 1] - starts[0] <==> NonDecreasing(starts))
  }

  lemma TelescopeStep(starts: seq<int>, previous: Option<int>, sum: int, start: int)
    requires Telescoped(starts, previous, sum)
    ensures var latency := if previous.Some? then Max(0, start - previous.value) else 0;
      Telescoped(starts + [start], Some(start), sum + latency)
  {
    var grown := starts + [start];
    NonDecreasingAppend(starts, start);
    assert grown[|starts|] == start;
    if starts != [] {
      assert grown[0] == starts[0];
    }
  }

  lemma NonDecreasingAppend(s: seq<int>, x: int)
    ensures NonDecreasing(s + [x]) <==> NonDecreasing(s) && (s != [] ==> s[|s| - 1] <= x)
  {
    var t := s + [x];
    assert forall i :: 0 <= i < |s| ==> t[i] == s[i];
    if NonDecreasing(t) {
      forall i, j | 0 <= i < j < |s| ensures s[i] <= s[j] {
        assert t[i] <= t[j];
      }
      if s != [] {
        assert t[|s| - 1] <= t[|s|];
      }
    }
  }

  lemma LastStage(entries: seq<LogEntry>, n: nat)
    requires 0 < n <= STAGES
    ensures var stages := TraceOf(entries);
      && Starts(stages[..n]) == Starts(stages[..n - 1])
          + (match Earliest(entries, n - 1) case Some(t) => [t] case None => [])
      && SumLatencies(stages[..n]) == SumLatencies(stages[..n - 1])
          + match Latency(entries, n - 1) case Some(t) => t case None => 0
  {
    var stages := TraceOf(entries);
    assert stages[..n][..n - 1] == stages[..n - 1] && stages[..n][n - 1] == StageOf(entries, n - 1);
  }

  lemma {:induction false} LatenciesTelescope(entries: seq<LogEntry>, n: nat)
    requires n <= STAGES
    ensures Telescoped(Starts(TraceOf(entries)[..n]), PreviousStart(entries, n), SumLatencies(TraceOf(entries)[..n]))
  {
    if n > 0 {
      LatenciesTelescope(entries, n - 1);
      LastStage(entries, n);
      if Earliest(entries, n - 1).Some? {
        TelescopeStep(Starts(TraceOf(entries)[..n - 1]), PreviousStart(entries, n - 1),
                      SumLatencies(TraceOf(entries)[..n - 1]),
                      Earliest(entries, n - 1).value);
      } else {
        assert Starts(TraceOf(entries)[..n]) == Starts(TraceOf(entries)[..n - 1]);
      }
    }
  }

  /** The latencies never add up to less than the time from the first reached stage's start to the
      last one's, and to exactly that if and only if the reached stages start in pipeline order: where
      the services' clocks disagree, the clamp to zero hides the steps back. */
  lemma LatenciesCoverTheSpan(entries: seq<LogEntry>)
    requires Starts(TraceOf(entries)) != []
    ensures var starts, sum := Starts(TraceOf(entries)), SumLatencies(TraceOf(entries));
      && sum >= starts[|starts| - 1] - starts[0]
      && (sum == starts[|starts| - 1] - starts[0] <==> NonDecreasing(starts))
  {
    assert TraceOf(entries)[..STAGES] == TraceOf(entries);
    LatenciesTelescope(entries, STAGES);
  }

  /** In pipeline order, then, they add up to the total duration. */
  lemma LatenciesAddUp(entries: seq<LogEntry>)
    requires NonDecreasing(Starts(TraceOf(entries)))
    ensures TotalDurationMs(TraceOf(entries)).Some? ==>
        SumLatencies(TraceOf(entries)) == TotalDurationMs(TraceOf(entries)).value
  {
    if |Starts(TraceOf(entries))| >= 2 {
      LatenciesCoverTheSpan(entries);
      ExtremesOfSorted(Starts(TraceOf(entries)));
    }
  }
}
