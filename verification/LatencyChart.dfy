/** The dashboard's stage-latency averages: a log sample is split into chains by the correlation id
    printed in each message, every chain is traced, and the latencies are averaged per stage. */
module LatencyChart {
  import opened Prelude
  import opened Trace

  datatype StageLatency = StageLatency(stage: string, avgMs: int, samples: int)

  datatype Summary = Summary(stages: seq<StageLatency>, avgChainMs: Option<int>, chains: int)

  datatype Sum = Sum(total: int, samples: int)

  // ----- the correlation id of a message -----

  const MARK := "correlationId="

  /** A letter, a digit, an underscore or a hyphen. */
  predicate WordChar(c: char) {
    'a' <= c <= 'z' || 'A' <= c <= 'Z' || '0' <= c <= '9' || c == '_' || c == '-'
  }

  /** The longest run of word characters at the start. */
  function WordRun(s: string): string {
    if s == "" || !WordChar(s[0]) then "" else [s[0]] + WordRun(s[1..])
  }

  predicate StartsWithMark(s: string) {
    |MARK| < |s| && s[..|MARK|] == MARK && WordChar(s[|MARK|])
  }

  /** The word after the leftmost mark that has one. */
  function CorrelationOf(message: string): Option<string> {
    if message == "" then None
    else if StartsWithMark(message) then Some(WordRun(message[|MARK|..]))
    else CorrelationOf(message[1..])
  }

  lemma {:induction false} WordRunIsLongest(s: string)
    ensures WordRun(s) <= s && forall c :: c in WordRun(s) ==> WordChar(c)
    ensures |WordRun(s)| == |s| || !WordChar(s[|WordRun(s)|])
  {
    if s != "" && WordChar(s[0]) {
      WordRunIsLongest(s[1..]);
      assert s == [s[0]] + s[1..];
    }
  }

  /** There is no id exactly when no position starts a match; otherwise the id is the whole run of word
      characters after the first mark that has one, and it is not empty. */
  lemma {:induction false} CorrelationIsLeftmost(message: string)
    ensures CorrelationOf(message).None? <==> forall i :: 0 <= i < |message| ==> !StartsWithMark(message[i..])
    ensures CorrelationOf(message).Some? ==> exists i: nat ::
        FirstMatch(message, i) && CorrelationOf(message).value == Captured(message, i)
    ensures CorrelationOf(message).Some? ==> CorrelationOf(message).value != ""
  {
    if message != "" {
      assert message[0..] == message;
      if StartsWithMark(message) {
        assert FirstMatch(message, 0);
      } else {
        var rest := message[1..];
        CorrelationIsLeftmost(rest);
        assert forall i :: 0 < i < |message| ==> message[i..] == rest[i - 1..];
        if CorrelationOf(rest).Some? {
          var i: nat :| FirstMatch(rest, i) && CorrelationOf(rest).value == Captured(rest, i);
          assert message[i + 1..] == rest[i..];
          FirstMatchShifts(message, i);
        }
      }
    }
  }

  ghost predicate FirstMatch(message: string, i: nat) {
    && i < |message| && StartsWithMark(message[i..])
    && forall j :: 0 <= j < i ==> !StartsWithMark(message[j..])
  }

  ghost function Captured(message: string, i: nat): string
    requires FirstMatch(message, i)
  {
    WordRun(message[i..][|MARK|..])
  }

  lemma FirstMatchShifts(message: string, i: nat)
    requires message != "" && !StartsWithMark(message) && FirstMatch(message[1..], i)
    ensures FirstMatch(message, i + 1)
  {
    var rest := message[1..];
    assert message[i + 1..] == rest[i..];
    forall j | 0 <= j < i + 1 ensures !StartsWithMark(message[j..]) {
      if j == 0 {
        assert message[0..] == message;
      } else {
        assert message[j..] == rest[j - 1..];
      }
    }
  }

  // ----- chains -----

  function Ids(entries: seq<LogEntry>): set<string> {
    set e | e in entries && CorrelationOf(e.message).Some? :: CorrelationOf(e.message).value
  }

  /** The subsequence of one correlation id. */
  function Chain(entries: seq<LogEntry>, id: string): seq<LogEntry> {
    if entries == [] then [] else
      var last := entries[|entries| - 1];
      Chain(entries[..|entries| - 1], id) + if CorrelationOf(last.message) == Some(id) then [last] else []
  }

  lemma {:induction false} ChainExact(entries: seq<LogEntry>, id: string)
    ensures forall e :: e in Chain(entries, id) <==> e in entries && CorrelationOf(e.message) == Some(id)
    ensures Chain(entries, id) == [] <==> id !in Ids(entries)
  {
    if entries != [] {
      var rest, last := entries[..|entries| - 1], entries[|entries| - 1];
      assert entries == rest + [last];
      ChainExact(rest, id);
      if Chain(entries, id) != [] {
        assert Chain(entries, id)[0] in Chain(entries, id);
      }
    }
  }

  /** `groups` holds the entries of each id, `order` the ids as they were first seen. */
  ghost predicate Grouped(entries: seq<LogEntry>, groups: map<string, seq<LogEntry>>, order: seq<string>) {
    && groups.Keys == Ids(entries) == Elements(order) && Distinct(order)
    && forall id :: id in groups ==> groups[id] == Chain(entries, id)
  }

  lemma GroupedSkip(entries: seq<LogEntry>, entry: LogEntry, groups: map<string, seq<LogEntry>>, order: seq<string>)
    requires Grouped(entries, groups, order) && CorrelationOf(entry.message).None?
    ensures Grouped(entries + [entry], groups, order)
  {
    assert (entries + [entry])[..|entries|] == entries;
    IdsGrow(entries, entry);
  }

  lemma IdsGrow(entries: seq<LogEntry>, entry: LogEntry)
    ensures Ids(entries + [entry]) ==
            Ids(entries) + match CorrelationOf(entry.message) case None => {} case Some(id) => {id}
  {
    assert entry in entries + [entry];
  }

  lemma GroupedStep(entries: seq<LogEntry>, entry: LogEntry, groups: map<string, seq<LogEntry>>, order: seq<string>)
    requires Grouped(entries, groups, order) && CorrelationOf(entry.message).Some?
    ensures var id := CorrelationOf(entry.message).value;
      var group := if id in groups then groups[id] else [];
      Grouped(entries + [entry], groups[id := group + [entry]], if id in groups then order else order + [id])
  {
    var id := CorrelationOf(entry.message).value;
    var group := if id in groups then groups[id] else [];
    IdsGrow(entries, entry);
    Grown(order, id);
    forall other | other in groups[id := group + [entry]]
      ensures groups[id := group + [entry]][other] == Chain(entries + [entry], other)
    {
      ChainGrows(entries, entry, other);
      ChainExact(entries, other);
    }
    assert id in order <==> id in Elements(order);
  }

  lemma ChainGrows(entries: seq<LogEntry>, entry: LogEntry, id: string)
    ensures Chain(entries + [entry], id) ==
            Chain(entries, id) + if CorrelationOf(entry.message) == Some(id) then [entry] else []
  {
    assert (entries + [entry])[..|entries|] == entries;
  }

  // ----- what the averages mean -----

  function MsOf(latency: Option<int>): int {
    if latency.Some? then latency.value else 0
  }

  function SampleOf(latency: Option<int>): int {
    if latency.Some? then 1 else 0
  }

  /** What one chain, traced by itself, adds to stage k and to the chain durations. */
  ghost function StageMsOf(entries: seq<LogEntry>, k: nat): string -> int {
    id => MsOf(Latency(Chain(entries, id), k))
  }

  ghost function StageSampleOf(entries: seq<LogEntry>, k: nat): string -> int {
    id => SampleOf(Latency(Chain(entries, id), k))
  }

  ghost function ChainMsOf(entries: seq<LogEntry>): string -> int {
    id => MsOf(TotalDurationMs(TraceOf(Chain(entries, id))))
  }

  ghost function ChainSampleOf(entries: seq<LogEntry>): string -> int {
    id => SampleOf(TotalDurationMs(TraceOf(Chain(entries, id))))
  }

  /** Added up over the distinct correlation ids of the sample. */
  ghost function StageMs(entries: seq<LogEntry>, k: nat): int {
    SumSet(Ids(entries), StageMsOf(entries, k))
  }

  ghost function StageSamples(entries: seq<LogEntry>, k: nat): int {
    SumSet(Ids(entries), StageSampleOf(entries, k))
  }

  ghost function ChainMs(entries: seq<LogEntry>): int {
    SumSet(Ids(entries), ChainMsOf(entries))
  }

  ghost function ChainSamples(entries: seq<LogEntry>): int {
    SumSet(Ids(entries), ChainSampleOf(entries))
  }

  /** The average, rounded to the nearest integer; halves round up. */
  function Round(total: int, samples: int): int
    requires samples > 0
  {
    (2 * total + samples) / (2 * samples)
  }

  lemma RoundIsNear(total: int, samples: int)
    requires samples > 0
    ensures -samples <= 2 * (Round(total, samples) * samples - total) <= samples
  {
    var q, d := Round(total, samples), 2 * samples;
    assert q * d <= 2 * total + samples < q * d + d;
    assert q * d == 2 * (q * samples);
  }

  // ----- the loop over the groups -----

  function Add(sum: Sum, latency: Option<int>): Sum {
    if latency.Some? then Sum(sum.total + latency.value, sum.samples + 1) else sum
  }

  function SumOver(chains: seq<seq<LogEntry>>, k: nat): Sum {
    if chains == [] then Sum(0, 0) else Add(SumOver(chains[..|chains| - 1], k), Latency(chains[|chains| - 1], k))
  }

  function DurationsOf(chains: seq<seq<LogEntry>>): (durations: seq<Option<int>>)
    ensures |durations| == |chains| && forall i :: 0 <= i < |chains| ==>
        durations[i] == TotalDurationMs(TraceOf(chains[i]))
  {
    seq(|chains|, i requires 0 <= i < |chains| => TotalDurationMs(TraceOf(chains[i])))
  }

  function Present(options: seq<Option<int>>): seq<int> {
    if options == [] then [] else
      Present(options[..|options| - 1]) + match options[|options| - 1] case Some(ms) => [ms] case None => []
  }

  function SumInts(s: seq<int>): int {
    if s == [] then 0 else SumInts(s[..|s| - 1]) + s[|s| - 1]
  }

  /** A stage is in the table of sums exactly if it has a sample. */
  ghost predicate SumOk(sums: map<string, Sum>, title: string, sum: Sum) {
    if title in sums then sums[title] == sum && sum.samples > 0 else sum == Sum(0, 0)
  }

  ghost predicate SumsOk(sums: map<string, Sum>, chains: seq<seq<LogEntry>>) {
    forall k :: 0 <= k < STAGES ==> SumOk(sums, TITLES[k], SumOver(chains, k))
  }

  lemma TitlesDiffer(j: nat, k: nat)
    requires j < STAGES && k < STAGES && TITLES[j] == TITLES[k]
    ensures j == k
  {
    assert |TITLES[0]| == 7 && |TITLES[1]| == 12 && |TITLES[2]| == 14 && |TITLES[3]| == 10;
    assert |TITLES[4]| == 15 && |TITLES[5]| == 14 && |TITLES[6]| == 9 && |TITLES[7]| == 12;
    assert TITLES[1][0] == 'P' && TITLES[7][0] == 'N' && TITLES[2][0] == 'J' && TITLES[5][0] == 'R';
  }

  /** Stages below j have the newest chain's latency, the others not yet. */
  ghost predicate PartlySummed(sums: map<string, Sum>, chains: seq<seq<LogEntry>>, chain: seq<LogEntry>, j: nat) {
    forall k :: 0 <= k < STAGES ==>
        SumOk(sums, TITLES[k], if k < j then Add(SumOver(chains, k), Latency(chain, k)) else SumOver(chains, k))
  }

  function AddStage(sums: map<string, Sum>, stage: TraceStage): map<string, Sum> {
    if stage.latencyMs.None? then sums else
      var sum := if stage.title in sums then sums[stage.title] else Sum(0, 0);
      sums[stage.title := Sum(sum.total + stage.latencyMs.value, sum.samples + 1)]
  }

  lemma AddStageStep(sums: map<string, Sum>, chains: seq<seq<LogEntry>>, chain: seq<LogEntry>, j: nat)
    requires j < STAGES && PartlySummed(sums, chains, chain, j)
    ensures PartlySummed(AddStage(sums, StageOf(chain, j)), chains, chain, j + 1)
  {
    var sums' := AddStage(sums, StageOf(chain, j));
    forall k | 0 <= k < STAGES
      ensures SumOk(sums', TITLES[k],
                    if k < j + 1 then Add(SumOver(chains, k), Latency(chain, k)) else SumOver(chains, k))
    {
      assert SumOk(sums, TITLES[k], if k < j then Add(SumOver(chains, k), Latency(chain, k)) else SumOver(chains, k));
      if k != j && TITLES[k] == TITLES[j] {
        TitlesDiffer(j, k);
      }
    }
  }

  method AddChain(sums: map<string, Sum>, stages: seq<TraceStage>, ghost chains: seq<seq<LogEntry>>,
                  ghost chain: seq<LogEntry>)
    returns (sums': map<string, Sum>)
    requires SumsOk(sums, chains) && stages == TraceOf(chain)
    ensures SumsOk(sums', chains + [chain])
  {
    sums' := sums;
    for j := 0 to |stages|
      invariant PartlySummed(sums', chains, chain, j)
    {
      AddStageStep(sums', chains, chain, j);
      sums' := AddStage(sums', stages[j]);
    }
    assert (chains + [chain])[..|chains|] == chains;
  }

  function ChainsOf(entries: seq<LogEntry>, order: seq<string>): (chains: seq<seq<LogEntry>>)
    ensures |chains| == |order| && forall i :: 0 <= i < |order| ==> chains[i] == Chain(entries, order[i])
  {
    seq(|order|, i requires 0 <= i < |order| => Chain(entries, order[i]))
  }

  /** One bar for each label whose stage has a sample. */
  function Bars(labels: seq<string>, stats: seq<Sum>): seq<StageLatency>
    requires |labels| == |stats|
  {
    if labels == [] then [] else
      var n := |labels| - 1;
      Bars(labels[..n], stats[..n]) +
      if stats[n].samples <= 0 then []
      else [StageLatency(labels[n], Round(stats[n].total, stats[n].samples), stats[n].samples)]
  }

  function Average(total: int, samples: int): Option<int> {
    if samples > 0 then Some(Round(total, samples)) else None
  }

  ghost function Stats(entries: seq<LogEntry>): (stats: seq<Sum>)
    ensures |stats| == STAGES && forall k :: 0 <= k < STAGES ==>
        stats[k] == Sum(StageMs(entries, k), StageSamples(entries, k))
  {
    seq(STAGES, k requires 0 <= k < STAGES => Sum(StageMs(entries, k), StageSamples(entries, k)))
  }

  ghost function Chart(entries: seq<LogEntry>): Summary {
    Summary(Bars(TITLES, Stats(entries)), Average(ChainMs(entries), ChainSamples(entries)), ChainSamples(entries))
  }

  method GroupByCorrelation(entries: seq<LogEntry>) returns (groups: map<string, seq<LogEntry>>, order: seq<string>)
    ensures Grouped(entries, groups, order)
  {
    groups, order := map[], [];
    for i := 0 to |entries|
      invariant Grouped(entries[..i], groups, order)
    {
      var entry := entries[i];
      assert entries[..i + 1] == entries[..i] + [entry];
      var id := CorrelationOf(entry.message);
      if id.None? {
        GroupedSkip(entries[..i], entry, groups, order);
        continue;
      }
      GroupedStep(entries[..i], entry, groups, order);
      var group := if id.value in groups then groups[id.value] else [];
      if id.value !in groups {
        order := order + [id.value];
      }
      groups := groups[id.value := group + [entry]];
    }
    assert entries[..|entries|] == entries;
  }

  lemma DurationsStep(chains: seq<seq<LogEntry>>, chain: seq<LogEntry>)
    ensures DurationsOf(chains + [chain]) == DurationsOf(chains) + [TotalDurationMs(TraceOf(chain))]
  {
  }

  lemma PresentStep(options: seq<Option<int>>, more: Option<int>)
    ensures Present(options + [more]) == Present(options) + match more case Some(ms) => [ms] case None => []
  {
    assert (options + [more])[..|options|] == options;
  }

  lemma NoChains(sums: map<string, Sum>)
    requires sums == map[]
    ensures SumsOk(sums, [])
  {
  }

  method TraceGroup(sums: map<string, Sum>, durations: seq<int>, group: seq<LogEntry>, ghost chains: seq<seq<LogEntry>>)
    returns (sums': map<string, Sum>, durations': seq<int>)
    requires SumsOk(sums, chains) && durations == Present(DurationsOf(chains))
    ensures SumsOk(sums', chains + [group]) && durations' == Present(DurationsOf(chains + [group]))
  {
    var stages := DeriveTrace(group);
    var duration := TotalDurationMs(stages);
    DurationsStep(chains, group);
    PresentStep(DurationsOf(chains), duration);
    durations' := durations;
    if duration.Some? {
      durations' := durations' + [duration.value];
    }
    sums' := AddChain(sums, stages, chains, group);
  }

  method StageLatencyAverages(entries: seq<LogEntry>) returns (result: Summary)
    ensures result == Chart(entries)
  {
    var groups, order := GroupByCorrelation(entries);
    var sums: map<string, Sum> := map[];
    var chainDurations: seq<int> := [];
    ghost var chains := ChainsOf(entries, order);
    NoChains(sums);
    for n := 0 to |order|
      invariant SumsOk(sums, chains[..n])
      invariant chainDurations == Present(DurationsOf(chains[..n]))
    {
      assert order[n] in Elements(order);
      var group := groups[order[n]];
      assert chains[..n + 1] == chains[..n] + [group];
      sums, chainDurations := TraceGroup(sums, chainDurations, group, chains[..n]);
    }
    assert chains[..|order|] == chains;
    ghost var stats := Stats(entries);
    SumsAreStats(sums, entries, order);
    var bars := BarsOf(sums, TITLES, stats);
    DurationsAreChainTotals(entries, order);
    result := Summary(bars, Average(SumInts(chainDurations), |chainDurations|), |chainDurations|);
  }

  method BarsOf(sums: map<string, Sum>, orderedLabels: seq<string>, ghost stats: seq<Sum>)
      returns (bars: seq<StageLatency>)
    requires |orderedLabels| == |stats| && forall k :: 0 <= k < |stats| ==> SumOk(sums, orderedLabels[k], stats[k])
    ensures bars == Bars(orderedLabels, stats)
  {
    bars := [];
    for k := 0 to |orderedLabels|
      invariant bars == Bars(orderedLabels[..k], stats[..k])
    {
      assert orderedLabels[..k + 1][..k] == orderedLabels[..k] && stats[..k + 1][..k] == stats[..k];
      assert SumOk(sums, orderedLabels[k], stats[k]);
      if orderedLabels[k] in sums {
        var sum := sums[orderedLabels[k]];
        bars := bars + [StageLatency(orderedLabels[k], Round(sum.total, sum.samples), sum.samples)];
      }
    }
    assert orderedLabels[..|orderedLabels|] == orderedLabels && stats[..|orderedLabels|] == stats;
  }

  // ----- sums in group order are sums over the set of ids -----

  lemma {:induction false} SumInOrder(entries: seq<LogEntry>, order: seq<string>, k: nat)
    ensures SumOver(ChainsOf(entries, order), k)
         == Sum(SumSeq(order, StageMsOf(entries, k)), SumSeq(order, StageSampleOf(entries, k)))
  {
    if order != [] {
      var rest := order[..|order| - 1];
      SumInOrder(entries, rest, k);
      assert ChainsOf(entries, order)[..|order| - 1] == ChainsOf(entries, rest);
    }
  }

  lemma SumIsStageTotal(entries: seq<LogEntry>, order: seq<string>, k: nat)
    requires Distinct(order) && Elements(order) == Ids(entries)
    ensures SumOver(ChainsOf(entries, order), k) == Sum(StageMs(entries, k), StageSamples(entries, k))
  {
    SumInOrder(entries, order, k);
    SumSeqIsSumSet(order, StageMsOf(entries, k));
    SumSeqIsSumSet(order, StageSampleOf(entries, k));
  }

  lemma SumsAreStats(sums: map<string, Sum>, entries: seq<LogEntry>, order: seq<string>)
    requires SumsOk(sums, ChainsOf(entries, order)) && Distinct(order) && Elements(order) == Ids(entries)
    ensures forall k :: 0 <= k < STAGES ==> SumOk(sums, TITLES[k], Stats(entries)[k])
  {
    forall k | 0 <= k < STAGES ensures SumOk(sums, TITLES[k], Stats(entries)[k]) {
      SumIsStageTotal(entries, order, k);
    }
  }

  lemma {:induction false} PresentInOrder(order: seq<string>, options: seq<Option<int>>, ms: string -> int,
                                          sample: string -> int)
    requires |order| == |options|
    requires forall i :: 0 <= i < |order| ==>
        ms(order[i]) == MsOf(options[i]) && sample(order[i]) == SampleOf(options[i])
    ensures SumInts(Present(options)) == SumSeq(order, ms) && |Present(options)| == SumSeq(order, sample)
  {
    if order != [] {
      var n := |order| - 1;
      PresentInOrder(order[..n], options[..n], ms, sample);
      if options[n].Some? {
        assert Present(options)[..|Present(options)| - 1] == Present(options[..n]);
      } else {
        assert Present(options) == Present(options[..n]);
      }
    }
  }

  lemma DurationsAreChainTotals(entries: seq<LogEntry>, order: seq<string>)
    requires Distinct(order) && Elements(order) == Ids(entries)
    ensures SumInts(Present(DurationsOf(ChainsOf(entries, order)))) == ChainMs(entries)
    ensures |Present(DurationsOf(ChainsOf(entries, order)))| == ChainSamples(entries)
  {
    PresentInOrder(order, DurationsOf(ChainsOf(entries, order)), ChainMsOf(entries), ChainSampleOf(entries));
    SumSeqIsSumSet(order, ChainMsOf(entries));
    SumSeqIsSumSet(order, ChainSampleOf(entries));
  }

  // ----- only each chain's own entries matter -----

  /** The two samples hold, id by id, the same entries. */
  ghost predicate SameChains(a: seq<LogEntry>, b: seq<LogEntry>) {
    forall id, e :: e in Chain(a, id) <==> e in Chain(b, id)
  }

  lemma SameIds(a: seq<LogEntry>, b: seq<LogEntry>)
    requires SameChains(a, b)
    ensures Ids(a) == Ids(b)
  {
    forall id ensures id in Ids(a) <==> id in Ids(b) {
      ChainExact(a, id);
      ChainExact(b, id);
      if id in Ids(a) {
        assert Chain(a, id)[0] in Chain(b, id);
      }
      if id in Ids(b) {
        assert Chain(b, id)[0] in Chain(a, id);
      }
    }
  }

  lemma {:induction false} StartsIgnoreOrder(a: seq<LogEntry>, b: seq<LogEntry>, n: nat)
    requires n <= STAGES && forall e :: e in a <==> e in b
    ensures Starts(TraceOf(a)[..n]) == Starts(TraceOf(b)[..n])
  {
    if n > 0 {
      StartsIgnoreOrder(a, b, n - 1);
      EarliestIgnoresOrder(a, b, n - 1);
      LastStage(a, n);
      LastStage(b, n);
    }
  }

  lemma DurationIgnoresOrder(a: seq<LogEntry>, b: seq<LogEntry>)
    requires forall e :: e in a <==> e in b
    ensures TotalDurationMs(TraceOf(a)) == TotalDurationMs(TraceOf(b))
  {
    StartsIgnoreOrder(a, b, STAGES);
    assert TraceOf(a)[..STAGES] == TraceOf(a) && TraceOf(b)[..STAGES] == TraceOf(b);
  }

  lemma StageIgnoresInterleaving(a: seq<LogEntry>, b: seq<LogEntry>, k: nat)
    requires SameChains(a, b)
    ensures StageMs(a, k) == StageMs(b, k) && StageSamples(a, k) == StageSamples(b, k)
  {
    SameIds(a, b);
    forall id ensures Latency(Chain(a, id), k) == Latency(Chain(b, id), k) {
      TraceIgnoresOrder(Chain(a, id), Chain(b, id), k);
    }
    SumSetSame(Ids(a), StageMsOf(a, k), StageMsOf(b, k));
    SumSetSame(Ids(a), StageSampleOf(a, k), StageSampleOf(b, k));
  }

  lemma ChainsIgnoreInterleaving(a: seq<LogEntry>, b: seq<LogEntry>)
    requires SameChains(a, b)
    ensures ChainMs(a) == ChainMs(b) && ChainSamples(a) == ChainSamples(b)
  {
    SameIds(a, b);
    forall id ensures TotalDurationMs(TraceOf(Chain(a, id))) == TotalDurationMs(TraceOf(Chain(b, id))) {
      DurationIgnoresOrder(Chain(a, id), Chain(b, id));
    }
    SumSetSame(Ids(a), ChainMsOf(a), ChainMsOf(b));
    SumSetSame(Ids(a), ChainSampleOf(a), ChainSampleOf(b));
  }

  /** The chart depends only on each correlation id's own entries, not on how the chains interleave, in
      what order an id's entries come or how often one is repeated. */
  lemma ChartIgnoresInterleaving(a: seq<LogEntry>, b: seq<LogEntry>)
    requires SameChains(a, b)
    ensures Chart(a) == Chart(b)
  {
    forall k: nat ensures StageMs(a, k) == StageMs(b, k) && StageSamples(a, k) == StageSamples(b, k) {
      StageIgnoresInterleaving(a, b, k);
    }
    assert Stats(a) == Stats(b);
    ChainsIgnoreInterleaving(a, b);
  }

  /** So any two orders of the same lines give one chart; lines without an id change nothing. */
  lemma ChartIgnoresOrder(a: seq<LogEntry>, b: seq<LogEntry>)
    requires forall e: LogEntry :: CorrelationOf(e.message).Some? ==> (e in a <==> e in b)
    ensures Chart(a) == Chart(b)
  {
    forall id, e ensures e in Chain(a, id) <==> e in Chain(b, id) {
      ChainExact(a, id);
      ChainExact(b, id);
    }
    ChartIgnoresInterleaving(a, b);
  }

  // ----- what is averaged -----

  /** The entry belongs to this correlation id and to stage k. */
  ghost predicate ReachedBy(entries: seq<LogEntry>, id: string, k: nat) {
    exists e :: e in entries && CorrelationOf(e.message) == Some(id) && Matches(k, e)
  }

  /** The request has reached stage k and some stage before it. */
  ghost predicate Sampled(entries: seq<LogEntry>, id: string, k: nat) {
    ReachedBy(entries, id, k) && exists j: nat :: j < k && ReachedBy(entries, id, j)
  }

  ghost function SampledIds(entries: seq<LogEntry>, k: nat): set<string> {
    set id | id in Ids(entries) && Sampled(entries, id, k)
  }

  lemma ChainReaches(entries: seq<LogEntry>, id: string, k: nat)
    ensures Reached(Chain(entries, id), k) <==> ReachedBy(entries, id, k)
  {
    ChainExact(entries, id);
  }

  lemma ChainSampled(entries: seq<LogEntry>, id: string, k: nat)
    ensures Latency(Chain(entries, id), k).Some? <==> Sampled(entries, id, k)
  {
    LatencyIsTheHop(Chain(entries, id), k);
    forall j: nat ensures Reached(Chain(entries, id), j) <==> ReachedBy(entries, id, j) {
      ChainReaches(entries, id, j);
    }
  }

  /** A stage has one sample for each request that reached it and some stage before, and its total is the sum
      of their latencies, each in its own chain. */
  lemma SamplesExact(entries: seq<LogEntry>, k: nat, ms: string -> int)
    requires forall id :: Latency(Chain(entries, id), k).Some? ==> ms(id) == Latency(Chain(entries, id), k).value
    ensures StageSamples(entries, k) == |SampledIds(entries, k)|
    ensures StageMs(entries, k) == SumSet(SampledIds(entries, k), ms)
  {
    var hit := SampledIds(entries, k);
    forall id ensures Latency(Chain(entries, id), k).Some? <==> Sampled(entries, id, k) {
      ChainSampled(entries, id, k);
    }
    SumSetWhere(Ids(entries), hit, StageSampleOf(entries, k));
    SumSetOnes(hit, StageSampleOf(entries, k));
    SumSetWhere(Ids(entries), hit, StageMsOf(entries, k));
    SumSetSame(hit, StageMsOf(entries, k), ms);
  }

  /** The requests that reached two stages. */
  ghost function TimedIds(entries: seq<LogEntry>): set<string> {
    set id | id in Ids(entries) && |ReachedStages(Chain(entries, id), STAGES)| >= 2
  }

  /** The chain average is there exactly if some request reached two stages, and it lies within half a
      millisecond of the mean of their durations. */
  lemma ChainsExact(entries: seq<LogEntry>, ms: string -> int)
    requires forall id :: TotalDurationMs(TraceOf(Chain(entries, id))).Some? ==>
        ms(id) == TotalDurationMs(TraceOf(Chain(entries, id))).value
    ensures var chart, ids := Chart(entries), TimedIds(entries);
      && chart.chains == |ids|
      && (chart.avgChainMs.Some? <==> ids != {})
      && (ids != {} ==> -|ids| <= 2 * (chart.avgChainMs.value * |ids| - SumSet(ids, ms)) <= |ids|)
  {
    var hit := TimedIds(entries);
    forall id
      ensures TotalDurationMs(TraceOf(Chain(entries, id))).Some? <==> |ReachedStages(Chain(entries, id), STAGES)| >= 2
    {
      DurationIsWidest(Chain(entries, id));
    }
    SumSetWhere(Ids(entries), hit, ChainSampleOf(entries));
    SumSetOnes(hit, ChainSampleOf(entries));
    SumSetWhere(Ids(entries), hit, ChainMsOf(entries));
    SumSetSame(hit, ChainMsOf(entries), ms);
    if hit != {} {
      RoundIsNear(ChainMs(entries), |hit|);
    }
  }

  // ----- the shape of the bars -----

  /** A bar of stage k: its average lies within half a millisecond of the exact one. */
  ghost predicate BarOk(bar: StageLatency, title: string, sum: Sum) {
    && bar.stage == title && bar.samples == sum.samples > 0
    && -sum.samples <= 2 * (bar.avgMs * sum.samples - sum.total) <= sum.samples
  }

  /** `from` names each bar's stage: strictly increasing, and exactly the stages with samples. */
  ghost predicate InPipelineOrder(labels: seq<string>, stats: seq<Sum>, bars: seq<StageLatency>, from: seq<nat>) {
    && |labels| == |stats| && |from| == |bars|
    && (forall i :: 0 <= i < |from| ==> from[i] < |stats| && BarOk(bars[i], labels[from[i]], stats[from[i]]))
    && (forall i, j :: 0 <= i < j < |from| ==> from[i] < from[j])
    && (forall k :: 0 <= k < |stats| && stats[k].samples > 0 ==> k in from)
  }

  /** Bars come in the order of the labels, one for each stage that has a sample, each average rounded
      to the nearest integer. */
  lemma {:induction false} BarsExact(labels: seq<string>, stats: seq<Sum>) returns (from: seq<nat>)
    requires |labels| == |stats|
    ensures InPipelineOrder(labels, stats, Bars(labels, stats), from)
  {
    if labels == [] {
      from := [];
    } else {
      var n := |labels| - 1;
      var before := BarsExact(labels[..n], stats[..n]);
      if stats[n].samples > 0 {
        from := before + [n];
        BarAdded(labels, stats, Bars(labels[..n], stats[..n]), before);
      } else {
        from := before;
        BarSkipped(labels, stats, Bars(labels[..n], stats[..n]), before);
      }
    }
  }

  lemma BarSkipped(labels: seq<string>, stats: seq<Sum>, bars: seq<StageLatency>, from: seq<nat>)
    requires labels != [] && |labels| == |stats| && stats[|labels| - 1].samples <= 0
    requires InPipelineOrder(labels[..|labels| - 1], stats[..|labels| - 1], bars, from)
    ensures InPipelineOrder(labels, stats, bars + [], from)
  {
    assert bars + [] == bars;
    forall k | 0 <= k < |stats| && stats[k].samples > 0 ensures k in from {
      assert stats[..|labels| - 1][k].samples > 0;
    }
  }

  lemma BarAdded(labels: seq<string>, stats: seq<Sum>, bars: seq<StageLatency>, from: seq<nat>)
    requires labels != [] && |labels| == |stats| && stats[|labels| - 1].samples > 0
    requires InPipelineOrder(labels[..|labels| - 1], stats[..|labels| - 1], bars, from)
    ensures var n := |labels| - 1;
      InPipelineOrder(
        labels, stats,
        bars + [StageLatency(labels[n], Round(stats[n].total, stats[n].samples), stats[n].samples)], from + [n])
  {
    var n := |labels| - 1;
    RoundIsNear(stats[n].total, stats[n].samples);
    var all := from + [n];
    assert all[|from|] == n;
    forall k | 0 <= k < |stats| && stats[k].samples > 0 ensures k in all {
      if k < n {
        assert stats[..n][k].samples > 0;
      }
    }
  }
}
