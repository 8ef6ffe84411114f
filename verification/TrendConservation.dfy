/** Nothing is lost or invented between the event log and the dashboard: the headline total equals
    the sum of every chart, and counts each distinct message once per category. */
module TrendConservation {
  import opened Prelude
  import opened Messages
  import opened Rollup
  import Charts = TrendCharts

  type Row = Charts.TrendRow
  type Day = Charts.DayVerdicts

  // ----- every chart holds the same total -----

  ghost function DayTotal(rows: seq<Row>, day: string): int {
    Charts.DaySum(rows, day, Charts.Approved) + Charts.DaySum(rows, day, Charts.Rejected)
    + Charts.DaySum(rows, day, Charts.Pending)
  }

  /** All cells of the per-day chart together. */
  ghost function CellTotal(days: seq<Day>): int {
    SumSeq(days, (d: Day) => d.approved + d.rejected + d.pending)
  }

  lemma DayTotalAppend(rows: seq<Row>, row: Row, day: string)
    ensures DayTotal(rows + [row], day) == DayTotal(rows, day) + if Charts.DayOf(row) == day then row.count else 0
  {
    Charts.DaySumAppend(rows, row, day);
  }

  lemma {:induction false} DatesCoverRows(rows: seq<Row>, dates: seq<string>)
    requires Distinct(dates) && forall row :: row in rows ==> Charts.DayOf(row) in dates
    ensures SumSeq(dates, date => DayTotal(rows, date)) == Charts.Total(rows)
  {
    if rows == [] {
      SumSeqZero(dates, date => DayTotal(rows, date));
    } else {
      var rest, row := rows[..|rows| - 1], rows[|rows| - 1];
      assert rows == rest + [row] && row in rows;
      var share := (date: string) => if date == Charts.DayOf(row) then row.count else 0;
      DatesCoverRows(rest, dates);
      forall date ensures DayTotal(rows, date) == DayTotal(rest, date) + share(date) {
        DayTotalAppend(rest, row, date);
      }
      SumSeqAdd(dates, date => DayTotal(rest, date), share, date => DayTotal(rows, date));
      SumSeqOnce(dates, share, Charts.DayOf(row), row.count);
    }
  }

  /** What VerdictsByDay promises of its result. */
  ghost predicate IsDayChart(rows: seq<Row>, days: seq<Day>) {
    Charts.Ascending(days) && forall d :: d in days <==>
        d.date in Charts.Days(rows) && d == Charts.DayCells(rows, d.date)
  }

  function DatesOf(days: seq<Day>): (dates: seq<string>)
    ensures |dates| == |days| && forall i :: 0 <= i < |days| ==> dates[i] == days[i].date
  {
    seq(|days|, i requires 0 <= i < |days| => days[i].date)
  }

  lemma {:induction false} AscendingIsDistinct(days: seq<Day>)
    requires Charts.Ascending(days)
    ensures Distinct(DatesOf(days))
  {
    if days != [] {
      AscendingIsDistinct(days[1..]);
      var dates := DatesOf(days);
      assert dates[1..] == DatesOf(days[1..]);
      forall j | 0 < j < |dates| ensures dates[0] != dates[j] {
        assert days[j] == days[1..][j - 1];
        Charts.BeforeIsTotal(days[0].date, days[j].date);
      }
      forall i, j | 0 < i < j < |dates| ensures dates[i] != dates[j] {
        assert dates[i] == dates[1..][i - 1] && dates[j] == dates[1..][j - 1];
      }
    }
  }

  lemma {:induction false} SumOverDates(days: seq<Day>, f: Day -> int, g: string -> int)
    requires forall d :: d in days ==> f(d) == g(d.date)
    ensures SumSeq(days, f) == SumSeq(DatesOf(days), g)
  {
    if days != [] {
      var rest := days[..|days| - 1];
      assert DatesOf(days)[..|days| - 1] == DatesOf(rest);
      assert days[|days| - 1] in days;
      SumOverDates(rest, f, g);
    }
  }

  /** The per-day chart adds up to the headline total. */
  lemma DaysAddUp(rows: seq<Row>, days: seq<Day>)
    requires IsDayChart(rows, days)
    ensures CellTotal(days) == Charts.Total(rows)
  {
    AscendingIsDistinct(days);
    forall row | row in rows ensures Charts.DayOf(row) in DatesOf(days) {
      var cells := Charts.DayCells(rows, Charts.DayOf(row));
      assert cells in days;
      var i :| 0 <= i < |days| && days[i] == cells;
      assert DatesOf(days)[i] == cells.date;
    }
    SumOverDates(days, (d: Day) => d.approved + d.rejected + d.pending, date => DayTotal(rows, date));
    DatesCoverRows(rows, DatesOf(days));
  }

  lemma {:induction false} CategoriesCoverRows(rows: seq<Row>, names: seq<string>)
    requires Distinct(names)
    requires forall row :: row in rows ==> row.category in names
    ensures SumSeq(names, c => Charts.CategorySum(rows, c)) == Charts.Total(rows)
  {
    if rows == [] {
      SumSeqZero(names, c => Charts.CategorySum(rows, c));
    } else {
      var rest, row := rows[..|rows| - 1], rows[|rows| - 1];
      assert rows == rest + [row] && row in rows;
      var share := (c: string) => if c == row.category then row.count else 0;
      CategoriesCoverRows(rest, names);
      SumSeqAdd(names, c => Charts.CategorySum(rest, c), share, c => Charts.CategorySum(rows, c));
      SumSeqOnce(names, share, row.category, row.count);
    }
  }

  /** What CategoryTotals promises of its result. */
  ghost predicate IsCategoryChart(rows: seq<Row>, totals: seq<Charts.CategoryTotal>) {
    && |totals| == |Charts.Categories(rows)|
    && forall t :: t in totals <==>
        t.category in Charts.Categories(rows) && t.count == Charts.CategorySum(rows, t.category)
  }

  function NamesOf(totals: seq<Charts.CategoryTotal>): (names: seq<string>)
    ensures |names| == |totals| && forall i :: 0 <= i < |totals| ==> names[i] == totals[i].category
  {
    seq(|totals|, i requires 0 <= i < |totals| => totals[i].category)
  }

  lemma {:induction false} SumOverNames(totals: seq<Charts.CategoryTotal>, f: Charts.CategoryTotal -> int,
                                        g: string -> int)
    requires forall t :: t in totals ==> f(t) == g(t.category)
    ensures SumSeq(totals, f) == SumSeq(NamesOf(totals), g)
  {
    if totals != [] {
      var rest := totals[..|totals| - 1];
      assert NamesOf(totals)[..|totals| - 1] == NamesOf(rest);
      assert totals[|totals| - 1] in totals;
      SumOverNames(rest, f, g);
    }
  }

  /** A sequence as long as its set of elements repeats none. */
  lemma {:induction false} FullIsDistinct<T>(s: seq<T>)
    requires |s| == |Elements(s)|
    ensures Distinct(s)
  {
    if s != [] {
      var rest, last := s[..|s| - 1], s[|s| - 1];
      assert s == rest + [last];
      assert Elements(s) == Elements(rest) + {last};
      ElementsBound(rest);
      FullIsDistinct(rest);
      assert last !in Elements(rest);
      assert forall i :: 0 <= i < |rest| ==> rest[i] in Elements(rest);
    }
  }

  lemma {:induction false} ElementsBound<T>(s: seq<T>)
    ensures |Elements(s)| <= |s|
  {
    if s == [] {
      assert Elements(s) == {};
    } else {
      var rest, last := s[..|s| - 1], s[|s| - 1];
      assert s == rest + [last];
      ElementsBound(rest);
      assert Elements(s) == Elements(rest) + {last};
    }
  }

  lemma NamesAreCategories(rows: seq<Row>, totals: seq<Charts.CategoryTotal>)
    requires IsCategoryChart(rows, totals)
    ensures Elements(NamesOf(totals)) == Charts.Categories(rows) && Distinct(NamesOf(totals))
  {
    var names := NamesOf(totals);
    forall c | c in Charts.Categories(rows) ensures c in names {
      var t := Charts.CategoryTotal(c, Charts.CategorySum(rows, c));
      assert t in totals;
      var i :| 0 <= i < |totals| && totals[i] == t;
      assert names[i] == c;
    }
    forall c | c in names ensures c in Charts.Categories(rows) {
      var i :| 0 <= i < |names| && names[i] == c;
      assert totals[i] in totals;
    }
    assert Elements(names) == Charts.Categories(rows);
    FullIsDistinct(names);
  }

  /** The category chart adds up to the headline total less the rows without a category. */
  lemma CategoriesAddUp(rows: seq<Row>, totals: seq<Charts.CategoryTotal>)
    requires IsCategoryChart(rows, totals)
    ensures SumSeq(totals, (t: Charts.CategoryTotal) => t.count) + Charts.CategorySum(rows, Charts.NONE)
        == Charts.Total(rows)
  {
    NamesAreCategories(rows, totals);
    var names := NamesOf(totals);
    var all := names + [Charts.NONE];
    assert Charts.NONE !in Elements(names);
    Grown(names, Charts.NONE);
    forall row | row in rows ensures row.category in all {
      if row.category != Charts.NONE {
        assert row.category in Charts.Categories(rows);
        assert row.category in Elements(names);
      }
    }
    CategoriesCoverRows(rows, all);
    assert all[..|all| - 1] == names;
    SumOverNames(totals, (t: Charts.CategoryTotal) => t.count, c => Charts.CategorySum(rows, c));
  }

  // ----- the total counts messages -----

  /** The trend rows the dashboard reads: every table row from the cutoff day on, in any order. `iso`
      prints a date. */
  ghost predicate Lists(keys: seq<Key>, table: Table, cutoff: int) {
    Distinct(keys) && forall k :: k in keys <==> k in table && k.date >= cutoff
  }

  function RowOf(key: Key, iso: int -> string, count: nat): Row {
    Charts.TrendRow(iso(key.date), key.category, if key.verdict.Approved? then "approved" else "rejected", count)
  }

  function RowsOf(table: Table, keys: seq<Key>, iso: int -> string): (rows: seq<Row>)
    requires forall k :: k in keys ==> k in table
    ensures |rows| == |keys|
  {
    seq(|keys|, i requires 0 <= i < |keys| => RowOf(keys[i], iso, table[keys[i]]))
  }

  /** Which days and verdicts are asked for. */
  type Pick = (int, Verdict) -> bool

  /** One event under all listed keys: once per category of its day and verdict. */
  lemma {:induction false} EventSpread(keys: seq<Key>, date: int, categories: seq<string>, verdict: Verdict)
    requires Distinct(keys)
    requires (forall c :: c in categories ==> Key(date, c, verdict) in keys) || NoneListed(keys, date, verdict)
    ensures SumSeq(keys, (k: Key) =>
                     if k.date == date && k.verdict == verdict then multiset(categories)[k.category] else 0)
         == if NoneListed(keys, date, verdict) then 0 else |categories|
  {
    var f := (k: Key) => if k.date == date && k.verdict == verdict then multiset(categories)[k.category] else 0;
    if categories == [] || NoneListed(keys, date, verdict) {
      SumSeqZero(keys, f);
    } else {
      var rest, last := categories[..|categories| - 1], categories[|categories| - 1];
      assert categories == rest + [last] && last in categories;
      EventSpread(keys, date, rest, verdict);
      var x := Key(date, last, verdict);
      var g := (k: Key) => if k.date == date && k.verdict == verdict then multiset(rest)[k.category] else 0;
      var share := (k: Key) => if k == x then 1 else 0;
      SumSeqAdd(keys, g, share, f);
      SumSeqOnce(keys, share, x, 1);
    }
  }

  ghost predicate NoneListed(keys: seq<Key>, date: int, verdict: Verdict) {
    forall k :: k in keys ==> k.date != date || k.verdict != verdict
  }

  /** How many units a message adds to the charts: one per category, and one if it has none. */
  function Weight(e: Envelope, pick: Pick): nat
    requires e.payload.Completed?
  {
    if !pick(ToDateOnly(e.occurredAt), e.payload.verdict) then 0
    else if |e.payload.categories| == 0 then 1
    else |e.payload.categories|
  }

  /** Keys that are asked for, among them every one that counts an event. */
  ghost predicate Covers(keys: seq<Key>, applied: seq<Envelope>, pick: Pick) {
    && Distinct(keys) && (forall k :: k in keys ==> pick(k.date, k.verdict))
    && forall k :: Tally(applied, k) > 0 && pick(k.date, k.verdict) ==> k in keys
  }

  lemma EventWeight(keys: seq<Key>, e: Envelope, pick: Pick)
    requires e.payload.Completed? && Distinct(keys) && (forall k :: k in keys ==> pick(k.date, k.verdict))
    requires forall k :: Occurrences(e, k) > 0 && pick(k.date, k.verdict) ==> k in keys
    ensures SumSeq(keys, k => Occurrences(e, k)) == Weight(e, pick)
  {
    var date := ToDateOnly(e.occurredAt);
    var categories, verdict := CategoriesOf(e), e.payload.verdict;
    if pick(date, verdict) {
      forall c | c in categories ensures Key(date, c, verdict) in keys {
        assert Occurrences(e, Key(date, c, verdict)) > 0;
      }
      assert Key(date, categories[0], verdict) in keys;
    }
    EventSpread(keys, date, categories, verdict);
    SumSeqSame(keys, k => Occurrences(e, k),
               (k: Key) => if k.date == date && k.verdict == verdict then multiset(categories)[k.category] else 0);
  }

  ghost function WeightSum(applied: seq<Envelope>, pick: Pick): int
    requires forall e :: e in applied ==> e.payload.Completed?
  {
    if applied == [] then 0 else WeightSum(applied[..|applied| - 1], pick) + Weight(applied[|applied| - 1], pick)
  }

  lemma {:induction false} TallySpread(keys: seq<Key>, applied: seq<Envelope>, pick: Pick)
    requires (forall e :: e in applied ==> e.payload.Completed?) && Covers(keys, applied, pick)
    ensures SumSeq(keys, k => Tally(applied, k)) == WeightSum(applied, pick)
  {
    if applied == [] {
      SumSeqZero(keys, k => Tally(applied, k));
    } else {
      var rest, e := applied[..|applied| - 1], applied[|applied| - 1];
      assert e in applied;
      forall k: Key | pick(k.date, k.verdict) && (Tally(rest, k) > 0 || Occurrences(e, k) > 0) ensures k in keys {
        assert Tally(applied, k) > 0;
      }
      TallySpread(keys, rest, pick);
      EventWeight(keys, e, pick);
      SumSeqAdd(keys, k => Tally(rest, k), k => Occurrences(e, k), k => Tally(applied, k));
    }
  }

  /** The weights of the distinct messages. */
  ghost function MessageWeights(ids: set<Id>, body: map<Id, Envelope>, pick: Pick): int
    requires forall id :: id in ids ==> id in body && body[id].payload.Completed?
  {
    SumMap(map id | id in ids :: Weight(body[id], pick))
  }

  lemma {:induction false} WeightsByMessage(applied: seq<Envelope>, body: map<Id, Envelope>, pick: Pick)
    requires Distinct(IdsOf(applied))
    requires forall e :: e in applied ==> e.payload.Completed? && e.messageId in body && body[e.messageId] == e
    ensures forall id :: id in Elements(IdsOf(applied)) ==> id in body && body[id].payload.Completed?
    ensures WeightSum(applied, pick) == MessageWeights(Elements(IdsOf(applied)), body, pick)
  {
    if applied == [] {
      assert Elements(IdsOf(applied)) == {};
    } else {
      var rest, e := applied[..|applied| - 1], applied[|applied| - 1];
      assert e in applied;
      LastId(applied);
      WeightsByMessage(rest, body, pick);
      OneMoreWeight(Elements(IdsOf(rest)), body, pick, e.messageId);
    }
  }

  lemma OneMoreWeight(ids: set<Id>, body: map<Id, Envelope>, pick: Pick, one: Id)
    requires forall id :: id in ids + {one} ==> id in body && body[id].payload.Completed?
    requires one !in ids
    ensures MessageWeights(ids + {one}, body, pick) == MessageWeights(ids, body, pick) + Weight(body[one], pick)
  {
    var all := map id | id in ids + {one} :: Weight(body[id], pick);
    SumRemove(all, one);
    assert all - {one} == map id | id in ids :: Weight(body[id], pick);
  }

  // ----- listed keys -----

  function Picked(keys: seq<Key>, pick: Pick): seq<Key> {
    if keys == [] then [] else
      var last := keys[|keys| - 1];
      Picked(keys[..|keys| - 1], pick) + if pick(last.date, last.verdict) then [last] else []
  }

  lemma {:induction false} PickedExact(keys: seq<Key>, pick: Pick)
    requires Distinct(keys)
    ensures Distinct(Picked(keys, pick))
    ensures forall k :: k in Picked(keys, pick) <==> k in keys && pick(k.date, k.verdict)
  {
    if keys != [] {
      var rest, last := keys[..|keys| - 1], keys[|keys| - 1];
      assert keys == rest + [last];
      PickedExact(rest, pick);
      assert last !in rest;
      Grown(Picked(rest, pick), last);
    }
  }

  /** The rows of the asked days and verdicts add up to the entries of the asked keys. */
  ghost function PickedRows(table: Table, keys: seq<Key>, pick: Pick): int
    requires forall k :: k in keys ==> k in table
  {
    SumSeq(Picked(keys, pick), k => Get(table, k))
  }

  lemma PickedRowsNext(table: Table, keys: seq<Key>, pick: Pick)
    requires keys != [] && forall k :: k in keys ==> k in table
    ensures var rest, last := keys[..|keys| - 1], keys[|keys| - 1];
      PickedRows(table, keys, pick) ==
      PickedRows(table, rest, pick) + if pick(last.date, last.verdict) then table[last] else 0
  {
    var rest, last := keys[..|keys| - 1], keys[|keys| - 1];
    assert last in keys;
    if pick(last.date, last.verdict) {
      assert Picked(keys, pick)[..|Picked(keys, pick)| - 1] == Picked(rest, pick);
    } else {
      assert Picked(keys, pick) == Picked(rest, pick);
    }
  }

  lemma PickedTotal(table: Table, applied: seq<Envelope>, cutoff: int, keys: seq<Key>, pick: Pick)
    requires TableOk(table, applied) && Lists(keys, table, cutoff)
    requires forall e :: e in applied ==> e.payload.Completed?
    requires forall d, v :: pick(d, v) ==> d >= cutoff
    ensures PickedRows(table, keys, pick) == WeightSum(applied, pick)
  {
    PickedExact(keys, pick);
    forall k | Tally(applied, k) > 0 && pick(k.date, k.verdict) ensures k in Picked(keys, pick) {
      assert Get(table, k) > 0;
    }
    TallySpread(Picked(keys, pick), applied, pick);
    SumSeqSame(Picked(keys, pick), k => Get(table, k), k => Tally(applied, k));
  }

  /** After any run of the consumer group the listed keys of the asked days and verdicts count, once per
      category, exactly the distinct processed messages of those days and verdicts. */
  lemma PickedCountsMessages(s0: State, steps: seq<Step>, body: map<Id, Envelope>, cutoff: int, keys: seq<Key>,
                             pick: Pick)
    requires Fresh(s0) && Admissible(s0, steps) && Consistent(Exec(s0, steps), body)
    requires Lists(keys, Exec(s0, steps).table, cutoff) && forall d, v :: pick(d, v) ==> d >= cutoff
    ensures var s := Exec(s0, steps);
      && (forall id :: id in s.processed ==> id in body && body[id].payload.Completed?)
      && PickedRows(s.table, keys, pick) == MessageWeights(s.processed, body, pick)
  {
    FreshInv(s0);
    RunKeepsSound(s0, steps);
    var s := Exec(s0, steps);
    assert AppliedOk(s);
    forall e | e in s.applied ensures e.payload.Completed? && e.messageId in body && body[e.messageId] == e {
      assert ReadingOf(Event(e)).Readable? && InLog(s, e);
    }
    WeightsByMessage(s.applied, body, pick);
    PickedTotal(s.table, s.applied, cutoff, keys, pick);
  }

  // ----- the charts count messages -----

  function From(cutoff: int): Pick {
    (d, v) => d >= cutoff
  }

  function OfVerdict(cutoff: int, verdict: Verdict): Pick {
    (d, v) => d >= cutoff && v == verdict
  }

  function OnDay(date: int, verdict: Verdict): Pick {
    (d, v) => d == date && v == verdict
  }

  lemma {:induction false} TotalOfRows(table: Table, keys: seq<Key>, iso: int -> string, cutoff: int)
    requires forall k :: k in keys ==> k in table && k.date >= cutoff
    ensures Charts.Total(RowsOf(table, keys, iso)) == PickedRows(table, keys, From(cutoff))
  {
    if keys != [] {
      var rest := keys[..|keys| - 1];
      assert keys[|keys| - 1] in keys;
      TotalOfRows(table, rest, iso, cutoff);
      PickedRowsNext(table, keys, From(cutoff));
      assert RowsOf(table, keys, iso)[..|keys| - 1] == RowsOf(table, rest, iso);
    }
  }

  lemma {:induction false} ApprovedOfRows(table: Table, keys: seq<Key>, iso: int -> string, cutoff: int)
    requires forall k :: k in keys ==> k in table && k.date >= cutoff
    ensures Charts.ApprovedTotal(RowsOf(table, keys, iso)) == PickedRows(table, keys, OfVerdict(cutoff, Approved))
  {
    if keys != [] {
      var rest := keys[..|keys| - 1];
      assert keys[|keys| - 1] in keys;
      ApprovedOfRows(table, rest, iso, cutoff);
      PickedRowsNext(table, keys, OfVerdict(cutoff, Approved));
      assert RowsOf(table, keys, iso)[..|keys| - 1] == RowsOf(table, rest, iso);
    }
  }

  /** The printed dates begin with ten characters that tell the listed days apart. */
  ghost predicate Dated(iso: int -> string, keys: seq<Key>, date: int) {
    && |iso(date)| >= 10
    && forall k :: k in keys ==> |iso(k.date)| >= 10 && (iso(k.date)[..10] == iso(date)[..10] ==> k.date == date)
  }

  function CellOf(cells: Day, verdict: Verdict): nat {
    match verdict
    case Approved => cells.approved
    case Rejected => cells.rejected
  }

  lemma {:induction false} CellsOfRows(table: Table, keys: seq<Key>, iso: int -> string, date: int, verdict: Verdict)
    requires (forall k :: k in keys ==> k in table) && Dated(iso, keys, date)
    ensures CellOf(Charts.DayCells(RowsOf(table, keys, iso), iso(date)[..10]), verdict) ==
            PickedRows(table, keys, OnDay(date, verdict))
    ensures Charts.DayCells(RowsOf(table, keys, iso), iso(date)[..10]).pending == 0
  {
    if keys != [] {
      var rest := keys[..|keys| - 1];
      assert forall k :: k in rest ==> k in keys;
      CellsOfRows(table, rest, iso, date, verdict);
      PickedRowsNext(table, keys, OnDay(date, verdict));
      RowsNext(table, keys, iso);
      NextKey(RowsOf(table, rest, iso), table, keys[|keys| - 1], iso, date, verdict);
    }
  }

  lemma NextKey(rows: seq<Row>, table: Table, key: Key, iso: int -> string, date: int, verdict: Verdict)
    requires key in table && Dated(iso, [key], date)
    ensures var row, day := RowOf(key, iso, table[key]), iso(date)[..10];
      && CellOf(Charts.DayCells(rows + [row], day), verdict) ==
         CellOf(Charts.DayCells(rows, day), verdict)
             + (if OnDay(date, verdict)(key.date, key.verdict) then table[key] else 0)
      && Charts.DayCells(rows + [row], day).pending == Charts.DayCells(rows, day).pending
  {
    assert key in [key];
    NextCell(rows, RowOf(key, iso, table[key]), iso(date)[..10], verdict);
  }

  lemma RowsNext(table: Table, keys: seq<Key>, iso: int -> string)
    requires keys != [] && forall k :: k in keys ==> k in table
    ensures var rest, last := keys[..|keys| - 1], keys[|keys| - 1];
      last in table && RowsOf(table, keys, iso) == RowsOf(table, rest, iso) + [RowOf(last, iso, table[last])]
  {
    assert keys[|keys| - 1] in keys;
  }

  /** What one printed row adds to the cells of a day. */
  lemma NextCell(rows: seq<Row>, row: Row, day: string, verdict: Verdict)
    requires row.verdict == "approved" || row.verdict == "rejected"
    ensures var hit := Charts.DayOf(row) == day && (verdict.Approved? <==> row.verdict == "approved");
      CellOf(Charts.DayCells(rows + [row], day), verdict) ==
      CellOf(Charts.DayCells(rows, day), verdict) + if hit then row.count else 0
    ensures Charts.DayCells(rows + [row], day).pending == Charts.DayCells(rows, day).pending
  {
    Charts.DaySumAppend(rows, row, day);
  }

  /** After any run of the consumer group, over a log with any duplicates, failures and restarts, the
      headline total of the rows from a cutoff day on is max(1, |categories|) summed over the distinct
      processed messages of those days, and the approved part is the same sum over the approved ones. */
  lemma TotalCountsMessages(s0: State, steps: seq<Step>, body: map<Id, Envelope>, cutoff: int, keys: seq<Key>,
                            iso: int -> string)
    requires Fresh(s0) && Admissible(s0, steps) && Consistent(Exec(s0, steps), body)
    requires Lists(keys, Exec(s0, steps).table, cutoff)
    ensures var s := Exec(s0, steps);
      && (forall id :: id in s.processed ==> id in body && body[id].payload.Completed?)
      && Charts.Total(RowsOf(s.table, keys, iso)) == MessageWeights(s.processed, body, From(cutoff))
      && Charts.ApprovedTotal(RowsOf(s.table, keys, iso)) ==
         MessageWeights(s.processed, body, OfVerdict(cutoff, Approved))
  {
    PickedCountsMessages(s0, steps, body, cutoff, keys, From(cutoff));
    PickedCountsMessages(s0, steps, body, cutoff, keys, OfVerdict(cutoff, Approved));
    TotalOfRows(Exec(s0, steps).table, keys, iso, cutoff);
    ApprovedOfRows(Exec(s0, steps).table, keys, iso, cutoff);
  }

  /** And the cells of a day count the approved and the rejected messages of that day; none is pending. */
  lemma CellsCountMessages(s0: State, steps: seq<Step>, body: map<Id, Envelope>, cutoff: int, keys: seq<Key>,
                           iso: int -> string, date: int, verdict: Verdict)
    requires Fresh(s0) && Admissible(s0, steps) && Consistent(Exec(s0, steps), body)
    requires Lists(keys, Exec(s0, steps).table, cutoff) && Dated(iso, keys, date) && date >= cutoff
    ensures var s := Exec(s0, steps);
      var cells := Charts.DayCells(RowsOf(s.table, keys, iso), iso(date)[..10]);
      && (forall id :: id in s.processed ==> id in body && body[id].payload.Completed?)
      && CellOf(cells, verdict) == MessageWeights(s.processed, body, OnDay(date, verdict))
      && cells.pending == 0
  {
    PickedCountsMessages(s0, steps, body, cutoff, keys, OnDay(date, verdict));
    CellsOfRows(Exec(s0, steps).table, keys, iso, date, verdict);
  }
}
