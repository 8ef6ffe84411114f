/** The dashboard's charts over trend rows: totals per day, per category and overall. */
module TrendCharts {
  import opened Prelude

  datatype TrendRow = TrendRow(date: string, category: string, verdict: string, count: nat)

  datatype DayVerdicts = DayVerdicts(date: string, approved: nat, rejected: nat, pending: nat)

  datatype CategoryTotal = CategoryTotal(category: string, count: nat)

  datatype Totals = Totals(total: nat, approvalRate: Option<real>)

  const NONE := "none"

  /** The day of an ISO 8601 date, its first ten characters. */
  function DayOf(row: TrendRow): string {
    if |row.date| <= 10 then row.date else row.date[..10]
  }

  /** The order of day strings: ISO 8601 dates compare character by character. */
  predicate Before(a: string, b: string) {
    b != "" && (a == "" || a[0] < b[0] || (a[0] == b[0] && Before(a[1..], b[1..])))
  }

  lemma {:induction false} BeforeIsTotal(a: string, b: string)
    ensures a == b || Before(a, b) || Before(b, a)
    ensures !(Before(a, b) && Before(b, a)) && !Before(a, a)
  {
    if a != "" && b != "" {
      BeforeIsTotal(a[1..], b[1..]);
      assert a == [a[0]] + a[1..] && b == [b[0]] + b[1..];
    }
    if a != "" {
      BeforeIsTotal(a[1..], a[1..]);
    }
  }

  lemma {:induction false} BeforeIsTransitive(a: string, b: string, c: string)
    requires Before(a, b) && Before(b, c)
    ensures Before(a, c)
  {
    if a != "" && a[0] == b[0] == c[0] {
      BeforeIsTransitive(a[1..], b[1..], c[1..]);
    }
  }

  // ----- what the charts mean -----

  datatype Column = Approved | Rejected | Pending

  function ColumnOf(row: TrendRow): Column {
    if row.verdict == "approved" then Approved else if row.verdict == "rejected" then Rejected else Pending
  }

  function DaySum(rows: seq<TrendRow>, day: string, column: Column): nat {
    if rows == [] then 0 else
      var row := rows[|rows| - 1];
      DaySum(rows[..|rows| - 1], day, column) + if DayOf(row) == day && ColumnOf(row) == column then row.count else 0
  }

  function CategorySum(rows: seq<TrendRow>, category: string): nat {
    if rows == [] then 0 else
      var row := rows[|rows| - 1];
      CategorySum(rows[..|rows| - 1], category) + if row.category == category then row.count else 0
  }

  function Total(rows: seq<TrendRow>): nat {
    if rows == [] then 0 else Total(rows[..|rows| - 1]) + rows[|rows| - 1].count
  }

  function ApprovedTotal(rows: seq<TrendRow>): nat {
    if rows == [] then 0 else
      ApprovedTotal(rows[..|rows| - 1]) + if rows[|rows| - 1].verdict == "approved" then rows[|rows| - 1].count else 0
  }

  function Days(rows: seq<TrendRow>): set<string> {
    set row | row in rows :: DayOf(row)
  }

  function Categories(rows: seq<TrendRow>): set<string> {
    set row | row in rows && row.category != NONE :: row.category
  }

  /** The position of the first row with this category. */
  function FirstSeen(rows: seq<TrendRow>, category: string): nat {
    if rows == [] || rows[0].category == category then 0 else 1 + FirstSeen(rows[1..], category)
  }

  function DayCells(rows: seq<TrendRow>, day: string): DayVerdicts {
    DayVerdicts(day, DaySum(rows, day, Approved), DaySum(rows, day, Rejected), DaySum(rows, day, Pending))
  }

  // ----- the sums in plain terms -----

  /** The counts of the rows that satisfy a condition, added up. */
  function SumWhere(rows: seq<TrendRow>, p: TrendRow -> bool): nat {
    if rows == [] then 0 else
      SumWhere(rows[..|rows| - 1], p) + if p(rows[|rows| - 1]) then rows[|rows| - 1].count else 0
  }

  /** The row is dated by this day, given as ten characters. */
  predicate IsOf(row: TrendRow, day: string) {
    row.date == day || (|row.date| > 10 && row.date[..10] == day)
  }

  /** A day's cells are the sums of its approved rows, of its rejected rows and of all its other rows. */
  lemma {:induction false} CellsExact(rows: seq<TrendRow>, day: string)
    requires |day| == 10
    ensures var cells := DayCells(rows, day);
      && cells.approved == SumWhere(rows, (r: TrendRow) => IsOf(r, day) && r.verdict == "approved")
      && cells.rejected == SumWhere(rows, (r: TrendRow) => IsOf(r, day) && r.verdict == "rejected")
      && cells.pending == SumWhere(rows, (r: TrendRow) =>
           IsOf(r, day) && r.verdict != "approved" && r.verdict != "rejected")
  {
    if rows != [] {
      CellsExact(rows[..|rows| - 1], day);
    }
  }

  /** The headline numbers are the sums of all rows and of the approved ones. */
  lemma {:induction false} TotalsExact(rows: seq<TrendRow>)
    ensures Total(rows) == SumWhere(rows, (r: TrendRow) => true)
    ensures ApprovedTotal(rows) == SumWhere(rows, (r: TrendRow) => r.verdict == "approved")
  {
    if rows != [] {
      TotalsExact(rows[..|rows| - 1]);
    }
  }

  /** A category's total is the sum of its rows. */
  lemma {:induction false} CategoryExact(rows: seq<TrendRow>, category: string)
    ensures CategorySum(rows, category) == SumWhere(rows, (r: TrendRow) => r.category == category)
  {
    if rows != [] {
      CategoryExact(rows[..|rows| - 1], category);
    }
  }

  // ----- verdictsByDay -----

  function InsertDay(d: DayVerdicts, s: seq<DayVerdicts>): seq<DayVerdicts> {
    if s == [] || !Before(s[0].date, d.date) then [d] + s else [s[0]] + InsertDay(d, s[1..])
  }

  function SortDays(s: seq<DayVerdicts>): seq<DayVerdicts> {
    if s == [] then [] else InsertDay(s[0], SortDays(s[1..]))
  }

  /** Days strictly ascend. */
  ghost predicate Ascending(s: seq<DayVerdicts>) {
    s != [] ==> (forall d :: d in s[1..] ==> Before(s[0].date, d.date)) && Ascending(s[1..])
  }

  lemma {:induction false} InsertDayElements(d: DayVerdicts, s: seq<DayVerdicts>)
    ensures forall x :: x in InsertDay(d, s) <==> x == d || x in s
    ensures |InsertDay(d, s)| == |s| + 1
  {
    if s != [] && Before(s[0].date, d.date) {
      InsertDayElements(d, s[1..]);
      assert s == [s[0]] + s[1..];
    }
  }

  lemma {:induction false} InsertDayAscends(d: DayVerdicts, s: seq<DayVerdicts>)
    requires Ascending(s) && forall x :: x in s ==> x.date != d.date
    ensures Ascending(InsertDay(d, s))
  {
    if s == [] {
    } else if Before(s[0].date, d.date) {
      InsertDayAscends(d, s[1..]);
      InsertDayElements(d, s[1..]);
      assert InsertDay(d, s)[1..] == InsertDay(d, s[1..]);
    } else {
      BeforeIsTotal(s[0].date, d.date);
      assert s == [s[0]] + s[1..];
      forall x | x in s ensures Before(d.date, x.date) {
        if x != s[0] {
          BeforeIsTransitive(d.date, s[0].date, x.date);
        }
      }
      assert ([d] + s)[1..] == s;
    }
  }

  lemma {:induction false} SortDaysExact(s: seq<DayVerdicts>)
    requires forall i, j :: 0 <= i < j < |s| ==> s[i].date != s[j].date
    ensures Ascending(SortDays(s)) && |SortDays(s)| == |s| && forall x :: x in SortDays(s) <==> x in s
  {
    if s != [] {
      SortDaysExact(s[1..]);
      InsertDayElements(s[0], SortDays(s[1..]));
      assert s == [s[0]] + s[1..];
      forall x | x in SortDays(s[1..]) ensures x.date != s[0].date {
        var j :| 0 <= j < |s[1..]| && s[1..][j] == x;
        assert s[j + 1] == x;
      }
      InsertDayAscends(s[0], SortDays(s[1..]));
    }
  }

  lemma DaySumAppend(rows: seq<TrendRow>, row: TrendRow, day: string)
    ensures forall c :: DaySum(rows + [row], day, c) ==
                        DaySum(rows, day, c) + if DayOf(row) == day && ColumnOf(row) == c then row.count else 0
  {
    assert (rows + [row])[..|rows|] == rows;
  }

  /** `byDay` holds the cells of each day so far, `order` the days as they were first seen. */
  ghost predicate DaysCollected(rows: seq<TrendRow>, byDay: map<string, DayVerdicts>, order: seq<string>) {
    && byDay.Keys == Days(rows) && Distinct(order) && Elements(order) == byDay.Keys
    && forall day :: day in byDay ==> byDay[day] == DayCells(rows, day)
  }

  /** What one row adds to its day's cells. */
  function Bump(cells: DayVerdicts, row: TrendRow): DayVerdicts {
    match ColumnOf(row)
    case Approved => cells.(approved := cells.approved + row.count)
    case Rejected => cells.(rejected := cells.rejected + row.count)
    case Pending => cells.(pending := cells.pending + row.count)
  }

  lemma DaysCollectedStep(rows: seq<TrendRow>, row: TrendRow, byDay: map<string, DayVerdicts>, order: seq<string>)
    requires DaysCollected(rows, byDay, order)
    ensures
      var date := DayOf(row);
      var day := if date in byDay then byDay[date] else DayVerdicts(date, 0, 0, 0);
      DaysCollected(rows + [row], byDay[date := Bump(day, row)], if date in byDay then order else order + [date])
  {
    var date := DayOf(row);
    DaysGrow(rows, row);
    Grown(order, date);
    DayCellsStep(rows, row);
    forall day | day in byDay && day != date ensures DayCells(rows + [row], day) == DayCells(rows, day) {
      OtherDay(rows, row, day);
    }
  }

  lemma OtherDay(rows: seq<TrendRow>, row: TrendRow, day: string)
    requires day != DayOf(row)
    ensures DayCells(rows + [row], day) == DayCells(rows, day)
  {
    DaySumAppend(rows, row, day);
  }

  lemma DaysGrow(rows: seq<TrendRow>, row: TrendRow)
    ensures Days(rows + [row]) == Days(rows) + {DayOf(row)}
  {
    assert row in rows + [row];
  }

  lemma DayCellsStep(rows: seq<TrendRow>, row: TrendRow)
    ensures DayCells(rows + [row], DayOf(row)) == Bump(DayCells(rows, DayOf(row)), row)
    ensures DayOf(row) !in Days(rows) ==> DayCells(rows, DayOf(row)) == DayVerdicts(DayOf(row), 0, 0, 0)
  {
    DaySumAppend(rows, row, DayOf(row));
    if DayOf(row) !in Days(rows) {
      NoDayNoSum(rows, DayOf(row), Approved);
      NoDayNoSum(rows, DayOf(row), Rejected);
      NoDayNoSum(rows, DayOf(row), Pending);
    }
  }

  lemma {:induction false} NoDayNoSum(rows: seq<TrendRow>, day: string, c: Column)
    requires day !in Days(rows)
    ensures DaySum(rows, day, c) == 0
  {
    if rows != [] {
      var rest := rows[..|rows| - 1];
      assert rows == rest + [rows[|rows| - 1]];
      assert rows[|rows| - 1] in rows;
      assert day !in Days(rest);
      NoDayNoSum(rest, day, c);
    }
  }

  method VerdictsByDay(rows: seq<TrendRow>) returns (days: seq<DayVerdicts>)
    ensures Ascending(days)
    ensures forall d :: d in days <==> d.date in Days(rows) && d == DayCells(rows, d.date)
    ensures |days| == |Days(rows)|
  {
    var byDay: map<string, DayVerdicts> := map[];
    var order: seq<string> := [];
    for i := 0 to |rows|
      invariant DaysCollected(rows[..i], byDay, order)
    {
      var row := rows[i];
      var date := DayOf(row);
      assert rows[..i + 1] == rows[..i] + [row];
      DaysCollectedStep(rows[..i], row, byDay, order);
      var day := AddRow(if date in byDay then byDay[date] else DayVerdicts(date, 0, 0, 0), row);
      if date !in byDay {
        order := order + [date];
      }
      byDay := byDay[date := day];
    }
    assert rows[..|rows|] == rows;
    DaysSorted(rows, byDay, order);
    days := SortDays(ValuesOf(byDay, order));
  }

  method AddRow(cells: DayVerdicts, row: TrendRow) returns (day: DayVerdicts)
    ensures day == Bump(cells, row)
  {
    day := cells;
    if row.verdict == "approved" {
      day := day.(approved := day.approved + row.count);
    } else if row.verdict == "rejected" {
      day := day.(rejected := day.rejected + row.count);
    } else {
      day := day.(pending := day.pending + row.count);
    }
  }

  lemma DaysSorted(rows: seq<TrendRow>, byDay: map<string, DayVerdicts>, order: seq<string>)
    requires DaysCollected(rows, byDay, order)
    ensures var days := SortDays(ValuesOf(byDay, order));
      && Ascending(days) && |days| == |Days(rows)|
      && (forall d :: d in days <==> d.date in Days(rows) && d == DayCells(rows, d.date))
  {
    SortDaysExact(ValuesOf(byDay, order));
    ValuesExact(byDay, order);
    DistinctSize(order);
  }

  /** The cells in the order the days were first seen. */
  function ValuesOf(byDay: map<string, DayVerdicts>, order: seq<string>): (values: seq<DayVerdicts>)
    requires Elements(order) == byDay.Keys && Distinct(order)
    requires forall day :: day in byDay ==> byDay[day].date == day
    ensures |values| == |order|
    ensures forall i :: 0 <= i < |order| ==> order[i] in byDay && values[i] == byDay[order[i]]
    ensures forall i, j :: 0 <= i < j < |values| ==> values[i].date != values[j].date
  {
    assert forall i :: 0 <= i < |order| ==> order[i] in Elements(order);
    seq(|order|, i requires 0 <= i < |order| => byDay[order[i]])
  }

  lemma ValuesExact(byDay: map<string, DayVerdicts>, order: seq<string>)
    requires Elements(order) == byDay.Keys && Distinct(order)
    requires forall day :: day in byDay ==> byDay[day].date == day
    ensures forall d :: d in ValuesOf(byDay, order) <==> d.date in byDay && byDay[d.date] == d
  {
    forall d: DayVerdicts | d.date in byDay && byDay[d.date] == d ensures d in ValuesOf(byDay, order) {
      assert d.date in Elements(order);
      var i :| 0 <= i < |order| && order[i] == d.date;
      assert ValuesOf(byDay, order)[i] == d;
    }
  }

  // ----- categoryTotals -----

  function InsertTotal(t: CategoryTotal, s: seq<CategoryTotal>): seq<CategoryTotal> {
    if s == [] || s[0].count <= t.count then [t] + s else [s[0]] + InsertTotal(t, s[1..])
  }

  /** A stable sort by descending count. */
  function SortTotals(s: seq<CategoryTotal>): seq<CategoryTotal> {
    if s == [] then [] else InsertTotal(s[0], SortTotals(s[1..]))
  }

  /** Larger counts first, ties in the order the rows first show them. */
  predicate Ahead(rows: seq<TrendRow>, a: CategoryTotal, b: CategoryTotal) {
    a.count > b.count || (a.count == b.count && FirstSeen(rows, a.category) < FirstSeen(rows, b.category))
  }

  ghost predicate Ranked(rows: seq<TrendRow>, s: seq<CategoryTotal>) {
    s != [] ==> (forall t :: t in s[1..] ==> Ahead(rows, s[0], t)) && Ranked(rows, s[1..])
  }

  lemma {:induction false} InsertTotalElements(t: CategoryTotal, s: seq<CategoryTotal>)
    ensures forall x :: x in InsertTotal(t, s) <==> x == t || x in s
    ensures |InsertTotal(t, s)| == |s| + 1
  {
    if s != [] && s[0].count > t.count {
      InsertTotalElements(t, s[1..]);
      assert s == [s[0]] + s[1..];
    }
  }

  lemma {:induction false} InsertTotalRanks(rows: seq<TrendRow>, t: CategoryTotal, s: seq<CategoryTotal>)
    requires Ranked(rows, s)
    requires forall x :: x in s ==> FirstSeen(rows, t.category) < FirstSeen(rows, x.category)
    ensures Ranked(rows, InsertTotal(t, s))
  {
    if s == [] {
    } else if s[0].count > t.count {
      InsertTotalRanks(rows, t, s[1..]);
      InsertTotalElements(t, s[1..]);
      assert InsertTotal(t, s)[1..] == InsertTotal(t, s[1..]);
    } else {
      assert s == [s[0]] + s[1..];
      assert ([t] + s)[1..] == s;
    }
  }

  ghost predicate InSeenOrder(rows: seq<TrendRow>, s: seq<CategoryTotal>) {
    forall i, j :: 0 <= i < j < |s| ==> FirstSeen(rows, s[i].category) < FirstSeen(rows, s[j].category)
  }

  lemma {:induction false} SortTotalsExact(rows: seq<TrendRow>, s: seq<CategoryTotal>)
    requires InSeenOrder(rows, s)
    ensures Ranked(rows, SortTotals(s)) && |SortTotals(s)| == |s| && forall x :: x in SortTotals(s) <==> x in s
  {
    if s != [] {
      SortTotalsExact(rows, s[1..]);
      InsertTotalElements(s[0], SortTotals(s[1..]));
      assert s == [s[0]] + s[1..];
      forall x | x in SortTotals(s[1..]) ensures FirstSeen(rows, s[0].category) < FirstSeen(rows, x.category) {
        var j :| 0 <= j < |s[1..]| && s[1..][j] == x;
        assert s[j + 1] == x;
      }
      InsertTotalRanks(rows, s[0], SortTotals(s[1..]));
    }
  }

  lemma {:induction false} FirstSeenPrefix(rows: seq<TrendRow>, i: nat, category: string)
    requires i <= |rows|
    ensures (exists r :: r in rows[..i] && r.category == category) <==> FirstSeen(rows, category) < i
    decreases |rows|
  {
    if rows != [] && i > 0 {
      assert rows[..i] == [rows[0]] + rows[1..][..i - 1];
      if rows[0].category == category {
        assert rows[0] in rows[..i];
      } else {
        FirstSeenPrefix(rows[1..], i - 1, category);
        if r :| r in rows[..i] && r.category == category {
          assert r in rows[1..][..i - 1];
        }
        if r :| r in rows[1..][..i - 1] && r.category == category {
          assert r in rows[..i];
        }
      }
    }
  }

  lemma {:induction false} FirstSeenAt(rows: seq<TrendRow>, i: nat)
    requires i < |rows| && FirstSeen(rows, rows[i].category) >= i
    ensures FirstSeen(rows, rows[i].category) == i
  {
    if i > 0 {
      FirstSeenAt(rows[1..], i - 1);
    }
  }

  lemma CategorySumAppend(rows: seq<TrendRow>, row: TrendRow)
    ensures forall c :: CategorySum(rows + [row], c) ==
                        CategorySum(rows, c) + if row.category == c then row.count else 0
    ensures Categories(rows + [row]) == Categories(rows) + if row.category == NONE then {} else {row.category}
  {
    assert (rows + [row])[..|rows|] == rows;
  }

  lemma {:induction false} NoRowNoSum(rows: seq<TrendRow>, category: string)
    requires forall r :: r in rows ==> r.category != category
    ensures CategorySum(rows, category) == 0
  {
    if rows != [] {
      assert rows[|rows| - 1] in rows;
      NoRowNoSum(rows[..|rows| - 1], category);
    }
  }

  /** `totals` holds every category but `none`, with its count so far. */
  ghost predicate SumsCollected(rows: seq<TrendRow>, totals: map<string, nat>) {
    && totals.Keys == Categories(rows)
    && forall c :: c in totals ==> totals[c] == CategorySum(rows, c)
  }

  /** `order` lists the categories in the order the rows first show them. */
  ghost predicate OrderCollected(rows: seq<TrendRow>, i: nat, order: seq<string>)
    requires i <= |rows|
  {
    && Elements(order) == Categories(rows[..i])
    && (forall j, k :: 0 <= j < k < |order| ==> FirstSeen(rows, order[j]) < FirstSeen(rows, order[k]))
    && (forall j :: 0 <= j < |order| ==> FirstSeen(rows, order[j]) < i)
  }

  lemma SumsSkip(rows: seq<TrendRow>, row: TrendRow, totals: map<string, nat>)
    requires SumsCollected(rows, totals) && row.category == NONE
    ensures SumsCollected(rows + [row], totals)
  {
    CategorySumAppend(rows, row);
    forall c | c in totals ensures totals[c] == CategorySum(rows + [row], c) {
      assert c != NONE by { assert c in Categories(rows); }
    }
  }

  lemma SumsStep(rows: seq<TrendRow>, row: TrendRow, totals: map<string, nat>)
    requires SumsCollected(rows, totals) && row.category != NONE
    ensures var sum := if row.category in totals then totals[row.category] else 0;
      SumsCollected(rows + [row], totals[row.category := sum + row.count])
  {
    CategorySumAppend(rows, row);
    if row.category !in totals {
      assert forall r :: r in rows && r.category != NONE ==> r.category in Categories(rows);
      NoRowNoSum(rows, row.category);
    }
  }

  lemma OrderStep(rows: seq<TrendRow>, i: nat, order: seq<string>)
    requires i < |rows| && OrderCollected(rows, i, order)
    ensures var c := rows[i].category;
      OrderCollected(rows, i + 1, if c == NONE || c in order then order else order + [c])
  {
    var c := rows[i].category;
    assert rows[..i + 1] == rows[..i] + [rows[i]];
    CategorySumAppend(rows[..i], rows[i]);
    if c != NONE && c !in order {
      Grown(order, c);
      assert c !in Elements(order);
      FirstSeenPrefix(rows, i, c);
      FirstSeenAt(rows, i);
    } else if c != NONE {
      assert c in Elements(order);
    }
  }

  method CategoryTotals(rows: seq<TrendRow>) returns (result: seq<CategoryTotal>)
    ensures Ranked(rows, result)
    ensures forall t :: t in result <==> t.category in Categories(rows) && t.count == CategorySum(rows, t.category)
    ensures |result| == |Categories(rows)|
  {
    var totals: map<string, nat> := map[];
    var order: seq<string> := [];
    for i := 0 to |rows|
      invariant SumsCollected(rows[..i], totals)
      invariant OrderCollected(rows, i, order)
    {
      var row := rows[i];
      assert rows[..i + 1] == rows[..i] + [row];
      OrderStep(rows, i, order);
      if row.category == NONE {
        SumsSkip(rows[..i], row, totals);
        continue;
      }
      SumsStep(rows[..i], row, totals);
      assert row.category in totals <==> row.category in Elements(order);
      if row.category !in totals {
        order := order + [row.category];
      }
      totals := totals[row.category := (if row.category in totals then totals[row.category] else 0) + row.count];
    }
    assert rows[..|rows|] == rows;
    TotalsSorted(rows, totals, order);
    result := SortTotals(EntriesOf(totals, order));
  }

  lemma TotalsSorted(rows: seq<TrendRow>, totals: map<string, nat>, order: seq<string>)
    requires SumsCollected(rows, totals) && OrderCollected(rows, |rows|, order) && Elements(order) == totals.Keys
    ensures var result := SortTotals(EntriesOf(totals, order));
      && Ranked(rows, result) && |result| == |Categories(rows)|
      && (forall t :: t in result <==> t.category in Categories(rows) && t.count == CategorySum(rows, t.category))
  {
    EntriesExact(totals, order);
    SortTotalsExact(rows, EntriesOf(totals, order));
    DistinctSize(order);
  }

  /** The totals in the order the categories were first seen. */
  function EntriesOf(totals: map<string, nat>, order: seq<string>): (entries: seq<CategoryTotal>)
    requires Elements(order) == totals.Keys
    ensures |entries| == |order|
    ensures forall i :: 0 <= i < |order| ==>
        order[i] in totals && entries[i] == CategoryTotal(order[i], totals[order[i]])
  {
    assert forall i :: 0 <= i < |order| ==> order[i] in Elements(order);
    seq(|order|, i requires 0 <= i < |order| => CategoryTotal(order[i], totals[order[i]]))
  }

  lemma EntriesExact(totals: map<string, nat>, order: seq<string>)
    requires Elements(order) == totals.Keys
    ensures forall t :: t in EntriesOf(totals, order) <==> t.category in totals && totals[t.category] == t.count
  {
    forall t: CategoryTotal | t.category in totals && totals[t.category] == t.count
      ensures t in EntriesOf(totals, order)
    {
      assert t.category in Elements(order);
      var i :| 0 <= i < |order| && order[i] == t.category;
      assert EntriesOf(totals, order)[i] == t;
    }
  }

  // ----- moderationTotals -----

  function Rate(part: nat, whole: nat): real
    requires whole > 0
  {
    part as real / whole as real
  }

  method ModerationTotals(rows: seq<TrendRow>) returns (result: Totals)
    ensures result.total == Total(rows)
    ensures result.approvalRate == if Total(rows) > 0 then Some(Rate(ApprovedTotal(rows), Total(rows))) else None
  {
    var total, approved := 0, 0;
    for i := 0 to |rows|
      invariant total == Total(rows[..i]) && approved == ApprovedTotal(rows[..i])
    {
      assert rows[..i + 1][..i] == rows[..i];
      total := total + rows[i].count;
      if rows[i].verdict == "approved" {
        approved := approved + rows[i].count;
      }
    }
    assert rows[..|rows|] == rows;
    if total > 0 {
      result := Totals(total, Some(Rate(approved, total)));
    } else {
      result := Totals(total, None);
    }
  }

  lemma {:induction false} ApprovedIsAPart(rows: seq<TrendRow>)
    ensures ApprovedTotal(rows) <= Total(rows)
  {
    if rows != [] {
      ApprovedIsAPart(rows[..|rows| - 1]);
    }
  }

  /** The approval rate is the approved share of the total. */
  lemma RateIsAShare(rows: seq<TrendRow>)
    requires Total(rows) > 0
    ensures var rate := Rate(ApprovedTotal(rows), Total(rows));
      0.0 <= rate <= 1.0 && rate * Total(rows) as real == ApprovedTotal(rows) as real
  {
    ApprovedIsAPart(rows);
    Share(ApprovedTotal(rows), Total(rows));
  }

  lemma Share(part: nat, whole: nat)
    requires part <= whole && whole > 0
    ensures 0.0 <= Rate(part, whole) <= 1.0 && Rate(part, whole) * whole as real == part as real
  {
  }
}
