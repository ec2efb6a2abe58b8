/** The dashboard's client-side aggregation (src/pages/DashboardPage.jsx):
    from the fetched records and the selected two-digit month `mesSelecionado`
    it derives the per-payer and grand totals, a twelve-entry monthly series,
    the day-by-day series of the selected month, each payer's share of the
    total, and the guarded exports. */
module Dashboard {
  import opened Calendar
  import opened Expenses
  import opened Sorting

  // ---------------------------------------------------------------------
  // The selected month and its totals
  // ---------------------------------------------------------------------

  /** `dayjs(g.data).format("MM") === mes`: only the month is compared, never the year. */
  function InMonth(mes: string): Expense -> bool {
    (e: Expense) => MonthKey(e.data.date) == mes
  }

  /** `gastosMes` */
  function MonthRecords(gastos: seq<Expense>, mes: string): (r: seq<Expense>)
    ensures forall e :: e in r <==> e in gastos && MonthKey(e.data.date) == mes
  {
    Filter(gastos, InMonth(mes))
  }

  /** `totalJacqueline` and `totalWesley`: a payer's card shows the sum of
      exactly that payer's records of the month. */
  function PayerTotal(gastos: seq<Expense>, mes: string, p: Payer): (r: int)
    ensures r == Spent(gastos, mes, p)
  {
    MonthPayerSumIsSpent(gastos, mes, p);
    Sum(ByPayer(MonthRecords(gastos, mes), p))
  }

  /** `totalGeral`: the sum of every record of the month. */
  function GrandTotal(gastos: seq<Expense>, mes: string): (r: int)
    ensures r == Sum(MonthRecords(gastos, mes))
  {
    PayerSplit(MonthRecords(gastos, mes));
    PayerTotal(gastos, mes, Jacqueline) + PayerTotal(gastos, mes, Wesley)
  }

  /** Reference definition: in one pass, the amounts of the records of month
      `mes` paid by `p`. */
  function Spent(gastos: seq<Expense>, mes: string, p: Payer): int {
    if gastos == [] then 0
    else
      (if MonthKey(gastos[0].data.date) == mes && gastos[0].usuario == p then gastos[0].valor else 0)
      + Spent(gastos[1..], mes, p)
  }

  /** Filtering by month, then by payer, then summing is the one-pass sum. */
  lemma {:induction false} MonthPayerSumIsSpent(gastos: seq<Expense>, mes: string, p: Payer)
    ensures Sum(ByPayer(MonthRecords(gastos, mes), p)) == Spent(gastos, mes, p)
  {
    if gastos != [] {
      MonthPayerSumIsSpent(gastos[1..], mes, p);
      var g := gastos[0];
      var head := if MonthKey(g.data.date) == mes then [g] else [];
      assert MonthRecords(gastos, mes) == head + MonthRecords(gastos[1..], mes);
      FilterAppend(head, MonthRecords(gastos[1..], mes), PaidBy(p));
      SumAppend(ByPayer(head, p), ByPayer(MonthRecords(gastos[1..], mes), p));
    }
  }

  /** Recording one more expense moves exactly one card: its payer's, and
      only when it falls in the selected month. */
  lemma PayerTotalOfNewRecord(gastos: seq<Expense>, e: Expense, mes: string, p: Payer)
    ensures PayerTotal(gastos + [e], mes, p)
         == PayerTotal(gastos, mes, p) + (if MonthKey(e.data.date) == mes && e.usuario == p then e.valor else 0)
  {
    FilterAppend(gastos, [e], InMonth(mes));
    var tail := Filter([e], InMonth(mes));
    FilterAppend(MonthRecords(gastos, mes), tail, PaidBy(p));
    SumAppend(ByPayer(MonthRecords(gastos, mes), p), ByPayer(tail, p));
  }

  /** Every record moved to year `y`. */
  function InYear(gastos: seq<Expense>, y: int): (r: seq<Expense>)
    ensures |r| == |gastos|
    ensures forall i :: 0 <= i < |r| ==> r[i] == gastos[i].(data := gastos[i].data.(date := gastos[i].data.date.(year := y)))
  {
    if gastos == [] then []
    else [gastos[0].(data := gastos[0].data.(date := gastos[0].data.date.(year := y)))] + InYear(gastos[1..], y)
  }

  /** The year plays no part: records of the same month in different years
      are summed together. */
  lemma {:induction false} TotalsIgnoreYear(gastos: seq<Expense>, y: int, mes: string, p: Payer)
    ensures PayerTotal(InYear(gastos, y), mes, p) == PayerTotal(gastos, mes, p)
  {
    SpentIgnoresYear(gastos, y, mes, p);
  }

  lemma {:induction false} SpentIgnoresYear(gastos: seq<Expense>, y: int, mes: string, p: Payer)
    ensures Spent(InYear(gastos, y), mes, p) == Spent(gastos, mes, p)
  {
    if gastos != [] {
      SpentIgnoresYear(gastos[1..], y, mes, p);
    }
  }

  // ---------------------------------------------------------------------
  // The twelve-entry monthly series, `gastosPorMes`
  // ---------------------------------------------------------------------

  /** One entry of the series; the chart label (`dayjs(...).format("MMM")`)
      is replaced by the month number it is derived from. */
  datatype MonthPoint = MonthPoint(month: Month, jacqueline: int, wesley: int, total: int)

  /** Entry `m` of the series: each payer's one-pass sum over the records
      of month `m`, and the sum of all of them. */
  function PointOfMonth(gastos: seq<Expense>, m: Month): (r: MonthPoint)
    ensures r.month == m
    ensures r.jacqueline == Spent(gastos, TwoDigits(m), Jacqueline)
    ensures r.wesley == Spent(gastos, TwoDigits(m), Wesley)
    ensures r.total == Sum(MonthRecords(gastos, TwoDigits(m)))
  {
    var mes := TwoDigits(m);
    PayerSplit(MonthRecords(gastos, mes));
    var jacqueline := PayerTotal(gastos, mes, Jacqueline);
    var wesley := PayerTotal(gastos, mes, Wesley);
    MonthPoint(m, jacqueline, wesley, jacqueline + wesley)
  }

  /** `Array.from({ length: 12 }, (_, i) => ...)` with month key `String(i + 1).padStart(2, "0")`. */
  function MonthlySeries(gastos: seq<Expense>): (r: seq<MonthPoint>)
    ensures |r| == 12
    ensures forall i :: 0 <= i < 12 ==> r[i].month == i + 1
    ensures forall i :: 0 <= i < 12 ==> r[i].total == r[i].jacqueline + r[i].wesley
  {
    seq(12, (i: int) requires 0 <= i < 12 => PointOfMonth(gastos, i + 1))
  }

  /** Entry i holds the sums over the records of month i + 1, whatever months
      the data contains. */
  lemma MonthlyEntryIsMonthSum(gastos: seq<Expense>, i: int)
    requires 0 <= i < 12
    ensures MonthlySeries(gastos)[i].jacqueline == Spent(gastos, TwoDigits(i + 1), Jacqueline)
    ensures MonthlySeries(gastos)[i].wesley == Spent(gastos, TwoDigits(i + 1), Wesley)
    ensures MonthlySeries(gastos)[i].total == Sum(MonthRecords(gastos, TwoDigits(i + 1)))
  {
  }

  /** A month without records is charted as zero for both payers and the total. */
  lemma EmptyMonthIsZero(gastos: seq<Expense>, m: Month)
    requires forall e :: e in gastos ==> e.data.date.month != m
    ensures MonthlySeries(gastos)[m - 1] == MonthPoint(m, 0, 0, 0)
  {
    forall e | e in gastos ensures !InMonth(TwoDigits(m))(e) {
      TwoDigitsInjective(e.data.date.month, m);
    }
    FilterNone(gastos, InMonth(TwoDigits(m)));
  }

  /** The entry of the selected month repeats the cards' totals. */
  lemma MonthlyEntryOfSelectedMonth(gastos: seq<Expense>, m: Month)
    ensures MonthlySeries(gastos)[m - 1].jacqueline == PayerTotal(gastos, TwoDigits(m), Jacqueline)
    ensures MonthlySeries(gastos)[m - 1].wesley == PayerTotal(gastos, TwoDigits(m), Wesley)
    ensures MonthlySeries(gastos)[m - 1].total == GrandTotal(gastos, TwoDigits(m))
  {
    var point := PointOfMonth(gastos, m);
    assert MonthlySeries(gastos)[m - 1] == point;
    assert point.jacqueline == PayerTotal(gastos, TwoDigits(m), Jacqueline);
    assert point.wesley == PayerTotal(gastos, TwoDigits(m), Wesley);
  }

  // ---------------------------------------------------------------------
  // The day buckets of the selected month, `gastosPorDia` and `dadosPorDia`
  // ---------------------------------------------------------------------

  /** The value of one `gastosPorDia[dia]` entry. */
  datatype DayTotals = DayTotals(jacqueline: int, wesley: int, total: int)

  /** `gastosPorDia[dia][g.usuario] += g.valor; gastosPorDia[dia].total += g.valor;`
      The total grows by the amount, and a bucket whose total is its two
      payer values stays so. */
  function AddTo(t: DayTotals, p: Payer, valor: int): (r: DayTotals)
    ensures r.total == t.total + valor
    ensures r.jacqueline + r.wesley == t.jacqueline + t.wesley + valor
    ensures r.total - (r.jacqueline + r.wesley) == t.total - (t.jacqueline + t.wesley)
    ensures (if p == Jacqueline then r.wesley == t.wesley else r.jacqueline == t.jacqueline)
  {
    match p
    case Jacqueline => t.(jacqueline := t.jacqueline + valor, total := t.total + valor)
    case Wesley => t.(wesley := t.wesley + valor, total := t.total + valor)
  }

  /** One element of `dadosPorDia`. */
  datatype DayRow = DayRow(dia: string, jacqueline: int, wesley: int, total: int)

  function RowTotals(r: DayRow): DayTotals {
    DayTotals(r.jacqueline, r.wesley, r.total)
  }

  /** `Number(a[0])`, the sort key. */
  function DayValue(r: DayRow): int {
    DecimalValue(r.dia)
  }

  function OnDay(dia: string): Expense -> bool {
    (e: Expense) => DayKey(e.data.date) == dia
  }

  function DayRecords(s: seq<Expense>, dia: string): seq<Expense> {
    Filter(s, OnDay(dia))
  }

  /** The totals of a list of records, per payer and overall. */
  function TotalsOf(d: seq<Expense>): DayTotals {
    DayTotals(Sum(ByPayer(d, Jacqueline)), Sum(ByPayer(d, Wesley)), Sum(d))
  }

  /** What bucket `dia` must hold once every record of `s` has been added. */
  function TotalsOfDay(s: seq<Expense>, dia: string): DayTotals {
    TotalsOf(DayRecords(s, dia))
  }

  /** The `DD` keys of the days that have at least one record in `s`. */
  function DayKeysOf(s: seq<Expense>): set<string> {
    set e | e in s :: DayKey(e.data.date)
  }

  function RowDays(rows: seq<DayRow>): set<string> {
    set i | 0 <= i < |rows| :: rows[i].dia
  }

  ghost predicate DistinctDays(rows: seq<DayRow>) {
    forall i, j :: 0 <= i < j < |rows| ==> rows[i].dia != rows[j].dia
  }

  /** What `dadosPorDia` is for the selected-month records `s`: one row per
      day that has records, in strictly ascending numeric day order, each
      holding that day's per-payer sums and total. */
  ghost predicate IsDailySeriesOf(s: seq<Expense>, rows: seq<DayRow>) {
    && StrictlyAscending(rows, DayValue)
    && RowDays(rows) == DayKeysOf(s)
    && forall i :: 0 <= i < |rows| ==> RowTotals(rows[i]) == TotalsOfDay(s, rows[i].dia)
  }

  /** Adding a record to a bucket is what `AddTo` does to its totals. */
  lemma TotalsOfSnoc(d: seq<Expense>, g: Expense)
    ensures TotalsOf(d + [g]) == AddTo(TotalsOf(d), g.usuario, g.valor)
  {
    PayerSumSnoc(d, g, Jacqueline);
    PayerSumSnoc(d, g, Wesley);
    SumAppend(d, [g]);
    assert Sum([g]) == g.valor by {
      assert [g][1..] == [];
    }
  }

  lemma PayerSumSnoc(d: seq<Expense>, g: Expense, p: Payer)
    ensures Sum(ByPayer(d + [g], p)) == Sum(ByPayer(d, p)) + (if g.usuario == p then g.valor else 0)
  {
    FilterSnoc(d, g, PaidBy(p));
    assert PaidBy(p)(g) == (g.usuario == p);
  }

  lemma TotalsOfDayAppend(s: seq<Expense>, g: Expense, dia: string)
    ensures TotalsOfDay(s + [g], dia)
         == if DayKey(g.data.date) == dia then AddTo(TotalsOfDay(s, dia), g.usuario, g.valor) else TotalsOfDay(s, dia)
  {
    FilterSnoc(s, g, OnDay(dia));
    var d := DayRecords(s, dia);
    if DayKey(g.data.date) == dia {
      assert DayRecords(s + [g], dia) == d + [g];
      TotalsOfSnoc(d, g);
    } else {
      assert d + [] == d;
      assert DayRecords(s + [g], dia) == d;
    }
  }

  lemma TotalsOfAbsentDay(s: seq<Expense>, dia: string)
    requires dia !in DayKeysOf(s)
    ensures TotalsOfDay(s, dia) == DayTotals(0, 0, 0)
  {
    forall e | e in s ensures !OnDay(dia)(e) {
      assert DayKey(e.data.date) in DayKeysOf(s);
    }
    FilterNone(s, OnDay(dia));
  }

  lemma DayKeysOfSnoc(s: seq<Expense>, g: Expense)
    ensures DayKeysOf(s + [g]) == DayKeysOf(s) + {DayKey(g.data.date)}
  {
    assert g in s + [g];
    forall e | e in s ensures e in s + [g] { }
  }

  /** Every bucket of `gastosPorDia` holds the totals of its day over `done`. */
  ghost predicate HoldsTotalsOf(done: seq<Expense>, gastosPorDia: map<string, DayTotals>) {
    forall dia :: dia in gastosPorDia ==> gastosPorDia[dia] == TotalsOfDay(done, dia)
  }

  /** The buckets hold the totals of the records `done` added so far, one per day. */
  ghost predicate BucketsOf(done: seq<Expense>, gastosPorDia: map<string, DayTotals>) {
    gastosPorDia.Keys == DayKeysOf(done) && HoldsTotalsOf(done, gastosPorDia)
  }

  lemma BucketsOfNothing()
    ensures BucketsOf([], map[])
  {
  }

  /** `if (!gastosPorDia[dia]) gastosPorDia[dia] = { Jacqueline: 0, Wesley: 0, total: 0 };` */
  lemma OpenBucket(done: seq<Expense>, dia: string, before: map<string, DayTotals>, ready: map<string, DayTotals>)
    requires BucketsOf(done, before)
    requires ready == if dia in before then before else before[dia := DayTotals(0, 0, 0)]
    ensures ready.Keys == DayKeysOf(done) + {dia}
    ensures HoldsTotalsOf(done, ready)
  {
    if dia in before {
      assert ready == before;
    } else {
      TotalsOfAbsentDay(done, dia);
      assert ready.Keys == before.Keys + {dia};
      forall d | d in ready ensures ready[d] == TotalsOfDay(done, d) {
        if d != dia {
          assert d in before && ready[d] == before[d];
        }
      }
    }
  }

  /** The bucket of the record's day takes its amount. */
  lemma AddToBucket(done: seq<Expense>, g: Expense, ready: map<string, DayTotals>, after: map<string, DayTotals>)
    requires ready.Keys == DayKeysOf(done) + {DayKey(g.data.date)}
    requires HoldsTotalsOf(done, ready)
    requires after == ready[DayKey(g.data.date) := AddTo(ready[DayKey(g.data.date)], g.usuario, g.valor)]
    ensures BucketsOf(done + [g], after)
  {
    DayKeysOfSnoc(done, g);
    assert after.Keys == ready.Keys;
    forall d | d in after ensures after[d] == TotalsOfDay(done + [g], d) {
      AddToBucketAt(done, g, ready, after, d);
    }
  }

  lemma AddToBucketAt(done: seq<Expense>, g: Expense, ready: map<string, DayTotals>, after: map<string, DayTotals>, d: string)
    requires d in ready && ready[d] == TotalsOfDay(done, d)
    requires DayKey(g.data.date) in ready && ready[DayKey(g.data.date)] == TotalsOfDay(done, DayKey(g.data.date))
    requires after == ready[DayKey(g.data.date) := AddTo(ready[DayKey(g.data.date)], g.usuario, g.valor)]
    ensures after[d] == TotalsOfDay(done + [g], d)
  {
    TotalsOfDayAppend(done, g, d);
  }

  /** The `forEach` over `gastosMes` that fills the `gastosPorDia` dictionary. */
  method DayBuckets(gastosMes: seq<Expense>) returns (gastosPorDia: map<string, DayTotals>)
    ensures gastosPorDia.Keys == DayKeysOf(gastosMes)
    ensures forall dia :: dia in gastosPorDia ==> gastosPorDia[dia] == TotalsOfDay(gastosMes, dia)
  {
    gastosPorDia := map[];
    ghost var done: seq<Expense> := [];
    BucketsOfNothing();
    var i := 0;
    while i < |gastosMes|
      invariant 0 <= i <= |gastosMes|
      invariant done == gastosMes[..i]
      invariant BucketsOf(done, gastosPorDia)
    {
      var g := gastosMes[i];
      var dia := DayKey(g.data.date);
      ghost var before := gastosPorDia;
      if dia !in gastosPorDia {
        gastosPorDia := gastosPorDia[dia := DayTotals(0, 0, 0)];
      }
      OpenBucket(done, dia, before, gastosPorDia);
      ghost var ready := gastosPorDia;
      gastosPorDia := gastosPorDia[dia := AddTo(gastosPorDia[dia], g.usuario, g.valor)];
      AddToBucket(done, g, ready, gastosPorDia);
      PrefixSnoc(gastosMes, i);
      done := done + [g];
      i := i + 1;
    }
    PrefixAll(gastosMes);
  }

  /** `Object.entries(gastosPorDia)`, mapped to rows. The order in which the
      entries come out of the dictionary is left open. */
  method Entries(gastosPorDia: map<string, DayTotals>) returns (entries: seq<DayRow>)
    ensures RowDays(entries) == gastosPorDia.Keys
    ensures DistinctDays(entries)
    ensures forall i :: 0 <= i < |entries| ==> entries[i].dia in gastosPorDia && RowTotals(entries[i]) == gastosPorDia[entries[i].dia]
  {
    entries := [];
    var rest := gastosPorDia.Keys;
    while rest != {}
      invariant rest <= gastosPorDia.Keys
      invariant RowDays(entries) + rest == gastosPorDia.Keys
      invariant RowDays(entries) !! rest
      invariant DistinctDays(entries)
      invariant forall i :: 0 <= i < |entries| ==> entries[i].dia in gastosPorDia && RowTotals(entries[i]) == gastosPorDia[entries[i].dia]
      decreases rest
    {
      var dia :| dia in rest;
      var valores := gastosPorDia[dia];
      var row := DayRow(dia, valores.jacqueline, valores.wesley, valores.total);
      assert RowDays(entries + [row]) == RowDays(entries) + {dia} by {
        forall k | k in RowDays(entries + [row]) ensures k in RowDays(entries) + {dia} {
          var i :| 0 <= i < |entries + [row]| && (entries + [row])[i].dia == k;
          if i < |entries| { assert entries[i].dia == k; }
        }
        forall k | k in RowDays(entries) ensures k in RowDays(entries + [row]) {
          var i :| 0 <= i < |entries| && entries[i].dia == k;
          assert (entries + [row])[i].dia == k;
        }
        assert (entries + [row])[|entries|].dia == dia;
      }
      forall i | 0 <= i < |entries| ensures entries[i].dia != dia {
        assert entries[i].dia in RowDays(entries);
      }
      entries := entries + [row];
      rest := rest - {dia};
    }
  }

  /** `.sort((a, b) => Number(a[0]) - Number(b[0]))` over the entries of
      `gastosPorDia`, mapped to the rows of the daily chart. */
  method DailySeries(gastosMes: seq<Expense>) returns (dadosPorDia: seq<DayRow>)
    ensures IsDailySeriesOf(gastosMes, dadosPorDia)
  {
    var gastosPorDia := DayBuckets(gastosMes);
    var entries := Entries(gastosPorDia);
    forall i, j | 0 <= i < j < |entries| ensures DayValue(entries[i]) != DayValue(entries[j]) {
      assert entries[i].dia in DayKeysOf(gastosMes) && entries[j].dia in DayKeysOf(gastosMes);
      DecimalValueInjective(entries[i].dia, entries[j].dia);
    }
    dadosPorDia := SortBy(entries, DayValue);
    SameRows(entries, dadosPorDia);
  }

  /** A permutation of the rows has the same days and the same row per day. */
  lemma SameRows(a: seq<DayRow>, b: seq<DayRow>)
    requires multiset(a) == multiset(b)
    ensures RowDays(a) == RowDays(b)
    ensures forall i :: 0 <= i < |b| ==> b[i] in a
  {
    forall i | 0 <= i < |b| ensures b[i] in a {
      assert b[i] in multiset(b);
    }
    forall i | 0 <= i < |a| ensures a[i].dia in RowDays(b) {
      assert a[i] in multiset(a);
      var j :| 0 <= j < |b| && b[j] == a[i];
    }
    forall i | 0 <= i < |b| ensures b[i].dia in RowDays(a) {
      var j :| 0 <= j < |a| && a[j] == b[i];
    }
  }

  /** In a series ascending by day, the rows after the first hold every day but the first. */
  lemma RowDaysTail(a: seq<DayRow>)
    requires a != [] && StrictlyAscending(a, DayValue)
    ensures RowDays(a[1..]) == RowDays(a) - {a[0].dia}
  {
    forall k | k in RowDays(a[1..]) ensures k in RowDays(a) && k != a[0].dia {
      var i :| 0 <= i < |a[1..]| && a[1..][i].dia == k;
      assert a[i + 1].dia == k;
      assert DayValue(a[0]) < DayValue(a[i + 1]);
    }
    forall k | k in RowDays(a) && k != a[0].dia ensures k in RowDays(a[1..]) {
      var i :| 0 <= i < |a| && a[i].dia == k;
      assert a[1..][i - 1].dia == k;
    }
  }

  lemma NoRowsNoDays(a: seq<DayRow>)
    ensures RowDays(a) == {} <==> a == []
  {
    if a != [] {
      assert a[0].dia in RowDays(a);
    }
  }

  /** Both series start with the row of their smallest day. */
  lemma SameFirstRow(a: seq<DayRow>, b: seq<DayRow>)
    requires a != [] && b != []
    requires StrictlyAscending(a, DayValue) && StrictlyAscending(b, DayValue)
    requires RowDays(a) == RowDays(b)
    requires forall i :: 0 <= i < |a| ==> IsTwoDigitKey(a[i].dia)
    requires forall i, j :: 0 <= i < |a| && 0 <= j < |b| && a[i].dia == b[j].dia ==> a[i] == b[j]
    ensures a[0] == b[0]
  {
    assert a[0].dia in RowDays(b);
    var j :| 0 <= j < |b| && b[j].dia == a[0].dia;
    assert b[0].dia in RowDays(a);
    var i :| 0 <= i < |a| && a[i].dia == b[0].dia;
    assert DayValue(a[0]) <= DayValue(a[i]) == DayValue(b[0]) <= DayValue(b[j]) == DayValue(a[0]);
    DecimalValueInjective(a[0].dia, a[i].dia);
  }

  /** Two series ascending by day over the same two-digit days, agreeing on
      the row of each day, are the same series. */
  lemma {:induction false} AscendingRowsUnique(a: seq<DayRow>, b: seq<DayRow>)
    requires StrictlyAscending(a, DayValue) && StrictlyAscending(b, DayValue)
    requires RowDays(a) == RowDays(b)
    requires forall i :: 0 <= i < |a| ==> IsTwoDigitKey(a[i].dia)
    requires forall i, j :: 0 <= i < |a| && 0 <= j < |b| && a[i].dia == b[j].dia ==> a[i] == b[j]
    ensures a == b
  {
    if a == [] || b == [] {
      NoRowsNoDays(a);
      NoRowsNoDays(b);
    } else {
      SameFirstRow(a, b);
      RowDaysTail(a);
      RowDaysTail(b);
      forall i, j | 0 <= i < |a[1..]| && 0 <= j < |b[1..]| && a[1..][i].dia == b[1..][j].dia
        ensures a[1..][i] == b[1..][j]
      {
        assert a[i + 1] == b[j + 1];
      }
      AscendingRowsUnique(a[1..], b[1..]);
      assert a == [a[0]] + a[1..] && b == [b[0]] + b[1..];
    }
  }

  /** `dadosPorDia` is determined by the records alone: whatever order the
      dictionary's entries come out in, the sorted series is the same. */
  lemma DailySeriesUnique(s: seq<Expense>, a: seq<DayRow>, b: seq<DayRow>)
    requires IsDailySeriesOf(s, a) && IsDailySeriesOf(s, b)
    ensures a == b
  {
    forall i | 0 <= i < |a| ensures IsTwoDigitKey(a[i].dia) {
      assert a[i].dia in DayKeysOf(s);
      var e :| e in s && DayKey(e.data.date) == a[i].dia;
    }
    forall i, j | 0 <= i < |a| && 0 <= j < |b| && a[i].dia == b[j].dia ensures a[i] == b[j] {
      assert RowTotals(a[i]) == RowTotals(b[j]);
    }
    AscendingRowsUnique(a, b);
  }

  // Column sums of the daily series.

  function TotalColumn(rows: seq<DayRow>): int {
    if rows == [] then 0 else rows[0].total + TotalColumn(rows[1..])
  }

  function PayerColumn(rows: seq<DayRow>, p: Payer): int {
    if rows == [] then 0
    else (if p == Jacqueline then rows[0].jacqueline else rows[0].wesley) + PayerColumn(rows[1..], p)
  }

  /** The sum, over the rows' days, of the amounts of `s` on that day. */
  function DaySums(s: seq<Expense>, rows: seq<DayRow>): int {
    if rows == [] then 0 else Sum(DayRecords(s, rows[0].dia)) + DaySums(s, rows[1..])
  }

  lemma {:induction false} DaySumsOfNothing(rows: seq<DayRow>)
    ensures DaySums([], rows) == 0
  {
    if rows != [] {
      DaySumsOfNothing(rows[1..]);
    }
  }

  /** Adding one record in front adds its amount once, to the row of its day if there is one. */
  lemma {:induction false} DaySumsOfFirst(e: Expense, t: seq<Expense>, rows: seq<DayRow>)
    requires DistinctDays(rows)
    ensures DaySums([e] + t, rows) == DaySums(t, rows) + (if DayKey(e.data.date) in RowDays(rows) then e.valor else 0)
  {
    if rows != [] {
      assert ([e] + t)[1..] == t;
      var dia := rows[0].dia;
      var head := if OnDay(dia)(e) then [e] else [];
      SumAppend(head, DayRecords(t, dia));
      DaySumsOfFirst(e, t, rows[1..]);
      assert RowDays(rows) == {dia} + RowDays(rows[1..]) by {
        forall k | k in RowDays(rows) ensures k in {dia} + RowDays(rows[1..]) {
          var i :| 0 <= i < |rows| && rows[i].dia == k;
          if i > 0 { assert rows[1..][i - 1].dia == k; }
        }
      }
      assert dia !in RowDays(rows[1..]);
    }
  }

  /** Rows for distinct days that include every day of `s` split its sum without loss or overlap. */
  lemma {:induction false} DaySumsPartition(s: seq<Expense>, rows: seq<DayRow>)
    requires DistinctDays(rows)
    requires DayKeysOf(s) <= RowDays(rows)
    ensures DaySums(s, rows) == Sum(s)
  {
    if s == [] {
      DaySumsOfNothing(rows);
    } else {
      assert s == [s[0]] + s[1..];
      assert DayKey(s[0].data.date) in DayKeysOf(s);
      assert DayKeysOf(s[1..]) <= DayKeysOf(s);
      DaySumsPartition(s[1..], rows);
      DaySumsOfFirst(s[0], s[1..], rows);
    }
  }

  lemma {:induction false} ColumnsAreDaySums(s: seq<Expense>, rows: seq<DayRow>)
    requires forall i :: 0 <= i < |rows| ==> RowTotals(rows[i]) == TotalsOfDay(s, rows[i].dia)
    ensures TotalColumn(rows) == DaySums(s, rows)
    ensures PayerColumn(rows, Jacqueline) == DaySums(ByPayer(s, Jacqueline), rows)
    ensures PayerColumn(rows, Wesley) == DaySums(ByPayer(s, Wesley), rows)
  {
    if rows != [] {
      ColumnsAreDaySums(s, rows[1..]);
      FilterCommutes(s, OnDay(rows[0].dia), PaidBy(Jacqueline));
      FilterCommutes(s, OnDay(rows[0].dia), PaidBy(Wesley));
    }
  }

  /** Summed over the daily series, each column gives the corresponding sum
      over the selected-month records. */
  lemma DailySeriesAddsUp(s: seq<Expense>, rows: seq<DayRow>)
    requires IsDailySeriesOf(s, rows)
    ensures TotalColumn(rows) == Sum(s)
    ensures PayerColumn(rows, Jacqueline) == Sum(ByPayer(s, Jacqueline))
    ensures PayerColumn(rows, Wesley) == Sum(ByPayer(s, Wesley))
  {
    assert DistinctDays(rows) by {
      forall i, j | 0 <= i < j < |rows| ensures rows[i].dia != rows[j].dia {
        assert DayValue(rows[i]) < DayValue(rows[j]);
      }
    }
    ColumnsAreDaySums(s, rows);
    DaySumsPartition(s, rows);
    assert DayKeysOf(ByPayer(s, Jacqueline)) <= DayKeysOf(s);
    assert DayKeysOf(ByPayer(s, Wesley)) <= DayKeysOf(s);
    DaySumsPartition(ByPayer(s, Jacqueline), rows);
    DaySumsPartition(ByPayer(s, Wesley), rows);
  }

  /** So the daily chart of the selected month adds up to the cards. */
  lemma DailySeriesMatchesCards(gastos: seq<Expense>, mes: string, rows: seq<DayRow>)
    requires IsDailySeriesOf(MonthRecords(gastos, mes), rows)
    ensures TotalColumn(rows) == GrandTotal(gastos, mes)
    ensures PayerColumn(rows, Jacqueline) == PayerTotal(gastos, mes, Jacqueline)
    ensures PayerColumn(rows, Wesley) == PayerTotal(gastos, mes, Wesley)
  {
    DailySeriesAddsUp(MonthRecords(gastos, mes), rows);
  }

  /** Every row's total is its two payer values together. */
  lemma DayRowTotalIsBothPayers(s: seq<Expense>, rows: seq<DayRow>, i: int)
    requires IsDailySeriesOf(s, rows)
    requires 0 <= i < |rows|
    ensures rows[i].total == rows[i].jacqueline + rows[i].wesley
  {
    PayerSplit(DayRecords(s, rows[i].dia));
  }

  // ---------------------------------------------------------------------
  // Shares and exports
  // ---------------------------------------------------------------------

  /** `totalGeral > 0 ? (total / totalGeral) * 100 : 0`, before `toFixed(1)`. */
  function Share(total: int, totalGeral: int): (r: real)
    ensures totalGeral <= 0 ==> r == 0.0
    ensures totalGeral > 0 ==> r * totalGeral as real == total as real * 100.0
  {
    if totalGeral > 0 then (total as real / totalGeral as real) * 100.0 else 0.0
  }

  /** When anything was spent, the two shares make up the whole. */
  lemma SharesAddUp(gastos: seq<Expense>, mes: string)
    requires GrandTotal(gastos, mes) > 0
    ensures Share(PayerTotal(gastos, mes, Jacqueline), GrandTotal(gastos, mes))
          + Share(PayerTotal(gastos, mes, Wesley), GrandTotal(gastos, mes)) == 100.0
  {
    var j := PayerTotal(gastos, mes, Jacqueline) as real;
    var w := PayerTotal(gastos, mes, Wesley) as real;
    var g := GrandTotal(gastos, mes) as real;
    assert j + w == g;
    RatiosAddUp(j, w, g);
  }

  lemma RatiosAddUp(a: real, b: real, c: real)
    requires c > 0.0 && a + b == c
    ensures (a / c) * 100.0 + (b / c) * 100.0 == 100.0
  {
    assert a / c + b / c == (a + b) / c;
  }

  lemma RatioIsPercentage(a: real, c: real)
    requires 0.0 <= a <= c && c > 0.0
    ensures 0.0 <= (a / c) * 100.0 <= 100.0
  {
    assert (a / c) * c == a;
  }

  /** With amounts that are not negative, a share is a percentage. */
  lemma ShareIsPercentage(gastos: seq<Expense>, mes: string, p: Payer)
    requires forall e :: e in gastos ==> e.valor >= 0
    ensures 0.0 <= Share(PayerTotal(gastos, mes, p), GrandTotal(gastos, mes)) <= 100.0
  {
    var m := MonthRecords(gastos, mes);
    SumNonNegative(ByPayer(m, Jacqueline));
    SumNonNegative(ByPayer(m, Wesley));
    var part := PayerTotal(gastos, mes, p);
    var g := GrandTotal(gastos, mes);
    if g > 0 {
      RatioIsPercentage(part as real, g as real);
    }
  }

  datatype ExportKind = Csv | Spreadsheet

  datatype ExportOutcome =
    | Refused(notice: string)
    | Downloaded(fileName: string, rows: seq<Expense>)

  const NoDataNotice := "Nenhum dado para exportar."

  /** `gastos_${mesSelecionado}.csv` and `gastos_${mesSelecionado}.xlsx` */
  function FileName(mes: string, kind: ExportKind): string {
    "gastos_" + mes + (if kind == Csv then ".csv" else ".xlsx")
  }

  /** `handleExportCSV` and `handleExportExcel`: refused with a notice when
      the selected month has no records, otherwise the month's records go to
      a file named after the month. */
  function Export(gastos: seq<Expense>, mes: string, kind: ExportKind): (r: ExportOutcome)
    ensures r.Refused? <==> forall e :: e in gastos ==> MonthKey(e.data.date) != mes
    ensures r.Refused? ==> r.notice == NoDataNotice
    ensures r.Downloaded? ==> r.fileName == FileName(mes, kind) && r.rows != []
    ensures r.Downloaded? ==> forall e :: e in r.rows <==> e in gastos && MonthKey(e.data.date) == mes
    ensures r.Downloaded? ==> r.rows == MonthRecords(gastos, mes)
  {
    var gastosMes := MonthRecords(gastos, mes);
    if |gastosMes| == 0 then
      Refused(NoDataNotice)
    else
      assert gastosMes[0] in gastosMes;
      Downloaded(FileName(mes, kind), gastosMes)
  }

  /** The worked example: in cents, Jacqueline 50.00 and Wesley 30.00 in
      March and Jacqueline 20.00 in April; with "03" selected the cards show
      50.00, 30.00 and 80.00, and the shares 62.5% and 37.5%. */
  lemma WorkedExample()
    ensures var gastos := [
              Expense(1, Jacqueline, "Mercado", 5000, Stamp(Date(2024, 3, 5), 36000)),
              Expense(2, Wesley, "Posto", 3000, Stamp(Date(2024, 3, 9), 43200)),
              Expense(3, Jacqueline, "Farmacia", 2000, Stamp(Date(2024, 4, 1), 0))];
            && PayerTotal(gastos, "03", Jacqueline) == 5000
            && PayerTotal(gastos, "03", Wesley) == 3000
            && GrandTotal(gastos, "03") == 8000
            && Share(5000, 8000) == 62.5
            && Share(3000, 8000) == 37.5
  {
    var a := Expense(1, Jacqueline, "Mercado", 5000, Stamp(Date(2024, 3, 5), 36000));
    var b := Expense(2, Wesley, "Posto", 3000, Stamp(Date(2024, 3, 9), 43200));
    var c := Expense(3, Jacqueline, "Farmacia", 2000, Stamp(Date(2024, 4, 1), 0));
    var gastos := [a, b, c];
    assert MonthKey(a.data.date) == "03" && MonthKey(b.data.date) == "03" && MonthKey(c.data.date) == "04";
    assert gastos[1..] == [b, c] && [b, c][1..] == [c] && [c][1..] == [];
    assert Spent([c], "03", Jacqueline) == 0 && Spent([c], "03", Wesley) == 0;
    assert Spent([b, c], "03", Jacqueline) == 0 && Spent([b, c], "03", Wesley) == 3000;
    assert Spent(gastos, "03", Jacqueline) == 5000 && Spent(gastos, "03", Wesley) == 3000;
  }
}
