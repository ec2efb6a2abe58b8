# outlay: a verified model of the expense dashboard and list view

outlay is a two-person expense tracker. Jacqueline and Wesley each log
expenses, each with a payer, a place, an amount and a timestamp. The
expenses go into one remote table, `gastos`. This project models the
client-side logic of the two pages that read that table:

- **The dashboard** (`src/pages/DashboardPage.jsx`). For a selected
  two-digit month it filters the records, sums them per payer and overall,
  and builds a twelve-entry monthly series. It also builds the day-by-day
  series of the selected month: a `forEach` fills a dictionary of per-day
  buckets, whose entries are then sorted by numeric day. It shows each
  payer's share of the total, and it exports the month's records only when
  there are some.
- **The list view** (`src/pages/ListPage.jsx`). It keeps three optional
  filters: payer, minimum amount and calendar day. `fetchGastos` turns them
  into a query by chaining builder calls, ordered by timestamp, latest
  first. A clear button resets the filters. An edit flow saves a new amount
  for one record id and then closes the edit and refetches.

Files and modules:

| file | module | contents |
|---|---|---|
| `calendar.dfy` | `Calendar` | dates, timestamps and their linear order; the next day; two-digit `MM`/`DD` keys and `Number()` of a key |
| `sorting.dfy` | `Sorting` | insertion sort by an integer key: ascending, a permutation, strict when keys are distinct |
| `expenses.dfy` | `Expenses` | the expense record; `filter` and the summing `reduce` with their algebra |
| `dashboard.dfy` | `Dashboard` | totals, monthly series, the imperative day buckets, the sorted daily series, shares, export guard |
| `store.dfy` | `RecordStore` | the table in memory: query conditions, ordered select, update by id, and the `Store` class |
| `list_page.dfy` | `ListPage` | filters and their meaning, `BuildQuery`, and the `ListView` class with the component's state and handlers |

Representation choices:

- Amounts are integer cents. The share percentage is a `real`.
- A timestamp is a `Date` (year, month 1..12, day 1..31) plus the second
  of the day. `Ordinal` orders timestamps and is proved to agree with the
  chronological order.
- `mesSelecionado` is the two-digit month string. It is compared with the
  record's `MM` key exactly as the source compares
  `dayjs(g.data).format("MM")`.
- The list page's state lives in a class whose fields the handlers reassign.
  `fetchGastos` is an imperative method. It reassigns the query once for each
  active filter, and the date filter chains both of its conditions in one
  reassignment.
- The `forEach` that fills `gastosPorDia` is a `while` loop over a `map`.

The monthly series compares only the `MM` key
(`src/pages/DashboardPage.jsx:75-77`), so a month's records from every year
are summed together. The year 2024 on line 73 is used only for the label.
`TotalsIgnoreYear` states this.

## Model

| member | source | states |
|---|---|---|
| Calendar.NextDay | src/pages/ListPage.jsx:30-32 | the day after `d` is a valid date, later than `d`, and no valid date lies between them |
| Calendar.OrdinalIsChronological | src/pages/ListPage.jsx:25 | ordering timestamps by `Ordinal` is the chronological (year, month, day, second) order, and equal ordinals mean equal timestamps |
| Calendar.WithinDayIsSameDate | src/pages/ListPage.jsx:29-33 | a timestamp on a real date lies in the half-open one-day window of `d` if and only if its date is `d` |
| Calendar.TwoDigits | src/pages/DashboardPage.jsx:72 | `padStart(2, "0")` gives two decimal digit characters |
| Calendar.MonthKey | src/pages/DashboardPage.jsx:53 | `format("MM")` gives a two-digit key whose numeric value is the month |
| Calendar.DayKey | src/pages/DashboardPage.jsx:98 | `format("DD")` gives a two-digit key whose numeric value is the day |
| Calendar.DecimalValueOfTwoDigitKey | src/pages/DashboardPage.jsx:109 | `Number()` of a two-digit key is ten times its first digit plus its second |
| Calendar.DecimalValueOfTwoDigits | src/pages/DashboardPage.jsx:109 | `Number()` of the two-digit key of `n` is `n` |
| Calendar.DecimalValueInjective | src/pages/DashboardPage.jsx:109 | distinct two-digit keys have distinct numeric values, so the numeric sort is strict |
| Calendar.TwoDigitsInjective | src/pages/DashboardPage.jsx:72-77 | two month keys are equal if and only if the months are |
| Expenses.Filter | src/pages/DashboardPage.jsx:52-54 | the result has no more records than the input, and holds exactly the input records that pass the condition |
| Expenses.FilterAppend | src/pages/DashboardPage.jsx:52-54 | filtering a concatenation is concatenating the filtered parts |
| Expenses.SumAppend | src/pages/DashboardPage.jsx:58 | the summing `reduce` of a concatenation is the sum of the parts |
| Expenses.SumNonNegative | src/pages/DashboardPage.jsx:58 | the summing `reduce` of amounts that are not negative is not negative |
| Expenses.FilterCommutes | src/pages/DashboardPage.jsx:52-60 | filtering by month and then by payer selects the same records as the other order |
| Expenses.PayerSplit | src/pages/DashboardPage.jsx:56-62 | since there are only two payers, the two payer sums make up the sum of all records |
| Dashboard.MonthRecords | src/pages/DashboardPage.jsx:52-54 | `gastosMes` holds exactly the records whose `MM` key is the selected month |
| Dashboard.PayerTotal | src/pages/DashboardPage.jsx:56-61 | `totalJacqueline` and `totalWesley` equal a one-pass sum over the records of that payer in that month |
| Dashboard.MonthPayerSumIsSpent | src/pages/DashboardPage.jsx:56-61 | filtering by month, then by payer, then summing gives that one-pass sum |
| Dashboard.GrandTotal | src/pages/DashboardPage.jsx:62 | `totalGeral` equals the sum of every record of the month |
| Dashboard.PayerTotalOfNewRecord | src/pages/DashboardPage.jsx:56-62 | one more record moves only its payer's card, by its amount, and only when it is in the selected month |
| Dashboard.TotalsIgnoreYear | src/pages/DashboardPage.jsx:52-54 | moving every record to another year changes no card: only the month is compared |
| Dashboard.MonthlySeries | src/pages/DashboardPage.jsx:71-93 | exactly twelve entries, entry i for month i + 1, each total the sum of its two payer values |
| Dashboard.PointOfMonth | src/pages/DashboardPage.jsx:75-92 | the entry for month m carries m, each payer's one-pass sum over month m, and the sum of all of month m's records |
| Dashboard.MonthlyEntryIsMonthSum | src/pages/DashboardPage.jsx:75-92 | entry i holds each payer's one-pass sum and the sum over all records of month i + 1 |
| Dashboard.EmptyMonthIsZero | src/pages/DashboardPage.jsx:75-92 | a month without records is charted as zero for both payers and the total |
| Dashboard.MonthlyEntryOfSelectedMonth | src/pages/DashboardPage.jsx:56-93 | the series entry of the selected month repeats the three cards |
| Dashboard.AddTo | src/pages/DashboardPage.jsx:104-105 | the bucket's total and its payer values together grow by the amount, the other payer's value is unchanged, and a total equal to both payer values stays equal |
| Dashboard.TotalsOfSnoc | src/pages/DashboardPage.jsx:104-105 | adding a record to a day's records changes its totals exactly as the two `+=` lines do |
| Dashboard.DayBuckets | src/pages/DashboardPage.jsx:95-106 | after the loop, the dictionary has a key for exactly the days with records, and each bucket holds that day's per-payer sums and total |
| Dashboard.Entries | src/pages/DashboardPage.jsx:108 | `Object.entries` yields one row per key, no day twice, each row carrying its bucket's values, in an order left open |
| Sorting.SortBy | src/pages/DashboardPage.jsx:109 | the sorted rows ascend by key, are a permutation of the input, and ascend strictly when no two keys are equal |
| Dashboard.DailySeries | src/pages/DashboardPage.jsx:95-115 | `dadosPorDia` has one row per day with records, in strictly ascending numeric day order, each with that day's sums |
| Dashboard.DailySeriesUnique | src/pages/DashboardPage.jsx:108-115 | any two series meeting that description are equal, so the dictionary's entry order cannot change the chart |
| Dashboard.DailySeriesAddsUp | src/pages/DashboardPage.jsx:95-115 | the daily columns sum to the sums over the month's records, for the total and for each payer |
| Dashboard.DailySeriesMatchesCards | src/pages/DashboardPage.jsx:56-115 | the daily chart of the selected month adds up to the three cards |
| Dashboard.DayRowTotalIsBothPayers | src/pages/DashboardPage.jsx:104-105 | every daily row's total is its two payer values together |
| Dashboard.Share | src/pages/DashboardPage.jsx:174-176 | with a zero or negative grand total the share is 0; otherwise share × total equals amount × 100 |
| Dashboard.SharesAddUp | src/pages/DashboardPage.jsx:174-186 | when anything was spent, the two shares add up to 100 |
| Dashboard.ShareIsPercentage | src/pages/DashboardPage.jsx:174-186 | with amounts that are not negative, each share lies between 0 and 100 |
| Dashboard.Export | src/pages/DashboardPage.jsx:117-133 | refused with "Nenhum dado para exportar." if and only if no record is in the month; otherwise the file is `gastos_MM.csv` or `.xlsx`, and its rows are the month's records, one per record in table order, at least one |
| Dashboard.WorkedExample | src/pages/DashboardPage.jsx:56-62 | with 50.00 and 30.00 in March and 20.00 in April and "03" selected, the cards are 50.00, 30.00 and 80.00 and the shares 62.5% and 37.5% |
| RecordStore.DayWindowHolds | src/pages/ListPage.jsx:33 | the `gte`/`lt` conditions on `data` hold together exactly on the timestamps within the one-day window |
| RecordStore.AdmitsSnoc | src/pages/ListPage.jsx:27-33 | chaining one more filter call narrows the query by exactly that condition |
| RecordStore.NewestFirstOrder | src/pages/ListPage.jsx:25 | `order("data", { ascending: false })` returns the same records, latest first |
| RecordStore.Run | src/pages/ListPage.jsx:25-36 | a query returns exactly the records meeting all its conditions, each as often as in the table, latest first when so ordered |
| RecordStore.RunUnfiltered | src/pages/ListPage.jsx:25 | a query without filter calls returns the whole table |
| RecordStore.UpdateAmount | src/pages/ListPage.jsx:46-49 | same length; each record with the id takes the new amount and every other record is unchanged |
| RecordStore.UpdateKeepsEverythingElse | src/pages/ListPage.jsx:46-49 | ids, payers, places and timestamps stay in place; only the matching records' amounts move |
| RecordStore.UpdateUnknownId | src/pages/ListPage.jsx:46-49 | an id that no record has leaves the table as it is |
| RecordStore.UpdateLastWins | src/pages/ListPage.jsx:46-49 | of two saves for the same id, only the second amount remains |
| RecordStore.UpdatedRecordPresent | src/pages/ListPage.jsx:46-49 | after the update the record is in the table with the new amount, and no record with that id keeps another amount |
| RecordStore.Store.Select | src/pages/ListPage.jsx:36 | awaiting the query returns what the query selects from the current table |
| RecordStore.Store.Update | src/pages/ListPage.jsx:46-51 | succeeds if and only if the amount parsed; then the table is the point update of the old table; otherwise it is unchanged |
| ListPage.FiltersCombineByAnd | src/pages/ListPage.jsx:27-33 | a record matches the filters exactly when it matches each active filter alone, and empty filters match every record |
| ListPage.Fetch | src/pages/ListPage.jsx:24-38 | the list holds exactly the table's records meeting every active filter, each as often as in the table, latest first |
| ListPage.BuildQuery | src/pages/ListPage.jsx:25-33 | the built query is ordered latest first and admits a record if and only if it meets every active filter |
| ListPage.PayerFilter | src/pages/ListPage.jsx:27 | with a payer picked, every listed record is that payer's; with "Todos", any payer's record meeting the other filters is listed |
| ListPage.AmountFilter | src/pages/ListPage.jsx:28 | with an amount typed, every listed record costs at least that amount |
| ListPage.DateFilter | src/pages/ListPage.jsx:29-33 | with a date picked, a record is listed if and only if it is stamped on that date and meets the other filters |
| ListPage.ClearedFiltersListEverything | src/pages/ListPage.jsx:113-117 | with every filter cleared, the list holds every record of the table |
| ListPage.FetchAfterUpdate | src/pages/ListPage.jsx:45-54 | after a save, the refetched list shows the record with the new amount when it meets the filters, and no listed record with that id has an old amount |
| ListPage.ListView.constructor | src/pages/ListPage.jsx:17-43 | on mount the filters are empty and nothing is being edited; after the effect's first fetch the list is the table latest first |
| ListPage.ListView.FetchGastos | src/pages/ListPage.jsx:24-39 | the list becomes what the current filters select, as `Fetch` defines it; the filters and edit state are unchanged |
| ListPage.ListView.SetFiltroNome | src/pages/ListPage.jsx:77 | sets the payer filter and nothing else; the effect on lines 41-43 then refetches the list |
| ListPage.ListView.SetFiltroValor | src/pages/ListPage.jsx:92 | sets the amount filter and nothing else; then the list is refetched |
| ListPage.ListView.SetFiltroData | src/pages/ListPage.jsx:103 | sets the date filter and nothing else; then the list is refetched |
| ListPage.ListView.ClearFilters | src/pages/ListPage.jsx:113-117 | all three filters become empty, the edit state is unchanged, and the refetched list holds every record |
| ListPage.ListView.StartEdit | src/pages/ListPage.jsx:186-189 | `editando` becomes the record's id and `valorEditado` its current amount; the list and the filters are unchanged |
| ListPage.ListView.SetValorEditado | src/pages/ListPage.jsx:173 | only the edit input changes |
| ListPage.ListView.AtualizarValor | src/pages/ListPage.jsx:45-56 | with a parsed amount, the table gets the point update, `editando` becomes null, `valorEditado` becomes empty and the list is refetched; a refused update changes neither the table, the list nor the edit state |

## Left out

- Rendering is not modelled: JSX, Material UI, chart components, card
  formatting (`toFixed`, `toLocaleString`), and the `editando === gasto.id`
  switch between the amount and the edit field.
- Network calls to the hosted table are not modelled. Both pages' fetches
  are modelled as always succeeding: the `if (!error)` branches of
  `fetchGastos` and the initial fetch take the success path. The dashboard
  receives the fetched records as a parameter.
- RecordStore.Store.Update: the update is refused when the edit input is
  empty (`None`). `parseFloat("")` is `NaN`, and whether the table rejects
  the resulting null amount depends on its schema, which is not part of
  this model. The refusal is the assumption made here.
- Time zones are not modelled. `new Date(filtroData)` parses as UTC
  midnight, while `setDate` and dayjs work in local time. The model uses
  one time zone throughout, and `setHours(getHours())` is a no-op.
- Invalid dates are not modelled: `NextDay` rolls any day past the end of
  its month into the next month, and JavaScript's invalid-date errors are
  left out.
- Month labels are not modelled: the `MMM` label of each monthly entry and
  the month names of the selector are replaced by the month number.
  `mesSelecionado`'s initial value comes from the clock, so it is a
  parameter.
- Floating point is not modelled: amounts are integer cents, and
  `parseFloat` of the filter and edit inputs is a parsed `Option<int>`.
  Text that does not parse, which would make the `gte` filter compare
  with `NaN`, is not modelled.
- Only the export's empty-month guard, its file name and its row set are
  modelled. Serialisation (Papa, XLSX), the Blob and the DOM download are
  left out, and the `alert` is modelled as the returned notice.
- RecordStore.NewestFirstOrder: among records with equal timestamps, no
  order is promised, since the hosted table promises none.
- RecordStore.Run: when a query is unordered, only the row set is stated,
  not the table's own order. The list view always orders.
- Dashboard.Entries: the order of `Object.entries` is left open.
  `Dashboard.DailySeriesUnique` shows that the sorted series does not
  depend on it.
- Concurrency is not modelled: the order in which asynchronous responses
  return, and edits racing from several clients.
- `src/pages/FormPage.jsx` (inserting a record), `src/components/BottomNav.jsx`,
  `src/App.jsx` and `tailwind.config.js` are not part of this model.
