/** The remote `gastos` table, held in memory: the query builder the list
    view uses (`select("*")`, `order("data", { ascending: false })`, `eq`,
    `gte`, `lt`) and the point update `.update({ valor }).eq("id", id)`. */
module RecordStore {
  import opened Calendar
  import opened Expenses
  import opened Sorting

  datatype Option<T> = None | Some(value: T)

  /** One filter call of the query builder. */
  datatype Condition =
    | PayerEquals(p: Payer)       // .eq("usuario", p)
    | AmountAtLeast(min: int)     // .gte("valor", min)
    | StampAtLeast(t: Stamp)      // .gte("data", t)
    | StampBefore(t: Stamp)       // .lt("data", t)

  predicate Holds(c: Condition, e: Expense) {
    match c
    case PayerEquals(p) => e.usuario == p
    case AmountAtLeast(min) => e.valor >= min
    case StampAtLeast(t) => Ordinal(e.data) >= Ordinal(t)
    case StampBefore(t) => Ordinal(e.data) < Ordinal(t)
  }

  /** `.gte("data", start).lt("data", end)` with `end` the midnight after
      `start`'s day holds on exactly the timestamps of that day's window. */
  lemma DayWindowHolds(e: Expense, d: Date)
    ensures Holds(StampAtLeast(Midnight(d)), e) && Holds(StampBefore(Midnight(NextDay(d))), e) <==> WithinDay(e.data, d)
  {
  }

  /** A built query: whether it asks for `data` descending, and its filter
      calls in the order they were chained. */
  datatype Query = Query(newestFirst: bool, conditions: seq<Condition>)

  /** Chained filters combine by AND. */
  predicate Admits(q: Query, e: Expense) {
    forall i :: 0 <= i < |q.conditions| ==> Holds(q.conditions[i], e)
  }

  function Selects(q: Query): Expense -> bool {
    (e: Expense) => Admits(q, e)
  }

  /** Chaining one more filter call narrows the query by exactly that condition. */
  lemma AdmitsSnoc(q: Query, c: Condition, e: Expense)
    ensures Admits(q.(conditions := q.conditions + [c]), e) <==> Admits(q, e) && Holds(c, e)
  {
    var q' := q.(conditions := q.conditions + [c]);
    if Admits(q, e) && Holds(c, e) {
      forall i | 0 <= i < |q'.conditions| ensures Holds(q'.conditions[i], e) {
        if i < |q.conditions| {
          assert q'.conditions[i] == q.conditions[i];
        }
      }
    }
    if Admits(q', e) {
      assert Holds(q'.conditions[|q.conditions|], e);
      forall i | 0 <= i < |q.conditions| ensures Holds(q.conditions[i], e) {
        assert q'.conditions[i] == q.conditions[i];
      }
    }
  }

  /** Sorting ascending by this key puts the latest `data` first. */
  function NewestFirstKey(e: Expense): int {
    -Ordinal(e.data)
  }

  ghost predicate NewestFirst(s: seq<Expense>) {
    forall i, j :: 0 <= i < j < |s| ==> Ordinal(s[j].data) <= Ordinal(s[i].data)
  }

  /** `order("data", { ascending: false })`: latest first, ties in no promised order. */
  function NewestFirstOrder(s: seq<Expense>): (r: seq<Expense>)
    ensures NewestFirst(r)
    ensures multiset(r) == multiset(s)
    ensures forall e :: e in r <==> e in s
  {
    var r := SortBy(s, NewestFirstKey);
    assert forall e :: e in r <==> e in multiset(s);
    r
  }

  /** The rows a query returns: those meeting every condition, latest
      first when it is ordered by `data` descending. */
  function Run(rows: seq<Expense>, q: Query): (r: seq<Expense>)
    ensures forall e :: e in r <==> e in rows && Admits(q, e)
    ensures multiset(r) == multiset(Filter(rows, Selects(q)))
    ensures q.newestFirst ==> NewestFirst(r)
  {
    var matching := Filter(rows, Selects(q));
    if q.newestFirst then NewestFirstOrder(matching) else matching
  }

  /** A query without filter calls returns the whole table. */
  lemma RunUnfiltered(rows: seq<Expense>, q: Query)
    requires q.conditions == []
    ensures multiset(Run(rows, q)) == multiset(rows)
  {
    FilterAll(rows, Selects(q));
  }

  /** `.update({ valor: v }).eq("id", id)`: every record with that id takes
      amount `v`; nothing else changes. */
  function UpdateAmount(rows: seq<Expense>, id: int, v: int): (r: seq<Expense>)
    ensures |r| == |rows|
    ensures forall i :: 0 <= i < |rows| ==> r[i] == if rows[i].id == id then rows[i].(valor := v) else rows[i]
  {
    if rows == [] then []
    else [if rows[0].id == id then rows[0].(valor := v) else rows[0]] + UpdateAmount(rows[1..], id, v)
  }

  /** The ids of the table's records. */
  function Ids(rows: seq<Expense>): seq<int> {
    seq(|rows|, (i: int) requires 0 <= i < |rows| => rows[i].id)
  }

  /** An update keeps every record in place with its id, payer, place and
      timestamp; only the amount of the matching records moves. */
  lemma UpdateKeepsEverythingElse(rows: seq<Expense>, id: int, v: int)
    ensures Ids(UpdateAmount(rows, id, v)) == Ids(rows)
    ensures forall i :: 0 <= i < |rows| ==>
      var e := UpdateAmount(rows, id, v)[i];
      e.usuario == rows[i].usuario && e.estabelecimento == rows[i].estabelecimento && e.data == rows[i].data
    ensures forall i :: 0 <= i < |rows| ==> (UpdateAmount(rows, id, v)[i].valor == if rows[i].id == id then v else rows[i].valor)
  {
  }

  /** An id that no record has leaves the table as it is. */
  lemma UpdateUnknownId(rows: seq<Expense>, id: int, v: int)
    requires forall e :: e in rows ==> e.id != id
    ensures UpdateAmount(rows, id, v) == rows
  {
    var r := UpdateAmount(rows, id, v);
    forall i | 0 <= i < |rows| ensures r[i] == rows[i] {
      assert rows[i] in rows;
    }
  }

  /** Saving twice for the same id keeps only the second amount. */
  lemma UpdateLastWins(rows: seq<Expense>, id: int, v: int, w: int)
    ensures UpdateAmount(UpdateAmount(rows, id, v), id, w) == UpdateAmount(rows, id, w)
  {
  }

  /** After the update the record with that id carries the new amount. */
  lemma UpdatedRecordPresent(rows: seq<Expense>, e: Expense, v: int)
    requires e in rows
    ensures e.(valor := v) in UpdateAmount(rows, e.id, v)
    ensures forall x :: x in UpdateAmount(rows, e.id, v) && x.id == e.id ==> x.valor == v
  {
    var i :| 0 <= i < |rows| && rows[i] == e;
    assert UpdateAmount(rows, e.id, v)[i] == e.(valor := v);
  }

  /** The table. */
  class Store {
    var rows: seq<Expense>

    constructor (rows: seq<Expense>)
      ensures this.rows == rows
    {
      this.rows := rows;
    }

    /** `await query` */
    method Select(q: Query) returns (r: seq<Expense>)
      ensures r == Run(rows, q)
    {
      r := Run(rows, q);
    }

    /** `await supabase.from("gastos").update({ valor }).eq("id", id)`,
        where an amount that did not parse (`None`) is refused with an error
        and leaves the table as it was. */
    method Update(id: int, valor: Option<int>) returns (ok: bool)
      modifies this
      ensures ok <==> valor.Some?
      ensures rows == if valor.Some? then UpdateAmount(old(rows), id, valor.value) else old(rows)
    {
      if valor.Some? {
        rows := UpdateAmount(rows, id, valor.value);
        ok := true;
      } else {
        ok := false;
      }
    }
  }
}
