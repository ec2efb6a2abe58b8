/** The list view (src/pages/ListPage.jsx): three optional filters that
    `fetchGastos` turns into a query, the clear-filters button, and the
    edit-one-amount flow. */
module ListPage {
  import opened Calendar
  import opened Expenses
  import opened Sorting
  import opened RecordStore

  /** The three filter inputs. `None` is the empty string, which JavaScript
      treats as false; the amount is the parsed input in cents and the date
      the picked calendar date. */
  datatype Filters = Filters(nome: Option<Payer>, valor: Option<int>, data: Option<Date>)

  const NoFilters := Filters(None, None, None)

  /** What the filters ask of a record: each active filter holds (AND). */
  predicate Matches(e: Expense, f: Filters) {
    && (f.nome.Some? ==> e.usuario == f.nome.value)
    && (f.valor.Some? ==> e.valor >= f.valor.value)
    && (f.data.Some? ==> WithinDay(e.data, f.data.value))
  }

  /** The filters are independent and combine by AND; an empty filter
      constrains nothing. */
  lemma FiltersCombineByAnd(e: Expense, f: Filters)
    ensures Matches(e, NoFilters)
    ensures Matches(e, f) <==>
      && Matches(e, Filters(f.nome, None, None))
      && Matches(e, Filters(None, f.valor, None))
      && Matches(e, Filters(None, None, f.data))
  {
  }

  function MatchesFilters(f: Filters): Expense -> bool {
    (e: Expense) => Matches(e, f)
  }

  /** What `fetchGastos` puts in `gastos`: the records meeting every active
      filter, latest first. */
  function Fetch(rows: seq<Expense>, f: Filters): (r: seq<Expense>)
    ensures forall e :: e in r <==> e in rows && Matches(e, f)
    ensures multiset(r) == multiset(Filter(rows, MatchesFilters(f)))
    ensures NewestFirst(r)
  {
    NewestFirstOrder(Filter(rows, MatchesFilters(f)))
  }

  /** `fetchGastos`, lines 25-33: the query is reassigned once per active
      filter, and the date filter adds the window [start, start + 1 day). */
  method BuildQuery(f: Filters) returns (q: Query)
    ensures q.newestFirst
    ensures forall e :: Admits(q, e) <==> Matches(e, f)
  {
    q := Query(true, []);
    if f.nome.Some? {
      q := q.(conditions := q.conditions + [PayerEquals(f.nome.value)]);
    }
    assert forall e :: Admits(q, e) <==> (f.nome.Some? ==> e.usuario == f.nome.value) by {
      forall e ensures Admits(q, e) <==> (f.nome.Some? ==> e.usuario == f.nome.value) {
        if f.nome.Some? {
          AdmitsSnoc(Query(true, []), PayerEquals(f.nome.value), e);
        }
      }
    }
    ghost var q1 := q;
    if f.valor.Some? {
      q := q.(conditions := q.conditions + [AmountAtLeast(f.valor.value)]);
      forall e ensures Admits(q, e) <==> Admits(q1, e) && e.valor >= f.valor.value {
        AdmitsSnoc(q1, AmountAtLeast(f.valor.value), e);
      }
    }
    ghost var q2 := q;
    if f.data.Some? {
      var startDate := Midnight(f.data.value);
      var endDate := Midnight(NextDay(f.data.value));
      q := q.(conditions := q.conditions + [StampAtLeast(startDate), StampBefore(endDate)]);
      ghost var q3 := q2.(conditions := q2.conditions + [StampAtLeast(startDate)]);
      assert q == q3.(conditions := q3.conditions + [StampBefore(endDate)]);
      forall e ensures Admits(q, e) <==> Admits(q2, e) && WithinDay(e.data, f.data.value) {
        AdmitsSnoc(q2, StampAtLeast(startDate), e);
        AdmitsSnoc(q3, StampBefore(endDate), e);
      }
    }
  }

  /** Line 27: with a payer picked, only that payer's records are listed;
      with "Todos" every payer's matching records are. */
  lemma PayerFilter(rows: seq<Expense>, f: Filters)
    ensures f.nome.Some? ==> forall e :: e in Fetch(rows, f) ==> e.usuario == f.nome.value
    ensures f.nome.None? ==> forall e :: e in rows && Matches(e, f.(nome := Some(e.usuario))) ==> e in Fetch(rows, f)
  {
  }

  /** Line 28: with an amount typed, every listed record costs at least that. */
  lemma AmountFilter(rows: seq<Expense>, f: Filters)
    requires f.valor.Some?
    ensures forall e :: e in Fetch(rows, f) ==> e.valor >= f.valor.value
  {
  }

  /** Lines 29-33: with a date picked, the listed records are exactly those
      (meeting the other filters) stamped on that calendar date. */
  lemma DateFilter(rows: seq<Expense>, f: Filters, e: Expense)
    requires f.data.Some? && ValidDate(e.data.date)
    ensures e in Fetch(rows, f) <==> e in rows && Matches(e, f.(data := None)) && e.data.date == f.data.value
  {
    WithinDayIsSameDate(e.data, f.data.value);
  }

  /** Lines 113-117: with every filter cleared, the whole table is listed. */
  lemma ClearedFiltersListEverything(rows: seq<Expense>)
    ensures multiset(Fetch(rows, NoFilters)) == multiset(rows)
  {
    FilterAll(rows, MatchesFilters(NoFilters));
  }

  /** After saving a new amount, the refetched list shows it: the edited
      record reappears with the new amount whenever it meets the filters,
      and no listed record with that id keeps an old amount. */
  lemma FetchAfterUpdate(rows: seq<Expense>, f: Filters, e: Expense, v: int)
    requires e in rows
    ensures Matches(e.(valor := v), f) ==> e.(valor := v) in Fetch(UpdateAmount(rows, e.id, v), f)
    ensures forall x :: x in Fetch(UpdateAmount(rows, e.id, v), f) && x.id == e.id ==> x.valor == v
  {
    UpdatedRecordPresent(rows, e, v);
  }

  /** The component's state. `editando` is the id being edited (`null` is
      `None`), `valorEditado` the parsed edit input (`""` is `None`). */
  class ListView {
    const db: Store
    var gastos: seq<Expense>
    var filtroNome: Option<Payer>
    var filtroValor: Option<int>
    var filtroData: Option<Date>
    var editando: Option<int>
    var valorEditado: Option<int>

    function Filtros(): Filters
      reads this
    {
      Filters(filtroNome, filtroValor, filtroData)
    }

    /** The list shows what the current filters select from the table, as
        the effect on lines 41-43 keeps it after every filter change. */
    ghost predicate Listed()
      reads this, db
    {
      gastos == Fetch(db.rows, Filtros())
    }

    /** Mounting: empty filters, nothing being edited, then the first fetch. */
    constructor (db: Store)
      ensures this.db == db
      ensures Filtros() == NoFilters && editando == None && valorEditado == None
      ensures Listed()
    {
      this.db := db;
      filtroNome := None;
      filtroValor := None;
      filtroData := None;
      editando := None;
      valorEditado := None;
      new;
      FetchGastos();
    }

    /** `fetchGastos`: build the query, run it, keep the result. */
    method FetchGastos()
      modifies this
      ensures gastos == Fetch(db.rows, Filtros())
      ensures Filtros() == old(Filtros()) && editando == old(editando) && valorEditado == old(valorEditado)
    {
      var q := BuildQuery(Filtros());
      var data := db.Select(q);
      FilterAgrees(db.rows, Selects(q), MatchesFilters(Filtros()));
      gastos := data;
    }

    /** The payer select, followed by the effect's refetch. */
    method SetFiltroNome(nome: Option<Payer>)
      modifies this
      ensures filtroNome == nome && filtroValor == old(filtroValor) && filtroData == old(filtroData)
      ensures editando == old(editando) && valorEditado == old(valorEditado)
      ensures Listed()
    {
      filtroNome := nome;
      FetchGastos();
    }

    /** The amount field, followed by the effect's refetch. */
    method SetFiltroValor(valor: Option<int>)
      modifies this
      ensures filtroValor == valor && filtroNome == old(filtroNome) && filtroData == old(filtroData)
      ensures editando == old(editando) && valorEditado == old(valorEditado)
      ensures Listed()
    {
      filtroValor := valor;
      FetchGastos();
    }

    /** The date field, followed by the effect's refetch. */
    method SetFiltroData(data: Option<Date>)
      modifies this
      ensures filtroData == data && filtroNome == old(filtroNome) && filtroValor == old(filtroValor)
      ensures editando == old(editando) && valorEditado == old(valorEditado)
      ensures Listed()
    {
      filtroData := data;
      FetchGastos();
    }

    /** "Limpar filtros": all three filters emptied, then the refetch. */
    method ClearFilters()
      modifies this
      ensures Filtros() == NoFilters
      ensures editando == old(editando) && valorEditado == old(valorEditado)
      ensures Listed()
      ensures multiset(gastos) == multiset(db.rows)
    {
      filtroNome := None;
      filtroValor := None;
      filtroData := None;
      FetchGastos();
      ClearedFiltersListEverything(db.rows);
    }

    /** The edit button of a card: that record's id and its current amount. */
    method StartEdit(gasto: Expense)
      modifies this
      ensures editando == Some(gasto.id) && valorEditado == Some(gasto.valor)
      ensures gastos == old(gastos) && Filtros() == old(Filtros())
    {
      editando := Some(gasto.id);
      valorEditado := Some(gasto.valor);
    }

    /** Typing in the edit field. */
    method SetValorEditado(valor: Option<int>)
      modifies this
      ensures valorEditado == valor
      ensures editando == old(editando) && gastos == old(gastos) && Filtros() == old(Filtros())
    {
      valorEditado := valor;
    }

    /** `atualizarValor(id)`: the table's records with that id take the
        edited amount; on success the edit is closed and the list refetched.
        When the store refuses the update nothing changes. */
    method AtualizarValor(id: int)
      modifies this, db
      ensures old(valorEditado).Some? ==>
        && db.rows == UpdateAmount(old(db.rows), id, old(valorEditado).value)
        && editando == None && valorEditado == None
        && Listed()
      ensures old(valorEditado).None? ==>
        && db.rows == old(db.rows) && gastos == old(gastos)
        && editando == old(editando) && valorEditado == old(valorEditado)
      ensures Filtros() == old(Filtros())
    {
      var ok := db.Update(id, valorEditado);
      if ok {
        editando := None;
        valorEditado := None;
        FetchGastos();
      }
    }
  }
}
