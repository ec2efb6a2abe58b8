/** The expense record (a row of the `gastos` table) and the two list
    operations every view builds on: `filter` and the summing `reduce`. */
module Expenses {
  import opened Calendar

  /** The form offers exactly these two payers. */
  datatype Payer = Jacqueline | Wesley

  /** `valor` is held in integer cents. */
  datatype Expense = Expense(id: int, usuario: Payer, estabelecimento: string, valor: int, data: Stamp)

  /** `Array.prototype.filter`: the records satisfying `f`, in their order. */
  function Filter(s: seq<Expense>, f: Expense -> bool): (r: seq<Expense>)
    ensures |r| <= |s|
    ensures forall e :: e in r <==> e in s && f(e)
  {
    if s == [] then [] else (if f(s[0]) then [s[0]] else []) + Filter(s[1..], f)
  }

  /** `reduce((acc, cur) => acc + cur.valor, 0)` */
  function Sum(s: seq<Expense>): int {
    if s == [] then 0 else s[0].valor + Sum(s[1..])
  }

  /** The condition of `.filter((g) => g.usuario === p)`. */
  function PaidBy(p: Payer): Expense -> bool {
    (e: Expense) => e.usuario == p
  }

  function ByPayer(s: seq<Expense>, p: Payer): seq<Expense> {
    Filter(s, PaidBy(p))
  }

  lemma {:induction false} FilterAppend(a: seq<Expense>, b: seq<Expense>, f: Expense -> bool)
    ensures Filter(a + b, f) == Filter(a, f) + Filter(b, f)
  {
    if a == [] {
      assert a + b == b;
    } else {
      assert (a + b)[1..] == a[1..] + b;
      FilterAppend(a[1..], b, f);
    }
  }

  lemma {:induction false} SumAppend(a: seq<Expense>, b: seq<Expense>)
    ensures Sum(a + b) == Sum(a) + Sum(b)
  {
    if a == [] {
      assert a + b == b;
    } else {
      assert (a + b)[1..] == a[1..] + b;
      SumAppend(a[1..], b);
    }
  }

  lemma PrefixSnoc(s: seq<Expense>, i: int)
    requires 0 <= i < |s|
    ensures s[..i + 1] == s[..i] + [s[i]]
  {
  }

  lemma PrefixAll(s: seq<Expense>)
    ensures s[..|s|] == s
  {
  }

  /** Appending one record appends it to the filtered records when it passes the filter. */
  lemma FilterSnoc(s: seq<Expense>, g: Expense, f: Expense -> bool)
    ensures Filter(s + [g], f) == Filter(s, f) + (if f(g) then [g] else [])
    ensures Sum(Filter(s + [g], f)) == Sum(Filter(s, f)) + (if f(g) then g.valor else 0)
  {
    FilterAppend(s, [g], f);
    assert [g][1..] == [];
    var tail := if f(g) then [g] else [];
    SumAppend(Filter(s, f), tail);
    assert tail != [] ==> tail[1..] == [];
  }

  /** Filtering by two conditions gives the same records in either order. */
  lemma {:induction false} FilterCommutes(s: seq<Expense>, f: Expense -> bool, g: Expense -> bool)
    ensures Filter(Filter(s, f), g) == Filter(Filter(s, g), f)
  {
    if s != [] {
      FilterCommutes(s[1..], f, g);
      var h := if f(s[0]) then [s[0]] else [];
      var k := if g(s[0]) then [s[0]] else [];
      FilterAppend(h, Filter(s[1..], f), g);
      FilterAppend(k, Filter(s[1..], g), f);
    }
  }

  /** Conditions that agree on every record of `s` select the same records. */
  lemma {:induction false} FilterAgrees(s: seq<Expense>, f: Expense -> bool, g: Expense -> bool)
    requires forall e :: e in s ==> f(e) == g(e)
    ensures Filter(s, f) == Filter(s, g)
  {
    if s != [] {
      FilterAgrees(s[1..], f, g);
    }
  }

  /** A filter that selects nothing leaves nothing to sum. */
  lemma FilterNone(s: seq<Expense>, f: Expense -> bool)
    requires forall e :: e in s ==> !f(e)
    ensures Filter(s, f) == [] && Sum(Filter(s, f)) == 0
  {
  }

  /** A filter that every record passes keeps them all. */
  lemma {:induction false} FilterAll(s: seq<Expense>, f: Expense -> bool)
    requires forall e :: e in s ==> f(e)
    ensures Filter(s, f) == s
  {
    if s != [] {
      assert s[0] in s;
      FilterAll(s[1..], f);
    }
  }

  /** Amounts that are not negative have a sum that is not negative. */
  lemma {:induction false} SumNonNegative(s: seq<Expense>)
    requires forall e :: e in s ==> e.valor >= 0
    ensures Sum(s) >= 0
  {
    if s != [] {
      assert s[0] in s;
      SumNonNegative(s[1..]);
    }
  }

  /** With only two payers, their sums make up the whole. */
  lemma {:induction false} PayerSplit(s: seq<Expense>)
    ensures Sum(ByPayer(s, Jacqueline)) + Sum(ByPayer(s, Wesley)) == Sum(s)
  {
    if s != [] {
      PayerSplit(s[1..]);
      var j := if s[0].usuario == Jacqueline then [s[0]] else [];
      var w := if s[0].usuario == Wesley then [s[0]] else [];
      SumAppend(j, ByPayer(s[1..], Jacqueline));
      SumAppend(w, ByPayer(s[1..], Wesley));
    }
  }
}
