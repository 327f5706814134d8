/**
 * The ledger's data model and its arithmetic: sale and expense lines, the
 * day record as the store keeps it, the five derived totals of a day, and
 * the period totals over all saved days.
 */
module Ledger {
  import opened Wrappers
  import opened Seqs

  /** One sale: `kg` sold at `price` per kilogram; `total` is meant to be `kg * price`. */
  datatype Sale = Sale(id: string, kg: real, price: real, total: real)

  /** One categorised cost. */
  datatype Expense = Expense(id: string, category: string, amount: real)

  /**
   * A day as the store holds it. The store is schema-free, so a record read
   * back may lack its lists or its totals: those fields are optional.
   */
  datatype DayRecord = DayRecord(
    date: string,
    sales: Option<seq<Sale>>,
    expenses: Option<seq<Expense>>,
    totalKg: Option<real>,
    totalSales: Option<real>,
    totalExpenses: Option<real>,
    profit: Option<real>,
    earnings15: Option<real>)

  /** The five derived figures of a day, or of a period. */
  datatype Totals = Totals(totalKg: real, totalSales: real, totalExpenses: real, profit: real, earnings15: real)

  /** The earnings figure is this share of revenue. */
  const EarningsRate: real := 0.15

  /** The category an expense gets when none is given. */
  const DefaultCategory: string := "Без категории"

  /** `r.sales || []`. */
  function SalesOf(r: DayRecord): seq<Sale> { r.sales.GetOr([]) }

  /** `r.expenses || []`. */
  function ExpensesOf(r: DayRecord): seq<Expense> { r.expenses.GetOr([]) }

  /** The per-line terms of the three sums (`Number(x) || 0` is the identity on numbers). */
  function Kg(s: Sale): real { s.kg }
  function Revenue(s: Sale): real { s.kg * s.price }
  function Amount(e: Expense): real { e.amount }

  /** The line invariant: a sale's total is its weight times its price. */
  predicate LineConsistent(s: Sale) { s.total == s.kg * s.price }

  predicate AllLinesConsistent(sales: seq<Sale>)
  {
    forall i :: 0 <= i < |sales| ==> LineConsistent(sales[i])
  }

  /** A sale line built from its weight and price, with its total filled in. */
  function MakeSale(id: string, kg: real, price: real): (s: Sale)
    ensures LineConsistent(s)
    ensures s.id == id && s.kg == kg && s.price == price
  {
    Sale(id, kg, price, kg * price)
  }

  /** Profit is revenue less expenses; earnings are the fixed share of revenue. */
  predicate Balanced(t: Totals)
  {
    t.profit == t.totalSales - t.totalExpenses && t.earnings15 == t.totalSales * EarningsRate
  }

  /**
   * The totals of a day's lines: weight, revenue (`kg * price`, recomputed,
   * never the stored line total), expenses, profit and earnings.
   */
  function Aggregate(sales: seq<Sale>, expenses: seq<Expense>): (t: Totals)
    ensures Balanced(t)
  {
    var revenue := SumBy(sales, Revenue);
    var costs := SumBy(expenses, Amount);
    Totals(SumBy(sales, Kg), revenue, costs, revenue - costs, revenue * EarningsRate)
  }

  /** The worked example: 10 kg at 500 and 2.5 kg at 800, with 1000 spent on ice. */
  lemma AggregateExample()
    ensures var t := Aggregate([Sale("a", 10.0, 500.0, 5000.0), Sale("b", 2.5, 800.0, 2000.0)],
                               [Expense("c", "ice", 1000.0)]);
      t == Totals(12.5, 7000.0, 1000.0, 6000.0, 1050.0)
  {
    var a, b := Sale("a", 10.0, 500.0, 5000.0), Sale("b", 2.5, 800.0, 2000.0);
    var e := Expense("c", "ice", 1000.0);
    SumByAppend([a], b, Kg);
    SumByAppend([a], b, Revenue);
    SumByAppend([], a, Kg);
    SumByAppend([], a, Revenue);
    SumByAppend([], e, Amount);
    assert [] + [a] == [a] && [a] + [b] == [a, b] && [] + [e] == [e];
    assert Revenue(a) == 5000.0 && Revenue(b) == 2000.0;
  }

  /** A day with no lines has all five figures zero. */
  lemma AggregateEmpty()
    ensures Aggregate([], []) == Totals(0.0, 0.0, 0.0, 0.0, 0.0)
  {
  }

  /** Earnings depend on revenue only: the expenses never change them. */
  lemma EarningsIgnoreExpenses(sales: seq<Sale>, e1: seq<Expense>, e2: seq<Expense>)
    ensures Aggregate(sales, e1).earnings15 == Aggregate(sales, e2).earnings15
    ensures Aggregate(sales, e1).totalSales == Aggregate(sales, e2).totalSales
  {
  }

  /** Profit goes negative when expenses exceed revenue. */
  lemma ProfitCanBeNegative()
    ensures Aggregate([], [Expense("c", "ice", 1000.0)]).profit == -1000.0
  {
    assert [Expense("c", "ice", 1000.0)][..0] == [];
  }

  /** With non-negative weights, prices and amounts, every total except profit is non-negative. */
  lemma AggregateNonNegative(sales: seq<Sale>, expenses: seq<Expense>)
    requires forall i :: 0 <= i < |sales| ==> sales[i].kg >= 0.0 && sales[i].price >= 0.0
    requires forall i :: 0 <= i < |expenses| ==> expenses[i].amount >= 0.0
    ensures var t := Aggregate(sales, expenses);
      t.totalKg >= 0.0 && t.totalSales >= 0.0 && t.totalExpenses >= 0.0 && t.earnings15 >= 0.0
  {
    SumByNonNegative(sales, Kg);
    forall i | 0 <= i < |sales| ensures Revenue(sales[i]) >= 0.0 {
      var s := sales[i];
      assert s.kg * s.price >= 0.0;
    }
    SumByNonNegative(sales, Revenue);
    SumByNonNegative(expenses, Amount);
  }

  /** Appending a sale adds its weight and revenue, and the matching share to earnings. */
  lemma AggregateAddSale(sales: seq<Sale>, expenses: seq<Expense>, x: Sale)
    ensures var before, after := Aggregate(sales, expenses), Aggregate(sales + [x], expenses);
      && after.totalKg == before.totalKg + x.kg
      && after.totalSales == before.totalSales + Revenue(x)
      && after.totalExpenses == before.totalExpenses
      && after.profit == before.profit + Revenue(x)
  {
    SumByAppend(sales, x, Kg);
    SumByAppend(sales, x, Revenue);
  }

  /** Appending an expense adds its amount to expenses and takes it off profit. */
  lemma AggregateAddExpense(sales: seq<Sale>, expenses: seq<Expense>, x: Expense)
    ensures var before, after := Aggregate(sales, expenses), Aggregate(sales, expenses + [x]);
      && after.totalKg == before.totalKg
      && after.totalSales == before.totalSales
      && after.totalExpenses == before.totalExpenses + x.amount
      && after.profit == before.profit - x.amount
  {
    SumByAppend(expenses, x, Amount);
  }

  /** Removing the sale at `i` takes off exactly its weight and revenue. */
  lemma AggregateRemoveSale(sales: seq<Sale>, expenses: seq<Expense>, i: nat)
    requires i < |sales|
    ensures var before, after := Aggregate(sales, expenses), Aggregate(sales[..i] + sales[i + 1..], expenses);
      && after.totalKg == before.totalKg - sales[i].kg
      && after.totalSales == before.totalSales - Revenue(sales[i])
      && after.totalExpenses == before.totalExpenses
  {
    SumByRemoveAt(sales, i, Kg);
    SumByRemoveAt(sales, i, Revenue);
  }

  /** Removing the expense at `i` takes off exactly its amount. */
  lemma AggregateRemoveExpense(sales: seq<Sale>, expenses: seq<Expense>, i: nat)
    requires i < |expenses|
    ensures var before, after := Aggregate(sales, expenses), Aggregate(sales, expenses[..i] + expenses[i + 1..]);
      && after.totalKg == before.totalKg
      && after.totalSales == before.totalSales
      && after.totalExpenses == before.totalExpenses - expenses[i].amount
  {
    SumByRemoveAt(expenses, i, Amount);
  }

  /** Replacing the sale at `i` swaps its weight and revenue for the new line's. */
  lemma AggregateReplaceSale(sales: seq<Sale>, expenses: seq<Expense>, i: nat, y: Sale)
    requires i < |sales|
    ensures var before, after := Aggregate(sales, expenses), Aggregate(sales[i := y], expenses);
      && after.totalKg == before.totalKg - sales[i].kg + y.kg
      && after.totalSales == before.totalSales - Revenue(sales[i]) + Revenue(y)
      && after.totalExpenses == before.totalExpenses
  {
    SumByUpdateAt(sales, i, y, Kg);
    SumByUpdateAt(sales, i, y, Revenue);
  }

  /** Totals do not depend on the order of the lines. */
  lemma AggregatePermutation(s1: seq<Sale>, e1: seq<Expense>, s2: seq<Sale>, e2: seq<Expense>)
    requires multiset(s1) == multiset(s2) && multiset(e1) == multiset(e2)
    ensures Aggregate(s1, e1) == Aggregate(s2, e2)
  {
    SumByPermutation(s1, s2, Kg);
    SumByPermutation(s1, s2, Revenue);
    SumByPermutation(e1, e2, Amount);
  }

  /** The stored totals of `r` are those of its lines. */
  predicate Consistent(r: DayRecord)
  {
    var t := Aggregate(SalesOf(r), ExpensesOf(r));
    && r.totalKg == Some(t.totalKg) && r.totalSales == Some(t.totalSales)
    && r.totalExpenses == Some(t.totalExpenses) && r.profit == Some(t.profit)
    && r.earnings15 == Some(t.earnings15)
  }

  /** `recalcTotals`: the record with its five totals recomputed from its lines and nothing else changed. */
  function RecalcTotals(r: DayRecord): (r': DayRecord)
    ensures r'.date == r.date && r'.sales == r.sales && r'.expenses == r.expenses
    ensures Consistent(r')
  {
    var t := Aggregate(SalesOf(r), ExpensesOf(r));
    r.(totalKg := Some(t.totalKg), totalSales := Some(t.totalSales), totalExpenses := Some(t.totalExpenses),
       profit := Some(t.profit), earnings15 := Some(t.earnings15))
  }

  /** Recalculation changes a record exactly when its stored totals are stale. */
  lemma RecalcFixpoint(r: DayRecord)
    ensures RecalcTotals(r) == r <==> Consistent(r)
  {
  }

  /** `(rec.sales?.length || 0) === 0 && (rec.expenses?.length || 0) === 0`. */
  predicate IsEmptyDay(r: DayRecord)
  {
    |SalesOf(r)| == 0 && |ExpensesOf(r)| == 0
  }

  /** `Number(d.totalKg) || 0` and its siblings: a missing figure counts as 0. */
  function DayKg(d: DayRecord): real { d.totalKg.GetOr(0.0) }
  function DaySales(d: DayRecord): real { d.totalSales.GetOr(0.0) }
  function DayExpenses(d: DayRecord): real { d.totalExpenses.GetOr(0.0) }

  /**
   * The `period` memo: the stored weight, revenue and expense totals summed
   * over all days; profit and earnings are derived from the sums, not summed.
   */
  function PeriodTotals(days: seq<DayRecord>): (p: Totals)
    ensures Balanced(p)
  {
    var revenue := SumBy(days, DaySales);
    var costs := SumBy(days, DayExpenses);
    Totals(SumBy(days, DayKg), revenue, costs, revenue - costs, revenue * EarningsRate)
  }

  /** Period totals do not depend on the order of the days. */
  lemma PeriodPermutation(a: seq<DayRecord>, b: seq<DayRecord>)
    requires multiset(a) == multiset(b)
    ensures PeriodTotals(a) == PeriodTotals(b)
  {
    SumByPermutation(a, b, DayKg);
    SumByPermutation(a, b, DaySales);
    SumByPermutation(a, b, DayExpenses);
  }

  /** Every sale line of every day, in order. */
  function AllSales(days: seq<DayRecord>): seq<Sale>
  {
    if days == [] then [] else AllSales(days[..|days| - 1]) + SalesOf(days[|days| - 1])
  }

  /** Every expense line of every day, in order. */
  function AllExpenses(days: seq<DayRecord>): seq<Expense>
  {
    if days == [] then [] else AllExpenses(days[..|days| - 1]) + ExpensesOf(days[|days| - 1])
  }

  /** Each day's stored weight, revenue and expenses equal the sums over its own lines. */
  predicate StoredSumsMatch(d: DayRecord)
  {
    && DayKg(d) == SumBy(SalesOf(d), Kg)
    && DaySales(d) == SumBy(SalesOf(d), Revenue)
    && DayExpenses(d) == SumBy(ExpensesOf(d), Amount)
  }

  lemma ConsistentSumsMatch(d: DayRecord)
    requires Consistent(d)
    ensures StoredSumsMatch(d)
  {
  }

  lemma {:induction false} PeriodSumsMatchLines(days: seq<DayRecord>)
    requires forall i :: 0 <= i < |days| ==> StoredSumsMatch(days[i])
    ensures SumBy(days, DayKg) == SumBy(AllSales(days), Kg)
    ensures SumBy(days, DaySales) == SumBy(AllSales(days), Revenue)
    ensures SumBy(days, DayExpenses) == SumBy(AllExpenses(days), Amount)
  {
    if days != [] {
      var init, last := days[..|days| - 1], days[|days| - 1];
      PeriodSumsMatchLines(init);
      assert StoredSumsMatch(last);
      SumByConcat(AllSales(init), SalesOf(last), Kg);
      SumByConcat(AllSales(init), SalesOf(last), Revenue);
      SumByConcat(AllExpenses(init), ExpensesOf(last), Amount);
    }
  }

  /**
   * When every saved day's totals match its lines, the period totals are the
   * totals of all lines of the period taken together.
   */
  lemma PeriodOfConsistentDays(days: seq<DayRecord>)
    requires forall i :: 0 <= i < |days| ==> Consistent(days[i])
    ensures PeriodTotals(days) == Aggregate(AllSales(days), AllExpenses(days))
  {
    var sales, expenses := AllSales(days), AllExpenses(days);
    forall i | 0 <= i < |days| ensures StoredSumsMatch(days[i]) {
      ConsistentSumsMatch(days[i]);
    }
    PeriodSumsMatchLines(days);
    SameSumsSameTotals(days, sales, expenses);
  }

  lemma SameSumsSameTotals(days: seq<DayRecord>, sales: seq<Sale>, expenses: seq<Expense>)
    requires SumBy(days, DayKg) == SumBy(sales, Kg)
    requires SumBy(days, DaySales) == SumBy(sales, Revenue)
    requires SumBy(days, DayExpenses) == SumBy(expenses, Amount)
    ensures PeriodTotals(days) == Aggregate(sales, expenses)
  {
  }

  /** Adding a day adds its stored figures to the period. */
  lemma PeriodAddDay(days: seq<DayRecord>, d: DayRecord)
    ensures var before, after := PeriodTotals(days), PeriodTotals(days + [d]);
      && after.totalKg == before.totalKg + DayKg(d)
      && after.totalSales == before.totalSales + DaySales(d)
      && after.totalExpenses == before.totalExpenses + DayExpenses(d)
  {
    SumByAppend(days, d, DayKg);
    SumByAppend(days, d, DaySales);
    SumByAppend(days, d, DayExpenses);
  }
}
