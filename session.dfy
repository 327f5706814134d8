/**
 * The application state shared by the ledger screens: the day being edited
 * (its date, sale lines and expense lines), the list of all saved days,
 * the loading flag, and the operations that change them. The remote store
 * is reached through `Remote`, which records every request in order; what
 * a request answers is a parameter of the operation that makes it.
 */
module Session {
  import opened Wrappers
  import opened Seqs
  import opened Sorting
  import opened Text
  import opened Ledger

  /** A request to the remote store. */
  datatype Effect = SaveDay(record: DayRecord) | DeleteDay(date: string) | FetchDay(date: string) | FetchAll

  /** The remote store, seen from the app: the requests it has been sent. */
  class Remote {
    var log: seq<Effect>

    constructor ()
      ensures log == []
    {
      log := [];
    }

    method Call(e: Effect)
      modifies this
      ensures log == old(log) + [e]
    {
      log := log + [e];
    }
  }

  /** The fields an edit of a sale line may give; a field left out keeps its value. */
  datatype SalePatch = SalePatch(kg: Option<real>, price: Option<real>)

  /** `{ ...s, ...patch }` with its total recomputed. */
  function PatchSale(s: Sale, p: SalePatch): (r: Sale)
    ensures r.id == s.id && LineConsistent(r)
    ensures p.kg.None? ==> r.kg == s.kg
    ensures p.price.None? ==> r.price == s.price
    ensures p.kg.Some? ==> r.kg == p.kg.value
    ensures p.price.Some? ==> r.price == p.price.value
  {
    MakeSale(s.id, p.kg.GetOr(s.kg), p.price.GetOr(s.price))
  }

  /** `list.map(s => s.id !== id ? s : patched(s))`. */
  function UpdateSales(list: seq<Sale>, id: string, p: SalePatch): (r: seq<Sale>)
    ensures |r| == |list|
    ensures forall i :: 0 <= i < |list| && list[i].id != id ==> r[i] == list[i]
    ensures forall i :: 0 <= i < |list| && list[i].id == id ==> r[i] == PatchSale(list[i], p)
  {
    if list == [] then []
    else [if list[0].id == id then PatchSale(list[0], p) else list[0]] + UpdateSales(list[1..], id, p)
  }

  /** An edit keeps every line's id, and leaves every line consistent if they were. */
  lemma UpdateSalesKeepsLines(list: seq<Sale>, id: string, p: SalePatch)
    requires AllLinesConsistent(list)
    ensures AllLinesConsistent(UpdateSales(list, id, p))
    ensures forall i :: 0 <= i < |list| ==> UpdateSales(list, id, p)[i].id == list[i].id
  {
  }

  /** Applying the same edit twice is applying it once. */
  lemma UpdateSalesIdempotent(list: seq<Sale>, id: string, p: SalePatch)
    ensures UpdateSales(UpdateSales(list, id, p), id, p) == UpdateSales(list, id, p)
  {
    var once := UpdateSales(list, id, p);
    var twice := UpdateSales(once, id, p);
    forall i | 0 <= i < |list| ensures twice[i] == once[i] {
    }
  }

  /** An edit naming no line changes nothing. */
  lemma UpdateSalesMissingId(list: seq<Sale>, id: string, p: SalePatch)
    requires forall i :: 0 <= i < |list| ==> list[i].id != id
    ensures UpdateSales(list, id, p) == list
  {
  }

  /** Editing the one line with a given id changes the day's totals by the difference of the line. */
  lemma UpdateSaleTotals(list: seq<Sale>, expenses: seq<Expense>, i: nat, p: SalePatch)
    requires i < |list| && forall j :: 0 <= j < |list| && j != i ==> list[j].id != list[i].id
    ensures var y := PatchSale(list[i], p);
      UpdateSales(list, list[i].id, p) == list[i := y]
      && Aggregate(list[i := y], expenses).totalSales == Aggregate(list, expenses).totalSales - Revenue(list[i]) + Revenue(y)
  {
    var y := PatchSale(list[i], p);
    assert UpdateSales(list, list[i].id, p) == list[i := y];
    AggregateReplaceSale(list, expenses, i, y);
  }

  /** `list.filter(s => s.id !== id)`. */
  function RemoveSale(list: seq<Sale>, id: string): (r: seq<Sale>)
    ensures IsSubsequence(r, list)
    ensures forall i :: 0 <= i < |r| ==> r[i].id != id
  {
    Filter(list, (s: Sale) => s.id != id)
  }

  /** `list.filter(e => e.id !== id)`. */
  function RemoveExpense(list: seq<Expense>, id: string): (r: seq<Expense>)
    ensures IsSubsequence(r, list)
    ensures forall i :: 0 <= i < |r| ==> r[i].id != id
  {
    Filter(list, (e: Expense) => e.id != id)
  }

  /** Deleting a sale drops every line with that id and keeps all others, in order. */
  lemma RemoveSaleSpec(list: seq<Sale>, id: string)
    ensures forall x :: x in RemoveSale(list, id) ==> x.id != id
    ensures forall x :: x in list && x.id != id ==> x in RemoveSale(list, id)
    ensures IsSubsequence(RemoveSale(list, id), list)
  {
    var keep := (s: Sale) => s.id != id;
    forall x | x in RemoveSale(list, id) ensures x.id != id {
      var i :| 0 <= i < |RemoveSale(list, id)| && RemoveSale(list, id)[i] == x;
      assert keep(x);
    }
    forall x | x in list && x.id != id ensures x in RemoveSale(list, id) {
      FilterKeeps(list, x, keep);
    }
  }

  /** Deleting the one sale with a given id removes exactly that line, and its weight and revenue from the totals. */
  lemma RemoveUniqueSale(list: seq<Sale>, expenses: seq<Expense>, i: nat)
    requires i < |list| && forall j :: 0 <= j < |list| && j != i ==> list[j].id != list[i].id
    ensures RemoveSale(list, list[i].id) == list[..i] + list[i + 1..]
    ensures Aggregate(RemoveSale(list, list[i].id), expenses).totalSales
      == Aggregate(list, expenses).totalSales - Revenue(list[i])
  {
    FilterRemoveAt(list, i, (s: Sale) => s.id != list[i].id);
    AggregateRemoveSale(list, expenses, i);
  }

  /** Deleting the one expense with a given id removes exactly that line, and its amount from the totals. */
  lemma RemoveUniqueExpense(sales: seq<Sale>, list: seq<Expense>, i: nat)
    requires i < |list| && forall j :: 0 <= j < |list| && j != i ==> list[j].id != list[i].id
    ensures RemoveExpense(list, list[i].id) == list[..i] + list[i + 1..]
    ensures Aggregate(sales, RemoveExpense(list, list[i].id)).totalExpenses
      == Aggregate(sales, list).totalExpenses - list[i].amount
  {
    FilterRemoveAt(list, i, (e: Expense) => e.id != list[i].id);
    AggregateRemoveExpense(sales, list, i);
  }

  /** `category?.trim() || 'Без категории'`. */
  function StoredCategory(category: Option<string>): (r: string)
    ensures r != ""
    ensures category.Some? && Trim(category.value) != "" ==> r == Trim(category.value)
    ensures category.None? || Trim(category.value) == "" ==> r == DefaultCategory
  {
    match category
    case Some(c) => if Trim(c) != "" then Trim(c) else DefaultCategory
    case None => DefaultCategory
  }

  /** A category made only of white space is stored as the default one. */
  lemma BlankCategoryIsDefault(c: string)
    requires forall k :: 0 <= k < |c| ==> IsSpace(c[k])
    ensures StoredCategory(Some(c)) == DefaultCategory
  {
    TrimEmptyIff(c);
  }

  /** A stored category is already trimmed, or the default. */
  lemma StoredCategoryTrimmed(category: Option<string>)
    ensures StoredCategory(category) == DefaultCategory || Trim(StoredCategory(category)) == StoredCategory(category)
  {
    if category.Some? {
      TrimIdempotent(category.value);
    }
  }

  /** `b.date.localeCompare(a.date) <= 0`: `a` may stay before `b` when its date is not older. */
  predicate NewerOrSame(a: DayRecord, b: DayRecord)
  {
    !LexLess(a.date, b.date)
  }

  lemma NewerOrSameTotalPreorder()
    ensures TotalPreorder(NewerOrSame)
  {
    forall a: DayRecord, b: DayRecord ensures NewerOrSame(a, b) || NewerOrSame(b, a) {
      if LexLess(a.date, b.date) && LexLess(b.date, a.date) {
        LexLessTransitive(a.date, b.date, a.date);
        LexLessIrreflexive(a.date);
      }
    }
    forall a: DayRecord, b: DayRecord, c: DayRecord | NewerOrSame(a, b) && NewerOrSame(b, c)
      ensures NewerOrSame(a, c)
    {
      if LexLess(a.date, c.date) {
        if a.date == b.date {
        } else {
          LexLessConnected(a.date, b.date);
          LexLessTransitive(b.date, a.date, c.date);
        }
      }
    }
  }

  /** `list.sort((a, b) => b.date.localeCompare(a.date))`. */
  function SortDays(list: seq<DayRecord>): (r: seq<DayRecord>)
    ensures multiset(r) == multiset(list)
  {
    SortBy(list, NewerOrSame)
  }

  /** The sorted list runs from the newest date to the oldest. */
  lemma SortDaysNewestFirst(list: seq<DayRecord>)
    ensures forall i, j :: 0 <= i < j < |SortDays(list)| ==> !LexLess(SortDays(list)[i].date, SortDays(list)[j].date)
  {
    NewerOrSameTotalPreorder();
    SortBySorted(list, NewerOrSame);
  }

  /** Records of one date keep the order the store returned them in. */
  lemma SortDaysStable(list: seq<DayRecord>, date: string)
    ensures Filter(SortDays(list), (d: DayRecord) => d.date == date) == Filter(list, (d: DayRecord) => d.date == date)
  {
    forall a: DayRecord, b: DayRecord | a.date == date && b.date == date ensures NewerOrSame(a, b) {
      LexLessIrreflexive(date);
    }
    SortByStable(list, NewerOrSame, (d: DayRecord) => d.date == date);
  }

  /** Sorting the saved days does not change the period totals. */
  lemma SortDaysKeepsPeriod(list: seq<DayRecord>)
    ensures PeriodTotals(SortDays(list)) == PeriodTotals(list)
  {
    PeriodPermutation(SortDays(list), list);
  }

  class AppSession {
    const remote: Remote
    var date: string
    var sales: seq<Sale>
    var expenses: seq<Expense>
    var loading: bool
    var allDays: seq<DayRecord>

    /** A fresh session on `today`, with nothing entered and nothing loaded. */
    constructor (today: string, remote: Remote)
      ensures this.remote == remote && date == today
      ensures sales == [] && expenses == [] && !loading && allDays == []
    {
      this.remote := remote;
      date, sales, expenses := today, [], [];
      loading, allDays := false, [];
    }

    /** The day's five figures, recomputed from its lines. */
    function DayTotals(): (t: Totals)
      reads this
      ensures Balanced(t)
    {
      Aggregate(sales, expenses)
    }

    /** The period's five figures, from the stored totals of the saved days. */
    function Period(): (t: Totals)
      reads this
      ensures Balanced(t)
    {
      PeriodTotals(allDays)
    }

    /** The record `saveToSheet` sends: the day's lines with their totals. */
    function CurrentRecord(): (r: DayRecord)
      reads this
      ensures r.date == date && SalesOf(r) == sales && ExpensesOf(r) == expenses
      ensures Consistent(r)
      ensures IsEmptyDay(r) <==> sales == [] && expenses == []
    {
      var t := DayTotals();
      DayRecord(date, Some(sales), Some(expenses), Some(t.totalKg), Some(t.totalSales),
                Some(t.totalExpenses), Some(t.profit), Some(t.earnings15))
    }

    method SetDate(d: string)
      modifies this`date
      ensures date == d
    {
      date := d;
    }

    /** Appends a sale line; its weight and revenue join the day's totals. */
    method AddSale(id: string, kg: real, price: real)
      modifies this`sales
      ensures sales == old(sales) + [MakeSale(id, kg, price)]
      ensures DayTotals().totalKg == old(DayTotals()).totalKg + kg
      ensures DayTotals().totalSales == old(DayTotals()).totalSales + kg * price
    {
      AggregateAddSale(sales, expenses, MakeSale(id, kg, price));
      sales := sales + [MakeSale(id, kg, price)];
    }

    method UpdateSale(id: string, patch: SalePatch)
      modifies this`sales
      ensures sales == UpdateSales(old(sales), id, patch)
    {
      sales := UpdateSales(sales, id, patch);
    }

    method DeleteSale(id: string)
      modifies this`sales
      ensures sales == RemoveSale(old(sales), id)
    {
      sales := RemoveSale(sales, id);
    }

    /** Appends an expense line; its amount joins the day's expenses. */
    method AddExpense(id: string, category: Option<string>, amount: real)
      modifies this`expenses
      ensures expenses == old(expenses) + [Expense(id, StoredCategory(category), amount)]
      ensures DayTotals().totalExpenses == old(DayTotals()).totalExpenses + amount
      ensures DayTotals().profit == old(DayTotals()).profit - amount
    {
      var e := Expense(id, StoredCategory(category), amount);
      AggregateAddExpense(sales, expenses, e);
      expenses := expenses + [e];
    }

    method DeleteExpense(id: string)
      modifies this`expenses
      ensures expenses == RemoveExpense(old(expenses), id)
    {
      expenses := RemoveExpense(expenses, id);
    }

    /**
     * Fetches the record of `d`; `reply` is what the store answers. A found
     * record replaces the day, a missing one starts `d` empty, and a failed
     * request leaves the day as it was.
     */
    method LoadFromSheet(d: string, reply: Result<Option<DayRecord>>) returns (o: Outcome)
      modifies this, remote
      ensures remote.log == old(remote.log) + [FetchDay(d)]
      ensures !loading && allDays == old(allDays)
      ensures o.Pass? <==> reply.Success?
      ensures reply.Failure? ==> o == Fail(reply.error) && date == old(date) && sales == old(sales) && expenses == old(expenses)
      ensures reply.Success? && reply.value.Some? ==>
        var rec := reply.value.value;
        date == rec.date && sales == SalesOf(rec) && expenses == ExpensesOf(rec)
      ensures reply.Success? && reply.value.None? ==> date == d && sales == [] && expenses == []
    {
      loading := true;
      remote.Call(FetchDay(d));
      match reply {
        case Failure(e) =>
          o := Fail(e);
        case Success(Some(rec)) =>
          date, sales, expenses := rec.date, SalesOf(rec), ExpensesOf(rec);
          o := Pass;
        case Success(None) =>
          date, sales, expenses := d, [], [];
          o := Pass;
      }
      loading := false;
    }

    /** Fetches every saved day; on success they are kept newest first. */
    method LoadAllDays(reply: Result<seq<DayRecord>>) returns (o: Outcome)
      modifies this, remote
      ensures remote.log == old(remote.log) + [FetchAll]
      ensures !loading && date == old(date) && sales == old(sales) && expenses == old(expenses)
      ensures o.Pass? <==> reply.Success?
      ensures reply.Success? ==> allDays == SortDays(reply.value)
      ensures reply.Failure? ==> o == Fail(reply.error) && allDays == old(allDays)
    {
      loading := true;
      remote.Call(FetchAll);
      match reply {
        case Failure(e) =>
          o := Fail(e);
        case Success(list) =>
          allDays := SortDays(list);
          o := Pass;
      }
      loading := false;
    }

    /**
     * Saves the day, or deletes it from the store when it has no lines, and
     * then reloads all days. `ack` is the store's answer to the write and
     * `reload` its answer to the reload, which is only asked for after a
     * successful write.
     */
    method SaveToSheet(ack: Outcome, reload: Result<seq<DayRecord>>) returns (o: Outcome)
      modifies this, remote
      ensures date == old(date) && sales == old(sales) && expenses == old(expenses) && !loading
      ensures var write := if old(sales) == [] && old(expenses) == [] then DeleteDay(old(date)) else SaveDay(old(CurrentRecord()));
        remote.log == old(remote.log) + [write] + (if ack.Pass? then [FetchAll] else [])
      ensures ack.Fail? ==> o == ack && allDays == old(allDays)
      ensures ack.Pass? && reload.Success? ==> o == Pass && allDays == SortDays(reload.value)
      ensures ack.Pass? && reload.Failure? ==> o == Fail(reload.error) && allDays == old(allDays)
    {
      loading := true;
      if |sales| == 0 && |expenses| == 0 {
        remote.Call(DeleteDay(date));
      } else {
        remote.Call(SaveDay(CurrentRecord()));
      }
      if ack.Fail? {
        o := ack;
      } else {
        o := LoadAllDays(reload);
      }
      loading := false;
    }
  }
}
