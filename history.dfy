/**
 * The history page: an editable copy of every saved day, keyed as in
 * `Reconcile`, with row edits that recompute a day's totals, per-day save
 * and delete, and the expanded/collapsed state of each day card.
 */
module History {
  import opened Wrappers
  import opened Seqs
  import opened Ledger
  import opened Reconcile
  import opened Session

  /** The two partial records the page ever merges into a day: new sale lines or new expense lines. */
  datatype RecPatch = SalesPatch(sales: seq<Sale>) | ExpensesPatch(expenses: seq<Expense>)

  /** The record `setRec` starts from when `key` has none: its date and nothing else. */
  function BlankRecord(key: string): (r: DayRecord)
    ensures r.date == Base(key) && IsEmptyDay(r)
  {
    var r := DayRecord(Base(key), Some([]), Some([]), Some(0.0), Some(0.0), Some(0.0), Some(0.0), Some(0.0));
    assert SalesOf(r) == [] && ExpensesOf(r) == [];
    AggregateEmpty();
    r
  }

  /** `m[key] || blank`. */
  function StartRecord(m: map<string, DayRecord>, key: string): (r: DayRecord)
    ensures r.date == (if key in m then m[key].date else Base(key))
    ensures r.sales == (if key in m then m[key].sales else Some([]))
    ensures r.expenses == (if key in m then m[key].expenses else Some([]))
  {
    if key in m then m[key] else BlankRecord(key)
  }

  /** `{ ...start, ...patch }`. */
  function Merge(start: DayRecord, patch: RecPatch): (r: DayRecord)
    ensures r.date == start.date
    ensures patch.SalesPatch? ==> r.sales == Some(patch.sales) && r.expenses == start.expenses
    ensures patch.ExpensesPatch? ==> r.expenses == Some(patch.expenses) && r.sales == start.sales
  {
    match patch
    case SalesPatch(s) => start.(sales := Some(s))
    case ExpensesPatch(e) => start.(expenses := Some(e))
  }

  /** `recalcTotals({ ...(m[key] || blank), ...patch })`. */
  function ApplyRec(m: map<string, DayRecord>, key: string, patch: RecPatch): (r: DayRecord)
    ensures Consistent(r)
    ensures r.date == (if key in m then m[key].date else Base(key))
    ensures r.sales == (if patch.SalesPatch? then Some(patch.sales) else StartRecord(m, key).sales)
    ensures r.expenses == (if patch.ExpensesPatch? then Some(patch.expenses) else StartRecord(m, key).expenses)
  {
    RecalcTotals(Merge(StartRecord(m, key), patch))
  }

  /** Which number of a sale row an edit sets. */
  datatype SaleField = KgField | PriceField

  /** `{ ...row, [field]: value }` with the row total recomputed. */
  function SetSaleField(s: Sale, field: SaleField, v: real): (r: Sale)
    ensures r.id == s.id && LineConsistent(r)
    ensures field == KgField ==> r.kg == v && r.price == s.price
    ensures field == PriceField ==> r.price == v && r.kg == s.kg
  {
    match field
    case KgField => MakeSale(s.id, v, s.price)
    case PriceField => MakeSale(s.id, s.kg, v)
  }

  /** Editing a number on the history page changes a line exactly as the day screen's edit does. */
  lemma SetSaleFieldIsPatch(s: Sale, field: SaleField, v: real)
    ensures SetSaleField(s, field, v)
      == PatchSale(s, if field == KgField then SalePatch(Some(v), None) else SalePatch(None, Some(v)))
  {
  }

  /** An edit of an expense row: a new category text, or a new amount. */
  datatype ExpenseEdit = SetCategory(category: string) | SetAmount(amount: real)

  function EditExpense(e: Expense, edit: ExpenseEdit): (r: Expense)
    ensures r.id == e.id
    ensures edit.SetCategory? ==> r.category == edit.category && r.amount == e.amount
    ensures edit.SetAmount? ==> r.amount == edit.amount && r.category == e.category
  {
    match edit
    case SetCategory(c) => e.(category := c)
    case SetAmount(a) => e.(amount := a)
  }

  /** A blank sale row (0 kg at 0) changes none of the day's figures. */
  lemma BlankSaleRowKeepsFigures(sales: seq<Sale>, expenses: seq<Expense>, id: string)
    ensures Aggregate(sales + [Sale(id, 0.0, 0.0, 0.0)], expenses) == Aggregate(sales, expenses)
  {
    var x := Sale(id, 0.0, 0.0, 0.0);
    assert SumBy(sales + [x], Kg) == SumBy(sales, Kg) && SumBy(sales + [x], Revenue) == SumBy(sales, Revenue) by {
      SumByAppend(sales, x, Kg);
      SumByAppend(sales, x, Revenue);
      assert Kg(x) == 0.0 && Revenue(x) == 0.0;
    }
  }

  /** A blank expense row (amount 0) changes none of the day's figures. */
  lemma BlankExpenseRowKeepsFigures(sales: seq<Sale>, expenses: seq<Expense>, id: string)
    ensures Aggregate(sales, expenses + [Expense(id, DefaultCategory, 0.0)]) == Aggregate(sales, expenses)
  {
    var x := Expense(id, DefaultCategory, 0.0);
    assert SumBy(expenses + [x], Amount) == SumBy(expenses, Amount) by {
      SumByAppend(expenses, x, Amount);
    }
  }

  /** Editing an expense's category changes none of the day's figures. */
  lemma CategoryEditKeepsFigures(sales: seq<Sale>, expenses: seq<Expense>, idx: nat, c: string)
    requires idx < |expenses|
    ensures Aggregate(sales, expenses[idx := EditExpense(expenses[idx], SetCategory(c))]) == Aggregate(sales, expenses)
  {
    SumByUpdateAt(expenses, idx, EditExpense(expenses[idx], SetCategory(c)), Amount);
  }

  /** `!m[key]`, stored back under `key`: a missing entry counts as collapsed. */
  function Toggle(m: map<string, bool>, key: string): (r: map<string, bool>)
    ensures key in r && r[key] == !(key in m && m[key])
    ensures forall k :: k in m && k != key ==> k in r && r[k] == m[k]
  {
    m[key := !(key in m && m[key])]
  }

  /** Toggling a card twice shows it as it was. */
  lemma ToggleTwice(m: map<string, bool>, key: string)
    ensures var r := Toggle(Toggle(m, key), key); r[key] == (key in m && m[key])
  {
  }

  /** Storing under a key keeps a map and its distinct key list in step, appending the key when it is new. */
  lemma KeyListAfterStore(m: map<string, DayRecord>, keys: seq<string>, key: string, v: DayRecord)
    requires (forall k :: k in m <==> k in keys) && Distinct(keys)
    ensures var keys' := if key !in m then keys + [key] else keys;
      (forall k :: k in m[key := v] <==> k in keys') && Distinct(keys')
  {
  }

  class HistoryView {
    const app: AppSession
    var editable: map<string, DayRecord>
    /** `Object.keys(editable)`: the keys in insertion order. */
    var order: seq<string>
    var saving: map<string, bool>
    var expanded: map<string, bool>

    /** The key list names each key of the map exactly once. */
    ghost predicate Valid()
      reads this
    {
      (forall k :: k in editable <==> k in order) && Distinct(order)
    }

    /** The page as first shown: built from the saved days the session already holds. */
    constructor (app: AppSession)
      ensures this.app == app && Valid()
      ensures editable == EditableMap(app.allDays) && order == KeyOrder(app.allDays)
      ensures saving == map[] && expanded == map[]
    {
      this.app := app;
      saving := map[];
      new;
      editable, order := BuildEditable(app.allDays);
      expanded := map[];
      EditableMapKeys(app.allDays);
    }

    /** The day cards in display order. */
    function Dates(): (r: seq<string>)
      reads this
      ensures Valid() ==> |r| == |editable| && forall k :: k in editable <==> k in r
    {
      DatesListEachKey(order, editable);
      Reconcile.Dates(order)
    }

    /** The effect run whenever the saved days change: rebuild the buffers and collapse every card. */
    method Sync()
      modifies this`editable, this`order, this`expanded
      ensures editable == EditableMap(app.allDays) && order == KeyOrder(app.allDays)
      ensures expanded == map[] && Valid()
    {
      editable, order := BuildEditable(app.allDays);
      expanded := map[];
      EditableMapKeys(app.allDays);
    }

    /** `setRec(key, patch)`: merge the patch into the day and recompute its totals. */
    method SetRec(key: string, patch: RecPatch)
      requires Valid()
      modifies this`editable, this`order
      ensures editable == old(editable)[key := ApplyRec(old(editable), key, patch)]
      ensures order == if key in old(editable) then old(order) else old(order) + [key]
      ensures Valid()
    {
      var isNew := key !in editable;
      var rec := ApplyRec(editable, key, patch);
      KeyListAfterStore(editable, order, key, rec);
      order := if isNew then order + [key] else order;
      editable := editable[key := rec];
    }

    method AddSaleRow(key: string, id: string)
      requires Valid() && key in editable
      modifies this`editable, this`order
      ensures editable == old(editable)[key := ApplyRec(old(editable), key, SalesPatch(SalesOf(old(editable)[key]) + [Sale(id, 0.0, 0.0, 0.0)]))]
      ensures order == old(order) && Valid()
    {
      SetRec(key, SalesPatch(SalesOf(editable[key]) + [Sale(id, 0.0, 0.0, 0.0)]));
    }

    /** Sets the weight or the price of row `idx`; that row's total and the day's totals follow. */
    method UpdateSaleRow(key: string, idx: nat, field: SaleField, v: real)
      requires Valid() && key in editable && idx < |SalesOf(editable[key])|
      modifies this`editable, this`order
      ensures var lines := SalesOf(old(editable)[key]);
        editable == old(editable)[key := ApplyRec(old(editable), key, SalesPatch(lines[idx := SetSaleField(lines[idx], field, v)]))]
      ensures order == old(order) && Valid()
    {
      var next := SalesOf(editable[key]);
      next := next[idx := SetSaleField(next[idx], field, v)];
      SetRec(key, SalesPatch(next));
    }

    /** `splice(idx, 1)` on the sale rows. */
    method DeleteSaleRow(key: string, idx: nat)
      requires Valid() && key in editable && idx < |SalesOf(editable[key])|
      modifies this`editable, this`order
      ensures var lines := SalesOf(old(editable)[key]);
        editable == old(editable)[key := ApplyRec(old(editable), key, SalesPatch(lines[..idx] + lines[idx + 1..]))]
      ensures order == old(order) && Valid()
    {
      var next := SalesOf(editable[key]);
      next := next[..idx] + next[idx + 1..];
      SetRec(key, SalesPatch(next));
    }

    method AddExpenseRow(key: string, id: string)
      requires Valid() && key in editable
      modifies this`editable, this`order
      ensures editable == old(editable)[key := ApplyRec(old(editable), key, ExpensesPatch(ExpensesOf(old(editable)[key]) + [Expense(id, DefaultCategory, 0.0)]))]
      ensures order == old(order) && Valid()
    {
      SetRec(key, ExpensesPatch(ExpensesOf(editable[key]) + [Expense(id, DefaultCategory, 0.0)]));
    }

    method UpdateExpenseRow(key: string, idx: nat, edit: ExpenseEdit)
      requires Valid() && key in editable && idx < |ExpensesOf(editable[key])|
      modifies this`editable, this`order
      ensures var lines := ExpensesOf(old(editable)[key]);
        editable == old(editable)[key := ApplyRec(old(editable), key, ExpensesPatch(lines[idx := EditExpense(lines[idx], edit)]))]
      ensures order == old(order) && Valid()
    {
      var next := ExpensesOf(editable[key]);
      next := next[idx := EditExpense(next[idx], edit)];
      SetRec(key, ExpensesPatch(next));
    }

    method DeleteExpenseRow(key: string, idx: nat)
      requires Valid() && key in editable && idx < |ExpensesOf(editable[key])|
      modifies this`editable, this`order
      ensures var lines := ExpensesOf(old(editable)[key]);
        editable == old(editable)[key := ApplyRec(old(editable), key, ExpensesPatch(lines[..idx] + lines[idx + 1..]))]
      ensures order == old(order) && Valid()
    {
      var next := ExpensesOf(editable[key]);
      next := next[..idx] + next[idx + 1..];
      SetRec(key, ExpensesPatch(next));
    }

    method ToggleExpand(key: string)
      modifies this`expanded
      ensures expanded == Toggle(old(expanded), key)
    {
      expanded := Toggle(expanded, key);
    }

    /** `await loadAllDays()` and the rebuild it triggers when the saved days change. */
    method Reload(reload: Result<seq<DayRecord>>) returns (o: Outcome)
      requires Valid()
      modifies this`editable, this`order, this`expanded, app, app.remote
      ensures app.remote.log == old(app.remote.log) + [FetchAll]
      ensures app.date == old(app.date) && app.sales == old(app.sales) && app.expenses == old(app.expenses)
      ensures !app.loading
      ensures o == (if reload.Success? then Pass else Fail(reload.error))
      ensures o.Pass? ==>
        && app.allDays == SortDays(reload.value) && expanded == map[]
        && editable == EditableMap(app.allDays) && order == KeyOrder(app.allDays)
      ensures o.Fail? ==>
        && app.allDays == old(app.allDays) && expanded == old(expanded)
        && editable == old(editable) && order == old(order)
      ensures Valid()
    {
      o := app.LoadAllDays(reload);
      if o.Pass? {
        Sync();
      }
    }

    /**
     * Sends `write` to the store for the day under `key` and, once the store
     * has accepted it, reloads; `saving[key]` is set for the duration.
     * `ack` is the store's answer to the write.
     */
    method Commit(key: string, write: Effect, ack: Outcome, reload: Result<seq<DayRecord>>) returns (o: Outcome)
      requires Valid()
      modifies this, app, app.remote
      ensures saving == old(saving)[key := false]
      ensures app.remote.log == old(app.remote.log) + [write] + (if ack.Pass? then [FetchAll] else [])
      ensures app.date == old(app.date) && app.sales == old(app.sales) && app.expenses == old(app.expenses)
      ensures app.loading == (ack.Fail? && old(app.loading))
      ensures ack.Fail? ==> o == ack
      ensures ack.Pass? ==> o == (if reload.Success? then Pass else Fail(reload.error))
      ensures o.Pass? ==>
        && app.allDays == SortDays(reload.value) && expanded == map[]
        && editable == EditableMap(app.allDays) && order == KeyOrder(app.allDays)
      ensures o.Fail? ==>
        && app.allDays == old(app.allDays) && expanded == old(expanded)
        && editable == old(editable) && order == old(order)
      ensures Valid()
    {
      var flags := saving;
      saving := flags[key := true];
      app.remote.Call(write);
      o := Settle(ack, reload);
      saving := flags[key := false];
    }

    /** What follows the store's answer to a write: a reload when it was accepted, nothing otherwise. */
    method Settle(ack: Outcome, reload: Result<seq<DayRecord>>) returns (o: Outcome)
      requires Valid()
      modifies this`editable, this`order, this`expanded, app, app.remote
      ensures app.remote.log == old(app.remote.log) + (if ack.Pass? then [FetchAll] else [])
      ensures app.date == old(app.date) && app.sales == old(app.sales) && app.expenses == old(app.expenses)
      ensures app.loading == (ack.Fail? && old(app.loading))
      ensures ack.Fail? ==> o == ack
      ensures ack.Pass? ==> o == (if reload.Success? then Pass else Fail(reload.error))
      ensures o.Pass? ==>
        && app.allDays == SortDays(reload.value) && expanded == map[]
        && editable == EditableMap(app.allDays) && order == KeyOrder(app.allDays)
      ensures o.Fail? ==>
        && app.allDays == old(app.allDays) && expanded == old(expanded)
        && editable == old(editable) && order == old(order)
      ensures Valid()
    {
      o := ack;
      if ack.Pass? {
        o := Reload(reload);
      }
    }

    /**
     * Saves the day under `key` with recomputed totals and under the date
     * part of the key, or deletes that date when the day has no lines.
     */
    method HandleSaveDay(key: string, ack: Outcome, reload: Result<seq<DayRecord>>) returns (o: Outcome)
      requires Valid() && key in editable
      modifies this, app, app.remote
      ensures saving == old(saving)[key := false]
      ensures var rec, date := RecalcTotals(old(editable)[key]), Base(key);
        var write := if IsEmptyDay(rec) then DeleteDay(date) else SaveDay(rec.(date := date));
        app.remote.log == old(app.remote.log) + [write] + (if ack.Pass? then [FetchAll] else [])
      ensures app.date == old(app.date) && app.sales == old(app.sales) && app.expenses == old(app.expenses)
      ensures app.loading == (ack.Fail? && old(app.loading))
      ensures ack.Fail? ==> o == ack
      ensures ack.Pass? ==> o == (if reload.Success? then Pass else Fail(reload.error))
      ensures o.Pass? ==>
        && app.allDays == SortDays(reload.value) && expanded == map[]
        && editable == EditableMap(app.allDays) && order == KeyOrder(app.allDays)
      ensures o.Fail? ==>
        && app.allDays == old(app.allDays) && expanded == old(expanded)
        && editable == old(editable) && order == old(order)
      ensures Valid()
    {
      var rec, date := RecalcTotals(editable[key]), Base(key);
      var write := if IsEmptyDay(rec) then DeleteDay(date) else SaveDay(rec.(date := date));
      o := Commit(key, write, ack, reload);
    }

    /** Deletes the date part of `key` from the store. */
    method HandleDeleteDay(key: string, ack: Outcome, reload: Result<seq<DayRecord>>) returns (o: Outcome)
      requires Valid()
      modifies this, app, app.remote
      ensures saving == old(saving)[key := false]
      ensures app.remote.log == old(app.remote.log) + [DeleteDay(Base(key))] + (if ack.Pass? then [FetchAll] else [])
      ensures app.date == old(app.date) && app.sales == old(app.sales) && app.expenses == old(app.expenses)
      ensures app.loading == (ack.Fail? && old(app.loading))
      ensures ack.Fail? ==> o == ack
      ensures ack.Pass? ==> o == (if reload.Success? then Pass else Fail(reload.error))
      ensures o.Pass? ==>
        && app.allDays == SortDays(reload.value) && expanded == map[]
        && editable == EditableMap(app.allDays) && order == KeyOrder(app.allDays)
      ensures o.Fail? ==>
        && app.allDays == old(app.allDays) && expanded == old(expanded)
        && editable == old(editable) && order == old(order)
      ensures Valid()
    {
      o := Commit(key, DeleteDay(Base(key)), ack, reload);
    }
  }
}
