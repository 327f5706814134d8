/**
 * The two entry forms of the day screen. Each keeps the raw text of its
 * inputs, reads numbers with the same lenient `num` as the rest of the
 * application, refuses an entry whose figures are not positive (or whose
 * category is blank), and otherwise hands the entry to the session and
 * clears its inputs.
 */
module Forms {
  import opened Wrappers
  import opened Text
  import opened Ledger
  import opened Session

  /** The guard of the sale form: both figures read as positive numbers. */
  predicate SaleAccepted(kgText: string, priceText: string)
  {
    Num(kgText) > 0.0 && Num(priceText) > 0.0
  }

  /** The guard of the expense form: a category that is not blank and a positive amount. */
  predicate ExpenseAccepted(category: string, amountText: string)
  {
    Trim(category) != "" && Num(amountText) > 0.0
  }

  /**
   * An accepted sale (its weight and price both positive, as `SaleAccepted`
   * demands of the figures read) adds its weight and a positive revenue to
   * the day, and leaves the expenses alone.
   */
  lemma AcceptedSaleRaisesTotals(sales: seq<Sale>, expenses: seq<Expense>, id: string, kg: real, price: real)
    requires kg > 0.0 && price > 0.0
    ensures var before, after := Aggregate(sales, expenses), Aggregate(sales + [MakeSale(id, kg, price)], expenses);
      && after.totalKg > before.totalKg
      && after.totalSales > before.totalSales
      && after.profit > before.profit
      && after.totalExpenses == before.totalExpenses
  {
    var x := MakeSale(id, kg, price);
    AggregateAddSale(sales, expenses, x);
    assert Revenue(x) > 0.0;
  }

  /** A leading minus sign is dropped by `num`, so a "negative" weight is accepted as its absolute value. */
  lemma MinusSignIgnored(kgText: string, priceText: string)
    ensures SaleAccepted("-" + kgText, priceText) <==> SaleAccepted(kgText, priceText)
    ensures SaleAccepted(kgText, "-" + priceText) <==> SaleAccepted(kgText, priceText)
  {
    NumDropsMinus(kgText);
    NumDropsMinus(priceText);
  }

  /** An accepted expense is stored under its trimmed category, never the default one unless typed so. */
  lemma AcceptedExpenseCategory(category: string, amountText: string)
    requires ExpenseAccepted(category, amountText)
    ensures StoredCategory(Some(category)) == Trim(category)
  {
  }

  /** A category of spaces only is refused. */
  lemma BlankCategoryRefused(category: string, amountText: string)
    requires forall k :: 0 <= k < |category| ==> IsSpace(category[k])
    ensures !ExpenseAccepted(category, amountText)
  {
    TrimEmptyIff(category);
  }

  /** An accepted expense raises the day's spending by its amount and lowers the profit by the same. */
  lemma AcceptedExpenseLowersProfit(sales: seq<Sale>, expenses: seq<Expense>, id: string, category: string, amountText: string)
    requires ExpenseAccepted(category, amountText)
    ensures var before, after := Aggregate(sales, expenses), Aggregate(sales, expenses + [Expense(id, Trim(category), Num(amountText))]);
      && after.totalExpenses > before.totalExpenses
      && after.profit < before.profit
      && after.totalSales == before.totalSales
  {
    AggregateAddExpense(sales, expenses, Expense(id, Trim(category), Num(amountText)));
  }

  /** The sale form: the text typed into the weight and price inputs. */
  class SaleForm {
    var kgText: string
    var priceText: string

    constructor ()
      ensures kgText == "" && priceText == ""
    {
      kgText := "";
      priceText := "";
    }

    /** Typing into the weight input. */
    method TypeKg(text: string)
      modifies this`kgText
      ensures kgText == text
    {
      kgText := text;
    }

    /** Typing into the price input. */
    method TypePrice(text: string)
      modifies this`priceText
      ensures priceText == text
    {
      priceText := text;
    }

    /** The add button: a refused entry changes nothing; an accepted one is appended to the day and the inputs clear. */
    method HandleAdd(app: AppSession, id: string) returns (added: bool)
      modifies this, app`sales
      ensures added <==> SaleAccepted(old(kgText), old(priceText))
      ensures added ==> app.sales == old(app.sales) + [MakeSale(id, Num(old(kgText)), Num(old(priceText)))]
      ensures added ==> kgText == "" && priceText == ""
      ensures !added ==> app.sales == old(app.sales) && kgText == old(kgText) && priceText == old(priceText)
    {
      var kg := Num(kgText);
      var price := Num(priceText);
      if kg <= 0.0 || price <= 0.0 {
        return false;
      }
      Submit(app, id, kg, price);
      added := true;
    }

    /** Hands an accepted entry to the session and clears both inputs. */
    method Submit(app: AppSession, id: string, kg: real, price: real)
      modifies this, app`sales
      ensures app.sales == old(app.sales) + [MakeSale(id, kg, price)]
      ensures kgText == "" && priceText == ""
    {
      app.AddSale(id, kg, price);
      kgText := "";
      priceText := "";
    }

    /** Editing a row's weight in place: the text is read with `num` and patched into that row only. */
    method EditKg(app: AppSession, id: string, text: string)
      modifies app`sales
      ensures app.sales == UpdateSales(old(app.sales), id, SalePatch(Some(Num(text)), None))
    {
      app.UpdateSale(id, SalePatch(Some(Num(text)), None));
    }

    /** Editing a row's price in place. */
    method EditPrice(app: AppSession, id: string, text: string)
      modifies app`sales
      ensures app.sales == UpdateSales(old(app.sales), id, SalePatch(None, Some(Num(text))))
    {
      app.UpdateSale(id, SalePatch(None, Some(Num(text))));
    }

    /** The delete button of a row. */
    method Delete(app: AppSession, id: string)
      modifies app`sales
      ensures app.sales == RemoveSale(old(app.sales), id)
    {
      app.DeleteSale(id);
    }
  }

  /** The expense form: the text typed into the category and amount inputs. */
  class ExpenseForm {
    var category: string
    var amountText: string

    constructor ()
      ensures category == "" && amountText == ""
    {
      category := "";
      amountText := "";
    }

    /** Typing into the category input. */
    method TypeCategory(text: string)
      modifies this`category
      ensures category == text
    {
      category := text;
    }

    /** Typing into the amount input. */
    method TypeAmount(text: string)
      modifies this`amountText
      ensures amountText == text
    {
      amountText := text;
    }

    /**
     * The add button: a blank category or a non-positive amount changes
     * nothing; otherwise the category goes to the session as typed (which
     * trims it) and the inputs clear.
     */
    method HandleAdd(app: AppSession, id: string) returns (added: bool)
      modifies this, app`expenses
      ensures added <==> ExpenseAccepted(old(category), old(amountText))
      ensures added ==> app.expenses == old(app.expenses) + [Expense(id, Trim(old(category)), Num(old(amountText)))]
      ensures added ==> category == "" && amountText == ""
      ensures !added ==> app.expenses == old(app.expenses) && category == old(category) && amountText == old(amountText)
    {
      var amount := Num(amountText);
      if Trim(category) == "" || amount <= 0.0 {
        return false;
      }
      Submit(app, id, category, amount);
      added := true;
    }

    /** Hands an accepted entry to the session, category as typed, and clears both inputs. */
    method Submit(app: AppSession, id: string, typed: string, amount: real)
      requires Trim(typed) != ""
      modifies this, app`expenses
      ensures app.expenses == old(app.expenses) + [Expense(id, Trim(typed), amount)]
      ensures category == "" && amountText == ""
    {
      app.AddExpense(id, Some(typed), amount);
      category := "";
      amountText := "";
    }

    /** The delete button of a row. */
    method Delete(app: AppSession, id: string)
      modifies app`expenses
      ensures app.expenses == RemoveExpense(old(app.expenses), id)
    {
      app.DeleteExpense(id);
    }
  }
}
