# fishapp ledger — a Dafny model

This project models the rules of a small daily ledger for a fish seller. A
day is a list of sale lines (weight, price per kilogram, line total) and a
list of expense lines (category, amount), with five derived figures: total
weight, revenue, total expenses, profit and a 15 % earnings share. Days are
kept in a spreadsheet behind a serverless relay. The browser holds the day
being entered, the list of all saved days, and a history editor with one
editable copy per saved day.

Modules, one per concern of the program:

- `Wrappers`: `Option`, `Result` and the `Outcome` of a remote call.
- `Seqs`: `reduce`-style sums (`SumBy`) and `filter`, with their algebra.
- `Sorting`: a stable insertion sort with a comparator. `Array.prototype.sort`
  is stable, and both sorts in the program use it.
- `Text`: the lenient number reader `num`, `trim`, decimal rendering of
  counters, and code-point order on strings.
- `Ledger`: sale and expense lines, the day record, the totals formulas
  (`totals`, `recalcTotals`) and the period totals (`period`).
- `Session`: the application context as a class `AppSession` over a `Remote`
  store that logs every call. Covers adding, editing and deleting lines,
  loading a day, loading all days, and saving.
- `Reconcile`: how the history editor keys its copies (`date`, `date#2`, …)
  and the order it shows them in.
- `History`: the history editor as a class `HistoryView`. Covers the record
  patch `setRec`, row edits, saving or deleting a day, and rebuilding after a
  reload.
- `Forms`: the sale and expense entry forms, with their guards and resets.
- `Csv`: the history download. Covers quoting, joining, the eight-column
  table, a reader for that exact form, and the round trip.
- `Proxy`: the relay's request handling. Covers the preflight, the missing
  configuration, finding the action, the forwarded body, and wrapping the
  upstream reply.

Amounts are exact reals. The remote store, `JSON.parse`/`JSON.stringify`,
`encodeURIComponent`, `String` on numbers and the id generator are
parameters. Every answer of the store is an argument of the method that
waits for it, and every call the program makes is appended to
`Remote.log` as `SaveDay(record)`, `DeleteDay(date)`, `FetchDay(date)` or
`FetchAll`.

Where the written design and the code differ, the model follows the code:

- Period profit and earnings are derived from the summed revenue and
  expenses (src/context/AppContext.tsx:153-154). They are not sums of the
  stored per-day figures. The two agree only on days whose stored totals
  are consistent (`Ledger.PeriodOfConsistentDays`).
- The history editor stores any category typed into a row, including an
  empty one (src/pages/HistoryPage.tsx:91). Only the entry form refuses a
  blank category.
- Duplicate dates are told apart by a numeric suffix. A date that itself
  contains `#` can still collide with a generated key and lose a record
  (`Reconcile.HashInDateLosesRecord`). ISO dates never contain `#`.

## Model

| member | source | states |
|---|---|---|
| Text.Strip | src/pages/HistoryPage.tsx:7 | `replace(/[^0-9.]/g, '')` keeps only digits and dots and never lengthens the text |
| Text.StripDropsJunk | src/pages/HistoryPage.tsx:7 | digits and dots followed by text holding neither strip to the digits and dots alone |
| Text.Num | src/pages/HistoryPage.tsx:6-9 | `num` never returns a negative number |
| Text.NumReadsOnlyKept | src/components/ExpenseList.tsx:9-12 | the value read depends only on the digits and dots of the text |
| Text.NumEdgeCases | src/components/SaleList.tsx:5-6 | empty text, a lone dot and text without digits all read as 0 |
| Text.NumTwoDots | src/pages/HistoryPage.tsx:7-8 | `1.2.3` is not a number after stripping and reads as 0 |
| Text.ParseNumber | src/pages/HistoryPage.tsx:7 | `Number` of the stripped text is never negative when it is a number |
| Text.ParseNumberDecimal | src/pages/HistoryPage.tsx:7 | digits around one dot read as the whole part plus the fraction |
| Text.NumOfDecimalAmidText | src/pages/HistoryPage.tsx:7 | characters other than digits and dots around a decimal do not change its value |
| Text.NumIgnoresLetters | src/pages/HistoryPage.tsx:7 | `12.3abc` reads as 12.3 |
| Text.NumDropsMinus | src/pages/HistoryPage.tsx:7 | a leading minus sign is stripped, so `-x` reads as `x` |
| Text.NatToStringRoundTrip | src/pages/HistoryPage.tsx:42 | the decimal suffix of a key reads back as its occurrence count |
| Text.NatToStringInjective | src/pages/HistoryPage.tsx:42 | different counts give different suffixes |
| Text.NumOfNatToString | src/pages/HistoryPage.tsx:54-55 | `Number` of a generated suffix is the count it was made from |
| Text.Trim | src/context/AppContext.tsx:87 | `trim()` leaves text that is empty or starts and ends with a character other than white space |
| Text.TrimEmptyIff | src/components/ExpenseList.tsx:16 | the trimmed text is empty exactly when every character is whitespace |
| Text.TrimIdempotent | src/context/AppContext.tsx:87 | trimming twice is trimming once |
| Text.TrimIsInfix | src/context/AppContext.tsx:87 | the trimmed text is a slice of the input with only whitespace cut off at both ends |
| Text.TrimBounds | src/context/AppContext.tsx:87 | gives the start and end of the trimmed text inside the input, with only whitespace before the start and after the end |
| Text.LexLessTransitive | src/context/AppContext.tsx:142 | the date order is transitive |
| Text.LexLessAsymmetric | src/pages/HistoryPage.tsx:52 | no two dates each sort before the other |
| Text.LexLessConnected | src/context/AppContext.tsx:142 | any two different dates are ordered one way or the other |
| Text.LexLessIrreflexive | src/pages/HistoryPage.tsx:52 | no date sorts before itself |
| Seqs.SumByPermutation | src/context/AppContext.tsx:55-57 | a `reduce` sum does not depend on the order of the lines |
| Seqs.SumByRemoveAt | src/pages/HistoryPage.tsx:79 | removing one line lowers a sum by exactly that line's term |
| Seqs.SumByUpdateAt | src/pages/HistoryPage.tsx:73 | replacing one line changes a sum by the difference of the two terms |
| Seqs.Filter | src/context/AppContext.tsx:82 | `filter` keeps only passing elements, in their original order, and drops exactly the failing ones |
| Seqs.FilterRemoveAt | src/context/AppContext.tsx:91 | when one element alone fails, `filter` removes exactly that element |
| Seqs.FilterKeeps | src/context/AppContext.tsx:82 | every passing element survives `filter` |
| Sorting.SortBySorted | src/context/AppContext.tsx:142 | the sort returns its input ordered by the comparator, when the comparator is a total preorder |
| Sorting.SortByStable | src/context/AppContext.tsx:142 | elements the comparator cannot tell apart keep their original order |
| Sorting.SortedPrecedes | src/pages/HistoryPage.tsx:49 | in a sorted list an element strictly before another in the order sits at a smaller index |
| Ledger.MakeSale | src/context/AppContext.tsx:63-68 | a new line has the given id, weight and price, and total = weight × price |
| Ledger.Aggregate | src/context/AppContext.tsx:54-61 | profit = revenue − expenses and earnings = 0.15 × revenue |
| Ledger.AggregateExample | src/context/AppContext.tsx:54-61 | 10 kg at 500 plus 2.5 kg at 800, with 1000 spent, give 12.5 kg, 7000, 1000, 6000 and 1050 |
| Ledger.AggregateEmpty | src/context/AppContext.tsx:54-61 | an empty day has all five figures 0 |
| Ledger.EarningsIgnoreExpenses | src/context/AppContext.tsx:59 | revenue and earnings depend only on the sales |
| Ledger.ProfitCanBeNegative | src/context/AppContext.tsx:58 | expenses above revenue give a negative profit |
| Ledger.AggregateNonNegative | src/context/AppContext.tsx:54-61 | with non-negative weights, prices and amounts, every sum is non-negative |
| Ledger.AggregateAddSale | src/context/AppContext.tsx:63-68 | appending a line adds its weight and revenue to the totals and leaves the expenses alone |
| Ledger.AggregateAddExpense | src/context/AppContext.tsx:85-88 | appending an expense adds its amount to the expenses and subtracts it from the profit |
| Ledger.AggregateRemoveSale | src/pages/HistoryPage.tsx:76-81 | deleting row i subtracts its weight and revenue |
| Ledger.AggregateRemoveExpense | src/pages/HistoryPage.tsx:95-100 | deleting expense row i subtracts its amount |
| Ledger.AggregateReplaceSale | src/pages/HistoryPage.tsx:68-75 | replacing row i changes the totals by the difference between the old and new line |
| Ledger.AggregatePermutation | src/context/AppContext.tsx:54-61 | the totals do not depend on line order |
| Ledger.RecalcTotals | src/pages/HistoryPage.tsx:20-27 | keeps date and both lists and sets the five figures to the totals of the lists |
| Ledger.RecalcFixpoint | src/pages/HistoryPage.tsx:20-27 | recalculating leaves a record unchanged exactly when its stored figures already match its lines |
| Ledger.ConsistentSumsMatch | src/pages/HistoryPage.tsx:21-23 | a recalculated record stores the sums of its lines |
| Ledger.PeriodTotals | src/context/AppContext.tsx:149-156 | period profit = period revenue − period expenses, earnings = 0.15 × period revenue |
| Ledger.PeriodPermutation | src/context/AppContext.tsx:149-156 | the period totals do not depend on the order of the days |
| Ledger.PeriodSumsMatchLines | src/context/AppContext.tsx:150-152 | over days that store their line sums, the period sums equal the sums over all lines of all days |
| Ledger.PeriodOfConsistentDays | src/context/AppContext.tsx:149-156 | over recalculated days, the period totals are the totals of all lines of all days |
| Ledger.SameSumsSameTotals | src/context/AppContext.tsx:149-156 | period sums equal to the line sums give the period totals of all lines together |
| Ledger.PeriodAddDay | src/context/AppContext.tsx:150-152 | one more day adds its stored weight, revenue and expenses to the period |
| Reconcile.BuildEditable | src/pages/HistoryPage.tsx:36-44 | the loop with its `seen` counter builds exactly the key map and key order defined by occurrence counting |
| Reconcile.CountStep | src/pages/HistoryPage.tsx:41 | one more record adds one to the count of its own date and nothing to any other |
| Reconcile.BuildStep | src/pages/HistoryPage.tsx:40-43 | the n-th record of a date is stored under `KeyFor(date, n)`, and that key is appended to the order when new |
| Reconcile.KeyFor | src/pages/HistoryPage.tsx:42 | a key starts with its date and is the bare date exactly for the first occurrence |
| Reconcile.KeyAt | src/pages/HistoryPage.tsx:40-42 | a record's key is its bare date exactly when it is the first record with that date |
| Reconcile.EditableMap | src/pages/HistoryPage.tsx:36-44 | the map holds at most one entry per record |
| Reconcile.KeyOrder | src/pages/HistoryPage.tsx:39-44 | the keys of the map, in insertion order, are all different and at most one per record |
| Reconcile.FirstOccurrence | src/pages/HistoryPage.tsx:41 | a record's count is at least 1, and exactly 1 when no earlier record has its date |
| Reconcile.OccurrenceIncreases | src/pages/HistoryPage.tsx:41 | a later record with the same date gets a larger count |
| Reconcile.KeyAtParts | src/pages/HistoryPage.tsx:42 | splitting a key at `#` gives the record's date, and its suffix (bare = 1) gives its count |
| Reconcile.KeysDistinct | src/pages/HistoryPage.tsx:42 | two different records get two different keys when no date contains `#` |
| Reconcile.KeyOrderOfRecords | src/pages/HistoryPage.tsx:39-44 | one key per record, in input order |
| Reconcile.EditableMapKeys | src/pages/HistoryPage.tsx:43 | the map's keys are exactly the listed keys |
| Reconcile.EditableMapLookup | src/pages/HistoryPage.tsx:43 | every record is stored under its own key |
| Reconcile.HashInDateLosesRecord | src/pages/HistoryPage.tsx:42-43 | dates `a#2`, `a`, `a`: the third key equals the first and the first record is lost |
| Reconcile.Base | src/pages/HistoryPage.tsx:50-51 | the part before the first `#` is a prefix of the key without `#`, the whole key when it has none |
| Reconcile.Suffix | src/pages/HistoryPage.tsx:54-55 | there is a suffix exactly when the key holds `#`; it has no `#` and the key is base, `#`, suffix and possibly more |
| Reconcile.Rank | src/pages/HistoryPage.tsx:54-55 | the rank is never negative and is 1 for a key without `#` |
| Reconcile.KeyLe | src/pages/HistoryPage.tsx:49-57 | keys with different dates compare newest date first |
| Reconcile.KeyLeTotalPreorder | src/pages/HistoryPage.tsx:49-57 | the comparator is a total preorder |
| Reconcile.Dates | src/pages/HistoryPage.tsx:49-57 | the display list is a permutation of the keys, sorted by the comparator |
| Reconcile.DatesListEachKey | src/pages/HistoryPage.tsx:49 | the display list has one entry per key of the map |
| Reconcile.DisplayOrder | src/pages/HistoryPage.tsx:49-57 | a newer date is shown before an older one, and copies of one date in their input order |
| Session.PatchSale | src/context/AppContext.tsx:74-75 | a patched line keeps its id, takes the given fields, keeps the others, and total = weight × price |
| Session.UpdateSales | src/context/AppContext.tsx:70-79 | same length, lines with another id untouched, lines with the id patched |
| Session.UpdateSalesKeepsLines | src/context/AppContext.tsx:70-79 | the line invariant and the ids survive an update |
| Session.UpdateSalesIdempotent | src/context/AppContext.tsx:70-79 | applying the same patch twice is applying it once |
| Session.UpdateSalesMissingId | src/context/AppContext.tsx:72-73 | an unknown id changes nothing |
| Session.UpdateSaleTotals | src/context/AppContext.tsx:70-79 | with unique ids, an update replaces one line and moves the revenue by the difference |
| Session.RemoveSale | src/context/AppContext.tsx:81-83 | the kept lines are a subsequence of the list and none has the id |
| Session.RemoveSaleSpec | src/context/AppContext.tsx:81-83 | no line with the id remains, every other line remains, in order |
| Session.RemoveUniqueSale | src/context/AppContext.tsx:81-83 | with unique ids, deleting removes exactly that line and its revenue |
| Session.RemoveExpense | src/context/AppContext.tsx:90-92 | the kept expenses are a subsequence of the list and none has the id |
| Session.RemoveUniqueExpense | src/context/AppContext.tsx:90-92 | with unique ids, deleting removes exactly that expense and its amount |
| Session.StoredCategory | src/context/AppContext.tsx:87 | the trimmed category, or `Без категории` when it is missing or blank; never empty |
| Session.BlankCategoryIsDefault | src/context/AppContext.tsx:87 | a category of whitespace only is stored as the default |
| Session.StoredCategoryTrimmed | src/context/AppContext.tsx:87 | a stored category is already trimmed |
| Session.NewerOrSameTotalPreorder | src/context/AppContext.tsx:142 | the date-descending comparator is a total preorder |
| Session.SortDays | src/context/AppContext.tsx:142 | the sorted list is a permutation of the fetched list |
| Session.SortDaysNewestFirst | src/context/AppContext.tsx:141-142 | no day is followed by a newer one |
| Session.SortDaysStable | src/context/AppContext.tsx:142 | records of one date keep their fetched order |
| Session.SortDaysKeepsPeriod | src/context/AppContext.tsx:149-156 | sorting does not change the period totals |
| Session.AppSession.constructor | src/context/AppContext.tsx:48-52 | a session starts on the given date with no lines, no days, not loading |
| Session.AppSession.DayTotals | src/context/AppContext.tsx:54-61 | the session totals satisfy the profit and earnings formulas |
| Session.AppSession.Period | src/context/AppContext.tsx:149-156 | the period totals satisfy the profit and earnings formulas |
| Session.AppSession.CurrentRecord | src/context/AppContext.tsx:118-127 | the record saved has the session's date and lines, consistent totals, and is empty exactly when both lists are |
| Session.AppSession.SetDate | src/context/AppContext.tsx:48 | only the date changes |
| Session.AppSession.AddSale | src/context/AppContext.tsx:63-68 | exactly one line is appended; weight and revenue rise by its weight and weight × price |
| Session.AppSession.UpdateSale | src/context/AppContext.tsx:70-79 | the lines become the id-wise update of the old lines |
| Session.AppSession.DeleteSale | src/context/AppContext.tsx:81-83 | the lines become the old lines without that id |
| Session.AppSession.AddExpense | src/context/AppContext.tsx:85-88 | one expense with the stored category is appended; expenses rise and profit falls by its amount |
| Session.AppSession.DeleteExpense | src/context/AppContext.tsx:90-92 | the expenses become the old ones without that id |
| Session.AppSession.LoadFromSheet | src/context/AppContext.tsx:94-110 | one fetch is logged; a found record replaces date and lists (missing lists empty), none resets to the asked date and empty lists, a failure changes nothing; loading ends false |
| Session.AppSession.LoadAllDays | src/context/AppContext.tsx:137-147 | one fetch is logged; on success the days are the reply sorted newest first, on failure unchanged; loading ends false |
| Session.AppSession.SaveToSheet | src/context/AppContext.tsx:112-135 | an empty day logs a delete of its date, any other a save of the current record; a reload follows only a successful write; lines never change |
| History.BlankRecord | src/pages/HistoryPage.tsx:60 | the record assumed for an unknown key has the key's date and no lines |
| History.StartRecord | src/pages/HistoryPage.tsx:60 | the stored record for a known key, the blank one otherwise |
| History.Merge | src/pages/HistoryPage.tsx:60 | the patch replaces one list and keeps the date and the other list |
| History.ApplyRec | src/pages/HistoryPage.tsx:59-61 | the new record has the patched list, the other list and date of the old one, and recalculated totals |
| History.SetSaleField | src/pages/HistoryPage.tsx:71-72 | the edited field takes the value, the other stays, and total = weight × price |
| History.SetSaleFieldIsPatch | src/pages/HistoryPage.tsx:71-72 | a row edit is the same line update the day form's patch makes |
| History.EditExpense | src/pages/HistoryPage.tsx:90-91 | the edited field takes the value and the other stays |
| History.BlankSaleRowKeepsFigures | src/pages/HistoryPage.tsx:64-67 | adding a zero sale row leaves all five figures unchanged |
| History.BlankExpenseRowKeepsFigures | src/pages/HistoryPage.tsx:83-86 | adding a zero expense row leaves all five figures unchanged |
| History.CategoryEditKeepsFigures | src/pages/HistoryPage.tsx:87-94 | renaming a category leaves all five figures unchanged |
| History.Toggle | src/pages/HistoryPage.tsx:119 | the key's flag flips (missing counts as false) and every other flag stays |
| History.ToggleTwice | src/pages/HistoryPage.tsx:119 | toggling twice restores the key's flag |
| History.HistoryView.constructor | src/pages/HistoryPage.tsx:31-47 | the editor starts with the key map built from the saved days and nothing saving or expanded |
| History.HistoryView.Dates | src/pages/HistoryPage.tsx:49-57 | the display list holds each key of the map once |
| History.HistoryView.Sync | src/pages/HistoryPage.tsx:36-47 | a change of saved days rebuilds the key map and collapses every card |
| History.HistoryView.SetRec | src/pages/HistoryPage.tsx:59-61 | only the key's entry changes, to the patched and recalculated record; a new key is appended to the key order |
| History.HistoryView.AddSaleRow | src/pages/HistoryPage.tsx:64-67 | the key's record gets one more sale row, weight, price and total 0 |
| History.HistoryView.UpdateSaleRow | src/pages/HistoryPage.tsx:68-75 | only row idx of the key's record changes |
| History.HistoryView.DeleteSaleRow | src/pages/HistoryPage.tsx:76-81 | row idx is removed and the others keep their order |
| History.HistoryView.AddExpenseRow | src/pages/HistoryPage.tsx:83-86 | the key's record gets one more expense row, default category, amount 0 |
| History.HistoryView.UpdateExpenseRow | src/pages/HistoryPage.tsx:87-94 | only expense row idx of the key's record changes |
| History.HistoryView.DeleteExpenseRow | src/pages/HistoryPage.tsx:95-100 | expense row idx is removed and the others keep their order |
| History.HistoryView.ToggleExpand | src/pages/HistoryPage.tsx:119 | the key's expanded flag flips |
| History.HistoryView.Reload | src/pages/HistoryPage.tsx:113 | one fetch is logged and loading ends false; on success the days are the sorted reply, the editor is rebuilt from them and every card collapses; on failure days and editor stay; the session's date and lines never change |
| History.HistoryView.Commit | src/pages/HistoryPage.tsx:105-116 | the write is logged and a reload follows only a successful write; on success the days are the sorted reply, the editor is rebuilt and every card collapses, otherwise days, editor and cards stay; loading ends false after a reload; the session's date and lines never change; the key's saving flag ends false |
| History.HistoryView.Settle | src/pages/HistoryPage.tsx:111-114 | after a write, a fetch is logged only when the write succeeded; the outcome is the write's failure or the fetch's; on success the days, editor and cards are rebuilt, otherwise all stay; the session's date and lines never change |
| History.HistoryView.HandleSaveDay | src/pages/HistoryPage.tsx:102-117 | an empty day logs a delete of the key's date, any other a save of the recalculated record under that date; then as `Commit`: a reload only after success, new days with a rebuilt editor and collapsed cards on success, everything kept on failure, the session's date and lines unchanged, the saving flag false |
| History.HistoryView.HandleDeleteDay | src/pages/HistoryPage.tsx:120-129 | a delete of the key's date is logged; then as `Commit`: a reload only after success, new days with a rebuilt editor and collapsed cards on success, everything kept on failure, the session's date and lines unchanged, the saving flag false |
| Forms.AcceptedSaleRaisesTotals | src/components/SaleList.tsx:17-18 | an accepted sale raises weight, revenue and profit and leaves expenses unchanged |
| Forms.MinusSignIgnored | src/components/SaleList.tsx:4-7 | a minus sign in front of a figure does not change whether the sale is accepted |
| Forms.AcceptedExpenseCategory | src/components/ExpenseList.tsx:16-17 | an accepted expense is stored under its trimmed category |
| Forms.BlankCategoryRefused | src/components/ExpenseList.tsx:16 | a category of whitespace only is refused |
| Forms.AcceptedExpenseLowersProfit | src/components/ExpenseList.tsx:16-17 | an accepted expense raises expenses and lowers profit |
| Forms.SaleForm.constructor | src/components/SaleList.tsx:11-12 | both inputs start empty |
| Forms.SaleForm.TypeKg | src/components/SaleList.tsx:30 | the weight input holds the typed text |
| Forms.SaleForm.TypePrice | src/components/SaleList.tsx:37 | the price input holds the typed text |
| Forms.SaleForm.HandleAdd | src/components/SaleList.tsx:14-21 | added exactly when both figures read positive; then one line is appended and both inputs clear, otherwise nothing changes |
| Forms.SaleForm.Submit | src/components/SaleList.tsx:18-20 | the line is appended and both inputs clear |
| Forms.SaleForm.EditKg | src/components/SaleList.tsx:60 | only the weight of the lines with that id changes, to the text read by `num` |
| Forms.SaleForm.EditPrice | src/components/SaleList.tsx:69 | only the price of the lines with that id changes, to the text read by `num` |
| Forms.SaleForm.Delete | src/components/SaleList.tsx:52 | the lines with that id are removed |
| Forms.ExpenseForm.constructor | src/components/ExpenseList.tsx:6-7 | both inputs start empty |
| Forms.ExpenseForm.TypeCategory | src/components/ExpenseList.tsx:28 | the category input holds the typed text |
| Forms.ExpenseForm.TypeAmount | src/components/ExpenseList.tsx:35 | the amount input holds the typed text |
| Forms.ExpenseForm.HandleAdd | src/components/ExpenseList.tsx:14-20 | added exactly when the category is not blank and the amount reads positive; then one expense with the trimmed category is appended and both inputs clear, otherwise nothing changes |
| Forms.ExpenseForm.Submit | src/components/ExpenseList.tsx:17-19 | one expense with the trimmed category and the amount is appended and both inputs clear |
| Forms.ExpenseForm.Delete | src/components/ExpenseList.tsx:52 | the expenses with that id are removed |
| Csv.EscapeQuotes | src/components/HistoryModal.tsx:5 | escaping never shortens a cell |
| Csv.UnescapeEscape | src/components/HistoryModal.tsx:5 | collapsing `""` in an escaped cell gives the cell back |
| Csv.QuoteCell | src/components/HistoryModal.tsx:5 | a written cell starts and ends with a double quote |
| Csv.QuoteCellShape | src/components/HistoryModal.tsx:5 | the inside of a written cell, its quotes stripped, unescapes to the cell |
| Csv.CsvRow | src/components/HistoryModal.tsx:5 | an empty row is empty text; otherwise at least two quotes per cell and a comma between cells |
| Csv.CellRoundTrip | src/components/HistoryModal.tsx:5 | a written cell reads back as the cell |
| Csv.RowRoundTrip | src/components/HistoryModal.tsx:5 | a row joined by commas reads back as its cells |
| Csv.ToCsv | src/components/HistoryModal.tsx:3-7 | no rows give empty text |
| Csv.ParseCsv | src/components/HistoryModal.tsx:3-7 | a table read back has at least one row and no empty row |
| Csv.CsvSingle | src/components/HistoryModal.tsx:3-7 | a one-row table reads back as itself |
| Csv.CsvStep | src/components/HistoryModal.tsx:3-7 | a row joined by a line feed to a table that reads back also reads back |
| Csv.CsvRoundTrip | src/components/HistoryModal.tsx:3-7 | the text of any table without empty rows reads back as the table |
| Csv.ExportRow | src/components/HistoryModal.tsx:14-23 | eight cells: date, both lists as JSON, the five figures as text |
| Csv.ExportTable | src/components/HistoryModal.tsx:13-24 | the header first, then one row per day in the order of the saved days |
| Csv.MissingFieldsExport | src/components/HistoryModal.tsx:16-22 | a missing list is written as the JSON of an empty list and each of the five missing figures as 0 |
| Csv.ExportRoundTrip | src/components/HistoryModal.tsx:12-24 | the downloaded text reads back as the header and the day rows |
| Proxy.ThrownText | netlify/functions/gas-proxy.ts:80 | the error text is the thrown message, or a fixed text when it is empty; never empty |
| Proxy.Lookup | netlify/functions/gas-proxy.ts:36 | a found member is in the object; a missing one has no member of that name |
| Proxy.ResolveAction | netlify/functions/gas-proxy.ts:36 | a found action is always truthy |
| Proxy.Snippet | netlify/functions/gas-proxy.ts:65 | at most 200 characters, a prefix of the reply, the whole reply when short |
| Proxy.Handle | netlify/functions/gas-proxy.ts:5-84 | every response has the CORS headers and status 200, 400 or 500; only the preflight has an empty body; a forwarded request needs a script address, goes to it with `?action=`, carries the body without `action` and ends in 200 or 500 |
| Proxy.PreflightAnswered | netlify/functions/gas-proxy.ts:14-16 | OPTIONS gets 200 with an empty body before any other check |
| Proxy.MissingUrlFails | netlify/functions/gas-proxy.ts:19-25 | without a script address every other request gets 500 with the fixed error and nothing is forwarded |
| Proxy.QueryActionWins | netlify/functions/gas-proxy.ts:28-53 | a non-empty query action is forwarded, whatever the body |
| Proxy.BodyActionUsed | netlify/functions/gas-proxy.ts:36-53 | without a query action, a truthy `action` member of the body is forwarded |
| Proxy.MissingActionIff | netlify/functions/gas-proxy.ts:36-46 | 400 exactly when neither the query nor a non-null body gives a truthy action; a 400 forwards nothing |
| Proxy.NullBodyFails | netlify/functions/gas-proxy.ts:28-36 | a body of `null` without a query action throws and gets 500 |
| Proxy.UnparsableBodyIsEmpty | netlify/functions/gas-proxy.ts:29-34 | a body that is not JSON is handled exactly like a missing body |
| Proxy.ForwardBodySpec | netlify/functions/gas-proxy.ts:37-38 | the forwarded body has no `action` member and keeps every other member of the body, in order |
| Proxy.ArrayBodySpread | netlify/functions/gas-proxy.ts:37 | an array body is forwarded as an object keyed by distinct indices |
| Proxy.ReplyPassedThrough | netlify/functions/gas-proxy.ts:55-73 | a JSON reply is returned unchanged with 200, whatever status the script gave |
| Proxy.InvalidReplyWrapped | netlify/functions/gas-proxy.ts:58-67 | a reply that is not JSON becomes the error object with at most its first 200 characters |
| Proxy.FetchFailureReported | netlify/functions/gas-proxy.ts:74-83 | a failed fetch gets 500 with its message, or the fixed text when the message is empty |

## Left out

- Floating point: amounts are exact reals. IEEE rounding, `NaN`,
  `Infinity` from very long digit strings, and `toLocaleString` display are
  not modelled. `Number(x) || 0` on a stored number is the identity.
- Ledger.Aggregate: stored line fields are reals. A non-numeric value
  arriving from the schema-free store, which `Number(x) || 0` would turn
  into 0, is not representable.
- `formatDateRU` and all rendering (JSX, the summary card, toasts, the
  service worker, styling): presentation only.
- `localeCompare` is modelled as code-point order on strings. That is the
  same order for ISO dates, but not for arbitrary text.
- Id generation (`crypto.randomUUID`, `Math.random`) and the clock
  (`todayISO`): the values are method parameters.
- `JSON.parse`, `JSON.stringify`, `String` on numbers and
  `encodeURIComponent` are function parameters. The JSON deep copy of a
  record is the identity. A parsed object is assumed to have distinct member
  names, and a lookup finds the first one.
- The remote store and its transport: each answer is a method argument and
  each call is an entry of `Remote.log`. What the spreadsheet does with a
  delete when several rows share a date is not modelled.
- Asynchrony: every operation runs to completion in the order called.
  `loading` ends false and a card's saving flag ends false; interleaving of
  two pending calls is not modelled.
- Session.AppSession.LoadAllDays: the sort acts on a sequence value (a
  stable insertion sort, as `Array.prototype.sort` is stable), not in place
  on the fetched array.
- History.HistoryView.Sync: the rebuild that React runs whenever the saved
  days change is an explicit call, made by `Reload` after a successful fetch.
- Reconcile.Rank: a suffix is read as digits with at most one dot, so any
  other suffix ranks 0, also one that JavaScript's `Number` reads as a number
  (`1e1`, ` 3`, `-2`, `0x1f`) and one it reads as `NaN`. Generated suffixes
  are always plain decimal counts.
- Proxy.Handle: `delete body.action` on the spread copy is modelled as a
  filter on values, not an in-place deletion. A `URIError` from
  `encodeURIComponent` on a lone surrogate is not modelled. The response body
  is kept as a JSON value rather than its serialised text. The message for
  reading a member of `null` is the Node.js one. Spreading a string
  counts characters, not UTF-16 code units, and Snippet keeps 200
  characters rather than 200 UTF-16 code units, so it never cuts a
  surrogate pair where the source may.
- Csv.ParseCsv: the reader accepts exactly what the writer produces. The
  round trip needs every row to have at least one cell, which the export
  always satisfies. Rows end with a line feed, not CRLF.
- The Blob and anchor download of the CSV file: browser I/O.
