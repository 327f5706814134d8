/**
 * The history download: every saved day flattened to a row of eight text
 * cells under a fixed header, written as CSV with every cell quoted and
 * embedded quotes doubled (RFC 4180, section 2, rule 7), cells joined by
 * `,` and rows by a bare line feed. A reader for exactly that form is
 * defined alongside, and the table is recovered from the text.
 */
module Csv {
  import opened Wrappers
  import opened Ledger

  /** `String(c).replace(/"/g, '""')`. */
  function EscapeQuotes(c: string): (r: string)
    ensures |r| >= |c|
  {
    if c == [] then []
    else (if c[0] == '"' then "\"\"" else [c[0]]) + EscapeQuotes(c[1..])
  }

  /** `'"' + escaped + '"'`. */
  function QuoteCell(c: string): (r: string)
    ensures |r| >= 2 && r[0] == '"' && r[|r| - 1] == '"'
  {
    "\"" + EscapeQuotes(c) + "\""
  }

  /** `row.map(quote).join(',')`. */
  function CsvRow(cells: seq<string>): (r: string)
    ensures cells == [] ==> r == []
    ensures cells != [] ==> |r| >= 3 * |cells| - 1
  {
    if |cells| == 0 then ""
    else if |cells| == 1 then QuoteCell(cells[0])
    else QuoteCell(cells[0]) + "," + CsvRow(cells[1..])
  }

  /** `toCSV`: the rows joined by a line feed. */
  function ToCsv(rows: seq<seq<string>>): (r: string)
    ensures rows == [] ==> r == []
  {
    if |rows| == 0 then ""
    else if |rows| == 1 then CsvRow(rows[0])
    else CsvRow(rows[0]) + "\n" + ToCsv(rows[1..])
  }

  /** Collapses each doubled quote of an escaped cell body back to one quote. */
  function Unescape(b: string): string
  {
    if b == [] then []
    else if |b| >= 2 && b[0] == '"' && b[1] == '"' then "\"" + Unescape(b[2..])
    else [b[0]] + Unescape(b[1..])
  }

  /** A written cell is its quoted text: stripping the outer quotes and collapsing `""` gives the cell back. */
  lemma {:induction false} UnescapeEscape(c: string)
    ensures Unescape(EscapeQuotes(c)) == c
  {
    if c != [] {
      UnescapeEscape(c[1..]);
      var tail := EscapeQuotes(c[1..]);
      if c[0] == '"' {
        assert EscapeQuotes(c) == "\"\"" + tail;
        assert (("\"\"" + tail)[2..]) == tail;
      } else {
        assert EscapeQuotes(c) == [c[0]] + tail;
        assert ([c[0]] + tail)[1..] == tail;
      }
    }
  }

  /** The inside of a written cell, its quotes stripped, unescapes to the cell. */
  lemma QuoteCellShape(c: string)
    ensures Unescape(QuoteCell(c)[1..|QuoteCell(c)| - 1]) == c
  {
    var q := QuoteCell(c);
    assert q[1..|q| - 1] == EscapeQuotes(c);
    UnescapeEscape(c);
  }

  /**
   * Reads a cell body up to its closing quote: a doubled quote stands for
   * one quote, a lone quote ends the cell. Gives the cell and the text after
   * the closing quote.
   */
  function ReadBody(s: string): (r: Option<(string, string)>)
    ensures r.Some? ==> |r.value.1| < |s|
  {
    if s == [] then None
    else if s[0] == '"' then
      if |s| >= 2 && s[1] == '"' then
        match ReadBody(s[2..])
        case None => None
        case Some((c, rest)) => Some(("\"" + c, rest))
      else Some(([], s[1..]))
    else
      match ReadBody(s[1..])
      case None => None
      case Some((c, rest)) => Some(([s[0]] + c, rest))
  }

  /** Reads one quoted cell. */
  function ReadCell(s: string): (r: Option<(string, string)>)
    ensures r.Some? ==> |r.value.1| < |s|
  {
    if s != [] && s[0] == '"' then ReadBody(s[1..]) else None
  }

  /** Reads comma-separated quoted cells; stops before anything that is not a comma. */
  function ParseRow(s: string): (r: Option<(seq<string>, string)>)
    ensures r.Some? ==> |r.value.1| < |s| && r.value.0 != []
    decreases |s|
  {
    match ReadCell(s)
    case None => None
    case Some((c, rest)) =>
      if rest != [] && rest[0] == ',' then
        match ParseRow(rest[1..])
        case None => None
        case Some((cells, after)) => Some(([c] + cells, after))
      else Some(([c], rest))
  }

  /** Reads rows separated by line feeds, up to the end of the text. */
  function ParseCsv(s: string): (r: Option<seq<seq<string>>>)
    ensures r.Some? ==> r.value != [] && forall i :: 0 <= i < |r.value| ==> r.value[i] != []
    decreases |s|
  {
    match ParseRow(s)
    case None => None
    case Some((cells, rest)) =>
      if rest == [] then Some([cells])
      else if rest[0] == '\n' then
        match ParseCsv(rest[1..])
        case None => None
        case Some(rows) => Some([cells] + rows)
      else None
  }

  lemma ReadBodyQuoteStep(c: string, t: string)
    requires c != [] && c[0] == '"'
    requires ReadBody(EscapeQuotes(c[1..]) + "\"" + t) == Some((c[1..], t))
    ensures ReadBody(EscapeQuotes(c) + "\"" + t) == Some((c, t))
  {
    var rest := EscapeQuotes(c[1..]) + "\"" + t;
    var s := "\"\"" + rest;
    assert EscapeQuotes(c) + "\"" + t == s;
    assert s[0] == '"' && s[1] == '"' && s[2..] == rest;
    assert "\"" + c[1..] == c;
  }

  lemma ReadBodyCharStep(c: string, t: string)
    requires c != [] && c[0] != '"'
    requires ReadBody(EscapeQuotes(c[1..]) + "\"" + t) == Some((c[1..], t))
    ensures ReadBody(EscapeQuotes(c) + "\"" + t) == Some((c, t))
  {
    var rest := EscapeQuotes(c[1..]) + "\"" + t;
    var s := [c[0]] + rest;
    assert EscapeQuotes(c) + "\"" + t == s;
    assert s[0] != '"' && s[1..] == rest;
    assert [c[0]] + c[1..] == c;
  }

  /** The closing quote is recognised when the text after it does not start with another quote. */
  lemma {:induction false} ReadBodyEscaped(c: string, t: string)
    requires t == [] || t[0] != '"'
    ensures ReadBody(EscapeQuotes(c) + "\"" + t) == Some((c, t))
  {
    if c == [] {
      var s := EscapeQuotes(c) + "\"" + t;
      assert s == "\"" + t;
      assert s[0] == '"' && !(|s| >= 2 && s[1] == '"');
      assert s[1..] == t;
    } else {
      ReadBodyEscaped(c[1..], t);
      if c[0] == '"' {
        ReadBodyQuoteStep(c, t);
      } else {
        ReadBodyCharStep(c, t);
      }
    }
  }

  /** A quoted cell reads back as the cell, when what follows does not start with a quote. */
  lemma CellRoundTrip(c: string, t: string)
    requires t == [] || t[0] != '"'
    ensures ReadCell(QuoteCell(c) + t) == Some((c, t))
  {
    assert (QuoteCell(c) + t)[1..] == EscapeQuotes(c) + "\"" + t;
    ReadBodyEscaped(c, t);
  }

  lemma RowStep(cells: seq<string>, t: string)
    requires |cells| >= 2
    requires ParseRow(CsvRow(cells[1..]) + t) == Some((cells[1..], t))
    ensures ParseRow(CsvRow(cells) + t) == Some((cells, t))
  {
    var tail := CsvRow(cells[1..]) + t;
    var u := "," + tail;
    assert CsvRow(cells) + t == QuoteCell(cells[0]) + u;
    CellRoundTrip(cells[0], u);
    assert u[1..] == tail;
    assert [cells[0]] + cells[1..] == cells;
  }


  /** A written row reads back as its cells, when what follows starts with neither a comma nor a quote. */
  lemma {:induction false} RowRoundTrip(cells: seq<string>, t: string)
    requires |cells| >= 1 && (t == [] || (t[0] != ',' && t[0] != '"'))
    ensures ParseRow(CsvRow(cells) + t) == Some((cells, t))
  {
    if |cells| == 1 {
      assert CsvRow(cells) + t == QuoteCell(cells[0]) + t;
      CellRoundTrip(cells[0], t);
      assert [cells[0]] == cells;
    } else {
      RowRoundTrip(cells[1..], t);
      RowStep(cells, t);
    }
  }

  /** The download reads back as the table it was written from, when no row is empty. */
  lemma CsvSingle(rows: seq<seq<string>>)
    requires |rows| == 1 && |rows[0]| >= 1
    ensures ParseCsv(ToCsv(rows)) == Some(rows)
  {
    var s := ToCsv(rows);
    RowRoundTrip(rows[0], []);
    assert s == CsvRow(rows[0]) + [];
    assert ParseRow(s) == Some((rows[0], []));
    assert [rows[0]] == rows;
  }

  lemma CsvStep(rows: seq<seq<string>>)
    requires |rows| >= 2 && |rows[0]| >= 1
    requires ParseCsv(ToCsv(rows[1..])) == Some(rows[1..])
    ensures ParseCsv(ToCsv(rows)) == Some(rows)
  {
    var t := "\n" + ToCsv(rows[1..]);
    assert ToCsv(rows) == CsvRow(rows[0]) + t;
    RowRoundTrip(rows[0], t);
    assert t[1..] == ToCsv(rows[1..]);
    assert [rows[0]] + rows[1..] == rows;
  }

  lemma {:induction false} CsvRoundTrip(rows: seq<seq<string>>)
    requires |rows| >= 1 && forall i :: 0 <= i < |rows| ==> |rows[i]| >= 1
    ensures ParseCsv(ToCsv(rows)) == Some(rows)
  {
    if |rows| == 1 {
      CsvSingle(rows);
    } else {
      CsvRoundTrip(rows[1..]);
      CsvStep(rows);
    }
  }


  /** The header row of the download. */
  const Header: seq<string> :=
    ["Date", "Sales(JSON)", "Expenses(JSON)", "TotalKg", "TotalSales", "TotalExpenses", "Profit", "Earnings15"]

  /**
   * One day as eight cells. `salesJson` and `expensesJson` stand for
   * `JSON.stringify` on the lists and `numText` for `String` on a number.
   */
  function ExportRow(d: DayRecord, salesJson: seq<Sale> -> string, expensesJson: seq<Expense> -> string,
                     numText: real -> string): (row: seq<string>)
    ensures |row| == |Header|
    ensures row[0] == d.date && row[1] == salesJson(SalesOf(d)) && row[2] == expensesJson(ExpensesOf(d))
    ensures row[3] == numText(d.totalKg.GetOr(0.0)) && row[4] == numText(d.totalSales.GetOr(0.0))
    ensures row[5] == numText(d.totalExpenses.GetOr(0.0)) && row[6] == numText(d.profit.GetOr(0.0))
    ensures row[7] == numText(d.earnings15.GetOr(0.0))
  {
    [d.date, salesJson(SalesOf(d)), expensesJson(ExpensesOf(d)),
     numText(d.totalKg.GetOr(0.0)), numText(d.totalSales.GetOr(0.0)), numText(d.totalExpenses.GetOr(0.0)),
     numText(d.profit.GetOr(0.0)), numText(d.earnings15.GetOr(0.0))]
  }

  /** `[header, ...rows]`: the header, then one row per day in the order given. */
  function ExportTable(days: seq<DayRecord>, salesJson: seq<Sale> -> string, expensesJson: seq<Expense> -> string,
                       numText: real -> string): (t: seq<seq<string>>)
    ensures |t| == |days| + 1 && t[0] == Header
    ensures forall i :: 0 <= i < |days| ==> t[i + 1] == ExportRow(days[i], salesJson, expensesJson, numText)
  {
    [Header] + seq(|days|, i requires 0 <= i < |days| => ExportRow(days[i], salesJson, expensesJson, numText))
  }

  /** A day missing its lists or totals exports `[]` and `0` for them. */
  lemma MissingFieldsExport(d: DayRecord, salesJson: seq<Sale> -> string, expensesJson: seq<Expense> -> string,
                            numText: real -> string)
    ensures var row := ExportRow(d, salesJson, expensesJson, numText);
      && (d.sales.None? ==> row[1] == salesJson([]))
      && (d.expenses.None? ==> row[2] == expensesJson([]))
      && (d.totalKg.None? ==> row[3] == numText(0.0))
      && (d.totalSales.None? ==> row[4] == numText(0.0))
      && (d.totalExpenses.None? ==> row[5] == numText(0.0))
      && (d.profit.None? ==> row[6] == numText(0.0))
      && (d.earnings15.None? ==> row[7] == numText(0.0))
  {
  }

  /** The downloaded file reads back as the header followed by one eight-cell row per day. */
  lemma ExportRoundTrip(days: seq<DayRecord>, salesJson: seq<Sale> -> string, expensesJson: seq<Expense> -> string,
                        numText: real -> string)
    ensures var t := ExportTable(days, salesJson, expensesJson, numText);
      ParseCsv(ToCsv(t)) == Some(t)
  {
    var t := ExportTable(days, salesJson, expensesJson, numText);
    assert forall i :: 0 <= i < |t| ==> |t[i]| >= 1 by {
      forall i | 0 <= i < |t| ensures |t[i]| >= 1 {
        if i > 0 {
          assert t[i] == ExportRow(days[i - 1], salesJson, expensesJson, numText);
        }
      }
    }
    CsvRoundTrip(t);
  }
}
