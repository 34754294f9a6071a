/**
 * The transaction history page: the sort toggle and comparator, CSV export, the P&L and
 * win-rate summary, and the page and filter state that drives the transactions fetch.
 */
module Transactions {
  import opened Prelude
  import opened Text
  import opened ApiTypes
  import opened UseApi
  import Seqs

  /** The columns whose headers sort the table. */
  datatype Column = TimestampColumn | BotColumn | MarketColumn | EntryPriceColumn
                  | ExitPriceColumn | ProfitLossColumn

  datatype Direction = Asc | Desc

  datatype SortState = SortState(column: Column, direction: Direction)

  function Flip(d: Direction): Direction
  {
    if d == Asc then Desc else Asc
  }

  /** `handleSort(column)`: the same column flips the direction; a new one starts descending. */
  function NextSort(s: SortState, clicked: Column): (r: SortState)
    ensures r.column == clicked
    ensures clicked == s.column ==> r.direction != s.direction
    ensures clicked != s.column ==> r.direction == Desc
  {
    if clicked == s.column then SortState(clicked, Flip(s.direction)) else SortState(clicked, Desc)
  }

  /** Clicking the current column twice restores the original sort. */
  lemma SortToggleTwice(s: SortState)
    ensures NextSort(NextSort(s, s.column), s.column) == s
  {
  }

  /** The value `a[sortColumn]` for one transaction: a number, a string, or null. */
  datatype Key = Number(x: real) | Text(s: string) | Absent

  function SortKey(tx: Transaction, c: Column): Key
  {
    match c
    case TimestampColumn => Text(tx.timestamp)
    case BotColumn => Text(BotName(tx.bot))
    case MarketColumn => Text(tx.marketName)
    case EntryPriceColumn => Number(tx.entryPrice)
    case ExitPriceColumn => if tx.exitPrice.Some? then Number(tx.exitPrice.value) else Absent
    case ProfitLossColumn => if tx.profitLoss.Some? then Number(tx.profitLoss.value) else Absent
  }

  /** `String(v || '')`: null and the number 0 both become the empty string. */
  function Stringify(k: Key, numText: real -> string): (text: string)
    ensures k.Absent? || k == Number(0.0) ==> text == ""
    ensures k.Number? && k.x != 0.0 ==> text == numText(k.x)
    ensures k.Text? ==> text == k.s
  {
    match k
    case Number(x) => if x == 0.0 then "" else numText(x)
    case Text(s) => s
    case Absent => ""
  }

  function Sign(x: real): (r: int)
    ensures r == -1 || r == 0 || r == 1
    ensures r < 0 <==> x < 0.0
    ensures r > 0 <==> x > 0.0
  {
    if x < 0.0 then -1 else if x > 0.0 then 1 else 0
  }

  /** Lexicographic order on code points, standing in for `localeCompare`. */
  function LexCmp(a: string, b: string): (r: int)
    ensures r == -1 || r == 0 || r == 1
    decreases |a|
  {
    if a == [] && b == [] then 0
    else if a == [] then -1
    else if b == [] then 1
    else if a[0] < b[0] then -1
    else if a[0] > b[0] then 1
    else LexCmp(a[1..], b[1..])
  }

  lemma {:induction false} LexCmpAntisymmetric(a: string, b: string)
    ensures LexCmp(a, b) == -LexCmp(b, a)
    ensures LexCmp(a, b) == 0 <==> a == b
    decreases |a|
  {
    if a != [] && b != [] && a[0] == b[0] {
      LexCmpAntisymmetric(a[1..], b[1..]);
      assert a == [a[0]] + a[1..] && b == [b[0]] + b[1..];
    }
  }

  /** Two numbers compare by difference; anything else compares as lowercased strings. */
  function KeyCompare(a: Key, b: Key, numText: real -> string): (r: int)
    ensures r == -1 || r == 0 || r == 1
    // numbers by value
    ensures a.Number? && b.Number? ==> (r < 0 <==> a.x < b.x) && (r == 0 <==> a.x == b.x)
    // anything else ties exactly when the lowercased strings are equal
    ensures !(a.Number? && b.Number?) ==>
              (r == 0 <==> ToLower(Stringify(a, numText)) == ToLower(Stringify(b, numText)))
  {
    if a.Number? && b.Number? then Sign(a.x - b.x)
    else
      LexCmpAntisymmetric(ToLower(Stringify(a, numText)), ToLower(Stringify(b, numText)));
      LexCmp(ToLower(Stringify(a, numText)), ToLower(Stringify(b, numText)))
  }

  /** The comparator of `sortedTransactions`. */
  function Compare(a: Transaction, b: Transaction, s: SortState, numText: real -> string): (r: int)
    ensures s.direction == Asc ==> r == KeyCompare(SortKey(a, s.column), SortKey(b, s.column), numText)
    // descending is ascending negated
    ensures s.direction == Desc ==> r == -KeyCompare(SortKey(a, s.column), SortKey(b, s.column), numText)
  {
    KeyCompareAntisymmetric(SortKey(a, s.column), SortKey(b, s.column), numText);
    if s.direction == Asc then KeyCompare(SortKey(a, s.column), SortKey(b, s.column), numText)
    else KeyCompare(SortKey(b, s.column), SortKey(a, s.column), numText)
  }

  lemma KeyCompareAntisymmetric(a: Key, b: Key, numText: real -> string)
    ensures KeyCompare(a, b, numText) == -KeyCompare(b, a, numText)
  {
    if !(a.Number? && b.Number?) {
      LexCmpAntisymmetric(ToLower(Stringify(a, numText)), ToLower(Stringify(b, numText)));
    }
  }

  /** Descending order is ascending order reversed, pair by pair. */
  lemma DirectionReverses(a: Transaction, b: Transaction, c: Column, numText: real -> string)
    ensures Compare(a, b, SortState(c, Desc), numText) == -Compare(a, b, SortState(c, Asc), numText)
  {
    KeyCompareAntisymmetric(SortKey(a, c), SortKey(b, c), numText);
  }

  /** The entry price is always numeric, so it sorts by value. */
  lemma EntryPriceSortsByValue(a: Transaction, b: Transaction, numText: real -> string)
    ensures Compare(a, b, SortState(EntryPriceColumn, Asc), numText) < 0 <==> a.entryPrice < b.entryPrice
    ensures Compare(a, b, SortState(EntryPriceColumn, Asc), numText) == 0 <==> a.entryPrice == b.entryPrice
  {
  }

  /** Market names sort as lowercased strings. */
  lemma MarketSortsIgnoringCase(a: Transaction, b: Transaction, numText: real -> string)
    ensures Compare(a, b, SortState(MarketColumn, Asc), numText) ==
            LexCmp(ToLower(a.marketName), ToLower(b.marketName))
  {
  }

  lemma CompareAntisymmetric(s: SortState, numText: real -> string)
    ensures Seqs.Antisymmetric((a: Transaction, b: Transaction) => Compare(a, b, s, numText))
  {
    forall a: Transaction, b: Transaction
      ensures Compare(a, b, s, numText) > 0 ==> Compare(b, a, s, numText) < 0
    {
      KeyCompareAntisymmetric(SortKey(a, s.column), SortKey(b, s.column), numText);
    }
  }

  /** `[...displayTransactions].sort(...)`: a reordering of the displayed list. */
  function SortedTransactions(display: seq<Transaction>, s: SortState, numText: real -> string)
    : (r: seq<Transaction>)
    ensures multiset(r) == multiset(display) && |r| == |display|
  {
    Seqs.SortBy(display, (a: Transaction, b: Transaction) => Compare(a, b, s, numText))
  }

  /** Every neighbouring pair of the sorted list is in order for the chosen column and direction. */
  lemma SortedTransactionsOrdered(display: seq<Transaction>, s: SortState, numText: real -> string)
    ensures var r := SortedTransactions(display, s, numText);
            forall i :: 0 < i < |r| ==> Compare(r[i - 1], r[i], s, numText) <= 0
  {
    var cmp := (a: Transaction, b: Transaction) => Compare(a, b, s, numText);
    CompareAntisymmetric(s, numText);
    Seqs.SortByOrdered(display, cmp);
  }

  /** The three demo transactions, `hoursAgo(h)` being the ISO timestamp `h` hours before now. */
  function MockTransactions(hoursAgo: int -> string): (r: seq<Transaction>)
    ensures |r| == 3
  {
    [ Transaction("tx-1", hoursAgo(1), Kalshi, "market-123", "Will Bitcoin exceed $100k by Dec 2025?",
                  Yes, 100.0, 0.45, Some(0.68), Some(23.0), Some(51.1), Closed, None),
      Transaction("tx-2", hoursAgo(2), Crypto, "BTC", "Bitcoin",
                  Buy, 0.002, 62000.0, Some(66500.0), Some(9.0), Some(7.3), Closed, None),
      Transaction("tx-3", hoursAgo(3), Kalshi, "market-124", "Will Fed cut rates in March?",
                  No, 150.0, 0.62, Some(0.55), Some(-10.5), Some(-11.3), Closed, None) ]
  }

  /** `displayTransactions`: the fetched page, or the demo list when it is empty. */
  function DisplayTransactions(fetched: seq<Transaction>, hoursAgo: int -> string): (r: seq<Transaction>)
    ensures |fetched| > 0 ==> r == fetched
    ensures |fetched| == 0 ==> r == MockTransactions(hoursAgo)
    ensures |r| > 0
  {
    if |fetched| > 0 then fetched else MockTransactions(hoursAgo)
  }

  /** The "Failed to load transactions" panel needs an empty display, which never happens. */
  lemma ErrorPanelUnreachable(fetched: seq<Transaction>, hoursAgo: int -> string)
    ensures |DisplayTransactions(fetched, hoursAgo)| != 0
  {
  }

  // ---------------------------------------------------------------- CSV export

  const CsvHeaders := ["Timestamp", "Bot", "Market", "Side", "Quantity", "Entry Price",
                       "Exit Price", "P&L", "P&L %", "Status"]

  /** `x || ''` for an optional number: null and 0 both give an empty cell. */
  function OptionalNumberCell(x: Option<real>, numText: real -> string): (cell: string)
    ensures x.None? || x.value == 0.0 ==> cell == ""
    ensures x.Some? && x.value != 0.0 ==> cell == numText(x.value)
  {
    if x.Some? && x.value != 0.0 then numText(x.value) else ""
  }

  /** The ten cells exported for one transaction, in header order. */
  function TxCells(tx: Transaction, localeTime: string -> string, numText: real -> string)
    : (cells: seq<string>)
    ensures |cells| == |CsvHeaders|
    // Date, Bot, Market, Side, Quantity, Entry Price
    ensures cells[0] == localeTime(tx.timestamp)
    ensures cells[1] == ToUpper(BotName(tx.bot)) && cells[2] == tx.marketName
    ensures cells[3] == ToUpper(SideName(tx.side))
    ensures cells[4] == numText(tx.quantity) && cells[5] == numText(tx.entryPrice)
    // Exit Price, P&L, P&L %: empty for a missing or zero value
    ensures cells[6] == OptionalNumberCell(tx.exitPrice, numText)
    ensures cells[7] == OptionalNumberCell(tx.profitLoss, numText)
    ensures cells[8] == OptionalNumberCell(tx.profitLossPercent, numText)
    // Status
    ensures cells[9] == StatusName(tx.status)
  {
    [ localeTime(tx.timestamp), ToUpper(BotName(tx.bot)), tx.marketName, ToUpper(SideName(tx.side)),
      numText(tx.quantity), numText(tx.entryPrice), OptionalNumberCell(tx.exitPrice, numText),
      OptionalNumberCell(tx.profitLoss, numText), OptionalNumberCell(tx.profitLossPercent, numText),
      StatusName(tx.status) ]
  }

  /** The header row followed by one row per displayed transaction. */
  function CsvRows(display: seq<Transaction>, localeTime: string -> string, numText: real -> string)
    : (rows: seq<seq<string>>)
    ensures |rows| == |display| + 1 && rows[0] == CsvHeaders
    ensures forall i :: 0 <= i < |rows| ==> |rows[i]| == 10
    ensures forall i :: 0 <= i < |display| ==> rows[i + 1] == TxCells(display[i], localeTime, numText)
  {
    [CsvHeaders] + seq(|display|, i requires 0 <= i < |display| => TxCells(display[i], localeTime, numText))
  }

  /** `row.map(quote).join(',')`. */
  function CsvLine(cells: seq<string>, quote: string -> string): string
  {
    Join(seq(|cells|, i requires 0 <= i < |cells| => quote(cells[i])), ",")
  }

  /** `rows.map(line).join('\n')`. */
  function CsvDocument(rows: seq<seq<string>>, quote: string -> string): string
  {
    Join(seq(|rows|, i requires 0 <= i < |rows| => CsvLine(rows[i], quote)), "\n")
  }

  /** The cell wrapping as written: `"${cell}"`, with no escaping. */
  function QuoteAsWritten(cell: string): string
  {
    "\"" + cell + "\""
  }

  /** A cell containing `","` can be read as two cells: two different rows give the same line. */
  lemma AsWrittenLineAmbiguous()
    ensures ["a\",\"b", "c"] != ["a", "b\",\"c"]
    ensures CsvLine(["a\",\"b", "c"], QuoteAsWritten) == CsvLine(["a", "b\",\"c"], QuoteAsWritten)
  {
    var one := ["a\",\"b", "c"];
    var two := ["a", "b\",\"c"];
    CsvLineUnfold(one, QuoteAsWritten);
    CsvLineUnfold(two, QuoteAsWritten);
    CsvLineSingle(one[1..], QuoteAsWritten);
    CsvLineSingle(two[1..], QuoteAsWritten);
    assert QuoteAsWritten(one[0]) + "," + QuoteAsWritten(one[1]) == "\"a\",\"b\",\"c\"";
    assert QuoteAsWritten(two[0]) + "," + QuoteAsWritten(two[1]) == "\"a\",\"b\",\"c\"";
    assert one[0] != two[0] by {
      assert |one[0]| != |two[0]|;
    }
  }

  lemma CsvLineSingle(cells: seq<string>, quote: string -> string)
    requires |cells| == 1
    ensures CsvLine(cells, quote) == quote(cells[0])
  {
    assert seq(|cells|, i requires 0 <= i < |cells| => quote(cells[i])) == [quote(cells[0])];
  }

  /** An embedded double quote is written twice (section 2 of RFC 4180). */
  function Escape(cell: string): (e: string)
    ensures '"' !in cell ==> e == cell
    decreases |cell|
  {
    if cell == [] then []
    else (if cell[0] == '"' then "\"\"" else [cell[0]]) + Escape(cell[1..])
  }

  /** The corrected wrapping: quotes around the escaped cell. */
  function QuoteCell(cell: string): string
  {
    "\"" + Escape(cell) + "\""
  }

  /** Without embedded quotes the as-written export and the corrected one coincide. */
  lemma AsWrittenAgreesWithoutQuotes(rows: seq<seq<string>>)
    requires forall i, j :: 0 <= i < |rows| && 0 <= j < |rows[i]| ==> '"' !in rows[i][j]
    ensures CsvDocument(rows, QuoteAsWritten) == CsvDocument(rows, QuoteCell)
  {
    forall i | 0 <= i < |rows| ensures CsvLine(rows[i], QuoteAsWritten) == CsvLine(rows[i], QuoteCell) {
      forall j | 0 <= j < |rows[i]| ensures QuoteAsWritten(rows[i][j]) == QuoteCell(rows[i][j]) {
        assert Escape(rows[i][j]) == rows[i][j];
      }
      CsvLineCongruence(rows[i], QuoteAsWritten, QuoteCell);
    }
    var l1 := seq(|rows|, i requires 0 <= i < |rows| => CsvLine(rows[i], QuoteAsWritten));
    var l2 := seq(|rows|, i requires 0 <= i < |rows| => CsvLine(rows[i], QuoteCell));
    assert l1 == l2;
  }

  lemma CsvLineCongruence(cells: seq<string>, q1: string -> string, q2: string -> string)
    requires forall j :: 0 <= j < |cells| ==> q1(cells[j]) == q2(cells[j])
    ensures CsvLine(cells, q1) == CsvLine(cells, q2)
  {
    var p1 := seq(|cells|, i requires 0 <= i < |cells| => q1(cells[i]));
    var p2 := seq(|cells|, i requires 0 <= i < |cells| => q2(cells[i]));
    assert p1 == p2;
  }

  /** `exportCSV` with the corrected quoting: the text written to the downloaded file. */
  function ExportCsv(display: seq<Transaction>, localeTime: string -> string, numText: real -> string)
    : string
  {
    CsvDocument(CsvRows(display, localeTime, numText), QuoteCell)
  }

  /** `exportCSV` as written. */
  function ExportCsvAsWritten(display: seq<Transaction>, localeTime: string -> string,
                              numText: real -> string): string
  {
    CsvDocument(CsvRows(display, localeTime, numText), QuoteAsWritten)
  }

  /**
   * Reads a quoted cell's content, starting just after its opening quote: `""` is one quote,
   * a lone `"` closes the cell. Returns the content and the text after the closing quote.
   */
  function ReadQuoted(s: string): (r: (string, string))
    ensures |r.1| <= |s|
    decreases |s|
  {
    if s == [] then ("", "")
    else if s[0] == '"' then
      if |s| >= 2 && s[1] == '"' then
        var (c, rest) := ReadQuoted(s[2..]);
        ("\"" + c, rest)
      else ("", s[1..])
    else
      var (c, rest) := ReadQuoted(s[1..]);
      ([s[0]] + c, rest)
  }

  /** The cells of the first line, and the text after its line break if there is one. */
  function DecodeLine(s: string): (r: (seq<string>, Option<string>))
    ensures r.1.Some? ==> |r.1.value| < |s|
    decreases |s|
  {
    if s == [] || s[0] != '"' then ([], None)
    else
      var (cell, after) := ReadQuoted(s[1..]);
      if |after| > 0 && after[0] == ',' then
        var (cells, next) := DecodeLine(after[1..]);
        ([cell] + cells, next)
      else if |after| > 0 && after[0] == '\n' then ([cell], Some(after[1..]))
      else ([cell], None)
  }

  /** Splits a CSV document into rows of cells. */
  function DecodeDocument(s: string): seq<seq<string>>
    decreases |s|
  {
    var (row, next) := DecodeLine(s);
    match next
    case None => [row]
    case Some(t) => [row] + DecodeDocument(t)
  }

  lemma {:induction false} ReadQuotedEscape(cell: string, rest: string)
    requires rest == [] || rest[0] != '"'
    ensures ReadQuoted(Escape(cell) + "\"" + rest) == (cell, rest)
    decreases |cell|
  {
    if cell == [] {
      assert Escape(cell) + "\"" + rest == "\"" + rest;
    } else {
      var tail := Escape(cell[1..]) + "\"" + rest;
      ReadQuotedEscape(cell[1..], rest);
      if cell[0] == '"' {
        assert Escape(cell) + "\"" + rest == "\"\"" + tail;
        assert ("\"\"" + tail)[2..] == tail;
        assert "\"" + cell[1..] == cell;
      } else {
        assert Escape(cell) + "\"" + rest == [cell[0]] + tail;
        assert ([cell[0]] + tail)[1..] == tail;
        assert [cell[0]] + cell[1..] == cell;
      }
    }
  }

  lemma CsvLineUnfold(cells: seq<string>, quote: string -> string)
    requires |cells| >= 2
    ensures CsvLine(cells, quote) == quote(cells[0]) + "," + CsvLine(cells[1..], quote)
  {
    var parts := seq(|cells|, i requires 0 <= i < |cells| => quote(cells[i]));
    assert parts[1..] == seq(|cells[1..]|, i requires 0 <= i < |cells[1..]| => quote(cells[1..][i]));
  }

  lemma {:induction false} DecodeLineEncode(cells: seq<string>, tail: string)
    requires |cells| >= 1
    requires tail == [] || tail[0] == '\n'
    ensures DecodeLine(CsvLine(cells, QuoteCell) + tail) ==
            (cells, if tail == [] then None else Some(tail[1..]))
    decreases |cells|
  {
    var c := cells[0];
    if |cells| == 1 {
      CsvLineSingle(cells, QuoteCell);
      var s := QuoteCell(c) + tail;
      assert s == CsvLine(cells, QuoteCell) + tail;
      assert s[0] == '"';
      assert s[1..] == Escape(c) + "\"" + tail;
      ReadQuotedEscape(c, tail);
      assert cells == [c];
    } else {
      CsvLineUnfold(cells, QuoteCell);
      var restLine := CsvLine(cells[1..], QuoteCell) + tail;
      var s := CsvLine(cells, QuoteCell) + tail;
      assert s == "\"" + Escape(c) + "\"" + ("," + restLine);
      assert s[1..] == Escape(c) + "\"" + ("," + restLine);
      ReadQuotedEscape(c, "," + restLine);
      assert ("," + restLine)[1..] == restLine;
      DecodeLineEncode(cells[1..], tail);
      assert [c] + cells[1..] == cells;
    }
  }

  lemma CsvDocumentUnfold(rows: seq<seq<string>>, quote: string -> string)
    requires |rows| >= 2
    ensures CsvDocument(rows, quote) == CsvLine(rows[0], quote) + "\n" + CsvDocument(rows[1..], quote)
  {
    var lines := seq(|rows|, i requires 0 <= i < |rows| => CsvLine(rows[i], quote));
    assert lines[1..] == seq(|rows[1..]|, i requires 0 <= i < |rows[1..]| => CsvLine(rows[1..][i], quote));
  }

  /** With the corrected quoting every document decodes back to exactly its rows. */
  lemma {:induction false} CsvRoundTrip(rows: seq<seq<string>>)
    requires |rows| >= 1
    requires forall i :: 0 <= i < |rows| ==> |rows[i]| >= 1
    ensures DecodeDocument(CsvDocument(rows, QuoteCell)) == rows
    decreases |rows|
  {
    if |rows| == 1 {
      assert CsvDocument(rows, QuoteCell) == CsvLine(rows[0], QuoteCell);
      DecodeLineEncode(rows[0], []);
      assert CsvLine(rows[0], QuoteCell) + [] == CsvLine(rows[0], QuoteCell);
    } else {
      CsvDocumentUnfold(rows, QuoteCell);
      var rest := CsvDocument(rows[1..], QuoteCell);
      assert CsvDocument(rows, QuoteCell) == CsvLine(rows[0], QuoteCell) + ("\n" + rest);
      DecodeLineEncode(rows[0], "\n" + rest);
      assert ("\n" + rest)[1..] == rest;
      CsvRoundTrip(rows[1..]);
      assert [rows[0]] + rows[1..] == rows;
    }
  }

  /** The exported file reads back as the header row and one ten-cell row per transaction. */
  lemma ExportCsvRoundTrip(display: seq<Transaction>, localeTime: string -> string, numText: real -> string)
    ensures DecodeDocument(ExportCsv(display, localeTime, numText)) == CsvRows(display, localeTime, numText)
  {
    CsvRoundTrip(CsvRows(display, localeTime, numText));
  }

  // ---------------------------------------------------------------- summary cards

  /** `tx.profit_loss || 0`. */
  function ProfitOrZero(tx: Transaction): real
  {
    if tx.profitLoss.Some? then tx.profitLoss.value else 0.0
  }

  /** `getTotalPnL()`: the sum of profits, a missing profit counting as 0. */
  function TotalPnL(display: seq<Transaction>): real
    decreases |display|
  {
    if display == [] then 0.0 else ProfitOrZero(display[0]) + TotalPnL(display[1..])
  }

  /** The total of two lists is the sum of their totals. */
  lemma {:induction false} TotalPnLAppend(a: seq<Transaction>, b: seq<Transaction>)
    ensures TotalPnL(a + b) == TotalPnL(a) + TotalPnL(b)
    decreases |a|
  {
    if a == [] {
      assert a + b == b;
    } else {
      assert (a + b)[0] == a[0];
      assert (a + b)[1..] == a[1..] + b;
      TotalPnLAppend(a[1..], b);
    }
  }

  /** Transactions without a recorded profit do not move the total. */
  lemma {:induction false} TotalPnLIgnoresMissing(display: seq<Transaction>)
    requires forall i :: 0 <= i < |display| ==> display[i].profitLoss.None?
    ensures TotalPnL(display) == 0.0
    decreases |display|
  {
    if display != [] {
      TotalPnLIgnoresMissing(display[1..]);
    }
  }

  predicate IsWin(tx: Transaction)
  {
    ProfitOrZero(tx) > 0.0
  }

  predicate IsClosed(tx: Transaction)
  {
    tx.status == Closed
  }

  predicate IsClosedWin(tx: Transaction)
  {
    IsClosed(tx) && IsWin(tx)
  }

  /** `getWinRate()` as written: winners among all transactions over the closed count. */
  function WinRateAsWritten(display: seq<Transaction>): (rate: real)
    ensures rate >= 0.0
    ensures Seqs.Count(display, IsClosed) == 0 ==> rate == 0.0
  {
    var closed := Seqs.Count(display, IsClosed);
    if closed > 0 then (Seqs.Count(display, IsWin) as real / closed as real) * 100.0 else 0.0
  }

  /** Two open winners and one closed loss: the rate as written is 200%. */
  lemma WinRateAsWrittenExceedsHundred()
    ensures var open := Transaction("t1", "", Kalshi, "m", "m", Yes, 1.0, 1.0, None, Some(5.0),
                                    None, Open, None);
            var lost := open.(status := Closed, profitLoss := Some(-1.0));
            WinRateAsWritten([open, open, lost]) == 200.0
  {
    var open := Transaction("t1", "", Kalshi, "m", "m", Yes, 1.0, 1.0, None, Some(5.0), None, Open, None);
    var lost := open.(status := Closed, profitLoss := Some(-1.0));
    var s := [open, open, lost];
    assert s[1..] == [open, lost] && s[1..][1..] == [lost] && [lost][1..] == [];
    assert Seqs.Filter([lost], IsClosed) == [lost];
    assert Seqs.Filter([open, lost], IsClosed) == [lost];
    assert Seqs.Filter(s, IsClosed) == [lost];
    assert Seqs.Filter([lost], IsWin) == [];
    assert Seqs.Filter([open, lost], IsWin) == [open];
    assert Seqs.Filter(s, IsWin) == [open, open];
  }

  /** `getWinRate()` corrected: winners among the closed transactions, as a percentage. */
  function WinRate(display: seq<Transaction>): (rate: real)
    ensures 0.0 <= rate <= 100.0
    ensures Seqs.Count(display, IsClosed) == 0 ==> rate == 0.0
  {
    var closed := Seqs.Count(display, IsClosed);
    var wins := Seqs.Count(display, IsClosedWin);
    Seqs.CountMonotone(display, IsClosedWin, IsClosed);
    if closed > 0 then
      PercentBounded(wins, closed);
      (wins as real / closed as real) * 100.0
    else 0.0
  }

  lemma PercentBounded(part: nat, whole: nat)
    requires 0 < whole && part <= whole
    ensures 0.0 <= (part as real / whole as real) * 100.0 <= 100.0
  {
    var q := part as real / whole as real;
    assert q * whole as real == part as real;
    assert q <= 1.0 by {
      if q > 1.0 {
        assert q * whole as real > 1.0 * whole as real;
      }
    }
  }

  /** When every transaction is closed the two rates agree. */
  lemma {:induction false} WinRateAgreesWhenAllClosed(display: seq<Transaction>)
    requires forall i :: 0 <= i < |display| ==> IsClosed(display[i])
    ensures WinRate(display) == WinRateAsWritten(display)
  {
    FilterSame(display);
  }

  lemma {:induction false} FilterSame(display: seq<Transaction>)
    requires forall i :: 0 <= i < |display| ==> IsClosed(display[i])
    ensures Seqs.Filter(display, IsClosedWin) == Seqs.Filter(display, IsWin)
    decreases |display|
  {
    if display != [] {
      FilterSame(display[1..]);
    }
  }

  // ---------------------------------------------------------------- pagination

  /** `hasMore` as the page reads it: `undefined` after a 204 is falsy. */
  function HasMore(hasMore: Data<bool>): (more: bool)
    ensures more ==> hasMore.Payload?
    ensures hasMore == NoContent || hasMore == Payload(false) ==> !more
  {
    hasMore == Payload(true)
  }

  /** The pagination bar is shown iff there is a next page or this is not the first. */
  function PaginationShown(hasMore: Data<bool>, page: int): (shown: bool)
    ensures page > 0 ==> shown
    ensures page <= 0 ==> (shown <==> hasMore == Payload(true))
  {
    HasMore(hasMore) || page > 0
  }

  predicate PreviousDisabled(page: int)
  {
    page == 0
  }

  function NextDisabled(hasMore: Data<bool>): (disabled: bool)
    ensures !disabled <==> hasMore == Payload(true)
  {
    !HasMore(hasMore)
  }

  /** `Math.max(0, page - 1)`. */
  function PreviousPage(page: int): (p: int)
    ensures p >= 0
    ensures page > 0 ==> p == page - 1
  {
    if page - 1 > 0 then page - 1 else 0
  }

  /** The Transactions page: page, bot filter and sort, over the transactions poller. */
  class TransactionsPage {
    const poller: TransactionsPoller
    var page: int
    var botFilter: string
    var sort: SortState

    ghost predicate Valid()
      reads this
    {
      page >= 0
    }

    /** `useTransactions(token, 50)` with `token` undefined: the limit is 50. */
    constructor (baseUrl: string)
      ensures Valid() && fresh(poller) && fresh(poller.api)
      ensures poller.limit == 50 && poller.api.baseUrl == baseUrl && poller.api.sent == []
      ensures page == 0 && botFilter == "" && sort == SortState(TimestampColumn, Desc)
    {
      poller := new TransactionsPoller(baseUrl, 50);
      page := 0;
      botFilter := "";
      sort := SortState(TimestampColumn, Desc);
    }

    /** The request the fetch effect sends for the current page and filter. */
    function CurrentRequest(): Outgoing
      reads this, poller, poller.api
    {
      OutgoingFor(poller.api.baseUrl, "/api/transactions",
                  TransactionsQuery(page, poller.limit, OrUndefined(botFilter), None), None, None)
    }

    /**
     * The poller after the fetch effect ran once from `priorSent` and the prior page: it sent
     * `CurrentRequest()` and took in the reply to it.
     */
    ghost predicate Fetched(send: Outgoing -> Reply<ListResponse<Transaction>>, priorSent: seq<Outgoing>,
                            priorItems: Data<seq<Transaction>>, priorTotal: Data<int>,
                            priorHasMore: Data<bool>)
      reads this, poller, poller.api
    {
      poller.Fetched(page, OrUndefined(botFilter), None, send, priorSent, priorItems, priorTotal,
                     priorHasMore) &&
      poller.api.sent == priorSent + [CurrentRequest()]
    }

    /** The fetch effect, run on mount and whenever page or filter changes. */
    method FetchEffect(send: Outgoing -> Reply<ListResponse<Transaction>>)
      requires Valid()
      modifies poller, poller.api
      ensures Valid()
      ensures Fetched(send, old(poller.api.sent), old(poller.items), old(poller.total), old(poller.hasMore))
    {
      poller.Fetch(page, OrUndefined(botFilter), None, send);
    }

    method HandleSort(column: Column)
      requires Valid()
      modifies this
      ensures Valid() && sort == NextSort(old(sort), column)
      ensures page == old(page) && botFilter == old(botFilter)
    {
      sort := NextSort(sort, column);
    }

    /** The bot select: set the filter and go back to page 0; fetch if either changed. */
    method SelectBot(bot: string, send: Outgoing -> Reply<ListResponse<Transaction>>)
      requires Valid()
      modifies this, poller, poller.api
      ensures Valid() && botFilter == bot && page == 0 && sort == old(sort)
      ensures old(botFilter == bot && page == 0) ==>
                poller.api.sent == old(poller.api.sent) && unchanged(poller)
      ensures old(botFilter != bot || page != 0) ==>
                Fetched(send, old(poller.api.sent), old(poller.items), old(poller.total), old(poller.hasMore))
    {
      var changed := botFilter != bot || page != 0;
      botFilter := bot;
      page := 0;
      if changed {
        FetchEffect(send);
      }
    }

    /** "Previous", which does nothing while hidden or disabled. */
    method Previous(send: Outgoing -> Reply<ListResponse<Transaction>>)
      requires Valid()
      modifies this, poller, poller.api
      ensures Valid() && botFilter == old(botFilter) && sort == old(sort)
      ensures old(page) > 0 ==>
                page == old(page) - 1 &&
                Fetched(send, old(poller.api.sent), old(poller.items), old(poller.total), old(poller.hasMore))
      ensures old(page) == 0 ==> page == 0 && poller.api.sent == old(poller.api.sent) && unchanged(poller)
    {
      if PaginationShown(poller.hasMore, page) && !PreviousDisabled(page) {
        page := PreviousPage(page);
        FetchEffect(send);
      }
    }

    /** "Next", enabled only while the last reply said there is more. */
    method Next(send: Outgoing -> Reply<ListResponse<Transaction>>)
      requires Valid()
      modifies this, poller, poller.api
      ensures Valid() && botFilter == old(botFilter) && sort == old(sort)
      ensures old(HasMore(poller.hasMore)) ==>
                page == old(page) + 1 &&
                Fetched(send, old(poller.api.sent), old(poller.items), old(poller.total), old(poller.hasMore))
      ensures !old(HasMore(poller.hasMore)) ==>
                page == old(page) && poller.api.sent == old(poller.api.sent) && unchanged(poller)
    {
      if PaginationShown(poller.hasMore, page) && !NextDisabled(poller.hasMore) {
        page := page + 1;
        FetchEffect(send);
      }
    }
  }
}
