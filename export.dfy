/** CSV export and download file names (src/lib/utils/export.ts). Numbers reach the text
    through two renderers the engine supplies: `show` is JavaScript's number-to-string
    conversion and `fixed(x, d)` is `x.toFixed(d)`. */
module Export {
  import opened Types
  import opened Seqs
  import opened Text

  /** The byte-order mark put in front so that spreadsheet programs read the text as UTF-8. */
  const Bom: char := '\U{FEFF}'

  const Header: seq<string> := [
    "주문ID", "주문일시", "곡명", "아티스트", "카테고리", "주문타입", "주문상태", "주문가격",
    "최근거래가", "주문수량", "저작권료율(%)", "스프레드율(%)", "예상수익률(%)", "유동성점수", "시그널"]

  /** The header line: the column names joined with commas. */
  function HeaderLine(): string
  {
    Join(Header, ",")
  }

  /** Wraps a text field in double quotes; quotes inside the text are left as they are. */
  function Quote(s: string): (r: string)
    ensures |r| == |s| + 2 && r[0] == '"' && r[|r| - 1] == '"' && r[1..|r| - 1] == s
  {
    "\"" + s + "\""
  }

  /** The fifteen fields of one order, in header order. */
  function CsvRow(w: OrderWithMetrics, show: real -> string, fixed: (real, nat) -> string)
    : (row: seq<string>)
    ensures |row| == |Header|
    ensures row[0] == IdOrNumber(w.order) && row[1] == w.order.orderDate
    ensures row[2] == Quote(w.order.songName) && row[3] == Quote(w.order.songArtist)
    ensures row[4] == w.order.songCategory
    ensures row[5] == w.order.orderType.Label() && row[6] == w.order.orderStatus.Label()
    ensures row[7] == show(w.order.orderPrice) && row[8] == show(w.order.recentPrice)
    ensures row[9] == show(QuantityOrCount(w.order))
    ensures row[10] == fixed(w.order.orderRoyaltyRate * 100.0, 2)
    ensures row[11] == fixed(w.spreadRate, 2) && row[12] == fixed(w.expectedYield, 2)
    ensures row[13] == fixed(w.liquidityScore, 1) && row[14] == w.signal.Label()
  {
    seq(15, k requires 0 <= k < 15 => Field(w, k, show, fixed))
  }

  /** Field `k` of the order's line. */
  function Field(w: OrderWithMetrics, k: nat, show: real -> string, fixed: (real, nat) -> string): string
    requires k < 15
  {
    var o := w.order;
    if k == 0 then IdOrNumber(o)
    else if k == 1 then o.orderDate
    else if k == 2 then Quote(o.songName)
    else if k == 3 then Quote(o.songArtist)
    else if k == 4 then o.songCategory
    else if k == 5 then o.orderType.Label()
    else if k == 6 then o.orderStatus.Label()
    else if k == 7 then show(o.orderPrice)
    else if k == 8 then show(o.recentPrice)
    else if k == 9 then show(QuantityOrCount(o))
    else if k == 10 then fixed(o.orderRoyaltyRate * 100.0, 2)
    else if k == 11 then fixed(w.spreadRate, 2)
    else if k == 12 then fixed(w.expectedYield, 2)
    else if k == 13 then fixed(w.liquidityScore, 1)
    else w.signal.Label()
  }

  function RowLine(show: real -> string, fixed: (real, nat) -> string): OrderWithMetrics -> string
  {
    (w: OrderWithMetrics) => Join(CsvRow(w, show, fixed), ",")
  }

  /** One line per order, in input order. */
  function CsvRows(data: seq<OrderWithMetrics>, show: real -> string, fixed: (real, nat) -> string)
    : (rows: seq<string>)
    ensures |rows| == |data|
    ensures forall i :: 0 <= i < |data| ==> rows[i] == Join(CsvRow(data[i], show, fixed), ",")
  {
    Map(data, RowLine(show, fixed))
  }

  /** The lines of the file: the header line, then the order lines. */
  function CsvLines(data: seq<OrderWithMetrics>, show: real -> string, fixed: (real, nat) -> string)
    : (lines: seq<string>)
    ensures |lines| == |data| + 1 && lines[0] == HeaderLine()
    ensures lines[1..] == CsvRows(data, show, fixed)
  {
    [HeaderLine()] + CsvRows(data, show, fixed)
  }

  /** `convertToCSV`: nothing for no orders; otherwise the mark followed by the lines joined
      with line feeds (no line feed after the last line). */
  function ConvertToCSV(data: seq<OrderWithMetrics>, show: real -> string, fixed: (real, nat) -> string)
    : (csv: string)
    ensures data == [] <==> csv == ""
    ensures data != [] ==> csv[0] == Bom && csv[1..] == Join(CsvLines(data, show, fixed), "\n")
  {
    if |data| == 0 then "" else [Bom] + Join(CsvLines(data, show, fixed), "\n")
  }

  /** A quoted field has exactly two more quote characters than its text: embedded quotes are
      not doubled, so a text containing `"` ends the field early for an RFC 4180 reader. */
  lemma QuoteDoesNotEscape(s: string)
    ensures Occurrences(Quote(s), '"') == Occurrences(s, '"') + 2
  {
    OccurrencesAppend("\"" + s, "\"", '"');
    OccurrencesAppend("\"", s, '"');
    assert Quote(s) == ("\"" + s) + "\"";
  }

  /** Joining parts that are free of `c` with a separator free of `c` gives a text free of `c`. */
  lemma {:induction false} JoinFree(parts: seq<string>, sep: string, c: char)
    requires Occurrences(sep, c) == 0
    requires forall k :: 0 <= k < |parts| ==> Occurrences(parts[k], c) == 0
    ensures Occurrences(Join(parts, sep), c) == 0
  {
    if |parts| > 1 {
      JoinFree(parts[1..], sep, c);
      OccurrencesAppend(parts[0] + sep, Join(parts[1..], sep), c);
      OccurrencesAppend(parts[0], sep, c);
    }
  }

  /** No field of the order's line can contain a line feed. */
  predicate SingleLineFields(w: OrderWithMetrics, show: real -> string, fixed: (real, nat) -> string)
  {
    forall k :: 0 <= k < |Header| ==> Occurrences(CsvRow(w, show, fixed)[k], '\n') == 0
  }

  lemma HeaderSingleLine()
    ensures Occurrences(HeaderLine(), '\n') == 0
  {
    forall k | 0 <= k < |Header| ensures Occurrences(Header[k], '\n') == 0 {
      OccurrencesNone(Header[k], '\n');
    }
    JoinFree(Header, ",", '\n');
  }

  /** No line holds a line feed. */
  predicate SingleLines(lines: seq<string>)
  {
    forall k :: 0 <= k < |lines| ==> Occurrences(lines[k], '\n') == 0
  }

  lemma RowSingleLine(w: OrderWithMetrics, show: real -> string, fixed: (real, nat) -> string)
    requires SingleLineFields(w, show, fixed)
    ensures Occurrences(Join(CsvRow(w, show, fixed), ","), '\n') == 0
  {
    JoinFree(CsvRow(w, show, fixed), ",", '\n');
  }

  lemma LinesSingleLine(data: seq<OrderWithMetrics>, show: real -> string, fixed: (real, nat) -> string)
    requires forall i :: 0 <= i < |data| ==> SingleLineFields(data[i], show, fixed)
    ensures SingleLines(CsvLines(data, show, fixed))
  {
    var rows := CsvRows(data, show, fixed);
    HeaderSingleLine();
    forall k | 0 <= k < |rows| ensures Occurrences(rows[k], '\n') == 0 {
      RowSingleLine(data[k], show, fixed);
    }
    assert CsvLines(data, show, fixed) == [HeaderLine()] + rows;
  }

  /** `text` is `s` preceded by at least one character. */
  predicate EndsStrictlyWith(text: string, s: string)
  {
    |s| < |text| && text[|text| - |s|..] == s
  }

  /** The mark followed by single-line lines joined with line feeds has one line feed fewer
      than there are lines, and ends with the last line. */
  lemma MarkedLines(lines: seq<string>)
    requires |lines| > 0 && SingleLines(lines)
    ensures var text := [Bom] + Join(lines, "\n");
      var last := lines[|lines| - 1];
      && Occurrences(text, '\n') == |lines| - 1
      && EndsStrictlyWith(text, last)
  {
    JoinSeparatorCount(lines, '\n');
    JoinEndsWithLast(lines, "\n");
    OccurrencesAppend([Bom], Join(lines, "\n"), '\n');
    OccurrencesNone([Bom], '\n');
  }

  /** When no field holds a line feed, the text has exactly one line feed per order: a header
      line and `|data|` order lines, with no line feed after the last one, which is the last
      order's line. */
  lemma CsvLineStructure(data: seq<OrderWithMetrics>, show: real -> string, fixed: (real, nat) -> string)
    requires data != []
    requires forall i :: 0 <= i < |data| ==> SingleLineFields(data[i], show, fixed)
    ensures var csv := ConvertToCSV(data, show, fixed);
      var last := Join(CsvRow(data[|data| - 1], show, fixed), ",");
      && Occurrences(csv, '\n') == |data|
      && EndsStrictlyWith(csv, last)
  {
    var lines := CsvLines(data, show, fixed);
    var last := Join(CsvRow(data[|data| - 1], show, fixed), ",");
    assert lines[|lines| - 1] == last by {
      assert lines[|lines| - 1] == CsvRows(data, show, fixed)[|data| - 1];
    }
    LinesSingleLine(data, show, fixed);
    MarkedLines(lines);
    assert ConvertToCSV(data, show, fixed) == [Bom] + Join(lines, "\n");
  }

  /** `generateFilename`: the prefix, an underscore, the formatted time stamp, a dot and the
      extension. */
  datatype Extension = Csv | Json
  {
    function Text(): string {
      match this
      case Csv => "csv"
      case Json => "json"
    }
  }

  function GenerateFilename(prefix: string, ext: Extension, stamp: string): (name: string)
    ensures |name| == |prefix| + |stamp| + |ext.Text()| + 2
    ensures name[..|prefix|] == prefix && name[|prefix|] == '_'
    ensures name[|prefix| + 1..|prefix| + 1 + |stamp|] == stamp
    ensures name[|name| - |ext.Text()| - 1..] == "." + ext.Text()
  {
    prefix + "_" + stamp + "." + ext.Text()
  }
}
