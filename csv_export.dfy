// src/components/DownloadButton.jsx: the CSV text of the export and the
// choice of bills and file name. Each cell is quoted with every double
// quote doubled, the quoting rule of section 2 of RFC 4180; records are
// separated by LF rather than CRLF. The PDF layout, the Blob and the DOM
// download are left out; the current time is the `isoNow` argument.

module CsvExport {
  import opened Text
  import opened Seqs
  import opened Dataset

  /** `categories.find(cat => cat.id === id)`, then its name or the id. */
  function GetCategoryName(categories: seq<Category>, categoryId: string): string {
    if |categories| == 0 then categoryId
    else if categories[0].id == categoryId then categories[0].name
    else GetCategoryName(categories[1..], categoryId)
  }

  /** The name of the first category with the id, or the id when none has it. */
  lemma {:induction false} GetCategoryNameSpec(categories: seq<Category>, categoryId: string)
    ensures (forall k :: 0 <= k < |categories| ==> categories[k].id != categoryId) ==>
              GetCategoryName(categories, categoryId) == categoryId
    ensures forall k :: 0 <= k < |categories| && categories[k].id == categoryId
                        && (forall j :: 0 <= j < k ==> categories[j].id != categoryId) ==>
              GetCategoryName(categories, categoryId) == categories[k].name
  {
    if |categories| > 0 {
      var rest := categories[1..];
      GetCategoryNameSpec(rest, categoryId);
      forall k | 1 <= k < |categories| ensures categories[k] == rest[k - 1] {}
    }
  }

  /** `cell.replace(/"/g, '""')` */
  function DoubleQuotes(cell: string): string {
    if |cell| == 0 then ""
    else (if cell[0] == '"' then "\"\"" else [cell[0]]) + DoubleQuotes(cell[1..])
  }

  /** `"${cell.replace(/"/g, '""')}"` */
  function Escape(cell: string): string {
    "\"" + DoubleQuotes(cell) + "\""
  }

  /** The escaped cell is the cell, one more character per quote, and the
      two enclosing quotes. */
  lemma {:induction false} EscapeLength(cell: string)
    ensures |DoubleQuotes(cell)| == |cell| + multiset(cell)['"']
    ensures |Escape(cell)| == |cell| + multiset(cell)['"'] + 2
  {
    if |cell| > 0 {
      EscapeLength(cell[1..]);
      assert cell == [cell[0]] + cell[1..];
      assert multiset(cell) == multiset{cell[0]} + multiset(cell[1..]);
    }
  }

  /** The reading side of the quoting rule, after the opening quote: a pair
      of quotes stands for one quote, a single quote closes the field. The
      result is the field and what follows the closing quote. */
  function ReadQuoted(s: string): (r: Option<(string, string)>)
    ensures r.Some? ==> |r.value.1| < |s|
    decreases |s|
  {
    if |s| == 0 then None
    else if s[0] == '"' then
      if |s| >= 2 && s[1] == '"' then
        match ReadQuoted(s[2..])
        case None => None
        case Some((c, rest)) => Some(("\"" + c, rest))
      else Some(("", s[1..]))
    else
      match ReadQuoted(s[1..])
      case None => None
      case Some((c, rest)) => Some(([s[0]] + c, rest))
  }

  /** One quoted field at the start of `s`. */
  function ParseField(s: string): (r: Option<(string, string)>)
    ensures r.Some? ==> |r.value.1| < |s|
  {
    if |s| > 0 && s[0] == '"' then ReadQuoted(s[1..]) else None
  }

  /** A record: quoted fields separated by commas, up to the end of `s`. */
  function ParseRecord(s: string): Option<seq<string>>
    decreases |s|
  {
    match ParseField(s)
    case None => None
    case Some((cell, rest)) =>
      if rest == "" then Some([cell])
      else if rest[0] != ',' then None
      else
        match ParseRecord(rest[1..])
        case None => None
        case Some(cells) => Some([cell] + cells)
  }

  lemma {:induction false} ReadQuotedEscaped(cell: string, rest: string)
    requires |rest| == 0 || rest[0] != '"'
    ensures ReadQuoted(DoubleQuotes(cell) + "\"" + rest) == Some((cell, rest))
    decreases |cell|
  {
    var s := DoubleQuotes(cell) + "\"" + rest;
    if |cell| == 0 {
      assert s == "\"" + rest;
      assert s[1..] == rest;
    } else {
      ReadQuotedEscaped(cell[1..], rest);
      var tail := DoubleQuotes(cell[1..]) + "\"" + rest;
      if cell[0] == '"' {
        assert s == "\"\"" + tail;
        assert s[2..] == tail;
      } else {
        assert s == [cell[0]] + tail;
        assert s[1..] == tail;
      }
      assert cell == [cell[0]] + cell[1..];
    }
  }

  /** Reading an escaped cell gives the cell back, whatever follows it
      unless that starts with a quote. */
  lemma EscapeRoundTrip(cell: string, rest: string)
    requires |rest| == 0 || rest[0] != '"'
    ensures ParseField(Escape(cell) + rest) == Some((cell, rest))
  {
    var s := Escape(cell) + rest;
    assert s[1..] == DoubleQuotes(cell) + "\"" + rest;
    ReadQuotedEscaped(cell, rest);
  }

  /** `row.map(escape).join(',')` */
  function RowLine(row: seq<string>): string {
    Join(Map(row, Escape), ",")
  }

  /** Reading a written record gives back its cells. */
  lemma {:induction false} RecordRoundTrip(row: seq<string>)
    requires |row| > 0
    ensures ParseRecord(RowLine(row)) == Some(row)
    decreases |row|
  {
    var escaped := Map(row, Escape);
    MapIndex(row, Escape, 0);
    if |row| == 1 {
      EscapeRoundTrip(row[0], "");
      assert Escape(row[0]) + "" == Escape(row[0]);
      assert RowLine(row) == Escape(row[0]);
      assert row == [row[0]];
    } else {
      var rest := Join(escaped[1..], ",");
      MapTail(row, Escape);
      RecordRoundTrip(row[1..]);
      assert RowLine(row) == Escape(row[0]) + ("," + rest);
      EscapeRoundTrip(row[0], "," + rest);
      assert ("," + rest)[1..] == rest;
      assert row == [row[0]] + row[1..];
    }
  }

  const Headers: seq<string> := ["Bill Numbers", "Title", "Category", "Sponsors", "Description"]

  /** The five cells of a bill's row. */
  function Row(categories: seq<Category>, bill: Bill): (row: seq<string>)
    ensures |row| == 5
  {
    [Join(bill.billNumbers, ", "), bill.title, GetCategoryName(categories, bill.category),
     Join(bill.sponsors, ", "), bill.description]
  }

  /** The lines of the file: the header unquoted, then one line per bill. */
  function CsvLines(categories: seq<Category>, bills: seq<Bill>): seq<string> {
    [Join(Headers, ",")] + Map(bills, bill => RowLine(Row(categories, bill)))
  }

  /** The `csvContent` of `exportToCSV`. */
  function CsvContent(categories: seq<Category>, bills: seq<Bill>): string {
    Join(CsvLines(categories, bills), "\n")
  }

  /** The header line is the five names joined by commas, unquoted. */
  lemma HeaderLine()
    ensures Join(Headers, ",") == "Bill Numbers" + "," + "Title" + "," + "Category" + "," + "Sponsors" + "," + "Description"
  {
    JoinFive(Headers, ",");
  }

  lemma JoinFive(parts: seq<string>, sep: string)
    requires |parts| == 5
    ensures Join(parts, sep) == parts[0] + sep + parts[1] + sep + parts[2] + sep + parts[3] + sep + parts[4]
  {
    assert parts[3..][1..] == parts[4..] && parts[2..][1..] == parts[3..] && parts[1..][1..] == parts[2..];
    var j3 := parts[3] + sep + parts[4];
    assert Join(parts[3..], sep) == j3;
    var j2 := parts[2] + sep + j3;
    assert Join(parts[2..], sep) == j2;
    var j1 := parts[1] + sep + j2;
    assert Join(parts[1..], sep) == j1;
    assert Join(parts, sep) == parts[0] + sep + j1;
  }

  /** The file starts with the header line; there is one line per bill after
      it, in order, and each reads back as the bill's five cells: numbers
      and sponsors joined by `, `, the title, the category's name and the
      description. */
  lemma CsvLinesSpec(categories: seq<Category>, bills: seq<Bill>)
    ensures |CsvLines(categories, bills)| == |bills| + 1
    ensures CsvLines(categories, bills)[0] == "Bill Numbers" + "," + "Title" + "," + "Category" + "," + "Sponsors" + "," + "Description"
    ensures forall k :: 0 <= k < |bills| ==> ParseRecord(CsvLines(categories, bills)[k + 1]) == Some(Row(categories, bills[k]))
    ensures StartsWith(CsvContent(categories, bills), Join(Headers, ","))
  {
    var lines := CsvLines(categories, bills);
    HeaderLine();
    forall k | 0 <= k < |bills| ensures ParseRecord(lines[k + 1]) == Some(Row(categories, bills[k])) {
      MapIndex(bills, bill => RowLine(Row(categories, bill)), k);
      RecordRoundTrip(Row(categories, bills[k]));
    }
    if |lines| > 1 {
      assert CsvContent(categories, bills) == lines[0] + "\n" + Join(lines[1..], "\n");
    }
    assert CsvContent(categories, bills)[..|lines[0]|] == lines[0];
  }

  datatype Format = Csv | Pdf

  /** What a click on a menu entry exports: the bills, the format and the
      file name; nothing for a format other than `csv` and `pdf`. */
  datatype Download = Download(bills: seq<Bill>, format: Format, filename: string)

  /** `handleDownload` */
  function HandleDownload(format: string, scope: string, filteredBills: seq<Bill>, allBills: seq<Bill>,
                          isoNow: string): Option<Download>
  {
    var bills := if scope == "filtered" then filteredBills else allBills;
    var scopeText := if scope == "filtered" then "filtered" else "all";
    var timestamp := Split(isoNow, 'T')[0];
    if format == "csv" then Some(Download(bills, Csv, "dc-bills-" + scopeText + "-" + timestamp + ".csv"))
    else if format == "pdf" then Some(Download(bills, Pdf, "dc-bills-" + scopeText + "-" + timestamp + ".pdf"))
    else None
  }

  /** The filtered scope exports the listed bills and any other scope all of
      them; the file name names the scope, the date part of the timestamp
      (everything before its first `T`) and the format. */
  lemma HandleDownloadSpec(format: string, scope: string, filteredBills: seq<Bill>, allBills: seq<Bill>, isoNow: string)
    ensures HandleDownload(format, scope, filteredBills, allBills, isoNow).Some? <==> format == "csv" || format == "pdf"
    ensures var d := HandleDownload(format, scope, filteredBills, allBills, isoNow);
      d.Some? ==>
        var scopeText, date := (if scope == "filtered" then "filtered" else "all"), Split(isoNow, 'T')[0];
        && (d.value.bills == if scope == "filtered" then filteredBills else allBills)
        && 'T' !in date && StartsWith(isoNow, date)
        && d.value.filename == "dc-bills-" + scopeText + "-" + date + "." + format
        && (d.value.format == Csv <==> format == "csv")
  {
    var parts := Split(isoNow, 'T');
    if |parts| > 1 {
      assert isoNow == parts[0] + "T" + Join(parts[1..], "T");
    }
    assert isoNow[..|parts[0]|] == parts[0];
  }
}
