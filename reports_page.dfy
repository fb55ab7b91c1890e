// The CSV text the reports page offers for download: a header line of the
// first row's keys, then one line per row with every value quoted and its
// quotes doubled (rules 6 and 7 of section 2 of RFC 4180), lines joined by
// LF. A reader for that format shows that the text gives the values back.
module ReportsPage {
  import opened Wrappers
  import opened Text

  /** A report row as the page receives it: its keys in order, each with its value as `String(value)` gives it. */
  type Row = seq<(string, string)>

  /** `Object.keys(row)`. */
  function Keys(row: Row): (ks: seq<string>)
    ensures |ks| == |row|
    ensures forall i :: 0 <= i < |row| ==> ks[i] == row[i].0
  {
    seq(|row|, i requires 0 <= i < |row| => row[i].0)
  }

  /** `String(row[key])`: the value under `key`, or "undefined" when the row has no such key. */
  function Field(row: Row, key: string): (v: string)
    ensures (exists i :: 0 <= i < |row| && row[i].0 == key) ==>
      exists i :: 0 <= i < |row| && row[i].0 == key && v == row[i].1 && forall j :: 0 <= j < i ==> row[j].0 != key
    ensures (forall i :: 0 <= i < |row| ==> row[i].0 != key) ==> v == "undefined"
  {
    if row == [] then "undefined"
    else if row[0].0 == key then row[0].1
    else
      var v := Field(row[1..], key);
      assert forall i :: 1 <= i < |row| ==> row[i] == row[1..][i - 1];
      v
  }

  /** `s.replace(/"/g, '""')`. */
  function Doubled(s: string): (r: string)
    ensures |r| >= |s|
    ensures '"' !in s ==> r == s
  {
    if s == [] then ""
    else (if s[0] == '"' then "\"\"" else [s[0]]) + Doubled(s[1..])
  }

  /** One cell: the value in double quotes, its own double quotes doubled. */
  function Cell(v: string): (c: string)
    ensures |c| >= |v| + 2 && c[0] == '"' && c[|c| - 1] == '"'
  {
    "\"" + Doubled(v) + "\""
  }

  function Cells(values: seq<string>): (cs: seq<string>)
    ensures |cs| == |values|
    ensures forall i :: 0 <= i < |values| ==> cs[i] == Cell(values[i])
  {
    seq(|values|, i requires 0 <= i < |values| => Cell(values[i]))
  }

  /** The line of one row: its values in header order, as cells separated by commas. */
  function RowLine(headers: seq<string>, row: Row): string
  {
    Join(Cells(FieldsOf(headers, row)), ",")
  }

  function FieldsOf(headers: seq<string>, row: Row): (vs: seq<string>)
    ensures |vs| == |headers|
    ensures forall j :: 0 <= j < |headers| ==> vs[j] == Field(row, headers[j])
  {
    seq(|headers|, j requires 0 <= j < |headers| => Field(row, headers[j]))
  }

  function RowLines(headers: seq<string>, data: seq<Row>): (ls: seq<string>)
    ensures |ls| == |data|
    ensures forall i :: 0 <= i < |data| ==> ls[i] == RowLine(headers, data[i])
  {
    seq(|data|, i requires 0 <= i < |data| => RowLine(headers, data[i]))
  }

  /** `downloadCSV`'s text: nothing for an empty report. */
  function DownloadCsv(data: seq<Row>): (csv: Option<string>)
    ensures csv.None? <==> data == []
  {
    if data == [] then None
    else
      var headers := Keys(data[0]);
      Some(Join([Join(headers, ",")] + RowLines(headers, data), "\n"))
  }

  // ---------------------------------------------------------------------
  // Reading the format back.

  /**
   * Reads a quoted value whose opening quote has been consumed: a doubled
   * quote stands for one quote, a single quote ends the value. Yields the
   * value and the text after the closing quote.
   */
  function ReadQuoted(s: string): (r: Option<(string, string)>)
    ensures r.Some? ==> |r.value.1| < |s|
    decreases |s|
  {
    if s == [] then None
    else if s[0] == '"' then
      if |s| >= 2 && s[1] == '"' then
        match ReadQuoted(s[2..])
        case None => None
        case Some(p) => Some((['"'] + p.0, p.1))
      else Some(("", s[1..]))
    else
      match ReadQuoted(s[1..])
      case None => None
      case Some(p) => Some(([s[0]] + p.0, p.1))
  }

  /** One quoted field at the start of `s`, and what follows it. */
  function ParseField(s: string): (r: Option<(string, string)>)
    ensures r.Some? ==> |r.value.1| < |s|
  {
    if s != [] && s[0] == '"' then ReadQuoted(s[1..]) else None
  }

  /** The comma-separated fields of one record, and the text after its last field. */
  function ParseRecord(s: string): (r: Option<(seq<string>, string)>)
    ensures r.Some? ==> |r.value.1| < |s|
    decreases |s|
  {
    match ParseField(s)
    case None => None
    case Some(p) =>
      var rest := p.1;
      if rest != [] && rest[0] == ',' then
        match ParseRecord(rest[1..])
        case None => None
        case Some(q) => Some(([p.0] + q.0, q.1))
      else Some(([p.0], rest))
  }

  /** Records separated by line feeds. */
  function ParseRecords(s: string): (r: Option<seq<seq<string>>>)
    decreases |s|
  {
    if s == [] then Some([])
    else
      match ParseRecord(s)
      case None => None
      case Some(p) =>
        if p.1 == [] then Some([p.0])
        else if p.1[0] == '\n' then
          match ParseRecords(p.1[1..])
          case None => None
          case Some(more) => Some([p.0] + more)
        else None
  }

  /** Undoubling reads a doubled value back, up to its closing quote. */
  lemma {:induction false} ReadQuotedDoubled(v: string, rest: string)
    requires rest == [] || rest[0] != '"'
    ensures ReadQuoted(Doubled(v) + "\"" + rest) == Some((v, rest))
    decreases |v|
  {
    if v == [] {
      var s := "\"" + rest;
      assert Doubled(v) + "\"" + rest == s;
      assert s[1..] == rest;
    } else {
      ReadQuotedDoubled(v[1..], rest);
      DoubledStep(v, rest);
    }
  }

  /** One more character in front of the value: one more step of the reader. */
  lemma DoubledStep(v: string, rest: string)
    requires v != []
    requires ReadQuoted(Doubled(v[1..]) + "\"" + rest) == Some((v[1..], rest))
    ensures ReadQuoted(Doubled(v) + "\"" + rest) == Some((v, rest))
  {
    var d := Doubled(v[1..]);
    var tail := d + "\"" + rest;
    if v[0] == '"' {
      DoubledPrefix(v, "\"\"", d, rest);
      QuoteStep(Doubled(v) + "\"" + rest, tail, v[1..], rest);
      assert ['"'] + v[1..] == v;
    } else {
      DoubledPrefix(v, [v[0]], d, rest);
      CharStep(Doubled(v) + "\"" + rest, v[0], tail, v[1..], rest);
      assert [v[0]] + v[1..] == v;
    }
  }

  /** The doubled text, with its closing quote and what follows, splits after the first character's image. */
  lemma DoubledPrefix(v: string, first: string, d: string, rest: string)
    requires v != [] && d == Doubled(v[1..])
    requires first == if v[0] == '"' then "\"\"" else [v[0]]
    ensures Doubled(v) + "\"" + rest == first + (d + "\"" + rest)
  {
    assert Doubled(v) == first + d;
  }

  /** A doubled quote reads as one quote. */
  lemma QuoteStep(s: string, tail: string, w: string, rest: string)
    requires s == "\"\"" + tail
    requires ReadQuoted(tail) == Some((w, rest))
    ensures ReadQuoted(s) == Some((['"'] + w, rest))
  {
    assert s[2..] == tail;
  }

  /** Any other character reads as itself. */
  lemma CharStep(s: string, c: char, tail: string, w: string, rest: string)
    requires c != '"' && s == [c] + tail
    requires ReadQuoted(tail) == Some((w, rest))
    ensures ReadQuoted(s) == Some(([c] + w, rest))
  {
    assert s[1..] == tail;
  }

  /** Round trip of one cell: stripping the quotes and halving the doubled ones gives the value back. */
  lemma CellRoundTrip(v: string, rest: string)
    requires rest == [] || rest[0] != '"'
    ensures ParseField(Cell(v) + rest) == Some((v, rest))
  {
    ReadQuotedDoubled(v, rest);
    assert (Cell(v) + rest)[1..] == Doubled(v) + "\"" + rest;
  }

  /** A line of cells reads back as its values, whatever line break follows it. */
  lemma {:induction false} RecordRoundTrip(values: seq<string>, rest: string)
    requires values != []
    requires rest == [] || rest[0] == '\n'
    ensures ParseRecord(Join(Cells(values), ",") + rest) == Some((values, rest))
    decreases |values|
  {
    var cells := Cells(values);
    if |values| == 1 {
      assert Join(cells, ",") == Cell(values[0]);
      CellRoundTrip(values[0], rest);
      assert [values[0]] == values;
    } else {
      var tail := Join(Cells(values[1..]), ",") + rest;
      assert cells[1..] == Cells(values[1..]);
      assert Join(cells, ",") + rest == Cell(values[0]) + ("," + tail);
      CellRoundTrip(values[0], "," + tail);
      assert ("," + tail)[1..] == tail;
      RecordRoundTrip(values[1..], rest);
      assert [values[0]] + values[1..] == values;
    }
  }

  function RecordLines(records: seq<seq<string>>): (ls: seq<string>)
    ensures |ls| == |records|
    ensures forall i :: 0 <= i < |records| ==> ls[i] == Join(Cells(records[i]), ",")
  {
    seq(|records|, i requires 0 <= i < |records| => Join(Cells(records[i]), ","))
  }

  /** Records of quoted cells, one per line, read back as the records. */
  lemma {:induction false} RecordsRoundTrip(records: seq<seq<string>>)
    requires forall i :: 0 <= i < |records| ==> records[i] != []
    ensures ParseRecords(Join(RecordLines(records), "\n")) == Some(records)
    decreases |records|
  {
    var ls := RecordLines(records);
    if |records| == 0 {
    } else if |records| == 1 {
      assert Join(ls, "\n") == ls[0];
      RecordRoundTrip(records[0], "");
      assert ls[0] + "" == ls[0];
      assert ParseRecord(ls[0]) == Some((records[0], ""));
      JoinCellsStartsWithQuote(records[0]);
      assert [records[0]] == records;
    } else {
      var tail := Join(RecordLines(records[1..]), "\n");
      assert ls[1..] == RecordLines(records[1..]);
      assert Join(ls, "\n") == ls[0] + ("\n" + tail);
      RecordRoundTrip(records[0], "\n" + tail);
      JoinCellsStartsWithQuote(records[0]);
      assert ("\n" + tail)[1..] == tail;
      RecordsRoundTrip(records[1..]);
      assert [records[0]] + records[1..] == records;
    }
  }

  lemma JoinCellsStartsWithQuote(values: seq<string>)
    requires values != []
    ensures |Join(Cells(values), ",")| > 0 && Join(Cells(values), ",")[0] == '"'
  {
    var cells := Cells(values);
    if |values| > 1 {
      assert Join(cells, ",") == cells[0] + "," + Join(cells[1..], ",");
    }
  }

  // ---------------------------------------------------------------------
  // The header line.

  /** Joining pieces none of which holds `sep`, then splitting on `sep`, gives the pieces back. */
  lemma {:induction false} JoinThenSplit(parts: seq<string>, sep: char)
    requires parts != []
    requires forall i :: 0 <= i < |parts| ==> sep !in parts[i]
    ensures Split(Join(parts, [sep]), sep) == parts
    decreases |parts|
  {
    if |parts| == 1 {
      assert IndexOf(parts[0], sep) == None;
    } else {
      var tail := Join(parts[1..], [sep]);
      assert Join(parts, [sep]) == parts[0] + [sep] + tail;
      IndexOfFirst(parts[0], sep, tail);
      assert (parts[0] + [sep] + tail)[..|parts[0]|] == parts[0];
      assert (parts[0] + [sep] + tail)[|parts[0]| + 1..] == tail;
      JoinThenSplit(parts[1..], sep);
      assert [parts[0]] + parts[1..] == parts;
    }
  }

  /** A character in none of the pieces nor in the separator is not in their join. */
  lemma {:induction false} JoinAvoids(parts: seq<string>, sep: string, c: char)
    requires c !in sep
    requires forall i :: 0 <= i < |parts| ==> c !in parts[i]
    ensures c !in Join(parts, sep)
    decreases |parts|
  {
    if |parts| > 1 {
      JoinAvoids(parts[1..], sep, c);
    }
  }

  /**
   * The downloaded text reads back: the header line splits into the first
   * row's keys, and the lines after it parse into every row's values in
   * header order (a key a row lacks reads as "undefined").
   */
  lemma CsvReadsBack(data: seq<Row>)
    requires data != [] && Keys(data[0]) != []
    requires forall i :: 0 <= i < |data[0]| ==> ',' !in data[0][i].0 && '\n' !in data[0][i].0
    ensures var csv := DownloadCsv(data).value;
      var header := BeforeFirst(csv, '\n');
      && Split(header, ',') == Keys(data[0])
      && |header| < |csv|
      && ParseRecords(csv[|header| + 1..]) == Some(seq(|data|, i requires 0 <= i < |data| => FieldsOf(Keys(data[0]), data[i])))
  {
    var headers := Keys(data[0]);
    var records := seq(|data|, i requires 0 <= i < |data| => FieldsOf(headers, data[i]));
    var headerLine := Join(headers, ",");
    var body := Join(RowLines(headers, data), "\n");
    assert RowLines(headers, data) == RecordLines(records);
    assert ([headerLine] + RowLines(headers, data))[1..] == RowLines(headers, data);
    var csv := DownloadCsv(data).value;
    assert csv == headerLine + "\n" + body;
    JoinAvoids(headers, ",", '\n');
    BeforeFirstOf(headerLine, '\n', body);
    JoinThenSplit(headers, ',');
    assert csv[|headerLine| + 1..] == body;
    RecordsRoundTrip(records);
  }
}
