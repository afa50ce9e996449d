/** The data processor panel: `processCsvData` (lines, fields, typed cells, column
    summary) and the `handleProcessData` handler that picks the CSV or the built-in sample. */
module CsvProcessor {
  import opened Common
  import opened JsText

  // ---------------------------------------------------------------------------------------
  // Number.parseFloat

  predicate IsDigit(c: char) {
    '0' <= c <= '9'
  }

  /** Length of the run of decimal digits at the start of `s`. */
  function DigitRun(s: string): (n: nat)
    ensures n <= |s|
    ensures forall i :: 0 <= i < n ==> IsDigit(s[i])
    ensures n == |s| || !IsDigit(s[n])
  {
    if s != [] && IsDigit(s[0]) then 1 + DigitRun(s[1..]) else 0
  }

  /** Length of an exponent part `e[+|-]digits` at the start of `s`, or 0 if there is none. */
  function ExponentLength(s: string): (n: nat)
    ensures n <= |s|
    ensures n > 0 ==> s[0] == 'e' || s[0] == 'E'
  {
    if s != [] && (s[0] == 'e' || s[0] == 'E') then
      var sign := if |s| > 1 && (s[1] == '+' || s[1] == '-') then 1 else 0;
      var k := DigitRun(s[1 + sign..]);
      if k > 0 then 1 + sign + k else 0
    else 0
  }

  const InfinityText: string := "Infinity"

  /** Length of an unsigned decimal literal at the start of `s` (`Infinity`, `digits[.digits]`,
      `.digits`, each decimal form with an optional exponent), or 0 if there is none. */
  function UnsignedLiteralLength(s: string): (n: nat)
    ensures n <= |s|
    ensures n > 0 ==> IsPrefix(InfinityText, s) || exists i :: 0 <= i < n && IsDigit(s[i])
  {
    if IsPrefix(InfinityText, s) then |InfinityText|
    else
      var whole := DigitRun(s);
      var rest := s[whole..];
      var fraction := if rest != [] && rest[0] == '.' then DigitRun(rest[1..]) else 0;
      var mantissa := if rest != [] && rest[0] == '.' then whole + 1 + fraction else whole;
      if whole + fraction == 0 then 0
      else
        assert whole > 0 ==> IsDigit(s[0]);
        assert whole == 0 ==> fraction > 0 && IsDigit(s[1]);
        mantissa + ExponentLength(s[mantissa..])
  }

  /** Length of the longest prefix of `s` that `Number.parseFloat` reads as a number after
      skipping leading white space; 0 exactly when `parseFloat` returns NaN. */
  function NumericPrefixLength(s: string): (n: nat)
    ensures n <= |s|
    ensures s == [] ==> n == 0
  {
    var t := TrimStart(s);
    var skipped := |s| - |t|;
    var sign := if t != [] && (t[0] == '+' || t[0] == '-') then 1 else 0;
    var u := UnsignedLiteralLength(t[sign..]);
    if u == 0 then 0 else skipped + sign + u
  }

  /** A field made only of decimal digits is read entirely as a number. */
  lemma DigitsAreNumeric(s: string)
    requires s != [] && forall i :: 0 <= i < |s| ==> IsDigit(s[i])
    ensures NumericPrefixLength(s) == |s|
  {
    assert !IsJsSpace(s[0]);
    assert TrimStart(s) == s;
    assert s[0..] == s;
    DigitsLiteral(s);
  }

  lemma DigitsLiteral(s: string)
    requires s != [] && forall i :: 0 <= i < |s| ==> IsDigit(s[i])
    ensures UnsignedLiteralLength(s) == |s|
  {
    assert !IsPrefix(InfinityText, s) by {
      assert !IsDigit(InfinityText[0]);
    }
    assert DigitRun(s) == |s|;
    assert s[|s|..] == [];
    assert ExponentLength([]) == 0;
  }

  /** A field with no digit and no `I` (so no `Infinity`) is not a number: `parseFloat` gives NaN.
      This covers text such as "一月" and a lone ".". */
  lemma NoDigitIsNaN(s: string)
    requires forall i :: 0 <= i < |s| ==> !IsDigit(s[i]) && s[i] != 'I'
    ensures NumericPrefixLength(s) == 0
  {
    var t := TrimStart(s);
    var sign := if t != [] && (t[0] == '+' || t[0] == '-') then 1 else 0;
    var v := t[sign..];
    forall i | 0 <= i < |v|
      ensures !IsDigit(v[i]) && v[i] != 'I'
    {
      assert v[i] == s[|s| - |t| + sign + i];
    }
    NoDigitLiteral(v);
  }

  lemma NoDigitLiteral(v: string)
    requires forall i :: 0 <= i < |v| ==> !IsDigit(v[i]) && v[i] != 'I'
    ensures UnsignedLiteralLength(v) == 0
  {
    assert !IsPrefix(InfinityText, v) by {
      if |InfinityText| <= |v| {
        assert v[..|InfinityText|][0] == v[0];
      }
    }
    assert DigitRun(v) == 0;
    if v != [] && v[0] == '.' {
      assert DigitRun(v[1..]) == 0 by {
        if |v| > 1 {
          assert v[1..][0] == v[1];
        }
      }
    }
  }

  /** A parsed cell: a number (kept as the literal text `parseFloat` consumed), the field
      text itself when it is not a number, or `undefined` when the line has too few fields. */
  datatype Cell = Num(literal: string) | Text(text: string) | Missing

  /** `isNaN(parseFloat(value)) ? value : parseFloat(value)` for a present field. */
  function TypeField(value: string): (c: Cell)
    ensures c.Num? <==> NumericPrefixLength(value) > 0
    ensures c.Text? ==> c.text == value
    ensures c.Num? ==> IsPrefix(c.literal, value) && |c.literal| > 0
  {
    var n := NumericPrefixLength(value);
    if n > 0 then Num(value[..n]) else Text(value)
  }

  /** `values[index]`, typed; a missing field is `undefined` (parseFloat of it is NaN). */
  function CellAt(values: seq<string>, index: nat): (c: Cell)
    ensures index >= |values| <==> c.Missing?
  {
    if index < |values| then TypeField(values[index]) else Missing
  }

  type Row = map<string, Cell>

  /** The typed field for each of the first n header indices. */
  function TypedFields(values: seq<string>, n: nat): (r: seq<Cell>)
    ensures |r| == n && forall k :: 0 <= k < n ==> r[k] == CellAt(values, k)
  {
    seq(n, k requires 0 <= k < n => CellAt(values, k))
  }

  /** `headers.forEach((header, index) => row[header] = cells[index])`: a later header with the
      same name overwrites an earlier one. */
  function Assign(headers: seq<string>, cells: seq<Cell>): (row: Row)
    requires |cells| == |headers|
    ensures forall h :: h in row <==> h in headers
  {
    if headers == [] then map[]
    else
      var last := |headers| - 1;
      Assign(headers[..last], cells[..last])[headers[last] := cells[last]]
  }

  /** A cell goes to the LAST header of its name. */
  lemma {:induction false} AssignLastWins(headers: seq<string>, cells: seq<Cell>, i: nat)
    requires |cells| == |headers| && i < |headers|
    requires forall j :: i < j < |headers| ==> headers[j] != headers[i]
    ensures Assign(headers, cells)[headers[i]] == cells[i]
  {
    var last := |headers| - 1;
    if i < last {
      var front, rest := headers[..last], cells[..last];
      assert front[i] == headers[i] && rest[i] == cells[i];
      AssignLastWins(front, rest, i);
    }
  }

  /** The row object for the header names and the fields of one line. */
  function BuildRow(headers: seq<string>, values: seq<string>): (row: Row)
    ensures forall h :: h in row <==> h in headers
  {
    Assign(headers, TypedFields(values, |headers|))
  }

  /** A field goes to the LAST header of its name: for that header index i, the row holds
      the typed field i (or `undefined` past the end of the line). */
  lemma BuildRowLastWins(headers: seq<string>, values: seq<string>, i: nat)
    requires i < |headers|
    requires forall j :: i < j < |headers| ==> headers[j] != headers[i]
    ensures BuildRow(headers, values)[headers[i]] == CellAt(values, i)
  {
    AssignLastWins(headers, TypedFields(values, |headers|), i);
  }

  /** The row object of one data line: its keys are exactly the header names, and the last
      header always receives the trimmed field at its own index. */
  function ParseRow(headers: seq<string>, line: string): (row: Row)
    ensures forall h :: h in row <==> h in headers
    ensures headers != [] ==>
              row[headers[|headers| - 1]] == CellAt(MapTrim(Split(line, ',')), |headers| - 1)
  {
    var values := MapTrim(Split(line, ','));
    assert headers != [] ==> BuildRow(headers, values)[headers[|headers| - 1]] == CellAt(values, |headers| - 1) by {
      if headers != [] {
        BuildRowLastWins(headers, values, |headers| - 1);
      }
    }
    BuildRow(headers, values)
  }

  // ---------------------------------------------------------------------------------------
  // The column summary

  datatype Summary = Summary(totalRows: nat, totalColumns: nat,
                             numericColumns: seq<string>, categoricalColumns: seq<string>)

  datatype Table = Table(headers: seq<string>, rows: seq<Row>, summary: Summary)

  predicate SomeNumeric(rows: seq<Row>, h: string) {
    exists k :: 0 <= k < |rows| && h in rows[k] && rows[k][h].Num?
  }

  predicate AllText(rows: seq<Row>, h: string) {
    forall k :: 0 <= k < |rows| ==> h in rows[k] && rows[k][h].Text?
  }

  /** `headers.filter((h) => data.some((row) => typeof row[h] === "number"))`. */
  function NumericColumns(headers: seq<string>, rows: seq<Row>): (r: seq<string>)
    ensures |r| <= |headers|
    ensures forall k :: 0 <= k < |r| ==> r[k] in headers && SomeNumeric(rows, r[k])
  {
    if headers == [] then []
    else
      var init := NumericColumns(headers[..|headers| - 1], rows);
      var h := headers[|headers| - 1];
      if SomeNumeric(rows, h) then init + [h] else init
  }

  /** `headers.filter((h) => data.every((row) => typeof row[h] === "string"))`. */
  function CategoricalColumns(headers: seq<string>, rows: seq<Row>): (r: seq<string>)
    ensures |r| <= |headers|
    ensures forall k :: 0 <= k < |r| ==> r[k] in headers && AllText(rows, r[k])
  {
    if headers == [] then []
    else
      var init := CategoricalColumns(headers[..|headers| - 1], rows);
      var h := headers[|headers| - 1];
      if AllText(rows, h) then init + [h] else init
  }

  /** The numeric columns are exactly the headers with a number in some row. */
  lemma {:induction false} NumericColumnsMembers(headers: seq<string>, rows: seq<Row>)
    ensures forall h :: h in NumericColumns(headers, rows) <==> h in headers && SomeNumeric(rows, h)
    ensures |NumericColumns(headers, rows)| <= |headers|
    ensures forall h :: multiset(NumericColumns(headers, rows))[h] ==
              if SomeNumeric(rows, h) then multiset(headers)[h] else 0
  {
    if headers != [] {
      var front := headers[..|headers| - 1];
      NumericColumnsMembers(front, rows);
      assert headers == front + [headers[|headers| - 1]];
      assert forall g :: g in headers <==> g in front || g == headers[|headers| - 1];
    }
  }

  /** The filter keeps header order: the columns of `a + b` are those of `a` followed by those
      of `b`. */
  lemma {:induction false} NumericColumnsConcat(a: seq<string>, b: seq<string>, rows: seq<Row>)
    ensures NumericColumns(a + b, rows) == NumericColumns(a, rows) + NumericColumns(b, rows)
  {
    if b == [] {
      assert a + b == a;
    } else {
      var init, last := b[..|b| - 1], b[|b| - 1];
      var tail := if SomeNumeric(rows, last) then [last] else [];
      NumericColumnsConcat(a, init, rows);
      assert (a + b)[..|a + b| - 1] == a + init;
      assert (a + b)[|a + b| - 1] == last;
      assert NumericColumns(a + b, rows) == NumericColumns(a + init, rows) + tail;
      assert NumericColumns(b, rows) == NumericColumns(init, rows) + tail;
      var fa, fi := NumericColumns(a, rows), NumericColumns(init, rows);
      assert (fa + fi) + tail == fa + (fi + tail);
    }
  }

  /** A single header is kept exactly when it qualifies. */
  lemma NumericColumnsSingle(rows: seq<Row>, h: string)
    ensures NumericColumns([h], rows) == if SomeNumeric(rows, h) then [h] else []
  {
    assert [h][..0] == [];
  }

  /** The categorical columns are exactly the headers holding text in every row. */
  lemma {:induction false} CategoricalColumnsMembers(headers: seq<string>, rows: seq<Row>)
    ensures forall h :: h in CategoricalColumns(headers, rows) <==> h in headers && AllText(rows, h)
    ensures |CategoricalColumns(headers, rows)| <= |headers|
    ensures forall h :: multiset(CategoricalColumns(headers, rows))[h] ==
              if AllText(rows, h) then multiset(headers)[h] else 0
  {
    if headers != [] {
      var front := headers[..|headers| - 1];
      CategoricalColumnsMembers(front, rows);
      assert headers == front + [headers[|headers| - 1]];
      assert forall g :: g in headers <==> g in front || g == headers[|headers| - 1];
    }
  }

  /** The filter keeps header order: the columns of `a + b` are those of `a` followed by those
      of `b`. */
  lemma {:induction false} CategoricalColumnsConcat(a: seq<string>, b: seq<string>, rows: seq<Row>)
    ensures CategoricalColumns(a + b, rows) == CategoricalColumns(a, rows) + CategoricalColumns(b, rows)
  {
    if b == [] {
      assert a + b == a;
    } else {
      var init, last := b[..|b| - 1], b[|b| - 1];
      var tail := if AllText(rows, last) then [last] else [];
      CategoricalColumnsConcat(a, init, rows);
      assert (a + b)[..|a + b| - 1] == a + init;
      assert (a + b)[|a + b| - 1] == last;
      assert CategoricalColumns(a + b, rows) == CategoricalColumns(a + init, rows) + tail;
      assert CategoricalColumns(b, rows) == CategoricalColumns(init, rows) + tail;
      var fa, fi := CategoricalColumns(a, rows), CategoricalColumns(init, rows);
      assert (fa + fi) + tail == fa + (fi + tail);
    }
  }

  /** A single header is kept exactly when it qualifies. */
  lemma CategoricalColumnsSingle(rows: seq<Row>, h: string)
    ensures CategoricalColumns([h], rows) == if AllText(rows, h) then [h] else []
  {
    assert [h][..0] == [];
  }

  /** A column holding `undefined` in a row (a short line) is never categorical, and if no row
      has a number in it, it is in neither list. */
  lemma MissingCellColumns(headers: seq<string>, rows: seq<Row>, h: string, k: nat)
    requires k < |rows| && h in rows[k] && rows[k][h].Missing?
    ensures h !in CategoricalColumns(headers, rows)
    ensures (forall j :: 0 <= j < |rows| && h in rows[j] ==> !rows[j][h].Num?) ==>
              h !in NumericColumns(headers, rows)
  {
    NumericColumnsMembers(headers, rows);
    CategoricalColumnsMembers(headers, rows);
  }

  /** The summary counts rows and columns and lists the two column kinds, which never share
      a column. */
  function Summarize(headers: seq<string>, rows: seq<Row>): (r: Summary)
    ensures r.totalRows == |rows| && r.totalColumns == |headers|
    ensures |r.numericColumns| <= |headers| && |r.categoricalColumns| <= |headers|
    ensures forall h :: h in r.numericColumns ==> h !in r.categoricalColumns
  {
    Summary(|rows|, |headers|, NumericColumns(headers, rows), CategoricalColumns(headers, rows))
  }

  // ---------------------------------------------------------------------------------------
  // processCsvData

  /** `processCsvData(csvText)`: None stands for `null`. */
  function ParseCsv(csvText: string): (r: Option<Table>)
    ensures r.Some? ==> r.value.summary.totalColumns == |r.value.headers|
    ensures r.Some? ==> r.value.summary.totalRows == |r.value.rows|
  {
    var lines := Split(Trim(csvText), '\n');
    if |lines| < 2 then None
    else
      var headers := MapTrim(Split(lines[0], ','));
      var rows := ParseRows(headers, lines[1..]);
      Some(Table(headers, rows, Summarize(headers, rows)))
  }

  /** `lines.slice(1).map(...)`: one row object per data line, in order. */
  function ParseRows(headers: seq<string>, lines: seq<string>): (rows: seq<Row>)
    ensures |rows| == |lines|
    ensures forall k :: 0 <= k < |lines| ==> rows[k] == ParseRow(headers, lines[k])
  {
    if lines == [] then []
    else ParseRows(headers, lines[..|lines| - 1]) + [ParseRow(headers, lines[|lines| - 1])]
  }

  /** The text is rejected (`null`) exactly when, once trimmed, it holds no line break; otherwise
      there is one row per line after the header line. */
  lemma ParseCsvShape(csvText: string)
    ensures ParseCsv(csvText).None? <==> '\n' !in Trim(csvText)
    ensures ParseCsv(csvText).Some? ==> |ParseCsv(csvText).value.rows| == Occurrences(Trim(csvText), '\n')
  {
    SplitCount(Trim(csvText), '\n');
    OccurrencesZero(Trim(csvText), '\n');
  }

  /** The headers are the trimmed comma-separated fields of the first line, in order, and
      row k is built from line k + 1 (after the header line). */
  lemma ParseCsvRows(csvText: string, k: nat)
    requires ParseCsv(csvText).Some?
    ensures var lines := Split(Trim(csvText), '\n');
            var t := ParseCsv(csvText).value;
            && t.headers == MapTrim(Split(lines[0], ','))
            && (k < |t.rows| ==> k + 1 < |lines| && t.rows[k] == ParseRow(t.headers, lines[k + 1]))
  {
    var lines := Split(Trim(csvText), '\n');
    var headers := MapTrim(Split(lines[0], ','));
    var rows := ParseRows(headers, lines[1..]);
    var table := Table(headers, rows, Summarize(headers, rows));
    assert ParseCsv(csvText) == Some(table);
    if k < |rows| {
      assert rows[k] == ParseRow(headers, lines[k + 1]);
    }
  }

  // ---------------------------------------------------------------------------------------
  // The fixed result used for every other source

  function SampleRow(month: string, sales: string, users: string, rate: string): Row {
    map["月份" := Text(month), "销售额" := Num(sales), "用户数" := Num(users), "转化率" := Num(rate)]
  }

  function SampleTable(): Table {
    Table(["月份", "销售额", "用户数", "转化率"],
          [SampleRow("一月", "65000", "1200", "5.4"),
           SampleRow("二月", "59000", "1100", "5.1"),
           SampleRow("三月", "80000", "1500", "6.2"),
           SampleRow("四月", "81000", "1450", "6.0"),
           SampleRow("五月", "56000", "1000", "4.8"),
           SampleRow("六月", "55000", "980", "4.9")],
          Summary(6, 4, ["销售额", "用户数", "转化率"], ["月份"]))
  }

  lemma SampleColumnKinds()
    ensures var rows := SampleTable().rows;
            && AllText(rows, "月份") && !SomeNumeric(rows, "月份")
            && SomeNumeric(rows, "销售额") && !AllText(rows, "销售额")
            && SomeNumeric(rows, "用户数") && !AllText(rows, "用户数")
            && SomeNumeric(rows, "转化率") && !AllText(rows, "转化率")
  {
    var rows: seq<Row> := SampleTable().rows;
    assert forall k :: 0 <= k < |rows| ==> rows[k]["月份"].Text?;
    assert rows[0]["销售额"].Num? && rows[0]["用户数"].Num? && rows[0]["转化率"].Num?;
  }

  const SampleHeaders: seq<string> := ["月份", "销售额", "用户数", "转化率"]

  /** The hard-coded summary of the sample is exactly the one `processCsvData` would compute
      for its rows, order included. */
  lemma SampleSummaryConsistent()
    ensures var t := SampleTable();
            t.summary == Summarize(t.headers, t.rows)
  {
    var t := SampleTable();
    SampleColumnKinds();
    assert t.headers == SampleHeaders;
    SummaryOfKinds(t.rows);
  }

  /** The summary of any rows whose columns have the sample's kinds. */
  lemma SummaryOfKinds(rows: seq<Row>)
    requires AllText(rows, "月份") && !SomeNumeric(rows, "月份")
    requires SomeNumeric(rows, "销售额") && !AllText(rows, "销售额")
    requires SomeNumeric(rows, "用户数") && !AllText(rows, "用户数")
    requires SomeNumeric(rows, "转化率") && !AllText(rows, "转化率")
    ensures Summarize(SampleHeaders, rows) == Summary(|rows|, 4, ["销售额", "用户数", "转化率"], ["月份"])
  {
    var hs := SampleHeaders;
    var h1, h2, h3 := hs[..1], hs[..2], hs[..3];
    assert h1[..0] == [] && h2[..1] == h1 && h3[..2] == h2 && hs[..3] == h3;
    assert h1[0] == "月份" && h2[1] == "销售额" && h3[2] == "用户数" && hs[3] == "转化率";
    assert NumericColumns(h1, rows) == [];
    assert NumericColumns(h2, rows) == ["销售额"];
    assert NumericColumns(h3, rows) == ["销售额", "用户数"];
    assert NumericColumns(hs, rows) == ["销售额", "用户数", "转化率"];
    assert CategoricalColumns(h1, rows) == ["月份"];
    assert CategoricalColumns(h2, rows) == ["月份"];
    assert CategoricalColumns(h3, rows) == ["月份"];
    assert CategoricalColumns(hs, rows) == ["月份"];
  }

  const CsvUpload: string := "csv-upload"

  /** The source-selection branch of `handleProcessData`: only a non-empty upload is parsed, by
      `processCsvData`; every other source, and an empty upload, yields the sample. The result
      is `null` exactly for a non-empty upload whose trimmed text has no line break. */
  function ProcessSource(selectedSource: string, csvData: string): (r: Option<Table>)
    ensures selectedSource != CsvUpload || csvData == [] ==> r == Some(SampleTable())
    ensures selectedSource == CsvUpload && csvData != [] ==> r == ParseCsv(csvData)
    ensures r.None? <==> selectedSource == CsvUpload && csvData != [] && '\n' !in Trim(csvData)
  {
    ParseCsvShape(csvData);
    if selectedSource == CsvUpload && csvData != [] then ParseCsv(csvData) else Some(SampleTable())
  }

  // ---------------------------------------------------------------------------------------
  // The panel state

  class DataProcessor {
    var selectedSource: string
    var csvData: string
    var isProcessing: bool
    var processedData: Option<Table>
    /** Whether the parent passed `onDataProcessed`. */
    const hasCallback: bool

    constructor (hasCallback: bool)
      ensures selectedSource == [] && csvData == [] && !isProcessing && processedData == None
      ensures this.hasCallback == hasCallback
    {
      selectedSource := [];
      csvData := [];
      isProcessing := false;
      processedData := None;
      this.hasCallback := hasCallback;
    }

    /** The process button is enabled when a source is chosen and nothing is running. */
    function CanProcess(): (r: bool)
      reads this
      ensures r <==> selectedSource != [] && !isProcessing
    {
      selectedSource != [] && !isProcessing
    }

    method SelectSource(id: string)
      modifies this`selectedSource
      ensures selectedSource == id
    {
      selectedSource := id;
    }

    method EditCsv(text: string)
      modifies this`csvData
      ensures csvData == text
    {
      csvData := text;
    }

    /** `handleProcessData` up to its `await`: the panel shows it is busy. */
    method BeginProcessing()
      modifies this`isProcessing
      ensures isProcessing
    {
      isProcessing := true;
    }

    /** `handleProcessData` after its `await`: store the result, clear the busy flag and hand
        the result to `onDataProcessed`, which happens only for a non-null result. */
    method FinishProcessing() returns (delivered: Option<Table>)
      modifies this`processedData, this`isProcessing
      ensures processedData == ProcessSource(selectedSource, csvData)
      ensures !isProcessing
      ensures delivered.Some? <==> processedData.Some? && hasCallback
      ensures delivered.Some? ==> delivered == processedData
    {
      var processed := ProcessSource(selectedSource, csvData);
      delivered := Deliver(processed);
    }

    /** The three state updates after processing, for whatever result it produced. */
    method Deliver(processed: Option<Table>) returns (delivered: Option<Table>)
      modifies this`processedData, this`isProcessing
      ensures processedData == processed && !isProcessing
      ensures delivered.Some? <==> processed.Some? && hasCallback
      ensures delivered.Some? ==> delivered == processed
    {
      processedData := processed;
      isProcessing := false;
      if processed.Some? && hasCallback {
        delivered := processed;
      } else {
        delivered := None;
      }
    }
  }
}
