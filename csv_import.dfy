/** The CSV import wizard: a file chosen by name, its text read, split into
    lines and comma-separated fields, the headers matched to the expected
    columns, up to ten rows previewed and checked, the column mapping
    confirmed, and every error-free preview row dispatched as a transaction.
    The file reader's result, the current time and the date formatter are
    inputs; alerts are returned as messages. Fields are split on every comma,
    without the quoted-field rules of section 2 of RFC 4180. */
module CsvImport {
  import opened Util
  import opened Text
  import opened Records
  import opened AppReducer

  const DateKey: string := "date"
  const DescriptionKey: string := "description"
  const AmountKey: string := "amount"
  const ExpectedColumns: seq<string> := [DateKey, DescriptionKey, AmountKey, "category"]
  const PreviewLimit: nat := 10

  const NotCsvAlert: string := "Please upload a CSV file"
  const TooShortError: string := "File must contain at least a header row and one data row"
  const ReadError: string := "Failed to read file"
  const MappingError: string := "Please map all required columns: Date, Description, and Amount"
  const NoDataError: string := "No data to import"
  const RowPrefix: string := "Row "
  const MissingDate: string := "Missing date"
  const MissingDescription: string := "Missing description"
  const InvalidAmount: string := "Invalid amount"

  /** One previewed data line: its fields by header, its line index among the
      non-blank lines, and what is wrong with it. */
  datatype PreviewRow = PreviewRow(original: Dict<string, string>, rowNumber: nat, errors: seq<string>)

  // ----------------------------------------------------------- parsing

  /** `name.toLowerCase().endsWith('.csv')`. */
  predicate IsCsvName(name: string) {
    EndsWith(ToLower(name), ".csv")
  }

  /** `content.split('\n').filter(line => line.trim() !== '')`. */
  function NonBlankLines(content: string): (r: seq<string>)
  {
    NonBlank(Split(content, '\n'))
  }

  function NonBlank(ls: seq<string>): (r: seq<string>)
    ensures forall l :: l in r <==> l in ls && Trim(l) != ""
  {
    if |ls| == 0 then [] else (if Trim(ls[0]) != "" then [ls[0]] else []) + NonBlank(ls[1..])
  }

  /** `line.split(',').map(v => v.trim())`. */
  function Fields(line: string): (r: seq<string>)
    ensures |r| == |Split(line, ',')|
    ensures forall i :: 0 <= i < |r| ==> r[i] == Trim(Split(line, ',')[i])
  {
    var parts := Split(line, ',');
    seq(|parts|, i requires 0 <= i < |parts| => Trim(parts[i]))
  }

  /** The header line's fields, trimmed and lower-cased. */
  function Headers(line: string): (r: seq<string>)
    ensures |r| == |Fields(line)|
    ensures forall i :: 0 <= i < |r| ==> r[i] == ToLower(Fields(line)[i])
  {
    var fields := Fields(line);
    seq(|fields|, i requires 0 <= i < |fields| => ToLower(fields[i]))
  }

  /** `h.includes(expected) || expected.includes(h)`. */
  predicate Related(h: string, expected: string) {
    Contains(h, expected) || Contains(expected, h)
  }

  /** `headers.find(...)`: the index of the first related header. */
  function FindHeader(headers: seq<string>, expected: string): (r: Option<nat>)
    ensures r.Some? ==> r.value < |headers| && Related(headers[r.value], expected)
    ensures r.Some? ==> forall j :: 0 <= j < r.value ==> !Related(headers[j], expected)
    ensures r.None? ==> forall j :: 0 <= j < |headers| ==> !Related(headers[j], expected)
  {
    if |headers| == 0 then None
    else if Related(headers[0], expected) then Some(0)
    else
      match FindHeader(headers[1..], expected)
      case Some(k) => assert forall j :: 1 <= j <= k ==> headers[j] == headers[1..][j - 1]; Some(k + 1)
      case None => assert forall j :: 1 <= j < |headers| ==> headers[j] == headers[1..][j - 1]; None
  }

  /** The header an expected column is mapped to: the first related header,
      unless that header is empty (a falsy find result maps nothing). */
  function MappedHeader(headers: seq<string>, expected: string): Option<string> {
    match FindHeader(headers, expected)
    case Some(i) => if headers[i] == "" then None else Some(headers[i])
    case None => None
  }

  /** The mapping the forEach over `cols` builds. */
  function MappingFor(headers: seq<string>, cols: seq<string>): (m: Dict<string, string>)
    decreases |cols|
  {
    if |cols| == 0 then []
    else
      var m := MappingFor(headers, cols[..|cols| - 1]);
      var c := cols[|cols| - 1];
      match MappedHeader(headers, c)
      case Some(h) => Put(m, c, h)
      case None => m
  }

  lemma {:induction false} MappingForGet(headers: seq<string>, cols: seq<string>, c: string)
    ensures Get(MappingFor(headers, cols), c) == (if c in cols then MappedHeader(headers, c) else None)
    decreases |cols|
  {
    if |cols| > 0 {
      var init := cols[..|cols| - 1];
      MappingForGet(headers, init, c);
      assert cols == init + [cols[|cols| - 1]];
      assert c in cols <==> c in init || c == cols[|cols| - 1];
    }
  }

  /** The auto-detected mapping: each expected column holds its mapped header,
      and no other key is present. */
  function AutoMapping(headers: seq<string>): (m: Dict<string, string>)
    ensures forall c :: Get(m, c) == (if c in ExpectedColumns then MappedHeader(headers, c) else None)
  {
    forall c ensures Get(MappingFor(headers, ExpectedColumns), c) == (if c in ExpectedColumns then MappedHeader(headers, c) else None) {
      MappingForGet(headers, ExpectedColumns, c);
    }
    MappingFor(headers, ExpectedColumns)
  }

  /** A header equal to the column name, with no related header before it, is
      what the column is mapped to. */
  lemma ExactHeaderMapped(headers: seq<string>, i: int)
    requires 0 <= i < |headers| && headers[i] in ExpectedColumns
    requires forall j :: 0 <= j < i ==> !Related(headers[j], headers[i])
    ensures Get(AutoMapping(headers), headers[i]) == Some(headers[i])
  {
    assert [] <= headers[i];
    assert headers[i] <= headers[i];
    var f := FindHeader(headers, headers[i]);
    assert f == Some(i);
  }

  /** An empty first header is related to every column, and being falsy it maps
      nothing: the whole auto-mapping comes out empty. */
  lemma EmptyFirstHeaderMapsNothing(headers: seq<string>, c: string)
    requires |headers| > 0 && headers[0] == ""
    ensures Get(AutoMapping(headers), c) == None
  {
    assert [] <= c;
    assert Related(headers[0], c);
  }

  /** `row[header] = values[index] || ''` over the headers in order; a repeated
      header keeps its first position and its last value. */
  function RowOf(headers: seq<string>, values: seq<string>): (row: Dict<string, string>)
    decreases |headers|
  {
    if |headers| == 0 then []
    else
      var n := |headers| - 1;
      Put(RowOf(headers[..n], values), headers[n], if n < |values| then values[n] else "")
  }

  /** Under the last occurrence of each header the row holds that column's
      value, or '' past the end of the line; other keys are absent. */
  lemma {:induction false} RowOfGet(headers: seq<string>, values: seq<string>, i: int)
    requires 0 <= i < |headers|
    requires forall j :: i < j < |headers| ==> headers[j] != headers[i]
    ensures Get(RowOf(headers, values), headers[i]) == Some(if i < |values| then values[i] else "")
    decreases |headers|
  {
    if i < |headers| - 1 {
      RowOfGet(headers[..|headers| - 1], values, i);
    }
  }

  lemma {:induction false} RowOfMissing(headers: seq<string>, values: seq<string>, k: string)
    requires k !in headers
    ensures Get(RowOf(headers, values), k) == None
    decreases |headers|
  {
    if |headers| > 0 {
      RowOfMissing(headers[..|headers| - 1], values, k);
    }
  }

  /** A missing or empty field, which the row checks treat as absent. */
  predicate Blank(v: Option<string>) {
    v.None? || v.value == ""
  }

  /** The row checks, on the literal keys 'date', 'description' and 'amount'
      whatever the column mapping says. */
  function RowErrors(row: Dict<string, string>): (errs: seq<string>)
    ensures errs == [] <==>
      (!Blank(Get(row, DateKey)) && !Blank(Get(row, DescriptionKey))
       && !Blank(Get(row, AmountKey)) && IsNumeric(Get(row, AmountKey).value))
    ensures |errs| <= 3
  {
    var amount := Get(row, AmountKey);
    (if Blank(Get(row, DateKey)) then [MissingDate] else [])
    + (if Blank(Get(row, DescriptionKey)) then [MissingDescription] else [])
    + (if Blank(amount) || !IsNumeric(amount.value) then [InvalidAmount] else [])
  }

  function MakeRow(headers: seq<string>, line: string, rowNumber: nat): PreviewRow {
    var row := RowOf(headers, Fields(line));
    PreviewRow(row, rowNumber, RowErrors(row))
  }

  /** Lines 1 .. min(n, 11) - 1: at most ten preview rows. */
  function PreviewCount(lines: seq<string>): (k: nat)
    ensures k <= PreviewLimit
    ensures |lines| >= 1 ==> k == (if |lines| < 11 then |lines| else 11) - 1
  {
    if |lines| == 0 then 0 else (if |lines| < 11 then |lines| else 11) - 1
  }

  /** The rows for lines 1 .. k, in order: row j is line j + 1 read under the
      headers, numbered j + 1. */
  function PreviewUpTo(lines: seq<string>, headers: seq<string>, k: nat): (rows: seq<PreviewRow>)
    requires k < |lines|
    ensures |rows| == k
    ensures forall j :: 0 <= j < k ==> rows[j] == MakeRow(headers, lines[j + 1], j + 1)
  {
    seq(k, j requires 0 <= j < k => MakeRow(headers, lines[j + 1], j + 1))
  }

  /** One more line adds its row at the end. */
  lemma PreviewUpToSnoc(lines: seq<string>, headers: seq<string>, k: nat)
    requires k + 1 < |lines|
    ensures PreviewUpTo(lines, headers, k + 1) == PreviewUpTo(lines, headers, k) + [MakeRow(headers, lines[k + 1], k + 1)]
  {
    var longer := PreviewUpTo(lines, headers, k + 1);
    var shorter := PreviewUpTo(lines, headers, k);
    var row := MakeRow(headers, lines[k + 1], k + 1);
    forall j | 0 <= j <= k
      ensures longer[j] == (shorter + [row])[j]
    {
      if j < k {
        assert longer[j] == shorter[j];
      }
    }
  }

  /** The preview rows of a file's non-blank lines, headed by the first line:
      each is its line read under the headers. */
  function Preview(lines: seq<string>): (rows: seq<PreviewRow>)
    requires |lines| >= 2
    ensures 1 <= |rows| <= PreviewLimit && |rows| == PreviewCount(lines)
    ensures forall j :: 0 <= j < |rows| ==> rows[j] == MakeRow(Headers(lines[0]), lines[j + 1], j + 1)
  {
    PreviewUpTo(lines, Headers(lines[0]), PreviewCount(lines))
  }

  /** `Row ${i}: ${rowErrors.join(', ')}`. */
  function RowMessage(r: PreviewRow): string {
    RowPrefix + NatToString(r.rowNumber) + ": " + Join(r.errors, ", ")
  }

  /** One message per row with errors, in row order. */
  function ErrorMessages(rows: seq<PreviewRow>): (msgs: seq<string>)
    ensures |msgs| <= |rows|
    decreases |rows|
  {
    if |rows| == 0 then []
    else
      var last := rows[|rows| - 1];
      ErrorMessages(rows[..|rows| - 1]) + (if last.errors != [] then [RowMessage(last)] else [])
  }

  /** There is an error message exactly when some row has errors. */
  lemma {:induction false} ErrorMessagesEmpty(rows: seq<PreviewRow>)
    ensures ErrorMessages(rows) == [] <==> forall j :: 0 <= j < |rows| ==> rows[j].errors == []
    decreases |rows|
  {
    if |rows| > 0 {
      var init := rows[..|rows| - 1];
      ErrorMessagesEmpty(init);
      assert forall j :: 0 <= j < |init| ==> init[j] == rows[j];
    }
  }

  // ------------------------------------------------------------ import

  /** The value under the column mapped to `col`; an unmapped column is looked
      up under the key 'undefined', as `row[undefined]` is. */
  function MappedValue(row: Dict<string, string>, mapping: Dict<string, string>, col: string): Option<string> {
    match Get(mapping, col)
    case Some(h) => Get(row, h)
    case None => Get(row, "undefined")
  }

  /** The transaction built from an error-free row. */
  function ImportedTransaction(row: PreviewRow, mapping: Dict<string, string>, id: int,
                               formatDate: Option<string> -> string): (tx: Transaction)
    ensures tx.id == id && tx.source == Some("csv")
    ensures tx.txType == Income <==> tx.amount >= 0.0
    ensures tx.name != "" && tx.category != ""
    ensures Blank(MappedValue(row.original, mapping, DescriptionKey)) ==> tx.name == "Imported Transaction"
    ensures Blank(MappedValue(row.original, mapping, "category")) ==> tx.category == "Imported"
    ensures !Blank(MappedValue(row.original, mapping, DescriptionKey)) ==>
      tx.name == MappedValue(row.original, mapping, DescriptionKey).value
    ensures !Blank(MappedValue(row.original, mapping, "category")) ==>
      tx.category == MappedValue(row.original, mapping, "category").value
    ensures MappedValue(row.original, mapping, AmountKey).None? ==> tx.amount == 0.0
    ensures MappedValue(row.original, mapping, AmountKey).Some? ==>
      tx.amount == ParseFloat(MappedValue(row.original, mapping, AmountKey).value).GetOr(0.0)
    ensures tx.date == formatDate(MappedValue(row.original, mapping, DateKey))
  {
    var raw := MappedValue(row.original, mapping, AmountKey);
    var amount := if raw.None? then 0.0 else ParseFloat(raw.value).GetOr(0.0);
    var name := MappedValue(row.original, mapping, DescriptionKey);
    var category := MappedValue(row.original, mapping, "category");
    Transaction(id,
      if Blank(name) then "Imported Transaction" else name.value,
      amount,
      formatDate(MappedValue(row.original, mapping, DateKey)),
      if amount >= 0.0 then Income else Expense,
      if Blank(category) then "Imported" else category.value,
      Some("csv"))
  }

  /** The `ADD_TRANSACTION` dispatches of an import: one per error-free row, in
      order, the id being the time plus the row's position in the preview. */
  function ImportActions(rows: seq<PreviewRow>, mapping: Dict<string, string>, now: int,
                         formatDate: Option<string> -> string): (acts: seq<Action>)
    decreases |rows|
  {
    if |rows| == 0 then []
    else
      var n := |rows| - 1;
      ImportActions(rows[..n], mapping, now, formatDate)
      + (if rows[n].errors == [] then [AddTransaction(ImportedTransaction(rows[n], mapping, now + n, formatDate))] else [])
  }

  /** How many preview rows have no errors. */
  function ValidCount(rows: seq<PreviewRow>): (k: nat)
    ensures k <= |rows|
    decreases |rows|
  {
    if |rows| == 0 then 0
    else ValidCount(rows[..|rows| - 1]) + (if rows[|rows| - 1].errors == [] then 1 else 0)
  }

  /** Exactly the error-free rows are dispatched, each as a CSV-sourced
      transaction whose type agrees with the sign of its amount. */
  lemma {:induction false} ImportActionsShape(rows: seq<PreviewRow>, mapping: Dict<string, string>, now: int,
                                              formatDate: Option<string> -> string)
    ensures |ImportActions(rows, mapping, now, formatDate)| == ValidCount(rows)
    ensures forall a :: a in ImportActions(rows, mapping, now, formatDate) ==>
      && a.AddTransaction? && a.tx.source == Some("csv")
      && (a.tx.txType == Income <==> a.tx.amount >= 0.0)
      && now <= a.tx.id < now + |rows|
    decreases |rows|
  {
    if |rows| > 0 {
      ImportActionsShape(rows[..|rows| - 1], mapping, now, formatDate);
    }
  }

  /** A file yields at most ten transactions, however long it is. */
  lemma AtMostTenImported(lines: seq<string>, mapping: Dict<string, string>, now: int,
                          formatDate: Option<string> -> string)
    requires |lines| >= 2
    ensures |ImportActions(Preview(lines), mapping, now, formatDate)| <= PreviewLimit
  {
    ImportActionsShape(Preview(lines), mapping, now, formatDate);
  }

  /** `['date', 'description', 'amount'].every(col => columnMapping[col])`. */
  predicate RequiredMapped(mapping: Dict<string, string>) {
    !Blank(Get(mapping, DateKey)) && !Blank(Get(mapping, DescriptionKey)) && !Blank(Get(mapping, AmountKey))
  }

  /** The auto-mapping of a header line with date, description and amount
      columns that no earlier header shadows passes the confirmation check. */
  lemma PlainHeadersConfirm(headers: seq<string>, d: int, s: int, a: int)
    requires 0 <= d < |headers| && 0 <= s < |headers| && 0 <= a < |headers|
    requires headers[d] == DateKey && headers[s] == DescriptionKey && headers[a] == AmountKey
    requires forall j :: 0 <= j < d ==> !Related(headers[j], DateKey)
    requires forall j :: 0 <= j < s ==> !Related(headers[j], DescriptionKey)
    requires forall j :: 0 <= j < a ==> !Related(headers[j], AmountKey)
    ensures RequiredMapped(AutoMapping(headers))
  {
    ExactHeaderMapped(headers, d);
    ExactHeaderMapped(headers, s);
    ExactHeaderMapped(headers, a);
  }

  // ------------------------------------------------------------ wizard

  /** The modal's state: the step (1 upload, 2 preview, 3 confirm), the chosen
      file's name, the preview, the column mapping, the errors shown and the
      loading flag. */
  class ImportWizard {
    var step: int
    var file: Option<string>
    var previewData: seq<PreviewRow>
    var columnMapping: Dict<string, string>
    var errors: seq<string>
    var isLoading: bool

    constructor()
      ensures step == 1 && file.None? && previewData == [] && columnMapping == []
      ensures errors == [] && !isLoading
    {
      step := 1;
      file := None;
      previewData := [];
      columnMapping := [];
      errors := [];
      isLoading := false;
    }

    /** `handleFileUpload` and the synchronous part of `parseCSV`: no file does
        nothing, a name not ending in '.csv' raises an alert, and a CSV file is
        kept and starts loading with the errors cleared. */
    method SelectFile(name: Option<string>) returns (alert: Option<string>)
      modifies this
      ensures name.None? ==> alert.None? && unchanged(this)
      ensures name.Some? && !IsCsvName(name.value) ==> alert == Some(NotCsvAlert) && unchanged(this)
      ensures name.Some? && IsCsvName(name.value) ==>
        && alert.None? && file == name && isLoading && errors == []
        && step == old(step) && previewData == old(previewData) && columnMapping == old(columnMapping)
    {
      alert := None;
      if name.None? {
        return;
      }
      if !IsCsvName(name.value) {
        alert := Some(NotCsvAlert);
        return;
      }
      file := name;
      isLoading := true;
      errors := [];
    }

    /** The reader's error callback. */
    method ReadFailed()
      modifies this
      ensures errors == [ReadError] && !isLoading
      ensures step == old(step) && file == old(file) && previewData == old(previewData)
      ensures columnMapping == old(columnMapping)
    {
      errors := [ReadError];
      isLoading := false;
    }

    /** `reader.onload`: fewer than two non-blank lines leave only the error;
        otherwise the headers are auto-mapped, up to ten rows previewed and
        checked, their error messages shown (the earlier errors are kept when
        there are none) and the wizard moves to the preview step. */
    method Loaded(content: string) returns (ghost parsed: ParseOutcome)
      modifies this
      ensures parsed == ParseOf(content)
      ensures !isLoading && file == old(file)
      ensures parsed.TooShort? ==>
        && errors == [TooShortError] && step == old(step)
        && previewData == old(previewData) && columnMapping == old(columnMapping)
      ensures parsed.Parsed? ==>
        && columnMapping == parsed.mapping && previewData == parsed.rows && step == 2
        && errors == (if parsed.messages == [] then old(errors) else parsed.messages)
    {
      var outcome := ParseContent(content);
      Show(outcome);
      parsed := outcome;
    }

    /** The state updates at the end of `reader.onload`. */
    method Show(outcome: ParseOutcome)
      modifies this
      ensures !isLoading && file == old(file)
      ensures outcome.TooShort? ==>
        && errors == [TooShortError] && step == old(step)
        && previewData == old(previewData) && columnMapping == old(columnMapping)
      ensures outcome.Parsed? ==>
        && columnMapping == outcome.mapping && previewData == outcome.rows && step == 2
        && errors == (if outcome.messages == [] then old(errors) else outcome.messages)
    {
      if outcome.TooShort? {
        errors := [TooShortError];
        isLoading := false;
        return;
      }
      columnMapping := outcome.mapping;
      previewData := outcome.rows;
      if |outcome.messages| > 0 {
        errors := outcome.messages;
      }
      step := 2;
      isLoading := false;
    }

    /** `setColumnMapping(prev => ({ ...prev, [expected]: csv }))`. */
    method UpdateColumnMapping(expected: string, csv: string)
      modifies this
      ensures columnMapping == Put(old(columnMapping), expected, csv)
      ensures Get(columnMapping, expected) == Some(csv)
      ensures step == old(step) && previewData == old(previewData) && errors == old(errors)
    {
      columnMapping := Put(columnMapping, expected, csv);
    }

    /** `handleConfirmMapping`: the confirm step once date, description and
        amount are all mapped; otherwise one error and no step change. */
    method ConfirmMapping()
      modifies this
      ensures RequiredMapped(old(columnMapping)) ==> step == 3 && errors == old(errors)
      ensures !RequiredMapped(old(columnMapping)) ==> errors == [MappingError] && step == old(step)
      ensures columnMapping == old(columnMapping) && previewData == old(previewData)
    {
      if !(!Blank(Get(columnMapping, DateKey)) && !Blank(Get(columnMapping, DescriptionKey))
           && !Blank(Get(columnMapping, AmountKey))) {
        errors := [MappingError];
        return;
      }
      step := 3;
    }

    /** `handleImport`: with no preview an error; otherwise one `ADD_TRANSACTION`
        per error-free row and the success message with their count. */
    method Import(now: int, formatDate: Option<string> -> string) returns (actions: seq<Action>, message: Option<string>)
      modifies this
      ensures previewData == old(previewData) && columnMapping == old(columnMapping) && step == old(step)
      ensures old(previewData) == [] ==> actions == [] && message.None? && errors == [NoDataError]
      ensures old(previewData) != [] ==>
        && actions == ImportActions(previewData, columnMapping, now, formatDate)
        && message == Some("Successfully imported " + NatToString(ValidCount(previewData)) + " transactions!")
        && errors == old(errors)
    {
      actions := [];
      message := None;
      if |previewData| == 0 {
        errors := [NoDataError];
        return;
      }
      var importedCount := ValidCount(previewData);
      actions := ImportRows(previewData, columnMapping, now, formatDate);
      message := Some("Successfully imported " + NatToString(importedCount) + " transactions!");
    }

    /** `resetImport`. */
    method Reset()
      modifies this
      ensures step == 1 && file.None? && previewData == [] && columnMapping == [] && errors == []
      ensures isLoading == old(isLoading)
    {
      step := 1;
      file := None;
      previewData := [];
      columnMapping := [];
      errors := [];
    }
  }

  /** What the reader's text yields: too few lines, or the auto-mapping, the
      preview rows and their error messages. */
  datatype ParseOutcome =
    | TooShort
    | Parsed(mapping: Dict<string, string>, rows: seq<PreviewRow>, messages: seq<string>)

  function ParseOf(content: string): (r: ParseOutcome)
    ensures r.TooShort? <==> |NonBlankLines(content)| < 2
    ensures r.Parsed? ==> 1 <= |r.rows| <= PreviewLimit
  {
    var lines := NonBlankLines(content);
    if |lines| < 2 then TooShort
    else
      var rows := Preview(lines);
      Parsed(AutoMapping(Headers(lines[0])), rows, ErrorMessages(rows))
  }

  /** The body of `reader.onload` up to the state updates. */
  method ParseContent(content: string) returns (r: ParseOutcome)
    ensures r == ParseOf(content)
  {
    var lines := NonBlankLines(content);
    if |lines| < 2 {
      return TooShort;
    }
    var headers := Headers(lines[0]);
    var autoMapping := AutoMap(headers);
    var dataRows, newErrors := PreviewRows(lines, headers);
    r := Parsed(autoMapping, dataRows, newErrors);
  }

  /** The forEach over the expected columns that fills `autoMapping`. */
  method AutoMap(headers: seq<string>) returns (mapping: Dict<string, string>)
    ensures mapping == AutoMapping(headers)
  {
    mapping := [];
    var i := 0;
    while i < |ExpectedColumns|
      invariant 0 <= i <= |ExpectedColumns|
      invariant mapping == MappingFor(headers, ExpectedColumns[..i])
    {
      assert ExpectedColumns[..i + 1][..i] == ExpectedColumns[..i];
      var expected := ExpectedColumns[i];
      var found := FindHeader(headers, expected);
      if found.Some? && headers[found.value] != "" {
        mapping := Put(mapping, expected, headers[found.value]);
      }
      i := i + 1;
    }
    assert ExpectedColumns[..i] == ExpectedColumns;
  }

  /** The for loop over lines 1 .. min(n, 11) - 1 that builds the preview rows
      and their error messages. */
  method PreviewRows(lines: seq<string>, headers: seq<string>) returns (dataRows: seq<PreviewRow>, newErrors: seq<string>)
    requires |lines| >= 2 && headers == Headers(lines[0])
    ensures dataRows == Preview(lines) && newErrors == ErrorMessages(dataRows)
  {
    dataRows := [];
    newErrors := [];
    var limit := if |lines| < 11 then |lines| else 11;
    var i := 1;
    while i < limit
      invariant 1 <= i <= limit
      invariant dataRows == PreviewUpTo(lines, headers, i - 1)
      invariant newErrors == ErrorMessages(dataRows)
    {
      var values := Fields(lines[i]);
      var row := RowOf(headers, values);
      var rowErrors := RowErrors(row);
      var previewRow := PreviewRow(row, i, rowErrors);
      assert previewRow == MakeRow(headers, lines[i], i);
      PreviewUpToSnoc(lines, headers, i - 1);
      if |rowErrors| > 0 {
        newErrors := newErrors + [RowMessage(previewRow)];
      }
      assert (dataRows + [previewRow])[..i - 1] == dataRows;
      dataRows := dataRows + [previewRow];
      i := i + 1;
    }
  }

  /** The forEach of `handleImport` over the preview rows. The source reads
      `Date.now()` afresh for each row; one clock value `now` stands for all of
      them, so the ids are `now + index` here, while the source's may also grow
      with the time the loop takes. In both the ids are distinct, because the
      index rises by one per row and the clock never goes back. */
  method ImportRows(rows: seq<PreviewRow>, mapping: Dict<string, string>, now: int,
                    formatDate: Option<string> -> string) returns (actions: seq<Action>)
    ensures actions == ImportActions(rows, mapping, now, formatDate)
  {
    actions := [];
    var i := 0;
    while i < |rows|
      invariant 0 <= i <= |rows|
      invariant actions == ImportActions(rows[..i], mapping, now, formatDate)
    {
      assert rows[..i + 1][..i] == rows[..i];
      var row := rows[i];
      ghost var step := if row.errors == [] then [AddTransaction(ImportedTransaction(row, mapping, now + i, formatDate))] else [];
      assert ImportActions(rows[..i + 1], mapping, now, formatDate) == ImportActions(rows[..i], mapping, now, formatDate) + step;
      if row.errors == [] {
        actions := actions + [AddTransaction(ImportedTransaction(row, mapping, now + i, formatDate))];
      }
      i := i + 1;
    }
    assert rows[..i] == rows;
  }
}
