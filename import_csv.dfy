/** The CSV import card: choosing a file, decoding its text into expenses (`parseCSV`) and submitting
    them one by one with independent success and failure counts (`handleImport`). */
module ImportCsv {
  import opened Wrappers
  import opened Seqs
  import opened Text
  import opened Runtime
  import opened Records

  /** One decoded CSV row: the amount, the description and the date in milliseconds since the epoch. */
  datatype ParsedExpense = ParsedExpense(amount: real, description: string, dateMs: int)

  /** The file picked in the file input: its name, its MIME type and its text, or `None` when
      reading it (`file.text()`) fails. */
  datatype CsvFile = CsvFile(name: string, mimeType: string, contents: Option<string>)

  /** One field of a line: trimmed, then stripped of one leading and one trailing double quote. */
  function Field(v: string): (r: string)
    ensures |r| <= |v|
  {
    StripQuotes(Trim(v))
  }

  /** `line.split(',').map(...)`: the fields of a line, in column order. */
  function Fields(line: string): seq<string> {
    var parts := Split(line, ',');
    seq(|parts|, i requires 0 <= i < |parts| => Field(parts[i]))
  }

  /** The decision `parseCSV` takes for one trimmed, non-empty line: column 0 is the amount,
      column 1 the description, column 2 the date; further columns are ignored. */
  function DecodeLine(line: string, js: Builtins): Option<ParsedExpense> {
    var values := Fields(line);
    if |values| < 3 then None
    else
      match js.parseFloat(values[0])
      case None => None
      case Some(amount) =>
        if values[1] == [] || values[2] == [] then None
        else
          match js.parseDate(values[2])
          case None => None
          case Some(ms) => Some(ParsedExpense(amount, values[1], ms))
  }

  /** One line after the header: trimmed, skipped when empty, otherwise decoded. */
  function DecodeRow(raw: string, js: Builtins): Option<ParsedExpense> {
    var line := Trim(raw);
    if line == [] then None else DecodeLine(line, js)
  }

  /** `DecodeRow` with the built-ins fixed, as a function value. */
  function RowDecoder(js: Builtins): string -> Option<ParsedExpense> {
    row => DecodeRow(row, js)
  }

  /** The records decoded from `rows`, in row order; rows that do not decode are dropped. */
  function DecodeRows(rows: seq<string>, js: Builtins): seq<ParsedExpense> {
    FilterMap(rows, RowDecoder(js))
  }

  /** `text.split('\n').filter((line) => line.trim())`. */
  function NonBlankLines(text: string): seq<string> {
    Filter(Split(text, '\n'), IsNonBlank)
  }

  /** What `parseCSV` returns: every non-blank line but the first is decoded. */
  function DecodeCsv(text: string, js: Builtins): seq<ParsedExpense> {
    var lines := NonBlankLines(text);
    if lines == [] then [] else DecodeRows(lines[1..], js)
  }

  /** `parseCSV`: splits the text into its non-blank lines and decodes all of them but the first. */
  method ParseCsv(text: string, js: Builtins) returns (expenses: seq<ParsedExpense>)
    ensures expenses == DecodeCsv(text, js)
  {
    var lines := NonBlankLines(text);
    expenses := DecodeAfterHeader(lines, js);
  }

  /** The loop of `parseCSV`: from index 1 (the header is skipped) over the lines, pushing each row
      that decodes. */
  method DecodeAfterHeader(lines: seq<string>, js: Builtins) returns (expenses: seq<ParsedExpense>)
    ensures lines == [] ==> expenses == []
    ensures lines != [] ==> expenses == DecodeRows(lines[1..], js)
  {
    expenses := [];
    var i := 1;
    while i < |lines|
      invariant lines != [] ==> 1 <= i <= |lines| && expenses == DecodeRows(lines[1..i], js)
      invariant lines == [] ==> expenses == []
    {
      RowsStep(lines, i, js);
      var row := DecodeRow(lines[i], js);
      if row.Some? {
        expenses := expenses + [row.value];
      }
      i := i + 1;
    }
    assert lines != [] ==> i == |lines| && lines[1..i] == lines[1..];
  }

  /** Extending the decoded range of `lines` by one row appends that row's decoding. */
  lemma RowsStep(lines: seq<string>, i: nat, js: Builtins)
    requires 1 <= i < |lines|
    ensures DecodeRows(lines[1..i + 1], js) == DecodeRows(lines[1..i], js) + DecodeRow(lines[i], js).ToSeq()
  {
    assert lines[1..i + 1][..i - 1] == lines[1..i];
  }

  /** The output holds at most one record per non-blank line after the first, and a record is in it
      exactly when one of those lines decodes to it. */
  lemma OutputComesFromDataLines(text: string, js: Builtins, e: ParsedExpense)
    ensures var lines := NonBlankLines(text);
      (lines == [] ==> DecodeCsv(text, js) == [])
      && (lines != [] ==>
            |DecodeCsv(text, js)| <= |lines| - 1
            && (e in DecodeCsv(text, js) <==> exists i :: 1 <= i < |lines| && DecodeRow(lines[i], js) == Some(e)))
  {
    var lines := NonBlankLines(text);
    DecodeCsvRows(text, js);
    if lines != [] {
      DataLinesYield(lines, js, e);
    }
  }

  /** The header is dropped and the remaining lines are decoded. */
  lemma DecodeCsvRows(text: string, js: Builtins)
    ensures var lines := NonBlankLines(text);
      DecodeCsv(text, js) == if lines == [] then [] else DecodeRows(lines[1..], js)
  {
  }

  /** A record is decoded after the header exactly when some line after the first decodes to it. */
  lemma DataLinesYield(lines: seq<string>, js: Builtins, e: ParsedExpense)
    requires lines != []
    ensures e in DecodeRows(lines[1..], js) <==> exists i :: 1 <= i < |lines| && DecodeRow(lines[i], js) == Some(e)
  {
    FilterMapTailMembers(lines, RowDecoder(js), e);
    assert forall i :: 1 <= i < |lines| ==> RowDecoder(js)(lines[i]) == DecodeRow(lines[i], js);
  }

  /** The records keep the order of their lines: the rows of one part of a file, then those of the
      next. */
  lemma RowsKeepOrder(a: seq<string>, b: seq<string>, js: Builtins)
    ensures DecodeRows(a + b, js) == DecodeRows(a, js) + DecodeRows(b, js)
  {
    FilterMapAppend(a, b, RowDecoder(js));
  }

  /** The first non-blank line is the header and is discarded whatever it holds, even a valid row. */
  lemma HeaderSkipped(header: string, rest: string, js: Builtins)
    requires '\n' !in header && IsNonBlank(header)
    ensures DecodeCsv(header + "\n" + rest, js) == DecodeRows(NonBlankLines(rest), js)
  {
    SplitCons(header, rest, '\n');
    FilterAppend([header], Split(rest, '\n'), IsNonBlank);
    assert NonBlankLines(header + "\n" + rest) == [header] + NonBlankLines(rest);
  }

  /** Blank lines before the header are dropped before the header is chosen, so they do not count. */
  lemma LeadingBlankLineIgnored(blank: string, rest: string, js: Builtins)
    requires '\n' !in blank && !IsNonBlank(blank)
    ensures DecodeCsv(blank + "\n" + rest, js) == DecodeCsv(rest, js)
  {
    SplitCons(blank, rest, '\n');
    FilterAppend([blank], Split(rest, '\n'), IsNonBlank);
    assert NonBlankLines(blank + "\n" + rest) == NonBlankLines(rest);
  }

  /** The first piece of `c` followed by nothing or by a comma is `c`. */
  lemma SplitFirst(c: string, tail: string)
    requires ',' !in c
    requires tail == [] || tail[0] == ','
    ensures Split(c + tail, ',')[0] == c
  {
    if tail == [] {
      SplitNoSep(c, ',');
      assert c + tail == c;
    } else {
      SplitCons(c, tail[1..], ',');
      assert c + tail == c + [','] + tail[1..];
    }
  }

  /** The first three comma-separated pieces of `a,b,c` followed by nothing or by more fields. */
  lemma SplitThree(a: string, b: string, c: string, tail: string)
    requires ',' !in a && ',' !in b && ',' !in c
    requires tail == [] || tail[0] == ','
    ensures var parts := Split(a + "," + b + "," + c + tail, ',');
      |parts| >= 3 && parts[0] == a && parts[1] == b && parts[2] == c
  {
    var t2 := c + tail;
    var t1 := b + [','] + t2;
    Reassociate(a, b, c, tail);
    SplitFirst(c, tail);
    SplitCons(b, t2, ',');
    SplitCons(a, t1, ',');
    var rest := Split(t2, ',');
    var parts := Split(a + [','] + t1, ',');
    assert parts == [a] + ([b] + rest);
  }

  /** The line `a,b,c` followed by `tail`, grouped from the right. */
  lemma Reassociate(a: string, b: string, c: string, tail: string)
    ensures a + "," + b + "," + c + tail == a + [','] + (b + [','] + (c + tail))
  {
  }

  /** A line is accepted exactly when its amount parses, its description and date fields are
      non-empty and its date parses; what follows the third field is ignored, and the sign of the
      amount is not looked at. */
  lemma LineAcceptance(a: string, b: string, c: string, tail: string, js: Builtins)
    requires ',' !in a && ',' !in b && ',' !in c
    requires tail == [] || tail[0] == ','
    ensures DecodeLine(a + "," + b + "," + c + tail, js) ==
      if js.parseFloat(Field(a)).Some? && Field(b) != [] && Field(c) != [] && js.parseDate(Field(c)).Some?
      then Some(ParsedExpense(js.parseFloat(Field(a)).value, Field(b), js.parseDate(Field(c)).value))
      else None
  {
    var line := a + "," + b + "," + c + tail;
    SplitThree(a, b, c, tail);
    var values := Fields(line);
    assert |values| >= 3 && values[0] == Field(a) && values[1] == Field(b) && values[2] == Field(c);
  }

  /** A line with fewer than two commas has fewer than three fields and yields no record. */
  lemma FewerThanThreeFieldsDropped(line: string, js: Builtins)
    requires multiset(line)[','] < 2
    ensures DecodeLine(line, js) == None
  {
    SplitLength(line, ',');
  }

  /** A field text that holds no comma and has neither white space nor a quote at either end, such
      as `25.50`, `-12.5`, `Refund` or `2025-01-04`. */
  predicate Bare(v: string) {
    ',' !in v && (v != [] ==> !IsSpace(v[0]) && !IsSpace(v[|v| - 1]) && v[0] != '"' && v[|v| - 1] != '"')
  }

  /** A bare field is kept as it is. */
  lemma BareField(v: string)
    requires Bare(v)
    ensures Field(v) == v
  {
    TrimFixed(v);
    StripQuotesFixed(v);
  }

  /** A field wrapped in one pair of quotes loses exactly that pair. */
  lemma QuotedField(v: string, inner: string)
    requires v == "\"" + inner + "\""
    ensures Field(v) == inner
  {
    TrimFixed(v);
    assert v[1..][..|v[1..]| - 1] == inner;
    assert StripQuotes(v) == inner;
  }

  /** A negative amount passes: the import, unlike manual entry, never checks the sign. */
  lemma NegativeAmountAccepted(a: string, b: string, c: string, js: Builtins, x: real, d: int)
    requires Bare(a) && Bare(b) && Bare(c) && b != [] && c != []
    requires js.parseFloat(a) == Some(x) && x < 0.0 && js.parseDate(c) == Some(d)
    ensures DecodeLine(a + "," + b + "," + c, js) == Some(ParsedExpense(x, b, d))
  {
    BareField(a);
    BareField(b);
    BareField(c);
    RowAcceptance(a, b, c, js);
  }

  /** A file holding a header and one row such as `25.50,"Grocery",2025-01-04` yields exactly one
      record: the parsed amount, the description without its quotes and the parsed date. */
  lemma QuotedDescriptionRow(header: string, a: string, inner: string, c: string, js: Builtins, x: real, d: int)
    requires '\n' !in header && IsNonBlank(header)
    requires Bare(a) && Bare(c) && c != [] && inner != [] && ',' !in inner
    requires '\n' !in a && '\n' !in inner && '\n' !in c
    requires js.parseFloat(a) == Some(x) && js.parseDate(c) == Some(d)
    ensures DecodeCsv(header + "\n" + (a + "," + ("\"" + inner + "\"") + "," + c), js) == [ParsedExpense(x, inner, d)]
  {
    var b := "\"" + inner + "\"";
    var row := a + "," + b + "," + c;
    QuotedRow(a, b, inner, c, js, x, d);
    QuotesAddNoSeparator(inner, '\n');
    LineShape(a, b, c);
    HeaderSkipped(header, row, js);
    SingleLine(row, js);
  }

  /** The row `a,b,c` is one line that starts and ends with something other than white space. */
  lemma LineShape(a: string, b: string, c: string)
    requires Bare(a) && Bare(c) && c != [] && '\n' !in a && '\n' !in b && '\n' !in c
    ensures var row := a + "," + b + "," + c;
      '\n' !in row && row != [] && !IsSpace(row[0]) && !IsSpace(row[|row| - 1])
  {
    var row := a + "," + b + "," + c;
    assert '\n' !in row;
    assert row[|row| - 1] == c[|c| - 1];
    assert row[0] == if a == [] then ',' else a[0];
  }

  /** A text of one line that starts and ends with something other than white space decodes, as
      the lines after a header, to that line's record. */
  lemma SingleLine(row: string, js: Builtins)
    requires '\n' !in row && row != [] && !IsSpace(row[0]) && !IsSpace(row[|row| - 1])
    ensures DecodeRows(NonBlankLines(row), js) == DecodeLine(row, js).ToSeq()
  {
    SplitNoSep(row, '\n');
    TrimFixed(row);
    assert NonBlankLines(row) == [row];
    assert DecodeRows([row], js) == DecodeRows([], js) + DecodeRow(row, js).ToSeq();
  }

  /** The row `a,"inner",c` on its own decodes to the unquoted description. */
  lemma QuotedRow(a: string, b: string, inner: string, c: string, js: Builtins, x: real, d: int)
    requires Bare(a) && Bare(c) && c != [] && inner != [] && ',' !in inner
    requires b == "\"" + inner + "\""
    requires js.parseFloat(a) == Some(x) && js.parseDate(c) == Some(d)
    ensures DecodeLine(a + "," + b + "," + c, js) == Some(ParsedExpense(x, inner, d))
  {
    QuotedField(b, inner);
    QuotesAddNoSeparator(inner, ',');
    DecodedRow(a, b, c, js, x, inner, d);
  }

  /** Wrapping a text in quotes adds no separator (comma or line break) to it. */
  lemma QuotesAddNoSeparator(inner: string, sep: char)
    requires sep != '"' && sep !in inner
    ensures sep !in "\"" + inner + "\""
  {
  }

  /** A row whose fields read `a`, `inner` and `c` decodes to the record they describe. */
  lemma DecodedRow(a: string, b: string, c: string, js: Builtins, x: real, inner: string, d: int)
    requires Bare(a) && Bare(c) && c != [] && ',' !in b && Field(b) == inner && inner != []
    requires js.parseFloat(a) == Some(x) && js.parseDate(c) == Some(d)
    ensures DecodeLine(a + "," + b + "," + c, js) == Some(ParsedExpense(x, inner, d))
  {
    BareField(a);
    BareField(c);
    RowAcceptance(a, b, c, js);
  }

  /** `LineAcceptance` for a line of exactly three fields. */
  lemma RowAcceptance(a: string, b: string, c: string, js: Builtins)
    requires ',' !in a && ',' !in b && ',' !in c
    ensures DecodeLine(a + "," + b + "," + c, js) ==
      if js.parseFloat(Field(a)).Some? && Field(b) != [] && Field(c) != [] && js.parseDate(Field(c)).Some?
      then Some(ParsedExpense(js.parseFloat(Field(a)).value, Field(b), js.parseDate(Field(c)).value))
      else None
  {
    LineAcceptance(a, b, c, [], js);
    assert a + "," + b + "," + c + [] == a + "," + b + "," + c;
  }

  /** The `addExpense` arguments for each decoded record: the timestamp in nanoseconds, source `'csv'`. */
  function Submissions(records: seq<ParsedExpense>): (r: seq<Submission>)
    ensures |r| == |records|
    ensures forall k :: 0 <= k < |r| ==> r[k].source == Csv
  {
    seq(|records|, k requires 0 <= k < |records| =>
      Submission(records[k].amount, records[k].description, MillisToNanos(records[k].dateMs), Csv))
  }

  /** Each submission carries its record's amount and description, and its timestamp reads back as
      the record's date. */
  lemma SubmissionsMatchRecords(records: seq<ParsedExpense>, k: nat)
    requires k < |records|
    ensures |Submissions(records)| == |records|
    ensures var s := Submissions(records)[k];
      s.amount == records[k].amount && s.description == records[k].description && s.source == Csv
      && NanosToMillis(s.dateNs) == records[k].dateMs
  {
    NanosRoundTrip(records[k].dateMs);
  }

  /** Submitting one more record appends its submission. */
  lemma SubmissionsStep(records: seq<ParsedExpense>, i: nat)
    requires i < |records|
    ensures Submissions(records[..i + 1]) == Submissions(records[..i])
      + [Submission(records[i].amount, records[i].description, MillisToNanos(records[i].dateMs), Csv)]
  {
  }

  /** How many of the first `n` submissions the ledger accepted. */
  function Successes(accepted: nat -> bool, n: nat): (c: nat)
    ensures c <= n
    decreases n
  {
    if n == 0 then 0 else Successes(accepted, n - 1) + (if accepted(n - 1) then 1 else 0)
  }

  /** How many of the first `n` submissions the ledger refused. */
  function Failures(accepted: nat -> bool, n: nat): (c: nat)
    ensures c <= n
    decreases n
  {
    if n == 0 then 0 else Failures(accepted, n - 1) + (if accepted(n - 1) then 0 else 1)
  }

  /** Every submission is counted once, as a success or as a failure. */
  lemma {:induction false} CountsConserved(accepted: nat -> bool, n: nat)
    ensures Successes(accepted, n) + Failures(accepted, n) == n
    decreases n
  {
    if n > 0 {
      CountsConserved(accepted, n - 1);
    }
  }

  /** Five records of which the third is refused: four successes, one failure, nothing skipped. */
  lemma ThirdOfFiveRefused(accepted: nat -> bool)
    requires forall k: nat :: accepted(k) <==> k != 2
    ensures Successes(accepted, 5) == 4 && Failures(accepted, 5) == 1
  {
    assert !accepted(2) && accepted(0) && accepted(1) && accepted(3) && accepted(4);
  }

  function Plural(n: nat): string {
    if n > 1 then "s" else ""
  }

  /** The notifications that close an import with `successes` and `failures`. */
  function ImportReport(successes: nat, failures: nat): (r: seq<Toast>)
    ensures |r| == (if successes > 0 then 1 else 0) + (if failures > 0 then 1 else 0)
  {
    (if successes > 0
     then [Toast(SuccessToast, "Successfully imported " + NatToString(successes) + " expense" + Plural(successes))]
     else [])
    + (if failures > 0
       then [Toast(ErrorToast, "Failed to import " + NatToString(failures) + " expense" + Plural(failures))]
       else [])
  }

  /** A success notification appears iff something was imported, an error notification iff
      something failed (both may appear), and a message ends in "s" iff its count exceeds one. */
  lemma ReportShape(successes: nat, failures: nat)
    ensures var r := ImportReport(successes, failures);
      ((exists t :: t in r && t.kind == SuccessToast) <==> successes > 0)
      && ((exists t :: t in r && t.kind == ErrorToast) <==> failures > 0)
      && (forall t :: t in r ==>
            t.text != []
            && (t.text[|t.text| - 1] == 's' <==> (if t.kind == SuccessToast then successes else failures) > 1))
  {
    var r := ImportReport(successes, failures);
    if successes > 0 {
      assert r[0].kind == SuccessToast;
    }
    if failures > 0 {
      assert r[|r| - 1].kind == ErrorToast;
    }
  }

  /** The state of the import card. */
  class ImportForm {
    /** The chosen file (`file` state). */
    var file: Option<CsvFile>
    /** The `isProcessing` state that disables the controls while an import runs. */
    var isProcessing: bool
    /** The notifications raised so far. */
    var toasts: seq<Toast>
    /** The `addExpense` calls made so far, in order. */
    var sent: seq<Submission>

    constructor ()
      ensures file == None && !isProcessing && toasts == [] && sent == []
    {
      file := None;
      isProcessing := false;
      toasts := [];
      sent := [];
    }

    /** `handleFileChange`: only a file of type `text/csv` replaces the chosen file; anything else
        raises an error and keeps the earlier choice. */
    method HandleFileChange(selected: Option<CsvFile>)
      modifies this
      ensures if selected.Some? && selected.value.mimeType == "text/csv"
              then file == selected && toasts == old(toasts)
              else file == old(file) && toasts == old(toasts) + [Toast(ErrorToast, "Please select a valid CSV file")]
      ensures isProcessing == old(isProcessing) && sent == old(sent)
    {
      if selected.Some? && selected.value.mimeType == "text/csv" {
        file := selected;
      } else {
        toasts := toasts + [Toast(ErrorToast, "Please select a valid CSV file")];
      }
    }

    /** The loop of `handleImport`: every record is submitted, in order, with its timestamp in
        nanoseconds; a refusal is counted and the loop goes on. */
    method SubmitAll(expenses: seq<ParsedExpense>, accepted: nat -> bool) returns (successCount: nat, errorCount: nat)
      modifies this
      ensures successCount == Successes(accepted, |expenses|) && errorCount == Failures(accepted, |expenses|)
      ensures sent == old(sent) + Submissions(expenses)
      ensures toasts == old(toasts) && file == old(file) && isProcessing == old(isProcessing)
    {
      successCount, errorCount := 0, 0;
      var i := 0;
      while i < |expenses|
        invariant 0 <= i <= |expenses|
        invariant successCount == Successes(accepted, i) && errorCount == Failures(accepted, i)
        invariant sent == old(sent) + Submissions(expenses[..i])
        invariant toasts == old(toasts) && file == old(file) && isProcessing == old(isProcessing)
      {
        var expense := expenses[i];
        var dateNano := MillisToNanos(expense.dateMs);
        SubmissionsStep(expenses, i);
        sent := sent + [Submission(expense.amount, expense.description, dateNano, Csv)];
        if accepted(i) {
          successCount := successCount + 1;
        } else {
          errorCount := errorCount + 1;
        }
        i := i + 1;
      }
      assert expenses[..i] == expenses;
    }

    /** The closing notifications of `handleImport`. */
    method Report(successCount: nat, errorCount: nat)
      modifies this
      ensures toasts == old(toasts) + ImportReport(successCount, errorCount)
      ensures file == old(file) && sent == old(sent) && isProcessing == old(isProcessing)
    {
      if successCount > 0 {
        toasts := toasts + [Toast(SuccessToast, "Successfully imported " + NatToString(successCount) + " expense" + Plural(successCount))];
      }
      if errorCount > 0 {
        toasts := toasts + [Toast(ErrorToast, "Failed to import " + NatToString(errorCount) + " expense" + Plural(errorCount))];
      }
    }

    /** `handleImport`: decodes the chosen file and submits every record in order, whatever happened
        to the earlier ones; `accepted(k)` is the ledger's answer to the k-th submission. */
    method HandleImport(js: Builtins, accepted: nat -> bool)
      modifies this
      ensures old(file).None? ==>
        toasts == old(toasts) + [Toast(ErrorToast, "Please select a file")]
        && file == old(file) && isProcessing == old(isProcessing) && sent == old(sent)
      ensures old(file).Some? && old(file).value.contents.None? ==>
        toasts == old(toasts) + [Toast(ErrorToast, "Failed to process CSV file")]
        && file == old(file) && !isProcessing && sent == old(sent)
      ensures old(file).Some? && old(file).value.contents.Some? ==>
        var records := DecodeCsv(old(file).value.contents.value, js);
        !isProcessing
        && (records == [] ==>
              toasts == old(toasts) + [Toast(ErrorToast, "No valid expenses found in CSV")]
              && file == old(file) && sent == old(sent))
        && (records != [] ==>
              sent == old(sent) + Submissions(records)
              && toasts == old(toasts) + ImportReport(Successes(accepted, |records|), Failures(accepted, |records|))
              && file == None)
    {
      if file.None? {
        toasts := toasts + [Toast(ErrorToast, "Please select a file")];
        return;
      }
      isProcessing := true;
      var contents := file.value.contents;
      if contents.None? {
        toasts := toasts + [Toast(ErrorToast, "Failed to process CSV file")];
        isProcessing := false;
        return;
      }
      var expenses := ParseCsv(contents.value, js);
      if |expenses| == 0 {
        toasts := toasts + [Toast(ErrorToast, "No valid expenses found in CSV")];
        isProcessing := false;
        return;
      }
      var successCount, errorCount := SubmitAll(expenses, accepted);
      Report(successCount, errorCount);
      file := None;
      isProcessing := false;
    }
  }
}
