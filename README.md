# Smart Budgeting App: the expense-entry and overview core, in Dafny

The Smart Budgeting App is a React front end over a ledger canister. This project models the three
components that hold its logic:

- **CSV import card** (`ImportCSV.tsx`):
  - choosing a file, which only `text/csv` files pass;
  - `parseCSV`, which decodes the text into `{amount, description, date}` records;
  - `handleImport`, which submits every record in order with its date in nanoseconds and
    source `csv`. It counts successes and failures independently and closes with one or two
    notifications.
- **Manual entry card** (`AddExpense.tsx`): the three inputs and `handleSubmit`.
  - `handleSubmit` checks the amount first, then the description, then the date, whose
    conversion throws when it does not parse.
  - It then sends the trimmed expense once, and either clears the form or keeps what the user typed.
- **Overview** (`Overview.tsx`):
  - the total spending over the category summary;
  - the pie data (categories with a positive total) and the count of active categories;
  - the spending-over-time series: a strict 7-, 28- or 360-day window, a label per record
    (day, Sunday-started week or month), grouping in an insertion-ordered `Map`, and the last
    ten bars.

## How the model is built

- **Browser built-ins.** `parseFloat`, `new Date(s).getTime()`, the local calendar day of an
  instant and the two `toLocaleDateString` formats are the fields of `Runtime.Builtins`.
  - Every member that depends on them takes a `Builtins` value, so every result holds for any
    implementation of them.
  - NaN and an Invalid Date are `None`.
- **The ledger.** Its answer to each `addExpense` call is a parameter:
  - `accepted: nat -> bool` for the k-th call of an import;
  - `accepted: bool` for a manual submission.

  The calls themselves are recorded in a `sent` field.
- **Component state.** Each component's state becomes a class whose methods update its fields:
  - `ImportCsv.ImportForm`: `file`, `isProcessing`, notifications and calls made;
  - `AddExpense.AddExpenseForm`: the three input texts, notifications and calls made;
  - `OrderedMaps.OrderedMap`: the JavaScript `Map` used for grouping.
- **Loops.** The source's loops are methods with loop invariants:
  - `ImportCsv.DecodeAfterHeader`;
  - `ImportCsv.ImportForm.SubmitAll`;
  - `Overview.GroupByKey`.

  Each is proved equal to a specification function. The properties are then proved about those
  functions as lemmas.
- **Pure computations.** The `useMemo` computations of the overview are functions.
- **Methods and the functions that specify them.** Two handlers keep their step-by-step code
  and have a separate specification function:
  - `AddExpense.Validate` is the early-return code of `handleSubmit`; `AddExpense.Normalize`
    specifies it.
  - `ImportCsv.ImportForm.Report` is the two `if` statements that raise the closing
    notifications; `ImportCsv.ImportReport` specifies it.

  Each method is proved equal to its function, and the lemmas are stated about the function.

## Model

| member | source | states |
|---|---|---|
| ImportCsv.ImportForm.constructor | frontend/src/components/ImportCSV.tsx:11-12 | the card starts with no file, not processing, no notifications, no calls |
| ImportCsv.ImportForm.HandleFileChange | frontend/src/components/ImportCSV.tsx:15-23 | only a selected file of type `text/csv` becomes the chosen file; anything else (including no file) raises "Please select a valid CSV file" and keeps the earlier choice |
| ImportCsv.ParseCsv | frontend/src/components/ImportCSV.tsx:25-52 | the records returned are exactly the decoding of every non-blank line after the first |
| ImportCsv.DecodeCsv | frontend/src/components/ImportCSV.tsx:25-51 | what `parseCSV` returns; `OutputComesFromDataLines`, `HeaderSkipped` and `LeadingBlankLineIgnored` state which lines it reads and what it keeps |
| ImportCsv.NonBlankLines | frontend/src/components/ImportCSV.tsx:26 | the lines holding something other than white space, in order; `LeadingBlankLineIgnored` states that it runs before the header is chosen |
| ImportCsv.DecodeRow | frontend/src/components/ImportCSV.tsx:31-32 | a line after the header is trimmed, and an empty one is skipped before decoding; `SingleLine` states its effect on a one-line text |
| ImportCsv.DecodeLine | frontend/src/components/ImportCSV.tsx:37-47 | the acceptance test for one line; `LineAcceptance` and `FewerThanThreeFieldsDropped` state when it gives a record and which one |
| ImportCsv.Fields | frontend/src/components/ImportCSV.tsx:35 | the fields of a line in column order, one per comma-separated piece; `Text.SplitLength` states how many there are |
| ImportCsv.Field | frontend/src/components/ImportCSV.tsx:35 | a field is never longer than its raw piece; `BareField`, `QuotedField` and `Text.StripQuotesShape` state what is removed |
| ImportCsv.DecodeAfterHeader | frontend/src/components/ImportCSV.tsx:30-49 | the loop from index 1 pushes, in order, the record of each line that decodes; nothing for an empty line list |
| ImportCsv.DataLinesYield | frontend/src/components/ImportCSV.tsx:30-49 | a record is decoded after the header iff some line after the first decodes to it |
| ImportCsv.RowsKeepOrder | frontend/src/components/ImportCSV.tsx:30-49 | the records keep the order of their lines: decoding a + b gives a's records, then b's |
| ImportCsv.OutputComesFromDataLines | frontend/src/components/ImportCSV.tsx:26-49 | a blank text yields nothing; otherwise at most one record per data line, and a record is output iff some non-blank line after the first decodes to it |
| ImportCsv.HeaderSkipped | frontend/src/components/ImportCSV.tsx:29-30 | the first non-blank line is discarded whatever it holds, even a valid row |
| ImportCsv.LeadingBlankLineIgnored | frontend/src/components/ImportCSV.tsx:26 | blank lines are dropped before the header is chosen, so a blank first line does not count as the header |
| ImportCsv.LineAcceptance | frontend/src/components/ImportCSV.tsx:35-46 | a line `a,b,c…` yields a record iff the amount parses, the description and date fields are non-empty and the date parses; the record holds those three values; columns after the third are ignored |
| ImportCsv.RowAcceptance | frontend/src/components/ImportCSV.tsx:35-46 | the same for a line of exactly three fields |
| ImportCsv.FewerThanThreeFieldsDropped | frontend/src/components/ImportCSV.tsx:35-37 | a line with fewer than two commas yields no record |
| ImportCsv.BareField | frontend/src/components/ImportCSV.tsx:35 | a field with no surrounding white space or quotes is kept as written |
| ImportCsv.QuotedField | frontend/src/components/ImportCSV.tsx:35 | a field wrapped in one pair of double quotes loses exactly that pair |
| ImportCsv.NegativeAmountAccepted | frontend/src/components/ImportCSV.tsx:38-45 | a row with a negative amount is accepted: the import never checks the sign |
| ImportCsv.QuotedDescriptionRow | frontend/src/components/ImportCSV.tsx:25-52 | a header plus one row `amount,"description",date` yields exactly one record with the description unquoted |
| ImportCsv.QuotedRow | frontend/src/components/ImportCSV.tsx:35-45 | a row whose description is quoted decodes to the unquoted description |
| ImportCsv.DecodedRow | frontend/src/components/ImportCSV.tsx:35-45 | a row whose three fields read as a parsable amount, a non-empty description and a parsable date decodes to that record |
| ImportCsv.SingleLine | frontend/src/components/ImportCSV.tsx:26-32 | a one-line text with no surrounding white space, taken as the lines after a header, decodes to that line's record or to nothing |
| ImportCsv.SubmissionsMatchRecords | frontend/src/components/ImportCSV.tsx:77-83 | one call per record, with its amount, its description and source `csv`; the nanosecond timestamp reads back as the record's date |
| ImportCsv.Submissions | frontend/src/components/ImportCSV.tsx:77-83 | one call per record, in order, each with source `csv`; `SubmissionsMatchRecords` states the fields and timestamp carried over |
| ImportCsv.Successes | frontend/src/components/ImportCSV.tsx:84 | the success count never exceeds the number of submissions; `CountsConserved` states that it and the failure count cover every submission |
| ImportCsv.Failures | frontend/src/components/ImportCSV.tsx:86 | the failure count never exceeds the number of submissions |
| ImportCsv.CountsConserved | frontend/src/components/ImportCSV.tsx:72-89 | every submission is counted once, as a success or as a failure |
| ImportCsv.ThirdOfFiveRefused | frontend/src/components/ImportCSV.tsx:75-89 | five records with the third refused give four successes and one failure; the loop does not stop at the failure |
| ImportCsv.ReportShape | frontend/src/components/ImportCSV.tsx:91-96 | a success notification appears iff something was imported, an error notification iff something failed, and a message's noun is plural iff its count exceeds one |
| ImportCsv.ImportReport | frontend/src/components/ImportCSV.tsx:91-96 | one notification for each non-zero count; `ReportShape` states their kinds and plurals |
| ImportCsv.Plural | frontend/src/components/ImportCSV.tsx:92-95 | the `count > 1 ? 's' : ''` suffix; `ReportShape` states that a message's noun is plural iff its count exceeds one |
| ImportCsv.ImportForm.SubmitAll | frontend/src/components/ImportCSV.tsx:72-89 | every record is submitted in order; the counts are the numbers of accepted and refused calls |
| ImportCsv.ImportForm.Report | frontend/src/components/ImportCSV.tsx:91-96 | appends the success and failure notifications for the two counts |
| ImportCsv.ImportForm.HandleImport | frontend/src/components/ImportCSV.tsx:54-107 | no file: "Please select a file" and nothing else changes. Unreadable file: "Failed to process CSV file". No records: "No valid expenses found in CSV" and the file is kept. Otherwise every record is sent, the report is raised and the file is cleared. Once a file was chosen, processing ends off |
| AddExpense.Normalize | frontend/src/components/AddExpense.tsx:20-40 | what is sent has a positive amount, source `manual`, a non-empty description with no surrounding white space, and a whole-millisecond nanosecond timestamp |
| AddExpense.ValidAmount | frontend/src/components/AddExpense.tsx:20-21 | the amount must parse and be above zero; `AmountCheckedFirst` states that this alone decides the first check |
| AddExpense.RejectionMessage | frontend/src/components/AddExpense.tsx:20-48 | every rejection has a message, and an unparsable date gets exactly the ledger-failure message "Failed to add expense", which no other rejection shares |
| AddExpense.AmountCheckedFirst | frontend/src/components/AddExpense.tsx:20-24 | "invalid amount" is the outcome iff the amount is NaN or not above zero, whatever the other inputs hold |
| AddExpense.DescriptionCheckedSecond | frontend/src/components/AddExpense.tsx:26-29 | "missing description" is the outcome iff the amount is valid and the description is all white space |
| AddExpense.AcceptedExactly | frontend/src/components/AddExpense.tsx:31-40 | a form is sent iff amount, description and date all pass; the call carries the parsed amount, the trimmed description and a timestamp that reads back as the parsed date |
| AddExpense.DescriptionSentTrimmed | frontend/src/components/AddExpense.tsx:37 | the description sent is the trimmed text and trimming it again changes nothing |
| AddExpense.Validate | frontend/src/components/AddExpense.tsx:20-33 | the checks in source order give exactly the outcome of `Normalize` |
| AddExpense.AddExpenseForm.constructor | frontend/src/components/AddExpense.tsx:12-14 | empty amount and description, the date set to today's ISO date |
| AddExpense.AddExpenseForm.EditAmount | frontend/src/components/AddExpense.tsx:71 | the amount input takes the typed text; nothing else changes |
| AddExpense.AddExpenseForm.EditDescription | frontend/src/components/AddExpense.tsx:82 | the description takes the typed text; nothing else changes |
| AddExpense.AddExpenseForm.EditDate | frontend/src/components/AddExpense.tsx:94 | the date takes the typed text; nothing else changes |
| AddExpense.AddExpenseForm.HandleSubmit | frontend/src/components/AddExpense.tsx:17-50 | a rejected form raises its message and changes nothing else; an accepted one is sent once, then on success raises "Expense added successfully!" and resets to empty/empty/today, on failure raises "Failed to add expense" and keeps the inputs |
| OrderedMaps.OrderedMap.constructor | frontend/src/components/Overview.tsx:72 | an empty map |
| OrderedMaps.OrderedMap.Get | frontend/src/components/Overview.tsx:94 | a value iff the key was set, and it is the stored value |
| OrderedMaps.OrderedMap.Set | frontend/src/components/Overview.tsx:94 | an existing key keeps its position and takes the new value; a new key is appended; no key is listed twice |
| OrderedMaps.OrderedMap.Entries | frontend/src/components/Overview.tsx:97-98 | the entries in insertion order, each with its stored value |
| Overview.FoldIsSum | frontend/src/components/Overview.tsx:38 | the `reduce` from an accumulator adds the sum of the amounts to it |
| Overview.TotalIsSum | frontend/src/components/Overview.tsx:37-39 | the total is 0 without a summary and otherwise the sum of the category totals |
| Overview.FoldAmounts | frontend/src/components/Overview.tsx:38 | the left-to-right `reduce`; `FoldIsSum` states that it adds the sum of the amounts to its start value |
| Overview.TotalSpending | frontend/src/components/Overview.tsx:37-39 | `totalSpending`; `TotalIsSum` states its value |
| Overview.Slices | frontend/src/components/Overview.tsx:45-49 | one slice per entry, in order, with the entry's category and amount |
| Overview.PieChartData | frontend/src/components/Overview.tsx:41-50 | no slices without a summary, and at most one per entry; `PieSlicesExact` states which entries get one |
| Overview.PieSlicesExact | frontend/src/components/Overview.tsx:41-50 | a slice (category, value) is shown iff that category total is in the summary and is positive |
| Overview.PieKeepsOrder | frontend/src/components/Overview.tsx:43-49 | the slices keep the summary's order |
| Overview.TotalSplitsOverPie | frontend/src/components/Overview.tsx:37-50 | the total is the sum of the slices plus the sum of the zero and negative totals left out of the pie |
| Overview.ActiveCategories | frontend/src/components/Overview.tsx:145 | the count of active categories is the number of summary entries with a positive total (so never more than the entries), and 0 without a summary |
| Overview.RecentExactly | frontend/src/components/Overview.tsx:56-70 | a record stays iff it is inside the window; the filter keeps the ledger's order |
| Overview.WindowMs | frontend/src/components/Overview.tsx:58-66 | each window is a whole number of days, from 7 to 360 |
| Overview.InWindow | frontend/src/components/Overview.tsx:57-66 | the strict cut-off test on the fractional millisecond value; `IngestedRecordInWindow` states where the cut-off falls |
| Overview.Recent | frontend/src/components/Overview.tsx:56-70 | the records inside the window, in the ledger's order; `RecentExactly` states which ones |
| Overview.IngestedRecordInWindow | frontend/src/components/Overview.tsx:55-66 | for a record stored from a whole millisecond, kept iff `now - ms` is below the window: a record exactly one window old is out, one millisecond younger is in, a future-dated record is in |
| Overview.WeekStart | frontend/src/components/Overview.tsx:83-84 | the week's start is a Sunday, not after the day, and less than seven days before it |
| Overview.Weekday | frontend/src/components/Overview.tsx:84 | `getDay()`: a value from 0 (Sunday) to 6 for every local day |
| Overview.BucketKey | frontend/src/components/Overview.tsx:75-92 | the label of a record's bar; `SameWeekSameBar` and `WeekStart` state how weekly labels are shared |
| Overview.KeyedRecords | frontend/src/components/Overview.tsx:74-92 | one (label, amount) pair per windowed record, in order, the label being that record's `BucketKey`; `SameWeekSameBar` states which records share a weekly label |
| Overview.WeekStartUnique | frontend/src/components/Overview.tsx:83-84 | it is the only such Sunday |
| Overview.SameWeekSameBar | frontend/src/components/Overview.tsx:82-86 | two records in the same Sunday-to-Saturday week share the weekly label |
| Overview.FirstSeenKeys | frontend/src/components/Overview.tsx:74-95 | the bar labels are distinct, and a label appears iff some record carries it |
| Overview.KeyTotalIsFilteredSum | frontend/src/components/Overview.tsx:94 | the amount grouped under a label is the sum over the records with that label |
| Overview.KeyTotal | frontend/src/components/Overview.tsx:94 | the amount accumulated under one label; `KeyTotalIsFilteredSum` states its value |
| Overview.Grouped | frontend/src/components/Overview.tsx:72-97 | the map's entries after the loop; `GroupByKey` states that the loop produces them, and `FirstSeenKeys`, `GroupedDistinct` and `GroupedConservesTotal` state their order, distinctness and total |
| Overview.KeyTotalUnseen | frontend/src/components/Overview.tsx:94 | `get` of a label not met yet counts as 0 |
| Overview.GroupedConservesTotal | frontend/src/components/Overview.tsx:72-95 | the grouped amounts add up to the total of the grouped records |
| Overview.FirstSeenPrefix | frontend/src/components/Overview.tsx:94-97 | more records never reorder the labels already met: the labels of a prefix are a prefix of the labels |
| Overview.ScanOrderNotSorted | frontend/src/components/Overview.tsx:94-98 | bars follow first appearance, not date: records A, B, A give bars A (both amounts) then B |
| Overview.GroupedDistinct | frontend/src/components/Overview.tsx:94-98 | no label has two bars |
| Overview.KeepLast | frontend/src/components/Overview.tsx:99 | `slice(-10)` keeps the last min(n, length) elements |
| Overview.KeepLastDistinct | frontend/src/components/Overview.tsx:97-99 | truncation keeps the labels distinct |
| Overview.SeriesShape | frontend/src/components/Overview.tsx:52-100 | at most ten bars with distinct labels, each the sum of the windowed records with its label; with ten labels or fewer nothing is cut and the bars add up to the windowed total |
| Overview.BarIsFilteredSum | frontend/src/components/Overview.tsx:94-99 | each kept bar is the sum over the windowed records with its label |
| Overview.EarliestLabelDropped | frontend/src/components/Overview.tsx:97-99 | with more than ten labels the earliest-met label gets no bar, however recent its records |
| Overview.GroupByKey | frontend/src/components/Overview.tsx:72-95 | the `Map` updated record by record with `set(key, (get(key) or 0) + amount)` ends with exactly the grouped entries |
| Overview.TimeBasedData | frontend/src/components/Overview.tsx:52-100 | the series is the windowed, labelled, grouped and truncated data, and empty without expense data |
| Overview.Series | frontend/src/components/Overview.tsx:52-100 | the chart's series; `SeriesShape` states its size, labels and amounts |
| Records.NanosToMillis | frontend/src/components/Overview.tsx:75 | dividing the timestamp by 1,000,000 and truncating toward zero gives the millisecond just at or toward zero from the exact value |
| Records.MillisToNanos | frontend/src/components/AddExpense.tsx:33 | the timestamp sent is a whole number of milliseconds in nanoseconds, and dividing it by 1,000,000 gives the milliseconds back |
| Records.MillisOf | frontend/src/components/Overview.tsx:57 | the exact quotient: multiplied by 1,000,000 it gives the nanoseconds back |
| Records.NanosRoundTrip | frontend/src/components/AddExpense.tsx:32-33 | a timestamp built as ms × 1,000,000 divides back to ms exactly |
| Text.Trim | frontend/src/components/ImportCSV.tsx:31 | `trim()` never lengthens a text and leaves no white space at either end |
| Text.TrimShape | frontend/src/components/ImportCSV.tsx:35 | the trimmed text is a contiguous slice of the original, with only white space removed around it |
| Text.TrimIdempotent | frontend/src/components/AddExpense.tsx:37 | trimming twice is trimming once |
| Text.TrimEmptyIffAllSpace | frontend/src/components/AddExpense.tsx:26 | a text trims to empty iff every character is white space |
| Text.StripQuotesShape | frontend/src/components/ImportCSV.tsx:35 | the quote stripping removes a leading quote and at most one trailing quote, nothing else, and the result is a contiguous part of the field |
| Text.StripQuotes | frontend/src/components/ImportCSV.tsx:35 | removes at most two characters; `StripQuotesShape` states which |
| Text.Split | frontend/src/components/ImportCSV.tsx:26 | at least one piece, none holding the separator; `SplitJoin` and `JoinSplit` state that it inverts joining |
| Text.SplitJoin | frontend/src/components/ImportCSV.tsx:26 | joining the pieces of `split` with the separator restores the text |
| Text.JoinSplit | frontend/src/components/ImportCSV.tsx:26 | splitting a join of separator-free pieces returns the pieces |
| Text.SplitLength | frontend/src/components/ImportCSV.tsx:35-37 | `split` returns one more piece than the separator occurs |
| Text.NatToStringRoundTrip | frontend/src/components/ImportCSV.tsx:92 | the count in a report reads back as the count |
| Text.NatToString | frontend/src/components/ImportCSV.tsx:92-95 | the `${successCount}` and `${errorCount}` text: non-empty decimal digits without a leading zero; `NatToStringRoundTrip` states that it reads back as the count |
| Seqs.FilterMembers | frontend/src/components/ImportCSV.tsx:26 | `filter` keeps an element iff it is in the input and satisfies the test |
| Seqs.Filter | frontend/src/components/ImportCSV.tsx:26 | `Array.prototype.filter`, also at `Overview.tsx:44` and `56`: never longer than its input; `FilterMembers` and `FilterAppend` state which elements it keeps and that it keeps their order |
| Seqs.FilterAppend | frontend/src/components/Overview.tsx:56 | `filter` distributes over concatenation, so kept elements keep their order |
| Seqs.FilterMapMembers | frontend/src/components/ImportCSV.tsx:30-49 | a record is collected iff some line decodes to it |
| Seqs.FilterMapTailMembers | frontend/src/components/ImportCSV.tsx:30-49 | a record collected from every line but the first comes from some later line, and every later line that decodes contributes |
| Seqs.FilterMapAppend | frontend/src/components/ImportCSV.tsx:30-49 | collecting from two parts in turn gives the first part's values followed by the second's |
| Seqs.SumByFilterSplit | frontend/src/components/Overview.tsx:37-44 | a sum splits into the part over the kept elements and the part over the dropped ones |

## Behaviour worth knowing

- The CSV path accepts zero and negative amounts. It only checks that `parseFloat` did not give
  NaN (`ImportCSV.tsx:42`); `ImportCsv.NegativeAmountAccepted` states this. The manual path
  refuses them (`AddExpense.tsx:21`).
- The header is the first *non-blank* line. Blank lines are filtered out (`ImportCSV.tsx:26`)
  before the loop starts at index 1, so a blank first line does not count as the header
  (`ImportCsv.LeadingBlankLineIgnored`).
- An unparsable manual date is not checked up front. `BigInt(NaN)` throws inside the `try`
  (`AddExpense.tsx:33`), and the catch (`AddExpense.tsx:46-47`) shows
  "Failed to add expense"; no call is made (`AddExpense.RejectionMessage`, `InvalidDate`).
- A CSV description is trimmed *before* its quotes are stripped, so white space inside the
  quotes is kept: the field `" Grocery "` (quotes included) gives ` Grocery ` (inner spaces
  kept). The manual path sends a fully trimmed description.

## Left out

- JSX, styling, icons, the chart components, and the category label and colour tables. A pie
  slice carries the category and its value, not the label and colour looked up from them.
- IEEE-754 arithmetic. Amounts are exact reals, so rounding in the sums and in `toFixed(2)` is
  not modelled. `parseFloat` giving `Infinity` is not representable: the built-in returns a real
  or `None`. Timestamps are exact integers and exact quotients, but in the program
  `Number(expense.date)` (`Overview.tsx:57`, `75`) rounds: every nanosecond timestamp after 1970-04
  is above 2^53. For dates from mid-2006 to September 2039, `Number(ns) / 1_000_000` drifts
  from the millisecond value only when that value is 2 modulo 4. The drift is 2^-12 ms, about
  half the time up and half the time down; every other millisecond value reads back exactly.
  Every value before April 1988, and every value from November 2004 to July 2006, reads back
  exactly. From April 1988 to November 2004 the odd values drift, and from 2043 on those that are
  4 modulo 8. Timestamps that are whole seconds are exact until 2116. They cover every manual
  entry and every date-only CSV date.
- `Records.NanosRoundTrip` holds in exact arithmetic. In the program, for dates from 2006 to
  2039, it fails only for some millisecond values that are 2 modulo 4, so every whole-second
  timestamp keeps it. Its `MillisOf` half fails for each value that drifts. Its `NanosToMillis`
  half fails only for those that drift down. For example, ms = 1735948800002 reads back as
  1735948800001.9998, and `new Date` truncates that to 1735948800001.
- `Overview.IngestedRecordInWindow` holds in exact arithmetic. In the program, for dates from 2006
  to 2039, it fails only for some millisecond values that are 2 modulo 4, so every whole-second
  timestamp keeps it. It fails only for values that drift up, and only when `now - ms` is exactly
  the window. For example, ms = 1735948800006 reads back as 1735948800006.0002. With
  `now` = ms + 7 days, the program keeps a record that is exactly one week old, which the lemma
  says is out of the window.
- `Overview.TimeBasedData`: the source labels each record inside the `forEach` that updates the
  map. The model labels the windowed records first and then runs the grouping loop over
  (label, amount) pairs. The map sees the same updates in the same order.
- The `default` branches of the two `switch` statements (`Overview.tsx:67-68`, `90-91`). They
  cannot be reached because the range is one of three values, and the model's `TimeRange` has
  exactly those three.
- Asynchrony. `await` points, the intermediate renders while `isProcessing` is true, and the
  `isPending` flags that disable the controls are not modelled. Each handler runs to completion.
- `ImportCsv.ImportForm.HandleImport`: a failure of `file.text()` is the file's `contents` being
  `None`. No other step inside the outer `try` can throw in the model: decoding cannot fail, and
  each submission's failure is caught by the inner `try`.
- Clearing the file input element through the DOM (`ImportCSV.tsx:21`, `99-100`) and the
  `console.error` logging.
- The time zone, the `en-US` date formats and today's date. They are parameters (`Builtins`, the
  `today` text, `now`), so the labels are opaque texts given by `monthDay` and `yearMonth`.
- The loading spinner of the overview (`Overview.tsx:102-111`), the range selector state and the
  "Total Expenses" card (`expenses.length`, `Overview.tsx:134`).
- The ledger, the query hooks, the login page, the dashboard and the expense list. They are not
  part of this model; the ledger's answers are parameters.
- `ImportCsv.NegativeAmountAccepted`, `ImportCsv.QuotedDescriptionRow`: the concrete rows of the
  kind `25.50,"Grocery",2025-01-04` are stated for every row of that shape, with the values the
  parsers give as parameters, rather than for the literal texts.
