/** The values that travel between the components and the ledger: what is submitted, what comes back,
    and the notifications shown to the user. */
module Records {

  /** The `source` tag sent with a submission: `'manual'` or `'csv'`. */
  datatype Source = Manual | Csv

  /** The arguments of one `addExpense` call: amount, description, date in nanoseconds, source. */
  datatype Submission = Submission(amount: real, description: string, dateNs: int, source: Source)

  /** The category label the ledger assigns. */
  datatype Category = Food | Transportation | Entertainment | Shopping | Bills | Healthcare | Other

  /** One entry of `getExpenseSummaryByCategory`: a category and its total. */
  datatype CategoryTotal = CategoryTotal(category: Category, amount: real)

  /** An expense as `getUserExpenses` returns it: the fields the overview reads, and the category. */
  datatype ExpenseRecord = ExpenseRecord(amount: real, description: string, dateNs: int, category: Category)

  datatype ToastKind = SuccessToast | ErrorToast

  /** A notification raised with `toast.success` or `toast.error`. */
  datatype Toast = Toast(kind: ToastKind, text: string)

  const NanosPerMilli: int := 1_000_000

  /** `BigInt(ms) * BigInt(1_000_000)`: the nanosecond timestamp sent to the ledger. */
  function MillisToNanos(ms: int): (ns: int)
    ensures ns % NanosPerMilli == 0 && ns / NanosPerMilli == ms
  {
    ms * NanosPerMilli
  }

  /** `Number(ns) / 1_000_000`: the instant in (fractional) milliseconds, as the window filter sees it. */
  function MillisOf(ns: int): (r: real)
    ensures r * NanosPerMilli as real == ns as real
  {
    ns as real / NanosPerMilli as real
  }

  /** `new Date(Number(ns) / 1_000_000)`: the Date constructor drops the fraction of a millisecond,
      truncating toward zero (JavaScript's ToIntegerOrInfinity), not toward minus infinity. */
  function NanosToMillis(ns: int): (ms: int)
    ensures ms as real <= MillisOf(ns) < ms as real + 1.0 || ns < 0
    ensures ns < 0 ==> ms as real - 1.0 < MillisOf(ns) <= ms as real
  {
    if ns >= 0 then ns / NanosPerMilli else -((-ns) / NanosPerMilli)
  }

  /** Reading a stored timestamp back recovers the millisecond instant it was made from. */
  lemma NanosRoundTrip(ms: int)
    ensures NanosToMillis(MillisToNanos(ms)) == ms
    ensures MillisOf(MillisToNanos(ms)) == ms as real
  {
    if ms < 0 {
      assert -(ms * NanosPerMilli) == (-ms) * NanosPerMilli;
    }
  }
}
