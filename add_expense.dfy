/** The manual entry card: three text inputs (amount, description, date) and the submit handler that
    validates them, sends one expense to the ledger and reports the outcome. */
module AddExpense {
  import opened Wrappers
  import opened Text
  import opened Runtime
  import opened Records

  /** Why a submission of the form is turned down before it reaches the ledger. */
  datatype Rejection = InvalidAmount | MissingDescription | InvalidDate

  /** The notification raised for each rejection. An unparsable date is not checked up front: it
      makes the nanosecond conversion throw, and the handler's catch reports it like a ledger
      failure. */
  function RejectionMessage(why: Rejection): (text: string)
    ensures text != []
    ensures text == FailureMessage <==> why == InvalidDate
  {
    match why
    case InvalidAmount => "Please enter a valid amount"
    case MissingDescription => "Please enter a description"
    case InvalidDate => FailureMessage
  }

  const SuccessMessage: string := "Expense added successfully!"
  const FailureMessage: string := "Failed to add expense"

  /** The amount check: `parseFloat` must give a number, and it must be above zero. */
  predicate ValidAmount(amountText: string, js: Builtins) {
    js.parseFloat(amountText).Some? && js.parseFloat(amountText).value > 0.0
  }

  /** What `handleSubmit` makes of the three inputs: a rejection, checked in the order amount,
      description, date, or the arguments of the `addExpense` call. */
  function Normalize(amountText: string, descriptionText: string, dateText: string, js: Builtins)
    : (r: Result<Submission, Rejection>)
    ensures r.Ok? ==>
      r.value.amount > 0.0 && r.value.source == Manual
      && r.value.description != []
      && !IsSpace(r.value.description[0]) && !IsSpace(r.value.description[|r.value.description| - 1])
      && r.value.dateNs % NanosPerMilli == 0
  {
    var amountNum := js.parseFloat(amountText);
    if amountNum.None? || amountNum.value <= 0.0 then Err(InvalidAmount)
    else if Trim(descriptionText) == [] then Err(MissingDescription)
    else
      match js.parseDate(dateText)
      case None => Err(InvalidDate)
      case Some(ms) => Ok(Submission(amountNum.value, Trim(descriptionText), MillisToNanos(ms), Manual))
  }

  /** The amount is judged first: a missing, non-numeric, zero or negative amount is reported as such
      whatever the description and the date hold, and only then. */
  lemma AmountCheckedFirst(amountText: string, descriptionText: string, dateText: string, js: Builtins)
    ensures Normalize(amountText, descriptionText, dateText, js) == Err(InvalidAmount)
      <==> !ValidAmount(amountText, js)
  {
  }

  /** With a valid amount, the description is judged next: it is reported missing exactly when it
      is empty or holds nothing but white space, whatever the date holds. */
  lemma DescriptionCheckedSecond(amountText: string, descriptionText: string, dateText: string, js: Builtins)
    ensures Normalize(amountText, descriptionText, dateText, js) == Err(MissingDescription)
      <==> ValidAmount(amountText, js) && forall k :: 0 <= k < |descriptionText| ==> IsSpace(descriptionText[k])
  {
    TrimEmptyIffAllSpace(descriptionText);
  }

  /** A form is sent exactly when its amount is valid, its description holds a visible character
      and its date parses; what is sent is the parsed amount, the trimmed description and a
      timestamp that reads back as the parsed date. */
  lemma AcceptedExactly(amountText: string, descriptionText: string, dateText: string, js: Builtins)
    ensures var r := Normalize(amountText, descriptionText, dateText, js);
      (r.Ok? <==> ValidAmount(amountText, js) && Trim(descriptionText) != [] && js.parseDate(dateText).Some?)
      && (r.Ok? ==>
            r.value.amount == js.parseFloat(amountText).value
            && r.value.description == Trim(descriptionText)
            && NanosToMillis(r.value.dateNs) == js.parseDate(dateText).value
            && MillisOf(r.value.dateNs) == js.parseDate(dateText).value as real)
  {
    if js.parseDate(dateText).Some? {
      NanosRoundTrip(js.parseDate(dateText).value);
    }
  }

  /** White space around the description never reaches the ledger, and a second trim changes
      nothing: the description sent is the trimmed text. */
  lemma DescriptionSentTrimmed(amountText: string, descriptionText: string, dateText: string, js: Builtins)
    requires Normalize(amountText, descriptionText, dateText, js).Ok?
    ensures var d := Normalize(amountText, descriptionText, dateText, js).value.description;
      Trim(d) == d && d == Trim(descriptionText)
  {
    assert Normalize(amountText, descriptionText, dateText, js).value.description == Trim(descriptionText);
    TrimIdempotent(descriptionText);
  }

  /** The checks at the top of `handleSubmit` and the conversion inside its `try`, in source order:
      the amount, then the description, then the date, whose conversion to nanoseconds throws
      when it does not parse. */
  method Validate(amountText: string, descriptionText: string, dateText: string, js: Builtins)
    returns (r: Result<Submission, Rejection>)
    ensures r == Normalize(amountText, descriptionText, dateText, js)
  {
    var amountNum := js.parseFloat(amountText);
    if amountNum.None? || amountNum.value <= 0.0 {
      return Err(InvalidAmount);
    }
    var description := Trim(descriptionText);
    if description == [] {
      return Err(MissingDescription);
    }
    var dateObj := js.parseDate(dateText);
    if dateObj.None? {
      return Err(InvalidDate);
    }
    var dateNano := MillisToNanos(dateObj.value);
    return Ok(Submission(amountNum.value, description, dateNano, Manual));
  }

  /** The state of the manual entry card. */
  class AddExpenseForm {
    /** The amount input's text (`amount` state). */
    var amount: string
    /** The description textarea's text (`description` state). */
    var description: string
    /** The date input's text, `YYYY-MM-DD` when the browser fills it (`date` state). */
    var date: string
    /** The notifications raised so far. */
    var toasts: seq<Toast>
    /** The `addExpense` calls made so far, in order. */
    var sent: seq<Submission>

    /** The empty form; the date starts at `today`, the ISO calendar date of the moment the card
        is created. */
    constructor (today: string)
      ensures amount == [] && description == [] && date == today
      ensures toasts == [] && sent == []
    {
      amount := [];
      description := [];
      date := today;
      toasts := [];
      sent := [];
    }

    /** The amount input's change handler. */
    method EditAmount(text: string)
      modifies this
      ensures amount == text
      ensures description == old(description) && date == old(date) && toasts == old(toasts) && sent == old(sent)
    {
      amount := text;
    }

    /** The description textarea's change handler. */
    method EditDescription(text: string)
      modifies this
      ensures description == text
      ensures amount == old(amount) && date == old(date) && toasts == old(toasts) && sent == old(sent)
    {
      description := text;
    }

    /** The date input's change handler. */
    method EditDate(text: string)
      modifies this
      ensures date == text
      ensures amount == old(amount) && description == old(description) && toasts == old(toasts) && sent == old(sent)
    {
      date := text;
    }

    /** `handleSubmit`: a rejected form raises its error and changes nothing else; an accepted one
        is sent once, and then either the ledger accepts it (`accepted`), the success notification
        appears and the form is cleared with the date back at `today`, or the ledger fails, the
        failure notification appears and the form keeps what the user typed. */
    method HandleSubmit(js: Builtins, today: string, accepted: bool)
      modifies this
      ensures var r := Normalize(old(amount), old(description), old(date), js);
        r.Err? ==>
          toasts == old(toasts) + [Toast(ErrorToast, RejectionMessage(r.error))] && sent == old(sent)
          && amount == old(amount) && description == old(description) && date == old(date)
      ensures var r := Normalize(old(amount), old(description), old(date), js);
        r.Ok? ==> sent == old(sent) + [r.value]
      ensures var r := Normalize(old(amount), old(description), old(date), js);
        r.Ok? && accepted ==>
          toasts == old(toasts) + [Toast(SuccessToast, SuccessMessage)]
          && amount == [] && description == [] && date == today
      ensures var r := Normalize(old(amount), old(description), old(date), js);
        r.Ok? && !accepted ==>
          toasts == old(toasts) + [Toast(ErrorToast, FailureMessage)]
          && amount == old(amount) && description == old(description) && date == old(date)
    {
      var r := Validate(amount, description, date, js);
      if r.Err? {
        toasts := toasts + [Toast(ErrorToast, RejectionMessage(r.error))];
        return;
      }
      sent := sent + [r.value];
      if accepted {
        toasts := toasts + [Toast(SuccessToast, SuccessMessage)];
        amount := [];
        description := [];
        date := today;
      } else {
        toasts := toasts + [Toast(ErrorToast, FailureMessage)];
      }
    }
  }
}
