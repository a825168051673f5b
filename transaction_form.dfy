/** The add-transaction form: it checks the description and amount typed in,
    turns the amount into a signed number that agrees with the chosen type,
    stamps the transaction with today's short date, dispatches it, and clears
    the form. The clock is an input. */
module TransactionForm {
  import opened Util
  import opened Text
  import opened Calendar
  import opened Records
  import opened AppReducer

  const FillAllFields: string := "Please fill in all fields"
  const InvalidAmount: string := "Please enter a valid amount"
  const DefaultCategory: string := "Food"

  /** The categories the form offers. */
  const Categories: seq<string> :=
    ["Food", "Transportation", "Shopping", "Entertainment", "Bills", "Salary", "Education", "Other"]

  /** The four controlled fields of the form, as typed. */
  datatype Fields = Fields(description: string, amount: string, txType: TxType, category: string)

  /** The fields the form starts with and returns to after a submission. */
  const EmptyFields: Fields := Fields("", "", Expense, DefaultCategory)

  /** A submission either raises an alert and leaves the form alone, or dispatches
      one action and resets the form. */
  datatype Submission = Alerted(alert: string) | Dispatched(action: Action, next: Fields)

  /** `toLocaleDateString('en-US', { month: 'short', day: 'numeric' })`. */
  function ShortDate(now: Clock): (s: string)
    requires ValidClock(now)
    ensures ParseTransactionDate(s) == MonthDay(now.month, now.day)
  {
    ParseMonthDayRoundTrip(now.month, now.day);
    MonthAbbreviations[now.month] + " " + NatToString(now.day)
  }

  /** `type === 'expense' ? -Math.abs(n) : Math.abs(n)`. */
  function SignedAmount(t: TxType, n: real): (r: real)
    ensures Abs(r) == Abs(n)
    ensures t == Expense ==> r <= 0.0
    ensures t == Income ==> r >= 0.0
  {
    if t == Expense then -Abs(n) else Abs(n)
  }

  /** `handleSubmit`. */
  function Submit(f: Fields, now: Clock): (s: Submission)
    requires ValidClock(now)
    ensures s.Alerted? <==> Trim(f.description) == "" || f.amount == "" || !IsNumeric(f.amount)
    ensures Trim(f.description) == "" || f.amount == "" ==> s == Alerted(FillAllFields)
    ensures s.Dispatched? ==> s.next == EmptyFields && s.action.AddTransaction?
    ensures s.Dispatched? ==>
      var tx := s.action.tx;
      && tx.id == now.millis
      && tx.name == f.description
      && tx.txType == f.txType
      && tx.category == f.category
      && tx.source.None?
      && Abs(tx.amount) == Abs(ParseFloat(f.amount).value)
      && ParseTransactionDate(tx.date) == MonthDay(now.month, now.day)
  {
    if Trim(f.description) == "" || f.amount == "" then Alerted(FillAllFields)
    else
      match ParseFloat(f.amount)
      case None => Alerted(InvalidAmount)
      case Some(n) =>
        var tx := Transaction(now.millis, f.description, SignedAmount(f.txType, n),
          ShortDate(now), f.txType, f.category, None);
        Dispatched(AddTransaction(tx), EmptyFields)
  }

  /** A filled-in description with a non-numeric amount is refused with the
      second alert. */
  lemma NonNumericAmountRejected(f: Fields, now: Clock)
    requires ValidClock(now)
    requires Trim(f.description) != "" && f.amount != "" && !IsNumeric(f.amount)
    ensures Submit(f, now) == Alerted(InvalidAmount)
  {}

  /** The sign of a submitted amount always agrees with the chosen type: an
      expense is never positive, an income never negative, so the aggregations
      that test `amount < 0` never count an income. */
  lemma SignAgreesWithType(f: Fields, now: Clock)
    requires ValidClock(now) && Submit(f, now).Dispatched?
    ensures var tx := Submit(f, now).action.tx;
      (tx.amount < 0.0 ==> tx.txType == Expense) && (tx.amount > 0.0 ==> tx.txType == Income)
      && (tx.txType == Expense ==> tx.amount == -Abs(ParseFloat(f.amount).value))
  {}

  /** The stored date resolves to today's calendar date. */
  lemma DateIsToday(f: Fields, now: Clock)
    requires ValidClock(now) && Submit(f, now).Dispatched?
    ensures Resolve(ParseTransactionDate(Submit(f, now).action.tx.date), now)
      == Some(CalendarDate(now.year, now.month, now.day))
  {
    NormalizeExamples(now.year, now.month, now.day);
  }

  /** Dispatching the submission appends the new transaction to the list and
      changes nothing else. */
  lemma SubmitAppends(f: Fields, s: State, env: Env)
    requires ValidClock(env.now) && Submit(f, env.now).Dispatched?
    ensures var a := Submit(f, env.now).action;
      Reduce(s, a, env) == s.(transactions := s.transactions + [a.tx])
  {
    var a := Submit(f, env.now).action;
    assert ActionValid(a);
  }
}
