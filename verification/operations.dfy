/** The transaction rules of `operationsModule`: TOTAL reads the balance,
    CREDIT and DEBIT validate an already-parsed amount, check the bound and
    write the new balance. Every outcome the source prints is a tag here. */
module Operations {
  import opened Wrappers
  import opened Money
  import opened Storage

  /** What one operation reports. */
  datatype Outcome =
    | CurrentBalance(balance: int)     // TOTAL shows the stored balance
    | Success(newBalance: int)         // credit or debit applied
    | InvalidAmount                    // NaN or negative amount
    | LimitExceeded                    // credit would pass 9999.99
    | InsufficientFunds                // debit larger than the balance
    | InvalidOperationType(op: string) // unknown operation name (a thrown error)

  /** An outcome together with the account state after the operation. */
  datatype Step = Step(outcome: Outcome, after: Account)

  /** An outcome that turns the request down. */
  predicate Rejected(o: Outcome) {
    o.InvalidAmount? || o.LimitExceeded? || o.InsufficientFunds? || o.InvalidOperationType?
  }

  /** The amount check both transactions start with: parsing gave a number
      and it is not negative. Zero passes. */
  predicate ValidAmount(amount: Option<int>) {
    amount.Some? && amount.value >= 0
  }

  /** TOTAL: report the stored balance; nothing is written. */
  function Total(a: Account): (r: Step)
    ensures r.after == a
    ensures r.outcome == CurrentBalance(a.balance)
  {
    Step(CurrentBalance(Read(a)), a)
  }

  /** CREDIT: reject an invalid amount, reject a sum above 9999.99, and
      otherwise store and report the sum. */
  function Credit(a: Account, amount: Option<int>): (r: Step)
    ensures r.outcome.Success? || r.outcome.InvalidAmount? || r.outcome.LimitExceeded?
    ensures r.outcome.InvalidAmount? <==> !ValidAmount(amount)
    ensures r.outcome.LimitExceeded? <==> ValidAmount(amount) && a.balance + amount.value > MaxBalance
    ensures r.outcome.Success? <==> ValidAmount(amount) && a.balance + amount.value <= MaxBalance
    ensures Rejected(r.outcome) ==> r.after == a
    ensures r.outcome.Success? ==>
              r.outcome.newBalance == a.balance + amount.value
              && r.after == a.(balance := r.outcome.newBalance)
  {
    if !ValidAmount(amount) then
      Step(InvalidAmount, a)
    else
      var newBalance := Read(a) + amount.value;
      if newBalance > MaxBalance then
        Step(LimitExceeded, a)
      else
        Step(Success(newBalance), Write(a, Some(newBalance)))
  }

  /** DEBIT: reject an invalid amount, reject an amount above the balance,
      and otherwise store and report the difference. */
  function Debit(a: Account, amount: Option<int>): (r: Step)
    ensures r.outcome.Success? || r.outcome.InvalidAmount? || r.outcome.InsufficientFunds?
    ensures r.outcome.InvalidAmount? <==> !ValidAmount(amount)
    ensures r.outcome.InsufficientFunds? <==> ValidAmount(amount) && amount.value > a.balance
    ensures r.outcome.Success? <==> ValidAmount(amount) && amount.value <= a.balance
    ensures Rejected(r.outcome) ==> r.after == a
    ensures r.outcome.Success? ==>
              r.outcome.newBalance == a.balance - amount.value
              && r.after == a.(balance := r.outcome.newBalance)
  {
    if !ValidAmount(amount) then
      Step(InvalidAmount, a)
    else
      var current := Read(a);
      if current >= amount.value then
        var newBalance := current - amount.value;
        Step(Success(newBalance), Write(a, Some(newBalance)))
      else
        Step(InsufficientFunds, a)
  }

  /** `operationsModule(operationType)` with the amount the user would type
      already parsed; TOTAL ignores the amount, and an unknown operation name
      is an error that changes nothing. */
  function OperationsModule(a: Account, operationType: string, amount: Option<int>): (r: Step)
    ensures r.after.continueFlag == a.continueFlag
    ensures operationType == "TOTAL" ==> r == Total(a)
    ensures operationType == "CREDIT" ==> r == Credit(a, amount)
    ensures operationType == "DEBIT" ==> r == Debit(a, amount)
    ensures r.outcome.InvalidOperationType? <==> operationType !in {"TOTAL", "CREDIT", "DEBIT"}
    ensures r.outcome.InvalidOperationType? ==> r.after == a && r.outcome.op == operationType
  {
    if operationType == "TOTAL" then Total(a)
    else if operationType == "CREDIT" then Credit(a, amount)
    else if operationType == "DEBIT" then Debit(a, amount)
    else Step(InvalidOperationType(operationType), a)
  }

  /** Whatever the outcome, an operation that starts inside 0..9999.99 ends
      inside it. */
  lemma OperationPreservesBounds(a: Account, operationType: string, amount: Option<int>)
    requires InBounds(a.balance)
    ensures InBounds(OperationsModule(a, operationType, amount).after.balance)
  {
  }

  /** A reported new balance is always the balance now stored. */
  lemma ReportedBalanceIsStored(a: Account, operationType: string, amount: Option<int>)
    ensures var r := OperationsModule(a, operationType, amount);
            (r.outcome.Success? ==> r.outcome.newBalance == Read(r.after))
            && (r.outcome.CurrentBalance? ==> r.outcome.balance == Read(r.after))
  {
  }

  /** A successful credit of x followed by a debit of x succeeds and puts the
      balance back where it was. */
  lemma CreditThenDebitRestores(a: Account, x: int)
    requires InBounds(a.balance)
    requires Credit(a, Some(x)).outcome.Success?
    ensures Debit(Credit(a, Some(x)).after, Some(x)) == Step(Success(a.balance), a)
  {
  }

  /** A successful debit of x followed by a credit of x succeeds and puts the
      balance back where it was. */
  lemma DebitThenCreditRestores(a: Account, x: int)
    requires InBounds(a.balance)
    requires Debit(a, Some(x)).outcome.Success?
    ensures Credit(Debit(a, Some(x)).after, Some(x)) == Step(Success(a.balance), a)
  {
  }

  /** Credit boundary: landing exactly on 9999.99 succeeds, one cent more is
      refused and leaves the account untouched. */
  lemma CreditBoundary(a: Account)
    requires InBounds(a.balance)
    ensures Credit(a, Some(MaxBalance - a.balance)) == Step(Success(MaxBalance), a.(balance := MaxBalance))
    ensures Credit(a, Some(MaxBalance - a.balance + 1)) == Step(LimitExceeded, a)
  {
  }

  /** Debit boundary: taking the whole balance leaves 0.00, one cent more is
      refused and leaves the account untouched. */
  lemma DebitBoundary(a: Account)
    requires InBounds(a.balance)
    ensures Debit(a, Some(a.balance)) == Step(Success(0), a.(balance := 0))
    ensures Debit(a, Some(a.balance + 1)) == Step(InsufficientFunds, a)
  {
  }

  /** A zero amount is accepted by both transactions and changes nothing but
      the report. */
  lemma ZeroAmountAccepted(a: Account)
    requires InBounds(a.balance)
    ensures Credit(a, Some(0)) == Step(Success(a.balance), a)
    ensures Debit(a, Some(0)) == Step(Success(a.balance), a)
  {
  }
}
