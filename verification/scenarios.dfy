/** Concrete runs of the ledger, in cents. `InitialReadIsOneThousand`,
    `DirectWritesReadBack` and `CreditDebitOverdraft` use the figures of
    src/accounting/test.js; `CreditUpToTheLimit`, `NegativeAndNaNRefused`
    and `MenuSession` are boundary, refusal and menu cases of the rules in
    src/accounting/index.js. */
module Scenarios {
  import opened Wrappers
  import opened Money
  import opened Storage
  import opened Operations
  import opened Menu

  /** A fresh system reads 1000.00. */
  lemma InitialReadIsOneThousand()
    ensures DataModule(Init(), "READ", None) == Ok(DataReply(Cents(1000, 0), Init()))
    ensures Init().continueFlag
  {
  }

  /** The test script's direct writes: 1000.00 + 250.50 reads back 1250.50,
      minus 150.25 reads back 1100.25, and 9999.99 is stored as written. */
  lemma DirectWritesReadBack()
    ensures var w1 := DataModule(Init(), "WRITE", Some(Cents(1000, 0) + Cents(250, 50)));
            && w1 == Ok(DataReply(Cents(1250, 50), Account(Cents(1250, 50), true)))
            && var w2 := DataModule(w1.value.state, "WRITE", Some(Cents(1250, 50) - Cents(150, 25)));
            && w2 == Ok(DataReply(Cents(1100, 25), Account(Cents(1100, 25), true)))
            && DataModule(w2.value.state, "WRITE", Some(Cents(9999, 99))) == Ok(DataReply(MaxBalance, Account(MaxBalance, true)))
  {
  }

  /** Through the transaction rules from 1000.00: credit 250.50 gives
      1250.50, debit 150.25 gives 1100.25, and a debit 100.00 larger than
      the balance is refused with the balance left at 1100.25. */
  lemma CreditDebitOverdraft()
    ensures var s1 := Credit(Init(), Some(Cents(250, 50)));
            && s1.outcome == Success(Cents(1250, 50))
            && var s2 := Debit(s1.after, Some(Cents(150, 25)));
            && s2.outcome == Success(Cents(1100, 25))
            && Debit(s2.after, Some(Cents(1200, 25))) == Step(InsufficientFunds, s2.after)
            && s2.after.balance == Cents(1100, 25)
  {
  }

  /** From 9950.00, a credit of 49.99 reaches exactly 9999.99 and a further
      0.01 is refused. */
  lemma CreditUpToTheLimit()
    ensures var start := Write(Init(), Some(Cents(9950, 0)));
            && var s1 := Credit(start, Some(Cents(49, 99)));
            && s1.outcome == Success(MaxBalance)
            && Credit(s1.after, Some(Cents(0, 1))) == Step(LimitExceeded, s1.after)
  {
  }

  /** A negative amount (-5.00) is refused by both transactions, as is a NaN. */
  lemma NegativeAndNaNRefused()
    ensures Credit(Init(), Some(-500)) == Step(InvalidAmount, Init())
    ensures Debit(Init(), Some(-500)) == Step(InvalidAmount, Init())
    ensures Credit(Init(), None) == Step(InvalidAmount, Init())
    ensures Debit(Init(), None) == Step(InvalidAmount, Init())
  {
  }

  /** A whole menu session: credit 250.50, debit 150.25, an overdraft, an
      unknown choice, view balance, exit, and a round after exit that is
      never read. */
  lemma MenuSession()
    ensures Run(Init(), [
                Round(Some(2), Some(Cents(250, 50))),
                Round(Some(3), Some(Cents(150, 25))),
                Round(Some(3), Some(Cents(1200, 0))),
                Round(Some(7), None),
                Round(Some(1), None),
                Round(Some(4), None),
                Round(Some(2), Some(Cents(1, 0)))])
            == Session(Account(Cents(1100, 25), false), [
                Performed(Success(Cents(1250, 50))),
                Performed(Success(Cents(1100, 25))),
                Performed(InsufficientFunds),
                InvalidChoice,
                Performed(CurrentBalance(Cents(1100, 25))),
                ExitRequested])
  {
  }
}
