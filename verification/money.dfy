/** Monetary amounts of the ledger, held as exact integer cents
    (1000.00 is 100000 cents, 9999.99 is 999999 cents). */
module Money {

  /** The balance an account starts with: 1000.00. */
  const InitialBalance: int := 100_000

  /** The largest balance a credit may produce: 9999.99. */
  const MaxBalance: int := 999_999

  /** The bound the ledger keeps: no negative balance, nothing above 9999.99. */
  predicate InBounds(balance: int) {
    0 <= balance <= MaxBalance
  }

  /** The cents denoted by `dollars` and `cents` hundredths, as a decimal
      literal such as 250.50 denotes them. */
  function Cents(dollars: nat, cents: nat): (r: nat)
    requires cents < 100
    ensures r / 100 == dollars && r % 100 == cents
  {
    dollars * 100 + cents
  }
}
