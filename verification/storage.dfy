/** The state of one `AccountingSystem` and its storage accessor
    (`dataModule`): READ and WRITE on the single stored balance. */
module Storage {
  import opened Wrappers
  import opened Money

  /** The two fields of the account the core reads and writes: the stored
      balance in cents and the flag that keeps the menu loop running. */
  datatype Account = Account(balance: int, continueFlag: bool)

  /** What a successful `dataModule` call returns: the balance it hands back
      and the account state after the call. */
  datatype DataReply = DataReply(value: int, state: Account)

  /** The state a freshly constructed system starts in. */
  function Init(): (a: Account)
    ensures InBounds(a.balance) && a.continueFlag
    ensures Read(a) == InitialBalance
  {
    Account(InitialBalance, true)
  }

  /** The READ branch: the stored balance. */
  function Read(a: Account): int {
    a.balance
  }

  /** The WRITE branch: a present value replaces the stored balance, a null
      value leaves the account as it is. No bound is enforced here. */
  function Write(a: Account, value: Option<int>): (r: Account)
    ensures r.continueFlag == a.continueFlag
    ensures value.Some? ==> Read(r) == value.value
    ensures value.None? ==> r == a
  {
    match value
    case Some(v) => a.(balance := v)
    case None => a
  }

  /** `dataModule(operation, balance)`: "READ" returns the stored balance,
      "WRITE" stores a non-null value and returns what is then stored, and
      every other operation name is an error. Here `None` is the omitted or
      `null` argument only: any number, NaN included, would be stored. */
  function DataModule(a: Account, operation: string, balance: Option<int>): (r: Result<DataReply, string>)
    ensures r.Err? <==> operation != "READ" && operation != "WRITE"
    ensures r.Err? ==> r.error == "Invalid data operation: " + operation
    ensures r.Ok? ==> r.value.value == Read(r.value.state)
    ensures r.Ok? ==> r.value.state.continueFlag == a.continueFlag
    ensures operation == "READ" ==> r == Ok(DataReply(a.balance, a))
    ensures operation == "WRITE" && balance.Some? ==> r.Ok? && r.value.value == balance.value
    ensures operation == "WRITE" && balance.None? ==> r == Ok(DataReply(a.balance, a))
  {
    if operation == "READ" then
      Ok(DataReply(Read(a), a))
    else if operation == "WRITE" then
      var stored := Write(a, balance);
      Ok(DataReply(Read(stored), stored))
    else
      Err("Invalid data operation: " + operation)
  }

  /** A READ after a WRITE of a value returns that value, whatever it is:
      WRITE itself does not check the 0..9999.99 bound. */
  lemma WriteThenRead(a: Account, v: int)
    ensures var w := DataModule(a, "WRITE", Some(v));
            w.Ok? && DataModule(w.value.state, "READ", None) == Ok(DataReply(v, w.value.state))
  {
  }

  /** Reading twice gives the same value and state as reading once. */
  lemma ReadIsIdempotent(a: Account, ignored: Option<int>)
    ensures var r1 := DataModule(a, "READ", ignored);
            r1.Ok? && DataModule(r1.value.state, "READ", None) == r1
  {
  }

  /** Two WRITEs of values leave only the later one stored. */
  lemma LastWriteWins(a: Account, v1: int, v2: int)
    ensures var w1 := DataModule(a, "WRITE", Some(v1));
            w1.Ok? && DataModule(w1.value.state, "WRITE", Some(v2)) == DataModule(a, "WRITE", Some(v2))
  {
  }
}
