/** The menu of `mainLogic`: a parsed choice selects TOTAL, CREDIT, DEBIT or
    exit, and the loop repeats rounds while `continueFlag` holds. */
module Menu {
  import opened Wrappers
  import opened Money
  import opened Storage
  import opened Operations

  /** What a menu choice asks for. */
  datatype Action = RunOperation(operationType: string) | Exit | UnknownChoice

  /** One round of input: the choice as `parseInt` left it (None for NaN)
      and the amount as `parseFloat` left it, which only choices 2 and 3 use. */
  datatype Round = Round(choice: Option<int>, amount: Option<int>)

  /** What one round did. */
  datatype Event = Performed(outcome: Outcome) | ExitRequested | InvalidChoice

  /** A round's event and the account state after it. */
  datatype RoundStep = RoundStep(event: Event, after: Account)

  /** The account state at the end of a session and the events of the rounds
      it ran. */
  datatype Session = Session(final: Account, events: seq<Event>)

  /** Whether a round asks for a credit or a debit, the only rounds that can
      write the balance. */
  predicate IsTransaction(r: Round) {
    r.choice == Some(2) || r.choice == Some(3)
  }

  /** The `switch (choice)` of `mainLogic`. */
  function Dispatch(choice: Option<int>): (act: Action)
    ensures act.RunOperation? ==> act.operationType in {"TOTAL", "CREDIT", "DEBIT"}
    ensures act == RunOperation("TOTAL") <==> choice == Some(1)
    ensures act == RunOperation("CREDIT") <==> choice == Some(2)
    ensures act == RunOperation("DEBIT") <==> choice == Some(3)
    ensures act == Exit <==> choice == Some(4)
    ensures act == UnknownChoice <==> choice !in {Some(1), Some(2), Some(3), Some(4)}
  {
    match choice
    case Some(1) => RunOperation("TOTAL")
    case Some(2) => RunOperation("CREDIT")
    case Some(3) => RunOperation("DEBIT")
    case Some(4) => Exit
    case _ => UnknownChoice
  }

  /** One pass of the loop body: dispatch the choice and apply it. */
  function MenuRound(a: Account, round: Round): (r: RoundStep)
    ensures r.after.continueFlag == (a.continueFlag && round.choice != Some(4))
    ensures !IsTransaction(round) ==> r.after.balance == a.balance
    ensures round.choice !in {Some(1), Some(2), Some(3), Some(4)} ==> r == RoundStep(InvalidChoice, a)
    ensures round.choice == Some(4) ==> r.event == ExitRequested
    ensures round.choice == Some(1) ==> r == RoundStep(Performed(CurrentBalance(a.balance)), a)
    ensures round.choice == Some(2) ==> r == RoundStep(Performed(Credit(a, round.amount).outcome), Credit(a, round.amount).after)
    ensures round.choice == Some(3) ==> r == RoundStep(Performed(Debit(a, round.amount).outcome), Debit(a, round.amount).after)
    ensures !(r.event.Performed? && r.event.outcome.InvalidOperationType?)
  {
    match Dispatch(round.choice)
    case RunOperation(op) =>
      var step := OperationsModule(a, op, round.amount);
      RoundStep(Performed(step.outcome), step.after)
    case Exit => RoundStep(ExitRequested, a.(continueFlag := false))
    case UnknownChoice => RoundStep(InvalidChoice, a)
  }

  /** The `while (continueFlag)` loop over a finite script of rounds,
      written recursively: it stops once the flag is false or the script is
      used up. */
  function Run(a: Account, rounds: seq<Round>): (r: Session)
    ensures |r.events| <= |rounds|
    ensures r.final.continueFlag ==> a.continueFlag && |r.events| == |rounds|
    ensures !a.continueFlag ==> r == Session(a, [])
    decreases |rounds|
  {
    if !a.continueFlag || |rounds| == 0 then
      Session(a, [])
    else
      var step := MenuRound(a, rounds[0]);
      var rest := Run(step.after, rounds[1..]);
      Session(rest.final, [step.event] + rest.events)
  }

  /** Sessions that start inside 0..9999.99 stay inside it after every round. */
  lemma {:induction false} RunPreservesBounds(a: Account, rounds: seq<Round>)
    requires InBounds(a.balance)
    ensures InBounds(Run(a, rounds).final.balance)
    decreases |rounds|
  {
    if a.continueFlag && |rounds| > 0 {
      var step := MenuRound(a, rounds[0]);
      RunPreservesBounds(step.after, rounds[1..]);
    }
  }

  /** A running session ends with the flag cleared exactly when some round
      of the script chose 4. */
  lemma {:induction false} RunExitsIffChoiceFour(a: Account, rounds: seq<Round>)
    requires a.continueFlag
    ensures !Run(a, rounds).final.continueFlag <==> exists i :: 0 <= i < |rounds| && rounds[i].choice == Some(4)
    decreases |rounds|
  {
    if |rounds| > 0 {
      var step := MenuRound(a, rounds[0]);
      if rounds[0].choice == Some(4) {
        assert !step.after.continueFlag;
      } else {
        RunExitsIffChoiceFour(step.after, rounds[1..]);
        assert forall i :: 1 <= i < |rounds| ==> rounds[i] == rounds[1..][i - 1];
      }
    }
  }

  /** Once a script has cleared the flag, whatever follows it is never read. */
  lemma {:induction false} RunIgnoresRoundsAfterExit(a: Account, script: seq<Round>, tail: seq<Round>)
    requires !Run(a, script).final.continueFlag
    ensures Run(a, script + tail) == Run(a, script)
    decreases |script|
  {
    if a.continueFlag {
      assert |script| > 0;
      assert (script + tail)[1..] == script[1..] + tail;
      RunIgnoresRoundsAfterExit(MenuRound(a, script[0]).after, script[1..], tail);
    }
  }

  /** A session with no credit or debit round, however long, leaves the
      balance as it was. */
  lemma {:induction false} RunWithoutTransactionsKeepsBalance(a: Account, rounds: seq<Round>)
    requires forall i :: 0 <= i < |rounds| ==> !IsTransaction(rounds[i])
    ensures Run(a, rounds).final.balance == a.balance
    decreases |rounds|
  {
    if a.continueFlag && |rounds| > 0 {
      RunWithoutTransactionsKeepsBalance(MenuRound(a, rounds[0]).after, rounds[1..]);
    }
  }

  /** A session never runs more rounds than the script holds, and with no
      exit choice it runs every one of them. */
  lemma {:induction false} RunEventCount(a: Account, rounds: seq<Round>)
    ensures |Run(a, rounds).events| <= |rounds|
    ensures (a.continueFlag && forall i :: 0 <= i < |rounds| ==> rounds[i].choice != Some(4)) ==>
              |Run(a, rounds).events| == |rounds|
    decreases |rounds|
  {
    if a.continueFlag && |rounds| > 0 {
      RunEventCount(MenuRound(a, rounds[0]).after, rounds[1..]);
      assert forall i :: 0 <= i < |rounds| - 1 ==> rounds[1..][i] == rounds[i + 1];
    }
  }

  /** A running session stops at the first round that chooses 4: it runs
      exactly the rounds up to and including that one, and the last event
      is the exit. */
  lemma {:induction false} RunStopsAtFirstExit(a: Account, rounds: seq<Round>, k: nat)
    requires a.continueFlag
    requires k < |rounds| && rounds[k].choice == Some(4)
    requires forall i :: 0 <= i < k ==> rounds[i].choice != Some(4)
    ensures |Run(a, rounds).events| == k + 1
    ensures Run(a, rounds).events[k] == ExitRequested
    ensures forall i :: 0 <= i < k ==> Run(a, rounds).events[i] != ExitRequested
    decreases k
  {
    var step := MenuRound(a, rounds[0]);
    if k == 0 {
      assert !step.after.continueFlag;
    } else {
      assert forall i :: 0 <= i < k - 1 ==> rounds[1..][i] == rounds[i + 1];
      RunStopsAtFirstExit(step.after, rounds[1..], k - 1);
    }
  }

  /** `mainLogic`: run rounds of the script while the flag holds. */
  method MainLogic(a: Account, rounds: seq<Round>) returns (final: Account, events: seq<Event>)
    ensures Session(final, events) == Run(a, rounds)
    ensures InBounds(a.balance) ==> InBounds(final.balance)
    ensures a.continueFlag ==>
              (!final.continueFlag <==> exists i :: 0 <= i < |rounds| && rounds[i].choice == Some(4))
  {
    var current := a;
    var log: seq<Event> := [];
    var i := 0;
    while current.continueFlag && i < |rounds|
      invariant 0 <= i <= |rounds|
      invariant Run(a, rounds) == Session(Run(current, rounds[i..]).final, log + Run(current, rounds[i..]).events)
      decreases |rounds| - i
    {
      var step := MenuRound(current, rounds[i]);
      assert rounds[i..][1..] == rounds[i + 1..];
      log := log + [step.event];
      current := step.after;
      i := i + 1;
    }
    final, events := current, log;
    if InBounds(a.balance) {
      RunPreservesBounds(a, rounds);
    }
    if a.continueFlag {
      RunExitsIffChoiceFour(a, rounds);
    }
  }
}
