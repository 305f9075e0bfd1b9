# Balance ledger of the student account manager

This project models the core of `AccountingSystem`, the Node.js port of a COBOL student account program. The system keeps one account balance in memory. It lets a user view the balance, credit it or debit it from a four-option menu. The model covers four parts:

- the initial state (balance 1000.00, `continueFlag` true);
- the storage accessor `dataModule` (READ / WRITE / error);
- the TOTAL, CREDIT and DEBIT rules of `operationsModule`;
- the choice switch and loop of `mainLogic`.

Money is exact integer cents. 1000.00 is `100000` (`Money.InitialBalance`) and 9999.99 is `999999` (`Money.MaxBalance`). The amount the user types is taken as already parsed. It is an `Option<int>` of cents, where `None` stands for `parseFloat` returning NaN. The menu choice is an `Option<int>` in the same way, with `None` standing for `parseInt` returning NaN. Each operation is a pure function that returns a tagged outcome and the account state after the call. The tags are `CurrentBalance`, `Success(newBalance)`, `InvalidAmount`, `LimitExceeded`, `InsufficientFunds` and `InvalidOperationType`. Each one is a message the source prints or an error it throws. A WRITE stores any value. Only CREDIT and DEBIT keep the balance within 0.00..9999.99.

Modules:

- `Wrappers`: `Option` and `Result`.
- `Money`: cents constants and the bound predicate.
- `Storage`: the `Account` state, `Init`, `Read`, `Write` and `DataModule`.
- `Operations`: `Total`, `Credit`, `Debit` and `OperationsModule`.
- `Menu`: `Dispatch`, `MenuRound`, and the loop, both as the recursive function `Run` and as the method `MainLogic`.
- `Scenarios`: concrete runs. `InitialReadIsOneThousand`, `DirectWritesReadBack` and `CreditDebitOverdraft` use the figures of `src/accounting/test.js`. `CreditUpToTheLimit`, `NegativeAndNaNRefused` and `MenuSession` are boundary, refusal and menu cases of the rules in `src/accounting/index.js`.

## Model

| member | source | states |
|---|---|---|
| Storage.Init | src/accounting/index.js:8-11 | a new system starts with 1000.00 stored, within the bound, and with the loop flag set |
| Storage.Write | src/accounting/index.js:28-32 | a non-null value becomes the stored balance; null leaves the account unchanged; the loop flag is never touched |
| Storage.DataModule | src/accounting/index.js:24-35 | READ returns the stored balance and changes nothing; WRITE returns exactly what is stored afterwards (the given value, or the old balance for null); every other name fails with "Invalid data operation: <name>" |
| Storage.WriteThenRead | src/accounting/index.js:26-32 | a READ after a WRITE of v returns v for every v, so WRITE does not enforce the 0..9999.99 bound |
| Storage.ReadIsIdempotent | src/accounting/index.js:26-27 | reading twice gives the same reply and state as reading once |
| Storage.LastWriteWins | src/accounting/index.js:28-32 | two successive WRITEs leave the same state as the second one alone |
| Operations.Total | src/accounting/index.js:43-48 | TOTAL reports the stored balance and leaves the account unchanged |
| Operations.Credit | src/accounting/index.js:50-74 | InvalidAmount exactly for NaN or a negative amount; LimitExceeded exactly when balance + amount > 9999.99; otherwise Success with balance + amount, which is then stored; every refusal leaves the account unchanged |
| Operations.Debit | src/accounting/index.js:76-98 | InvalidAmount exactly for NaN or a negative amount; InsufficientFunds exactly when amount > balance; otherwise Success with balance - amount, which is then stored; every refusal leaves the account unchanged |
| Operations.OperationsModule | src/accounting/index.js:42-103 | TOTAL, CREDIT and DEBIT select their rules; any other operation type fails with that name and changes nothing; the loop flag is never touched |
| Operations.OperationPreservesBounds | src/accounting/index.js:55-94 | starting within 0.00..9999.99, every operation and every outcome ends within it |
| Operations.ReportedBalanceIsStored | src/accounting/index.js:43-91 | the balance a success or TOTAL reports is the balance stored afterwards |
| Operations.CreditThenDebitRestores | src/accounting/index.js:60-91 | from a balance within the bound, a successful credit of x then a debit of x succeeds and gives back the original account |
| Operations.DebitThenCreditRestores | src/accounting/index.js:60-91 | from a balance within the bound, a successful debit of x then a credit of x succeeds and gives back the original account |
| Operations.CreditBoundary | src/accounting/index.js:60-70 | a credit that lands exactly on 9999.99 succeeds; one cent more is LimitExceeded with nothing changed |
| Operations.DebitBoundary | src/accounting/index.js:86-94 | debiting the whole balance succeeds and leaves 0.00; one cent more is InsufficientFunds with nothing changed |
| Operations.ZeroAmountAccepted | src/accounting/index.js:53-94 | an amount of 0.00 passes the validity check of both transactions and leaves the balance as it was |
| Menu.Dispatch | src/accounting/index.js:119-135 | choices 1, 2 and 3 select TOTAL, CREDIT and DEBIT; 4 selects exit; every other choice, NaN included, is unknown; and each action comes from exactly one choice |
| Menu.MenuRound | src/accounting/index.js:116-135 | only choice 4 clears the flag; only choices 2 and 3 can change the balance; an unknown choice changes nothing; choice 1 only reports; no round reaches the invalid-operation-type error |
| Menu.Run | src/accounting/index.js:112-143 | the loop, written recursively: a session never runs more rounds than the script holds; a session that ends with the flag still set began with it set and ran every round; a session begun with the flag cleared runs nothing |
| Menu.RunPreservesBounds | src/accounting/index.js:112-135 | a session started within 0.00..9999.99 ends within it, whatever the rounds |
| Menu.RunExitsIffChoiceFour | src/accounting/index.js:112-135 | a running session ends with the flag cleared exactly when some round chose 4 |
| Menu.RunIgnoresRoundsAfterExit | src/accounting/index.js:112-135 | once the flag is cleared, no later round is read |
| Menu.RunWithoutTransactionsKeepsBalance | src/accounting/index.js:119-135 | a session without credit or debit rounds (only view, exit and unknown choices) never changes the balance |
| Menu.RunEventCount | src/accounting/index.js:112-135 | a session never produces more events than the script has rounds; with the flag set and no exit choice, every round of the script runs and produces one event |
| Menu.RunStopsAtFirstExit | src/accounting/index.js:112-135 | with the flag set and the first choice 4 at round k, exactly rounds 0..k run; the last event is the exit and no earlier event is |
| Menu.MainLogic | src/accounting/index.js:109-147 | the loop produces the same final state and events as `Run`, the recursive form of the loop; it keeps the bound; it clears the flag exactly when some round chose 4 |
| Scenarios.InitialReadIsOneThousand | src/accounting/test.js:21-25 | the first READ of a new system returns 1000.00 |
| Scenarios.DirectWritesReadBack | src/accounting/test.js:27-59 | direct WRITEs of 1250.50, 1100.25 and 9999.99 read back unchanged |
| Scenarios.CreditDebitOverdraft | src/accounting/test.js:27-52 | through the transaction rules, +250.50 gives 1250.50 and -150.25 gives 1100.25; an overdraft of 100.00 more than the balance is refused and the balance stays 1100.25 |
| Scenarios.CreditUpToTheLimit | src/accounting/index.js:60-70 | from 9950.00, +49.99 gives exactly 9999.99 and a further +0.01 is LimitExceeded |
| Scenarios.NegativeAndNaNRefused | src/accounting/index.js:53-58 | -5.00 and NaN are refused as InvalidAmount by credit and debit alike, with nothing changed |
| Scenarios.MenuSession | src/accounting/index.js:112-135 | a scripted session (credit, debit, overdraft, unknown choice, view, exit, then one more round) ends at 1100.25 with the flag cleared; the round after exit is never run |

## Left out

- Money is exact integer cents, not JavaScript doubles. Sums that land a hair above or below 9999.99 in binary floating point are not modelled. Every boundary property holds over exact cents.
- `parseFloat` and `parseInt` are not modelled. Their results arrive already parsed as `Option<int>`. Inputs such as "12abc", amounts with more than two decimals, `Infinity` and `-0` are outside the model.
- Reading lines from the terminal (`getUserInput`, `readline`), `console.log` output, `displayMenu` and `toFixed` formatting are left out as I/O and presentation. The printed messages become the outcome tags.
- The `try/catch` blocks of `operationsModule` and `mainLogic` are left out. They only guard the I/O calls.
- `setupGracefulShutdown` (SIGINT), `process.exit` and `main()` are left out as process lifecycle.
- Menu.MainLogic: the loop runs over a finite script of rounds and also stops when the script is used up. The source would instead wait for more input.
- Menu.Round: every round carries an amount, and only choices 2 and 3 use it. The source reads the amount line only for those choices.
- `src/accounting/test.js` is used only as a source of expected values. Its printing and runner are not modelled.
