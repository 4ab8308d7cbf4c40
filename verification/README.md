# Verified model of the trading desk's hardest parts

A Dafny model of the repository's stateful and arithmetic core, with the properties its code and
documentation promise. `dafny verify dfyconfig.toml` checks all of it.

- **The FO book.** `PlanLifecycle` runs plans through confirms, click exits, lapse sweeps, monitor passes and
  monitor restarts. The desk and the monitor are two processes on one autocommit database, so each SQL
  statement is a step and any interleaving is a run. `FutureOrders` sends, exits and rolls a future over an
  append-only fill table whose prefixes are the intermediate states; `FutureFills` says what a send is filled from the
  broker's answers and so when an exit and a roll complete. `RollPnl` and `SpreadAdd` are the
  arithmetic of carried profit and of adding to a spread; `Money` is the rounding under both. `ClientIds` is
  the order ids and their counters. `PlanRuns` has what runs can come to, each failing state reached from the
  initial one.
- **Options.** `Ladder` prices an attempt and fills it from a book. `OptionExecutor` is the entry and exit procedure
  over the FO desk's venue, `EntryCredit` the credit an entry records, `Covered` the covered-overnight rule that
  guards each order, and `SpreadExits` two exits of one spread at once.
- **The mutation harness.** `MutationSites` and `Mutants` are the transformer and the mutants of a file,
  `SwapMeanings` what its mutations mean without the swap tables, and `Annotations` what it does inside a construct
  it has no rule for; `LeaseQueue` is the parallel run over leased workspaces, and `ExampleStores` what the store of
  failing examples kept in each does to it. Float literals are opaque bit patterns with an arbitrary shift, taken
  not to fall when one is added.
- **The reconciler.** `Reconcile` judges and passes, `IssueStores` has its two stores, and `Lifecycle` the page
  that must agree with it.
- **Smaller parts.** `Dividend`, `Breaker`, `EntryScan`, `PriceCache` and `Pauses`.

Amounts are integers in paise after rounding and reals before it. A broker's answers, quotes, clocks and
exceptions are arbitrary inputs. A mutant's verdict, and the examples it leaves, are arbitrary functions of what its
tests read from the workspace: the package and the store.
Only standard Decimal rounding (half to even) is assumed; Decimal's 28-digit precision is taken as exact.

## Where the code and its description differ

The model follows the code in each case, and a lemma gives the exact condition or a family of examples.

- Closing a position is said to mean that it is flat. A credit spread's exit by click, once confirmed, is pending
  to the monitor too, so the desk and a pass can both be sending it (`PlanRuns.ClickAndPass`), each closing what it
  read by orders only it counts. A leg then crosses zero exactly when they close more than was read, both report
  flat exactly when the table is reversed, and the book stays covered exactly while no long is oversold
  (`SpreadExits.ExitTwice`, `SpreadExits.BothFill`). After that no close is let through
  (`SpreadExits.NoCloseIsCovered`).
- A closed exit by click goes back to FILLING when a worker still on it marks it: a pass that began before the
  close, or the desk's own request when the monitor closed first (`PlanRuns.ReopensWhen`, `PlanRuns.BothReopen`).
- The confirm checks the expiry before the compare-and-set and not in it (`PlanRuns.LateConfirm`,
  `PlanRuns.LateReached`).
- An add may go out on a closed position, when it was issued before the close or the monitor had read the position
  as open before it (`PlanRuns.AddOnClosedWhen`, `PlanRuns.AddOnClosedReached`), and an entry interrupted between two
  orders stays FILLING (`PlanLifecycle.InterruptedForever`).
- The alert for an incomplete roll says the position is flat; it is flat exactly when the sell-back fills
  (`FutureOrders.RollPassSafe`, `FutureOrders.RollIncompleteHolds`).
- A roll resumed in the middle of its buy records the average of its later fills alone (`RollPnl.RestartDrift`).
- A spread add is said to add its maximum loss; the monitor's add plans do not carry the width where the fill
  reads it, so they add none (`SpreadAdd.AddLossLaw`, `SpreadAdd.MonitorAddShort`).
- The mutation harness says it does not mutate annotations and `__all__`. An annotation is mutated exactly when it
  holds a site that its swap changes, such as an integer (`Annotations.AnnotationMutated`); an `__all__` of strings
  has none (`Annotations.StringsHaveNoSite`).
- Each mutation run is said to have its own throwaway store of failing examples, and the lease to keep mutants
  apart. The store belongs to the workspace and outlives the lease, so a mutant can be killed by what another left
  there. Its outcome is its own under every schedule exactly when no such store changes its verdict
  (`ExampleStores.ParallelIsSequential`, `ExampleStores.SchedulesDiffer`, `ExampleStores.KilledByAnother`). A run past
  the time limit counts as a kill whatever the tests would have said; it is a step of the model (`TimedOut`) and no
  part of that equivalence.
- Every mutant is scored as a change of its file; one whose float literal absorbs the added one is the file itself
  (`Mutants.MutantDiffers`).
- A dividend is said to matter strictly inside a window; its last day counts (`Dividend.LastDayCounts`).
- The entry scan treats a stock as out for 10,000 sessions at first (`EntryScan.MarkedIs`, `EntryScan.MissedFirst`).
- An order id is said to be used once. A close of the options venue that raises before its row is written leaves
  the number to be given again by the next venue (`ClientIds.DeskVenue.NextClose`, `ClientIds.RestartAfterRaise`).

## Model

| member | source | states |
|---|---|---|
| PlanLifecycle.RunKeeps | kite-momentum-rebalancer/app/fno_execute.py:842-920 | Every interleaving of confirms, click exits, sweeps and monitor passes, statement by statement, keeps the invariant: one winner per compare-and-set, its plan in the status its progress says, and every order sent by whoever may send it. |
| PlanLifecycle.OneSender | kite-momentum-rebalancer/app/fno_execute.py:856-890 | An entry or add plan's legs are sent by one request at most over any run: the one that won ISSUED to CONFIRMED, with confirm true. |
| PlanLifecycle.NeverSent | kite-momentum-rebalancer/app/fno_execute.py:393-411 | No order was ever sent for a plan that is still issued, lapsed or refused. |
| PlanLifecycle.ClickFirst | kite-momentum-rebalancer/app/fno_execute.py:893-920 | An exit that waits for a click is sent, by anyone, only after a confirmed click won it. |
| PlanLifecycle.OneWorker | kite-momentum-rebalancer/app/fno_execute.py:1329-1352 | An entry, an add, a roll, or an exit the monitor may send has one worker at a time at most. |
| PlanLifecycle.StatusDiagram | kite-momentum-rebalancer/app/fno_execute.py:346-361 | Every step by anyone moves a plan's status along the diagram ISSUED, CONFIRMED, FILLING, OPEN, EXITING, CLOSED and its dead ends, except for an exit by click. |
| PlanLifecycle.FinalForever | kite-momentum-rebalancer/app/fno_execute.py:346-361 | A lapsed, refused, abandoned or closed plan, a rolled roll and a filled add never change again and nothing more is ever sent for them. |
| PlanLifecycle.AddOnce | kite-momentum-rebalancer/app/fno_monitor.py:742-795 | A position receives at most one add: once it has filled, no one works on its plan again. |
| PlanLifecycle.InterruptedForever | kite-momentum-rebalancer/app/fno_execute.py:633-639 | An entry whose request is cut short after its confirm (a quote goes missing between two orders) stays FILLING in every continuation. |
| PlanRuns.LateConfirm | kite-momentum-rebalancer/app/fno_execute.py:842-853 | The confirm of an entry or an add does not look at the clock again: past the expiry it still wins, unless a lapse sweep came first for an entry, and then the plan stays lapsed. |
| PlanRuns.LateReached | kite-momentum-rebalancer/app/fno_execute.py:842-853 | From the initial state there are runs to such a confirm of an entry and of an add. |
| PlanRuns.ClickAndPass | kite-momentum-rebalancer/app/fno_execute.py:402-411 | From any state with a checked click on an exit, whatever else is pending, the click's request and the monitor's pass can both come to be sending that exit. |
| PlanRuns.ReopensWhen | kite-momentum-rebalancer/app/fno_execute.py:1174-1174 | A step moves a closed exit by click exactly when it is the unguarded FILLING mark of a worker still on it, which is the desk's own winning request or the monitor's pass. |
| PlanRuns.BothReopen | kite-momentum-rebalancer/app/fno_execute.py:1174-1174 | Every click about to win has both such runs ahead of it: the desk closes and the pass begun before reopens, and the monitor closes and the desk's request reopens. |
| PlanRuns.FailuresReached | kite-momentum-rebalancer/app/fno_execute.py:1159-1174 | From the initial state there are runs to a click and a pass sending one exit at once, and to each of them about to reopen what the other closed. |
| PlanRuns.InterruptedReached | kite-momentum-rebalancer/app/fno_execute.py:633-639 | From the initial state there is a run to an entry left FILLING by a request that ended between its orders. |
| PlanRuns.OnePendingPlan | kite-momentum-rebalancer/app/fno_monitor.py:883-904 | A position has at most one pending plan at any moment of any run, so an exit and a roll are never sent over one another. |
| PlanRuns.AddOnClosedWhen | kite-momentum-rebalancer/app/fno_execute.py:1026-1039 | On a closed position an order of the add can still go out exactly when the monitor read the position, a spread, as open in this tick and has yet to raise the add, or the add is issued and in time or asked for in time, or is won by a request still at work. |
| PlanRuns.AddOnClosedReached | kite-momentum-rebalancer/app/fno_execute.py:1026-1039 | From the initial state there are runs to a closed position whose add then goes out: one issued while it was open, and one raised after the desk closed what the monitor had read as open. |
| PlanLifecycle.FoStore.InsertPlan | kite-momentum-rebalancer/app/fno_execute.py:325-344 | One row per plan id; a second raise writes nothing. |
| PlanLifecycle.FoStore.SetStatus | kite-momentum-rebalancer/app/fno_execute.py:346-353 | The status changes, and only when the row's status is among the given ones, if any are given. |
| PlanLifecycle.FoStore.Confirm | kite-momentum-rebalancer/app/fno_execute.py:355-361 | The compare-and-set: true exactly when the plan was ISSUED, and then it is CONFIRMED. |
| PlanLifecycle.FoStore.LapseExpired | kite-momentum-rebalancer/app/fno_execute.py:393-400 | Exactly the ISSUED entry plans at or past their expiry lapse, and exactly those are returned. |
| PlanLifecycle.FoStore.PendingActions | kite-momentum-rebalancer/app/fno_execute.py:402-412 | Rolls issued, confirmed or filling and exits confirmed or filling, in row order, and nothing else. |
| PlanLifecycle.PendsWhen | kite-momentum-rebalancer/app/fno_execute.py:402-412 | That is every exit and roll that has come to no end, save an exit that waits for its click. |
| FutureOrders.FuturePosition.SendFuture | kite-momentum-rebalancer/app/fno_execute.py:701-748 | The loop writes the pieces of `Pieces` at rounded averages, and returns their total and the rounding of their exact average. |
| FutureFills.SendTakes | kite-momentum-rebalancer/app/fno_execute.py:710-747 | A send takes its units from the front of the list of every unit offered in its first two answers (three for a closing sale), up to a missing quote or a refusal: in number, in price and in worth. |
| FutureFills.TouchCompletes | kite-momentum-rebalancer/app/fno_execute.py:711-741 | A send whose first book has enough at the touch fills in full at that price at once, unless it sells into a bid below one tick. |
| FutureFills.AnswerWithinLimit | kite-momentum-rebalancer/app/fno_execute.py:729-738 | A stored price is within the limit of the attempt it came from. |
| FutureFills.RollEndsWhen | kite-momentum-rebalancer/app/fno_execute.py:1217-1298 | A roll pass is partial exactly when its sale is offered less than is held, rolled when it is not and its purchase is offered all that is missing, and incomplete otherwise, left with what the sale back is not offered. |
| FutureFills.RollRunRolls | kite-momentum-rebalancer/app/fno_execute.py:1232-1245 | A retried roll with its purchase always offered in full ends rolled once one pass is offered the whole sale. |
| FutureFills.ExitClosesWhen | kite-momentum-rebalancer/app/fno_execute.py:1159-1214 | An exit pass closes the position exactly when every contract with units has a leg that is offered all of them. |
| FutureFills.ExitRunCloses | kite-momentum-rebalancer/app/fno_execute.py:402-411 | Over passes, one that offers everything the position began with closes it, whatever the others did. |
| FutureOrders.FuturePosition.NetOf | kite-momentum-rebalancer/app/fno_execute.py:451-460 | Signed units of one contract over the position's fills. |
| FutureOrders.FuturePosition.ExecuteExit | kite-momentum-rebalancer/app/fno_execute.py:1159-1214 | One exit pass over the position's fields is the pass that the safety lemmas are about. |
| FutureOrders.FuturePosition.ExecuteRoll | kite-momentum-rebalancer/app/fno_execute.py:1217-1298 | One roll pass over the position's fields is the pass that the safety lemmas are about. |
| FutureOrders.ExitPassSafe | kite-momentum-rebalancer/app/fno_execute.py:1159-1214 | In one exit pass no contract's units rise or go below zero at any moment; the position closes exactly when every contract ends flat, and otherwise the plan stays FILLING. |
| FutureOrders.ExitRunSafe | kite-momentum-rebalancer/app/fno_execute.py:402-411 | Over any number of passes and partial fills the same holds throughout, and the plan is pending exactly as long as the position is open. |
| SpreadExits.ExitTwice | kite-momentum-rebalancer/app/fno_execute.py:1179-1190 | Two exits of one reading of a spread, whatever the broker answers each and in whatever order their rows reach the table: a leg crosses zero exactly when together they closed more than was read; both report FLAT exactly when the table is the reverse of what was read; one FLAT is true exactly when the other filled nothing; the table is covered throughout exactly when neither long was oversold. |
| SpreadExits.CrossesWhen | kite-momentum-rebalancer/app/fno_execute.py:1179-1190 | A leg of the fill table goes past zero exactly when the two passes closed more of it than each of them read. |
| SpreadExits.BothFlatIsReversed | kite-momentum-rebalancer/app/fno_execute.py:1189-1190 | Both passes end flat by their own orders exactly when the table holds every leg reversed. |
| SpreadExits.FlatIsTrueWhen | kite-momentum-rebalancer/app/fno_execute.py:1189-1190 | One pass's FLAT agrees with the table exactly when the other filled nothing. |
| SpreadExits.CoveredWhen | decile-blueprint/packages/core/src/baskfy_core/fno/covered.py:54-76 | For any signs of the legs, a protected structure is covered exactly when each long is at least zero and at least its short. |
| SpreadExits.CoveredThroughout | decile-blueprint/packages/core/src/baskfy_core/fno/covered.py:54-76 | Through every interleaving the covered rule holds at every moment exactly when neither long is oversold by the end, because a pass sells a long only after buying its own short back. |
| SpreadExits.SecondStartsLater | kite-momentum-rebalancer/app/fno_execute.py:1176-1181 | A pass that reads the table part-way through another starts from where that one has come to, so all of this holds of the two from there. |
| SpreadExits.ReadIsTableWhen | kite-momentum-rebalancer/app/fno_execute.py:1185-1185 | The size of each leg, which the next pass reads, is the table's position exactly when no leg has crossed. |
| SpreadExits.NoCloseIsCovered | kite-momentum-rebalancer/app/fno_execute.py:650-664 | Once a long is oversold the guard refuses every closing order of every leg, so no later exit can mend it. |
| SpreadExits.BothFill | kite-momentum-rebalancer/app/fno_execute.py:1179-1190 | A put spread of any size that two passes both close in full: each is flat, and the table holds the reversed, uncovered spread. |
| FutureOrders.RowWithinLimit | kite-momentum-rebalancer/app/fno_execute.py:256-257 | A stored fill price, rounded to the paisa, is never beyond the whole-paisa limit its average was within. |
| FutureOrders.RollPassSafe | kite-momentum-rebalancer/app/fno_execute.py:1217-1298 | Through a roll pass at most one month is held at any moment, neither is short, the total never exceeds the quantity, OPEN means old 0 and new full, PARTIAL_ROLL means nothing bought; and an incomplete roll is flat exactly when its sell-back fills. |
| FutureOrders.RollWrites | kite-momentum-rebalancer/app/fno_execute.py:1240-1298 | A partial roll leaves its plan FILLING, a finished one OPEN with one roll more, and an incomplete one ABANDONED_PARTIAL with the position closed; only a finished one touches what is carried. |
| FutureOrders.RollRunSafe | kite-momentum-rebalancer/app/fno_execute.py:1217-1298 | The same at every moment of a whole roll with any number of retries. |
| FutureOrders.RollIncompleteHolds | kite-momentum-rebalancer/app/fno_execute.py:1257-1270 | Whenever the sale fills, the buy is partial and no quote is left, the position is closed and reported flat while it holds what was bought. |
| RollPnl.PnlIsCash | kite-momentum-rebalancer/app/fno_execute.py:1273-1283 | After k rolls of q units, carried profit plus the open leg at the mark is the cash of all fills plus the units at the mark, within (3k+2)q/2 paise and half a paisa. |
| RollPnl.RollDrift | kite-momentum-rebalancer/app/fno_execute.py:1273-1283 | One roll, however often retried, moves carried profit away from cash by at most 3q/2 paise. |
| RollPnl.EntryDrift | kite-momentum-rebalancer/app/fno_execute.py:1088-1120 | At entry the recorded average is off from the fill cash by at most q paise. |
| RollPnl.RestartDrift | kite-momentum-rebalancer/app/fno_execute.py:1280-1280 | When a pass finds part of the next month already bought, the recorded average is its own fills' alone, and carried profit is off by what the earlier units cost more than that, within 3q/2. |
| Money.QuantizeError | kite-momentum-rebalancer/app/fno_execute.py:256-257 | Rounding to paise is off by at most half a paisa and exact on whole paise. |
| Money.QuantizeTies | kite-momentum-rebalancer/app/fno_execute.py:256-257 | A tie goes to the even paisa. |
| Money.QuantizeMonotone | kite-momentum-rebalancer/app/fno_execute.py:256-257 | Rounding never reverses the order of two amounts, so no stored price crosses its limit. |
| Money.RoundedAverage | kite-momentum-rebalancer/app/fno_execute.py:1319-1326 | A rounded average times its units is within half a paisa a unit of what was averaged. |
| SpreadAdd.SpreadPosition.Add | kite-momentum-rebalancer/app/fno_execute.py:1054-1074 | A filled add updates lots, average credit, maximum loss and each held leg of a plan leg's role, in place. |
| SpreadAdd.LegsStayEven | kite-momentum-rebalancer/app/fno_execute.py:1058-1063 | Every leg's quantity stays lots times lot size. |
| SpreadAdd.CreditKept | kite-momentum-rebalancer/app/fno_execute.py:1053-1055 | Average credit times units is the entry's credit plus the add's, within half a paisa a unit. |
| SpreadAdd.OpenedLoss | kite-momentum-rebalancer/app/fno_execute.py:953-956 | An entry's recorded maximum loss is the width on every unit less the credit. |
| SpreadAdd.AddLossLaw | kite-momentum-rebalancer/app/fno_execute.py:1056-1057 | After an add the maximum loss is again width times units less total credit exactly when the plan's detail carries the width, or, carrying none, the add had nothing to lose. |
| SpreadAdd.MonitorAddShort | kite-momentum-rebalancer/app/fno_monitor.py:770-793 | The monitor's own add plan has the width in its column and not in its detail, so the recorded maximum loss stays short by the add's whole loss. |
| OptionExecutor.OptionVenue.Send | kite-momentum-rebalancer/app/fno_execute.py:650-697 | One attempt: the guard judges the legs the venue holds with the order in full and refusals are counted; an accepted order gets what the book gives at its limit, in quantity and cost, and that goes to the venue's rows and to what it holds together. |
| OptionExecutor.BookedAt | kite-momentum-rebalancer/app/fno_execute.py:680-697 | The venue's rows are those of its orders, in their order and no others, each what the book it met gives at its limit. |
| OptionExecutor.OptionVenue.Record | kite-momentum-rebalancer/app/fno_execute.py:685-696 | What a venue holds stays what it read plus its own signed fills, leg by leg. |
| Ladder.SimulateFill | decile-blueprint/packages/core/src/baskfy_core/options/execution.py:241-279 | The fill is taken unit by unit from the ladder's list of unit prices, the first level's at its own price and later ones' the latency worse, until the quantity, the list or the limit ends it; its cost is their sum. |
| Ladder.FillWithinLimit | decile-blueprint/packages/core/src/baskfy_core/options/execution.py:252-254 | No fill's average is beyond the limit. |
| Ladder.FirstLevelFills | decile-blueprint/packages/core/src/baskfy_core/options/execution.py:259-270 | An order that the best level holds in full costs exactly that level's price a unit, if the limit allows it. |
| Ladder.SecondLevelFills | decile-blueprint/packages/core/src/baskfy_core/options/execution.py:259-270 | What goes past the first of two levels is charged the second's price and the latency, to the taker's cost on either side. |
| Ladder.FillsWhatIsThere | decile-blueprint/packages/core/src/baskfy_core/options/execution.py:252-255 | With no limit in the way an order fills as far as the levels that have a price and a quantity go. |
| Ladder.AttemptsGiven | decile-blueprint/packages/core/src/baskfy_core/options/execution.py:208-221 | There is a third attempt exactly for a close that reduces risk with the flag on, and it alone is marketable; no attempt is priced below one tick. |
| Ladder.AttemptThrough | decile-blueprint/packages/core/src/baskfy_core/options/execution.py:202-220 | The first limit is the configured ticks through the touch, the second one tick more and the last at the touch, save at the floor of one tick. |
| Ladder.AttemptTakesTouch | decile-blueprint/packages/core/src/baskfy_core/options/execution.py:202-207 | Every attempt fills in full at the touch when the best level is there and has enough, unless it sells into a bid below one tick, and then nothing. |
| OptionExecutor.SendLeg | decile-blueprint/packages/core/src/baskfy_core/options/executor.py:115-156 | The position each order could leave in full is never naked, so the source's assertion does not fire and the covered rule refuses none; attempts are numbered from 1, each priced on its own quote and asking for exactly what is missing; a leg short with every quote given has had all its attempts; it moves by exactly what filled, and a close writes only rows that close. |
| OptionExecutor.NextExitLeg | decile-blueprint/packages/core/src/baskfy_core/options/execution.py:164-178 | The leg offered is open, shorts before longs and calls before puts, and a long only with its own short gone. |
| OptionExecutor.RunExit | decile-blueprint/packages/core/src/baskfy_core/options/executor.py:194-233 | By the pass's own orders: FLAT exactly when nothing is left, PARTIAL_EXIT only with a leg left that was offered; every order is safe, priced on its quote and for all that is open of its leg, and none is refused; its rows close no more than was open and a long's only once its short is gone. |
| OptionExecutor.RunEntry | decile-blueprint/packages/core/src/baskfy_core/options/executor.py:159-191 | OPEN exactly with the whole structure held, and then only opening orders were sent; a short is opened only after every long is full; every order is priced on its quote for exactly what is missing; an abandoned entry has been through the exit and is flat or left with a leg the exit offered. |
| EntryCredit.Enter | kite-momentum-rebalancer/app/fno_execute.py:947-952 | When an entry opens, its rows fill each leg in full, and the recorded credit on every unit is the cash those rows took in, within half a paisa a unit. |
| OptionExecutor.EnterLeg | decile-blueprint/packages/core/src/baskfy_core/options/executor.py:159-191 | One leg of the entry: in full, or short of its quantity with everything filled put through the exit at once. |
| OptionExecutor.HeldIsCovered | decile-blueprint/packages/core/src/baskfy_core/fno/covered.py:54-76 | Legs with no short above its long form a covered book. |
| OptionExecutor.GuardIsHeldAfter | decile-blueprint/packages/core/src/baskfy_core/fno/covered.py:79-125 | The book the guard assesses is covered exactly when the legs held after the order in full are, so it sees each fill once. |
| Covered.CoverIffPrefixes | decile-blueprint/packages/core/src/baskfy_core/fno/covered.py:1-31 | The running-sum walk succeeds exactly when every short unit can be given its own long unit strictly further out. |
| Covered.CoveredIffAssigned | decile-blueprint/packages/core/src/baskfy_core/fno/covered.py:54-76 | On a whole book: covered exactly when such an assignment exists on every side. |
| Covered.NetBySide | decile-blueprint/packages/core/src/baskfy_core/fno/covered.py:47-51 | Quantities are netted per contract. |
| Covered.Uncovered | decile-blueprint/packages/core/src/baskfy_core/fno/covered.py:54-76 | Finds nothing exactly when the book is covered, and names only shorts with fewer longs further out than they need. |
| Covered.WalkSide | decile-blueprint/packages/core/src/baskfy_core/fno/covered.py:61-75 | On one side, the longs its findings say are missing add up to exactly what would cover it. |
| Covered.LeastMissing | decile-blueprint/packages/core/src/baskfy_core/fno/covered.py:61-75 | So many longs further out than everything cover a side, and no fewer do. |
| Covered.FillsCountOnce | decile-blueprint/packages/core/src/baskfy_core/fno/covered.py:79-108 | A broker book net of the plan, plus the plan's fills, plus the step counts each fill once. |
| ClientIds.Injective | kite-momentum-rebalancer/app/fno_execute.py:594-596 | For colon-free plan ids and symbols, one id means one plan, symbol, direction and attempt number. |
| ClientIds.AttemptStore.NextAttempt | kite-momentum-rebalancer/app/fno_execute.py:380-391 | The persisted counter never gives a number twice for one plan and key, across passes and restarts. |
| ClientIds.NeverReissued | kite-momentum-rebalancer/app/fno_execute.py:651-656 | No two of the ids a store has ever handed out are the same string. |
| ClientIds.DeskVenue.NextClose | kite-momentum-rebalancer/app/options_execute.py:197-199 | A close's number was given to a close of that leg before exactly when the venue's counter is below the highest number ever given. |
| ClientIds.DeskVenue.Send | kite-momentum-rebalancer/app/options_execute.py:194-222 | While no close raises before its row is written no number is given twice; a close that raises is what puts the counters out of step. |
| ClientIds.RestartAfterRaise | kite-momentum-rebalancer/app/options_execute.py:197-219 | After a close that raised, a fresh venue gives the same number, and so the same id, again. |
| ClientIds.ClosesDiffer | kite-momentum-rebalancer/app/options_execute.py:431-437 | The close orders written for one leg are numbered 1, 2, 3, so no two rows share a number. |
| MutationSites.Mutator.Visit | decile-blueprint/tools/mutation.py:332-413 | The transformer changes exactly the site whose post-order ordinal is the target, reports it, and counts every site on the way. |
| SwapMeanings.MutantMeans | decile-blueprint/tools/mutation.py:316-413 | What a site becomes, by meaning: an order comparison that differs on equal numbers and nowhere else, an equality that differs everywhere, the operation that undoes, the dual of and/or, the negated boolean, the number one greater, `not` gone; a tree is mutant i exactly when its site i is so replaced. |
| SwapMeanings.OneReplacement | decile-blueprint/tools/mutation.py:316-330 | No token has two such replacements. |
| SwapMeanings.SitesAre | decile-blueprint/tools/mutation.py:345-413 | The sites are the tokens that have one, save constants on docstring lines. |
| SwapMeanings.GeneratedMeans | decile-blueprint/tools/mutation.py:439-458 | A generated mutant's report says which token was replaced by what. |
| MutationSites.TokensInjective | decile-blueprint/tools/mutation.py:332-413 | A tree is determined by its post-order tokens, so nothing else of the tree changed. |
| MutationSites.SiteAtUnique | decile-blueprint/tools/mutation.py:341-343 | An ordinal names one site. |
| Mutants.Generate | decile-blueprint/tools/mutation.py:439-458 | One mutant for every site, in order, each reported as the site it changed; the skip for an unapplied mutation never happens. |
| Mutants.MutantDiffers | decile-blueprint/tools/mutation.py:439-458 | A mutant is the original tree exactly when its site is a float literal that adding one does not move; never for an integer or any other site. |
| Mutants.Undo | decile-blueprint/tools/mutation.py:316-330 | Mutating a mutant again at the same ordinal gives back the original exactly for comparisons, arithmetic, and/or, booleans, and floats that adding one does not move. |
| Mutants.CountKept | decile-blueprint/tools/mutation.py:379-413 | A mutant has as many sites as the original, and one fewer when a `not` was dropped. |
| Mutants.Collide | decile-blueprint/tools/mutation.py:379-385 | Two mutants of a file are the same tree exactly when they drop two `not`s of one run or shift two floats that do not move. |
| Annotations.AnnotationMutated | decile-blueprint/tools/mutation.py:48-50 | Some mutant changes a given child of a construct without rules of its own, such as an annotation, exactly when the child holds a site that its swap changes: any but a float literal that adding one does not move. |
| Annotations.MutantsOfChild | decile-blueprint/tools/mutation.py:332-343 | A mutant whose ordinal falls among the child's own sites is the construct with that child mutated, and differs from it unless the site is such a float. |
| Annotations.StringsHaveNoSite | decile-blueprint/tools/mutation.py:48-50 | A list of strings, as `__all__` is, has no site. |
| LeaseQueue.RunInv | decile-blueprint/tools/mutation.py:580-607 | Under every schedule no workspace is leased twice, queued ones are pristine, and a leased one differs only in its holder's file. |
| LeaseQueue.ReadsItsOwn | decile-blueprint/tools/mutation.py:580-607 | In any complete run, whatever timed out or raised, each judged mutant's tests saw the package with that mutant alone throughout, and every workspace is back in the queue, pristine. |
| ExampleStores.ParallelIsSequential | decile-blueprint/tools/mutation.py:482-489 | Over all complete schedules without a time-out or an exception, a mutant's outcome is the one it has by itself if and only if its verdict is the same on every store that mutants able to come before it in a workspace, and the control runs in workspace 0, can leave. |
| ExampleStores.OutcomeByOrder | decile-blueprint/tools/mutation.py:580-607 | A mutant's outcome is its tests' verdict on the store left by those who had its workspace before it, which the order of leases alone decides. |
| ExampleStores.LongestWaiting | decile-blueprint/tools/mutation.py:584-599 | Workspaces are leased first in, first out: every take gets the one that has waited longest, each in turn at first and then as they come back. |
| ExampleStores.FoundHappens | decile-blueprint/tools/mutation.py:580-607 | Every history of a workspace that the queue and the thread count allow a mutant does come about in some complete schedule. |
| ExampleStores.SchedulesDiffer | decile-blueprint/tools/mutation.py:482-489 | With more mutants than workspaces two schedules give a mutant different outcomes whenever its tests disagree on the stores left in two workspaces by the first mutants there. |
| ExampleStores.KilledByAnother | decile-blueprint/tools/mutation.py:482-489 | A mutant that survives by itself and survives in one schedule is killed in another by an example that an earlier mutant left. |
| ExampleStores.FewMutants | decile-blueprint/tools/mutation.py:553-557 | With no more mutants than workspaces only the control runs' store matters: the outcome is the mutant's own exactly when its verdict is the same on that. |
| ExampleStores.OneWorker | decile-blueprint/tools/mutation.py:553-557 | With one worker a mutant finds exactly what all the mutants before it left, in their order. |
| LeaseQueue.GetNeverBlocks | decile-blueprint/tools/mutation.py:588-592 | A worker about to lease always finds a workspace. |
| LeaseQueue.Progress | decile-blueprint/tools/mutation.py:580-607 | Until every mutant is done some worker can step. |
| LeaseQueue.RunBounded | decile-blueprint/tools/mutation.py:580-607 | Every run is finite. |
| LeaseQueue.Workspace.Control | decile-blueprint/tools/mutation.py:536-551 | The control run sees the unparsed module throughout, leaves the package pristine, and adds its examples to the store. |
| LeaseQueue.Workspace.PreFlight | decile-blueprint/tools/mutation.py:567-578 | The control runs, in order in workspace 0: all clear exactly when each passes on the store the ones before it left, and that store is what the pool starts with there. |
| Reconcile.PassIsExact | kite-momentum-rebalancer/app/reconcile.py:317-372 | After a pass whose reads all succeed a sleeve's open issues are exactly its findings, whatever was open before. |
| Reconcile.ExternalExitWhen | kite-momentum-rebalancer/app/reconcile.py:421-430 | After a pass that read the holdings an open position has an external-exit issue exactly when it is real and its name is recorded for more shares, over all sleeves, than the broker shows; the issue gives the two figures. |
| Reconcile.OneShareFewer | kite-momentum-rebalancer/app/reconcile.py:421-430 | A name the broker shows in full has none; one share fewer, or a name not shown at all, gives one to each real position in it. |
| Reconcile.NoOtherExits | kite-momentum-rebalancer/app/reconcile.py:361-371 | No position that is not open keeps one. |
| Reconcile.TotalCounts | kite-momentum-rebalancer/app/reconcile.py:344-352 | One more position in any book counts its shares for its name if it is real and open, and nothing otherwise. |
| Reconcile.StopIssueWhen | kite-momentum-rebalancer/app/reconcile.py:392-420 | After a pass that read the stop orders an open position has each kind of stop issue exactly when that is wrong with its stop, with the figures of the list. |
| Reconcile.PassLeaves | kite-momentum-rebalancer/app/reconcile.py:317-372 | Whatever could be read: the findings, with this pass's detail and time, and the old issues of the kinds not observable, untouched. |
| Reconcile.FailedReadsStay | kite-momentum-rebalancer/app/reconcile.py:325-353 | A failed GTT read leaves every GTT-kind issue, a failed holdings read every external exit, an unreadable sleeve all of its own. |
| Reconcile.SecondPassResolvesNothing | kite-momentum-rebalancer/app/reconcile.py:361-371 | An immediate second pass on the same reads resolves nothing. |
| Reconcile.FoundUnique | kite-momentum-rebalancer/app/reconcile.py:375-430 | Two findings of one sleeve never share a position and kind. |
| IssueStores.MemoryIssueStore.Record | kite-momentum-rebalancer/app/reconcile.py:551-572 | One open row a key: an open one is updated, otherwise one is added. |
| IssueStores.MemoryIssueStore.ResolveExcept | kite-momentum-rebalancer/app/reconcile.py:574-591 | Resolves every open issue of the sleeve of a kind given and not kept, and returns how many. |
| IssueStores.PgIssueStore.Record | kite-momentum-rebalancer/app/reconcile.py:499-515 | The upsert changes the open issues as the in-memory store does. |
| IssueStores.PgIssueStore.ResolveExcept | kite-momentum-rebalancer/app/reconcile.py:517-534 | Updates by row id over issues read first change the open issues as the in-memory scan does. |
| IssueStores.RecordedTotals | kite-momentum-rebalancer/app/reconcile.py:347-352 | Each name's real shares over every readable sleeve together. |
| IssueStores.JudgeProtection | kite-momentum-rebalancer/app/reconcile.py:317-372 | The pass over either store is the pass the reconciliation lemmas are about, in issues and in the count resolved. |
| Lifecycle.PagesAgree | kite-momentum-rebalancer/app/lifecycle.py:118-139 | On the same GTT list the page's stop state is the reconciler's stop finding. |
| Lifecycle.BuildRows | kite-momentum-rebalancer/app/lifecycle.py:153-204 | The rows built sleeve by sleeve are the page that the lemmas are about, each with its own position's issues. |
| Lifecycle.ResolvedIffClean | kite-momentum-rebalancer/app/lifecycle.py:102-104 | After a fully readable pass a position shows as resolved exactly when the reconciler has no finding on it. |
| Lifecycle.PageResolvedIffClean | kite-momentum-rebalancer/app/lifecycle.py:161-204 | The page then has exactly one row for each open position of its sleeves, each resolved exactly when the reconciler has no finding on that position. |
| Lifecycle.UnverifiedIsUnresolved | kite-momentum-rebalancer/app/lifecycle.py:118-139 | Without the broker's list no position with a real stop shows as resolved. |
| Dividend.AdjustedSeries | decile-blueprint/reconciliation/dividend_convention.py:114-127 | Each close divided by the product of the chosen factors that go ex later. |
| Dividend.ReturnIs | decile-blueprint/reconciliation/dividend_convention.py:130-139 | A window return depends only on the actions with start day < ex date <= end day. |
| Dividend.ReturnPermutes | decile-blueprint/reconciliation/dividend_convention.py:114-139 | Over exact arithmetic, the order of the actions does not matter. |
| Dividend.ConventionsDiffer | decile-blueprint/reconciliation/dividend_convention.py:24-30 | Total over price growth is the product of the cash factors in the window, and the two returns are equal exactly when that product is one. |
| Dividend.NoCashNoDifference | decile-blueprint/reconciliation/dividend_convention.py:27-30 | No dividend in the window makes that product one. |
| Dividend.LastDayCounts | decile-blueprint/reconciliation/dividend_convention.py:27-30 | A dividend on the window's last day, not strictly inside it, separates the conventions. |
| Breaker.OrderedIs | kite-momentum-rebalancer/app/main.py:627-628 | The batch is the non-zero orders and no others. |
| Breaker.OrderedFalls | kite-momentum-rebalancer/app/main.py:627-628 | Sells come first, and in each side the units at the reference price fall. |
| Breaker.OrderedKeepsOrder | kite-momentum-rebalancer/app/main.py:627-628 | Orders of one side and value keep the order they came in. |
| Breaker.SellsFirstIsBest | kite-momentum-rebalancer/app/main.py:623-628 | No other order of the same orders dips less in cash on the way. |
| Breaker.Execute | kite-momentum-rebalancer/app/main.py:627-664 | Orders go out up to the first trip, all of them if there is none; with one order per symbol and action, as a plan has, every order has exactly one result, in its place: its answer if it was sent, else the error that stopped the batch. |
| Breaker.TripsMeans | kite-momentum-rebalancer/app/main.py:650-656 | The breaker trips on the third of three answers running that failed, said something, and agree in the first 80 characters. |
| Breaker.PlanReportsEach | decile-blueprint/packages/core/src/baskfy_core/basket.py:268-340 | That is so, tripped or not, of every plan with one order per symbol and action, because dropping zero orders and sorting keep them distinct. |
| Breaker.OneResultEach | kite-momentum-rebalancer/app/main.py:658-664 | For orders of any origin it is so exactly when the batch did not trip or no earlier order equals the one it tripped on. |
| Breaker.RepeatedOrder | kite-momentum-rebalancer/app/main.py:658-664 | A plan written by hand with one order twice, around another of its value, reports two sent orders again as aborted. |
| EntryScan.Entries | research/momentum-scan/mscan.py:28-38 | The column loop marks, for every stock and session, the state in, the session before out, and the count since at least the lookback. |
| EntryScan.MarkedIs | research/momentum-scan/mscan.py:28-38 | For every lookback: in, and out for the preceding max(lookback, 1) sessions, save that a stock not yet seen in must be at least lookback - 10,000 sessions into its row. |
| EntryScan.DocumentedRule | research/momentum-scan/mscan.py:29-29 | For a lookback up to 10,000 that exception is empty. |
| EntryScan.MissedFirst | research/momentum-scan/mscan.py:32-35 | Beyond 10,000 an entry on a row's first session is missed. |
| EntryScan.EntriesApart | research/momentum-scan/mscan.py:28-38 | Two entries of one stock are more than lookback sessions apart. |
| PriceCache.Kite.Ltp | kite-momentum-rebalancer/app/kite_client.py:218-253 | Fresh symbols cost no call; each stale one is asked for exactly once in batches within the limit and returned if answered; only wanted symbols are returned; and every price was given for that exchange and symbol in this call or less than the time to live ago. |
| PriceCache.KeyInjective | kite-momentum-rebalancer/app/kite_client.py:237-237 | A cache key names one exchange and one symbol. |
| Pauses.OptionsPause.WriteAll | kite-momentum-rebalancer/app/options_ledger.py:172-203 | After any writes the stored day is their latest, and the audit rows chain from the first day to it, each ending later than it began. |
| Pauses.LatestIsMaximum | kite-momentum-rebalancer/app/options_ledger.py:183-183 | That day is the maximum of the first and all written. |
| Pauses.PausesJoin | kite-momentum-rebalancer/app/options_ledger.py:172-203 | Neither order nor repetition of the writes matters. |
| Pauses.ChainRises | kite-momentum-rebalancer/app/options_ledger.py:198-202 | The audit's days rise strictly. |
| Pauses.FoPauseColumn.WriteColumn | kite-momentum-rebalancer/app/fno_ledger.py:280-312 | Written unless it has no date or an active pause stands; audited exactly when written. |
| Pauses.ActiveStands | kite-momentum-rebalancer/app/fno_ledger.py:280-298 | Over any run, up to a day it still covers, an active pause is never shortened and its reason never replaced. |
| Pauses.GivesWay | kite-momentum-rebalancer/app/fno_ledger.py:296-297 | It gives way to a longer one of its own reason, and to any once it has run out. |

## Left out

- PlanLifecycle.StatusDiagram: says nothing of an exit by click, whose status two processes may write; `PlanRuns.ReopensWhen` is what can happen to a closed one.
- PlanLifecycle.RunKeeps: the monitor reads the open positions in one step and raises on those alone until it reads again; the sleeves' own reasons for raising a plan are not modelled.
- SpreadExits.ExitTwice: two passes that read the table at one moment; `SpreadExits.SecondStartsLater` is the pass that reads it later, and three at once are not modelled.
- ClientIds.DeskVenue.NextClose: a number whose quote then fails is counted as given, although the gateway never saw it; one venue at a time writes to the table, and two live over it at once are outside `Valid()`.
- ExampleStores.ParallelIsSequential: a schedule with a time-out or an exception is left out, because a load-dependent limit decides it; such runs keep the package-level facts (`LeaseQueue.RunInv`, `LeaseQueue.ReadsItsOwn`).
- Dividend.ReturnPermutes: over exact reals; the source multiplies floats, whose last bit may depend on the order.
- Mutants.MutantDiffers: the IEEE bits of a float and which of them adding one leaves alone are not computed.
- IssueStores.PgIssueStore.OpenIssues: rows come in id order, not by time seen, which the pass does not depend on.
- Lifecycle.BuildRows: the final sort of the page's rows and the columns taken over unchanged from a position (dates, prices, risk, the overdue flag) are not modelled.
- Covered.Uncovered: the order of the two sides in the list of messages is not modelled.
- MutationSites.Mutator.Visit: trees are values, so edits of nodes in place are the new value returned; nodes with no mutation site of their own are one generic node with children.
- OptionExecutor.OptionVenue.Send: the order's gateway fields other than side, quantity and limit are not modelled, and the book an order meets is read apart from the quote it was priced on, as the source reads it twice.
- FutureOrders.FuturePosition.SendFuture: a broker's answer is how far its book fills an attempt and at what average; `FutureFills.TouchCompletes` and `FutureFills.AnswerWithinLimit` say what a book makes that be.
- PriceCache.Kite.Ltp: assumes the broker prices only keys it was asked for, and an exchange name without a colon, as every caller gives.
- RollPnl.PnlIsCash: takes each roll's legs to be new rows of the leg table, as the plan insert makes them.
- Breaker.OneResultEach: an order is four of its dict's fields, where the source compares them all.
- Breaker.SellsFirstIsBest: counts each order in full at its reference price.
- The nightly marks, trailing stops and GTT placement of a future.
- F1's and F3's entry and exit decisions, strike selection, sizing, margins and costs.
- The reconciler's order pass (`_reconcile_orders`) and the release of a dead order's remainder, which only forward to the sleeves' own handlers.
- Adoption of holdings, routes, templates, notifications, telemetry, tokens and settings.
- The SQL text, network calls, threads and event loop themselves.
- Strike, volatility and Greek computations in floating point.
