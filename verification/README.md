# Verified model of the 0DTE trader's server

This project models the parts of the server in which several clients, processes and brokers meet, and
proves what they rely on. Every `.dfy` file is one module; `dafny verify dfyconfig.toml` checks all of them.

**Protective brackets.** A bracket is a group of target and stop legs that close one position. `BracketRules`
says what each database transaction of the chart-order service does to the rows, `BracketStore` runs the same
transactions as guarded writes in place, and `BracketSweeps` says what the expiry and orphan sweeps do as a
whole. `BracketProtocol` is the state machine of all of them together with the keyed order audits, what the
broker has accepted, and the workers that stand between two awaits: each transaction, guarded write and outcome
of a placement is one step, and any steps may interleave or never come. `BracketInvariant` holds what every step
keeps of the rows, `BracketTheorems` what holds of every run, and `BracketLimits` where the guarantee ends.
`BracketRuns` follows one claim through a run: what is left of it after any number of steps, crashes and
take-overs in between, what a lost lease means from then on, and how long sizes and unresolved closes hold.
`BracketContinuations` proves the conditions of these runs necessary. Each operation is also said a second time,
without the rules' own functions: `BracketAnswers` has the exact conditions, errors and rows of arming, claiming,
unwinding and recovering, `BracketSteps` those of the machine's steps and of placements, `BracketEffects` those of
resizing, cancelling, finishing and the sweeps, `BracketReservation` what the trade rows of a close have to show
before its position is free, and `BracketOutcomes` carries leases and reservations over runs in these terms.
`StandaloneLines` is the machine of chart lines outside any bracket.

The runs of the bracket theorems satisfy conditions written out in `BracketProtocol`; `Disciplined` says
which step has which.

- `Quiet`, of a take-over: a lease that ran out means its claimant has stopped, so nobody who may still send
  works on the group, and the process taking over has no refused attempt on the fire leg left to unwind.
- `NoRefusedAttempt`, of an ordinary claim: the claiming process has no refused attempt on that same leg left
  to unwind. A leg is re-armed under its permanent id, so an old attempt can meet a new one.
- `RefusalIsConclusive`, of a refusal during recovery: an error raised before the placement looked at the
  idempotency key ends a recovery only if the key has no audit row.

The code checks none of them. `BracketContinuations` proves that each is needed wherever a sibling is at
stake: from every state of the invariant, a step that breaks one can be continued by disciplined steps alone
until two closes of one bracket are accepted. `BracketLimits` shows that such states are reached, with a run
for each in which that step is the only one of its kind. `StalledClaimantDoublesClose`: the claimant
stalls before its send. `OwnTakeOverDoublesClose` and `OwnReclaimDoublesClose`: the lease names a process,
not an attempt, so an unwinding left over in the same process re-arms the sibling of a claim that is not
its own; nobody could still send when the step was made. `InconclusiveRefusalDoublesClose`: the service
takes every error outside its list of uncertain ones as proof that nothing was sent, while the kill switch
is checked before the key. `EarlyRefusalConclusiveIff` proves that the missing audit row is exactly the
condition under which such an error is proof, and `HiddenAcceptanceIsReachable` that the doubt is met by
runs under all three conditions.

Lines outside brackets do check the audit row, and `StandaloneLines` needs no such condition. It has one of its
own: when recovery takes a line, nobody may still send for it and no fire is left that has its refusal and has
not yet relabelled the line. That last write looks at the id alone; `LateRelabelHidesAcceptance` is the run in
which it hides an accepted order, and `StalledFireHidesAcceptance` the one in which a stalled fire does.

The sweeps treat rows with and without a group. A bracket is safe from the sweep of another account of the
same user (`SweepStaysInAccount`); a target or stop without a group is not (`LineSweepIgnoresAccount`).

**The watcher.** `Watcher` covers the crossing test over streams of quotes, `WatcherLease` the timed lease
of many instances with their own clocks, `WorkerPool` the bounded pool.

**Events.** `EventLog` is the durable log with its allocator, `EventPoller` one instance's poller,
`EventDelivery` the log, all instances and their coalesced polls running together, and `OrderEventQueue` the
per-user queue with retries; `Sorting` is the stable sort several modules use. `StreamReplay` is one client of
the stream, which pages through what it missed, is sent what was buffered meanwhile and goes live, with commits
and emissions between any two steps; `StreamEffects` adds what each kind of row comes to and that catching up
ends; `DurableCursor` is the checkpoint on the client's side. Together they
commit every replayable event once and in order, and hand it to the consumers at least once: an event whose
commit failed after a consumer had it comes again, and `HandedOnceIff` says exactly when none has been seen
twice. Two more things hold under a condition only. A client without a cursor misses nothing exactly when
`NewClientMissesNothingIff` says so. And live-only events take sequence numbers too, while the client accepts
only the number right behind its checkpoint: `ClientKeepsUpIff` gives the exact condition for progress, and
`ClientStaysBlocked` proves that one alert in front of an order update keeps the client from getting anything
for good, although the documented interface promises a reconnecting client every later event.

**Level 2 service.** `OrderBookRules` says what each callback does, `OrderBookService` is the object that
does it in place, `OrderBookInvariant` and `OrderBookTheorems` hold for every order of callbacks, and
`OrderBookEffects` says what each callback leaves behind, as a whole state. A refresh suspended at an await is
an entry keyed by symbol, state object and generation.

**Calendar, candles, contracts, indicators.** `CivilCalendar`, `Easter`, `TradingDays`, `Cycles` and
`Expirations` are the trading calendar on day numbers; `Candles` the aggregation on milliseconds;
`OccSymbols` and `ContractSelection` option symbols and the automatic strike; `Indicators` and
`IndicatorReport` the order-book indicators, and `IndicatorMeaning` what each of them says of its books. Prices
are exact reals.

Where a function decides by cases, a lemma beside it says the outcome outright (`...Means`, `...Answers`,
`...Writes`); the table lists those of them that say more than the function's own cases.

## Model

| member | source | states |
|---|---|---|
| BracketTheorems.OneAcceptedClosePerBracket | apps/api/src/chart-orders/chart-orders.service.ts:559-797 | over every run: two closes the broker ever accepts for legs of one bracket are for the same leg, whatever fires, crashes, recovers, cancels, resizes, expires or is swept in between |
| BracketTheorems.AcceptedNeverRelabelled | apps/api/src/chart-orders/chart-orders.service.ts:559-797 | once a leg's key is accepted, its order and size never change and the leg is pending or triggered in every later state |
| BracketTheorems.RunKeepsInv | apps/api/src/chart-orders/chart-orders.service.ts:559-1436 | the one invariant of rows, audits, broker and workers holds in every state of every run |
| BracketProtocol.StepKeepsInv | apps/api/src/chart-orders/chart-orders.service.ts:224-1942 | each single transaction, guarded write or outcome of place keeps the invariant, under any interleaving |
| BracketTheorems.OneLiveClosePerPosition | apps/api/src/chart-orders/chart-orders.service.ts:1837-1942 | in every reachable state at most one bracket of a position is working, pending, or fired with its close not yet terminal at the broker |
| BracketOutcomes.OneOpenClosePerPosition | apps/api/src/chart-orders/chart-orders.service.ts:1792-1942 | the same told by the trade rows: in every reachable state at most one bracket of a position is working, claimed, or fired with a close that has no row yet or a submitted or partly filled one |
| BracketRuns.NoSecondCloseWhileUnresolved | apps/api/src/chart-orders/chart-orders.service.ts:1792-1835 | over every run: from an accepted close until the broker reports it done, no other close is accepted for any bracket of the same position |
| BracketOutcomes.NoSecondCloseUntilDone | apps/api/src/chart-orders/chart-orders.service.ts:1792-1835 | the same told by the trade rows: from an accepted close until its rows in that account are there and show only filled, cancelled or rejected, no other close of the position is accepted; a partial fill makes no room |
| BracketReservation.TerminalMeans | apps/api/src/chart-orders/chart-orders.service.ts:1812-1832 | an order releases its position exactly when it has a row in that account and every one of its rows is filled, cancelled or rejected, so none submitted or partly filled |
| BracketReservation.UnresolvedMeans | apps/api/src/chart-orders/chart-orders.service.ts:1792-1835 | a position is taken exactly while another bracket of it is pending, or has fired without a recorded order or with one the broker is not done with |
| BracketReservation.OpenRowKeepsReservation | apps/api/src/chart-orders/chart-orders.service.ts:1823-1832 | no row at all, or one submitted or partly filled row of a fired bracket, refuses every other arming and every other claim of the position |
| BracketTheorems.SentSizeIsProtectedSize | apps/api/src/chart-orders/chart-orders.service.ts:1118-1127 | an accepted close has the bracket's protected quantity, which is also its leg's quantity, whether fire or recovery sent it |
| BracketTheorems.SendableLegsAgreeOnSize | apps/api/src/chart-orders/chart-orders.service.ts:1935-1940 | every working, pending, triggered or fire-retired leg carries its group's protected quantity in every reachable state |
| BracketRuns.SizeIsFixedOnceClaimed | apps/api/src/chart-orders/chart-orders.service.ts:1551-1575 | over every run: from its claim until it is released, and for ever once it has fired, a group's protected quantity does not change |
| BracketTheorems.RecoveryNeverGivesUp | apps/api/src/chart-orders/chart-orders.service.ts:1064-1071 | no group is ever failed, and recovery holding a lease always finds a fire leg it can prepare: the unrecoverable branch is not reached |
| BracketTheorems.PrepareRepairsHalfClaim | apps/api/src/chart-orders/chart-orders.service.ts:1304-1361 | preparing any half-written claim leaves the fire leg as the only active one, returns exactly its restorable siblings, and doing it again changes nothing |
| BracketTheorems.ClaimThenUnclaimIsIdentity | apps/api/src/chart-orders/chart-orders.service.ts:944-1036 | a claim undone before any send restores every leg exactly, and the group but for its note |
| BracketRuns.StepOnPending | apps/api/src/chart-orders/chart-orders.service.ts:813-1436 | whatever step anyone takes, a pending group stays exactly as claimed but for lease and notes, or is released, or is finished at its size |
| BracketRuns.ClaimIsKept | apps/api/src/chart-orders/chart-orders.service.ts:1050-1073 | over every run: while a group stays pending, each of its leg rows is the same at the end as at the beginning but for the fire leg's note, and so is the group but for lease and note |
| BracketRuns.ClaimSurvivesInBetween | apps/api/src/chart-orders/chart-orders.service.ts:1304-1361 | over every run: as long as a claim is pending, with crashes, take-overs, failed recoveries, extensions and other groups' steps in between, the markers name exactly the siblings it retired, and preparing it returns exactly those and changes no row |
| BracketRuns.HolderKnowsSiblings | apps/api/src/chart-orders/chart-orders.service.ts:1045-1151 | over every run: whoever holds the claim at last, as claimant or by take-over, works with exactly the siblings the claim retired |
| BracketRuns.UnwindingRestoresClaim | apps/api/src/chart-orders/chart-orders.service.ts:944-1036 | over every run: whoever holds the claim at last can unwind it, and then each sibling is the row it was before the claim, the fire leg alone is settled, and every other group and leg is left as it stands |
| BracketRuns.LostLeaseStaysLost | apps/api/src/chart-orders/chart-orders.service.ts:1006-1022 | over every run: from the first moment an attempt does not hold its claim it never unwinds anything again, to working, failed or expired, and changes no row by finishing either until its own process takes the group over again, whatever clients, sweeps, claims and take-overs follow |
| BracketRuns.TakenOverWorkerIsFenced | apps/api/src/chart-orders/chart-orders.service.ts:1056-1063 | over every run: once another process has taken a group over, whoever worked on it before never unwinds anything again, and changes no row by finishing until its own process takes the group over again |
| BracketOutcomes.TakeOverMeans | apps/api/src/chart-orders/chart-orders.service.ts:1056-1063 | a take-over succeeds if and only if the bracket is pending and its lease ended strictly before now, gives 30,000 milliseconds, and changes nothing else |
| BracketOutcomes.StandingLeaseRefusesTakeOver | apps/api/src/chart-orders/chart-orders.service.ts:1050-1063 | a take-over changes the state only if the bracket is pending and its lease ended strictly before now |
| BracketOutcomes.LeaseStandsItsTime | apps/api/src/chart-orders/chart-orders.service.ts:1050-1063 | over every run: a pending bracket leased until some time and not extended keeps owner and lease through every take-over up to and including that time, whatever else happens |
| BracketOutcomes.ClaimStandsThirtySeconds | apps/api/src/chart-orders/chart-orders.service.ts:871-880 | over every run: a bracket claimed at some time and not extended stays with its claimant through every take-over up to 30,000 milliseconds later |
| BracketOutcomes.TakeOverStandsThirtySeconds | apps/api/src/chart-orders/chart-orders.service.ts:1056-1063 | the same for whoever took it over |
| BracketOutcomes.ExpiredLeaseIsTaken | apps/api/src/chart-orders/chart-orders.service.ts:1050-1073 | at any later time a pending bracket can be taken, under a new lease of 30,000 milliseconds, with its rows as they are and its size and fire leg handed to recovery |
| BracketTheorems.FiredIsFinal | apps/api/src/chart-orders/chart-orders.service.ts:1379-1436 | a fired group's row never changes again |
| BracketTheorems.FinishSucceedsOnce | apps/api/src/chart-orders/chart-orders.service.ts:1379-1436 | over a whole run and all workers, a group is finalised at most once |
| BracketLimits.EarlyRefusalConclusiveIff | apps/api/src/trading/trading.service.ts:114-160 | over all states of the invariant: an error raised before place looks at the key proves that a recovered leg was not accepted if and only if the key has no audit row |
| BracketLimits.InconclusiveRefusalDoublesClose | apps/api/src/chart-orders/chart-orders.service.ts:1128-1151 | a concrete run in which recovery meets the kill switch with an audit row pending, re-arms the sibling, and both legs are accepted |
| BracketLimits.StalledClaimantDoublesClose | apps/api/src/chart-orders/chart-orders.service.ts:1045-1047 | a concrete run in which the claimant outlives its lease and both legs are accepted: why expiry has to mean that the claimant has stopped |
| BracketLimits.OwnTakeOverDoublesClose | apps/api/src/chart-orders/chart-orders.service.ts:1050-1063 | a concrete run in which a process takes over the claim of its own fire that is only waiting to be unwound: the order goes out, the old unwinding re-arms the stop, and the stop is accepted too, although nobody could still send at the take-over |
| BracketLimits.OwnReclaimDoublesClose | apps/api/src/chart-orders/chart-orders.service.ts:244-262 | a concrete run to the same end by an ordinary claim: the leg is re-armed under its permanent id and the process with the old unwinding left claims it again |
| BracketLimits.HiddenAcceptanceIsReachable | apps/api/src/trading/trading.service.ts:114-160 | two runs under all conditions give a recovering process the same database, once with the order accepted and once without |
| BracketContinuations.BrokenConditionDoubles | apps/api/src/chart-orders/chart-orders.service.ts:1045-1151 | from every state of the invariant, a take-over, claim or refusal that breaks its condition while a sibling is at stake can be continued by disciplined steps alone to two accepted closes of one bracket |
| BracketInvariant.ArmKeepsDb | apps/api/src/chart-orders/chart-orders.service.ts:1837-1942 | arming keeps every group's shape and one live close path per position |
| BracketInvariant.RetireLegKeepsDb | apps/api/src/chart-orders/chart-orders.service.ts:1766-1790 | cancelling or expiring a leg keeps the shapes; the group is closed when its last active leg goes |
| BracketInvariant.ClaimKeepsDb | apps/api/src/chart-orders/chart-orders.service.ts:813-926 | a claim turns a working group into a pending one whose fire leg is the only active leg, and touches no other group |
| BracketInvariant.SettleKeepsDb | apps/api/src/chart-orders/chart-orders.service.ts:944-1036 | unwinding turns a pending group into a working or closed one, and touches no other group |
| BracketInvariant.FinishKeepsDb | apps/api/src/chart-orders/chart-orders.service.ts:1379-1436 | finishing turns a pending group into a fired one with a broker order on its fire leg and no other leg active or marked |
| BracketInvariant.GroupChangeKeepsDb | apps/api/src/chart-orders/chart-orders.service.ts:1742-1764 | a change to one group keeps the whole database right as soon as that group's own rows are right and it does not become a second live one |
| BracketEffects.ArmMeans | apps/api/src/chart-orders/chart-orders.service.ts:203-277 | arming leaves one fresh working leg of the requested kind and size in a working group of the requested position and size; a re-armed leg keeps its id and nothing of its earlier firing; nothing else changes |
| BracketAnswers.ArmAnswers | apps/api/src/chart-orders/chart-orders.service.ts:1837-1942 | a request is refused exactly for the first obstacle in the order the code looks for them, each with its own error, or for a leg of that kind that neither failed nor was cancelled |
| BracketAnswers.LegAnswers | apps/api/src/chart-orders/chart-orders.service.ts:321-443 | resizing and cancelling succeed exactly on one's own working leg of a working bracket, and tell a leg not one's own from one that cannot be changed |
| BracketAnswers.ExpireAnswers | apps/api/src/chart-orders/chart-orders.service.ts:1438-1475 | a leg expires exactly when it is working and its time has come, and its bracket closes with its last active leg |
| BracketAnswers.ClaimMeans | apps/api/src/chart-orders/chart-orders.service.ts:813-926 | a leg is claimed exactly when it and its bracket work and the position is free by its trade rows; then each row of leg, siblings and bracket is said outright, with the lease of 30,000 milliseconds |
| BracketAnswers.SettleMeans | apps/api/src/chart-orders/chart-orders.service.ts:944-1036 | a claim is unwound exactly by its holder while every sibling named carries its mark; leg, siblings and bracket are said row by row, and the bracket closes exactly when no leg is left in play |
| BracketAnswers.FinishAnswers | apps/api/src/chart-orders/chart-orders.service.ts:1379-1436 | a fire is finished exactly by the holder of its claim |
| BracketAnswers.PrepareMeans | apps/api/src/chart-orders/chart-orders.service.ts:1304-1361 | recovery goes on exactly with a leg of the bracket that works or is out for the fire; it parks that leg, marks exactly the working siblings, names exactly the marked ones, and touches no bracket |
| BracketEffects.ResizeMeans | apps/api/src/chart-orders/chart-orders.service.ts:321-361 | a resize sets the group and each of its working legs to the new size and nothing else |
| BracketEffects.CancelMeans | apps/api/src/chart-orders/chart-orders.service.ts:395-443 | cancelling retires that leg alone, and its group closes exactly when no working leg is left |
| BracketEffects.FinishMeans | apps/api/src/chart-orders/chart-orders.service.ts:1379-1436 | finishing puts the order on the fire leg and clears exactly the markers that fire left on its siblings |
| BracketEffects.SweptKeepsDb | apps/api/src/chart-orders/chart-orders.service.ts:1487-1657 | the orphan sweep as a whole keeps the database invariant |
| BracketEffects.SweepStaysInAccount | apps/api/src/chart-orders/chart-orders.service.ts:1511-1523 | the sweep changes only working legs and working groups of the verified account |
| BracketEffects.SweepFitsPositions | apps/api/src/chart-orders/chart-orders.service.ts:1524-1656 | after the sweep no working bracket leg of the account exceeds the quantity held, none older than the grace period is left without a position, and no size went up |
| BracketEffects.SweepMeans | apps/api/src/chart-orders/chart-orders.service.ts:1524-1656 | for every leg: the sweep cancels it if and only if it works in a working bracket of the account, is past the grace period and its contract is not held; it keeps its status otherwise; the legs returned are exactly these and those scaled down |
| BracketEffects.SweepMeansForGroup | apps/api/src/chart-orders/chart-orders.service.ts:1592-1640 | a bracket closes in the sweep if and only if a leg of it was cancelled there and no working leg is left; every other keeps its status |
| BracketEffects.SweepMeansForSize | apps/api/src/chart-orders/chart-orders.service.ts:1536-1575 | a bracket's size goes to the quantity held exactly when a working leg of it asks for more, and is kept otherwise |
| BracketEffects.LineSweepMeans | apps/api/src/chart-orders/chart-orders.service.ts:1524-1656 | the same per row for targets and stops without a group: cancelled, scaled down or kept |
| BracketEffects.ExpiryMeans | apps/api/src/chart-orders/chart-orders.service.ts:1438-1475 | a leg or line without a group is due if and only if it is working and its time has come |
| BracketEffects.SweepFitsLines | apps/api/src/chart-orders/chart-orders.service.ts:1524-1656 | the same for targets and stops without a group: no size above what is held, none aged without a position, no size up, and limit lines, other users and the other environment untouched |
| BracketEffects.LineSweepIgnoresAccount | apps/api/src/chart-orders/chart-orders.service.ts:1521-1523 | a target or stop without a group is swept alike for every account of the user in the environment, and cancelled, once aged, when the swept account does not hold its contract |
| BracketStore.Store.Create | apps/api/src/chart-orders/chart-orders.service.ts:203-277 | the create transaction leaves exactly the armed rows, or exactly the rows it found together with the error |
| BracketStore.Store.UpdateQuantity | apps/api/src/chart-orders/chart-orders.service.ts:321-361 | the resize writes group and legs, and rolls both back when the leg has just fired |
| BracketStore.Store.HasUnresolvedCloseReservation | apps/api/src/chart-orders/chart-orders.service.ts:1792-1835 | the search over groups and trades finds an unresolved close of the scope exactly when there is one |
| BracketStore.Store.IsCloseOpen | apps/api/src/chart-orders/chart-orders.service.ts:1809-1832 | the body of that search for one bracket: its lookup of leg and rows answers true exactly while the close is open |
| BracketStore.Store.FindCanonical | apps/api/src/chart-orders/chart-orders.service.ts:1884-1890 | the group found for a scope is its oldest working one |
| BracketStore.Store.FindLegOfKind | apps/api/src/chart-orders/chart-orders.service.ts:233-235 | the leg found is one of that group and kind, and none is found only when there is none |
| BracketStore.Store.CloseWorkingGroupIfEmpty | apps/api/src/chart-orders/chart-orders.service.ts:1766-1790 | closes a working group exactly when it has no active leg, and changes nothing otherwise |
| BracketStore.Store.RetireWorkingLeg | apps/api/src/chart-orders/chart-orders.service.ts:395-443 | retires a working leg and closes its group when empty; any other leg is left alone |
| BracketStore.Store.ExpireSettled | apps/api/src/chart-orders/chart-orders.service.ts:1438-1475 | the sweep expires exactly the due working legs and the due working lines without a group, closes exactly the groups left empty, and counts both |
| BracketStore.Store.ShrinkGroup | apps/api/src/chart-orders/chart-orders.service.ts:1551-1575 | scales a working group of the account down with its working legs, never up, and reports whether it did |
| BracketStore.Store.ScaleDown | apps/api/src/chart-orders/chart-orders.service.ts:1536-1590 | the first loop scales down exactly the groups with an oversized leg, each once, and exactly the oversized targets and stops without a group |
| BracketStore.Store.CancelOrphanedBrackets | apps/api/src/chart-orders/chart-orders.service.ts:1487-1657 | both loops together leave exactly the swept rows, with and without a group, and return exactly the orphans of both sorts |
| BracketStore.Store.ClaimForFireWithSiblings | apps/api/src/chart-orders/chart-orders.service.ts:813-926 | claims group, leg and siblings together or leaves every row as it was, and returns the retired siblings and the protected quantity |
| BracketStore.Store.SettleGroupedNoSend | apps/api/src/chart-orders/chart-orders.service.ts:944-1036 | unwinds leg, siblings and group together, or changes no row at all when a guard or the lease is lost |
| BracketStore.Store.FinishRecoveredGroup | apps/api/src/chart-orders/chart-orders.service.ts:1379-1436 | records the order, drops the markers and closes the group as fired under the lease, or changes no row |
| BracketStore.Store.TakeOverExpired | apps/api/src/chart-orders/chart-orders.service.ts:1056-1063 | recovery's guarded write takes a bracket exactly when it is pending and its lease ended before now, and changes no row otherwise |
| BracketStore.Store.PrepareRecoveredClaim | apps/api/src/chart-orders/chart-orders.service.ts:1304-1361 | makes the rows of a pending claim consistent and returns the siblings it owns, or reports that the fire leg cannot be recovered |
| StandaloneLines.AcceptedLineNeverRelabelled | apps/api/src/chart-orders/chart-orders.service.ts:1160-1281 | a line outside any bracket keeps its one accepted order in every run and is only ever pending or triggered with it, even when refusals say nothing about earlier sends |
| StandaloneLines.RunKeepsInv | apps/api/src/chart-orders/chart-orders.service.ts:1160-1281 | rows, audits, broker and the workers' compare-and-set on triggeredAt stay consistent in every run |
| StandaloneLines.LateRelabelHidesAcceptance | apps/api/src/chart-orders/chart-orders.service.ts:716-733 | a concrete run in which recovery takes a line whose refused fire has yet to write so: the order is accepted and the late write, guarded by the id alone, labels the line failed |
| StandaloneLines.StalledFireHidesAcceptance | apps/api/src/chart-orders/chart-orders.service.ts:1160-1281 | a concrete run in which a fire stalls past the take-over by recovery: the line is labelled failed and the stalled order is accepted |
| StandaloneLines.RecoverMeans | apps/api/src/chart-orders/chart-orders.service.ts:1160-1183 | recovery takes a pending line only more than 120,000 milliseconds after it was last taken, and stamps it with its own time |
| StandaloneLines.JudgeMeans | apps/api/src/chart-orders/chart-orders.service.ts:1224-1252 | an inconclusive recovery records the order a completed audit names, fails the line exactly when there is no audit and the line is still its own, and changes nothing otherwise |
| Watcher.FirstFireIsFirstReach | apps/api/src/chart-orders/chart-order-watcher.service.ts:170-212 | a line's first call to fire is at its first fresh positive price on or past the trigger, and at no earlier tick, for any mix of stale or failed quotes, lost observations and edits |
| Watcher.FirstCrossing | packages/shared-types/src/index.ts:1198-1223 | while no earlier price reached the trigger, a tick fires exactly when its own fresh price is on or past it |
| Watcher.StandingPriceIsOnArmedSide | apps/api/src/chart-orders/chart-order-watcher.service.ts:197-210 | an observed price that can serve as the start of a crossing is still on the side the line was armed on |
| Watcher.LostCrossingIsNotRetried | apps/api/src/chart-orders/chart-order-watcher.service.ts:201-210 | once a price past the trigger has been recorded, a further price past it fires exactly after a loss or an edit |
| Watcher.TriggerNeedsFreshCrossing | apps/api/src/chart-orders/chart-orders.service.ts:501-557 | a client's trigger is accepted exactly on a dated, fresh, positive price that reaches the trigger, on which the watcher would act too |
| Watcher.QuoteLeaves | apps/api/src/chart-orders/chart-order-watcher.service.ts:170-200 | an unusable quote keeps the price observed before, a stale one forgets it, a fresh one replaces it |
| Watcher.GroupFiresEach | apps/api/src/chart-orders/chart-order-watcher.service.ts:202-210 | a group fires its lines one by one in its own order, each judged by itself |
| Watcher.ChartOrderWatcher.CheckGroup | apps/api/src/chart-orders/chart-order-watcher.service.ts:170-212 | one quote per group: the lines handed to fire in order, and the observation recorded, dropped or kept for that key only |
| WatcherLease.NeverBothHold | apps/api/src/chart-orders/chart-order-watcher.service.ts:309-346 | the true-time windows in which two instances believe in the lease never overlap, for clock differences up to 20001 ms, whatever the database answers, replies lost after the write landed included |
| WatcherLease.SkewBoundIsTight | apps/api/src/chart-orders/chart-order-watcher.service.ts:14-15 | with one millisecond more of clock difference two instances can hold the lease at the same time |
| WatcherLease.RowMovesForward | apps/api/src/chart-orders/chart-order-watcher.service.ts:313-335 | renewals of the lease row advance in true time, and a change of owner advances by at least the believed ten seconds |
| WatcherLease.HoldMeans | apps/api/src/chart-orders/chart-order-watcher.service.ts:309-346 | one call by cases: a belief younger than ten seconds answers alone; else the row is taken for thirty seconds exactly when it is missing, expired or the caller's own, and belief and answer follow what the caller could see |
| WatcherLease.WatcherInstance.Hold | apps/api/src/chart-orders/chart-order-watcher.service.ts:309-346 | one call of holdLease: the row, the belief and the answer for every database reply, a lost one included |
| WatcherLease.LeaseTable.UpdateMany | apps/api/src/chart-orders/chart-order-watcher.service.ts:313-319 | the guarded update takes the row exactly when it has expired or is the caller's own |
| WatcherLease.LeaseTable.Create | apps/api/src/chart-orders/chart-order-watcher.service.ts:320-330 | the insert succeeds exactly when there is no row |
| WorkerPool.PoolFinishesEverything | apps/api/src/chart-orders/chart-order-watcher.service.ts:28-42 | never more workers than the limit; a pool at rest without rejections has finished every item exactly when it had a worker or nothing to do |
| WorkerPool.LeftoversNeedEveryWorkerRejected | apps/api/src/chart-orders/chart-order-watcher.service.ts:28-42 | items are left behind only when every worker has met a rejection |
| WorkerPool.RunKeepsPool | apps/api/src/chart-orders/chart-order-watcher.service.ts:28-42 | every item is waiting, held by exactly one worker, or settled, under any interleaving |
| WorkerPool.SettledIffNoStep | apps/api/src/chart-orders/chart-order-watcher.service.ts:28-42 | a pool is at rest exactly when no worker in it can take a step |
| WorkerPool.EndedStaysEnded | apps/api/src/chart-orders/chart-order-watcher.service.ts:28-42 | over every run: a worker that exited or met a rejection stays so |
| EventLog.EveryLogIsOk | apps/api/src/events/event-transport.service.ts:77-135 | after any publishing, deduplication, refusal or roll-back, ordinals ascend in commit order, each user's sequences count without a gap, and no id or dedupe key is used twice |
| EventLog.PublishKeepsLog | apps/api/src/events/event-transport.service.ts:77-135 | one publishing transaction keeps ordinals ascending, sequences without gap, and ids and keys unique |
| EventLog.RepeatedKeyReturnsFirstRow | apps/api/src/events/event-transport.service.ts:97-102 | a repeated user and dedupe key answers with the first row and adds none |
| EventLog.PublishMeans | apps/api/src/events/event-transport.service.ts:77-118 | a publication without a repeated key appends exactly one row and returns it: its id, user, key, kind and payload are the draft's, and its ordinal and sequence are the next ones |
| EventLog.UserSequences | apps/api/src/events/event-transport.service.ts:103-116 | a user's rows are numbered 1, 2, 3 in commit order |
| EventLog.PublishedRowStays | apps/api/src/events/event-transport.service.ts:77-118 | over every history: a row once returned to a publisher is in every later log, and rows keep their places |
| EventLog.LatestMeans | apps/api/src/events/event-transport.service.ts:129-135 | the latest sequence is one a row of the user has and none exceeds |
| EventLog.EventTable.PublishInTransaction | apps/api/src/events/event-transport.service.ts:77-118 | the transaction allocates, deduplicates, numbers and inserts, or rolls the allocation back with the insert |
| EventLog.EventTable.Replay | apps/api/src/events/event-transport.service.ts:120-127 | a page is the next rows of the user after the cursor, in sequence order |
| StreamReplay.ClientReceivesEveryEvent | apps/api/src/market-data/stream.gateway.ts:434-489 | for any schedule of commits, emissions, page answers and failures: a client that reconnects with a cursor has been sent exactly the replayable events after it up to where it stands, each once and in order, and once live it stands no earlier than what its instance has emitted |
| StreamReplay.EveryConnectionIsOk | apps/api/src/market-data/stream.gateway.ts:426-530 | the invariant of log, poller position, page in hand, buffer and cursor, for every schedule |
| StreamReplay.NewClientMissesNothingIff | apps/api/src/market-data/stream.gateway.ts:442-462 | a client without a cursor starts exactly at what its instance emits from then on if and only if something was buffered when its poll returned or nothing was committed beyond the instance |
| StreamReplay.NewClientSkipsCountedEvent | apps/api/src/market-data/stream.gateway.ts:442-462 | a concrete schedule in which a new client is never sent an order committed after it connected |
| StreamReplay.AlertsAreLiveOnly | apps/api/src/market-data/stream.gateway.ts:491-513 | for a live client, each alert its instance emitted since the connection was handed on for sending, once and in order, and no earlier one |
| StreamEffects.CatchUpEnds | apps/api/src/market-data/stream.gateway.ts:464-473 | from any point of any run at which a page is due, as many pages as there are thousands missing and one more make the client live, with everything replayable after its cursor sent |
| StreamEffects.NewClientGoesLive | apps/api/src/market-data/stream.gateway.ts:444-463 | a client without a cursor is live after two answers, based at the tail and told so |
| StreamEffects.StartingMeans | apps/api/src/market-data/stream.gateway.ts:456-463 | the baseline is the tail, or right before the earliest buffered event if that is lower |
| StreamEffects.ClosedIsFinal | apps/api/src/market-data/stream.gateway.ts:426-489 | over every run: a closed connection neither sends nor buffers any more |
| Sorting.SortedKeepsOrder | apps/api/src/market-data/stream.gateway.ts:475-476 | a stable sort leaves what is in order as it is: the buffer, in the order the poller emitted it |
| StreamReplay.StreamClient.Send | apps/api/src/market-data/stream.gateway.ts:491-541 | one event to one client: the cases for live alerts, live configurations, old sequences and replayable kinds |
| StreamReplay.StreamClient.PushDurableEvent | apps/api/src/market-data/stream.gateway.ts:426-432 | buffered while replaying, sent at once when live, and only to its own user |
| StreamReplay.StreamClient.ReplayPage | apps/api/src/market-data/stream.gateway.ts:464-480 | sends one page, then asks for the next one from its last sequence or goes live behind a short one |
| StreamReplay.StreamClient.GoLive | apps/api/src/market-data/stream.gateway.ts:473-480 | flushes the buffer in sequence order and sends the cursor |
| StreamReplay.StreamClient.StartAtTail | apps/api/src/market-data/stream.gateway.ts:442-462 | a client without a cursor is based at the tail, or right before the first buffered event, and goes live |
| DurableCursor.CommitsEachEventOnce | apps/desktop/src/core/api/DurableEventCursor.ts:78-107 | over any number of connections cut off anywhere, with consumers that throw and writes that fail: a client has committed exactly the replayable events between where it started and its checkpoint, each once and in order; it was handed each of them before, in order, and once more for every time the commit failed; the two agree exactly when no commit failed |
| DurableCursor.HandedOnceIff | apps/desktop/src/core/api/QuoteSocket.ts:633-657 | no consumer sees an event twice if and only if at most one commit has failed and its event has not been committed since |
| DurableCursor.EventHandedTwice | apps/desktop/src/core/api/QuoteSocket.ts:633-657 | a concrete pair of connections in which storage refuses the checkpoint after the consumer has run and the consumer gets the same order again |
| DurableCursor.FirstEventOpensAccount | apps/desktop/src/core/api/QuoteSocket.ts:588-608 | a client without a checkpoint stores the sequence before its first event, or gives the connection up without handing anything over |
| DurableCursor.EventReader.Receive | apps/desktop/src/core/api/QuoteSocket.ts:582-660 | one frame: baseline for a first one, decision, consumers, commit, and the connection given up at a gap or a failure |
| DurableCursor.ServerFeedsCursor | apps/api/src/market-data/stream.gateway.ts:434-489 | what the stream sends a client that reconnects with its checkpoint is what that account needs |
| DurableCursor.ClientKeepsUpIff | apps/desktop/src/core/api/QuoteSocket.ts:611-660 | a client commits every frame of a stretch if and only if no commit fails and no live-only event stands in front of a replayable one |
| DurableCursor.ClientStaysBlocked | apps/desktop/src/core/api/QuoteSocket.ts:616-632 | with a live-only event right behind the checkpoint and a replayable one after it, no later connection hands the client anything or moves its checkpoint |
| DurableCursor.DurableEventCursor.CommitEvent | apps/desktop/src/core/api/DurableEventCursor.ts:86-101 | accepts the next event only, stores before it advances, bounds the remembered ids, and keeps stored and held checkpoint equal when storage fails |
| DurableCursor.DurableEventCursor.BeginEvent | apps/desktop/src/core/api/DurableEventCursor.ts:78-84 | duplicate, gap or accepted, exactly as the checkpoint and the remembered ids say |
| DurableCursor.DurableEventCursor.Establish | apps/desktop/src/core/api/DurableEventCursor.ts:103-107 | moves forward to the server's tail, never back, and only when stored |
| DurableCursor.CommitMeans | apps/desktop/src/core/api/DurableEventCursor.ts:86-101 | a commit moves the checkpoint to its event and remembers exactly the last 512 committed ids |
| EventLog.PageIsStretch | apps/api/src/events/event-transport.service.ts:120-127 | a page is the leading stretch of what is missing after the cursor, cut at the limit |
| EventPoller.TakeFollows | apps/api/src/events/event-transport.service.ts:188-197 | the next row of the log is always emitted: no remembered id can be its own |
| EventPoller.QueryIsStretch | apps/api/src/events/event-transport.service.ts:155-168 | a query answers with the next rows above the last ordinal, exactly five hundred or all there are |
| EventPoller.EmitRemembers | apps/api/src/events/event-transport.service.ts:188-197 | the bounded memory is the ids of the latest emitted events, and its set agrees with its queue |
| EventPoller.EventTransport.EmitUnseen | apps/api/src/events/event-transport.service.ts:188-197 | emits an unseen row, remembers it, and forgets the oldest id past the limit |
| EventPoller.EventTransport.DrainAvailableRows | apps/api/src/events/event-transport.service.ts:155-168 | a drain emits exactly the rows above the last ordinal, in order, over as many chunks as it takes, and leaves none |
| EventDelivery.EveryInstanceEmitsTheLogInOrder | apps/api/src/events/event-transport.service.ts:138-197 | in every run of publishers and instances, what an instance has emitted is exactly the log from where it joined to its last ordinal, each event once and in order |
| EventDelivery.EmittedWasPublished | apps/api/src/events/event-transport.service.ts:77-197 | in every run, whatever an instance emits was published, with the same id, user, key, kind and payload |
| EventDelivery.EveryRowWasPublished | apps/api/src/events/event-transport.service.ts:77-118 | in every run, every row of the log stores a published draft as it was given |
| EventDelivery.InstancesAgree | apps/api/src/events/event-transport.service.ts:138-197 | of two instances at one ordinal, the later one has emitted exactly the end of what the earlier one has |
| EventDelivery.RestedLoopHasServedItsRequests | apps/api/src/events/event-transport.service.ts:138-153 | once the loop rests, every event committed before a request it undertook has been emitted |
| EventDelivery.RequestIsServedIff | apps/api/src/events/event-transport.service.ts:138-153 | a poll request brings out everything committed so far if and only if it does not fall between the loop's last look at the flag and the loop being marked finished, or nothing is left to bring out |
| EventDelivery.LateRequestIsLeft | apps/api/src/events/event-transport.service.ts:138-153 | a concrete run in which such a request is left in the flag and the event waits |
| EventDelivery.FailureMeans | apps/api/src/events/event-transport.service.ts:138-153 | after any run: a failed query emits nothing, keeps the flag, and leaves the loop free for the next poll |
| EventDelivery.EveryWorldIsOk | apps/api/src/events/event-transport.service.ts:138-197 | the invariant behind these, for every schedule |
| OrderEventQueue.LaterJobWaitsForEarlier | apps/api/src/broker/order-events.service.ts:105-122 | one user's events are processed one at a time in enqueue order, under any interleaving |
| OrderEventQueue.DeliveriesKeepUserOrder | apps/api/src/broker/order-events.service.ts:105-139 | each event reaches the subscribers at most once, and a user's events in enqueue order |
| OrderEventQueue.SeenMeansIngested | apps/api/src/broker/order-events.service.ts:128-156 | an event is delivered if and only if its calls end in one unbroken pass, on one attempt and in order, over the ingestors it was enqueued with, after broken passes only |
| OrderEventQueue.AtMostThreeRefusals | apps/api/src/broker/order-events.service.ts:128-156 | a job meets at most three failed attempts and is given up exactly at the third |
| OrderEventQueue.FirstUnsettledCanMove | apps/api/src/broker/order-events.service.ts:111-121 | an exhausted event does not block: the first unsettled job of a user always has a step of its own |
| OrderEventQueue.OwnStepsRunOut | apps/api/src/broker/order-events.service.ts:128-156 | every step of a job lowers the number of steps it has left, so each job settles |
| OrderEventQueue.SnapshotIsKept | apps/api/src/broker/order-events.service.ts:107-110 | later registrations and removals never change the ingestors of a queued job |
| OrderEventQueue.RegistryIs | apps/api/src/broker/order-events.service.ts:71-79 | over every run the registry holds exactly the ingestors registered and not unregistered since, by priority and then by registration |
| OrderEventQueue.EnqueuedJob | apps/api/src/broker/order-events.service.ts:105-122 | an event enqueued after any run is for exactly the ingestors registered then, in their order, and starts at once exactly when its user has no tail |
| OrderEventQueue.ClearedTail | apps/api/src/broker/order-events.service.ts:124-126 | a settled job's tail goes exactly when no later event of its user is queued, and nothing else changes |
| OrderEventQueue.InsertedPlace | apps/api/src/broker/order-events.service.ts:71-74 | a new ingestor goes behind all of at least its priority and in front of all lower ones |
| OrderEventQueue.EveryBusIsOk | apps/api/src/broker/order-events.service.ts:63-156 | chains, tails, calls and deliveries stay consistent in every run |
| OrderEventQueue.OrderEventsService.RegisterIngestor | apps/api/src/broker/order-events.service.ts:71-79 | registration keeps the list in priority order, ties in registration order |
| OrderEventQueue.OrderEventsService.UnregisterIngestor | apps/api/src/broker/order-events.service.ts:75-78 | removes that entry and no other |
| OrderEventQueue.OrderEventsService.EnqueueEvent | apps/api/src/broker/order-events.service.ts:105-122 | appends the job behind the user's tail with the ingestors registered now |
| OrderEventQueue.OrderEventsService.ClearQueueOf | apps/api/src/broker/order-events.service.ts:124-126 | drops the tail only while it is still that job's |
| OrderEventQueue.ProcessWithRetry | apps/api/src/broker/order-events.service.ts:128-156 | delivers exactly when one of the first three passes has no failure, on the first such pass |
| OrderBookTheorems.ExactlyOneDriver | apps/api/src/market-data/order-book.service.ts:254-459 | between callbacks every subscribed symbol has exactly one of an armed poll timer and a request in flight, and the latter is exactly one suspended refresh of the current generation |
| OrderBookTheorems.OvertakenRefreshIsSilent | apps/api/src/market-data/order-book.service.ts:499-526 | a refresh overtaken by a teardown or a new session changes nothing but its own end, however late it is answered and whatever happened in between |
| OrderBookTheorems.OutdatedForever | apps/api/src/market-data/order-book.service.ts:545-573 | a generation or state object left behind never becomes current again |
| OrderBookTheorems.GaugesAgree | apps/api/src/market-data/order-book.service.ts:507-526 | the two gauges equal the number of symbols and of subscriptions, and the session timer runs exactly while there is a symbol |
| OrderBookTheorems.DisconnectTakesOneClient | apps/api/src/market-data/order-book.service.ts:204-216 | disconnecting removes every subscription of that client and no other |
| OrderBookTheorems.UnsubscribeTakesOne | apps/api/src/market-data/order-book.service.ts:189-202 | unsubscribing removes that one subscription |
| OrderBookTheorems.SubscribeAddsOne | apps/api/src/market-data/order-book.service.ts:136-187 | a subscription is added unless the service is full or the provider is finally unavailable for a new symbol |
| OrderBookEffects.SubscriptionDepth | apps/api/src/market-data/order-book.service.ts:136-187 | an admitted request stores the depth asked for if it lies from one to the maximum, the maximum above it, and one otherwise; every other subscriber keeps its depth |
| OrderBookEffects.DepthIsLatestRequest | apps/api/src/market-data/order-book.service.ts:136-187 | over every schedule a subscriber's stored depth is that of its latest request for the symbol |
| OrderBookEffects.GrantAsksDeepest | apps/api/src/market-data/order-book.service.ts:334-338 | over every schedule a request that goes to the provider asks for the greatest depth of the subscribers at the grant |
| OrderBookEffects.FirstSubscriptionMeans | apps/api/src/market-data/order-book.service.ts:136-187 | the first subscriber of a symbol: a fresh state under a new identity with that one depth, the counts and the session timer, and a refresh begun at once with its four outcomes |
| OrderBookEffects.FurtherSubscriptionMeans | apps/api/src/market-data/order-book.service.ts:169-187 | a further subscriber joins or changes its depth, alone hears the latest message, and adds no request |
| OrderBookEffects.PollMeans | apps/api/src/market-data/order-book.service.ts:254-300 | a poll that comes round reaches the limiter exactly when the provider has no objection and the session is open; else one failure with its reason, or the symbol's end |
| OrderBookEffects.GrantMeans | apps/api/src/market-data/order-book.service.ts:321-338 | a granted refresh goes to the provider in an open session and is put off otherwise |
| OrderBookEffects.FetchMeans | apps/api/src/market-data/order-book.service.ts:341-375 | each answer of the provider with the whole state it leaves: put off with its reason, the symbol gone, or the snapshot taken with nothing else touched |
| OrderBookEffects.ThrowMeans | apps/api/src/market-data/order-book.service.ts:376-415 | an exception is put down to the limiter before the request and to the provider during it |
| OrderBookEffects.BoundaryMeans | apps/api/src/market-data/order-book.service.ts:528-573 | at a session boundary every symbol starts over under the next generation with its subscribers, is announced once, and is refreshed, put off or dropped by its own outlook; no other symbol appears |
| OrderBookTheorems.ShutdownLeavesNothing | apps/api/src/market-data/order-book.service.ts:218-221 | shutting down leaves no symbol, subscription or timer, and every suspended refresh stale |
| OrderBookTheorems.HistoryIsOneSession | apps/api/src/market-data/order-book.service.ts:418-443 | the kept samples are bounded and never mix two sessions |
| OrderBookTheorems.FailureBacksOff | apps/api/src/market-data/order-book.service.ts:376-415 | a failed refresh publishes its one reason, raises the attempt count, arms the longer poll and ends |
| OrderBookTheorems.SnapshotIsPublished | apps/api/src/market-data/order-book.service.ts:418-457 | an accepted snapshot is published last, kept last, resets the back-off and arms the stale timer; a new session is announced first and clears the samples |
| OrderBookTheorems.StaleIsToldOnce | apps/api/src/market-data/order-book.service.ts:471-491 | staleness is announced exactly when the last snapshot is too old and it has not been announced since |
| OrderBookTheorems.PollDelayIsBounded | apps/api/src/market-data/order-book.service.ts:459-469 | an armed poll never waits longer than the larger configured time |
| OrderBookTheorems.DelayDoublesUpToCap | apps/api/src/market-data/order-book.service.ts:459-469 | each further failure doubles the wait until the cap |
| OrderBookInvariant.EveryServiceIsOk | apps/api/src/market-data/order-book.service.ts:136-573 | the invariant behind these holds after every schedule of callbacks |
| OrderBookInvariant.BeginKeeps | apps/api/src/market-data/order-book.service.ts:254-300 | beginning a refresh keeps the service invariant, with no second request for the same generation |
| OrderBookInvariant.SubscribeKeeps | apps/api/src/market-data/order-book.service.ts:136-187 | subscribing keeps the service invariant |
| OrderBookInvariant.FetchedKeeps | apps/api/src/market-data/order-book.service.ts:341-375 | every answer of the provider keeps the service invariant |
| OrderBookInvariant.BoundaryKeeps | apps/api/src/market-data/order-book.service.ts:528-573 | resetting every symbol at a session boundary keeps the service invariant |
| OrderBookService.NextNewYorkSessionBoundary | apps/api/src/market-data/order-book.service.ts:648-658 | the bisection returns the first millisecond whose session label differs, for any label that does not come back within the window |
| OrderBookService.OrderBookService.AddSubscriber | apps/api/src/market-data/order-book.service.ts:136-187 | subscribing: capacity, creation, level clamp, gauges, greeting, coalescing or a first refresh |
| OrderBookService.OrderBookService.RemoveSubscriber | apps/api/src/market-data/order-book.service.ts:189-202 | leaving, with teardown behind the last subscriber |
| OrderBookService.OrderBookService.DisconnectClient | apps/api/src/market-data/order-book.service.ts:204-216 | leaving every symbol in map order |
| OrderBookService.OrderBookService.DestroyAll | apps/api/src/market-data/order-book.service.ts:218-221 | tearing every symbol down |
| OrderBookService.OrderBookService.Refresh | apps/api/src/market-data/order-book.service.ts:254-300 | a refresh up to its first await, with preflight and market-hours exits |
| OrderBookService.OrderBookService.OnGranted | apps/api/src/market-data/order-book.service.ts:321-338 | the continuation after the limiter, with the depth its subscribers request |
| OrderBookService.OrderBookService.OnFetched | apps/api/src/market-data/order-book.service.ts:341-375 | the continuation after the provider's answer |
| OrderBookService.OrderBookService.OnThrew | apps/api/src/market-data/order-book.service.ts:376-415 | the continuation after an exception of limiter or provider |
| OrderBookService.OrderBookService.OnStaleTimer | apps/api/src/market-data/order-book.service.ts:471-491 | the stale timer's callback |
| OrderBookService.OrderBookService.OnSessionBoundary | apps/api/src/market-data/order-book.service.ts:528-573 | the session timer's callback |
| OrderBookService.OrderBookService.RequestedDepth | apps/api/src/market-data/order-book.service.ts:493-497 | the depth is the deepest request of any subscriber, within the configured maximum |
| OrderBookService.OrderBookService.TearDown | apps/api/src/market-data/order-book.service.ts:507-526 | forgetting a symbol: maps, gauges and the session timer |
| Easter.EasterIsSunday | apps/api/src/broker/expiration-calendar.ts:62-78 | the anonymous algorithm's result is a Sunday from 22 March to 25 April, in every year |
| Easter.EasterIsSundayAfterFullMoon | apps/api/src/broker/expiration-calendar.ts:62-78 | it is the one Sunday in the seven days after the paschal full moon of the Gregorian calendar, computed from golden number, solar and lunar corrections and epact |
| Easter.EasterOffset | apps/api/src/broker/expiration-calendar.ts:74-77 | month and day are valid and count from 22 March |
| Easter.MoonOffset | apps/api/src/broker/expiration-calendar.ts:70-70 | the algorithm's h is the full moon's distance from 21 March, up to the two exceptional epacts |
| TradingDays.SomeTradingDay | apps/api/src/broker/expiration-calendar.ts:119-130 | of any four consecutive days at least one trades |
| TradingDays.ThreeDayClosure | apps/api/src/broker/expiration-calendar.ts:104-104 | three is not enough: every January has a closed weekend and Monday |
| TradingDays.HolidaysApart | apps/api/src/broker/expiration-calendar.ts:94-117 | two market holidays are never less than six days apart, across years too |
| TradingDays.HolidayIsWeekday | apps/api/src/broker/expiration-calendar.ts:84-117 | no market holiday falls on a weekend, observed ones included |
| TradingDays.HolidaysByRule | apps/api/src/broker/expiration-calendar.ts:94-117 | the computed set is, in every year and in both directions, exactly the ten holidays by date, weekday and observance |
| TradingDays.GoodFridayIsFriday | apps/api/src/broker/expiration-calendar.ts:106-106 | Good Friday is a Friday from 20 March to 23 April |
| CivilCalendar.NthWeekdayIsNth | apps/api/src/broker/expiration-calendar.ts:48-53 | the nth weekday is the only one with that weekday in the month's nth run of seven days |
| CivilCalendar.LastWeekdayIsLast | apps/api/src/broker/expiration-calendar.ts:55-59 | the last weekday lies in the month's last seven days |
| CivilCalendar.ThirdFridayIsThird | apps/api/src/broker/expiration-calendar.ts:41-46 | the third Friday is the month's third Friday, on the 15th to the 21st |
| Expirations.MarketCalendar.Holidays | apps/api/src/broker/expiration-calendar.ts:94-117 | the cached list of a year's holidays, the same with or without the cache |
| Expirations.MarketCalendar.TradesOn | apps/api/src/broker/expiration-calendar.ts:119-123 | whether a day trades |
| Expirations.MarketCalendar.PreviousTradingDay | apps/api/src/broker/expiration-calendar.ts:125-130 | the search ends at the last trading day strictly before |
| Expirations.MarketCalendar.PrecedingTradingDay | apps/api/src/broker/expiration-calendar.ts:232-236 | the search ends, within three steps, at the last trading day up to a day |
| Expirations.MarketCalendar.DailyExpirations | apps/api/src/broker/expiration-calendar.ts:253-263 | exactly the next five trading days |
| Expirations.MarketCalendar.WeeklyExpirations | apps/api/src/broker/expiration-calendar.ts:265-274 | exactly the next four weekly expirations not before today |
| Expirations.MarketCalendar.MonthlyExpirations | apps/api/src/broker/expiration-calendar.ts:276-290 | exactly the next three monthly expirations not before today |
| Expirations.MarketCalendar.OptionExpirations | apps/api/src/broker/expiration-calendar.ts:249-293 | strictly ascending trading days from today on: the union of those three and nothing else |
| Expirations.MonthliesAscend | apps/api/src/broker/expiration-calendar.ts:276-290 | later months expire strictly later |
| Candles.AggregateGroups | apps/api/src/market-data/candle-aggregation.ts:53-81 | time-ordered candles come out as the summaries of the non-empty buckets, each once and strictly ascending |
| Candles.TwoStagesAreOne | apps/api/src/market-data/candle-aggregation.ts:53-81 | aggregating to a finer and then to a coarser interval equals aggregating once, for every pair of intervals and any order of the source |
| Candles.CoarseAfterFine | apps/api/src/market-data/candle-aggregation.ts:26-35 | rounding down to a finer bucket first does not change the coarser bucket, with Monday weeks and times before 1970 |
| Candles.BucketHoldsTime | apps/api/src/market-data/candle-aggregation.ts:26-35 | a bucket starts on the interval's grid and holds its time |
| Candles.BucketIsUnique | apps/api/src/market-data/candle-aggregation.ts:26-35 | no other stretch of the grid holds it |
| Candles.BucketsStartOnTheClock | apps/api/src/market-data/candle-aggregation.ts:13-35 | buckets of minutes and hours count from midnight UTC, days begin there, and weeks begin there on a Monday of the civil calendar |
| Candles.VolumeIsKept | apps/api/src/market-data/candle-aggregation.ts:53-81 | the readable candles' total volume is conserved |
| Candles.ExtremesAreExtreme | apps/api/src/market-data/candle-aggregation.ts:72-76 | a summary's high and low bound its group and are attained in it |
| Candles.AggregateCandles | apps/api/src/market-data/candle-aggregation.ts:53-81 | the loop with its current candle computes that aggregation, skipping unreadable times |
| OccSymbols.ParseUndoesFormatIff | apps/api/src/broker/contract-resolution.ts:122-151 | parsing a printed symbol returns the printed values if and only if the root is one to six capitals or dots, the date is a full one of this century and the strike is a whole number of thousandths below one hundred thousand |
| OccSymbols.FormatUndoesParse | apps/api/src/broker/contract-resolution.ts:122-151 | printing a parsed symbol returns the symbol, for every symbol the pattern accepts |
| OccSymbols.ParsesIff | apps/api/src/broker/contract-resolution.ts:122-151 | the parser accepts exactly one to six capitals or dots, six digits, C or P, and eight digits, and takes each field for what it is |
| OccSymbols.FormatMeans | apps/api/src/broker/contract-resolution.ts:124-134 | the printer drops two characters of the year, joins the date, names the side, and prints the nearest thousandth, halves up, in at least eight digits |
| OccSymbols.ParsedForm | apps/api/src/broker/contract-resolution.ts:136-151 | whatever the parser returns can be printed |
| OccSymbols.FixedWidth | apps/api/src/broker/contract-resolution.ts:132-132 | zero padding restores an eight-digit field from its value |
| ContractSelection.ResolveAutoOtm | apps/api/src/broker/contract-resolution.ts:43-71 | returns the first contract one rung out of the money from the listed strike nearest to the last price, ties toward out of the money, and nothing exactly when there is no such rung |
| ContractSelection.TargetIsUnique | apps/api/src/broker/contract-resolution.ts:52-62 | there is never more than one such strike |
| ContractSelection.FindExplicitOption | apps/api/src/broker/contract-resolution.ts:73-80 | finds the first contract of that side and strike exactly when one is listed |
| ContractSelection.MidOfQuote | apps/api/src/broker/contract-resolution.ts:91-116 | a mid exists exactly for uncrossed positive quotes within the ceiling, within half a cent of the midpoint and between the sides of whole-cent quotes; the second range check never refuses |
| ContractSelection.MidIsZeroIff | apps/api/src/broker/contract-resolution.ts:109-109 | the mid is zero exactly when bid and ask together are below one cent |
| IndicatorReport.ReportInRange | apps/api/src/market-data/order-book-indicators.ts:57-112 | for any book, history and depth: imbalances, pressures and depletion in [-1, 1], percentile in [0, 100], spread not negative, and nothing at all for an invalid book |
| IndicatorReport.MirrorSymmetry | apps/api/src/market-data/order-book-indicators.ts:122-188 | exchanging buyers and sellers negates every directional indicator and keeps the spread |
| IndicatorReport.MirroredReport | apps/api/src/market-data/order-book-indicators.ts:57-112 | on the whole report: exchanging buyers and sellers in the book and in its whole history keeps spread and percentile and negates every directional indicator, whichever samples the report selects |
| IndicatorReport.NetWithinGross | apps/api/src/market-data/order-book-indicators.ts:158-173 | net flow stays within gross flow over the whole sequence |
| IndicatorReport.ReportIgnoresIdleSample | apps/api/src/market-data/order-book-indicators.ts:66-76 | a sample that is invalid, of another symbol or session, out of hours or not earlier changes nothing, wherever it stands |
| IndicatorReport.ByTimeSorts | apps/api/src/market-data/order-book-indicators.ts:75-75 | sorting the samples keeps all of them and orders them by time |
| IndicatorMeaning.TouchMeans | apps/api/src/market-data/order-book-indicators.ts:81-85 | on the whole report: the spread leads from the bid to the ask, and its basis points relate it to the midpoint |
| IndicatorMeaning.ImbalanceMeans | apps/api/src/market-data/order-book-indicators.ts:87-95 | an imbalance is positive exactly when bids outweigh asks, 1 without asks, -1 without bids, absent without sizes, and weighs the two in proportion |
| IndicatorMeaning.DepthStep | apps/api/src/market-data/order-book-indicators.ts:138-147 | each level adds its two sizes, down to the depth of the book and no further |
| IndicatorMeaning.PercentileMeans | apps/api/src/market-data/order-book-indicators.ts:122-131 | the percentile is a hundred times the share of earlier spreads below, equal ones by half, counted as sets of positions |
| IndicatorMeaning.TickPressureMeans | apps/api/src/market-data/order-book-indicators.ts:149-156 | the tick pressure is the number of updates that raised the midpoint less those that lowered it, per update |
| IndicatorMeaning.NetFlowTelescopes | apps/api/src/market-data/order-book-indicators.ts:158-173 | the net flow of any sequence depends on its first and last book only |
| IndicatorMeaning.CumulativePressureMeans | apps/api/src/market-data/order-book-indicators.ts:158-173 | the pressure is 1 exactly when size moved and all of it towards the buyers, and has the sign of what the last book gained over the first |
| IndicatorMeaning.TouchDepletionMeans | apps/api/src/market-data/order-book-indicators.ts:174-188 | 1 exactly when only the asks at an unchanged best price shrank, -1 exactly when only the bids did, and in proportion when both did |
| IndicatorMeaning.SessionSamplesMeans | apps/api/src/market-data/order-book-indicators.ts:66-76 | of the samples that count the latest 23,400 are kept and no earlier one before a later one |
| IndicatorMeaning.RecentSequenceMeans | apps/api/src/market-data/order-book-indicators.ts:77-97 | the sequence is the book itself behind exactly the kept samples of the last sixty seconds |
| IndicatorMeaning.CountingMeans | apps/api/src/market-data/order-book-indicators.ts:66-74 | a sample is used exactly when it is an earlier valid book of the same symbol from open hours of the same session |
| IndicatorMeaning.NoReportIff | apps/api/src/market-data/order-book-indicators.ts:25-62 | nothing at all is reported for exactly the incomplete, stale, badly priced, disordered or crossed books, each case written out |
| IndicatorReport.DeriveOrderBookIndicators | apps/api/src/market-data/order-book-indicators.ts:57-112 | the derivation from its loops equals the report's definition |
| Indicators.ValidateOrderBook | apps/api/src/market-data/order-book-indicators.ts:25-55 | comparing neighbours only, the loops accept exactly the complete, positive, fully ordered and uncrossed books |
| Indicators.Percentile | apps/api/src/market-data/order-book-indicators.ts:122-131 | the counting loop computes the mid-rank percentile |
| Indicators.DepthTotals | apps/api/src/market-data/order-book-indicators.ts:138-147 | the loop sums the sizes of the first levels of each side |
| Indicators.MeanMidpointSign | apps/api/src/market-data/order-book-indicators.ts:149-156 | the loop averages the midpoint's directions |
| Indicators.Pressure | apps/api/src/market-data/order-book-indicators.ts:158-173 | the loop divides net by gross movement of depth, zero without movement |

## Left out

- OneAcceptedClosePerBracket: stated for runs in which expired claimants have stopped, a process neither takes over nor claims a leg on which it has a refused attempt left to unwind, and early refusals met during recovery are conclusive; the code guarantees none of these. `BrokenConditionDoubles` proves each needed in every state in which a sibling is at stake; in states without a restorable sibling they are assumed all the same.
- RunKeepsInv: as above for brackets; for lines outside brackets, stated for runs in which recovery finds neither a sender nor a fire with an unwritten refusal on the line.
- AcceptedLineNeverRelabelled: the same condition on recovery; `LateRelabelHidesAcceptance` and `StalledFireHidesAcceptance` are runs without its halves.
- OneLiveClosePerPosition: the reports of persisted trades are an input of the machine; a terminal report is taken to stay terminal.
- `TradingService.place` beyond its contract: replay, in-flight claim, reconciliation, send with or without a recorded answer, rejection, and refusal before the key is read are outcomes of one step; its sizing, legal and price checks are not modelled.
- Trigger price, arm price and order type of a bracket leg, and edits to them: the fire protocol does not read them; `Watcher` covers prices and updatedAt.
- The limit on working lines per user, idempotent re-creation, contract resolution, settlement times and emitted client updates of chart orders.
- Reading an account's scope and positions from the broker, and the age of legs: inputs of the orphan sweep. Candidate rows of a sweep are read when it starts; writes by others in between are covered by the state machine's steps, not by the sweep methods.
- The group's provider check against the list of known brokers: the model's provider type has only those.
- Other fields of watcher ticks: cadence, metrics, reconciliation calls.
- ClientReceivesEveryEvent: sent means handed to the socket; the order in which the instance emits is that of `EventDelivery.EveryInstanceEmitsTheLogInOrder`; that the poll of a client without a cursor has emitted what was committed before is left open, as `EventDelivery.RequestIsServedIff` says it must be.
- AlertsAreLiveOnly: counts an alert that is handed on for sending; one with an invalid payload, or on a socket that is no longer open, is dropped there with a metric and a log line (stream.gateway.ts:566-600).
- CommitsEachEventOnce: frames of one socket arrive in the order sent, and a consumer is registered when they do; several consumers are one, which has an event as soon as the first of them has it. The backlog limit, the fallback for servers without cursors and the change of user are not modelled. Rate-limiting of configuration updates by their time stamp is not modelled either.
- Poll failures inside the emission itself; subscribers of an event stream are taken not to throw into it.
- Event payloads, and the content-hash keys that merge a return to an earlier state with the earlier event.
- Back-off times between attempts of an order event; the chart-order event bus, which is the same queue without priorities.
- Listener re-entrancy in the Level 2 service: a listener is taken not to call the service from inside a callback. Symbol spelling is taken as already normalised.
- Metrics of the Level 2 service other than the two gauges, its cleanup accounting (whose keys are reused when a symbol comes back), abort signals, and the length of the stale timer.
- Whether the market is open and the New York date: parameters, because they depend on time-zone data.
- Years before 100, in which `Date.UTC` reads the year as one of the twentieth century: the calendar model uses proleptic Gregorian years throughout. Dates are day numbers; the textual order in which expirations are finally sorted agrees with theirs for four-digit years.
- Early closes, settlement instants and the opening hours of a day.
- Candle times outside the range of a JavaScript date, and rounding of floating-point numbers everywhere.
- Upper-casing of characters outside ASCII and strikes printed in exponent notation in option symbols.
- `pickExpiration`, `estimateBuyingPower`, `positionProfitDirection`, `bracketKindFor` and the aggregation plans: single expressions.
- HTTP, authentication, credentials, push notifications, the desktop client apart from its durable cursor, and the iOS client.
