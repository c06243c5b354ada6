# Skyward in Dafny

A Dafny model of the parts of the Skyward airline game whose correctness spans several functions, several runs or
several processes, with proofs of what those parts keep. `dafny verify dfyconfig.toml` checks all of it.

The program's own objects are classes whose methods are proved to take one step of a transition function; the
properties are then lemmas about every run of those steps.

| files | what they model |
|---|---|
| `RealtimeWorld`, `RealtimeClient`, `RealtimeProofs`, `RealtimeRetries` | the browser's realtime client with its generations, timers, tickets and sockets, the stores' subscriptions, and the wire to the hub |
| `Hub`, `HubServer`, `HubDelivery` | the hub's two-way index, the clients' bounded send queues, the WebSocket requests, and who gets which event |
| `Money`, `Airline`, `Fleet`, `Bank`, `DayBoundary`, `AirlineRuns` | the ledger and every command that moves cash, loans or aircraft, as functions on one player's rows |
| `Engine` | the same commands as they run: committed rows, a private copy per transaction, statement by statement |
| `LoanProofs`, `LoanTerms`, `LoanRace`, `Refinancing` | the life of a loan, its two installments and how long it lasts, the payment loop against everybody else, what a refinancing does |
| `CommandProofs`, `CommandEffects`, `Prices`, `DayProofs` | who is granted what at which cost, what each command and each day boundary leaves, and what the prices come to |
| `WealthProofs`, `CashFlow`, `ReportLines` | wealth over runs, the reports over the ledger, line by line |
| `AircraftLock`, `RouteCalls`, `RowLocks` | assigning an aircraft against selling it, and which commands can deadlock on the rows they lock |
| `PlayerClock`, `PlayerCalls`, `PlayerRaces` | concurrent simulation of one player: the windows under the lock and the settlements after it, when that amounts to the calls one after another, and runs in which it does not |
| `Demand`, `Cabins`, `Economics`, `EconomicsProofs`, `Windows` | the weekly economics of a route in its three versions, and billing time in pieces |
| `WindowLimiter`, `TicketStore` | the attempt limiter and the WebSocket tickets |
| `Sequences` | options, filters and subsequences |

Money is in whole cents (`int`) where a numeric(20,2) column holds it and a `real` number of cents before it is
rounded; model prices and rents are whole cents. Economics is over the reals. Instants are integers.
Clocks, random tokens, tier policies, game configuration, iteration orders and which statement fails are parameters.

## What the proofs found

Places where the code does not do what its comments or names say. Each is a lemma below.

- Reconnect delays grow only up to the twenty-ninth failure. `2 << 30` is negative in 32 bits, so from the thirtieth
  on the delay is back at two seconds (`BackoffGrowsIff`); it always stays within two seconds and the limit.
- The hub may drop a connection before the browser hears of it; until then the two sides disagree about the channels
  unless nothing allowed is held (`HubDropBreaksAgreement`).
- `Subscribe` does not check registration: a client that was unregistered comes back into the index with its next
  subscription (`UnregisterThenSubscribe`), though nothing reaches it any more (`NothingReachesAClosedClient`).
- The comparison made before a debit and the guard inside it disagree for amounts worth less than a cent on an
  overdrawn account (`AtLeastAgreesWithGuardIff`): a repayment of less than half a cent is refused exactly then
  (`FreeRepaymentIsRefusedIffOverdrawn`), and so is such a repair (`FreeRepairIsRefusedIffOverdrawn`).
- A payment that leaves exactly half a cent ends the loan as `paid_off` with a cent remaining (`PaymentSettlesIff`);
  installments never do (`InstallmentLeavesNoHalf`).
- A refinancing lowers the rate and never raises the debt (`RefinanceNeverCostsMore`), but it can raise both
  installments. The monthly one falls or stays exactly when there is one (`NoRateRaisesMonthlyIff`). The bank grants
  loans over so many weeks that they have none, and refinancing such a loan makes nearly all of it due in a month
  (`RefinanceCanMakeTheWholeDebtDue`). The weekly one, which the day boundary charges, can rise exactly when the debt
  over its periods comes to more than half a cent a week above it (`NoRateRaisesWeeklyIff`); with a monthly installment
  it rises by at most a cent (`RefinanceRaisesWeeklyByACent`), and does for some loans
  (`RefinanceCanRaiseTheWeeklyInstallment`).
- A loan with no weekly and at most two cents of monthly installment is never settled by the day boundary
  (`FallbackInstallmentCountsIff`).
- The last installment of an aircraft financing leaves the aircraft `finance`, so it can never be sold
  (`InstallmentsNeverReleaseTheAircraft`); only a repayment makes it the player's own.
- The advisory lock covers a window and not what its call does afterwards. A call that overtakes another one before
  its bankruptcy check or its day boundary is paid for routes the check would have closed
  (`LateCheckPaysAnotherWindow`), or finds the money for an installment that was missed when it was due
  (`LateServiceTurnsAMissIntoAPayment`). Concurrent calls amount to calls one after another, whatever they do, exactly
  when each settles before the next window is read (`SerialExactlyWhenOrderly`).
- The payment loop writes loans by their id, from rows it has read before. A loan repaid in between is charged again
  (`SettledLoanIsPaidAgain`), or, at its last miss, defaults or is repossessed with a fee owing and its aircraft
  grounded (`SettledLoanIsEnded`). `PaidOffStaysIff` says exactly when a paid-off loan is safe from that.
- `FOR UPDATE` over a join locks the aircraft model too, so a player's repair can deadlock with a purchase of the same
  model (`BuyingDeadlocks`). The net-worth triggers lock the player's users row, so borrowing can deadlock with every
  other movement of cash (`BorrowingDeadlocks`), the tick, a bankruptcy or a settling repayment with a repair or a sale
  (`AircraftDeadlock`), an installment or a bankruptcy with a repayment (`LoanDeadlock`). `NeverDeadlocksIff` has all of
  them: sets of commands without such a pair never deadlock.
- Cutting a stretch longer than a week into pieces earns more than billing it at once (`SplittingShowsInRevenueIff`).
- A weekly flight limit that truncates to zero is taken for no limit at all (`FlownKeepsToTheLimitIff`).
- A ledger row with category `revenue` and subcategory `aircraft_sale` would be reported twice
  (`SaleBookedAsRevenueIsCountedTwice`); the engine writes none.

## Model

| member | source | states |
|---|---|---|
| RealtimeProofs.ConnectionInvariant | apps/web/src/lib/core/realtime/realtime-client.ts:102-160 | over every interleaving of calls, tickets, socket events and timers: only the current socket is unclosed, at most one timer is pending and never beside an open socket, delays are in bounds, and a started client has a socket, a timer or a current connect under way unless its last ticket was null |
| RealtimeProofs.NothingReconnectsAfterDisconnect | apps/web/src/lib/core/realtime/realtime-client.ts:191-203 | until the next `connect`, no run after `disconnect` opens a socket, leaves one open or has a timer pending |
| RealtimeWorld.StepKeepsInv | apps/web/src/lib/core/realtime/realtime-client.ts:215-277 | every action keeps the handle, progress and channel invariants |
| RealtimeWorld.BackoffWithinBounds | apps/web/src/lib/core/realtime/realtime-client.ts:222-224 | every delay lies between two seconds and the limit, 32-bit shift included |
| RealtimeWorld.BackoffGrowsIff | apps/web/src/lib/core/realtime/realtime-client.ts:222-224 | the delay grows with the failures exactly below the thirtieth one |
| RealtimeRetries.BackoffDoubles | apps/web/src/lib/core/realtime/realtime-client.ts:222-224 | the delay is two seconds at first and doubles up to the limit until the thirtieth failure |
| RealtimeRetries.EveryFailureIsRetried | apps/web/src/lib/core/realtime/realtime-client.ts:215-277 | in every run, an attempt that gets no ticket, no socket or loses its socket leaves one timer, for the delay that the failures in a row since the last first message call for |
| RealtimeRetries.OnlyFailuresAreRetried | apps/web/src/lib/core/realtime/realtime-client.ts:102-126 | in every run nothing else arms a timer, only a null ticket of the current attempt ends the attempts, and a timer that fires begins a new one |
| RealtimeRetries.OpeningAsksForTheHeld | apps/web/src/lib/core/realtime/realtime-client.ts:125-159 | a ticket for the current attempt opens a socket, and the socket asks for every held channel when it opens |
| RealtimeRetries.PingsGoOut | apps/web/src/lib/core/realtime/realtime-client.ts:186-189 | an open client puts a ping on the wire every interval |
| RealtimeWorld.AddRefsAnnouncesNewKeys | apps/web/src/lib/core/realtime/realtime-client.ts:162-170 | what `subscribe` announces is exactly what becomes held; counts stay positive |
| RealtimeWorld.DropRefsAnnouncesLostKeys | apps/web/src/lib/core/realtime/realtime-client.ts:172-184 | what `unsubscribe` announces covers exactly what stops being held |
| RealtimeProofs.ChannelsAgree | apps/web/src/lib/core/realtime/realtime-client.ts:146-184 | whenever the socket is open and served, the hub's channels after reading the wire are the held ones it allows |
| RealtimeProofs.DrainingAgrees | apps/api/internal/handler/ws.go:209-228 | letting the hub read the whole wire is a run, and afterwards both sides agree |
| RealtimeProofs.HubDropBreaksAgreement | apps/api/internal/realtime/hub.go:84-105 | after the hub drops a connection the sides agree only if nothing allowed is held |
| RealtimeProofs.SystemStepKeepsInv | apps/web/src/lib/core/realtime/realtime-subscription.ts:25-56 | every step of stores and client keeps each count equal to the number of live subscriptions holding the channel |
| RealtimeProofs.HubFollowsTheSubscriptions | apps/web/src/lib/core/realtime/realtime-subscription.ts:25-56 | over every run: counts are numbers of holders, disposed subscriptions hold nothing, and the hub ends with exactly the allowed channels somebody holds |
| RealtimeClient.RealtimeClient.Connect | apps/web/src/lib/core/realtime/realtime-client.ts:102-111 | is the model's connect step on the whole state |
| RealtimeClient.RealtimeClient.TicketResolved | apps/web/src/lib/core/realtime/realtime-client.ts:112-159 | is the model's step for a ticket that arrives, is null, or fails, whatever was current |
| RealtimeClient.RealtimeClient.Subscribe | apps/web/src/lib/core/realtime/realtime-client.ts:162-170 | the loop counts every channel and sends exactly the new ones |
| RealtimeClient.RealtimeClient.Unsubscribe | apps/web/src/lib/core/realtime/realtime-client.ts:172-184 | the loop counts down and sends exactly the channels that are gone |
| RealtimeClient.RealtimeClient.Disconnect | apps/web/src/lib/core/realtime/realtime-client.ts:191-203 | is the model's disconnect step on the whole state |
| RealtimeClient.RealtimeClient.ScheduleReconnect | apps/web/src/lib/core/realtime/realtime-client.ts:215-228 | one timer with the model's delay, at most once per generation |
| RealtimeClient.RealtimeClient.OnErrorOrDone | apps/web/src/lib/core/realtime/realtime-client.ts:267-277 | tears down and schedules only for the current generation |
| RealtimeClient.RealtimeSubscription.Subscribe | apps/web/src/lib/core/realtime/realtime-subscription.ts:25-44 | one system step: connects, adds what is newly wanted, removes what no longer is |
| RealtimeClient.RealtimeSubscription.Dispose | apps/web/src/lib/core/realtime/realtime-subscription.ts:47-56 | one system step: gives back every channel once |
| HubMachine.Reachable | apps/api/internal/realtime/hub.go:48-136 | in every reachable state a client is in a channel's set exactly when the channel is in the client's, no empty set is kept, no queue is closed twice or sent to after closing, and what a client gets is in order a subsequence of what was broadcast to it |
| HubMachine.TrySendQueues | apps/api/internal/realtime/hub.go:48-60 | a message is queued behind the others unless the client is closed or sixteen are waiting |
| HubDelivery.HubDoesAsTold | apps/api/internal/realtime/hub.go:77-174 | in every run a client is registered, subscribed, closed and addressed exactly as the operations so far say |
| HubDelivery.EverythingArrivesIff | apps/api/internal/realtime/hub.go:147-174 | in every run a client gets the events addressed to it in order, all but as many as visits found it closed or full, so all of them exactly when none did |
| HubMachine.NothingReachesAClosedClient | apps/api/internal/realtime/hub.go:48-75 | nothing is added to what a closed client gets, even if it is subscribed again |
| HubMachine.UnregisteredStaysOutUnlessSubscribed | apps/api/internal/realtime/hub.go:84-121 | only a subscription of its own puts a client back into the index |
| HubMachine.UnregisterThenSubscribe | apps/api/internal/realtime/hub.go:108-121 | and that one does, without registering it |
| HubMachine.VisitsInAnyOrder | apps/api/internal/realtime/hub.go:147-174 | an uninterrupted broadcast puts its message once into the queue of each target that is open and has room, and into no other, in whatever map order |
| HubServer.Client.Send | apps/api/internal/realtime/hub.go:48-60 | answers false when closed or full and otherwise puts the message at the end of the queue |
| HubServer.Client.Close | apps/api/internal/realtime/hub.go:62-75 | closes the queue once however often it is called |
| HubServer.Hub.Unregister | apps/api/internal/realtime/hub.go:84-105 | removes the client from the set and from every channel, drops channels left empty, closes it |
| HubServer.Hub.Subscribe | apps/api/internal/realtime/hub.go:108-121 | both sides of the index, creating whichever map is missing |
| HubServer.Hub.Unsubscribe | apps/api/internal/realtime/hub.go:124-136 | both sides of the index, dropping a channel left empty |
| HubServer.Hub.Broadcast | apps/api/internal/realtime/hub.go:147-165 | queues the event with every open member of the channel that has room, and with nobody else |
| HubServer.Hub.BroadcastAll | apps/api/internal/realtime/hub.go:167-174 | queues the event with every open registered client that has room, and with nobody else |
| HubServer.Hub.Serve | apps/api/internal/handler/ws.go:209-228 | a request takes the whole hub through one step per channel, subscriptions filtered by the allowlist and unsubscriptions not, changes the client's channels as the wire model says, and answers a ping with a pong |
| HubServer.FilterAllowed | apps/api/internal/handler/ws.go:95-105 | keeps the allowed channels, in order and no others |
| WindowLimiter.SweepingIsInvisible | apps/api/internal/middleware/limiter.go:45-91 | with a monotone clock the sweeping limiter answers every sequence of calls like one that never deletes |
| WindowLimiter.SweepingIsVisibleIfTheClockRunsBack | apps/api/internal/middleware/limiter.go:45-59 | three calls that tell them apart when the clock runs back |
| WindowLimiter.AtMostTwiceTheLimit | apps/api/internal/middleware/limiter.go:45-59 | no interval as long as the window admits more than twice the limit per key |
| WindowLimiter.WaitingLongerIsAdmitted | apps/api/internal/middleware/limiter.go:71-83 | waiting strictly longer than reported is always admitted |
| WindowLimiter.WaitingExactlyIsAdmittedIff | apps/api/internal/middleware/limiter.go:71-83 | waiting exactly that long is admitted if and only if the running window has an attempt left |
| WindowLimiter.WindowLimiter.Allow | apps/api/internal/middleware/limiter.go:45-59 | opens, counts and sweeps as the step function, and answers the same |
| WindowLimiter.WindowLimiter.Sweep | apps/api/internal/middleware/limiter.go:85-91 | the loop leaves exactly the windows still running |
| WindowLimiter.ClearingStartsAfresh | apps/api/internal/middleware/limiter.go:61-69 | a cleared key waits for nothing and starts a new window, and no other key changes |
| WindowLimiter.AdmittedUpToTheLimit | apps/api/internal/middleware/limiter.go:45-83 | while a window lasts, its attempts are admitted up to the limit and refused beyond it, and the wait reported is what is left, whatever other keys do |
| TicketStore.GrantedIff | apps/api/internal/realtime/ticket.go:71-110 | a redemption is granted to a user exactly when the token was issued to that user, nobody has shown it since and its issue-time expiry has not passed |
| TicketStore.RedeemsAtMostOnce | apps/api/internal/realtime/ticket.go:90-110 | no ticket is granted twice |
| TicketStore.SweepingIsInvisible | apps/api/internal/realtime/ticket.go:71-119 | with a monotone clock every answer is that of a store that never forgets |
| TicketStore.TicketStore.IssueTicket | apps/api/internal/realtime/ticket.go:71-88 | sweeps, then stores the ticket with the current time to live |
| TicketStore.TicketStore.RedeemTicket | apps/api/internal/realtime/ticket.go:90-110 | spends the ticket whatever the answer |
| Money.RoundNegates | apps/api/internal/money/money.go:39-41 | halves go away from zero on both sides |
| Money.RoundIsNearest | apps/api/internal/money/money.go:39-41 | rounding moves an amount by at most half a cent |
| Money.SaleStaysInBounds | apps/api/internal/money/money.go:96-110 | a sale never credits more than the list price nor less than a tenth of the aircraft's value |
| Prices.RepairCostsByThePoint | apps/api/internal/money/money.go:69-74 | a repair costs a two-thousandth of the price for every point of condition |
| Prices.SalesBringWhatAgeLeaves | apps/api/internal/money/money.go:96-110 | a sale brings the price at the condition, and with both dates known what is left of it at a twentieth a year, down to a tenth |
| Prices.DepositIsShareOrRent | apps/api/internal/engine/fleet.go:421-435 | a deposit is the share of the price its size calls for, at least two months' rent |
| Prices.EndingALeaseCostsAQuarter | apps/api/internal/money/money.go:112-115 | ending a lease costs a quarter of a month's rent to the cent |
| Prices.SeatsTrade | apps/api/internal/engine/fleet.go:50-56 | a business seat takes the room of two in economy, a first-class one of three, and an all-economy cabin fits up to the capacity |
| Prices.OrdersNeedTheTier | apps/api/internal/engine/fleet.go:63-91 | players need the tier of the model unless it is the lowest, bots none |
| Airline.AtLeastAgreesWithGuardIff | apps/api/internal/engine/engine.go:118-150 | the comparison and the guarded debit agree if and only if the amount is worth a cent, or the account or the amount makes both say the same |
| Airline.PostingReconciles | apps/api/internal/engine/engine.go:133-164 | a movement keeps balance, running balances and signs in step |
| AirlineRuns.FailureChangesNothing | apps/api/internal/engine/withtx.go:44-72 | a command that is refused or fails at any statement leaves the whole state as it was |
| AirlineRuns.RunKeepsAccount | apps/api/internal/engine/engine.go:118-164 | over every run, failures included: balance is opening plus ledger, every row records the running balance, rows are only added, only the simulation can overdraw |
| Engine.Engine.ApplyTx | apps/api/internal/engine/engine.go:118-164 | succeeds exactly when the model's movement does, and then leaves its result |
| Engine.Engine.End | apps/api/internal/engine/withtx.go:59-71 | commits the private copy, or leaves the committed rows alone when undone or when the commit fails |
| Engine.Engine.Purchase | apps/api/internal/engine/fleet.go:93-148 | is the model's purchase, whichever statement fails |
| Engine.Engine.Sell | apps/api/internal/engine/fleet.go:151-213 | is the model's sale, whichever statement fails |
| Engine.Engine.Repair | apps/api/internal/engine/fleet.go:216-258 | is the model's repair, whichever statement fails |
| Engine.Engine.Lease | apps/api/internal/engine/fleet.go:298-356 | is the model's lease, whichever statement fails |
| Engine.Engine.TerminateLease | apps/api/internal/engine/fleet.go:359-416 | is the model's termination, whichever statement fails |
| Engine.Engine.TakeLoan | apps/api/internal/engine/bank.go:25-131 | is the model's loan, whichever statement fails |
| Engine.Engine.Repay | apps/api/internal/engine/bank.go:134-203 | is the model's repayment, whichever statement fails |
| Engine.Engine.Refinance | apps/api/internal/engine/bank.go:208-264 | is the model's refinancing, whichever statement fails |
| Engine.Engine.FinanceAircraft | apps/api/internal/engine/bank.go:298-398 | is the model's financing, whichever statement fails |
| Engine.Engine.ServeLoans | apps/api/internal/engine/dayboundary.go:110-185 | the payment loop, with its own running cash, serves every loan as the model does |
| Engine.Engine.DayBoundary | apps/api/internal/engine/simulation.go:587-628 | loans, then financing, then the count of negative days |
| Engine.Engine.ProcessWindow | apps/api/internal/engine/simulation.go:359-506 | the route loop posts exactly the window's rows or nothing, and the totals it reports differ by exactly the unrounded change in cash |
| Engine.Engine.DoAll | apps/api/internal/engine/withtx.go:44-72 | any list of commands leaves the committed rows the model's run leaves |
| LoanProofs.PaymentSettlesIff | apps/api/internal/engine/bank.go:175-190 | a payment settles a loan exactly when at most half a cent is left, and then nothing is owed unless it is exactly half a cent |
| LoanProofs.InstallmentLeavesNoHalf | apps/api/internal/engine/dayboundary.go:136-160 | an installment never leaves exactly half a cent, so the day boundary never ends a loan with a cent remaining |
| LoanProofs.FallbackInstallmentCountsIff | apps/api/internal/engine/dayboundary.go:136-160 | a fallback installment pays anything if and only if the monthly one is at least three cents |
| LoanProofs.SettledLoansNeverChange | apps/api/internal/engine/dayboundary.go:143-180 | `paid_off`, `defaulted` and `repossessed` are absorbing over every run |
| LoanProofs.RunKeepsLoanInv | apps/api/internal/engine/dayboundary.go:143-180 | over every run with whole-cent repayments: active loans owe something and have missed fewer installments than end them, paid-off loans owe nothing |
| LoanRace.LoopAloneIsServe | apps/api/internal/engine/dayboundary.go:99-185 | the loop's reads and statements, with nothing in between, are the service of the loans as one step |
| LoanRace.UnreadLoansNeverChange | apps/api/internal/engine/dayboundary.go:114-118 | a loan that is not active and that no running loop has before it is never changed again, whoever does what in whatever order |
| LoanRace.PaidOffStaysIff | apps/api/internal/engine/dayboundary.go:143-180 | at any point of any interleaving of the loop with any commands, a paid-off loan stays paid off in every continuation exactly when the loop is not ending it and cannot run short at it with its last miss to come |
| LoanRace.SettledLoanIsPaidAgain | apps/api/internal/engine/dayboundary.go:148-164 | for any airline that can afford both: a repayment between the loop's read and its statement, and the installment is debited on top |
| LoanRace.SettledLoanIsEnded | apps/api/internal/engine/dayboundary.go:233-262 | for any loan at its last miss with less than an installment owing: repaid in between, it is ended all the same, owes the fee, and its aircraft, now bought, is grounded |
| Refinancing.RefinanceNeverCostsMore | apps/api/internal/engine/bank.go:235-255 | every refinancing lowers the rate and does not raise the debt, whatever installments the loan has |
| Refinancing.PeriodsCoverTheDebt | apps/api/internal/engine/bank.go:241-250 | the new total is spread exactly over the least number of old installments that covers what was owed, over one period without any |
| Refinancing.MonthlyNeverRisesIff | apps/api/internal/engine/bank.go:241-255 | at rates up to 100%, a refinancing does not raise the monthly installment if and only if there is one |
| Refinancing.NoRateRaisesMonthlyIff | apps/api/internal/engine/bank.go:241-255 | at any rate, no lower rate raises the monthly installment if and only if there is one |
| Refinancing.WholeDebtFallsDue | apps/api/internal/engine/bank.go:242-255 | without installments the whole debt becomes the next monthly installment |
| Refinancing.NoRateRaisesWeeklyIff | apps/api/internal/engine/bank.go:241-255 | no lower rate raises the weekly installment if and only if the debt over its periods is at most half a cent a week above it |
| Refinancing.RefinanceRaisesWeeklyByACent | apps/api/internal/engine/bank.go:241-255 | in every run, refinancing a loan with a monthly installment raises the weekly one by at most a cent |
| Refinancing.RefinanceCanRaiseTheWeeklyInstallment | apps/api/internal/engine/bank.go:241-255 | a loan whose weekly installment rises from two cents to three |
| Refinancing.RefinanceCanMakeTheWholeDebtDue | apps/api/internal/engine/bank.go:25-131 | any player entitled to borrow 100,000.00 is granted it over 100,000,000 weeks without installments, and a refinancing then makes over 90,000.00 due in a month |
| LoanTerms.RunKeepsMatched | apps/api/internal/engine/bank.go:107-118 | in every run the weekly and monthly installments of every loan are rounded from the same amount |
| LoanTerms.FeesStayBelowOneInstallment | apps/api/internal/engine/dayboundary.go:165-180 | all late fees a loan can collect are less than one installment |
| LoanTerms.LoansEnd | apps/api/internal/engine/dayboundary.go:110-265 | whatever the cash does and whatever other loans there are, a loan not refinanced leaves `active` within ceil(r/p) + 4 service rounds, + 3 for aircraft financing |
| LoanTerms.UnmatchedLoansCanHideAnother | apps/api/internal/engine/dayboundary.go:143-164 | with loan rows no command makes, a round can pass a loan over, neither paid nor missed |
| LoanProofs.RepaymentReleasesTheAircraft | apps/api/internal/engine/bank.go:183-192 | a repayment makes the financed aircraft the player's own exactly when it settles the loan |
| LoanProofs.InstallmentsNeverReleaseTheAircraft | apps/api/internal/engine/dayboundary.go:229-249 | the day boundary never does, and the aircraft then cannot be sold |
| CommandProofs.GrantedIff | apps/api/internal/engine/fleet.go:93-416 | when no statement fails a command is granted exactly to a player who meets its conditions: the guarded debit never refuses what the check let through |
| CommandProofs.GrantedCommandsCost | apps/api/internal/engine/bank.go:25-264 | to the cent, what each granted command takes off net worth; a repayment one cent exactly when it ends in half a cent and more than that stays owing, else nothing |
| CommandProofs.FreeRepairIsRefusedIffOverdrawn | apps/api/internal/engine/fleet.go:233-247 | a repair worth less than half a cent, which the ledger lets through, is refused exactly on an overdrawn account |
| CommandProofs.FreeRepaymentIsRefusedIffOverdrawn | apps/api/internal/engine/bank.go:149-179 | a repayment of less than half a cent leaves every row as it was and is refused exactly on an overdrawn account |
| CommandProofs.FinancingCosts | apps/api/internal/engine/bank.go:334-391 | financing takes exactly the rounded interest off net worth, whatever is paid down |
| CommandEffects.BuyingDelivers | apps/api/internal/engine/fleet.go:93-148 | a granted purchase or lease adds one whole aircraft in service and takes its price or deposit, with the ledger row to show for it |
| CommandEffects.LeavingTakesTheAircraft | apps/api/internal/engine/fleet.go:151-213 | a granted sale or termination takes away one idle aircraft of the right kind and books its worth or its fee |
| CommandEffects.RepairMakesWhole | apps/api/internal/engine/fleet.go:216-258 | a granted repair leaves a damaged aircraft whole and in service and otherwise the same, changes nothing for a whole one, and touches nothing else |
| CommandEffects.BorrowingAddsTheLoan | apps/api/internal/engine/bank.go:25-131 | a granted loan owes its principal, has both installments spread principal and interest over the weeks, and brings the principal |
| CommandEffects.BorrowingIsGrantedIff | apps/api/internal/engine/bank.go:25-90 | a loan is granted exactly without collateral, within the tier's limit or half of it, above the minimum and below the number of loans |
| CommandEffects.RepayingPaysDown | apps/api/internal/engine/bank.go:134-203 | a granted repayment takes from the account what it takes off the one loan, settles at half a cent, and makes a settled financing's aircraft the player's own |
| CommandEffects.RefinancingReprices | apps/api/internal/engine/bank.go:208-264 | a granted refinancing changes the debt in the ratio of the rates and both installments with it |
| CommandEffects.FinancingDelivers | apps/api/internal/engine/bank.go:298-398 | a granted financing adds a whole aircraft and the loan on it, for the price less the down payment with interest |
| CommandEffects.FinancingIsGrantedIff | apps/api/internal/engine/bank.go:298-345 | financing is granted exactly for the terms, shares, tiers and limits allowed to whoever can pay down less than the price |
| CommandEffects.GrantedOnlyIfNothingFailed | apps/api/internal/engine/withtx.go:44-72 | a granted command has had no failure in opening, moving cash, writing or committing |
| CommandEffects.WindowsOnlyCount | apps/api/internal/engine/withtx.go:44-72 | nor has a window that counts, and it leaves exactly its postings |
| CommandEffects.BuyingAndSellingCostsNothing | apps/api/internal/engine/fleet.go:93-213 | a purchase sold again at once leaves cash and fleet as they were |
| CommandEffects.LeasingAndEndingCosts | apps/api/internal/engine/fleet.go:298-416 | a lease ended at once costs its deposit and its fee |
| CommandEffects.RepairingAgainChangesNothing | apps/api/internal/engine/fleet.go:216-258 | a second repair changes nothing |
| CommandEffects.BorrowingAndRepayingCostsNothing | apps/api/internal/engine/bank.go:25-203 | a loan repaid at once costs nothing and is settled |
| CommandEffects.FinancingAndRepayingLetsSell | apps/api/internal/engine/bank.go:298-398 | a financed aircraft whose loan is repaid can be sold |
| DayProofs.NegativeDaysAreCounted | apps/api/internal/engine/simulation.go:596-628 | over any run of commands the count is the number of day boundaries in a row, up to the last, that found the balance negative |
| DayProofs.BankruptIff | apps/api/internal/engine/simulation.go:596-640 | over any run the airline is bankrupt exactly if it was, if bankruptcy was called, or if a day boundary made that number reach its positive threshold |
| DayProofs.BankruptcyGroundsAndDefaults | apps/api/internal/engine/simulation.go:558-585 | bankruptcy grounds every aircraft, ends every active loan with nothing owing, and changes nothing else |
| DayProofs.ServingOneLoan | apps/api/internal/engine/dayboundary.go:143-180 | serving a loan pays its installment or adds the fee and counts the miss, and the last miss ends the loan and grounds its aircraft |
| WealthProofs.PaymentNeverGains | apps/api/internal/engine/bank.go:179-190 | a payment debits at least what it takes off the debt, however either rounds |
| WealthProofs.ExecNeverGains | apps/api/internal/engine/fleet.go:93-416 | no single command other than flying, refinancing and bankruptcy raises net worth |
| WealthProofs.NoRunCreatesWealth | apps/api/internal/engine/bank.go:25-398 | no run of those commands raises cash plus list price of owned and financed aircraft less unpaid debt |
| WealthProofs.ActiveWealthGrowsByDefaults | apps/api/internal/engine/dayboundary.go:110-265 | counting active debt only, net worth rises over a run by no more than what is left on the loans that run itself ended unpaid |
| WealthProofs.NoRunCreatesActiveWealth | apps/api/internal/engine/dayboundary.go:110-265 | so it does not rise over a run that ends no loan unpaid, whatever had ended before |
| WealthProofs.RefinanceForgives | apps/api/internal/engine/bank.go:235-255 | a refinancing writes off exactly the difference of the rounded debts |
| CashFlow.BuildCashFlows | apps/web/src/lib/features/finance/domain/ifrs-report-builder.ts:141-195 | the three loops compute every bucket's own sum |
| CashFlow.ReportCountsRows | apps/web/src/lib/features/finance/domain/ifrs-report-builder.ts:141-195 | for any rows, net cash change counts each row as often as there are buckets it falls in |
| CashFlow.CountedOnceIff | apps/web/src/lib/features/finance/domain/ifrs-category.ts:37-95 | when a row is reported at its worth, read off its category and subcategory |
| CashFlow.WrittenRowsAreCountedOnce | apps/web/src/lib/features/finance/domain/ifrs-category.ts:37-95 | every row the engine writes falls in exactly one bucket |
| CashFlow.ReportIsTheLedger | apps/web/src/lib/features/finance/domain/ifrs-report-builder.ts:141-195 | for rows the engine writes, net cash change is the sum of the ledger |
| CashFlow.ReportReconcilesWithTheBank | apps/api/internal/engine/engine.go:118-164 | the report over what any run added to the ledger is the change in the bank balance |
| CashFlow.SaleBookedAsRevenueIsCountedTwice | apps/web/src/lib/features/finance/domain/ifrs-category.ts:37-43 | a row outside that set that is reported twice |
| CashFlow.BuildIncomeStatement | apps/web/src/lib/features/finance/domain/ifrs-report-builder.ts:60-116 | the two loops compute every line's own sum |
| ReportLines.EachLineIsItsRows | apps/web/src/lib/features/finance/domain/ifrs-report-builder.ts:60-116 | each line of the income statement is the sum of the rows of its own subcategories |
| ReportLines.EachFlowIsItsCategory | apps/web/src/lib/features/finance/domain/ifrs-report-builder.ts:141-195 | on rows the engine writes each cash-flow figure is the sum of one ledger category's debits or credits |
| ReportLines.EachFlowIsItsRows | apps/web/src/lib/features/finance/domain/ifrs-report-builder.ts:163-195 | whatever the rows, investing and financing figures are the sums of their own subcategories |
| ReportLines.PostingsReachTheirLines | apps/api/internal/engine/simulation.go:427-470 | over any postings each line is what the items of its kind were posted for |
| ReportLines.RouteReachesItsLines | apps/api/internal/engine/simulation.go:412-470 | a route's window puts each of its figures, to the cent, on that figure's line and on no other |
| CashFlow.OperatingCashFlowIsNetIncome | apps/web/src/lib/features/finance/domain/ifrs-report-builder.ts:60-195 | operating cash flow is net income less lease-termination fees |
| AircraftLock.NoDoubleAssignment | apps/api/internal/engine/routes.go:121-168 | under any interleaving, by any users, failing anywhere, no aircraft is committed to two routes and every aircraft a route refers to is in its owner's fleet |
| AircraftLock.SetNullNeverFires | apps/api/internal/engine/fleet.go:181-207 | no route refers to an aircraft at the moment it is deleted |
| AircraftLock.NeverStuck | apps/api/internal/engine/fleet.go:384-410 | the aircraft's and the route's row locks always let some unfinished call take its next step |
| RouteCalls.CommittedCallsWereRight | apps/api/internal/engine/routes.go:121-168 | among any other calls, a call that commits finds its aircraft its own and on no other route at that moment, and does exactly what it is for |
| RouteCalls.OnlyCallsChangeRoutes | apps/api/internal/engine/routes.go:66-168 | assigning, unassigning, closing, selling and ending a lease change exactly their own route or aircraft, and no other step changes any |
| RouteCalls.RefusedIffNotFree | apps/api/internal/engine/routes.go:125-150 | a call is refused exactly when the aircraft is not the caller's or another of the caller's routes has it |
| RouteCalls.UndisturbedCallSucceeds | apps/api/internal/engine/routes.go:121-168 | a call for a free aircraft that nobody disturbs commits and does what it is for |
| RowLocks.NeverDeadlocksIff | migrations/00_baseline.sql:5379-5454 | for any set of the engine's commands and postings, net-worth triggers and foreign-key checks included: no run deadlocks if and only if no two of them take two rows in opposite orders |
| RowLocks.SafeKindsNeverDeadlock | apps/api/internal/engine/withtx.go:44-72 | commands without such a pair never wait for one another in a cycle, however many run, on whatever rows, wherever they fail |
| RowLocks.PlayersNeverDeadlockIff | apps/api/internal/engine/fleet.go:93-258 | what players order never deadlocks exactly without both purchases and repairs, both loans and other cash, both settled financings and sales, terminations, repairs or seat changes |
| RowLocks.BuyingDeadlocks | apps/api/internal/engine/fleet.go:216-258 | a purchase and a repair of the same model reach a state in which each waits for the other |
| RowLocks.BorrowingDeadlocks | apps/api/internal/engine/bank.go:107-125 | so do a loan, which takes the user before the account, and any other movement of cash |
| RowLocks.AircraftDeadlock | apps/api/internal/engine/simulation.go:432-512 | and the tick, a bankruptcy or a settling repayment with a repair, a sale, a termination or a grounding |
| RowLocks.LoanDeadlock | apps/api/internal/engine/dayboundary.go:148-180 | and an installment or a bankruptcy with a repayment, a refinancing or a late fee |
| RowLocks.SettledDeadlock | migrations/00_baseline.sql:6232-6235 | and the sale of an aircraft whose loan is settled, which clears that loan's collateral, with a late fee on a row read before |
| AircraftLock.WithoutTheLockAnAircraftIsAssignedTwice | apps/api/internal/engine/routes.go:125-135 | without FOR UPDATE two assignments of one aircraft both commit |
| PlayerClock.WindowsAreSerial | apps/api/internal/engine/simulation.go:282-304 | under any interleaving, failing anywhere, the committed windows tile the time in increasing order, and clock and rows are what the committed windows, checks and settlement statements leave in the order they happened |
| PlayerClock.FailedCallsChangeNothing | apps/api/internal/engine/withtx.go:44-72 | only commits, checks and settlement statements touch the rows and only commits the clock; a call that reports success has the clock at its target or beyond |
| PlayerClock.NoDayIsSettledTwice | apps/api/internal/engine/simulation.go:508-543 | no game day's boundary is begun twice |
| PlayerCalls.OrderlyCallsAreSerial | apps/api/internal/engine/simulation.go:518-543 | whatever windows and settlements do, if each call settles before the next window is read, rows and clock are those of the calls one after another |
| PlayerCalls.SerialExactlyWhenOrderly | apps/api/internal/engine/simulation.go:518-543 | and that is exact: otherwise some windows and settlements leave something else |
| PlayerCalls.CallsAreSerial | apps/api/internal/engine/simulation.go:282-543 | so every such run ends as the committed calls run once each in increasing order |
| PlayerCalls.WindowsPostTheSame | apps/api/internal/engine/simulation.go:307-506 | if no check or settlement of a run touched what windows read, every window posted what it posts when only windows run, whenever the settlements came |
| PlayerRaces.WithoutTheLockAWindowIsPostedTwice | apps/api/internal/engine/simulation.go:282-286 | without the advisory lock the clock's guard does not stop a window from being posted twice |
| PlayerRaces.AloneIsTheDay | apps/api/internal/engine/simulation.go:526-543 | on the engine's own check and day boundary, a call run alone is the window, the check and the day boundary |
| PlayerRaces.AloneRunIsTheDay | apps/api/internal/engine/simulation.go:282-628 | and the run of a call nobody disturbs goes through window, check and the whole day boundary, releases the lock and is done |
| PlayerRaces.LateCheckPaysAnotherWindow | apps/api/internal/engine/simulation.go:526-533 | a run with the lock in which any airline at the bankruptcy threshold is paid for a window its check would have denied |
| PlayerRaces.LateServiceTurnsAMissIntoAPayment | apps/api/internal/engine/dayboundary.go:110-180 | a run with the lock in which a late day boundary pays an installment that, with the calls one after another, would have been missed |
| PlayerRaces.QuietDaysPostTheSame | apps/api/internal/engine/simulation.go:307-543 | for any routes, rents and wear with the engine's check and day boundary: in a run where no check finds the threshold, no last negative day is counted and no aircraft's loan is at its last miss, every window posts what it would without any loans, and the fleet ends the same |
| Cabins.FilledIsPossible | apps/api/internal/engine/simulation.go:754-783 | an allocation never exceeds seats, premium willingness or the pool |
| Cabins.DemandsAreTheShares | apps/api/internal/engine/simulation.go:754-765 | each cabin is asked for by its share of the willing, economy by everybody if nobody is willing |
| Cabins.FilledEarnsMost | apps/api/internal/engine/simulation.go:754-783 | it earns the most of all possible allocations when premium multipliers are at least one |
| Cabins.AllocationIsBest | apps/api/internal/engine/simulation.go:754-783 | the passengers and the revenue reported are those of a possible load, and no possible load brings more |
| Cabins.EarnsMostIff | apps/api/internal/engine/simulation.go:754-783 | and only then: it is best on every aircraft, market and pool if and only if both multipliers are at least one |
| Cabins.MoreIsNeverWorse | apps/api/internal/engine/simulation.go:754-783 | revenue never falls with a larger pool, more seats in any cabin or a higher capacity factor |
| Cabins.SpareSeatsEarnNothing | apps/api/internal/engine/simulation.go:775-783 | once no fitted cabin is short of seats, more of the same seats change nothing |
| Demand.DistanceOnlyThins | apps/api/internal/engine/simulation.go:797-810 | a longer stage never has a larger share, which stays between the least and one |
| Demand.DemandFallsWithPrice | apps/api/internal/engine/simulation.go:822-838 | the pool is between zero and scale times the largest elasticity and never grows with the fare |
| EconomicsProofs.DailyDemandIsTheProduct | apps/api/internal/engine/simulation.go:785-838 | the pool is the scale times both airports' indices, a share on a straight line in the distance, and an elasticity falling with the square of the fare ratio |
| EconomicsProofs.CrewCostFollowsCapacity | apps/api/internal/engine/simulation.go:699-745 | the crew's rate is proportional to capacity between its two bounds |
| EconomicsProofs.WeeklyCapIsWholeFlights | apps/api/internal/engine/simulation.go:366-375 | the weekly limit is the number of whole rounds, flying and turnaround, that the configured hours hold |
| EconomicsProofs.TickSellsAndWears | apps/api/internal/engine/simulation.go:376-487 | a window sells its share of seven days of best possible loads of the daily seats at the route's fares, adds the cargo, and wears the aircraft by what upkeep does not undo |
| EconomicsProofs.RoutePool | apps/api/internal/engine/simulation.go:398-403 | a route asks for the pool of its own airports, distance and fare |
| EconomicsProofs.EventsScaleThePool | apps/api/internal/engine/simulation.go:402-403 | an event multiplies the pool |
| EconomicsProofs.BotsCapAtTheLimit | apps/api/internal/engine/bots_decide.go:215-254 | beyond the limit a bot estimates with as many flights, whole or not, as the limit allows |
| Economics.TickIsTheAssessment | apps/api/internal/engine/assess.go:215-338 | a seven-day tick bills the assessment's weekly figures and leaves its condition, whatever the events |
| Economics.ProfitIsContribution | apps/api/internal/engine/bots_decide.go:215-254 | without events, the bot's weekly profit is the assessment's weekly contribution within the whole-number cap |
| Economics.FurtherFlightsOnlyCost | apps/api/internal/engine/bots_decide.go:215-254 | once no fitted cabin is seat-limited, further flights within the cap lower the profit by exactly a flight's cost each |
| Economics.TargetIsTheLeastThatCovers | apps/api/internal/engine/bots_decide.go:77-99 | the least number of flights whose seats cover the wanted share of demand, or the physical limit |
| Economics.PickBestRouteCandidate | apps/api/internal/engine/bots_decide.go:42-54 | the first most profitable candidate, and none exactly when all are below the minimum |
| Economics.AcceptedSchedulesFlyInFull | apps/api/internal/engine/routes.go:224-233 | a schedule the route commands accept is flown in full by the tick, any other is cut |
| Economics.FlownKeepsToTheLimitIff | apps/api/internal/engine/simulation.go:371-375 | the tick keeps to the weekly limit if and only if the schedule does or the limit is at least one flight |
| Windows.PiecesAddUpIff | apps/api/internal/engine/simulation.go:297-305 | the shares of a week billed for the pieces add up to the whole's exactly for at most a week or a single piece; a longer window bills exactly one week |
| Windows.PiecesAtRates | apps/api/internal/engine/simulation.go:412-487 | however time is cut, every figure is a weekly rate times the billed share, rent is by the day and wear adds up |
| Windows.SplittingIsInvisible | apps/api/internal/engine/simulation.go:412-487 | cutting at most a week into pieces changes no revenue, cost, rent or condition |
| Windows.SplittingShowsInRevenueIff | apps/api/internal/engine/simulation.go:412-427 | of any length, rent never depends on the cut and revenue does exactly beyond a week in several pieces |
| Windows.FlightsAddUp | apps/api/internal/engine/simulation.go:487-487 | reported flights add up over any pieces and are the week's for a week |
| Windows.PostedIsCloseToExact | apps/api/internal/engine/engine.go:118-130 | posting moves the balance by at most half a cent per posting away from the exact amounts |
| Windows.FleetPostingsBring | apps/api/internal/engine/simulation.go:359-506 | however time is cut, all windows of the whole fleet post exactly its schedules' weekly rates times the billed shares, less idle rent by the day |
| Windows.SplittingCostsOnlyRounding | apps/api/internal/engine/simulation.go:359-506 | cutting at most a week into pieces moves the balance by at most half a cent per row posted, six a route and one for idle rent in each window |

## Left out

- HTTP, routing, CORS, proxies, JSON, SQL text, connection pools, logging, JWT, argon2: plumbing around the cores.
- RealtimeClient.RealtimeClient.OnMessage: delivering an event to the registered listeners is not modelled, only what a message does to the connection state.
- RealtimeClient.RealtimeClient.TicketResolved: constructing a socket either succeeds or throws; it does not call back into the client, so the check after it has nothing to find.
- HubMachine.Reachable: pongs are answered outside the hub's mutex as in the source; a slow network, write deadlines and read limits are not modelled.
- HubServer.Hub.Broadcast: the class runs one operation at a time; interleavings with replies, closes and write pumps are in the machine's runs.
- AirlineRuns.RunKeepsAccount: reads that fail, tail numbers, descriptions, dates and seat configurations are not modelled; a command that could not read is one that did nothing.
- Engine.Engine.Simulate: the amounts are given; `ProcessWindow` computes them from the routes.
- Engine.Engine.ProcessWindow: the wear it writes and the clock are in `Windows` and `PlayerClock`, not in the airline's rows.
- Engine.Engine.ServeLoans: no statement of the payment loops fails here; with failures a loan is passed over and may keep its missed count, so the bound on service rounds is for rounds that run.
- LoanProofs.SettledLoansNeverChange: is about commands one after another, each service of the loans as one step; `LoanRace` has the payment loop among other commands. When the aircraft of a paid-off loan is sold the database clears the loan's collateral (`ON DELETE SET NULL`); here the loan keeps the position of an aircraft that is no longer present.
- LoanRace.PaidOffStaysIff: one loop runs at a time, against any number of whole commands; two day boundaries of one player at once are in `PlayerRaces`, with each service as one step.
- LoanProofs.RunKeepsLoanInv: is about commands one after another, and needs repayments in whole cents and policy rates of at most one; the half-cent repayment in `PaymentSettlesIff` shows why.
- LoanTerms.LoansEnd: the loan's own weekly installment must be at least a cent; `FallbackInstallmentCountsIff` says what happens below.
- WealthProofs.NoRunCreatesWealth: debt a default or repossession leaves behind still counts as owed; `ActiveWealthGrowsByDefaults` is the version that drops it.
- AircraftLock.NoDoubleAssignment: bots assign aircraft without the lock (apps/api/internal/engine/bots.go:566-569); they act one after another for their own user and are not callers here. Resetting or deleting an airline and deleting a bot (apps/api/internal/engine/settings.go:50-57, 92-103, apps/api/internal/engine/bots.go:190-205) delete fleet rows too and are not callers either.
- AircraftLock.NeverStuck: knows the aircraft's and the route's row only; the account, the users row, the aircraft model and the foreign-key checks are in `RowLocks`, where they can close a cycle.
- RowLocks.NeverDeadlocksIff: a movement of less than a cent locks no account, and a window without postings starts at the aircraft; neither has a command of its own here. Unique keys, checks against users and airports rows, changing the headquarters, and resetting or deleting an airline are not modelled.
- PlayerClock.WindowsAreSerial: commands of the player between a call's statements are not interleaved, row locks that would delay a settlement are not modelled, and neither is a commit that reports failure after having been stored.
- PlayerRaces.AloneIsTheDay: here each part of the day boundary is one statement, and credit scores and achievements are left out; the theorems about calls hold for any finer sequence of statements.
- PlayerClock.NoDayIsSettledTwice: a process that stops between the commit and the day boundary skips that day, and a window over several days settles one; the bound is from above only.
- Economics.TickIsTheAssessment: viability bands, load factors and per-flight quotients only divide what is proved equal.
- Economics.ProfitIsContribution: beyond the whole-number cap the bot counts fractional flights and the tick does not.
- Windows.SplittingIsInvisible: the set of flying routes is fixed; an aircraft worn below its safety threshold between two pieces stops flying, and the condition column's rounding is not modelled.
- Route creation and repricing apart from their schedule limit, seat reconfiguration, credit scores, achievements, events, retention, snapshots, the balance sheet and the bots' orchestration: small rules or queries around the decisions modelled here.
- Interest rates, economics and conditions are real numbers: float64 rounding beyond cents is not modelled.
