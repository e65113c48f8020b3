# Banking domain: a verified model

This project models the money decisions of the platform's `domain` crate and proves what they promise.
The crate does no I/O and reads no clock; the model keeps its branches, constants and error conditions.
What counts toward a scope's budget and a mandate's daily usage is taken from the queries of its adapter
(`piggybank/core/src/infrastructure`).

| files | component |
|---|---|
| `Base`, `Money`, `Pricing`, `Decimal` | 128-bit arithmetic with a 256-bit multiply and a binary long division, pricing in units and back, decimal text |
| `Ledger`, `Flows`, `Movements` | accounts with posted and pending sides and the non-negative guard; every event's ledger legs, and what they do to every account |
| `Text`, `Keys` | ids, UTF-8, big-endian numbers; the logical keys of accounts |
| `Book`, `Matching`, `Venue`, `VenueSafety`, `VenueRuns`, `Market`, `MarketTotals`, `Placements`, `Deliveries` | orders, price-time matching, and the book of many users with its escrow as one state machine over the ledger: what it accepts, what rests, and who receives what |
| `Holds`, `HoldTimes` | holds on a compartment, their events on a shared ledger, and when they end |
| `Payments`, `Withdrawals`, `Redemptions`, `Clearing`, `SagaStories` | the two-phase sagas, and their interleavings through clearing |
| `Fees`, `FeeAmounts`, `FeeTerms` | assessments and whole runs of them, what they charge exactly, and who may change the terms |
| `Lifecycles` | when each aggregate moves, what it answers, and that nothing expires early |
| `Quorum`, `QuorumRuns`, `Verdicts`, `LostSeats`, `Deadlines` | the owners' consilium: its runs, its verdicts, what lost seats and late votes do to them |
| `Encoding`, `Reading` | the bytes the owners sign, written and read back |
| `Sorting`, `Lines`, `Operations`, `Approvals`, `Showing` | payout lines, operations awaiting an approval, what the approval names, and what an approver reads |
| `Windows`, `Gates`, `Budget`, `Mandates`, `Grants` | rolling 24-hour gates, a scope's budget, mandates and what is drawn under them, and who may open an account |

An object whose methods change its fields is a class here (`OrderRecord`, `Hold`, `PaymentOrder`,
`WithdrawalSaga`, `RedemptionSaga`, `Consilium`, `PendingOperation`, `Buffer`); each method is proved equal
to a pure step, and the properties of whole runs are lemmas about those steps. Loops of the original are
loops here (`LongDivide`, `MatchOrder`, `Deduplicate`, `CheckLines`, `CheckTerms`,
`NewGrants`, `BuildPayload`, `FeePolicySubjectBytes`). What is an expression in the original is a function.

How the parts of the platform outside the crate are represented:

- A ledger is its history: posted transfers and open reservations. Balances are read off it, and an
  operation is admitted when the guarded side stays at or above what is reserved there. A linked chain
  posts whole or not at all, and a leg of zero is not posted.
- The relay applies the legs each event's documentation states, one after the other. In `Flows` any leg
  may post or be refused by itself. In `Clearing` each saga's facts are begun in the order it raised them;
  the legs of a settlement are owed once it has begun, and posted in any order, whatever comes between. In
  `Holds` a hold's events are linked chains, each applied whole and in order, as late as the outbox makes it.
- The adapter keeps each queue of the book best first; the model inserts by price and then arrival, and
  proves the order is kept. A placement is one transaction: any refusal leaves the venue as it was.
- A seller who is the taker pays the fee out of the claim the proceeds were just posted to.
- Figures a gate reads are the sums of the log it gates; requests arrive in order of time, and the
  window is the 24 hours up to and including the moment of the request. Entries may later count for
  less, as a failed move or a released hold does.
- A payout decision of a scope counts against its budget as long as it is live and for a day from its
  execution. One that is flagged over the budget goes to the owners: it counts until it does, and is
  never one that leaves without them.
- Losing a seat marks a recorded vote as not counting; nothing re-tallies until the next vote.

Where the code and its own documentation differ, the model follows the code:

- `parse_logical_key` is documented to refuse every string the printer cannot produce. It trims service
  ids and reads ids in upper case, without hyphens, in braces and as a URN; `Keys.ReadKeyIsPrintedIff` gives
  the exact condition, `Keys.PaddedServiceIsRead` and `Keys.OtherUserFormsAreRead` inputs.
- Early rejection in a consilium is documented to spare the owners a request that already failed. With
  lost seats it can be missed: `LostSeats.VoteMissesIff` says by which votes exactly, and
  `LostSeats.LosingASeatNeverDecides` what losing a seat does by itself;
  `Verdicts.StuckWithEverySeatAnswered` is a run that ends so.
- A consilium's window is documented as the limit of execution, but `record_vote` does not compare the
  time with it; only a recorded expiry refuses a vote. `Deadlines.LateVotesExecute` is a run executed after
  its window, and `Deadlines.VerdictIsAsLateAsItsVote` says exactly when a verdict is late.
- A decimal amount without a digit before the point is refused although it has digits
  (`Decimal.NoLeadingPoint`). The length of its fraction is compared in 32 bits, so fractions of 2^32 digits
  and more can pass: `Decimal.ReadsIff` says what is read on every text, `Decimal.OnlySpellingsAreRead` when
  that is what it spells, and `Decimal.TheSmallestWrappedFraction` is an input.
- A fill that overflows a running total leaves the filled size changed although it answers an error,
  exactly under the condition of `Book.RefusedFillChangesIff`; `Book.RefusedFillCounts` is an input.
- A mandate's daily cap is described over everything drawn. Captures of holds placed a day ago or earlier
  count against the next draw but are never compared with the cap themselves:
  `Mandates.OldCapturesPassTheCap` is a run past it, `Mandates.DrawnWithinTheCapIff` the exact condition over
  all runs, and `Mandates.DebitsAreBounded` the bound that always holds.

## Model

| member | source | states |
|---|---|---|
| `Money.WideningMul` | domain/src/money.rs:470-486 | the two halves are the exact 256-bit product of any two 128-bit numbers: no carry is lost |
| `Money.LongDivide` | domain/src/money.rs:500-519 | the bitwise loop returns the exact floor of a 256-bit dividend, the step whose register wraps past the top bit included |
| `Money.MulDiv` | domain/src/money.rs:492-519 | `mul_div_floor` answers the floor of a*b/d on every input, and nothing exactly when d is zero or the quotient needs more than 128 bits |
| `Money.FloorUnique` | domain/src/money.rs:490-519 | the floor is the only quotient with a remainder below the divisor, which is what the loop is shown to compute |
| `Money.QuotientFits` | domain/src/money.rs:497-499 | a high half below the divisor is exactly when the quotient fits 128 bits |
| `Pricing.UnitsAndBackNeverGain` | domain/src/money.rs:311-365 | cash priced into units and back never gains, and loses less than one unit's price plus one base unit |
| `Pricing.HoldersNeverOutvalueTheFund` | domain/src/money.rs:350-365 | redeeming every holder at the NAV derived from the assets never costs more than those assets |
| `Pricing.CustodyEdgeRoundTrip` | domain/src/money.rs:191-206 | reading an on-chain amount and writing one are mutually inverse wherever they answer, on every network |
| `Pricing.WholeTokensAreWholeUsdt` | domain/src/money.rs:46-57 | so many whole tokens, of eighteen decimals on BEP20 and six on the other networks, are so many whole USDT, both ways |
| `Pricing.DustIff` | domain/src/money.rs:197-206 | an amount is dust exactly when it is no multiple of 10^12, and never on BEP20 |
| `Pricing.PricesAreFloors` | domain/src/money.rs:311-365 | cash for units, units for cash and NAV from assets are the exact quotients with the fraction dropped, and refused exactly when those do not fit or nothing divides |
| `Decimal.DecimalRoundTrip` | domain/src/money.rs:212-255 | reading back a printed amount is the identity for every 128-bit amount |
| `Decimal.PrintingIsInjective` | domain/src/money.rs:245-255 | two amounts never print alike |
| `Decimal.PrintsShortest` | domain/src/money.rs:245-255 | an amount prints without zeros before its first digit or after its last, and without a point when it is whole |
| `Decimal.ReadsExactly` | domain/src/money.rs:212-241 | text spelling a decimal number is read as exactly that number in units of 10^-18, or refused when it does not fit |
| `Decimal.ReadsIff` | domain/src/money.rs:212-241 | on every text: it is read as n exactly when its two halves are digits, the first not empty, the length of the second at most eighteen in its last 32 bits, and they come to n |
| `Decimal.OnlySpellingsAreRead` | domain/src/money.rs:221-231 | what is read spells a number with at most eighteen digits after the point exactly when its fraction is shorter than 2^32 digits |
| `Decimal.TheSmallestWrappedFraction` | domain/src/money.rs:228-230 | a number with 2^32 decimal places, below 10^-18, is read as 10^-18 |
| `Decimal.NoLeadingPoint` | domain/src/money.rs:221-234 | a number without a digit before the point is refused, whatever follows |
| `Ledger.PostedIff` | domain/src/balance.rs:377-387 | a transfer is posted exactly when it moves something between two accounts of one ledger and keeps every guard |
| `Ledger.ApplyKeepsGuard` | domain/src/balance.rs:377-387 | every operation the ledger accepts, posted or pending, leaves every guarded account at or above what is reserved on it |
| `Ledger.ChainKeepsGuard` | domain/src/balance.rs:377-387 | so does every linked chain of operations |
| `Flows.EveryPlanIsSound` | domain/src/balance.rs:253-257 | every event that moves money, whatever its kind, moves it claim to claim, custody to claim, or within one product's units |
| `Movements.FactsDoWhatTheySay` | domain/src/balance.rs:253-257 | whatever fact posts, every account changes by exactly what the fact gives or takes, in units and in money, beside the reservation it settles |
| `Movements.PaymentMovesTheAmount` | domain/src/payments.rs:954-1004 | a settled payment moves its amount from the payer to the payee and changes no other account |
| `Movements.WithdrawalMovesTheAmount` | domain/src/withdrawals.rs:448-479 | a settled withdrawal takes its amount from the owner, the net out of the network's wallet, and the fee to its payee |
| `Movements.RedemptionMovesBoth` | domain/src/redemptions.rs:214-276 | a settled redemption burns the user's units and pays the cash out of the fund |
| `Flows.CustodyEqualsClaims` | domain/src/balance.rs:43-48 | after every single leg of any interleaving of any facts, refused legs skipped, posted custody equals posted claims, summed over all accounts the ledger has touched |
| `Flows.SupplyEqualsHoldings` | domain/src/balance.rs:539-549 | after every single leg, a product's supply is what its users, their escrows on the book and its fee class hold |
| `Flows.NoAccountIsNegative` | domain/src/balance.rs:377-387 | after every single leg, no account is below what is reserved on it, and nothing is posted on the hold clearing account |
| `Flows.WholeFactsKeepTheBooks` | domain/src/balance.rs:43-48 | both equalities where facts apply whole or are parked, as a special case |
| `Flows.AccountsAreListed` | domain/src/balance.rs:43-48 | the accounts the totals run over are every account of the class the history has touched, each once |
| `Flows.SumIsClassNet` | domain/src/balance.rs:43-48 | over any other list of the whole class the total is the same |
| `Flows.WalletsAreCustody` | domain/src/balance.rs:650-668 | the wallets of the four networks are all of custody |
| `Keys.KeyRoundTrip` | domain/src/balance.rs:592-701 | reading back a logical key is the identity for every account key that can be built, labels with colons included |
| `Keys.KeysAreInjective` | domain/src/balance.rs:592-608 | no two accounts share a logical key |
| `Keys.KeySpells` | domain/src/balance.rs:592-608 | every key spells the word of its kind and then what it names |
| `Keys.ReadKeysAreBuildable` | domain/src/balance.rs:660-701 | whatever key is read names an account there may be, and no compartment of `main` |
| `Keys.ServiceIdIff` | domain/src/balance.rs:67-77 | a service id is one to 64 letters, digits, hyphens and underscores |
| `Keys.ScopeIdIff` | domain/src/scopes.rs:34-50 | a scope id is one to 32 lower-case letters, digits and underscores, a letter first |
| `Keys.LabelIff` | domain/src/scopes.rs:85-100 | a label is one to 64 lower-case letters, digits and the four marks of its alphabet |
| `Keys.ReadKeyIsPrintedIff` | domain/src/balance.rs:660-709 | the parser reads more than is printed: a key that reads is its account's printed form exactly when it holds no whitespace and its user, if its kind has one, is 36 characters in lower case |
| `Keys.PaddedServiceIsRead` | domain/src/balance.rs:68-77 | a service padded with a space reads as that service, against the parser's own comment |
| `Keys.OtherUserFormsAreRead` | domain/src/balance.rs:705-709 | a user written without hyphens, in braces or as a URN reads as that user, and is not what is printed |
| `Text.UuidRoundTrip` | domain/src/balance.rs:705-709 | the hyphenated form of an id reads back as that id |
| `Book.TakerFeeBound` | domain/src/book.rs:537-541 | the taker fee always exists and is the rate on the notional at most, so never more than the notional |
| `Book.TakerFeeIsTheRate` | domain/src/book.rs:537-541 | the taker fee is the rate on the notional with the fraction of a base unit dropped |
| `Book.BuyReserveIs` | domain/src/book.rs:543-552 | a buy commits its notional at the limit and the fee on it, and is refused exactly when they do not fit |
| `Book.MarketLimitReachesBest` | domain/src/book.rs:557-568 | a market order's derived limit always reaches the quote it was priced from |
| `Book.MarketLimitIsTheSlippage` | domain/src/book.rs:557-568 | a market order's limit is the tick at or above the quote with the slippage for a buy, at or below it for a sell |
| `Book.NoMarketLimitIff` | domain/src/book.rs:557-568 | there is no limit exactly when that tick is nothing or the quote with the slippage does not fit |
| `Book.OrderRecord.Fill` | domain/src/book.rs:726-743 | a fill changes the record as the pure step does, the running size kept even where a later total overflows |
| `Book.RefusedFillChangesIff` | domain/src/book.rs:726-743 | a fill is refused and yet changes the order exactly when the order rests, the size is positive and within what is left, its value exists, and the running notional or fee no longer fits 128 bits |
| `Book.RefusedFillCounts` | domain/src/book.rs:734-741 | an order just placed, and two fills of which the second is refused and counted as filled |
| `Book.OrderRecord.Cancel` | domain/src/book.rs:748-758 | a cancel changes the record as the pure step does and is refused unless the order rests |
| `Book.ReserveCoversEveryHistory` | domain/src/book.rs:546-772 | for every sequence of fills within size and limit, each charged at most the floored fee, all are accepted and spent plus released equals reserved at the end |
| `Matching.MatchOrder` | domain/src/book.rs:925-965 | the engine's loop computes the walk of the queue |
| `Matching.AcceptedMatchIsBest` | domain/src/book.rs:925-965 | an accepted match trades all it can, follows the queue consuming every maker but the last, never trades with its own side, fills nothing when post-only, and no other take of the same units from crossing makers is cheaper |
| `Matching.RefusedIff` | domain/src/book.rs:925-955 | an order is refused exactly when the walk reaches its own taker's order or, post-only, any maker |
| `Matching.LeftoverConsumesCrossing` | domain/src/book.rs:925-965 | when something is left over, every crossing maker was consumed whole |
| `VenueSafety.RecordFillRefusedIff` | domain/src/book.rs:726-743 | a matched fill is refused by the orders exactly when the seller's running notional, or the fee of a selling taker, no longer fits 128 bits |
| `VenueRuns.LedgerSettlesWhatOrdersAccept` | domain/src/book.rs:984-1033 | the ledger never refuses a trade the orders accepted: each fill, fee and release leg is covered by escrow |
| `Market.PlacementGoesThrough` | domain/src/book.rs:984-1033 | once the taker's lock is posted and the orders accept the fills, trades and releases all post and the venue is valid again |
| `Placements.PlaceAcceptedIff` | piggybank/core/src/application/book.rs:207-275 | a placement is accepted exactly on an open book, for a positive number of lots, under a new id, with a price on a tick or a best quote to take one from, when the taker has what it commits, meets no maker it must not trade with, and the totals fit |
| `Placements.RestsIff` | domain/src/book.rs:956-965 | after an accepted placement the order is on the book exactly when it is a limit order, not immediate, and the units against it at its price come to less than its size; it then rests under its own terms with exactly the rest |
| `Placements.OthersRestIff` | domain/src/book.rs:726-743 | every order that rested gains what the fills take from it, keeps its place with the rest, and leaves exactly when nothing is left |
| `Placements.NothingElseRests` | domain/src/book.rs:984-1033 | and nothing else comes onto the book |
| `Placements.CancelledFor` | domain/src/book.rs:248-256 | an order that may not rest is cancelled as an immediate order's rest, or a market order's, exactly when it was not filled |
| `Placements.OnlyLimitOrdersRest` | domain/src/book.rs:956-965 | in every run from an empty book no market order and no immediate order ever rests |
| `Deliveries.PlacementIsPriced` | domain/src/book.rs:925-965 | an accepted placement's order has traded at the prices of its fills and is charged the fee on each |
| `Deliveries.PlacementDelivers` | domain/src/book.rs:1000-1014 | an accepted placement changes what every user has of a product, every user's money and the fee allocation's by exactly what the orders' filled sizes, notionals and fees moved |
| `Deliveries.EveryoneIsPaid` | domain/src/book.rs:984-1033 | in every run: each user has what the rest of the platform gave them, with what their orders bought and were paid and without what they sold, cost and were charged; the fee allocation has every fee |
| `Deliveries.CancelRecords` | domain/src/book.rs:748-758 | an accepted cancel takes one order off the book as far as it had come, at its owner's request |
| `Market.CancelKeepsValid` | domain/src/book.rs:748-772 | a cancel is refused exactly when the order is not the user's or not resting, and takes that order away alone |
| `Market.EveryRunIsSafe` | domain/src/balance.rs:561-574 | in every run of placements, cancels and other ledger activity over many users: escrow balances equal what resting orders still commit, queues are sorted by price then arrival, remainders are positive, best bid is below best ask, no guarded account is negative |
| `MarketTotals.PlacementConserves` | domain/src/book.rs:984-1033 | a placement, however many trades it makes, changes no total of claims and no total of holdings of any product |
| `MarketTotals.CancelConserves` | domain/src/book.rs:1015-1033 | neither does a cancel |
| `Holds.Hold.Capture` | domain/src/scope_ledger.rs:891-931 | a capture changes the hold and raises the event the pure step does: part leaves a new reservation, all leaves none |
| `Holds.Hold.Void` | domain/src/scope_ledger.rs:937-942 | a void by the client releases what is left, or expires a hold already due |
| `Holds.Hold.Expire` | domain/src/scope_ledger.rs:945-948 | a hold expires only when due |
| `Holds.Hold.Release` | domain/src/scope_ledger.rs:958-974 | a release raises the event naming the reservation then standing |
| `Holds.EveryHoldReplays` | domain/src/scope_ledger.rs:822-1031 | over every run from placement, replaying the events names only standing reservations and leaves exactly the one numbered `pending_version` worth what remains while active; captured, released and remaining add up to the amount |
| `Holds.HoldEventsAreNeverRefused` | domain/src/scope_ledger.rs:891-1031 | no event of a standing hold is ever refused by the ledger |
| `Holds.HoldStandsThroughAnyRun` | domain/src/scope_ledger.rs:990-1031 | however a hold's commands interleave with the relay of its events and with everything else the ledger does: once its placement has posted no event of it is refused, and whenever none waits its one reservation stands for what remains while active and none does afterwards |
| `Holds.PlacementStands` | domain/src/scope_ledger.rs:822-838 | a placement is accepted exactly when the compartment covers it, and then stands |
| `HoldTimes.PlacedIff` | domain/src/scope_ledger.rs:822-838 | a hold may be placed for any positive amount in any scope but `main`, and holds all of it |
| `HoldTimes.CaptureAcceptedIff` | domain/src/scope_ledger.rs:884-931 | after any run a capture is accepted exactly for someone else than the held user, of a positive part of what is left, before the end set; it moves that part there and leaves the rest |
| `HoldTimes.CaptureRefusedFor` | domain/src/scope_ledger.rs:891-907 | and is refused for the first of its faults |
| `HoldTimes.VoidReleases` | domain/src/scope_ledger.rs:937-942 | after any run a void releases all that is left, as an expiry exactly when the end has come |
| `HoldTimes.ExpiryReleasesIff` | domain/src/scope_ledger.rs:944-948 | after any run the reaper releases all that is left exactly when the end has come |
| `HoldTimes.EndsWhenSet` | domain/src/scope_ledger.rs:882-948 | over every run a release is an expiry exactly from the end on, and nothing is captured from it on |
| `HoldTimes.EventsAreRaised` | domain/src/scope_ledger.rs:822-974 | and the events of a run are the placement and what its commands raised, none else |
| `Payments.PaymentOrder.Approve` | domain/src/payments.rs:677-703 | approval enters the state, records the requirement and, on the ledger tiers, raises the reservation |
| `Payments.PaymentOrder.Reject` | domain/src/payments.rs:707-712 | a rejection is one-shot, idempotent, and only from pending |
| `Payments.PaymentOrder.Expire` | domain/src/payments.rs:716-724 | an order never expires early |
| `Payments.PaymentOrder.Cancel` | domain/src/payments.rs:727-732 | a cancel is one-shot, idempotent, and only from pending |
| `Payments.PaymentOrder.MarkExecuted` | domain/src/payments.rs:742-775 | execution is recorded once, with the effect the tier allows, and raises the settlement of a ledger tier |
| `Payments.PaymentOrder.MarkFailed` | domain/src/payments.rs:782-812 | a failed execution releases the reservation of a ledger tier |
| `Payments.EveryOrderTellsOneStory` | domain/src/payments.rs:677-1021 | over every run a ledger-tier order relays nothing, a reservation, a reservation and its settlement, or a reservation and its release, by the state reached; an external one relays nothing |
| `Payments.RelayedExactly` | domain/src/payments.rs:1009-1021 | an event reaches the ledger exactly when it is one of the three that move money |
| `Payments.TerminalStays` | domain/src/payments.rs:819-827 | a terminal order stays as it is and raises nothing, whatever is asked of it |
| `Lifecycles.PaymentAnswers` | domain/src/payments.rs:677-812 | a command moves an order exactly where it may, announces that once, and answers success exactly when the order is then in the command's state, an execution with its effect |
| `Lifecycles.PaymentRecords` | domain/src/payments.rs:677-812 | a move records its time, its effect or its reason, and counts each event |
| `Lifecycles.PaymentTermsIff` | domain/src/payments.rs:379-460 | which payments are acceptable, whose approval each needs, and its tier |
| `Lifecycles.PaymentOpens` | domain/src/payments.rs:600-640 | an order opens awaiting its decision, and says what it needs, where it goes and when it ends |
| `Lifecycles.NoPaymentExpiresEarly` | domain/src/payments.rs:714-724 | over every run no order expires before its window has passed |
| `Withdrawals.FeeNeverRefuses` | domain/src/withdrawals.rs:147-270 | with the fee its source pays, a withdrawal is refused for its network, its minimum or its dust, and nothing else |
| `Lifecycles.WithdrawalAcceptedIff` | domain/src/withdrawals.rs:147-270 | a withdrawal is accepted exactly on the address's network, of two USDT or more, with a net the network can express; a user's fee is one USDT and the treasury's nothing |
| `Lifecycles.WithdrawalAnswers` | domain/src/withdrawals.rs:293-379 | it leaves the queue by dispatch or cancel and processing by settlement or failure, and answers success exactly when it is then in the command's state |
| `Withdrawals.WithdrawalSaga.Dispatch` | domain/src/withdrawals.rs:293-311 | dispatch only from the queue, idempotent |
| `Withdrawals.WithdrawalSaga.Settle` | domain/src/withdrawals.rs:316-338 | settlement only in processing, idempotent, recording the reference |
| `Withdrawals.WithdrawalSaga.Fail` | domain/src/withdrawals.rs:341-360 | failure only in processing, idempotent |
| `Withdrawals.WithdrawalSaga.Cancel` | domain/src/withdrawals.rs:363-379 | a cancel only in the queue, idempotent |
| `Withdrawals.EveryWithdrawalTellsOneStory` | domain/src/withdrawals.rs:238-503 | over every run a withdrawal relays its reservation and at most one of its settlement and its refund; its net is positive and never dust |
| `Redemptions.RedemptionSaga.Settle` | domain/src/redemptions.rs:133-157 | settlement prices the units at the NAV of that moment, refuses a zero payout, and is one-shot |
| `Redemptions.RedemptionSaga.Fail` | domain/src/redemptions.rs:160-176 | failure only in the queue, idempotent |
| `Redemptions.RedemptionSaga.Cancel` | domain/src/redemptions.rs:179-194 | a cancel only in the queue, idempotent |
| `Redemptions.EveryRedemptionTellsOneStory` | domain/src/redemptions.rs:92-276 | over every run a redemption relays its pending burn and at most one of its settlement and its release, and pays the floored value of the units at one NAV, never zero |
| `Redemptions.SubscriptionNeverPaysBackMore` | domain/src/subscriptions.rs:48-75 | buying and redeeming at one NAV never pays back more than was paid in |
| `Lifecycles.SubscriptionBuys` | domain/src/subscriptions.rs:48-75 | a subscription buys the floored units its cash comes to, and is refused exactly when that is nothing or does not fit |
| `Lifecycles.RedemptionAskedIff` | domain/src/redemptions.rs:92-110 | a redemption may be asked for any positive number of units, and holds those |
| `Lifecycles.RedemptionAnswers` | domain/src/redemptions.rs:133-194 | it settles exactly from the queue at a price at which the units are worth at least one base unit that fits, paying that, and answers success exactly when it is then in the command's state |
| `Clearing.ClearingHoldsExactlyWhatIsInFlight` | domain/src/payments.rs:954-1004 | under any interleaving of payments, withdrawals and redemptions, of their single legs and of anything else: clearing holds exactly what begun settlements still owe, what is pending into it is exactly what the sagas that ever raised a fact have in flight, and no account is overdrawn |
| `Clearing.WholeFactIsItsLegs` | domain/src/payments.rs:964-990 | a settlement the ledger takes as a whole is a run of its legs after which nothing is owed |
| `Clearing.EndingFindsItsReservation` | domain/src/withdrawals.rs:448-497 | when a saga's ending is due, its reservation stands and is the one its opening made |
| `Clearing.ReleasesAreNeverRefused` | domain/src/withdrawals.rs:480-497 | a release that is due is never refused |
| `SagaStories.PlansAgree` | domain/src/payments.rs:954-1004 | the saga facts and the platform's facts are the same ledger operations |
| `SagaStories.PaymentsTellStories` | domain/src/payments.rs:677-827 | what the events of every run of a payment order tell the ledger is one of the stories the clearing system admits |
| `SagaStories.WithdrawalsTellStories` | domain/src/withdrawals.rs:238-379 | so is what the events of every run of a withdrawal tell |
| `SagaStories.RedemptionsTellStories` | domain/src/redemptions.rs:92-194 | so is what the events of every run of a redemption tell |
| `SagaStories.PaymentSettlementsAreNeverRefused` | domain/src/payments.rs:964-990 | a payment's settlement over its standing reservation always posts |
| `SagaStories.WithdrawalSettlementTakesTheNet` | domain/src/withdrawals.rs:466-479 | a withdrawal's settlement is refused only by a short rail, and takes exactly gross minus fee out of custody |
| `Fees.ChargeAddsUp` | domain/src/fees.rs:583-637 | new fees plus carried debt equal what is charged plus what is carried; at most what is collectable is taken; a charge whose units are all collectable leaves less than one unit's price plus one base unit owed |
| `FeeAmounts.ManagementIsTheRate` | domain/src/fees.rs:649-666 | the management fee of every assessment is the rate on its base, the cash put in or the units' worth, for the time elapsed, with the fraction of a base unit dropped |
| `FeeAmounts.ManagementIgnores` | domain/src/fees.rs:98-105 | on invested capital it is the same at every price, on market value for every cost basis |
| `FeeAmounts.AllManagementFees` | domain/src/fees.rs:649-666 | over every run all management fees are what the bases earned, short of at most one base unit an assessment |
| `FeeAmounts.PerformanceIsTheRate` | domain/src/fees.rs:583-691 | the performance fee is the rate on the rise over the lifted mark on the units it covers, floored twice; it is taken at exits and once the period has passed, and the mark then rises with a scheduled one |
| `FeeAmounts.CollectedIs` | domain/src/fees.rs:612-637 | an assessment takes the units what is due comes to, as far as they may be collected, and carries the rest |
| `Fees.PerformanceWithinGain` | domain/src/fees.rs:668-691 | a performance fee is at most the rate on the gain over the mark, and nothing without one |
| `Fees.DebtIsConserved` | domain/src/fees.rs:583-637 | over any run, opening debt plus all fees equals all charged cash plus closing debt |
| `Fees.NoGainIsChargedTwice` | domain/src/fees.rs:583-691 | over any run of scheduled assessments that store the mark, all performance fees together are at most the rate on the rise of the mark, hurdle included, and the mark never falls |
| `Fees.ExitsChargeNoGainTwice` | domain/src/fees.rs:510-637 | with redemptions in the run too, all performance fees are at most the rate on the starting units times the rise to the highest price |
| `FeeTerms.New` | domain/src/fees.rs:208-225 | terms are accepted exactly within the three caps |
| `FeeTerms.AdministratorsMayIff` | domain/src/fees.rs:272-342 | what one administrator may change alone: no lower hurdle, and terms within two and twenty on invested capital yearly or no dearer in any leg |
| `FeeTerms.TwoChangesAreOne` | domain/src/fees.rs:331-342 | two administrator's changes in a row add up to one |
| `FeeTerms.AdministratorsNeverDrift` | domain/src/fees.rs:278-342 | administrators reach terms by any number of changes exactly when one change would have been allowed |
| `FeeTerms.RunKeepsTheBargain` | domain/src/fees.rs:278-342 | over any run of administrator's changes no rate ends above both its start and the house rate, the hurdle never falls, crystallization is never more frequent, and the mark is the basis only if it was at the start |
| `FeeTerms.FromNothingStaysInTheEnvelope` | domain/src/fees.rs:272-342 | from a product without terms, administrators alone never leave the house envelope |
| `Quorum.Deduplicate` | domain/src/consilium.rs:554-559 | the roster is the owners once each, in order of first mention |
| `Quorum.OpenConsilium` | domain/src/consilium.rs:553-602 | opening answers and builds what the pure step does |
| `Quorum.Consilium.RecordVote` | domain/src/consilium.rs:650-681 | a vote is validated in order, recorded once, and settled at once; a repeat is a no-op and a change a conflict |
| `Quorum.Consilium.SettleTally` | domain/src/consilium.rs:687-696 | the tally decides at the threshold, or when the threshold is out of reach |
| `Quorum.Consilium.Decide` | domain/src/consilium.rs:698-723 | a decision sets the state and the time and raises its one event |
| `Quorum.Consilium.CloseOpen` | domain/src/consilium.rs:753-762 | closing is idempotent, and a conflict from any other state |
| `Quorum.Consilium.Cancel` | domain/src/consilium.rs:738-740 | a withdrawal closes an open consilium |
| `Quorum.Consilium.Expire` | domain/src/consilium.rs:744-749 | a consilium never expires early |
| `Quorum.Consilium.MarkExecuted` | domain/src/consilium.rs:767-782 | execution is recorded once; a different effect is a conflict |
| `Quorum.Consilium.MarkExecutionFailed` | domain/src/consilium.rs:786-797 | a failed execution is terminal |
| `QuorumRuns.OpensOverTheRoster` | domain/src/consilium.rs:553-602 | a consilium opens exactly for one of at least three distinct owners; the seats are all the others once each, and the threshold is the least strict majority of all owners and within the seats' reach |
| `QuorumRuns.ExecutionNeedsTheQuorum` | domain/src/consilium.rs:650-797 | after any run with seats lost on the way, an approved or executed consilium has the recorded approval of more than half of all owners, the initiator not among them |
| `QuorumRuns.TerminalIsFinal` | domain/src/consilium.rs:738-797 | a terminal consilium never changes again |
| `Lifecycles.VoteAnswers` | domain/src/consilium.rs:650-681 | a vote answers success exactly when the seat's answer is then on the record, and otherwise the first of its faults |
| `Lifecycles.QuorumAnswers` | domain/src/consilium.rs:738-797 | a closing or an execution moves a consilium exactly where it may, and answers success exactly when it is then in that state |
| `Lifecycles.NoConsiliumExpiresEarly` | domain/src/consilium.rs:742-749 | over every run none expires before its three days have passed |
| `QuorumRuns.LogTellsEveryRun` | domain/src/consilium.rs:698-802 | replaying the raised events from the opening never meets one that cannot follow and arrives at the state, the answers in order, the time, the effect and the reason held |
| `Verdicts.CompletionDecides` | domain/src/consilium.rs:650-696 | from any open consilium whose votes all count, every completion of the ballot ends approved or rejected by the count alone |
| `Verdicts.OrderDoesNotMatter` | domain/src/consilium.rs:650-696 | for any set of approving seats, every order of casting ends approved exactly when they are more than half of all owners, rejected otherwise |
| `Verdicts.DecidedExactlyWhenSettled` | domain/src/consilium.rs:687-696 | while every vote counts, the consilium is open exactly when the silent seats could still bring either verdict: the verdict is recorded at the first vote after which nothing could change it |
| `Verdicts.RejectionIsSound` | domain/src/consilium.rs:687-696 | with seats lost, an early rejection is still one no further answers could have undone |
| `Verdicts.LastVoteStaysOpenIff` | domain/src/consilium.rs:687-696 | with seats lost, the last vote leaves the consilium open exactly when the approvals miss the threshold by no more than the voided answers |
| `LostSeats.VoteMissesIff` | domain/src/consilium.rs:683-696 | any recorded vote, whatever seats were lost before it, leaves the consilium open and out of reach of every completion exactly when the approvals fall short even with all silent seats and would not with the voided answers |
| `LostSeats.NothingVoidedNothingMissed` | domain/src/consilium.rs:683-696 | while every vote counts no vote misses a rejection |
| `LostSeats.LosingASeatNeverDecides` | domain/src/consilium.rs:505-516 | losing a seat never decides by itself, and puts an open consilium out of reach exactly when the voter's approval counted and was needed |
| `Deadlines.VerdictIsAsLateAsItsVote` | domain/src/consilium.rs:47-50 | over every run, a verdict by votes is dated within the window exactly when the vote that decided it was cast within it |
| `Deadlines.VotesInTimeDecideInTime` | domain/src/consilium.rs:650-681 | so with no vote past the window there is no late verdict |
| `Deadlines.TheMissingApprovalCarriesAtAnyTime` | domain/src/consilium.rs:650-696 | from any open consilium a silent seat's approval carries it exactly when it was one short, at whatever time |
| `Deadlines.LateVotesExecute` | domain/src/consilium.rs:650-782 | a run of three owners approved and executed after its window |
| `Verdicts.StuckWithEverySeatAnswered` | domain/src/consilium.rs:505-516 | a run of three owners that ends open with every seat answered |
| `Encoding.Buffer.PushField` | domain/src/lib.rs:55-58 | a field is its 64-bit length and its bytes |
| `Encoding.FieldIsDelimited` | domain/src/lib.rs:47-58 | a field ends where its length says, whatever follows it |
| `Encoding.PaymentTermsBytes` | domain/src/payments.rs:493-513 | the bytes of payment terms |
| `Encoding.PaymentSubjectBytes` | domain/src/payments.rs:551-557 | the bytes of a payment as the owners decide it |
| `Encoding.ValuationOverrideBytes` | domain/src/consilium.rs:226-232 | the bytes of a valuation override |
| `Encoding.FeePolicySubjectBytes` | domain/src/fees.rs:460-481 | the bytes of a change of fee terms, both policies behind a presence byte |
| `Encoding.HolderGrantBytes` | domain/src/consilium.rs:268-275 | the bytes of a holder grant |
| `Encoding.SeedCapitalBytes` | domain/src/consilium.rs:312-320 | the bytes of a seed attribution |
| `Encoding.CanonicalBytes` | domain/src/consilium.rs:367-375 | the bytes the owners' hash is taken over, by kind |
| `Encoding.TermsAreInjective` | domain/src/payments.rs:487-513 | payment terms and their reason are named by their bytes |
| `Encoding.SubjectsAreInjective` | domain/src/consilium.rs:358-375 | equal bytes are the same kind and the same terms field by field, over all five kinds together |
| `Reading.PaymentReads` | domain/src/payments.rs:493-557 | read by the documented layout, prefix by prefix and field by field, a payment's bytes are its id, payer, destination, amount and reason |
| `Reading.ValuationReads` | domain/src/consilium.rs:226-232 | a valuation override's are the product and its assets |
| `Reading.FeePolicyReads` | domain/src/fees.rs:460-481 | a change of terms' are its id, the product, both policies with their presence, the reason and the time |
| `Reading.GrantReads` | domain/src/consilium.rs:268-275 | a holder grant's are the allocation, the user and the units |
| `Reading.SeedReads` | domain/src/consilium.rs:312-320 | a seed attribution's are the transaction, the network, the depositor and the amount |
| `Lines.CheckLines` | domain/src/scope_operations.rs:52-74 | lines are accepted, with their total, exactly when there are one to a thousand, each plain and positive, no subject twice, and the total fits |
| `Lines.CanonicalIsInjective` | domain/src/scope_ledger.rs:541-543 | a list of fields is named by its canonical text, whatever the fields hold |
| `Lines.CanonicalLinesNameTheSet` | domain/src/scope_operations.rs:79-83 | the idempotency key ignores the order of lines and nothing else |
| `Lines.DigestInputNamesTheSet` | domain/src/scope_operations.rs:89-93 | of accepted lines, the digest's input ignores their order and nothing else |
| `Sorting.AtMostIff` | domain/src/scope_operations.rs:768-781 | the order of keys and lines is bytewise: a text comes first exactly when it begins the other or is smaller in the first byte that differs |
| `Operations.BuildPayload` | domain/src/scope_operations.rs:768-781 | the payload is the header and one line per field in the order of the keys |
| `Operations.PendingOperation.LeaveAwaiting` | domain/src/scope_operations.rs:979-991 | an operation leaves awaiting once |
| `Operations.PendingOperation.MarkExecuted` | domain/src/scope_operations.rs:957-961 | an execution is recorded with its result, only while awaiting |
| `Operations.PendingOperation.MarkRejected` | domain/src/scope_operations.rs:965-969 | a refusal is recorded with its reason, only while awaiting |
| `Operations.PendingOperation.MarkFailed` | domain/src/scope_operations.rs:972-976 | a failure is recorded with its reason, only while awaiting |
| `Operations.FirstDecisionStands` | domain/src/scope_operations.rs:957-991 | of any decisions the first is the only one |
| `Lifecycles.FirstDecisionIs` | domain/src/scope_operations.rs:957-991 | the first decision enters its own state and keeps its own result or reason |
| `Lifecycles.OnlyTheFirstSucceeds` | domain/src/scope_operations.rs:979-991 | and is the only one answered with success |
| `Showing.RequestAcceptedIff` | domain/src/scope_operations.rs:794-850 | an operation is taken exactly within every rule on its accounts, lines and amounts, and its amount is what it moves in all |
| `Showing.WhatIsShownIsTrue` | domain/src/scope_operations.rs:880-954 | what the approvers are shown is true: accounts, total, recipients, the largest line, flags and the only recipient |
| `Showing.RowsAreWhatIsShown` | domain/src/scope_operations.rs:471-490 | each thing shown has its row, under its own name and type, and nothing else has one |
| `Showing.PayloadReads` | domain/src/scope_operations.rs:768-781 | the payload cut at its newlines is four lines that name the operation and exactly those rows, sorted by name |
| `Approvals.PayloadNamesWhatIsShown` | domain/src/scope_operations.rs:768-781 | equal payloads show the same kind, scope, operation and every field |
| `Approvals.PayloadNamesTheOperation` | domain/src/scope_operations.rs:880-954 | with a digest that does not collide, equal payloads are the same operation, kind, client, scope, source account, and set of lines and flags or destination and amount |
| `Windows.GateBoundsEveryDay` | domain/src/scopes.rs:347-351 | a gate on the trailing day bounds every window of a day by the largest cap its entries were admitted under, over every run, with entries failing or released in between |
| `Gates.MoveInAdmittedIff` | domain/src/scopes.rs:353-369 | a move in is admitted exactly within every rule at once, the sums taken without overflow |
| `Gates.MoveInRefusedFor` | domain/src/scopes.rs:353-369 | and is refused for the first rule it breaks |
| `Gates.MovePassesIff` | domain/src/scopes.rs:347-369 | over the log of moves the gate refuses nothing else |
| `Gates.AutoTransferAdmittedIff` | domain/src/scope_ledger.rs:462-472 | a transfer is automatic exactly within both ceilings |
| `Gates.TransferPassesIff` | domain/src/scope_ledger.rs:462-472 | over the log of transfers the gate refuses nothing else |
| `Gates.AutoPayoutAdmittedIff` | domain/src/scope_operations.rs:314-333 | a payout is automatic exactly within its ceilings, the largest line and the scope's budget |
| `Gates.MovesInAreBounded` | domain/src/scopes.rs:353-369 | in every day of every run a user moves into a scope at most its daily cap |
| `Gates.AutoTransfersAreBounded` | domain/src/scope_ledger.rs:462-472 | in every day of every run a client's automatic transfers stay within the ceiling |
| `Budget.AutoPayoutsAreBounded` | domain/src/scope_operations.rs:314-327 | in every day of every run a client's automatic payouts stay within the ceiling |
| `Budget.ScopeBudgetIsKept` | piggybank/core/src/infrastructure/scope_payouts.rs:84-103 | in every day of every run, the automatic payouts made in it and the decisions of the scope executed in it, however long they were live, stay together within the scope's one budget |
| `Budget.EachAutoPayoutIsBounded` | domain/src/scope_operations.rs:314-317 | in every run no automatic payout is above the ceiling of one operation, nor has a line above 1000 USDT |
| `Budget.StepsDo` | piggybank/core/src/infrastructure/scope_payouts.rs:84-103 | a payout is made exactly when every ceiling leaves room, a decision is taken up and flagged exactly when the budget leaves none, and a live unflagged one leaves when executed |
| `Mandates.EachDrawIsBounded` | domain/src/scope_mandates.rs:253-257 | in every run, with mandates granted, replaced and revoked on the way, every draw is an operation its mandate lists, at most its cap for one, and gives at most what it is of |
| `Mandates.DrawAdmittedIff` | domain/src/scope_mandates.rs:246-266 | a draw is admitted exactly when the mandate is in force, lists it, and each cap leaves room |
| `Mandates.AskedIff` | domain/src/scope_mandates.rs:253-266 | in every state a draw is taken up exactly when the last mandate allows it after all that was drawn and stands |
| `Mandates.CaptureIsTaken` | domain/src/scope_ledger.rs:891-931 | a standing hold gives up what is captured of it into its own scope, up to all of it, whatever became of the mandate |
| `Mandates.OneMandateInForce` | domain/src/scope_mandates.rs:225-249 | a grant leaves only itself in force, and a revoke none |
| `Mandates.BookFillAdmittedIff` | domain/src/scope_mandates.rs:269-290 | a capture into another user's compartment is admitted exactly when both mandates allow it and leave room |
| `Mandates.DrawsAreBounded` | domain/src/scope_mandates.rs:253-260 | in every day of every run the holds placed and charges made stay within the largest daily cap they were made under |
| `Mandates.DebitsAreBounded` | piggybank/core/src/infrastructure/scope_mandates.rs:135-160 | all that the usage counts as drawn in a day is at most that cap and what was captured in the day of older holds |
| `Mandates.DrawnWithinTheCapIff` | domain/src/scope_mandates.rs:232-260 | over every run under mandates of a daily cap, all that is drawn stays within it throughout exactly when every capture of a hold of a day ago or earlier fitted it when it was made |
| `Mandates.OldCapturesPassTheCap` | domain/src/scope_mandates.rs:232-260 | a run under a cap of ten in which twenty are drawn within a day |
| `Mandates.TwiceTheCapIsARun` | domain/src/scope_mandates.rs:232-260 | that run is in order of time and under mandates of that cap |
| `Mandates.HoldsAreBounded` | domain/src/scope_mandates.rs:261-264 | however long holds stand, they never hold more than the largest outstanding cap of the mandates of those that stand |
| `Mandates.BookFillsAreBounded` | domain/src/scope_mandates.rs:276-290 | in every day of every run what goes to other users stays within the tighter of the two caps it was admitted under, with mandates replaced and revoked in between |
| `Mandates.HoldExpiry` | domain/src/scope_mandates.rs:294-302 | a hold ends no later than asked and never after its mandate |
| `Mandates.HoldExpiryIs` | domain/src/scope_mandates.rs:294-302 | it is the earlier of the two, and none when neither is set |
| `Mandates.CheckTerms` | domain/src/scope_mandates.rs:72-105 | terms are accepted exactly when sound, and their operations come out once each in their own order |
| `Mandates.SoundTermsIff` | domain/src/scope_mandates.rs:72-105 | sound terms are of another scope than `main`, with caps that allow the whole cap of one operation at once, of one to three operations once each, with a fill cap exactly when they list fills |
| `Grants.NewGrants` | domain/src/scope_ledger.rs:105-134 | the nested loops accept exactly the sound sets of grants |
| `Grants.OverlapIsASharedLabel` | domain/src/scope_ledger.rs:120-131 | two grants of a scope overlap exactly when some label is covered by both |
| `Grants.AcceptedMeansOneGrantALabel` | domain/src/scope_ledger.rs:99-134 | grants allowed one by one are accepted exactly when no label of a scope is covered by two |
| `Grants.MayOpenIff` | domain/src/scope_ledger.rs:143-145 | a client may open a label exactly when it is not the platform's own and a grant of the client's covers it |
| `Grants.OneOpenerALabel` | domain/src/scope_ledger.rs:143-145 | whoever asks first, a label has one possible opener |

## Left out

- Message texts: every refusal is its kind (`DomainError` and the refusal enumerations).
- Stored and wire forms (serde, legacy payload defaults) and the string vocabularies of states and kinds, except where they are hashed or printed into a key.
- The relay's retries, liquidity check and bookkeeping, the stores and the ledger's own code; only the legs in the event comments and their order are modelled. Ledger balances are unbounded, so the ledger refuses nothing for 128-bit overflow.
- The gates before a placement that other parts of the platform answer (registry, pauses, frozen accounts, the acknowledgement of units held in kind), its idempotency by the caller's id, and that a market order names no price and no other lifetime.
- A late ledger refusal of an order already on the book (`Rejected`): the escrow lock is admitted in the placement step.
- `Consilium::approve` and `reject`, which close a consilium without a tally: no step of a run calls them.
- The terms, hash and id a consilium carries unread, and their copies in its events; the 32-bit width of its counts, out of reach below four billion owners.
- `Hold::restore` and the other rebuilds from storage; runs start at placement or opening. Subject references of holds are carried unread, and `void_by_user` is the release the client's void makes.
- SHA-256: an injective function where one is needed; `hex32` is not modelled.
- The memo of an operation and its caller's reference: no approval carries them, and their filters (links, format characters) are string predicates settled by one reading. So are wallet address shapes and payment reasons.
- The sort of the users of a payout before its duplicate check: `Operations.Request` states the check itself; the sort of subjects is modelled in `Lines.CheckLines`.
- The catalog of approval kinds and its escalations, decided by another service.
- Automatic payouts' user lines, invoices, charges, allocations, subscriptions, issuances and fee settlements as aggregates; their ledger legs are in `Flows`, and a subscription's pricing in `Redemptions`.
- Scheduling of a change of terms and its notice period: a maximum of two times.
- Ledger.ApplyKeepsGuard: does not model the ledger's 128-bit balances, because no leg here approaches them.
- Fees.ExitsChargeNoGainTwice: bounds what units may be left after an assessment from above; how a holding's other units move between assessments is not modelled.
- The web cabinets, the wallet SDK, the gRPC contracts and the deployment files.
