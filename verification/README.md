# Verified model of the digital wallet's money core

This project models the part of the wallet platform that moves money, and the event pipeline it
feeds, and proves what they promise. Nothing here runs the platform; everything is a Dafny model
of the code; `dafny verify dfyconfig.toml` verifies all of it.

## What is modelled

* **Numbers** (`JsNumber`). Amounts and balances are JavaScript numbers: integer arithmetic followed by
  rounding to 53 significant bits, ties to even. A bigint column is exact in the database and is
  rounded by `Number(...)` when it is read.
* **The database** (`Rows`, `LexOrder`, `Totals`, `Operations`, `LedgerViews`). Wallets, transactions
  and transfers by id; the ledger and the outbox in commit order; unique indexes; each repository
  operation as one indivisible function that commits all its writes or none.
* **Two levels of invariant** (`StoreInvariant`, `StorePreservation`, `Rounding`, `Money`, `Conservation`). The store's invariant holds
  for all amounts; so do the facts about rounded numbers in `Rounding`: stored balances are doubles, every
  `balance_after` is what the code computes from the previous one, deposit events carry the amounts read.
  Conservation, the exact audit chain and exact arithmetic hold under one bound, `Money.Within`: total
  deposits per currency and every requested amount are at most 2^53. The bound is about what was
  requested, not about balances; that balances then stay exact is proved, and so is that the bound is sharp.
  Without any bound `Conservation` states exactly how much rounding has added or lost, and which commits do so.
* **The concurrent machine** (`Protocol`, `ProtocolInvariant`, `Simulation`, `Progress`, `Guarantees`,
  `Staleness`). Any number of requests (transfer, deposit, settling and failing webhook, wallet creation,
  balance lookup) run as processes in which every database or cache call is one step. Guards are read
  outside the database transaction; the transaction itself is split into its row locks, each reading a
  balance, and its commit. Any process may stop anywhere, time passes, and cache entries vanish, at any
  point. The gateway's answer is arbitrary. The machine is proved to simulate the atomic operations, in
  commit order, and never to deadlock; every guarantee is about all its runs.
* **The classes** (`Store`, `Repositories`, `Services`). The repositories and services statement by
  statement, over a mutable database and a mutable cache store; each method is proved to do exactly its
  atomic operation, respectively to serve exactly its request (`Requests`, `BalanceCache`).
* **Provenance** (`Provenance`). Every row and every ledger entry of every run goes back to a request that arrived.
* **The specification written out** (`Answers`). What each request answers and leaves behind, field by field and with
  every text and number spelled out, so that the specification does not rest on its own helpers.
* **Agreement of the two** (`SoloRuns`, `EverySoloRun`). The serial specification is what the classes are proved
  to do. For every request as specified there is a run of the concurrent machine in which it runs alone and does
  that; and every run of a request alone to its end does what the specification says of some request.
* **Witnesses and repeats** (`Races`, `Idempotency`). Reachable states that show what is not promised; requests sent twice.
* **Webhooks** (`Webhooks`). Lists of duplicated and reordered events handled one at a time.
* **The outbox** (`Outbox`, `OutboxDelivery`, `OutboxProgress`, `PublisherTicks`). Publisher and outbox service as
  classes; every call may reject, with or without having taken effect. Accounting and progress over any
  sequence of passes with rows arriving between them; scheduler ticks that overlap at every await.
* **The pipeline** (`Pipeline`, `PipelineBounds`, `PipelineTally`, `PipelineLosses`, `Workers`). Publisher, domain-events worker,
  notifications worker and dead-letter worker as one machine with arbitrary scheduling and failures;
  the workers' handlers as classes that perform its steps.

## Where the code and its documentation differ

The model follows the code. Each point below is a theorem, with the exact condition where the promise holds and a
run or input on which it does not.

* The repository's README (line 68) promises at-least-once delivery from the outbox. A row is abandoned without ever
  having been enqueued exactly when `OutboxDelivery.NeverDeliveredIff` says; five passes suffice
  (`OutboxDelivery.AbandonedInFivePasses`). Later, a domain job whose third attempt throws disappears, because nothing
  listens to failures of that queue (`PipelineLosses.RoutingFailsThrice`); the notifications of a row all reach an
  end exactly when some attempt to route it got all of them through (`PipelineLosses.EveryRowEnds`).
* The repository's README (line 70) promises that duplicates are answered with the existing result. They never
  process anything twice, but the answer is the same only as `Idempotency.DepositRepeated` and
  `Idempotency.TransferRepeated` say; a transfer rejected for lack of balance is, when repeated, answered as
  accepted (`Idempotency.RejectedThenAccepted`).
* `COMPLETED` is not final for a deposit: `failTransaction` writes its status unconditionally, after a check that may
  be stale. `Guarantees.CompletedOverwrittenIff` says exactly which step does it, `Races.CompletedThenFailed` is a
  run in which it happens; the credit stays.
* `executeTransfer` by itself conserves money, while at most 2^53 - 1 of the currency is held, if and only if its two
  wallets differ (`Money.TransferConservesIffDistinct`, `Money.SelfTransferCreates`); the guard is in the service.
* Money is conserved through every commit whose results are doubles, and not beyond: what is held of a currency is
  what was deposited plus the drift that rounding caused (`Guarantees.MoneyConserved`, `Races.ReachableLoss`);
  `Guarantees.SettlementConservesIff` and `Guarantees.TransferConservesIff` say which commits conserve.
* Copies of one event on the queue are at most five, plus those enqueued by attempts whose failure was not counted
  (`OutboxDelivery.DeliveryAccounted`), of which there can be any number (`OutboxDelivery.UncountedCopiesUnbounded`).
* A notification is meant to be given up only after 12 failed sends. That holds exactly when no queue rejects one that
  has generations left (`PipelineLosses.GivenUpAfterTwelveIff`); `PipelineLosses.RejectionLosesEarly` loses one after three.

## Model

| member | source | states |
|---|---|---|
| JsNumber.RoundExact | src/features/transfers/transfers.repository.ts:65-70 | integers up to 2^53 in magnitude, here 9007199254740992, survive `Number(...)`, `+` and `-` unchanged |
| JsNumber.RoundKeepsSign | src/features/transfers/transfers.repository.ts:65-68 | rounding a computed result never changes whether it is negative |
| JsNumber.RoundTwice | src/features/transfers/transfers.repository.ts:65-77 | what was rounded once is a double: rounding it again changes nothing |
| JsNumber.RoundNearest | src/features/transfers/transfers.repository.ts:65-70 | what is computed is a double, a number of at most 53 significant bits, and no double is nearer to the exact result |
| JsNumber.HalfwayEven | src/features/transfers/transfers.repository.ts:65-70 | it is off by at most half the distance of the neighbouring doubles, and of two equally near ones it is the even multiple |
| JsNumber.OverdraftExact | src/features/transfers/transfers.repository.ts:65-68 | for a stored balance that is a double, the overdraft check refuses exactly when the balance is short, whatever the amount |
| JsNumber.OverdraftNeedsDouble | src/features/transfers/transfers.repository.ts:65-68 | for a balance that is not a double the check can let a shortfall of one pass |
| JsNumber.RoundAtLeast | src/features/wallet/wallet.repository.ts:104 | a sum of at least 2^53 is not rounded below it |
| JsNumber.RoundLosesOne | src/features/wallet/wallet.repository.ts:104 | 9007199254740993 is read as 9007199254740992: the limit of exactness is sharp |
| LexOrder.LessTotal | src/features/transfers/transfers.repository.ts:45-48 | `<` on id strings is a strict total order |
| LexOrder.LessTransitive | src/features/transfers/transfers.repository.ts:45-48 | the order is transitive |
| LexOrder.LessIff | src/features/transfers/transfers.repository.ts:45-48 | the first difference decides which id is smaller, and a proper prefix is smaller |
| LexOrder.LargestExists | src/features/transfers/transfers.repository.ts:45-48 | every non-empty finite set of ids has a largest one (what makes lock ordering well founded) |
| Rows.SuffixedKeysInjective | src/features/transfers/transfers.repository.ts:79-95 | the `:out` and `:in` ledger keys of two transfers coincide only if the transfers share their key and the suffix is the same |
| Rows.BalanceKeyInjective | src/features/wallet/wallet.service.ts:56-57 | two balance cache keys are equal exactly when user and currency are, for user ids without colons (UUIDs) |
| Rows.BalanceKeyCollides | src/features/wallet/wallet.service.ts:57 | with a colon in a user id, two users would share an entry |
| Operations.LockOrderSorted | src/features/transfers/transfers.repository.ts:45-48 | the pair locked is the pair given, smaller id first |
| LedgerViews.ChainSum | src/features/transfers/transfers.repository.ts:79-95 | in a chained ledger a wallet's last `balance_after` is deposits plus transfers in minus transfers out |
| LedgerViews.ChainAt | src/features/transfers/transfers.repository.ts:79-95 | in a chained ledger each `balance_after` continues the wallet's previous one by the entry's signed amount |
| LedgerViews.BalanceIsNetPlusDrift | src/features/transfers/transfers.repository.ts:65-95 | in any ledger a wallet's last balance is deposits plus transfers in minus transfers out plus the wallet's drift, the sum of what each entry misses the exact result by |
| LedgerViews.ChainHasNoDrift | src/features/transfers/transfers.repository.ts:65-95 | a chained ledger has no drift, in any currency or wallet |
| LedgerViews.ComputedChainAt | src/features/transfers/transfers.repository.ts:65-95 | in a ledger as the code writes it each `balance_after` is the rounded result computed from the wallet's previous one |
| LedgerViews.BalancesAreDoubles | src/features/wallet/wallet.repository.ts:104-118 | in such a ledger every wallet's last balance is a double |
| LedgerViews.ReadsAreEntriesIff | src/features/wallet/wallet.service.ts:168-181 | the deposits as read, with owner, wallet and currency, equal those stored if and only if each amount is a double |
| LedgerViews.OwnersKept | src/features/wallet/wallet.service.ts:168-175 | while wallets keep their owners, what was credited stays credited to the same users |
| LedgerViews.LastBalanceIsCommitted | src/features/wallet/wallet.repository.ts:112-120 | the recorded balance of a wallet is 0 without entries, otherwise some committed `balance_after` |
| StoreInvariant.EveryOpGrows | src/features/wallet/wallet.repository.ts:81-131 | no operation deletes a row, changes request data, returns a deposit to PENDING, uncompletes a transfer or rewrites ledger or outbox |
| StorePreservation.SettleKeeps | src/features/wallet/wallet.repository.ts:91-131 | a committed settlement keeps the store's invariant: unique keys, balances equal to the last entry and non-negative, every entry matched to its row |
| StorePreservation.ExecuteKeeps | src/features/transfers/transfers.repository.ts:36-106 | a committed transfer keeps the store's invariant |
| StorePreservation.OpKeepsStore | src/features/wallet/wallet.repository.ts:47-131 | every operation issued under its guard keeps the store's invariant, whatever the amounts |
| Money.SettlementExact | src/features/wallet/wallet.repository.ts:104-120 | under the bound a settlement adds exactly the deposited amount to wallet and ledger |
| Money.TransferExact | src/features/transfers/transfers.repository.ts:65-70 | under the bound a transfer computes both new balances exactly, the receiver's staying within 2^53 because of conservation and the sender's check |
| Money.SettleKeepsMoney | src/features/wallet/wallet.repository.ts:104-127 | under the bound a settlement keeps balances equal to deposits per currency, and the audit chain |
| Money.ExecuteKeepsMoney | src/features/transfers/transfers.repository.ts:60-104 | under the bound a transfer keeps the same two |
| Money.OpKeepsMoney | src/features/transfers/transfers.repository.ts:60-104 | so does, under the bound, every operation issued under its guard |
| Money.TransferConservesIffDistinct | src/features/transfers/transfers.repository.ts:60-77 | while at most 2^53 - 1 of the currency is held, a committed `executeTransfer` conserves its money if and only if the two wallets differ, and creates money otherwise |
| Money.SelfTransferCreates | src/features/transfers/transfers.repository.ts:60-77 | a transfer of 1 from a wallet holding 1 to itself commits and leaves 2 |
| Money.BoundIsSharp | src/features/wallet/wallet.repository.ts:104 | from a balance of 2^53 a settlement of 1 commits and loses the unit, breaking the audit chain |
| Rounding.SettleKeepsNumbers | src/features/wallet/wallet.repository.ts:104-127 | whatever the amounts, a settlement keeps balances doubles, the computed chain, deposit events equal to the Deposit entries as read, and every deposit event naming a wallet and its owner |
| Rounding.ExecuteKeepsNumbers | src/features/transfers/transfers.repository.ts:65-104 | whatever the amounts, a transfer keeps the same four |
| Rounding.RunKeepsNumbers | src/features/wallet/wallet.repository.ts:104-127 | the same four hold after every run, without any bound |
| Conservation.SettleMoves | src/features/wallet/wallet.repository.ts:104-120 | a settlement changes what is held beyond the deposits, and the drift, by exactly what its computed balance misses the exact sum by, and no other currency |
| Conservation.ExecuteMoves | src/features/transfers/transfers.repository.ts:65-97 | a transfer does so by what its two computed balances together miss the old ones by |
| Conservation.OpKeepsBalanced | src/features/transfers/transfers.repository.ts:60-104 | every operation issued under its guard keeps holdings equal to deposits plus drift |
| Conservation.RunKeepsBalanced | src/features/transfers/transfers.repository.ts:60-104 | after every run, whatever the amounts, holdings equal deposits plus drift in every currency |
| ProtocolInvariant.SettlementAtomic | src/features/wallet/wallet.repository.ts:98-130 | a settlement that commits with the balance it read under lock does what the atomic operation does |
| ProtocolInvariant.TransferAtomic | src/features/transfers/transfers.repository.ts:42-105 | a transfer that commits with two balances read under lock, in either lock order, does what the atomic operation does |
| ProtocolInvariant.StableKeepsProc | src/features/wallet/wallet.service.ts:149-183 | what a process has read as its guards still holds after any commit by a process that owns the rows it touches |
| ProtocolInvariant.OthersKept | src/features/transfers/transfers.repository.ts:42-105 | a commit leaves every other process's reads under lock current |
| ProtocolInvariant.StepKeeps | src/features/transfers/transfers.repository.ts:42-105 | every step of every process, crash, tick or eviction keeps the machine's invariant |
| ProtocolInvariant.RunKeeps | src/features/transfers/transfers.repository.ts:42-105 | the invariant holds after every run |
| Simulation.StepSimulated | src/features/wallet/wallet.repository.ts:98-130 | every step either leaves the database alone or performs exactly one atomic operation under its guard |
| Simulation.Serialisable | src/features/transfers/transfers.repository.ts:42-105 | after every run the database is what the committed operations produce one after the other in commit order, and every balance read under lock is still the committed one |
| Simulation.LocksExclude | src/features/transfers/transfers.repository.ts:50-58 | no two processes hold the same wallet row |
| Simulation.RunGrows | src/features/wallet/wallet.repository.ts:81-131 | between any two points of a run history is only extended |
| Simulation.RunKeepsMoney | src/features/wallet/wallet.repository.ts:104-127 | in every run that ends within the bound, conservation and the audit chain hold |
| Progress.SecondLockHigher | src/features/transfers/transfers.service.ts:38-60 | the service's guards make the two wallets of a running transfer distinct, so its second lock has the strictly larger id |
| Progress.WaitsHigher | src/features/transfers/transfers.repository.ts:45-58 | if every unfinished process were blocked, each locked row would be below another locked row |
| Progress.SomeoneCanGo | src/features/transfers/transfers.repository.ts:45-58 | in every state satisfying the invariant with an unfinished process, some process has an enabled step |
| Progress.DeadlockFree | src/features/transfers/transfers.repository.ts:43-58 | the same after every run, for any number of processes and any wallet pairs |
| Progress.StepsBounded | src/features/transfers/transfers.service.ts:25-110 | requests in progress take no more steps than their ranks add up to |
| Progress.AllCanFinish | src/features/transfers/transfers.repository.ts:45-58 | from every reachable state the requests in progress can all be brought to their end |
| Guarantees.CountAtMostOne | src/features/wallet/entities/ledger-entry.entity.ts:13 | with the unique index, at most one entry of a kind carries a key, and one does exactly when one exists |
| Guarantees.CreditedAtMostOnce | src/features/wallet/wallet.service.ts:149-183 | exactly-once credit: under any interleaving of duplicated webhooks and expiries a deposit has at most one Deposit entry, none while PENDING, exactly one and a provider reference once COMPLETED |
| Guarantees.DepositNeverPendingAgain | src/features/wallet/wallet.repository.ts:81-126 | no deposit returns to PENDING, loses its reference or its entry |
| Guarantees.CompletedOverwrittenIff | src/features/wallet/wallet.service.ts:201-208 | a step takes a deposit out of COMPLETED if and only if it is the failure write of a handler for that row, and the ledger keeps the credit |
| Races.CompletedThenFailed | src/features/wallet/wallet.service.ts:192-208 | a run in which an expiry reads PENDING, the payment is credited and the expiry then writes: COMPLETED before, FAILED after, the entry kept |
| Guarantees.TransferOnce | src/features/transfers/transfers.service.ts:48-101 | at most one transfer row per key; COMPLETED with exactly one debit on the sender's and one credit on the receiver's wallet of its amount and currency, otherwise with neither |
| Guarantees.MoneyConserved | src/features/transfers/transfers.repository.ts:60-77 | in every reachable state what is held of a currency is what was deposited plus the drift, so exactly what was deposited if and only if there is no drift; within the bound there is none |
| Guarantees.SettlementConservesIff | src/features/wallet/wallet.repository.ts:104-118 | a settlement about to commit in a reachable state conserves if and only if the computed sum is exact; for an amount that is a double, if and only if the exact sum is one |
| Guarantees.TransferConservesIff | src/features/transfers/transfers.repository.ts:65-77 | a transfer about to commit in a reachable state conserves if and only if the two rounded results add up to the two old balances, in particular if both exact results are doubles |
| Races.ReachableLoss | src/features/wallet/wallet.repository.ts:104-118 | a run with requests of at most 2^53, 2^53 + 1 deposited and only 2^53 held: one more than the bound already loses money |
| Guarantees.Audited | src/features/wallet/wallet.repository.ts:104-120 | in every reachable state a wallet's balance is its last `balance_after`, never negative, and deposits plus transfers in minus transfers out plus the wallet's drift; within the bound without the drift |
| Guarantees.AuditedEntry | src/features/transfers/transfers.repository.ts:79-97 | in every reachable state every `balance_after` is what the code computes from the wallet's previous one, from 0, never negative, and is the exact result if and only if that is a double (given a deposit amount that is one); within the bound it always is |
| Guarantees.OverdraftRefusedIff | src/features/transfers/transfers.repository.ts:65-68 | no overdraft in any reachable state, whatever the amounts: a transfer about to commit is refused exactly when the sender's committed balance is short |
| Guarantees.TransferArithmeticSafe | src/features/transfers/transfers.repository.ts:65-70 | in every reachable state within the bound a transfer about to commit computes exact integers between -2^53 and 2^53 |
| Guarantees.SettlementArithmeticSafe | src/features/wallet/wallet.repository.ts:104 | in every reachable state within the bound a settlement that commits and stays within it computes the exact sum |
| Guarantees.DistinctCounts | src/features/transfers/transfers.repository.ts:103-104 | in a list without repetitions each id is counted once or not at all |
| Guarantees.TransferEventsExact | src/features/transfers/transfers.repository.ts:97-104 | one TransferCompleted event per COMPLETED transfer, none for any other id, each naming the transfer, its sender, its recipient, its amount and its currency |
| Guarantees.DepositEventsExact | src/features/wallet/wallet.repository.ts:112-127 | in every reachable state each DepositSucceeded event is about a wallet and names its owner and currency; owner, wallet, amount and currency of the events are those of the Deposit entries with each amount as `Number(...)` reads it, in order and as multisets; they are the stored amounts if and only if these are doubles, as requests of at most 2^53 are |
| Staleness.BoundedStaleness | src/features/wallet/wallet.service.ts:56-72 | every balance returned is the requested owner's, is 0 or a committed `balance_after`, and was current less than 60000 ms plus the filling reader's delay before |
| Provenance.EntriesAsked | src/features/transfers/transfers.service.ts:30-97 | in every run each ledger entry is the credit of a deposit that was requested and whose payment was announced under its row's reference, or the debit of the sender or the credit of the wallet with the tag named in a transfer that was requested, for exactly the amount, currency and key requested |
| Provenance.RowsAsked | src/features/wallet/wallet.service.ts:96-125 | in every run each transfer, deposit and wallet row says what a request that arrived said; a failed deposit with a reference has the reason its expiry gave |
| Provenance.RunAsked | src/features/wallet/wallet.service.ts:96-125 | every run keeps that, what each process still carries of its request, and that while a deposit's reference may still be set nobody else sets it or fails the deposit |
| Provenance.OthersAsked | src/features/wallet/wallet.service.ts:140-212 | a write of one process leaves the references and rows other processes rely on |
| Provenance.CreditsStayPaid | src/features/wallet/wallet.service.ts:140-183 | a committed write credits only a deposit whose payment was announced, and no write changes the reference of one credited before |
| Answers.TransferSucceeds | src/features/transfers/transfers.service.ts:71-97 | a transfer that succeeds stores its request as a COMPLETED row, takes the requested amount from the sender and gives it to the recipient, and writes one debit under the key with `:out`, one credit under the key with `:in` and one TransferCompleted event, field by field |
| Answers.TransferRefused | src/features/transfers/transfers.service.ts:30-69 | each refusal of a transfer exactly when it is due, and what it leaves: nothing, or the PENDING row |
| Answers.TransferStepStores | src/features/transfers/transfers.service.ts:71-77 | in the concurrent machine too the row inserted carries the request's sender, recipient, amount, currency and key, or the insert is refused and nothing changes |
| Answers.DepositAnswers | src/features/wallet/wallet.service.ts:74-138 | for every deposit and gateway answer the response, the checkout page included, and the row left, field by field |
| Answers.WebhookDispatch | src/features/wallet/stripe-webhook.controller.ts:68-86 | a completed session that is paid is settled, an expired one failed with its reason, and any other event ignored, by the texts Stripe sends |
| Answers.SettlementSucceeds | src/features/wallet/wallet.service.ts:140-190 | a settlement adds the stored amount to the owner's wallet, completes the row and writes one entry under the deposit's key and one DepositSucceeded event that names owner, wallet, amount and currency, field by field |
| Answers.SettlementRefused | src/features/wallet/wallet.service.ts:140-166 | when a settlement is ignored, refused or done, each exactly, and that nothing changes unless it is done |
| Answers.FailureAnswers | src/features/wallet/wallet.service.ts:192-212 | an expiry fails a pending row with its reason and touches nothing else |
| Answers.WalletAnswers | src/features/wallet/wallet.service.ts:37-54 | a conflict, with nothing changed, exactly when the user has that wallet; otherwise a new empty one under the tag given, or the refused insert; the registration listener answers the existing one instead |
| Answers.BalanceAnswers | src/features/wallet/wallet.service.ts:56-72 | a balance is answered exactly when the user has a wallet of the currency, with that wallet's row |
| Answers.CacheAfter | src/features/wallet/wallet.service.ts:214-219 | what each request leaves in the cache, by the text of the keys: a miss filled, both parties of a transfer or the owner of a credited deposit dropped, nothing else touched |
| Answers.BalanceSteps | src/features/wallet/wallet.service.ts:56-72 | in the concurrent machine an entry is served for 60000 ms and not longer, and a row read is cached under its owner's key and answered |
| Requests.FindByRef | src/features/wallet/wallet.repository.ts:39-45 | the row found has the reference, and none is found only if no row has it |
| Webhooks.HandlingDelivers | src/features/wallet/stripe-webhook.controller.ts:68-86 | a handled event changes the database by one settlement or one expiry of the pending row found, or not at all, with the exact condition for each |
| Webhooks.HandlingKeepsStore | src/features/wallet/stripe-webhook.controller.ts:68-86 | handling any event keeps the store's invariant and only extends history |
| Webhooks.CreditSucceeds | src/features/wallet/wallet.service.ts:156-183 | the settlement of a pending deposit commits if and only if its ledger key is still free |
| Webhooks.OwnDelivery | src/features/wallet/wallet.service.ts:140-212 | a paid completion or expiry of a pending deposit does to its row and ledger what it says |
| Webhooks.OtherDelivery | src/features/wallet/wallet.service.ts:140-212 | any other event leaves the row, its credit and its creditability alone |
| Webhooks.FirstDecisiveEventWins | src/features/wallet/stripe-webhook.controller.ts:68-86 | for every list of events about any sessions, a pending deposit ends as its first expiry or creditable paid completion says, or untouched |
| Webhooks.LaterEventsIgnored | src/features/wallet/wallet.service.ts:149-154 | once a deposit is decided, any further events about its session change nothing anywhere |
| Webhooks.OneEffect | src/features/wallet/stripe-webhook.controller.ts:68-86 | the whole database after a list of events about one session is the one after its first decisive event |
| BalanceCache.OneTurn | src/features/wallet/wallet.service.ts:56-72 | one request through the cache answers as without it, with the same database, and the cache stays fresh |
| BalanceCache.CacheRefinesLookup | src/features/transfers/transfers.service.ts:103-109 | for every sequence of whole requests and every schedule of expiries the cached system answers exactly as the uncached one |
| BalanceCache.TransferCovers | src/features/transfers/transfers.service.ts:103-109 | a transfer changes no wallet row whose cache key it does not invalidate |
| BalanceCache.WebhookCovers | src/features/wallet/wallet.service.ts:185-188 | a settlement changes no wallet row whose cache key it does not invalidate |
| SoloRuns.RunningAlone | src/features/transfers/transfers.repository.ts:42-105 | there is a run alone in which locking, reading and committing step by step is the atomic transfer or its error, then both cache deletions |
| SoloRuns.SettlingAlone | src/features/wallet/wallet.repository.ts:98-130 | there is such a run for a settlement and its one cache deletion |
| SoloRuns.TransferAlone | src/features/transfers/transfers.service.ts:25-110 | for every transfer request and new id there is a run alone that leaves the database and cache of the serial specification |
| SoloRuns.SettleAlone | src/features/wallet/wallet.service.ts:140-190 | for every paid webhook and row picked there is such a run |
| SoloRuns.DepositAlone | src/features/wallet/wallet.service.ts:74-138 | for every deposit, new id and gateway answer there is such a run |
| SoloRuns.BalanceAlone | src/features/wallet/wallet.service.ts:56-72 | for every balance lookup there is such a run, with its answer and the live cache entries |
| SoloRuns.SoloRunServes | src/features/wallet/stripe-webhook.controller.ts:68-88 | for every kind of request and every choice of ids, rows and answers there is a run alone, from any state without locks, that ends, holds nothing, and has the effect and answer of the serial specification |
| EverySoloRun.RunPromised | src/features/transfers/transfers.service.ts:25-110 | from every point of every request, each run alone to the end does what the rest of the request is specified to do |
| EverySoloRun.EverySoloRunServes | src/features/wallet/stripe-webhook.controller.ts:68-88 | every run alone of a request to its end, from a state without locks, has the effect and answer of the serial specification for some choice of ids, rows and gateway answers |
| SoloRuns.OtherEventsIdle | src/features/wallet/stripe-webhook.controller.ts:68-86 | unpaid completions and unknown events have no effect |
| Idempotency.DepositRepeated | src/features/wallet/wallet.service.ts:78-86 | a repeated deposit changes nothing unless the first failed to insert; its answer is the first one's if and only if that was neither a checkout page nor a refusal |
| Idempotency.TransferRepeated | src/features/transfers/transfers.service.ts:48-55 | a repeated transfer changes nothing unless the first failed to insert; its answer is the first one's if and only if that did not fail |
| Idempotency.RejectedThenAccepted | src/features/transfers/transfers.service.ts:48-55 | a run after which a transfer between two newly registered wallets is rejected, and its repeat answered as accepted with nothing moved |
| Store.Database.InsertLedger | src/features/wallet/entities/ledger-entry.entity.ts:13 | an insert is refused exactly when the key is taken, and otherwise appends |
| Store.Database.InsertWalletRow | src/features/wallet/entities/wallet.entity.ts:7 | an insert is refused exactly when id, (user, currency) or tag is taken |
| Store.Database.InsertTransaction | src/features/wallet/entities/transaction.entity.ts:16 | an insert is refused exactly when id or key is taken |
| Store.Database.InsertTransfer | src/features/transfers/entities/transfer.entity.ts:12 | an insert is refused exactly when id or key is taken |
| Store.Database.LockWallet | src/features/wallet/wallet.repository.ts:99-102 | returns the stored row or null, and records the lock |
| Repositories.WalletRepository.FindByUserIdAndCurrency | src/features/wallet/wallet.repository.ts:20-27 | the one wallet of the user and currency, or null |
| Repositories.WalletRepository.FindByWalletTag | src/features/wallet/wallet.repository.ts:29-31 | the wallet with the tag, or null |
| Repositories.WalletRepository.FindTransactionByIdempotencyKey | src/features/wallet/wallet.repository.ts:33-37 | a row exactly when the key is used |
| Repositories.WalletRepository.FindTransactionByProviderRef | src/features/wallet/wallet.repository.ts:39-45 | some row with the reference, null exactly when there is none |
| Repositories.WalletRepository.UpdateTransactionProviderRef | src/features/wallet/wallet.repository.ts:47-54 | sets the reference of the row, if present, and nothing else |
| Repositories.WalletRepository.EnsureWalletRow | src/features/wallet/wallet.repository.ts:56-74 | the existing wallet, or a new empty one, or a refused insert |
| Repositories.WalletRepository.CreateTransactionRow | src/features/wallet/wallet.repository.ts:76-79 | inserts a PENDING row or changes nothing |
| Repositories.WalletRepository.Fail | src/features/wallet/wallet.repository.ts:81-89 | sets FAILED and the reason of the row, if present, whatever its status, and nothing else |
| Repositories.WalletRepository.Settle | src/features/wallet/wallet.repository.ts:91-131 | the atomic settlement and its saved entry, or its error and the contents unchanged; one lock |
| Repositories.TransfersRepository.FindByIdempotencyKey | src/features/transfers/transfers.repository.ts:20-22 | a row exactly when the key is used |
| Repositories.TransfersRepository.CreateTransferRow | src/features/transfers/transfers.repository.ts:24-27 | inserts the row or changes nothing |
| Repositories.TransfersRepository.Post | src/features/transfers/transfers.repository.ts:72-104 | both balances, both entries, the status and the event, unless a ledger key is taken |
| Repositories.TransfersRepository.Execute | src/features/transfers/transfers.repository.ts:36-106 | the atomic transfer, or its error and the contents unchanged; locks taken in id order |
| Services.WalletService.CreateWallet | src/features/wallet/wallet.service.ts:37-54 | a conflict, or the new wallet, as specified, which `Answers.WalletAnswers` writes out; the cache is left alone |
| Services.WalletService.GetBalance | src/features/wallet/wallet.service.ts:56-72 | the read-through lookup on database and cache, exactly as specified |
| Services.WalletService.Deposit | src/features/wallet/wallet.service.ts:74-138 | every branch of a deposit, for every gateway answer, as specified; `Answers.DepositAnswers` writes the specification out |
| Services.WalletService.SettleByProviderRef | src/features/wallet/wallet.service.ts:140-190 | some matching row is settled as specified, which `Answers.SettlementSucceeds` and `Answers.SettlementRefused` write out; the owner's cache entry goes exactly when it committed |
| Services.WalletService.FailByProviderRef | src/features/wallet/wallet.service.ts:192-212 | some matching pending row is failed as specified |
| Services.WalletService.InvalidateBalanceCache | src/features/wallet/wallet.service.ts:214-219 | removes exactly the entry of user and currency |
| Services.StripeWebhookController.HandleEvent | src/features/wallet/stripe-webhook.controller.ts:68-88 | dispatches to settling, failing or nothing as specified, which `Answers.WebhookDispatch` writes out, for some row the query may return |
| Services.TransfersService.Initiate | src/features/transfers/transfers.service.ts:25-110 | every guard in order, the row, the execution and both invalidations as specified, which `Answers.TransferSucceeds`, `Answers.TransferRefused` and `Answers.CacheAfter` write out |
| Outbox.BatchExists | src/infrastructure/outbox/outbox.service.ts:15-24 | a batch as the query demands exists for every table |
| Outbox.OutboxService.OldestLeft | src/infrastructure/outbox/outbox.service.ts:15-24 | the oldest eligible row that is not in the batch yet, none exactly when all are |
| Outbox.OutboxService.FindUnprocessed | src/infrastructure/outbox/outbox.service.ts:15-24 | distinct eligible rows, oldest first, none skipped that is older, 50 or all there are |
| Outbox.BatchIff | src/infrastructure/outbox/outbox.service.ts:15-24 | a batch is legal if and only if it is at most 50 unprocessed rows with fewer than 5 attempts, oldest first, that leave out a row only if they are 50 and none of them is younger |
| Outbox.OutboxService.MarkProcessed | src/infrastructure/outbox/outbox.service.ts:26-30 | marks that row and no other |
| Outbox.OutboxService.MarkFailedAttempt | src/infrastructure/outbox/outbox.service.ts:32-34 | counts one more attempt of that row and no other |
| Outbox.OutboxPublisher.PublishEvent | src/infrastructure/outbox/outbox.publisher.ts:29-44 | add, mark and count of one event for every way in which each of the three calls can reject, with or without having taken effect |
| Outbox.AttemptLeaves | src/infrastructure/outbox/outbox.publisher.ts:29-44 | what each way of failing leaves of the row and the queue, and whether the loop goes on |
| Outbox.OutboxPublisher.PublishPendingEvents | src/infrastructure/outbox/outbox.publisher.ts:20-51 | a re-entrant tick does nothing; otherwise one batch is published in order up to an uncaught failure, and the flag is cleared however the pass ends |
| Outbox.WholePass | src/infrastructure/outbox/outbox.publisher.ts:28-45 | a pass attempts the events of its batch once each, in order, enqueues in that order and touches no other row, up to the first failure that was not counted, and ends well if and only if there is none |
| PublisherTicks.PassesExclude | src/infrastructure/outbox/outbox.publisher.ts:11-50 | however ticks overlap at the awaits, calls settle and rows arrive: at most one pass is in progress, the flag is set exactly while one is, and an event about to be added is still eligible |
| PublisherTicks.CallsAreAttempt | src/infrastructure/outbox/outbox.publisher.ts:29-44 | the machine's steps for one event, made without interruption, do to the tables what the one attempt of the sequential model does, and the pass is then at its next event exactly when the loop goes on |
| PublisherTicks.TicksAccounted | src/infrastructure/outbox/outbox.publisher.ts:20-51 | in every run of overlapping ticks and arrivals a processed row was enqueued, no row has more than 5 copies besides uncounted ones, a row no attempt is at is accounted for as after whole passes, and a row an attempt is at as it was before it |
| OutboxDelivery.OneAccounted | src/infrastructure/outbox/outbox.publisher.ts:29-44 | one attempt keeps a row's accounting, with one more uncounted copy exactly if it enqueued one and its failure was not counted |
| OutboxDelivery.DeliveryAccounted | src/infrastructure/outbox/outbox.publisher.ts:28-45 | from fresh rows and an empty queue, after any passes with any arrivals, whatever fails: a processed row was enqueued; each row was enqueued, is eligible or is abandoned at 5; copies are at most `retry_count` plus one if processed, and at most 5, plus the uncounted copies, of which there are none while failures are counted |
| OutboxDelivery.RoundsTry | src/infrastructure/outbox/outbox.publisher.ts:25-45 | over any passes with any arrivals each row and its copies develop as the attempts made for it say, each of which found it eligible |
| OutboxDelivery.UncountedCopiesUnbounded | src/infrastructure/outbox/outbox.publisher.ts:38-43 | if marking and counting both keep failing after the add, n passes make n more copies of the oldest event of any batch |
| OutboxDelivery.NeverDeliveredIff | src/infrastructure/outbox/outbox.publisher.ts:28-45 | over any passes with any arrivals, an event is abandoned without ever being enqueued if and only if every attempt for it ended in an add that did not take effect and the counted ones used up its retries |
| OutboxDelivery.AbandonedInFivePasses | src/infrastructure/outbox/outbox.publisher.ts:28-45 | five passes in which the queue rejects the add abandon an event with the queue still empty |
| OutboxProgress.BatchUsesUp | src/infrastructure/outbox/outbox.publisher.ts:28-45 | a batch uses up at least one remaining attempt per event |
| OutboxProgress.SmallPass | src/infrastructure/outbox/outbox.service.ts:15-24 | with fewer than 50 eligible rows a pass costs every one of them an attempt |
| OutboxProgress.OutboxDrains | src/infrastructure/outbox/outbox.publisher.ts:25-45 | without arrivals n eligible rows are gone after n / 10 + 5 passes, whatever fails as long as `markFailedAttempt` does not throw |
| OutboxProgress.RowReached | src/infrastructure/outbox/outbox.service.ts:15-24 | a row with m eligible rows that may go before it is attempted by pass m / 10 + 1, even while younger rows arrive, as long as `markFailedAttempt` does not throw |
| Pipeline.AdvanceKeepsLine | src/infrastructure/queue/dead-letter.processor.ts:26-50 | every step keeps each lineage's row, job name, event name and payload, and its failures equal to 3 per generation plus attempts |
| Pipeline.FlowKeepsLine | src/infrastructure/queue/dead-letter.processor.ts:26-50 | so does every flow, whatever fails |
| Pipeline.SendPays | src/features/notifications/notifications.processor.ts:31-49 | a send, retried or moved to the dead-letter queue, lowers the attempts the lineage may still make |
| Pipeline.RouteDomain | src/features/notifications/domain-events.processor.ts:18-45 | an attempt at a domain job pays for the notifications it may add |
| Pipeline.AdvanceWithinBudget | src/infrastructure/queue/queue.module.ts:24-41 | every step of publisher or workers takes from the budget at least what it uses, for each of three gauges; only a failed publish that is not counted adds to it, by what a copy may cost |
| Pipeline.FlowWithinBudget | src/infrastructure/queue/queue.module.ts:24-41 | so does every flow |
| PipelineBounds.RowBounds | src/features/notifications/domain-events.processor.ts:18-45 | one TransferCompleted row causes at most 30 initial notifications and 360 sends, one DepositSucceeded row 15 and 180, any other none; each copy enqueued by an attempt that was not counted adds a fifth of that |
| PipelineBounds.PipelineTerminates | src/infrastructure/queue/dead-letter.processor.ts:26-50 | n rows cause at most 500 n steps of publisher and workers together, and each failed publish that is not counted 100 more |
| PipelineTally.OneNotification | src/infrastructure/queue/dead-letter.processor.ts:26-50 | in every flow the send attempts of a row are at most 12 times its initial notifications |
| PipelineTally.SendsAccounted | src/features/notifications/notifications.processor.ts:24-49 | in every flow the send attempts, of all rows and of each one, are the failures of the jobs wherever they are plus one per delivery |
| PipelineBounds.FlowConserves | src/infrastructure/queue/dead-letter.processor.ts:46-49 | every flow keeps each initial notification, unchanged, in exactly one place |
| PipelineBounds.NothingVanishes | src/features/notifications/notifications.processor.ts:31-49 | a notification in flight has had 3 failures per generation plus its attempts, fewer than 12; one delivered fewer than 12, one lost at most 12; one is dropped only after exactly 12 |
| PipelineLosses.LosesIff | src/features/notifications/notifications.processor.ts:33-47 | a step loses a notification if and only if a queue rejects it on its way to or from the dead-letter queue |
| PipelineLosses.GivenUpAfterTwelveIff | src/infrastructure/queue/dead-letter.processor.ts:26-50 | in every flow nothing is lost if and only if no queue rejected a notification, and every notification given up had 12 failed sends if and only if none was rejected with generations left |
| PipelineLosses.EveryRowEnds | src/features/notifications/domain-events.processor.ts:18-45 | when the pipeline is at rest each row was processed or abandoned; its notifications were all delivered, dropped or lost if and only if it has none or some routing attempt got all of them through; a processed row without such an attempt has a job that threw three times |
| PipelineLosses.AllStartedIff | src/features/notifications/domain-events.processor.ts:18-45 | over every flow all notifications of a row are started if and only if they were, or some attempt to route a job of the row got all of them through |
| PipelineLosses.RoutingFailsThrice | src/features/notifications/domain-events.processor.ts:18-45 | an outbox with one DepositSucceeded row can come to rest with the row processed, its job exhausted and no notification started |
| PipelineLosses.RejectionLosesEarly | src/features/notifications/notifications.processor.ts:38-47 | from an outbox with one DepositSucceeded row, a rejection by the dead-letter queue loses its notification after 3 failed sends |
| Workers.DomainEventsProcessor.Process | src/features/notifications/domain-events.processor.ts:18-45 | TransferCompleted adds the jobs TransferSent and TransferReceived, each with its own name as event name and the event's payload, DepositSucceeded one of its name, any other event none; in order, up to the first the queue rejects, which makes the attempt throw |
| Workers.NotificationsProcessor.OnFailed | src/features/notifications/notifications.processor.ts:31-49 | the dead-letter queue gains the job, data and count kept, exactly when its attempts are exhausted and the queue accepts |
| Workers.DeadLetterProcessor.Process | src/infrastructure/queue/dead-letter.processor.ts:26-50 | the job's own queue gains it with its count one higher and its data unchanged, unless the count is 3, the queue unknown or the add rejected; no other queue changes |
| Workers.BuryPutsBack | src/infrastructure/queue/dead-letter.processor.ts:26-50 | burying a dead job in the pipeline adds to the queues exactly what the dead-letter handler adds |
| Workers.RouteAddsNotifications | src/features/notifications/domain-events.processor.ts:22-44 | routing in the pipeline adds to the queue exactly what the domain-events handler adds |
| Workers.RouteAdds | src/features/notifications/domain-events.processor.ts:18-45 | the notifications a routing step of the pipeline adds and starts, by the event's name, field by field |
| Workers.SendAddsDead | src/features/notifications/notifications.processor.ts:31-49 | a failed send in the pipeline adds to the dead-letter queue exactly what the failure listener adds |

## Left out

- `failTransfer` is never called, so a rejected transfer stays PENDING, in the model as in the code.
- User deletion with its cascade to wallets: it destroys balances. Runs are those without it; wallets are never deleted.
- MySQL beyond wallet row locks, unique indexes and rollback: gap locks, collation, blocking on an uncommitted duplicate, the range of bigint. A commit that the database refuses for such a reason is a process that stops.
- Ids, wallet tags and the row picked by a query on the non-unique `provider_ref` are arbitrary parameters. Strings are sequences of Dafny characters, not UTF-16 code units.
- The payment gateway answers arbitrarily or throws; Stripe signatures, Checkout and the circuit breaker are not part of this model.
- Lookups of e-mail addresses and user names, `payment_method`, timestamps other than those named, and log messages are left out of rows and payloads.
- Services: cache calls that throw are not part of the class methods; in the concurrent machine a process may stop before any of them.
- Outbox: the flags and retry counts of outbox rows are kept with the publisher, apart from the append-only events of the concurrent machine. One publisher instance; in the sequential model of its passes rows arrive between them, in PublisherTicks at every await. A crash of the publisher is an attempt that ends its pass uncounted.
- BullMQ: backoff times, stalled jobs and job retention.
- Authentication, validation of request bodies, JSON:API, pagination, currency formatting and e-mail delivery would add only single-branch facts. Requests arrive as validated: amounts of at least 1, authenticated user ids without colons.
