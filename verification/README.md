# PayFlow Lab: verified model

PayFlow Lab is a Try/Confirm/Cancel payment system that is written twice: as a distributed protocol (a coordinator, the DTM
transaction manager and two SQL participants behind a branch barrier) and as a locked in-memory store.  This project models
both and proves what every interleaving keeps about money, payment status and exactly-once effects.

Verify the whole project with `dafny verify dfyconfig.toml` (Dafny 4.11).

## How it is organised

**The abstract account.** `HoldAccount` is a book of balances and holds with three actions: place, commit, release.  A release
that finds no hold refuses every later one.  `AccountBook` reads rows of either mode as such a book.

**The participants.** `Tables` is the MySQL schema as a class that transactions change in place.  `Participant` has the methods
of the account and ledger services, the barrier and the HTTP handler; each is proved against a rule of `BranchRules`.
`DeliveryCollapse` shows what any arrival order of branch calls amounts to, `SqlAccounts` that the account participant behind its
barrier is the abstract account.  `ParticipantTransactions` takes each delivery apart into barrier insert, first locked read, second
locked read with the writes it computes, commit and rollback, and proves that any interleaving of them, on one account too, is a
sequence of whole deliveries, and that every delivery whose rows nobody has locked can run to its end.

**The coordinator.** `Repository` has the coordinator's transactions as methods, `RepositoryRules` what they do and keep.
`Transactions` takes them apart again into lock, read, write and commit, and proves that every interleaving of those steps is a
sequence of whole transactions.  `DistributedService` has the three reads, reconcile, the polling loop and the list loop, on tables
that the other parties change between any two statements.

**The protocol.** `TccSystem` is the transition system of the distributed mode: any number of `Create` calls, each standing at
one of its database, DTM or polling steps; any number of reconcilers, whose three reads are three steps; DTM and the network
(`Dtm`); the participants.  Every event is enabled or does nothing, so a run is any list of events.  `Progress` says what only
grows, `TccCore` what barrier, rows, acknowledgements and DTM status have to do with each other, `TccInvariant`, `TccSteps` and
`TccCreate` that every event keeps the invariant.  `TccTheorems` states the promises for every reachable state and every
continuation of it; `TccAnswers` says what a Create answers under a key that is taken, and that it answers whatever goes wrong;
`TccFaults` that an injected fault lets no payment succeed; `TccConvergence` that no payment DTM has heard of is ever stuck.
`CacheRefinement` maps every run to one with a silent cache.  `TccWitness` gives runs that end in success, by a fault, and by a
refused Try.

**The memory mode.** `MemoryStore` is the store as a class, proved method by method against `MemoryRules`; `MemoryInvariant` is
its representation invariant; `MemoryRuns` states what holds after any sequence of operations; `CallbackCollapse` what any list of
callbacks amounts to and what each of them is answered; `MemoryHistory` what a payment's history tells about its money.  `PaymentService` is the application layer for one request at a time; `LocalCreate` is its `Create` as a
sequence of store operations; `LockTable` is the reference-counted lock table as a concurrent step model; `ReplayVisibility` puts
the two together, with callbacks, closes, notes and resets between any two operations, and says what a replay can see;
`ReplayWitness` that every request can be served, and so that replays happen.

**Both.** `RequestMachine` is the abstract account behind a filter of used-up tokens, event ids in memory and Confirm rows in SQL,
and says when the filters make a difference.  `MemoryMachine` and `SqlMachine` show that the store and the participant carry it
out; `CommonRefinement` says exactly when the two modes agree.

## What is assumed

DTM, BranchBarrier, MySQL, Redis and the network are other programs; what is assumed of them is written in one place each.

- `Dtm`: the status goes prepared, submitted, succeed or prepared, aborting, failed; a timeout may abort a prepared transaction
  at any moment; only a prepared transaction is registered with, submitted or aborted; Confirm is sent after the submit only and
  Cancel after the abort only, with the body that was registered; the final status is recorded after every registered branch has
  acknowledged.  Whatever was sent may arrive at any time, any number of times, or never.  A coordinator reads a success answer
  only if what it asked for was done (for a registration: with this very body); an error answer says nothing.
- `Participant.CallWithDB`: the barrier rows and the business rows commit together or not at all, as README.md:130 of the
  repository describes it.
- `Transactions`, `ParticipantTransactions`: a locked row or unique-key entry is held until commit or rollback; a plain read sees what is committed when the
  transaction makes its first one, which in this code is after its row is locked.  An insert locks the unique keys it adds, and a
  locking read or an update locks the row it looks for, whether there is one or not.
- A request fingerprint stands for its payload: SHA-256 is taken to be injective.
- In the memory mode a payment id is drawn that was never drawn before; in the distributed mode ids are arbitrary and the unique
  keys of the schema decide.

## Where the code and its description part

- The repository's README.md:119 says that a balance update that does not hit one row rolls back and reports a broken invariant.
  `SqlAccounts.NeverViolated` shows that no delivery ever gets there.
- A success callback that arrives while a payment has no reservation is refused by the memory store, but its event id is used up
  (internal/store/memory.go:179-206), and another event id may still succeed; a Confirm that arrives before its Try uses up the
  one Confirm row of its gid.  So the modes differ on such histories (`CommonRefinement.EarlyCommitSplits`), and also when a
  refusal comes under an event id that an early success used up (`CommonRefinement.StaleRefusalSplits`).
  `CommonRefinement.BothModesAgree` says exactly when they agree.  In the distributed mode no such Confirm exists
  (`TccTheorems.DeliveriesArePlain`), and on histories of that kind both are the plain account
  (`CommonRefinement.OrderlyModesArePlain`).
- Two accepted requests may have one fingerprint if an id holds a NUL character: `Fingerprint.Collision` is such a pair.
  `Fingerprint.UniqueIffPartsOnce` is the exact condition among accepted requests: the two ids, joined by a NUL, part into two
  accepted ids in no other place.  NUL-free ids meet it, and so do some others (`Fingerprint.FrontNulIsUnique`,
  `Fingerprint.LongPartIsUnique`).
- The messages of internal/service/payment.go:335-349 allow 128 characters; the code counts bytes of UTF-8, and so does
  `Fingerprint.Accepted`.
- A Cancel whose body names another payment than the row of its gid is acknowledged and leaves that row open, for the row's own
  Cancel as well (`DeliveryCollapse.ForeignCancel`); `DeliveryCollapse.FirstCancel` says that this is the only case.  The
  protocol never sends one: every call carries the body that was registered for its gid.

## Model

| member | source | states |
|---|---|---|
| TccTheorems.GlobalAgreement | internal/distributed/service.go:146-181 | in every reachable state SUCCESS means its own account and amount are CONFIRMED and POSTED, FAILED that nothing of its gid is held or posted; row and agreement stay in every continuation |
| TccTheorems.TornReadsAreSound | internal/distributed/diagnostics.go:55-80 | three statuses read at three moments: the success guard implies that all three facts hold together now, the failure guard that no FROZEN or POSTED row is there now or ever again, and that the reservation was read as none or CANCELLED |
| TccTheorems.FinalizersAgree | internal/distributed/repository.go:121-160 | pollers and reconcilers past their guards all want one status, the row is PROCESSING or already has it, and the log moves INIT, PROCESSING, verdict and no further |
| TccTheorems.StandsByVerdict | internal/distributed/repository.go:121-160 | in every continuation a payment that has a gid is PROCESSING, or stands where DTM's final word on that gid has put it |
| TccTheorems.ExactlyOnce | internal/distributed/service.go:81-114 | of any number of racing calls under a key one at most creates and one at most answers "created"; every replay names the created payment, so each other call is a replay of it, a conflict or an error; only creators coordinate; and the key has one payment, gid, reservation and ledger row at most |
| TccTheorems.CacheTransparent | internal/distributed/service.go:73-91 | whatever the cache answered, what a Create claims to have created, replayed or refused is what the rows alone decide (and `RepositoryRules.DecidedByRows` is what they decide) |
| CacheRefinement.StepUncached | internal/distributed/service.go:73-91 | one event of the system with a cache is one event, or none, of the system whose cache never answers |
| CacheRefinement.CacheIsRefinement | internal/distributed/service.go:73-91 | for every run, whatever the cache answers in it, there is a run in which it answers nothing with the same tables, messages and outcomes |
| TccTheorems.CreatedFromNew | internal/distributed/service.go:103-111 | a call creates only where the rows decided "new", and turns that decision into a replay of its own payment |
| TccTheorems.ReplayIsSameRequest | internal/distributed/service.go:81-88 | a replayed request with NUL-free fields equals the stored one in order, account, amount and currency |
| TccAnswers.KnownKeyIsAnswered | internal/distributed/service.go:73-114 | a call whose key a row carries is answered by that row, from every place it may stand: before its look, after a misleading cache, or after losing the race to insert |
| TccAnswers.AnswersTellRows | internal/distributed/service.go:81-88 | every call answered with a replay or a conflict was answered what the row of its key says: its payment for its own fingerprint, a conflict for any other |
| TccAnswers.AnswerIsByFields | internal/service/payment.go:356-360 | told by fields: a replay if order, account, amount and currency are the stored ones, a conflict if any differs and no field has a NUL |
| TccAnswers.EveryCoordinatorAnswers | internal/distributed/service.go:146-181 | from every place after BeginTCC a Create whose every further step fails still answers with its payment, and the history gets the abort and the pending outcome and nothing else |
| TccTheorems.MoneyConserved | internal/participant/account.go:20-119 | in every reachable state frozen is the sum of FROZEN reservations, available + frozen + confirmed is the opening balance, both balances lie within it, and no delivery reports a violated invariant |
| TccTheorems.DeliveriesArePlain | internal/participant/handler.go:45-57 | in every reachable state any account call the network may deliver, however late or often, does what the plain hold / commit / release account does with it, and every Confirm finds its hold |
| TccTheorems.OneReconcileSuffices | internal/distributed/service.go:322-342 | once DTM's status is final, one undisturbed reconcile gives a PROCESSING payment the verdict it means |
| TccFaults.FaultNeverSucceeds | internal/distributed/service.go:131-144 | in every reachable state a payment whose own creator asked for a fault is not SUCCESS and has no ledger row; after the account's fault DTM never hears of a ledger branch or a submit, of the ledger's only of a ledger Try that fails |
| TccFaults.DoFine | internal/distributed/service.go:131-144 | every event of anybody keeps that |
| TccConvergence.NoneStuck | internal/distributed/service.go:322-342 | from every reachable state some run of DTM, network and one reconcile settles a PROCESSING payment that DTM knows: SUCCESS, taken and posted, if DTM has begun to commit, else FAILED with nothing held |
| TccConvergence.CrashedIsSettled | internal/distributed/service.go:322-342 | so too when its Create stops at any moment |
| TccTheorems.LogTells | internal/distributed/repository.go:319-336 | every payment's events are numbered 1..n, chained, typed by the move they make, and move by the one path to the stored status |
| TccCreate.EveryStep | internal/distributed/service.go:58-183 | every event of coordinators, reconcilers, DTM, network and participants keeps the invariant and what may only grow |
| TccCreate.EveryRun | internal/distributed/service.go:58-183 | the same over every run |
| TccCreate.FreshOk | infra/mysql/002-payflow.sql:43-56 | a fresh installation meets the invariant |
| TccCore.DeliverKeeps | internal/participant/handler.go:45-57 | delivering any call that was sent, again, late or out of order, keeps the bond between barrier, rows, acknowledgements and DTM status |
| TccCore.ServeKeeps | internal/distributed/service.go:121-144 | so does DTM serving a prepare, register, submit or abort request whenever it arrives |
| TccCore.FinishKeeps | internal/distributed/service.go:121-144 | so does DTM recording its final status |
| Progress.DeliverLater | internal/participant/account.go:67-72 | a settled reservation or ledger row is never changed by any delivery |
| TccWitness.SuccessHappens | internal/distributed/service.go:118-182 | every well-formed request that its account can pay for succeeds in some run, taken and posted |
| TccWitness.FailureHappens | internal/distributed/service.go:135-162 | a request whose fault strikes after the account's Try fails in some run, its reservation CANCELLED; so does one whose Try is refused, nothing being held |
| DeliveryCollapse.Canonical | internal/participant/handler.go:45-57 | the effective calls are some of those that arrived, in their order |
| DeliveryCollapse.Collapse | internal/participant/handler.go:45-57 | any list of deliveries leaves the business tables as its few effective calls alone would, without a barrier |
| DeliveryCollapse.CanonicalShape | internal/participant/handler.go:45-57 | per branch those are at most one Try and then at most one Confirm or Cancel |
| DeliveryCollapse.FirstCancel | internal/participant/account.go:89-104 | the first committed Cancel leaves its row open exactly if that row belongs to another payment |
| DeliveryCollapse.ForeignCancel | internal/participant/account.go:92-104 | such a Cancel, and the row's own Cancel after it: both acknowledged, the row open |
| DeliveryCollapse.NothingReopens | internal/participant/handler.go:53-57 | once the Try row is taken and nothing is open, no later arrival opens a row |
| DeliveryCollapse.CancelIsFinal | internal/participant/account.go:89-119 | after a committed Cancel of the row's own payment no FROZEN or PREPARED row of its gid ever appears |
| SqlAccounts.DeliverySimulates | internal/participant/account.go:20-119 | one delivery is one abstract place, commit or release, or none, and conserves money |
| SqlAccounts.DeliveriesConserve | internal/participant/account.go:20-119 | every sequence of deliveries conserves money |
| SqlAccounts.NeverViolated | internal/participant/account.go:73-82 | the "invariant violated" error is never answered |
| SqlAccounts.DeliveriesRowsOk | infra/mysql/002-payflow.sql:58-93 | over every sequence of deliveries no reservation or ledger row is of an incomplete request, of an unknown payment or account, or the second of its payment |
| HoldAccount.RunConserves | internal/participant/account.go:41-50 | every sequence of abstract actions keeps frozen = held and available + held + committed = opening, per account |
| HoldAccount.Bounded | internal/participant/account.go:41-50 | balances lie between zero and the opening, and a hold fits in its frozen balance |
| HoldAccount.Settled | internal/participant/account.go:67-72 | a settled hold never changes again and a refused request never gets one |
| Participant.AccountTry | internal/participant/account.go:20-52 | checks, reservation and balances as one rule; nothing written on refusal |
| Participant.AccountConfirm | internal/participant/account.go:54-87 | settles a FROZEN reservation as CONFIRMED and takes the frozen money, leaves any other alone |
| Participant.AccountCancel | internal/participant/account.go:89-119 | settles a FROZEN reservation as CANCELLED and returns the money, leaves any other alone |
| Participant.LedgerTry | internal/participant/ledger.go:20-32 | writes the PREPARED entry under the unique keys or refuses |
| Participant.LedgerConfirm | internal/participant/ledger.go:34-51 | posts a PREPARED entry, acknowledges anything else |
| Participant.LedgerCancel | internal/participant/ledger.go:53-58 | cancels a PREPARED entry, acknowledges anything else |
| Participant.InsertBarrier | infra/mysql/003-dtm.sql:55-68 | inserts a barrier row under its unique key and counts what it added |
| Participant.CallWithDB | README.md:130 | barrier rows and business rows together or neither; repeated and late calls are skipped |
| Participant.BranchHandler | internal/participant/handler.go:27-65 | a wrong op or foreign gid is answered 400 and changes nothing; any other call goes through the barrier, and is answered 200 exactly if its delivery succeeds and with its delivery's own error if not |
| ParticipantTransactions.CommitIsDelivery | internal/participant/account.go:20-119 | what a participant transaction publishes at its commit, from rows it read earlier, is the whole delivery made there and then |
| ParticipantTransactions.FirstRefusal | internal/participant/account.go:20-36 | a transaction given up at its first read is a delivery that would be refused there and then |
| ParticipantTransactions.SecondRefusal | internal/participant/account.go:37-50 | so is one given up at its writes |
| ParticipantTransactions.DoKeeps | internal/participant/account.go:20-119 | barrier insert, locked reads, commit and rollback keep the invariant and change the tables by one whole delivery or not at all |
| ParticipantTransactions.Serializable | internal/participant/handler.go:53-57 | every interleaving of deliveries, on one account row too, equals its committed deliveries one after another in commit order |
| ParticipantTransactions.UnlockedRuns | internal/participant/handler.go:53-57 | whatever others are in the middle of, a delivery whose rows nobody else has locked runs to its end and leaves the tables as the whole delivery |
| ParticipantTransactions.InterleavingsConserve | internal/participant/account.go:20-119 | hence every interleaving conserves the money of every account |
| RepositoryRules.InsertSound | internal/distributed/repository.go:47-85 | inserting a payment keeps unique keys, statuses and every log faithful |
| RepositoryRules.BeginSound | internal/distributed/repository.go:87-119 | so does taking a gid and starting |
| RepositoryRules.FinalizeSound | internal/distributed/repository.go:121-160 | so does a verdict |
| RepositoryRules.RecordSound | internal/distributed/repository.go:162-175 | so does any recorded event |
| RepositoryRules.MaxIsLast | internal/distributed/repository.go:320-324 | in a gap-free log MAX(sequence) is its length |
| RepositoryRules.DecidedByRows | internal/distributed/repository.go:62-75 | a key that a row carries gives that row's payment to its own fingerprint and a conflict to every other; only a key that no row carries is new |
| RepositoryRules.RecordAdds | internal/distributed/repository.go:162-175 | a recorded event is one more line numbered after the others, and nothing else changes |
| RepositoryRules.VerifiedIsReplay | internal/distributed/diagnostics.go:48-53 | a verified cache answer is exactly a replay decision of the rows |
| Repository.Repository.AppendEventTx | internal/distributed/repository.go:319-336 | the loop over the log finds the largest number; one event is appended after it |
| Repository.Repository.FindByIdempotencyKey | internal/distributed/repository.go:183-191 | the row under the key, or proof that no row has it |
| Repository.Repository.VerifyCachedIdempotency | internal/distributed/diagnostics.go:48-53 | true exactly if id, key and fingerprint match one row |
| Repository.Repository.ResolveIdempotency | internal/distributed/service.go:73-91 | for every cache answer the decision of the rows alone: replay of the row's payment for its fingerprint, conflict for another, new exactly if no row has the key |
| Repository.Repository.CreatePayment | internal/distributed/repository.go:47-85 | inserts under the unique keys; under a known key answers with the row's payment or, for another fingerprint, a conflict; under a new key and a taken id, not found; changing nothing in these cases |
| Repository.Repository.BeginTCC | internal/distributed/repository.go:87-119 | moves INIT to PROCESSING with a new gid, exactly if it may; otherwise says why and changes nothing |
| Repository.Repository.Finalize | internal/distributed/repository.go:121-160 | PROCESSING takes the verdict and its reason; the same verdict again is accepted unchanged; anything else is refused unchanged, with its reason |
| Repository.Repository.RecordEvent | internal/distributed/repository.go:162-175 | appends one event to an existing payment's log |
| DistributedService.RunsAreRelied | internal/distributed/service.go:58-183 | every run of the distributed mode leaves settled rows, terminal payments and final statuses alone, and moves a PROCESSING payment by DTM's final word only, which is all that the methods below rely on |
| DistributedService.Service.ParticipantStates | internal/distributed/diagnostics.go:55-80 | three reads with the others running before each: a guard that holds of what was read holds of what is there now, and a verdict that was final before the first read is seen |
| DistributedService.Service.Settle | internal/distributed/service.go:330-341 | finalizes by the reads exactly as the protocol's reconciler does, and hands back the stored terminal row or the row it got; on a guard that holds, for a payment that waits for it or has it, the stored row with that verdict |
| DistributedService.Service.Reconcile | internal/distributed/service.go:322-342 | a payment comes back as it is or as the terminal row stored for it, with a verdict that is final at both participants and DTM; if its verdict was final before and no read fails it does come back as that row, SUCCESS or FAILED as the verdict says; a skipped or failed reconcile changes nothing |
| DistributedService.Service.WaitForOutcome | internal/distributed/service.go:344-363 | true only if the verdict is final now, and true if it was final at the start and one poll did not fail |
| DistributedService.Service.List | internal/distributed/service.go:225-234 | overwrites the list in place while the others run: in the end every element is as it was or is the stored terminal row of its own payment, with a final verdict; and every element that was read from the tables, with a verdict final before and no failing read, is that row |
| DistributedService.ReconcileKeeps | internal/distributed/service.go:322-342 | reconciling on any reads keeps the tables sound, changes no terminal payment and touches no participant row |
| Transactions.PublishIsAtomic | internal/distributed/repository.go:87-119 | what a transaction publishes at commit is what it would do there and then in one step |
| Transactions.NeverTaken | infra/mysql/002-payflow.sql:38 | an event number read under the row's lock is free when it is inserted |
| Transactions.DoKeeps | internal/distributed/repository.go:319-336 | every lock, read, write, commit and rollback keeps the invariant and changes the tables by one whole transaction or not at all |
| Transactions.Serializable | internal/distributed/repository.go:47-175 | every interleaving equals its committed transactions one after another in commit order |
| Transactions.UnlockedRuns | internal/distributed/repository.go:47-175 | whatever others are in the middle of, a transaction whose locks nobody holds runs to its end and does its one atomic step, or nothing if its checks refuse it |
| Transactions.GapFree | internal/distributed/repository.go:319-336 | committed events of every payment are numbered 1..n and the unique key is never hit |
| Fingerprint.DecimalInjective | internal/service/payment.go:356-360 | the decimal rendering of the amount decodes uniquely |
| Fingerprint.PayloadInjective | internal/service/payment.go:356-360 | with NUL-free ids equal payloads mean equal order, account, amount and currency |
| Fingerprint.UniqueIffPartsOnce | internal/service/payment.go:334-360 | among requests with trimmed ids of 1 to 128 bytes in UTF-8, a request is alone with its payload if and only if its joined ids part in no other place into two such ids |
| Fingerprint.CleanPartsOnce | internal/service/payment.go:356-360 | NUL-free ids part in one place only |
| Fingerprint.CleanDecodes | internal/service/payment.go:356-360 | a request with NUL-free ids shares its payload with no other, accepted or not |
| Fingerprint.FrontNulIsUnique | internal/service/payment.go:334-360 | an accepted id with a NUL in front that is alone with its payload all the same |
| Fingerprint.LongPartIsUnique | internal/service/payment.go:334-360 | an accepted id with a NUL inside whose other parting gives an id of 71 characters but 131 bytes, alone with its payload |
| Fingerprint.LongestIds | internal/service/payment.go:335-340 | an id fits up to 128 one-byte, 64 two-byte, 42 three-byte or 32 four-byte characters |
| Fingerprint.Collision | internal/service/payment.go:356-360 | two different accepted requests with one payload |
| MemoryStore.MemoryStore.constructor | internal/store/memory.go:44-48 | a new store is empty and valid |
| MemoryStore.MemoryStore.Reset | internal/store/memory.go:341-364 | back to the empty store, valid |
| MemoryStore.MemoryStore.AppendEventLocked | internal/store/memory.go:389-395 | the next number of the payment's own counter |
| MemoryStore.MemoryStore.CreatePayment | internal/store/memory.go:50-72 | new, replay, conflict and id collision, with the whole new state; stays valid |
| MemoryStore.MemoryStore.StartPayment | internal/store/memory.go:74-94 | INIT to PROCESSING or an error with nothing changed; stays valid |
| MemoryStore.MemoryStore.Freeze | internal/store/memory.go:96-134 | every branch of the reservation, with the whole new state; stays valid |
| MemoryStore.MemoryStore.ReleaseLocked | internal/store/memory.go:366-381 | gives frozen money back once, with the whole new state |
| MemoryStore.MemoryStore.FailAndRelease | internal/store/memory.go:136-157 | fails any payment that is not terminal and releases its money; stays valid |
| MemoryStore.MemoryStore.ClosePayment | internal/store/memory.go:239-263 | closes a PROCESSING payment and releases its money; stays valid |
| MemoryStore.MemoryStore.ProcessCallback | internal/store/memory.go:159-191 | duplicate, out of order, terminal, invalid and applied callbacks as written, the event id being kept even on the error paths; stays valid |
| MemoryStore.MemoryStore.SeeLocked | internal/store/memory.go:170-179 | an event id is noted for its payment, on its first callback as well |
| MemoryStore.MemoryStore.ApplyCallbackLocked | internal/store/memory.go:193-237 | the accepted callback's effect and its two outcomes |
| MemoryStore.MemoryStore.CommitLocked | internal/store/memory.go:207-222 | frozen money leaves for one ledger entry |
| MemoryStore.MemoryStore.RecordEvent | internal/store/memory.go:265-273 | one more event in an existing payment's log; stays valid |
| MemoryStore.MemoryStore.GetPayment | internal/store/memory.go:275-283 | the stored payment: its history tells its status, money is frozen only while it is PROCESSING, and it is SUCCESS exactly if the ledger debits its account by its amount, once; not found means nothing held and nothing debited |
| MemoryStore.MemoryStore.Events | internal/store/memory.go:296-308 | the payment's history, numbered from 1, chained, ending at its status |
| MemoryInvariant.EmptyInv | internal/store/memory.go:348-364 | the empty store meets the representation invariant |
| MemoryInvariant.CreateKeeps | internal/store/memory.go:50-72 | creation keeps it |
| MemoryInvariant.StartKeeps | internal/store/memory.go:74-94 | starting keeps it |
| MemoryInvariant.FreezeKeeps | internal/store/memory.go:96-134 | freezing keeps it, and changes anything only by a first reservation |
| MemoryInvariant.FailKeeps | internal/store/memory.go:136-157 | failing keeps it |
| MemoryInvariant.CloseKeeps | internal/store/memory.go:239-263 | closing keeps it |
| MemoryInvariant.CallbackKeeps | internal/store/memory.go:159-237 | every callback keeps it, the failing ones included |
| MemoryInvariant.RecordKeeps | internal/store/memory.go:265-273 | recording keeps it |
| MemoryInvariant.ReservedMoney | internal/store/memory.go:121-128 | a first freeze is an abstract place that the account allows |
| MemoryInvariant.SettledMoney | internal/store/memory.go:366-381 | failing or closing is an abstract release |
| MemoryInvariant.PaidMoney | internal/store/memory.go:207-218 | a success callback is an abstract commit |
| MemoryInvariant.PaidLedger | internal/store/memory.go:213-218 | it adds the payment's only ledger entry, and per account the debits stay the confirmed money |
| MemoryRuns.OpSimulates | internal/store/memory.go:50-273 | every operation but reset is one abstract action or none |
| MemoryRuns.Conservation | internal/store/memory.go:96-237 | after any operations frozen = frozen reservations, available + frozen + ledger debits = 1,000,000, and both balances lie in 0..1,000,000 |
| MemoryRuns.Coupling | internal/store/memory.go:96-263 | SUCCESS if and only if the own reservation is CONFIRMED, if and only if there is exactly one ledger entry with the own account and amount; INIT holds nothing; money is frozen only while PROCESSING; FAILED and CLOSED have none or CANCELLED |
| MemoryRuns.FreezeFindsFrozen | internal/store/memory.go:107-112 | a PROCESSING payment's reservation is FROZEN, so the CONFIRMED and CANCELLED branches are dead |
| MemoryRuns.HistoryTells | internal/store/memory.go:389-395 | events numbered 1..n, chained, telling the stored status, the counter being their number |
| MemoryHistory.HistoryTellsMoney | internal/store/memory.go:366-406 | after any operations a payment's history has one freeze if it ever had a reservation, one release exactly if that is CANCELLED, one confirmation exactly if it is CONFIRMED, and so exactly if the payment is SUCCESS |
| MemoryHistory.AnswersAreStored | internal/store/memory.go:50-263 | an operation that succeeds answers with the payment as stored afterwards; one that fails has changed no payment, balance, reservation, ledger entry or key |
| MemoryHistory.CallbackNotes | internal/store/memory.go:159-237 | a callback leaves in the history exactly what its answer says; one that fails leaves nothing, or its acceptance if its money was then found missing |
| MemoryRuns.TerminalIsFinal | internal/store/memory.go:144-146 | until a reset no operation changes a terminal payment, its reservation or its ledger entry |
| LocalCreate.EachFieldAlone | internal/service/payment.go:334-354 | a valid request stays valid exactly with an amount of 1 to 100,000,000, the currency CNY, ids and key of 1 to 128 bytes, and a known fault |
| CallbackCollapse.Collapse | internal/store/memory.go:159-237 | any list of callbacks leaves payments, accounts, reservations and ledger as its first valid one with a new event id alone would, or unchanged without one |
| CallbackCollapse.OneApplied | internal/store/memory.go:159-237 | exactly that one is answered APPLIED |
| CallbackCollapse.EveryAnswer | internal/store/memory.go:159-237 | every answer to any list of callbacks, told from the list: a used event id is a duplicate, the winner is applied, another new one is out of order up to the winner's sequence and ignored as too late beyond it |
| CallbackCollapse.TerminalAnswers | internal/store/memory.go:175-187 | a terminal payment answers a new event id "out of order" up to its last accepted sequence and "terminal ignored" beyond it |
| CallbackCollapse.WinnerDecides | internal/store/memory.go:193-237 | the winner of any list alone decides status, failure reason, sequence, reservation, both balances and the ledger entry |
| CallbackCollapse.FirstDecides | internal/store/memory.go:159-237 | if none was seen before and all are valid it is the first one |
| CallbackCollapse.PassesOnce | internal/store/memory.go:170-179 | an event id passes the duplicate check once; every later supported callback with it is a duplicate |
| LockTable.DoKeeps | internal/service/payment.go:179-199 | every acquire and release step keeps the lock table's invariant |
| LockTable.MutualExclusion | internal/service/payment.go:179-199 | under every interleaving one thread at most is inside a key's section, its threads share the table's entry, `users` is their number, and the table holds exactly the keys in use |
| LockTable.EveryThreadGoesOn | internal/service/payment.go:179-199 | in every reachable table a thread outside can register, one that waits gets in if its key is vacant and else as soon as the thread inside has unlocked, one inside can unlock and one that has can leave |
| LockTable.Drains | internal/service/payment.go:179-199 | no deadlock: from every table that meets the invariant some run empties it of threads and keys |
| LocalCreate.NextOk | internal/service/payment.go:121-170 | on success, fault and error paths alike a Create leaves its payment where its next step can go on, settled at the end |
| LocalCreate.NextForward | internal/service/payment.go:121-170 | a step of one Create never takes another payment back |
| LocalCreate.OutsideForward | internal/store/memory.go:159-273 | neither does a callback, close, recorded event or reset |
| LocalCreate.NextNames | internal/store/memory.go:54-65 | only creation writes an idempotency record, and it names the call's own payment |
| LocalCreate.NextStamped | internal/service/payment.go:356-360 | every key's record keeps the fingerprint of the very fields its payment has |
| LocalCreate.KnownKeyByFields | internal/store/memory.go:54-59 | a request under a known key is answered with the key's payment if order, account, amount and currency are the stored ones, and with a conflict if any differs and no id has a NUL; nothing changes |
| ReplayVisibility.DoKeeps | internal/service/payment.go:107-171 | every step of any Create, lock, callback, close, note or reset keeps the invariant |
| ReplayVisibility.UnlockedIsQuiet | internal/service/payment.go:175-178 | a key whose lock nobody holds has a payment that is terminal, or PROCESSING with its money FROZEN |
| ReplayVisibility.ReplayNeverSeesInit | internal/service/payment.go:125-128 | hence a replay never returns INIT, nor PROCESSING without frozen money |
| ReplayVisibility.ReplayIsSameRequest | internal/service/payment.go:121-128 | the same in every reachable state of the concurrent mode |
| ReplayWitness.VacantIsServed | internal/service/payment.go:107-171 | from any such state a request whose key is vacant gets in, does by its own steps what it would have done with nobody around, and leaves no thread of its own in the lock table |
| ReplayWitness.ReplayHappens | internal/service/payment.go:121-128 | of two requests made one after the other under a new vacant key the second gets the first one's payment exactly if the fields are the same, and a conflict otherwise |
| ReplayWitness.OutsidersAct | internal/store/memory.go:159-273 | callbacks, closes, notes and resets act in the concurrent mode as they do on the store, in any number at any moment |
| PaymentService.PaymentService.Create | internal/service/payment.go:107-171 | an invalid request changes nothing; a valid one does exactly its sequence of store operations |
| PaymentService.PaymentService.Begin | internal/service/payment.go:131-140 | the start of a created payment and the fault before freezing |
| PaymentService.PaymentService.Reserve | internal/service/payment.go:142-170 | freezing, its failures, the fault after it and the automatic confirmation |
| PaymentService.PaymentService.Callback | internal/service/payment.go:201-249 | validation, the injected fault and the store's answer |
| PaymentService.EachCallbackFieldAlone | internal/service/payment.go:207-221 | a valid callback stays valid exactly with an id, an event id of 1 to 128 bytes, a positive sequence and one of the two outcomes |
| PaymentService.PaymentService.Details | internal/service/payment.go:258-268 | a payment with a history that tells its very status |
| PaymentService.NewRequestEnds | internal/service/payment.go:107-171 | an undisturbed new request ends FAILED with every balance as before, for the first of fault, missing account, missing money; or SUCCESS with one debit; or PROCESSING with its money frozen; and its history lists exactly what was done |
| PaymentService.KnownKeyReplays | internal/store/memory.go:54-59 | under a known key nothing changes: the same request gets its payment, another one a conflict |
| PaymentService.SecondRequest | internal/service/payment.go:356-360 | a second request under the first one's key gets its payment if order, account, amount and currency are all the same, and a conflict if any differs; nothing changes |
| PaymentService.CreateTwice | internal/service/payment.go:107-171 | asking twice is asking once, whatever came of it |
| PaymentService.OnlyApplied | internal/service/payment.go:201-249 | a callback request changes money, status or ledger only if it is valid, not faulted and applied |
| PaymentService.FaultIsRetryable | internal/service/payment.go:224-230 | an injected confirm fault leaves one line in the history, and the retry answers and does what the first try would have |
| PaymentService.DeclineIsNeverFaulted | internal/service/payment.go:224-230 | a callback that reports failure is processed whatever fault it asks for |
| RequestMachine.PlainUnlessLost | internal/store/memory.go:170-206 | in either mode a history stays the plain hold / commit / release account after every step if and only if no step that would make a difference finds its event id or Confirm row used up |
| RequestMachine.SqlPlainUnlessLost | internal/participant/handler.go:53-57 | in SQL it ends on the plain account's book if and only if no commit was lost |
| RequestMachine.AlikeUnlessSplit | internal/store/memory.go:170-206 | the two modes' books are alike after every step if and only if no step acts in one mode only for a request it matters to |
| RequestMachine.SplitKinds | internal/store/memory.go:170-206 | those steps are a commit spent in SQL and not in memory, for an open hold, and a refusal under an event id that memory has seen, for a pending request |
| RequestMachine.BurnedNeverHeals | internal/participant/handler.go:53-57 | the first kind is taken in memory and never again in SQL |
| RequestMachine.EndAlikeUnlessBurned | internal/participant/handler.go:53-57 | without the second kind the books end alike if and only if there is none of the first |
| RequestMachine.OrderlyIsPlain | internal/distributed/service.go:118-144 | when every commit comes after its hold was placed or refused, either mode is the plain account |
| RequestMachine.OrderlyNeverSplits | internal/distributed/service.go:118-144 | and no step splits the two |
| MemoryMachine.MemoryRefines | internal/store/memory.go:96-263 | freezes, callbacks of any event id, sequence and outcome, failures and closes carry out the machine in which every event id acts once |
| SqlMachine.SqlRefines | internal/participant/account.go:20-119 | the account participant behind its barrier carries out the machine in which one Confirm of a gid acts |
| CommonRefinement.BothModesAgree | internal/participant/account.go:20-119 | for every history, in any order and with any repetitions, store and tables agree on every balance, hold and refusal after every step if and only if no step splits the modes |
| CommonRefinement.EndAgreesUnlessBurned | internal/participant/account.go:20-119 | without stale refusals they agree in the end if and only if no commit is spent in SQL and not in memory |
| CommonRefinement.OrderlyModesArePlain | internal/participant/account.go:20-119 | on histories whose commits come after their holds, as DTM sends them, both are the plain account and their balances are equal |
| CommonRefinement.EarlyCommitSplits | internal/store/memory.go:170-206 | success, freeze, success under another event id ends taken in memory; Confirm, Try, Confirm ends frozen in SQL |
| CommonRefinement.StaleRefusalSplits | internal/store/memory.go:175-178 | success, refusal under the same event id, freeze: the store ends with the money held, the tables with the request refused and nothing held |
| CommonRefinement.MemoryStarts | internal/store/memory.go:50-94 | a new store with one started payment begins as that machine |
| CommonRefinement.SqlStarts | infra/mysql/002-payflow.sql:54-56 | so do new tables with one payment |

## Left out

- HTTP routing, JSON decoding, envelopes, the web page, scripts, Docker and Compose: no property beyond the handler's checks.
- Real MySQL, Redis, DTM and BranchBarrier code: what is relied on is listed under "What is assumed".
- Timestamps, event messages and event metadata: opaque to every decision of the code.
- Trimming and case folding of request fields: requests enter normalised.
- SQL collation: identifiers are compared exactly, where the schema's utf8mb4_0900_ai_ci would also equate letter case and accents.
- The text of a distributed failure: one text stands for all of them.
- Distributed `Create` as one method: it is the step machine `TccSystem`, since other parties change the database between any two of its steps; its decision part is `Repository.Repository.ResolveIdempotency`.
- `lockIdempotencyKey` as a method: it is the step machine `LockTable`; `PaymentService.Create` is the sequential code inside the section.
- DistributedService.Service.List: that a verdict final before is in the list afterwards is stated for lists of rows that were read from the tables, as its caller's are; the rest for any list.
- DistributedService.Service.WaitForOutcome: the deadline and cancellation are the number of polls made in time.
- Transactions.Serializable: the row lock and the unique-key entry of one transaction are taken in one step, so deadlocks between them are not modelled.
- ParticipantTransactions.Serializable: locks are exclusive, where InnoDB lets two repeated inserts share one; the keys of one statement are taken in one step, so deadlocks are not modelled; and the payments table stands still meanwhile.
- PaymentService.PaymentService.Details: its two reads are taken with nothing in between; a callback between them may show a longer history than the status read.
- Liveness: a coordinator that stops after inserting a payment leaves it INIT, one that stops before DTM has prepared leaves it PROCESSING, and reconcile moves neither; what is proved is that a way out exists (`TccConvergence.NoneStuck`, `TccAnswers.EveryCoordinatorAnswers`, `LockTable.Drains`), not that a scheduler takes it.
- Distributed `Reset`: its check and its deletes are separate transactions, so it is not part of the protocol runs.
- Distributed `Callback`: it reconciles and then only records an event, which the protocol's recorded events and reconcilers cover.
- Counters, metrics, health checks, snapshots, list sorting and text truncation: easy members that add nothing.
