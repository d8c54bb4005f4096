# Idempotent payments: a verified model

An operator takes public payment requests, a router reserves and charges them, and two provider
gateways keep idempotency ledgers. The promise is global: one idempotency key, at most one charge,
and one answer, whatever replicas, lost locks, lost commits, crashes, restarts and duplicated calls
do in between. This project models the three services and proves that promise, together with the
breaker, canonicalisation, identifier and histogram code around it.

| file | content |
|---|---|
| `Payments.dfy` | statuses, requests, canonical form, digest and the conflict test |
| `Replay.dfy` | which replays the conflict test lets through, for current and for legacy rows |
| `Adapters.dfy` | provider answers normalised to one result |
| `Ledger.dfy` | one gateway process as a step machine: memory, state file, mutex, crash |
| `Gateway.dfy` | the gateway process as a class, updated in place and rolled back |
| `Table.dfy` | the payments table, the reservation and the fenced write |
| `RouterMachine.dfy`, `RouterProofs.dfy` | every interleaving of router attempts, and the invariant step by step |
| `RouterTheorems.dfy`, `RouterPayload.dfy` | fencing, exclusion, agreement, retry rate, frozen requests |
| `RouterServer.dfy` | the router's handlers as methods of a class |
| `System.dfy`, `SystemProofs.dfy` | router, two gateways and operator together; the joint invariant |
| `Guarantees.dfy`, `OrderPayments.dfy` | theorems over every schedule of all services; orders are for the payments asked for |
| `Schedules.dfy`, `Recovery.dfy` | named schedules; when FAILED can be charged; what a public replay achieves |
| `OperatorServer.dfy` | the operator's handlers as methods of a class |
| `Circuit.dfy`, `Telemetry.dfy`, `Uuid.dfy` | the breaker, the latency histogram, the identifiers |

How the pieces fit. Values and step functions (`Ledger`, `Table`, `RouterMachine`, `System`) say what
one atomic section does. The classes (`Gateway`, `Server`, `Service`, `Circuit`, `Metrics`) run the
handlers imperatively, and their contracts are stated with the same functions. Where a handler waits,
the class calls a method (`OtherRequests`, `OtherAttempts`) that may change the shared state in any
way its contract allows; those contracts are what the step machines prove of every other step
(`LedgerMachine.StepKeepsInv`, `RouterTheorems.StepKeepsInv`, `RouterTheorems.HoldersRowIsUntouched`,
`SystemProofs.OperatorKeepsNeverAhead`). The theorems in `Guarantees`, `Schedules` and
`Recovery` quantify over every schedule from the empty system. In `System` the operator's posts to
the router are steps of their own: a post starts a router attempt with exactly the request the
operator holds (the frozen one on a replay), and the operator hears what that attempt answers.

Assumptions. SHA-256 over the JSON encoding is injective. A commit reported as successful is durable;
one reported as failed may or may not have happened. The database clock strictly increases between
transactions and each transaction is one instant. A replica measures a payment's age later than the
reservation's `now()`, which PostgreSQL fixes when the transaction begins, and by its own clock; `skew`
bounds both together, the time from BEGIN to that test and the lead of the replica's clock. A rename
is atomic and a failed one has no effect. The gateway state file is configured and readable, and only
the router calls the gateways. The advisory lock id is an arbitrary, possibly
colliding, function of the key. Text is ASCII. HTTP, JSON, SQL, clocks, randomness and the environment
appear as parameters and as nondeterministic steps.

Two findings. First, a FAILED payment can be charged: `callProvider` turns any 4xx answer other than
408 into FAILED although another copy of the request may still reach the provider, so the statement of
docs/architecture.md:25 that only a definitive rejection is recorded as FAILED holds for every run
without such an answer (`Schedules.FailedIsNeverCharged`), and with one exactly when the row's error is
not the 4xx text or the gateway has recorded its own refusal (`Schedules.FailedMayBeChargedIff`,
`Schedules.RejectedPaymentCanBeCharged`). Second, a legacy row hashed over a mixed-case currency
refuses the operator's own recovery repost (`Replay.LegacyRepostAcceptedIff`,
`Replay.MixedCaseLegacyRowRefusesItsOwnRepost`).

## Model

| member | source | states |
|---|---|---|
| `Payments.CheckCurrency` | internal/payments/types.go:175-188 | the letter loop accepts exactly the texts that trim to three ASCII letters |
| `Payments.TrimCutsBlanks` | internal/payments/types.go:175-188 | trimming cuts off exactly the blanks at both ends |
| `Payments.CanonFacts` | cmd/payment-router/main.go:119-123 | the canonical form is the request as sent apart from the casing and padding of currency and instrument; it is canonical itself, survives lower-casing of the currency, and is what the upper-cased columns give back |
| `Payments.CanonIsAsSent` | cmd/payment-router/main.go:119-123 | a request is the canonical form of another if and only if parties, amount and reference are equal, its currency has no small and its instrument no capital letters, and both equal the trimmed ones apart from case |
| `Payments.ValidIffPayable` | internal/payments/types.go:71-88 | the validation of the canonical form accepts exactly a positive amount, three ASCII letters, one of three instruments in any casing, and parties and reference that are not blank |
| `Payments.BankInstruments` | cmd/payment-router/main.go:306-313 | the bank serves bank_transfer, bank and pse in any casing, the card gateway everything else |
| `Replay.CurrentRowAcceptsExactly` | cmd/payment-router/main.go:128-136 | for a row of the current code the three-hash test accepts a replay if and only if its canonical request is the stored one |
| `Replay.LegacyRowAcceptsOnlyEqual` | cmd/payment-router/main.go:133-136 | acceptance against a digest of an uncanonicalised request still means equal canonical requests |
| `Replay.ResendIsNoConflict` | cmd/payment-router/main.go:128-136 | a client that resends what it sent first is never refused, whichever of the three digests was stored |
| `Replay.LegacyRowAcceptsExactly` | cmd/payment-router/main.go:128-136 | a legacy row takes a replay if and only if it is the same payment and the first request was in canonical form, in that form with a small-letter currency, or written exactly as the replay |
| `Replay.FrozenRequestRoundTrip` | cmd/payment-operator/main.go:123-133 | store, look up, repost and canonicalise gives back the stored request, never a conflict, on the same gateway |
| `Replay.LegacyRepostAcceptedIff` | cmd/payment-router/main.go:134-136 | a legacy row takes its own recovery repost if and only if it was hashed over the canonical or the all-lowercase currency |
| `Replay.MixedCaseLegacyRowRefusesItsOwnRepost` | cmd/payment-router/main.go:178-181 | the excluded family is inhabited: a mixed-case legacy digest conflicts with its own payment |
| `SystemProofs.HeardIsBacked` | internal/payments/adapters.go:58-122 | whatever raw answer arrives, a result the router takes as final is the one on the gateway's disk, unless a 4xx made it |
| `Adapters.VerdictsAreTheProviders` | internal/payments/adapters.go:58-122 | SUCCEEDED exactly on AUTHORIZED or ACCEPTED in any casing; FAILED exactly on DECLINED or REJECTED or on a 4xx other than 408; reference and error text of every outcome |
| `LedgerMachine.EntriesDecode` | internal/payments/adapters.go:61-70 | every result a gateway records is written with that gateway's own word and decodes at the router to SUCCEEDED or FAILED under its reference, never to the 4xx text |
| `LedgerMachine.StepKeepsInv` | cmd/gateway-mock/main.go:136-188 | every handler step, failed write, crash and reload keeps disk and memory in step while the mutex is free, charges equal to approved entries, charges plus waiting requests within attempts, and every 200 answer on disk |
| `LedgerMachine.StoredKeepsInv` | cmd/gateway-mock/main.go:200-252 | a successful write makes the insert durable, in time for its answer |
| `LedgerMachine.RollbackUndoesInsert` | cmd/gateway-mock/main.go:180-186 | deleting the entry and taking the charge back restores exactly what is on disk |
| `LedgerMachine.DecisionMovesMoney` | cmd/gateway-mock/main.go:152-188 | an approval adds this key alone to the approved ones, one charge and the provider's reference; a refusal leaves every approved entry and the charges as they were and has no reference |
| `LedgerMachine.RepliesAgree` | cmd/gateway-mock/main.go:138-142 | all 200 answers for one request id are one answer across interleavings, behaviour changes and restarts |
| `GatewayServer.Gateway.Restart` | cmd/gateway-mock/main.go:263-289 | a crash and reload between critical sections loses no result and no charge |
| `GatewayServer.Gateway.Begin` | cmd/gateway-mock/main.go:136-143 | counts the attempt and answers a known id from the durable ledger; memory, file and answer are those of the machine's arrival |
| `GatewayServer.Gateway.Forget` | cmd/gateway-mock/main.go:244-249 | the rollback branch restores the ledger before the insert |
| `GatewayServer.Gateway.Finish` | cmd/gateway-mock/main.go:171-188 | after re-checking, the ledger either had the id, or gains exactly this result on disk and in memory, or is as before with a 503; memory, file and answer are those of the machine's steps |
| `GatewayServer.FinishIsTheMachine` | cmd/gateway-mock/main.go:171-188 | the machine's decision and storing steps, run with the mutex held, answer a known id, store and answer a fresh result, or leave nothing of it |
| `GatewayServer.Gateway.Serve` | cmd/gateway-mock/main.go:126-189 | a known id gets its recorded result under every behaviour; an unknown one is approved, charged once and given a card-auth- or bank-transfer- reference under success, and refused without charge or reference under decline, stored before it is answered; the attempt is counted and nothing recorded is lost |
| `PaymentsTable.FencedWriteIsOneRow` | cmd/payment-router/main.go:244-258 | the update by id and lease touches the one row under that lease, or nothing |
| `PaymentsTable.DecisionSpelledOut` | cmd/payment-router/main.go:176-199 | fresh, conflict, replay or claim, by whether the key has a row, whether the row is the same payment, whether it is final, and its age |
| `PaymentsTable.ReservedKeepsTable` | cmd/payment-router/main.go:184-220 | claim and insert keep ids unique, move the lease to this instant and leave other rows and frozen columns alone |
| `RouterProofs.WrittenKeepsInv` | cmd/payment-router/main.go:184-212 | reserving under the lock disturbs no other lock holder's row |
| `RouterProofs.FencedWriteKeepsInv` | cmd/payment-router/main.go:244-258 | a write under one lease disturbs nobody holding another |
| `RouterTheorems.StepKeepsInv` | cmd/payment-router/main.go:137-280 | every step of every attempt keeps the joint invariant, evolves the table and forgets no answer |
| `RouterTheorems.OnlyTheLeaseWrites` | cmd/payment-router/main.go:217-241 | the result is written and reported exactly when the row is pending under the attempt's lease; otherwise nothing changes and the answer is PENDING |
| `RouterTheorems.FaultsFreeTheLock` | cmd/payment-router/main.go:137-163 | a lost connection or a crash frees the attempt's lock and no other, and changes nothing durable |
| `RouterTheorems.SupersededIsFencedOut` | cmd/payment-router/main.go:184-191 | while a later claim is in flight the earlier attempt has lost its lock and its write matches nothing |
| `Guarantees.SupersededForEver` | cmd/payment-router/main.go:244-246 | once the row has moved to a later lease, no write under the old one ever touches the table in any continuation |
| `RouterTheorems.OneAttemptAtATime` | cmd/payment-router/main.go:137-163 | without lost connections at most one attempt per key is between reservation and write, across replicas and colliding lock ids, and its write matches exactly its row |
| `RouterTheorems.HoldersRowIsUntouched` | cmd/payment-router/main.go:137-140 | no other attempt's step changes the row of an attempt that still has its lock |
| `RouterTheorems.TerminalAnswersAgree` | cmd/payment-router/main.go:182-198 | any two terminal answers for a key are the same answer, and it is the row |
| `RouterTheorems.WrittenKeepsPace` | cmd/payment-router/main.go:184-191 | after n claims the lease is at least n delays (less clock skew) past creation |
| `RouterTheorems.CallsAreRateLimited` | cmd/payment-router/main.go:38-52 | the router's own provider attempts for a key are at most 1 + elapsed / (delay - skew) |
| `RouterPayload.ProviderSeesTheFrozenRequest` | cmd/payment-router/main.go:205-223 | the provider is called while the row holds what this attempt sent, on the bank exactly for a bank transfer |
| `RouterPayload.StepKeepsCallsKnown` | cmd/payment-router/main.go:259-280 | a final result, in flight or recorded, belongs to a call really sent to the row's gateway |
| `RouterServer.Server.Reserve` | cmd/payment-router/main.go:164-220 | which decision is taken, in terms of what is stored and what was sent; a fresh row holds the payment as sent, pending, on the bank exactly for a bank transfer; a claim changes the note and the lease alone; a duplicate id is refused |
| `RouterServer.Server.PersistResult` | cmd/payment-router/main.go:244-258 | exactly the pending row with this id under this lease takes status, reference and error; success is reported if and only if one row was updated and the write was acknowledged |
| `RouterServer.Server.Charge` | cmd/payment-router/main.go:259-280 | while others go on, a call the breaker lets through reports to it exactly once: a verdict, FAILED included, closes it, an uncertain result adds one failure; a refused call reports nothing, sends nothing and is PENDING |
| `RouterServer.Server.Settle` | cmd/payment-router/main.go:221-241 | with the connection kept and the write acknowledged, row and answer are the provider's verdict of a call the breaker let through and heard of, or a refusal it really gave; in every case a terminal answer is the row |
| `RouterServer.Server.Create` | cmd/payment-router/main.go:102-242 | among concurrent attempts, exactly which of the answers is given: bad request unless payable, conflict exactly for another payment, replay as stored, or reserved, charged through the breaker and answered with what was recorded when nothing fails; a payment answer is about a row holding what was sent, and a terminal one is that row |
| `RouterServer.Server.Get` | cmd/payment-router/main.go:281-305 | a lookup returns the row with that id and its frozen request, or not found exactly when no row has the id |
| `SystemProofs.RouterStepKeepsInv` | cmd/payment-router/main.go:217-235 | each router step keeps the joint invariant over table, results in flight, both ledgers and the order cache |
| `SystemProofs.GatewayStepKeepsInv` | cmd/gateway-mock/main.go:126-253 | so does each gateway step, duplicated, late or crashed |
| `SystemProofs.OperatorKeepsNeverAhead` | cmd/payment-operator/main.go:113-226 | so does each operator step, including the unlocked write-back |
| `SystemProofs.PostKeepsInv` | cmd/payment-operator/main.go:299-332 | and so does a post, which is an operator and a router step at once |
| `SystemProofs.RouterFaultsCanStrike` | cmd/payment-router/main.go:137-241 | wherever an attempt stands it may vanish, lose its connection, be refused by the breaker, hear nothing or a 4xx, and lose its write or the acknowledgement |
| `SystemProofs.FaultsCanStrike` | cmd/gateway-mock/main.go:136-188 | a provider may crash at any time, its client may leave, its write may fail, and the operator may give a request up |
| `SystemProofs.RequestsAreTaken` | cmd/payment-operator/main.go:113-121 | a post is taken up unless its key belongs to another public request, a lookup whenever there is an order |
| `SystemProofs.PostBegins` | cmd/payment-operator/main.go:110-121 | a terminal order is told at once, a pending one is refreshed, without an order the payment is placed |
| `SystemProofs.PostSpelledOut` | cmd/payment-operator/main.go:123-133 | a first post is the public request, a repost the frozen request of a payment found pending; an unheard repost leaves the looked-up payment in hand |
| `SystemProofs.FirstRequestFinishes` | cmd/payment-operator/main.go:192-210 | a first request stores and tells exactly its payment, or nothing if another order stands there |
| `SystemProofs.ReplayFinishes` | cmd/payment-operator/main.go:134-149 | a replay writes what it got into its order and tells it, or tells the order as it was |
| `SystemProofs.LookupFinishes` | cmd/payment-operator/main.go:352-372 | a lookup tells what it got whether or not its write-back was done, and the write-back changes the result alone |
| `Guarantees.ExecIsGood` | cmd/payment-router/main.go:102-258 | every schedule of all services keeps the joint invariant and takes back nothing durable or answered |
| `Guarantees.AtMostOneCharge` | cmd/gateway-mock/main.go:171-187 | in every reachable state a key has at most one charge over both processes and both maps, on the gateway frozen in its row |
| `Guarantees.CountersCountKeys` | cmd/gateway-mock/main.go:47-50 | the two effective-charge counters add up to the number of charged keys, all of them with rows |
| `Guarantees.KnownKeysHaveRows` | cmd/payment-router/main.go:205-217 | every key a gateway knows, charged, refused or being decided, in memory or on disk, has a durable row naming that gateway |
| `Guarantees.GatewaysAreAccounted` | cmd/gateway-mock/main.go:136-143 | in every reachable state, charges equal approved entries in memory and on disk, and with the waiting requests stay within attempts |
| `Guarantees.ProviderAnswersAgree` | cmd/gateway-mock/main.go:138-188 | all 200 answers ever given for a key, by either process, are one answer |
| `Guarantees.ChargeIsForever` | cmd/gateway-mock/main.go:291-315 | a charge keeps its reference in every later state |
| `Guarantees.RowsTellTheTruth` | cmd/payment-router/main.go:217-235 | SUCCEEDED has its charge under the same reference; FAILED has a recorded refusal and no charge unless a 4xx made it fail |
| `Guarantees.RowsArePayable` | cmd/payment-router/main.go:205-212 | every row in every reachable state is a payable canonical request under its own digest, on the bank exactly for a bank transfer |
| `Guarantees.TerminalIsForever` | cmd/payment-router/main.go:170-241 | a terminal router answer is the row in every later state, and all terminal answers for the key are equal in every field |
| `Guarantees.OneTerminalWrite` | cmd/payment-router/main.go:244-246 | a terminal row and all frozen columns never change again in any run |
| `Guarantees.OrdersNeverAhead` | cmd/payment-operator/main.go:334-372 | order id, payment id and router id coincide, and a terminal order says what the row says |
| `Guarantees.PublicRepliesNeverAhead` | cmd/payment-operator/main.go:134-149 | a terminal public reply is the router's row for ever, and all terminal replies for a key are equal |
| `Guarantees.PublicSuccessIsCharged` | cmd/payment-operator/main.go:192-210 | public SUCCEEDED means one charge under the gateway and reference told to the client |
| `Guarantees.AttemptsAreRateLimited` | cmd/payment-router/main.go:184-191 | the rate limit holds in every reachable state |
| `Guarantees.SendsAreRateLimited` | cmd/payment-router/main.go:38-52 | the provider calls a run sends for a key, counted over its steps, are at most 1 + elapsed / (delay - skew) |
| `OrderPayments.RunKeepsMatch` | cmd/payment-operator/main.go:174-199 | every run keeps orders, requests being placed and rows about one payment |
| `OrderPayments.OrdersAreTheirPayments` | cmd/payment-operator/main.go:192-199 | in every reachable state an order's public request and the router's stored request agree in parties, amount, currency and reference, and a SUCCEEDED order's payment is charged under the order's reference |
| `Recovery.AttemptStaysOnCourse` | cmd/payment-router/main.go:178-241 | an attempt posted with the frozen request and suffering no fault stays on its way to a final answer whatever all other attempts do |
| `Recovery.EveryUnharmedReplayConcludes` | cmd/payment-operator/main.go:114-148 | in every schedule, whatever everybody else does, a replay of a pending order whose own steps suffer no fault and that gets its answer leaves row, order and reply final and equal, with the gateway's disk behind them unless a 4xx answered |
| `Recovery.PaymentIsReposted` | cmd/payment-operator/main.go:123-133 | look up, then post: the router attempt it starts carries exactly the stored request |
| `Recovery.RepostSettles` | cmd/payment-router/main.go:184-241 | that attempt claims, calls and records: lock, lease, provider call, decision and fenced write in this order |
| `Recovery.ReplayRecovers` | cmd/payment-operator/main.go:120-141 | from any reachable state with a stale pending payment and a free lock, the written-out schedule of one public replay, an instance of `EveryUnharmedReplayConcludes` after whoever holds the gateway's mutex is done, runs to its end and drives row, order and reply to the gateway's decision |
| `Recovery.ReplayCatchesUp` | cmd/payment-operator/main.go:123-140 | a pending order whose payment has finished catches up by look up and write alone, with nothing posted |
| `Schedules.RefusedIsNeverCharged` | cmd/gateway-mock/main.go:152-169 | a recorded refusal is final in every continuation |
| `Schedules.RunRejectsNothing` | internal/payments/adapters.go:115-120 | in a run without a 4xx answer other than 408 no row and no result in flight ever carries the 4xx text |
| `Schedules.FailedIsNeverCharged` | internal/payments/adapters.go:113-120 | after such a run a FAILED payment is not charged, and no continuation charges it, 4xx answers included |
| `Schedules.FailedMayBeChargedIff` | internal/payments/adapters.go:115-120 | a FAILED payment can be charged now or later if and only if a 4xx made it fail and the gateway has not refused the key |
| `Schedules.RejectedPaymentCanBeCharged` | internal/payments/adapters.go:118-120 | that family is inhabited for every valid first request |
| `Schedules.AttemptsCanOverlap` | cmd/payment-router/main.go:184-191 | for every valid request some run has two attempts at their provider call for one key, the first fenced out by the second's lease |
| `OperatorServer.Service.RetryPending` | cmd/payment-operator/main.go:299-332 | reposting the frozen request is never a conflict or a first request; when nothing fails the payment is final, not yet due, or charged and recorded by this post, and the row is the answer |
| `OperatorServer.Service.Refresh` | cmd/payment-operator/main.go:228-258 | answers exactly when the lookup succeeds: with the row as read, or after a repost of which nothing fails with the settled row |
| `OperatorServer.Service.Replay` | cmd/payment-operator/main.go:114-149 | told exactly when the commit is acknowledged; a terminal order unchanged from the cache, a pending one as looked up or settled, and the order then says what the reply says |
| `OperatorServer.Service.Place` | cmd/payment-operator/main.go:155-210 | exactly when the router's answer becomes order and reply, and field by field what they then hold: this request and this payment, whose row has its parties, amount, currency and reference; a healthy post is paid unless turned down |
| `OperatorServer.Service.Create` | cmd/payment-operator/main.go:75-211 | malformed or conflicting requests change nothing; a known order is replayed and an unknown one placed with all that `Replay` and `Place` promise; a told payment's order holds this very request; no reply and no order runs ahead of the router |
| `OperatorServer.PostTwice` | cmd/payment-operator/main.go:113-149 | after a told first POST the same request is never refused as another payload, and two final replies are equal |
| `OperatorServer.Service.Get` | cmd/payment-operator/main.go:334-373 | unknown exactly when no order has the id; with a lookup the answer is the router's row at that moment, also written back; without, the cached order; the unlocked write-back gets nothing ahead |
| `CircuitBreaker.Circuit.Allow` | internal/payments/circuit.go:22-34 | refuses exactly when the failures since the last success or expired reset, in the object's own call history, have reached the threshold and the newest is younger than the cooldown |
| `CircuitBreaker.Circuit.Failure` | internal/payments/circuit.go:36-43 | the fields stay the digest of the object's call history |
| `CircuitBreaker.FieldsRefineHistory` | internal/payments/circuit.go:11-43 | counter and timestamp are a digest of the list of failures since the last success or expired reset |
| `CircuitBreaker.RefusesIff` | internal/payments/circuit.go:22-34 | Allow refuses if and only if that list has reached the threshold and its newest failure is younger than the cooldown |
| `CircuitBreaker.OnlyFailuresTrip` | internal/payments/circuit.go:22-43 | fewer than threshold failures since the last success never make Allow refuse |
| `CircuitBreaker.VerdictsNeverTrip` | cmd/payment-router/main.go:259-280 | calls that all end in a verdict never make an untripped breaker refuse |
| `CircuitBreaker.LoadBound` | internal/payments/circuit.go:22-43 | after any history, a window shorter than the cooldown with only PENDING answers and at most c calls in flight admits at most threshold + c - 1 calls |
| `CircuitBreaker.LoadBoundIsMet` | internal/payments/circuit.go:22-43 | for every threshold, cooldown and c some window meets the bound |
| `Telemetry.Metrics.CountLatency` | internal/payments/telemetry.go:28-38 | the nested loops increment exactly the buckets whose bound holds the latency |
| `Telemetry.Metrics.Count` | internal/payments/telemetry.go:22-38 | every counter stays the tally of all observations, modulo the word size |
| `Telemetry.Metrics.CountersAreWords` | internal/payments/telemetry.go:15-20 | every counter is its tally modulo 2 to the power 64 |
| `Telemetry.Metrics.HistogramIsCumulative` | internal/payments/telemetry.go:22-54 | until a counter wraps, bucket i is the number of observed latencies up to 50, 100, 250, 500, 1000 or 5000 ms, buckets are cumulative and bounded by requests, failures are the observations that were not ok |
| `Uuid.VersionFourLayout` | cmd/payment-router/main.go:314-323 | 36 characters, dashes at four places, lower-case hex elsewhere, version 4 and variant 10 (section 5.4 of RFC 9562) |
| `Uuid.BytesArePrinted` | cmd/payment-router/main.go:321-322 | each byte is printed as its two hexadecimal digits, high nibble first, at its place between the dashes |
| `Uuid.CollisionIffFreeBitsAgree` | cmd/payment-router/main.go:319-320 | two draws print alike if and only if their 122 free bits agree |
| `Uuid.NewUUID` | cmd/payment-router/main.go:314-323 | the buffer is masked in place and the printed text parses back to it |

## Left out

- HTTP, JSON, SQL drivers, pools, TLS, tracing, tokens and environment reading: plumbing, present only as answers and faults.
- Provider ledgers without a configured state file: nothing survives a restart there, so deduplication across restarts cannot hold.
- The operator's transaction lock: the theorems hold without it, so the system machine does not take it.
- `updated_at` and `created_at` of orders, and agreement of creation times between public POST and GET: they come from different clocks and tables.
- Monotonicity of the order row: the unlocked write-back can put an older PENDING over a terminal order; only "never ahead" holds.
- Recovery when the operator never stored its order: it then re-derives the instrument and may conflict at the router.
- Legacy rows in the machines: runs start from an empty table, so legacy digests appear only in `Replay`.
- Metrics read while `Count` runs, and the counting call at the end of the handlers: counters are covered between calls.
- Participant lookup, roles and role normalisation: short filters, present as one optional instrument.
- Statuses other than the three words in stored rows: the services only write these three.
- ReplayRecovers: it runs to its end by a schedule nothing else interrupts. Under interference `EveryUnharmedReplayConcludes` says what a replay that gets its answer ends with, not that it gets one: fairness of locks and of the network is not modelled.
