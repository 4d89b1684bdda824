# Flagship lab: the event and audit backbone

A Dafny model of the transactional core of `flagship_lab`, with proofs about all of its runs. Tables
are fields or maps, a service call is a method, and a transaction commits whole or changes nothing.
Where the program interleaves, a state machine takes one step at a time and its theorems quantify
over every sequence of steps; the methods are proved equal to runs of those machines or to the
functions that the machines are built from.

| module | what it models |
|---|---|
| `Ordering`, `Maps`, `Text`, `Decimals` | sorting, finite maps, Python's `strip`, `upper` and 28-digit decimals |
| `Tables`, `HashChain`, `AuditCore` | the audit and outbox rows, the tenant hash chain, append and verify |
| `Ledger`, `Idempotency` | many domain transactions open at once, with their locks and their idempotency records |
| `Outbox`, `BatchRun`, `Worker`, `StuckRows` | claiming, retrying, dead-lettering, replaying, consuming; the polling worker, and when it cannot raise |
| `Delivery`, `Draining` | workers, replays and consumers interleaved, with a publisher that fails at will; how far several workers get |
| `Backbone` | domain commits and delivery together, end to end |
| `TaxRules`, `VatCheck`, `RuleRun`, `Generator` | the rule engine, the VAT rule, one rule run, the synthetic invoices |
| `Retry`, `TaxFlow`, `StoredRuns`, `TaxHistory`, `TaxCalls` | idempotency keys, ingest and rule runs, what they leave in the tables and what each call stores |
| `TaxReview` | the four-eyes review of a run, read off the audit chain |
| `ControlPulse`, `CaseHistory`, `ControlCalls` | control events, cases and their transitions |
| `EventStream`, `StreamProcessor`, `DirectIngest` | the JSONL stream, its checkpointed processor, and events that come in beside the stream |
| `RiskGraph` | shared accounts, three-cycles and the sorted report |
| `Backup`, `Restore`, `AuditBackup` | the logical backup and its restore, also of a running system's audit table |

What the model takes as given: row locks with SKIP LOCKED, advisory locks held to the end of the
transaction, distinct lock scopes as distinct locks, unique and foreign keys that abort the
transaction, and sequences that never hand out an id twice. SHA-256 is any function with 64-character
digests; where a claim needs collision-freedom, the lemma returns the two colliding inputs instead of
assuming it away. JSON texts are normalised values. Clock readings and fresh identifiers are arguments
of each step. `Numeric` columns are exact integers scaled by 10^4 and 10^6.

## What the proofs found in the code

- A row with `published_at` set need not show an attempt. `replay_dead_letter` reads the dead letter
  before it writes and its update does not test `published_at`. Two replays that both read the same
  unreplayed dead letter, with a publication between their writes, leave a published row with
  `attempts` 0. `Delivery.LateReplayZeroes` is such a run, and `Delivery.PublishedCountedExactly`
  proves that this is the only way.
- A batch that exhausts a row which already has a (replayed) dead letter hits the unique key of
  `dead_letter_events` and rolls back, after messages of the batch have been delivered. So the worker
  may raise and need not drain: it can never raise if and only if no waiting row has an earlier dead
  letter (`StuckRows.NeverRaisesIff`); `StuckRows.DeliveredThenRolledBack` is such a batch, and
  termination (`Worker.Terminates`) is stated under that condition.
- `_cycles_of_three` announces cycles on three nodes but does not compare `a` with `c`: a node with a
  self-loop and a partner that points back is recorded as a cycle too. `RiskGraph.SelfLoopReported`
  is a graph of two nodes where the report lists one, and `RiskGraph.OnlyTrianglesIff` gives the exact
  condition.
- `restore` commits before it verifies. A backup whose chains were already broken raises an error, but
  the destination has been replaced by then: `Restore.BackupService.Restore` says exactly when, and
  `Restore.RestoreBroken` restores such a backup of one forged audit row.
- An amount of less than 0.0051 between the tax and amount times rate is never flagged, a little more
  than half a cent, because the stored tax has only four places; `VatCheck.VatBounds` and
  `VatCheck.VatBoundsTight` give both bounds and show that they are exact.
- `generate_transactions` turns a "duplicate" in the first row, which has no predecessor, into an
  extreme amount; such rows break the VAT rule unless their rate is 13 percent.

## Model

| member | source | states |
|---|---|---|
| AuditCore.AuditStore.AppendOutboxEvent | src/flagship_lab/core.py:90-102 | one unpublished row with no attempts goes into the outbox, the audit table stands |
| AuditCore.AuditStore.AppendAuditEvent | src/flagship_lab/core.py:105-153 | the audit row hashes its content on the tenant's last hash, and the outbox row carries the module, the event type and that hash, column by column, in one state change |
| AuditCore.AuditStore.VerifyAuditChain | src/flagship_lab/core.py:156-177 | the verdict on the tenant's rows in id order is the longest verifying prefix and the first bad row's hash |
| AuditCore.VerifyRows | src/flagship_lab/core.py:162-177 | the loop computes that verdict |
| AuditCore.RowAppended | src/flagship_lab/core.py:116-121 | a row above its tenant's rows comes last in that tenant's chain and appears in no other |
| AuditCore.AppendExtends | src/flagship_lab/core.py:116-145 | appending to a verifying chain gives a verifying chain, one record longer |
| AuditCore.AppendAuditKeepsChains | src/flagship_lab/core.py:105-145 | one append keeps every tenant's chain verifying, adds one to the owner's count and leaves other tenants' rows alone |
| AuditCore.AppendAuditAnnounces | src/flagship_lab/core.py:146-152 | the append adds exactly one waiting outbox row on the topic of audit events, whose payload holds the new audit row's module, event type and hash |
| AuditCore.UniqueHashNeverFires | src/flagship_lab/sql_models.py:29-32 | an append that repeated a hash of its tenant would exhibit a collision |
| AuditCore.AuditBinding | src/flagship_lab/core.py:156-177 | two verifying chains of a tenant with the same last hash are equal row by row, ids aside, or exhibit a collision |
| HashChain.Binding | src/flagship_lab/core.py:124-133 | the same for any hash chain |
| HashChain.NoRepeat | src/flagship_lab/core.py:124-133 | no hash repeats along a verifying chain, or a collision is exhibited |
| HashChain.VerdictExact | src/flagship_lab/core.py:156-177 | the verdict is unique, valid exactly for verifying chains, and no longer prefix verifies |
| Ledger.AppendContinues | src/flagship_lab/core.py:113-145 | under the tenant lock, an append on top of committed and own rows continues the chain |
| Ledger.CommitCommitted | src/flagship_lab/core.py:72-80 | a commit keeps every tenant's chain sound and the pairing of audit and outbox rows |
| Ledger.AppendIsARun | src/flagship_lab/core.py:105-153 | a transaction with one append and no other around leaves what append_audit_event leaves |
| Ledger.RunKeeps | src/flagship_lab/core.py:105-153 | every interleaving of begins, locks, appends, commits and aborts keeps the invariant |
| Ledger.EveryChainVerifies | src/flagship_lab/core.py:105-177 | in every reachable state each tenant's chain verifies with the count of its committed appends, in commit order, one outbox row per audit row |
| Ledger.OtherTenantsStand | src/flagship_lab/core.py:113-121 | only a commit of a tenant changes that tenant's chain |
| Ledger.WaitsUpward | src/flagship_lab/taxflow.py:99-102 | a transaction only waits for one further on in the lock order |
| Ledger.Progress | src/flagship_lab/taxflow.py:99-102 | in every reachable state with an open transaction, the next lock or commit of some transaction goes through |
| Ledger.AllFinish | src/flagship_lab/core.py:113-121 | from every reachable state locks and commits alone finish all open transactions, in at most three steps each |
| Ledger.NoDeadlock | src/flagship_lab/taxflow.py:99-102 | waits never form a cycle, a chain of waits has at most three members, and some open transaction can always go on |
| Idempotency.RunKeeps | src/flagship_lab/taxflow.py:94-122 | concurrent calls in any interleaving keep records, key locks and the ledger consistent |
| Idempotency.OneRecordPerKey | src/flagship_lab/taxflow.py:94-122 | in every run a key's record is written at most once, the unique key of the records never fires, and a call that has read sees the committed record, with no audit rows of its own if there is one |
| Idempotency.RecordStays | src/flagship_lab/taxflow.py:116-122 | a committed record never changes |
| Idempotency.LaterHoldersRepeat | src/flagship_lab/taxflow.py:99-113 | once a record is committed every later holder of its key finds that record, cannot work, commits exactly if its request hashes alike, and then changes nothing |
| Outbox.ClaimIdsSpec | src/flagship_lab/outbox.py:49-55 | the claim is the lowest claimable unlocked ids, in order, up to the limit: whatever is left out is above everything taken |
| Outbox.AfterAttemptPhase | src/flagship_lab/outbox.py:64-80 | one attempt puts a waiting row in exactly one phase and uses one attempt |
| Outbox.RecordAttempt | src/flagship_lab/outbox.py:64-81 | the columns of the row and of the dead letter after one attempt, the error clipped to 2000 characters, and when the unique key is violated |
| Outbox.FirstConflict | src/flagship_lab/outbox.py:71-75 | the first claimed row whose attempt violates the unique key of dead letters |
| Outbox.Attempts | src/flagship_lab/outbox.py:56-82 | the loop settles every claimed row by its attempt, or rolls back at the first conflict with what was sent before staying sent |
| Outbox.OutboxStore.PublishBatch | src/flagship_lab/outbox.py:44-82 | limits outside 1 to 1000 are refused; otherwise tables, messages and counts are those of that batch |
| Outbox.BatchCounts | src/flagship_lab/outbox.py:82 | a batch reports the rows it selected, the messages it sent, and the rest as failed |
| Outbox.SettleRowsOk | src/flagship_lab/outbox.py:64-80 | a batch keeps every row in one of the three phases within its attempt budget |
| Outbox.SettleLettersOk | src/flagship_lab/outbox.py:65-75 | a batch keeps rows dead-lettered exactly when an unreplayed dead letter copies them |
| Outbox.OutboxStore.ReplayDeadLetter | src/flagship_lab/outbox.py:84-94 | a known unreplayed dead letter is marked replayed and its row starts afresh; anything else is refused and changes nothing |
| Outbox.RevivedOk | src/flagship_lab/outbox.py:91-94 | a replay keeps the phases and the dead-letter correspondence |
| Outbox.OutboxStore.Process | src/flagship_lab/outbox.py:123-135 | effect and receipt are written together or not at all, a duplicate writes neither |
| Delivery.CommitPublishes | src/flagship_lab/outbox.py:78-80 | committing a batch publishes exactly the rows it delivered |
| Delivery.AttemptConserved | src/flagship_lab/outbox.py:59-63 | an acknowledged delivery is accounted for by its open batch |
| Delivery.RunKeeps | src/flagship_lab/outbox.py:44-135 | every interleaving of enqueues, claims, deliveries, commits, aborts, replays and consumer steps keeps the invariant, among it that deliveries equal aborted deliveries plus published plus in flight |
| Delivery.RowPhases | src/flagship_lab/outbox.py:49-94 | in every reachable state a row is waiting with attempts left, published, or dead-lettered with all attempts used and one unreplayed dead letter that copies it and gives its last error as the reason |
| Delivery.PublishedStays | src/flagship_lab/outbox.py:66-70 | once published, always published, replays included |
| Delivery.DeliveryBound | src/flagship_lab/outbox.py:49-81 | open batches hold disjoint claims, and a row is delivered at most once more often than aborted batches delivered it; a published row was delivered |
| Delivery.EffectsOnce | src/flagship_lab/outbox.py:123-135 | each consumer applies an event at most once, has a receipt exactly if it did, and applies outbox rows only |
| Delivery.PublishedCountedExactly | src/flagship_lab/outbox.py:84-94 | every published row shows an attempt if and only if no replay was written onto a published row |
| Delivery.TimelyReplay | src/flagship_lab/outbox.py:86-88 | a replay that still finds its dead letter unreplayed is not such a replay |
| Delivery.LateReplayZeroes | src/flagship_lab/outbox.py:84-94 | a run of two concurrent replays that ends with a published row and no attempt |
| BatchRun.BatchIsARun | src/flagship_lab/outbox.py:44-82 | one call of publish_batch is a run of the delivery machine, with the same tables and messages |
| BatchRun.ReplayIsARun | src/flagship_lab/outbox.py:84-94 | so is one call of replay_dead_letter |
| BatchRun.ProcessIsARun | src/flagship_lab/outbox.py:123-135 | so is one call of process |
| Worker.RunOutboxWorker | src/flagship_lab/worker.py:14-23 | the loop shows the outcome of its batches one after the other and ends at the first exception |
| Worker.BatchSound | src/flagship_lab/outbox.py:56-82 | without earlier dead letters a batch never raises and keeps it so |
| Worker.BatchLowersBudget | src/flagship_lab/outbox.py:49-82 | a batch that selects a row strictly lowers the sum of unused attempts, whatever the publisher does |
| Worker.Terminates | src/flagship_lab/worker.py:19-23 | after as many batches as there are unused attempts every row is published or dead-lettered |
| Worker.CleanBatch | src/flagship_lab/outbox.py:49-82 | with a publisher that does not fail, a batch delivers the lowest waiting rows up to its limit |
| Worker.DrainsInOrder | src/flagship_lab/worker.py:19-23 | any sequence of limits delivers the waiting rows once each in increasing id order, as far as the limits reach |
| Worker.DrainsAll | src/flagship_lab/worker.py:19-23 | limits that reach far enough deliver all of them and leave none |
| StuckRows.StuckRaises | src/flagship_lab/outbox.py:64-75 | while the publisher fails, a waiting row with an earlier dead letter ends the worker with an exception within as many batches as there are unused attempts |
| StuckRows.NeverRaisesIff | src/flagship_lab/worker.py:19-23 | in tables as the protocol leaves them, no publisher and no limits make the worker raise, if and only if no waiting row has an earlier dead letter |
| StuckRows.DeliveredThenRolledBack | src/flagship_lab/outbox.py:56-82 | two rows dead-lettered and replayed, then a batch that delivers the first, meets the unique key at the second and rolls back |
| Draining.CommitLowersBudget | src/flagship_lab/outbox.py:56-82 | committing a batch that claimed a row strictly lowers the sum of unused attempts, whatever else is open |
| Draining.CommitsAreBounded | src/flagship_lab/outbox.py:44-94 | however workers, replays and new rows interleave, fail and roll back, batches with work commit at most as often as there are unused attempts, plus a full budget for each replay and each new row |
| Draining.NoneWaits | src/flagship_lab/outbox.py:44-94 | after that many such commits every row is published or dead-lettered |
| Draining.KeyNeverFires | src/flagship_lab/outbox.py:71-75 | while no dead letter has been replayed no batch of any worker meets the unique key |
| Backbone.RunKeeps | src/flagship_lab/core.py:105-153 | domain transactions and the delivery protocol together keep both invariants, and the outbox holds exactly the committed events |
| Backbone.OneOutboxRowPerAuditRow | src/flagship_lab/core.py:146-152 | in every run outbox rows and audit rows correspond one to one, and the payload of the outbox row holds the module, the event type and the hash of its audit row |
| Backbone.EndToEnd | src/flagship_lab/outbox.py:44-135 | in every run effects happen at most once, exactly with a receipt, for outbox rows that announce a committed audit row; published rows were delivered |
| Backbone.ChainsVerify | src/flagship_lab/core.py:156-177 | in every run every tenant's chain verifies with the count of its committed appends |
| Decimals.HalfUpNearest | src/flagship_lab/taxflow.py:21-26 | HALF_UP is off by at most half a unit, by exactly half only away from zero |
| Decimals.HalfUpUnique | src/flagship_lab/taxflow.py:21-26 | it is the only integer with that property |
| Decimals.HalfEvenNearest | src/flagship_lab/tax_rules.py:46-49 | the context's rounding is off by at most half a unit, by exactly half only at an even result |
| Decimals.FitMeans | src/flagship_lab/tax_rules.py:46-49 | results of at most 28 digits are exact, of longer ones 28 digits stay, rounded so |
| Decimals.QuantizeNear | src/flagship_lab/taxflow.py:21-26 | money and rate keep values with no more places exactly and round finer ones by at most half a unit |
| Decimals.QuantizeTwice | src/flagship_lab/taxflow.py:40-43 | quantizing a quantized value changes nothing |
| Decimals.QuantizeMeans | src/flagship_lab/tax_rules.py:50 | read as real numbers, a quantized decimal is at most half a unit of the last place away |
| Decimals.LessMeans | src/flagship_lab/tax_rules.py:53-60 | decimals of any exponents compare as the real numbers they stand for |
| Decimals.DistanceMeans | src/flagship_lab/tax_rules.py:53 | the absolute difference is the real one, if it fits the context |
| TaxRules.ValidateRulePack | src/flagship_lab/tax_rules.py:24-38 | accepts exactly the well-formed packs and otherwise names the first fault |
| TaxRules.FindMissing | src/flagship_lab/tax_rules.py:43-45 | exactly the fields that hold nothing, in order, if every field is a column; otherwise the error of the first that is none |
| TaxRules.Multiply | src/flagship_lab/tax_rules.py:46-49 | the exact product of the factors unless it outgrows 28 digits; raises exactly if a factor is no number, with the error of the first such |
| TaxRules.EvaluateRule | src/flagship_lab/tax_rules.py:41-61 | for each operator when it flags, with which evidence, and exactly when it raises what: a blank field, a product rounded to the cent off by more than the tolerance, a text among the duplicates, an amount at or above the threshold |
| TaxRules.EvaluateMeans | src/flagship_lab/tax_rules.py:41-61 | the function that rule runs are proved with has that same meaning |
| VatCheck.ProductExact | src/flagship_lab/fastapi_app.py:43-45 | within the digit limits the product of amount and rate is exact |
| VatCheck.VatExact | src/flagship_lab/tax_rules.py:46-53 | within the limits VAT_RECALC never raises and flags exactly a tax more than a cent off the rounded product |
| VatCheck.VatBounds | src/flagship_lab/tax_rules.py:46-53 | never flagged below a deviation of 0.0051, always above 0.015 |
| VatCheck.VatBoundsTight | src/flagship_lab/tax_rules.py:46-53 | both bounds are attained |
| Generator.GenerateTransactions | src/flagship_lab/taxflow.py:56-86 | every row is the distortion of its draw, given the row before it |
| Generator.GeneratedColumns | src/flagship_lab/taxflow.py:56-86 | every column of a generated row by its draw and distortion |
| Generator.SharedOnlyByDuplicates | src/flagship_lab/taxflow.py:63-81 | two generated rows share an invoice number only if the later one was drawn as a duplicate |
| Generator.PlainTaxIsMoney | src/flagship_lab/taxflow.py:62-72 | the tax of an undistorted row is the product quantized to four places |
| Generator.GeneratedFlags | src/flagship_lab/taxflow.py:56-86 | which rules a generated row breaks, by its distortion: none without one, VAT_RECALC always with a mismatch |
| RuleRun.EvaluateRow | src/flagship_lab/taxflow.py:329-342 | the findings of all rules on one row, in rule order |
| RuleRun.EvaluateRows | src/flagship_lab/taxflow.py:187-189 | the findings of all rows, in row order |
| RuleRun.FindingsExactly | src/flagship_lab/taxflow.py:187-210 | the findings are exactly the matching (row, rule) pairs, each once, in row-then-rule order |
| RuleRun.NoRepeatedFinding | src/flagship_lab/taxflow.py:187-206 | no transaction appears twice under one rule code |
| RuleRun.DuplicatesAllOrNone | src/flagship_lab/taxflow.py:179-186 | under a rule against duplicates a row is reported exactly if another row has its invoice number |
| RuleRun.DefaultDuplicates | src/flagship_lab/tax_rules.py:8-17 | under the default pack a row is reported as DUPLICATE_INVOICE exactly if another row has its invoice number |
| RuleRun.DefaultWellFormed | src/flagship_lab/tax_rules.py:8-17 | the default pack passes validation |
| RuleRun.DefaultPackNeverRaises | src/flagship_lab/tax_rules.py:8-17 | on rows within the digit limits a run of the default pack never raises |
| Retry.Erasure | src/flagship_lab/taxflow.py:94-122 | for any keyed service, the state after any calls is that after only the first success of each key |
| Retry.UsedExactly | src/flagship_lab/taxflow.py:94-122 | a key is taken exactly if it was at the start or a call with it succeeded |
| TaxFlow.TaxFlowStore.IngestTransactions | src/flagship_lab/taxflow.py:124-150 | replayed, refused or stored together with the audit row and the key, as one transaction |
| TaxFlow.TaxFlowStore.RunTaxRules | src/flagship_lab/taxflow.py:152-229 | an invalid pack is refused first; otherwise replayed, refused or run and stored as one transaction |
| TaxFlow.TaxIsKeyed | src/flagship_lab/taxflow.py:94-122 | both operations form a keyed service |
| TaxFlow.RetryErasure | src/flagship_lab/taxflow.py:94-229 | any calls leave the state that only the first successful call per tenant, operation and key leaves |
| TaxFlow.Repeats | src/flagship_lab/taxflow.py:103-113 | a later call under a used key changes nothing; it gets the first reply if its request hashes alike and otherwise raises |
| TaxCalls.IngestStores | src/flagship_lab/taxflow.py:124-150 | a new ingest stores its rows behind the others in their order with tenant, columns and hash, an audit row that counts them, and the reply under the key |
| TaxCalls.RunStores | src/flagship_lab/taxflow.py:152-229 | a new run sees exactly its tenant's rows of that moment; run, reply and audit row agree on pack, version and counts, and the findings go in under tenant and run |
| TaxCalls.KeyTakenIff | src/flagship_lab/taxflow.py:94-122 | in every history a key is taken exactly if a call of the same tenant and operation has succeeded with it |
| TaxCalls.RepeatExactly | src/flagship_lab/taxflow.py:103-113 | a later call of that tenant and operation under the key changes nothing; it gets the first reply exactly if its rows, or its pack and version, hash alike |
| TaxCalls.BadKeyRefused | src/flagship_lab/taxflow.py:97-98 | blank keys and keys over 100 characters raise and change nothing |
| StoredRuns.TenantRowsExactly | src/flagship_lab/taxflow.py:172-178 | the rows a run reads are those at exactly the positions of its tenant's rows, once each, in id order |
| TaxHistory.AlwaysSound | src/flagship_lab/taxflow.py:187-224 | after any calls each run has exactly the findings of its pack in the rows stored before it, and each tenant's chain verifies with one row per kept call |
| TaxHistory.StoredFindingsExactly | src/flagship_lab/taxflow.py:172-211 | in every reachable state the stored findings of a run are exactly the matching pairs of a rule of its pack and a row its tenant had when it ran, once each and in order; its count of transactions is the number of those rows, and every finding names one of them and is stored under the tenant |
| TaxHistory.StoredNeverTwice | src/flagship_lab/taxflow.py:187-206 | in every reachable state no run has a transaction twice under one rule code |
| TaxReview.ReviewStore.RequestReview | src/flagship_lab/taxflow.py:231-266 | one call is its read and its write with nothing between; each error, the unchanged existing workflow, and the new one with its audit row are stated |
| TaxReview.ReviewStore.ReviewRun | src/flagship_lab/taxflow.py:268-317 | one call is its read and its write with nothing between; each error is stated, APPROVE stores APPROVED and REJECT stores REJECTED, with reviewer, comment and audit row |
| Text.CaseDoesNotMatter | src/flagship_lab/taxflow.py:269 | decisions, like target statuses, that differ only in the case of letters are the same |
| TaxReview.RunKeeps | src/flagship_lab/taxflow.py:231-317 | every interleaving of stale reads, writes and foreign audit appends keeps the review invariant and the chains |
| TaxReview.FourEyes | src/flagship_lab/taxflow.py:231-317 | in every run the tenant's audit chain verifies and contains one request row per workflow and at most one later decision row, which name what the workflow says; the decider is not the requester, and evidence goes out for approved runs only |
| TaxReview.StatusIsTheDecision | src/flagship_lab/taxflow.py:286-302 | in every run a workflow is approved, or rejected, only if its recorded reviewer began a review with the decision APPROVE, or REJECT, and the recorded comment; evidence goes out only after such an approval |
| TaxReview.FinalStays | src/flagship_lab/taxflow.py:282-304 | a decided workflow never changes again |
| ControlPulse.EvaluateEvent | src/flagship_lab/controlpulse.py:72-84 | the facts are those of the broken controls, in the order of the code |
| ControlPulse.ControlStore.IngestAndEvaluate | src/flagship_lab/controlpulse.py:30-70 | a known event id returns its stored facts and changes nothing; a new one is stored with its open cases and an audit row |
| ControlPulse.ControlStore.TransitionCase | src/flagship_lab/controlpulse.py:93-124 | refused without change, or the case moves one step with a history row and an audit row |
| ControlCalls.OpensCases | src/flagship_lab/controlpulse.py:72-84 | which events open which control's case, with which severity, in which order |
| ControlCalls.IngestStores | src/flagship_lab/controlpulse.py:30-70 | what a new event stores: its row with the hash, one open case of version 1 per fact, an audit row that counts them; what a known or unparseable one does not |
| ControlCalls.TransitionRead | src/flagship_lab/controlpulse.py:94-110 | which target texts each status accepts, and which error each refused transition gets |
| ControlCalls.TransitionStores | src/flagship_lab/controlpulse.py:111-124 | an accepted transition moves that case alone to the status asked for, and names both statuses, actor and reason in history and audit |
| CaseHistory.RunKeeps | src/flagship_lab/controlpulse.py:93-124 | every interleaving of ingests, stale reads and compare-and-swap writes keeps the case invariant |
| CaseHistory.ClosuresOf | src/flagship_lab/controlpulse.py:94-95 | a gapless walk closes the case once in four transitions |
| CaseHistory.CasesWalkTheCycle | src/flagship_lab/controlpulse.py:93-133 | in every run status, version, history and number of closures agree, and no closing actor is the event's actor |
| CaseHistory.IngestTwice | src/flagship_lab/controlpulse.py:34-54 | an event id ingested again, however much later and with whatever content, changes nothing and returns what the first ingestion returned |
| EventStream.JsonlEventStream.Append | src/flagship_lab/event_stream.py:23-38 | one record at the next offset, on the last hash; a verifying stream stays verifying |
| EventStream.ReadFromVerified | src/flagship_lab/event_stream.py:40-51 | on a verifying stream a read from an offset is the rest of the stream from there |
| EventStream.JsonlEventStream.Verify | src/flagship_lab/event_stream.py:53-64 | the verdict is the longest verifying prefix and the first bad record's hash |
| EventStream.StreamVerdictExact | src/flagship_lab/event_stream.py:53-64 | the verdict is unique and no longer prefix verifies |
| EventStream.AppendKeepsStream | src/flagship_lab/event_stream.py:25-34 | the record that append writes continues the offsets and the chain |
| EventStream.StreamBinding | src/flagship_lab/event_stream.py:53-64 | two verifying streams with the same last hash are equal, offsets included, or exhibit a collision |
| StreamProcessor.ControlStreamProcessor.ProcessRecord | src/flagship_lab/event_stream.py:86-90 | one record is ingested and then the checkpoint written, or the call stops |
| StreamProcessor.ControlStreamProcessor.ProcessAvailable | src/flagship_lab/event_stream.py:79-91 | the loop is the run of the processor machine over the fetched records, and the report counts that share of the waiting records and its cases |
| StreamProcessor.ControlStreamProcessor.Replay | src/flagship_lab/event_stream.py:93-95 | the checkpoint is reset and the whole stream processed |
| StreamProcessor.Converges | src/flagship_lab/event_stream.py:79-100 | after any chunks, replays, crashes and appends the events and opened cases are those of one pass over a prefix, first record per id, with checkpoint at most its length |
| StreamProcessor.ReplayChangesNothing | src/flagship_lab/event_stream.py:93-95 | once the stream is ingested, any further processing, replay or crash leaves events, case statuses, audit chain and outbox unchanged |
| StreamProcessor.FetchedCount | src/flagship_lab/event_stream.py:80-83 | on a verifying stream a limit m takes the first m waiting records, or all but the last -m if m is negative, and no limit takes all |
| StreamProcessor.CallEndsAt | src/flagship_lab/event_stream.py:79-91 | a call works off its share of the waiting records, by the limit alone, or stops at the first record of the stream whose timestamp does not parse |
| StreamProcessor.CatchesUp | src/flagship_lab/event_stream.py:79-91 | from any checkpoint, a full call ends with checkpoint and prefix at that first record, which is the end of the stream if and only if every record parses |
| StreamProcessor.ChunksAdvance | src/flagship_lab/event_stream.py:79-91 | calls with any limits move the checkpoint by their sum, up to the first record that does not parse |
| StreamProcessor.ChunksCatchUp | src/flagship_lab/event_stream.py:79-91 | so as many calls with positive limits as there are records before it reach it, or the end of the stream |
| DirectIngest.RunKeeps | src/flagship_lab/controlpulse.py:30-70 | stream processing and events ingested directly, in any order, keep the invariant |
| DirectIngest.NothingMissing | src/flagship_lab/event_stream.py:79-100 | with direct events in between, no event id of the ingested prefix is missing, the checkpoint does not pass the prefix, and every stored event has exactly the cases of its own facts |
| RiskGraph.ReadEdges | src/flagship_lab/riskgraph.py:68-75 | the two dictionaries describe exactly the edges between known entities |
| RiskGraph.LinksAreEdges | src/flagship_lab/riskgraph.py:70-73 | a node links to another exactly if an edge of whatever relation between known entities goes from one to the other |
| RiskGraph.SharedAccounts | src/flagship_lab/riskgraph.py:76-81 | each account with two or more distinct owners once, in any order of the dictionary |
| RiskGraph.CyclesOfThree | src/flagship_lab/riskgraph.py:88-96 | the sorted set of recorded least rotations, in any order of the sets |
| RiskGraph.CyclesExactly | src/flagship_lab/riskgraph.py:94-95 | recorded are exactly the three-node cycles and the degenerate triples of a self-loop |
| RiskGraph.OneRecordPerClass | src/flagship_lab/riskgraph.py:95 | two triples share a record exactly if one is a rotation of the other |
| RiskGraph.OnlyTrianglesIff | src/flagship_lab/riskgraph.py:94 | the records are exactly the three-node cycles if and only if no self-looped node has a partner pointing back |
| RiskGraph.SelfLoopReported | src/flagship_lab/riskgraph.py:88-96 | a graph of two nodes without a three-node cycle whose report lists one |
| RiskGraph.KeyOrder | src/flagship_lab/riskgraph.py:86 | the sort key is a total order on findings |
| RiskGraph.Investigate | src/flagship_lab/riskgraph.py:61-86 | the report is a function of the set of edges between known entities |
| RiskGraph.ReportExactly | src/flagship_lab/riskgraph.py:76-86 | what the report lists, once each and in the order of the key |
| RiskGraph.ReportOrder | src/flagship_lab/riskgraph.py:86 | of two listed findings the one with more owners comes first, as far as five; a cycle stands between accounts of four and of three owners; equals are ordered by their entities |
| RiskGraph.OnlyTheEdgeSetMatters | src/flagship_lab/riskgraph.py:65-75 | permuting, repeating or adding foreign edge rows changes nothing |
| Backup.DecodeEncode | src/flagship_lab/backup.py:104-106 | a row written to JSON and read back is the same row, decimals included |
| Backup.DeletesAreSafe | src/flagship_lab/backup.py:73-74 | deleting in reverse order breaks no foreign key at any point and ends with empty tables |
| Backup.InsertIsSafe | src/flagship_lab/backup.py:75-78 | an insert that goes through breaks no foreign key |
| Backup.TablesGoIn | src/flagship_lab/backup.py:75-78 | loading a backup never raises, and after n tables the first n equal the source |
| Backup.LoadsTheSource | src/flagship_lab/backup.py:40-78 | loading the backup of a database reproduces every table |
| Restore.BackupService.Create | src/flagship_lab/backup.py:40-57 | the envelope seals every row of every table once, in key order, column by column, and the true counts |
| Restore.BackupService.Verify | src/flagship_lab/backup.py:91-102 | the report is true: counts, one verdict per tenant, and valid exactly if all agree |
| Restore.OpensExactly | src/flagship_lab/backup.py:60-69 | an envelope opens exactly if format and algorithm are the known ones, it decrypts and the digest matches; otherwise the first failing check is reported |
| Restore.AllChains | src/flagship_lab/backup.py:97-101 | checking the tenants that have rows checks every chain |
| Restore.BackupService.Restore | src/flagship_lab/backup.py:59-89 | an envelope that does not open or load changes nothing; otherwise the destination is the loaded database, each integer sequence stands at the greatest restored id or 1, and the call succeeds exactly if it verifies |
| Restore.RowKeys | src/flagship_lab/sql_models.py:19-213 | the columns that identify a row of each table |
| Restore.NoOrphans | src/flagship_lab/backup.py:73-78 | under the foreign keys, which a restore keeps, no finding, workflow or transition is without its run or case |
| Restore.MoneyComesBack | src/flagship_lab/backup.py:104-106 | money and rates are text in a backup and come back as the same decimals |
| Restore.BrokenRestores | src/flagship_lab/backup.py:59-89 | the backup of a database with one forged audit row opens and loads, and its chains do not verify |
| Restore.RestoreBroken | src/flagship_lab/backup.py:86-89 | restoring it into an empty destination raises and leaves the forged database there |
| Restore.RoundTrip | src/flagship_lab/backup.py:40-102 | restoring a backup gives the source, and reports valid exactly if every chain of the source verifies |
| Restore.AppendAfterRestore | src/flagship_lab/backup.py:79-85 | the next id of the restored sequence is above every restored one, so an audit append with it continues its chain |
| AuditBackup.AuditReadsBack | src/flagship_lab/sql_models.py:19-29 | audit rows stored column by column are read back as they were |
| AuditBackup.BackupOfARunVerifies | src/flagship_lab/backup.py:40-102 | whatever transactions were interleaved, a backup gives the database back with the audit rows that the run committed, and its verification is valid |

## Left out

- Connections, SQL dialects, Kafka, HTTP, command line, telemetry and the React client: plumbing around the modelled transactions.
- SQLite: the locks and SKIP LOCKED of PostgreSQL are modelled, the single-writer development database is not.
- The bytes of JSON, SHA-256 and AES-GCM: library code, taken as functions. The backup nonce and the object store are arguments and an envelope in hand.
- `regintel.py`, `risk_model.py`, `regintel_eval.py`: floating-point scoring and calls into libraries.
- `admission.py`, `preflight.py`, `auth.py`, `authorization.py`, `scripts/`, `evidence.py`, `object_store.py`, `signing.py`, `operation_metrics.py`, `observability.py`: field checks, files and counters; the evidence endpoint appears only as the test of the workflow's status.
- Migrations: only their unique and foreign keys are used.
- Writes between the two selects of `run_rules` and during `BackupService.create`: each reads one state.
- The id column of `dead_letter_events`: the table is keyed by its unique `outbox_id`, so a replay names the row.
- Consumers get events that reached the broker; a consumer fed something else is not modelled.
- Columns that nothing reads back: start and completion times of runs, creation times of idempotency records, `created_at` and `retention_days` checks of stored objects.
- TaxRules.EvaluateRule: rules lacking a parameter of their operator, and thresholds or tolerances that are not numbers, are not modelled.
- TaxReview.FourEyes: one tenant's reviews; the calls that create runs are one step each, and everything else that appends audit rows is a single step that appends any row.
- StreamProcessor.Converges: events that reach the service other than through the stream are not part of the run, since they may change which event of an id comes first; `DirectIngest.NothingMissing` says what holds with them.
- Idempotency.LaterHoldersRepeat: the work of a call is any appends to the audit log; what the calls write into the tax tables is the subject of `TaxFlow`, one call at a time.
- CaseHistory.CasesWalkTheCycle: a case is named by its place in id order, so gaps in the id sequence do not show.
- Backup.LoadsTheSource: the order of the tables is any order with parents first, not the particular one SQLAlchemy picks.
- RiskGraph.Investigate: explanation and evidence texts, which the listed owners or the cycle determine, and edge amounts are not modelled; nor are `add_entities` and `add_edges`.
