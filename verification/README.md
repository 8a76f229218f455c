# The SDK-governed execution contract, modelled and proved

The Clavenar SDK lets a tool run only under an authorization that the Proxy signed for one exact payload. A call
prints its request as a canonical envelope, asks for a decision, stores its intent and marks the authorization in
flight in one atomic step, invokes the registered executor, stores the effect together with a signed receipt, delivers
the receipt and marks it delivered. When the outcome of an executor call is unknown, the caller gets an uncertain
handle; reconciliation may look the effect up, and never runs the tool again.

This project models that protocol and proves what it promises over whole runs.

- `Protocol.dfy` is a state machine. Every public call is a thread with a program counter, every await point is one
  step, and the answers of the Proxy, the executor, its lookup and the store's connection are arbitrary (a store call
  may be lost before or after it takes effect). Any number of threads interleave over one store, may be cancelled at
  any point, and are all lost in a crash that keeps the store. `World.log` records what happened, in order.
- `DurableStore.dfy` is the reference store: a class that updates its fields in place, specified by functions on its
  state, with the invariants each operation keeps.
- `Client.dfy` is the SDK's control flow as it runs: methods that call the store, the executor and the Proxy one
  after the other, each proved to take exactly the machine's steps (`Solo.Alone`). `Solo.SoloIsARun` turns such a lone
  call into a run of the machine from any world, so the results about all runs apply to it.
- `ProtocolInvariant.dfy` and `Runs.dfy` prove the inductive invariant, `Ownership.dfy` which call left which event
  behind; `Guarantees.dfy` states what follows for every run, `Losses.dfy` when the outbox loses a receipt, `Recovery.dfy`
  what can still be done from every reachable world, and `Limits.dfy` gives runs that show where the guarantees stop,
  with exact conditions.
- `Fields.dfy` says in plain fields what each record holds, `Contents.dfy` that every record of every reachable world
  holds it, `Answers.dfy` how each call answers to each answer it is given, and `Checks.dfy` what each check lets through,
  at its bounds and one field at a time.
- `Json.dfy`, `JsonParser.dfy` and `JsonRoundTrip.dfy` hold values, documents that list the members of each object in
  any order, canonical JSON, a parser for the grammar of sections 2 to 7 of RFC 8259, and the proof that writing can be
  uniquely decoded; `WireText.dfy` gives the exact text, character by character. `Requests.dfy`, `Batches.dfy`,
  `Uncertain.dfy` and `Receipts.dfy` build on it: what a handle, a batch authorization and a signed receipt pin down.
- `PercentEncoding.dfy`, `AuditQuery.dfy`, `BodyReader.dfy` and `SameSet.dfy` are the smaller algorithms.

Idealisations. SHA-256 and ES256 are arbitrary functions (`Records.Crypto`); no digest is assumed injective, and a
result that needs it names the `Collision` instead. A JSON object is a map, as `serde_json::Map` is; numbers are
integers. A UUID is 16 bytes. `str::len` is the UTF-8 length.

## What the code does not promise

- At most one executor call per *request identity* is not the SDK's promise alone: `Limits.RepeatsExactlyWhenIdsDiffer`
  shows that two granted calls, of one request or not, can both reach the executor exactly when their authorization ids
  differ. It holds when the Proxy retains decisions, as `contracts/stable-request-identity-v1.json:21` asks
  (`Guarantees.ExecutorOncePerRequest`).
- `contracts/durable-execution-outbox-v1.json:41` promises that a failed delivery remains pending. The reference store
  marks by outbox id, which depends on the authorization id only, so the outbox is one queue per outbox id
  (`Guarantees.OutboxConserved`) and a mark takes the head of the queue, whichever receipt was confirmed.
  `Losses.MissesExactly` gives the guard: a step makes a receipt missing exactly when it is a mark and the head of the
  queue it marks is the last copy of that receipt, never confirmed. That needs a confirmed rival of the same
  authorization (`Guarantees.MissingToRival`), so it cannot happen while the completions of an authorization agree
  (`Guarantees.NoReceiptLost`). Once no live call holds the receipt it is lost in every continuation
  (`Losses.StrandedIsLost`), in particular after a crash (`Losses.CrashLoses`). It does happen: in the run of
  `Limits.ReceiptLostInRace` the delivery of a receipt fails after a rival's mark has taken it from the outbox.
- An accepted authorization may carry nil ids or empty identity fields, and the uncertain handle built from it then
  fails reconciliation's own check. It passes exactly when the identity is there (`Uncertain.HandleStaysUsable`); a
  run that ends with such a handle exists (`Limits.HandlesCanBeUnusable`), and an execution in flight can be
  reconciled to success exactly when its authorization carries an identity (`Recovery.RecoverableExactly`).
- A modified batch payload need not be a JSON object: a positional array decodes too, so it is accepted
  (`Batches.PositionalBatchAccepted`). For payloads in object form the accepted ones are characterised exactly
  (`Batches.ModifiedBatch`).
- A modified batch keeps call ids and their order, not names or arguments (`Limits.ModifiedBatchReleased`).

## Model

| member | source | states |
|---|---|---|
| Guarantees.ExecutorAtMostOnce | src/execution.rs:1121-1204 | in every run of any number of calls, cancellations and crashes, no two executor calls carry the same authorization id |
| Guarantees.InvokedExactly | contracts/durable-execution-outbox-v1.json:24-28 | every executor call is for an intent stored, and an authorization accepted, before the call |
| Guarantees.ReleasedExactly | src/execution.rs:1036-1089 | every executor call of any governed call has that call's idempotency id; unmodified, its payload is the exact body of that call's request; for a batch it decodes to 1 to 128 distinct calls with the requested ids in order |
| Contents.RequestContents | src/execution.rs:1174-1181 | every executor call names the calling client's own executor id, and carries the idempotency id, the authorization id and the payload of an accepted authorization whose intent for that executor was stored before |
| Contents.IntentContents | src/execution.rs:1129-1141 | every stored intent carries its signed authorization and spells out its contract, stage, ids, tenant, workload, payload hash and executor |
| Guarantees.ExecutorOncePerRequest | contracts/stable-request-identity-v1.json:20-25 | if the Proxy answers a repeated request identity with the retained decision, no two executor calls carry the same idempotency id |
| Guarantees.ReconcileNeverInvokes | contracts/uncertain-effect-reconciliation-v1.json:37-44 | no reconciliation or flush ever invokes an executor, in any run |
| Guarantees.UnadmittedIsSilent | contracts/durable-execution-outbox-v1.json:6-10 | a call that is pending, was refused, found its authorization started or completed, or failed its store admission has made no executor call |
| Guarantees.SuccessIsHonest | src/execution.rs:1206-1303 | a reported success has in the log, in order: authorization, stored intent, executor call and answer (or stored intent and lookup), its completion, the Proxy's confirmation and the delivery |
| Contents.SuccessContents | src/execution.rs:1256-1281 | the completion of a reported success records the outcome's result and effect id for the client's own executor, and the outcome's receipt confirms that completion |
| Contents.CompletionContents | src/execution.rs:1256-1268 | every stored completion records a reported effect: its result, the hash of that result, its effect id, executor and ids, and a signed receipt of the same effect, under a stored intent |
| Contents.EntryContents | tests/integration.rs:227-230 | every pending entry is the receipt of a completion under the outbox id of its authorization |
| Guarantees.CompletionIsEarned | src/execution.rs:997-1016 | every completion records an effect that its executor returned or its lookup found for a stored intent; if lookups only find effects of calls that were made, an executor call precedes it |
| Guarantees.UncertainHandleUsable | src/execution.rs:1152-1203 | the handle of an uncertain execution matches an intent in the store, in flight or completed, and passes reconciliation's check if and only if the authorization carries an identity |
| Contents.HandleContents | src/execution.rs:1368-1386 | the handle of an uncertain execution spells out contract, status, ids, tenant, workload, payload hash, the client's executor and whether a lookup is registered |
| Guarantees.AlreadyCompletedIsCompleted | src/execution.rs:1166-1171 | a call told "already completed" names an authorization that is completed in the store |
| Guarantees.ReconcileKeepsHandle | src/execution.rs:1388-1398 | a reconciliation that stays uncertain returns the caller's handle with only its reason and lookup flag changed |
| Guarantees.FruitlessReconciliation | contracts/uncertain-effect-reconciliation-v1.json:37-44 | in every reachable world, a reconciliation that ended uncertain, other than by failing to persist, left no event of its own: no valid lookup, commit, confirmation or delivery |
| Guarantees.FruitlessLeavesStore | src/execution.rs:927-996 | no step of such a reconciliation, at any point of any run, changed the store |
| Guarantees.ReconcileCommitsLookup | src/execution.rs:997-1016 | whatever a reconciliation commits in any run is the effect its own earlier lookup found, under the authorization of a stored intent that matches its handle |
| Guarantees.ResumedExactly | src/execution.rs:1036-1089 | an executor call of a resumed call has the handle's idempotency id, the handle's correlation id, and if unmodified exactly the retained body, whose digest the handle carries |
| Guarantees.PollsKeepHandle | src/execution.rs:755-813 | after a begin and any number of resumes that stay pending, the handle is the one first returned and none of the calls invoked an executor |
| Guarantees.ResumeOfBegun | contracts/pending-authorization-v1.json:20-27 | an executor call of a resume given the handle a begin returned is for the begun request, or exhibits a digest collision |
| Answers.BeginPends | src/execution.rs:770-771 | after any run, a begin given a fitting handle returns exactly that handle and has stored nothing |
| Answers.ExecuteReviews | src/execution.rs:1019-1034 | after any run, a direct execution given a fitting handle fails with that handle as the review it needs, and has stored nothing |
| Answers.ResumePends | src/execution.rs:799-807 | after any run, a resume given a fitting handle stays pending if that is its own handle and fails otherwise, storing nothing |
| Answers.DecisionFails | src/execution.rs:1059-1087 | after any run, no decision, a handle that does not fit or a grant that is not accepted fails the call, storing nothing |
| Answers.LostCalls | src/execution.rs:1152-1155 | a store call lost before it took effect changes nothing; one whose answer is lost has done all its work |
| Answers.LostAnswers | contracts/durable-execution-outbox-v1.json:6-10 | whichever way a store call is lost, its caller is told a failure or an uncertain effect with the right reason, never a success |
| Answers.CancelEnds | contracts/uncertain-effect-reconciliation-v1.json:31-36 | cancelling ends an unfinished call where it stood and touches nothing else |
| Answers.CrashEnds | contracts/uncertain-effect-reconciliation-v1.json:31-36 | a crash ends every unfinished call and keeps the store |
| Answers.EndedStays | contracts/uncertain-effect-reconciliation-v1.json:31-36 | a call that finished, was cancelled or was lost in a crash does nothing more in any continuation |
| Guarantees.ReachableStore | tests/integration.rs:84-93 | in every reachable world the stored intents are distinct by id, an authorization is in flight exactly when its intent is stored and no completion is, and claimed ids lie among the stored ones |
| Guarantees.StoreOnlyGrows | tests/integration.rs:153-243 | over any continuation of a run stored intents, completions and deliveries are only appended to, and started and completed ids stay so |
| Guarantees.OutboxConserved | tests/integration.rs:221-280 | in every reachable world the pending entries under an outbox id are exactly the entries of its completions, in order, less one from the front for every delivery; counted by id, completions are pending plus delivered |
| Guarantees.DeliveredWasConfirmed | src/execution.rs:1284-1303 | nothing leaves the outbox before the Proxy confirmed a committed receipt of the same authorization id |
| Guarantees.DeliveriesUseConfirmations | src/execution.rs:1284-1303 | the deliveries of an outbox id, together with the calls about to mark it, are at most its confirmations: each delivery used up one of its own |
| Guarantees.ReceiptPendingExactly | tests/integration.rs:260-280 | the receipt of a completion is pending if and only if it is among the entries of its outbox id that the deliveries have not used up |
| Guarantees.MissingExactly | contracts/durable-execution-outbox-v1.json:38-44 | in every reachable world a receipt is missing (neither pending nor confirmed) if and only if the deliveries of its outbox id used up every copy of it and no confirmation was for it |
| Guarantees.MissingToRival | contracts/durable-execution-outbox-v1.json:38-44 | a missing receipt has a confirmed rival: another completion of the same authorization with another receipt |
| Guarantees.NoReceiptLost | contracts/durable-execution-outbox-v1.json:38-44 | if the completions of one authorization all carry the same receipt, that receipt is pending or was confirmed |
| Losses.MissesExactly | tests/integration.rs:260-280 | a step of any kind makes a receipt missing that was not if and only if it is a mark that takes effect and the head of the queue under the marked outbox id is the last copy of that receipt, never confirmed |
| Losses.StrandedIsLost | contracts/durable-execution-outbox-v1.json:38-44 | a missing receipt that no live call carries, and whose authorization no live call can complete again, is lost: it stays missing in every continuation |
| Losses.SettledLoses | contracts/durable-execution-outbox-v1.json:38-44 | when every call has ended, the receipts lost for good are exactly the missing ones |
| Losses.CrashLoses | contracts/uncertain-effect-reconciliation-v1.json:31-36 | after every run, a crash loses for good exactly the receipts that are missing when it happens |
| Losses.PostingSaves | src/execution.rs:1284-1303 | a receipt that some call is still about to post is not lost: one good answer of the Proxy confirms it |
| Losses.LateCallsNeverCommit | tests/integration.rs:174-187 | once an authorization is completed, no call started afterwards ever invokes, looks up or holds an effect for it, nor commits one, in any continuation |
| Losses.CompletionsBounded | tests/integration.rs:221-243 | after its first completion an authorization completes at most once more for every call engaged with it then, in any continuation |
| Recovery.AttemptRuns | src/execution.rs:915-1017 | after every run, a fresh reconciliation that loads, finds an effect and gets its confirmation completes any execution in flight whose authorization carries an identity |
| Recovery.RecoverableExactly | src/execution.rs:1400-1445 | from every reachable world, an execution in flight can still be reconciled to success if and only if its authorization carries an identity |
| Recovery.PendingValid | src/execution.rs:1525-1537 | in every reachable world each pending entry passes the check made before it is posted |
| Recovery.OutboxDrains | src/execution.rs:883-909 | after every run some continuation that starts nothing but flushes empties the outbox and completes nothing more |
| Limits.RepeatWithoutRetention | contracts/pending-authorization-v1.json:28-33 | two granted calls of any kind (execute, begin or resume; tool or batch) under different authorization ids give a run that invokes the executor for both, also when they carry one request identity |
| Limits.RepeatsExactlyWhenIdsDiffer | tests/integration.rs:159-201 | two granted calls of any kind can both reach the executor in some run if and only if their authorization ids differ |
| Limits.RequestsCanRepeat | contracts/stable-request-identity-v1.json:20-25 | such a run repeats one concrete request, by each kind of call, for a tool and for a batch, whatever the digest |
| Limits.ReceiptLostInRace | contracts/durable-execution-outbox-v1.json:38-44 | a duplicate call's handle is reconciled while the executor still runs, both complete, and then the delivery of the first receipt fails: that receipt is lost for good if and only if the two effects differ in effect id or result hash |
| Limits.ReceiptsCanBeLost | contracts/durable-execution-outbox-v1.json:38-44 | such a run exists by each kind of call, for a tool and for a batch, whatever the digest: a delivery failed and the receipt is lost in every continuation |
| Limits.HandlesCanBeUnusable | src/execution.rs:1400-1416 | some run leaves a call with an uncertain handle that reconciliation refuses, whatever the digest |
| Limits.ModifiedBatchReleased | src/execution.rs:1563-1570 | some run makes the executor run another tool with other arguments under a requested call id, from a payload that is no JSON object, whatever the digest |
| ProtocolInvariant.StepKeeps | src/execution.rs:883-1303 | each step of each call keeps the store invariant, the order of the log and the call's own history in agreement |
| Runs.ApplyKeeps | tests/integration.rs:153-281 | starting, advancing, cancelling or crashing keeps the invariant of the whole world |
| Runs.RunOk | tests/integration.rs:84-93 | that invariant holds after every run |
| Ownership.RunOwned | src/execution.rs:883-1303 | after every run each commit is of an effect its own call saw, each event names the call that left it, and fruitless reconciliations left none |
| Ownership.RunCovered | src/execution.rs:1284-1303 | after every run, deliveries and held confirmations of an outbox id are covered by confirmations |
| Solo.SoloIsARun | src/execution.rs:1121-1204 | a call that runs alone from any reachable world is a run in which only its thread advances |
| DurableStore.BeginKeeps | tests/integration.rs:153-201 | every answer to an attempt, exactly: started for an authorization without a stored intent, in flight or completed for this very intent, refused for another one; only a start changes the store, and only a single use claims the id |
| DurableStore.LoadsExactly | tests/integration.rs:203-219 | exactly the stored intent of an authorization in flight is loaded |
| DurableStore.CommitKeeps | tests/integration.rs:221-243 | committing an effect of a started authorization keeps the store invariant, the queue of every outbox id included, also for a repeated completion |
| DurableStore.MarkKeeps | tests/integration.rs:260-280 | marking takes the head of one outbox id's queue, leaves the other queues alone and keeps the store invariant |
| DurableStore.MarkRemovesDelivered | tests/integration.rs:260-280 | marking removes the delivered entry itself if and only if every entry from the first with that outbox id up to it is equal to it |
| DurableStore.MemoryExecutionStore.BeginEffectAttempt | tests/integration.rs:153-201 | the in-place attempt takes the specified transition, and changes nothing when the intent store is unavailable |
| DurableStore.MemoryExecutionStore.LoadUncertainIntent | tests/integration.rs:203-219 | the stored intent of an authorization that is in flight, and nothing otherwise |
| DurableStore.MemoryExecutionStore.CommitEffectAndEnqueueReceipt | tests/integration.rs:221-243 | the completion, the in-flight mark and the outbox entry change in one step |
| DurableStore.MemoryExecutionStore.TakePendingReceipts | tests/integration.rs:245-258 | at most the requested number of pending entries, oldest first |
| DurableStore.MemoryExecutionStore.MarkReceiptDelivered | tests/integration.rs:260-280 | the first pending entry with the id moves to the delivered list, and an unknown id changes nothing |
| Client.ClavenarClient.ExecuteAuthorization | src/execution.rs:1121-1204 | takes exactly the machine's steps; calls the executor once, with the authorized ids and payload under its own executor id, exactly when the store admitted the intent; tells its caller the outcome, handle or failure due to each answer |
| Client.ClavenarClient.CompleteKnownEffect | src/execution.rs:1206-1282 | takes exactly the machine's steps; appends a completion that records this effect, posts its receipt, succeeds exactly when the Proxy's answer confirms it, and otherwise leaves the entry pending |
| Client.ClavenarClient.DeliverOutboxEntry | src/execution.rs:1284-1303 | posts only a valid entry, marks only after a matching confirmation, and reports it only if the mark succeeded |
| Client.ClavenarClient.FlushExecutionReceiptOutbox | src/execution.rs:883-909 | success removes the first min(limit, pending) entries; a failure at entry k removes exactly the first k; the order of the rest is kept, also with duplicate outbox ids; exactly the receipts of these entries, and of the failing one if valid, were posted in order |
| Client.ClavenarClient.ReconcileUncertainEffect | src/execution.rs:915-1017 | takes exactly the machine's steps; never calls the executor; asks the lookup, exactly when the handle fits a stored intent, about the handle's own authorization, request, executor and payload; answers each case with its reason and commits only a found effect |
| Client.ClavenarClient.AcceptGrant | src/execution.rs:1036-1089 | accepts exactly the authorizations the protocol accepts for this request and handle |
| Client.ClavenarClient.PerformCall | src/execution.rs:755-813 | takes exactly the machine's steps; asks the Proxy once about the exact body, with the pending id and hash on resume, exactly when the local checks pass; is pending if and only if a fitting handle came back and the call may wait; executes only an accepted grant |
| Client.DrainHead | tests/integration.rs:260-280 | marking the entry at the head of the outbox removes exactly that entry, whatever ids follow |
| JsonRoundTrip.ParseWrite | src/execution.rs:1614-1642 | for every document, each object of it listing its members in an order of its own, parsing the written text gives the value it says |
| JsonRoundTrip.ParseCanonical | src/execution.rs:1614-1642 | the canonical form can be uniquely decoded |
| JsonRoundTrip.CanonicalInjective | src/execution.rs:1609-1642 | canonical forms are equal if and only if the values are |
| JsonRoundTrip.CanonicalIgnoresKeyOrder | src/execution.rs:1626-1640 | collecting the keys of each object in whatever order its map yields them, sorting and looking them up gives the canonical text of the value, at every depth |
| Ordering.AtMostMeans | src/execution.rs:1628-1628 | the key order: a prefix comes first, and otherwise the first differing character decides |
| WireText.CanonicalAscends | src/execution.rs:1626-1630 | the canonical text lists the members of every object, at every depth, in ascending key order |
| WireText.ObjectLiterally | src/execution.rs:1626-1640 | the canonical text of an object is its quoted keys in ascending order, each with a colon and the text of its value, between commas, and nothing else |
| WireText.ArrayLiterally | src/execution.rs:1617-1625 | the canonical text of an array is its items' texts in order, between commas, and nothing else |
| WireText.EscapedLiterally | src/execution.rs:1614-1642 | quotes, backslashes and five controls have two-character escapes, other controls four lower-case hexadecimal digits, and every other character stands for itself |
| WireText.NestedText | src/execution.rs:1654-1658 | the repository's own example of a nested object has exactly the text it expects |
| JsonRoundTrip.PermutedMembers | src/execution.rs:1626-1640 | permuting the members of an object with distinct keys does not change its value |
| JsonRoundTrip.MemberOrderIrrelevant | src/execution.rs:1626-1640 | two written documents, each object of either listing its members in its own order, read back to the same canonical text if and only if they say the same value |
| Ordering.CollectThenSort | src/execution.rs:1627-1628 | sorting any listing of a key set gives the one list of these keys that is sorted in the key order |
| Requests.ValidateModelToolCalls | src/execution.rs:1480-1500 | the loop accepts exactly 1 to 128 calls with valid names and pairwise distinct valid ids |
| Requests.BodyInjective | src/execution.rs:1326-1348 | two requests have the same wire body if and only if they are the same request, so never one single-tool and one batch |
| WireText.ToolText | src/execution.rs:1341-1348 | the exact text a single-tool request is hashed as |
| WireText.BatchText | src/execution.rs:1326-1339 | the exact text a batch is hashed as, its calls in the requested order |
| WireText.CallText | src/execution.rs:1326-1339 | the exact text of one call of a batch |
| WireText.UuidLiterally | src/execution.rs:1326-1348 | a UUID is written as 32 lower-case hexadecimal digits in byte order, with hyphens after the fourth, sixth, eighth and tenth byte |
| WireText.NilText | src/execution.rs:1400-1416 | the nil UUID that the checks refuse is all zeros |
| Checks.NameBounds | src/execution.rs:1502-1509 | names and call ids are valid exactly from 1 to 256 bytes of UTF-8 |
| Checks.BatchBounds | src/execution.rs:1480-1500 | a batch may grow by a call exactly while it has fewer than 128 and the call has valid names and a new id |
| Requests.HandleFitsOneRequest | src/execution.rs:1456-1478 | a handle that fits two requests fits one request twice or exhibits a digest collision |
| Requests.HandleFitsExactly | src/execution.rs:1456-1478 | without a collision the request a valid handle fits is exactly the one it was issued for |
| Checks.PendingTampered | src/execution.rs:1456-1478 | a fitting handle keeps fitting, field by field, exactly within its bounds: fixed contract and status, non-nil ids, this request, this digest, 1 to 86400 seconds and 1 to 60000 milliseconds |
| Checks.AuthorizationTampered | src/execution.rs:1579-1596 | an authorization stays valid, field by field, exactly with its contract, stage, request, digest and algorithm, and with another payload only by a digest collision |
| Checks.GrantTampered | src/execution.rs:1074-1087 | an accepted grant stays accepted only with the resumed handle's correlation id, and without its diff only for the requested body |
| Batches.ValidateBatchAuthorization | src/execution.rs:1539-1577 | the validator decides, for every payload, whether it decodes to valid calls with the requested ids under the fixed envelope fields |
| Batches.DecodeEnvelope | src/execution.rs:1326-1339 | decoding a batch envelope gives back exactly its calls in order |
| Batches.UnmodifiedBatch | src/execution.rs:1539-1577 | for a valid batch, an unmodified authorization is accepted if and only if its payload is the exact echo |
| Batches.ModifiedBatch | src/execution.rs:1539-1577 | a modified payload in object form is accepted if and only if it is the envelope of valid calls with the requested ids in order |
| Batches.PositionalBatchAccepted | src/execution.rs:1539-1577 | a modified payload written as nested arrays, of another call with the requested id, is accepted although it is no envelope |
| Uncertain.HandleStaysUsable | src/execution.rs:1368-1416 | after any chain of reason updates a handle still matches its intent, and passes the handle check if and only if the authorization carries an identity |
| Uncertain.HandlePinsIntent | src/execution.rs:1418-1445 | two intents one handle accepts agree on every binding and, without a collision, on the payload |
| Checks.UncertainTampered | src/execution.rs:1400-1416 | an uncertain handle keeps passing, field by field, exactly within its bounds; its reason and lookup flag are free |
| Checks.BindingTampered | src/execution.rs:1418-1445 | a handle matches an intent only while each of its seven bindings is the intent's |
| Checks.IntentTampered | src/execution.rs:1418-1445 | nor does it match once a field of the intent is replaced, or its signed authorization by one for anything else |
| Checks.ExecutorIdBounds | src/execution.rs:1511-1523 | executor ids are valid exactly as 1 to 256 visible ASCII characters |
| Checks.EffectBounds | src/execution.rs:1447-1454 | effects are valid exactly with an effect id of 1 to 256 bytes |
| Receipts.SignatureCoversReceipt | src/execution.rs:1214-1251 | removing the workload signature from a received receipt and printing the rest canonically gives exactly the signed text |
| Receipts.SignedTextPinsEffect | src/execution.rs:1214-1234 | one signed text stands for one signed authorization, every field of it included, one result hash and one effect id |
| Records.SignedAuthorizationInjective | src/execution.rs:1214-1230 | the JSON form of a signed authorization determines every field of it, an absent modification diff included |
| Receipts.OutboxIdInjective | tests/integration.rs:227-230 | outbox ids of different authorizations differ |
| Receipts.OwnEntryValid | src/execution.rs:1525-1537 | the entry of every completion the client builds passes its own delivery check |
| Checks.OutboxEntryTampered | src/execution.rs:1525-1537 | an entry keeps passing, field by field, exactly with an outbox id of 1 to 256 bytes and a completed, ES256-signed receipt of this contract |
| Checks.ConfirmationTampered | src/execution.rs:1290-1298 | an answer keeps confirming a receipt exactly with its authorization id, the contract and the completed stage |
| Fields.CompletionIs | src/execution.rs:1215-1268 | the completion built for an effect says, field by field, what it should, its receipt and signature included |
| Fields.ReceiptOnWire | contracts/execution-receipt-v1.schema.json:90-110 | each field of a receipt is on the wire under its own name |
| Fields.ReceiptMembers | contracts/execution-receipt-v1.schema.json:90-93 | a receipt on the wire has exactly the fifteen required members |
| Fields.AuthorizationMembers | contracts/execution-receipt-v1.schema.json:36-39 | an authorization on the wire has exactly the seventeen required members, and a modification diff only if there is one |
| Fields.NestedMembers | contracts/execution-receipt-v1.schema.json:15-35 | signatures and policy bundles have exactly their required members |
| PercentEncoding.Utf8RoundTrip | src/http.rs:183-186 | decoding the UTF-8 bytes of a string gives the string back |
| PercentEncoding.DecodeEncoded | src/http.rs:183-197 | percent-decoding inverts the encoder on every byte string |
| PercentEncoding.EncodedUnreserved | src/http.rs:187-189 | unreserved characters pass through unchanged |
| PercentEncoding.EncodedLiterally | src/http.rs:187-193 | each byte: letters, digits and four marks stand for themselves, every other byte is a percent sign and two upper-case hexadecimal digits |
| PercentEncoding.Utf8LengthIsBytes | src/execution.rs:1503-1503 | the length Rust gives a string is the number of its UTF-8 bytes |
| PercentEncoding.PercentEncode | src/http.rs:183-197 | the loop computes the encoding, from which the string can be read back |
| AuditQuery.QueryRoundTrip | src/ledger.rs:734-774 | splitting a rendered query on its raw separators and decoding gives exactly the present fields in order, blank methods dropped |
| AuditQuery.FieldsNamed | src/ledger.rs:735-773 | each filter field is carried under its own name with its own value, and nothing else is |
| AuditQuery.FieldsInOrder | src/ledger.rs:735-773 | the nine fields come in the fixed order |
| AuditQuery.NonBlankKeeps | src/ledger.rs:748-755 | the methods that are not blank are kept in their order |
| AuditQuery.WhitespaceIs | src/ledger.rs:752-752 | what trimming removes: the 25 characters of Unicode white space |
| AuditQuery.AppendMethods | src/ledger.rs:748-760 | the methods field is appended exactly when a non-blank method is left |
| AuditQuery.AppendQuery | src/ledger.rs:735-773 | what is appended to any path reads back as exactly the present fields |
| AuditQuery.AuditCountPath | src/ledger.rs:1259-1272 | the agent id stays one path segment that decodes to it, and the filter stays behind the question mark |
| BodyReader.ReadBodyLimited | src/http.rs:100-122 | returns the whole body if and only if declared length and total fit and no chunk fails, otherwise the first failing or overflowing chunk decides, never retaining more than the limit |
| BodyReader.OverflowDecides | src/http.rs:111-118 | once a chunk overflows, the total of any longer prefix does not fit |
| BodyReader.ConcatCons | src/http.rs:109-119 | the body is the chunks one after the other, first chunk first |
| SameSets.SortDedupDecides | src/agents.rs:441-449 | the sorted and deduplicated lists are equal if and only if the lists have the same elements |
| SameSets.SameSet | src/agents.rs:441-449 | decides whether two lists have the same elements |
| SameSets.CreateRequestMatches | src/agents.rs:417-435 | matches if and only if the identifying fields agree and all three envelopes agree as sets |
| SameSets.MatchTampered | src/agents.rs:417-435 | a matching request keeps matching, field by field, exactly while tenant, name and team are equal and the envelopes are equal as sets; the description is free |

## Left out

- HTTP, TLS, bearer headers, timeouts and status dispatch: the Proxy's answer to each request is arbitrary, and any transport or decoding failure is one failed answer.
- ES256, Ed25519, SHA-256 and base64 internals: arbitrary functions; the client checks the algorithm name of an identity signature, not its value, and so does the model.
- Missing executor, signing key or store, and stores without the required capabilities: the model's client has all three and the reference store supports both capabilities.
- The text of error messages: failures are told apart by kind only.
- `authorize_*` calls that return an authorization without executing it: they are the decision step alone.
- `commit_intent` and `claim_intent_once` of the store: the client no longer calls them.
- The `ordering` list of the test store: the run's log takes its place.
- The comparison of the queued receipt with the built one, and the limit check on the fetched outbox: neither can fail on the reference store.
- Floating-point JSON numbers: `-0.0` and `0.0` compare equal but print differently, so integers only.
- The wall-clock meaning of handle lifetimes and poll intervals, beyond their range checks.
- The library sort behind `sort` and `sort_unstable`: a sorting function proved to return the ascending permutation; `dedup` is modelled as its loop.
- Mutation of the query's `path` string through a reference: the methods return the longer string.
- Timestamps of the audit filter: given as their RFC 3339 text.
- The fixed headers and bearer token of a request to the Proxy: the identity, body and pending headers are modelled.
- URL joining and removal of dot segments: claims are about the built string, since ids "." and ".." are not escaped.
- Other path and query builders, the policy, review, simulation, pack and agent calls, and client configuration: one-request wrappers with no state of their own.
- Guarantees.NoReceiptLost: assumes that the completions of the one authorization carry the same receipt, which the reference store does not enforce; Guarantees.MissingExactly and Losses.MissesExactly have no such assumption.
- Guarantees.ExecutorOncePerRequest: assumes retained decisions, a duty of the Proxy; Limits.RepeatsExactlyWhenIdsDiffer gives the exact condition for two grants.
