/**
 The execution protocol as a state machine. Each client call is a thread with a program counter; every await point
 of the SDK is one step, and the environment's answer to it is arbitrary. Threads interleave freely over one
 reference store, may be cancelled, and are all lost in a crash that keeps the store.
 */
module Protocol {
  import opened Wrappers
  import opened Uuids
  import opened Records
  import opened Requests
  import opened Batches
  import opened Uncertain
  import opened Receipts
  import opened DurableStore

  // ---------------------------------------------------------------- threads

  /** A configured client: its registered executor, whether it has an effect lookup, and its signing key. */
  datatype Client = Client(executorId: string, lookupRegistered: bool, key: string)

  /** A public call: direct execution, the begin and resume halves of a reviewed one, reconciliation or a flush. */
  datatype Op =
    | Execute(request: Request, prepared: bool)
    | Begin(request: Request)
    | Resume(request: Request, handle: PendingAuthorization)
    | Reconcile(uncertain: UncertainExecution)
    | Flush(limit: nat)

  /** Where a known effect came from. */
  datatype Origin = FromExecutor | FromLookup

  /** What follows the delivery of an outbox entry. */
  datatype Next =
    | Report(signed: SignedAuthorization, effect: ExecutionEffect, origin: Origin)
    | Continue(rest: seq<OutboxEntry>, delivered: nat)

  datatype Failure =
    | InvalidInput
    | DecisionFailed
    | ReviewRequired(pending: PendingAuthorization)
    | StoreFailed
    | ExecutionAlreadyCompleted(authorizationId: Uuid, idempotencyId: Uuid)
    | DeliveryFailed

  datatype Outcome =
    | Failed(failure: Failure)
    | Pending(pending: PendingAuthorization)
    | Completed(outcome: ExecutionOutcome)
    | StillUncertain(handle: UncertainExecution)
    | Flushed(delivered: nat)

  datatype Pc =
    | Deciding
    | Admitting(signed: SignedAuthorization)
    | Invoking(signed: SignedAuthorization)
    | AwaitingEffect(signed: SignedAuthorization)
    | Committing(signed: SignedAuthorization, effect: ExecutionEffect, origin: Origin)
    | Recording(entry: OutboxEntry, next: Next)
    | Marking(entry: OutboxEntry, recorded: ReceiptRecorded, next: Next)
    | Loading
    | LookingUp(intent: ExecutionIntent)
    | Fetching
    | Finished(result: Outcome)
    | Cancelled

  datatype Thread = Thread(client: Client, op: Op, pc: Pc)

  /** Calls that may reach the executor. */
  predicate Governed(op: Op) {
    op.Execute? || op.Begin? || op.Resume?
  }

  // ---------------------------------------------------------------- the environment

  /** A store call may be lost before it takes effect, or its answer may be lost after. */
  datatype Fault = Fine | LostBefore | LostAfter

  datatype Decision =
    | NoDecision
    | Accepted(pending: PendingAuthorization)
    | Granted(signed: SignedAuthorization)

  datatype Answer =
    | DecisionIs(decision: Decision)
    | StoreSays(fault: Fault)
    | ExecutorStarts
    | ExecutorSays(effect: Option<ExecutionEffect>)
    | LookupSays(found: Option<EffectLookupOutcome>)
    | ProxySays(recorded: Option<ReceiptRecorded>)

  /** What a run leaves behind, in order. */
  datatype Event =
    | Authorized(signed: SignedAuthorization)
    | Admitted(intent: ExecutionIntent)
    | Invoked(thread: nat, request: ToolExecutionRequest)
    | Returned(thread: nat, authorizationId: Uuid, effect: ExecutionEffect)
    | LookedUp(thread: nat, authorizationId: Uuid, effect: ExecutionEffect)
    | Committed(thread: nat, completion: ExecutionCompletion)
    | Confirmed(thread: nat, entry: OutboxEntry, recorded: ReceiptRecorded)
    | Delivered(thread: nat, outboxId: string, recorded: ReceiptRecorded)

  /** The effect of one step on its thread and on the store, and the event it leaves behind, if any. */
  datatype Move = Move(pc: Pc, store: StoreState, event: Option<Event>)

  // ---------------------------------------------------------------- local checks

  /** Checks made before the first await: prepared requests, executor identity, handles and flush limits. */
  ghost function Enter(c: Crypto, client: Client, op: Op): Pc {
    match op
    case Flush(limit) =>
      if limit == 0 || limit > MAX_OUTBOX_FLUSH then Finished(Failed(InvalidInput)) else Fetching
    case Reconcile(uncertain) =>
      if ValidUncertain(uncertain) && ValidExecutorId(client.executorId) && client.executorId == uncertain.executorId
      then Loading else Finished(Failed(InvalidInput))
    case Execute(request, prepared) =>
      if ValidExecutorId(client.executorId) && (prepared || request.BatchRequest? ==> Prepared(request))
      then Deciding else Finished(Failed(InvalidInput))
    case Begin(request) =>
      if ValidExecutorId(client.executorId) && Prepared(request) then Deciding else Finished(Failed(InvalidInput))
    case Resume(request, handle) =>
      if ValidExecutorId(client.executorId) && Prepared(request)
         && ValidPending(c, handle, request.idempotencyId, Body(request))
      then Deciding else Finished(Failed(InvalidInput))
  }

  /** What a client demands of an authorization before it is admitted. */
  ghost predicate AcceptsGrant(c: Crypto, op: Op, signed: SignedAuthorization)
    requires Governed(op)
  {
    && ValidAuthorization(c, signed, op.request.idempotencyId)
    && (signed.authorization.modificationDiff.None? ==> signed.authorization.executionPayload == Body(op.request))
    && (op.Resume? ==> signed.authorization.correlationId == op.handle.correlationId)
    && (op.request.BatchRequest? ==>
          ValidBatchAuthorization(signed, op.request.idempotencyId, op.request.calls, Body(op.request)))
  }

  function UseOf(op: Op): AuthorizationUse {
    if op.Resume? then SingleUse else Direct
  }

  function RequestOf(executorId: string, signed: SignedAuthorization): ToolExecutionRequest {
    ToolExecutionRequest(signed.authorization.idempotencyId, signed.authorization.authorizationId, executorId,
                         signed.authorization.executionPayload)
  }

  function HandleOf(client: Client, signed: SignedAuthorization, reason: UncertainReason): UncertainExecution {
    UncertainFromIntent(IntentOf(client.executorId, signed), reason, client.lookupRegistered)
  }

  // ---------------------------------------------------------------- steps

  ghost function DecisionStep(c: Crypto, t: Thread, s: StoreState, decision: Decision): Move
    requires Governed(t.op)
  {
    match decision
    case NoDecision => Move(Finished(Failed(DecisionFailed)), s, None)
    case Accepted(p) =>
      if !ValidPending(c, p, t.op.request.idempotencyId, Body(t.op.request)) then
        Move(Finished(Failed(DecisionFailed)), s, None)
      else if t.op.Execute? then Move(Finished(Failed(ReviewRequired(p))), s, None)
      else if t.op.Resume? && p != t.op.handle then Move(Finished(Failed(DecisionFailed)), s, None)
      else Move(Finished(Pending(p)), s, None)
    case Granted(signed) =>
      if AcceptsGrant(c, t.op, signed) then Move(Admitting(signed), s, Some(Authorized(signed)))
      else Move(Finished(Failed(DecisionFailed)), s, None)
  }

  function AdmissionStep(t: Thread, signed: SignedAuthorization, s: StoreState, fault: Fault): Move {
    var intent := IntentOf(t.client.executorId, signed);
    var (after, claim) := BeginAttempt(s, intent, UseOf(t.op));
    var event := if claim == Ok(Started) then Some(Admitted(intent)) else None;
    match fault
    case LostBefore => Move(Finished(Failed(StoreFailed)), s, None)
    case LostAfter => Move(Finished(Failed(StoreFailed)), after, event)
    case Fine =>
      match claim
      case Err(_) => Move(Finished(Failed(StoreFailed)), after, event)
      case Ok(Started) => Move(Invoking(signed), after, event)
      case Ok(AlreadyInFlight) =>
        Move(Finished(StillUncertain(HandleOf(t.client, signed, InFlightAfterPriorAttempt))), after, event)
      case Ok(AlreadyCompleted) =>
        Move(Finished(Failed(ExecutionAlreadyCompleted(signed.authorization.authorizationId,
                                                       signed.authorization.idempotencyId))), after, event)
  }

  function EffectStep(i: nat, t: Thread, signed: SignedAuthorization, s: StoreState, effect: Option<ExecutionEffect>)
    : Move
  {
    if effect.None? then Move(Finished(StillUncertain(HandleOf(t.client, signed, ExecutorOutcomeUnknown))), s, None)
    else
      var event := Some(Returned(i, signed.authorization.authorizationId, effect.value));
      if ValidEffect(effect.value) then Move(Committing(signed, effect.value, FromExecutor), s, event)
      else Move(Finished(StillUncertain(HandleOf(t.client, signed, LookupInvalid))), s, event)
  }

  /** The handle returned when a known effect could not be persisted. */
  function PersistenceFailed(t: Thread, signed: SignedAuthorization): UncertainExecution {
    if t.op.Reconcile? then WithReason(t.op.uncertain, ReconciledEffectPersistenceFailed, true)
    else HandleOf(t.client, signed, ExecutorOutcomeUnknown)
  }

  function CommitStep(c: Crypto, i: nat, t: Thread, signed: SignedAuthorization, effect: ExecutionEffect,
                      origin: Origin, s: StoreState, fault: Fault): Move
  {
    var completion := CompletionOf(c, t.client.key, t.client.executorId, signed, effect);
    var after := CommitEffect(s, completion);
    match fault
    case LostBefore => Move(Finished(StillUncertain(PersistenceFailed(t, signed))), s, None)
    case LostAfter =>
      Move(Finished(StillUncertain(PersistenceFailed(t, signed))), after, Some(Committed(i, completion)))
    case Fine =>
      Move(Recording(EntryOf(completion), Report(signed, effect, origin)), after, Some(Committed(i, completion)))
  }

  /** What `deliver_outbox_entry` demands of the Proxy's answer. */
  predicate Acknowledges(entry: OutboxEntry, recorded: ReceiptRecorded) {
    && recorded.authorizationId == entry.receipt.authorizationId
    && recorded.contract == EXECUTION_CONTRACT
    && recorded.stage == COMPLETED_STAGE
  }

  function RecordStep(i: nat, entry: OutboxEntry, next: Next, s: StoreState, recorded: Option<ReceiptRecorded>): Move {
    if ValidOutboxEntry(entry) && recorded.Some? && Acknowledges(entry, recorded.value)
    then Move(Marking(entry, recorded.value, next), s, Some(Confirmed(i, entry, recorded.value)))
    else Move(Finished(Failed(DeliveryFailed)), s, None)
  }

  function AfterDelivery(recorded: ReceiptRecorded, next: Next): Pc {
    match next
    case Report(_, effect, _) => Finished(Completed(ExecutionOutcome(recorded, effect.result, effect.effectId)))
    case Continue(rest, n) => FlushNext(rest, n + 1)
  }

  function FlushNext(rest: seq<OutboxEntry>, delivered: nat): Pc {
    if rest == [] then Finished(Flushed(delivered)) else Recording(rest[0], Continue(rest[1..], delivered))
  }

  function MarkStep(i: nat, entry: OutboxEntry, recorded: ReceiptRecorded, next: Next, s: StoreState, fault: Fault)
    : Move
  {
    var (after, done) := MarkDelivered(s, entry.outboxId, recorded);
    var event := if done.Ok? then Some(Delivered(i, entry.outboxId, recorded)) else None;
    match fault
    case LostBefore => Move(Finished(Failed(DeliveryFailed)), s, None)
    case LostAfter => Move(Finished(Failed(DeliveryFailed)), after, event)
    case Fine =>
      Move(if done.Ok? then AfterDelivery(recorded, next) else Finished(Failed(DeliveryFailed)), after, event)
  }

  function LoadStep(c: Crypto, t: Thread, s: StoreState, fault: Fault): Move
    requires t.op.Reconcile?
  {
    var intent := LoadUncertain(s, t.op.uncertain.authorizationId);
    var registered := t.client.lookupRegistered;
    if fault != Fine || intent.None? then
      Move(Finished(StillUncertain(WithReason(t.op.uncertain, DurableIntentUnavailable, registered))), s, None)
    else if !ValidUncertainIntent(c, t.op.uncertain, intent.value) then
      Move(Finished(StillUncertain(WithReason(t.op.uncertain, LookupInvalid, registered))), s, None)
    else if !registered then
      Move(Finished(StillUncertain(WithReason(t.op.uncertain, LookupNotRegistered, false))), s, None)
    else Move(LookingUp(intent.value), s, None)
  }

  function Stuck(t: Thread, s: StoreState, reason: UncertainReason): Move
    requires t.op.Reconcile?
  {
    Move(Finished(StillUncertain(WithReason(t.op.uncertain, reason, true))), s, None)
  }

  function LookupStep(i: nat, t: Thread, intent: ExecutionIntent, s: StoreState, found: Option<EffectLookupOutcome>)
    : Move
    requires t.op.Reconcile?
  {
    match found
    case None => Stuck(t, s, LookupUnavailable)
    case Some(NotFound) => Stuck(t, s, EffectNotFound)
    case Some(Ambiguous) => Stuck(t, s, LookupAmbiguous)
    case Some(Found(effect)) =>
      if ValidEffect(effect)
      then Move(Committing(intent.authorization, effect, FromLookup), s,
                Some(LookedUp(i, intent.authorizationId, effect)))
      else Stuck(t, s, LookupInvalid)
  }

  function FetchStep(t: Thread, s: StoreState, fault: Fault): Move
    requires t.op.Flush?
  {
    if fault != Fine then Move(Finished(Failed(StoreFailed)), s, None)
    else Move(FlushNext(PendingReceipts(s, t.op.limit), 0), s, None)
  }

  /** One step of thread `i`; an answer of the wrong kind leaves everything as it is. */
  ghost function ThreadStep(c: Crypto, i: nat, t: Thread, s: StoreState, a: Answer): Move {
    match (t.pc, a)
    case (Deciding, DecisionIs(decision)) =>
      if Governed(t.op) then DecisionStep(c, t, s, decision) else Move(t.pc, s, None)
    case (Admitting(signed), StoreSays(fault)) => AdmissionStep(t, signed, s, fault)
    case (Invoking(signed), ExecutorStarts) =>
      Move(AwaitingEffect(signed), s, Some(Invoked(i, RequestOf(t.client.executorId, signed))))
    case (AwaitingEffect(signed), ExecutorSays(effect)) => EffectStep(i, t, signed, s, effect)
    case (Committing(signed, effect, origin), StoreSays(fault)) => CommitStep(c, i, t, signed, effect, origin, s, fault)
    case (Recording(entry, next), ProxySays(recorded)) => RecordStep(i, entry, next, s, recorded)
    case (Marking(entry, recorded, next), StoreSays(fault)) => MarkStep(i, entry, recorded, next, s, fault)
    case (Loading, StoreSays(fault)) => if t.op.Reconcile? then LoadStep(c, t, s, fault) else Move(t.pc, s, None)
    case (LookingUp(intent), LookupSays(found)) =>
      if t.op.Reconcile? then LookupStep(i, t, intent, s, found) else Move(t.pc, s, None)
    case (Fetching, StoreSays(fault)) => if t.op.Flush? then FetchStep(t, s, fault) else Move(t.pc, s, None)
    case _ => Move(t.pc, s, None)
  }

  // ---------------------------------------------------------------- worlds and runs

  datatype World = World(store: StoreState, threads: seq<Thread>, log: seq<Event>)

  datatype Step =
    | Spawn(client: Client, op: Op)
    | Advance(thread: nat, answer: Answer)
    | Cancel(thread: nat)
    | Crash

  const START := World(EMPTY_STORE, [], [])

  function Log(log: seq<Event>, event: Option<Event>): seq<Event> {
    if event.Some? then log + [event.value] else log
  }

  function Drop(t: Thread): Thread {
    if t.pc.Finished? then t else t.(pc := Cancelled)
  }

  ghost function AdvanceWorld(c: Crypto, w: World, i: nat, a: Answer): World
    requires i < |w.threads|
  {
    var m := ThreadStep(c, i, w.threads[i], w.store, a);
    World(m.store, w.threads[i := w.threads[i].(pc := m.pc)], Log(w.log, m.event))
  }

  ghost function Apply(c: Crypto, w: World, step: Step): World {
    match step
    case Spawn(client, op) => w.(threads := w.threads + [Thread(client, op, Enter(c, client, op))])
    case Advance(i, a) => if i < |w.threads| then AdvanceWorld(c, w, i, a) else w
    case Cancel(i) => if i < |w.threads| then w.(threads := w.threads[i := Drop(w.threads[i])]) else w
    case Crash => w.(threads := seq(|w.threads|, i requires 0 <= i < |w.threads| => Drop(w.threads[i])))
  }

  /** The world after any sequence of steps. */
  ghost function Run(c: Crypto, steps: seq<Step>): World {
    if steps == [] then START else Apply(c, Run(c, steps[..|steps| - 1]), steps[|steps| - 1])
  }
}
