/**
 The SDK's own control flow, written as it runs: methods that call a store, an executor and the Proxy one after the
 other. The answers of the executor, its lookup and the Proxy are arbitrary. Each method is proved to take exactly
 the steps of the protocol's state machine.
 */
module Client {
  import opened Wrappers
  import opened Uuids
  import opened Json
  import opened Records
  import opened Requests
  import opened Batches
  import opened Uncertain
  import opened Receipts
  import opened DurableStore
  import P = Protocol
  import opened Solo
  import opened Fields
  import Contents

  /** The registered executor and its effect lookup. */
  class ToolExecutor {
    var calls: seq<ToolExecutionRequest>
    var lookups: seq<EffectLookupRequest>

    method Execute(request: ToolExecutionRequest) returns (effect: Option<ExecutionEffect>)
      modifies this
      ensures calls == old(calls) + [request] && lookups == old(lookups)
    {
      calls := calls + [request];
      effect := *;
    }

    method LookupEffect(request: EffectLookupRequest) returns (found: Option<EffectLookupOutcome>)
      modifies this
      ensures lookups == old(lookups) + [request] && calls == old(calls)
    {
      lookups := lookups + [request];
      found := *;
    }
  }

  /** What the Proxy is asked: the request identity, the exact body, and which pending decision is being polled. */
  datatype DecisionRequest = DecisionRequest(
    idempotencyId: Uuid, body: Json, pendingId: Option<Uuid>, pendingPayloadSha256: Option<string>)

  /** The Proxy: what it was asked, and the receipts posted to it. */
  class ProxyLink {
    var asks: seq<DecisionRequest>
    var posts: seq<ExecutionReceipt>

    method Decide(ask: DecisionRequest) returns (decision: P.Decision)
      modifies this
      ensures asks == old(asks) + [ask] && posts == old(posts)
    {
      asks := asks + [ask];
      decision := *;
    }

    method RecordReceipt(receipt: ExecutionReceipt) returns (recorded: Option<ReceiptRecorded>)
      modifies this
      ensures posts == old(posts) + [receipt] && asks == old(asks)
    {
      posts := posts + [receipt];
      recorded := *;
    }
  }

  // ---------------------------------------------------------------- what the caller is told

  /** What an execution was answered on its way: by the store, by the executor, and about the receipt. */
  datatype Seen = Seen(claim: Result<AttemptClaim, StoreError>, answer: Option<ExecutionEffect>,
                       recorded: Option<ReceiptRecorded>)

  /** The handle given back for an uncertain effect. */
  predicate TellsUncertain(config: P.Client, signed: SignedAuthorization, reason: UncertainReason, result: P.Outcome) {
    && result.StillUncertain?
    && HandleSays(result.handle, reason, config.lookupRegistered, config.executorId, signed.authorization)
  }

  /** What the caller of an execution is told, answer by answer. */
  predicate TellsExecution(config: P.Client, signed: SignedAuthorization, seen: Seen, result: P.Outcome) {
    match seen.claim
    case Err(_) => result == P.Failed(P.StoreFailed)
    case Ok(AlreadyInFlight) => TellsUncertain(config, signed, InFlightAfterPriorAttempt, result)
    case Ok(AlreadyCompleted) =>
      result == P.Failed(P.ExecutionAlreadyCompleted(
                           authorizationId := signed.authorization.authorizationId,
                           idempotencyId := signed.authorization.idempotencyId))
    case Ok(Started) =>
      if seen.answer.None? then TellsUncertain(config, signed, ExecutorOutcomeUnknown, result)
      else if !ValidEffect(seen.answer.value) then TellsUncertain(config, signed, LookupInvalid, result)
      else TellsEffect(seen.answer.value, seen.recorded, result)
  }

  /** What the caller is told of a known effect: the effect as it is, if its receipt was recorded and marked. */
  predicate TellsEffect(effect: ExecutionEffect, recorded: Option<ReceiptRecorded>, result: P.Outcome) {
    if recorded.None? then result == P.Failed(P.DeliveryFailed)
    else
      && result.Completed?
      && result.outcome.receipt == recorded.value
      && result.outcome.result == effect.result
      && result.outcome.effectId == effect.effectId
  }

  /** The caller's handle with another reason. */
  predicate TellsAgain(uncertain: UncertainExecution, reason: UncertainReason, lookupRegistered: bool,
                       result: P.Outcome)
  {
    result == P.StillUncertain(uncertain.(reason := reason, effectLookupRegistered := lookupRegistered))
  }

  /** What the caller of a reconciliation is told, once its handle was accepted. */
  predicate TellsReconciliation(c: Crypto, config: P.Client, uncertain: UncertainExecution,
                                loaded: Option<ExecutionIntent>, found: Option<EffectLookupOutcome>,
                                recorded: Option<ReceiptRecorded>, result: P.Outcome)
  {
    if loaded.None? then TellsAgain(uncertain, DurableIntentUnavailable, config.lookupRegistered, result)
    else if !ValidUncertainIntent(c, uncertain, loaded.value) then
      TellsAgain(uncertain, LookupInvalid, config.lookupRegistered, result)
    else if !config.lookupRegistered then TellsAgain(uncertain, LookupNotRegistered, false, result)
    else
      match found
      case None => TellsAgain(uncertain, LookupUnavailable, true, result)
      case Some(NotFound) => TellsAgain(uncertain, EffectNotFound, true, result)
      case Some(Ambiguous) => TellsAgain(uncertain, LookupAmbiguous, true, result)
      case Some(Found(effect)) =>
        if !ValidEffect(effect) then TellsAgain(uncertain, LookupInvalid, true, result)
        else TellsEffect(effect, recorded, result)
  }

  /** The Proxy's answer confirms this receipt. */
  predicate ConfirmsReceipt(receipt: ExecutionReceipt, reply: Option<ReceiptRecorded>) {
    && reply.Some?
    && reply.value.authorizationId == receipt.authorizationId
    && reply.value.contract == "clavenar.execution/v1"
    && reply.value.stage == "execution.completed"
  }

  lemma TellsHandle(config: P.Client, signed: SignedAuthorization, reason: UncertainReason)
    ensures TellsUncertain(config, signed, reason, P.StillUncertain(P.HandleOf(config, signed, reason)))
  {
    hide HandleSays, P.HandleOf;
    Contents.HandleIs(config, signed, reason);
  }

  lemma ReceiptsNone(entries: seq<OutboxEntry>)
    ensures ReceiptsOf(entries[..0]) == []
  {
  }

  lemma ReceiptsNext(entries: seq<OutboxEntry>, k: nat)
    requires k < |entries|
    ensures ReceiptsOf(entries[..k + 1]) == ReceiptsOf(entries[..k]) + [entries[k].receipt]
  {
    assert entries[..k + 1] == entries[..k] + [entries[k]];
  }

  function ReceiptsOf(entries: seq<OutboxEntry>): seq<ExecutionReceipt> {
    seq(|entries|, i requires 0 <= i < |entries| => entries[i].receipt)
  }

  predicate Confirms(entry: OutboxEntry, reply: Option<ReceiptRecorded>) {
    ValidOutboxEntry(entry) && reply.Some? && P.Acknowledges(entry, reply.value)
  }

  /** What the environment answers while one outbox entry is delivered. */
  function DeliveryScript(entry: OutboxEntry, reply: Option<ReceiptRecorded>): seq<P.Answer> {
    if Confirms(entry, reply) then [P.ProxySays(reply), P.StoreSays(P.Fine)] else [P.ProxySays(reply)]
  }

  function DeliveryEvents(i: nat, entry: OutboxEntry, reply: Option<ReceiptRecorded>, s: StoreState): seq<P.Event> {
    if !Confirms(entry, reply) then []
    else if MarkDelivered(s, entry.outboxId, reply.value).1.Err? then [P.Confirmed(i, entry, reply.value)]
    else [P.Confirmed(i, entry, reply.value), P.Delivered(i, entry.outboxId, reply.value)]
  }

  function DeliveredStore(entry: OutboxEntry, reply: Option<ReceiptRecorded>, s: StoreState): StoreState {
    if Confirms(entry, reply) then MarkDelivered(s, entry.outboxId, reply.value).0 else s
  }

  predicate DeliveryDone(entry: OutboxEntry, reply: Option<ReceiptRecorded>, s: StoreState) {
    Confirms(entry, reply) && MarkDelivered(s, entry.outboxId, reply.value).1.Ok?
  }

  function DeliveredPc(entry: OutboxEntry, next: P.Next, reply: Option<ReceiptRecorded>, s: StoreState): P.Pc {
    if DeliveryDone(entry, reply, s) then P.AfterDelivery(reply.value, next) else P.Finished(P.Failed(P.DeliveryFailed))
  }

  lemma DeliverySteps(c: Crypto, i: nat, client: P.Client, op: P.Op, entry: OutboxEntry, next: P.Next, s: StoreState,
                      events: seq<P.Event>, reply: Option<ReceiptRecorded>)
    ensures Alone(c, i, client, op, Local(P.Recording(entry, next), s, events), DeliveryScript(entry, reply))
         == Local(DeliveredPc(entry, next, reply, s), DeliveredStore(entry, reply, s),
                  events + DeliveryEvents(i, entry, reply, s))
  {
    hide ValidOutboxEntry, P.Acknowledges, MarkDelivered, P.AfterDelivery;
    var at := Local(P.Recording(entry, next), s, events);
    AloneStep(c, i, client, op, at, [], P.ProxySays(reply));
    assert [] + [P.ProxySays(reply)] == [P.ProxySays(reply)];
    if Confirms(entry, reply) {
      AloneStep(c, i, client, op, at, [P.ProxySays(reply)], P.StoreSays(P.Fine));
      assert [P.ProxySays(reply)] + [P.StoreSays(P.Fine)] == DeliveryScript(entry, reply);
      assert events + [P.Confirmed(i, entry, reply.value)] + [P.Delivered(i, entry.outboxId, reply.value)]
          == events + [P.Confirmed(i, entry, reply.value), P.Delivered(i, entry.outboxId, reply.value)];
    }
  }

  lemma CommitSteps(c: Crypto, i: nat, client: P.Client, op: P.Op, signed: SignedAuthorization, effect: ExecutionEffect,
                    origin: P.Origin, s: StoreState, before: seq<P.Event>, reply: Option<ReceiptRecorded>)
    ensures var completion := CompletionOf(c, client.key, client.executorId, signed, effect);
            var entry := EntryOf(completion);
            var committed := CommitEffect(s, completion);
            Alone(c, i, client, op, Local(P.Committing(signed, effect, origin), s, before),
                  [P.StoreSays(P.Fine)] + DeliveryScript(entry, reply))
            == Local(DeliveredPc(entry, P.Report(signed, effect, origin), reply, committed),
                     DeliveredStore(entry, reply, committed),
                     before + [P.Committed(i, completion)] + DeliveryEvents(i, entry, reply, committed))
  {
    hide CompletionOf, CommitEffect, EntryOf, DeliveryScript, DeliveredPc, DeliveredStore, DeliveryEvents;
    var completion := CompletionOf(c, client.key, client.executorId, signed, effect);
    var entry := EntryOf(completion);
    var committed := CommitEffect(s, completion);
    var at := Local(P.Committing(signed, effect, origin), s, before);
    AloneStep(c, i, client, op, at, [], P.StoreSays(P.Fine));
    assert [] + [P.StoreSays(P.Fine)] == [P.StoreSays(P.Fine)];
    AloneAppend(c, i, client, op, at, [P.StoreSays(P.Fine)], DeliveryScript(entry, reply));
    DeliverySteps(c, i, client, op, entry, P.Report(signed, effect, origin), committed,
                  before + [P.Committed(i, completion)], reply);
  }

  lemma CommitCalls(i: nat, completion: ExecutionCompletion, entry: OutboxEntry, s: StoreState, before: seq<P.Event>,
                    reply: Option<ReceiptRecorded>)
    ensures Calls(before + [P.Committed(i, completion)] + DeliveryEvents(i, entry, reply, s)) == Calls(before)
  {
    CallsAppend(before, P.Committed(i, completion));
    DeliveryCalls(i, entry, s, before + [P.Committed(i, completion)], reply);
  }

  lemma DeliveryCalls(i: nat, entry: OutboxEntry, s: StoreState, before: seq<P.Event>, reply: Option<ReceiptRecorded>)
    ensures Calls(before + DeliveryEvents(i, entry, reply, s)) == Calls(before)
  {
    hide ValidOutboxEntry, P.Acknowledges, MarkDelivered;
    if Confirms(entry, reply) {
      CallsAppend(before, P.Confirmed(i, entry, reply.value));
      CallsAppend(before + [P.Confirmed(i, entry, reply.value)], P.Delivered(i, entry.outboxId, reply.value));
      assert before + [P.Confirmed(i, entry, reply.value)] + [P.Delivered(i, entry.outboxId, reply.value)]
          == before + [P.Confirmed(i, entry, reply.value), P.Delivered(i, entry.outboxId, reply.value)];
    } else {
      assert before + [] == before;
    }
  }

  /** One step of a lone call, from an explicit program counter. */
  lemma FirstStep(c: Crypto, i: nat, client: P.Client, op: P.Op, at: Local, a: P.Answer, rest: seq<P.Answer>)
    ensures Alone(c, i, client, op, at, [a] + rest) == Alone(c, i, client, op, Next(c, i, client, op, at, a), rest)
  {
    hide Next;
    AloneAppend(c, i, client, op, at, [a], rest);
    AloneStep(c, i, client, op, at, [], a);
    assert [] + [a] == [a];
  }

  function AdmissionFault(failIntent: bool): P.Fault {
    if failIntent then P.LostBefore else P.Fine
  }

  /** The events of a call up to and including its executor call. */
  function Invited(i: nat, client: P.Client, signed: SignedAuthorization, before: seq<P.Event>): seq<P.Event> {
    before + [P.Admitted(IntentOf(client.executorId, signed))] + [P.Invoked(i, P.RequestOf(client.executorId, signed))]
  }

  lemma InvitedCalls(i: nat, client: P.Client, signed: SignedAuthorization, before: seq<P.Event>, more: Option<P.Event>)
    requires more.Some? ==> !more.value.Invoked?
    ensures Calls(P.Log(Invited(i, client, signed, before), more))
         == Calls(before) + [P.RequestOf(client.executorId, signed)]
  {
    var admitted := P.Admitted(IntentOf(client.executorId, signed));
    CallsAppend(before, admitted);
    CallsAppend(before + [admitted], P.Invoked(i, P.RequestOf(client.executorId, signed)));
    if more.Some? {
      CallsAppend(Invited(i, client, signed, before), more.value);
    }
  }

  /** A first admission, the executor call and its answer. */
  lemma InviteSteps(c: Crypto, i: nat, client: P.Client, op: P.Op, signed: SignedAuthorization, s: StoreState,
                    before: seq<P.Event>, effect: Option<ExecutionEffect>, rest: seq<P.Answer>)
    requires BeginAttempt(s, IntentOf(client.executorId, signed), P.UseOf(op)).1 == Ok(Started)
    ensures var after := BeginAttempt(s, IntentOf(client.executorId, signed), P.UseOf(op)).0;
            var m := P.EffectStep(i, P.Thread(client, op, P.AwaitingEffect(signed)), signed, after, effect);
            Alone(c, i, client, op, Local(P.Admitting(signed), s, before),
                  [P.StoreSays(P.Fine)] + ([P.ExecutorStarts] + ([P.ExecutorSays(effect)] + rest)))
            == Alone(c, i, client, op, Local(m.pc, m.store, P.Log(Invited(i, client, signed, before), m.event)), rest)
  {
    hide BeginAttempt, IntentOf, P.RequestOf, P.EffectStep, Alone;
    var intent := IntentOf(client.executorId, signed);
    var after := BeginAttempt(s, intent, P.UseOf(op)).0;
    var at := Local(P.Admitting(signed), s, before);
    FirstStep(c, i, client, op, at, P.StoreSays(P.Fine), [P.ExecutorStarts] + ([P.ExecutorSays(effect)] + rest));
    var invoking := Local(P.Invoking(signed), after, before + [P.Admitted(intent)]);
    assert Next(c, i, client, op, at, P.StoreSays(P.Fine)) == invoking;
    FirstStep(c, i, client, op, invoking, P.ExecutorStarts, [P.ExecutorSays(effect)] + rest);
    var awaiting := Local(P.AwaitingEffect(signed), after, Invited(i, client, signed, before));
    assert Next(c, i, client, op, invoking, P.ExecutorStarts) == awaiting;
    FirstStep(c, i, client, op, awaiting, P.ExecutorSays(effect), rest);
  }

  /** An admission that is refused ends the call. */
  lemma RefusedStep(c: Crypto, i: nat, client: P.Client, op: P.Op, signed: SignedAuthorization, s: StoreState,
                    before: seq<P.Event>, fault: P.Fault)
    requires fault != P.LostAfter
    requires fault == P.Fine ==> BeginAttempt(s, IntentOf(client.executorId, signed), P.UseOf(op)).1 != Ok(Started)
    ensures var m := P.AdmissionStep(P.Thread(client, op, P.Admitting(signed)), signed, s, fault);
            Alone(c, i, client, op, Local(P.Admitting(signed), s, before), [P.StoreSays(fault)])
            == Local(m.pc, s, before)
  {
    hide IntentOf, P.RequestOf;
    AloneStep(c, i, client, op, Local(P.Admitting(signed), s, before), [], P.StoreSays(fault));
    assert [] + [P.StoreSays(fault)] == [P.StoreSays(fault)];
  }

  class ClavenarClient {
    const config: P.Client
    const executor: ToolExecutor
    const store: MemoryExecutionStore
    const proxy: ProxyLink

    constructor (config: P.Client, executor: ToolExecutor, store: MemoryExecutionStore, proxy: ProxyLink)
      ensures this.config == config && this.executor == executor && this.store == store && this.proxy == proxy
    {
      this.config, this.executor, this.store, this.proxy := config, executor, store, proxy;
    }

    /** `deliver_outbox_entry`: post one receipt, then mark its outbox id once the Proxy confirmed it. */
    method DeliverOutboxEntry(entry: OutboxEntry)
      returns (recorded: Option<ReceiptRecorded>, ghost reply: Option<ReceiptRecorded>)
      modifies store, proxy
      ensures store.failIntent == old(store.failIntent)
      ensures proxy.posts == if ValidOutboxEntry(entry) then old(proxy.posts) + [entry.receipt] else old(proxy.posts)
      ensures proxy.asks == old(proxy.asks)
      ensures recorded.Some? <==>
                && ValidOutboxEntry(entry) && ConfirmsReceipt(entry.receipt, reply)
                && exists k :: 0 <= k < |old(store.pending)| && old(store.pending)[k].outboxId == entry.outboxId
      ensures recorded.Some? ==> recorded == reply
      ensures recorded.None? ==> store.State() == old(store.State())
      ensures store.State() == DeliveredStore(entry, reply, old(store.State()))
      ensures recorded == if DeliveryDone(entry, reply, old(store.State())) then reply else None
    {
      reply := None;
      if !ValidOutboxEntry(entry) {
        return None, None;
      }
      var answer := proxy.RecordReceipt(entry.receipt);
      reply := answer;
      if answer.None? || answer.value.authorizationId != entry.receipt.authorizationId
         || answer.value.contract != EXECUTION_CONTRACT || answer.value.stage != COMPLETED_STAGE {
        return None, reply;
      }
      var marked := store.MarkReceiptDelivered(entry.outboxId, answer.value);
      recorded := if marked.Ok? then answer else None;
    }

    /**
     `complete_known_effect`: sign and commit one completion, then deliver its receipt. The reference store hands back
     the receipt it was given, so the comparison of the two cannot fail here.
     */
    method CompleteKnownEffect(c: Crypto, signed: SignedAuthorization, effect: ExecutionEffect,
                               ghost i: nat, ghost op: P.Op, ghost origin: P.Origin, ghost before: seq<P.Event>)
      returns (outcome: Option<ExecutionOutcome>, ghost script: seq<P.Answer>, ghost end: Local,
               ghost x: ExecutionCompletion, ghost reply: Option<ReceiptRecorded>)
      modifies store, proxy
      ensures store.failIntent == old(store.failIntent)
      ensures CompletionSays(c, x, config.key, config.executorId, signed, effect)
      ensures store.completions == old(store.completions) + [x] && store.intents == old(store.intents)
      ensures store.claimedAuthorizations == old(store.claimedAuthorizations)
      ensures proxy.posts == old(proxy.posts) + [x.receipt] && proxy.asks == old(proxy.asks)
      ensures outcome.Some? <==> ConfirmsReceipt(x.receipt, reply)
      ensures outcome.Some? ==> TellsEffect(effect, reply, P.Completed(outcome.value))
      ensures outcome.None? ==> exists entry :: EntrySays(entry, x) && store.pending == old(store.pending) + [entry]
      ensures end == Alone(c, i, config, op, Local(P.Committing(signed, effect, origin), old(store.State()), before),
                           script)
      ensures end.pc == P.Finished(if outcome.Some? then P.Completed(outcome.value) else P.Failed(P.DeliveryFailed))
      ensures end.store == store.State() && Calls(end.events) == Calls(before)
    {
      hide CompletionOf, CompletionSays, ReceiptOf, DeliveryScript, DeliveryEvents, Calls, Alone;
      var completion := CompletionOf(c, config.key, config.executorId, signed, effect);
      x := completion;
      CompletionIs(c, config.key, config.executorId, signed, effect);
      var queued := store.CommitEffectAndEnqueueReceipt(completion);
      ghost var committed := store.State();
      OwnQueued(c, signed, effect, completion, queued);
      assert store.pending[|old(store.pending)|] == queued;
      var recorded;
      recorded, reply := DeliverOutboxEntry(queued);
      assert recorded.None? ==> EntrySays(queued, x) && store.pending == old(store.pending) + [queued];
      script := [P.StoreSays(P.Fine)] + DeliveryScript(queued, reply);
      CommitSteps(c, i, config, op, signed, effect, origin, old(store.State()), before, reply);
      CommitCalls(i, completion, queued, committed, before, reply);
      end := Alone(c, i, config, op, Local(P.Committing(signed, effect, origin), old(store.State()), before), script);
      outcome := if recorded.Some? then Some(ExecutionOutcome(recorded.value, effect.result, effect.effectId))
                 else None;
    }

    /**
     `execute_authorization`: admit the exact intent, invoke the executor at most once, and complete a known effect.
     An authorization that was already started or completed never reaches the executor.
     */
    method ExecuteAuthorization(c: Crypto, signed: SignedAuthorization, singleUse: bool,
                                ghost i: nat, ghost op: P.Op, ghost before: seq<P.Event>)
      returns (result: P.Outcome, ghost script: seq<P.Answer>, ghost end: Local, ghost seen: Seen)
      requires P.Governed(op) && (singleUse <==> op.Resume?)
      requires Calls(before) == []
      modifies store, proxy, executor
      ensures TellsExecution(config, signed, seen, result)
      ensures old(store.failIntent) ==> seen.claim.Err?
      ensures executor.calls
           == old(executor.calls)
              + (if seen.claim == Ok(Started) then
                   [ToolExecutionRequest(idempotencyId := signed.authorization.idempotencyId,
                                         authorizationId := signed.authorization.authorizationId,
                                         executorId := config.executorId,
                                         executionPayload := signed.authorization.executionPayload)]
                 else [])
      ensures seen.claim == Ok(Started) ==>
                && |store.intents| == |old(store.intents)| + 1 && old(store.intents) <= store.intents
                && IntentSays(store.intents[|old(store.intents)|], config.executorId, signed)
                && store.claimedAuthorizations
                   == old(store.claimedAuthorizations)
                      + (if singleUse then {signed.authorization.authorizationId} else {})
      ensures seen.claim != Ok(Started) ==> store.State() == old(store.State())
      ensures var known := seen.claim == Ok(Started) && seen.answer.Some? && ValidEffect(seen.answer.value);
              if known then
                && |store.completions| == |old(store.completions)| + 1
                && var x := store.completions[|old(store.completions)|];
                && CompletionSays(c, x, config.key, config.executorId, signed, seen.answer.value)
                && proxy.posts == old(proxy.posts) + [x.receipt]
                && (seen.recorded.Some? ==> ConfirmsReceipt(x.receipt, seen.recorded))
              else store.completions == old(store.completions) && proxy.posts == old(proxy.posts)
      ensures proxy.asks == old(proxy.asks)
      ensures store.failIntent == old(store.failIntent)
      ensures end == Alone(c, i, config, op, Local(P.Admitting(signed), old(store.State()), before), script)
      ensures end.pc == P.Finished(result) && end.store == store.State()
      ensures executor.calls == old(executor.calls) + Calls(end.events)
      ensures executor.lookups == old(executor.lookups)
      ensures !result.Pending? && result != P.Failed(P.DecisionFailed) && result != P.Failed(P.InvalidInput)
      ensures !(result.Failed? && result.failure.ReviewRequired?)
      ensures old(store.failIntent) ==> Calls(end.events) == []
      ensures signed.authorization.authorizationId in old(store.State()).inFlight + old(store.State()).completed ==>
                Calls(end.events) == []
    {
      hide Calls, Alone, CompletionOf, IntentOf, P.HandleOf, P.RequestOf, ValidEffect, HandleSays, IntentSays,
           CompletionSays, BeginAttempt, ReceiptSays, TellsUncertain, ConfirmsReceipt;
      Contents.IntentIs(config.executorId, signed);
      RequestIsLiteral(config.executorId, signed);
      var intent := IntentOf(config.executorId, signed);
      assert intent.authorizationId == signed.authorization.authorizationId
          by { IntentNames(config.executorId, signed); }
      ghost var s := store.State();
      ghost var at := Local(P.Admitting(signed), s, before);
      AttemptMeans(s, intent, P.UseOf(op));
      var claim := store.BeginEffectAttempt(intent, if singleUse then SingleUse else Direct);
      seen := Seen(claim, None, None);
      if claim != Ok(Started) {
        script := [P.StoreSays(AdmissionFault(store.failIntent))];
        RefusedStep(c, i, config, op, signed, s, before, AdmissionFault(store.failIntent));
        end := Local(P.AdmissionStep(P.Thread(config, op, P.Admitting(signed)), signed, s,
                                     AdmissionFault(store.failIntent)).pc, s, before);
        if claim == Ok(AlreadyInFlight) {
          TellsHandle(config, signed, InFlightAfterPriorAttempt);
          result := P.StillUncertain(P.HandleOf(config, signed, InFlightAfterPriorAttempt));
        } else if claim == Ok(AlreadyCompleted) {
          result := P.Failed(P.ExecutionAlreadyCompleted(signed.authorization.authorizationId,
                                                         signed.authorization.idempotencyId));
        } else {
          result := P.Failed(P.StoreFailed);
        }
        return;
      }
      ghost var after := store.State();
      var answer := executor.Execute(P.RequestOf(config.executorId, signed));
      seen := Seen(claim, answer, None);
      ghost var m := P.EffectStep(i, P.Thread(config, op, P.AwaitingEffect(signed)), signed, after, answer);
      ghost var events := P.Log(Invited(i, config, signed, before), m.event);
      InvitedCalls(i, config, signed, before, m.event);
      if answer.None? || !ValidEffect(answer.value) {
        var reason := if answer.None? then ExecutorOutcomeUnknown else LookupInvalid;
        TellsHandle(config, signed, reason);
        result := P.StillUncertain(P.HandleOf(config, signed, reason));
        script := [P.StoreSays(P.Fine)] + ([P.ExecutorStarts] + ([P.ExecutorSays(answer)] + []));
        InviteSteps(c, i, config, op, signed, s, before, answer, []);
        end := Local(m.pc, m.store, events);
        AloneNothing(c, i, config, op, end);
        return;
      }
      ghost var rest, x, reply;
      var outcome;
      outcome, rest, end, x, reply := CompleteKnownEffect(c, signed, answer.value, i, op, P.FromExecutor, events);
      seen := Seen(claim, answer, if outcome.Some? then reply else None);
      result := if outcome.Some? then P.Completed(outcome.value) else P.Failed(P.DeliveryFailed);
      script := [P.StoreSays(P.Fine)] + ([P.ExecutorStarts] + ([P.ExecutorSays(answer)] + rest));
      InviteSteps(c, i, config, op, signed, s, before, answer, rest);
    }

    /**
     `flush_execution_receipt_outbox`: deliver at most `limit` pending receipts, oldest first, stopping at the first
     failure. Exactly the delivered entries leave the outbox and the order of the rest is kept. No executor is involved.
     */
    method FlushExecutionReceiptOutbox(c: Crypto, limit: nat, ghost i: nat)
      returns (result: P.Outcome, ghost script: seq<P.Answer>, ghost end: Local, ghost removed: nat)
      modifies store, proxy
      ensures store.failIntent == old(store.failIntent)
      ensures end == Alone(c, i, config, P.Flush(limit),
                           Local(P.Enter(c, config, P.Flush(limit)), old(store.State()), []), script)
      ensures end.pc == P.Finished(result) && end.store == store.State()
      ensures limit == 0 || limit > 128 ==>
                result == P.Failed(P.InvalidInput) && removed == 0 && proxy.posts == old(proxy.posts)
      ensures 1 <= limit <= 128 ==>
                result == if removed == FlushCount(limit, old(store.pending)) then P.Flushed(removed)
                          else P.Failed(P.DeliveryFailed)
      ensures removed <= FlushCount(limit, old(store.pending))
      ensures Drained(old(store.State()), store.State(), removed)
      ensures proxy.asks == old(proxy.asks)
      ensures removed <= |old(store.pending)|
      ensures proxy.posts
           == old(proxy.posts) + ReceiptsOf(old(store.pending)[..removed])
              + (if result == P.Failed(P.DeliveryFailed) && removed < |old(store.pending)|
                    && ValidOutboxEntry(old(store.pending)[removed])
                 then [old(store.pending)[removed].receipt] else [])
    {
      hide Alone, DeliveryScript, DeliveryEvents, P.FlushNext, Drained, ReceiptsOf, ValidOutboxEntry, P.Acknowledges,
           MarkDelivered, DeliveredStore, DeliveryDone, ConfirmsReceipt;
      ReceiptsNone(store.pending);
      ghost var s := store.State();
      removed := 0;
      assert Drained(s, s, 0) by { DrainedNothing(s); }
      if limit == 0 || limit > MAX_OUTBOX_FLUSH {
        result, script := P.Failed(P.InvalidInput), [];
        end := Local(P.Finished(result), s, []);
        AloneNothing(c, i, config, P.Flush(limit), end);
        return;
      }
      var entries := store.TakePendingReceipts(limit);
      ghost var at := Local(P.Fetching, s, []);
      script := [P.StoreSays(P.Fine)];
      FetchSteps(c, i, config, limit, s);
      ghost var events: seq<P.Event> := [];
      var delivered := 0;
      assert entries[0..] == entries;
      while delivered < |entries|
        invariant 0 <= delivered <= |entries|
        invariant store.failIntent == old(store.failIntent)
        invariant Drained(s, store.State(), delivered)
        invariant proxy.posts == old(proxy.posts) + ReceiptsOf(s.pending[..delivered]) && proxy.asks == old(proxy.asks)
        invariant Alone(c, i, config, P.Flush(limit), at, script)
               == Local(P.FlushNext(entries[delivered..], delivered), store.State(), events)
      {
        var entry := entries[delivered];
        assert entry == s.pending[delivered];
        ghost var now := store.State();
        var recorded, reply := DeliverOutboxEntry(entry);
        FlushSteps(c, i, config, P.Flush(limit), at, script, entries, delivered, now, events, reply);
        script, events := script + DeliveryScript(entry, reply), events + DeliveryEvents(i, entry, reply, now);
        DeliveredDrains(s, now, delivered, reply);
        if recorded.None? {
          result, removed := P.Failed(P.DeliveryFailed), delivered;
          end := Alone(c, i, config, P.Flush(limit), at, script);
          return;
        }
        ReceiptsNext(s.pending, delivered);
        delivered := delivered + 1;
      }
      result, removed := P.Flushed(delivered), delivered;
      end := Alone(c, i, config, P.Flush(limit), at, script);
      FlushDone(entries, delivered);
    }

    /**
     `reconcile_uncertain_effect`: load the exact intent, look its effect up, and complete only an effect that was
     found. The executor itself is never called, and any other answer leaves the store as it was.
     */
    method ReconcileUncertainEffect(c: Crypto, uncertain: UncertainExecution, ghost i: nat)
      returns (result: P.Outcome, ghost script: seq<P.Answer>, ghost end: Local,
               ghost found: Option<EffectLookupOutcome>, ghost recorded: Option<ReceiptRecorded>)
      modifies store, proxy, executor
      ensures store.failIntent == old(store.failIntent) && proxy.asks == old(proxy.asks)
      ensures var accepted := ValidUncertain(uncertain) && ValidExecutorId(config.executorId)
                              && config.executorId == uncertain.executorId;
              var loaded := LoadUncertain(old(store.State()), uncertain.authorizationId);
              var asked := accepted && loaded.Some? && ValidUncertainIntent(c, uncertain, loaded.value)
                           && config.lookupRegistered;
              && (if accepted then TellsReconciliation(c, config, uncertain, loaded, found, recorded, result)
                  else result == P.Failed(P.InvalidInput))
              && executor.lookups
                 == old(executor.lookups)
                    + (if asked then
                         [EffectLookupRequest(authorizationId := uncertain.authorizationId,
                                              idempotencyId := uncertain.idempotencyId,
                                              executorId := uncertain.executorId,
                                              payloadSha256 := uncertain.payloadSha256)]
                       else [])
              && if asked && found.Some? && found.value.Found? && ValidEffect(found.value.effect) then
                   && |store.completions| == |old(store.completions)| + 1
                   && var x := store.completions[|old(store.completions)|];
                   && CompletionSays(c, x, config.key, config.executorId, loaded.value.authorization,
                                     found.value.effect)
                   && proxy.posts == old(proxy.posts) + [x.receipt]
                   && (recorded.Some? ==> ConfirmsReceipt(x.receipt, recorded))
                 else store.State() == old(store.State()) && proxy.posts == old(proxy.posts)
      ensures end == Alone(c, i, config, P.Reconcile(uncertain),
                           Local(P.Enter(c, config, P.Reconcile(uncertain)), old(store.State()), []), script)
      ensures end.pc == P.Finished(result) && end.store == store.State()
      ensures executor.calls == old(executor.calls)
      ensures result.StillUncertain? || result == P.Failed(P.InvalidInput) ==> store.State() == old(store.State())
    {
      hide Alone, ValidUncertain, ValidUncertainIntent, ValidExecutorId, ValidEffect, CompletionOf, LoadUncertain,
           CompletionSays, ConfirmsReceipt, LookupRequestOf;
      found, recorded := None, None;
      ghost var s := store.State();
      ghost var op := P.Reconcile(uncertain);
      if !ValidUncertain(uncertain) || !ValidExecutorId(config.executorId)
         || config.executorId != uncertain.executorId {
        result, script := P.Failed(P.InvalidInput), [];
        end := Local(P.Finished(result), s, []);
        AloneNothing(c, i, config, op, end);
        return;
      }
      var intent := store.LoadUncertainIntent(uncertain.authorizationId);
      if intent.None? || !ValidUncertainIntent(c, uncertain, intent.value) || !config.lookupRegistered {
        var reason := if intent.None? then DurableIntentUnavailable
                      else if !ValidUncertainIntent(c, uncertain, intent.value) then LookupInvalid
                      else LookupNotRegistered;
        result := P.StillUncertain(WithReason(uncertain, reason, config.lookupRegistered));
        script := [P.StoreSays(P.Fine)] + [];
        LoadSteps(c, i, config, uncertain, s, []);
        end := Local(P.Finished(result), s, []);
        AloneNothing(c, i, config, op, end);
        return;
      }
      LookupIsLiteral(c, uncertain, intent.value);
      var answer := executor.LookupEffect(LookupRequestOf(intent.value));
      found := answer;
      if !Usable(answer) {
        result := P.StillUncertain(WithReason(uncertain, StuckReason(answer), true));
        script := [P.StoreSays(P.Fine)] + [P.LookupSays(answer)];
        LoadSteps(c, i, config, uncertain, s, [P.LookupSays(answer)]);
        LookupStuck(c, i, config, uncertain, intent.value, s, answer);
        end := Local(P.Finished(result), s, []);
        return;
      }
      ghost var lookedUp := P.LookedUp(i, intent.value.authorizationId, answer.value.effect);
      assert [] + [lookedUp] == [lookedUp];
      ghost var rest, x, reply;
      var outcome;
      outcome, rest, end, x, reply := CompleteKnownEffect(c, intent.value.authorization, answer.value.effect, i, op,
                                                          P.FromLookup, [lookedUp]);
      recorded := if outcome.Some? then reply else None;
      result := if outcome.Some? then P.Completed(outcome.value) else P.Failed(P.DeliveryFailed);
      script := [P.StoreSays(P.Fine)] + ([P.LookupSays(answer)] + rest);
      LoadSteps(c, i, config, uncertain, s, [P.LookupSays(answer)] + rest);
      LookupSteps(c, i, config, uncertain, intent.value, s, answer, rest);
    }

    /** Everything a client demands of an authorization before it is admitted. */
    method AcceptGrant(c: Crypto, op: P.Op, signed: SignedAuthorization) returns (ok: bool)
      requires P.Governed(op)
      ensures ok <==> P.AcceptsGrant(c, op, signed)
    {
      if !ValidAuthorization(c, signed, op.request.idempotencyId) {
        return false;
      }
      if signed.authorization.modificationDiff.None? && signed.authorization.executionPayload != Body(op.request) {
        return false;
      }
      if op.Resume? && signed.authorization.correlationId != op.handle.correlationId {
        return false;
      }
      if op.request.BatchRequest? {
        ok := ValidateBatchAuthorization(signed, op.request.idempotencyId, op.request.calls, Body(op.request));
      } else {
        ok := true;
      }
    }

    /** The checks a governed call makes before the network. */
    method CheckCall(c: Crypto, op: P.Op) returns (ok: bool)
      requires P.Governed(op)
      ensures P.Enter(c, config, op) == if ok then P.Deciding else P.Finished(P.Failed(P.InvalidInput))
      ensures ok <==> LocallyFine(c, config, op)
    {
      if !ValidExecutorId(config.executorId) {
        return false;
      }
      if op.Execute? && !op.prepared && op.request.ToolRequest? {
        return true;
      }
      ok := ValidatePrepared(op.request);
      if ok && op.Resume? {
        ok := ValidPending(c, op.handle, op.request.idempotencyId, Body(op.request));
      }
    }

    /**
     `execute_*`, `begin_prepared_*` and `resume_prepared_*`: check, ask the Proxy, and execute a granted
     authorization. While the answer is pending nothing is stored and nothing is executed.
     */
    method PerformCall(c: Crypto, op: P.Op, ghost i: nat)
      returns (result: P.Outcome, ghost script: seq<P.Answer>, ghost end: Local, ghost decision: Option<P.Decision>,
               ghost seen: Seen)
      requires P.Governed(op)
      modifies store, proxy, executor
      ensures end == Alone(c, i, config, op, Local(P.Enter(c, config, op), old(store.State()), []), script)
      ensures end.pc == P.Finished(result) && end.store == store.State()
      ensures executor.calls == old(executor.calls) + Calls(end.events)
      ensures decision.Some? <==> LocallyFine(c, config, op)
      ensures proxy.asks
           == old(proxy.asks)
              + (if decision.None? then []
                 else [DecisionRequest(idempotencyId := op.request.idempotencyId, body := Body(op.request),
                                       pendingId := if op.Resume? then Some(op.handle.pendingId) else None,
                                       pendingPayloadSha256 := if op.Resume? then Some(op.handle.payloadSha256)
                                                               else None)])
      ensures result == P.Failed(P.InvalidInput) <==> decision.None?
      ensures result.Pending? <==>
                && decision.Some? && decision.value.Accepted? && !op.Execute?
                && ValidPending(c, decision.value.pending, op.request.idempotencyId, Body(op.request))
                && (op.Resume? ==> decision.value.pending == op.handle)
      ensures result.Pending? ==> result.pending == decision.value.pending
      ensures result.Failed? && result.failure.ReviewRequired? <==>
                && decision.Some? && decision.value.Accepted? && op.Execute?
                && ValidPending(c, decision.value.pending, op.request.idempotencyId, Body(op.request))
      ensures result.Failed? && result.failure.ReviewRequired? ==> result.failure.pending == decision.value.pending
      ensures var granted := decision.Some? && decision.value.Granted? && P.AcceptsGrant(c, op, decision.value.signed);
              if granted then
                && TellsExecution(config, decision.value.signed, seen, result)
                && (seen.claim == Ok(Started) ==>
                      var a := decision.value.signed.authorization;
                      executor.calls
                      == old(executor.calls)
                         + [ToolExecutionRequest(idempotencyId := a.idempotencyId, authorizationId := a.authorizationId,
                                                 executorId := config.executorId,
                                                 executionPayload := a.executionPayload)])
                && (seen.claim == Ok(Started) ==>
                      store.claimedAuthorizations
                      == old(store.claimedAuthorizations)
                         + (if op.Resume? then {decision.value.signed.authorization.authorizationId} else {}))
                && (seen.claim != Ok(Started) ==> executor.calls == old(executor.calls))
              else
                && executor.calls == old(executor.calls) && store.State() == old(store.State())
                && proxy.posts == old(proxy.posts)
                && (result.Pending? || (result.Failed? && !result.failure.StoreFailed?))
    {
      hide Alone, P.AcceptsGrant, ValidPending, Body, P.Enter, TellsUncertain, ConfirmsReceipt, CompletionSays,
           IntentSays, ValidExecutorId, Prepared, ValidEffect;
      seen, decision := Seen(Err(IntentStoreUnavailable), None, None), None;
      ghost var s := store.State();
      var ok := CheckCall(c, op);
      if !ok {
        result, script := P.Failed(P.InvalidInput), [];
        end := Local(P.Finished(result), s, []);
        AloneNothing(c, i, config, op, end);
        return;
      }
      var answer := proxy.Decide(AskFor(op));
      decision := Some(answer);
      var accepted := false;
      if answer.Granted? {
        accepted := AcceptGrant(c, op, answer.signed);
      } else if answer.Accepted? {
        accepted := ValidPending(c, answer.pending, op.request.idempotencyId, Body(op.request));
      }
      if !answer.Granted? || !accepted {
        result := Undecided(op, answer, accepted);
        script := [P.DecisionIs(answer)] + [];
        DecisionSteps(c, i, config, op, s, answer, []);
        end := Local(P.Finished(result), s, []);
        AloneNothing(c, i, config, op, end);
        return;
      }
      ghost var authorized := P.Authorized(answer.signed);
      assert [] + [authorized] == [authorized];
      CallsAppend([], authorized);
      ghost var rest;
      result, rest, end, seen := ExecuteAuthorization(c, answer.signed, op.Resume?, i, op, [authorized]);
      script := [P.DecisionIs(answer)] + rest;
      DecisionSteps(c, i, config, op, s, answer, rest);
    }
  }

  // ---------------------------------------------------------------- governed calls

  /** The Proxy's decision, as the machine takes it. */
  lemma DecisionSteps(c: Crypto, i: nat, client: P.Client, op: P.Op, s: StoreState, decision: P.Decision,
                      rest: seq<P.Answer>)
    requires P.Governed(op)
    ensures var m := P.DecisionStep(c, P.Thread(client, op, P.Deciding), s, decision);
            Alone(c, i, client, op, Local(P.Deciding, s, []), [P.DecisionIs(decision)] + rest)
            == Alone(c, i, client, op, Local(m.pc, m.store, P.Log([], m.event)), rest)
  {
    hide Alone, P.DecisionStep;
    FirstStep(c, i, client, op, Local(P.Deciding, s, []), P.DecisionIs(decision), rest);
  }

  /**
   The checks before the network: an executor id, a prepared request where the caller prepared one, a fitting
   handle.
   */
  ghost predicate LocallyFine(c: Crypto, config: P.Client, op: P.Op)
    requires P.Governed(op)
  {
    && ValidExecutorId(config.executorId)
    && ((op.Execute? && !op.prepared && op.request.ToolRequest?) || Prepared(op.request))
    && (op.Resume? ==> ValidPending(c, op.handle, op.request.idempotencyId, Body(op.request)))
  }

  /** What a governed call asks the Proxy. */
  function AskFor(op: P.Op): DecisionRequest
    requires P.Governed(op)
  {
    DecisionRequest(op.request.idempotencyId, Body(op.request), if op.Resume? then Some(op.handle.pendingId) else None,
                    if op.Resume? then Some(op.handle.payloadSha256) else None)
  }

  /** What a governed call reports when it is not granted. */
  function Undecided(op: P.Op, decision: P.Decision, accepted: bool): P.Outcome {
    if !decision.Accepted? || !accepted then P.Failed(P.DecisionFailed)
    else if op.Execute? then P.Failed(P.ReviewRequired(decision.pending))
    else if op.Resume? && decision.pending != op.handle then P.Failed(P.DecisionFailed)
    else P.Pending(decision.pending)
  }

  // ---------------------------------------------------------------- reconciliation

  /** Loading the intent, as the machine does it. */
  lemma LoadSteps(c: Crypto, i: nat, client: P.Client, u: UncertainExecution, s: StoreState, rest: seq<P.Answer>)
    ensures var op := P.Reconcile(u);
            var m := P.LoadStep(c, P.Thread(client, op, P.Loading), s, P.Fine);
            Alone(c, i, client, op, Local(P.Loading, s, []), [P.StoreSays(P.Fine)] + rest)
            == Alone(c, i, client, op, Local(m.pc, s, []), rest)
  {
    hide Alone, ValidUncertainIntent, LoadUncertain;
    FirstStep(c, i, client, P.Reconcile(u), Local(P.Loading, s, []), P.StoreSays(P.Fine), rest);
  }

  /** Looking an effect up, as the machine does it. */
  lemma LookupSteps(c: Crypto, i: nat, client: P.Client, u: UncertainExecution, intent: ExecutionIntent, s: StoreState,
                    found: Option<EffectLookupOutcome>, rest: seq<P.Answer>)
    ensures var op := P.Reconcile(u);
            var m := P.LookupStep(i, P.Thread(client, op, P.LookingUp(intent)), intent, s, found);
            Alone(c, i, client, op, Local(P.LookingUp(intent), s, []), [P.LookupSays(found)] + rest)
            == Alone(c, i, client, op, Local(m.pc, s, P.Log([], m.event)), rest)
  {
    hide Alone, ValidEffect;
    FirstStep(c, i, client, P.Reconcile(u), Local(P.LookingUp(intent), s, []), P.LookupSays(found), rest);
  }

  lemma LookupStuck(c: Crypto, i: nat, client: P.Client, u: UncertainExecution, intent: ExecutionIntent, s: StoreState,
                    found: Option<EffectLookupOutcome>)
    ensures var op := P.Reconcile(u);
            var m := P.LookupStep(i, P.Thread(client, op, P.LookingUp(intent)), intent, s, found);
            Alone(c, i, client, op, Local(P.LookingUp(intent), s, []), [P.LookupSays(found)])
            == Local(m.pc, s, P.Log([], m.event))
  {
    hide P.LookupStep;
    LookupSteps(c, i, client, u, intent, s, found, []);
    assert [P.LookupSays(found)] + [] == [P.LookupSays(found)];
  }

  predicate Usable(found: Option<EffectLookupOutcome>) {
    found.Some? && found.value.Found? && ValidEffect(found.value.effect)
  }

  /** Why a lookup answer leaves the effect uncertain. */
  function StuckReason(found: Option<EffectLookupOutcome>): UncertainReason {
    match found
    case None => LookupUnavailable
    case Some(NotFound) => EffectNotFound
    case Some(Ambiguous) => LookupAmbiguous
    case Some(Found(_)) => LookupInvalid
  }

  function LookupRequestOf(intent: ExecutionIntent): EffectLookupRequest {
    EffectLookupRequest(intent.authorizationId, intent.idempotencyId, intent.executorId, intent.payloadSha256)
  }

  /** What an attempt does to the store, and that it never starts what was started or completed. */
  lemma AttemptMeans(s: StoreState, intent: ExecutionIntent, use: AuthorizationUse)
    ensures var (after, claim) := BeginAttempt(s, intent, use);
            && (claim == Ok(Started) ==>
                  && after.intents == s.intents + [intent] && after.completions == s.completions
                  && after.claimed == s.claimed + (if use == SingleUse then {intent.authorizationId} else {})
                  && intent.authorizationId !in s.inFlight + s.completed)
            && (claim != Ok(Started) ==> after == s)
  {
  }

  lemma LookupIsLiteral(c: Crypto, u: UncertainExecution, intent: ExecutionIntent)
    requires ValidUncertainIntent(c, u, intent)
    ensures LookupRequestOf(intent)
         == EffectLookupRequest(authorizationId := u.authorizationId, idempotencyId := u.idempotencyId,
                                executorId := u.executorId, payloadSha256 := u.payloadSha256)
  {
    hide ValidAuthorization;
  }

  lemma RequestIsLiteral(executorId: string, signed: SignedAuthorization)
    ensures P.RequestOf(executorId, signed)
         == ToolExecutionRequest(idempotencyId := signed.authorization.idempotencyId,
                                 authorizationId := signed.authorization.authorizationId,
                                 executorId := executorId,
                                 executionPayload := signed.authorization.executionPayload)
  {
  }

  /** A completion's own entry passes the check made before it is posted. */
  lemma OwnQueued(c: Crypto, signed: SignedAuthorization, effect: ExecutionEffect, x: ExecutionCompletion,
                  entry: OutboxEntry)
    requires exists key, executorId :: x == CompletionOf(c, key, executorId, signed, effect)
    requires EntrySays(entry, x)
    ensures ValidOutboxEntry(entry) && entry == EntryOf(x)
  {
    hide ValidOutboxEntry, ReceiptOf;
    var key, executorId :| x == CompletionOf(c, key, executorId, signed, effect);
    OwnEntryValid(c, key, signed, effect);
  }

  function FlushCount(limit: nat, pending: seq<OutboxEntry>): nat {
    if |pending| <= limit then |pending| else limit
  }

  /** The store after the first `k` pending entries were delivered. */
  ghost predicate Drained(before: StoreState, after: StoreState, k: nat) {
    && k <= |before.pending|
    && after == before.(pending := before.pending[k..], delivered := after.delivered)
    && before.delivered <= after.delivered
    && DeliveredIds(after.delivered[|before.delivered|..]) == PendingIds(before.pending[..k])
  }

  /** Marking the entry at the head of the outbox removes exactly that entry, whatever ids the others have. */
  lemma DrainHead(before: StoreState, at: StoreState, k: nat, recorded: ReceiptRecorded)
    requires Drained(before, at, k) && k < |before.pending|
    ensures var (after, done) := MarkDelivered(at, before.pending[k].outboxId, recorded);
            done.Ok? && Drained(before, after, k + 1)
  {
    var entry := before.pending[k];
    assert at.pending[0] == entry;
    assert PositionOf(at.pending, entry.outboxId) == Some(0);
    var after := MarkDelivered(at, entry.outboxId, recorded).0;
    assert after.pending == before.pending[k + 1..];
    var n := |before.delivered|;
    assert after.delivered[n..] == at.delivered[n..] + [(entry.outboxId, recorded)];
    assert DeliveredIds(after.delivered[n..]) == DeliveredIds(at.delivered[n..]) + [entry.outboxId];
    assert PendingIds(before.pending[..k + 1]) == PendingIds(before.pending[..k]) + [entry.outboxId];
  }

  /** One delivery of a flush: it takes the head of the outbox if it is done, and nothing otherwise. */
  lemma DeliveredDrains(before: StoreState, at: StoreState, k: nat, reply: Option<ReceiptRecorded>)
    requires Drained(before, at, k) && k < |before.pending|
    ensures var entry := before.pending[k];
            && (DeliveryDone(entry, reply, at) ==>
                  reply.Some? && ValidOutboxEntry(entry) && Drained(before, DeliveredStore(entry, reply, at), k + 1))
            && (!DeliveryDone(entry, reply, at) ==> DeliveredStore(entry, reply, at) == at)
  {
    hide ValidOutboxEntry, P.Acknowledges;
    if Confirms(before.pending[k], reply) {
      DrainHead(before, at, k, reply.value);
    }
  }

  /** Delivering the next entry of a flush, as the machine does it. */
  lemma FlushSteps(c: Crypto, i: nat, client: P.Client, op: P.Op, at: Local, script: seq<P.Answer>,
                   entries: seq<OutboxEntry>, k: nat, s: StoreState, events: seq<P.Event>,
                   reply: Option<ReceiptRecorded>)
    requires k < |entries|
    requires Alone(c, i, client, op, at, script) == Local(P.FlushNext(entries[k..], k), s, events)
    ensures Alone(c, i, client, op, at, script + DeliveryScript(entries[k], reply))
         == Local(if DeliveryDone(entries[k], reply, s) then P.FlushNext(entries[k + 1..], k + 1)
                  else P.Finished(P.Failed(P.DeliveryFailed)),
                  DeliveredStore(entries[k], reply, s), events + DeliveryEvents(i, entries[k], reply, s))
  {
    hide Alone, DeliveryScript, DeliveredStore, DeliveryEvents, DeliveryDone;
    assert entries[k..][1..] == entries[k + 1..] && entries[k..][0] == entries[k];
    AloneAppend(c, i, client, op, at, script, DeliveryScript(entries[k], reply));
    DeliverySteps(c, i, client, op, entries[k], P.Continue(entries[k + 1..], k), s, events, reply);
  }

  lemma DrainedNothing(s: StoreState)
    ensures Drained(s, s, 0)
  {
  }

  lemma FlushDone(entries: seq<OutboxEntry>, k: nat)
    requires k == |entries|
    ensures P.FlushNext(entries[k..], k) == P.Finished(P.Flushed(k))
  {
  }

  lemma FetchSteps(c: Crypto, i: nat, client: P.Client, limit: nat, s: StoreState)
    ensures var op := P.Flush(limit);
            Alone(c, i, client, op, Local(P.Fetching, s, []), [P.StoreSays(P.Fine)])
            == Local(P.FlushNext(PendingReceipts(s, limit), 0), s, [])
  {
    hide PendingReceipts, P.FlushNext;
    var at := Local(P.Fetching, s, []);
    AloneStep(c, i, client, P.Flush(limit), at, [], P.StoreSays(P.Fine));
    assert [] + [P.StoreSays(P.Fine)] == [P.StoreSays(P.Fine)];
  }

  lemma IntentNames(executorId: string, signed: SignedAuthorization)
    ensures IntentOf(executorId, signed).authorizationId == signed.authorization.authorizationId
  {
  }

  lemma AloneNothing(c: Crypto, i: nat, client: P.Client, op: P.Op, at: Local)
    ensures Alone(c, i, client, op, at, []) == at
  {
  }
}
