/**
 Runs that show where the guarantees stop: without retained decisions, when an authorization completes twice, and when
 an authorization is modified or carries no identity.
 */
module Limits {
  import opened Wrappers
  import Text
  import opened Uuids
  import opened Json
  import opened Records
  import opened Requests
  import opened Batches
  import opened Uncertain
  import opened Receipts
  import opened DurableStore
  import opened Protocol
  import opened ProtocolInvariant
  import opened Runs
  import opened Guarantees
  import opened Losses
  import opened Recovery

  /** A call of any governed kind and an authorization it is granted. */
  datatype Execution = Execution(client: Client, op: Op, signed: SignedAuthorization)

  ghost predicate CanExecute(c: Crypto, e: Execution) {
    Granting(c, e.client, e.op, e.signed)
  }

  function Running(e: Execution, pc: Pc): Thread {
    Thread(e.client, e.op, pc)
  }

  function IntentFor(e: Execution): ExecutionIntent {
    IntentOf(e.client.executorId, e.signed)
  }

  function RequestFor(e: Execution): ToolExecutionRequest {
    RequestOf(e.client.executorId, e.signed)
  }

  function Admission(s: StoreState, intent: ExecutionIntent, use: AuthorizationUse): StoreState {
    var id := intent.authorizationId;
    s.(intents := s.intents + [intent], inFlight := s.inFlight + {id},
       claimed := if use == SingleUse then s.claimed + {id} else s.claimed)
  }

  /** The world after a new call was granted, admitted and has invoked its executor. */
  function AfterInvocation(w: World, e: Execution): World {
    World(Admission(w.store, IntentFor(e), UseOf(e.op)), w.threads + [Running(e, AwaitingEffect(e.signed))],
          w.log + [Authorized(e.signed)] + [Admitted(IntentFor(e))] + [Invoked(|w.threads|, RequestFor(e))])
  }

  function Invocation(i: nat, e: Execution): seq<Step> {
    [Spawn(e.client, e.op), Advance(i, DecisionIs(Granted(e.signed))), Advance(i, StoreSays(Fine)),
     Advance(i, ExecutorStarts)]
  }

  lemma Admits(s: StoreState, intent: ExecutionIntent, use: AuthorizationUse)
    requires WellFormed(s) && intent.authorizationId !in IntentIds(s.intents)
    ensures BeginAttempt(s, intent, use) == (Admission(s, intent, use), Ok(Started))
  {
    hide Queued;
    assert forall x :: x in s.intents ==> x.authorizationId in IntentIds(s.intents);
  }

  lemma IntentId(e: Execution)
    ensures IntentFor(e).authorizationId == IdOf(e.signed) && IntentFor(e).authorization == e.signed
  {
  }

  lemma StepsGranted(c: Crypto, i: nat, e: Execution, s: StoreState)
    requires CanExecute(c, e)
    ensures Enter(c, e.client, e.op) == Deciding
    ensures ThreadStep(c, i, Running(e, Deciding), s, DecisionIs(Granted(e.signed)))
         == Move(Admitting(e.signed), s, Some(Authorized(e.signed)))
  {
    hide AcceptsGrant, Enter;
  }

  lemma StepsAdmitted(c: Crypto, i: nat, e: Execution, s: StoreState)
    requires BeginAttempt(s, IntentFor(e), UseOf(e.op)).1 == Ok(Started)
    ensures ThreadStep(c, i, Running(e, Admitting(e.signed)), s, StoreSays(Fine))
         == Move(Invoking(e.signed), BeginAttempt(s, IntentFor(e), UseOf(e.op)).0, Some(Admitted(IntentFor(e))))
  {
    hide BeginAttempt, IntentOf;
  }

  lemma StepsRefused(c: Crypto, i: nat, e: Execution, s: StoreState)
    requires BeginAttempt(s, IntentFor(e), UseOf(e.op)) == (s, Ok(AlreadyInFlight))
    ensures ThreadStep(c, i, Running(e, Admitting(e.signed)), s, StoreSays(Fine))
         == Move(Finished(StillUncertain(HandleOf(e.client, e.signed, InFlightAfterPriorAttempt))), s, None)
  {
    hide BeginAttempt, IntentOf, HandleOf;
  }

  lemma StepsInvoking(c: Crypto, i: nat, e: Execution, s: StoreState)
    ensures ThreadStep(c, i, Running(e, Invoking(e.signed)), s, ExecutorStarts)
         == Move(AwaitingEffect(e.signed), s, Some(Invoked(i, RequestFor(e))))
  {
    hide RequestOf;
  }

  /** A call that is granted its authorization, from any world. */
  lemma GrantSteps(c: Crypto, w: World, e: Execution)
    requires CanExecute(c, e)
    ensures var w1 := Apply(c, w, Spawn(e.client, e.op));
            Apply(c, w1, Advance(|w.threads|, DecisionIs(Granted(e.signed))))
            == World(w.store, w.threads + [Running(e, Admitting(e.signed))], w.log + [Authorized(e.signed)])
  {
    hide CanExecute, ThreadStep, Enter;
    var i := |w.threads|;
    StepsGranted(c, i, e, w.store);
    var w1 := Apply(c, w, Spawn(e.client, e.op));
    assert w1 == w.(threads := w.threads + [Running(e, Deciding)]);
    LastAdvances(c, w1, Running(e, Deciding), w.threads, DecisionIs(Granted(e.signed)));
  }

  lemma InvocationSteps(c: Crypto, w: World, e: Execution)
    requires WellFormed(w.store) && IdOf(e.signed) !in IntentIds(w.store.intents) && CanExecute(c, e)
    ensures var i := |w.threads|;
            var w1 := Apply(c, w, Spawn(e.client, e.op));
            var w2 := Apply(c, w1, Advance(i, DecisionIs(Granted(e.signed))));
            var w3 := Apply(c, w2, Advance(i, StoreSays(Fine)));
            Apply(c, w3, Advance(i, ExecutorStarts)) == AfterInvocation(w, e)
  {
    hide CanExecute, WellFormed, BeginAttempt, IntentFor, RequestFor, ThreadStep, Apply, Admission;
    var i := |w.threads|;
    IntentId(e);
    Admits(w.store, IntentFor(e), UseOf(e.op));
    GrantSteps(c, w, e);
    var w2 := Apply(c, Apply(c, w, Spawn(e.client, e.op)), Advance(i, DecisionIs(Granted(e.signed))));
    LastAdvances(c, w2, Running(e, Admitting(e.signed)), w.threads, StoreSays(Fine));
    StepsAdmitted(c, i, e, w.store);
    var w3 := Apply(c, w2, Advance(i, StoreSays(Fine)));
    LastAdvances(c, w3, Running(e, Invoking(e.signed)), w.threads, ExecutorStarts);
    StepsInvoking(c, i, e, w3.store);
  }

  /** Granting, admitting and invoking a call whose authorization is new, after any run. */
  lemma InvokeAfter(c: Crypto, steps: seq<Step>, e: Execution)
    requires IdOf(e.signed) !in IntentIds(Run(c, steps).store.intents) && CanExecute(c, e)
    ensures Run(c, steps + Invocation(|Run(c, steps).threads|, e)) == AfterInvocation(Run(c, steps), e)
  {
    hide Apply, CanExecute, AfterInvocation, Run;
    RunOk(c, steps);
    var i := |Run(c, steps).threads|;
    InvocationSteps(c, Run(c, steps), e);
    FourSteps(c, steps, Spawn(e.client, e.op), Advance(i, DecisionIs(Granted(e.signed))),
              Advance(i, StoreSays(Fine)), Advance(i, ExecutorStarts));
  }

  /** The first call of a run. */
  lemma InvokeFirst(c: Crypto, e: Execution)
    requires CanExecute(c, e)
    ensures Run(c, Invocation(0, e)) == AfterInvocation(START, e)
    ensures var w := AfterInvocation(START, e);
            && w.store.pending == [] && w.store.completions == []
            && w.threads == [Running(e, AwaitingEffect(e.signed))]
  {
    hide CanExecute, Invocation;
    assert [] + Invocation(0, e) == Invocation(0, e);
    InvokeAfter(c, [], e);
  }

  // ---------------------------------------------------------------- a repeated request

  lemma GrantIdentity(c: Crypto, e: Execution)
    requires CanExecute(c, e)
    ensures Governed(e.op) && e.signed.authorization.idempotencyId == e.op.request.idempotencyId
  {
    hide Enter;
  }

  /** Two different executor calls, one for each of two tool requests. */
  ghost predicate BothInvoked(log: seq<Event>, a: ToolExecutionRequest, b: ToolExecutionRequest) {
    exists j, k :: 0 <= j < |log| && 0 <= k < |log| && j != k
                   && log[j].Invoked? && log[j].request == a && log[k].Invoked? && log[k].request == b
  }

  lemma TwoInvocations(a: Execution, b: Execution)
    requires IdOf(a.signed) != IdOf(b.signed)
    ensures var log := AfterInvocation(AfterInvocation(START, a), b).log;
            && BothInvoked(log, RequestFor(a), RequestFor(b))
            && (a.signed.authorization.idempotencyId == b.signed.authorization.idempotencyId ==>
                  !OncePerRequest(log) && !RetainedDecisions(log))
  {
    hide IntentFor, Admission;
    var log := AfterInvocation(AfterInvocation(START, a), b).log;
    assert log[0] == Authorized(a.signed) && log[2] == Invoked(0, RequestFor(a));
    assert log[3] == Authorized(b.signed) && log[5] == Invoked(1, RequestFor(b));
  }

  lemma NotYetAdmitted(a: Execution, b: Execution)
    requires IdOf(a.signed) != IdOf(b.signed)
    ensures IdOf(b.signed) !in IntentIds(AfterInvocation(START, a).store.intents)
  {
    IntentId(a);
    hide IntentFor;
    assert AfterInvocation(START, a).store.intents == [IntentFor(a)];
  }

  /**
   A Proxy that grants one request identity twice, under two authorizations, makes the executor run twice for it,
   whether the calls execute, begin or resume, and for a tool as for a batch. At most once per request is therefore a
   promise of the Proxy's retained decisions, not of the SDK alone.
   */
  lemma RepeatWithoutRetention(c: Crypto, a: Execution, b: Execution) returns (w: World)
    requires CanExecute(c, a) && CanExecute(c, b) && IdOf(a.signed) != IdOf(b.signed)
    ensures Reachable(c, w) && BothInvoked(w.log, RequestFor(a), RequestFor(b))
    ensures |w.threads| == 2 && w.threads[0].op == a.op && w.threads[1].op == b.op
    ensures Governed(a.op) && Governed(b.op)
    ensures a.op.request.idempotencyId == b.op.request.idempotencyId ==>
              !OncePerRequest(w.log) && !RetainedDecisions(w.log)
  {
    hide CanExecute, OncePerRequest, RetainedDecisions, Invocation, BothInvoked, RequestFor, Run, Admission, IntentFor;
    InvokeFirst(c, a);
    NotYetAdmitted(a, b);
    w := Run(c, Invocation(0, a) + Invocation(1, b));
    InvokeAfter(c, Invocation(0, a), b);
    GrantIdentity(c, a);
    GrantIdentity(c, b);
    TwoInvocations(a, b);
  }

  /** Two granted calls can both reach the executor exactly when their authorization ids differ. */
  lemma RepeatsExactlyWhenIdsDiffer(c: Crypto, a: Execution, b: Execution)
    requires CanExecute(c, a) && CanExecute(c, b)
    ensures (exists w :: Reachable(c, w) && BothInvoked(w.log, RequestFor(a), RequestFor(b)))
       <==> IdOf(a.signed) != IdOf(b.signed)
  {
    hide CanExecute, Reachable;
    if IdOf(a.signed) != IdOf(b.signed) {
      var w := RepeatWithoutRetention(c, a, b);
    }
    if w :| Reachable(c, w) && BothInvoked(w.log, RequestFor(a), RequestFor(b)) {
      var log := w.log;
      var j, k :| 0 <= j < |log| && 0 <= k < |log| && j != k
                  && log[j].Invoked? && log[j].request == RequestFor(a)
                  && log[k].Invoked? && log[k].request == RequestFor(b);
      ExecutorAtMostOnce(c, w, if j < k then j else k, if j < k then k else j);
    }
  }

  // ---------------------------------------------------------------- a lost receipt

  /** Everything a race between an executor and a reconciliation of the same effect needs. */
  datatype Race = Race(execution: Execution, returned: ExecutionEffect, found: ExecutionEffect,
                       recorded: ReceiptRecorded)

  ghost predicate Racing(c: Crypto, r: Race) {
    && CanExecute(c, r.execution) && r.execution.client.lookupRegistered
    && HasIdentity(r.execution.signed.authorization)
    && ValidEffect(r.returned) && ValidEffect(r.found)
    && r.recorded.authorizationId == IdOf(r.execution.signed)
    && r.recorded.contract == EXECUTION_CONTRACT && r.recorded.stage == COMPLETED_STAGE
  }

  /** The executor and its lookup report different effects: another effect id, or a result with another hash. */
  predicate Disagree(c: Crypto, r: Race) {
    || r.returned.effectId != r.found.effectId
    || Sha256(c, Canonical(r.returned.result)) != Sha256(c, Canonical(r.found.result))
  }

  /** The handle that a duplicate of the call gets while the first one is in flight. */
  function Handle(r: Race): UncertainExecution {
    HandleOf(r.execution.client, r.execution.signed, InFlightAfterPriorAttempt)
  }

  function First(c: Crypto, r: Race): ExecutionCompletion {
    OwnCompletion(c, r.execution.client, r.execution.signed, r.returned)
  }

  function Second(c: Crypto, r: Race): ExecutionCompletion {
    OwnCompletion(c, r.execution.client, r.execution.signed, r.found)
  }

  /** The two receipts share an outbox id, have valid outbox entries, and differ when the effects do. */
  lemma RaceEntries(c: Crypto, r: Race)
    requires Racing(c, r)
    ensures EntryOf(First(c, r)).outboxId == EntryOf(Second(c, r)).outboxId
    ensures EntryOf(First(c, r)) != EntryOf(Second(c, r)) <==> Disagree(c, r)
    ensures ValidOutboxEntry(EntryOf(Second(c, r))) && Acknowledges(EntryOf(Second(c, r)), r.recorded)
  {
    hide CanExecute, HasIdentity, ValidEffect;
    OwnEntryValid(c, r.execution.client.key, r.execution.signed, r.found);
    assert EntryOf(First(c, r)).receipt.effectId == r.returned.effectId;
    assert EntryOf(Second(c, r)).receipt.effectId == r.found.effectId;
    assert EntryOf(First(c, r)).receipt.resultSha256 == Sha256(c, Canonical(r.returned.result));
    assert EntryOf(Second(c, r)).receipt.resultSha256 == Sha256(c, Canonical(r.found.result));
  }

  lemma GrantValid(c: Crypto, e: Execution)
    requires CanExecute(c, e)
    ensures ValidExecutorId(e.client.executorId)
    ensures ValidAuthorization(c, e.signed, e.signed.authorization.idempotencyId)
  {
    hide ValidExecutorId, ValidPending, Prepared, ValidBatchAuthorization;
  }

  lemma HandleReady(c: Crypto, r: Race)
    requires Racing(c, r)
    ensures ValidUncertain(Handle(r)) && ValidUncertainIntent(c, Handle(r), IntentFor(r.execution))
    ensures ValidExecutorId(r.execution.client.executorId)
    ensures Handle(r).executorId == r.execution.client.executorId
    ensures Handle(r).authorizationId == IdOf(r.execution.signed)
    ensures r.execution.client.lookupRegistered
  {
    hide ValidUncertain, ValidUncertainIntent, CanExecute, ValidExecutorId, ValidAuthorization, HasIdentity,
         ValidEffect;
    GrantValid(c, r.execution);
    HandleStaysUsable(c, r.execution.client.executorId, r.execution.signed, InFlightAfterPriorAttempt, true, []);
  }

  /** The call that came second and was told that the first is still in flight. */
  function Duplicate(r: Race): Thread {
    Running(r.execution, Finished(StillUncertain(Handle(r))))
  }

  function Reconciling(r: Race, pc: Pc): Thread {
    Thread(r.execution.client, Reconcile(Handle(r)), pc)
  }

  lemma InFlightAgain(s: StoreState, intent: ExecutionIntent, use: AuthorizationUse)
    requires s.intents == [intent] && s.inFlight == {intent.authorizationId} && s.completed == {}
    ensures BeginAttempt(s, intent, use) == (s, Ok(AlreadyInFlight))
    ensures LoadUncertain(s, intent.authorizationId) == Some(intent)
  {
  }

  lemma RaceStore(r: Race)
    ensures var e, s := r.execution, AfterInvocation(START, r.execution).store;
            && BeginAttempt(s, IntentFor(e), UseOf(e.op)) == (s, Ok(AlreadyInFlight))
            && LoadUncertain(s, IdOf(e.signed)) == Some(IntentFor(e))
  {
    var e := r.execution;
    IntentId(e);
    hide IntentFor, BeginAttempt, LoadUncertain;
    InFlightAgain(AfterInvocation(START, e).store, IntentFor(e), UseOf(e.op));
  }

  /** A duplicate of the call is granted the same authorization and finds it in flight. */
  lemma DuplicateHalf(c: Crypto, r: Race, w: World)
    requires Racing(c, r) && w == AfterInvocation(START, r.execution)
    ensures var e := r.execution;
            var w1 := Apply(c, w, Spawn(e.client, e.op));
            var w2 := Apply(c, w1, Advance(1, DecisionIs(Granted(e.signed))));
            Apply(c, w2, Advance(1, StoreSays(Fine)))
            == World(w.store, [Running(e, AwaitingEffect(e.signed)), Duplicate(r)], w.log + [Authorized(e.signed)])
  {
    hide CanExecute, HasIdentity, ValidEffect, BeginAttempt, LoadUncertain, IntentFor, HandleOf, Apply, ThreadStep,
         Admission;
    var e := r.execution;
    assert |w.threads| == 1;
    RaceStore(r);
    GrantSteps(c, w, e);
    var w2 := Apply(c, Apply(c, w, Spawn(e.client, e.op)), Advance(1, DecisionIs(Granted(e.signed))));
    LastAdvances(c, w2, Running(e, Admitting(e.signed)), w.threads, StoreSays(Fine));
    StepsRefused(c, 1, e, w.store);
  }

  /** A reconciliation of the duplicate's handle loads the intent that is in flight. */
  lemma LoadHalf(c: Crypto, r: Race, w: World)
    requires Racing(c, r) && w.store == AfterInvocation(START, r.execution).store && |w.threads| == 2
    ensures var w1 := Apply(c, w, Spawn(r.execution.client, Reconcile(Handle(r))));
            Apply(c, w1, Advance(2, StoreSays(Fine)))
            == w.(threads := w.threads + [Reconciling(r, LookingUp(IntentFor(r.execution)))])
  {
    RaceStore(r);
    HandleReady(c, r);
    hide ValidUncertain, ValidUncertainIntent, ValidExecutorId, Racing, Handle, LoadUncertain, IntentFor, ThreadStep,
         Enter, AfterInvocation, BeginAttempt;
    EntersLoading(c, r.execution.client, Handle(r));
    var w1 := Apply(c, w, Spawn(r.execution.client, Reconcile(Handle(r))));
    assert w1 == w.(threads := w.threads + [Reconciling(r, Loading)]);
    LastAdvances(c, w1, Reconciling(r, Loading), w.threads, StoreSays(Fine));
    LoadsIntent(c, Reconciling(r, Loading), w.store, IntentFor(r.execution));
    StepsLoading(c, 2, Reconciling(r, Loading), w.store);
  }

  /** One call of a world takes one step. */
  lemma OneAdvances(c: Crypto, w: World, i: nat, t: Thread, a: Answer)
    requires i < |w.threads| && w.threads[i] == t
    ensures var m := ThreadStep(c, i, t, w.store, a);
            Apply(c, w, Advance(i, a)) == World(m.store, w.threads[i := t.(pc := m.pc)], Log(w.log, m.event))
  {
    hide ThreadStep;
  }

  lemma StepsReturned(c: Crypto, i: nat, e: Execution, s: StoreState, effect: ExecutionEffect)
    requires ValidEffect(effect)
    ensures ThreadStep(c, i, Running(e, AwaitingEffect(e.signed)), s, ExecutorSays(Some(effect)))
         == Move(Committing(e.signed, effect, FromExecutor), s, Some(Returned(i, IdOf(e.signed), effect)))
  {
    hide ValidEffect;
  }

  /** The lookup finds an effect before the executor answers. */
  lemma LookupHalf(c: Crypto, r: Race, w: World)
    requires Racing(c, r)
    requires w.threads == [Running(r.execution, AwaitingEffect(r.execution.signed)), Duplicate(r),
                           Reconciling(r, LookingUp(IntentFor(r.execution)))]
    ensures var signed := r.execution.signed;
            var w1 := Apply(c, w, Advance(2, LookupSays(Some(Found(r.found)))));
            Apply(c, w1, Advance(0, ExecutorSays(Some(r.returned))))
            == World(w.store,
                     [Running(r.execution, Committing(signed, r.returned, FromExecutor)), Duplicate(r),
                      Reconciling(r, Committing(signed, r.found, FromLookup))],
                     w.log + [LookedUp(2, IdOf(signed), r.found)] + [Returned(0, IdOf(signed), r.returned)])
  {
    hide CanExecute, ValidEffect, Handle, HasIdentity, IntentFor, ThreadStep, Apply, IdOf, Duplicate;
    var signed := r.execution.signed;
    IntentId(r.execution);
    var looking := Reconciling(r, LookingUp(IntentFor(r.execution)));
    OneAdvances(c, w, 2, looking, LookupSays(Some(Found(r.found))));
    StepsLooking(c, 2, looking, w.store, r.found);
    var w1 := Apply(c, w, Advance(2, LookupSays(Some(Found(r.found)))));
    assert w1 == World(w.store, [w.threads[0], w.threads[1], Reconciling(r, Committing(signed, r.found, FromLookup))],
                       w.log + [LookedUp(2, IdOf(signed), r.found)]);
    OneAdvances(c, w1, 0, w.threads[0], ExecutorSays(Some(r.returned)));
    StepsReturned(c, 0, r.execution, w.store, r.returned);
  }

  function FirstNext(r: Race): Next {
    Report(r.execution.signed, r.returned, FromExecutor)
  }

  function SecondNext(r: Race): Next {
    Report(r.execution.signed, r.found, FromLookup)
  }

  /** Both effects are committed. */
  lemma CommitHalf(c: Crypto, r: Race, w: World)
    requires w.store.pending == []
    requires w.threads == [Running(r.execution, Committing(r.execution.signed, r.returned, FromExecutor)), Duplicate(r),
                           Reconciling(r, Committing(r.execution.signed, r.found, FromLookup))]
    ensures var w1 := Apply(c, w, Advance(0, StoreSays(Fine)));
            var w2 := Apply(c, w1, Advance(2, StoreSays(Fine)));
            && w2.store.completions == w.store.completions + [First(c, r)] + [Second(c, r)]
            && w2.store.pending == [EntryOf(First(c, r)), EntryOf(Second(c, r))]
            && w2.threads == [Running(r.execution, Recording(EntryOf(First(c, r)), FirstNext(r))), Duplicate(r),
                              Reconciling(r, Recording(EntryOf(Second(c, r)), SecondNext(r)))]
            && w2.log == w.log + [Committed(0, First(c, r))] + [Committed(2, Second(c, r))]
  {
    hide CompletionOf, EntryOf, Handle, ThreadStep, Apply;
    OneAdvances(c, w, 0, w.threads[0], StoreSays(Fine));
    StepsCommitting(c, 0, w.threads[0], w.store);
    var w1 := Apply(c, w, Advance(0, StoreSays(Fine)));
    OneAdvances(c, w1, 2, w.threads[2], StoreSays(Fine));
    StepsCommitting(c, 2, w.threads[2], w1.store);
  }

  /** Marking the second of two entries with one outbox id removes the first. */
  lemma MarkSecond(s: StoreState, one: OutboxEntry, two: OutboxEntry, recorded: ReceiptRecorded)
    requires s.pending == [one, two] && one.outboxId == two.outboxId
    ensures MarkDelivered(s, two.outboxId, recorded)
         == (s.(pending := [two], delivered := s.delivered + [(two.outboxId, recorded)]), Ok(()))
  {
    assert PositionOf([one, two], two.outboxId) == Some(0);
    assert Without([one, two], 0) == [two];
  }

  lemma StepsMarked(c: Crypto, i: nat, t: Thread, s: StoreState)
    requires t.pc.Marking? && t.pc.next.Report?
    requires MarkDelivered(s, t.pc.entry.outboxId, t.pc.recorded).1 == Ok(())
    ensures var m := ThreadStep(c, i, t, s, StoreSays(Fine));
            && m.store == MarkDelivered(s, t.pc.entry.outboxId, t.pc.recorded).0
            && m.event == Some(Delivered(i, t.pc.entry.outboxId, t.pc.recorded))
  {
    hide MarkDelivered;
  }

  lemma StepsUnanswered(c: Crypto, i: nat, t: Thread, s: StoreState)
    requires t.pc.Recording?
    ensures ThreadStep(c, i, t, s, ProxySays(None)) == Move(Finished(Failed(DeliveryFailed)), s, None)
  {
  }

  function Success(r: Race): Pc {
    Finished(Completed(ExecutionOutcome(r.recorded, r.found.result, r.found.effectId)))
  }

  /** The second receipt is confirmed and marked, and then the delivery of the first one fails. */
  lemma DeliverHalf(c: Crypto, r: Race, w: World, one: OutboxEntry, two: OutboxEntry)
    requires w.store.pending == [one, two] && one.outboxId == two.outboxId
    requires ValidOutboxEntry(two) && Acknowledges(two, r.recorded)
    requires w.threads == [Running(r.execution, Recording(one, FirstNext(r))), Duplicate(r),
                           Reconciling(r, Recording(two, SecondNext(r)))]
    ensures var w1 := Apply(c, w, Advance(2, ProxySays(Some(r.recorded))));
            var w2 := Apply(c, w1, Advance(2, StoreSays(Fine)));
            var w3 := Apply(c, w2, Advance(0, ProxySays(None)));
            && w3.store.completions == w.store.completions && w3.store.pending == [two]
            && w3.threads == [Running(r.execution, Finished(Failed(DeliveryFailed))), Duplicate(r),
                              Reconciling(r, Success(r))]
            && w3.log == w.log + [Confirmed(2, two, r.recorded)] + [Delivered(2, two.outboxId, r.recorded)]
  {
    hide ValidOutboxEntry, Acknowledges, MarkDelivered, Handle, ThreadStep, Apply;
    MarkSecond(w.store, one, two, r.recorded);
    OneAdvances(c, w, 2, w.threads[2], ProxySays(Some(r.recorded)));
    StepsRecording(c, 2, w.threads[2], w.store, r.recorded);
    var w1 := Apply(c, w, Advance(2, ProxySays(Some(r.recorded))));
    var marking := Reconciling(r, Marking(two, r.recorded, SecondNext(r)));
    OneAdvances(c, w1, 2, marking, StoreSays(Fine));
    StepsMarking(c, 2, marking, w.store);
    StepsMarked(c, 2, marking, w.store);
    var w2 := Apply(c, w1, Advance(2, StoreSays(Fine)));
    OneAdvances(c, w2, 0, w.threads[0], ProxySays(None));
    StepsUnanswered(c, 0, w.threads[0], w2.store);
  }

  function DuplicateSteps(r: Race): seq<Step> {
    var e := r.execution;
    [Spawn(e.client, e.op), Advance(1, DecisionIs(Granted(e.signed))), Advance(1, StoreSays(Fine)),
     Spawn(e.client, Reconcile(Handle(r)))]
  }

  function EffectSteps(r: Race): seq<Step> {
    [Advance(2, StoreSays(Fine)), Advance(2, LookupSays(Some(Found(r.found)))),
     Advance(0, ExecutorSays(Some(r.returned))), Advance(0, StoreSays(Fine))]
  }

  /**
   One call executes, a duplicate is told so and its handle is reconciled, both effects are completed, the second
   receipt is delivered, and the delivery of the first one fails.
   */
  function RaceSteps(r: Race): seq<Step> {
    Invocation(0, r.execution) + DuplicateSteps(r) + EffectSteps(r)
    + [Advance(2, StoreSays(Fine)), Advance(2, ProxySays(Some(r.recorded))), Advance(2, StoreSays(Fine)),
       Advance(0, ProxySays(None))]
  }

  /** The run up to the point where the reconciliation has loaded its intent but not looked it up. */
  lemma RaceBegins(c: Crypto, r: Race)
    requires Racing(c, r)
    ensures var e, invoked := r.execution, AfterInvocation(START, r.execution);
            Apply(c, Run(c, Invocation(0, e) + DuplicateSteps(r)), Advance(2, StoreSays(Fine)))
            == World(invoked.store,
                     [Running(e, AwaitingEffect(e.signed)), Duplicate(r), Reconciling(r, LookingUp(IntentFor(e)))],
                     invoked.log + [Authorized(e.signed)])
  {
    var e := r.execution;
    RaceCanExecute(c, r);
    hide Apply, Run, Racing, Handle, Invocation, AfterInvocation, CanExecute, IntentFor;
    InvokeFirst(c, e);
    var w := Run(c, Invocation(0, e));
    DuplicateHalf(c, r, w);
    FourSteps(c, Invocation(0, e), Spawn(e.client, e.op), Advance(1, DecisionIs(Granted(e.signed))),
              Advance(1, StoreSays(Fine)), Spawn(e.client, Reconcile(Handle(r))));
    LoadHalf(c, r, World(w.store, [Running(e, AwaitingEffect(e.signed)), Duplicate(r)],
                         w.log + [Authorized(e.signed)]));
  }

  lemma RaceCanExecute(c: Crypto, r: Race)
    requires Racing(c, r)
    ensures CanExecute(c, r.execution)
  {
  }

  /** The run up to the point where both effects are found and the first is committed. */
  lemma RaceFinds(c: Crypto, r: Race)
    requires Racing(c, r)
    ensures var w := Run(c, Invocation(0, r.execution) + DuplicateSteps(r) + EffectSteps(r));
            var signed := r.execution.signed;
            var v := Apply(c, w, Advance(2, StoreSays(Fine)));
            && v.store.completions == [First(c, r), Second(c, r)]
            && v.store.pending == [EntryOf(First(c, r)), EntryOf(Second(c, r))]
            && v.threads == [Running(r.execution, Recording(EntryOf(First(c, r)), FirstNext(r))), Duplicate(r),
                             Reconciling(r, Recording(EntryOf(Second(c, r)), SecondNext(r)))]
            && v.log == AfterInvocation(START, r.execution).log + [Authorized(signed)]
                        + [LookedUp(2, IdOf(signed), r.found)] + [Returned(0, IdOf(signed), r.returned)]
                        + [Committed(0, First(c, r))] + [Committed(2, Second(c, r))]
  {
    RaceCanExecute(c, r);
    hide Apply, Run, Racing, First, Second, Handle, Invocation, DuplicateSteps, AfterInvocation, EntryOf, CanExecute,
         IntentFor, IdOf, Duplicate;
    var begun := Invocation(0, r.execution) + DuplicateSteps(r);
    RaceBegins(c, r);
    InvokeFirst(c, r.execution);
    var w1 := Apply(c, Run(c, begun), Advance(2, StoreSays(Fine)));
    LookupHalf(c, r, w1);
    CommitHalf(c, r, Apply(c, Apply(c, w1, Advance(2, LookupSays(Some(Found(r.found))))),
                           Advance(0, ExecutorSays(Some(r.returned)))));
    FourSteps(c, begun, Advance(2, StoreSays(Fine)), Advance(2, LookupSays(Some(Found(r.found)))),
              Advance(0, ExecutorSays(Some(r.returned))), Advance(0, StoreSays(Fine)));
  }

  lemma RaceRun(c: Crypto, r: Race)
    requires Racing(c, r)
    ensures var w, signed := Run(c, RaceSteps(r)), r.execution.signed;
            && w.store.completions == [First(c, r), Second(c, r)]
            && w.store.pending == [EntryOf(Second(c, r))]
            && w.threads == [Running(r.execution, Finished(Failed(DeliveryFailed))), Duplicate(r),
                             Reconciling(r, Success(r))]
            && w.log == AfterInvocation(START, r.execution).log + [Authorized(signed)]
                        + [LookedUp(2, IdOf(signed), r.found)] + [Returned(0, IdOf(signed), r.returned)]
                        + [Committed(0, First(c, r))] + [Committed(2, Second(c, r))]
                        + [Confirmed(2, EntryOf(Second(c, r)), r.recorded)]
                        + [Delivered(2, EntryOf(Second(c, r)).outboxId, r.recorded)]
  {
    RaceEntries(c, r);
    RaceFinds(c, r);
    hide Apply, Run, Racing, First, Second, Invocation, DuplicateSteps, EffectSteps, AfterInvocation, EntryOf,
         Duplicate, Reconciling, Running, ValidOutboxEntry, Acknowledges, Disagree, IdOf;
    var more := Invocation(0, r.execution) + DuplicateSteps(r) + EffectSteps(r);
    DeliverHalf(c, r, Apply(c, Run(c, more), Advance(2, StoreSays(Fine))), EntryOf(First(c, r)), EntryOf(Second(c, r)));
    FourSteps(c, more, Advance(2, StoreSays(Fine)), Advance(2, ProxySays(Some(r.recorded))),
              Advance(2, StoreSays(Fine)), Advance(0, ProxySays(None)));
  }

  lemma RaceMisses(c: Crypto, r: Race)
    requires Racing(c, r)
    ensures var w := Run(c, RaceSteps(r));
            First(c, r) in w.store.completions && (Missing(w, First(c, r)) <==> Disagree(c, r))
  {
    hide Racing, First, Second, EntryOf, RaceSteps, Run, Disagree, Handle;
    RaceRun(c, r);
    RaceEntries(c, r);
  }

  /**
   A duplicate call is told that the first is in flight, and its handle is reconciled while the executor still runs.
   When both complete, marking the second receipt removes the first one from the outbox; then the delivery of the
   first one fails. Exactly when the two effects disagree, that receipt is lost: it does not remain pending, and no
   continuation of the run ever posts it again.
   */
  lemma ReceiptLostInRace(c: Crypto, r: Race)
    requires Racing(c, r)
    ensures var w := Run(c, RaceSteps(r));
            && First(c, r) in w.store.completions
            && |w.threads| == 3 && w.threads[0] == Running(r.execution, Finished(Failed(DeliveryFailed)))
            && w.threads[1] == Running(r.execution, Finished(StillUncertain(Handle(r))))
            && w.threads[2].op == Reconcile(Handle(r))
            && (Lost(c, w, First(c, r)) <==> Disagree(c, r))
  {
    hide Racing, First, Second, EntryOf, RaceSteps, Run, Disagree, Handle, Missing, Lost, Reachable;
    RaceRun(c, r);
    RaceMisses(c, r);
    ReachedBy(c, RaceSteps(r));
    SettledLoses(c, Run(c, RaceSteps(r)), First(c, r));
  }

  // ---------------------------------------------------------------- these situations arise

  function SampleId(n: Byte): Uuid {
    [n, 1, 0, 0, 0, 0, 0, 0, 0, 0, 0, 0, 0, 0, 0, 0]
  }

  lemma SampleIds()
    ensures SampleId(1) != SampleId(2)
    ensures forall n :: SampleId(n) != NIL
  {
    assert SampleId(1)[0] != SampleId(2)[0];
    forall n ensures SampleId(n) != NIL {
      assert SampleId(n)[1] != NIL[1];
    }
  }

  function SampleTool(): Request {
    ToolRequest(SampleId(0), "payments.transfer", Null)
  }

  function SampleCall(): ModelToolCall {
    ModelToolCall("call", "payments.transfer", Null)
  }

  function SampleBatch(): Request {
    BatchRequest(SampleId(0), [SampleCall()])
  }

  function SampleHandle(c: Crypto, request: Request): PendingAuthorization {
    PendingAuthorization(PENDING_AUTHORIZATION_CONTRACT, "pending", SampleId(1), request.idempotencyId, SampleId(0),
                         Sha256(c, Canonical(Body(request))), 60, 1_000)
  }

  function SampleClient(): Client {
    Client("sdk", true, "key")
  }

  /** A governed call of any kind for the sample tool or the sample batch. */
  ghost predicate SampleOp(c: Crypto, op: Op) {
    && Governed(op) && (op.request == SampleTool() || op.request == SampleBatch())
    && (op.Resume? ==> op.handle == SampleHandle(c, op.request))
  }

  /** A grant of a request under the authorization id `SampleId(n)`. */
  function SampleGrant(c: Crypto, request: Request, n: Byte): SignedAuthorization {
    SignedAuthorization(
      Authorization(EXECUTION_CONTRACT, "authorization", SampleId(n), request.idempotencyId, SampleId(0), "agent",
                    "spiffe://agent", "acme", "fp", "tools/call", "payments.transfer", Body(request),
                    Sha256(c, Canonical(Body(request))), Null, None, PolicyBundle(1, "v1", "", 0), "brain", ""),
      IdentitySignature("Ed25519", "key", "signature"))
  }

  function SampleExecution(c: Crypto, op: Op, n: Byte): Execution
    requires Governed(op)
  {
    Execution(SampleClient(), op, SampleGrant(c, op.request, n))
  }

  lemma SampleExecutor()
    ensures ValidExecutorId("sdk")
  {
    Text.AsciiLength("sdk");
  }

  lemma NameValid(name: string)
    requires 1 <= |name| <= 256 && forall x :: x in name ==> x as int < 0x80
    ensures ValidName(name)
  {
    Text.AsciiLength(name);
  }

  lemma SampleNames()
    ensures ValidName("call") && ValidName("payments.transfer") && ValidName("payments.refund")
  {
    hide ValidName;
    NameValid("call");
    NameValid("payments.transfer");
    NameValid("payments.refund");
  }

  lemma SamplePrepared()
    ensures Prepared(SampleTool()) && Prepared(SampleBatch())
  {
    SampleNames();
    hide ValidName;
    assert CallIds([SampleCall()]) == ["call"];
  }

  lemma SampleHandleValid(c: Crypto, request: Request)
    ensures ValidPending(c, SampleHandle(c, request), request.idempotencyId, Body(request))
  {
    hide Canonical, Body, Sha256;
    SampleIds();
  }

  lemma SampleGrantValid(c: Crypto, request: Request, n: Byte)
    ensures var signed := SampleGrant(c, request, n);
            && ValidAuthorization(c, signed, request.idempotencyId)
            && signed.authorization.executionPayload == Body(request)
            && signed.authorization.modificationDiff == None && signed.authorization.correlationId == SampleId(0)
            && IdOf(signed) == SampleId(n)
            && (request.idempotencyId != NIL ==> HasIdentity(signed.authorization))
  {
    hide Canonical, Body, Sha256;
    SampleIds();
  }

  lemma SampleEnters(c: Crypto, op: Op)
    requires SampleOp(c, op)
    ensures Enter(c, SampleClient(), op) == Deciding
  {
    hide ValidPending, Prepared, ValidExecutorId, Body, SampleHandle, SampleTool, SampleBatch;
    SampleExecutor();
    SamplePrepared();
    SampleHandleValid(c, op.request);
  }

  /** What a call needs to be granted. */
  lemma GrantExecutes(c: Crypto, e: Execution)
    requires Governed(e.op) && Enter(c, e.client, e.op) == Deciding
    requires ValidAuthorization(c, e.signed, e.op.request.idempotencyId)
    requires e.signed.authorization.modificationDiff.None? ==>
               e.signed.authorization.executionPayload == Body(e.op.request)
    requires e.op.Resume? ==> e.signed.authorization.correlationId == e.op.handle.correlationId
    requires e.op.request.BatchRequest? ==>
               ValidBatchAuthorization(e.signed, e.op.request.idempotencyId, e.op.request.calls, Body(e.op.request))
    ensures CanExecute(c, e)
  {
    hide Enter, ValidAuthorization, ValidBatchAuthorization, Body;
  }

  lemma SampleCorrelates(c: Crypto, op: Op)
    requires SampleOp(c, op)
    ensures op.Resume? ==> op.handle.correlationId == SampleId(0)
  {
    hide Body, Canonical, Sha256, SampleId;
  }

  lemma SampleExecutes(c: Crypto, op: Op, n: Byte)
    requires SampleOp(c, op)
    ensures CanExecute(c, SampleExecution(c, op, n))
  {
    hide ValidAuthorization, SampleGrant, Enter, ValidBatchAuthorization, Prepared, BatchEnvelope, SampleTool, SampleId,
         SampleClient, SampleHandle, CanExecute, Body;
    SampleEnters(c, op);
    SampleCorrelates(c, op);
    SampleGrantValid(c, op.request, n);
    if op.request.BatchRequest? {
      SamplePrepared();
      BatchIsEnvelope(op.request);
      UnmodifiedBatch(SampleGrant(c, op.request, n), op.request.idempotencyId, op.request.calls);
    }
    GrantExecutes(c, SampleExecution(c, op, n));
  }

  lemma BatchIsEnvelope(request: Request)
    requires request.BatchRequest?
    ensures Body(request) == BatchEnvelope(request.idempotencyId, request.calls)
    ensures Prepared(request) <==> ValidModelToolCalls(request.calls)
  {
  }

  /** Whatever the digest, some run executes one request twice, by any kind of call, for a tool and for a batch. */
  lemma RequestsCanRepeat(c: Crypto, op: Op) returns (w: World)
    requires SampleOp(c, op)
    ensures Reachable(c, w) && !OncePerRequest(w.log) && !RetainedDecisions(w.log)
    ensures |w.threads| == 2 && w.threads[0].op == w.threads[1].op == op
  {
    hide CanExecute, OncePerRequest, RetainedDecisions, Reachable, SampleGrant, SampleClient, SampleId, IdOf,
         BothInvoked;
    SampleExecutes(c, op, 1);
    SampleExecutes(c, op, 2);
    SampleGrantValid(c, op.request, 1);
    SampleGrantValid(c, op.request, 2);
    SampleIds();
    w := RepeatWithoutRetention(c, SampleExecution(c, op, 1), SampleExecution(c, op, 2));
  }

  function SampleRace(c: Crypto, op: Op): Race
    requires Governed(op)
  {
    Race(SampleExecution(c, op, 1), ExecutionEffect(Null, "a"), ExecutionEffect(Null, "b"),
         ReceiptRecorded("recorded", EXECUTION_CONTRACT, COMPLETED_STAGE, SampleId(1), ""))
  }

  lemma SampleEffects()
    ensures ValidEffect(ExecutionEffect(Null, "a")) && ValidEffect(ExecutionEffect(Null, "b"))
    ensures "a" != "b"
  {
    assert "a"[0] != "b"[0];
    Text.AsciiLength("a");
    Text.AsciiLength("b");
  }

  lemma SampleIdentity(c: Crypto, op: Op)
    requires SampleOp(c, op)
    ensures Governed(op) && op.request.idempotencyId == SampleId(0)
  {
    hide SampleId, SampleHandle;
  }

  lemma SampleRaces(c: Crypto, op: Op)
    requires SampleOp(c, op)
    ensures Racing(c, SampleRace(c, op)) && Disagree(c, SampleRace(c, op))
  {
    hide CanExecute, SampleGrant, HasIdentity, ValidEffect, IdOf, SampleOp, SampleId, Sha256, Canonical;
    SampleIdentity(c, op);
    SampleExecutes(c, op, 1);
    SampleGrantValid(c, op.request, 1);
    SampleIds();
    SampleEffects();
  }

  /** Whatever the digest and the kind of call, some run loses the receipt of a call whose delivery failed. */
  lemma ReceiptsCanBeLost(c: Crypto, op: Op) returns (w: World, x: ExecutionCompletion)
    requires SampleOp(c, op)
    ensures Reachable(c, w) && x in w.store.completions && Lost(c, w, x)
    ensures |w.threads| > 0 && w.threads[0].op == op && w.threads[0].pc == Finished(Failed(DeliveryFailed))
  {
    hide Racing, Lost, Run, First, Disagree, RaceSteps, SampleGrant, SampleClient, SampleHandle, Reachable, Handle;
    SampleRaces(c, op);
    ReceiptLostInRace(c, SampleRace(c, op));
    ReachedBy(c, RaceSteps(SampleRace(c, op)));
    w, x := Run(c, RaceSteps(SampleRace(c, op))), First(c, SampleRace(c, op));
  }

  // ---------------------------------------------------------------- no identity

  /** The sample grant with no tenant, which no check of an authorization minds. */
  function Anonymous(c: Crypto): Execution {
    var e := SampleExecution(c, Execute(SampleTool(), false), 1);
    e.(signed := e.signed.(authorization := e.signed.authorization.(tenant := "")))
  }

  lemma AnonymousFields(c: Crypto)
    ensures var signed, a := Anonymous(c).signed, Anonymous(c).signed.authorization;
            && ValidAuthorization(c, signed, SampleId(0))
            && a.modificationDiff.None? && a.executionPayload == Body(SampleTool()) && a.tenant == ""
  {
    hide Body, Canonical, Sha256, SampleGrant, SampleId;
    SampleGrantValid(c, SampleTool(), 1);
  }

  lemma AnonymousCall(c: Crypto)
    ensures var op := Execute(SampleTool(), false);
            && Anonymous(c).op == op && Anonymous(c).client == SampleClient() && SampleOp(c, op)
            && op.request.ToolRequest? && op.request.idempotencyId == SampleId(0)
  {
    hide SampleGrant, SampleId;
  }

  lemma AnonymousExecutes(c: Crypto)
    ensures CanExecute(c, Anonymous(c)) && !HasIdentity(Anonymous(c).signed.authorization)
  {
    AnonymousFields(c);
    AnonymousCall(c);
    hide Body, SampleGrant, Enter, CanExecute, ValidAuthorization, Anonymous, SampleClient, SampleOp, SampleTool,
         SampleId;
    SampleEnters(c, Execute(SampleTool(), false));
    GrantExecutes(c, Anonymous(c));
  }

  lemma StepsSilent(c: Crypto, i: nat, e: Execution, s: StoreState)
    ensures ThreadStep(c, i, Running(e, AwaitingEffect(e.signed)), s, ExecutorSays(None))
         == Move(Finished(StillUncertain(HandleOf(e.client, e.signed, ExecutorOutcomeUnknown))), s, None)
  {
    hide HandleOf;
  }

  lemma AnonymousHandle(c: Crypto, e: Execution)
    requires CanExecute(c, e) && !HasIdentity(e.signed.authorization)
    ensures !ValidUncertain(HandleOf(e.client, e.signed, ExecutorOutcomeUnknown))
  {
    hide ValidUncertain, ValidUncertainIntent, HasIdentity, CanExecute, ValidExecutorId, ValidAuthorization;
    GrantValid(c, e);
    HandleStaysUsable(c, e.client.executorId, e.signed, ExecutorOutcomeUnknown, e.client.lookupRegistered, []);
  }

  /** Whatever the digest, some call is left with an uncertain handle that reconciliation refuses. */
  lemma HandlesCanBeUnusable(c: Crypto) returns (w: World)
    ensures Reachable(c, w)
    ensures |w.threads| == 1 && w.threads[0].pc.Finished? && w.threads[0].pc.result.StillUncertain?
    ensures !ValidUncertain(w.threads[0].pc.result.handle)
  {
    hide CanExecute, Run, Anonymous, HandleOf, ValidUncertain, HasIdentity, AfterInvocation, Apply, Invocation,
         ThreadStep, Reachable;
    var e := Anonymous(c);
    AnonymousExecutes(c);
    InvokeFirst(c, e);
    var steps := Invocation(0, e) + [Advance(0, ExecutorSays(None))];
    RunAppend(c, Invocation(0, e), Advance(0, ExecutorSays(None)));
    OneAdvances(c, Run(c, Invocation(0, e)), 0, Running(e, AwaitingEffect(e.signed)), ExecutorSays(None));
    StepsSilent(c, 0, e, Run(c, Invocation(0, e)).store);
    AnonymousHandle(c, e);
    ReachedBy(c, steps);
    w := Run(c, steps);
  }

  // ---------------------------------------------------------------- a modified batch

  /** Another tool and other arguments under the id of the sample call. */
  function Substitute(): ModelToolCall {
    ModelToolCall("call", "payments.refund", Bool(true))
  }

  /** The sample batch, granted with its one call substituted and written positionally. */
  function Modified(c: Crypto): Execution {
    var e := SampleExecution(c, Execute(SampleBatch(), true), 1);
    var payload := PositionalEnvelope(SampleId(0), Substitute());
    e.(signed := e.signed.(authorization := e.signed.authorization.(
         executionPayload := payload, payloadSha256 := Sha256(c, Canonical(payload)),
         modificationDiff := Some(Object(map[])))))
  }

  lemma ModifiedFields(c: Crypto)
    ensures var signed, a := Modified(c).signed, Modified(c).signed.authorization;
            && ValidAuthorization(c, signed, SampleId(0)) && a.modificationDiff.Some?
            && a.executionPayload == PositionalEnvelope(SampleId(0), Substitute())
    ensures Modified(c).op == Execute(SampleBatch(), true) && Modified(c).client == SampleClient()
  {
    hide Body, Canonical, Sha256, SampleGrant, SampleId, PositionalEnvelope, SampleCall;
    SampleGrantValid(c, SampleBatch(), 1);
  }

  lemma ModifiedExecutes(c: Crypto)
    ensures CanExecute(c, Modified(c))
  {
    var op := Execute(SampleBatch(), true);
    SampleEnters(c, op);
    SampleNames();
    ModifiedFields(c);
    assert Substitute().id == SampleCall().id == "call" && Substitute().name == "payments.refund";
    hide Body, Enter, CanExecute, ValidAuthorization, Modified, SampleClient, SampleId, PositionalEnvelope, ObjectForm,
         ValidBatchAuthorization, ValidName, SampleCall, Substitute;
    PositionalBatchAccepted(Modified(c).signed, SampleId(0), SampleCall(), Substitute(), Body(SampleBatch()));
    GrantExecutes(c, Modified(c));
  }

  /**
   Whatever the digest, some executor call of a batch runs another tool with other arguments than were asked for under
   the same call id, from a payload that is no JSON object.
   */
  lemma ModifiedBatchReleased(c: Crypto) returns (w: World)
    ensures Reachable(c, w) && |w.threads| == 1 && w.threads[0].op == Execute(SampleBatch(), true)
    ensures |w.log| == 3 && w.log[2].Invoked?
    ensures var payload := w.log[2].request.executionPayload;
            && !ObjectForm(payload) && DecodeBatch(payload).Some?
            && DecodeBatch(payload).value.calls == [Substitute()]
    ensures var asked := SampleBatch().calls[0];
            && Substitute().id == asked.id && Substitute().name != asked.name
            && Substitute().arguments != asked.arguments
  {
    ModifiedExecutes(c);
    ModifiedFields(c);
    PositionalDecodes(SampleId(0), Substitute());
    SubstituteDiffers();
    hide CanExecute, Run, Modified, Invocation, DecodeBatch, ObjectForm, PositionalEnvelope, AfterInvocation, Reachable,
         SampleId, Substitute, SampleBatch, ValidAuthorization;
    InvokeFirst(c, Modified(c));
    FirstLog(Modified(c));
    ReachedBy(c, Invocation(0, Modified(c)));
    w := Run(c, Invocation(0, Modified(c)));
  }

  lemma FirstLog(e: Execution)
    ensures var log := AfterInvocation(START, e).log;
            && |log| == 3 && log[2].Invoked?
            && log[2].request.executionPayload == e.signed.authorization.executionPayload
  {
    hide Admission, IntentFor;
  }

  lemma SubstituteDiffers()
    ensures var asked := SampleBatch().calls[0];
            && Substitute().id == asked.id && Substitute().name != asked.name
            && Substitute().arguments != asked.arguments
  {
    assert |Substitute().name| == 15 && |SampleCall().name| == 17;
  }

  lemma PositionalDecodes(idempotencyId: Uuid, call: ModelToolCall)
    ensures var payload := PositionalEnvelope(idempotencyId, call);
            && !ObjectForm(payload) && DecodeBatch(payload).Some? && DecodeBatch(payload).value.calls == [call]
  {
    DecodePositional(call);
  }
}
