/** What holds of every run: any number of calls, in any interleaving, with cancellations and crashes. */
module Guarantees {
  import opened Wrappers
  import opened Uuids
  import opened Json
  import opened Records
  import opened Requests
  import opened Batches
  import opened Uncertain
  import opened Receipts
  import opened DurableStore
  import opened Protocol
  import opened Trails
  import opened ProtocolInvariant
  import opened Runs
  import opened Ownership

  // ---------------------------------------------------------------- executor calls

  /** No two executor calls of a run carry the same authorization. */
  lemma ExecutorAtMostOnce(c: Crypto, w: World, j: nat, k: nat)
    requires Reachable(c, w)
    requires j < k < |w.log|
    requires w.log[j].Invoked? && w.log[k].Invoked?
    ensures w.log[j].request.authorizationId != w.log[k].request.authorizationId
  {
    var log := w.log;
    ReachableOk(c, w);
    OrderlyAt(c, log, k);
    assert log[..k][j] == log[j];
  }

  /** The Proxy answers a repeated request identity with the decision it retained. */
  ghost predicate RetainedDecisions(log: seq<Event>) {
    forall j, k :: 0 <= j < |log| && 0 <= k < |log| && log[j].Authorized? && log[k].Authorized?
                   && log[j].signed.authorization.idempotencyId == log[k].signed.authorization.idempotencyId ==>
      IdOf(log[j].signed) == IdOf(log[k].signed)
  }

  ghost predicate OncePerRequest(log: seq<Event>) {
    forall j, k :: 0 <= j < k < |log| && log[j].Invoked? && log[k].Invoked? ==>
      log[j].request.idempotencyId != log[k].request.idempotencyId
  }

  /**
   An executor call carries the exact payload of an authorization the client accepted, after its intent was stored.
   */
  lemma InvokedExactly(c: Crypto, w: World, k: nat) returns (intent: ExecutionIntent)
    requires Reachable(c, w)
    requires k < |w.log| && w.log[k].Invoked?
    ensures var log := w.log;
            && Admitted(intent) in log[..k] && Authorized(intent.authorization) in log[..k]
            && intent == IntentOf(intent.executorId, intent.authorization)
            && log[k].request == RequestOf(intent.executorId, intent.authorization)
  {
    hide Orderly, Reachable, ThreadsOk, Exclusive, Attributed, Quiet, StoreOk;
    var log := w.log;
    ReachableOk(c, w);
    OrderlyAt(c, log, k);
    var m :| 0 <= m < |log[..k]| && log[..k][m].Admitted?
          && log[k].request == RequestOf(log[..k][m].intent.executorId, log[..k][m].intent.authorization);
    intent := log[m].intent;
    OrderlyAt(c, log, m);
    assert Authorized(intent.authorization) in log[..m];
    assert log[..m] <= log[..k];
  }

  /** The calls a batch payload decodes to keep the requested ids, in order, all distinct and at most 128. */
  ghost predicate KeepsIds(payload: Json, calls: seq<ModelToolCall>) {
    var batch := DecodeBatch(payload);
    && batch.Some? && 1 <= |batch.value.calls| == |calls| <= MAX_BATCH_CALLS
    && (forall i :: 0 <= i < |calls| ==> batch.value.calls[i].id == calls[i].id)
    && (forall m, i :: 0 <= m < i < |calls| ==> batch.value.calls[m].id != batch.value.calls[i].id)
  }

  lemma AcceptedKeepsIds(c: Crypto, op: Op, signed: SignedAuthorization)
    requires Governed(op) && AcceptsGrant(c, op, signed) && op.request.BatchRequest?
    ensures KeepsIds(signed.authorization.executionPayload, op.request.calls)
  {
    hide DecodeBatch, ValidAuthorization, ValidModelToolCalls, BatchEnvelope;
    AcceptedBatchKeepsIds(signed, op.request.idempotencyId, op.request.calls, Body(op.request));
  }

  /**
   What reaches the executor is what the call that made the executor call asked for: its request identity, its exact
   body unless the authorization was modified, and for a batch its call ids in order.
   */
  lemma ReleasedExactly(c: Crypto, w: World, k: nat) returns (signed: SignedAuthorization)
    requires Reachable(c, w)
    requires k < |w.log| && w.log[k].Invoked?
    ensures w.log[k].thread < |w.threads| && Governed(w.threads[w.log[k].thread].op)
    ensures var t := w.threads[w.log[k].thread];
            && w.log[k].request == RequestOf(t.client.executorId, signed)
            && w.log[k].request.idempotencyId == t.op.request.idempotencyId
            && (signed.authorization.modificationDiff.None? ==> w.log[k].request.executionPayload == Body(t.op.request))
            && (t.op.request.BatchRequest? ==> KeepsIds(w.log[k].request.executionPayload, t.op.request.calls))
  {
    hide KeepsIds, ValidBatchAuthorization, Body, Reachable;
    ReachableOk(c, w);
    var t := w.threads[w.log[k].thread];
    assert GrantedTo(c, t, w.log[k].request);
    signed :| Granting(c, t.client, t.op, signed) && w.log[k].request == RequestOf(t.client.executorId, signed);
    if t.op.request.BatchRequest? {
      AcceptedKeepsIds(c, t.op, signed);
    }
  }

  /** With retained decisions there is one executor call per request identity too. */
  lemma ExecutorOncePerRequest(c: Crypto, w: World)
    requires Reachable(c, w)
    requires RetainedDecisions(w.log)
    ensures OncePerRequest(w.log)
  {
    var log := w.log;
    forall j, k | 0 <= j < k < |log| && log[j].Invoked? && log[k].Invoked?
      ensures log[j].request.idempotencyId != log[k].request.idempotencyId
    {
      ExecutorAtMostOnce(c, w, j, k);
      var a := InvokedExactly(c, w, j);
      var b := InvokedExactly(c, w, k);
      var p :| 0 <= p < |log[..j]| && log[..j][p] == Authorized(a.authorization);
      var q :| 0 <= q < |log[..k]| && log[..k][q] == Authorized(b.authorization);
      assert log[p] == Authorized(a.authorization) && log[q] == Authorized(b.authorization);
    }
  }

  /** Reconciliation and flushing never invoke an executor. */
  lemma ReconcileNeverInvokes(c: Crypto, w: World, i: nat)
    requires Reachable(c, w)
    requires i < |w.threads| && !Governed(w.threads[i].op)
    ensures Silent(w.log, i)
  {
    ReachableOk(c, w);
    forall k | 0 <= k < |w.log| && w.log[k].Invoked? ensures w.log[k].thread != i {
      assert GrantedTo(c, w.threads[w.log[k].thread], w.log[k].request);
    }
  }

  /** A call that is pending, was refused, or failed at or before its store admission made no executor call. */
  lemma UnadmittedIsSilent(c: Crypto, w: World, i: nat)
    requires Reachable(c, w)
    requires i < |w.threads| && BeforeExecutor(w.threads[i].pc)
    ensures Silent(w.log, i)
  {
    ReachableOk(c, w);
  }

  // ---------------------------------------------------------------- honest outcomes

  /**
   A reported success has its whole history in the log, in order: authorization, stored intent, executor call and
   answer (or stored intent and lookup), completion with the reported result and effect id, the Proxy's
   confirmation of that receipt, and its delivery.
   */
  lemma SuccessIsHonest(c: Crypto, w: World, i: nat)
    returns (signed: SignedAuthorization, effect: ExecutionEffect, origin: Origin)
    requires Reachable(c, w)
    requires i < |w.threads|
    requires w.threads[i].pc.Finished? && w.threads[i].pc.result.Completed?
    ensures var t := w.threads[i];
            var outcome := t.pc.result.outcome;
            && outcome.result == effect.result && outcome.effectId == effect.effectId
            && Fits(c, t.client, t.op, signed, effect, origin)
            && Subseq(Success(c, i, t.client, signed, effect, origin, outcome.receipt), w.log)
  {
    ReachableOk(c, w);
    var t := w.threads[i];
    assert ThreadOk(c, i, t, w.log);
    signed, effect, origin :| SucceededWith(c, i, t.client, t.op, w.log, t.pc.result.outcome, signed, effect, origin);
  }

  /** An effect lookup that only finds effects of calls that were made. */
  ghost predicate HonestLookup(log: seq<Event>) {
    forall k :: 0 <= k < |log| && log[k].LookedUp? ==> WasInvoked(log[..k], log[k].authorizationId)
  }

  lemma InvokedEarlier(log: seq<Event>, m: nat, k: nat, id: Uuid)
    requires m <= k <= |log| && WasInvoked(log[..m], id)
    ensures WasInvoked(log[..k], id)
  {
    var n :| 0 <= n < |log[..m]| && log[..m][n].Invoked? && log[..m][n].request.authorizationId == id;
    assert log[..k][n] == log[..m][n];
  }

  lemma EarnedAt(c: Crypto, log: seq<Event>, k: nat)
    requires Orderly(c, log) && k < |log| && log[k].Committed?
    ensures KnownEffect(c, log[..k], log[k].completion)
    ensures HonestLookup(log) ==> WasInvoked(log[..k], log[k].completion.authorizationId)
  {
    hide Orderly, CompletionOf;
    OrderlyAt(c, log, k);
    CommittedReceipt(c, log, k);
    var key, executorId, signed, effect :|
      CompletionFor(c, log[..k], log[k].completion, key, executorId, signed, effect);
    var id := IdOf(signed);
    assert log[k].completion.authorizationId == id by { CompletionId(c, key, executorId, signed, effect); }
    var m :| 0 <= m < |log[..k]| && Reports(log[..k][m], id, effect);
    OrderlyAt(c, log, m);
    if HonestLookup(log) {
      InvokedEarlier(log, m, k, id);
    }
  }

  lemma CompletionId(c: Crypto, key: string, executorId: string, signed: SignedAuthorization, effect: ExecutionEffect)
    ensures CompletionOf(c, key, executorId, signed, effect).authorizationId == IdOf(signed)
  {
  }

  /** Every completion carries an effect its executor returned or its lookup found, and follows the executor call. */
  lemma CompletionIsEarned(c: Crypto, w: World, k: nat)
    requires Reachable(c, w)
    requires k < |w.log| && w.log[k].Committed?
    ensures var log := w.log;
            && KnownEffect(c, log[..k], log[k].completion)
            && (HonestLookup(log) ==> WasInvoked(log[..k], log[k].completion.authorizationId))
  {
    hide HonestLookup, KnownEffect, WasInvoked, Orderly;
    ReachableOk(c, w);
    EarnedAt(c, w.log, k);
  }

  /**
   The handle of an uncertain execution matches an intent in the store, in flight or completed. It passes
   reconciliation's own check exactly when the authorization carries an identity, which no admission demands.
   */
  lemma UncertainHandleUsable(c: Crypto, w: World, i: nat) returns (intent: ExecutionIntent)
    requires Reachable(c, w)
    requires i < |w.threads| && Governed(w.threads[i].op)
    requires w.threads[i].pc.Finished? && w.threads[i].pc.result.StillUncertain?
    ensures var s, u := w.store, w.threads[i].pc.result.handle;
            && intent in s.intents && intent.authorizationId in s.inFlight + s.completed
            && ValidUncertainIntent(c, u, intent)
            && (ValidUncertain(u) <==> HasIdentity(intent.authorization.authorization))
  {
    ReachableOk(c, w);
    var t := w.threads[i];
    assert ThreadOk(c, i, t, w.log);
    intent := HandleNames(c, t.client, t.op, w.log, t.pc.result.handle);
    IntentLogged(w.log, intent);
  }

  lemma HandleNames(c: Crypto, client: Client, op: Op, log: seq<Event>, u: UncertainExecution)
    returns (intent: ExecutionIntent)
    requires Governed(op) && NamesIntent(c, client, op, log, u)
    ensures Admitted(intent) in log && ValidUncertainIntent(c, u, intent)
    ensures ValidUncertain(u) <==> HasIdentity(intent.authorization.authorization)
  {
    var signed :| NamesWith(c, client, op, log, u, signed);
    intent := IntentOf(client.executorId, signed);
    hide ValidUncertain, ValidUncertainIntent, ValidExecutorId, HasIdentity, Prepared, ValidPending,
         ValidBatchAuthorization;
    HandleStaysUsable(c, client.executorId, signed, u.reason, client.lookupRegistered, []);
  }

  /** A call told that its execution is already completed finds it completed in the store. */
  lemma AlreadyCompletedIsCompleted(c: Crypto, w: World, i: nat)
    requires Reachable(c, w)
    requires i < |w.threads| && w.threads[i].pc.Finished?
    requires w.threads[i].pc.result.Failed?
    requires w.threads[i].pc.result.failure.ExecutionAlreadyCompleted?
    ensures w.threads[i].pc.result.failure.authorizationId in w.store.completed
  {
    ReachableOk(c, w);
    assert ThreadOk(c, i, w.threads[i], w.log);
    CommittedIds(w.log, w.threads[i].pc.result.failure.authorizationId);
  }

  /** A reconciliation that stays uncertain gives back the caller's handle with nothing but its reason changed. */
  lemma ReconcileKeepsHandle(c: Crypto, w: World, i: nat)
    requires Reachable(c, w)
    requires i < |w.threads| && w.threads[i].op.Reconcile?
    requires w.threads[i].pc.Finished? && w.threads[i].pc.result.StillUncertain?
    ensures var t := w.threads[i];
            var u := t.pc.result.handle;
            u == WithReason(t.op.uncertain, u.reason, u.effectLookupRegistered)
  {
    ReachableOk(c, w);
    assert ThreadOk(c, i, w.threads[i], w.log);
  }

  /**
   A reconciliation that ends uncertain, other than by failing to persist an effect it found, has looked up no valid
   effect, committed nothing and delivered nothing: it left no event at all.
   */
  lemma FruitlessReconciliation(c: Crypto, w: World, i: nat)
    requires Reachable(c, w)
    requires i < |w.threads| && w.threads[i].op.Reconcile?
    requires w.threads[i].pc.Finished? && w.threads[i].pc.result.StillUncertain?
    requires w.threads[i].pc.result.handle.reason != ReconciledEffectPersistenceFailed
    ensures NothingBy(w.log, i)
  {
    hide Reachable;
    ReachableOwned(c, w);
    assert Fruitless(w.threads[i]);
  }

  /** A step that leaves no event leaves the store as it was. */
  lemma EventlessStep(c: Crypto, w: World, i: nat, a: Answer)
    requires i < |w.threads|
    ensures AdvanceWorld(c, w, i, a).log == w.log ==> AdvanceWorld(c, w, i, a).store == w.store
  {
    hide AcceptsGrant, ValidPending, Body, CompletionOf, LoadUncertain, ValidUncertainIntent, PendingReceipts, IntentOf;
  }

  /** Reconciliations are never granted or admitted anything. */
  lemma ReconcileSigns(c: Crypto, i: nat, t: Thread, s: StoreState, log: seq<Event>, a: Answer)
    requires ThreadOk(c, i, t, log) && t.op.Reconcile?
    ensures var m := ThreadStep(c, i, t, s, a);
            m.event.Some? ==> By(m.event.value, i)
  {
    hide AcceptsGrant, ValidPending, BeginAttempt, CommitEffect, CompletionOf, EntryOf, MarkDelivered, LoadUncertain,
         ValidUncertainIntent, PendingReceipts, Body, IntentOf, Subseq, Opening, Lead, FromCompletion;
  }

  /** Such a reconciliation never changed the store: not one of its steps did. */
  lemma FruitlessLeavesStore(c: Crypto, before: seq<Step>, i: nat, a: Answer, after: seq<Step>)
    requires i < |Run(c, before).threads|
    requires var w := Run(c, before + [Advance(i, a)] + after);
             && i < |w.threads| && w.threads[i].op.Reconcile?
             && w.threads[i].pc.Finished? && w.threads[i].pc.result.StillUncertain?
             && w.threads[i].pc.result.handle.reason != ReconciledEffectPersistenceFailed
    ensures Run(c, before + [Advance(i, a)]).store == Run(c, before).store
  {
    hide Run, Apply, AdvanceWorld, ThreadStep, ThreadOk, StoreOk, Orderly, Exclusive, Attributed, Quiet;
    var w, v := Run(c, before), Run(c, before + [Advance(i, a)] + after);
    var t := w.threads[i];
    RunAppend(c, before, Advance(i, a));
    AdvanceIs(c, w, i, a);
    RunLogGrows(c, before + [Advance(i, a)], after);
    RunOpsKept(c, before, [Advance(i, a)] + after, i);
    assert before + [Advance(i, a)] + after == before + ([Advance(i, a)] + after);
    FruitlessReconciliation(c, v, i);
    RunOk(c, before);
    ReconcileSigns(c, i, t, w.store, w.log, a);
    NothingLast(w.log, ThreadStep(c, i, t, w.store, a).event, v.log, i);
    EventlessStep(c, w, i, a);
  }

  lemma NothingLast(log: seq<Event>, event: Option<Event>, longer: seq<Event>, i: nat)
    requires Log(log, event) <= longer && NothingBy(longer, i)
    ensures event.Some? ==> !By(event.value, i)
  {
    if event.Some? {
      assert longer[|log|] == event.value;
    }
  }

  lemma AdvanceIs(c: Crypto, w: World, i: nat, a: Answer)
    requires i < |w.threads|
    ensures Apply(c, w, Advance(i, a)) == AdvanceWorld(c, w, i, a)
    ensures AdvanceWorld(c, w, i, a).log == Log(w.log, ThreadStep(c, i, w.threads[i], w.store, a).event)
  {
  }

  /**
   What a reconciliation commits is the effect its own lookup found, under the authorization of a stored intent that
   matches its handle.
   */
  lemma ReconcileCommitsLookup(c: Crypto, w: World, k: nat)
    returns (signed: SignedAuthorization, effect: ExecutionEffect)
    requires Reachable(c, w)
    requires k < |w.log| && w.log[k].Committed? && w.log[k].thread < |w.threads|
    requires w.threads[w.log[k].thread].op.Reconcile?
    ensures var i, t := w.log[k].thread, w.threads[w.log[k].thread];
            var intent := IntentOf(t.client.executorId, signed);
            && ValidUncertainIntent(c, t.op.uncertain, intent) && ValidEffect(effect)
            && Subseq([Admitted(intent), LookedUp(i, IdOf(signed), effect)], w.log[..k])
            && w.log[k].completion == CompletionOf(c, t.client.key, t.client.executorId, signed, effect)
  {
    hide Reachable, Subseq, ValidUncertainIntent, ValidEffect, CompletionOf, IntentOf, Granting;
    ReachableOwned(c, w);
    var i, t := w.log[k].thread, w.threads[w.log[k].thread];
    assert CommittedBy(c, i, t, w.log[..k], w.log[k].completion);
    var origin;
    signed, effect, origin :| CommittedWith(c, i, t, w.log[..k], w.log[k].completion, signed, effect, origin);
    if origin.FromExecutor? {
      GrantingGoverned(c, t.client, t.op, signed);
    }
  }

  lemma GrantingGoverned(c: Crypto, client: Client, op: Op, signed: SignedAuthorization)
    requires Granting(c, client, op, signed)
    ensures Governed(op)
  {
  }

  // ---------------------------------------------------------------- resumed calls

  /**
   An executor call made by a resumed call carries the handle's request identity; its authorization has the handle's
   correlation id and, unless it was modified, exactly the retained body.
   */
  lemma ResumedExactly(c: Crypto, w: World, k: nat) returns (signed: SignedAuthorization)
    requires Reachable(c, w)
    requires k < |w.log| && w.log[k].Invoked?
    requires w.log[k].thread < |w.threads|
    requires w.threads[w.log[k].thread].op.Resume?
    ensures var t := w.threads[w.log[k].thread];
            && w.log[k].request == RequestOf(t.client.executorId, signed)
            && w.log[k].request.idempotencyId == t.op.handle.idempotencyId == t.op.request.idempotencyId
            && signed.authorization.correlationId == t.op.handle.correlationId
            && (signed.authorization.modificationDiff.None? ==> w.log[k].request.executionPayload == Body(t.op.request))
            && t.op.handle.payloadSha256 == Sha256(c, Canonical(Body(t.op.request)))
  {
    ReachableOk(c, w);
    var t := w.threads[w.log[k].thread];
    signed :| Granting(c, t.client, t.op, signed) && w.log[k].request == RequestOf(t.client.executorId, signed);
  }

  lemma BegunPending(c: Crypto, b: nat, t: Thread, log: seq<Event>)
    requires ThreadOk(c, b, t, log) && ReturnedPending(t)
    ensures Governed(t.op) && ValidPending(c, t.pc.result.pending, t.op.request.idempotencyId, Body(t.op.request))
  {
  }

  lemma ResumedValid(c: Crypto, t: Thread, request: ToolExecutionRequest)
    requires GrantedTo(c, t, request) && t.op.Resume?
    ensures ValidPending(c, t.op.handle, t.op.request.idempotencyId, Body(t.op.request))
  {
    hide ValidPending;
  }

  /** An executor call of a resume given a begun call's handle is for the begun request, or exhibits a collision. */
  lemma ResumeOfBegun(c: Crypto, w: World, k: nat, b: nat)
    requires Reachable(c, w)
    requires b < |w.threads| && w.threads[b].op.Begin? && ReturnedPending(w.threads[b])
    requires k < |w.log| && w.log[k].Invoked? && w.log[k].thread < |w.threads|
    requires Follows(w.threads[b], w.threads[w.log[k].thread])
    ensures var a, r := w.threads[b].op.request, w.threads[w.log[k].thread].op.request;
            a == r || Collision(c, Canonical(Body(a)), Canonical(Body(r)))
  {
    hide ValidPending, Body, Collision, Reachable, Orderly, StoreOk, Exclusive, Quiet, ThreadOk, RequestOf;
    ReachableOk(c, w);
    var t := w.threads[w.log[k].thread];
    BegunPending(c, b, w.threads[b], w.log);
    assert GrantedTo(c, t, w.log[k].request);
    ResumedValid(c, t, w.log[k].request);
    HandleFitsOneRequest(c, t.op.handle, w.threads[b].op.request, t.op.request);
  }

  /** A begin and the resumes that followed it, each given the handle the previous one returned. */
  ghost predicate Polls(w: World, calls: seq<nat>) {
    && calls != []
    && (forall m :: 0 <= m < |calls| ==> calls[m] < |w.threads|)
    && (forall m :: 0 <= m < |calls| ==> ReturnedPending(w.threads[calls[m]]))
    && w.threads[calls[0]].op.Begin?
    && (forall m :: 0 < m < |calls| ==> Follows(w.threads[calls[m - 1]], w.threads[calls[m]]))
  }

  ghost predicate ReturnedPending(t: Thread) {
    t.pc.Finished? && t.pc.result.Pending?
  }

  ghost predicate Follows(before: Thread, after: Thread)
    requires ReturnedPending(before)
  {
    after.op.Resume? && after.op.handle == before.pc.result.pending
  }

  /** However often a pending request is polled, its handle never changes and no executor call is made. */
  lemma {:induction false} PollsKeepHandle(c: Crypto, w: World, calls: seq<nat>, m: nat)
    requires Reachable(c, w)
    requires Polls(w, calls) && m < |calls|
    ensures && w.threads[calls[m]].pc.result.pending == w.threads[calls[0]].pc.result.pending
            && Silent(w.log, calls[m])
  {
    UnadmittedIsSilent(c, w, calls[m]);
    if m > 0 {
      PollsKeepHandle(c, w, calls, m - 1);
      ReachableOk(c, w);
      assert ThreadOk(c, calls[m], w.threads[calls[m]], w.log);
      assert Follows(w.threads[calls[m - 1]], w.threads[calls[m]]);
    }
  }

  // ---------------------------------------------------------------- the store

  /**
   In every reachable world an authorization is in flight exactly when its intent is stored and no completion is;
   the intents are stored once each, and the two sets are disjoint and hold every claimed id.
   */
  lemma ReachableStore(c: Crypto, w: World)
    requires Reachable(c, w)
    ensures && DistinctIntents(w.store.intents)
            && w.store.intents == Intents(w.log) && w.store.completions == Completions(w.log)
            && w.store.completed == CompletedIds(w.store.completions)
            && w.store.inFlight == IntentIds(w.store.intents) - CompletedIds(w.store.completions)
            && CompletedIds(w.store.completions) <= IntentIds(w.store.intents)
            && w.store.claimed <= IntentIds(w.store.intents)
  {
    ReachableOk(c, w);
    var s := w.store;
    assert s.inFlight == s.inFlight + s.completed - s.completed;
  }

  lemma {:induction false} ProjectPrefix(log: seq<Event>, n: nat)
    requires n <= |log|
    ensures Intents(log[..n]) <= Intents(log)
    ensures Completions(log[..n]) <= Completions(log)
    ensures Deliveries(log[..n]) <= Deliveries(log)
  {
    if n == |log| {
      assert log[..n] == log;
    } else {
      var shorter := log[..|log| - 1];
      ProjectPrefix(shorter, n);
      assert shorter[..n] == log[..n];
    }
  }

  /**
   Stored intents, completions and deliveries never change; an authorization that was started or completed stays so.
   */
  lemma StoreOnlyGrows(c: Crypto, steps: seq<Step>, more: seq<Step>)
    ensures var before, after := Run(c, steps).store, Run(c, steps + more).store;
            && before.intents <= after.intents
            && before.completions <= after.completions
            && before.delivered <= after.delivered
            && before.inFlight + before.completed <= after.inFlight + after.completed
            && before.completed <= after.completed
  {
    var w, v := Run(c, steps), Run(c, steps + more);
    RunOk(c, steps);
    RunOk(c, steps + more);
    RunLogGrows(c, steps, more);
    ProjectPrefix(v.log, |w.log|);
    assert v.log[..|w.log|] == w.log;
    assert forall x :: x in w.store.intents ==> x in v.store.intents;
    assert forall x :: x in w.store.completions ==> x in v.store.completions;
  }

  // ---------------------------------------------------------------- the outbox

  /**
   The outbox is one queue per outbox id: under each id the pending entries are exactly the entries of its
   completions, in order, less one from the front for every delivery. Counted by id nothing appears or disappears.
   */
  lemma OutboxConserved(c: Crypto, w: World, outboxId: string)
    requires Reachable(c, w)
    ensures var s := w.store;
            var all, n := Under(EntriesOf(s.completions), outboxId), Marks(s.delivered, outboxId);
            n <= |all| && Under(s.pending, outboxId) == all[n..]
    ensures var s := w.store;
            multiset(CompletionIds(s.completions))
            == multiset(PendingIds(s.pending)) + multiset(DeliveredIds(s.delivered))
  {
    hide Reachable, Marks, Under, EntriesOf, Queued;
    ReachableOk(c, w);
    QueuesConserve(w.store);
    assert Queued(w.store);
    QueuedAt(w.store, outboxId);
  }

  lemma QueuedAt(s: StoreState, outboxId: string)
    requires Queued(s)
    ensures var all, n := Under(EntriesOf(s.completions), outboxId), Marks(s.delivered, outboxId);
            n <= |all| && Under(s.pending, outboxId) == all[n..] == Remaining(s, outboxId)
  {
  }

  /** Each delivery of an outbox id used up a confirmation of its own; calls about to mark hold the others. */
  lemma DeliveriesUseConfirmations(c: Crypto, w: World, outboxId: string)
    requires Reachable(c, w)
    ensures Marks(w.store.delivered, outboxId) + Held(w.threads, outboxId) <= Confirmations(w.log, outboxId)
  {
    hide Run, Marks, Held, Confirmations;
    ReachableOk(c, w);
    var steps :| Run(c, steps) == w;
    RunCovered(c, steps);
  }

  ghost predicate ConfirmedEarlier(log: seq<Event>, k: nat, m: nat)
    requires k < |log| && log[k].Delivered?
  {
    && m < k && log[m].Confirmed? && log[m].recorded == log[k].recorded
    && log[m].entry.outboxId == log[k].outboxId
    && ForCommitted(log[..m], log[m].entry, log[m].recorded)
  }

  lemma ConfirmedAt(c: Crypto, log: seq<Event>, k: nat) returns (m: nat)
    requires Orderly(c, log) && k < |log| && log[k].Delivered?
    ensures ConfirmedEarlier(log, k, m)
    ensures log[k].outboxId == OutboxIdOf(log[k].recorded.authorizationId)
  {
    hide Orderly;
    OrderlyAt(c, log, k);
    m :| 0 <= m < |log[..k]| && log[..k][m].Confirmed? && log[..k][m].entry.outboxId == log[k].outboxId
      && log[..k][m].recorded == log[k].recorded;
    OrderlyAt(c, log, m);
    assert log[m] == log[..k][m];
  }

  /** Nothing leaves the outbox before the Proxy confirmed a committed receipt of the same authorization. */
  lemma DeliveredWasConfirmed(c: Crypto, w: World, k: nat) returns (m: nat)
    requires Reachable(c, w)
    requires k < |w.log| && w.log[k].Delivered?
    ensures var log := w.log;
            && ConfirmedEarlier(log, k, m)
            && log[k].outboxId == OutboxIdOf(log[k].recorded.authorizationId)
  {
    ReachableOk(c, w);
    m := ConfirmedAt(c, w.log, k);
  }

  lemma {:induction false} DeliveredLogged(log: seq<Event>, outboxId: string) returns (k: nat)
    requires outboxId in DeliveredIds(Deliveries(log))
    ensures k < |log| && log[k].Delivered? && log[k].outboxId == outboxId
  {
    var n := |log| - 1;
    var before := Deliveries(log[..n]);
    if log[n].Delivered? && log[n].outboxId == outboxId {
      k := n;
    } else {
      assert outboxId in DeliveredIds(before) by {
        var all := Deliveries(log);
        var m :| 0 <= m < |all| && DeliveredIds(all)[m] == outboxId;
        assert m < |before| && DeliveredIds(before)[m] == outboxId;
      }
      k := DeliveredLogged(log[..n], outboxId);
    }
  }

  ghost predicate WasPosted(log: seq<Event>, entry: OutboxEntry) {
    exists m :: 0 <= m < |log| && log[m].Confirmed? && log[m].entry == entry
  }

  /** The receipt of a completion is neither pending nor was it ever confirmed. */
  ghost predicate Missing(w: World, x: ExecutionCompletion) {
    EntryOf(x) !in w.store.pending && !WasPosted(w.log, EntryOf(x))
  }

  /** Another completion of the same authorization, with another receipt, which the Proxy confirmed. */
  ghost predicate Rival(w: World, x: ExecutionCompletion, y: ExecutionCompletion) {
    && y in w.store.completions && y.authorizationId == x.authorizationId
    && EntryOf(y) != EntryOf(x) && WasPosted(w.log, EntryOf(y))
  }

  /** A receipt is pending exactly when the deliveries of its outbox id have not used it up. */
  lemma ReceiptPendingExactly(c: Crypto, w: World, x: ExecutionCompletion)
    requires Reachable(c, w) && x in w.store.completions
    ensures var s, outboxId := w.store, OutboxIdOf(x.authorizationId);
            var all, n := Under(EntriesOf(s.completions), outboxId), Marks(s.delivered, outboxId);
            && n <= |all| && EntryOf(x) in all
            && (EntryOf(x) in s.pending <==> EntryOf(x) in all[n..])
  {
    hide Reachable, Queued, Marks, Under;
    ReachableOk(c, w);
    var s, entry := w.store, EntryOf(x);
    QueuedAt(s, entry.outboxId);
    PendingExactly(s, entry);
    var k :| 0 <= k < |s.completions| && s.completions[k] == x;
    assert EntriesOf(s.completions)[k] == entry;
    UnderMembers(EntriesOf(s.completions), entry.outboxId, entry);
  }

  /**
   Exactly when a receipt is missing: the deliveries of its outbox id have used up every copy of it, and no
   confirmation was for it.
   */
  lemma MissingExactly(c: Crypto, w: World, x: ExecutionCompletion)
    requires Reachable(c, w) && x in w.store.completions
    ensures var s, outboxId := w.store, OutboxIdOf(x.authorizationId);
            var all, n := Under(EntriesOf(s.completions), outboxId), Marks(s.delivered, outboxId);
            && n <= |all|
            && (Missing(w, x) <==>
                  EntryOf(x) in all[..n] && EntryOf(x) !in all[n..]
                  && forall m :: 0 <= m < |w.log| && w.log[m].Confirmed? ==> w.log[m].entry != EntryOf(x))
  {
    hide Reachable, Marks, Under, EntriesOf, EntryOf;
    ReceiptPendingExactly(c, w, x);
    var all := Under(EntriesOf(w.store.completions), OutboxIdOf(x.authorizationId));
    var n := Marks(w.store.delivered, OutboxIdOf(x.authorizationId));
    assert all == all[..n] + all[n..];
  }

  lemma DeliveredUnder(c: Crypto, w: World, x: ExecutionCompletion) returns (y: ExecutionCompletion)
    requires Orderly(c, w.log) && StoreOk(w.store, w.log)
    requires Marks(w.store.delivered, OutboxIdOf(x.authorizationId)) > 0
    ensures y in w.store.completions && y.authorizationId == x.authorizationId && WasPosted(w.log, EntryOf(y))
  {
    hide Orderly, WellFormed;
    var log := w.log;
    var k := DeliveredLogged(log, OutboxIdOf(x.authorizationId));
    var m := ConfirmedAt(c, log, k);
    var q :| 0 <= q < |log[..m]| && log[..m][q].Committed? && EntryOf(log[..m][q].completion) == log[m].entry;
    y := log[q].completion;
    assert log[q].Committed? && log[q].completion == y;
    CompletionLogged(log, y);
    OutboxIdInjective(x.authorizationId, y.authorizationId);
  }

  /** A receipt goes missing only to a confirmed rival: another receipt of the same authorization. */
  lemma MissingToRival(c: Crypto, w: World, x: ExecutionCompletion) returns (y: ExecutionCompletion)
    requires Reachable(c, w) && x in w.store.completions && Missing(w, x)
    ensures Rival(w, x, y)
  {
    hide Reachable, Orderly, WasPosted, Under, Marks, EntriesOf, WellFormed;
    ReachableOk(c, w);
    ReceiptPendingExactly(c, w, x);
    assert Marks(w.store.delivered, OutboxIdOf(x.authorizationId)) > 0;
    y := DeliveredUnder(c, w, x);
  }

  /** If every completion of an authorization carries the same receipt, that receipt is pending or was confirmed. */
  lemma NoReceiptLost(c: Crypto, w: World, x: ExecutionCompletion)
    requires Reachable(c, w) && x in w.store.completions
    requires forall y :: y in w.store.completions && y.authorizationId == x.authorizationId ==> EntryOf(y) == EntryOf(x)
    ensures EntryOf(x) in w.store.pending || WasPosted(w.log, EntryOf(x))
  {
    hide Reachable, WasPosted;
    if Missing(w, x) {
      var y := MissingToRival(c, w, x);
    }
  }
}
