/** What can still be done from every reachable world: which executions can be completed, and that the outbox drains. */
module Recovery {
  import opened Wrappers
  import Text
  import opened Uuids
  import opened Json
  import opened Records
  import opened Batches
  import opened Uncertain
  import opened Receipts
  import opened DurableStore
  import opened Protocol
  import opened Trails
  import opened ProtocolInvariant
  import opened Runs
  import opened Ownership
  import opened Guarantees
  import opened Losses

  // ---------------------------------------------------------------- one reconciliation, step by step

  lemma EntersLoading(c: Crypto, client: Client, u: UncertainExecution)
    requires ValidUncertain(u) && ValidExecutorId(client.executorId) && client.executorId == u.executorId
    ensures Enter(c, client, Reconcile(u)) == Loading
  {
    hide ValidUncertain, ValidExecutorId;
  }

  lemma LoadsIntent(c: Crypto, t: Thread, s: StoreState, intent: ExecutionIntent)
    requires t.op.Reconcile? && t.client.lookupRegistered
    requires LoadUncertain(s, t.op.uncertain.authorizationId) == Some(intent)
    requires ValidUncertainIntent(c, t.op.uncertain, intent)
    ensures LoadStep(c, t, s, Fine) == Move(LookingUp(intent), s, None)
  {
    hide LoadUncertain, ValidUncertainIntent;
  }

  /** The last call of a world takes one step. */
  lemma LastAdvances(c: Crypto, w: World, t: Thread, others: seq<Thread>, a: Answer)
    requires w.threads == others + [t]
    ensures var m := ThreadStep(c, |others|, t, w.store, a);
            Apply(c, w, Advance(|others|, a)) == World(m.store, others + [t.(pc := m.pc)], Log(w.log, m.event))
  {
    hide ThreadStep;
  }

  /** What a fresh reconciliation that goes well needs: a client of the same executor, an effect and an answer. */
  datatype Attempt = Attempt(client: Client, effect: ExecutionEffect, recorded: ReceiptRecorded)

  ghost predicate GoesWell(intent: ExecutionIntent, attempt: Attempt) {
    && attempt.client.executorId == intent.executorId && attempt.client.lookupRegistered
    && ValidEffect(attempt.effect)
    && attempt.recorded.authorizationId == intent.authorizationId
    && attempt.recorded.contract == EXECUTION_CONTRACT && attempt.recorded.stage == COMPLETED_STAGE
  }

  function FreshHandle(intent: ExecutionIntent): UncertainExecution {
    UncertainFromIntent(intent, ExecutorOutcomeUnknown, true)
  }

  function AttemptSteps(i: nat, intent: ExecutionIntent, attempt: Attempt): seq<Step> {
    [Spawn(attempt.client, Reconcile(FreshHandle(intent))), Advance(i, StoreSays(Fine)),
     Advance(i, LookupSays(Some(Found(attempt.effect)))), Advance(i, StoreSays(Fine)),
     Advance(i, ProxySays(Some(attempt.recorded))), Advance(i, StoreSays(Fine))]
  }

  function OutcomeOf(attempt: Attempt): ExecutionOutcome {
    ExecutionOutcome(attempt.recorded, attempt.effect.result, attempt.effect.effectId)
  }

  /** Loading and looking up. */
  lemma AttemptFinds(c: Crypto, w: World, intent: ExecutionIntent, attempt: Attempt)
    requires GoesWell(intent, attempt)
    requires ValidUncertain(FreshHandle(intent)) && ValidUncertainIntent(c, FreshHandle(intent), intent)
    requires LoadUncertain(w.store, intent.authorizationId) == Some(intent)
    ensures var i, op := |w.threads|, Reconcile(FreshHandle(intent));
            var w1 := Apply(c, w, Spawn(attempt.client, op));
            var w2 := Apply(c, w1, Advance(i, StoreSays(Fine)));
            var w3 := Apply(c, w2, Advance(i, LookupSays(Some(Found(attempt.effect)))));
            && w3.store == w.store
            && w3.threads == w.threads
                 + [Thread(attempt.client, op, Committing(intent.authorization, attempt.effect, FromLookup))]
  {
    hide ThreadStep, Apply, LoadUncertain, ValidUncertainIntent, ValidEffect;
    var i, op := |w.threads|, Reconcile(FreshHandle(intent));
    var loading := Thread(attempt.client, op, Loading);
    SpawnsLoading(c, w, intent, attempt.client);
    var w1 := Apply(c, w, Spawn(attempt.client, op));
    LastAdvances(c, w1, loading, w.threads, StoreSays(Fine));
    LoadsIntent(c, loading, w.store, intent);
    StepsLoading(c, i, loading, w.store);
    var w2 := Apply(c, w1, Advance(i, StoreSays(Fine)));
    var looking := loading.(pc := LookingUp(intent));
    LastAdvances(c, w2, looking, w.threads, LookupSays(Some(Found(attempt.effect))));
    StepsLooking(c, i, looking, w.store, attempt.effect);
  }

  lemma SpawnsLoading(c: Crypto, w: World, intent: ExecutionIntent, client: Client)
    requires ValidUncertain(FreshHandle(intent)) && client.executorId == intent.executorId
    ensures var op := Reconcile(FreshHandle(intent));
            Apply(c, w, Spawn(client, op)) == w.(threads := w.threads + [Thread(client, op, Loading)])
  {
    EntersLoading(c, client, FreshHandle(intent));
  }

  lemma StepsLoading(c: Crypto, i: nat, t: Thread, s: StoreState)
    requires t.pc == Loading && t.op.Reconcile?
    ensures ThreadStep(c, i, t, s, StoreSays(Fine)) == LoadStep(c, t, s, Fine)
  {
  }

  lemma StepsLooking(c: Crypto, i: nat, t: Thread, s: StoreState, effect: ExecutionEffect)
    requires t.pc.LookingUp? && t.op.Reconcile? && ValidEffect(effect)
    ensures ThreadStep(c, i, t, s, LookupSays(Some(Found(effect))))
         == Move(Committing(t.pc.intent.authorization, effect, FromLookup), s,
                 Some(LookedUp(i, t.pc.intent.authorizationId, effect)))
  {
    hide ValidEffect;
  }

  /** The entry a completion has just enqueued can be marked, whatever else is pending. */
  lemma MarksOwn(s: StoreState, completion: ExecutionCompletion, recorded: ReceiptRecorded)
    ensures MarkDelivered(CommitEffect(s, completion), EntryOf(completion).outboxId, recorded).1 == Ok(())
  {
    var t := CommitEffect(s, completion);
    assert t.pending[|s.pending|] == EntryOf(completion);
  }

  /** Committing, recording and marking. */
  lemma AttemptCompletes(c: Crypto, w: World, others: seq<Thread>, t: Thread, attempt: Attempt)
    requires t.pc.Committing? && t.pc.effect == attempt.effect && w.threads == others + [t]
    requires attempt.recorded.authorizationId == IdOf(t.pc.signed)
    requires attempt.recorded.contract == EXECUTION_CONTRACT && attempt.recorded.stage == COMPLETED_STAGE
    ensures var i := |others|;
            var w1 := Apply(c, w, Advance(i, StoreSays(Fine)));
            var w2 := Apply(c, w1, Advance(i, ProxySays(Some(attempt.recorded))));
            Apply(c, w2, Advance(i, StoreSays(Fine))).threads
            == others + [t.(pc := Finished(Completed(OutcomeOf(attempt))))]
  {
    hide ThreadStep, Apply, MarkDelivered, CommitEffect, ValidOutboxEntry;
    var i, signed := |others|, t.pc.signed;
    var completion := OwnCompletion(c, t.client, signed, attempt.effect);
    var entry, next := EntryOf(completion), Report(signed, attempt.effect, t.pc.origin);
    OwnEntryValid(c, t.client.key, signed, attempt.effect);
    LastAdvances(c, w, t, others, StoreSays(Fine));
    StepsCommitting(c, i, t, w.store);
    var w1 := Apply(c, w, Advance(i, StoreSays(Fine)));
    var recording := t.(pc := Recording(entry, next));
    LastAdvances(c, w1, recording, others, ProxySays(Some(attempt.recorded)));
    StepsRecording(c, i, recording, w1.store, attempt.recorded);
    var w2 := Apply(c, w1, Advance(i, ProxySays(Some(attempt.recorded))));
    var marking := t.(pc := Marking(entry, attempt.recorded, next));
    LastAdvances(c, w2, marking, others, StoreSays(Fine));
    MarksOwn(w.store, completion, attempt.recorded);
    StepsMarking(c, i, marking, w1.store);
  }

  lemma StepsCommitting(c: Crypto, i: nat, t: Thread, s: StoreState)
    requires t.pc.Committing?
    ensures var completion := OwnCompletion(c, t.client, t.pc.signed, t.pc.effect);
            ThreadStep(c, i, t, s, StoreSays(Fine))
            == Move(Recording(EntryOf(completion), Report(t.pc.signed, t.pc.effect, t.pc.origin)),
                    CommitEffect(s, completion), Some(Committed(i, completion)))
  {
    hide CompletionOf, CommitEffect, EntryOf;
  }

  lemma StepsMarking(c: Crypto, i: nat, t: Thread, s: StoreState)
    requires t.pc.Marking? && t.pc.next.Report?
    requires MarkDelivered(s, t.pc.entry.outboxId, t.pc.recorded).1 == Ok(())
    ensures ThreadStep(c, i, t, s, StoreSays(Fine)).pc
         == Finished(Completed(ExecutionOutcome(t.pc.recorded, t.pc.next.effect.result, t.pc.next.effect.effectId)))
  {
    hide MarkDelivered;
  }

  // ---------------------------------------------------------------- who can be recovered

  /** A stored intent was built from an authorization that passed validation, for a valid executor. */
  lemma StoredIntent(c: Crypto, w: World, intent: ExecutionIntent)
    requires WorldOk(c, w) && intent in w.store.intents
    ensures intent == IntentOf(intent.executorId, intent.authorization) && ValidExecutorId(intent.executorId)
    ensures ValidAuthorization(c, intent.authorization, intent.idempotencyId)
  {
    hide Orderly, ThreadsOk, Exclusive, Attributed, Quiet, ValidAuthorization, ValidExecutorId, IntentOf;
    IntentLogged(w.log, intent);
    var k :| 0 <= k < |w.log| && w.log[k] == Admitted(intent);
    OrderlyAt(c, w.log, k);
  }

  lemma FoundInStore(s: StoreState, intent: ExecutionIntent)
    requires DistinctIntents(s.intents) && intent in s.intents
    ensures FindIntent(s.intents, intent.authorizationId) == Some(intent)
  {
    var found := FindIntent(s.intents, intent.authorizationId);
    var i :| 0 <= i < |s.intents| && s.intents[i] == intent;
    var j :| 0 <= j < |s.intents| && s.intents[j] == found.value;
  }

  lemma FreshHandleUsable(c: Crypto, intent: ExecutionIntent)
    requires intent == IntentOf(intent.executorId, intent.authorization) && ValidExecutorId(intent.executorId)
    requires ValidAuthorization(c, intent.authorization, intent.idempotencyId)
    ensures ValidUncertainIntent(c, FreshHandle(intent), intent)
    ensures ValidUncertain(FreshHandle(intent)) <==> HasIdentity(intent.authorization.authorization)
    ensures intent.authorizationId == IdOf(intent.authorization)
  {
    hide ValidUncertain, ValidUncertainIntent, HasIdentity, ValidExecutorId, ValidAuthorization;
    HandleStaysUsable(c, intent.executorId, intent.authorization, ExecutorOutcomeUnknown, true, []);
  }

  lemma SixSteps(c: Crypto, steps: seq<Step>, s: seq<Step>)
    requires |s| == 6
    ensures Run(c, steps + s)
         == (var w := Apply(c, Apply(c, Apply(c, Run(c, steps), s[0]), s[1]), s[2]);
             Apply(c, Apply(c, Apply(c, w, s[3]), s[4]), s[5]))
  {
    hide Apply, Run;
    RunAppend(c, steps, s[0]);
    RunAppend(c, steps + [s[0]], s[1]);
    RunAppend(c, steps + [s[0]] + [s[1]], s[2]);
    RunAppend(c, steps + [s[0]] + [s[1]] + [s[2]], s[3]);
    RunAppend(c, steps + [s[0]] + [s[1]] + [s[2]] + [s[3]], s[4]);
    RunAppend(c, steps + [s[0]] + [s[1]] + [s[2]] + [s[3]] + [s[4]], s[5]);
    assert steps + s == steps + [s[0]] + [s[1]] + [s[2]] + [s[3]] + [s[4]] + [s[5]];
  }

  /**
   An execution in flight whose authorization carries an identity is completed by any fresh attempt that goes well.
   */
  lemma AttemptRuns(c: Crypto, steps: seq<Step>, intent: ExecutionIntent, attempt: Attempt)
    requires intent in Run(c, steps).store.intents && intent.authorizationId in Run(c, steps).store.inFlight
    requires HasIdentity(intent.authorization.authorization) && GoesWell(intent, attempt)
    ensures var w := Run(c, steps);
            Run(c, steps + AttemptSteps(|w.threads|, intent, attempt)).threads
            == w.threads + [Thread(attempt.client, Reconcile(FreshHandle(intent)),
                                   Finished(Completed(OutcomeOf(attempt))))]
  {
    hide Run, Apply, HasIdentity, ValidAuthorization, ValidExecutorId, ValidUncertain, ValidUncertainIntent, IntentOf,
         FreshHandle, OutcomeOf, ValidEffect, Orderly, ThreadsOk, Exclusive, Attributed, Quiet;
    var w := Run(c, steps);
    RunOk(c, steps);
    StoredIntent(c, w, intent);
    FoundInStore(w.store, intent);
    FreshHandleUsable(c, intent);
    AttemptFinds(c, w, intent, attempt);
    var i, op := |w.threads|, Reconcile(FreshHandle(intent));
    var w3 := Apply(c, Apply(c, Apply(c, w, Spawn(attempt.client, op)), Advance(i, StoreSays(Fine))),
                    Advance(i, LookupSays(Some(Found(attempt.effect)))));
    AttemptCompletes(c, w3, w.threads,
                     Thread(attempt.client, op, Committing(intent.authorization, attempt.effect, FromLookup)), attempt);
    SixSteps(c, steps, AttemptSteps(i, intent, attempt));
  }

  /** Some reconciliation of the authorization has ended in success. */
  ghost predicate Recovered(v: World, authorizationId: Uuid) {
    exists j :: 0 <= j < |v.threads| && RecoveredBy(v.threads[j], authorizationId)
  }

  predicate RecoveredBy(t: Thread, authorizationId: Uuid) {
    t.op.Reconcile? && t.op.uncertain.authorizationId == authorizationId && t.pc.Finished? && t.pc.result.Completed?
  }

  lemma MatchedIdentity(c: Crypto, u: UncertainExecution, intent: ExecutionIntent)
    requires ValidUncertain(u) && ValidUncertainIntent(c, u, intent)
    ensures HasIdentity(intent.authorization.authorization) && intent.authorizationId == u.authorizationId
  {
    hide ValidAuthorization, ValidExecutorId;
  }

  lemma SuccessAdmitted(c: Crypto, i: nat, client: Client, signed: SignedAuthorization, effect: ExecutionEffect,
                        recorded: ReceiptRecorded, log: seq<Event>)
    requires Subseq(Success(c, i, client, signed, effect, FromLookup, recorded), log)
    ensures Admitted(IntentOf(client.executorId, signed)) in log
  {
    hide IntentOf, EntryOf, OwnCompletion;
    var trail := Success(c, i, client, signed, effect, FromLookup, recorded);
    assert trail[0] == Admitted(IntentOf(client.executorId, signed));
    SubseqMember(trail, log, trail[0]);
  }

  /** Whatever reconciliation has succeeded for an authorization, its stored intent carries an identity. */
  lemma RecoveredIdentity(c: Crypto, v: World, intent: ExecutionIntent, j: nat)
    requires Reachable(c, v) && intent in v.store.intents
    requires j < |v.threads| && RecoveredBy(v.threads[j], intent.authorizationId)
    ensures HasIdentity(intent.authorization.authorization)
  {
    hide Reachable, Subseq, Success, HasIdentity, ValidUncertain, ValidUncertainIntent, IntentOf, Granting, Orderly,
         Exclusive, Attributed, Quiet, ThreadsOk, Named, Idle, Earned;
    ReachableOk(c, v);
    ReachableOwned(c, v);
    var t := v.threads[j];
    var signed, effect, origin := SuccessIsHonest(c, v, j);
    if origin.FromExecutor? {
      GrantingGoverned(c, t.client, t.op, signed);
    }
    var found := IntentOf(t.client.executorId, signed);
    SuccessAdmitted(c, j, t.client, signed, effect, t.pc.result.outcome.receipt, v.log);
    IntentLogged(v.log, found);
    MatchedIdentity(c, t.op.uncertain, found);
    FoundInStore(v.store, found);
    FoundInStore(v.store, intent);
  }

  function AnyAttempt(intent: ExecutionIntent): Attempt {
    Attempt(Client(intent.executorId, true, ""), ExecutionEffect(Null, "effect"),
            ReceiptRecorded("recorded", EXECUTION_CONTRACT, COMPLETED_STAGE, intent.authorizationId, ""))
  }

  lemma AnyGoesWell(intent: ExecutionIntent)
    ensures GoesWell(intent, AnyAttempt(intent))
  {
    Text.AsciiLength("effect");
  }

  /**
   From every reachable world, an execution in flight can still be reconciled to success exactly when its authorization
   carries an identity. Without one reconciliation refuses every handle of it.
   */
  lemma RecoverableExactly(c: Crypto, w: World, intent: ExecutionIntent)
    requires Reachable(c, w) && intent in w.store.intents && intent.authorizationId in w.store.inFlight
    ensures (exists v :: Continues(c, w, v) && Recovered(v, intent.authorizationId))
       <==> HasIdentity(intent.authorization.authorization)
  {
    hide Run, HasIdentity, RecoveredBy;
    if HasIdentity(intent.authorization.authorization) {
      var steps :| Run(c, steps) == w;
      AnyGoesWell(intent);
      AttemptRuns(c, steps, intent, AnyAttempt(intent));
      var v := Run(c, steps + AttemptSteps(|w.threads|, intent, AnyAttempt(intent)));
      AttemptRecovers(intent, AnyAttempt(intent));
      assert RecoveredBy(v.threads[|w.threads|], intent.authorizationId);
      assert Continues(c, w, v) && Recovered(v, intent.authorizationId);
    }
    if v :| Continues(c, w, v) && Recovered(v, intent.authorizationId) {
      var steps, more :| Run(c, steps) == w && Run(c, steps + more) == v;
      var j :| 0 <= j < |v.threads| && RecoveredBy(v.threads[j], intent.authorizationId);
      StoreOnlyGrows(c, steps, more);
      RecoveredIdentity(c, v, intent, j);
    }
  }

  lemma AttemptRecovers(intent: ExecutionIntent, attempt: Attempt)
    ensures RecoveredBy(Thread(attempt.client, Reconcile(FreshHandle(intent)), Finished(Completed(OutcomeOf(attempt)))),
                        intent.authorizationId)
  {
  }

  // ---------------------------------------------------------------- the outbox can always be drained

  /** Every pending entry of a reachable world passes the check made before it is posted. */
  lemma PendingValid(c: Crypto, w: World, entry: OutboxEntry)
    requires Reachable(c, w) && entry in w.store.pending
    ensures ValidOutboxEntry(entry)
  {
    hide Reachable, Orderly, Queued, ValidOutboxEntry, ThreadsOk, Exclusive, Attributed, Quiet;
    ReachableOk(c, w);
    PendingEnqueued(w.store, entry);
    var x :| x in w.store.completions && EntryOf(x) == entry;
    CompletionLogged(w.log, x);
    CommittedValid(c, w.log, entry);
  }

  /** A flush of one entry, with a good answer of the Proxy. */
  function DrainSteps(i: nat, client: Client, entry: OutboxEntry): seq<Step> {
    [Spawn(client, Flush(1)), Advance(i, StoreSays(Fine)), Advance(i, ProxySays(Some(GoodAnswer(entry)))),
     Advance(i, StoreSays(Fine))]
  }

  lemma FetchesHead(c: Crypto, i: nat, client: Client, s: StoreState)
    requires s.pending != []
    ensures Enter(c, client, Flush(1)) == Fetching
    ensures ThreadStep(c, i, Thread(client, Flush(1), Fetching), s, StoreSays(Fine))
         == Move(Recording(s.pending[0], Continue([], 0)), s, None)
  {
    assert PendingReceipts(s, 1) == [s.pending[0]];
    assert [s.pending[0]][1..] == [];
  }

  lemma MarksHead(c: Crypto, i: nat, t: Thread, s: StoreState)
    requires s.pending != [] && t.pc.Marking? && t.pc.entry == s.pending[0]
    ensures var after := ThreadStep(c, i, t, s, StoreSays(Fine)).store;
            after.pending == s.pending[1..] && after.completions == s.completions
  {
    assert PositionOf(s.pending, t.pc.entry.outboxId) == Some(0);
    assert Without(s.pending, 0) == s.pending[1..];
  }

  lemma DrainsHead(c: Crypto, w: World, client: Client)
    requires w.store.pending != [] && ValidOutboxEntry(w.store.pending[0])
    ensures var i, entry := |w.threads|, w.store.pending[0];
            var w1 := Apply(c, w, Spawn(client, Flush(1)));
            var w2 := Apply(c, w1, Advance(i, StoreSays(Fine)));
            var w3 := Apply(c, w2, Advance(i, ProxySays(Some(GoodAnswer(entry)))));
            var v := Apply(c, w3, Advance(i, StoreSays(Fine))).store;
            v.pending == w.store.pending[1..] && v.completions == w.store.completions
  {
    hide ThreadStep, ValidOutboxEntry, GoodAnswer, Enter;
    var i, entry := |w.threads|, w.store.pending[0];
    var t := Thread(client, Flush(1), Fetching);
    FetchesHead(c, i, client, w.store);
    var w1 := Apply(c, w, Spawn(client, Flush(1)));
    assert w1 == w.(threads := w.threads + [t]);
    LastAdvances(c, w1, t, w.threads, StoreSays(Fine));
    var recording := t.(pc := Recording(entry, Continue([], 0)));
    var w2 := Apply(c, w1, Advance(i, StoreSays(Fine)));
    StepsRecording(c, i, recording, w.store, GoodAnswer(entry));
    LastAdvances(c, w2, recording, w.threads, ProxySays(Some(GoodAnswer(entry))));
    var w3 := Apply(c, w2, Advance(i, ProxySays(Some(GoodAnswer(entry)))));
    var marking := t.(pc := Marking(entry, GoodAnswer(entry), Continue([], 0)));
    MarksHead(c, i, marking, w.store);
    LastAdvances(c, w3, marking, w.threads, StoreSays(Fine));
  }

  /** From every run the outbox can be emptied by flushes alone, without completing anything more. */
  lemma {:induction false} OutboxDrains(c: Crypto, steps: seq<Step>, client: Client) returns (more: seq<Step>)
    ensures var s, v := Run(c, steps).store, Run(c, steps + more).store;
            v.pending == [] && v.completions == s.completions
    ensures forall step :: step in more && step.Spawn? ==> step.op.Flush?
    decreases |Run(c, steps).store.pending|
  {
    hide Apply, Reachable, DrainSteps;
    var w := Run(c, steps);
    if w.store.pending == [] {
      more := [];
      assert steps + more == steps;
    } else {
      ReachedBy(c, steps);
      PendingValid(c, w, w.store.pending[0]);
      DrainsHead(c, w, client);
      DrainRun(c, steps, client);
      var first := DrainSteps(|w.threads|, client, w.store.pending[0]);
      var rest := OutboxDrains(c, steps + first, client);
      more := first + rest;
      assert steps + more == steps + first + rest;
      DrainFlushes(|w.threads|, client, w.store.pending[0]);
    }
  }

  lemma DrainRun(c: Crypto, steps: seq<Step>, client: Client)
    requires Run(c, steps).store.pending != []
    ensures var w := Run(c, steps);
            var i, entry := |w.threads|, w.store.pending[0];
            Run(c, steps + DrainSteps(i, client, entry))
            == Apply(c, Apply(c, Apply(c, Apply(c, w, Spawn(client, Flush(1))), Advance(i, StoreSays(Fine))),
                              Advance(i, ProxySays(Some(GoodAnswer(entry))))), Advance(i, StoreSays(Fine)))
  {
    hide Apply, Run, GoodAnswer;
    var w := Run(c, steps);
    var i, entry := |w.threads|, w.store.pending[0];
    FourSteps(c, steps, Spawn(client, Flush(1)), Advance(i, StoreSays(Fine)),
              Advance(i, ProxySays(Some(GoodAnswer(entry)))), Advance(i, StoreSays(Fine)));
  }

  lemma DrainFlushes(i: nat, client: Client, entry: OutboxEntry)
    ensures forall step :: step in DrainSteps(i, client, entry) && step.Spawn? ==> step.op.Flush?
  {
  }
}
