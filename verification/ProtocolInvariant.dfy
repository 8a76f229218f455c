/** What every step of every thread keeps: the store, the log and the thread's own history agree. */
module ProtocolInvariant {
  import opened Wrappers
  import opened Uuids
  import opened Records
  import opened Requests
  import opened Batches
  import opened Uncertain
  import opened Receipts
  import opened DurableStore
  import opened Protocol
  import opened Trails

  // ---------------------------------------------------------------- histories

  /** The events of an execution up to its executor call. */
  function Invitation(i: nat, client: Client, signed: SignedAuthorization): seq<Event> {
    [Authorized(signed), Admitted(IntentOf(client.executorId, signed)),
     Invoked(i, RequestOf(client.executorId, signed))]
  }

  /** The events before a known effect is committed. */
  function Opening(i: nat, client: Client, signed: SignedAuthorization, effect: ExecutionEffect, origin: Origin)
    : seq<Event>
  {
    if origin.FromExecutor?
    then Invitation(i, client, signed) + [Returned(i, signed.authorization.authorizationId, effect)]
    else [Admitted(IntentOf(client.executorId, signed)), LookedUp(i, signed.authorization.authorizationId, effect)]
  }

  function OwnCompletion(c: Crypto, client: Client, signed: SignedAuthorization, effect: ExecutionEffect)
    : ExecutionCompletion
  {
    CompletionOf(c, client.key, client.executorId, signed, effect)
  }

  function OwnId(signed: SignedAuthorization): string {
    OutboxIdOf(signed.authorization.authorizationId)
  }

  /** The whole history of a reported success, in order. */
  function Success(c: Crypto, i: nat, client: Client, signed: SignedAuthorization, effect: ExecutionEffect,
                   origin: Origin, recorded: ReceiptRecorded): seq<Event>
  {
    Opening(i, client, signed, effect, origin) + [Committed(i, OwnCompletion(c, client, signed, effect))]
    + [Confirmed(i, EntryOf(OwnCompletion(c, client, signed, effect)), recorded)]
    + [Delivered(i, OwnId(signed), recorded)]
  }

  /** A governed call that passed its local checks. */
  ghost predicate Checked(c: Crypto, client: Client, op: Op) {
    Governed(op) && Enter(c, client, op) == Deciding
  }

  /** A governed call that accepted an authorization. */
  ghost predicate Granting(c: Crypto, client: Client, op: Op, signed: SignedAuthorization) {
    Checked(c, client, op) && AcceptsGrant(c, op, signed)
  }

  /** The effect's origin fits the call, and a looked-up effect belongs to the exact intent the handle names. */
  ghost predicate Fits(c: Crypto, client: Client, op: Op, signed: SignedAuthorization, effect: ExecutionEffect,
                       origin: Origin)
  {
    && ValidEffect(effect)
    && (origin.FromExecutor? ==> Granting(c, client, op, signed))
    && (origin.FromLookup? ==> op.Reconcile?)
    && (origin.FromLookup? ==> ValidUncertainIntent(c, op.uncertain, IntentOf(client.executorId, signed)))
  }

  ghost predicate FromCompletion(log: seq<Event>, entry: OutboxEntry) {
    exists k :: 0 <= k < |log| && log[k].Committed? && EntryOf(log[k].completion) == entry
  }

  ghost predicate NextOk(c: Crypto, client: Client, op: Op, log: seq<Event>, entry: OutboxEntry, next: Next) {
    match next
    case Report(signed, effect, origin) =>
      && Fits(c, client, op, signed, effect, origin)
      && entry == EntryOf(OwnCompletion(c, client, signed, effect))
    case Continue(rest, n) =>
      && op.Flush? && n + 1 + |rest| <= op.limit
      && FromCompletion(log, entry)
      && forall e :: e in rest ==> FromCompletion(log, e)
  }

  /** The events before an outbox entry is recorded. */
  function Lead(c: Crypto, i: nat, client: Client, next: Next): seq<Event> {
    match next
    case Report(signed, effect, origin) =>
      Opening(i, client, signed, effect, origin) + [Committed(i, OwnCompletion(c, client, signed, effect))]
    case Continue(_, _) => []
  }

  ghost predicate Succeeded(c: Crypto, i: nat, client: Client, op: Op, log: seq<Event>, outcome: ExecutionOutcome) {
    exists signed, effect, origin :: SucceededWith(c, i, client, op, log, outcome, signed, effect, origin)
  }

  ghost predicate SucceededWith(c: Crypto, i: nat, client: Client, op: Op, log: seq<Event>, outcome: ExecutionOutcome,
                                signed: SignedAuthorization, effect: ExecutionEffect, origin: Origin)
  {
    && Fits(c, client, op, signed, effect, origin)
    && outcome == ExecutionOutcome(outcome.receipt, effect.result, effect.effectId)
    && Subseq(Success(c, i, client, signed, effect, origin, outcome.receipt), log)
  }

  /** The handle was built from an authorization this call accepted and whose intent is stored. */
  ghost predicate NamesWith(c: Crypto, client: Client, op: Op, log: seq<Event>, u: UncertainExecution,
                            signed: SignedAuthorization)
  {
    && Granting(c, client, op, signed)
    && u == HandleOf(client, signed, u.reason)
    && Admitted(IntentOf(client.executorId, signed)) in log
  }

  ghost predicate NamesIntent(c: Crypto, client: Client, op: Op, log: seq<Event>, u: UncertainExecution) {
    exists signed :: NamesWith(c, client, op, log, u, signed)
  }

  ghost predicate ResultOk(c: Crypto, i: nat, client: Client, op: Op, log: seq<Event>, result: Outcome) {
    match result
    case Completed(outcome) => Succeeded(c, i, client, op, log, outcome)
    case StillUncertain(u) =>
      && (Governed(op) ==> NamesIntent(c, client, op, log, u))
      && (op.Reconcile? ==> u == WithReason(op.uncertain, u.reason, u.effectLookupRegistered))
    case Failed(ExecutionAlreadyCompleted(id, _)) => WasCommitted(log, id)
    case Pending(p) => Governed(op) && ValidPending(c, p, op.request.idempotencyId, Body(op.request))
                       && (op.Resume? ==> p == op.handle)
    case Flushed(n) => op.Flush? && n <= op.limit
    case _ => true
  }

  /** What a thread knows of the log at its program counter. */
  ghost predicate ThreadOk(c: Crypto, i: nat, t: Thread, log: seq<Event>) {
    match t.pc
    case Deciding => Checked(c, t.client, t.op)
    case Admitting(signed) => Granting(c, t.client, t.op, signed) && Subseq([Authorized(signed)], log)
    case Invoking(signed) => Granting(c, t.client, t.op, signed) && Subseq(Invitation(i, t.client, signed)[..2], log)
    case AwaitingEffect(signed) => Granting(c, t.client, t.op, signed) && Subseq(Invitation(i, t.client, signed), log)
    case Committing(signed, effect, origin) =>
      Fits(c, t.client, t.op, signed, effect, origin) && Subseq(Opening(i, t.client, signed, effect, origin), log)
    case Recording(entry, next) =>
      NextOk(c, t.client, t.op, log, entry, next) && Subseq(Lead(c, i, t.client, next), log)
    case Marking(entry, recorded, next) =>
      && NextOk(c, t.client, t.op, log, entry, next)
      && Subseq(Lead(c, i, t.client, next) + [Confirmed(i, entry, recorded)], log)
    case Loading => t.op.Reconcile? && t.client.executorId == t.op.uncertain.executorId
    case LookingUp(intent) =>
      && t.op.Reconcile? && t.client.executorId == t.op.uncertain.executorId
      && ValidUncertainIntent(c, t.op.uncertain, intent)
      && Subseq([Admitted(intent)], log)
    case Fetching => t.op.Flush?
    case Finished(result) => ResultOk(c, i, t.client, t.op, log, result)
    case Cancelled => true
  }

  /** The store is what the log says happened to it. */
  ghost predicate StoreOk(s: StoreState, log: seq<Event>) {
    && WellFormed(s)
    && s.intents == Intents(log)
    && s.completions == Completions(log)
    && s.delivered == Deliveries(log)
  }

  ghost predicate Sound(c: Crypto, i: nat, t: Thread, s: StoreState, log: seq<Event>) {
    StoreOk(s, log) && Orderly(c, log) && ThreadOk(c, i, t, log)
  }

  /** A move from a sound situation leads to a sound situation. */
  ghost predicate Keeps(c: Crypto, i: nat, t: Thread, log: seq<Event>, m: Move) {
    Sound(c, i, t.(pc := m.pc), m.store, Log(log, m.event))
  }

  // ---------------------------------------------------------------- facts survive

  lemma FromCompletionGrow(log: seq<Event>, e: Event, entry: OutboxEntry)
    requires FromCompletion(log, entry)
    ensures FromCompletion(log + [e], entry)
  {
    var k :| 0 <= k < |log| && log[k].Committed? && EntryOf(log[k].completion) == entry;
    assert (log + [e])[k] == log[k];
  }

  lemma NextGrow(c: Crypto, client: Client, op: Op, log: seq<Event>, e: Event, entry: OutboxEntry, next: Next)
    requires NextOk(c, client, op, log, entry, next)
    ensures NextOk(c, client, op, log + [e], entry, next)
  {
    if next.Continue? {
      FromCompletionGrow(log, e, entry);
      forall x | x in next.rest ensures FromCompletion(log + [e], x) {
        FromCompletionGrow(log, e, x);
      }
    }
  }

  lemma ResultGrow(c: Crypto, i: nat, client: Client, op: Op, log: seq<Event>, e: Event, result: Outcome)
    requires ResultOk(c, i, client, op, log, result)
    ensures ResultOk(c, i, client, op, log + [e], result)
  {
    hide Fits, Subseq, Success, ValidPending, Granting, HandleOf, IntentOf;
    match result
    case Completed(outcome) =>
      var signed, effect, origin :| SucceededWith(c, i, client, op, log, outcome, signed, effect, origin);
      SubseqGrow(Success(c, i, client, signed, effect, origin, outcome.receipt), log, e);
      assert SucceededWith(c, i, client, op, log + [e], outcome, signed, effect, origin);
    case StillUncertain(u) =>
      if Governed(op) {
        var signed :| NamesWith(c, client, op, log, u, signed);
        assert NamesWith(c, client, op, log + [e], u, signed);
      }
    case Failed(ExecutionAlreadyCompleted(id, _)) => CommittedGrow(log, e, id);
    case _ =>
  }

  /** What a thread knows stays true whatever the others append. */
  lemma ThreadGrow(c: Crypto, i: nat, t: Thread, log: seq<Event>, e: Event)
    requires ThreadOk(c, i, t, log)
    ensures ThreadOk(c, i, t, log + [e])
  {
    match t.pc
    case Admitting(signed) => SubseqGrow([Authorized(signed)], log, e);
    case Invoking(signed) => SubseqGrow(Invitation(i, t.client, signed)[..2], log, e);
    case AwaitingEffect(signed) => SubseqGrow(Invitation(i, t.client, signed), log, e);
    case Committing(signed, effect, origin) => SubseqGrow(Opening(i, t.client, signed, effect, origin), log, e);
    case Recording(entry, next) =>
      NextGrow(c, t.client, t.op, log, e, entry, next);
      SubseqGrow(Lead(c, i, t.client, next), log, e);
    case Marking(entry, recorded, next) =>
      NextGrow(c, t.client, t.op, log, e, entry, next);
      SubseqGrow(Lead(c, i, t.client, next) + [Confirmed(i, entry, recorded)], log, e);
    case LookingUp(intent) => SubseqGrow([Admitted(intent)], log, e);
    case Finished(result) => ResultGrow(c, i, t.client, t.op, log, e, result);
    case _ =>
  }

  // ---------------------------------------------------------------- the store follows the log

  /** Events that are no store change leave the store's account of the log intact. */
  lemma StoreSame(s: StoreState, log: seq<Event>, e: Event)
    requires StoreOk(s, log) && !e.Admitted? && !e.Committed? && !e.Delivered?
    ensures StoreOk(s, log + [e])
  {
    ProjectAppend(log, e);
  }

  lemma StoreAdmits(s: StoreState, log: seq<Event>, intent: ExecutionIntent, use: AuthorizationUse)
    requires StoreOk(s, log)
    ensures var (after, claim) := BeginAttempt(s, intent, use);
            && (claim == Ok(Started) ==>
                  StoreOk(after, log + [Admitted(intent)]) && !WasAdmitted(log, intent.authorizationId))
            && (claim != Ok(Started) ==> after == s)
            && (claim.Err? || claim == Ok(Started) || claim == Ok(AlreadyInFlight) || claim == Ok(AlreadyCompleted))
            && (claim == Ok(AlreadyInFlight) ==> Admitted(intent) in log)
            && (claim == Ok(AlreadyCompleted) ==> WasCommitted(log, intent.authorizationId))
  {
    BeginKeeps(s, intent, use);
    AdmittedIds(log, intent.authorizationId);
    CommittedIds(log, intent.authorizationId);
    IntentLogged(log, intent);
    ProjectAppend(log, Admitted(intent));
  }

  lemma StoreCommits(i: nat, s: StoreState, log: seq<Event>, completion: ExecutionCompletion)
    requires StoreOk(s, log) && WasAdmitted(log, completion.authorizationId)
    ensures StoreOk(CommitEffect(s, completion), log + [Committed(i, completion)])
  {
    AdmittedIds(log, completion.authorizationId);
    CommitKeeps(s, completion);
    ProjectAppend(log, Committed(i, completion));
  }

  lemma StoreMarks(i: nat, s: StoreState, log: seq<Event>, outboxId: string, recorded: ReceiptRecorded)
    requires StoreOk(s, log)
    ensures var (after, done) := MarkDelivered(s, outboxId, recorded);
            if done.Ok? then StoreOk(after, log + [Delivered(i, outboxId, recorded)]) else after == s
  {
    MarkKeeps(s, outboxId, recorded);
    ProjectAppend(log, Delivered(i, outboxId, recorded));
  }

  // ---------------------------------------------------------------- one step at a time

  lemma Stutters(c: Crypto, i: nat, t: Thread, s: StoreState, log: seq<Event>)
    requires Sound(c, i, t, s, log)
    ensures Keeps(c, i, t, log, Move(t.pc, s, None))
  {
    hide StoreOk, Orderly, ThreadOk;
    assert t.(pc := t.pc) == t;
  }

  lemma Stays(c: Crypto, i: nat, t: Thread, s: StoreState, log: seq<Event>, pc: Pc)
    requires StoreOk(s, log) && Orderly(c, log) && ThreadOk(c, i, t.(pc := pc), log)
    ensures Keeps(c, i, t, log, Move(pc, s, None))
  {
  }

  lemma Goes(c: Crypto, i: nat, t: Thread, s: StoreState, log: seq<Event>, pc: Pc, e: Event)
    requires StoreOk(s, log + [e]) && Orderly(c, log + [e]) && ThreadOk(c, i, t.(pc := pc), log + [e])
    ensures Keeps(c, i, t, log, Move(pc, s, Some(e)))
  {
  }

  /** A failed call claims nothing about the log. */
  lemma Fails(c: Crypto, i: nat, t: Thread, s: StoreState, log: seq<Event>, failure: Failure)
    requires StoreOk(s, log) && Orderly(c, log) && !failure.ExecutionAlreadyCompleted?
    ensures Keeps(c, i, t, log, Move(Finished(Failed(failure)), s, None))
  {
  }

  lemma DecisionGrants(c: Crypto, i: nat, t: Thread, log: seq<Event>, signed: SignedAuthorization)
    requires Orderly(c, log) && Granting(c, t.client, t.op, signed)
    ensures Orderly(c, log + [Authorized(signed)])
    ensures ThreadOk(c, i, t.(pc := Admitting(signed)), log + [Authorized(signed)])
  {
    hide Granting;
    OrderlyAppend(c, log, Authorized(signed));
    MemberSubseq(log + [Authorized(signed)], Authorized(signed));
  }

  lemma DecisionKeeps(c: Crypto, i: nat, t: Thread, s: StoreState, log: seq<Event>, decision: Decision)
    requires StoreOk(s, log) && Orderly(c, log) && Checked(c, t.client, t.op)
    ensures Keeps(c, i, t, log, DecisionStep(c, t, s, decision))
  {
    hide StoreOk, Orderly, Subseq, AcceptsGrant, Enter, ValidPending;
    var m := DecisionStep(c, t, s, decision);
    if m.event.Some? {
      StoreSame(s, log, m.event.value);
      DecisionGrants(c, i, t, log, decision.signed);
      Goes(c, i, t, s, log, m.pc, m.event.value);
    } else {
      Stays(c, i, t, s, log, m.pc);
    }
  }

  lemma AdmittedTimely(c: Crypto, log: seq<Event>, executorId: string, signed: SignedAuthorization)
    requires Subseq([Authorized(signed)], log) && !WasAdmitted(log, signed.authorization.authorizationId)
    requires ValidExecutorId(executorId) && ValidAuthorization(c, signed, signed.authorization.idempotencyId)
    ensures Timely(c, log, Admitted(IntentOf(executorId, signed)))
  {
    SubseqMember([Authorized(signed)], log, Authorized(signed));
  }

  lemma AdmissionStarts(c: Crypto, i: nat, t: Thread, log: seq<Event>, signed: SignedAuthorization)
    requires Orderly(c, log) && !WasAdmitted(log, signed.authorization.authorizationId)
    requires Granting(c, t.client, t.op, signed) && Subseq([Authorized(signed)], log)
    ensures var longer := log + [Admitted(IntentOf(t.client.executorId, signed))];
            Orderly(c, longer) && ThreadOk(c, i, t.(pc := Invoking(signed)), longer)
  {
    var e := Admitted(IntentOf(t.client.executorId, signed));
    AdmittedTimely(c, log, t.client.executorId, signed);
    OrderlyAppend(c, log, e);
    SubseqExtend([Authorized(signed)], log, e);
    assert [Authorized(signed)] + [e] == Invitation(i, t.client, signed)[..2];
  }

  lemma AdmissionKeeps(c: Crypto, i: nat, t: Thread, s: StoreState, log: seq<Event>, signed: SignedAuthorization,
                       fault: Fault)
    requires StoreOk(s, log) && Orderly(c, log)
    requires Granting(c, t.client, t.op, signed) && Subseq([Authorized(signed)], log)
    ensures Keeps(c, i, t, log, AdmissionStep(t, signed, s, fault))
  {
    hide StoreOk, Orderly, BeginAttempt, AcceptsGrant, Enter, Subseq;
    StoreAdmits(s, log, IntentOf(t.client.executorId, signed), UseOf(t.op));
    if !WasAdmitted(log, signed.authorization.authorizationId) {
      AdmissionStarts(c, i, t, log, signed);
    }
    var m := AdmissionStep(t, signed, s, fault);
    if m.event.Some? {
      Goes(c, i, t, m.store, log, m.pc, m.event.value);
    } else {
      if m.pc.result.StillUncertain? {
        assert NamesWith(c, t.client, t.op, log, m.pc.result.handle, signed);
      }
      Stays(c, i, t, s, log, m.pc);
    }
  }

  lemma InvokedTimely(c: Crypto, i: nat, client: Client, log: seq<Event>, signed: SignedAuthorization)
    requires Subseq(Invitation(i, client, signed)[..2], log)
    requires !WasInvoked(log, signed.authorization.authorizationId)
    ensures Timely(c, log, Invoked(i, RequestOf(client.executorId, signed)))
  {
    var before := Invitation(i, client, signed)[..2];
    var admitted := Admitted(IntentOf(client.executorId, signed));
    assert before[1] == admitted;
    SubseqMember(before, log, admitted);
    var k :| 0 <= k < |log| && log[k] == admitted;
    assert log[k].Admitted?
        && RequestOf(client.executorId, signed) == RequestOf(log[k].intent.executorId, log[k].intent.authorization);
  }

  lemma InvokeKeeps(c: Crypto, i: nat, t: Thread, s: StoreState, log: seq<Event>, signed: SignedAuthorization)
    requires StoreOk(s, log) && Orderly(c, log)
    requires Granting(c, t.client, t.op, signed) && Subseq(Invitation(i, t.client, signed)[..2], log)
    requires !WasInvoked(log, signed.authorization.authorizationId)
    ensures Keeps(c, i, t, log,
                  Move(AwaitingEffect(signed), s, Some(Invoked(i, RequestOf(t.client.executorId, signed)))))
  {
    var e := Invoked(i, RequestOf(t.client.executorId, signed));
    StoreSame(s, log, e);
    InvokedTimely(c, i, t.client, log, signed);
    OrderlyAppend(c, log, e);
    var before := Invitation(i, t.client, signed)[..2];
    SubseqExtend(before, log, e);
    assert before + [e] == Invitation(i, t.client, signed);
  }

  lemma InvitationAdmits(i: nat, client: Client, signed: SignedAuthorization, log: seq<Event>)
    requires Subseq(Invitation(i, client, signed), log)
    ensures Admitted(IntentOf(client.executorId, signed)) in log
    ensures WasInvoked(log, signed.authorization.authorizationId)
  {
    var trail := Invitation(i, client, signed);
    assert trail[1] in trail && trail[2] in trail;
    SubseqMember(trail, log, trail[1]);
    SubseqMember(trail, log, trail[2]);
    var k :| 0 <= k < |log| && log[k] == trail[2];
  }

  lemma EffectReturns(c: Crypto, i: nat, t: Thread, log: seq<Event>, signed: SignedAuthorization,
                      effect: ExecutionEffect)
    requires Orderly(c, log)
    requires Granting(c, t.client, t.op, signed) && Subseq(Invitation(i, t.client, signed), log)
    ensures var longer := log + [Returned(i, signed.authorization.authorizationId, effect)];
            && Orderly(c, longer) && Admitted(IntentOf(t.client.executorId, signed)) in longer
            && Subseq(Opening(i, t.client, signed, effect, FromExecutor), longer)
  {
    var e := Returned(i, signed.authorization.authorizationId, effect);
    InvitationAdmits(i, t.client, signed, log);
    OrderlyAppend(c, log, e);
    SubseqExtend(Invitation(i, t.client, signed), log, e);
  }

  lemma EffectKeeps(c: Crypto, i: nat, t: Thread, s: StoreState, log: seq<Event>, signed: SignedAuthorization,
                    effect: Option<ExecutionEffect>)
    requires StoreOk(s, log) && Orderly(c, log)
    requires Granting(c, t.client, t.op, signed) && Subseq(Invitation(i, t.client, signed), log)
    ensures Keeps(c, i, t, log, EffectStep(i, t, signed, s, effect))
  {
    hide StoreOk, Orderly, AcceptsGrant, Enter, Subseq;
    if effect.Some? {
      StoreSame(s, log, Returned(i, signed.authorization.authorizationId, effect.value));
      EffectReturns(c, i, t, log, signed, effect.value);
    } else {
      InvitationAdmits(i, t.client, signed, log);
    }
    var m := EffectStep(i, t, signed, s, effect);
    if m.pc.Finished? {
      assert NamesWith(c, t.client, t.op, Log(log, m.event), m.pc.result.handle, signed);
    }
  }

  /** What an opening trail says about the log. */
  lemma OpeningFacts(c: Crypto, i: nat, t: Thread, log: seq<Event>, signed: SignedAuthorization,
                     effect: ExecutionEffect, origin: Origin)
    requires Subseq(Opening(i, t.client, signed, effect, origin), log)
    ensures KnownEffect(c, log, OwnCompletion(c, t.client, signed, effect))
    ensures Admitted(IntentOf(t.client.executorId, signed)) in log
    ensures WasAdmitted(log, signed.authorization.authorizationId)
  {
    var trail := Opening(i, t.client, signed, effect, origin);
    var admitted := Admitted(IntentOf(t.client.executorId, signed));
    var known := trail[|trail| - 1];
    assert admitted in trail by { assert trail[if origin.FromExecutor? then 1 else 0] == admitted; }
    assert known in trail;
    SubseqMember(trail, log, admitted);
    SubseqMember(trail, log, known);
    assert CompletionFor(c, log, OwnCompletion(c, t.client, signed, effect), t.client.key, t.client.executorId,
                         signed, effect);
    var j :| 0 <= j < |log| && log[j] == admitted;
  }

  lemma CommitAppends(c: Crypto, i: nat, t: Thread, s: StoreState, log: seq<Event>, signed: SignedAuthorization,
                      effect: ExecutionEffect, origin: Origin)
    requires StoreOk(s, log) && Orderly(c, log)
    requires Subseq(Opening(i, t.client, signed, effect, origin), log)
    ensures var completion := OwnCompletion(c, t.client, signed, effect);
            var longer := log + [Committed(i, completion)];
            && StoreOk(CommitEffect(s, completion), longer) && Orderly(c, longer)
            && Admitted(IntentOf(t.client.executorId, signed)) in log
            && Admitted(IntentOf(t.client.executorId, signed)) in longer
            && Subseq(Lead(c, i, t.client, Report(signed, effect, origin)), longer)
  {
    var completion := OwnCompletion(c, t.client, signed, effect);
    var e := Committed(i, completion);
    OpeningFacts(c, i, t, log, signed, effect, origin);
    StoreCommits(i, s, log, completion);
    OrderlyAppend(c, log, e);
    SubseqExtend(Opening(i, t.client, signed, effect, origin), log, e);
  }

  lemma CommitStepKeeps(c: Crypto, i: nat, t: Thread, s: StoreState, log: seq<Event>, signed: SignedAuthorization,
                        effect: ExecutionEffect, origin: Origin, fault: Fault)
    requires StoreOk(s, log) && Orderly(c, log)
    requires Fits(c, t.client, t.op, signed, effect, origin)
        && Subseq(Opening(i, t.client, signed, effect, origin), log)
    ensures Keeps(c, i, t, log, CommitStep(c, i, t, signed, effect, origin, s, fault))
  {
    hide StoreOk, Orderly, CommitEffect, Opening, Subseq, AcceptsGrant, Enter, ValidUncertainIntent, ValidEffect,
         CompletionOf;
    CommitAppends(c, i, t, s, log, signed, effect, origin);
    var m := CommitStep(c, i, t, signed, effect, origin, s, fault);
    if m.pc.Finished? && origin.FromExecutor? {
      assert NamesWith(c, t.client, t.op, Log(log, m.event), m.pc.result.handle, signed);
    }
  }

  lemma LeadCommitted(c: Crypto, i: nat, t: Thread, log: seq<Event>, entry: OutboxEntry, next: Next)
    requires NextOk(c, t.client, t.op, log, entry, next) && Subseq(Lead(c, i, t.client, next), log)
    ensures FromCompletion(log, entry)
  {
    if next.Report? {
      var trail := Lead(c, i, t.client, next);
      var last := trail[|trail| - 1];
      assert last in trail;
      SubseqMember(trail, log, last);
      var k :| 0 <= k < |log| && log[k] == last;
    }
  }

  /** Every completion is for the authorization its receipt names. */
  lemma CommittedReceipt(c: Crypto, log: seq<Event>, k: nat)
    requires Orderly(c, log) && k < |log| && log[k].Committed?
    ensures log[k].completion.receipt.authorizationId == log[k].completion.authorizationId
  {
    OrderlyAt(c, log, k);
    var key, executorId, signed, effect :|
      CompletionFor(c, log[..k], log[k].completion, key, executorId, signed, effect);
  }

  lemma ConfirmedTimely(c: Crypto, i: nat, log: seq<Event>, entry: OutboxEntry, recorded: ReceiptRecorded)
    requires Orderly(c, log) && FromCompletion(log, entry) && Acknowledges(entry, recorded)
    ensures Timely(c, log, Confirmed(i, entry, recorded))
  {
    var k :| 0 <= k < |log| && log[k].Committed? && EntryOf(log[k].completion) == entry;
    CommittedReceipt(c, log, k);
  }

  lemma RecordConfirms(c: Crypto, i: nat, t: Thread, log: seq<Event>, entry: OutboxEntry, next: Next,
                       recorded: ReceiptRecorded)
    requires Orderly(c, log) && Acknowledges(entry, recorded)
    requires NextOk(c, t.client, t.op, log, entry, next) && Subseq(Lead(c, i, t.client, next), log)
    ensures var longer := log + [Confirmed(i, entry, recorded)];
            Orderly(c, longer) && ThreadOk(c, i, t.(pc := Marking(entry, recorded, next)), longer)
  {
    hide Orderly, NextOk, Lead, Subseq, Timely, Acknowledges;
    var e := Confirmed(i, entry, recorded);
    LeadCommitted(c, i, t, log, entry, next);
    ConfirmedTimely(c, i, log, entry, recorded);
    OrderlyAppend(c, log, e);
    NextGrow(c, t.client, t.op, log, e, entry, next);
    SubseqExtend(Lead(c, i, t.client, next), log, e);
  }

  lemma RecordKeeps(c: Crypto, i: nat, t: Thread, s: StoreState, log: seq<Event>, entry: OutboxEntry, next: Next,
                    recorded: Option<ReceiptRecorded>)
    requires StoreOk(s, log) && Orderly(c, log)
    requires NextOk(c, t.client, t.op, log, entry, next) && Subseq(Lead(c, i, t.client, next), log)
    ensures Keeps(c, i, t, log, RecordStep(i, entry, next, s, recorded))
  {
    hide StoreOk, Orderly, NextOk, Lead, Subseq, ThreadOk;
    if ValidOutboxEntry(entry) && recorded.Some? && Acknowledges(entry, recorded.value) {
      StoreSame(s, log, Confirmed(i, entry, recorded.value));
      RecordConfirms(c, i, t, log, entry, next, recorded.value);
      Goes(c, i, t, s, log, Marking(entry, recorded.value, next), Confirmed(i, entry, recorded.value));
    } else {
      Fails(c, i, t, s, log, DeliveryFailed);
    }
  }

  lemma FlushNextOk(c: Crypto, i: nat, t: Thread, log: seq<Event>, rest: seq<OutboxEntry>, n: nat)
    requires t.op.Flush? && n + |rest| <= t.op.limit && forall e :: e in rest ==> FromCompletion(log, e)
    ensures ThreadOk(c, i, t.(pc := FlushNext(rest, n)), log)
  {
    if rest != [] {
      assert rest[0] in rest;
      assert forall e :: e in rest[1..] ==> e in rest;
    }
  }

  lemma SuccessTrail(c: Crypto, i: nat, client: Client, signed: SignedAuthorization, effect: ExecutionEffect,
                     origin: Origin, recorded: ReceiptRecorded)
    ensures var entry := EntryOf(OwnCompletion(c, client, signed, effect));
            Success(c, i, client, signed, effect, origin, recorded)
            == Lead(c, i, client, Report(signed, effect, origin)) + [Confirmed(i, entry, recorded)]
               + [Delivered(i, entry.outboxId, recorded)]
  {
    hide Opening, IntentOf;
  }

  lemma ReportedOk(c: Crypto, i: nat, t: Thread, log: seq<Event>, entry: OutboxEntry, recorded: ReceiptRecorded,
                   signed: SignedAuthorization, effect: ExecutionEffect, origin: Origin)
    requires NextOk(c, t.client, t.op, log, entry, Report(signed, effect, origin))
    requires Subseq(Lead(c, i, t.client, Report(signed, effect, origin)) + [Confirmed(i, entry, recorded)]
                    + [Delivered(i, entry.outboxId, recorded)], log)
    ensures Succeeded(c, i, t.client, t.op, log, ExecutionOutcome(recorded, effect.result, effect.effectId))
  {
    hide Fits, Lead, Success, Subseq, EntryOf, OwnCompletion;
    SuccessTrail(c, i, t.client, signed, effect, origin, recorded);
    assert SucceededWith(c, i, t.client, t.op, log, ExecutionOutcome(recorded, effect.result, effect.effectId),
                         signed, effect, origin);
  }

  lemma ReportDelivered(c: Crypto, i: nat, t: Thread, log: seq<Event>, entry: OutboxEntry, recorded: ReceiptRecorded,
                        signed: SignedAuthorization, effect: ExecutionEffect, origin: Origin)
    requires Succeeded(c, i, t.client, t.op, log, ExecutionOutcome(recorded, effect.result, effect.effectId))
    ensures ThreadOk(c, i, t.(pc := AfterDelivery(recorded, Report(signed, effect, origin))), log)
  {
    hide Succeeded;
  }

  lemma ContinueDelivered(c: Crypto, i: nat, t: Thread, log: seq<Event>, entry: OutboxEntry, recorded: ReceiptRecorded,
                          rest: seq<OutboxEntry>, n: nat)
    requires NextOk(c, t.client, t.op, log, entry, Continue(rest, n))
    ensures ThreadOk(c, i, t.(pc := AfterDelivery(recorded, Continue(rest, n))), log)
  {
    hide FromCompletion, ThreadOk;
    FlushNextOk(c, i, t, log, rest, n + 1);
  }

  lemma DeliveredOk(c: Crypto, i: nat, t: Thread, log: seq<Event>, entry: OutboxEntry, recorded: ReceiptRecorded,
                    next: Next)
    requires NextOk(c, t.client, t.op, log, entry, next)
    requires Subseq(Lead(c, i, t.client, next) + [Confirmed(i, entry, recorded)]
                    + [Delivered(i, entry.outboxId, recorded)], log)
    ensures ThreadOk(c, i, t.(pc := AfterDelivery(recorded, next)), log)
  {
    hide Lead, Subseq, Succeeded, NextOk, ThreadOk, AfterDelivery;
    match next
    case Report(signed, effect, origin) =>
      ReportedOk(c, i, t, log, entry, recorded, signed, effect, origin);
      ReportDelivered(c, i, t, log, entry, recorded, signed, effect, origin);
    case Continue(rest, n) => ContinueDelivered(c, i, t, log, entry, recorded, rest, n);
  }

  lemma DeliveredTimely(c: Crypto, i: nat, log: seq<Event>, lead: seq<Event>, entry: OutboxEntry,
                        recorded: ReceiptRecorded)
    requires Subseq(lead + [Confirmed(i, entry, recorded)], log)
    ensures Timely(c, log, Delivered(i, entry.outboxId, recorded))
  {
    var trail := lead + [Confirmed(i, entry, recorded)];
    assert trail[|lead|] == Confirmed(i, entry, recorded);
    SubseqMember(trail, log, Confirmed(i, entry, recorded));
    var k :| 0 <= k < |log| && log[k] == Confirmed(i, entry, recorded);
  }

  lemma MarkDelivers(c: Crypto, i: nat, t: Thread, log: seq<Event>, entry: OutboxEntry, recorded: ReceiptRecorded,
                     next: Next)
    requires Orderly(c, log) && NextOk(c, t.client, t.op, log, entry, next)
    requires Subseq(Lead(c, i, t.client, next) + [Confirmed(i, entry, recorded)], log)
    ensures var longer := log + [Delivered(i, entry.outboxId, recorded)];
            Orderly(c, longer) && ThreadOk(c, i, t.(pc := AfterDelivery(recorded, next)), longer)
  {
    var e := Delivered(i, entry.outboxId, recorded);
    DeliveredTimely(c, i, log, Lead(c, i, t.client, next), entry, recorded);
    OrderlyAppend(c, log, e);
    NextGrow(c, t.client, t.op, log, e, entry, next);
    SubseqExtend(Lead(c, i, t.client, next) + [Confirmed(i, entry, recorded)], log, e);
    DeliveredOk(c, i, t, log + [e], entry, recorded, next);
  }

  lemma MarkStepKeeps(c: Crypto, i: nat, t: Thread, s: StoreState, log: seq<Event>, entry: OutboxEntry,
                      recorded: ReceiptRecorded, next: Next, fault: Fault)
    requires StoreOk(s, log) && Orderly(c, log)
    requires NextOk(c, t.client, t.op, log, entry, next)
    requires Subseq(Lead(c, i, t.client, next) + [Confirmed(i, entry, recorded)], log)
    ensures Keeps(c, i, t, log, MarkStep(i, entry, recorded, next, s, fault))
  {
    hide StoreOk, Orderly, MarkDelivered, NextOk, Lead, Subseq;
    StoreMarks(i, s, log, entry.outboxId, recorded);
    MarkDelivers(c, i, t, log, entry, recorded, next);
    var m := MarkStep(i, entry, recorded, next, s, fault);
    if m.event.Some? {
      Goes(c, i, t, m.store, log, m.pc, m.event.value);
    } else {
      Fails(c, i, t, s, log, DeliveryFailed);
    }
  }

  lemma LoadFinds(s: StoreState, log: seq<Event>, authorizationId: Uuid)
    requires StoreOk(s, log)
    ensures var intent := LoadUncertain(s, authorizationId);
            intent.Some? ==> Subseq([Admitted(intent.value)], log)
  {
    var intent := LoadUncertain(s, authorizationId);
    if intent.Some? {
      IntentLogged(log, intent.value);
      MemberSubseq(log, Admitted(intent.value));
    }
  }

  lemma LoadKeeps(c: Crypto, i: nat, t: Thread, s: StoreState, log: seq<Event>, fault: Fault)
    requires StoreOk(s, log) && Orderly(c, log)
    requires t.op.Reconcile? && t.client.executorId == t.op.uncertain.executorId
    ensures Keeps(c, i, t, log, LoadStep(c, t, s, fault))
  {
    hide StoreOk, Orderly, LoadUncertain, ValidUncertainIntent, Subseq;
    LoadFinds(s, log, t.op.uncertain.authorizationId);
    var m := LoadStep(c, t, s, fault);
    assert ThreadOk(c, i, t.(pc := m.pc), log);
    Stays(c, i, t, s, log, m.pc);
  }

  lemma LoggedIntent(c: Crypto, log: seq<Event>, intent: ExecutionIntent)
    requires Orderly(c, log) && Subseq([Admitted(intent)], log)
    ensures intent == IntentOf(intent.executorId, intent.authorization)
    ensures WasAdmitted(log, intent.authorizationId)
  {
    SubseqMember([Admitted(intent)], log, Admitted(intent));
    var k :| 0 <= k < |log| && log[k] == Admitted(intent);
    OrderlyAt(c, log, k);
  }

  lemma LookupFinds(c: Crypto, i: nat, t: Thread, log: seq<Event>, intent: ExecutionIntent, effect: ExecutionEffect)
    requires Orderly(c, log) && ValidEffect(effect)
    requires t.op.Reconcile? && t.client.executorId == t.op.uncertain.executorId
    requires ValidUncertainIntent(c, t.op.uncertain, intent) && Subseq([Admitted(intent)], log)
    ensures var longer := log + [LookedUp(i, intent.authorizationId, effect)];
            && Orderly(c, longer)
            && ThreadOk(c, i, t.(pc := Committing(intent.authorization, effect, FromLookup)), longer)
  {
    var e := LookedUp(i, intent.authorizationId, effect);
    LoggedIntent(c, log, intent);
    OrderlyAppend(c, log, e);
    SubseqExtend([Admitted(intent)], log, e);
    assert [Admitted(intent)] + [e] == Opening(i, t.client, intent.authorization, effect, FromLookup);
  }

  lemma LookupKeeps(c: Crypto, i: nat, t: Thread, s: StoreState, log: seq<Event>, intent: ExecutionIntent,
                    found: Option<EffectLookupOutcome>)
    requires StoreOk(s, log) && Orderly(c, log)
    requires t.op.Reconcile? && t.client.executorId == t.op.uncertain.executorId
    requires ValidUncertainIntent(c, t.op.uncertain, intent) && Subseq([Admitted(intent)], log)
    ensures Keeps(c, i, t, log, LookupStep(i, t, intent, s, found))
  {
    hide StoreOk, Orderly, Subseq, ValidUncertainIntent;
    if found.Some? && found.value.Found? && ValidEffect(found.value.effect) {
      StoreSame(s, log, LookedUp(i, intent.authorizationId, found.value.effect));
      LookupFinds(c, i, t, log, intent, found.value.effect);
    }
  }

  lemma FetchKeeps(c: Crypto, i: nat, t: Thread, s: StoreState, log: seq<Event>, fault: Fault)
    requires StoreOk(s, log) && Orderly(c, log) && t.op.Flush?
    ensures Keeps(c, i, t, log, FetchStep(t, s, fault))
  {
    var entries := PendingReceipts(s, t.op.limit);
    forall e | e in entries ensures FromCompletion(log, e) {
      assert e in s.pending;
      PendingEnqueued(s, e);
      var x :| x in s.completions && EntryOf(x) == e;
      CompletionLogged(log, x);
      var k :| 0 <= k < |log| && log[k].Committed? && log[k].completion == x;
    }
    FlushNextOk(c, i, t, log, entries, 0);
  }

  predicate Executing(pc: Pc) {
    pc.Deciding? || pc.Admitting? || pc.Invoking? || pc.AwaitingEffect? || pc.Committing?
  }

  lemma ExecutionStepKeeps(c: Crypto, i: nat, t: Thread, s: StoreState, log: seq<Event>, a: Answer)
    requires Sound(c, i, t, s, log) && Executing(t.pc)
    requires t.pc.Invoking? ==> !WasInvoked(log, t.pc.signed.authorization.authorizationId)
    ensures Keeps(c, i, t, log, ThreadStep(c, i, t, s, a))
  {
    hide Keeps, StoreOk, Orderly, Subseq, Granting, Fits, Opening, Invitation, DecisionStep, AdmissionStep,
         EffectStep, CommitStep, ResultOk, NextOk, Lead, ValidUncertainIntent;
    match (t.pc, a)
    case (Deciding, DecisionIs(decision)) => DecisionKeeps(c, i, t, s, log, decision);
    case (Admitting(signed), StoreSays(fault)) => AdmissionKeeps(c, i, t, s, log, signed, fault);
    case (Invoking(signed), ExecutorStarts) => InvokeKeeps(c, i, t, s, log, signed);
    case (AwaitingEffect(signed), ExecutorSays(effect)) => EffectKeeps(c, i, t, s, log, signed, effect);
    case (Committing(signed, effect, origin), StoreSays(fault)) =>
      CommitStepKeeps(c, i, t, s, log, signed, effect, origin, fault);
    case _ => Stutters(c, i, t, s, log);
  }

  lemma DeliveryStepKeeps(c: Crypto, i: nat, t: Thread, s: StoreState, log: seq<Event>, a: Answer)
    requires Sound(c, i, t, s, log) && !Executing(t.pc)
    ensures Keeps(c, i, t, log, ThreadStep(c, i, t, s, a))
  {
    hide Keeps, StoreOk, Orderly, Subseq, Granting, Checked, Fits, NextOk, Lead, RecordStep, MarkStep, LoadStep,
         LookupStep, FetchStep, ResultOk, ValidUncertainIntent, Opening, Invitation;
    match (t.pc, a)
    case (Recording(entry, next), ProxySays(recorded)) => RecordKeeps(c, i, t, s, log, entry, next, recorded);
    case (Marking(entry, recorded, next), StoreSays(fault)) =>
      MarkStepKeeps(c, i, t, s, log, entry, recorded, next, fault);
    case (Loading, StoreSays(fault)) => LoadKeeps(c, i, t, s, log, fault);
    case (LookingUp(intent), LookupSays(found)) => LookupKeeps(c, i, t, s, log, intent, found);
    case (Fetching, StoreSays(fault)) => FetchKeeps(c, i, t, s, log, fault);
    case _ => Stutters(c, i, t, s, log);
  }

  /** Every step of every thread keeps the store, the log and the thread's history in agreement. */
  lemma StepKeeps(c: Crypto, i: nat, t: Thread, s: StoreState, log: seq<Event>, a: Answer)
    requires Sound(c, i, t, s, log)
    requires t.pc.Invoking? ==> !WasInvoked(log, t.pc.signed.authorization.authorizationId)
    ensures Keeps(c, i, t, log, ThreadStep(c, i, t, s, a))
  {
    if Executing(t.pc) {
      ExecutionStepKeeps(c, i, t, s, log, a);
    } else {
      DeliveryStepKeeps(c, i, t, s, log, a);
    }
  }
}
