/** Intents, and the handle that names an effect whose outcome is not known. */
module Uncertain {
  import opened Text
  import opened Uuids
  import opened Json
  import opened JsonRoundTrip
  import opened Records
  import opened Batches

  /** Visible ASCII, 1 to 256 characters. */
  predicate ValidExecutorId(executorId: string) {
    && executorId != []
    && Utf8Length(executorId) <= 256
    && forall c | c in executorId :: '!' <= c <= '~'
  }

  predicate ValidEffect(effect: ExecutionEffect) {
    effect.effectId != [] && Utf8Length(effect.effectId) <= 256
  }

  /** The intent that `execute_authorization` commits. */
  function IntentOf(executorId: string, signed: SignedAuthorization): ExecutionIntent {
    var a := signed.authorization;
    ExecutionIntent(OUTBOX_CONTRACT, "execution.intent", a.authorizationId, a.idempotencyId, a.tenant, a.agentId,
                    a.agentSpiffe, a.payloadSha256, executorId, signed)
  }

  function UncertainFromIntent(intent: ExecutionIntent, reason: UncertainReason, lookupRegistered: bool)
    : UncertainExecution
  {
    UncertainExecution(UNCERTAIN_EFFECT_CONTRACT, "uncertain", reason, intent.authorizationId, intent.idempotencyId,
                       intent.tenant, intent.workloadId, intent.workloadSpiffe, intent.payloadSha256,
                       intent.executorId, lookupRegistered)
  }

  function WithReason(u: UncertainExecution, reason: UncertainReason, lookupRegistered: bool): UncertainExecution {
    u.(reason := reason, effectLookupRegistered := lookupRegistered)
  }

  /** `validate_uncertain_execution`. */
  predicate ValidUncertain(u: UncertainExecution) {
    && u.contract == UNCERTAIN_EFFECT_CONTRACT
    && u.status == "uncertain"
    && u.authorizationId != NIL
    && u.idempotencyId != NIL
    && u.tenant != []
    && u.workloadId != []
    && u.workloadSpiffe != []
    && Utf8Length(u.payloadSha256) == 71
    && StartsWith(u.payloadSha256, "sha256:")
    && ValidExecutorId(u.executorId)
  }

  /** `validate_uncertain_intent`. */
  predicate ValidUncertainIntent(c: Crypto, u: UncertainExecution, intent: ExecutionIntent) {
    var claims := intent.authorization.authorization;
    && ValidAuthorization(c, intent.authorization, intent.idempotencyId)
    && intent.contract == OUTBOX_CONTRACT
    && intent.stage == "execution.intent"
    && intent.authorizationId == u.authorizationId
    && intent.idempotencyId == u.idempotencyId
    && intent.tenant == u.tenant
    && intent.workloadId == u.workloadId
    && intent.workloadSpiffe == u.workloadSpiffe
    && intent.payloadSha256 == u.payloadSha256
    && intent.executorId == u.executorId
    && claims.authorizationId == intent.authorizationId
    && claims.idempotencyId == intent.idempotencyId
    && claims.tenant == intent.tenant
    && claims.agentId == intent.workloadId
    && claims.agentSpiffe == intent.workloadSpiffe
    && claims.payloadSha256 == intent.payloadSha256
  }

  /** A handle after any number of reconciliation attempts, each of which replaces its reason. */
  function AfterUpdates(u: UncertainExecution, updates: seq<(UncertainReason, bool)>): UncertainExecution {
    if updates == [] then u
    else WithReason(AfterUpdates(u, updates[..|updates| - 1]), updates[|updates| - 1].0, updates[|updates| - 1].1)
  }

  /** Non-nil ids and non-empty identity fields, which nothing checks when an authorization is accepted. */
  predicate HasIdentity(a: Authorization) {
    a.authorizationId != NIL && a.idempotencyId != NIL && a.tenant != [] && a.agentId != [] && a.agentSpiffe != []
  }

  lemma {:induction false} UpdatesKeepBindings(u: UncertainExecution, updates: seq<(UncertainReason, bool)>)
    ensures AfterUpdates(u, updates).(reason := u.reason, effectLookupRegistered := u.effectLookupRegistered) == u
  {
    if updates != [] {
      UpdatesKeepBindings(u, updates[..|updates| - 1]);
    }
  }

  /**
   After any chain of reason updates a handle still matches the intent it was built from. It passes
   reconciliation's own check exactly when the authorization carries an identity.
   */
  lemma HandleStaysUsable(c: Crypto, executorId: string, signed: SignedAuthorization, reason: UncertainReason,
                          lookupRegistered: bool, updates: seq<(UncertainReason, bool)>)
    requires ValidAuthorization(c, signed, signed.authorization.idempotencyId)
    requires ValidExecutorId(executorId)
    ensures var intent := IntentOf(executorId, signed);
            var handle := AfterUpdates(UncertainFromIntent(intent, reason, lookupRegistered), updates);
            ValidUncertainIntent(c, handle, intent) && (ValidUncertain(handle) <==> HasIdentity(signed.authorization))
  {
    var intent := IntentOf(executorId, signed);
    UpdatesKeepBindings(UncertainFromIntent(intent, reason, lookupRegistered), updates);
    Sha256Length(c, Canonical(signed.authorization.executionPayload));
  }

  /** Any two intents one handle accepts agree on every binding and, without a SHA-256 collision, on the payload. */
  lemma HandlePinsIntent(c: Crypto, u: UncertainExecution, a: ExecutionIntent, b: ExecutionIntent)
    requires ValidUncertainIntent(c, u, a) && ValidUncertainIntent(c, u, b)
    ensures a.(authorization := b.authorization) == b
    ensures var pa := a.authorization.authorization.executionPayload;
            var pb := b.authorization.authorization.executionPayload;
            pa == pb || Collision(c, Canonical(pa), Canonical(pb))
  {
    var pa := a.authorization.authorization.executionPayload;
    var pb := b.authorization.authorization.executionPayload;
    Sha256Equal(c, Canonical(pa), Canonical(pb));
    CanonicalInjective(pa, pb);
  }
}
