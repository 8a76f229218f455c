/** What the records say, field by field, in terms of the authorization and the effect they are about. */
module Fields {
  import opened Uuids
  import opened Json
  import opened Records
  import opened Receipts

  /** The executor is called for this authorization, under its own id, with the authorized payload. */
  predicate RequestSays(r: ToolExecutionRequest, executorId: string, a: Authorization) {
    && r.idempotencyId == a.idempotencyId
    && r.authorizationId == a.authorizationId
    && r.executorId == executorId
    && r.executionPayload == a.executionPayload
  }

  /** The lookup asks about the effect a handle names. */
  predicate LookupSays(q: EffectLookupRequest, u: UncertainExecution) {
    && q.authorizationId == u.authorizationId
    && q.idempotencyId == u.idempotencyId
    && q.executorId == u.executorId
    && q.payloadSha256 == u.payloadSha256
  }

  /** The durable intent: the signed authorization, and its bindings spelled out. */
  predicate IntentSays(x: ExecutionIntent, executorId: string, signed: SignedAuthorization) {
    var a := signed.authorization;
    && x.contract == "clavenar.sdk-durable-intent-outbox/v1"
    && x.stage == "execution.intent"
    && x.authorizationId == a.authorizationId
    && x.idempotencyId == a.idempotencyId
    && x.tenant == a.tenant
    && x.workloadId == a.agentId
    && x.workloadSpiffe == a.agentSpiffe
    && x.payloadSha256 == a.payloadSha256
    && x.executorId == executorId
    && x.authorization == signed
  }

  /** The handle of an uncertain effect: the same bindings, why it is uncertain, and whether a lookup is registered. */
  predicate HandleSays(u: UncertainExecution, reason: UncertainReason, lookupRegistered: bool, executorId: string,
                       a: Authorization)
  {
    && u.contract == "clavenar.uncertain-effect/v1"
    && u.status == "uncertain"
    && u.reason == reason
    && u.authorizationId == a.authorizationId
    && u.idempotencyId == a.idempotencyId
    && u.tenant == a.tenant
    && u.workloadId == a.agentId
    && u.workloadSpiffe == a.agentSpiffe
    && u.payloadSha256 == a.payloadSha256
    && u.executorId == executorId
    && u.effectLookupRegistered == lookupRegistered
  }

  /**
   The receipt: the authorization's claims, the result's hash, the effect id, and an ES256 signature over the rest.
   */
  ghost predicate ReceiptSays(c: Crypto, r: ExecutionReceipt, key: string, signed: SignedAuthorization,
                              effect: ExecutionEffect)
  {
    var a := signed.authorization;
    && r.contract == "clavenar.execution/v1"
    && r.stage == "execution.completed"
    && r.authorizationId == a.authorizationId
    && r.idempotencyId == a.idempotencyId
    && r.correlationId == a.correlationId
    && r.agentId == a.agentId
    && r.agentSpiffe == a.agentSpiffe
    && r.tenant == a.tenant
    && r.credentialFingerprint == a.credentialFingerprint
    && r.rpcMethod == a.rpcMethod
    && r.payloadSha256 == a.payloadSha256
    && r.authorization == signed
    && r.resultSha256 == "sha256:" + c.digest(Canonical(effect.result))
    && r.effectId == effect.effectId
    && r.workloadSignature.algorithm == "ES256"
    && r.workloadSignature.credentialFingerprint == a.credentialFingerprint
    && r.workloadSignature.value == c.sign(key, Canonical(Object(ReceiptJson(r).members - {"workload_signature"})))
  }

  /** The durable completion: the effect itself, its result's hash, and the receipt for the same effect. */
  ghost predicate CompletionSays(c: Crypto, x: ExecutionCompletion, key: string, executorId: string,
                                 signed: SignedAuthorization, effect: ExecutionEffect)
  {
    var a := signed.authorization;
    && x.contract == "clavenar.sdk-durable-intent-outbox/v1"
    && x.stage == "execution.effect-recorded"
    && x.authorizationId == a.authorizationId
    && x.idempotencyId == a.idempotencyId
    && x.executorId == executorId
    && x.actualResult == effect.result
    && x.actualResultSha256 == "sha256:" + c.digest(Canonical(effect.result))
    && x.effectId == effect.effectId
    && ReceiptSays(c, x.receipt, key, signed, effect)
  }

  /** The outbox entry of a completion. */
  predicate EntrySays(e: OutboxEntry, x: ExecutionCompletion) {
    e.outboxId == "receipt-" + UuidText(x.authorizationId) && e.receipt == x.receipt
  }

  lemma CompletionIs(c: Crypto, key: string, executorId: string, signed: SignedAuthorization, effect: ExecutionEffect)
    ensures CompletionSays(c, CompletionOf(c, key, executorId, signed, effect), key, executorId, signed, effect)
  {
    hide ReceiptJson, UnsignedReceiptJson, Canonical;
    StripSignature(ReceiptOf(c, key, signed, effect), signed, effect.effectId);
    ReceiptIsObject(ReceiptOf(c, key, signed, effect), signed, effect);
  }

  lemma ReceiptIsObject(r: ExecutionReceipt, signed: SignedAuthorization, effect: ExecutionEffect)
    ensures ReceiptJson(r).Object? && UnsignedReceiptJson(signed, r.resultSha256, effect.effectId).Object?
  {
  }

  // ---------------------------------------------------------------- on the wire

  lemma ReceiptContractField(r: ExecutionReceipt)
    ensures ReceiptJson(r).Object?
    ensures var m := ReceiptJson(r).members;
            m["contract"] == String(r.contract)
  {
  }

  lemma ReceiptStageField(r: ExecutionReceipt)
    ensures ReceiptJson(r).Object?
    ensures var m := ReceiptJson(r).members;
            m["stage"] == String(r.stage)
  {
  }

  lemma ReceiptIdField(r: ExecutionReceipt)
    ensures ReceiptJson(r).Object?
    ensures var m := ReceiptJson(r).members;
            m["authorization_id"] == String(UuidText(r.authorizationId))
  {
  }

  lemma ReceiptRequestField(r: ExecutionReceipt)
    ensures ReceiptJson(r).Object?
    ensures var m := ReceiptJson(r).members;
            m["idempotency_id"] == String(UuidText(r.idempotencyId))
  {
  }

  lemma ReceiptCorrelationField(r: ExecutionReceipt)
    ensures ReceiptJson(r).Object?
    ensures var m := ReceiptJson(r).members;
            m["correlation_id"] == String(UuidText(r.correlationId))
  {
  }

  lemma ReceiptMethodField(r: ExecutionReceipt)
    ensures ReceiptJson(r).Object?
    ensures var m := ReceiptJson(r).members;
            m["method"] == String(r.rpcMethod)
  {
  }

  lemma ReceiptAgentFields(r: ExecutionReceipt)
    ensures ReceiptJson(r).Object?
    ensures var m := ReceiptJson(r).members;
            m["agent_id"] == String(r.agentId) && m["agent_spiffe"] == String(r.agentSpiffe)
  {
  }

  lemma ReceiptTenantFields(r: ExecutionReceipt)
    ensures ReceiptJson(r).Object?
    ensures var m := ReceiptJson(r).members;
            m["tenant"] == String(r.tenant) && m["credential_fingerprint"] == String(r.credentialFingerprint)
  {
  }

  lemma ReceiptEffectFields(r: ExecutionReceipt)
    ensures ReceiptJson(r).Object?
    ensures var m := ReceiptJson(r).members;
            && m["payload_sha256"] == String(r.payloadSha256)
            && m["authorization"] == SignedAuthorizationJson(r.authorization)
            && m["result_sha256"] == String(r.resultSha256) && m["effect_id"] == String(r.effectId)
            && m["workload_signature"]
               == Object(map["algorithm" := String(r.workloadSignature.algorithm),
                             "credential_fingerprint" := String(r.workloadSignature.credentialFingerprint),
                             "value" := String(r.workloadSignature.value)])
  {
  }

  /** Each field of a receipt is on the wire under its own name. */
  lemma ReceiptOnWire(r: ExecutionReceipt)
    ensures ReceiptJson(r).Object?
    ensures var m := ReceiptJson(r).members;
            && m["contract"] == String(r.contract) && m["stage"] == String(r.stage)
            && m["authorization_id"] == String(UuidText(r.authorizationId))
            && m["idempotency_id"] == String(UuidText(r.idempotencyId))
            && m["correlation_id"] == String(UuidText(r.correlationId))
            && m["agent_id"] == String(r.agentId) && m["agent_spiffe"] == String(r.agentSpiffe)
            && m["tenant"] == String(r.tenant) && m["credential_fingerprint"] == String(r.credentialFingerprint)
            && m["method"] == String(r.rpcMethod) && m["payload_sha256"] == String(r.payloadSha256)
            && m["authorization"] == SignedAuthorizationJson(r.authorization)
            && m["result_sha256"] == String(r.resultSha256) && m["effect_id"] == String(r.effectId)
  {
    hide ReceiptJson, SignedAuthorizationJson;
    ReceiptContractField(r);
    ReceiptStageField(r);
    ReceiptIdField(r);
    ReceiptRequestField(r);
    ReceiptCorrelationField(r);
    ReceiptMethodField(r);
    ReceiptAgentFields(r);
    ReceiptTenantFields(r);
    ReceiptEffectFields(r);
    ReceiptMembers(r);
  }

  /** The receipt on the wire has exactly these members. */
  lemma ReceiptMembers(r: ExecutionReceipt)
    ensures ReceiptJson(r).Object?
    ensures ReceiptJson(r).members.Keys
         == {"contract", "stage", "authorization_id", "idempotency_id", "correlation_id", "agent_id", "agent_spiffe",
             "tenant", "credential_fingerprint", "method", "payload_sha256", "authorization", "result_sha256",
             "effect_id", "workload_signature"}
  {
  }

  /** The authorization embedded in it has exactly these, and a modification diff only if there is one. */
  lemma AuthorizationMembers(a: Authorization)
    ensures AuthorizationJson(a).Object?
    ensures AuthorizationJson(a).members.Keys
         == {"contract", "stage", "authorization_id", "idempotency_id", "correlation_id", "agent_id", "agent_spiffe",
             "tenant", "credential_fingerprint", "method", "tool_name", "execution_payload", "payload_sha256",
             "decision_principal", "policy_bundle", "brain_version", "brain_evidence_sha256"}
            + (if a.modificationDiff.Some? then {"modification_diff"} else {})
  {
  }

  /** The nested records have exactly these members. */
  lemma NestedMembers(s: SignedAuthorization)
    ensures SignedAuthorizationJson(s).members.Keys == {"authorization", "identity_signature"}
    ensures IdentitySignatureJson(s.identitySignature).members.Keys == {"algorithm", "key_id", "value"}
    ensures PolicyBundleJson(s.authorization.policyBundle).members.Keys
         == {"schema_version", "version", "hash_sha256", "policy_count"}
  {
    hide AuthorizationJson;
  }
}
