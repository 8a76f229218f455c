/** Workload-signed receipts and the completions that carry them. */
module Receipts {
  import opened Text
  import opened Uuids
  import opened Json
  import opened JsonParser
  import opened JsonRoundTrip
  import opened Records

  const COMPLETED_STAGE := "execution.completed"

  /** The receipt fields that are signed. */
  function UnsignedReceiptJson(signed: SignedAuthorization, resultSha256: string, effectId: string): Json {
    var a := signed.authorization;
    Object(map[
      "contract" := String(EXECUTION_CONTRACT),
      "stage" := String(COMPLETED_STAGE),
      "authorization_id" := String(UuidText(a.authorizationId)),
      "idempotency_id" := String(UuidText(a.idempotencyId)),
      "correlation_id" := String(UuidText(a.correlationId)),
      "agent_id" := String(a.agentId),
      "agent_spiffe" := String(a.agentSpiffe),
      "tenant" := String(a.tenant),
      "credential_fingerprint" := String(a.credentialFingerprint),
      "method" := String(a.rpcMethod),
      "payload_sha256" := String(a.payloadSha256),
      "authorization" := SignedAuthorizationJson(signed),
      "result_sha256" := String(resultSha256),
      "effect_id" := String(effectId)])
  }

  /** The signed receipt for one effect. */
  function ReceiptOf(c: Crypto, key: string, signed: SignedAuthorization, effect: ExecutionEffect): ExecutionReceipt {
    var a := signed.authorization;
    var resultSha256 := Sha256(c, Canonical(effect.result));
    var text := Canonical(UnsignedReceiptJson(signed, resultSha256, effect.effectId));
    ExecutionReceipt(EXECUTION_CONTRACT, COMPLETED_STAGE, a.authorizationId, a.idempotencyId, a.correlationId,
                     a.agentId, a.agentSpiffe, a.tenant, a.credentialFingerprint, a.rpcMethod, a.payloadSha256, signed,
                     resultSha256, effect.effectId,
                     WorkloadSignature("ES256", a.credentialFingerprint, c.sign(key, text)))
  }

  function CompletionOf(c: Crypto, key: string, executorId: string, signed: SignedAuthorization,
                        effect: ExecutionEffect)
    : ExecutionCompletion
  {
    var a := signed.authorization;
    ExecutionCompletion(OUTBOX_CONTRACT, "execution.effect-recorded", a.authorizationId, a.idempotencyId, executorId,
                        effect.result, Sha256(c, Canonical(effect.result)), effect.effectId,
                        ReceiptOf(c, key, signed, effect))
  }

  /** `format!("receipt-{authorization_id}")`, the reference store's outbox id. */
  function OutboxIdOf(authorizationId: Uuid): string {
    "receipt-" + UuidText(authorizationId)
  }

  lemma OutboxIdInjective(a: Uuid, b: Uuid)
    requires OutboxIdOf(a) == OutboxIdOf(b)
    ensures a == b
  {
    assert OutboxIdOf(a)[8..] == UuidText(a) && OutboxIdOf(b)[8..] == UuidText(b);
    UuidTextInjective(a, b);
  }

  /** `validate_outbox_entry`. */
  predicate ValidOutboxEntry(entry: OutboxEntry) {
    && entry.outboxId != []
    && Utf8Length(entry.outboxId) <= 256
    && entry.receipt.contract == EXECUTION_CONTRACT
    && entry.receipt.stage == COMPLETED_STAGE
    && entry.receipt.workloadSignature.algorithm == "ES256"
  }

  lemma OwnEntryValid(c: Crypto, key: string, signed: SignedAuthorization, effect: ExecutionEffect)
    ensures ValidOutboxEntry(OutboxEntry(OutboxIdOf(signed.authorization.authorizationId),
                                         ReceiptOf(c, key, signed, effect)))
  {
    var id := OutboxIdOf(signed.authorization.authorizationId);
    assert forall x :: x in id ==> x as int < 0x80;
    AsciiLength(id);
  }

  /**
   Whoever receives a receipt can recompute the signed text: drop the workload signature and print the rest
   canonically.
   */
  lemma SignatureCoversReceipt(c: Crypto, key: string, signed: SignedAuthorization, effect: ExecutionEffect)
    ensures var receipt := ReceiptOf(c, key, signed, effect);
            var received := Parse(Canonical(ReceiptJson(receipt)));
            && received.Some? && received.value.Object?
            && "workload_signature" in received.value.members
            && receipt.workloadSignature.value
               == c.sign(key, Canonical(Object(received.value.members - {"workload_signature"})))
  {
    var receipt := ReceiptOf(c, key, signed, effect);
    ParseCanonical(ReceiptJson(receipt));
    StripSignature(receipt, signed, effect.effectId);
  }

  lemma StripSignature(receipt: ExecutionReceipt, signed: SignedAuthorization, effectId: string)
    requires var a := signed.authorization;
             && receipt.contract == EXECUTION_CONTRACT && receipt.stage == COMPLETED_STAGE
             && receipt.authorizationId == a.authorizationId && receipt.idempotencyId == a.idempotencyId
             && receipt.correlationId == a.correlationId && receipt.agentId == a.agentId
             && receipt.agentSpiffe == a.agentSpiffe && receipt.tenant == a.tenant
             && receipt.credentialFingerprint == a.credentialFingerprint && receipt.rpcMethod == a.rpcMethod
             && receipt.payloadSha256 == a.payloadSha256 && receipt.authorization == signed
             && receipt.effectId == effectId
    ensures ReceiptJson(receipt).members - {"workload_signature"}
         == UnsignedReceiptJson(signed, receipt.resultSha256, effectId).members
  {
  }

  lemma UnsignedFields(signed: SignedAuthorization, resultSha256: string, effectId: string)
    ensures var m := UnsignedReceiptJson(signed, resultSha256, effectId).members;
            && m["authorization"] == SignedAuthorizationJson(signed)
            && m["result_sha256"] == String(resultSha256)
            && m["effect_id"] == String(effectId)
  {
  }

  /**
   One signed text stands for one signed authorization, result hash and effect id, so a signature cannot be moved
   to another effect.
   */
  lemma SignedTextPinsEffect(a: SignedAuthorization, hashA: string, effectA: string,
                             b: SignedAuthorization, hashB: string, effectB: string)
    requires Canonical(UnsignedReceiptJson(a, hashA, effectA)) == Canonical(UnsignedReceiptJson(b, hashB, effectB))
    ensures a == b && hashA == hashB && effectA == effectB
  {
    hide UnsignedReceiptJson, SignedAuthorizationJson;
    CanonicalInjective(UnsignedReceiptJson(a, hashA, effectA), UnsignedReceiptJson(b, hashB, effectB));
    UnsignedFields(a, hashA, effectA);
    UnsignedFields(b, hashB, effectB);
    SignedAuthorizationInjective(a, b);
  }
}
