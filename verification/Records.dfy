/** The wire and store records of the execution contract, and their JSON forms. */
module Records {
  import opened Wrappers
  import opened Text
  import opened Uuids
  import opened Json

  // ---------------------------------------------------------------- contract names

  const EXECUTION_CONTRACT := "clavenar.execution/v1"
  const PENDING_AUTHORIZATION_CONTRACT := "clavenar.pending-authorization/v1"
  const BATCH_CONTRACT := "clavenar.atomic-tool-call-batch/v1"
  const BATCH_METHOD := "clavenar/tools.batch"
  const BATCH_NAME := "clavenar.atomic-batch"
  const OUTBOX_CONTRACT := "clavenar.sdk-durable-intent-outbox/v1"
  const UNCERTAIN_EFFECT_CONTRACT := "clavenar.uncertain-effect/v1"
  const MAX_BATCH_CALLS := 128
  const MAX_OUTBOX_FLUSH := 128

  // ---------------------------------------------------------------- idealised cryptography

  type HexDigest = s: string | |s| == 64 && forall c | c in s :: IsHex(c)
    witness seq(64, _ => '0')

  /** SHA-256 in hexadecimal, and a base64url ES256 signature over text under a named key. */
  datatype Crypto = Crypto(digest: string -> HexDigest, sign: (string, string) -> string)

  function Sha256(c: Crypto, text: string): (r: string)
    ensures |r| == 71 && StartsWith(r, "sha256:")
  {
    "sha256:" + c.digest(text)
  }

  /** Two different texts with one SHA-256 digest. */
  ghost predicate Collision(c: Crypto, a: string, b: string) {
    a != b && c.digest(a) == c.digest(b)
  }

  lemma Sha256Equal(c: Crypto, a: string, b: string)
    requires Sha256(c, a) == Sha256(c, b)
    ensures a == b || Collision(c, a, b)
  {
    assert Sha256(c, a)[7..] == c.digest(a) && Sha256(c, b)[7..] == c.digest(b);
  }

  lemma Sha256Length(c: Crypto, text: string)
    ensures Utf8Length(Sha256(c, text)) == 71
  {
    AsciiLength(Sha256(c, text));
  }

  // ---------------------------------------------------------------- records

  datatype ModelToolCall = ModelToolCall(id: string, name: string, arguments: Json)

  datatype IdentitySignature = IdentitySignature(algorithm: string, keyId: string, value: string)

  datatype PolicyBundle = PolicyBundle(schemaVersion: nat, version: string, hashSha256: string, policyCount: nat)

  datatype Authorization = Authorization(
    contract: string,
    stage: string,
    authorizationId: Uuid,
    idempotencyId: Uuid,
    correlationId: Uuid,
    agentId: string,
    agentSpiffe: string,
    tenant: string,
    credentialFingerprint: string,
    rpcMethod: string,
    toolName: string,
    executionPayload: Json,
    payloadSha256: string,
    decisionPrincipal: Json,
    modificationDiff: Option<Json>,
    policyBundle: PolicyBundle,
    brainVersion: string,
    brainEvidenceSha256: string)

  datatype SignedAuthorization = SignedAuthorization(authorization: Authorization, identitySignature: IdentitySignature)

  datatype WorkloadSignature = WorkloadSignature(algorithm: string, credentialFingerprint: string, value: string)

  datatype ExecutionReceipt = ExecutionReceipt(
    contract: string,
    stage: string,
    authorizationId: Uuid,
    idempotencyId: Uuid,
    correlationId: Uuid,
    agentId: string,
    agentSpiffe: string,
    tenant: string,
    credentialFingerprint: string,
    rpcMethod: string,
    payloadSha256: string,
    authorization: SignedAuthorization,
    resultSha256: string,
    effectId: string,
    workloadSignature: WorkloadSignature)

  datatype ExecutionIntent = ExecutionIntent(
    contract: string,
    stage: string,
    authorizationId: Uuid,
    idempotencyId: Uuid,
    tenant: string,
    workloadId: string,
    workloadSpiffe: string,
    payloadSha256: string,
    executorId: string,
    authorization: SignedAuthorization)

  datatype AuthorizationUse = Direct | SingleUse

  datatype AttemptClaim = Started | AlreadyInFlight | AlreadyCompleted

  datatype ToolExecutionRequest = ToolExecutionRequest(
    idempotencyId: Uuid, authorizationId: Uuid, executorId: string, executionPayload: Json)

  datatype ExecutionEffect = ExecutionEffect(result: Json, effectId: string)

  datatype EffectLookupRequest = EffectLookupRequest(
    authorizationId: Uuid, idempotencyId: Uuid, executorId: string, payloadSha256: string)

  datatype EffectLookupOutcome = Found(effect: ExecutionEffect) | NotFound | Ambiguous

  datatype ExecutionCompletion = ExecutionCompletion(
    contract: string,
    stage: string,
    authorizationId: Uuid,
    idempotencyId: Uuid,
    executorId: string,
    actualResult: Json,
    actualResultSha256: string,
    effectId: string,
    receipt: ExecutionReceipt)

  datatype OutboxEntry = OutboxEntry(outboxId: string, receipt: ExecutionReceipt)

  datatype ReceiptRecorded = ReceiptRecorded(
    status: string, contract: string, stage: string, authorizationId: Uuid, receiptSha256: string)

  datatype UncertainReason =
    | InFlightAfterPriorAttempt
    | ExecutorOutcomeUnknown
    | LookupNotRegistered
    | LookupUnavailable
    | EffectNotFound
    | LookupAmbiguous
    | LookupInvalid
    | DurableIntentUnavailable
    | ReconciledEffectPersistenceFailed

  datatype UncertainExecution = UncertainExecution(
    contract: string,
    status: string,
    reason: UncertainReason,
    authorizationId: Uuid,
    idempotencyId: Uuid,
    tenant: string,
    workloadId: string,
    workloadSpiffe: string,
    payloadSha256: string,
    executorId: string,
    effectLookupRegistered: bool)

  datatype PendingAuthorization = PendingAuthorization(
    contract: string,
    status: string,
    pendingId: Uuid,
    idempotencyId: Uuid,
    correlationId: Uuid,
    payloadSha256: string,
    ttlSeconds: int,
    pollAfterMs: nat)

  datatype ExecutionOutcome = ExecutionOutcome(receipt: ReceiptRecorded, result: Json, effectId: string)

  // ---------------------------------------------------------------- JSON forms

  function IdentitySignatureJson(s: IdentitySignature): Json {
    Object(map["algorithm" := String(s.algorithm), "key_id" := String(s.keyId), "value" := String(s.value)])
  }

  function PolicyBundleJson(p: PolicyBundle): Json {
    Object(map[
      "schema_version" := Number(p.schemaVersion),
      "version" := String(p.version),
      "hash_sha256" := String(p.hashSha256),
      "policy_count" := Number(p.policyCount)])
  }

  /** The modification diff is left out when there is none. */
  function AuthorizationJson(a: Authorization): Json {
    var diff := if a.modificationDiff.Some? then map["modification_diff" := a.modificationDiff.value] else map[];
    Object(map[
      "contract" := String(a.contract),
      "stage" := String(a.stage),
      "authorization_id" := String(UuidText(a.authorizationId)),
      "idempotency_id" := String(UuidText(a.idempotencyId)),
      "correlation_id" := String(UuidText(a.correlationId)),
      "agent_id" := String(a.agentId),
      "agent_spiffe" := String(a.agentSpiffe),
      "tenant" := String(a.tenant),
      "credential_fingerprint" := String(a.credentialFingerprint),
      "method" := String(a.rpcMethod),
      "tool_name" := String(a.toolName),
      "execution_payload" := a.executionPayload,
      "payload_sha256" := String(a.payloadSha256),
      "decision_principal" := a.decisionPrincipal,
      "policy_bundle" := PolicyBundleJson(a.policyBundle),
      "brain_version" := String(a.brainVersion),
      "brain_evidence_sha256" := String(a.brainEvidenceSha256)] + diff)
  }

  function SignedAuthorizationJson(s: SignedAuthorization): Json {
    Object(map[
      "authorization" := AuthorizationJson(s.authorization),
      "identity_signature" := IdentitySignatureJson(s.identitySignature)])
  }

  function WorkloadSignatureJson(s: WorkloadSignature): Json {
    Object(map[
      "algorithm" := String(s.algorithm),
      "credential_fingerprint" := String(s.credentialFingerprint),
      "value" := String(s.value)])
  }

  /** The receipt as it is sent to the Proxy. */
  function ReceiptJson(r: ExecutionReceipt): Json {
    Object(map[
      "contract" := String(r.contract),
      "stage" := String(r.stage),
      "authorization_id" := String(UuidText(r.authorizationId)),
      "idempotency_id" := String(UuidText(r.idempotencyId)),
      "correlation_id" := String(UuidText(r.correlationId)),
      "agent_id" := String(r.agentId),
      "agent_spiffe" := String(r.agentSpiffe),
      "tenant" := String(r.tenant),
      "credential_fingerprint" := String(r.credentialFingerprint),
      "method" := String(r.rpcMethod),
      "payload_sha256" := String(r.payloadSha256),
      "authorization" := SignedAuthorizationJson(r.authorization),
      "result_sha256" := String(r.resultSha256),
      "effect_id" := String(r.effectId),
      "workload_signature" := WorkloadSignatureJson(r.workloadSignature)])
  }

  // ---------------------------------------------------------------- a JSON form has one record

  lemma AuthorizationIdentity(a: Authorization)
    ensures var m := AuthorizationJson(a).members;
            && m["authorization_id"] == String(UuidText(a.authorizationId))
            && m["idempotency_id"] == String(UuidText(a.idempotencyId))
            && m["correlation_id"] == String(UuidText(a.correlationId))
  {
  }

  lemma AuthorizationStage(a: Authorization)
    ensures var m := AuthorizationJson(a).members;
            m["contract"] == String(a.contract) && m["stage"] == String(a.stage)
  {
  }

  lemma AuthorizationWorkload(a: Authorization)
    ensures var m := AuthorizationJson(a).members;
            && m["agent_id"] == String(a.agentId) && m["agent_spiffe"] == String(a.agentSpiffe)
            && m["tenant"] == String(a.tenant) && m["credential_fingerprint"] == String(a.credentialFingerprint)
  {
  }

  lemma AuthorizationPayload(a: Authorization)
    ensures var m := AuthorizationJson(a).members;
            && m["method"] == String(a.rpcMethod) && m["tool_name"] == String(a.toolName)
            && m["execution_payload"] == a.executionPayload && m["payload_sha256"] == String(a.payloadSha256)
  {
  }

  lemma AuthorizationDecision(a: Authorization)
    ensures var m := AuthorizationJson(a).members;
            && m["decision_principal"] == a.decisionPrincipal && m["policy_bundle"] == PolicyBundleJson(a.policyBundle)
            && m["brain_version"] == String(a.brainVersion)
            && m["brain_evidence_sha256"] == String(a.brainEvidenceSha256)
  {
  }

  lemma AuthorizationDiff(a: Authorization)
    ensures var m := AuthorizationJson(a).members;
            && (a.modificationDiff.Some? <==> "modification_diff" in m)
            && (a.modificationDiff.Some? ==> m["modification_diff"] == a.modificationDiff.value)
  {
  }

  lemma PolicyBundleFields(p: PolicyBundle)
    ensures var m := PolicyBundleJson(p).members;
            && m["schema_version"] == Number(p.schemaVersion) && m["version"] == String(p.version)
            && m["hash_sha256"] == String(p.hashSha256) && m["policy_count"] == Number(p.policyCount)
  {
  }

  lemma PolicyBundleInjective(a: PolicyBundle, b: PolicyBundle)
    requires PolicyBundleJson(a) == PolicyBundleJson(b)
    ensures a == b
  {
    hide PolicyBundleJson;
    PolicyBundleFields(a);
    PolicyBundleFields(b);
  }

  lemma AuthorizationInjective(a: Authorization, b: Authorization)
    requires AuthorizationJson(a) == AuthorizationJson(b)
    ensures a == b
  {
    hide AuthorizationJson, PolicyBundleJson;
    AuthorizationStage(a);
    AuthorizationStage(b);
    AuthorizationIdentity(a);
    AuthorizationIdentity(b);
    UuidTextInjective(a.authorizationId, b.authorizationId);
    UuidTextInjective(a.idempotencyId, b.idempotencyId);
    UuidTextInjective(a.correlationId, b.correlationId);
    AuthorizationWorkload(a);
    AuthorizationWorkload(b);
    AuthorizationPayload(a);
    AuthorizationPayload(b);
    AuthorizationDecision(a);
    AuthorizationDecision(b);
    PolicyBundleInjective(a.policyBundle, b.policyBundle);
    AuthorizationDiff(a);
    AuthorizationDiff(b);
  }

  lemma SignedFields(s: SignedAuthorization)
    ensures var m := SignedAuthorizationJson(s).members;
            && m["authorization"] == AuthorizationJson(s.authorization)
            && m["identity_signature"] == IdentitySignatureJson(s.identitySignature)
    ensures var m := IdentitySignatureJson(s.identitySignature).members;
            && m["algorithm"] == String(s.identitySignature.algorithm)
            && m["key_id"] == String(s.identitySignature.keyId) && m["value"] == String(s.identitySignature.value)
  {
    hide AuthorizationJson;
  }

  /** The JSON form of a signed authorization determines every field of it, the diff's absence included. */
  lemma SignedAuthorizationInjective(a: SignedAuthorization, b: SignedAuthorization)
    requires SignedAuthorizationJson(a) == SignedAuthorizationJson(b)
    ensures a == b
  {
    hide SignedAuthorizationJson, AuthorizationJson, IdentitySignatureJson;
    SignedFields(a);
    SignedFields(b);
    AuthorizationInjective(a.authorization, b.authorization);
  }
}
