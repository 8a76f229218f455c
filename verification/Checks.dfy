/**
 What each check lets through, at its bounds and one field at a time: a record that passes keeps passing exactly while
 the changed field stays within the bound stated here.
 */
module Checks {
  import opened Wrappers
  import opened Uuids
  import opened Json
  import opened JsonRoundTrip
  import opened PercentEncoding
  import opened Records
  import opened Requests
  import opened Batches
  import opened Uncertain
  import opened Receipts
  import opened Protocol

  // ---------------------------------------------------------------- bounds

  /** Tool names and call ids: 1 to 256 bytes of UTF-8. */
  lemma NameBounds(name: string)
    ensures ValidName(name) <==> 1 <= |Utf8(name)| <= 256
  {
    Utf8LengthIsBytes(name);
  }

  /** Executor ids: 1 to 256 characters between `!` and `~`. */
  lemma ExecutorIdBounds(executorId: string)
    ensures ValidExecutorId(executorId) <==>
              1 <= |executorId| <= 256 && forall c :: c in executorId ==> 33 <= c as int <= 126
  {
    if forall c :: c in executorId ==> 33 <= c as int <= 126 {
      Text.AsciiLength(executorId);
    }
  }

  /** Effect ids: 1 to 256 bytes of UTF-8; the result is free. */
  lemma EffectBounds(effect: ExecutionEffect)
    ensures ValidEffect(effect) <==> 1 <= |Utf8(effect.effectId)| <= 256
  {
    Utf8LengthIsBytes(effect.effectId);
    Utf8Empty(effect.effectId);
  }

  lemma Utf8Empty(s: string)
    ensures Utf8(s) == [] <==> s == []
  {
  }

  /** A batch grows by a call exactly while it has fewer than 128, and the new call has valid names and a new id. */
  lemma BatchBounds(calls: seq<ModelToolCall>, call: ModelToolCall)
    ensures ValidModelToolCalls(calls + [call]) <==>
              && (calls == [] || ValidModelToolCalls(calls)) && |calls| < 128
              && ValidName(call.id) && ValidName(call.name)
              && forall i :: 0 <= i < |calls| ==> calls[i].id != call.id
    ensures !ValidModelToolCalls([])
  {
    hide ValidName;
    var longer := calls + [call];
    assert CallIds(longer) == CallIds(calls) + [call.id];
    assert longer[|calls|] == call && CallIds(longer)[|calls|] == call.id;
    assert forall i :: 0 <= i < |calls| ==>
        longer[i] == calls[i] && CallIds(longer)[i] == CallIds(calls)[i] == calls[i].id;
    if ValidModelToolCalls(longer) {
      forall i | 0 <= i < |calls| ensures ValidName(calls[i].id) && ValidName(calls[i].name) && calls[i].id != call.id {
        assert ValidName(longer[i].id) && ValidName(longer[i].name);
        assert CallIds(longer)[i] != CallIds(longer)[|calls|];
      }
      forall i, j | 0 <= i < j < |calls| ensures CallIds(calls)[i] != CallIds(calls)[j] {
        assert CallIds(longer)[i] != CallIds(longer)[j];
      }
    }
  }

  // ---------------------------------------------------------------- pending handles

  /** A pending handle fits its body while nothing but its times change, within a day and a minute. */
  lemma PendingTampered(c: Crypto, p: PendingAuthorization, id: Uuid, body: Json, other: PendingAuthorization)
    requires ValidPending(c, p, id, body)
    ensures ValidPending(c, p.(contract := other.contract), id, body) <==>
              other.contract == "clavenar.pending-authorization/v1"
    ensures ValidPending(c, p.(status := other.status), id, body) <==> other.status == "pending"
    ensures ValidPending(c, p.(pendingId := other.pendingId), id, body) <==> other.pendingId != NIL
    ensures ValidPending(c, p.(idempotencyId := other.idempotencyId), id, body) <==> other.idempotencyId == id
    ensures ValidPending(c, p.(correlationId := other.correlationId), id, body) <==> other.correlationId != NIL
    ensures ValidPending(c, p.(payloadSha256 := other.payloadSha256), id, body) <==>
              other.payloadSha256 == "sha256:" + c.digest(Canonical(body))
    ensures ValidPending(c, p.(ttlSeconds := other.ttlSeconds), id, body) <==> 1 <= other.ttlSeconds <= 86_400
    ensures ValidPending(c, p.(pollAfterMs := other.pollAfterMs), id, body) <==> 1 <= other.pollAfterMs <= 60_000
  {
    hide Canonical;
  }

  // ---------------------------------------------------------------- authorizations

  /** An authorization's own digest pins its payload, up to a collision; its contract, stage and algorithm are fixed. */
  lemma AuthorizationTampered(c: Crypto, s: SignedAuthorization, id: Uuid, other: SignedAuthorization)
    requires ValidAuthorization(c, s, id)
    ensures var a, b := s.authorization, other.authorization;
            && (ValidAuthorization(c, s.(authorization := a.(contract := b.contract)), id) <==>
                  b.contract == "clavenar.execution/v1")
            && (ValidAuthorization(c, s.(authorization := a.(stage := b.stage)), id) <==> b.stage == "authorization")
            && (ValidAuthorization(c, s.(authorization := a.(idempotencyId := b.idempotencyId)), id) <==>
                  b.idempotencyId == id)
            && (ValidAuthorization(c, s.(authorization := a.(payloadSha256 := b.payloadSha256)), id) <==>
                  b.payloadSha256 == a.payloadSha256)
            && (ValidAuthorization(c, s.(authorization := a.(executionPayload := b.executionPayload)), id) <==>
                  b.executionPayload == a.executionPayload
                  || Collision(c, Canonical(a.executionPayload), Canonical(b.executionPayload)))
    ensures var t, sig := s.identitySignature, other.identitySignature;
            ValidAuthorization(c, s.(identitySignature := sig), id) <==> sig.algorithm == "Ed25519"
    ensures s.authorization.payloadSha256 == "sha256:" + c.digest(Canonical(s.authorization.executionPayload))
  {
    var x, y := s.authorization.executionPayload, other.authorization.executionPayload;
    CanonicalInjective(x, y);
    hide Canonical;
    if Sha256(c, Canonical(x)) == Sha256(c, Canonical(y)) {
      Sha256Equal(c, Canonical(x), Canonical(y));
    }
  }

  /** A resumed call takes only its handle's correlation id, and an unmodified grant only the requested body. */
  lemma GrantTampered(c: Crypto, op: Op, s: SignedAuthorization, other: Authorization)
    requires Governed(op) && AcceptsGrant(c, op, s)
    ensures var a := s.authorization;
            AcceptsGrant(c, op, s.(authorization := a.(correlationId := other.correlationId))) <==>
              (op.Resume? ==> other.correlationId == op.handle.correlationId)
    ensures var a := s.authorization;
            AcceptsGrant(c, op, s.(authorization := a.(modificationDiff := None))) <==>
              a.executionPayload == Body(op.request)
    ensures s.authorization.idempotencyId == op.request.idempotencyId
  {
    hide Canonical, Body, DecodeBatch, ValidModelToolCalls, CallIds;
  }

  // ---------------------------------------------------------------- uncertain handles

  /**
   Reconciliation's own check of a handle: fixed contract and status, an identity, a digest's shape, an executor
   id.
   */
  lemma UncertainTampered(u: UncertainExecution, other: UncertainExecution)
    requires ValidUncertain(u)
    ensures ValidUncertain(u.(contract := other.contract)) <==> other.contract == "clavenar.uncertain-effect/v1"
    ensures ValidUncertain(u.(status := other.status)) <==> other.status == "uncertain"
    ensures ValidUncertain(u.(authorizationId := other.authorizationId)) <==> other.authorizationId != NIL
    ensures ValidUncertain(u.(idempotencyId := other.idempotencyId)) <==> other.idempotencyId != NIL
    ensures ValidUncertain(u.(tenant := other.tenant)) <==> other.tenant != ""
    ensures ValidUncertain(u.(workloadId := other.workloadId)) <==> other.workloadId != ""
    ensures ValidUncertain(u.(workloadSpiffe := other.workloadSpiffe)) <==> other.workloadSpiffe != ""
    ensures ValidUncertain(u.(payloadSha256 := other.payloadSha256)) <==>
              |Utf8(other.payloadSha256)| == 71 && "sha256:" <= other.payloadSha256
    ensures ValidUncertain(u.(executorId := other.executorId)) <==>
              1 <= |other.executorId| <= 256 && forall c :: c in other.executorId ==> 33 <= c as int <= 126
    ensures ValidUncertain(u.(reason := other.reason, effectLookupRegistered := other.effectLookupRegistered))
  {
    Utf8LengthIsBytes(other.payloadSha256);
    ExecutorIdBounds(other.executorId);
    assert "sha256:" <= other.payloadSha256 <==> Text.StartsWith(other.payloadSha256, "sha256:");
    hide ValidExecutorId, Text.StartsWith;
  }

  /** A handle matches an intent only while each of its seven bindings is the intent's. */
  lemma BindingTampered(c: Crypto, u: UncertainExecution, intent: ExecutionIntent, other: UncertainExecution)
    requires ValidUncertainIntent(c, u, intent)
    ensures ValidUncertainIntent(c, u.(authorizationId := other.authorizationId), intent) <==>
              other.authorizationId == intent.authorizationId
    ensures ValidUncertainIntent(c, u.(idempotencyId := other.idempotencyId), intent) <==>
              other.idempotencyId == intent.idempotencyId
    ensures ValidUncertainIntent(c, u.(tenant := other.tenant), intent) <==> other.tenant == intent.tenant
    ensures ValidUncertainIntent(c, u.(workloadId := other.workloadId), intent) <==>
              other.workloadId == intent.workloadId
    ensures ValidUncertainIntent(c, u.(workloadSpiffe := other.workloadSpiffe), intent) <==>
              other.workloadSpiffe == intent.workloadSpiffe
    ensures ValidUncertainIntent(c, u.(payloadSha256 := other.payloadSha256), intent) <==>
              other.payloadSha256 == intent.payloadSha256
    ensures ValidUncertainIntent(c, u.(executorId := other.executorId), intent) <==>
              other.executorId == intent.executorId
  {
    hide ValidAuthorization;
  }

  /** Nor does a handle match an intent once a field of the intent or of its signed authorization is replaced. */
  lemma IntentTampered(c: Crypto, u: UncertainExecution, intent: ExecutionIntent, other: ExecutionIntent)
    requires ValidUncertainIntent(c, u, intent)
    ensures ValidUncertainIntent(c, u, intent.(contract := other.contract)) <==>
              other.contract == "clavenar.sdk-durable-intent-outbox/v1"
    ensures ValidUncertainIntent(c, u, intent.(stage := other.stage)) <==> other.stage == "execution.intent"
    ensures ValidUncertainIntent(c, u, intent.(tenant := other.tenant)) <==> other.tenant == intent.tenant
    ensures ValidUncertainIntent(c, u, intent.(executorId := other.executorId)) <==>
              other.executorId == intent.executorId
    ensures ValidUncertainIntent(c, u, intent.(authorization := other.authorization)) <==>
              && ValidAuthorization(c, other.authorization, u.idempotencyId)
              && var a := other.authorization.authorization;
                 && a.authorizationId == u.authorizationId && a.tenant == u.tenant && a.agentId == u.workloadId
                 && a.agentSpiffe == u.workloadSpiffe && a.payloadSha256 == u.payloadSha256
  {
    hide ValidAuthorization;
    if ValidUncertainIntent(c, u, intent.(authorization := other.authorization)) {
      AuthorizationIdentity(c, other.authorization, u.idempotencyId);
    }
    if ValidAuthorization(c, other.authorization, u.idempotencyId) {
      AuthorizationIdentity(c, other.authorization, u.idempotencyId);
    }
  }

  lemma AuthorizationIdentity(c: Crypto, s: SignedAuthorization, id: Uuid)
    requires ValidAuthorization(c, s, id)
    ensures s.authorization.idempotencyId == id
  {
  }

  // ---------------------------------------------------------------- receipts

  /** What is posted: an outbox id of 1 to 256 bytes and a completed, ES256-signed receipt of this contract. */
  lemma OutboxEntryTampered(entry: OutboxEntry, other: OutboxEntry)
    requires ValidOutboxEntry(entry)
    ensures ValidOutboxEntry(entry.(outboxId := other.outboxId)) <==> 1 <= |Utf8(other.outboxId)| <= 256
    ensures var r, s := entry.receipt, other.receipt;
            && (ValidOutboxEntry(entry.(receipt := r.(contract := s.contract))) <==>
                  s.contract == "clavenar.execution/v1")
            && (ValidOutboxEntry(entry.(receipt := r.(stage := s.stage))) <==> s.stage == "execution.completed")
            && (ValidOutboxEntry(entry.(receipt := r.(workloadSignature := s.workloadSignature))) <==>
                  s.workloadSignature.algorithm == "ES256")
  {
    Utf8LengthIsBytes(other.outboxId);
    Utf8Empty(other.outboxId);
    hide Utf8, Text.Utf8Length;
  }

  /** What counts as the Proxy's confirmation: the receipt's authorization id, this contract and the completed stage. */
  lemma ConfirmationTampered(entry: OutboxEntry, recorded: ReceiptRecorded, other: ReceiptRecorded)
    requires Acknowledges(entry, recorded)
    ensures Acknowledges(entry, recorded.(authorizationId := other.authorizationId)) <==>
              other.authorizationId == entry.receipt.authorizationId
    ensures Acknowledges(entry, recorded.(contract := other.contract)) <==> other.contract == "clavenar.execution/v1"
    ensures Acknowledges(entry, recorded.(stage := other.stage)) <==> other.stage == "execution.completed"
    ensures Acknowledges(entry, recorded.(status := other.status, receiptSha256 := other.receiptSha256))
  {
  }
}
