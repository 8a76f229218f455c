/** Prepared requests, the envelopes they are sent as, and the pending handle that pins one of them. */
module Requests {
  import opened Ordering
  import opened Text
  import opened Uuids
  import opened Json
  import opened JsonRoundTrip
  import opened Records

  datatype Request =
    | ToolRequest(idempotencyId: Uuid, name: string, arguments: Json)
    | BatchRequest(idempotencyId: Uuid, calls: seq<ModelToolCall>)

  function ToolEnvelope(idempotencyId: Uuid, name: string, arguments: Json): Json {
    Object(map[
      "jsonrpc" := String("2.0"),
      "id" := String(UuidText(idempotencyId)),
      "method" := String("tools/call"),
      "params" := Object(map["name" := String(name), "arguments" := arguments])])
  }

  function CallJson(call: ModelToolCall): Json {
    Object(map["id" := String(call.id), "name" := String(call.name), "arguments" := call.arguments])
  }

  function CallsJson(calls: seq<ModelToolCall>): seq<Json> {
    seq(|calls|, i requires 0 <= i < |calls| => CallJson(calls[i]))
  }

  function BatchArguments(calls: seq<ModelToolCall>): Json {
    Object(map["contract" := String(BATCH_CONTRACT), "calls" := Array(CallsJson(calls))])
  }

  function BatchParams(calls: seq<ModelToolCall>): Json {
    Object(map["name" := String(BATCH_NAME), "arguments" := BatchArguments(calls)])
  }

  function BatchEnvelope(idempotencyId: Uuid, calls: seq<ModelToolCall>): Json {
    Object(map[
      "jsonrpc" := String("2.0"),
      "id" := String(UuidText(idempotencyId)),
      "method" := String(BATCH_METHOD),
      "params" := BatchParams(calls)])
  }

  /** The JSON-RPC body a request is authorized as. */
  function Body(r: Request): Json {
    match r
    case ToolRequest(id, name, arguments) => ToolEnvelope(id, name, arguments)
    case BatchRequest(id, calls) => BatchEnvelope(id, calls)
  }

  // ---------------------------------------------------------------- local validation

  predicate ValidName(name: string) {
    1 <= Utf8Length(name) <= 256
  }

  function CallIds(calls: seq<ModelToolCall>): seq<string> {
    seq(|calls|, i requires 0 <= i < |calls| => calls[i].id)
  }

  ghost predicate ValidModelToolCalls(calls: seq<ModelToolCall>) {
    && 1 <= |calls| <= MAX_BATCH_CALLS
    && Distinct(CallIds(calls))
    && forall i :: 0 <= i < |calls| ==> ValidName(calls[i].id) && ValidName(calls[i].name)
  }

  /** `validate_model_tool_calls`: one pass that fills a set of the ids seen so far. */
  method ValidateModelToolCalls(calls: seq<ModelToolCall>) returns (ok: bool)
    ensures ok <==> ValidModelToolCalls(calls)
  {
    if |calls| == 0 || |calls| > MAX_BATCH_CALLS {
      return false;
    }
    var ids: set<string> := {};
    for i := 0 to |calls|
      invariant ids == Elements(CallIds(calls)[..i])
      invariant Distinct(CallIds(calls)[..i])
      invariant forall k :: 0 <= k < i ==> ValidName(calls[k].id) && ValidName(calls[k].name)
    {
      var call := calls[i];
      assert CallIds(calls)[i] == call.id;
      if |call.id| == 0 || Utf8Length(call.id) > 256 || call.id in ids {
        if call.id in ids {
          var k :| 0 <= k < i && CallIds(calls)[k] == call.id;
        }
        return false;
      }
      ids := ids + {call.id};
      if |call.name| == 0 || Utf8Length(call.name) > 256 {
        return false;
      }
      assert CallIds(calls)[..i + 1] == CallIds(calls)[..i] + [call.id];
    }
    assert CallIds(calls)[..|calls|] == CallIds(calls);
    return true;
  }

  /** What `validate` demands of a prepared request before any network attempt. */
  ghost predicate Prepared(r: Request) {
    match r
    case ToolRequest(_, name, _) => ValidName(name)
    case BatchRequest(_, calls) => ValidModelToolCalls(calls)
  }

  method ValidatePrepared(r: Request) returns (ok: bool)
    ensures ok <==> Prepared(r)
  {
    match r
    case ToolRequest(_, name, _) => ok := ValidName(name);
    case BatchRequest(_, calls) => ok := ValidateModelToolCalls(calls);
  }

  // ---------------------------------------------------------------- bodies determine requests

  lemma CallsJsonInjective(a: seq<ModelToolCall>, b: seq<ModelToolCall>)
    requires CallsJson(a) == CallsJson(b)
    ensures a == b
  {
    assert |CallsJson(a)| == |a| && |CallsJson(b)| == |b|;
    forall i | 0 <= i < |a| ensures a[i] == b[i] {
      assert CallsJson(a)[i] == CallJson(a[i]) && CallsJson(b)[i] == CallJson(b[i]);
      assert CallJson(a[i]).members["id"] == String(a[i].id) && CallJson(b[i]).members["id"] == String(b[i].id);
      assert CallJson(a[i]).members["name"] == String(a[i].name);
      assert CallJson(b[i]).members["name"] == String(b[i].name);
      assert CallJson(a[i]).members["arguments"] == a[i].arguments;
      assert CallJson(b[i]).members["arguments"] == b[i].arguments;
    }
  }

  lemma EnvelopeFields(r: Request)
    ensures Body(r).Object? && Body(r).members.Keys == {"jsonrpc", "id", "method", "params"}
    ensures Body(r).members["id"] == String(UuidText(r.idempotencyId))
    ensures Body(r).members["method"] == String(if r.ToolRequest? then "tools/call" else BATCH_METHOD)
    ensures r.ToolRequest? ==>
              Body(r).members["params"] == Object(map["name" := String(r.name), "arguments" := r.arguments])
    ensures r.BatchRequest? ==> Body(r).members["params"] == BatchParams(r.calls)
  {
  }

  lemma BatchFields(calls: seq<ModelToolCall>)
    ensures BatchParams(calls).members["arguments"] == BatchArguments(calls)
    ensures BatchArguments(calls).members["calls"] == Array(CallsJson(calls))
  {
  }

  /** The wire body determines the request: its kind, identity, names, arguments and call order. */
  lemma BodyInjective(a: Request, b: Request)
    ensures Body(a) == Body(b) <==> a == b
  {
    if Body(a) == Body(b) {
      EnvelopeFields(a);
      EnvelopeFields(b);
      UuidTextInjective(a.idempotencyId, b.idempotencyId);
      assert "tools/call" != BATCH_METHOD by { assert "tools/call"[0] != BATCH_METHOD[0]; }
      if a.ToolRequest? {
        var pa, pb := Body(a).members["params"].members, Body(b).members["params"].members;
        assert pa["name"] == String(a.name) && pb["name"] == String(b.name);
        assert pa["arguments"] == a.arguments && pb["arguments"] == b.arguments;
      } else {
        BatchFields(a.calls);
        BatchFields(b.calls);
        CallsJsonInjective(a.calls, b.calls);
      }
    }
  }

  // ---------------------------------------------------------------- pending handles

  /** `validate_pending_authorization`. */
  predicate ValidPending(c: Crypto, p: PendingAuthorization, idempotencyId: Uuid, body: Json) {
    && p.contract == PENDING_AUTHORIZATION_CONTRACT
    && p.status == "pending"
    && p.idempotencyId == idempotencyId
    && p.pendingId != NIL
    && p.correlationId != NIL
    && p.payloadSha256 == Sha256(c, Canonical(body))
    && 0 < p.ttlSeconds <= 86_400
    && 0 < p.pollAfterMs <= 60_000
  }

  /** A handle that fits two requests fits one request twice, or exhibits a SHA-256 collision. */
  lemma HandleFitsOneRequest(c: Crypto, p: PendingAuthorization, a: Request, b: Request)
    ensures ValidPending(c, p, a.idempotencyId, Body(a)) && ValidPending(c, p, b.idempotencyId, Body(b)) ==>
              a == b || Collision(c, Canonical(Body(a)), Canonical(Body(b)))
  {
    if ValidPending(c, p, a.idempotencyId, Body(a)) && ValidPending(c, p, b.idempotencyId, Body(b)) {
      Sha256Equal(c, Canonical(Body(a)), Canonical(Body(b)));
      CanonicalInjective(Body(a), Body(b));
      BodyInjective(a, b);
    }
  }

  /** Without a collision, the requests a valid handle fits are exactly the one it was issued for. */
  lemma HandleFitsExactly(c: Crypto, p: PendingAuthorization, a: Request, b: Request)
    ensures ValidPending(c, p, a.idempotencyId, Body(a)) && !Collision(c, Canonical(Body(a)), Canonical(Body(b))) ==>
              (ValidPending(c, p, b.idempotencyId, Body(b)) <==> a == b)
  {
    HandleFitsOneRequest(c, p, a, b);
  }
}
