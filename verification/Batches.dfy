/** Authorizations of exact payloads, and the release of a whole tool-call batch. */
module Batches {
  import opened Wrappers
  import opened Ordering
  import opened Uuids
  import opened Json
  import opened Records
  import opened Requests

  /** `validate_authorization`. */
  predicate ValidAuthorization(c: Crypto, signed: SignedAuthorization, idempotencyId: Uuid) {
    && signed.authorization.contract == EXECUTION_CONTRACT
    && signed.authorization.stage == "authorization"
    && signed.authorization.idempotencyId == idempotencyId
    && signed.authorization.payloadSha256 == Sha256(c, Canonical(signed.authorization.executionPayload))
    && signed.identitySignature.algorithm == "Ed25519"
  }

  // ---------------------------------------------------------------- decoding the batch envelope

  function Pick(members: map<string, Json>, names: seq<string>): (r: seq<Json>)
    requires forall n :: n in names ==> n in members
  {
    seq(|names|, i requires 0 <= i < |names| => members[names[i]])
  }

  /**
   The fields of a derived record with unknown fields denied. `serde_json` reads a record from an object with
   exactly these keys, or from an array with exactly this many positions.
   */
  function Fields(j: Json, names: seq<string>): (r: Option<seq<Json>>)
    ensures r.Some? ==> |r.value| == |names|
  {
    if j.Array? && |j.items| == |names| then Some(j.items)
    else if j.Object? && j.members.Keys == Elements(names) then Some(Pick(j.members, names))
    else None
  }

  function AsString(j: Json): Option<string> {
    if j.String? then Some(j.s) else None
  }

  function DecodeCall(j: Json): Option<ModelToolCall> {
    var f :- Fields(j, ["id", "name", "arguments"]);
    var id :- AsString(f[0]);
    var name :- AsString(f[1]);
    Some(ModelToolCall(id, name, f[2]))
  }

  function DecodeCalls(items: seq<Json>): (r: Option<seq<ModelToolCall>>)
    ensures r.Some? ==> |r.value| == |items|
    ensures r.Some? ==> forall i :: 0 <= i < |items| ==> DecodeCall(items[i]) == Some(r.value[i])
  {
    if items == [] then Some([])
    else
      var first :- DecodeCall(items[0]);
      var more :- DecodeCalls(items[1..]);
      Some([first] + more)
  }

  /** The batch arguments: a contract name and the calls. */
  function DecodeArguments(j: Json): Option<(string, seq<ModelToolCall>)> {
    var f :- Fields(j, ["contract", "calls"]);
    var contract :- AsString(f[0]);
    if !f[1].Array? then None
    else
      var calls :- DecodeCalls(f[1].items);
      Some((contract, calls))
  }

  /** The batch parameters: a name, then the arguments. */
  function DecodeParams(j: Json): Option<(string, (string, seq<ModelToolCall>))> {
    var f :- Fields(j, ["name", "arguments"]);
    var name :- AsString(f[0]);
    var arguments :- DecodeArguments(f[1]);
    Some((name, arguments))
  }

  datatype AtomicBatch = AtomicBatch(
    jsonrpc: string, id: string, rpcMethod: string, name: string, contract: string, calls: seq<ModelToolCall>)

  /** Decoding the execution payload as an atomic batch envelope. */
  function DecodeBatch(payload: Json): Option<AtomicBatch> {
    var f :- Fields(payload, ["jsonrpc", "id", "method", "params"]);
    var jsonrpc :- AsString(f[0]);
    var id :- AsString(f[1]);
    var rpcMethod :- AsString(f[2]);
    var params :- DecodeParams(f[3]);
    Some(AtomicBatch(jsonrpc, id, rpcMethod, params.0, params.1.0, params.1.1))
  }

  /** `validate_batch_authorization`. */
  ghost predicate ValidBatchAuthorization(
    signed: SignedAuthorization, idempotencyId: Uuid, calls: seq<ModelToolCall>, body: Json)
  {
    var envelope := DecodeBatch(signed.authorization.executionPayload);
    && envelope.Some?
    && ValidModelToolCalls(envelope.value.calls)
    && envelope.value.jsonrpc == "2.0"
    && envelope.value.id == UuidText(idempotencyId)
    && envelope.value.rpcMethod == BATCH_METHOD
    && envelope.value.name == BATCH_NAME
    && envelope.value.contract == BATCH_CONTRACT
    && CallIds(envelope.value.calls) == CallIds(calls)
    && (signed.authorization.modificationDiff.None? ==> signed.authorization.executionPayload == body)
  }

  method ValidateBatchAuthorization(signed: SignedAuthorization, idempotencyId: Uuid, calls: seq<ModelToolCall>,
                                    body: Json)
    returns (ok: bool)
    ensures ok <==> ValidBatchAuthorization(signed, idempotencyId, calls, body)
  {
    var envelope := DecodeBatch(signed.authorization.executionPayload);
    if envelope.None? {
      return false;
    }
    var valid := ValidateModelToolCalls(envelope.value.calls);
    return valid
        && CallIds(envelope.value.calls) == CallIds(calls)
        && envelope.value.jsonrpc == "2.0" && envelope.value.id == UuidText(idempotencyId)
        && envelope.value.rpcMethod == BATCH_METHOD && envelope.value.name == BATCH_NAME
        && envelope.value.contract == BATCH_CONTRACT
        && (signed.authorization.modificationDiff.Some? || signed.authorization.executionPayload == body);
  }

  lemma FieldsOfObject(members: map<string, Json>, names: seq<string>)
    requires members.Keys == Elements(names)
    ensures Fields(Object(members), names).Some?
    ensures forall i :: 0 <= i < |names| ==>
              names[i] in members && Fields(Object(members), names).value[i] == members[names[i]]
  {
    forall i | 0 <= i < |names| ensures names[i] in members {
      assert names[i] in Elements(names);
    }
  }

  lemma DecodeCallJson(call: ModelToolCall)
    ensures DecodeCall(CallJson(call)) == Some(call)
  {
    var names := ["id", "name", "arguments"];
    assert Elements(names) == {"id", "name", "arguments"};
    assert CallJson(call).members.Keys == Elements(names);
    FieldsOfObject(CallJson(call).members, names);
    var f := Fields(CallJson(call), names).value;
    assert f[0] == CallJson(call).members[names[0]];
    assert f[1] == CallJson(call).members[names[1]];
    assert f[2] == CallJson(call).members[names[2]];
  }

  lemma {:induction false} DecodeCallsJson(calls: seq<ModelToolCall>)
    ensures DecodeCalls(CallsJson(calls)) == Some(calls)
  {
    if calls == [] {
      assert CallsJson(calls) == [];
    } else {
      DecodeCallJson(calls[0]);
      DecodeCallsJson(calls[1..]);
      assert CallsJson(calls)[1..] == CallsJson(calls[1..]);
      assert calls == [calls[0]] + calls[1..];
    }
  }

  lemma DecodeBatchArguments(calls: seq<ModelToolCall>)
    ensures DecodeArguments(BatchArguments(calls)) == Some((BATCH_CONTRACT, calls))
  {
    var names := ["contract", "calls"];
    assert BatchArguments(calls).members.Keys == Elements(names);
    FieldsOfObject(BatchArguments(calls).members, names);
    var f := Fields(BatchArguments(calls), names).value;
    assert f[0] == BatchArguments(calls).members[names[0]];
    assert f[1] == BatchArguments(calls).members[names[1]];
    DecodeCallsJson(calls);
  }

  lemma DecodeBatchParams(calls: seq<ModelToolCall>)
    ensures DecodeParams(BatchParams(calls)) == Some((BATCH_NAME, (BATCH_CONTRACT, calls)))
  {
    var names := ["name", "arguments"];
    assert BatchParams(calls).members.Keys == Elements(names);
    FieldsOfObject(BatchParams(calls).members, names);
    var f := Fields(BatchParams(calls), names).value;
    assert f[0] == BatchParams(calls).members[names[0]];
    assert f[1] == BatchParams(calls).members[names[1]];
    DecodeBatchArguments(calls);
  }

  /** Decoding an envelope gives back exactly its calls, in order. */
  lemma DecodeEnvelope(idempotencyId: Uuid, calls: seq<ModelToolCall>)
    ensures DecodeBatch(BatchEnvelope(idempotencyId, calls))
         == Some(AtomicBatch("2.0", UuidText(idempotencyId), BATCH_METHOD, BATCH_NAME, BATCH_CONTRACT, calls))
  {
    var names := ["jsonrpc", "id", "method", "params"];
    var envelope := BatchEnvelope(idempotencyId, calls);
    assert envelope.members.Keys == Elements(names);
    FieldsOfObject(envelope.members, names);
    var f := Fields(envelope, names).value;
    assert f[0] == envelope.members[names[0]] && f[1] == envelope.members[names[1]];
    assert f[2] == envelope.members[names[2]] && f[3] == envelope.members[names[3]];
    DecodeBatchParams(calls);
  }

  // ---------------------------------------------------------------- main results

  /** Unmodified: the validator accepts the exact echo of a valid batch and nothing else. */
  lemma UnmodifiedBatch(signed: SignedAuthorization, idempotencyId: Uuid, calls: seq<ModelToolCall>)
    requires ValidModelToolCalls(calls) && signed.authorization.modificationDiff.None?
    ensures ValidBatchAuthorization(signed, idempotencyId, calls, BatchEnvelope(idempotencyId, calls))
       <==> signed.authorization.executionPayload == BatchEnvelope(idempotencyId, calls)
  {
    DecodeEnvelope(idempotencyId, calls);
  }

  /** Modified or not, an accepted batch releases 1 to 128 calls with the requested ids, all distinct, in order. */
  lemma AcceptedBatchKeepsIds(signed: SignedAuthorization, idempotencyId: Uuid, calls: seq<ModelToolCall>, body: Json)
    requires ValidBatchAuthorization(signed, idempotencyId, calls, body)
    ensures var released := DecodeBatch(signed.authorization.executionPayload).value.calls;
            && 1 <= |released| == |calls| <= MAX_BATCH_CALLS
            && (forall i :: 0 <= i < |calls| ==> released[i].id == calls[i].id)
            && (forall k, i :: 0 <= k < i < |calls| ==> released[k].id != released[i].id)
  {
    var released := DecodeBatch(signed.authorization.executionPayload).value.calls;
    assert |CallIds(released)| == |released| && |CallIds(calls)| == |calls|;
    forall i | 0 <= i < |calls| ensures released[i].id == calls[i].id {
      assert CallIds(released)[i] == released[i].id && CallIds(calls)[i] == calls[i].id;
    }
    forall k, i | 0 <= k < i < |calls| ensures released[k].id != released[i].id {
      assert CallIds(released)[k] == released[k].id && CallIds(released)[i] == released[i].id;
    }
  }

  predicate ObjectArguments(arguments: Json) {
    && arguments.Object? && "calls" in arguments.members
    && arguments.members["calls"].Array?
    && forall call | call in arguments.members["calls"].items :: call.Object?
  }

  predicate ObjectParams(params: Json) {
    params.Object? && "arguments" in params.members && ObjectArguments(params.members["arguments"])
  }

  /** Every record of the payload is written as an object, as JSON-RPC requires of the outermost one. */
  predicate ObjectForm(payload: Json) {
    payload.Object? && "params" in payload.members && ObjectParams(payload.members["params"])
  }

  lemma CallOfObject(j: Json)
    requires j.Object? && DecodeCall(j).Some?
    ensures j == CallJson(DecodeCall(j).value)
  {
    var names := ["id", "name", "arguments"];
    assert Elements(names) == {"id", "name", "arguments"};
    FieldsOfObject(j.members, names);
    var f := Fields(j, names).value;
    assert f[0] == j.members[names[0]] && f[1] == j.members[names[1]] && f[2] == j.members[names[2]];
    assert j.members == CallJson(DecodeCall(j).value).members;
  }

  lemma ArgumentsOfObject(j: Json)
    requires ObjectArguments(j) && DecodeArguments(j).Some? && DecodeArguments(j).value.0 == BATCH_CONTRACT
    ensures j == BatchArguments(DecodeArguments(j).value.1)
  {
    var names := ["contract", "calls"];
    assert Elements(names) == {"contract", "calls"};
    FieldsOfObject(j.members, names);
    assert names[0] == "contract" && names[1] == "calls";
    var items, calls := j.members["calls"].items, DecodeArguments(j).value.1;
    assert DecodeCalls(items) == Some(calls);
    forall i | 0 <= i < |items| ensures items[i] == CallsJson(calls)[i] {
      assert items[i] in items;
      CallOfObject(items[i]);
    }
    assert items == CallsJson(calls);
    assert j.members == BatchArguments(calls).members;
  }

  lemma ParamsOfObject(j: Json)
    requires ObjectParams(j) && DecodeParams(j).Some?
    requires DecodeParams(j).value.0 == BATCH_NAME && DecodeParams(j).value.1.0 == BATCH_CONTRACT
    ensures j == BatchParams(DecodeParams(j).value.1.1)
  {
    var names := ["name", "arguments"];
    assert Elements(names) == {"name", "arguments"};
    FieldsOfObject(j.members, names);
    assert names[0] == "name" && names[1] == "arguments";
    ArgumentsOfObject(j.members["arguments"]);
    assert j.members == BatchParams(DecodeParams(j).value.1.1).members;
  }

  lemma EnvelopeOfObject(payload: Json, idempotencyId: Uuid)
    requires ObjectForm(payload) && DecodeBatch(payload).Some?
    requires var b := DecodeBatch(payload).value;
             b == AtomicBatch("2.0", UuidText(idempotencyId), BATCH_METHOD, BATCH_NAME, BATCH_CONTRACT, b.calls)
    ensures payload == BatchEnvelope(idempotencyId, DecodeBatch(payload).value.calls)
  {
    hide DecodeParams, ObjectParams, BatchParams, Pick, UuidText;
    var names := ["jsonrpc", "id", "method", "params"];
    assert Elements(names) == {"jsonrpc", "id", "method", "params"};
    FieldsOfObject(payload.members, names);
    assert names[0] == "jsonrpc" && names[1] == "id" && names[2] == "method" && names[3] == "params";
    ParamsOfObject(payload.members["params"]);
    assert payload.members == BatchEnvelope(idempotencyId, DecodeBatch(payload).value.calls).members;
  }

  /** The payload is the envelope of valid calls that keep the requested ids and their order. */
  ghost predicate Regated(payload: Json, idempotencyId: Uuid, calls: seq<ModelToolCall>, released: seq<ModelToolCall>) {
    && ValidModelToolCalls(released)
    && CallIds(released) == CallIds(calls)
    && payload == BatchEnvelope(idempotencyId, released)
  }

  ghost predicate RegatedEnvelope(payload: Json, idempotencyId: Uuid, calls: seq<ModelToolCall>) {
    exists released :: Regated(payload, idempotencyId, calls, released)
  }

  /** Modified and in object form: accepted exactly when it is the envelope of valid calls with the requested ids. */
  lemma ModifiedBatch(signed: SignedAuthorization, idempotencyId: Uuid, calls: seq<ModelToolCall>, body: Json)
    requires signed.authorization.modificationDiff.Some?
    ensures (ValidBatchAuthorization(signed, idempotencyId, calls, body)
             && ObjectForm(signed.authorization.executionPayload))
       <==> RegatedEnvelope(signed.authorization.executionPayload, idempotencyId, calls)
  {
    var payload := signed.authorization.executionPayload;
    if ValidBatchAuthorization(signed, idempotencyId, calls, body) && ObjectForm(payload) {
      EnvelopeOfObject(payload, idempotencyId);
      assert Regated(payload, idempotencyId, calls, DecodeBatch(payload).value.calls);
    }
    if released :| Regated(payload, idempotencyId, calls, released) {
      DecodeEnvelope(idempotencyId, released);
      BatchFields(released);
      assert ObjectForm(payload);
    }
  }

  /** One call written positionally, as nested arrays. */
  function PositionalEnvelope(idempotencyId: Uuid, call: ModelToolCall): Json {
    var item := Array([String(call.id), String(call.name), call.arguments]);
    var arguments := Array([String(BATCH_CONTRACT), Array([item])]);
    Array([String("2.0"), String(UuidText(idempotencyId)), String(BATCH_METHOD),
           Array([String(BATCH_NAME), arguments])])
  }

  lemma DecodePositional(call: ModelToolCall)
    ensures DecodeCalls([Array([String(call.id), String(call.name), call.arguments])]) == Some([call])
  {
    var item := Array([String(call.id), String(call.name), call.arguments]);
    assert DecodeCall(item) == Some(call);
    assert [item][1..] == [];
    assert DecodeCalls([item][1..]) == Some([]);
    var none: seq<ModelToolCall> := [];
    assert [call] + none == [call];
  }

  /**
   A modified batch need not be in object form, nor name the tool or the arguments that were asked for: a positional
   payload of another call with the same id is accepted too.
   */
  lemma PositionalBatchAccepted(signed: SignedAuthorization, idempotencyId: Uuid, asked: ModelToolCall,
                                call: ModelToolCall, body: Json)
    requires ValidName(call.id) && ValidName(call.name) && call.id == asked.id
    requires signed.authorization.modificationDiff.Some?
    requires signed.authorization.executionPayload == PositionalEnvelope(idempotencyId, call)
    ensures ValidBatchAuthorization(signed, idempotencyId, [asked], body)
    ensures !ObjectForm(signed.authorization.executionPayload)
  {
    DecodePositional(call);
    assert DecodeBatch(signed.authorization.executionPayload)
        == Some(AtomicBatch("2.0", UuidText(idempotencyId), BATCH_METHOD, BATCH_NAME, BATCH_CONTRACT, [call]));
  }
}
