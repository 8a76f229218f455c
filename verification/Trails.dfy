/** Ordered facts about the log of a run: subsequences, projections and the order every event obeys. */
module Trails {
  import opened Uuids
  import opened Records
  import opened Batches
  import opened Uncertain
  import opened Receipts
  import opened DurableStore
  import opened Protocol

  // ---------------------------------------------------------------- subsequences

  /** The events of `trail` occur in the log in this order. */
  ghost predicate Subseq(trail: seq<Event>, log: seq<Event>) {
    trail == []
    || (log != []
        && ((trail[|trail| - 1] == log[|log| - 1] && Subseq(trail[..|trail| - 1], log[..|log| - 1]))
            || Subseq(trail, log[..|log| - 1])))
  }

  lemma SubseqGrow(trail: seq<Event>, log: seq<Event>, e: Event)
    requires Subseq(trail, log)
    ensures Subseq(trail, log + [e])
  {
    assert (log + [e])[..|log|] == log;
  }

  lemma SubseqExtend(trail: seq<Event>, log: seq<Event>, e: Event)
    requires Subseq(trail, log)
    ensures Subseq(trail + [e], log + [e])
  {
    assert (log + [e])[..|log|] == log;
    assert (trail + [e])[..|trail|] == trail;
  }

  lemma {:induction false} SubseqMember(trail: seq<Event>, log: seq<Event>, x: Event)
    requires Subseq(trail, log) && x in trail
    ensures x in log
  {
    var n := |log| - 1;
    assert log == log[..n] + [log[n]];
    if trail[|trail| - 1] == log[n] && Subseq(trail[..|trail| - 1], log[..n]) {
      assert trail == trail[..|trail| - 1] + [trail[|trail| - 1]];
      if x != log[n] {
        SubseqMember(trail[..|trail| - 1], log[..n], x);
      }
    } else {
      SubseqMember(trail, log[..n], x);
    }
  }

  lemma {:induction false} MemberSubseq(log: seq<Event>, x: Event)
    requires x in log
    ensures Subseq([x], log)
  {
    var n := |log| - 1;
    assert log == log[..n] + [log[n]];
    if x == log[n] {
      assert [x][..0] == [];
    } else {
      MemberSubseq(log[..n], x);
    }
  }

  // ---------------------------------------------------------------- projections

  function Intents(log: seq<Event>): seq<ExecutionIntent> {
    if log == [] then []
    else
      var rest, e := Intents(log[..|log| - 1]), log[|log| - 1];
      if e.Admitted? then rest + [e.intent] else rest
  }

  function Completions(log: seq<Event>): seq<ExecutionCompletion> {
    if log == [] then []
    else
      var rest, e := Completions(log[..|log| - 1]), log[|log| - 1];
      if e.Committed? then rest + [e.completion] else rest
  }

  function Deliveries(log: seq<Event>): seq<(string, ReceiptRecorded)> {
    if log == [] then []
    else
      var rest, e := Deliveries(log[..|log| - 1]), log[|log| - 1];
      if e.Delivered? then rest + [(e.outboxId, e.recorded)] else rest
  }

  lemma ProjectAppend(log: seq<Event>, e: Event)
    ensures Intents(log + [e]) == if e.Admitted? then Intents(log) + [e.intent] else Intents(log)
    ensures Completions(log + [e]) == if e.Committed? then Completions(log) + [e.completion] else Completions(log)
    ensures Deliveries(log + [e])
         == if e.Delivered? then Deliveries(log) + [(e.outboxId, e.recorded)] else Deliveries(log)
  {
    assert (log + [e])[..|log|] == log;
  }

  lemma {:induction false} IntentLogged(log: seq<Event>, intent: ExecutionIntent)
    ensures intent in Intents(log) <==> Admitted(intent) in log
  {
    if log != [] {
      var n := |log| - 1;
      IntentLogged(log[..n], intent);
      assert log == log[..n] + [log[n]];
    }
  }

  ghost predicate Completes(log: seq<Event>, completion: ExecutionCompletion) {
    exists k :: 0 <= k < |log| && log[k].Committed? && log[k].completion == completion
  }

  lemma {:induction false} CompletionLogged(log: seq<Event>, completion: ExecutionCompletion)
    ensures completion in Completions(log) <==> Completes(log, completion)
  {
    if log != [] {
      var n := |log| - 1;
      CompletionLogged(log[..n], completion);
      if Completes(log[..n], completion) {
        var k :| 0 <= k < n && log[..n][k].Committed? && log[..n][k].completion == completion;
        assert log[k] == log[..n][k];
      }
      if Completes(log, completion) {
        var k :| 0 <= k < |log| && log[k].Committed? && log[k].completion == completion;
        assert k < n ==> log[..n][k] == log[k];
      }
    }
  }

  // ---------------------------------------------------------------- the discipline of the log

  ghost predicate WasAdmitted(log: seq<Event>, id: Uuid) {
    exists k :: 0 <= k < |log| && log[k].Admitted? && log[k].intent.authorizationId == id
  }

  ghost predicate WasCommitted(log: seq<Event>, id: Uuid) {
    exists k :: 0 <= k < |log| && log[k].Committed? && log[k].completion.authorizationId == id
  }

  ghost predicate WasInvoked(log: seq<Event>, id: Uuid) {
    exists k :: 0 <= k < |log| && log[k].Invoked? && log[k].request.authorizationId == id
  }

  /** An admitted intent in the past whose exact payload this request carries. */
  ghost predicate ForAdmitted(past: seq<Event>, request: ToolExecutionRequest) {
    exists k :: 0 <= k < |past| && past[k].Admitted?
             && request == RequestOf(past[k].intent.executorId, past[k].intent.authorization)
  }

  /** An executor returned this effect of an authorization, or a lookup found it. */
  ghost predicate Reported(past: seq<Event>, id: Uuid, effect: ExecutionEffect) {
    exists k :: 0 <= k < |past| && Reports(past[k], id, effect)
  }

  predicate Reports(e: Event, id: Uuid, effect: ExecutionEffect) {
    (e.Returned? || e.LookedUp?) && e.authorizationId == id && e.effect == effect
  }

  /** A completion built from an admitted authorization and an effect its executor or its lookup reported. */
  ghost predicate CompletionFor(c: Crypto, past: seq<Event>, x: ExecutionCompletion, key: string, executorId: string,
                                signed: SignedAuthorization, effect: ExecutionEffect)
  {
    && x == CompletionOf(c, key, executorId, signed, effect)
    && Admitted(IntentOf(executorId, signed)) in past
    && Reported(past, signed.authorization.authorizationId, effect)
  }

  ghost predicate KnownEffect(c: Crypto, past: seq<Event>, x: ExecutionCompletion) {
    exists key, executorId, signed, effect :: CompletionFor(c, past, x, key, executorId, signed, effect)
  }

  ghost predicate ForCommitted(past: seq<Event>, entry: OutboxEntry, recorded: ReceiptRecorded) {
    exists k :: 0 <= k < |past| && past[k].Committed? && EntryOf(past[k].completion) == entry
             && past[k].completion.authorizationId == recorded.authorizationId
  }

  /** The Proxy confirmed an entry with this outbox id in these words. */
  ghost predicate WasConfirmed(past: seq<Event>, outboxId: string, recorded: ReceiptRecorded) {
    exists k :: 0 <= k < |past| && past[k].Confirmed?
                && past[k].entry.outboxId == outboxId && past[k].recorded == recorded
  }

  /** What must already have happened for an event to happen. */
  ghost predicate Timely(c: Crypto, past: seq<Event>, e: Event) {
    match e
    case Authorized(_) => true
    case Admitted(intent) =>
      && !WasAdmitted(past, intent.authorizationId)
      && intent == IntentOf(intent.executorId, intent.authorization)
      && ValidExecutorId(intent.executorId) && ValidAuthorization(c, intent.authorization, intent.idempotencyId)
      && Authorized(intent.authorization) in past
    case Invoked(_, request) => !WasInvoked(past, request.authorizationId) && ForAdmitted(past, request)
    case Returned(_, id, _) => WasInvoked(past, id)
    case LookedUp(_, id, _) => WasAdmitted(past, id)
    case Committed(_, x) => KnownEffect(c, past, x)
    case Confirmed(_, entry, recorded) => ForCommitted(past, entry, recorded) && Acknowledges(entry, recorded)
    case Delivered(_, outboxId, recorded) => WasConfirmed(past, outboxId, recorded)
  }

  /** Every event of the log happened in time. */
  ghost predicate Orderly(c: Crypto, log: seq<Event>) {
    log == [] || (Orderly(c, log[..|log| - 1]) && Timely(c, log[..|log| - 1], log[|log| - 1]))
  }

  lemma OrderlyAppend(c: Crypto, log: seq<Event>, e: Event)
    requires Orderly(c, log) && Timely(c, log, e)
    ensures Orderly(c, log + [e])
  {
    assert (log + [e])[..|log|] == log;
  }

  lemma {:induction false} OrderlyAt(c: Crypto, log: seq<Event>, k: nat)
    requires Orderly(c, log) && k < |log|
    ensures Timely(c, log[..k], log[k])
  {
    var n := |log| - 1;
    if k < n {
      OrderlyAt(c, log[..n], k);
      assert log[..n][..k] == log[..k];
    }
  }

  lemma InvokedAppend(log: seq<Event>, e: Event, id: Uuid)
    ensures WasInvoked(log + [e], id) <==> WasInvoked(log, id) || (e.Invoked? && e.request.authorizationId == id)
  {
    var longer := log + [e];
    if WasInvoked(log, id) {
      var k :| 0 <= k < |log| && log[k].Invoked? && log[k].request.authorizationId == id;
      assert longer[k] == log[k];
    }
    if e.Invoked? && e.request.authorizationId == id {
      assert longer[|log|] == e;
    }
  }

  lemma CommittedGrow(log: seq<Event>, e: Event, id: Uuid)
    requires WasCommitted(log, id)
    ensures WasCommitted(log + [e], id)
  {
    var k :| 0 <= k < |log| && log[k].Committed? && log[k].completion.authorizationId == id;
    assert (log + [e])[k] == log[k];
  }

  lemma CommittedIds(log: seq<Event>, id: Uuid)
    ensures id in CompletedIds(Completions(log)) <==> WasCommitted(log, id)
  {
    if id in CompletedIds(Completions(log)) {
      var x :| x in Completions(log) && x.authorizationId == id;
      CompletionLogged(log, x);
      var k :| 0 <= k < |log| && log[k].Committed? && log[k].completion == x;
    }
    if WasCommitted(log, id) {
      var k :| 0 <= k < |log| && log[k].Committed? && log[k].completion.authorizationId == id;
      CompletionLogged(log, log[k].completion);
    }
  }

  /** Every intent id is admitted and conversely. */
  lemma AdmittedIds(log: seq<Event>, id: Uuid)
    ensures id in IntentIds(Intents(log)) <==> WasAdmitted(log, id)
  {
    if id in IntentIds(Intents(log)) {
      var x :| x in Intents(log) && x.authorizationId == id;
      IntentLogged(log, x);
      var k :| 0 <= k < |log| && log[k] == Admitted(x);
    }
    if WasAdmitted(log, id) {
      var k :| 0 <= k < |log| && log[k].Admitted? && log[k].intent.authorizationId == id;
      IntentLogged(log, log[k].intent);
    }
  }

  /** Nothing is invoked that was not admitted. */
  lemma InvokedWasAdmitted(c: Crypto, log: seq<Event>, id: Uuid)
    requires Orderly(c, log) && WasInvoked(log, id)
    ensures WasAdmitted(log, id)
  {
    var k :| 0 <= k < |log| && log[k].Invoked? && log[k].request.authorizationId == id;
    OrderlyAt(c, log, k);
    var j :| 0 <= j < |log[..k]| && log[..k][j].Admitted?
          && log[k].request == RequestOf(log[..k][j].intent.executorId, log[..k][j].intent.authorization);
    OrderlyAt(c, log, j);
    assert log[j].intent.authorizationId == id;
  }
}
