/** What every reachable world has stored, sent and reported, field by field. */
module Contents {
  import opened Records
  import opened Uncertain
  import opened Receipts
  import opened DurableStore
  import opened Protocol
  import opened Trails
  import opened ProtocolInvariant
  import opened Runs
  import opened Guarantees
  import opened Fields

  lemma IntentIs(executorId: string, signed: SignedAuthorization)
    ensures IntentSays(IntentOf(executorId, signed), executorId, signed)
  {
  }

  lemma RequestIs(executorId: string, signed: SignedAuthorization)
    ensures RequestSays(RequestOf(executorId, signed), executorId, signed.authorization)
  {
  }

  lemma HandleIs(client: Client, signed: SignedAuthorization, reason: UncertainReason)
    ensures HandleSays(HandleOf(client, signed, reason), reason, client.lookupRegistered, client.executorId,
                       signed.authorization)
  {
  }

  /** Every stored intent spells out the bindings of the authorization it carries. */
  lemma IntentContents(c: Crypto, w: World, intent: ExecutionIntent)
    requires Reachable(c, w) && intent in w.store.intents
    ensures IntentSays(intent, intent.executorId, intent.authorization)
  {
    hide Reachable, Orderly, ThreadsOk, Exclusive, Attributed, Quiet, IntentOf;
    ReachableOk(c, w);
    IntentLogged(w.log, intent);
    var k :| 0 <= k < |w.log| && w.log[k] == Admitted(intent);
    OrderlyAt(c, w.log, k);
    IntentIs(intent.executorId, intent.authorization);
  }

  /**
   Every executor call names the calling client's own executor and carries the ids and the payload of an authorization
   that was accepted, whose intent for that executor was stored before.
   */
  lemma RequestContents(c: Crypto, w: World, k: nat) returns (signed: SignedAuthorization, intent: ExecutionIntent)
    requires Reachable(c, w) && k < |w.log| && w.log[k].Invoked?
    ensures w.log[k].thread < |w.threads|
    ensures var client := w.threads[w.log[k].thread].client;
            && RequestSays(w.log[k].request, client.executorId, signed.authorization)
            && Admitted(intent) in w.log[..k]
            && IntentSays(intent, client.executorId, intent.authorization)
            && RequestSays(w.log[k].request, intent.executorId, intent.authorization.authorization)
  {
    hide Reachable, IntentOf, RequestOf;
    signed := ReleasedExactly(c, w, k);
    intent := InvokedExactly(c, w, k);
    var client := w.threads[w.log[k].thread].client;
    RequestIs(client.executorId, signed);
    RequestIs(intent.executorId, intent.authorization);
    IntentIs(intent.executorId, intent.authorization);
  }

  /**
   Every stored completion records an effect that was returned or looked up: its result and effect id, the result's
   hash, and a signed receipt of the same, under a stored intent for the same executor.
   */
  lemma CompletionContents(c: Crypto, w: World, x: ExecutionCompletion)
    returns (key: string, signed: SignedAuthorization, effect: ExecutionEffect)
    requires Reachable(c, w) && x in w.store.completions
    ensures CompletionSays(c, x, key, x.executorId, signed, effect)
    ensures Reported(w.log, x.authorizationId, effect)
    ensures exists intent :: intent in w.store.intents && IntentSays(intent, x.executorId, signed)
    ensures x.actualResultSha256 == x.receipt.resultSha256 && x.effectId == x.receipt.effectId
  {
    hide Reachable, Orderly, CompletionOf, IntentOf, CompletionSays;
    ReachableOk(c, w);
    CompletionLogged(w.log, x);
    var k :| 0 <= k < |w.log| && w.log[k].Committed? && w.log[k].completion == x;
    OrderlyAt(c, w.log, k);
    var executorId;
    key, executorId, signed, effect :| CompletionFor(c, w.log[..k], x, key, executorId, signed, effect);
    CompletionIs(c, key, executorId, signed, effect);
    CompletionAgrees(c, x, key, executorId, signed, effect);
    IntentIs(executorId, signed);
    IntentLogged(w.log, IntentOf(executorId, signed));
    var m :| 0 <= m < |w.log[..k]| && Reports(w.log[..k][m], IdOf(signed), effect);
    assert w.log[m] == w.log[..k][m];
  }

  lemma CompletionAgrees(c: Crypto, x: ExecutionCompletion, key: string, executorId: string,
                         signed: SignedAuthorization, effect: ExecutionEffect)
    requires CompletionSays(c, x, key, executorId, signed, effect)
    ensures x.executorId == executorId && x.authorizationId == IdOf(signed)
    ensures x.actualResultSha256 == x.receipt.resultSha256 && x.effectId == x.receipt.effectId
  {
  }

  /** Every pending entry is the receipt of a completion, under the outbox id of its authorization. */
  lemma EntryContents(c: Crypto, w: World, entry: OutboxEntry) returns (x: ExecutionCompletion)
    requires Reachable(c, w) && entry in w.store.pending
    ensures x in w.store.completions && EntrySays(entry, x)
  {
    hide Reachable, Queued;
    ReachableOk(c, w);
    PendingEnqueued(w.store, entry);
    x :| x in w.store.completions && EntryOf(x) == entry;
  }

  /**
   A reported success is in the store as it was reported: the completion that was committed records the outcome's
   result and effect id for the client's own executor, and the outcome's receipt confirms that completion.
   */
  lemma SuccessContents(c: Crypto, w: World, i: nat)
    returns (x: ExecutionCompletion, signed: SignedAuthorization, effect: ExecutionEffect)
    requires Reachable(c, w)
    requires i < |w.threads| && w.threads[i].pc.Finished? && w.threads[i].pc.result.Completed?
    ensures var client, outcome := w.threads[i].client, w.threads[i].pc.result.outcome;
            && x in w.store.completions
            && CompletionSays(c, x, client.key, client.executorId, signed, effect)
            && x.actualResult == outcome.result && x.effectId == outcome.effectId
            && outcome.receipt.authorizationId == x.authorizationId
            && outcome.receipt.contract == "clavenar.execution/v1" && outcome.receipt.stage == "execution.completed"
  {
    hide Reachable, Orderly, CompletionOf, IntentOf, CompletionSays, Fits, Success, Acknowledges, OwnCompletion;
    var origin;
    signed, effect, origin := SuccessIsHonest(c, w, i);
    ReachableOk(c, w);
    var client, outcome := w.threads[i].client, w.threads[i].pc.result.outcome;
    x := OwnCompletion(c, client, signed, effect);
    SuccessCommits(c, i, client, signed, effect, origin, outcome.receipt, w.log);
    CompletionLogged(w.log, x);
    OwnSays(c, client, signed, effect);
    var k :| 0 <= k < |w.log| && w.log[k] == Confirmed(i, EntryOf(x), outcome.receipt);
    OrderlyAt(c, w.log, k);
    ConfirmationIs(c, x, client, signed, effect, outcome.receipt);
  }

  lemma ConfirmationIs(c: Crypto, x: ExecutionCompletion, client: Client, signed: SignedAuthorization,
                       effect: ExecutionEffect, recorded: ReceiptRecorded)
    requires x == OwnCompletion(c, client, signed, effect) && Acknowledges(EntryOf(x), recorded)
    ensures recorded.authorizationId == x.authorizationId
    ensures recorded.contract == "clavenar.execution/v1" && recorded.stage == "execution.completed"
  {
  }

  lemma OwnSays(c: Crypto, client: Client, signed: SignedAuthorization, effect: ExecutionEffect)
    ensures var x := OwnCompletion(c, client, signed, effect);
            && CompletionSays(c, x, client.key, client.executorId, signed, effect)
            && x.actualResult == effect.result && x.effectId == effect.effectId
  {
    hide CompletionOf;
    CompletionIs(c, client.key, client.executorId, signed, effect);
  }

  lemma SuccessCommits(c: Crypto, i: nat, client: Client, signed: SignedAuthorization, effect: ExecutionEffect,
                       origin: Origin, recorded: ReceiptRecorded, log: seq<Event>)
    requires Subseq(Success(c, i, client, signed, effect, origin, recorded), log)
    ensures Completes(log, OwnCompletion(c, client, signed, effect))
    ensures Confirmed(i, EntryOf(OwnCompletion(c, client, signed, effect)), recorded) in log
  {
    hide Opening, OwnCompletion, Subseq;
    var trail := Success(c, i, client, signed, effect, origin, recorded);
    var n := |Opening(i, client, signed, effect, origin)|;
    var x := OwnCompletion(c, client, signed, effect);
    assert trail[n] == Committed(i, x) && trail[n + 1] == Confirmed(i, EntryOf(x), recorded);
    SubseqMember(trail, log, trail[n]);
    SubseqMember(trail, log, trail[n + 1]);
    var k :| 0 <= k < |log| && log[k] == Committed(i, x);
  }

  /** The handle of an uncertain execution names the accepted authorization and the client's own executor. */
  lemma HandleContents(c: Crypto, w: World, i: nat) returns (signed: SignedAuthorization)
    requires Reachable(c, w) && i < |w.threads| && Governed(w.threads[i].op)
    requires w.threads[i].pc.Finished? && w.threads[i].pc.result.StillUncertain?
    ensures var client, u := w.threads[i].client, w.threads[i].pc.result.handle;
            HandleSays(u, u.reason, client.lookupRegistered, client.executorId, signed.authorization)
  {
    hide Reachable, Orderly, HandleOf, StoreOk, Exclusive, Attributed, Quiet, Granting;
    ReachableOk(c, w);
    var t := w.threads[i];
    assert ThreadOk(c, i, t, w.log);
    signed :| NamesWith(c, t.client, t.op, w.log, t.pc.result.handle, signed);
    HandleIs(t.client, signed, t.pc.result.handle.reason);
  }
}
