/**
 The reference durable store: its state, what each mutex-held method does to it, the invariants every method
 keeps, and the class that does it in place.
 */
module DurableStore {
  import opened Wrappers
  import opened Uuids
  import opened Records
  import opened Receipts

  datatype StoreState = StoreState(
    intents: seq<ExecutionIntent>,
    completions: seq<ExecutionCompletion>,
    pending: seq<OutboxEntry>,
    delivered: seq<(string, ReceiptRecorded)>,
    claimed: set<Uuid>,
    inFlight: set<Uuid>,
    completed: set<Uuid>)

  const EMPTY_STORE := StoreState([], [], [], [], {}, {}, {})

  datatype StoreError = IntentStoreUnavailable | IntentSubstitution | NotPending

  // ---------------------------------------------------------------- atomic operations

  function FindIntent(intents: seq<ExecutionIntent>, authorizationId: Uuid): (r: Option<ExecutionIntent>)
    ensures r.Some? ==> r.value in intents && r.value.authorizationId == authorizationId
    ensures r.None? <==> forall x :: x in intents ==> x.authorizationId != authorizationId
  {
    if intents == [] then None
    else if intents[0].authorizationId == authorizationId then Some(intents[0])
    else FindIntent(intents[1..], authorizationId)
  }

  /** `begin_effect_attempt`. */
  function BeginAttempt(s: StoreState, intent: ExecutionIntent, use: AuthorizationUse)
    : (StoreState, Result<AttemptClaim, StoreError>)
  {
    var id := intent.authorizationId;
    var existing := FindIntent(s.intents, id);
    if existing.Some? && existing.value != intent then (s, Err(IntentSubstitution))
    else if id in s.completed then (s, Ok(AlreadyCompleted))
    else if id in s.inFlight then (s, Ok(AlreadyInFlight))
    else if use == SingleUse && id in s.claimed then (s, Ok(AlreadyInFlight))
    else
      (s.(claimed := if use == SingleUse then s.claimed + {id} else s.claimed,
          intents := s.intents + [intent],
          inFlight := s.inFlight + {id}),
       Ok(Started))
  }

  /** `load_uncertain_intent`. */
  function LoadUncertain(s: StoreState, authorizationId: Uuid): Option<ExecutionIntent> {
    if authorizationId in s.inFlight then FindIntent(s.intents, authorizationId) else None
  }

  function EntryOf(completion: ExecutionCompletion): OutboxEntry {
    OutboxEntry(OutboxIdOf(completion.authorizationId), completion.receipt)
  }

  /** `commit_effect_and_enqueue_receipt`: the completion and its outbox entry in one step. */
  function CommitEffect(s: StoreState, completion: ExecutionCompletion): StoreState {
    s.(inFlight := s.inFlight - {completion.authorizationId},
       completed := s.completed + {completion.authorizationId},
       completions := s.completions + [completion],
       pending := s.pending + [EntryOf(completion)])
  }

  /** `pending_receipts`. */
  function PendingReceipts(s: StoreState, limit: nat): seq<OutboxEntry> {
    if |s.pending| <= limit then s.pending else s.pending[..limit]
  }

  /** Position of the first pending entry with an outbox id. */
  function PositionOf(pending: seq<OutboxEntry>, outboxId: string): (r: Option<nat>)
    ensures r.Some? ==> r.value < |pending| && pending[r.value].outboxId == outboxId
    ensures r.Some? ==> forall k :: 0 <= k < r.value ==> pending[k].outboxId != outboxId
    ensures r.None? <==> forall k :: 0 <= k < |pending| ==> pending[k].outboxId != outboxId
  {
    if pending == [] then None
    else if pending[0].outboxId == outboxId then Some(0)
    else
      var rest := PositionOf(pending[1..], outboxId);
      assert forall k :: 0 <= k < |pending[1..]| ==> pending[1..][k] == pending[k + 1];
      if rest.None? then None else Some(rest.value + 1)
  }

  function Without<T>(s: seq<T>, i: nat): seq<T>
    requires i < |s|
  {
    s[..i] + s[i + 1..]
  }

  /** `mark_receipt_delivered`. */
  function MarkDelivered(s: StoreState, outboxId: string, recorded: ReceiptRecorded)
    : (StoreState, Result<(), StoreError>)
  {
    var at := PositionOf(s.pending, outboxId);
    if at.None? then (s, Err(NotPending))
    else
      (s.(pending := Without(s.pending, at.value), delivered := s.delivered + [(outboxId, recorded)]), Ok(()))
  }

  // ---------------------------------------------------------------- invariants

  function IntentIds(intents: seq<ExecutionIntent>): set<Uuid> {
    set x | x in intents :: x.authorizationId
  }

  function CompletedIds(completions: seq<ExecutionCompletion>): set<Uuid> {
    set x | x in completions :: x.authorizationId
  }

  ghost predicate DistinctIntents(intents: seq<ExecutionIntent>) {
    forall i, j :: 0 <= i < j < |intents| ==> intents[i].authorizationId != intents[j].authorizationId
  }

  function CompletionIds(completions: seq<ExecutionCompletion>): seq<string> {
    seq(|completions|, i requires 0 <= i < |completions| => OutboxIdOf(completions[i].authorizationId))
  }

  function PendingIds(pending: seq<OutboxEntry>): seq<string> {
    seq(|pending|, i requires 0 <= i < |pending| => pending[i].outboxId)
  }

  function DeliveredIds(delivered: seq<(string, ReceiptRecorded)>): seq<string> {
    seq(|delivered|, i requires 0 <= i < |delivered| => delivered[i].0)
  }

  function EntriesOf(completions: seq<ExecutionCompletion>): seq<OutboxEntry> {
    seq(|completions|, i requires 0 <= i < |completions| => EntryOf(completions[i]))
  }

  /** The entries with an outbox id, in order. */
  function Under(entries: seq<OutboxEntry>, outboxId: string): seq<OutboxEntry> {
    if entries == [] then []
    else
      var rest, last := Under(entries[..|entries| - 1], outboxId), entries[|entries| - 1];
      if last.outboxId == outboxId then rest + [last] else rest
  }

  /** How often an outbox id was marked delivered. */
  function Marks(delivered: seq<(string, ReceiptRecorded)>, outboxId: string): nat {
    multiset(DeliveredIds(delivered))[outboxId]
  }

  /** What the completions enqueued under an outbox id, less one entry from the front for every mark. */
  function Remaining(s: StoreState, outboxId: string): seq<OutboxEntry> {
    var all, n := Under(EntriesOf(s.completions), outboxId), Marks(s.delivered, outboxId);
    if n <= |all| then all[n..] else []
  }

  /** The outbox is one queue per outbox id. */
  ghost predicate Queued(s: StoreState) {
    forall outboxId :: Marks(s.delivered, outboxId) <= |Under(EntriesOf(s.completions), outboxId)|
                       && Under(s.pending, outboxId) == Remaining(s, outboxId)
  }

  ghost predicate Enqueued(entry: OutboxEntry, completions: seq<ExecutionCompletion>) {
    exists x :: x in completions && EntryOf(x) == entry
  }

  ghost predicate WellFormed(s: StoreState) {
    && DistinctIntents(s.intents)
    && s.inFlight !! s.completed
    && s.inFlight + s.completed == IntentIds(s.intents)
    && s.claimed <= s.inFlight + s.completed
    && s.completed == CompletedIds(s.completions)
    && Queued(s)
  }

  lemma EmptyWellFormed()
    ensures WellFormed(EMPTY_STORE)
  {
  }

  lemma IntentIdsAppend(intents: seq<ExecutionIntent>, intent: ExecutionIntent)
    ensures IntentIds(intents + [intent]) == IntentIds(intents) + {intent.authorizationId}
  {
    forall id | id in IntentIds(intents) + {intent.authorizationId} ensures id in IntentIds(intents + [intent]) {
      if id in IntentIds(intents) {
        var x :| x in intents && x.authorizationId == id;
        assert x in intents + [intent];
      } else {
        assert intent in intents + [intent];
      }
    }
  }

  /**
   The answer to every attempt: it starts exactly when the authorization has no stored intent, is in flight or completed
   exactly when this very intent is stored and is so, and is refused exactly when another intent is stored for it. Only
   a start changes the state.
   */
  lemma BeginKeeps(s: StoreState, intent: ExecutionIntent, use: AuthorizationUse)
    requires WellFormed(s)
    ensures var (t, claim) := BeginAttempt(s, intent, use);
            && WellFormed(t)
            && (claim == Ok(Started) <==> intent.authorizationId !in IntentIds(s.intents))
            && (claim == Ok(Started) ==>
                  t.intents == s.intents + [intent] && t.inFlight == s.inFlight + {intent.authorizationId})
            && (claim != Ok(Started) ==> t == s)
            && (claim == Ok(AlreadyInFlight) <==> intent in s.intents && intent.authorizationId in s.inFlight)
            && (claim == Ok(AlreadyCompleted) <==> intent in s.intents && intent.authorizationId in s.completed)
            && (claim.Err? <==>
                  exists x :: x in s.intents && x.authorizationId == intent.authorizationId && x != intent)
            && (claim.Err? ==> claim == Err(IntentSubstitution))
            && t.claimed == (if claim == Ok(Started) && use == SingleUse then s.claimed + {intent.authorizationId}
                             else s.claimed)
            && t.completions == s.completions && t.delivered == s.delivered && t.pending == s.pending
            && t.completed == s.completed
  {
    var id := intent.authorizationId;
    if id !in IntentIds(s.intents) {
      IntentIdsAppend(s.intents, intent);
      forall i | 0 <= i < |s.intents| ensures s.intents[i].authorizationId != id {
        assert s.intents[i] in s.intents;
      }
    } else {
      var x :| x in s.intents && x.authorizationId == id;
    }
  }

  /** What is loaded: exactly the stored intent of an authorization that is in flight. */
  lemma LoadsExactly(s: StoreState, authorizationId: Uuid, intent: ExecutionIntent)
    requires WellFormed(s)
    ensures LoadUncertain(s, authorizationId) == Some(intent) <==>
              intent in s.intents && intent.authorizationId == authorizationId && authorizationId in s.inFlight
    ensures LoadUncertain(s, authorizationId).None? <==> authorizationId !in s.inFlight
  {
    hide Queued;
    if authorizationId in s.inFlight {
      assert authorizationId in IntentIds(s.intents);
      if intent in s.intents && intent.authorizationId == authorizationId {
        var found := FindIntent(s.intents, authorizationId).value;
        var i :| 0 <= i < |s.intents| && s.intents[i] == intent;
        var j :| 0 <= j < |s.intents| && s.intents[j] == found;
      }
    }
  }

  lemma CompletedIdsAppend(completions: seq<ExecutionCompletion>, completion: ExecutionCompletion)
    ensures CompletedIds(completions + [completion]) == CompletedIds(completions) + {completion.authorizationId}
  {
    forall id | id in CompletedIds(completions) + {completion.authorizationId}
      ensures id in CompletedIds(completions + [completion])
    {
      if id in CompletedIds(completions) {
        var x :| x in completions && x.authorizationId == id;
        assert x in completions + [completion];
      } else {
        assert completion in completions + [completion];
      }
    }
  }

  lemma CommitQueues(s: StoreState, completion: ExecutionCompletion)
    requires Queued(s)
    ensures Queued(CommitEffect(s, completion))
  {
    hide Marks;
    var t, entry := CommitEffect(s, completion), EntryOf(completion);
    var before, after := EntriesOf(s.completions), EntriesOf(t.completions);
    assert after == before + [entry];
    forall outboxId
      ensures Marks(t.delivered, outboxId) <= |Under(after, outboxId)|
      ensures Under(t.pending, outboxId) == Remaining(t, outboxId)
    {
      assert after[..|before|] == before && t.pending[..|s.pending|] == s.pending;
      assert Marks(s.delivered, outboxId) <= |Under(before, outboxId)|;
    }
  }

  lemma CommitKeeps(s: StoreState, completion: ExecutionCompletion)
    requires WellFormed(s) && completion.authorizationId in s.inFlight + s.completed
    ensures WellFormed(CommitEffect(s, completion))
  {
    hide Queued;
    var t := CommitEffect(s, completion);
    assert t.inFlight + t.completed == s.inFlight + s.completed;
    CompletedIdsAppend(s.completions, completion);
    CommitQueues(s, completion);
  }

  lemma {:induction false} UnderConcat(a: seq<OutboxEntry>, b: seq<OutboxEntry>, outboxId: string)
    ensures Under(a + b, outboxId) == Under(a, outboxId) + Under(b, outboxId)
  {
    if b == [] {
      assert a + b == a;
    } else {
      var n := |b| - 1;
      UnderConcat(a, b[..n], outboxId);
      assert (a + b)[..|a + b| - 1] == a + b[..n];
    }
  }

  lemma {:induction false} UnderMembers(entries: seq<OutboxEntry>, outboxId: string, entry: OutboxEntry)
    ensures entry in Under(entries, outboxId) <==> entry in entries && entry.outboxId == outboxId
  {
    if entries != [] {
      var n := |entries| - 1;
      UnderMembers(entries[..n], outboxId, entry);
      assert entries == entries[..n] + [entries[n]];
    }
  }

  lemma UnderOne(entry: OutboxEntry, outboxId: string)
    ensures Under([entry], outboxId) == if entry.outboxId == outboxId then [entry] else []
  {
    assert [entry][..0] == [];
  }

  /** Removing the first entry with an outbox id takes the head of its queue and leaves the other queues alone. */
  lemma UnderWithout(entries: seq<OutboxEntry>, i: nat, outboxId: string)
    requires i < |entries| && forall k :: 0 <= k < i ==> entries[k].outboxId != entries[i].outboxId
    ensures Under(entries, outboxId)
         == if outboxId == entries[i].outboxId then [entries[i]] + Under(Without(entries, i), outboxId)
            else Under(Without(entries, i), outboxId)
  {
    hide Under;
    var head, tail := entries[..i], entries[i + 1..];
    assert entries == head + ([entries[i]] + tail);
    UnderConcat(head, [entries[i]] + tail, outboxId);
    UnderConcat([entries[i]], tail, outboxId);
    UnderConcat(head, tail, outboxId);
    UnderOne(entries[i], outboxId);
    if outboxId == entries[i].outboxId && Under(head, outboxId) != [] {
      UnderMembers(head, outboxId, Under(head, outboxId)[0]);
    }
  }

  lemma MarksAppend(delivered: seq<(string, ReceiptRecorded)>, one: (string, ReceiptRecorded), outboxId: string)
    ensures Marks(delivered + [one], outboxId) == Marks(delivered, outboxId) + (if one.0 == outboxId then 1 else 0)
  {
    assert DeliveredIds(delivered + [one]) == DeliveredIds(delivered) + [one.0];
  }

  lemma MarkQueues(s: StoreState, outboxId: string, recorded: ReceiptRecorded)
    requires Queued(s)
    ensures Queued(MarkDelivered(s, outboxId, recorded).0)
  {
    hide Marks, Under;
    var at := PositionOf(s.pending, outboxId);
    if at.Some? {
      var t := MarkDelivered(s, outboxId, recorded).0;
      forall id
        ensures Marks(t.delivered, id) <= |Under(EntriesOf(t.completions), id)|
        ensures Under(t.pending, id) == Remaining(t, id)
      {
        MarksAppend(s.delivered, (outboxId, recorded), id);
        UnderWithout(s.pending, at.value, id);
        assert Under(s.pending, id) == Remaining(s, id);
      }
    }
  }

  lemma MarkKeeps(s: StoreState, outboxId: string, recorded: ReceiptRecorded)
    requires WellFormed(s)
    ensures WellFormed(MarkDelivered(s, outboxId, recorded).0)
  {
    hide Queued;
    MarkQueues(s, outboxId, recorded);
  }

  // ---------------------------------------------------------------- what the queues say

  /** Every pending entry was enqueued by a completion. */
  lemma PendingEnqueued(s: StoreState, entry: OutboxEntry)
    requires Queued(s) && entry in s.pending
    ensures Enqueued(entry, s.completions)
  {
    var all := EntriesOf(s.completions);
    UnderMembers(s.pending, entry.outboxId, entry);
    assert entry in Under(all, entry.outboxId);
    UnderMembers(all, entry.outboxId, entry);
    var k :| 0 <= k < |all| && all[k] == entry;
    assert s.completions[k] in s.completions;
  }

  /** An entry is pending exactly when its queue still holds it. */
  lemma PendingExactly(s: StoreState, entry: OutboxEntry)
    requires Queued(s)
    ensures entry in s.pending <==> entry in Remaining(s, entry.outboxId)
  {
    UnderMembers(s.pending, entry.outboxId, entry);
  }

  lemma {:induction false} UnderCount(entries: seq<OutboxEntry>, outboxId: string)
    ensures |Under(entries, outboxId)| == multiset(PendingIds(entries))[outboxId]
  {
    if entries != [] {
      var n := |entries| - 1;
      UnderCount(entries[..n], outboxId);
      assert PendingIds(entries) == PendingIds(entries[..n]) + [entries[n].outboxId];
    }
  }

  /** Counted by outbox id, the receipts of all completions are the pending ones and the delivered ones. */
  lemma QueuesConserve(s: StoreState)
    requires Queued(s)
    ensures multiset(CompletionIds(s.completions))
         == multiset(PendingIds(s.pending)) + multiset(DeliveredIds(s.delivered))
  {
    hide Under;
    assert PendingIds(EntriesOf(s.completions)) == CompletionIds(s.completions);
    forall outboxId
      ensures multiset(CompletionIds(s.completions))[outboxId]
           == (multiset(PendingIds(s.pending)) + multiset(DeliveredIds(s.delivered)))[outboxId]
    {
      UnderCount(EntriesOf(s.completions), outboxId);
      UnderCount(s.pending, outboxId);
      assert Under(s.pending, outboxId) == Remaining(s, outboxId);
    }
  }

  /**
   Marking removes the first pending entry with the outbox id. That is the entry that was delivered exactly when
   no other entry stands before it under the same outbox id.
   */
  lemma MarkRemovesDelivered(s: StoreState, i: nat, recorded: ReceiptRecorded)
    requires i < |s.pending|
    ensures var t := MarkDelivered(s, s.pending[i].outboxId, recorded).0;
            |t.pending| == |s.pending| - 1
    ensures var t := MarkDelivered(s, s.pending[i].outboxId, recorded).0;
            var first := PositionOf(s.pending, s.pending[i].outboxId).value;
            t.pending == Without(s.pending, i) <==> forall k :: first <= k <= i ==> s.pending[k] == s.pending[i]
  {
    var first := PositionOf(s.pending, s.pending[i].outboxId).value;
    WithoutSame(s.pending, first, i);
  }

  lemma WithoutSame<T>(s: seq<T>, i: nat, j: nat)
    requires i <= j < |s|
    ensures Without(s, i) == Without(s, j) <==> forall k :: i <= k <= j ==> s[k] == s[j]
  {
    var a, b := Without(s, i), Without(s, j);
    if a == b {
      RunOfEqual(s, i, j);
    }
    if forall k :: i <= k <= j ==> s[k] == s[j] {
      forall k | 0 <= k < |a| ensures a[k] == b[k] {
        assert a[k] == if k < i then s[k] else s[k + 1];
        assert b[k] == if k < j then s[k] else s[k + 1];
      }
    }
  }

  lemma {:induction false} RunOfEqual<T>(s: seq<T>, i: nat, j: nat)
    requires i <= j < |s| && Without(s, i) == Without(s, j)
    ensures forall k :: i <= k <= j ==> s[k] == s[j]
    decreases j - i
  {
    var a, b := Without(s, i), Without(s, j);
    if i < j {
      assert a[i] == s[i + 1] && b[i] == s[i];
      assert Without(s, i + 1) == b by {
        forall k | 0 <= k < |b| ensures Without(s, i + 1)[k] == b[k] {
          assert a[k] == b[k];
        }
      }
      RunOfEqual(s, i + 1, j);
    }
  }

  // ---------------------------------------------------------------- the store object

  class MemoryExecutionStore {
    var intents: seq<ExecutionIntent>
    var completions: seq<ExecutionCompletion>
    var pending: seq<OutboxEntry>
    var delivered: seq<(string, ReceiptRecorded)>
    var claimedAuthorizations: set<Uuid>
    var inFlightAuthorizations: set<Uuid>
    var completedAuthorizations: set<Uuid>
    var failIntent: bool

    ghost function State(): StoreState
      reads this
    {
      StoreState(intents, completions, pending, delivered, claimedAuthorizations, inFlightAuthorizations,
                 completedAuthorizations)
    }

    constructor ()
      ensures State() == EMPTY_STORE && !failIntent
    {
      intents, completions, pending, delivered := [], [], [], [];
      claimedAuthorizations, inFlightAuthorizations, completedAuthorizations := {}, {}, {};
      failIntent := false;
    }

    method Find(authorizationId: Uuid) returns (found: Option<ExecutionIntent>)
      ensures found == FindIntent(intents, authorizationId)
    {
      for i := 0 to |intents|
        invariant FindIntent(intents, authorizationId) == FindIntent(intents[i..], authorizationId)
      {
        if intents[i].authorizationId == authorizationId {
          return Some(intents[i]);
        }
        assert intents[i..][1..] == intents[i + 1..];
      }
      return None;
    }

    method BeginEffectAttempt(intent: ExecutionIntent, use: AuthorizationUse)
      returns (claim: Result<AttemptClaim, StoreError>)
      modifies this
      ensures failIntent == old(failIntent)
      ensures failIntent ==> claim == Err(IntentStoreUnavailable) && State() == old(State())
      ensures !failIntent ==> (State(), claim) == BeginAttempt(old(State()), intent, use)
    {
      if failIntent {
        return Err(IntentStoreUnavailable);
      }
      var existing := Find(intent.authorizationId);
      if existing.Some? && existing.value != intent {
        return Err(IntentSubstitution);
      }
      if intent.authorizationId in completedAuthorizations {
        return Ok(AlreadyCompleted);
      }
      if intent.authorizationId in inFlightAuthorizations {
        return Ok(AlreadyInFlight);
      }
      if use == SingleUse {
        if intent.authorizationId in claimedAuthorizations {
          return Ok(AlreadyInFlight);
        }
        claimedAuthorizations := claimedAuthorizations + {intent.authorizationId};
      }
      intents := intents + [intent];
      inFlightAuthorizations := inFlightAuthorizations + {intent.authorizationId};
      return Ok(Started);
    }

    method LoadUncertainIntent(authorizationId: Uuid) returns (intent: Option<ExecutionIntent>)
      ensures intent == LoadUncertain(State(), authorizationId)
    {
      if authorizationId !in inFlightAuthorizations {
        return None;
      }
      intent := Find(authorizationId);
    }

    method CommitEffectAndEnqueueReceipt(completion: ExecutionCompletion) returns (entry: OutboxEntry)
      modifies this
      ensures failIntent == old(failIntent)
      ensures State() == CommitEffect(old(State()), completion)
      ensures entry == OutboxEntry("receipt-" + UuidText(completion.authorizationId), completion.receipt)
      ensures pending == old(pending) + [entry] && completions == old(completions) + [completion]
      ensures inFlightAuthorizations == old(inFlightAuthorizations) - {completion.authorizationId}
      ensures completedAuthorizations == old(completedAuthorizations) + {completion.authorizationId}
      ensures intents == old(intents) && delivered == old(delivered)
      ensures claimedAuthorizations == old(claimedAuthorizations)
    {
      entry := OutboxEntry(OutboxIdOf(completion.authorizationId), completion.receipt);
      inFlightAuthorizations := inFlightAuthorizations - {completion.authorizationId};
      completedAuthorizations := completedAuthorizations + {completion.authorizationId};
      completions := completions + [completion];
      pending := pending + [entry];
    }

    method TakePendingReceipts(limit: nat) returns (entries: seq<OutboxEntry>)
      ensures entries == PendingReceipts(State(), limit)
      ensures entries <= pending && |entries| <= limit && (|entries| < limit ==> entries == pending)
    {
      entries := if |pending| <= limit then pending else pending[..limit];
    }

    method MarkReceiptDelivered(outboxId: string, recorded: ReceiptRecorded) returns (r: Result<(), StoreError>)
      modifies this
      ensures failIntent == old(failIntent)
      ensures (State(), r) == MarkDelivered(old(State()), outboxId, recorded)
      ensures r.Ok? <==> exists k :: 0 <= k < |old(pending)| && old(pending)[k].outboxId == outboxId
      ensures r.Ok? ==> delivered == old(delivered) + [(outboxId, recorded)]
      ensures r.Ok? ==> exists k :: && 0 <= k < |old(pending)| && old(pending)[k].outboxId == outboxId
                                    && (forall i :: 0 <= i < k ==> old(pending)[i].outboxId != outboxId)
                                    && pending == old(pending)[..k] + old(pending)[k + 1..]
    {
      var index := 0;
      while index < |pending| && pending[index].outboxId != outboxId
        invariant 0 <= index <= |pending|
        invariant forall k :: 0 <= k < index ==> pending[k].outboxId != outboxId
      {
        index := index + 1;
      }
      if index == |pending| {
        return Err(NotPending);
      }
      pending := pending[..index] + pending[index + 1..];
      delivered := delivered + [(outboxId, recorded)];
      return Ok(());
    }
  }
}
