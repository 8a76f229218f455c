/**
 How an outbox loses a receipt: which step makes it missing, which calls can still bring it back, and when it is
 missing for good.
 */
module Losses {
  import opened Wrappers
  import opened Uuids
  import opened Records
  import opened Requests
  import opened Batches
  import opened Uncertain
  import opened Receipts
  import opened DurableStore
  import opened Protocol
  import opened Trails
  import opened ProtocolInvariant
  import opened Runs
  import opened Ownership
  import opened Guarantees

  // ---------------------------------------------------------------- calls that can still complete

  /** The call may still complete this authorization: it invokes, looks up or holds an effect of it. */
  predicate Engaged(t: Thread, id: Uuid) {
    match t.pc
    case Invoking(signed) => IdOf(signed) == id
    case AwaitingEffect(signed) => IdOf(signed) == id
    case Committing(signed, _, _) => IdOf(signed) == id
    case LookingUp(intent) => intent.authorizationId == id
    case _ => false
  }

  predicate Commits(e: Event, id: Uuid) {
    e.Committed? && e.completion.authorizationId == id
  }

  /** A step engages no call with a completed authorization, and a commit disengages the call that makes it. */
  ghost predicate Disengages(i: nat, t: Thread, m: Move, id: Uuid) {
    && (Engaged(t.(pc := m.pc), id) ==> Engaged(t, id))
    && (m.event.Some? && Commits(m.event.value, id) ==>
          Engaged(t, id) && !Engaged(t.(pc := m.pc), id) && m.event.value.thread == i)
  }

  lemma AdmissionDisengages(i: nat, t: Thread, s: StoreState, signed: SignedAuthorization, fault: Fault, id: Uuid)
    requires id in s.completed
    ensures Disengages(i, t, AdmissionStep(t, signed, s, fault), id)
  {
    hide HandleOf, FindIntent;
  }

  lemma ExecutionDisengages(c: Crypto, i: nat, t: Thread, s: StoreState, a: Answer, id: Uuid)
    requires id in s.completed && Executing(t.pc)
    ensures Disengages(i, t, ThreadStep(c, i, t, s, a), id)
  {
    hide AcceptsGrant, ValidPending, BeginAttempt, CommitEffect, EntryOf, Body, HandleOf, ReceiptOf, AdmissionStep;
    if t.pc.Admitting? && a.StoreSays? {
      AdmissionDisengages(i, t, s, t.pc.signed, a.fault, id);
    }
  }

  lemma LoadDisengages(c: Crypto, i: nat, t: Thread, s: StoreState, fault: Fault, id: Uuid)
    requires id in s.completed && s.inFlight !! s.completed && t.op.Reconcile?
    ensures Disengages(i, t, LoadStep(c, t, s, fault), id)
  {
    hide ValidUncertainIntent;
  }

  lemma LookupDisengages(c: Crypto, i: nat, t: Thread, s: StoreState, found: Option<EffectLookupOutcome>, id: Uuid)
    requires t.op.Reconcile? && t.pc.LookingUp? && ValidUncertainIntent(c, t.op.uncertain, t.pc.intent)
    ensures Disengages(i, t, LookupStep(i, t, t.pc.intent, s, found), id)
  {
    hide ValidAuthorization;
  }

  lemma LookingValid(c: Crypto, i: nat, t: Thread, log: seq<Event>)
    requires ThreadOk(c, i, t, log) && t.pc.LookingUp?
    ensures t.op.Reconcile? && ValidUncertainIntent(c, t.op.uncertain, t.pc.intent)
  {
    hide ValidUncertainIntent, Subseq;
  }

  lemma DeliveryDisengages(c: Crypto, i: nat, t: Thread, s: StoreState, log: seq<Event>, a: Answer, id: Uuid)
    requires ThreadOk(c, i, t, log) && !Executing(t.pc) && id in s.completed && s.inFlight !! s.completed
    ensures Disengages(i, t, ThreadStep(c, i, t, s, a), id)
  {
    hide ThreadOk, ValidPending, MarkDelivered, LoadUncertain, ValidUncertainIntent, PendingReceipts, LoadStep,
         LookupStep;
    if t.pc.Loading? && a.StoreSays? && t.op.Reconcile? {
      LoadDisengages(c, i, t, s, a.fault, id);
    } else if t.pc.LookingUp? && a.LookupSays? {
      LookingValid(c, i, t, log);
      LookupDisengages(c, i, t, s, a.found, id);
    }
  }

  lemma StepDisengages(c: Crypto, w: World, i: nat, a: Answer, id: Uuid)
    requires WorldOk(c, w) && i < |w.threads| && id in w.store.completed
    ensures Disengages(i, w.threads[i], ThreadStep(c, i, w.threads[i], w.store, a), id)
  {
    hide ThreadStep, ThreadOk, Orderly, Exclusive, Attributed, Quiet, Disengages, Queued;
    assert ThreadOk(c, i, w.threads[i], w.log);
    if Executing(w.threads[i].pc) {
      ExecutionDisengages(c, i, w.threads[i], w.store, a, id);
    } else {
      DeliveryDisengages(c, i, w.threads[i], w.store, w.log, a, id);
    }
  }

  lemma EnterDisengaged(c: Crypto, client: Client, op: Op, id: Uuid)
    ensures !Engaged(Thread(client, op, Enter(c, client, op)), id)
  {
  }

  lemma CompletedStays(c: Crypto, steps: seq<Step>, more: seq<Step>, id: Uuid)
    requires id in Run(c, steps).store.completed
    ensures id in Run(c, steps + more).store.completed
  {
    hide Run;
    StoreOnlyGrows(c, steps, more);
  }

  // ---------------------------------------------------------------- calls that come too late

  ghost predicate NoCommitBy(log: seq<Event>, i: nat, id: Uuid) {
    forall k :: 0 <= k < |log| && Commits(log[k], id) ==> log[k].thread != i
  }

  /** From the `n`-th on, no call is engaged with the authorization, and none committed an effect of it. */
  ghost predicate TooLate(w: World, n: nat, id: Uuid) {
    forall i :: n <= i < |w.threads| ==> !Engaged(w.threads[i], id) && NoCommitBy(w.log, i, id)
  }

  lemma AdvanceTooLate(c: Crypto, w: World, i: nat, a: Answer, n: nat, id: Uuid)
    requires WorldOk(c, w) && id in w.store.completed && i < |w.threads| && TooLate(w, n, id)
    ensures TooLate(AdvanceWorld(c, w, i, a), n, id)
  {
    hide WorldOk, ThreadStep, Engaged;
    StepDisengages(c, w, i, a, id);
    var after := AdvanceWorld(c, w, i, a);
    forall j | n <= j < |after.threads| ensures !Engaged(after.threads[j], id) && NoCommitBy(after.log, j, id) {
      assert NoCommitBy(w.log, j, id);
      forall k | 0 <= k < |after.log| && Commits(after.log[k], id) ensures after.log[k].thread != j {
        if k < |w.log| {
          assert after.log[k] == w.log[k];
        }
      }
    }
  }

  lemma SpawnTooLate(c: Crypto, w: World, client: Client, op: Op, n: nat, id: Uuid)
    requires Named(w.threads, w.log) && TooLate(w, n, id)
    ensures TooLate(Apply(c, w, Spawn(client, op)), n, id)
  {
    EnterDisengaged(c, client, op, id);
    hide Enter, Engaged;
    assert NoCommitBy(w.log, |w.threads|, id) by {
      forall k | 0 <= k < |w.log| && Commits(w.log[k], id) ensures w.log[k].thread != |w.threads| {
        assert By(w.log[k], w.log[k].thread);
      }
    }
  }

  lemma ApplyTooLate(c: Crypto, w: World, step: Step, n: nat, id: Uuid)
    requires WorldOk(c, w) && Owned(c, w) && id in w.store.completed && TooLate(w, n, id)
    ensures TooLate(Apply(c, w, step), n, id)
  {
    hide WorldOk, AdvanceWorld, Named, Idle, Earned, Checks, NoCommitBy, Enter;
    match step
    case Spawn(client, op) => SpawnTooLate(c, w, client, op, n, id);
    case Advance(i, a) => if i < |w.threads| { AdvanceTooLate(c, w, i, a, n, id); }
    case Cancel(i) =>
    case Crash =>
  }

  /**
   Once an authorization is completed, no call started afterwards is ever engaged with it, nor commits an effect of
   it, however the run goes on.
   */
  lemma {:induction false} LateCallsNeverCommit(c: Crypto, steps: seq<Step>, more: seq<Step>, id: Uuid)
    requires id in Run(c, steps).store.completed
    ensures TooLate(Run(c, steps + more), |Run(c, steps).threads|, id)
  {
    hide Apply, WorldOk, Owned, TooLate;
    var n := |Run(c, steps).threads|;
    if more == [] {
      assert steps + more == steps;
      NoneYet(Run(c, steps), id);
    } else {
      var m := |more| - 1;
      LateCallsNeverCommit(c, steps, more[..m], id);
      CompletedStays(c, steps, more[..m], id);
      RunOk(c, steps + more[..m]);
      RunOwned(c, steps + more[..m]);
      ApplyTooLate(c, Run(c, steps + more[..m]), more[m], n, id);
      assert (steps + more)[..|steps + more| - 1] == steps + more[..m];
    }
  }

  lemma NoneYet(w: World, id: Uuid)
    ensures TooLate(w, |w.threads|, id)
  {
  }

  // ---------------------------------------------------------------- how often an authorization completes

  function Times(completions: seq<ExecutionCompletion>, id: Uuid): nat {
    if completions == [] then 0
    else
      var n := |completions| - 1;
      Times(completions[..n], id) + (if completions[n].authorizationId == id then 1 else 0)
  }

  function EngagedWith(id: Uuid): Thread -> bool {
    (t: Thread) => Engaged(t, id)
  }

  /** The completions an authorization has and can still get from the calls engaged with it. */
  function Budget(w: World, id: Uuid): nat {
    Times(Completions(w.log), id) + Tally(w.threads, EngagedWith(id))
  }

  lemma TimesAppend(log: seq<Event>, e: Event, id: Uuid)
    ensures Times(Completions(log + [e]), id) == Times(Completions(log), id) + (if Commits(e, id) then 1 else 0)
  {
    ProjectAppend(log, e);
    if e.Committed? {
      var before := Completions(log);
      assert (before + [e.completion])[..|before|] == before;
    }
  }

  lemma AdvanceBudget(c: Crypto, w: World, i: nat, a: Answer, id: Uuid)
    requires WorldOk(c, w) && id in w.store.completed && i < |w.threads|
    ensures Budget(AdvanceWorld(c, w, i, a), id) <= Budget(w, id)
  {
    hide WorldOk, ThreadStep, Engaged, Tally, Times, Completions;
    StepDisengages(c, w, i, a, id);
    var m := ThreadStep(c, i, w.threads[i], w.store, a);
    TallyUpdate(w.threads, i, w.threads[i].(pc := m.pc), EngagedWith(id));
    if m.event.Some? {
      TimesAppend(w.log, m.event.value, id);
    }
  }

  lemma ApplyBudget(c: Crypto, w: World, step: Step, id: Uuid)
    requires WorldOk(c, w) && id in w.store.completed
    ensures Budget(Apply(c, w, step), id) <= Budget(w, id)
  {
    hide WorldOk, AdvanceWorld, Tally, Times, Completions, Enter;
    match step
    case Spawn(client, op) =>
      EnterDisengaged(c, client, op, id);
      TallyAppend(w.threads, Thread(client, op, Enter(c, client, op)), EngagedWith(id));
    case Advance(i, a) => if i < |w.threads| { AdvanceBudget(c, w, i, a, id); }
    case Cancel(_) => TallyDrops(w.threads, Apply(c, w, step).threads, EngagedWith(id));
    case Crash => TallyDrops(w.threads, Apply(c, w, step).threads, EngagedWith(id));
  }

  /**
   After its first completion an authorization completes at most once more for every call that was engaged with it
   then, however the run goes on.
   */
  lemma {:induction false} CompletionsBounded(c: Crypto, steps: seq<Step>, more: seq<Step>, id: Uuid)
    requires id in Run(c, steps).store.completed
    ensures Budget(Run(c, steps + more), id) <= Budget(Run(c, steps), id)
  {
    hide Apply, WorldOk, Budget;
    if more == [] {
      assert steps + more == steps;
    } else {
      var m := |more| - 1;
      CompletionsBounded(c, steps, more[..m], id);
      CompletedStays(c, steps, more[..m], id);
      RunOk(c, steps + more[..m]);
      ApplyBudget(c, Run(c, steps + more[..m]), more[m], id);
      assert (steps + more)[..|steps + more| - 1] == steps + more[..m];
    }
  }

  // ---------------------------------------------------------------- the step that loses a receipt

  /**
   The guard of the failing branch: a call is about to mark, the mark will take effect, and the head of the queue is
   the last copy of a receipt that was never confirmed.
   */
  ghost predicate Displaces(w: World, step: Step, x: ExecutionCompletion) {
    && step.Advance? && step.thread < |w.threads| && w.threads[step.thread].pc.Marking?
    && step.answer.StoreSays? && step.answer.fault != LostBefore
    && var queue := Under(w.store.pending, w.threads[step.thread].pc.entry.outboxId);
    && queue != [] && queue[0] == EntryOf(x) && EntryOf(x) !in queue[1..]
    && !WasPosted(w.log, EntryOf(x))
  }

  lemma PostedAppend(log: seq<Event>, e: Event, entry: OutboxEntry)
    ensures WasPosted(log + [e], entry) <==> WasPosted(log, entry) || (e.Confirmed? && e.entry == entry)
  {
    var longer := log + [e];
    if WasPosted(log, entry) {
      var m :| 0 <= m < |log| && log[m].Confirmed? && log[m].entry == entry;
      assert longer[m] == log[m];
    }
    if e.Confirmed? && e.entry == entry {
      assert longer[|log|] == e;
    }
  }

  lemma MarkTakesHead(s: StoreState, outboxId: string, recorded: ReceiptRecorded, entry: OutboxEntry)
    requires entry in s.pending
    ensures var queue, after := Under(s.pending, outboxId), MarkDelivered(s, outboxId, recorded);
            && (after.1.Err? ==> after.0 == s)
            && (entry !in after.0.pending <==> queue != [] && queue[0] == entry && entry !in queue[1..])
  {
    hide Under;
    var queue := Under(s.pending, outboxId);
    UnderMembers(s.pending, outboxId, entry);
    var at := PositionOf(s.pending, outboxId);
    if at.Some? {
      var rest := Without(s.pending, at.value);
      UnderWithout(s.pending, at.value, outboxId);
      assert queue == [s.pending[at.value]] + Under(rest, outboxId);
      UnderMembers(rest, outboxId, entry);
      if entry.outboxId != outboxId {
        KeptWithout(s.pending, at.value, entry);
      }
    } else if queue != [] {
      UnderMembers(s.pending, outboxId, queue[0]);
    }
  }

  lemma KeptWithout(entries: seq<OutboxEntry>, i: nat, entry: OutboxEntry)
    requires i < |entries| && entry in entries && entry != entries[i]
    ensures entry in Without(entries, i)
  {
    assert entries == entries[..i] + [entries[i]] + entries[i + 1..];
  }

  lemma MarkMisses(i: nat, w: World, fault: Fault, x: ExecutionCompletion)
    requires i < |w.threads| && w.threads[i].pc.Marking? && !Missing(w, x)
    ensures var pc := w.threads[i].pc;
            var m := MarkStep(i, pc.entry, pc.recorded, pc.next, w.store, fault);
            (EntryOf(x) !in m.store.pending && !WasPosted(Log(w.log, m.event), EntryOf(x))
             <==> Displaces(w, Advance(i, StoreSays(fault)), x))
  {
    hide Under, MarkDelivered, WasPosted, EntryOf;
    var pc := w.threads[i].pc;
    var m := MarkStep(i, pc.entry, pc.recorded, pc.next, w.store, fault);
    if m.event.Some? {
      PostedAppend(w.log, m.event.value, EntryOf(x));
    }
    if EntryOf(x) in w.store.pending {
      MarkTakesHead(w.store, pc.entry.outboxId, pc.recorded, EntryOf(x));
    }
  }

  /** No step but a mark takes anything from the outbox, and none takes back a confirmation. */
  lemma StepHolds(c: Crypto, i: nat, t: Thread, s: StoreState, a: Answer)
    requires !(t.pc.Marking? && a.StoreSays?)
    ensures forall e :: e in s.pending ==> e in ThreadStep(c, i, t, s, a).store.pending
  {
    hide AcceptsGrant, ValidPending, Body, CompletionOf, LoadUncertain, ValidUncertainIntent, PendingReceipts, IntentOf,
         HandleOf, EntryOf, FindIntent;
  }

  lemma AdvanceMisses(c: Crypto, w: World, i: nat, a: Answer, x: ExecutionCompletion)
    requires i < |w.threads| && !Missing(w, x)
    ensures Missing(AdvanceWorld(c, w, i, a), x) <==> Displaces(w, Advance(i, a), x)
  {
    hide WasPosted, EntryOf, Under, ThreadStep;
    var t := w.threads[i];
    if t.pc.Marking? && a.StoreSays? {
      MarkMisses(i, w, a.fault, x);
      StepsMark(c, i, t, w.store, a);
    } else {
      StepHolds(c, i, t, w.store, a);
      var m := ThreadStep(c, i, t, w.store, a);
      if m.event.Some? {
        PostedAppend(w.log, m.event.value, EntryOf(x));
      }
    }
  }

  lemma StepsMark(c: Crypto, i: nat, t: Thread, s: StoreState, a: Answer)
    requires t.pc.Marking? && a.StoreSays?
    ensures ThreadStep(c, i, t, s, a) == MarkStep(i, t.pc.entry, t.pc.recorded, t.pc.next, s, a.fault)
  {
  }

  /**
   Which step makes a receipt missing that is not: exactly a mark that takes the last copy of it, unconfirmed, from
   the head of the queue under the outbox id being marked.
   */
  lemma MissesExactly(c: Crypto, w: World, step: Step, x: ExecutionCompletion)
    requires !Missing(w, x)
    ensures Missing(Apply(c, w, step), x) <==> Displaces(w, step, x)
  {
    hide WasPosted, EntryOf, Under, AdvanceWorld;
    if step.Advance? && step.thread < |w.threads| {
      AdvanceMisses(c, w, step.thread, step.answer, x);
    }
  }

  // ---------------------------------------------------------------- receipts that are missing for good

  /** The receipt is missing and stays so however the run goes on. */
  ghost predicate Lost(c: Crypto, w: World, x: ExecutionCompletion) {
    forall v :: Continues(c, w, v) ==> Missing(v, x)
  }

  /** The call is about to post this entry, or will come to it later in its flush. */
  predicate Carries(t: Thread, entry: OutboxEntry) {
    match t.pc
    case Recording(e, next) => e == entry || Holding(next, entry)
    case Marking(_, _, next) => Holding(next, entry)
    case _ => false
  }

  predicate Holding(next: Next, entry: OutboxEntry) {
    next.Continue? && entry in next.rest
  }

  /** Missing, with no live call that carries the receipt or could complete its authorization again. */
  ghost predicate Stranded(w: World, x: ExecutionCompletion) {
    && Missing(w, x)
    && forall i :: 0 <= i < |w.threads| ==> Spent(w.threads[i], x)
  }

  predicate Spent(t: Thread, x: ExecutionCompletion) {
    !Carries(t, EntryOf(x)) && !Engaged(t, x.authorizationId)
  }

  /** A step neither posts nor enqueues an entry that its call does not carry, nor takes it up unless it is pending. */
  ghost predicate Ignores(t: Thread, s: StoreState, m: Move, x: ExecutionCompletion) {
    && (m.event.Some? && m.event.value.Confirmed? ==> m.event.value.entry != EntryOf(x))
    && EntryOf(x) !in m.store.pending
    && !Carries(t.(pc := m.pc), EntryOf(x))
  }

  lemma CommitIgnores(c: Crypto, i: nat, t: Thread, s: StoreState, x: ExecutionCompletion, fault: Fault)
    requires t.pc.Committing? && Spent(t, x) && EntryOf(x) !in s.pending
    ensures Ignores(t, s, CommitStep(c, i, t, t.pc.signed, t.pc.effect, t.pc.origin, s, fault), x)
  {
    hide CompletionOf, HandleOf;
    var completion := CompletionOf(c, t.client.key, t.client.executorId, t.pc.signed, t.pc.effect);
    CompletionId(c, t.client.key, t.client.executorId, t.pc.signed, t.pc.effect);
    if EntryOf(completion) == EntryOf(x) {
      OutboxIdInjective(completion.authorizationId, x.authorizationId);
    }
  }

  lemma MarkIgnores(i: nat, t: Thread, s: StoreState, x: ExecutionCompletion, fault: Fault)
    requires t.pc.Marking? && Spent(t, x) && EntryOf(x) !in s.pending
    ensures Ignores(t, s, MarkStep(i, t.pc.entry, t.pc.recorded, t.pc.next, s, fault), x)
  {
    hide EntryOf;
    if t.pc.next.Continue? && t.pc.next.rest != [] {
      assert t.pc.next.rest[0] in t.pc.next.rest;
      assert forall e :: e in t.pc.next.rest[1..] ==> e in t.pc.next.rest;
    }
  }

  lemma FetchIgnores(t: Thread, s: StoreState, x: ExecutionCompletion, fault: Fault)
    requires t.op.Flush? && EntryOf(x) !in s.pending
    ensures Ignores(t, s, FetchStep(t, s, fault), x)
  {
    hide EntryOf;
    var entries := PendingReceipts(s, t.op.limit);
    assert forall e :: e in entries ==> e in s.pending;
    if entries != [] {
      assert entries[0] in entries;
      assert forall e :: e in entries[1..] ==> e in entries;
    }
  }

  lemma StepIgnores(c: Crypto, i: nat, t: Thread, s: StoreState, a: Answer, x: ExecutionCompletion)
    requires Spent(t, x) && EntryOf(x) !in s.pending
    ensures Ignores(t, s, ThreadStep(c, i, t, s, a), x)
  {
    hide AcceptsGrant, ValidPending, Body, CompletionOf, LoadUncertain, ValidUncertainIntent, IntentOf, HandleOf,
         EntryOf, FindIntent, CommitStep, MarkStep, FetchStep, ValidOutboxEntry, Acknowledges;
    if t.pc.Committing? && a.StoreSays? {
      CommitIgnores(c, i, t, s, x, a.fault);
    } else if t.pc.Marking? && a.StoreSays? {
      MarkIgnores(i, t, s, x, a.fault);
    } else if t.pc.Fetching? && a.StoreSays? && t.op.Flush? {
      FetchIgnores(t, s, x, a.fault);
    }
  }

  lemma AdvanceStranded(c: Crypto, w: World, i: nat, a: Answer, x: ExecutionCompletion)
    requires WorldOk(c, w) && i < |w.threads| && x.authorizationId in w.store.completed && Stranded(w, x)
    ensures Stranded(AdvanceWorld(c, w, i, a), x)
  {
    hide WorldOk, ThreadStep, WasPosted, EntryOf, Engaged, Carries;
    var m := ThreadStep(c, i, w.threads[i], w.store, a);
    StepDisengages(c, w, i, a, x.authorizationId);
    StepIgnores(c, i, w.threads[i], w.store, a, x);
    if m.event.Some? {
      PostedAppend(w.log, m.event.value, EntryOf(x));
    }
  }

  lemma EnterSpent(c: Crypto, client: Client, op: Op, x: ExecutionCompletion)
    ensures Spent(Thread(client, op, Enter(c, client, op)), x)
  {
    hide EntryOf;
  }

  lemma ApplyStranded(c: Crypto, w: World, step: Step, x: ExecutionCompletion)
    requires WorldOk(c, w) && x.authorizationId in w.store.completed && Stranded(w, x)
    ensures Stranded(Apply(c, w, step), x)
  {
    hide WorldOk, AdvanceWorld, WasPosted, EntryOf, Enter;
    match step
    case Spawn(client, op) => EnterSpent(c, client, op, x);
    case Advance(i, a) => if i < |w.threads| { AdvanceStranded(c, w, i, a, x); }
    case Cancel(_) =>
    case Crash =>
  }

  lemma {:induction false} StrandedStays(c: Crypto, steps: seq<Step>, more: seq<Step>, x: ExecutionCompletion)
    requires x.authorizationId in Run(c, steps).store.completed && Stranded(Run(c, steps), x)
    ensures Stranded(Run(c, steps + more), x)
  {
    hide Apply, WorldOk, Stranded;
    if more == [] {
      assert steps + more == steps;
    } else {
      var m := |more| - 1;
      StrandedStays(c, steps, more[..m], x);
      CompletedStays(c, steps, more[..m], x.authorizationId);
      RunOk(c, steps + more[..m]);
      ApplyStranded(c, Run(c, steps + more[..m]), more[m], x);
      assert (steps + more)[..|steps + more| - 1] == steps + more[..m];
    }
  }

  lemma CompletedId(c: Crypto, w: World, x: ExecutionCompletion)
    requires Reachable(c, w) && x in w.store.completions
    ensures x.authorizationId in w.store.completed
  {
    hide Reachable, Orderly, ThreadsOk, Exclusive, Attributed, Quiet;
    ReachableOk(c, w);
  }

  lemma ReachedBy(c: Crypto, steps: seq<Step>)
    ensures Reachable(c, Run(c, steps))
  {
    hide Run;
  }

  /** A missing receipt that no live call carries or can complete again is lost: it stays missing for good. */
  lemma StrandedIsLost(c: Crypto, w: World, x: ExecutionCompletion)
    requires Reachable(c, w) && x in w.store.completions && Stranded(w, x)
    ensures Lost(c, w, x)
  {
    hide Run, Stranded, Reachable, Missing;
    CompletedId(c, w, x);
    forall v | Continues(c, w, v) ensures Missing(v, x) {
      var steps, more :| Run(c, steps) == w && Run(c, steps + more) == v;
      StrandedStays(c, steps, more, x);
      StrandedMisses(v, x);
    }
  }

  lemma StrandedMisses(w: World, x: ExecutionCompletion)
    requires Stranded(w, x)
    ensures Missing(w, x)
  {
  }

  /** Over: every call of the world has ended. */
  predicate Settled(threads: seq<Thread>) {
    forall i :: 0 <= i < |threads| ==> threads[i].pc.Finished? || threads[i].pc.Cancelled?
  }

  /** When every call has ended, the receipts lost are exactly the missing ones. */
  lemma SettledLoses(c: Crypto, w: World, x: ExecutionCompletion)
    requires Reachable(c, w) && x in w.store.completions && Settled(w.threads)
    ensures Lost(c, w, x) <==> Missing(w, x)
  {
    hide Run, Missing, EntryOf;
    if Missing(w, x) {
      assert Stranded(w, x);
      StrandedIsLost(c, w, x);
    }
    if Lost(c, w, x) {
      ContinuesItself(c, w);
    }
  }

  lemma ContinuesItself(c: Crypto, w: World)
    requires Reachable(c, w)
    ensures Continues(c, w, w)
  {
    hide Run;
    var steps :| Run(c, steps) == w;
    assert steps + [] == steps;
  }

  /** A crash loses exactly the receipts that are missing when it happens. */
  lemma CrashLoses(c: Crypto, steps: seq<Step>, x: ExecutionCompletion)
    requires x in Run(c, steps).store.completions
    ensures Lost(c, Run(c, steps + [Crash]), x) <==> Missing(Run(c, steps), x)
  {
    hide Run, WasPosted, EntryOf, Lost, Reachable;
    RunAppend(c, steps, Crash);
    ReachedBy(c, steps + [Crash]);
    SettledLoses(c, Run(c, steps + [Crash]), x);
  }

  // ---------------------------------------------------------------- live calls can still save it

  lemma RecordingValid(c: Crypto, i: nat, t: Thread, log: seq<Event>)
    requires Orderly(c, log) && ThreadOk(c, i, t, log) && t.pc.Recording?
    ensures ValidOutboxEntry(t.pc.entry)
  {
    hide Orderly, NextOk, Subseq, Lead, ValidOutboxEntry;
    LeadCommitted(c, i, t, log, t.pc.entry, t.pc.next);
    CommittedValid(c, log, t.pc.entry);
  }

  lemma CommittedValid(c: Crypto, log: seq<Event>, entry: OutboxEntry)
    requires Orderly(c, log) && FromCompletion(log, entry)
    ensures ValidOutboxEntry(entry)
  {
    hide Orderly, ValidOutboxEntry, ReceiptOf;
    var k :| 0 <= k < |log| && log[k].Committed? && EntryOf(log[k].completion) == entry;
    OrderlyAt(c, log, k);
    var key, executorId, signed, effect :|
      CompletionFor(c, log[..k], log[k].completion, key, executorId, signed, effect);
    OwnEntryValid(c, key, signed, effect);
  }

  /** While a call is about to post the receipt, one good answer of the Proxy confirms it: it is not lost. */
  lemma PostingSaves(c: Crypto, w: World, i: nat, x: ExecutionCompletion)
    requires Reachable(c, w) && i < |w.threads|
    requires w.threads[i].pc.Recording? && w.threads[i].pc.entry == EntryOf(x)
    ensures !Lost(c, w, x)
  {
    hide Run, EntryOf, ThreadStep;
    ReachableOk(c, w);
    var entry, next := w.threads[i].pc.entry, w.threads[i].pc.next;
    assert ThreadOk(c, i, w.threads[i], w.log);
    RecordingValid(c, i, w.threads[i], w.log);
    var answer := Some(GoodAnswer(entry));
    var v := AdvanceWorld(c, w, i, ProxySays(answer));
    StepsRecording(c, i, w.threads[i], w.store, GoodAnswer(entry));
    assert v.log == w.log + [Confirmed(i, entry, GoodAnswer(entry))];
    PostedAppend(w.log, Confirmed(i, entry, GoodAnswer(entry)), entry);
    var steps :| Run(c, steps) == w;
    RunAppend(c, steps, Advance(i, ProxySays(answer)));
    assert Continues(c, w, v);
  }

  /** The Proxy's answer to a receipt it has recorded. */
  function GoodAnswer(entry: OutboxEntry): (r: ReceiptRecorded)
    ensures Acknowledges(entry, r)
  {
    ReceiptRecorded("recorded", EXECUTION_CONTRACT, COMPLETED_STAGE, entry.receipt.authorizationId, "")
  }

  lemma StepsRecording(c: Crypto, i: nat, t: Thread, s: StoreState, recorded: ReceiptRecorded)
    requires t.pc.Recording? && ValidOutboxEntry(t.pc.entry) && Acknowledges(t.pc.entry, recorded)
    ensures ThreadStep(c, i, t, s, ProxySays(Some(recorded)))
         == Move(Marking(t.pc.entry, recorded, t.pc.next), s, Some(Confirmed(i, t.pc.entry, recorded)))
  {
    hide ValidOutboxEntry, Acknowledges;
  }
}
