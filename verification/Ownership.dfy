/** Which call left which event behind: commits, confirmations and deliveries belong to the call that made them. */
module Ownership {
  import opened Records
  import opened Requests
  import opened Uncertain
  import opened Receipts
  import opened DurableStore
  import opened Protocol
  import opened Trails
  import opened ProtocolInvariant
  import opened Runs

  /** The event was left behind by this call. */
  predicate By(e: Event, i: nat) {
    !e.Authorized? && !e.Admitted? && e.thread == i
  }

  ghost predicate NothingBy(log: seq<Event>, i: nat) {
    forall k :: 0 <= k < |log| ==> !By(log[k], i)
  }

  /** A reconciliation that has found no effect, or has ended without one. */
  predicate Fruitless(t: Thread) {
    t.op.Reconcile?
    && match t.pc
       case Loading => true
       case LookingUp(_) => true
       case Finished(Failed(failure)) => failure.InvalidInput?
       case Finished(StillUncertain(u)) => u.reason != ReconciledEffectPersistenceFailed
       case _ => false
  }

  /** The completion is of an effect this call saw: its executor's answer, or its own lookup for the handle's intent. */
  ghost predicate CommittedWith(c: Crypto, i: nat, t: Thread, past: seq<Event>, completion: ExecutionCompletion,
                                signed: SignedAuthorization, effect: ExecutionEffect, origin: Origin)
  {
    && Fits(c, t.client, t.op, signed, effect, origin)
    && Subseq(Opening(i, t.client, signed, effect, origin), past)
    && completion == OwnCompletion(c, t.client, signed, effect)
  }

  ghost predicate CommittedBy(c: Crypto, i: nat, t: Thread, past: seq<Event>, completion: ExecutionCompletion) {
    exists signed, effect, origin :: CommittedWith(c, i, t, past, completion, signed, effect, origin)
  }

  /** Every event names a call that was started. */
  ghost predicate Named(threads: seq<Thread>, log: seq<Event>) {
    forall k: nat, i: nat :: k < |log| && By(log[k], i) ==> i < |threads|
  }

  ghost predicate Idle(threads: seq<Thread>, log: seq<Event>) {
    forall i :: 0 <= i < |threads| && Fruitless(threads[i]) ==> NothingBy(log, i)
  }

  ghost predicate Earned(c: Crypto, threads: seq<Thread>, log: seq<Event>) {
    forall k :: 0 <= k < |log| && log[k].Committed? && log[k].thread < |threads| ==>
      CommittedBy(c, log[k].thread, threads[log[k].thread], log[..k], log[k].completion)
  }

  /** A reconciliation that was not refused at once has a handle that passed the check. */
  ghost predicate Checks(threads: seq<Thread>) {
    forall i :: 0 <= i < |threads| && threads[i].op.Reconcile? && !Refused(threads[i].pc) ==>
      ValidUncertain(threads[i].op.uncertain)
  }

  predicate Refused(pc: Pc) {
    pc.Cancelled? || pc == Finished(Failed(InvalidInput))
  }

  ghost predicate Owned(c: Crypto, w: World) {
    Named(w.threads, w.log) && Idle(w.threads, w.log) && Earned(c, w.threads, w.log) && Checks(w.threads)
  }

  // ---------------------------------------------------------------- one step

  /** A step signs its event, finds nothing only if it had found nothing, and commits only what it was about to. */
  ghost predicate Signs(c: Crypto, i: nat, t: Thread, m: Move) {
    && (m.event.Some? ==> forall j :: By(m.event.value, j) ==> j == i)
    && (Fruitless(t.(pc := m.pc)) ==> Fruitless(t) && m.event.None?)
    && (Refused(t.pc) ==> m.pc == t.pc)
    && (m.event.Some? && m.event.value.Committed? ==>
          && t.pc.Committing?
          && m.event.value == Committed(i, OwnCompletion(c, t.client, t.pc.signed, t.pc.effect)))
  }

  lemma ExecutionSigns(c: Crypto, i: nat, t: Thread, s: StoreState, log: seq<Event>, a: Answer)
    requires ThreadOk(c, i, t, log) && Executing(t.pc)
    ensures Signs(c, i, t, ThreadStep(c, i, t, s, a))
  {
    hide AcceptsGrant, ValidPending, BeginAttempt, CommitEffect, CompletionOf, EntryOf, Subseq, Enter,
         ValidUncertainIntent;
  }

  lemma DeliverySigns(c: Crypto, i: nat, t: Thread, s: StoreState, log: seq<Event>, a: Answer)
    requires ThreadOk(c, i, t, log) && !Executing(t.pc)
    ensures Signs(c, i, t, ThreadStep(c, i, t, s, a))
  {
    hide ThreadOk, ValidPending, MarkDelivered, LoadUncertain, ValidUncertainIntent, PendingReceipts;
  }

  lemma StepSigns(c: Crypto, i: nat, t: Thread, s: StoreState, log: seq<Event>, a: Answer)
    requires ThreadOk(c, i, t, log)
    ensures Signs(c, i, t, ThreadStep(c, i, t, s, a))
  {
    if Executing(t.pc) {
      ExecutionSigns(c, i, t, s, log, a);
    } else {
      DeliverySigns(c, i, t, s, log, a);
    }
  }

  lemma StaysNamed(c: Crypto, threads: seq<Thread>, i: nat, log: seq<Event>, m: Move)
    requires Named(threads, log) && i < |threads| && Signs(c, i, threads[i], m)
    ensures Named(threads[i := threads[i].(pc := m.pc)], Log(log, m.event))
  {
  }

  lemma StaysChecked(c: Crypto, threads: seq<Thread>, i: nat, m: Move)
    requires Checks(threads) && i < |threads| && Signs(c, i, threads[i], m)
    ensures Checks(threads[i := threads[i].(pc := m.pc)])
  {
    hide ValidUncertain;
  }

  lemma StaysIdle(c: Crypto, threads: seq<Thread>, i: nat, log: seq<Event>, m: Move)
    requires Idle(threads, log) && i < |threads| && Signs(c, i, threads[i], m)
    ensures Idle(threads[i := threads[i].(pc := m.pc)], Log(log, m.event))
  {
    var after, longer := threads[i := threads[i].(pc := m.pc)], Log(log, m.event);
    forall j | 0 <= j < |after| && Fruitless(after[j]) ensures NothingBy(longer, j) {
      assert NothingBy(log, j);
      forall k | 0 <= k < |longer| ensures !By(longer[k], j) {
        if k < |log| {
          assert longer[k] == log[k];
        }
      }
    }
  }

  lemma SameCommit(c: Crypto, i: nat, t: Thread, u: Thread, past: seq<Event>, completion: ExecutionCompletion)
    requires CommittedBy(c, i, t, past, completion) && t.client == u.client && t.op == u.op
    ensures CommittedBy(c, i, u, past, completion)
  {
    var signed, effect, origin :| CommittedWith(c, i, t, past, completion, signed, effect, origin);
    assert CommittedWith(c, i, u, past, completion, signed, effect, origin);
  }

  lemma CommitsOwn(c: Crypto, i: nat, t: Thread, log: seq<Event>)
    requires ThreadOk(c, i, t, log) && t.pc.Committing?
    ensures CommittedBy(c, i, t, log, OwnCompletion(c, t.client, t.pc.signed, t.pc.effect))
  {
    assert CommittedWith(c, i, t, log, OwnCompletion(c, t.client, t.pc.signed, t.pc.effect),
                         t.pc.signed, t.pc.effect, t.pc.origin);
  }

  /** Calls keep their client and operation, so what they committed stays theirs. */
  lemma EarnedAfter(c: Crypto, threads: seq<Thread>, after: seq<Thread>, log: seq<Event>)
    requires Earned(c, threads, log) && Named(threads, log) && |threads| <= |after|
    requires forall j :: 0 <= j < |threads| ==> after[j].client == threads[j].client && after[j].op == threads[j].op
    ensures Earned(c, after, log)
  {
    hide CommittedBy;
    forall k | 0 <= k < |log| && log[k].Committed? && log[k].thread < |after|
      ensures CommittedBy(c, log[k].thread, after[log[k].thread], log[..k], log[k].completion)
    {
      assert By(log[k], log[k].thread);
      SameCommit(c, log[k].thread, threads[log[k].thread], after[log[k].thread], log[..k], log[k].completion);
    }
  }

  lemma StaysEarned(c: Crypto, threads: seq<Thread>, i: nat, log: seq<Event>, m: Move)
    requires Earned(c, threads, log) && Named(threads, log)
    requires i < |threads| && ThreadOk(c, i, threads[i], log) && Signs(c, i, threads[i], m)
    ensures Earned(c, threads[i := threads[i].(pc := m.pc)], Log(log, m.event))
  {
    hide CommittedBy, ThreadOk;
    var after, longer := threads[i := threads[i].(pc := m.pc)], Log(log, m.event);
    EarnedAfter(c, threads, after, log);
    forall k | 0 <= k < |longer| && longer[k].Committed? && longer[k].thread < |after|
      ensures CommittedBy(c, longer[k].thread, after[longer[k].thread], longer[..k], longer[k].completion)
    {
      if k < |log| {
        assert longer[k] == log[k] && longer[..k] == log[..k];
      } else {
        assert longer[..k] == log;
        CommitsOwn(c, i, threads[i], log);
        SameCommit(c, i, threads[i], after[i], log, longer[k].completion);
      }
    }
  }

  // ---------------------------------------------------------------- every run

  lemma AdvanceOwned(c: Crypto, w: World, i: nat, a: Answer)
    requires WorldOk(c, w) && Owned(c, w) && i < |w.threads|
    ensures Owned(c, AdvanceWorld(c, w, i, a))
  {
    hide ThreadStep, StoreOk, Orderly, Exclusive, Attributed, Quiet, ThreadOk, Signs, Named, Idle, Earned, Checks;
    var m := ThreadStep(c, i, w.threads[i], w.store, a);
    assert ThreadOk(c, i, w.threads[i], w.log);
    StepSigns(c, i, w.threads[i], w.store, w.log, a);
    StaysNamed(c, w.threads, i, w.log, m);
    StaysIdle(c, w.threads, i, w.log, m);
    StaysEarned(c, w.threads, i, w.log, m);
    StaysChecked(c, w.threads, i, m);
  }

  lemma SpawnOwned(c: Crypto, w: World, t: Thread)
    requires Owned(c, w) && (t.op.Reconcile? && !Refused(t.pc) ==> ValidUncertain(t.op.uncertain))
    ensures Owned(c, w.(threads := w.threads + [t]))
  {
    hide Earned, ValidUncertain;
    EarnedAfter(c, w.threads, w.threads + [t], w.log);
    assert NothingBy(w.log, |w.threads|);
  }

  lemma DropOwned(c: Crypto, w: World, after: seq<Thread>)
    requires Owned(c, w) && |after| == |w.threads|
    requires forall j :: 0 <= j < |after| ==> after[j] == w.threads[j] || after[j] == Drop(w.threads[j])
    ensures Owned(c, w.(threads := after))
  {
    hide Earned, ValidUncertain;
    EarnedAfter(c, w.threads, after, w.log);
  }

  lemma ApplyOwned(c: Crypto, w: World, step: Step)
    requires WorldOk(c, w) && Owned(c, w)
    ensures Owned(c, Apply(c, w, step))
  {
    hide WorldOk, Owned, AdvanceWorld, ValidUncertain;
    match step
    case Spawn(client, op) => SpawnOwned(c, w, Thread(client, op, Enter(c, client, op)));
    case Advance(i, a) => if i < |w.threads| { AdvanceOwned(c, w, i, a); }
    case Cancel(i) => if i < |w.threads| { DropOwned(c, w, Apply(c, w, step).threads); }
    case Crash => DropOwned(c, w, Apply(c, w, step).threads);
  }

  lemma {:induction false} RunOwned(c: Crypto, steps: seq<Step>)
    ensures Owned(c, Run(c, steps))
  {
    if steps != [] {
      hide WorldOk, Apply;
      RunOwned(c, steps[..|steps| - 1]);
      RunOk(c, steps[..|steps| - 1]);
      ApplyOwned(c, Run(c, steps[..|steps| - 1]), steps[|steps| - 1]);
    }
  }

  lemma ReachableOwned(c: Crypto, w: World)
    requires Reachable(c, w)
    ensures Owned(c, w)
  {
    hide Run, Owned;
    var steps :| Run(c, steps) == w;
    RunOwned(c, steps);
  }

  // ---------------------------------------------------------------- one confirmation for each delivery

  /** Confirmations of an outbox id. */
  function Confirmations(log: seq<Event>, outboxId: string): nat {
    if log == [] then 0
    else
      var e := log[|log| - 1];
      Confirmations(log[..|log| - 1], outboxId) + (if e.Confirmed? && e.entry.outboxId == outboxId then 1 else 0)
  }

  /** How many calls meet a condition. */
  function Tally(threads: seq<Thread>, p: Thread -> bool): nat {
    if threads == [] then 0
    else Tally(threads[..|threads| - 1], p) + One(threads[|threads| - 1], p)
  }

  function One(t: Thread, p: Thread -> bool): nat {
    if p(t) then 1 else 0
  }

  function Holds(outboxId: string): Thread -> bool {
    (t: Thread) => t.pc.Marking? && t.pc.entry.outboxId == outboxId
  }

  /** Calls that hold a confirmation of an outbox id and have not marked it yet. */
  function Held(threads: seq<Thread>, outboxId: string): nat {
    Tally(threads, Holds(outboxId))
  }

  /** Each delivery used up a confirmation of its own, and each call about to mark holds another. */
  ghost predicate Covered(w: World) {
    forall outboxId ::
      Marks(Deliveries(w.log), outboxId) + Held(w.threads, outboxId) <= Confirmations(w.log, outboxId)
  }

  /** A step trades a confirmation for a held one, or a held one for a delivery. */
  ghost predicate Trades(t: Thread, m: Move) {
    && (m.event.Some? && m.event.value.Confirmed? ==>
          !t.pc.Marking? && m.pc.Marking? && m.pc.entry == m.event.value.entry)
    && (m.event.Some? && m.event.value.Delivered? ==>
          t.pc.Marking? && !m.pc.Marking? && t.pc.entry.outboxId == m.event.value.outboxId)
    && (m.pc.Marking? ==> m.pc == t.pc || (m.event.Some? && m.event.value.Confirmed?))
  }

  lemma StepTrades(c: Crypto, i: nat, t: Thread, s: StoreState, a: Answer)
    ensures Trades(t, ThreadStep(c, i, t, s, a))
  {
    hide AcceptsGrant, ValidPending, BeginAttempt, CommitEffect, CompletionOf, EntryOf, MarkDelivered, LoadUncertain,
         ValidUncertainIntent, PendingReceipts, Body, IntentOf, UncertainFromIntent;
  }

  lemma {:induction false} TallyUpdate(threads: seq<Thread>, i: nat, t: Thread, p: Thread -> bool)
    requires i < |threads|
    ensures Tally(threads[i := t], p) + One(threads[i], p) == Tally(threads, p) + One(t, p)
  {
    hide One;
    var n := |threads| - 1;
    var after := threads[i := t];
    if i == n {
      assert after[..n] == threads[..n];
    } else {
      TallyUpdate(threads[..n], i, t, p);
      assert after[..n] == threads[..n][i := t];
    }
  }

  lemma TallyAppend(threads: seq<Thread>, t: Thread, p: Thread -> bool)
    ensures Tally(threads + [t], p) == Tally(threads, p) + One(t, p)
  {
    assert (threads + [t])[..|threads|] == threads;
  }

  /** A condition no dropped call meets is not met more often when calls are dropped. */
  lemma {:induction false} TallyDrops(threads: seq<Thread>, after: seq<Thread>, p: Thread -> bool)
    requires |after| == |threads|
    requires forall j :: 0 <= j < |after| ==> after[j] == threads[j] || after[j] == Drop(threads[j])
    requires forall j :: 0 <= j < |after| && p(after[j]) ==> p(threads[j])
    ensures Tally(after, p) <= Tally(threads, p)
  {
    if threads != [] {
      var n := |threads| - 1;
      TallyDrops(threads[..n], after[..n], p);
    }
  }

  lemma CountsAppend(log: seq<Event>, e: Event, outboxId: string)
    ensures Confirmations(log + [e], outboxId)
         == Confirmations(log, outboxId) + (if e.Confirmed? && e.entry.outboxId == outboxId then 1 else 0)
    ensures Marks(Deliveries(log + [e]), outboxId)
         == Marks(Deliveries(log), outboxId) + (if e.Delivered? && e.outboxId == outboxId then 1 else 0)
  {
    hide Marks;
    assert (log + [e])[..|log|] == log;
    ProjectAppend(log, e);
    if e.Delivered? {
      MarksAppend(Deliveries(log), (e.outboxId, e.recorded), outboxId);
    }
  }

  lemma AdvanceCovered(c: Crypto, w: World, i: nat, a: Answer)
    requires Covered(w) && i < |w.threads|
    ensures Covered(AdvanceWorld(c, w, i, a))
  {
    hide ThreadStep, Marks, Tally, Confirmations, Deliveries;
    var after, m := AdvanceWorld(c, w, i, a), ThreadStep(c, i, w.threads[i], w.store, a);
    StepTrades(c, i, w.threads[i], w.store, a);
    forall outboxId
      ensures Marks(Deliveries(after.log), outboxId) + Held(after.threads, outboxId)
           <= Confirmations(after.log, outboxId)
    {
      TallyUpdate(w.threads, i, w.threads[i].(pc := m.pc), Holds(outboxId));
      if m.event.Some? {
        CountsAppend(w.log, m.event.value, outboxId);
      }
    }
  }

  lemma SpawnCovered(w: World, t: Thread)
    requires Covered(w) && !t.pc.Marking?
    ensures Covered(w.(threads := w.threads + [t]))
  {
    hide Marks, Confirmations, Deliveries;
    forall outboxId
      ensures Marks(Deliveries(w.log), outboxId) + Held(w.threads + [t], outboxId) <= Confirmations(w.log, outboxId)
    {
      TallyAppend(w.threads, t, Holds(outboxId));
    }
  }

  lemma DropCovered(w: World, after: seq<Thread>)
    requires Covered(w) && |after| == |w.threads|
    requires forall j :: 0 <= j < |after| ==> after[j] == w.threads[j] || after[j] == Drop(w.threads[j])
    ensures Covered(w.(threads := after))
  {
    hide Marks, Confirmations, Deliveries, Tally;
    forall outboxId
      ensures Marks(Deliveries(w.log), outboxId) + Held(after, outboxId) <= Confirmations(w.log, outboxId)
    {
      TallyDrops(w.threads, after, Holds(outboxId));
    }
  }

  lemma ApplyCovered(c: Crypto, w: World, step: Step)
    requires Covered(w)
    ensures Covered(Apply(c, w, step))
  {
    hide Covered, AdvanceWorld;
    match step
    case Spawn(client, op) => SpawnCovered(w, Thread(client, op, Enter(c, client, op)));
    case Advance(i, a) => if i < |w.threads| { AdvanceCovered(c, w, i, a); }
    case Cancel(i) => if i < |w.threads| { DropCovered(w, Apply(c, w, step).threads); }
    case Crash => DropCovered(w, Apply(c, w, step).threads);
  }

  lemma {:induction false} RunCovered(c: Crypto, steps: seq<Step>)
    ensures Covered(Run(c, steps))
  {
    if steps != [] {
      hide Apply, Covered;
      RunCovered(c, steps[..|steps| - 1]);
      ApplyCovered(c, Run(c, steps[..|steps| - 1]), steps[|steps| - 1]);
    }
  }
}
