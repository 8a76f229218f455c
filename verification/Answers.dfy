/** How each call answers to each answer it is given, in the words its caller sees. */
module Answers {
  import opened Wrappers
  import opened Records
  import opened Requests
  import opened Uncertain
  import opened Receipts
  import opened DurableStore
  import opened Protocol
  import opened Trails
  import opened ProtocolInvariant
  import opened Runs
  import opened Ownership
  import opened Fields
  import opened Contents

  // ---------------------------------------------------------------- decisions

  /** The world after any run in which one more call is started and is given a decision. */
  ghost function Decided(c: Crypto, steps: seq<Step>, client: Client, op: Op, decision: Decision): World {
    Run(c, steps + [Spawn(client, op), Advance(|Run(c, steps).threads|, DecisionIs(decision))])
  }

  ghost predicate EndsWith(c: Crypto, steps: seq<Step>, v: World, result: Outcome) {
    var w := Run(c, steps);
    && |v.threads| == |w.threads| + 1 && v.threads[|w.threads|].pc == Finished(result)
    && v.threads[..|w.threads|] == w.threads && v.store == w.store && v.log == w.log
  }

  lemma DecidedIs(c: Crypto, steps: seq<Step>, client: Client, op: Op, decision: Decision)
    requires Enter(c, client, op) == Deciding && Governed(op)
    ensures var w := Run(c, steps);
            var m := DecisionStep(c, Thread(client, op, Deciding), w.store, decision);
            Decided(c, steps, client, op, decision)
            == World(m.store, w.threads + [Thread(client, op, m.pc)], Log(w.log, m.event))
  {
    hide Run, Enter, DecisionStep;
    var w := Run(c, steps);
    RunAppend(c, steps, Spawn(client, op));
    RunAppend(c, steps + [Spawn(client, op)], Advance(|w.threads|, DecisionIs(decision)));
    assert steps + [Spawn(client, op), Advance(|w.threads|, DecisionIs(decision))]
        == steps + [Spawn(client, op)] + [Advance(|w.threads|, DecisionIs(decision))];
  }

  lemma EntersDeciding(c: Crypto, client: Client, op: Op)
    requires Governed(op) && ValidExecutorId(client.executorId) && Prepared(op.request)
    requires op.Resume? ==> ValidPending(c, op.handle, op.request.idempotencyId, Body(op.request))
    ensures Enter(c, client, op) == Deciding
  {
    hide ValidPending, Prepared, ValidExecutorId, Body;
  }

  /** A begin that is left pending returns the Proxy's handle, and has stored nothing. */
  lemma BeginPends(c: Crypto, steps: seq<Step>, client: Client, request: Request, p: PendingAuthorization)
    requires ValidExecutorId(client.executorId) && Prepared(request)
    requires ValidPending(c, p, request.idempotencyId, Body(request))
    ensures EndsWith(c, steps, Decided(c, steps, client, Begin(request), Accepted(p)), Pending(p))
  {
    hide ValidPending, Prepared, ValidExecutorId, Body, Enter, Run, Decided;
    EntersDeciding(c, client, Begin(request));
    DecidedIs(c, steps, client, Begin(request), Accepted(p));
  }

  /** A direct execution that needs a review fails and says which; it can never be pending. */
  lemma ExecuteReviews(c: Crypto, steps: seq<Step>, client: Client, request: Request, prepared: bool,
                       p: PendingAuthorization)
    requires ValidExecutorId(client.executorId) && Prepared(request)
    requires ValidPending(c, p, request.idempotencyId, Body(request))
    ensures EndsWith(c, steps, Decided(c, steps, client, Execute(request, prepared), Accepted(p)),
                     Failed(ReviewRequired(p)))
  {
    hide ValidPending, Prepared, ValidExecutorId, Body, Enter, Run, Decided;
    EntersDeciding(c, client, Execute(request, prepared));
    DecidedIs(c, steps, client, Execute(request, prepared), Accepted(p));
  }

  /** A resume stays pending exactly when the Proxy returns the handle it was given; any other handle fails it. */
  lemma ResumePends(c: Crypto, steps: seq<Step>, client: Client, request: Request, h: PendingAuthorization,
                    p: PendingAuthorization)
    requires ValidExecutorId(client.executorId) && Prepared(request)
    requires ValidPending(c, h, request.idempotencyId, Body(request))
    requires ValidPending(c, p, request.idempotencyId, Body(request))
    ensures EndsWith(c, steps, Decided(c, steps, client, Resume(request, h), Accepted(p)),
                     if p == h then Pending(h) else Failed(DecisionFailed))
  {
    hide ValidPending, Prepared, ValidExecutorId, Body, Enter, Run, Decided;
    EntersDeciding(c, client, Resume(request, h));
    DecidedIs(c, steps, client, Resume(request, h), Accepted(p));
  }

  /**
   No decision, a handle that does not fit the request, or a grant that is not accepted: the call fails, storing
   nothing.
   */
  lemma DecisionFails(c: Crypto, steps: seq<Step>, client: Client, op: Op, decision: Decision)
    requires Governed(op) && Enter(c, client, op) == Deciding
    requires match decision
             case NoDecision => true
             case Accepted(p) => !ValidPending(c, p, op.request.idempotencyId, Body(op.request))
             case Granted(signed) => !AcceptsGrant(c, op, signed)
    ensures EndsWith(c, steps, Decided(c, steps, client, op, decision), Failed(DecisionFailed))
  {
    hide ValidPending, AcceptsGrant, Body, Enter, Run, Decided;
    DecidedIs(c, steps, client, op, decision);
  }

  // ---------------------------------------------------------------- lost store calls

  /** A store call lost before it took effect changes nothing; one whose answer is lost did all the same work. */
  lemma LostCalls(c: Crypto, w: World, i: nat)
    requires i < |w.threads|
    ensures var v := AdvanceWorld(c, w, i, StoreSays(LostBefore)); v.store == w.store && v.log == w.log
    ensures var v, u := AdvanceWorld(c, w, i, StoreSays(LostAfter)), AdvanceWorld(c, w, i, StoreSays(Fine));
            v.store == u.store && v.log == u.log
  {
    hide BeginAttempt, CommitEffect, CompletionOf, EntryOf, MarkDelivered, LoadUncertain, ValidUncertainIntent,
         PendingReceipts, HandleOf, IntentOf, FlushNext, AfterDelivery;
  }

  /** What the caller of a lost store call is told. */
  ghost predicate ToldLost(t: Thread, pc: Pc) {
    match t.pc
    case Admitting(_) => pc == Finished(Failed(StoreFailed))
    case Committing(signed, _, _) =>
      && pc.Finished? && pc.result.StillUncertain?
      && if t.op.Reconcile? then
           pc.result.handle == t.op.uncertain.(reason := ReconciledEffectPersistenceFailed,
                                               effectLookupRegistered := true)
         else HandleSays(pc.result.handle, ExecutorOutcomeUnknown, t.client.lookupRegistered, t.client.executorId,
                         signed.authorization)
    case Marking(_, _, _) => pc == Finished(Failed(DeliveryFailed))
    case Loading =>
      t.op.Reconcile? ==>
        && pc.Finished? && pc.result.StillUncertain?
        && pc.result.handle == t.op.uncertain.(reason := DurableIntentUnavailable,
                                               effectLookupRegistered := t.client.lookupRegistered)
    case Fetching => t.op.Flush? ==> pc == Finished(Failed(StoreFailed))
    case _ => pc == t.pc
  }

  /**
   A lost store call is never reported as anything but a failure or an uncertain effect, whichever way it was lost.
   */
  lemma LostAnswers(c: Crypto, w: World, i: nat, fault: Fault)
    requires i < |w.threads| && fault != Fine
    ensures ToldLost(w.threads[i], AdvanceWorld(c, w, i, StoreSays(fault)).threads[i].pc)
  {
    hide BeginAttempt, CommitEffect, CompletionOf, EntryOf, MarkDelivered, LoadUncertain, ValidUncertainIntent,
         PendingReceipts, HandleOf, IntentOf, FlushNext, AfterDelivery, HandleSays;
    var t := w.threads[i];
    if t.pc.Committing? {
      HandleIs(t.client, t.pc.signed, ExecutorOutcomeUnknown);
    }
  }

  // ---------------------------------------------------------------- calls that have ended

  predicate Ended(pc: Pc) {
    pc.Finished? || pc.Cancelled?
  }

  /** Cancelling ends a call that had not finished, where it stood, and touches nothing else. */
  lemma CancelEnds(c: Crypto, w: World, i: nat)
    requires i < |w.threads|
    ensures var v := Apply(c, w, Cancel(i));
            && v.store == w.store && v.log == w.log && |v.threads| == |w.threads|
            && v.threads[i].pc == (if w.threads[i].pc.Finished? then w.threads[i].pc else Cancelled)
            && forall j :: 0 <= j < |w.threads| && j != i ==> v.threads[j] == w.threads[j]
  {
  }

  /** A crash ends every call that had not finished, and keeps the store. */
  lemma CrashEnds(c: Crypto, w: World)
    ensures var v := Apply(c, w, Crash);
            && v.store == w.store && v.log == w.log && |v.threads| == |w.threads|
            && forall j :: 0 <= j < |w.threads| ==>
                 v.threads[j].pc == if w.threads[j].pc.Finished? then w.threads[j].pc else Cancelled
  {
  }

  /** No event after the first `n` was left behind by this call. */
  ghost predicate NothingSince(log: seq<Event>, n: nat, i: nat) {
    forall k :: n <= k < |log| ==> !By(log[k], i)
  }

  lemma EndedStep(c: Crypto, w: World, i: nat, step: Step, n: nat)
    requires i < |w.threads| && Ended(w.threads[i].pc) && NothingSince(w.log, n, i)
    requires Advances(c, w, step)
    ensures var v := Apply(c, w, step);
            i < |v.threads| && v.threads[i].pc == w.threads[i].pc && NothingSince(v.log, n, i)
  {
    hide ThreadStep, Enter;
    if step.Advance? && step.thread < |w.threads| {
      if step.thread == i {
        EndedStutters(c, i, w.threads[i], w.store, step.answer);
      }
    }
  }

  /** The step signs its event with the call that takes it. */
  ghost predicate Advances(c: Crypto, w: World, step: Step) {
    step.Advance? && step.thread < |w.threads| ==>
      var m := ThreadStep(c, step.thread, w.threads[step.thread], w.store, step.answer);
      m.event.Some? ==> forall j :: By(m.event.value, j) ==> j == step.thread
  }

  lemma EndedStutters(c: Crypto, i: nat, t: Thread, s: StoreState, a: Answer)
    requires Ended(t.pc)
    ensures ThreadStep(c, i, t, s, a) == Move(t.pc, s, None)
  {
  }

  lemma StepAdvances(c: Crypto, w: World, step: Step)
    requires WorldOk(c, w)
    ensures Advances(c, w, step)
  {
    hide ThreadStep, StoreOk, Orderly, Exclusive, Attributed, Quiet, ThreadOk;
    if step.Advance? && step.thread < |w.threads| {
      assert ThreadOk(c, step.thread, w.threads[step.thread], w.log);
      StepSigns(c, step.thread, w.threads[step.thread], w.store, w.log, step.answer);
    }
  }

  /**
   A call that has ended, by finishing, by being cancelled or in a crash, does nothing more, however the run goes
   on.
   */
  lemma {:induction false} EndedStays(c: Crypto, steps: seq<Step>, more: seq<Step>, i: nat)
    requires i < |Run(c, steps).threads| && Ended(Run(c, steps).threads[i].pc)
    ensures var w, v := Run(c, steps), Run(c, steps + more);
            i < |v.threads| && v.threads[i].pc == w.threads[i].pc && NothingSince(v.log, |w.log|, i)
  {
    hide Apply, WorldOk, Advances;
    if more == [] {
      assert steps + more == steps;
    } else {
      var m := |more| - 1;
      EndedStays(c, steps, more[..m], i);
      RunOk(c, steps + more[..m]);
      StepAdvances(c, Run(c, steps + more[..m]), more[m]);
      EndedStep(c, Run(c, steps + more[..m]), i, more[m], |Run(c, steps).log|);
      assert (steps + more)[..|steps + more| - 1] == steps + more[..m];
    }
  }
}
