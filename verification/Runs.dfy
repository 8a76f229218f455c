/** The invariant of every reachable world, over any number of interleaved calls, cancellations and crashes. */
module Runs {
  import opened Wrappers
  import opened Uuids
  import opened Records
  import opened Requests
  import opened Uncertain
  import opened Receipts
  import opened DurableStore
  import opened Protocol
  import opened Trails
  import opened ProtocolInvariant

  function IdOf(signed: SignedAuthorization): Uuid {
    signed.authorization.authorizationId
  }

  /** Calls that have not reached their executor, and will not if they are finished. */
  predicate BeforeExecutor(pc: Pc) {
    match pc
    case Deciding => true
    case Admitting(_) => true
    case Invoking(_) => true
    case Finished(Failed(failure)) => !failure.DeliveryFailed?
    case Finished(Pending(_)) => true
    case Finished(StillUncertain(u)) => u.reason == InFlightAfterPriorAttempt
    case _ => false
  }

  /** The calls about to invoke the executor are for different authorizations, none of which was invoked before. */
  ghost predicate Exclusive(threads: seq<Thread>, log: seq<Event>) {
    && (forall i :: 0 <= i < |threads| && threads[i].pc.Invoking? ==> !WasInvoked(log, IdOf(threads[i].pc.signed)))
    && (forall i, j :: 0 <= i < j < |threads| && threads[i].pc.Invoking? && threads[j].pc.Invoking? ==>
          IdOf(threads[i].pc.signed) != IdOf(threads[j].pc.signed))
  }

  ghost predicate GrantedTo(c: Crypto, t: Thread, request: ToolExecutionRequest) {
    exists signed :: Granting(c, t.client, t.op, signed) && request == RequestOf(t.client.executorId, signed)
  }

  /** Each executor call was made by a governed call that accepted the authorization it carries. */
  ghost predicate Attributed(c: Crypto, threads: seq<Thread>, log: seq<Event>) {
    forall k :: 0 <= k < |log| && log[k].Invoked? ==>
      log[k].thread < |threads| && GrantedTo(c, threads[log[k].thread], log[k].request)
  }

  ghost predicate Silent(log: seq<Event>, i: nat) {
    forall k :: 0 <= k < |log| && log[k].Invoked? ==> log[k].thread != i
  }

  ghost predicate Quiet(threads: seq<Thread>, log: seq<Event>) {
    forall i :: 0 <= i < |threads| && BeforeExecutor(threads[i].pc) ==> Silent(log, i)
  }

  ghost predicate ThreadsOk(c: Crypto, threads: seq<Thread>, log: seq<Event>) {
    forall i :: 0 <= i < |threads| ==> ThreadOk(c, i, threads[i], log)
  }

  ghost predicate WorldOk(c: Crypto, w: World) {
    && StoreOk(w.store, w.log)
    && Orderly(c, w.log)
    && ThreadsOk(c, w.threads, w.log)
    && Exclusive(w.threads, w.log)
    && Attributed(c, w.threads, w.log)
    && Quiet(w.threads, w.log)
  }

  // ---------------------------------------------------------------- the shape of a step

  /** Only a call that is about to invoke invokes, and only a first admission makes a call about to invoke. */
  ghost predicate Shape(t: Thread, i: nat, log: seq<Event>, m: Move) {
    && (m.event.Some? && m.event.value.Invoked? ==>
          t.pc.Invoking? && m.pc == AwaitingEffect(t.pc.signed)
          && m.event.value == Invoked(i, RequestOf(t.client.executorId, t.pc.signed)))
    && (m.pc.Invoking? ==>
          (m.pc == t.pc && m.event == None)
          || (m.event == Some(Admitted(IntentOf(t.client.executorId, m.pc.signed)))
              && !WasAdmitted(log, IdOf(m.pc.signed))))
    && (BeforeExecutor(m.pc) ==> BeforeExecutor(t.pc) || !Governed(t.op))
  }

  lemma AdmissionShape(i: nat, t: Thread, s: StoreState, log: seq<Event>, signed: SignedAuthorization, fault: Fault)
    requires StoreOk(s, log) && t.pc == Admitting(signed)
    ensures Shape(t, i, log, AdmissionStep(t, signed, s, fault))
  {
    StoreAdmits(s, log, IntentOf(t.client.executorId, signed), UseOf(t.op));
  }

  lemma ExecutionShape(c: Crypto, i: nat, t: Thread, s: StoreState, log: seq<Event>, a: Answer)
    requires StoreOk(s, log) && Executing(t.pc)
    ensures Shape(t, i, log, ThreadStep(c, i, t, s, a))
  {
    hide StoreOk, AcceptsGrant, ValidPending, Body, BeginAttempt, CommitEffect, CompletionOf, EntryOf;
    if t.pc.Admitting? && a.StoreSays? {
      AdmissionShape(i, t, s, log, t.pc.signed, a.fault);
    }
  }

  lemma MarkShape(i: nat, t: Thread, s: StoreState, log: seq<Event>, a: Answer)
    requires t.pc.Marking? && a.StoreSays? && (t.pc.next.Continue? ==> t.op.Flush?)
    ensures Shape(t, i, log, MarkStep(i, t.pc.entry, t.pc.recorded, t.pc.next, s, a.fault))
  {
  }

  lemma ReconcileShape(c: Crypto, i: nat, t: Thread, s: StoreState, log: seq<Event>, a: Answer)
    requires t.op.Reconcile?
    ensures t.pc.Loading? && a.StoreSays? ==> Shape(t, i, log, LoadStep(c, t, s, a.fault))
    ensures t.pc.LookingUp? && a.LookupSays? ==> Shape(t, i, log, LookupStep(i, t, t.pc.intent, s, a.found))
  {
  }

  lemma DeliveryOps(c: Crypto, i: nat, t: Thread, log: seq<Event>)
    requires ThreadOk(c, i, t, log)
    ensures t.pc.Marking? && t.pc.next.Continue? ==> t.op.Flush?
    ensures t.pc.Loading? || t.pc.LookingUp? ==> t.op.Reconcile?
  {
    hide Granting, Checked, Subseq, Opening, Lead, FromCompletion, ResultOk;
  }

  lemma DeliveryShape(c: Crypto, i: nat, t: Thread, s: StoreState, log: seq<Event>, a: Answer)
    requires ThreadOk(c, i, t, log) && !Executing(t.pc)
    ensures Shape(t, i, log, ThreadStep(c, i, t, s, a))
  {
    hide ThreadOk, ValidPending, MarkDelivered, LoadUncertain, ValidUncertainIntent, PendingReceipts;
    DeliveryOps(c, i, t, log);
    if t.pc.Marking? && a.StoreSays? {
      MarkShape(i, t, s, log, a);
    } else if t.pc.Loading? || t.pc.LookingUp? {
      ReconcileShape(c, i, t, s, log, a);
    }
  }

  lemma StepShape(c: Crypto, i: nat, t: Thread, s: StoreState, log: seq<Event>, a: Answer)
    requires StoreOk(s, log) && ThreadOk(c, i, t, log)
    ensures Shape(t, i, log, ThreadStep(c, i, t, s, a))
  {
    if Executing(t.pc) {
      ExecutionShape(c, i, t, s, log, a);
    } else {
      DeliveryShape(c, i, t, s, log, a);
    }
  }

  // ---------------------------------------------------------------- other threads

  lemma InvokingAdmitted(c: Crypto, i: nat, t: Thread, log: seq<Event>)
    requires ThreadOk(c, i, t, log) && t.pc.Invoking?
    ensures WasAdmitted(log, IdOf(t.pc.signed))
  {
    var before := Invitation(i, t.client, t.pc.signed)[..2];
    var admitted := Admitted(IntentOf(t.client.executorId, t.pc.signed));
    assert before[1] == admitted;
    SubseqMember(before, log, admitted);
    var k :| 0 <= k < |log| && log[k] == admitted;
  }

  lemma OthersOk(c: Crypto, threads: seq<Thread>, i: nat, pc: Pc, log: seq<Event>, event: Option<Event>)
    requires ThreadsOk(c, threads, log) && i < |threads|
    requires ThreadOk(c, i, threads[i].(pc := pc), Log(log, event))
    ensures ThreadsOk(c, threads[i := threads[i].(pc := pc)], Log(log, event))
  {
    var after := threads[i := threads[i].(pc := pc)];
    forall j | 0 <= j < |after| ensures ThreadOk(c, j, after[j], Log(log, event)) {
      if j != i && event.Some? {
        ThreadGrow(c, j, threads[j], log, event.value);
      }
    }
  }

  lemma StaysExclusive(c: Crypto, threads: seq<Thread>, i: nat, log: seq<Event>, m: Move)
    requires ThreadsOk(c, threads, log) && Orderly(c, log) && Exclusive(threads, log) && i < |threads|
    requires Shape(threads[i], i, log, m)
    ensures Exclusive(threads[i := threads[i].(pc := m.pc)], Log(log, m.event))
  {
    var after, longer := threads[i := threads[i].(pc := m.pc)], Log(log, m.event);
    forall j | 0 <= j < |after| && after[j].pc.Invoking? ensures !WasInvoked(longer, IdOf(after[j].pc.signed)) {
      var id := IdOf(after[j].pc.signed);
      if m.event.Some? { InvokedAppend(log, m.event.value, id); }
      if j == i && m.event.Some? && WasInvoked(log, id) {
        InvokedWasAdmitted(c, log, id);
      }
    }
    forall j | 0 <= j < |after| && j != i && after[j].pc.Invoking? && m.pc.Invoking?
      ensures IdOf(after[j].pc.signed) != IdOf(m.pc.signed)
    {
      InvokingAdmitted(c, j, threads[j], log);
    }
  }

  lemma StaysAttributed(c: Crypto, threads: seq<Thread>, i: nat, log: seq<Event>, m: Move)
    requires Attributed(c, threads, log) && ThreadsOk(c, threads, log) && i < |threads|
    requires Shape(threads[i], i, log, m)
    ensures Attributed(c, threads[i := threads[i].(pc := m.pc)], Log(log, m.event))
  {
    var after, longer := threads[i := threads[i].(pc := m.pc)], Log(log, m.event);
    forall k | 0 <= k < |longer| && longer[k].Invoked?
      ensures longer[k].thread < |after| && GrantedTo(c, after[longer[k].thread], longer[k].request)
    {
      if k < |log| {
        assert longer[k] == log[k];
        SameGrant(c, threads[log[k].thread], after[log[k].thread], log[k].request);
      } else {
        assert ThreadOk(c, i, threads[i], log);
        assert Granting(c, after[i].client, after[i].op, threads[i].pc.signed);
      }
    }
  }

  lemma SameGrant(c: Crypto, t: Thread, u: Thread, request: ToolExecutionRequest)
    requires GrantedTo(c, t, request) && t.op == u.op && t.client == u.client
    ensures GrantedTo(c, u, request)
  {
    var signed :| Granting(c, t.client, t.op, signed) && request == RequestOf(t.client.executorId, signed);
    assert Granting(c, u.client, u.op, signed);
  }

  lemma StaysQuiet(threads: seq<Thread>, i: nat, log: seq<Event>, m: Move, c: Crypto)
    requires Quiet(threads, log) && i < |threads| && Shape(threads[i], i, log, m)
    requires Attributed(c, threads, log)
    ensures Quiet(threads[i := threads[i].(pc := m.pc)], Log(log, m.event))
  {
    var after, longer := threads[i := threads[i].(pc := m.pc)], Log(log, m.event);
    forall j | 0 <= j < |after| && BeforeExecutor(after[j].pc) ensures Silent(longer, j) {
      forall k | 0 <= k < |longer| && longer[k].Invoked? ensures longer[k].thread != j {
        if k < |log| {
          assert longer[k] == log[k];
          assert GrantedTo(c, threads[log[k].thread], log[k].request);
        }
      }
    }
  }

  // ---------------------------------------------------------------- steps of the world

  lemma AdvanceKeeps(c: Crypto, w: World, i: nat, a: Answer)
    requires WorldOk(c, w) && i < |w.threads|
    ensures WorldOk(c, AdvanceWorld(c, w, i, a))
  {
    var t := w.threads[i];
    var m := ThreadStep(c, i, t, w.store, a);
    StepKeeps(c, i, t, w.store, w.log, a);
    StepShape(c, i, t, w.store, w.log, a);
    OthersOk(c, w.threads, i, m.pc, w.log, m.event);
    StaysExclusive(c, w.threads, i, w.log, m);
    StaysAttributed(c, w.threads, i, w.log, m);
    StaysQuiet(w.threads, i, w.log, m, c);
  }

  /** A new call knows nothing of the log. */
  lemma EnterOk(c: Crypto, i: nat, client: Client, op: Op, log: seq<Event>)
    ensures ThreadOk(c, i, Thread(client, op, Enter(c, client, op)), log)
    ensures !Enter(c, client, op).Invoking?
  {
  }

  lemma SpawnThreadsOk(c: Crypto, threads: seq<Thread>, t: Thread, log: seq<Event>)
    requires ThreadsOk(c, threads, log) && ThreadOk(c, |threads|, t, log)
    ensures ThreadsOk(c, threads + [t], log)
  {
    hide ThreadOk;
    forall j | 0 <= j < |threads + [t]| ensures ThreadOk(c, j, (threads + [t])[j], log) {
      if j < |threads| {
        assert (threads + [t])[j] == threads[j];
        assert ThreadOk(c, j, threads[j], log);
      } else {
        assert (threads + [t])[j] == t;
      }
    }
  }

  lemma SpawnRest(c: Crypto, threads: seq<Thread>, t: Thread, log: seq<Event>)
    requires Exclusive(threads, log) && Attributed(c, threads, log) && Quiet(threads, log) && !t.pc.Invoking?
    ensures Exclusive(threads + [t], log) && Attributed(c, threads + [t], log) && Quiet(threads + [t], log)
  {
    assert Silent(log, |threads|);
  }

  lemma SpawnKeeps(c: Crypto, w: World, client: Client, op: Op)
    requires WorldOk(c, w)
    ensures WorldOk(c, Apply(c, w, Spawn(client, op)))
  {
    var t := Thread(client, op, Enter(c, client, op));
    EnterOk(c, |w.threads|, client, op, w.log);
    SpawnThreadsOk(c, w.threads, t, w.log);
    SpawnRest(c, w.threads, t, w.log);
  }

  /** Dropping threads keeps everything, since a dropped thread claims nothing. */
  lemma DropKeeps(c: Crypto, w: World, after: seq<Thread>)
    requires WorldOk(c, w) && |after| == |w.threads|
    requires forall j :: 0 <= j < |after| ==> after[j] == w.threads[j] || after[j] == Drop(w.threads[j])
    ensures WorldOk(c, w.(threads := after))
  {
    hide StoreOk, Orderly, Granting;
    forall j | 0 <= j < |after| ensures ThreadOk(c, j, after[j], w.log) {
      assert ThreadOk(c, j, w.threads[j], w.log);
    }
    forall k | 0 <= k < |w.log| && w.log[k].Invoked? ensures GrantedTo(c, after[w.log[k].thread], w.log[k].request) {
      SameGrant(c, w.threads[w.log[k].thread], after[w.log[k].thread], w.log[k].request);
    }
  }

  lemma ApplyKeeps(c: Crypto, w: World, step: Step)
    requires WorldOk(c, w)
    ensures WorldOk(c, Apply(c, w, step))
  {
    match step
    case Spawn(client, op) => SpawnKeeps(c, w, client, op);
    case Advance(i, a) => if i < |w.threads| { AdvanceKeeps(c, w, i, a); }
    case Cancel(i) => if i < |w.threads| { DropKeeps(c, w, Apply(c, w, step).threads); }
    case Crash => DropKeeps(c, w, Apply(c, w, step).threads);
  }

  /** The invariant holds after every run. */
  lemma {:induction false} RunOk(c: Crypto, steps: seq<Step>)
    ensures WorldOk(c, Run(c, steps))
  {
    if steps == [] {
      EmptyWellFormed();
    } else {
      RunOk(c, steps[..|steps| - 1]);
      ApplyKeeps(c, Run(c, steps[..|steps| - 1]), steps[|steps| - 1]);
    }
  }

  // ---------------------------------------------------------------- longer runs

  lemma RunAppend(c: Crypto, steps: seq<Step>, step: Step)
    ensures Run(c, steps + [step]) == Apply(c, Run(c, steps), step)
  {
    assert (steps + [step])[..|steps|] == steps;
  }

  lemma FourSteps(c: Crypto, steps: seq<Step>, s1: Step, s2: Step, s3: Step, s4: Step)
    ensures Run(c, steps + [s1, s2, s3, s4]) == Apply(c, Apply(c, Apply(c, Apply(c, Run(c, steps), s1), s2), s3), s4)
  {
    hide Apply;
    RunAppend(c, steps, s1);
    RunAppend(c, steps + [s1], s2);
    RunAppend(c, steps + [s1] + [s2], s3);
    RunAppend(c, steps + [s1] + [s2] + [s3], s4);
    assert steps + [s1, s2, s3, s4] == steps + [s1] + [s2] + [s3] + [s4];
  }

  lemma LogGrows(c: Crypto, w: World, step: Step)
    ensures w.log <= Apply(c, w, step).log
  {
    hide ThreadStep;
  }

  lemma {:induction false} RunLogGrows(c: Crypto, steps: seq<Step>, more: seq<Step>)
    ensures Run(c, steps).log <= Run(c, steps + more).log
  {
    if more == [] {
      assert steps + more == steps;
    } else {
      var n := |more| - 1;
      RunLogGrows(c, steps, more[..n]);
      assert (steps + more)[..|steps + more| - 1] == steps + more[..n];
      LogGrows(c, Run(c, steps + more[..n]), more[n]);
    }
  }

  lemma OpsKept(c: Crypto, w: World, step: Step, i: nat)
    requires i < |w.threads|
    ensures var after := Apply(c, w, step).threads;
            i < |after| && after[i].client == w.threads[i].client && after[i].op == w.threads[i].op
  {
    hide ThreadStep, Enter;
  }

  /** A call keeps its client and its operation however a run goes on. */
  lemma {:induction false} RunOpsKept(c: Crypto, steps: seq<Step>, more: seq<Step>, i: nat)
    requires i < |Run(c, steps).threads|
    ensures var before, after := Run(c, steps).threads, Run(c, steps + more).threads;
            i < |after| && after[i].client == before[i].client && after[i].op == before[i].op
  {
    hide Apply;
    if more == [] {
      assert steps + more == steps;
    } else {
      var n := |more| - 1;
      RunOpsKept(c, steps, more[..n], i);
      assert (steps + more)[..|steps + more| - 1] == steps + more[..n];
      OpsKept(c, Run(c, steps + more[..n]), more[n], i);
    }
  }

  /** A world that some run leads to. */
  ghost predicate Reachable(c: Crypto, w: World) {
    exists steps :: Run(c, steps) == w
  }

  lemma ReachableOk(c: Crypto, w: World)
    requires Reachable(c, w)
    ensures WorldOk(c, w)
  {
    hide Run, WorldOk;
    var steps :| Run(c, steps) == w;
    RunOk(c, steps);
  }

  /** A world that some run reaches by way of another. */
  ghost predicate Continues(c: Crypto, w: World, v: World) {
    exists steps, more :: Run(c, steps) == w && Run(c, steps + more) == v
  }
}
