/** One call running by itself: a script of answers drives the same steps as in a full run. */
module Solo {
  import opened Records
  import opened DurableStore
  import opened Protocol

  /** A call's program counter, the store it sees, and the events it has left behind. */
  datatype Local = Local(pc: Pc, store: StoreState, events: seq<Event>)

  ghost function Next(c: Crypto, i: nat, client: Client, op: Op, at: Local, a: Answer): Local {
    var m := ThreadStep(c, i, Thread(client, op, at.pc), at.store, a);
    Local(m.pc, m.store, Log(at.events, m.event))
  }

  /** The call after a script of answers. */
  ghost function Alone(c: Crypto, i: nat, client: Client, op: Op, at: Local, script: seq<Answer>): Local {
    if script == [] then at
    else Next(c, i, client, op, Alone(c, i, client, op, at, script[..|script| - 1]), script[|script| - 1])
  }

  lemma AloneStep(c: Crypto, i: nat, client: Client, op: Op, at: Local, script: seq<Answer>, a: Answer)
    ensures Alone(c, i, client, op, at, script + [a]) == Next(c, i, client, op, Alone(c, i, client, op, at, script), a)
  {
    assert (script + [a])[..|script|] == script;
  }

  lemma {:induction false} AloneAppend(c: Crypto, i: nat, client: Client, op: Op, at: Local, x: seq<Answer>,
                                       y: seq<Answer>)
    ensures Alone(c, i, client, op, at, x + y) == Alone(c, i, client, op, Alone(c, i, client, op, at, x), y)
  {
    hide Next;
    if y == [] {
      assert x + y == x;
    } else {
      var n := |y| - 1;
      AloneAppend(c, i, client, op, at, x, y[..n]);
      assert x + y == (x + y[..n]) + [y[n]];
      assert (x + y)[..|x + y| - 1] == x + y[..n];
    }
  }

  /** The executor calls among some events. */
  function Calls(events: seq<Event>): seq<ToolExecutionRequest> {
    if events == [] then []
    else
      var rest, e := Calls(events[..|events| - 1]), events[|events| - 1];
      if e.Invoked? then rest + [e.request] else rest
  }

  lemma CallsAppend(events: seq<Event>, e: Event)
    ensures Calls(events + [e]) == if e.Invoked? then Calls(events) + [e.request] else Calls(events)
  {
    assert (events + [e])[..|events|] == events;
  }

  function Advances(i: nat, script: seq<Answer>): seq<Step> {
    seq(|script|, k requires 0 <= k < |script| => Advance(i, script[k]))
  }

  function Placed(threads: seq<Thread>, i: nat, at: Local): World
    requires i < |threads|
  {
    World(at.store, threads[i := threads[i].(pc := at.pc)], at.events)
  }

  lemma PlacedThreads(threads: seq<Thread>, i: nat, at: Local)
    requires i < |threads|
    ensures |Placed(threads, i, at).threads| == |threads|
  {
  }

  lemma AdvancesLast(i: nat, script: seq<Answer>, steps: seq<Step>)
    requires script != []
    ensures var n := |script| - 1;
            steps + Advances(i, script) == steps + Advances(i, script[..n]) + [Advance(i, script[n])]
  {
    var n := |script| - 1;
    assert Advances(i, script) == Advances(i, script[..n]) + [Advance(i, script[n])];
  }

  lemma AdvanceIsNext(c: Crypto, threads: seq<Thread>, i: nat, at: Local, a: Answer)
    requires i < |threads|
    ensures AdvanceWorld(c, Placed(threads, i, at), i, a)
         == Placed(threads, i, Next(c, i, threads[i].client, threads[i].op, at, a))
  {
    hide ThreadStep;
    var w := Placed(threads, i, at);
    assert w.threads[i] == Thread(threads[i].client, threads[i].op, at.pc);
  }

  lemma RunAdvance(c: Crypto, steps: seq<Step>, i: nat, a: Answer)
    requires i < |Run(c, steps).threads|
    ensures Run(c, steps + [Advance(i, a)]) == AdvanceWorld(c, Run(c, steps), i, a)
  {
    hide AdvanceWorld;
    assert (steps + [Advance(i, a)])[..|steps|] == steps;
  }

  /** A call left alone is a run in which only its thread advances, so everything proved of runs holds of it. */
  lemma {:induction false} SoloIsARun(c: Crypto, steps: seq<Step>, i: nat, script: seq<Answer>)
    requires i < |Run(c, steps).threads|
    ensures var w := Run(c, steps);
            var t := w.threads[i];
            Run(c, steps + Advances(i, script))
            == Placed(w.threads, i, Alone(c, i, t.client, t.op, Local(t.pc, w.store, w.log), script))
  {
    var w := Run(c, steps);
    var t := w.threads[i];
    if script == [] {
      hide Run;
      assert steps + Advances(i, script) == steps;
      assert w.threads[i := t.(pc := t.pc)] == w.threads;
    } else {
      hide Run, AdvanceWorld, Next, Placed;
      var n := |script| - 1;
      var at := Local(t.pc, w.store, w.log);
      SoloIsARun(c, steps, i, script[..n]);
      assert |Placed(w.threads, i, Alone(c, i, t.client, t.op, at, script[..n])).threads| == |w.threads| by {
        PlacedThreads(w.threads, i, Alone(c, i, t.client, t.op, at, script[..n]));
      }
      AdvancesLast(i, script, steps);
      RunAdvance(c, steps + Advances(i, script[..n]), i, script[n]);
      AdvanceIsNext(c, w.threads, i, Alone(c, i, t.client, t.op, at, script[..n]), script[n]);
    }
  }
}
