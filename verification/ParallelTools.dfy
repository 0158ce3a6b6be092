/** executeToolsParallel of pkg/provider/agent.go, goroutine by goroutine: the spawning loop, the
    WaitGroup and the goroutines' own steps, interleaved in every possible way. */
module ParallelTools {
  import opened Wrappers
  import opened Messages
  import opened AgentLoop

  datatype Goroutine =
    | Unborn
    | Ready
    | Executed(m: Message, d: bool)   // executeOne has returned (m, d)
    | Stored(d: bool)                 // msgs[i] written
    | Flagged                         // the done flag set, if asked for
    | Finished                        // wg.Done()

  datatype State = State(
    calls: seq<ToolCall>,
    added: nat,                       // wg.Add(1) calls made by the spawning loop
    spawned: nat,                     // goroutines started
    wg: int,
    gs: seq<Goroutine>,
    msgs: seq<Message>,
    done: bool,
    joined: bool,                     // wg.Wait() has returned
    outcomes: seq<Option<ExecOutcome>>, // what each execution returned
    executions: multiset<nat>)        // which calls were executed, with multiplicity

  datatype Step =
    | Add
    | Spawn
    | Execute(i: nat, o: ExecOutcome) // the tool may return anything
    | Store(i: nat)
    | Flag(i: nat)
    | Finish(i: nat)
    | Join

  function Init(calls: seq<ToolCall>): State {
    State(calls, 0, 0, 0, seq(|calls|, _ => Unborn), seq(|calls|, _ => ZERO_MESSAGE), false, false,
          seq(|calls|, _ => None), multiset{})
  }

  predicate Sized(s: State) {
    |s.gs| == |s.calls| && |s.msgs| == |s.calls| && |s.outcomes| == |s.calls|
  }

  predicate Enabled(s: State, t: Step) {
    Sized(s) &&
    match t
    case Add => s.added == s.spawned < |s.calls|
    case Spawn => s.spawned < s.added && s.spawned < |s.calls|
    case Execute(i, _) => i < |s.calls| && s.gs[i].Ready?
    case Store(i) => i < |s.calls| && s.gs[i].Executed?
    case Flag(i) => i < |s.calls| && s.gs[i].Stored?
    case Finish(i) => i < |s.calls| && s.gs[i].Flagged?
    case Join => s.spawned == |s.calls| && s.wg == 0 && !s.joined
  }

  function Apply(s: State, t: Step): State
    requires Enabled(s, t)
  {
    match t
    case Add => s.(added := s.added + 1, wg := s.wg + 1)
    case Spawn => s.(spawned := s.spawned + 1, gs := s.gs[s.spawned := Ready])
    case Execute(i, o) =>
      s.(gs := s.gs[i := Executed(ToolMessage(s.calls[i], o), o.err.ErrDone?)],
         outcomes := s.outcomes[i := Some(o)],
         executions := s.executions + multiset{i})
    case Store(i) => s.(gs := s.gs[i := Stored(s.gs[i].d)], msgs := s.msgs[i := s.gs[i].m])
    case Flag(i) => s.(gs := s.gs[i := Flagged], done := s.done || s.gs[i].d)
    case Finish(i) => s.(gs := s.gs[i := Finished], wg := s.wg - 1)
    case Join => s.(joined := true)
  }

  predicate Runs(s: State, schedule: seq<Step>)
    decreases |schedule|
  {
    schedule == [] || (Enabled(s, schedule[0]) && Runs(Apply(s, schedule[0]), schedule[1..]))
  }

  function After(s: State, schedule: seq<Step>): State
    requires Runs(s, schedule)
    decreases |schedule|
  {
    if schedule == [] then s else After(Apply(s, schedule[0]), schedule[1..])
  }

  // ---- invariant --------------------------------------------------------------------------

  function Live(gs: seq<Goroutine>): nat {
    if gs == [] then 0 else (if gs[0].Unborn? || gs[0].Finished? then 0 else 1) + Live(gs[1..])
  }

  lemma {:induction false} LiveReplaced(gs: seq<Goroutine>, i: nat, g: Goroutine)
    requires i < |gs|
    ensures Live(gs[i := g]) == Live(gs)
              - (if gs[i].Unborn? || gs[i].Finished? then 0 else 1)
              + (if g.Unborn? || g.Finished? then 0 else 1)
  {
    if i == 0 {
      assert gs[i := g][1..] == gs[1..];
    } else {
      assert gs[i := g][1..] == gs[1..][i - 1 := g];
      LiveReplaced(gs[1..], i - 1, g);
    }
  }

  lemma {:induction false} NoneLive(gs: seq<Goroutine>)
    ensures Live(gs) == 0 <==> forall i :: 0 <= i < |gs| ==> gs[i].Unborn? || gs[i].Finished?
  {
    if gs != [] {
      NoneLive(gs[1..]);
      assert forall i :: 1 <= i < |gs| ==> gs[i] == gs[1..][i - 1];
    }
  }

  predicate GoroutineOk(s: State, i: nat)
    requires Sized(s) && i < |s.calls|
  {
    && (s.gs[i].Unborn? <==> i >= s.spawned)
    && (s.outcomes[i].None? <==> s.gs[i].Unborn? || s.gs[i].Ready?)
    && s.executions[i] == (if s.outcomes[i].Some? then 1 else 0)
    && (s.outcomes[i].Some? ==>
          var m, d := ToolMessage(s.calls[i], s.outcomes[i].value), s.outcomes[i].value.err.ErrDone?;
          && (s.gs[i].Executed? ==> s.gs[i].m == m && s.gs[i].d == d)
          && (s.gs[i].Stored? ==> s.gs[i].d == d)
          && (!s.gs[i].Executed? ==> s.msgs[i] == m)
          && ((s.gs[i].Flagged? || s.gs[i].Finished?) && d ==> s.done))
  }

  predicate SaidDone(o: Option<ExecOutcome>) {
    o.Some? && o.value.err.ErrDone?
  }

  ghost predicate SomeDone(outcomes: seq<Option<ExecOutcome>>) {
    exists i :: 0 <= i < |outcomes| && SaidDone(outcomes[i])
  }

  predicate GoroutinesOk(s: State)
    requires Sized(s)
  {
    && (forall i :: 0 <= i < |s.calls| ==> GoroutineOk(s, i))
    && (forall i :: i in s.executions ==> i < |s.calls|)
  }

  ghost predicate Inv(s: State) {
    && Sized(s)
    && s.spawned <= s.added <= |s.calls| && s.added <= s.spawned + 1
    && s.wg == Live(s.gs) + (s.added - s.spawned)
    && GoroutinesOk(s)
    && (s.done ==> SomeDone(s.outcomes))
    && (s.joined ==> s.spawned == |s.calls| && s.wg == 0)
  }

  lemma InitInv(calls: seq<ToolCall>)
    ensures Inv(Init(calls))
  {
    NoneLive(Init(calls).gs);
  }

  lemma StepKeepsGoroutine(s: State, t: Step, i: nat)
    requires Inv(s) && Enabled(s, t) && i < |s.calls|
    ensures GoroutineOk(s, i) && GoroutineOk(Apply(s, t), i)
  {
    assert GoroutineOk(s, i);
    if t.Spawn? { assert GoroutineOk(s, s.spawned); }
  }

  lemma StepKeepsDone(s: State, t: Step)
    requires Inv(s) && Enabled(s, t)
    ensures Apply(s, t).done ==> SomeDone(Apply(s, t).outcomes)
  {
    var r := Apply(s, t);
    if s.done {
      var i :| 0 <= i < |s.outcomes| && SaidDone(s.outcomes[i]);
      StepKeepsGoroutine(s, t, i);
      assert SaidDone(r.outcomes[i]);
    } else if r.done {
      assert GoroutineOk(s, t.i) && SaidDone(r.outcomes[t.i]);
    }
  }

  lemma StepKeepsGoroutines(s: State, t: Step)
    requires Inv(s) && Enabled(s, t)
    ensures Sized(Apply(s, t)) && GoroutinesOk(Apply(s, t))
  {
    var r := Apply(s, t);
    forall i | 0 <= i < |s.calls| ensures GoroutineOk(r, i) {
      StepKeepsGoroutine(s, t, i);
    }
  }

  lemma StepKeepsCount(s: State, t: Step)
    requires Inv(s) && Enabled(s, t)
    ensures Apply(s, t).wg == Live(Apply(s, t).gs) + (Apply(s, t).added - Apply(s, t).spawned)
  {
    match t
    case Add =>
    case Spawn =>
      assert GoroutineOk(s, s.spawned);
      LiveReplaced(s.gs, s.spawned, Ready);
    case Execute(i, _) => LiveReplaced(s.gs, i, Apply(s, t).gs[i]);
    case Store(i) => LiveReplaced(s.gs, i, Apply(s, t).gs[i]);
    case Flag(i) => LiveReplaced(s.gs, i, Apply(s, t).gs[i]);
    case Finish(i) => LiveReplaced(s.gs, i, Apply(s, t).gs[i]);
    case Join =>
  }

  lemma StepInv(s: State, t: Step)
    requires Inv(s) && Enabled(s, t)
    ensures Inv(Apply(s, t))
  {
    StepKeepsGoroutines(s, t);
    StepKeepsCount(s, t);
    StepKeepsDone(s, t);
    NotYetJoined(s, t);
  }

  lemma NotYetJoined(s: State, t: Step)
    requires Inv(s) && Enabled(s, t)
    ensures !s.joined
  {
    if s.joined { NoneLive(s.gs); }
  }

  lemma {:induction false} RunInv(s: State, schedule: seq<Step>)
    requires Inv(s) && Runs(s, schedule)
    ensures Inv(After(s, schedule)) && After(s, schedule).calls == s.calls
    decreases |schedule|
  {
    if schedule != [] {
      StepInv(s, schedule[0]);
      RunInv(Apply(s, schedule[0]), schedule[1..]);
    }
  }

  // ---- determinism at the join ------------------------------------------------------------

  // What the tools returned, call by call.
  function Returned(s: State): nat -> ExecOutcome {
    (i: nat) => if i < |s.outcomes| && s.outcomes[i].Some? then s.outcomes[i].value else ExecOutcome("", NoError)
  }

  lemma JoinedSlot(r: State, i: nat)
    requires Inv(r) && r.joined && i < |r.calls|
    ensures r.outcomes[i].Some? && r.executions[i] == 1
    ensures r.msgs[i] == ToolMessage(r.calls[i], r.outcomes[i].value)
    ensures r.outcomes[i].value.err.ErrDone? ==> r.done
  {
    NoneLive(r.gs);
    assert GoroutineOk(r, i);
  }

  // Under every interleaving, when Wait returns each call has been executed exactly once, and the
  // result is the sequential map of executeOne over the calls, given what each tool returned: the
  // order in which goroutines ran leaves no trace.
  lemma JoinIsSequentialMap(calls: seq<ToolCall>, schedule: seq<Step>)
    requires Runs(Init(calls), schedule) && After(Init(calls), schedule).joined
    ensures var r := After(Init(calls), schedule);
      && r.msgs == ToolMessages(calls, Returned(r))
      && (r.done <==> AnyDone(calls, Returned(r)))
      && (forall i: nat :: r.executions[i] == if i < |calls| then 1 else 0)
  {
    InitInv(calls);
    RunInv(Init(calls), schedule);
    JoinedResult(After(Init(calls), schedule));
  }

  // Slot by slot: what the tool of the i-th call returned, or its error in words, under the
  // call's ID; and done is set exactly when one of them asked to stop.
  lemma JoinReads(calls: seq<ToolCall>, schedule: seq<Step>)
    requires Runs(Init(calls), schedule) && After(Init(calls), schedule).joined
    ensures var r := After(Init(calls), schedule);
      && |r.msgs| == |r.outcomes| == |calls|
      && (forall i :: 0 <= i < |calls| ==>
            && r.outcomes[i].Some?
            && var e := r.outcomes[i].value;
               r.msgs[i] ==
                 Message(Tool, if e.err.ToolError? then "Error: " + e.err.text else e.result, calls[i].id, []))
      && (r.done <==> exists i :: 0 <= i < |calls| && r.outcomes[i].Some? && r.outcomes[i].value.err.ErrDone?)
  {
    var r := After(Init(calls), schedule);
    InitInv(calls);
    RunInv(Init(calls), schedule);
    forall i | 0 <= i < |calls|
      ensures r.outcomes[i].Some? && r.msgs[i] == ToolMessage(calls[i], r.outcomes[i].value)
      ensures r.outcomes[i].value.err.ErrDone? ==> r.done
    {
      JoinedSlot(r, i);
    }
    if r.done {
      var i :| 0 <= i < |r.outcomes| && SaidDone(r.outcomes[i]);
      assert r.outcomes[i].value.err.ErrDone?;
    }
  }

  lemma JoinedResult(r: State)
    requires Inv(r) && r.joined
    ensures r.msgs == ToolMessages(r.calls, Returned(r))
    ensures r.done <==> AnyDone(r.calls, Returned(r))
    ensures forall i: nat :: r.executions[i] == if i < |r.calls| then 1 else 0
  {
    var f := Returned(r);
    forall i | 0 <= i < |r.calls|
      ensures r.executions[i] == 1 && r.msgs[i] == ToolMessage(r.calls[i], f(i)) && (f(i).err.ErrDone? ==> r.done)
    {
      JoinedSlot(r, i);
    }
    if r.done {
      var i :| 0 <= i < |r.outcomes| && SaidDone(r.outcomes[i]);
      assert f(i).err.ErrDone?;
    }
  }

  // Two interleavings in which every tool returns the same produce the same result.
  lemma OrderLeavesNoTrace(calls: seq<ToolCall>, one: seq<Step>, two: seq<Step>)
    requires Runs(Init(calls), one) && After(Init(calls), one).joined
    requires Runs(Init(calls), two) && After(Init(calls), two).joined
    requires After(Init(calls), one).outcomes == After(Init(calls), two).outcomes
    ensures After(Init(calls), one).msgs == After(Init(calls), two).msgs
    ensures After(Init(calls), one).done == After(Init(calls), two).done
  {
    JoinIsSequentialMap(calls, one);
    JoinIsSequentialMap(calls, two);
    var f, g := Returned(After(Init(calls), one)), Returned(After(Init(calls), two));
    assert forall i: nat :: f(i) == g(i);
  }

  // Until the join some step is always possible.
  lemma NeverStuck(calls: seq<ToolCall>, schedule: seq<Step>) returns (t: Step)
    requires Runs(Init(calls), schedule) && !After(Init(calls), schedule).joined
    ensures Enabled(After(Init(calls), schedule), t)
  {
    InitInv(calls);
    RunInv(Init(calls), schedule);
    var s := After(Init(calls), schedule);
    NoneLive(s.gs);
    if s.spawned < |calls| {
      t := if s.added == s.spawned then Add else Spawn;
    } else if Live(s.gs) == 0 {
      t := Join;
    } else {
      var i :| 0 <= i < |s.gs| && !s.gs[i].Unborn? && !s.gs[i].Finished?;
      t := if s.gs[i].Ready? then Execute(i, ExecOutcome("", NoError))
           else if s.gs[i].Executed? then Store(i)
           else if s.gs[i].Stored? then Flag(i)
           else Finish(i);
    }
  }
}
