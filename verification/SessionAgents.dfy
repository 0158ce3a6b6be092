/** The agent loop inside a session: whatever provider and tools make of it, a turn can do, and what
    it commits is the log the loop returns. */
module SessionAgents {
  import opened Wrappers
  import opened Basics
  import opened Messages
  import Agent = AgentLoop
  import opened AgentLoopTheorems
  import opened SessionProtocol
  import opened SessionLocks
  import opened SessionHeap
  import opened SessionTheorems
  import opened SessionRuns
  import opened SessionBlocks

  // ---- one step at a time -----------------------------------------------------------------

  // r goes on where run ends with steps of p alone.
  ghost predicate GoesOnAlone(run: Run, r: Run, p: nat) {
    && Prolongs(run, r)
    && forall k :: |run.steps| <= k < |r.steps| ==> r.steps[k].p == p
  }

  lemma AgentStepKept(run: Run, r: Run, k: nat)
    requires AgentRun(run) && k < |run.steps|
    requires Prolongs(run, r) && |r.steps| < |r.states|
    ensures AgentStepAt(r, k)
  {
    assert AgentStepAt(run, k);
    assert r.states[k] == run.states[k] && r.steps[k] == run.steps[k];
  }

  lemma AgentStep(run: Run, p: nat, c: Choice) returns (r: Run)
    requires AgentRun(run) && Enabled(Last(run), p)
    requires Last(run).ops[p].pc.Loop? ==> LoopGoesOn(Last(run).ops[p], c)
    ensures AgentRun(r) && GoesOnAlone(run, r, p) && Last(r) == Apply(Last(run), p, c)
  {
    r := OneMoreStep(run, p, c);
    forall k | 0 <= k < |r.steps| ensures AgentStepAt(r, k) {
      if k < |run.steps| { AgentStepKept(run, r, k); } else { assert r.states[k] == Last(run); }
    }
  }

  // Nothing is committed between s and t, and p keeps its input and its session.
  predicate Holds(s: State, t: State, p: nat) {
    && p < |s.ops| && p < |t.ops|
    && t.ops[p].kind == s.ops[p].kind && t.ops[p].found == s.ops[p].found
    && |s.sessions| <= |t.sessions|
    && forall x :: 0 <= x < |s.sessions| ==> History(t, x) == History(s, x)
  }

  lemma HoldsAgain(run: Run, r1: Run, r: Run, p: nat)
    requires |run.states| > 0 && |r1.states| > 0 && |r.states| > 0
    requires GoesOnAlone(run, r1, p) && GoesOnAlone(r1, r, p)
    requires Holds(Last(run), Last(r1), p) && Holds(Last(r1), Last(r), p)
    ensures GoesOnAlone(run, r, p) && Holds(Last(run), Last(r), p)
  {
    forall k | |run.steps| <= k < |r.steps| ensures r.steps[k].p == p {
      if k < |r1.steps| { assert r.steps[k] == r1.steps[k]; }
    }
  }

  lemma StepHolds(s: State, p: nat, c: Choice)
    requires Enabled(s, p) && LockInv(s) && Reachable(s)
    requires s.ops[p].pc.Remind? || s.ops[p].pc.Loop? || s.ops[p].pc.Strip?
    ensures Holds(s, Apply(s, p, c), p)
  {
    ReachableInv(s);
    OthersStep(s, p, c);
    SessionsGrow(s, p, c);
    forall x | 0 <= x < |s.sessions| ensures History(Apply(s, p, c), x) == History(s, x) {
      HistoryStep(s, p, c, x);
      Assoc(History(s, x), [], []);
    }
  }

  lemma SessionsGrow(s: State, p: nat, c: Choice)
    requires Enabled(s, p) && LockInv(s)
    ensures |s.sessions| <= |Apply(s, p, c).sessions|
  {
    assert OpLocks(s, p);
    SessionsStep(s, p, c);
  }

  lemma LastReachable(run: Run)
    requires FullRun(run)
    ensures Reachable(Last(run)) && LockInv(Last(run))
  {
    FullRunInv(run, |run.states| - 1);
  }

  // ---- the loop ---------------------------------------------------------------------------

  // A turn in its loop that has appended the first j rounds of world w.
  predicate InLoop(s: State, p: nat, w: Agent.World, j: nat) {
    p < |s.ops| && s.ops[p].pc.Loop? && s.ops[p].added == Rounds(w, 0, j)
  }

  lemma LoopStepMoves(s: State, p: nat, c: Choice)
    requires Enabled(s, p) && s.ops[p].pc.Loop?
    ensures var o, o' := s.ops[p], Apply(s, p, c).ops[p];
      if c.loop.Append? then o'.pc.Loop? && o'.added == o.added + c.batch
      else o'.pc.Strip? && o'.added == o.added && o'.failed == c.loop.Fail?
  {
    StepperMoves(s, p, c);
    AddedData(s, p, c);
  }

  function RoundChoice(w: Agent.World, j: nat): Choice {
    Choice(0, "", RoundAt(w, j), Append)
  }

  lemma RoundGoesOn(o: Op, w: Agent.World, j: nat)
    requires o.added == Rounds(w, 0, j)
    requires w.gen(j).Reply? && forall i :: 0 <= i < j ==> Ending(w, i) == None
    ensures LoopGoesOn(o, RoundChoice(w, j)) && o.added + RoundChoice(w, j).batch == Rounds(w, 0, j + 1)
  {
    RealLoopGoesOn(w, j);
    RealRoundsSnoc(w, j);
  }

  lemma AppendsRound(run: Run, p: nat, w: Agent.World, j: nat) returns (r: Run)
    requires AgentRun(run) && InLoop(Last(run), p, w, j)
    requires w.gen(j).Reply? && forall i :: 0 <= i < j ==> Ending(w, i) == None
    ensures AgentRun(r) && GoesOnAlone(run, r, p) && Holds(Last(run), Last(r), p)
    ensures InLoop(Last(r), p, w, j + 1)
  {
    var s, c := Last(run), RoundChoice(w, j);
    RoundGoesOn(s.ops[p], w, j);
    assert Holds(s, Apply(s, p, c), p) by { LastReachable(run); StepHolds(s, p, c); }
    assert InLoop(Apply(s, p, c), p, w, j + 1) by { LoopStepMoves(s, p, c); }
    r := AgentStep(run, p, c);
  }

  // A turn behind its loop.
  predicate LoopEnded(s: State, p: nat, w: Agent.World, n: nat) {
    && p < |s.ops| && s.ops[p].added == Rounds(w, 0, n + 1)
    && (s.ops[p].failed <==> Ending(w, n) != Some(Agent.Answered))
  }

  function EndChoice(w: Agent.World, n: nat): Choice {
    Choice(0, "", [], if Ending(w, n) == Some(Agent.Answered) then Succeed else Fail)
  }

  lemma EndGoesOn(o: Op, w: Agent.World, n: nat)
    requires o.added == Rounds(w, 0, n + 1)
    requires Ending(w, n).Some? && forall i :: 0 <= i < n ==> Ending(w, i) == None
    ensures LoopGoesOn(o, EndChoice(w, n))
  {
    RealLoopGoesOn(w, n);
    if w.gen(n).GenError? { NothingAppended(w, n); }
  }

  lemma EndsLoop(run: Run, p: nat, w: Agent.World, n: nat) returns (r: Run)
    requires AgentRun(run) && InLoop(Last(run), p, w, n + 1)
    requires Ending(w, n).Some? && forall i :: 0 <= i < n ==> Ending(w, i) == None
    ensures AgentRun(r) && GoesOnAlone(run, r, p) && Holds(Last(run), Last(r), p)
    ensures LoopEnded(Last(r), p, w, n) && Last(r).ops[p].pc.Strip?
  {
    var s, c := Last(run), EndChoice(w, n);
    EndGoesOn(s.ops[p], w, n);
    assert Holds(s, Apply(s, p, c), p) by { LastReachable(run); StepHolds(s, p, c); }
    assert LoopEnded(Apply(s, p, c), p, w, n) && Apply(s, p, c).ops[p].pc.Strip? by { LoopStepMoves(s, p, c); }
    r := AgentStep(run, p, c);
  }

  lemma NothingAppended(w: Agent.World, n: nat)
    requires w.gen(n).GenError?
    ensures Rounds(w, 0, n + 1) == Rounds(w, 0, n)
  {
    RealRoundsSnoc(w, n);
    Assoc(Rounds(w, 0, n), [], []);
  }

  lemma {:induction false} RunsLoop(run: Run, p: nat, w: Agent.World, j: nat, n: nat) returns (r: Run)
    requires AgentRun(run) && InLoop(Last(run), p, w, j) && j <= n
    requires Ending(w, n).Some? && forall i :: 0 <= i < n ==> Ending(w, i) == None
    ensures AgentRun(r) && GoesOnAlone(run, r, p) && Holds(Last(run), Last(r), p)
    ensures LoopEnded(Last(r), p, w, n) && Last(r).ops[p].pc.Strip?
    decreases n - j
  {
    var r1 := run;
    if w.gen(j).Reply? {
      r1 := AppendsRound(run, p, w, j);
    } else {
      assert Ending(w, j).Some?;
      NothingAppended(w, j);
      HoldsStill(run, p);
    }
    var r2;
    if j == n { r2 := EndsLoop(r1, p, w, n); } else { r2 := RunsLoop(r1, p, w, j + 1, n); }
    HoldsAgain(run, r1, r2, p);
    r := r2;
  }

  lemma HoldsStill(run: Run, p: nat)
    requires |run.states| > 0 && p < |Last(run).ops|
    ensures GoesOnAlone(run, run, p) && Holds(Last(run), Last(run), p)
  {
  }

  lemma StripMoves(s: State, p: nat, c: Choice)
    requires Enabled(s, p) && s.ops[p].pc.Strip?
    ensures var o, o' := s.ops[p], Apply(s, p, c).ops[p];
      o'.pc.Commit? && o'.added == o.added && o'.failed == o.failed
  {
    StepperMoves(s, p, c);
    AddedData(s, p, c);
  }

  lemma StripsAlone(run: Run, p: nat, w: Agent.World, n: nat) returns (r: Run)
    requires AgentRun(run) && LoopEnded(Last(run), p, w, n) && Last(run).ops[p].pc.Strip?
    ensures AgentRun(r) && GoesOnAlone(run, r, p) && Holds(Last(run), Last(r), p)
    ensures LoopEnded(Last(r), p, w, n) && Last(r).ops[p].pc.Commit?
  {
    var s := Last(run);
    assert Holds(s, Apply(s, p, PLAIN), p) by { LastReachable(run); StepHolds(s, p, PLAIN); }
    StripMoves(s, p, PLAIN);
    r := AgentStep(run, p, PLAIN);
  }

  // What the commit makes of the history.
  lemma CommitAdds(s: State, p: nat, w: Agent.World, n: nat)
    requires Inv(s) && LoopEnded(s, p, w, n) && s.ops[p].pc.Commit?
    ensures var t, o := Apply(s, p, PLAIN), s.ops[p];
      && Enabled(s, p)
      && o.kind.Turn? && o.found.Some? && o.found.value < |s.sessions| && o.found.value < |t.sessions|
      && History(t, o.found.value) == History(s, o.found.value) +
           if Ending(w, n) == Some(Agent.Answered) then UserPart(o.kind.input) + Rounds(w, 0, n + 1) else []
  {
    assert OpLocks(s, p);
    HistoryStep(s, p, PLAIN, s.ops[p].found.value);
  }

  lemma CommitsLoop(run: Run, p: nat, w: Agent.World, n: nat) returns (r: Run)
    requires AgentRun(run) && LoopEnded(Last(run), p, w, n) && Last(run).ops[p].pc.Commit?
    ensures AgentRun(r) && GoesOnAlone(run, r, p)
    ensures var s, t, o := Last(run), Last(r), Last(run).ops[p];
      && o.kind.Turn? && o.found.Some? && o.found.value < |s.sessions| && o.found.value < |t.sessions|
      && History(t, o.found.value) == History(s, o.found.value) +
           if Ending(w, n) == Some(Agent.Answered) then UserPart(o.kind.input) + Rounds(w, 0, n + 1) else []
  {
    FullRunInv(run, |run.states| - 1);
    CommitAdds(Last(run), p, w, n);
    r := AgentStep(run, p, PLAIN);
  }

  // A turn on a session can take the course the loop takes with any provider and any tools, and
  // what the session then holds is the log the loop returns for its history and the user message;
  // unless the loop ends in an error or by a tool: then it holds what it held.
  lemma TurnRunsTheLoop(run: Run, p: nat, w: Agent.World, n: nat) returns (r: Run)
    requires AgentRun(run) && p < |Last(run).ops|
    requires Last(run).ops[p].pc.Loop? && Last(run).ops[p].added == []
    requires Ending(w, n).Some? && forall i :: 0 <= i < n ==> Ending(w, i) == None
    ensures AgentRun(r) && GoesOnAlone(run, r, p)
    ensures var s, t, o := Last(run), Last(r), Last(run).ops[p];
      && o.kind.Turn? && o.found.Some? && o.found.value < |s.sessions| && o.found.value < |t.sessions|
      && var end := Agent.Loop(w, 0, n + 1, History(s, o.found.value) + UserPart(o.kind.input));
         History(t, o.found.value) == if end.status.Answered? then end.log else History(s, o.found.value)
  {
    var r1 := RunsLoop(run, p, w, 0, n);
    var r2 := StripsAlone(r1, p, w, n);
    HoldsAgain(run, r1, r2, p);
    r := CommitsLoop(r2, p, w, n);
    AloneAgain(run, r2, r, p);
    var o := Last(run).ops[p];
    LastReachable(run);
    assert OpLocks(Last(run), p);
    LoopReturns(w, n, History(Last(run), o.found.value), UserPart(o.kind.input));
  }

  lemma AloneAgain(run: Run, r1: Run, r: Run, p: nat)
    requires GoesOnAlone(run, r1, p) && GoesOnAlone(r1, r, p)
    ensures GoesOnAlone(run, r, p)
  {
    forall k | |run.steps| <= k < |r.steps| ensures r.steps[k].p == p {
      if k < |r1.steps| { assert r.steps[k] == r1.steps[k]; }
    }
  }

  lemma LoopReturns(w: Agent.World, n: nat, history: seq<Message>, part: seq<Message>)
    requires Ending(w, n).Some? && forall i :: 0 <= i < n ==> Ending(w, i) == None
    ensures var end := Agent.Loop(w, 0, n + 1, history + part);
      && end.status == Ending(w, n).value
      && end.log == history + (part + Rounds(w, 0, n + 1))
  {
    LoopEndsAtFirstEnding(w, 0, n + 1, history + part, n);
    LoopAppendsRounds(w, 0, n + 1, history + part);
    Assoc(history, part, Rounds(w, 0, n + 1));
  }

  // ---- a run that commits -----------------------------------------------------------------

  lemma RemainingStep(run: Run, k: nat, q: nat)
    requires FullRun(run) && k < |run.steps| && q < |run.states[k].ops|
    ensures q < |run.states[k + 1].ops| && run.states[k + 1].ops[q].kind == run.states[k].ops[q].kind
    ensures Remaining(run.states[k + 1].ops[q]) <= Remaining(run.states[k].ops[q])
  {
    FullRunInv(run, k);
    assert StepAt(run, k);
    OthersStep(run.states[k], run.steps[k].p, run.steps[k].c);
    StepperDescends(run.states[k], run.steps[k].p, run.steps[k].c);
  }

  lemma {:induction false} RemainingFalls(run: Run, k: nat, n: nat, q: nat)
    requires FullRun(run) && k <= n <= |run.steps| && q < |run.states[k].ops|
    ensures q < |run.states[n].ops| && run.states[n].ops[q].kind == run.states[k].ops[q].kind
    ensures Remaining(run.states[n].ops[q]) <= Remaining(run.states[k].ops[q])
    decreases n - k
  {
    if k < n {
      RemainingFalls(run, k, n - 1, q);
      RemainingStep(run, n - 1, q);
    }
  }

  // No turn has come to its loop.
  predicate BeforeLoops(s: State) {
    forall q :: 0 <= q < |s.ops| && s.ops[q].kind.Turn? ==>
      Remaining(s.ops[q]) > Remaining(s.ops[q].(pc := Loop))
  }

  lemma NotInLoop(run: Run, k: nat, q: nat)
    requires FullRun(run) && BeforeLoops(Last(run)) && k <= |run.steps| && q < |run.states[k].ops|
    ensures !run.states[k].ops[q].pc.Loop?
  {
    FullRunInv(run, k);
    assert OpLocks(run.states[k], q);
    RemainingFalls(run, k, |run.steps|, q);
  }

  // Until one has, it does not matter how a run came about.
  lemma NoLoopYet(run: Run)
    requires FullRun(run) && BeforeLoops(Last(run))
    ensures AgentRun(run)
  {
    forall k | 0 <= k < |run.steps| ensures AgentStepAt(run, k) {
      if run.steps[k].p < |run.states[k].ops| { NotInLoop(run, k, run.steps[k].p); }
    }
  }

  lemma ComesToReminder(input: string) returns (run: Run)
    ensures AgentRun(run) && run.states[0] == Init([Create, Turn(0, input)])
    ensures var s := Last(run);
      && |s.ops| == 2 && s.ops[1].pc.Remind?
      && s.ops[1].kind == Turn(0, input) && s.ops[1].found == Some(0) && |s.sessions| == 1
  {
    var r0 := Started([Create, Turn(0, input)]);
    var r1 := CreateAlone(r0, 0);
    var r2 := FetchAlone(r1, 1);
    run := TurnAlone(r2, 1, Remind);
    NoLoopYet(run);
  }

  lemma RemindMoves(s: State, p: nat)
    requires Enabled(s, p) && s.ops[p].pc.Remind? && AddedOk(s.ops[p])
    ensures Apply(s, p, PLAIN).ops[p].pc.Loop? && Apply(s, p, PLAIN).ops[p].added == []
  {
    StepperMoves(s, p, PLAIN);
    AddedData(s, p, PLAIN);
  }

  lemma ComesToLoop(input: string) returns (run: Run)
    ensures AgentRun(run) && run.states[0] == Init([Create, Turn(0, input)])
    ensures var s := Last(run);
      && |s.ops| >= 2 && s.ops[1].pc.Loop? && s.ops[1].added == []
      && s.ops[1].kind == Turn(0, input) && s.ops[1].found == Some(0) && |s.sessions| > 0
  {
    var r := ComesToReminder(input);
    RunAdded(r, |r.steps|, 1);
    RemindMoves(Last(r), 1);
    assert Holds(Last(r), Apply(Last(r), 1, PLAIN), 1) by { LastReachable(r); StepHolds(Last(r), 1, PLAIN); }
    run := AgentStep(r, 1, PLAIN);
  }

  // Any course of the loop is that of some run: of one turn on a new session.
  lemma EveryLoopIsRun(w: Agent.World, n: nat, input: string) returns (run: Run, base: seq<Message>)
    requires Ending(w, n).Some? && forall i :: 0 <= i < n ==> Ending(w, i) == None
    ensures AgentRun(run) && run.states[0] == Init([Create, Turn(0, input)])
    ensures |Last(run).sessions| > 0
    ensures var end := Agent.Loop(w, 0, n + 1, base + UserPart(input));
      History(Last(run), 0) == if end.status.Answered? then end.log else base
  {
    var r1 := ComesToLoop(input);
    run := TurnRunsTheLoop(r1, 1, w, n);
    base := History(Last(r1), 0);
  }

  // A tool that asks to stop, at the first call.
  const STOPPING := Agent.World(
    (k: nat) => Agent.Reply(Response(Message(Model, "", "", [ToolCall("1", "t", NilArgs)]), ZERO_USAGE)),
    (k: nat, i: nat) => Agent.ExecOutcome("", Agent.ErrDone))

  lemma StopsAtOnce()
    ensures Ending(STOPPING, 0) == Some(Agent.StoppedByTool)
    ensures |Rounds(STOPPING, 0, 1)| == 2
  {
    var exec := Agent.Execs(STOPPING, 0);
    assert exec(0).err.ErrDone?;
    RealRoundsSnoc(STOPPING, 0);
  }

  // A turn that a tool stops: the loop returns a longer log, of which the session keeps nothing.
  lemma StoppedTurnIsNotKept(input: string) returns (run: Run, base: seq<Message>)
    ensures AgentRun(run) && run.states[0] == Init([Create, Turn(0, input)])
    ensures |Last(run).sessions| > 0 && History(Last(run), 0) == base
    ensures var end := Agent.Loop(STOPPING, 0, 1, base + UserPart(input));
      end.status.StoppedByTool? && |end.log| >= |base| + 2
  {
    StopsAtOnce();
    run, base := EveryLoopIsRun(STOPPING, 0, input);
    LoopReturns(STOPPING, 0, base, UserPart(input));
  }
}
