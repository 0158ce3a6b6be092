/** What sessions store when their turns run the agent loop: whole exchanges, and no call without
    its answer. */
module SessionBlocks {
  import opened Wrappers
  import opened Basics
  import opened Messages
  import Agent = AgentLoop
  import opened AgentLoopTheorems
  import opened SessionProtocol
  import opened SessionLocks
  import opened SessionTheorems

  // ---- rounds -----------------------------------------------------------------------------

  // A reply and the answers to its calls, if it makes any.
  predicate IsRound(b: seq<Message>) {
    b != [] && Answers(b[1..], b[0].toolCalls)
  }

  lemma RoundExtends(ext: seq<Message>, b: seq<Message>)
    requires CompleteRounds(ext) && IsRound(b)
    ensures if b[0].toolCalls == [] then AnswerEnds(ext + b) else CompleteRounds(ext + b)
  {
    if b[0].toolCalls == [] {
      assert b == [b[0]] && (ext + b)[..|ext + b| - 1] == ext;
    } else {
      assert b[1..|b|] == b[1..] && b[|b|..] == [];
      CompleteRoundsConcat(ext, b);
    }
  }

  lemma {:induction false} CompleteIsNoAnswer(ext: seq<Message>)
    requires CompleteRounds(ext)
    ensures !AnswerEnds(ext)
    decreases |ext|
  {
    if ext != [] {
      var n, init := 1 + |ext[0].toolCalls|, ext[..|ext| - 1];
      CompleteIsNoAnswer(ext[n..]);
      if n < |ext| { assert init[n..] == ext[n..][..|ext[n..]| - 1]; }
      assert init[0] == ext[0];
    }
  }

  // ---- turns that run the agent loop ------------------------------------------------------

  // What the loop does next, given what it has appended: one more round after complete ones,
  // success behind an answer, or an error behind complete rounds.
  predicate LoopGoesOn(o: Op, c: Choice) {
    match c.loop
    case Append => CompleteRounds(o.added) && IsRound(c.batch)
    case Succeed => AnswerEnds(o.added)
    case Fail => CompleteRounds(o.added)
  }

  predicate AgentStepAt(run: Run, k: nat)
    requires k < |run.steps| < |run.states|
  {
    var s, p := run.states[k], run.steps[k].p;
    p < |s.ops| && s.ops[p].pc.Loop? ==> LoopGoesOn(s.ops[p], run.steps[k].c)
  }

  // A run in which every turn runs the agent loop, with whatever provider and tools.
  ghost predicate AgentRun(run: Run) {
    FullRun(run) && forall k :: 0 <= k < |run.steps| ==> AgentStepAt(run, k)
  }

  lemma RealRound(w: Agent.World, k: nat)
    requires w.gen(k).Reply?
    ensures IsRound(RoundAt(w, k)) && RoundAt(w, k)[0] == w.gen(k).resp.message
    ensures Ending(w, k) == Some(Agent.Answered) <==> RoundAt(w, k)[0].toolCalls == []
  {
    var m := w.gen(k).resp.message;
    assert RoundAt(w, k)[1..] == Agent.ToolMessages(m.toolCalls, Agent.Execs(w, k));
  }

  lemma RealRoundsSnoc(w: Agent.World, k: nat)
    ensures Rounds(w, 0, k + 1) == Rounds(w, 0, k) + RoundAt(w, k)
  {
  }

  // The loop itself goes on this way: after generations that do not end it the rounds are
  // complete, what it appends is a round, and it ends as LoopGoesOn allows.
  lemma {:induction false} RealLoopGoesOn(w: Agent.World, j: nat)
    requires forall i :: 0 <= i < j ==> Ending(w, i) == None
    ensures CompleteRounds(Rounds(w, 0, j))
    ensures w.gen(j).Reply? ==> IsRound(RoundAt(w, j))
    ensures Ending(w, j) == Some(Agent.Answered) ==> AnswerEnds(Rounds(w, 0, j + 1))
    ensures Ending(w, j) == Some(Agent.StoppedByTool) ==> CompleteRounds(Rounds(w, 0, j + 1))
  {
    if j > 0 {
      RealLoopGoesOn(w, j - 1);
      RealRoundsSnoc(w, j - 1);
      assert Ending(w, j - 1) == None;
      RealRound(w, j - 1);
      RoundExtends(Rounds(w, 0, j - 1), RoundAt(w, j - 1));
    }
    if w.gen(j).Reply? {
      RealRoundsSnoc(w, j);
      RealRound(w, j);
      RoundExtends(Rounds(w, 0, j), RoundAt(w, j));
    }
  }

  // ---- the invariant ----------------------------------------------------------------------

  predicate AddedOk(o: Op) {
    && (o.pc.Remind? ==> o.added == [])
    && (o.pc.Loop? ==> CompleteRounds(o.added) || AnswerEnds(o.added))
    && (o.pc.Strip? || o.pc.Commit? ==> if o.failed then CompleteRounds(o.added) else AnswerEnds(o.added))
  }

  lemma AddedData(s: State, p: nat, c: Choice)
    requires p < |s.ops| && (s.ops[p].pc.Begin? ==> HasSession(s, p))
    ensures var o, d := s.ops[p], Data(s, p, c);
      && p < |d.ops|
      && (o.pc.Begin? ==> d.ops[p].added == [])
      && (o.pc.Remind? || o.pc.Strip? ==> d.ops[p].added == o.added && d.ops[p].failed == o.failed)
      && (o.pc.Loop? && c.loop.Append? ==> d.ops[p].added == o.added + c.batch)
      && (o.pc.Loop? && !c.loop.Append? ==> d.ops[p].added == o.added && d.ops[p].failed == c.loop.Fail?)
  {
  }

  lemma AddedStep(s: State, p: nat, c: Choice)
    requires LockInv(s) && Enabled(s, p) && AddedOk(s.ops[p])
    requires s.ops[p].pc.Loop? ==> LoopGoesOn(s.ops[p], c)
    ensures p < |Apply(s, p, c).ops| && AddedOk(Apply(s, p, c).ops[p])
  {
    assert OpLocks(s, p);
    StepperMoves(s, p, c);
    AddedData(s, p, c);
    if s.ops[p].pc.Loop? && c.loop.Append? { RoundExtends(s.ops[p].added, c.batch); }
  }

  lemma RunAddedStep(run: Run, k: nat, q: nat)
    requires AgentRun(run) && k < |run.steps| && q < |run.states[k].ops| && AddedOk(run.states[k].ops[q])
    ensures q < |run.states[k + 1].ops| && AddedOk(run.states[k + 1].ops[q])
  {
    var s, step := run.states[k], run.steps[k];
    FullRunInv(run, k);
    assert StepAt(run, k) && AgentStepAt(run, k);
    OthersStep(s, step.p, step.c);
    if q == step.p { AddedStep(s, step.p, step.c); }
  }

  lemma {:induction false} SameOps(run: Run, k: nat)
    requires FullRun(run) && k < |run.states|
    ensures |run.states[k].ops| == |run.states[0].ops|
  {
    if k > 0 {
      SameOps(run, k - 1);
      assert StepAt(run, k - 1);
      OthersStep(run.states[k - 1], run.steps[k - 1].p, run.steps[k - 1].c);
    }
  }

  lemma {:induction false} RunAdded(run: Run, k: nat, q: nat)
    requires AgentRun(run) && k < |run.states| && q < |run.states[k].ops|
    ensures AddedOk(run.states[k].ops[q])
  {
    SameOps(run, k);
    if k > 0 {
      SameOps(run, k - 1);
      RunAdded(run, k - 1, q);
      RunAddedStep(run, k - 1, q);
    }
  }

  // ---- what is stored ---------------------------------------------------------------------

  // One turn: what the user said, the rounds, the answer.
  datatype Exchange = Exchange(input: string, rounds: seq<Message>, answer: Message)

  predicate ExchangeOk(e: Exchange) {
    CompleteRounds(e.rounds) && e.answer.toolCalls == []
  }

  function Flat(e: Exchange): seq<Message> {
    UserPart(e.input) + e.rounds + [e.answer]
  }

  function Transcript(es: seq<Exchange>): seq<Message> {
    Flattened(Flat, es)
  }

  // The exchange that step k commits to session x, if it commits one.
  function ExchangesAt(run: Run, k: nat, x: nat): seq<Exchange> {
    if k < |run.steps| && k < |run.states| && run.steps[k].p < |run.states[k].ops|
    then ExchangesOf(run.states[k].ops[run.steps[k].p], x)
    else []
  }

  function ExchangesOf(o: Op, x: nat): seq<Exchange> {
    if CommitPart(o, x) != [] && o.kind.Turn? && o.added != []
    then [Exchange(o.kind.input, o.added[..|o.added| - 1], o.added[|o.added| - 1])]
    else []
  }

  function Exchanges(run: Run, x: nat): nat -> seq<Exchange> {
    (k: nat) => ExchangesAt(run, k, x)
  }

  lemma OneExchange(e: Exchange, added: seq<Message>)
    requires added == e.rounds + [e.answer]
    ensures Transcript([e]) == UserPart(e.input) + added
  {
    assert FlatMap(Flat, [e], 0) == [];
    Assoc(UserPart(e.input), e.rounds, [e.answer]);
    Assoc(Flat(e), [], []);
  }

  lemma PartIsExchange(o: Op, x: nat)
    requires o.pc.Commit? && !o.failed ==> AnswerEnds(o.added)
    ensures Every(ExchangeOk, ExchangesOf(o, x))
    ensures CommitPart(o, x) == Transcript(ExchangesOf(o, x))
  {
    if CommitPart(o, x) != [] && o.added != [] {
      OneExchange(ExchangesOf(o, x)[0], o.added);
    }
  }

  // What a step commits is nothing or one exchange.
  lemma CommitIsExchange(run: Run, k: nat, x: nat)
    requires AgentRun(run) && k < |run.steps|
    ensures Every(ExchangeOk, ExchangesAt(run, k, x))
    ensures MapsAt(Flat, Exchanges(run, x), Commitments(run, x), k)
  {
    var s, p := run.states[k], run.steps[k].p;
    if p < |s.ops| {
      RunAdded(run, k, p);
      PartIsExchange(s.ops[p], x);
    }
  }

  // Over every run whose turns run the agent loop, a history grows by whole exchanges only: a
  // user message, rounds in which every call is answered, and a last answer that makes none. So
  // no session ever stores a call that is left open.
  lemma HistoriesGrowByExchanges(run: Run, i: nat, j: nat, x: nat)
    requires AgentRun(run) && i <= j <= |run.steps| && x < |run.states[i].sessions|
    ensures x < |run.states[j].sessions|
    ensures var es := Between(Exchanges(run, x), i, j);
      && Every(ExchangeOk, es)
      && History(run.states[j], x) == History(run.states[i], x) + Transcript(es)
  {
    forall k: nat | i <= k < j
      ensures Every(ExchangeOk, Exchanges(run, x)(k)) && MapsAt(Flat, Exchanges(run, x), Commitments(run, x), k)
    {
      CommitIsExchange(run, k, x);
    }
    EveryBetween(ExchangeOk, Exchanges(run, x), i, j);
    FlatMapBetween(Flat, Exchanges(run, x), Commitments(run, x), i, j);
    TurnsAreAtomic(run, i, j, x);
  }

  // A turn is committed exactly when the loop ended behind an answer that makes no call: not when
  // the provider failed, and not when a tool asked to stop.
  lemma OnlyAnswersAreCommitted(run: Run, k: nat)
    requires AgentRun(run) && k < |run.steps| && run.steps[k].p < |run.states[k].ops|
    requires run.states[k].ops[run.steps[k].p].pc.Commit?
    ensures var s, r, o := run.states[k], run.states[k + 1], run.states[k].ops[run.steps[k].p];
      && o.kind.Turn? && o.found.Some? && o.found.value < |s.sessions| && o.found.value < |r.sessions|
      && (!o.failed <==> AnswerEnds(o.added))
      && History(r, o.found.value) ==
           History(s, o.found.value) + if AnswerEnds(o.added) then UserPart(o.kind.input) + o.added else []
  {
    var s, p := run.states[k], run.steps[k].p;
    FullRunInv(run, k);
    assert OpLocks(s, p);
    RunAdded(run, k, p);
    if s.ops[p].failed { CompleteIsNoAnswer(s.ops[p].added); }
    assert StepAt(run, k);
    HistoryStep(s, p, run.steps[k].c, s.ops[p].found.value);
  }
}
