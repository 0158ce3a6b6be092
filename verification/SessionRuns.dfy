/** Runs in which one operation at a time moves while the others wait, and the two that show what
    Close does not prevent. */
module SessionRuns {
  import opened Wrappers
  import opened Messages
  import opened SessionProtocol
  import opened SessionLocks
  import opened SessionHeap
  import opened SessionTheorems
  import opened SessionRemoval

  // What the environment does where it does not matter; the provider succeeds at once.
  const PLAIN := Choice(0, "", [], Succeed)

  function Last(run: Run): State
    requires run.states != []
  {
    run.states[|run.states| - 1]
  }

  // r goes on where run ends.
  predicate Prolongs(run: Run, r: Run) {
    run.states <= r.states && run.steps <= r.steps
  }

  lemma StepKept(run: Run, r: Run, k: nat)
    requires IsRun(run) && k < |run.steps|
    requires |r.states| == |r.steps| + 1 && Prolongs(run, r)
    ensures StepAt(r, k)
  {
    assert StepAt(run, k);
    assert r.states[k] == run.states[k] && r.states[k + 1] == run.states[k + 1] && r.steps[k] == run.steps[k];
  }

  lemma OneMoreStep(run: Run, p: nat, c: Choice) returns (r: Run)
    requires FullRun(run) && Enabled(Last(run), p)
    ensures FullRun(r) && Prolongs(run, r) && |r.steps| == |run.steps| + 1
    ensures Last(r) == Apply(Last(run), p, c) && r.steps[|run.steps|] == Step(p, c)
  {
    r := Run(run.states + [Apply(Last(run), p, c)], run.steps + [Step(p, c)]);
    forall k | 0 <= k < |r.steps| ensures StepAt(r, k) {
      if k < |run.steps| { StepKept(run, r, k); }
    }
  }

  // ---- moving alone -----------------------------------------------------------------------

  // An operation that holds nothing another could wait for.
  predicate Parked(pc: PC) {
    !HoldsMu(pc) && !HoldsCancelMu(pc) && !HoldsRead(pc) && !Writing(pc)
  }

  predicate OthersParked(s: State, p: nat) {
    p < |s.ops| && forall q :: 0 <= q < |s.ops| && q != p ==> Parked(s.ops[q].pc)
  }

  lemma AloneEnabled(s: State, p: nat)
    requires LockInv(s) && OthersParked(s, p) && s.ops[p].pc != Done
    ensures Enabled(s, p)
  {
    assert OpLocks(s, p);
    if HasSession(s, p) { assert LocksOk(s, s.ops[p].found.value); }
    forall q | q in s.readers ensures q == p { assert OpLocks(s, q); }
    if s.writer.Some? { assert OpLocks(s, s.writer.value); }
    assert p in s.readers ==> HoldsRead(s.ops[p].pc);
    if Act(s.ops[p].pc).WriteLock? { assert s.readers == {}; }
  }

  // Everything but operation p itself, the sessions and the map.
  predicate Bystanders(s: State, t: State, p: nat) {
    && |t.ops| == |s.ops| && p < |s.ops|
    && t.ops[p].kind == s.ops[p].kind
    && forall q :: 0 <= q < |s.ops| && q != p ==> t.ops[q] == s.ops[q]
  }

  lemma BystandersAgain(s: State, t: State, u: State, p: nat)
    requires Bystanders(s, t, p) && Bystanders(t, u, p)
    ensures Bystanders(s, u, p)
  {
  }

  // What a plain step of p does to the map, the sessions and the control of p.
  predicate MovesOn(s: State, r: State, p: nat)
    requires p < |s.ops|
  {
    var o := s.ops[p];
    && Bystanders(s, r, p)
    && r.ops[p].found == (if o.pc.GetRead? || o.pc.LookRead? then Lookup(s, o.kind) else o.found)
    && r.ops[p].failed == (!o.pc.Loop? && o.failed)
    && r.ops[p].pc == NextPc(o.(found := r.ops[p].found), PLAIN)
    && (o.pc.Delete? ==> Closes(o.kind))
    && if o.pc.Delete? then r.live == s.live - {o.kind.id} && |r.sessions| == |s.sessions|
       else if o.pc.NewInsert? then r.live == s.live + {|s.sessions|} && |r.sessions| == |s.sessions| + 1
       else r.live == s.live && |r.sessions| == |s.sessions|
  }

  lemma PlainLocals(s: State, p: nat)
    requires p < |s.ops|
    ensures var o, d := s.ops[p], Data(s, p, PLAIN);
      && p < |d.ops|
      && d.ops[p].found == (if o.pc.GetRead? || o.pc.LookRead? then Lookup(s, o.kind) else o.found)
      && d.ops[p].failed == (!o.pc.Loop? && o.failed)
  {
  }

  lemma StepMovesOn(s: State, p: nat)
    requires LockInv(s) && Enabled(s, p)
    ensures MovesOn(s, Apply(s, p, PLAIN), p)
  {
    MapStep(s, p, PLAIN);
    OthersStep(s, p, PLAIN);
    StepperMoves(s, p, PLAIN);
    PlainLocals(s, p);
  }

  lemma AloneStep(run: Run, p: nat) returns (r: Run)
    requires FullRun(run) && OthersParked(Last(run), p) && Last(run).ops[p].pc != Done
    ensures FullRun(r) && Prolongs(run, r) && |r.steps| == |run.steps| + 1
    ensures OthersParked(Last(r), p) && MovesOn(Last(run), Last(r), p)
    ensures r.steps[|run.steps|].p == p
  {
    FullRunInv(run, |run.steps|);
    AloneEnabled(Last(run), p);
    StepMovesOn(Last(run), p);
    r := OneMoreStep(run, p, PLAIN);
  }

  // Nothing but the control of p moves on, to next.
  predicate Passes(s: State, r: State, p: nat, next: PC) {
    && Bystanders(s, r, p)
    && r.ops[p].found == s.ops[p].found && r.ops[p].failed == s.ops[p].failed && r.ops[p].pc == next
    && r.live == s.live && |r.sessions| == |s.sessions|
  }

  predicate IsPlain(pc: PC) {
    !pc.GetRead? && !pc.LookRead? && !pc.Delete? && !pc.NewInsert? && !pc.Loop? && !pc.Done?
  }

  lemma PlainStep(run: Run, p: nat, next: PC) returns (r: Run)
    requires FullRun(run) && OthersParked(Last(run), p)
    requires IsPlain(Last(run).ops[p].pc) && next == NextPc(Last(run).ops[p], PLAIN)
    ensures FullRun(r) && Prolongs(run, r) && OthersParked(Last(r), p)
    ensures Passes(Last(run), Last(r), p, next)
  {
    r := AloneStep(run, p);
  }

  lemma PassesAgain(s: State, t: State, u: State, p: nat, next: PC, last: PC)
    requires Passes(s, t, p, next) && Passes(t, u, p, last)
    ensures Passes(s, u, p, last)
  {
  }

  lemma TwoPlainSteps(run: Run, p: nat, next: PC, last: PC) returns (r: Run)
    requires FullRun(run) && OthersParked(Last(run), p)
    requires IsPlain(Last(run).ops[p].pc) && next == NextPc(Last(run).ops[p], PLAIN)
    requires IsPlain(next) && last == NextPc(Last(run).ops[p].(pc := next), PLAIN)
    ensures FullRun(r) && Prolongs(run, r) && OthersParked(Last(r), p)
    ensures Passes(Last(run), Last(r), p, last)
  {
    var r1 := PlainStep(run, p, next);
    r := PlainStep(r1, p, last);
    PassesAgain(Last(run), Last(r1), Last(r), p, next, last);
  }

  // The insertion, alone.
  lemma InsertAlone(run: Run, p: nat) returns (r: Run)
    requires FullRun(run) && OthersParked(Last(run), p) && Last(run).ops[p].pc.NewInsert?
    ensures FullRun(r) && Prolongs(run, r) && OthersParked(Last(r), p) && Bystanders(Last(run), Last(r), p)
    ensures var s, t := Last(run), Last(r);
      t.ops[p].pc.NewRelease? && |t.sessions| == |s.sessions| + 1 && t.live == s.live + {|s.sessions|}
  {
    r := AloneStep(run, p);
  }

  // Create, alone: one more session, in the map.
  lemma CreateAlone(run: Run, p: nat) returns (r: Run)
    requires FullRun(run) && OthersParked(Last(run), p)
    requires Last(run).ops[p].kind.Create? && Last(run).ops[p].pc.NewAnnounce?
    ensures FullRun(r) && Prolongs(run, r) && OthersParked(Last(r), p) && Bystanders(Last(run), Last(r), p)
    ensures var s, t := Last(run), Last(r);
      t.ops[p].pc.Done? && |t.sessions| == |s.sessions| + 1 && t.live == s.live + {|s.sessions|}
  {
    var r1 := TwoPlainSteps(run, p, NewAcquire, NewInsert);
    var r2 := InsertAlone(r1, p);
    r := PlainStep(r2, p, Done);
    BystandersAgain(Last(run), Last(r1), Last(r2), p);
    BystandersAgain(Last(run), Last(r2), Last(r), p);
  }

  // A lookup that finds its session.
  lemma ReadAlone(run: Run, p: nat) returns (r: Run)
    requires FullRun(run) && OthersParked(Last(run), p)
    requires var o := Last(run).ops[p];
      (o.pc.GetRead? || o.pc.LookRead?) && (o.kind.Turn? || o.kind.Close?) && o.kind.id in Last(run).live
    ensures FullRun(r) && Prolongs(run, r) && OthersParked(Last(r), p) && Bystanders(Last(run), Last(r), p)
    ensures var s, t := Last(run), Last(r);
      && t.ops[p].pc == (if s.ops[p].pc.GetRead? then GetUnlock else LookUnlock)
      && t.ops[p].found == Some(s.ops[p].kind.id) && t.ops[p].failed == s.ops[p].failed
      && |t.sessions| == |s.sessions| && t.live == s.live
  {
    r := AloneStep(run, p);
  }

  // A turn, alone, up to the session lock it has not taken yet.
  lemma FetchAlone(run: Run, p: nat) returns (r: Run)
    requires FullRun(run) && OthersParked(Last(run), p)
    requires Last(run).ops[p].kind.Turn? && Last(run).ops[p].pc.GetLock?
    requires Last(run).ops[p].kind.id in Last(run).live
    ensures FullRun(r) && Prolongs(run, r) && OthersParked(Last(r), p) && Bystanders(Last(run), Last(r), p)
    ensures var s, t := Last(run), Last(r);
      && t.ops[p].pc.TurnLock?
      && t.ops[p].found == Some(s.ops[p].kind.id) && t.ops[p].failed == s.ops[p].failed
      && |t.sessions| == |s.sessions| && t.live == s.live
  {
    var r1 := PlainStep(run, p, GetRead);
    var r2 := ReadAlone(r1, p);
    r := PlainStep(r2, p, TurnLock);
    BystandersAgain(Last(run), Last(r1), Last(r2), p);
    BystandersAgain(Last(run), Last(r2), Last(r), p);
  }

  // A Close, alone, through its lookup.
  lemma LookAlone(run: Run, p: nat) returns (r: Run)
    requires FullRun(run) && OthersParked(Last(run), p)
    requires Last(run).ops[p].kind.Close? && Last(run).ops[p].pc.LookLock?
    requires Last(run).ops[p].kind.id in Last(run).live
    ensures FullRun(r) && Prolongs(run, r) && OthersParked(Last(r), p) && Bystanders(Last(run), Last(r), p)
    ensures var s, t := Last(run), Last(r);
      && t.ops[p].pc.CancelLock? && t.ops[p].found == Some(s.ops[p].kind.id)
      && |t.sessions| == |s.sessions| && t.live == s.live
  {
    var r1 := PlainStep(run, p, LookRead);
    var r2 := ReadAlone(r1, p);
    r := PlainStep(r2, p, CancelLock);
    BystandersAgain(Last(run), Last(r1), Last(r2), p);
    BystandersAgain(Last(run), Last(r2), Last(r), p);
  }

  // The points of a Close behind a lookup that found the session.
  predicate Closing(pc: PC) {
    || pc.CancelLock? || pc.CancelCall? || pc.CancelUnlock?
    || pc.FinLock? || pc.FinTake? || pc.FinRead? || pc.FinUnlock?
    || pc.DelAnnounce? || pc.DelAcquire? || pc.Delete? || pc.DelRelease?
  }

  // A Close behind its lookup; once it has deleted, its session is out of the map.
  predicate ClosesOn(s: State, p: nat) {
    p < |s.ops| &&
    var o := s.ops[p];
    && o.kind.Close? && o.found == Some(o.kind.id) && (Closing(o.pc) || o.pc.Done?)
    && (o.pc.DelRelease? || o.pc.Done? ==> o.kind.id !in s.live)
  }

  lemma ClosesOnStep(s: State, r: State, p: nat)
    requires ClosesOn(s, p) && MovesOn(s, r, p) && !s.ops[p].pc.Done?
    ensures ClosesOn(r, p) && Bystanders(s, r, p) && |r.sessions| == |s.sessions|
    ensures r.ops[p].found == s.ops[p].found && Remaining(r.ops[p]) < Remaining(s.ops[p])
  {
  }

  // A Close, alone, from its lookup to its end.
  lemma CloseAlone(run: Run, p: nat) returns (r: Run)
    requires FullRun(run) && OthersParked(Last(run), p) && ClosesOn(Last(run), p)
    ensures FullRun(r) && Prolongs(run, r) && Bystanders(Last(run), Last(r), p)
    ensures var s, t := Last(run), Last(r);
      && t.ops[p].pc.Done? && t.ops[p].found == s.ops[p].found
      && |t.sessions| == |s.sessions| && s.ops[p].kind.id !in t.live
    decreases Remaining(Last(run).ops[p])
  {
    if Last(run).ops[p].pc.Done? {
      r := run;
    } else {
      var r1 := AloneStep(run, p);
      ClosesOnStep(Last(run), Last(r1), p);
      r := CloseAlone(r1, p);
      BystandersAgain(Last(run), Last(r1), Last(r), p);
    }
  }

  // A turn on its way from the session lock to its commit.
  predicate BeforeCommit(pc: PC) {
    || pc.TurnLock? || pc.SetLock? || pc.SetCancel? || pc.SetUnlock?
    || pc.Begin? || pc.Remind? || pc.Loop? || pc.Strip?
  }

  predicate TurnsOn(s: State, p: nat) {
    p < |s.ops| &&
    var o := s.ops[p];
    o.kind.Turn? && o.found.Some? && !o.failed && (BeforeCommit(o.pc) || o.pc.Commit?)
  }

  lemma TurnsOnStep(s: State, r: State, p: nat)
    requires TurnsOn(s, p) && MovesOn(s, r, p) && !s.ops[p].pc.Commit?
    ensures TurnsOn(r, p) && Bystanders(s, r, p) && |r.sessions| == |s.sessions| && r.live == s.live
    ensures r.ops[p].found == s.ops[p].found && Remaining(r.ops[p]) == Remaining(s.ops[p]) - 1
  {
  }

  // A turn, alone, to a later point on that way.
  lemma TurnAlone(run: Run, p: nat, goal: PC) returns (r: Run)
    requires FullRun(run) && OthersParked(Last(run), p) && TurnsOn(Last(run), p)
    requires BeforeCommit(goal) || goal.Commit?
    requires Remaining(Last(run).ops[p].(pc := goal)) <= Remaining(Last(run).ops[p])
    ensures FullRun(r) && Prolongs(run, r) && OthersParked(Last(r), p) && Bystanders(Last(run), Last(r), p)
    ensures var s, t := Last(run), Last(r);
      && t.ops[p].pc == goal && t.ops[p].found == s.ops[p].found && !t.ops[p].failed
      && |t.sessions| == |s.sessions| && t.live == s.live
    decreases Remaining(Last(run).ops[p])
  {
    if Last(run).ops[p].pc == goal {
      r := run;
    } else {
      SamePoint(Last(run).ops[p], goal);
      var r1 := AloneStep(run, p);
      TurnsOnStep(Last(run), Last(r1), p);
      r := TurnAlone(r1, p, goal);
      BystandersAgain(Last(run), Last(r1), Last(r), p);
    }
  }

  lemma SamePoint(o: Op, goal: PC)
    requires BeforeCommit(o.pc) || o.pc.Commit?
    requires BeforeCommit(goal) || goal.Commit?
    ensures Remaining(o) == Remaining(o.(pc := goal)) <==> o.pc == goal
    ensures Remaining(o.(pc := goal)) >= Remaining(o.(pc := Commit))
  {
  }

  // ---- a commit to a session that is gone -------------------------------------------------

  lemma Started(kinds: seq<Kind>) returns (run: Run)
    ensures FullRun(run) && Last(run) == Init(kinds) && |run.steps| == 0
  {
    run := Run([Init(kinds)], []);
  }

  lemma TurnFetches() returns (run: Run)
    ensures FullRun(run) && run.states[0] == Init([Create, Turn(0, "x"), Close(0)])
    ensures var s := Last(run);
      && OthersParked(s, 1) && |s.ops| == 3 && s.live == {0} && |s.sessions| == 1
      && s.ops[0].pc.Done?
      && s.ops[1].kind == Turn(0, "x") && s.ops[1].pc.TurnLock? && s.ops[1].found == Some(0) && !s.ops[1].failed
      && s.ops[2].kind == Close(0) && s.ops[2].pc.LookLock?
  {
    var r0 := Started([Create, Turn(0, "x"), Close(0)]);
    var r1 := CreateAlone(r0, 0);
    run := FetchAlone(r1, 1);
  }

  lemma CloseOvertakesTurn() returns (run: Run)
    ensures FullRun(run) && run.states[0] == Init([Create, Turn(0, "x"), Close(0)])
    ensures var s := Last(run);
      && OthersParked(s, 1) && 0 !in s.live && |s.sessions| == 1
      && s.ops[1].kind == Turn(0, "x") && s.ops[1].pc.TurnLock? && s.ops[1].found == Some(0) && !s.ops[1].failed
  {
    var r2 := TurnFetches();
    var r3 := LookAlone(r2, 2);
    run := CloseAlone(r3, 2);
  }

  // The commit itself.
  lemma CommitAlone(run: Run, p: nat) returns (r: Run)
    requires FullRun(run) && OthersParked(Last(run), p) && Last(run).ops[p].pc.Commit?
    requires Commits(Last(run), p)
    ensures FullRun(r) && Prolongs(run, r) && |r.steps| == |run.steps| + 1
    ensures r.steps[|run.steps|].p == p && Last(r).live == Last(run).live
    ensures var s, t, o := Last(run), Last(r), Last(run).ops[p];
      var x := o.found.value;
      && o.kind.Turn? && x < |s.sessions| && x < |t.sessions|
      && History(t, x) == History(s, x) + UserPart(o.kind.input) + o.added
  {
    r := AloneStep(run, p);
    OrphanCommitExactlyWhen(r, |run.steps|);
  }

  // A turn that has fetched the session waits at its lock while a Close runs from beginning to
  // end; then it commits, to a session that is no longer in the map.
  lemma TurnCommitsAfterClose() returns (run: Run, k: nat)
    ensures FullRun(run) && k + 1 == |run.steps|
    ensures run.states[0] == Init([Create, Turn(0, "x"), Close(0)])
    ensures var s, r := run.states[k], run.states[k + 1];
      && run.steps[k].p == 1 && 1 < |s.ops| && Commits(s, 1)
      && 0 !in s.live && 0 !in r.live
      && 0 < |s.sessions| && 0 < |r.sessions| && History(s, 0) + [UserMessage("x")] <= History(r, 0)
  {
    var r4 := CloseOvertakesTurn();
    var r5 := TurnAlone(r4, 1, Commit);
    k := |r5.steps|;
    run := CommitAlone(r5, 1);
  }
}
