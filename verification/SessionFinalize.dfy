/** How often a session is finalized. */
module SessionFinalize {
  import opened Wrappers
  import opened SessionProtocol
  import opened SessionLocks
  import opened SessionTheorems
  import opened SessionRemoval
  import opened SessionRuns

  // How many of the first n finalizations q made, and how many are of session x.
  function MadeBy(fs: seq<Finalization>, n: nat, q: nat): nat
    requires n <= |fs|
  {
    if n == 0 then 0 else MadeBy(fs, n - 1, q) + if fs[n - 1].closer == q then 1 else 0
  }

  function MadeOf(fs: seq<Finalization>, n: nat, x: nat): nat
    requires n <= |fs|
  {
    if n == 0 then 0 else MadeOf(fs, n - 1, x) + if fs[n - 1].session == x then 1 else 0
  }

  // A Close, or the Close inside a Reset, that is behind its call of Finalize.
  predicate PastFinalize(o: Op) {
    && Closes(o.kind) && o.found.Some?
    && (|| o.pc.FinUnlock? || o.pc.DelAnnounce? || o.pc.DelAcquire? || o.pc.Delete? || o.pc.DelRelease?
        || o.pc.NewAnnounce? || o.pc.NewAcquire? || o.pc.NewInsert? || o.pc.NewRelease? || o.pc.Done?)
  }

  // How many of the first n operations finalized session x.
  function Finalizers(ops: seq<Op>, n: nat, x: nat): nat
    requires n <= |ops|
  {
    if n == 0 then 0
    else Finalizers(ops, n - 1, x) + if PastFinalize(ops[n - 1]) && ops[n - 1].found == Some(x) then 1 else 0
  }

  // ---- one step ---------------------------------------------------------------------------

  // How a step of p moves a Close.
  lemma CloseMoves(s: State, p: nat, c: Choice)
    requires LockInv(s) && Enabled(s, p)
    ensures p < |Apply(s, p, c).ops|
    ensures var o, o' := s.ops[p], Apply(s, p, c).ops[p];
      && o'.kind == o.kind
      && (PastFinalize(o') <==> PastFinalize(o) || o.pc.FinRead?)
      && (PastFinalize(o') ==> o'.found == o.found)
      && (o.pc.FinRead? ==> Closes(o.kind) && o.found.Some? && !PastFinalize(o))
  {
    assert OpLocks(s, p);
    OthersStep(s, p, c);
    StepperMoves(s, p, c);
  }

  lemma {:induction false} MadePrefix(fs: seq<Finalization>, f: Finalization, n: nat, q: nat)
    requires n <= |fs|
    ensures MadeBy(fs + [f], n, q) == MadeBy(fs, n, q)
    ensures MadeOf(fs + [f], n, q) == MadeOf(fs, n, q)
  {
    if n > 0 { MadePrefix(fs, f, n - 1, q); }
  }

  lemma {:induction false} FinalizersReplaced(ops: seq<Op>, p: nat, o: Op, n: nat, x: nat)
    requires p < |ops| && n <= |ops|
    ensures var was := if p < n && PastFinalize(ops[p]) && ops[p].found == Some(x) then 1 else 0;
      var now := if p < n && PastFinalize(o) && o.found == Some(x) then 1 else 0;
      Finalizers(ops[p := o], n, x) + was == Finalizers(ops, n, x) + now
  {
    if n > 0 { FinalizersReplaced(ops, p, o, n - 1, x); }
  }

  ghost predicate CloserOnce(s: State, q: nat)
    requires q < |s.ops|
  {
    var o := s.ops[q];
    && MadeBy(s.finalized, |s.finalized|, q) == (if PastFinalize(o) then 1 else 0)
    && forall i :: 0 <= i < |s.finalized| && s.finalized[i].closer == q ==>
         PastFinalize(o) && s.finalized[i].session == o.found.value
  }

  predicate Counted(s: State, x: nat) {
    MadeOf(s.finalized, |s.finalized|, x) == Finalizers(s.ops, |s.ops|, x)
  }

  lemma CloserStep(s: State, p: nat, c: Choice, q: nat)
    requires LockInv(s) && Enabled(s, p) && q < |s.ops| && CloserOnce(s, q)
    ensures q < |Apply(s, p, c).ops| && CloserOnce(Apply(s, p, c), q)
  {
    OthersStep(s, p, c);
    FinalizedStep(s, p, c);
    CloseMoves(s, p, c);
    if s.ops[p].pc.FinRead? {
      MadePrefix(s.finalized, Finalization(p, s.ops[p].found.value, Read(s.heap, s.ops[p].cur)), |s.finalized|, q);
    }
  }

  lemma CountedStep(s: State, p: nat, c: Choice, x: nat)
    requires LockInv(s) && Enabled(s, p) && Counted(s, x)
    ensures Counted(Apply(s, p, c), x)
  {
    var o' := StepperAlone(s, p, c);
    FinalizersReplaced(s.ops, p, o', |s.ops|, x);
    FinalizedStep(s, p, c);
    if s.ops[p].pc.FinRead? {
      MadePrefix(s.finalized, Finalization(p, s.ops[p].found.value, Read(s.heap, s.ops[p].cur)), |s.finalized|, x);
    }
  }

  lemma StepperAlone(s: State, p: nat, c: Choice) returns (o': Op)
    requires LockInv(s) && Enabled(s, p)
    ensures Apply(s, p, c).ops == s.ops[p := o']
    ensures var o := s.ops[p];
      && (PastFinalize(o') <==> PastFinalize(o) || o.pc.FinRead?)
      && (PastFinalize(o') ==> o'.found == o.found)
      && (o.pc.FinRead? ==> o.found.Some? && !PastFinalize(o))
  {
    o' := Apply(s, p, c).ops[p];
    OthersStep(s, p, c);
    CloseMoves(s, p, c);
  }

  // ---- whole runs -------------------------------------------------------------------------

  lemma NothingYet(kinds: seq<Kind>, n: nat, x: nat)
    requires n <= |kinds|
    ensures Finalizers(Init(kinds).ops, n, x) == 0
  {
  }

  lemma {:induction false} RunCloserOnce(run: Run, k: nat, q: nat)
    requires FullRun(run) && k < |run.states| && q < |run.states[k].ops|
    ensures CloserOnce(run.states[k], q)
  {
    if k > 0 {
      FullRunInv(run, k - 1);
      assert StepAt(run, k - 1);
      OthersStep(run.states[k - 1], run.steps[k - 1].p, run.steps[k - 1].c);
      RunCloserOnce(run, k - 1, q);
      CloserStep(run.states[k - 1], run.steps[k - 1].p, run.steps[k - 1].c, q);
    }
  }

  lemma InitCounted(s: State, x: nat)
    requires Initial(s)
    ensures Counted(s, x)
  {
    var kinds :| s == Init(kinds);
    NothingYet(kinds, |kinds|, x);
  }

  lemma RunCountedStep(run: Run, k: nat, x: nat)
    requires FullRun(run) && k < |run.steps| && Counted(run.states[k], x)
    ensures Counted(run.states[k + 1], x)
  {
    FullRunInv(run, k);
    assert StepAt(run, k);
    CountedStep(run.states[k], run.steps[k].p, run.steps[k].c, x);
  }

  lemma {:induction false} RunCounted(run: Run, k: nat, x: nat)
    requires FullRun(run) && k < |run.states|
    ensures Counted(run.states[k], x)
  {
    if k == 0 {
      InitCounted(run.states[0], x);
    } else {
      RunCounted(run, k - 1, x);
      RunCountedStep(run, k - 1, x);
    }
  }

  // A Close or Reset has finalized exactly once if it is behind Finalize with a session it found,
  // that session, and otherwise not at all.
  lemma EachCloseFinalizesOnce(s: State, q: nat)
    requires Reachable(s) && q < |s.ops|
    ensures MadeBy(s.finalized, |s.finalized|, q) == if PastFinalize(s.ops[q]) then 1 else 0
    ensures forall i :: 0 <= i < |s.finalized| && s.finalized[i].closer == q ==>
      s.ops[q].found == Some(s.finalized[i].session)
  {
    var run: Run, k: nat :| FullRun(run) && k < |run.states| && run.states[k] == s;
    RunCloserOnce(run, k, q);
  }

  // So a session has been finalized exactly as often as there are Closes and Resets that found
  // it and are behind Finalize.
  lemma SessionFinalizedPerClose(s: State, x: nat)
    requires Reachable(s)
    ensures MadeOf(s.finalized, |s.finalized|, x) == Finalizers(s.ops, |s.ops|, x)
  {
    var run: Run, k: nat :| FullRun(run) && k < |run.states| && run.states[k] == s;
    RunCounted(run, k, x);
  }

  lemma TwoOfThree(ops: seq<Op>, x: nat)
    requires |ops| == 3 && ops[0].kind.Create?
    requires forall q :: 1 <= q < 3 ==> PastFinalize(ops[q]) && ops[q].found == Some(x)
    ensures Finalizers(ops, 3, x) == 2
  {
    assert Finalizers(ops, 1, x) == Finalizers(ops, 0, x);
    assert Finalizers(ops, 2, x) == Finalizers(ops, 1, x) + 1;
  }

  lemma TwoClosesRun() returns (run: Run)
    ensures FullRun(run) && run.states[0] == Init([Create, Close(0), Close(0)])
    ensures var ops := Last(run).ops;
      && |ops| == 3 && ops[0].kind.Create?
      && forall q :: 1 <= q < 3 ==> ops[q].kind.Close? && ops[q].pc.Done? && ops[q].found == Some(0)
  {
    var r0 := Started([Create, Close(0), Close(0)]);
    var r1 := CreateAlone(r0, 0);
    var r2 := LookAlone(r1, 1);
    var r3 := LookAlone(r2, 2);
    var r4 := CloseAlone(r3, 1);
    run := CloseAlone(r4, 2);
  }

  // Two Closes that look the session up before either deletes it both finalize it.
  lemma TwoClosesFinalizeTwice() returns (run: Run)
    ensures FullRun(run) && run.states[0] == Init([Create, Close(0), Close(0)])
    ensures MadeOf(Last(run).finalized, |Last(run).finalized|, 0) == 2
  {
    run := TwoClosesRun();
    RunCounted(run, |run.steps|, 0);
    TwoOfThree(Last(run).ops, 0);
  }
}
