/** When a session is in the manager's map, and what a turn commits to one that no longer is. */
module SessionRemoval {
  import opened Wrappers
  import opened Messages
  import opened SessionProtocol
  import opened SessionLocks
  import opened SessionHeap
  import opened SessionTheorems

  // ---- what a Close works on --------------------------------------------------------------

  predicate Closes(k: Kind) {
    k.Close? || k.Reset?
  }

  // ---- the map ----------------------------------------------------------------------------

  // Step k of the run deletes session x from the map.
  predicate DeletesAt(run: Run, k: nat, x: nat)
    requires k < |run.steps| < |run.states|
  {
    var s, p := run.states[k], run.steps[k].p;
    p < |s.ops| && s.ops[p].pc.Delete? && Closes(s.ops[p].kind) && s.ops[p].kind.id == x
  }

  predicate DeletedBefore(run: Run, k: nat, x: nat)
    requires k <= |run.steps| < |run.states|
  {
    exists j :: 0 <= j < k && DeletesAt(run, j, x)
  }

  // What a step does to the map and the list of sessions.
  lemma MapStep(s: State, p: nat, c: Choice)
    requires LockInv(s) && Enabled(s, p)
    ensures s.ops[p].pc.Delete? ==> Closes(s.ops[p].kind)
    ensures var r, o := Apply(s, p, c), s.ops[p];
      if o.pc.Delete? then r.live == s.live - {o.kind.id} && |r.sessions| == |s.sessions|
      else if o.pc.NewInsert? then r.live == s.live + {|s.sessions|} && |r.sessions| == |s.sessions| + 1
      else r.live == s.live && |r.sessions| == |s.sessions|
  {
    assert OpLocks(s, p);
    LockingTouches(Data(s, p, c), p, Act(s.ops[p].pc));
  }

  lemma RunMapStep(run: Run, k: nat)
    requires FullRun(run) && k < |run.steps|
    ensures var s, r, p := run.states[k], run.states[k + 1], run.steps[k].p;
      && p < |s.ops|
      && (s.ops[p].pc.Delete? ==> Closes(s.ops[p].kind))
      && if s.ops[p].pc.Delete? then r.live == s.live - {s.ops[p].kind.id} && |r.sessions| == |s.sessions|
         else if s.ops[p].pc.NewInsert? then r.live == s.live + {|s.sessions|} && |r.sessions| == |s.sessions| + 1
         else r.live == s.live && |r.sessions| == |s.sessions|
  {
    FullRunInv(run, k);
    assert StepAt(run, k);
    MapStep(run.states[k], run.steps[k].p, run.steps[k].c);
  }

  lemma DeletedExists(run: Run, k: nat, x: nat)
    requires FullRun(run) && k < |run.steps| && DeletesAt(run, k, x)
    ensures x < |run.states[k].sessions|
  {
    FullRunInv(run, k);
    RunAsked(run, k, run.steps[k].p);
    assert OpLocks(run.states[k], run.steps[k].p);
  }

  // Only sessions that exist are deleted.
  lemma {:induction false} DeletedExist(run: Run, k: nat, x: nat)
    requires FullRun(run) && k < |run.states| && DeletedBefore(run, k, x)
    ensures x < |run.states[k].sessions|
  {
    RunMapStep(run, k - 1);
    if DeletesAt(run, k - 1, x) {
      DeletedExists(run, k - 1, x);
    } else {
      DeletedStep(run, k - 1, x);
      DeletedExist(run, k - 1, x);
    }
  }

  lemma DeletedStep(run: Run, k: nat, x: nat)
    requires k < |run.steps| < |run.states|
    ensures DeletedBefore(run, k + 1, x) <==> DeletedBefore(run, k, x) || DeletesAt(run, k, x)
  {
  }

  // A session is in the map exactly as long as no step has deleted it.
  lemma {:induction false} LiveExactlyUntilDeleted(run: Run, k: nat, x: nat)
    requires FullRun(run) && k < |run.states| && x < |run.states[k].sessions|
    ensures x in run.states[k].live <==> !DeletedBefore(run, k, x)
  {
    if k > 0 {
      RunMapStep(run, k - 1);
      DeletedStep(run, k - 1, x);
      if x < |run.states[k - 1].sessions| {
        LiveExactlyUntilDeleted(run, k - 1, x);
      } else if DeletedBefore(run, k - 1, x) {
        DeletedExist(run, k - 1, x);
      }
    }
  }

  // A turn commits to a session that is gone from the map exactly when a Close or Reset deleted
  // the session before; the history grows all the same.
  lemma OrphanCommitExactlyWhen(run: Run, k: nat)
    requires FullRun(run) && k < |run.steps| && run.steps[k].p < |run.states[k].ops|
    requires Commits(run.states[k], run.steps[k].p)
    ensures var s, r, o := run.states[k], run.states[k + 1], run.states[k].ops[run.steps[k].p];
      var x := o.found.value;
      && o.kind.Turn? && x < |s.sessions| && x < |r.sessions|
      && (x !in r.live <==> DeletedBefore(run, k, x))
      && History(r, x) == History(s, x) + UserPart(o.kind.input) + o.added
  {
    var s, p := run.states[k], run.steps[k].p;
    FullRunInv(run, k);
    LiveExactlyUntilDeleted(run, k, s.ops[p].found.value);
    RunMapStep(run, k);
    RunCommits(run, k);
  }

  lemma RunCommits(run: Run, k: nat)
    requires FullRun(run) && k < |run.steps| && run.steps[k].p < |run.states[k].ops|
    requires Commits(run.states[k], run.steps[k].p)
    ensures CommittedOk(run.states[k], run.states[k + 1], run.steps[k].p)
  {
    FullRunInv(run, k);
    assert StepAt(run, k);
    var a, n := StepHeap(run.states[k], run.steps[k].p, run.steps[k].c);
  }
}
