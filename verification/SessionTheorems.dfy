/** What holds in every reachable state and over every run of the session manager. */
module SessionTheorems {
  import opened Wrappers
  import opened Basics
  import opened Messages
  import opened SessionProtocol
  import opened SessionLocks
  import opened SessionHeap

  // ---- the invariant holds in every reachable state ---------------------------------------

  lemma InitInv(kinds: seq<Kind>)
    ensures Inv(Init(kinds))
  {
  }

  lemma StepInv(s: State, p: nat, c: Choice)
    requires Inv(s) && Enabled(s, p)
    ensures Inv(Apply(s, p, c))
  {
    StepKeepsLocks(s, p, c);
    var a, n := StepHeap(s, p, c);
    var r := Apply(s, p, c);
    forall q | 0 <= q < |r.ops| ensures OpHeapOk(r, q) {
      if q != p { BystanderHeap(s, r, p, a, n, q); }
    }
    forall x | 0 <= x < |r.sessions| ensures SessionHeapOk(r, x) {
      if x < |s.sessions| && !(Commits(s, p) && s.ops[p].found == Some(x)) {
        HistoryKept(s, r, p, a, n, x);
      }
    }
  }

  lemma RunStepInv(run: Run, k: nat)
    requires IsRun(run) && k < |run.steps| && Inv(run.states[k])
    ensures Inv(run.states[k + 1])
  {
    assert StepAt(run, k);
    StepInv(run.states[k], run.steps[k].p, run.steps[k].c);
  }

  lemma {:induction false} RunInv(run: Run, k: nat)
    requires IsRun(run) && k < |run.states| && Inv(run.states[0])
    ensures Inv(run.states[k])
  {
    if k > 0 {
      RunInv(run, k - 1);
      RunStepInv(run, k - 1);
    }
  }

  lemma FullRunInv(run: Run, k: nat)
    requires FullRun(run) && k < |run.states|
    ensures Inv(run.states[k])
  {
    var kinds :| run.states[0] == Init(kinds);
    InitInv(kinds);
    RunInv(run, k);
  }

  lemma ReachableInv(s: State)
    requires Reachable(s)
    ensures Inv(s)
  {
    var run: Run, k: nat :| FullRun(run) && k < |run.states| && run.states[k] == s;
    FullRunInv(run, k);
  }

  // ---- progress ---------------------------------------------------------------------------

  predicate AllDone(s: State) {
    forall p :: 0 <= p < |s.ops| ==> s.ops[p].pc == Done
  }

  // Whoever holds a session's cancelMu can step.
  lemma CancelHolderSteps(s: State, q: nat, x: nat)
    requires LockInv(s) && x < |s.sessions| && s.sessions[x].cancelMu == Some(q)
    ensures Enabled(s, q)
  {
    assert LocksOk(s, x) && OpLocks(s, q);
  }

  // Whoever holds a session's mu can step, or waits for its cancelMu.
  lemma MuHolderSteps(s: State, q: nat, x: nat) returns (e: nat)
    requires LockInv(s) && x < |s.sessions| && s.sessions[x].mu == Some(q)
    ensures Enabled(s, e)
  {
    assert LocksOk(s, x) && OpLocks(s, q);
    e := q;
    if !Enabled(s, q) {
      e := s.sessions[x].cancelMu.value;
      CancelHolderSteps(s, e, x);
    }
  }

  // A writer of sm.mu can step, or waits for a reader, who can.
  lemma WriterSteps(s: State) returns (e: nat)
    requires LockInv(s) && s.writer.Some?
    ensures Enabled(s, e)
  {
    e := s.writer.value;
    assert OpLocks(s, e);
    if !Enabled(s, e) {
      e :| e in s.readers;
      assert OpLocks(s, e);
    }
  }

  // No deadlock: while some operation is unfinished, some operation can step.
  lemma DeadlockFree(s: State) returns (e: nat)
    requires Reachable(s) && !AllDone(s)
    ensures Enabled(s, e)
  {
    ReachableInv(s);
    e := Unblocked(s);
  }

  lemma Unblocked(s: State) returns (e: nat)
    requires LockInv(s) && !AllDone(s)
    ensures Enabled(s, e)
  {
    var p: nat :| p < |s.ops| && s.ops[p].pc != Done;
    assert OpLocks(s, p);
    e := p;
    if !Enabled(s, p) {
      match Act(s.ops[p].pc)
      case LockMu =>
        e := MuHolderSteps(s, SessionOf(s, p).mu.value, s.ops[p].found.value);
      case LockCancel =>
        e := SessionOf(s, p).cancelMu.value;
        CancelHolderSteps(s, e, s.ops[p].found.value);
      case ReadLock => e := WriterSteps(s);
      case Announce => e := WriterSteps(s);
      case WriteLock => e := WriterSteps(s);
      case _ => assert false;
    }
  }

  // How many steps an operation has left at most, not counting the loop's appends.
  function Remaining(o: Op): nat {
    match o.pc
    case Done => 0
    case NewRelease => 1 case NewInsert => 2 case NewAcquire => 3 case NewAnnounce => 4
    case DelRelease => 5 case Delete => 6 case DelAcquire => 7 case DelAnnounce => 8
    case FinUnlock => 9 case FinRead => 10 case FinTake => 11 case FinLock => 12
    case CancelUnlock => 13 case CancelCall => 14 case CancelLock => 15
    case LookUnlock => 16 case LookRead => 17 case LookLock => 18
    case TurnUnlock => 1 case OwnCancel => 2 case ClearUnlock => 3 case ClearCancel => 4 case ClearLock => 5
    case Commit => 6 case Strip => 7 case Loop => 8 case Remind => 9 case Begin => 10
    case SetUnlock => 11 case SetCancel => 12 case SetLock => 13 case TurnLock => 14
    case SnapUnlock => 1 case SnapClone => 2 case SnapLock => 3
    case GetUnlock => 19 case GetRead => 20 case GetLock => 21
  }

  const MAX_STEPS := 21

  function Work(ops: seq<Op>): nat {
    if ops == [] then 0 else Remaining(ops[0]) + Work(ops[1..])
  }

  lemma {:induction false} WorkReplaced(ops: seq<Op>, p: nat, o: Op)
    requires p < |ops|
    ensures Work(ops[p := o]) + Remaining(ops[p]) == Work(ops) + Remaining(o)
  {
    if p == 0 {
      assert ops[p := o][1..] == ops[1..];
    } else {
      assert ops[p := o][1..] == ops[1..][p - 1 := o];
      WorkReplaced(ops[1..], p - 1, o);
    }
  }

  lemma {:induction false} WorkZero(ops: seq<Op>)
    ensures Work(ops) == 0 <==> forall p :: 0 <= p < |ops| ==> ops[p].pc == Done
    ensures Work(ops) <= MAX_STEPS * |ops|
  {
    if ops != [] {
      WorkZero(ops[1..]);
      assert forall p :: 1 <= p < |ops| ==> ops[p] == ops[1..][p - 1];
    }
  }

  predicate IsAppend(s: State, p: nat, c: Choice) {
    p < |s.ops| && s.ops[p].pc.Loop? && c.loop.Append?
  }

  lemma PointsDescend(o: Op, c: Choice)
    requires o.pc != Done
    ensures var o' := o.(pc := NextPc(o, c));
      if o.pc.Loop? && c.loop.Append? then Remaining(o') == Remaining(o) else Remaining(o') < Remaining(o)
  {
  }

  lemma StepperDescends(s: State, p: nat, c: Choice)
    requires LockInv(s) && Enabled(s, p)
    ensures p < |Apply(s, p, c).ops|
    ensures var o, o' := s.ops[p], Apply(s, p, c).ops[p];
      if IsAppend(s, p, c) then Remaining(o') == Remaining(o) else Remaining(o') < Remaining(o)
  {
    StepperMoves(s, p, c);
    PointsDescend(Data(s, p, c).ops[p], c);
  }

  // Every step but an append of the agent loop uses up work.
  lemma StepWorks(s: State, p: nat, c: Choice)
    requires LockInv(s) && Enabled(s, p)
    ensures var r := Apply(s, p, c);
      if IsAppend(s, p, c) then Work(r.ops) == Work(s.ops) else Work(r.ops) < Work(s.ops)
  {
    StepperDescends(s, p, c);
    assert Apply(s, p, c).ops == s.ops[p := Apply(s, p, c).ops[p]] by {
      OthersStep(s, p, c);
    }
    WorkReplaced(s.ops, p, Apply(s, p, c).ops[p]);
  }

  // How many of the first n steps were not appends.
  function CountSteps(run: Run, n: nat): nat
    requires n <= |run.steps| < |run.states|
  {
    if n == 0 then 0 else CountSteps(run, n - 1) + CountStep(run, n - 1)
  }

  function CountStep(run: Run, k: nat): nat
    requires k < |run.steps| < |run.states|
  {
    if IsAppend(run.states[k], run.steps[k].p, run.steps[k].c) then 0 else 1
  }

  lemma RunStepWorks(run: Run, k: nat)
    requires IsRun(run) && k < |run.steps| && LockInv(run.states[k])
    ensures CountStep(run, k) + Work(run.states[k + 1].ops) <= Work(run.states[k].ops)
  {
    assert StepAt(run, k);
    StepWorks(run.states[k], run.steps[k].p, run.steps[k].c);
  }

  lemma {:induction false} RunWorks(run: Run, n: nat)
    requires IsRun(run) && n <= |run.steps| && Inv(run.states[0])
    ensures CountSteps(run, n) + Work(run.states[n].ops) <= Work(run.states[0].ops)
  {
    if n > 0 {
      RunWorks(run, n - 1);
      RunInv(run, n - 1);
      RunStepWorks(run, n - 1);
    }
  }

  // No livelock: whatever the schedule, n operations take at most 21n steps besides the appends
  // their agent loops decide on.
  lemma RunsAreBounded(run: Run)
    requires FullRun(run)
    ensures CountSteps(run, |run.steps|) <= MAX_STEPS * |run.states[0].ops|
  {
    FullRunInv(run, 0);
    RunWorks(run, |run.steps|);
    WorkZero(run.states[0].ops);
  }

  // From every reachable state all operations can still finish.
  lemma AlwaysCanFinish(s: State) returns (run: Run)
    requires Reachable(s)
    ensures IsRun(run) && run.states[0] == s && AllDone(run.states[|run.steps|])
  {
    ReachableInv(s);
    run := FinishFrom(s);
  }

  lemma StepBehind(s: State, step: Step, rest: Run, k: nat)
    requires IsRun(rest) && k < |rest.steps|
    ensures StepAt(Run([s] + rest.states, [step] + rest.steps), k + 1)
  {
    assert StepAt(rest, k);
  }

  lemma RunFromFront(s: State, step: Step, rest: Run)
    requires IsRun(rest) && Enabled(s, step.p) && rest.states[0] == Apply(s, step.p, step.c)
    ensures IsRun(Run([s] + rest.states, [step] + rest.steps))
  {
    var run := Run([s] + rest.states, [step] + rest.steps);
    assert StepAt(run, 0);
    forall k | 1 <= k < |run.steps| ensures StepAt(run, k) {
      StepBehind(s, step, rest, k - 1);
    }
  }

  lemma FinishFrom(s: State) returns (run: Run)
    requires Inv(s)
    ensures IsRun(run) && run.states[0] == s && AllDone(run.states[|run.steps|])
    decreases Work(s.ops)
  {
    if AllDone(s) {
      run := Run([s], []);
    } else {
      var p := Unblocked(s);
      var c := Choice(0, "", [], Succeed);
      StepInv(s, p, c);
      StepWorks(s, p, c);
      var rest := FinishFrom(Apply(s, p, c));
      RunFromFront(s, Step(p, c), rest);
      run := Run([s] + rest.states, [Step(p, c)] + rest.steps);
    }
  }

  // ---- what an operation works on ---------------------------------------------------------

  // A lookup finds the session it is asked for if that is in the map, and nothing otherwise.
  lemma LookupFinds(s: State, p: nat, c: Choice)
    requires Enabled(s, p) && (s.ops[p].pc.GetRead? || s.ops[p].pc.LookRead?) && !s.ops[p].kind.Create?
    ensures var id := s.ops[p].kind.id;
      Apply(s, p, c).ops[p].found == if id in s.live then Some(id) else None
  {
    StepperMoves(s, p, c);
  }

  predicate Asked(o: Op) {
    o.found.Some? ==> !o.kind.Create? && o.found.value == o.kind.id
  }

  lemma AskedStep(s: State, p: nat, c: Choice)
    requires LockInv(s) && Enabled(s, p) && Asked(s.ops[p])
    ensures p < |Apply(s, p, c).ops| && Asked(Apply(s, p, c).ops[p])
  {
    assert OpLocks(s, p);
    OthersStep(s, p, c);
    if s.ops[p].pc.GetRead? || s.ops[p].pc.LookRead? { LookupFinds(s, p, c); }
  }

  lemma RunAskedStep(run: Run, k: nat, q: nat)
    requires FullRun(run) && k < |run.steps| && q < |run.states[k + 1].ops|
    ensures q < |run.states[k].ops|
    ensures Asked(run.states[k].ops[q]) ==> Asked(run.states[k + 1].ops[q])
  {
    var s, step := run.states[k], run.steps[k];
    FullRunInv(run, k);
    assert StepAt(run, k);
    OthersStep(s, step.p, step.c);
    if q == step.p && Asked(s.ops[q]) { AskedStep(s, step.p, step.c); }
  }

  lemma {:induction false} RunAsked(run: Run, k: nat, q: nat)
    requires FullRun(run) && k < |run.states| && q < |run.states[k].ops|
    ensures Asked(run.states[k].ops[q])
  {
    if k > 0 {
      RunAskedStep(run, k - 1, q);
      RunAsked(run, k - 1, q);
    }
  }

  // Whatever session an operation has found, it is the one it was asked for.
  lemma FoundIsAsked(s: State, p: nat)
    requires Reachable(s) && p < |s.ops| && s.ops[p].found.Some?
    ensures !s.ops[p].kind.Create? && s.ops[p].found.value == s.ops[p].kind.id
  {
    var run: Run, k: nat :| FullRun(run) && k < |run.states| && run.states[k] == s;
    RunAsked(run, k, p);
  }

  // ---- ownership of cancel ----------------------------------------------------------------

  // A session's cancel is exactly the CancelFunc of the one turn that holds the session and has
  // stored it but not cleared it.
  lemma CancelOwnership(s: State, x: nat, t: nat)
    requires Reachable(s) && x < |s.sessions|
    ensures s.sessions[x].cancel == Some(t)
      <==> t < |s.ops| && s.ops[t].found == Some(x) && CancelSet(s.ops[t].pc)
    ensures s.sessions[x].cancel == Some(t)
      ==> s.ops[t].kind.Turn? && s.sessions[x].mu == Some(t)
  {
    ReachableInv(s);
    assert LocksOk(s, x);
    if t < |s.ops| { assert OpLocks(s, t); }
  }

  // An Interrupt or Close of a session cancels t exactly when t is a turn on the session of that
  // ID, past storing its CancelFunc and before clearing it: never a finished, later or foreign
  // turn.
  lemma CancelHitsTheRunningTurn(s: State, p: nat, c: Choice, t: nat)
    requires Reachable(s) && Enabled(s, p) && s.ops[p].pc.CancelCall? && t !in s.cancelled
    ensures !s.ops[p].kind.Create? && s.ops[p].found == Some(s.ops[p].kind.id)
    ensures s.ops[p].kind.id < |s.sessions|
    ensures t in Apply(s, p, c).cancelled
      <==> t < |s.ops| && s.ops[t].kind.Turn? && s.ops[t].kind.id == s.ops[p].kind.id && CancelSet(s.ops[t].pc)
    ensures t in Apply(s, p, c).cancelled
      ==> s.sessions[s.ops[p].kind.id].mu == Some(t) && s.ops[t].pc != Done
  {
    ReachableInv(s);
    assert OpLocks(s, p);
    FoundIsAsked(s, p);
    CancelOwnership(s, s.ops[p].found.value, t);
    if t < |s.ops| && CancelSet(s.ops[t].pc) {
      assert OpLocks(s, t);
      FoundIsAsked(s, t);
    }
  }

  // ---- race freedom -----------------------------------------------------------------------

  datatype Field = SessionMap | Log(x: nat) | CancelField(x: nat)

  // The shared field an operation is about to access, if any.
  function Access(o: Op): Option<Field> {
    match o.pc
    case GetRead | LookRead | Delete | NewInsert => Some(SessionMap)
    case Begin | Commit | FinTake | FinRead | SnapClone =>
      if o.found.Some? then Some(Log(o.found.value)) else None
    case CancelCall | SetCancel | ClearCancel =>
      if o.found.Some? then Some(CancelField(o.found.value)) else None
    case _ => None
  }

  predicate Writes(pc: PC) {
    pc.Delete? || pc.NewInsert? || pc.Commit? || pc.SetCancel? || pc.ClearCancel?
  }

  // Each shared field has its lock; a writer of the map holds sm.mu alone.
  lemma AccessIsLocked(s: State, p: nat)
    requires LockInv(s) && p < |s.ops| && Access(s.ops[p]).Some?
    ensures match Access(s.ops[p]).value
      case SessionMap => if Writes(s.ops[p].pc) then s.writer == Some(p) && s.readers == {} else p in s.readers
      case Log(x) => x < |s.sessions| && s.sessions[x].mu == Some(p)
      case CancelField(x) => x < |s.sessions| && s.sessions[x].cancelMu == Some(p)
  {
    assert OpLocks(s, p);
  }

  // Two operations are never at the same shared field at once when one of them writes it.
  lemma RaceFree(s: State, p: nat, q: nat)
    requires Reachable(s) && p < |s.ops| && q < |s.ops| && p != q
    requires Access(s.ops[p]).Some? && Writes(s.ops[p].pc)
    ensures Access(s.ops[q]) != Access(s.ops[p])
  {
    ReachableInv(s);
    AccessIsLocked(s, p);
    if Access(s.ops[q]).Some? { AccessIsLocked(s, q); }
  }

  // The arrays whose elements an operation reads or writes at the point where it is: a turn its
  // session's and its own, a finalizer and a snapshot reader the session's, and whoever called
  // Messages() the array it was given.
  predicate Touches(s: State, p: nat, a: nat) {
    p < |s.ops| &&
    var o := s.ops[p];
    if o.pc.Remind? || o.pc.Loop? || o.pc.Strip? || o.pc.Commit? then
      HasSession(s, p) && (a == SessionOf(s, p).messages.arr || a == o.orig.arr || a == o.cur.arr)
    else if o.pc.Begin? || o.pc.FinTake? || o.pc.SnapClone? then HasSession(s, p) && a == SessionOf(s, p).messages.arr
    else (o.pc.FinRead? || Returned(s, p)) && a == o.cur.arr
  }

  lemma TouchedOwner(s: State, p: nat, a: nat)
    requires Inv(s) && Touches(s, p, a)
    ensures a < |s.owner|
    ensures if HoldsMu(s.ops[p].pc) && !s.ops[p].pc.SnapUnlock?
      then HasSession(s, p) && (s.owner[a] == OfTurn(p) || s.owner[a] == OfSession(s.ops[p].found.value))
      else s.owner[a] == OfSnapshot(p)
  {
    assert OpLocks(s, p) && OpHeapOk(s, p);
    if HasSession(s, p) { assert SessionHeapOk(s, s.ops[p].found.value); }
    if Returned(s, p) { ReturnedOk(s, p); }
  }

  // Nor do two operations ever work on elements of one array.
  lemma ElementsRaceFree(s: State, p: nat, q: nat, a: nat)
    requires Reachable(s) && p != q && Touches(s, p, a)
    ensures !Touches(s, q, a)
  {
    ReachableInv(s);
    TouchedOwner(s, p, a);
    if Touches(s, q, a) {
      TouchedOwner(s, q, a);
      if HoldsMu(s.ops[p].pc) && HoldsMu(s.ops[q].pc) { MutualExclusion(s, p, q); }
    }
  }

  // ---- histories --------------------------------------------------------------------------

  // The conversation a session shows.
  function History(s: State, x: nat): seq<Message>
    requires x < |s.sessions|
  {
    Read(s.heap, s.sessions[x].messages)
  }

  // What operation o, about to step, commits to session x.
  function CommitPart(o: Op, x: nat): seq<Message> {
    if o.pc.Commit? && !o.failed && o.found == Some(x) && o.kind.Turn?
    then UserPart(o.kind.input) + o.added else []
  }

  // A step leaves a history alone, unless it commits a successful turn on that session; then it
  // adds the user message and what the loop appended, and nothing else.
  lemma HistoryStep(s: State, p: nat, c: Choice, x: nat)
    requires Inv(s) && Enabled(s, p) && x < |s.sessions|
    ensures x < |Apply(s, p, c).sessions|
    ensures History(Apply(s, p, c), x) == History(s, x) + CommitPart(s.ops[p], x)
  {
    assert OpLocks(s, p);
    var r := Apply(s, p, c);
    var a, n := StepHeap(s, p, c);
    if Commits(s, p) && s.ops[p].found == Some(x) {
      assert CommittedOk(s, r, p);
    } else {
      HistoryKept(s, r, p, a, n, x);
    }
  }

  // What step k of a run commits to session x, and what the steps from i up to j do.
  function CommittedAt(run: Run, k: nat, x: nat): seq<Message> {
    if k < |run.steps| && k < |run.states| && run.steps[k].p < |run.states[k].ops|
    then CommitPart(run.states[k].ops[run.steps[k].p], x)
    else []
  }

  function Commitments(run: Run, x: nat): nat -> seq<Message> {
    (k: nat) => CommittedAt(run, k, x)
  }

  function Committed(run: Run, i: nat, j: nat, x: nat): seq<Message>
    requires i <= j
  {
    Between(Commitments(run, x), i, j)
  }

  function Histories(run: Run, x: nat): nat -> seq<Message> {
    (k: nat) => if k < |run.states| && x < |run.states[k].sessions| then History(run.states[k], x) else []
  }

  lemma RunHistoryStep(run: Run, k: nat, x: nat)
    requires FullRun(run) && k < |run.steps| && x < |run.states[k].sessions|
    ensures x < |run.states[k + 1].sessions|
    ensures GrowsAt(Histories(run, x), Commitments(run, x), k)
  {
    FullRunInv(run, k);
    assert StepAt(run, k);
    HistoryStep(run.states[k], run.steps[k].p, run.steps[k].c, x);
  }

  lemma {:induction false} SessionsStay(run: Run, i: nat, j: nat, x: nat)
    requires FullRun(run) && i <= j <= |run.steps| && x < |run.states[i].sessions|
    ensures x < |run.states[j].sessions|
  {
    if i < j {
      SessionsStay(run, i, j - 1, x);
      RunHistoryStep(run, j - 1, x);
    }
  }

  // Turns are atomic: over every run and whatever the interleaving, a history gains exactly what
  // the successful turns committed, whole and in commit order; failed turns leave no trace.
  lemma TurnsAreAtomic(run: Run, i: nat, j: nat, x: nat)
    requires FullRun(run) && i <= j <= |run.steps| && x < |run.states[i].sessions|
    ensures x < |run.states[j].sessions|
    ensures History(run.states[j], x) == History(run.states[i], x) + Committed(run, i, j, x)
  {
    SessionsStay(run, i, j, x);
    forall k: nat | i <= k < j ensures GrowsAt(Histories(run, x), Commitments(run, x), k) {
      SessionsStay(run, i, k, x);
      RunHistoryStep(run, k, x);
    }
    GrowsBetween(Histories(run, x), Commitments(run, x), i, j);
  }

  // Over every run, each history at any time is a prefix of itself at any later time.
  lemma HistoriesOnlyGrow(run: Run, i: nat, j: nat, x: nat)
    requires FullRun(run) && i <= j <= |run.steps| && x < |run.states[i].sessions|
    ensures x < |run.states[j].sessions|
    ensures History(run.states[i], x) <= History(run.states[j], x)
  {
    TurnsAreAtomic(run, i, j, x);
  }

  // What the provider sees during a turn: the log so far, with the reminder in the last user
  // message that precedes the loop's own messages, and nowhere else.
  lemma ProviderSeesReminder(s: State, p: nat)
    requires Reachable(s) && p < |s.ops| && s.ops[p].pc.Loop?
    ensures HasSession(s, p) && s.ops[p].kind.Turn?
    ensures var o := s.ops[p];
      var log := History(s, o.found.value) + UserPart(o.kind.input);
      Read(s.heap, o.cur) == (if o.tail < 0 then log else Reminded(log, LastUser(log), o.reminder)) + o.added
    ensures var o := s.ops[p];
      var log, seen := History(s, o.found.value) + UserPart(o.kind.input), Read(s.heap, o.cur);
      var t := LastUser(log);
      o.tail >= 0 ==>
        && 0 <= t < |log| <= |seen|
        && seen[t] == log[t].(content := log[t].content + "\n\n" + o.reminder)
        && forall u :: 0 <= u < |log| && u != t ==> seen[u] == log[u]
  {
    ReachableInv(s);
    assert OpLocks(s, p) && OpHeapOk(s, p);
  }

  // The reminder is there exactly when there is one and a user message to carry it.
  lemma RemindReads(s: State, p: nat, c: Choice)
    requires Reachable(s) && Enabled(s, p) && s.ops[p].pc.Remind?
    ensures HasSession(s, p) && s.ops[p].kind.Turn?
    ensures var o, o' := s.ops[p], Apply(s, p, c).ops[p];
      var log := History(s, o.found.value) + UserPart(o.kind.input);
      && o'.pc.Loop? && o'.added == []
      && if c.reminder != "" && exists u :: 0 <= u < |log| && log[u].role == User
         then o'.tail == LastUser(log) >= 0 && o'.reminder == c.reminder
         else o'.tail < 0
  {
    ReachableInv(s);
    assert OpLocks(s, p) && OpHeapOk(s, p);
    StepperMoves(s, p, c);
  }

  // A new session begins with what it is created with, free and in the map.
  lemma NewSessionReads(s: State, p: nat, c: Choice)
    requires Reachable(s) && Enabled(s, p) && s.ops[p].pc.NewInsert?
    ensures var r, x := Apply(s, p, c), |s.sessions|;
      && |r.sessions| == x + 1 && x in r.live && History(r, x) == c.batch
      && r.sessions[x].mu == None && r.sessions[x].cancelMu == None && r.sessions[x].cancel == None
  {
    ReachableInv(s);
    assert OpLocks(s, p);
    LockingTouches(Data(s, p, c), p, Act(s.ops[p].pc));
  }

  // ---- Finalize ---------------------------------------------------------------------------

  // The transcript Close finalizes is the session's history at that moment.
  lemma FinalizeReadsHistory(s: State, p: nat, c: Choice)
    requires Reachable(s) && Enabled(s, p) && s.ops[p].pc.FinRead?
    ensures HasSession(s, p) && !s.ops[p].kind.Create? && s.ops[p].found == Some(s.ops[p].kind.id)
    ensures var x := s.ops[p].kind.id;
      Apply(s, p, c).finalized == s.finalized + [Finalization(p, x, History(s, x))]
  {
    ReachableInv(s);
    FinalizeIsHistory(s, p, c);
    FoundIsAsked(s, p);
  }

  // Every turn committed before Close locked the session is in the transcript.
  lemma FinalizeSeesEarlierTurns(run: Run, i: nat, j: nat, x: nat)
    requires FullRun(run) && i <= j < |run.steps| && x < |run.states[i].sessions|
    requires var p := run.steps[j].p;
      && p < |run.states[i].ops| && run.states[i].ops[p].pc.FinLock?
      && p < |run.states[j].ops| && run.states[j].ops[p].pc.FinRead?
      && run.states[j].ops[p].found == Some(x)
    ensures var f := run.states[j + 1].finalized;
      && f != [] && f[|f| - 1].session == x
      && History(run.states[i], x) <= f[|f| - 1].transcript
  {
    HistoriesOnlyGrow(run, i, j, x);
    FullRunInv(run, j);
    assert StepAt(run, j);
    var t, p := run.states[j], run.steps[j].p;
    FinalizeIsHistory(t, p, run.steps[j].c);
  }

  lemma FinalizeIsHistory(s: State, p: nat, c: Choice)
    requires Inv(s) && Enabled(s, p) && s.ops[p].pc.FinRead?
    ensures HasSession(s, p)
    ensures var x := s.ops[p].found.value;
      Apply(s, p, c).finalized == s.finalized + [Finalization(p, x, History(s, x))]
  {
    assert OpLocks(s, p) && OpHeapOk(s, p);
    FinalizedStep(s, p, c);
  }

  // Every finalized transcript is, from then on, a prefix of its session's history.
  ghost predicate TranscriptsArePrefixes(s: State) {
    forall i :: 0 <= i < |s.finalized| ==>
      s.finalized[i].session < |s.sessions| && s.finalized[i].transcript <= History(s, s.finalized[i].session)
  }

  lemma StepKeepsTranscripts(s: State, p: nat, c: Choice)
    requires Inv(s) && Enabled(s, p) && TranscriptsArePrefixes(s)
    ensures TranscriptsArePrefixes(Apply(s, p, c))
  {
    var r := Apply(s, p, c);
    assert OpLocks(s, p) && OpHeapOk(s, p);
    FinalizedStep(s, p, c);
    forall i | 0 <= i < |r.finalized|
      ensures r.finalized[i].session < |r.sessions|
           && r.finalized[i].transcript <= History(r, r.finalized[i].session)
    {
      if i < |s.finalized| {
        HistoryStep(s, p, c, s.finalized[i].session);
      } else {
        HistoryStep(s, p, c, s.ops[p].found.value);
      }
    }
  }

  lemma FinalizedData(s: State, p: nat, c: Choice)
    requires p < |s.ops|
    ensures Data(s, p, c).finalized ==
      if s.ops[p].pc.FinRead? && s.ops[p].found.Some?
      then s.finalized + [Finalization(p, s.ops[p].found.value, Read(s.heap, s.ops[p].cur))]
      else s.finalized
  {
  }

  lemma FinalizedStep(s: State, p: nat, c: Choice)
    requires p < |s.ops|
    ensures Apply(s, p, c).finalized ==
      if s.ops[p].pc.FinRead? && s.ops[p].found.Some?
      then s.finalized + [Finalization(p, s.ops[p].found.value, Read(s.heap, s.ops[p].cur))]
      else s.finalized
  {
    FinalizedData(s, p, c);
    LockingTouches(Data(s, p, c), p, Act(s.ops[p].pc));
  }

  lemma {:induction false} RunKeepsTranscripts(run: Run, k: nat)
    requires FullRun(run) && k < |run.states|
    ensures TranscriptsArePrefixes(run.states[k])
  {
    if k > 0 {
      RunKeepsTranscripts(run, k - 1);
      FullRunInv(run, k - 1);
      assert StepAt(run, k - 1);
      StepKeepsTranscripts(run.states[k - 1], run.steps[k - 1].p, run.steps[k - 1].c);
    }
  }

  lemma FinalizedTranscripts(s: State)
    requires Reachable(s)
    ensures TranscriptsArePrefixes(s)
  {
    var run: Run, k: nat :| FullRun(run) && k < |run.states| && run.states[k] == s;
    RunKeepsTranscripts(run, k);
  }

  // ---- append-only ------------------------------------------------------------------------

  // m is, or once was, the history of session x.
  ghost predicate Frozen(s: State, x: nat, m: Slice) {
    && x < |s.sessions|
    && ValidSlice(s.heap, m) && m.arr < |s.owner| && s.owner[m.arr] == OfSession(x)
    && (m.arr == s.sessions[x].messages.arr ==> m.len <= s.sessions[x].messages.len)
  }

  lemma FrozenStep(s: State, p: nat, c: Choice, x: nat, m: Slice)
    requires Inv(s) && Enabled(s, p) && Frozen(s, x, m)
    ensures Frozen(Apply(s, p, c), x, m) && Read(Apply(s, p, c).heap, m) == Read(s.heap, m)
  {
    var r := Apply(s, p, c);
    var a, n := StepHeap(s, p, c);
    assert OpLocks(s, p) && OpHeapOk(s, p) && SessionHeapOk(s, x);
    if HasSession(s, p) { assert SessionHeapOk(s, s.ops[p].found.value); }
    ForeignKept(s, r, p, a, n, m);
    assert OwnerKept(s, r, p, m.arr) && MessagesKept(s, r, p, x);
    if Commits(s, p) && s.ops[p].found == Some(x) {
      assert CommittedOk(s, r, p);
      assert r.sessions[x].messages == s.ops[p].cur;
    }
  }

  lemma RunFrozenStep(run: Run, k: nat, x: nat, m: Slice)
    requires FullRun(run) && k < |run.steps| && Frozen(run.states[k], x, m)
    ensures Frozen(run.states[k + 1], x, m) && Read(run.states[k + 1].heap, m) == Read(run.states[k].heap, m)
  {
    FullRunInv(run, k);
    assert StepAt(run, k);
    FrozenStep(run.states[k], run.steps[k].p, run.steps[k].c, x, m);
  }

  lemma {:induction false} FrozenForever(run: Run, i: nat, j: nat, x: nat, m: Slice)
    requires FullRun(run) && i <= j <= |run.steps| && Frozen(run.states[i], x, m)
    ensures Frozen(run.states[j], x, m) && Read(run.states[j].heap, m) == Read(run.states[i].heap, m)
  {
    if i < j {
      FrozenForever(run, i, j - 1, x, m);
      RunFrozenStep(run, j - 1, x, m);
    }
  }

  // Append-only on the heap: no run of turns - successful, failed, interrupted, with or without
  // a reminder - overwrites an element of a slice a session has ever held.
  lemma HistoriesAreAppendOnly(run: Run, i: nat, j: nat, x: nat)
    requires FullRun(run) && i <= j <= |run.steps| && x < |run.states[i].sessions|
    ensures Read(run.states[j].heap, run.states[i].sessions[x].messages) == History(run.states[i], x)
  {
    FullRunInv(run, i);
    assert SessionHeapOk(run.states[i], x);
    FrozenForever(run, i, j, x, run.states[i].sessions[x].messages);
  }

  // What Messages() has returned.
  predicate Returned(s: State, p: nat) {
    p < |s.ops| && s.ops[p].kind.Snapshot? && s.ops[p].found.Some?
    && (s.ops[p].pc.SnapUnlock? || s.ops[p].pc.Done?)
  }

  // Messages() of a session returns the history of the session of that ID at the time.
  lemma SnapshotReadsHistory(s: State, p: nat, c: Choice)
    requires Reachable(s) && Enabled(s, p) && s.ops[p].pc.SnapClone?
    ensures s.ops[p].kind.Snapshot?
    ensures var r, id := Apply(s, p, c), s.ops[p].kind.id;
      && id < |s.sessions|
      && Returned(r, p) && Read(r.heap, r.ops[p].cur) == History(s, id)
  {
    ReachableInv(s);
    assert OpLocks(s, p);
    FoundIsAsked(s, p);
  }

  lemma ReturnedStays(s: State, p: nat, c: Choice, q: nat)
    requires LockInv(s) && Enabled(s, p) && Returned(s, q)
    ensures Returned(Apply(s, p, c), q) && Apply(s, p, c).ops[q].cur == s.ops[q].cur
  {
    OthersStep(s, p, c);
    if q == p { StepperMoves(s, p, c); }
  }

  lemma ReturnedStep(s: State, p: nat, c: Choice, q: nat)
    requires Inv(s) && Enabled(s, p) && Returned(s, q)
    ensures var r := Apply(s, p, c);
      Returned(r, q) && r.ops[q].cur == s.ops[q].cur && Read(r.heap, r.ops[q].cur) == Read(s.heap, s.ops[q].cur)
  {
    ReturnedStays(s, p, c, q);
    ReturnedOk(s, q);
    var a, n := StepHeap(s, p, c);
    SnapshotKept(s, Apply(s, p, c), p, a, n, q);
  }

  lemma RunReturnedStep(run: Run, k: nat, q: nat)
    requires FullRun(run) && k < |run.steps| && Returned(run.states[k], q)
    ensures var s, r := run.states[k], run.states[k + 1];
      Returned(r, q) && Read(r.heap, r.ops[q].cur) == Read(s.heap, s.ops[q].cur)
  {
    FullRunInv(run, k);
    assert StepAt(run, k);
    ReturnedStep(run.states[k], run.steps[k].p, run.steps[k].c, q);
  }

  // A slice returned by Messages() never changes, whatever runs afterwards.
  lemma {:induction false} SnapshotsNeverChange(run: Run, i: nat, j: nat, q: nat)
    requires FullRun(run) && i <= j <= |run.steps| && Returned(run.states[i], q)
    ensures Returned(run.states[j], q)
    ensures Read(run.states[j].heap, run.states[j].ops[q].cur) == Read(run.states[i].heap, run.states[i].ops[q].cur)
  {
    if i < j {
      SnapshotsNeverChange(run, i, j - 1, q);
      RunReturnedStep(run, j - 1, q);
    }
  }

  lemma ReturnedOk(s: State, p: nat)
    requires Inv(s) && Returned(s, p)
    ensures SnapshotOk(s, p)
  {
    assert OpHeapOk(s, p);
  }

  // Two sessions never share a backing array...
  lemma SessionsDoNotShare(s: State, x: nat, y: nat)
    requires Reachable(s) && x < |s.sessions| && y < |s.sessions| && x != y
    ensures s.sessions[x].messages.arr != s.sessions[y].messages.arr
  {
    ReachableInv(s);
    assert SessionHeapOk(s, x) && SessionHeapOk(s, y);
  }

  // ...and no snapshot shares one with a session, another snapshot or a running turn.
  lemma SnapshotsDoNotShare(s: State, p: nat, x: nat, q: nat)
    requires Reachable(s) && Returned(s, p) && p != q
    ensures x < |s.sessions| ==> s.ops[p].cur.arr != s.sessions[x].messages.arr
    ensures Returned(s, q) ==> s.ops[p].cur.arr != s.ops[q].cur.arr
    ensures q < |s.ops| && s.ops[q].pc.Loop? ==> s.ops[p].cur.arr != s.ops[q].cur.arr
  {
    ReachableInv(s);
    ReturnedOk(s, p);
    if x < |s.sessions| { assert SessionHeapOk(s, x); }
    if Returned(s, q) { ReturnedOk(s, q); }
    if q < |s.ops| && s.ops[q].pc.Loop? {
      assert OpHeapOk(s, q) && OpLocks(s, q) && SessionHeapOk(s, s.ops[q].found.value);
    }
  }
}
