/** The straight-line program of every operation, and that the machine runs it to its end. */
module SessionScripts {
  import opened Wrappers
  import opened Basics
  import opened SessionProtocol
  import opened SessionLocks
  import opened SessionTheorems

  // ---- the programs -----------------------------------------------------------------------

  const GET := [GetLock, GetRead, GetUnlock]
  const LOOK := [LookLock, LookRead, LookUnlock]
  const CANCEL := [CancelLock, CancelCall, CancelUnlock]
  const CLOSE := [FinLock, FinTake, FinRead, FinUnlock, DelAnnounce, DelAcquire, Delete, DelRelease]
  const NEW := [NewAnnounce, NewAcquire, NewInsert, NewRelease]
  const SNAP := [SnapLock, SnapClone, SnapUnlock]
  const TURN := [TurnLock, SetLock, SetCancel, SetUnlock, Begin, Remind, Loop, Strip, Commit,
                 ClearLock, ClearCancel, ClearUnlock, OwnCancel, TurnUnlock]

  // Which of them a step belongs to, and where in it; -1 for none.
  function Section(pc: PC): seq<PC> {
    match pc
    case GetLock | GetRead | GetUnlock => GET
    case LookLock | LookRead | LookUnlock => LOOK
    case CancelLock | CancelCall | CancelUnlock => CANCEL
    case FinLock | FinTake | FinRead | FinUnlock | DelAnnounce | DelAcquire | Delete | DelRelease => CLOSE
    case NewAnnounce | NewAcquire | NewInsert | NewRelease => NEW
    case SnapLock | SnapClone | SnapUnlock => SNAP
    case Done => []
    case _ => TURN
  }

  function Position(pc: PC): nat {
    match pc
    case GetLock => 0 case GetRead => 1 case GetUnlock => 2
    case LookLock => 0 case LookRead => 1 case LookUnlock => 2
    case CancelLock => 0 case CancelCall => 1 case CancelUnlock => 2
    case FinLock => 0 case FinTake => 1 case FinRead => 2 case FinUnlock => 3
    case DelAnnounce => 4 case DelAcquire => 5 case Delete => 6 case DelRelease => 7
    case NewAnnounce => 0 case NewAcquire => 1 case NewInsert => 2 case NewRelease => 3
    case SnapLock => 0 case SnapClone => 1 case SnapUnlock => 2
    case TurnLock => 0 case SetLock => 1 case SetCancel => 2 case SetUnlock => 3
    case Begin => 4 case Remind => 5 case Loop => 6 case Strip => 7 case Commit => 8
    case ClearLock => 9 case ClearCancel => 10 case ClearUnlock => 11 case OwnCancel => 12 case TurnUnlock => 13
    case Done => 0
  }

  // What a finished operation has run.
  function Script(o: Op): seq<PC> {
    match o.kind
    case Turn(_, _) => if o.found.Some? then GET + TURN else GET
    case Interrupt(_) => if o.found.Some? then GET + CANCEL else GET
    case Snapshot(_) => if o.found.Some? then GET + SNAP else GET
    case Close(_) => if o.found.Some? then LOOK + CANCEL + CLOSE else LOOK
    case Create => NEW
    case Reset(_) =>
      if o.found.Some? then GET + LOOK + CANCEL + CLOSE + NEW
      else if o.created.Some? then GET + LOOK + NEW
      else GET
  }

  // What an operation has run before the section it is in.
  function Sections(o: Op): seq<PC> {
    match o.pc
    case GetLock | GetRead | GetUnlock => []
    case LookLock | LookRead | LookUnlock => if o.kind.Reset? then GET else []
    case CancelLock | CancelCall | CancelUnlock =>
      if o.kind.Close? then LOOK else if o.kind.Reset? then GET + LOOK else GET
    case FinLock | FinTake | FinRead | FinUnlock | DelAnnounce | DelAcquire | Delete | DelRelease =>
      if o.kind.Reset? then GET + LOOK + CANCEL else LOOK + CANCEL
    case NewAnnounce | NewAcquire | NewInsert | NewRelease =>
      if !o.kind.Reset? then [] else if o.found.Some? then GET + LOOK + CANCEL + CLOSE else GET + LOOK
    case Done => Script(o)
    case _ => GET
  }

  function Passed(o: Op): seq<PC> {
    Sections(o) + Section(o.pc)[..Min(Position(o.pc), |Section(o.pc)|)]
  }

  // ---- one step ---------------------------------------------------------------------------

  lemma PointInSection(pc: PC)
    requires pc != Done
    ensures Position(pc) < |Section(pc)| && Section(pc)[Position(pc)] == pc
  {
  }

  // A new session is there from its insertion on.
  predicate CreatedOk(o: Op) {
    && (o.created.Some? ==> o.pc.NewRelease? || o.pc.Done?)
    && (o.pc.NewRelease? ==> o.created.Some?)
    && (o.pc.Done? && (o.kind.Create? || (o.kind.Reset? && o.found.Some?)) ==> o.created.Some?)
  }

  predicate LastInSection(pc: PC) {
    pc.GetUnlock? || pc.LookUnlock? || pc.CancelUnlock? || pc.DelRelease? || pc.NewRelease? || pc.SnapUnlock? || pc.TurnUnlock?
  }

  // What a step of p makes of o, its control apart.
  predicate Locals(o: Op, d: Op) {
    && d.kind == o.kind && d.pc == o.pc
    && (d.found == o.found || o.pc.GetRead? || o.pc.LookRead?)
    && (if o.pc.NewInsert? then d.created.Some? else d.created == o.created)
  }

  // Within a section the next step is the one behind.
  lemma StaysInSection(o: Op, d: Op, c: Choice)
    requires KindPc(o.kind, o.pc) && o.pc != Done && !LastInSection(o.pc) && !(o.pc.Loop? && c.loop.Append?)
    requires Locals(o, d)
    ensures var o' := d.(pc := NextPc(d, c));
      && o'.pc != Done && Section(o'.pc) == Section(o.pc) && Position(o'.pc) == Position(o.pc) + 1
      && Sections(o') == Sections(o)
  {
  }

  // Behind a section comes the start of another, or the end.
  lemma LeavesSection(o: Op, d: Op, c: Choice)
    requires KindPc(o.kind, o.pc) && LastInSection(o.pc) && CreatedOk(o)
    requires (Bound(o.pc) ==> o.found.Some?) && Locals(o, d)
    ensures Position(o.pc) + 1 == |Section(o.pc)|
    ensures var o' := d.(pc := NextPc(d, c));
      Position(o'.pc) == 0 && Sections(o') == Sections(o) + Section(o.pc)
  {
  }

  lemma OneFurther(a: seq<PC>, s: seq<PC>, i: nat)
    requires i < |s|
    ensures a + s[..i] + [s[i]] == a + s[..i + 1]
  {
  }

  lemma PassedStep(o: Op, d: Op, c: Choice)
    requires KindPc(o.kind, o.pc) && o.pc != Done && CreatedOk(o) && !(o.pc.Loop? && c.loop.Append?)
    requires (Bound(o.pc) ==> o.found.Some?) && Locals(o, d)
    ensures Passed(d.(pc := NextPc(d, c))) == Passed(o) + [o.pc]
  {
    var o', s, i := d.(pc := NextPc(d, c)), Section(o.pc), Position(o.pc);
    PointInSection(o.pc);
    OneFurther(Sections(o), s, i);
    if LastInSection(o.pc) {
      LeavesSection(o, d, c);
      assert s[..i + 1] == s;
      Assoc(Sections(o'), [], []);
    } else {
      StaysInSection(o, d, c);
      PointInSection(o'.pc);
    }
  }

  lemma PassedLoop(o: Op, d: Op, c: Choice)
    requires o.pc.Loop? && c.loop.Append? && Locals(o, d)
    ensures Passed(d.(pc := NextPc(d, c))) == Passed(o)
  {
  }

  lemma CreatedStep(o: Op, d: Op, c: Choice)
    requires KindPc(o.kind, o.pc) && o.pc != Done && CreatedOk(o) && Locals(o, d)
    ensures CreatedOk(d.(pc := NextPc(d, c)))
  {
  }

  // ---- runs -------------------------------------------------------------------------------

  // The steps p has made among the first k, the rounds of its agent loop apart.
  function Trace(run: Run, k: nat, p: nat): seq<PC>
    requires k <= |run.steps| < |run.states|
  {
    if k == 0 then [] else Trace(run, k - 1, p) + Made(run, k - 1, p)
  }

  function Made(run: Run, k: nat, p: nat): seq<PC>
    requires k < |run.steps| < |run.states|
  {
    var s, step := run.states[k], run.steps[k];
    if step.p == p && p < |s.ops| && !IsAppend(s, p, step.c) then [s.ops[p].pc] else []
  }

  lemma DataLocals(s: State, p: nat, c: Choice)
    requires p < |s.ops|
    ensures p < |Data(s, p, c).ops| && Locals(s.ops[p], Data(s, p, c).ops[p])
  {
  }

  lemma StepPasses(s: State, p: nat, c: Choice)
    requires LockInv(s) && Enabled(s, p) && CreatedOk(s.ops[p])
    ensures p < |Apply(s, p, c).ops|
    ensures var o, o' := s.ops[p], Apply(s, p, c).ops[p];
      && CreatedOk(o')
      && Passed(o') == if IsAppend(s, p, c) then Passed(o) else Passed(o) + [o.pc]
  {
    assert OpLocks(s, p);
    StepperMoves(s, p, c);
    DataLocals(s, p, c);
    var o, d := s.ops[p], Data(s, p, c).ops[p];
    CreatedStep(o, d, c);
    if IsAppend(s, p, c) { PassedLoop(o, d, c); } else { PassedStep(o, d, c); }
  }

  predicate OnScript(run: Run, k: nat, p: nat)
    requires k <= |run.steps| < |run.states|
  {
    p < |run.states[k].ops| ==>
      CreatedOk(run.states[k].ops[p]) && Trace(run, k, p) == Passed(run.states[k].ops[p])
  }

  lemma OnScriptStep(run: Run, k: nat, p: nat)
    requires FullRun(run) && k < |run.steps| && OnScript(run, k, p)
    ensures OnScript(run, k + 1, p)
  {
    var s, step := run.states[k], run.steps[k];
    FullRunInv(run, k);
    assert StepAt(run, k);
    OthersStep(s, step.p, step.c);
    if p < |s.ops| {
      if step.p == p { StepPasses(s, p, step.c); }
      Assoc(Trace(run, k, p), [], []);
    }
  }

  lemma StartsOnScript(run: Run, p: nat)
    requires FullRun(run)
    ensures OnScript(run, 0, p)
  {
  }

  lemma {:induction false} RunOnScript(run: Run, k: nat, p: nat)
    requires FullRun(run) && k <= |run.steps|
    ensures OnScript(run, k, p)
  {
    if k == 0 { StartsOnScript(run, p); } else {
      RunOnScript(run, k - 1, p);
      OnScriptStep(run, k - 1, p);
    }
  }

  // ---- what a finished operation has done -------------------------------------------------

  // Whatever the schedule, a finished operation has made exactly these steps, in this order, and
  // no other: what it does when it found its session, and when it did not.
  lemma FinishedTrace(run: Run, k: nat, p: nat)
    requires FullRun(run) && k <= |run.steps| && p < |run.states[k].ops| && run.states[k].ops[p].pc == Done
    ensures var o, trace := run.states[k].ops[p], Trace(run, k, p);
      match o.kind
      case Turn(_, _) => trace == if o.found.Some? then GET + TURN else GET
      case Interrupt(_) => trace == if o.found.Some? then GET + CANCEL else GET
      case Snapshot(_) => trace == if o.found.Some? then GET + SNAP else GET
      case Close(_) => trace == if o.found.Some? then LOOK + CANCEL + CLOSE else LOOK
      case Create => trace == NEW
      case Reset(_) =>
        && (o.found.Some? ==> trace == GET + LOOK + CANCEL + CLOSE + NEW)
        && (o.found.None? ==> trace == if o.created.Some? then GET + LOOK + NEW else GET)
  {
    RunOnScript(run, k, p);
    Assoc(Script(run.states[k].ops[p]), [], []);
  }

  // ---- the session a Create or a Reset makes ----------------------------------------------

  predicate CreatedIsNew(s: State, o: Op) {
    o.created.Some? ==> o.created.value < |s.sessions| && o.created != o.found
  }

  lemma NewStep(s: State, p: nat, c: Choice)
    requires LockInv(s) && Enabled(s, p) && CreatedOk(s.ops[p]) && CreatedIsNew(s, s.ops[p])
    ensures p < |Apply(s, p, c).ops| && CreatedIsNew(Apply(s, p, c), Apply(s, p, c).ops[p])
  {
    assert OpLocks(s, p);
    SessionsStep(s, p, c);
    StepperMoves(s, p, c);
    DataLocals(s, p, c);
    if s.ops[p].pc.NewInsert? { InsertsSession(s, p, c); }
  }

  lemma InsertsSession(s: State, p: nat, c: Choice)
    requires p < |s.ops| && s.ops[p].pc.NewInsert?
    ensures var d, r := Data(s, p, c), Apply(s, p, c);
      && d.ops[p].created == Some(|s.sessions|) && d.ops[p].found == s.ops[p].found
      && |r.sessions| == |s.sessions| + 1
  {
  }

  lemma NewStepAt(run: Run, k: nat, p: nat)
    requires FullRun(run) && k < |run.steps| && p < |run.states[k].ops|
    requires CreatedIsNew(run.states[k], run.states[k].ops[p])
    ensures p < |run.states[k + 1].ops| && CreatedIsNew(run.states[k + 1], run.states[k + 1].ops[p])
  {
    var s, step := run.states[k], run.steps[k];
    FullRunInv(run, k);
    assert StepAt(run, k);
    OthersStep(s, step.p, step.c);
    assert OpLocks(s, step.p);
    SessionsStep(s, step.p, step.c);
    if step.p == p {
      RunOnScript(run, k, p);
      NewStep(s, p, step.c);
    }
  }

  lemma {:induction false} RunCreatesNew(run: Run, k: nat, p: nat)
    requires FullRun(run) && k <= |run.steps| && p < |run.states[0].ops|
    ensures p < |run.states[k].ops| && CreatedIsNew(run.states[k], run.states[k].ops[p])
  {
    if k > 0 {
      RunCreatesNew(run, k - 1, p);
      NewStepAt(run, k - 1, p);
    }
  }

  // A finished Create, and a finished Reset that found its session, has made a session: another
  // than the one it closed.
  lemma ResetCreates(run: Run, k: nat, p: nat)
    requires FullRun(run) && k <= |run.steps| && p < |run.states[0].ops|
    ensures p < |run.states[k].ops|
    ensures var s, o := run.states[k], run.states[k].ops[p];
      o.pc.Done? && (o.kind.Create? || (o.kind.Reset? && o.found.Some?)) ==>
        && o.created.Some? && o.created.value < |s.sessions|
        && (o.kind.Reset? ==> o.created.value != o.kind.id && NewInsert in Trace(run, k, p))
  {
    RunCreatesNew(run, k, p);
    RunOnScript(run, k, p);
    var o := run.states[k].ops[p];
    if o.found.Some? { RunAsked(run, k, p); }
    if o.pc.Done? && o.kind.Reset? && o.found.Some? {
      FinishedTrace(run, k, p);
      assert NEW[2] == NewInsert;
    }
  }
}
