/** Lock discipline of the session manager: who holds what in every reachable state, and what
    follows from it - mutual exclusion, ownership of `cancel`, race freedom, progress. */
module SessionLocks {
  import opened Wrappers
  import opened SessionProtocol

  predicate HoldsMu(pc: PC) {
    || pc.SetLock? || pc.SetCancel? || pc.SetUnlock? || pc.Begin? || pc.Remind? || pc.Loop?
    || pc.Strip? || pc.Commit? || pc.ClearLock? || pc.ClearCancel? || pc.ClearUnlock?
    || pc.OwnCancel? || pc.TurnUnlock? || pc.FinTake? || pc.FinRead? || pc.FinUnlock?
    || pc.SnapClone? || pc.SnapUnlock?
  }

  predicate HoldsCancelMu(pc: PC) {
    || pc.CancelCall? || pc.CancelUnlock? || pc.SetCancel? || pc.SetUnlock?
    || pc.ClearCancel? || pc.ClearUnlock?
  }

  predicate HoldsRead(pc: PC) {
    || pc.GetRead? || pc.GetUnlock? || pc.LookRead? || pc.LookUnlock?
  }

  predicate HoldsWrite(pc: PC) {
    || pc.Delete? || pc.DelRelease? || pc.NewInsert? || pc.NewRelease?
  }

  // Holding sm.mu for writing, or queued for it.
  predicate Writing(pc: PC) {
    HoldsWrite(pc) || pc.DelAcquire? || pc.NewAcquire?
  }

  // The turn has stored its CancelFunc and not yet cleared it.
  predicate CancelSet(pc: PC) {
    || pc.SetUnlock? || pc.Begin? || pc.Remind? || pc.Loop? || pc.Strip? || pc.Commit?
    || pc.ClearLock? || pc.ClearCancel?
  }

  // The points at which an operation works on a session it has found.
  predicate Bound(pc: PC) {
    || HoldsMu(pc) || HoldsCancelMu(pc) || pc.CancelLock? || pc.TurnLock? || pc.FinLock? || pc.SnapLock?
    || pc.DelAnnounce? || pc.DelAcquire? || pc.Delete? || pc.DelRelease?
  }

  // Which points each kind of operation passes through.
  predicate KindPc(k: Kind, pc: PC) {
    match pc
    case GetLock | GetRead | GetUnlock => k.Turn? || k.Reset? || k.Interrupt? || k.Snapshot?
    case LookLock | LookRead | LookUnlock => k.Close? || k.Reset?
    case CancelLock | CancelCall | CancelUnlock => k.Close? || k.Reset? || k.Interrupt?
    case TurnLock | SetLock | SetCancel | SetUnlock => k.Turn?
    case Begin | Remind | Loop | Strip | Commit => k.Turn?
    case ClearLock | ClearCancel | ClearUnlock | OwnCancel | TurnUnlock => k.Turn?
    case FinLock | FinTake | FinRead | FinUnlock => k.Close? || k.Reset?
    case DelAnnounce | DelAcquire | Delete | DelRelease => k.Close? || k.Reset?
    case NewAnnounce | NewAcquire | NewInsert | NewRelease => k.Reset? || k.Create?
    case SnapLock | SnapClone | SnapUnlock => k.Snapshot?
    case Done => true
  }

  ghost predicate OpLocks(s: State, p: nat)
    requires p < |s.ops|
  {
    var o := s.ops[p];
    && KindPc(o.kind, o.pc)
    && (o.found.Some? ==> o.found.value < |s.sessions|)
    && (Bound(o.pc) ==> o.found.Some?)
    && (HoldsMu(o.pc) ==> HasSession(s, p) && SessionOf(s, p).mu == Some(p))
    && (HoldsCancelMu(o.pc) ==> HasSession(s, p) && SessionOf(s, p).cancelMu == Some(p))
    && (CancelSet(o.pc) ==> HasSession(s, p) && SessionOf(s, p).cancel == Some(p))
    && (p in s.readers <==> HoldsRead(o.pc))
    && (s.writer == Some(p) <==> Writing(o.pc))
    && (HoldsWrite(o.pc) ==> s.readers == {})
  }

  // q is the operation that makes `holder` true of session x.
  ghost predicate Holder(s: State, x: nat, q: nat, holder: PC -> bool) {
    q < |s.ops| && holder(s.ops[q].pc) && s.ops[q].found == Some(x)
  }

  ghost predicate LocksOk(s: State, x: nat)
    requires x < |s.sessions|
  {
    var ss := s.sessions[x];
    && (ss.mu.Some? ==> Holder(s, x, ss.mu.value, HoldsMu))
    && (ss.cancelMu.Some? ==> Holder(s, x, ss.cancelMu.value, HoldsCancelMu))
    && (ss.cancel.Some? ==> Holder(s, x, ss.cancel.value, CancelSet))
  }

  ghost predicate LockInv(s: State) {
    && (forall p :: 0 <= p < |s.ops| ==> OpLocks(s, p))
    && (forall x :: 0 <= x < |s.sessions| ==> LocksOk(s, x))
    && (forall p :: p in s.readers ==> p < |s.ops|)
    && (s.writer.Some? ==> s.writer.value < |s.ops|)
    && (forall x :: x in s.live ==> x < |s.sessions|)
  }

  // The points before and after a step agree with its action on the session's locks...
  predicate SessionPoints(o: Op, o': Op) {
    && KindPc(o.kind, o'.pc)
    && (Bound(o'.pc) ==> o'.found.Some?)
    && (Bound(o.pc) || Bound(o'.pc) ==> o'.found == o.found)
    && MuPoints(o.pc, o'.pc)
    && CancelPoints(o.pc, o'.pc)
  }

  predicate MuPoints(pc: PC, n: PC) {
    && HoldsMu(n) == (Act(pc).LockMu? || (HoldsMu(pc) && !Act(pc).UnlockMu?))
    && (Act(pc).LockMu? ==> Bound(pc))
    && (Act(pc).UnlockMu? ==> HoldsMu(pc))
  }

  predicate CancelPoints(pc: PC, n: PC) {
    && HoldsCancelMu(n) == (Act(pc).LockCancel? || (HoldsCancelMu(pc) && !Act(pc).UnlockCancel?))
    && CancelSet(n) == (pc.SetCancel? || (CancelSet(pc) && !pc.ClearCancel?))
    && (Act(pc).LockCancel? ==> Bound(pc))
    && (Act(pc).UnlockCancel? ==> HoldsCancelMu(pc))
  }

  // ...and with its action on the manager's lock.
  predicate ReadPoints(pc: PC, n: PC) {
    var a := Act(pc);
    && HoldsRead(n) == (a.ReadLock? || (HoldsRead(pc) && !a.ReadUnlock?))
    && (a.ReadUnlock? ==> HoldsRead(pc))
  }

  predicate WritePoints(pc: PC, n: PC) {
    var a := Act(pc);
    && Writing(n) == (a.Announce? || (Writing(pc) && !a.WriteUnlock?))
    && HoldsWrite(n) == (a.WriteLock? || (HoldsWrite(pc) && !a.WriteUnlock?))
    && (a.WriteLock? ==> Writing(pc))
    && (a.WriteUnlock? ==> HoldsWrite(pc))
  }

  predicate ManagerPoints(o: Op, o': Op) {
    ReadPoints(o.pc, o'.pc) && WritePoints(o.pc, o'.pc)
  }

  lemma KindPcKept(o: Op, c: Choice)
    requires KindPc(o.kind, o.pc) && o.pc != Done
    ensures KindPc(o.kind, NextPc(o, c))
  {
  }

  lemma MuPointsAgree(o: Op, c: Choice)
    requires KindPc(o.kind, o.pc) && o.pc != Done
    ensures MuPoints(o.pc, NextPc(o, c))
  {
  }

  lemma CancelPointsAgree(o: Op, c: Choice)
    requires KindPc(o.kind, o.pc) && o.pc != Done
    ensures CancelPoints(o.pc, NextPc(o, c))
  {
  }

  lemma SessionPointsAgree(o: Op, o': Op, c: Choice)
    requires KindPc(o.kind, o.pc) && o.pc != Done && (Bound(o.pc) ==> o.found.Some?)
    requires o'.kind == o.kind && o'.pc == o.pc
    requires o'.found == o.found || o.pc.GetRead? || o.pc.LookRead?
    ensures SessionPoints(o, o'.(pc := NextPc(o', c)))
  {
    KindPcKept(o', c);
    BoundPointsAgree(o, o', c);
    MuPointsAgree(o', c);
    CancelPointsAgree(o', c);
  }

  lemma BoundPointsAgree(o: Op, o': Op, c: Choice)
    requires KindPc(o.kind, o.pc) && o.pc != Done && (Bound(o.pc) ==> o.found.Some?)
    requires o'.kind == o.kind && o'.pc == o.pc
    requires o'.found == o.found || o.pc.GetRead? || o.pc.LookRead?
    ensures Bound(NextPc(o', c)) ==> o'.found.Some?
    ensures Bound(o.pc) || Bound(NextPc(o', c)) ==> o'.found == o.found
  {
  }

  lemma ReadPointsAgree(o: Op, c: Choice)
    requires KindPc(o.kind, o.pc) && o.pc != Done
    ensures ReadPoints(o.pc, NextPc(o, c))
  {
  }

  lemma WritePointsAgree(o: Op, c: Choice)
    requires KindPc(o.kind, o.pc) && o.pc != Done
    ensures WritePoints(o.pc, NextPc(o, c))
  {
  }

  lemma ManagerPointsAgree(o: Op, o': Op, c: Choice)
    requires KindPc(o.kind, o.pc) && o.pc != Done && o'.kind == o.kind && o'.pc == o.pc
    ensures ManagerPoints(o, o'.(pc := NextPc(o', c)))
  {
    ReadPointsAgree(o', c);
    WritePointsAgree(o', c);
  }

  // ---- one step, seen from the locks ------------------------------------------------------

  // The locks of session x after operation p stepped.
  predicate SessionStep(s: State, r: State, p: nat, x: nat)
    requires p < |s.ops| && x < |s.sessions| && x < |r.sessions|
  {
    var pc, a := s.ops[p].pc, Act(s.ops[p].pc);
    var old', new' := s.sessions[x], r.sessions[x];
    if s.ops[p].found != Some(x) then
      new'.mu == old'.mu && new'.cancelMu == old'.cancelMu && new'.cancel == old'.cancel
    else
      && new'.mu == (if a.LockMu? then Some(p) else if a.UnlockMu? then None else old'.mu)
      && new'.cancelMu == (if a.LockCancel? then Some(p) else if a.UnlockCancel? then None else old'.cancelMu)
      && new'.cancel == (if pc.SetCancel? then Some(p) else if pc.ClearCancel? then None else old'.cancel)
  }

  predicate Unlocked(ss: Session) {
    ss.mu == None && ss.cancelMu == None && ss.cancel == None
  }

  predicate ManagerStep(s: State, r: State, p: nat)
    requires p < |s.ops|
  {
    var a := Act(s.ops[p].pc);
    && r.readers == (if a.ReadLock? then s.readers + {p} else if a.ReadUnlock? then s.readers - {p} else s.readers)
    && r.writer == (if a.Announce? then Some(p) else if a.WriteUnlock? then None else s.writer)
  }

  // r is s after an enabled step of p: everything the lock invariant needs to know about it.
  ghost predicate Stepped(s: State, r: State, p: nat) {
    && Enabled(s, p)
    && |r.ops| == |s.ops|
    && (forall q :: 0 <= q < |s.ops| && q != p ==> r.ops[q] == s.ops[q])
    && |s.sessions| <= |r.sessions|
    && (forall x :: 0 <= x < |s.sessions| ==> SessionStep(s, r, p, x))
    && (forall x :: |s.sessions| <= x < |r.sessions| ==> Unlocked(r.sessions[x]))
    && ManagerStep(s, r, p)
    && r.ops[p].kind == s.ops[p].kind
    && SessionPoints(s.ops[p], r.ops[p])
    && ManagerPoints(s.ops[p], r.ops[p])
  }

  // Data changes no lock, and only the stored cancel it is about.
  predicate DataTouches(s: State, d: State, p: nat, x: nat)
    requires p < |s.ops| && x < |s.sessions| && x < |d.sessions|
  {
    var pc, ss := s.ops[p].pc, s.sessions[x];
    && d.sessions[x].mu == ss.mu
    && d.sessions[x].cancelMu == ss.cancelMu
    && d.sessions[x].cancel == (if s.ops[p].found != Some(x) then ss.cancel
                                else if pc.SetCancel? then Some(p)
                                else if pc.ClearCancel? then None
                                else ss.cancel)
  }

  function Locked(ss: Session, p: nat, a: Action): Session {
    if a.LockMu? then ss.(mu := Some(p))
    else if a.UnlockMu? then ss.(mu := None)
    else if a.LockCancel? then ss.(cancelMu := Some(p))
    else if a.UnlockCancel? then ss.(cancelMu := None)
    else ss
  }

  lemma SessionsFramed(s: State, p: nat, c: Choice)
    requires p < |s.ops| && (Bound(s.ops[p].pc) ==> HasSession(s, p))
    ensures var d := Data(s, p, c);
      && |s.sessions| <= |d.sessions|
      && (forall x :: 0 <= x < |s.sessions| ==> DataTouches(s, d, p, x))
      && (forall x :: |s.sessions| <= x < |d.sessions| ==> Unlocked(d.sessions[x]))
      && (d.ops[p].found == s.ops[p].found || s.ops[p].pc.GetRead? || s.ops[p].pc.LookRead?)
  {
  }

  lemma SessionsStep(s: State, p: nat, c: Choice)
    requires Enabled(s, p) && (Bound(s.ops[p].pc) ==> HasSession(s, p))
    ensures var r := Apply(s, p, c);
      && |s.sessions| <= |r.sessions|
      && (forall x :: 0 <= x < |s.sessions| ==> SessionStep(s, r, p, x))
      && (forall x :: |s.sessions| <= x < |r.sessions| ==> Unlocked(r.sessions[x]))
  {
    SessionsFramed(s, p, c);
    var d := Data(s, p, c);
    LockingTouches(d, p, Act(s.ops[p].pc));
    forall x | 0 <= x < |s.sessions| ensures SessionStep(s, Apply(s, p, c), p, x) {
      assert DataTouches(s, d, p, x);
    }
  }

  lemma LockingTouches(d: State, p: nat, a: Action)
    requires p < |d.ops|
    ensures var r := Locking(d, p, a);
      && r.ops == d.ops && |r.sessions| == |d.sessions|
      && r.heap == d.heap && r.owner == d.owner && r.live == d.live && r.finalized == d.finalized
      && (forall x :: 0 <= x < |d.sessions| ==>
            r.sessions[x] == if d.ops[p].found == Some(x) then Locked(d.sessions[x], p, a) else d.sessions[x])
  {
  }

  lemma StepperLocals(s: State, p: nat, c: Choice)
    requires Enabled(s, p)
    ensures var r := Apply(s, p, c);
      && |r.ops| == |s.ops|
      && r.ops[p].kind == s.ops[p].kind
      && (r.ops[p].found == s.ops[p].found || s.ops[p].pc.GetRead? || s.ops[p].pc.LookRead?)
  {
    FoundData(s, p, c);
    LockingTouches(Data(s, p, c), p, Act(s.ops[p].pc));
  }

  lemma FoundData(s: State, p: nat, c: Choice)
    requires p < |s.ops|
    ensures Data(s, p, c).ops[p].found == s.ops[p].found || s.ops[p].pc.GetRead? || s.ops[p].pc.LookRead?
  {
  }

  lemma OthersStep(s: State, p: nat, c: Choice)
    requires Enabled(s, p)
    ensures var r := Apply(s, p, c);
      && ManagerStep(s, r, p)
      && |r.ops| == |s.ops|
      && r.ops[p].kind == s.ops[p].kind
      && (forall q :: 0 <= q < |s.ops| && q != p ==> r.ops[q] == s.ops[q])
      && (r.ops[p].found == s.ops[p].found || s.ops[p].pc.GetRead? || s.ops[p].pc.LookRead?)
  {
    StepperLocals(s, p, c);
  }

  lemma StepperMoves(s: State, p: nat, c: Choice)
    requires p < |s.ops|
    ensures var d, r := Data(s, p, c), Apply(s, p, c);
      && p < |d.ops| && p < |r.ops|
      && d.ops[p].pc == s.ops[p].pc && r.ops[p] == d.ops[p].(pc := NextPc(d.ops[p], c))
  {
    LockingTouches(Data(s, p, c), p, Act(s.ops[p].pc));
  }

  lemma ApplySteps(s: State, p: nat, c: Choice)
    requires Enabled(s, p) && OpLocks(s, p)
    ensures Stepped(s, Apply(s, p, c), p)
  {
    SessionsStep(s, p, c);
    OthersStep(s, p, c);
    var t := Locking(Data(s, p, c), p, Act(s.ops[p].pc));
    SessionPointsAgree(s.ops[p], t.ops[p], c);
    ManagerPointsAgree(s.ops[p], t.ops[p], c);
  }

  lemma StepperKeeps(s: State, r: State, p: nat)
    requires Stepped(s, r, p) && OpLocks(s, p)
    requires r.ops[p].found.Some? ==> r.ops[p].found.value < |r.sessions|
    ensures OpLocks(r, p)
  {
    if HasSession(s, p) { assert SessionStep(s, r, p, s.ops[p].found.value); }
  }

  lemma BystanderKeeps(s: State, r: State, p: nat, q: nat)
    requires Stepped(s, r, p) && OpLocks(s, p) && q < |s.ops| && q != p && OpLocks(s, q)
    ensures OpLocks(r, q)
  {
    if HasSession(s, q) { assert SessionStep(s, r, p, s.ops[q].found.value); }
  }

  lemma SessionKeeps(s: State, r: State, p: nat, x: nat)
    requires Stepped(s, r, p) && x < |r.sessions|
    requires x < |s.sessions| ==> LocksOk(s, x)
    ensures LocksOk(r, x)
  {
    if x < |s.sessions| {
      assert SessionStep(s, r, p, x);
    } else {
      assert Unlocked(r.sessions[x]);
    }
  }

  lemma LiveSessionsExist(s: State, p: nat, c: Choice)
    requires Enabled(s, p) && OpLocks(s, p)
    requires forall x :: x in s.live ==> x < |s.sessions|
    ensures var r := Apply(s, p, c);
      && (forall x :: x in r.live ==> x < |r.sessions|)
      && (r.ops[p].found.Some? ==> r.ops[p].found.value < |r.sessions|)
  {
    LockingTouches(Data(s, p, c), p, Act(s.ops[p].pc));
    LookupsExist(s, p, c);
  }

  lemma LookupsExist(s: State, p: nat, c: Choice)
    requires p < |s.ops| && (s.ops[p].found.Some? ==> s.ops[p].found.value < |s.sessions|)
    requires forall x :: x in s.live ==> x < |s.sessions|
    ensures var d := Data(s, p, c);
      && (forall x :: x in d.live ==> x < |d.sessions|)
      && (d.ops[p].found.Some? ==> d.ops[p].found.value < |d.sessions|)
  {
  }

  lemma StepKeepsLocks(s: State, p: nat, c: Choice)
    requires LockInv(s) && Enabled(s, p)
    ensures LockInv(Apply(s, p, c))
  {
    assert OpLocks(s, p);
    ApplySteps(s, p, c);
    LiveSessionsExist(s, p, c);
    SteppedKeepsLocks(s, Apply(s, p, c), p);
  }

  lemma SteppedKeepsLocks(s: State, r: State, p: nat)
    requires LockInv(s) && Stepped(s, r, p)
    requires forall x :: x in r.live ==> x < |r.sessions|
    requires r.ops[p].found.Some? ==> r.ops[p].found.value < |r.sessions|
    ensures LockInv(r)
  {
    assert OpLocks(s, p);
    forall q | 0 <= q < |r.ops| ensures OpLocks(r, q) {
      if q == p { StepperKeeps(s, r, p); } else { BystanderKeeps(s, r, p, q); }
    }
    forall x | 0 <= x < |r.sessions| ensures LocksOk(r, x) {
      SessionKeeps(s, r, p, x);
    }
  }
}
