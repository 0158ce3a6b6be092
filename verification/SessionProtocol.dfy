/** pkg/daemon/sessions.go as a state machine.

    Any number of operations (turns, closes, resets, interrupts, snapshot reads, creates) run
    concurrently. Each is a program counter over atomic steps; a schedule says which operation
    steps next and resolves what the environment decides (the provider's replies, the reminder,
    the capacity the allocator picks). Conversation histories are Go slices on an explicit heap
    of backing arrays, so `append` writes in place whenever capacity allows.

    A session's ID is its position in `sessions`: every uuid.New() is distinct. */
module SessionProtocol {
  import opened Wrappers
  import opened Messages

  datatype Kind =
    | Turn(id: nat, input: string)
    | Close(id: nat)
    | Reset(id: nat)
    | Interrupt(id: nat)
    | Snapshot(id: nat)          // sm.Get(id) followed by sess.Messages()
    | Create

  datatype PC =
    // SessionManager.Get
    | GetLock | GetRead | GetUnlock
    // the lookup inside Close
    | LookLock | LookRead | LookUnlock
    // cancelInflight
    | CancelLock | CancelCall | CancelUnlock
    // runTurnInternal
    | TurnLock | SetLock | SetCancel | SetUnlock
    | Begin | Remind | Loop | Strip | Commit
    | ClearLock | ClearCancel | ClearUnlock | OwnCancel | TurnUnlock
    // Close, once the turn is cancelled
    | FinLock | FinTake | FinRead | FinUnlock
    | DelAnnounce | DelAcquire | Delete | DelRelease
    // Create
    | NewAnnounce | NewAcquire | NewInsert | NewRelease
    // Messages
    | SnapLock | SnapClone | SnapUnlock
    | Done

  // A Go slice that starts at offset 0 of its backing array; its capacity is the array's size.
  datatype Slice = Slice(arr: nat, len: nat)

  const NIL_SLICE := Slice(0, 0)

  type Heap = seq<seq<Message>>

  datatype Op = Op(
    kind: Kind,
    pc: PC,
    found: Option<nat>,          // the session pointer obtained from the map
    created: Option<nat>,        // the session Create allocated
    orig: Slice,                 // a turn's log before the reminder was applied
    cur: Slice,                  // a turn's working log; a reader's or finalizer's slice
    tail: int,                   // index of the message that carries the reminder, or -1
    reminder: string,
    added: seq<Message>,         // everything the agent loop appended
    failed: bool)                // the loop returned an error, ErrDone included

  datatype Session = Session(
    messages: Slice,
    mu: Option<nat>,
    cancelMu: Option<nat>,
    cancel: Option<nat>)         // whose CancelFunc is stored

  // One call of agent.Finalize; which operation made it is auxiliary.
  datatype Finalization = Finalization(closer: nat, session: nat, transcript: seq<Message>)

  // Who may write an array. Auxiliary: no guard and no other field depends on it.
  datatype Owner = OfSession(x: nat) | OfTurn(p: nat) | OfSnapshot(p: nat)

  datatype State = State(
    ops: seq<Op>,
    sessions: seq<Session>,      // every session ever allocated
    live: set<nat>,              // the keys of sm.sessions
    readers: set<nat>,           // holders of sm.mu.RLock
    writer: Option<nat>,         // announced or holding sm.mu.Lock
    heap: Heap,
    owner: seq<Owner>,
    cancelled: set<nat>,         // turns whose context a cancelInflight cancelled
    finalized: seq<Finalization>)

  datatype LoopChoice = Append | Succeed | Fail

  // What the environment decides at a step.
  datatype Choice = Choice(extra: nat, reminder: string, batch: seq<Message>, loop: LoopChoice)

  datatype Step = Step(p: nat, c: Choice)

  // ---- Go slices --------------------------------------------------------------------------

  predicate ValidSlice(h: Heap, s: Slice) {
    s.arr < |h| && s.len <= |h[s.arr]|
  }

  // The elements a slice shows.
  function Read(h: Heap, s: Slice): seq<Message> {
    if ValidSlice(h, s) then h[s.arr][..s.len] else []
  }

  predicate Fits(h: Heap, s: Slice, n: nat) {
    ValidSlice(h, s) && s.len + n <= |h[s.arr]|
  }

  function Spare(extra: nat): seq<Message> {
    seq(extra, _ => ZERO_MESSAGE)
  }

  // Go's append: in place when the capacity allows, else a copy in a new, possibly larger array.
  function AppendHeap(h: Heap, s: Slice, ms: seq<Message>, extra: nat): Heap {
    if Fits(h, s, |ms|) then
      h[s.arr := h[s.arr][..s.len] + ms + h[s.arr][s.len + |ms|..]]
    else
      h + [Read(h, s) + ms + Spare(extra)]
  }

  function AppendSlice(h: Heap, s: Slice, ms: seq<Message>): Slice {
    if Fits(h, s, |ms|) then Slice(s.arr, s.len + |ms|) else Slice(|h|, |Read(h, s)| + |ms|)
  }

  function WriteAt(h: Heap, s: Slice, i: int, m: Message): Heap {
    if s.arr < |h| && 0 <= i < |h[s.arr]| then h[s.arr := h[s.arr][i := m]] else h
  }

  // ---- control flow -----------------------------------------------------------------------

  function Start(k: Kind): PC {
    match k
    case Close(_) => LookLock
    case Create => NewAnnounce
    case _ => GetLock
  }

  function NextPc(o: Op, c: Choice): PC {
    Behind(o.pc, o.kind, o.found, c)
  }

  function Behind(pc: PC, kind: Kind, found: Option<nat>, c: Choice): PC {
    match pc
    case GetLock => GetRead
    case GetRead => GetUnlock
    case GetUnlock =>
      if found.None? then Done else
      (match kind
       case Turn(_, _) => TurnLock
       case Reset(_) => LookLock
       case Interrupt(_) => CancelLock
       case Snapshot(_) => SnapLock
       case _ => Done)
    case LookLock => LookRead
    case LookRead => LookUnlock
    case LookUnlock => if found.Some? then CancelLock else AfterClose(kind)
    case CancelLock => CancelCall
    case CancelCall => CancelUnlock
    case CancelUnlock => if kind.Interrupt? then Done else FinLock
    case TurnLock => SetLock
    case SetLock => SetCancel
    case SetCancel => SetUnlock
    case SetUnlock => Begin
    case Begin => Remind
    case Remind => Loop
    case Loop => if c.loop.Append? then Loop else Strip
    case Strip => Commit
    case Commit => ClearLock
    case ClearLock => ClearCancel
    case ClearCancel => ClearUnlock
    case ClearUnlock => OwnCancel
    case OwnCancel => TurnUnlock
    case TurnUnlock => Done
    case FinLock => FinTake
    case FinTake => FinRead
    case FinRead => FinUnlock
    case FinUnlock => DelAnnounce
    case DelAnnounce => DelAcquire
    case DelAcquire => Delete
    case Delete => DelRelease
    case DelRelease => AfterClose(kind)
    case NewAnnounce => NewAcquire
    case NewAcquire => NewInsert
    case NewInsert => NewRelease
    case NewRelease => Done
    case SnapLock => SnapClone
    case SnapClone => SnapUnlock
    case SnapUnlock => Done
    case Done => Done
  }

  // Reset goes on to create a session; Close is finished.
  function AfterClose(k: Kind): PC {
    if k.Reset? then NewAnnounce else Done
  }

  // What a step does to the locks.
  datatype Action =
    | LockMu | UnlockMu | LockCancel | UnlockCancel
    | ReadLock | ReadUnlock | Announce | WriteLock | WriteUnlock | Internal

  function Act(pc: PC): Action {
    match pc
    case GetLock | LookLock => ReadLock
    case GetUnlock | LookUnlock => ReadUnlock
    case CancelLock | SetLock | ClearLock => LockCancel
    case CancelUnlock | SetUnlock | ClearUnlock => UnlockCancel
    case TurnLock | FinLock | SnapLock => LockMu
    case TurnUnlock | FinUnlock | SnapUnlock => UnlockMu
    case DelAnnounce | NewAnnounce => Announce
    case DelAcquire | NewAcquire => WriteLock
    case DelRelease | NewRelease => WriteUnlock
    case _ => Internal
  }

  // The session an operation works on.
  predicate HasSession(s: State, p: nat) {
    p < |s.ops| && s.ops[p].found.Some? && s.ops[p].found.value < |s.sessions|
  }

  function SessionOf(s: State, p: nat): Session
    requires HasSession(s, p)
  {
    s.sessions[s.ops[p].found.value]
  }

  // Whether operation p can take its next step. A waiting writer blocks new readers, as
  // sync.RWMutex does.
  predicate Enabled(s: State, p: nat) {
    && p < |s.ops|
    && s.ops[p].pc != Done
    && match Act(s.ops[p].pc)
       case LockMu => HasSession(s, p) && SessionOf(s, p).mu == None
       case LockCancel => HasSession(s, p) && SessionOf(s, p).cancelMu == None
       case ReadLock => s.writer == None
       case Announce => s.writer == None
       case WriteLock => s.readers == {}
       case _ => true
  }

  // r differs from s, as far as operations go, only in p's local variables.
  predicate OnlyLocals(s: State, r: State, p: nat) {
    && p < |s.ops|
    && |r.ops| == |s.ops|
    && r.ops == s.ops[p := r.ops[p]]
    && r.ops[p].pc == s.ops[p].pc
    && r.ops[p].kind == s.ops[p].kind
  }

  function SetOp(s: State, p: nat, o: Op): State
    requires p < |s.ops|
  {
    s.(ops := s.ops[p := o])
  }

  function SetSession(s: State, p: nat, x: Session): State
    requires HasSession(s, p)
  {
    s.(sessions := s.sessions[s.ops[p].found.value := x])
  }

  // The effect of a step on the locks.
  function Locking(s: State, p: nat, a: Action): State
    requires p < |s.ops|
  {
    match a
    case LockMu => if HasSession(s, p) then SetSession(s, p, SessionOf(s, p).(mu := Some(p))) else s
    case UnlockMu => if HasSession(s, p) then SetSession(s, p, SessionOf(s, p).(mu := None)) else s
    case LockCancel => if HasSession(s, p) then SetSession(s, p, SessionOf(s, p).(cancelMu := Some(p))) else s
    case UnlockCancel => if HasSession(s, p) then SetSession(s, p, SessionOf(s, p).(cancelMu := None)) else s
    case ReadLock => s.(readers := s.readers + {p})
    case ReadUnlock => s.(readers := s.readers - {p})
    case Announce => s.(writer := Some(p))
    case WriteLock => s
    case WriteUnlock => s.(writer := None)
    case Internal => s
  }

  function Lookup(s: State, k: Kind): Option<nat> {
    if !k.Create? && k.id in s.live then Some(k.id) else None
  }

  // An append by operation p: the array it allocates, if any, is p's own.
  function Grow(s: State, p: nat, from: Slice, ms: seq<Message>, extra: nat, who: Owner): State {
    s.(heap := AppendHeap(s.heap, from, ms, extra),
       owner := if Fits(s.heap, from, |ms|) then s.owner else s.owner + [who])
  }

  // append(messages, userMessage): runs in the session's own array when that has room.
  function BeginTurn(s: State, p: nat, c: Choice): (r: State)
    requires HasSession(s, p)
    ensures OnlyLocals(s, r, p)
  {
    var o := s.ops[p];
    var from := SessionOf(s, p).messages;
    var user := if o.kind.Turn? then UserPart(o.kind.input) else [];
    var cur := AppendSlice(s.heap, from, user);
    SetOp(Grow(s, p, from, user, c.extra, OfTurn(p)), p,
          o.(cur := cur, orig := cur, tail := -1, reminder := "", added := []))
  }

  // applyReminder: a full copy of the log, with the reminder in its last user message.
  function ApplyReminder(s: State, p: nat, c: Choice): (r: State)
    requires p < |s.ops|
    ensures OnlyLocals(s, r, p)
  {
    var o := s.ops[p];
    var log := Read(s.heap, o.cur);
    var tail := LastUser(log);
    if c.reminder == "" || tail < 0 then s
    else
      var copied := Reminded(log, tail, c.reminder);
      SetOp(s.(heap := s.heap + [copied], owner := s.owner + [OfTurn(p)]), p,
            o.(cur := Slice(|s.heap|, |copied|), tail := tail, reminder := c.reminder))
  }

  function LoopStep(s: State, p: nat, c: Choice): (r: State)
    requires p < |s.ops|
    ensures OnlyLocals(s, r, p)
  {
    var o := s.ops[p];
    match c.loop
    case Succeed => SetOp(s, p, o.(failed := false))
    case Fail => SetOp(s, p, o.(failed := true))
    case Append =>
      SetOp(Grow(s, p, o.cur, c.batch, c.extra, OfTurn(p)), p,
            o.(cur := AppendSlice(s.heap, o.cur, c.batch), added := o.added + c.batch))
  }

  // stripReminder: restores the message in place.
  function StripReminder(s: State, p: nat): (r: State)
    requires p < |s.ops|
    ensures OnlyLocals(s, r, p)
  {
    var o := s.ops[p];
    if 0 <= o.tail < o.cur.len && o.tail < |Read(s.heap, o.orig)| then
      s.(heap := WriteAt(s.heap, o.cur, o.tail, Read(s.heap, o.orig)[o.tail]))
    else s
  }

  function CommitTurn(s: State, p: nat): (r: State)
    requires HasSession(s, p)
    ensures OnlyLocals(s, r, p)
  {
    var o := s.ops[p];
    if o.failed then s
    else
      var t := SetSession(s, p, SessionOf(s, p).(messages := o.cur));
      if o.cur.arr < |t.owner| then t.(owner := t.owner[o.cur.arr := OfSession(o.found.value)]) else t
  }

  function InsertSession(s: State, p: nat, c: Choice): (r: State)
    requires p < |s.ops|
    ensures OnlyLocals(s, r, p)
  {
    var x := |s.sessions|;
    SetOp(s.(sessions := s.sessions + [Session(Slice(|s.heap|, |c.batch|), None, None, None)],
             live := s.live + {x},
             heap := s.heap + [c.batch + Spare(c.extra)],
             owner := s.owner + [OfSession(x)]),
          p, s.ops[p].(created := Some(x)))
  }

  function TakeSnapshot(s: State, p: nat, c: Choice): (r: State)
    requires HasSession(s, p)
    ensures OnlyLocals(s, r, p)
  {
    var log := Read(s.heap, SessionOf(s, p).messages);
    SetOp(s.(heap := s.heap + [log + Spare(c.extra)], owner := s.owner + [OfSnapshot(p)]), p,
          s.ops[p].(cur := Slice(|s.heap|, |log|)))
  }

  // The effect of a step on everything that is not a lock.
  function Data(s: State, p: nat, c: Choice): (r: State)
    requires p < |s.ops|
    ensures OnlyLocals(s, r, p)
  {
    var o := s.ops[p];
    match o.pc
    case GetRead => SetOp(s, p, o.(found := Lookup(s, o.kind)))
    case LookRead => SetOp(s, p, o.(found := Lookup(s, o.kind)))
    case CancelCall =>
      if HasSession(s, p) && SessionOf(s, p).cancel.Some?
      then s.(cancelled := s.cancelled + {SessionOf(s, p).cancel.value}) else s
    case SetCancel => if HasSession(s, p) then SetSession(s, p, SessionOf(s, p).(cancel := Some(p))) else s
    case Begin => if HasSession(s, p) then BeginTurn(s, p, c) else s
    case Remind => ApplyReminder(s, p, c)
    case Loop => LoopStep(s, p, c)
    case Strip => StripReminder(s, p)
    case Commit => if HasSession(s, p) then CommitTurn(s, p) else s
    case ClearCancel => if HasSession(s, p) then SetSession(s, p, SessionOf(s, p).(cancel := None)) else s
    case FinTake => if HasSession(s, p) then SetOp(s, p, o.(cur := SessionOf(s, p).messages)) else s
    case FinRead =>
      if o.found.Some?
      then s.(finalized := s.finalized + [Finalization(p, o.found.value, Read(s.heap, o.cur))]) else s
    case Delete => if o.kind.Create? then s else s.(live := s.live - {o.kind.id})
    case NewInsert => InsertSession(s, p, c)
    case SnapClone => if HasSession(s, p) then TakeSnapshot(s, p, c) else s
    case _ => s
  }

  function Goto(s: State, p: nat, pc: PC): State
    requires p < |s.ops|
  {
    SetOp(s, p, s.ops[p].(pc := pc))
  }

  // One step of operation p.
  function Apply(s: State, p: nat, c: Choice): State
    requires p < |s.ops|
  {
    var t := Locking(Data(s, p, c), p, Act(s.ops[p].pc));
    Goto(t, p, NextPc(t.ops[p], c))
  }

  // ---- runs -------------------------------------------------------------------------------

  function NewOp(k: Kind): Op {
    Op(k, Start(k), None, None, NIL_SLICE, NIL_SLICE, -1, "", [], false)
  }

  function Init(kinds: seq<Kind>): State {
    State(seq(|kinds|, i requires 0 <= i < |kinds| => NewOp(kinds[i])), [], {}, {}, None, [], [], {}, [])
  }

  // A run: the states it goes through and the steps between them.
  datatype Run = Run(states: seq<State>, steps: seq<Step>)

  // Step k of the run is a step the machine can take, and leads to the next state.
  predicate StepAt(run: Run, k: nat)
    requires |run.states| == |run.steps| + 1 && k < |run.steps|
  {
    Leads(run.states[k], run.steps[k], run.states[k + 1])
  }

  predicate Leads(s: State, step: Step, r: State) {
    Enabled(s, step.p) && r == Apply(s, step.p, step.c)
  }

  predicate IsRun(run: Run) {
    && |run.states| == |run.steps| + 1
    && forall k :: 0 <= k < |run.steps| ==> StepAt(run, k)
  }

  ghost predicate Initial(s: State) {
    exists kinds: seq<Kind> :: s == Init(kinds)
  }

  // A run of any collection of operations, from the beginning.
  ghost predicate FullRun(run: Run) {
    IsRun(run) && Initial(run.states[0])
  }

  // s occurs in some run.
  ghost predicate Reachable(s: State) {
    exists run: Run, k: nat :: FullRun(run) && k < |run.states| && run.states[k] == s
  }
}
