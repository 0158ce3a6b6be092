/** Conversation histories on the heap of Go slices: which operation may write which array, and
    why no history, working log or snapshot is ever overwritten under its reader. */
module SessionHeap {
  import opened Wrappers
  import opened Basics
  import opened Messages
  import opened SessionProtocol
  import opened SessionLocks

  // A turn's array, or the array its session's history lives in.
  predicate Usable(owner: seq<Owner>, p: nat, m: Slice, a: nat) {
    a < |owner| && (owner[a] == OfTurn(p) || a == m.arr)
  }

  // The log of a running turn p whose session's history is m: the history, the user message,
  // what the loop appended - and, until it is stripped, the reminder in the last user message.
  ghost predicate TurnLog(h: Heap, owner: seq<Owner>, p: nat, m: Slice, o: Op, stripped: bool) {
    && o.kind.Turn?
    && ValidSlice(h, o.orig) && ValidSlice(h, o.cur)
    && Usable(owner, p, m, o.orig.arr) && Usable(owner, p, m, o.cur.arr)
    && Read(h, o.orig) == Read(h, m) + UserPart(o.kind.input)
    && (o.tail >= 0 ==>
          && o.tail == LastUser(Read(h, o.orig))
          && o.cur.arr != o.orig.arr
          && owner[o.cur.arr] == OfTurn(p))
    && Read(h, o.cur) == (if o.tail < 0 || stripped then Read(h, o.orig) + o.added
                          else Reminded(Read(h, o.orig), o.tail, o.reminder) + o.added)
  }

  ghost predicate SessionHeapOk(s: State, x: nat)
    requires x < |s.sessions|
  {
    var m := s.sessions[x].messages;
    && ValidSlice(s.heap, m)
    && m.arr < |s.owner|
    && s.owner[m.arr] == OfSession(x)
  }

  ghost predicate OpHeapOk(s: State, p: nat)
    requires p < |s.ops|
  {
    var o := s.ops[p];
    match o.pc
    case Remind =>
      && HasSession(s, p) && TurnLog(s.heap, s.owner, p, SessionOf(s, p).messages, o, false)
      && o.cur == o.orig && o.tail < 0 && o.added == []
    case Loop => HasSession(s, p) && TurnLog(s.heap, s.owner, p, SessionOf(s, p).messages, o, false)
    case Strip => HasSession(s, p) && TurnLog(s.heap, s.owner, p, SessionOf(s, p).messages, o, false)
    case Commit => HasSession(s, p) && TurnLog(s.heap, s.owner, p, SessionOf(s, p).messages, o, true)
    case FinRead => HasSession(s, p) && o.cur == SessionOf(s, p).messages
    case SnapUnlock => SnapshotOk(s, p)
    case Done => o.kind.Snapshot? && o.found.Some? ==> SnapshotOk(s, p)
    case _ => true
  }

  predicate SnapshotOk(s: State, p: nat)
    requires p < |s.ops|
  {
    var cur := s.ops[p].cur;
    ValidSlice(s.heap, cur) && cur.arr < |s.owner| && s.owner[cur.arr] == OfSnapshot(p)
  }

  ghost predicate HeapInv(s: State) {
    && |s.owner| == |s.heap|
    && (forall p :: 0 <= p < |s.ops| ==> OpHeapOk(s, p))
    && (forall x :: 0 <= x < |s.sessions| ==> SessionHeapOk(s, x))
  }

  // ---- Go slices --------------------------------------------------------------------------

  // h' is h with some cells of array a from position n on rewritten, and maybe new arrays.
  ghost predicate Grown(h: Heap, h': Heap, a: nat, n: nat) {
    && |h| <= |h'|
    && (forall b :: 0 <= b < |h| ==> |h'[b]| == |h[b]|)
    && (forall b :: 0 <= b < |h| && b != a ==> h'[b] == h[b])
    && (forall k {:trigger h'[a][k]} :: a < |h| && 0 <= k < n && k < |h[a]| ==> h'[a][k] == h[a][k])
  }

  lemma ReadKept(h: Heap, h': Heap, a: nat, n: nat, s: Slice)
    requires Grown(h, h', a, n) && ValidSlice(h, s) && (s.arr != a || s.len <= n)
    ensures ValidSlice(h', s) && Read(h', s) == Read(h, s)
  {
    if s.arr == a {
      forall k | 0 <= k < s.len ensures h'[a][k] == h[a][k] {}
    }
  }

  // append shows the old elements followed by the new ones and touches no cell below the length.
  lemma AppendReads(h: Heap, s: Slice, ms: seq<Message>, extra: nat)
    requires ValidSlice(h, s)
    ensures var h', s' := AppendHeap(h, s, ms, extra), AppendSlice(h, s, ms);
      && ValidSlice(h', s')
      && Read(h', s') == Read(h, s) + ms
      && Grown(h, h', s.arr, s.len)
      && (if Fits(h, s, |ms|) then s'.arr == s.arr && |h'| == |h|
          else s'.arr == |h| && |h'| == |h| + 1 && h == h'[..|h|])
  {
    var h', s' := AppendHeap(h, s, ms, extra), AppendSlice(h, s, ms);
    if Fits(h, s, |ms|) {
      assert h'[s.arr][..s'.len] == h[s.arr][..s.len] + ms;
    } else {
      assert h'[|h|][..s'.len] == Read(h, s) + ms;
    }
  }

  // ---- what a step writes -----------------------------------------------------------------

  // The points at which a turn's log is on the heap.
  predicate InTurn(pc: PC) {
    pc.Begin? || pc.Remind? || pc.Loop? || pc.Strip? || pc.Commit?
  }

  // Array a from position n on is p's to write: its own array, a new one, or the unused end of
  // the array that holds the history of the session it has locked.
  predicate MayWrite(s: State, p: nat, a: nat, n: nat)
    requires p < |s.ops| && |s.owner| == |s.heap|
  {
    || a >= |s.heap|
    || s.owner[a] == OfTurn(p)
    || (InTurn(s.ops[p].pc) && HasSession(s, p)
        && a == SessionOf(s, p).messages.arr && SessionOf(s, p).messages.len <= n)
  }

  predicate Commits(s: State, p: nat)
    requires p < |s.ops|
  {
    s.ops[p].pc.Commit? && !s.ops[p].failed && HasSession(s, p)
  }

  predicate MessagesKept(s: State, r: State, p: nat, x: nat)
    requires p < |s.ops| && x < |s.sessions| && x < |r.sessions|
  {
    (Commits(s, p) && s.ops[p].found == Some(x)) || r.sessions[x].messages == s.sessions[x].messages
  }

  predicate OwnerKept(s: State, r: State, p: nat, a: nat)
    requires p < |s.ops| && a < |s.owner| && a < |r.owner|
  {
    (Commits(s, p) && a == s.ops[p].cur.arr) || r.owner[a] == s.owner[a]
  }

  // r is s after p stepped: what it changed on the heap, from position n of array a on.
  ghost predicate HeapStep(s: State, r: State, p: nat, a: nat, n: nat) {
    && p < |s.ops| == |r.ops|
    && |s.owner| == |s.heap| && |r.owner| == |r.heap|
    && (forall q :: 0 <= q < |s.ops| && q != p ==> r.ops[q] == s.ops[q])
    && Grown(s.heap, r.heap, a, n)
    && MayWrite(s, p, a, n)
    && (forall b :: 0 <= b < |s.owner| ==> OwnerKept(s, r, p, b))
    && |s.sessions| <= |r.sessions|
    && (forall x :: 0 <= x < |s.sessions| ==> MessagesKept(s, r, p, x))
  }

  // A slice that p may not write, seen before and after p's step.
  ghost predicate Foreign(s: State, p: nat, m: Slice)
    requires p < |s.ops| && |s.owner| == |s.heap|
  {
    && ValidSlice(s.heap, m)
    && s.owner[m.arr] != OfTurn(p)
    && (InTurn(s.ops[p].pc) && HasSession(s, p) && m.arr == SessionOf(s, p).messages.arr
        ==> m.len <= SessionOf(s, p).messages.len)
  }

  lemma ForeignKept(s: State, r: State, p: nat, a: nat, n: nat, m: Slice)
    requires HeapStep(s, r, p, a, n) && Foreign(s, p, m)
    ensures ValidSlice(r.heap, m) && Read(r.heap, m) == Read(s.heap, m)
  {
    ReadKept(s.heap, r.heap, a, n, m);
  }

  // ---- operations that do not step --------------------------------------------------------

  ghost predicate Inv(s: State) {
    LockInv(s) && HeapInv(s)
  }

  // Two operations that hold a session's mu hold it for different sessions.
  lemma MutualExclusion(s: State, p: nat, q: nat)
    requires LockInv(s) && p < |s.ops| && q < |s.ops| && p != q
    requires HoldsMu(s.ops[p].pc) && HoldsMu(s.ops[q].pc)
    ensures s.ops[p].found != s.ops[q].found
  {
    assert OpLocks(s, p) && OpLocks(s, q);
  }

  // While q holds the lock of session y, p's step touches neither y's history nor q's arrays.
  lemma LockedSessionKept(s: State, r: State, p: nat, a: nat, n: nat, q: nat)
    requires Inv(s) && HeapStep(s, r, p, a, n) && q < |s.ops| && q != p
    requires HoldsMu(s.ops[q].pc)
    ensures HasSession(s, q) && HasSession(r, q) && SessionOf(r, q).messages == SessionOf(s, q).messages
    ensures Foreign(s, p, SessionOf(s, q).messages)
    ensures forall b :: 0 <= b < |s.owner| && Usable(s.owner, q, SessionOf(s, q).messages, b) ==>
              r.owner[b] == s.owner[b]
    ensures forall m :: ValidSlice(s.heap, m) && Usable(s.owner, q, SessionOf(s, q).messages, m.arr) ==>
              Foreign(s, p, m)
  {
    assert OpLocks(s, q) && OpLocks(s, p) && OpHeapOk(s, p);
    var y := s.ops[q].found.value;
    assert SessionHeapOk(s, y) && MessagesKept(s, r, p, y);
    if HoldsMu(s.ops[p].pc) {
      MutualExclusion(s, p, q);
      assert SessionHeapOk(s, s.ops[p].found.value);
    }
    forall b | 0 <= b < |s.owner| && Usable(s.owner, q, SessionOf(s, q).messages, b)
      ensures r.owner[b] == s.owner[b]
    {
      assert OwnerKept(s, r, p, b);
    }
  }

  lemma BystanderHeap(s: State, r: State, p: nat, a: nat, n: nat, q: nat)
    requires Inv(s) && HeapStep(s, r, p, a, n) && q < |s.ops| && q != p
    ensures OpHeapOk(r, q)
  {
    var o := s.ops[q];
    assert OpHeapOk(s, q) && r.ops[q] == o;
    if o.pc.Remind? || o.pc.Loop? || o.pc.Strip? || o.pc.Commit? {
      LockedSessionKept(s, r, p, a, n, q);
      ForeignKept(s, r, p, a, n, SessionOf(s, q).messages);
      ForeignKept(s, r, p, a, n, o.orig);
      ForeignKept(s, r, p, a, n, o.cur);
    } else if o.pc.FinRead? {
      LockedSessionKept(s, r, p, a, n, q);
    } else if ValidSlice(s.heap, o.cur) && s.owner[o.cur.arr] == OfSnapshot(q) {
      SnapshotKept(s, r, p, a, n, q);
    }
  }

  // A snapshot that has been taken is never written again.
  lemma SnapshotKept(s: State, r: State, p: nat, a: nat, n: nat, q: nat)
    requires Inv(s) && HeapStep(s, r, p, a, n) && q < |s.ops|
    requires SnapshotOk(s, q)
    ensures var m := s.ops[q].cur;
      ValidSlice(r.heap, m) && Read(r.heap, m) == Read(s.heap, m) && r.owner[m.arr] == OfSnapshot(q)
  {
    var m := s.ops[q].cur;
    assert OwnerKept(s, r, p, m.arr) && OpHeapOk(s, p) && OpLocks(s, p);
    if HasSession(s, p) { assert SessionHeapOk(s, s.ops[p].found.value); }
    ForeignKept(s, r, p, a, n, m);
  }

  // A history changes only when its own turn commits.
  lemma HistoryKept(s: State, r: State, p: nat, a: nat, n: nat, x: nat)
    requires Inv(s) && HeapStep(s, r, p, a, n) && x < |s.sessions|
    requires !(Commits(s, p) && s.ops[p].found == Some(x))
    ensures SessionHeapOk(r, x)
    ensures Read(r.heap, r.sessions[x].messages) == Read(s.heap, s.sessions[x].messages)
  {
    assert MessagesKept(s, r, p, x) && SessionHeapOk(s, x) && OpHeapOk(s, p) && OpLocks(s, p);
    var m := s.sessions[x].messages;
    if HasSession(s, p) { assert SessionHeapOk(s, s.ops[p].found.value); }
    ForeignKept(s, r, p, a, n, m);
    assert OwnerKept(s, r, p, m.arr);
  }

  // ---- the operation that steps -----------------------------------------------------------

  // The outcome of p's step: what p itself may now rely on.
  ghost predicate StepperOk(s: State, r: State, p: nat, a: nat, n: nat) {
    && HeapStep(s, r, p, a, n)
    && OpHeapOk(r, p)
    && (forall x :: |s.sessions| <= x < |r.sessions| ==> SessionHeapOk(r, x))
    && (Commits(s, p) ==> CommittedOk(s, r, p))
  }

  // A commit makes the session's history exactly the old one, the user message and what the
  // loop appended.
  ghost predicate CommittedOk(s: State, r: State, p: nat)
    requires p < |s.ops| && Commits(s, p)
  {
    var o, x := s.ops[p], s.ops[p].found.value;
    && x < |r.sessions|
    && SessionHeapOk(r, x)
    && o.kind.Turn?
    && Read(r.heap, r.sessions[x].messages) ==
       Read(s.heap, s.sessions[x].messages) + UserPart(o.kind.input) + o.added
  }

  lemma InternalStep(s: State, p: nat, c: Choice)
    requires p < |s.ops| && Act(s.ops[p].pc).Internal?
    ensures Apply(s, p, c) == Goto(Data(s, p, c), p, NextPc(Data(s, p, c).ops[p], c))
  {
  }

  // A step of a turn that has not committed: d is what it made of the heap and of p's locals.
  ghost predicate TurnStep(s: State, d: State, p: nat, a: nat, n: nat, next: PC) {
    && OnlyLocals(s, d, p)
    && InTurn(s.ops[p].pc) && !s.ops[p].pc.Commit?
    && (next.Remind? || next.Loop? || next.Strip? || next.Commit?)
    && d.sessions == s.sessions
    && d.ops[p].found == s.ops[p].found
    && |s.owner| == |s.heap| && |d.owner| == |d.heap|
    && Grown(s.heap, d.heap, a, n) && MayWrite(s, p, a, n)
    && s.owner <= d.owner
    && HasSession(s, p)
    && TurnLog(d.heap, d.owner, p, SessionOf(s, p).messages, d.ops[p], next.Commit?)
    && (next.Remind? ==> d.ops[p].cur == d.ops[p].orig && d.ops[p].tail < 0 && d.ops[p].added == [])
  }

  lemma TurnStepOk(s: State, d: State, p: nat, a: nat, n: nat, next: PC)
    requires TurnStep(s, d, p, a, n, next)
    ensures StepperOk(s, Goto(d, p, next), p, a, n)
  {
  }

  lemma BeginHeap(s: State, p: nat, c: Choice) returns (a: nat, n: nat)
    requires Inv(s) && p < |s.ops| && s.ops[p].pc.Begin?
    ensures StepperOk(s, Apply(s, p, c), p, a, n)
  {
    assert OpLocks(s, p) && SessionHeapOk(s, s.ops[p].found.value);
    var m := SessionOf(s, p).messages;
    AppendReads(s.heap, m, UserPart(s.ops[p].kind.input), c.extra);
    a, n := m.arr, m.len;
    var d := BeginTurn(s, p, c);
    ReadKept(s.heap, d.heap, a, n, m);
    assert Read(d.heap, d.ops[p].cur) + [] == Read(d.heap, d.ops[p].cur);
    TurnStepOk(s, d, p, a, n, Remind);
    InternalStep(s, p, c);
  }

  lemma RemindKeepsTurnLog(h: Heap, owner: seq<Owner>, p: nat, m: Slice, o: Op, reminder: string)
    requires |owner| == |h| && TurnLog(h, owner, p, m, o, false) && ValidSlice(h, m)
    requires o.cur == o.orig && o.tail < 0 && o.added == [] && LastUser(Read(h, o.cur)) >= 0
    ensures var log, tail := Read(h, o.cur), LastUser(Read(h, o.cur));
      var h' := h + [log[tail := WithReminder(log[tail], reminder)]];
      && Grown(h, h', |h|, 0)
      && TurnLog(h', owner + [OfTurn(p)], p, m,
                 o.(cur := Slice(|h|, |log|), tail := tail, reminder := reminder), false)
  {
    var log, tail := Read(h, o.cur), LastUser(Read(h, o.cur));
    var copied := log[tail := WithReminder(log[tail], reminder)];
    var h' := h + [copied];
    ReadKept(h, h', |h|, 0, m);
    ReadKept(h, h', |h|, 0, o.orig);
    assert Read(h', Slice(|h|, |log|)) == copied + [];
  }

  lemma RemindTurnStep(s: State, p: nat, c: Choice)
    requires Inv(s) && p < |s.ops| && s.ops[p].pc.Remind?
    ensures TurnStep(s, ApplyReminder(s, p, c), p, |s.heap|, 0, Loop)
  {
    assert OpLocks(s, p) && OpHeapOk(s, p) && SessionHeapOk(s, s.ops[p].found.value);
    var o := s.ops[p];
    if c.reminder != "" && LastUser(Read(s.heap, o.cur)) >= 0 {
      RemindKeepsTurnLog(s.heap, s.owner, p, SessionOf(s, p).messages, o, c.reminder);
    }
  }

  lemma RemindIs(s: State, p: nat, c: Choice)
    requires p < |s.ops| && s.ops[p].pc.Remind?
    ensures Apply(s, p, c) == Goto(ApplyReminder(s, p, c), p, Loop)
  {
    InternalStep(s, p, c);
  }

  lemma RemindHeap(s: State, p: nat, c: Choice) returns (a: nat, n: nat)
    requires Inv(s) && p < |s.ops| && s.ops[p].pc.Remind?
    ensures StepperOk(s, Apply(s, p, c), p, a, n)
  {
    a, n := |s.heap|, 0;
    RemindTurnStep(s, p, c);
    TurnStepOk(s, ApplyReminder(s, p, c), p, a, n, Loop);
    RemindIs(s, p, c);
  }

  lemma AppendKeepsReads(h: Heap, owner: seq<Owner>, p: nat, m: Slice, o: Op, ms: seq<Message>, extra: nat)
    requires |owner| == |h| && TurnLog(h, owner, p, m, o, false) && ValidSlice(h, m)
    ensures var h' := AppendHeap(h, o.cur, ms, extra);
      && Grown(h, h', o.cur.arr, o.cur.len)
      && m.len <= o.orig.len <= o.cur.len
      && ValidSlice(h', m) && Read(h', m) == Read(h, m)
      && ValidSlice(h', o.orig) && Read(h', o.orig) == Read(h, o.orig)
  {
    var h' := AppendHeap(h, o.cur, ms, extra);
    AppendReads(h, o.cur, ms, extra);
    assert |Read(h, o.cur)| >= |Read(h, o.orig)| >= |Read(h, m)|;
    ReadKept(h, h', o.cur.arr, o.cur.len, m);
    ReadKept(h, h', o.cur.arr, o.cur.len, o.orig);
  }

  lemma AppendKeepsTurnLog(h: Heap, owner: seq<Owner>, p: nat, m: Slice, o: Op, ms: seq<Message>, extra: nat)
    requires |owner| == |h| && TurnLog(h, owner, p, m, o, false) && ValidSlice(h, m)
    ensures var h' := AppendHeap(h, o.cur, ms, extra);
      && Grown(h, h', o.cur.arr, o.cur.len)
      && m.len <= o.cur.len
      && TurnLog(h', if Fits(h, o.cur, |ms|) then owner else owner + [OfTurn(p)], p, m,
                 o.(cur := AppendSlice(h, o.cur, ms), added := o.added + ms), false)
  {
    AppendReads(h, o.cur, ms, extra);
    AppendKeepsReads(h, owner, p, m, o, ms, extra);
    Assoc(Read(h, o.orig), o.added, ms);
    Assoc(Reminded(Read(h, o.orig), o.tail, o.reminder), o.added, ms);
  }

  lemma AppendTurnStep(s: State, p: nat, c: Choice)
    requires Inv(s) && p < |s.ops| && s.ops[p].pc.Loop? && c.loop.Append?
    ensures TurnStep(s, LoopStep(s, p, c), p, s.ops[p].cur.arr, s.ops[p].cur.len, Loop)
  {
    assert OpLocks(s, p) && OpHeapOk(s, p) && SessionHeapOk(s, s.ops[p].found.value);
    AppendKeepsTurnLog(s.heap, s.owner, p, SessionOf(s, p).messages, s.ops[p], c.batch, c.extra);
  }

  lemma LoopTurnStep(s: State, p: nat, c: Choice)
    requires Inv(s) && p < |s.ops| && s.ops[p].pc.Loop?
    ensures var cur := s.ops[p].cur;
      TurnStep(s, LoopStep(s, p, c), p, cur.arr, cur.len, if c.loop.Append? then Loop else Strip)
  {
    assert OpLocks(s, p) && OpHeapOk(s, p) && SessionHeapOk(s, s.ops[p].found.value);
    if c.loop.Append? {
      AppendTurnStep(s, p, c);
    }
  }

  lemma LoopIs(s: State, p: nat, c: Choice)
    requires p < |s.ops| && s.ops[p].pc.Loop?
    ensures Apply(s, p, c) == Goto(LoopStep(s, p, c), p, if c.loop.Append? then Loop else Strip)
  {
    InternalStep(s, p, c);
  }

  lemma LoopHeap(s: State, p: nat, c: Choice) returns (a: nat, n: nat)
    requires Inv(s) && p < |s.ops| && s.ops[p].pc.Loop?
    ensures StepperOk(s, Apply(s, p, c), p, a, n)
  {
    a, n := s.ops[p].cur.arr, s.ops[p].cur.len;
    LoopTurnStep(s, p, c);
    TurnStepOk(s, LoopStep(s, p, c), p, a, n, if c.loop.Append? then Loop else Strip);
    LoopIs(s, p, c);
  }

  lemma StripKeepsTurnLog(h: Heap, owner: seq<Owner>, p: nat, m: Slice, o: Op)
    requires |owner| == |h| && TurnLog(h, owner, p, m, o, false) && ValidSlice(h, m) && o.tail >= 0
    requires owner[m.arr] != OfTurn(p)
    ensures var h' := WriteAt(h, o.cur, o.tail, Read(h, o.orig)[o.tail]);
      Grown(h, h', o.cur.arr, 0) && TurnLog(h', owner, p, m, o, true)
    ensures o.tail < o.cur.len
  {
    var log := Read(h, o.orig);
    var h' := WriteAt(h, o.cur, o.tail, log[o.tail]);
    assert o.tail < |log| <= |Read(h, o.cur)|;
    ReadKept(h, h', o.cur.arr, 0, m);
    ReadKept(h, h', o.cur.arr, 0, o.orig);
    assert Read(h', o.cur) == Read(h, o.cur)[o.tail := log[o.tail]];
    assert Reminded(log, o.tail, o.reminder)[o.tail := log[o.tail]] == log;
  }

  lemma StripHeap(s: State, p: nat, c: Choice) returns (a: nat, n: nat)
    requires Inv(s) && p < |s.ops| && s.ops[p].pc.Strip?
    ensures StepperOk(s, Apply(s, p, c), p, a, n)
  {
    assert OpLocks(s, p) && OpHeapOk(s, p) && SessionHeapOk(s, s.ops[p].found.value);
    var o := s.ops[p];
    a, n := if o.tail >= 0 then o.cur.arr else |s.heap|, 0;
    if o.tail >= 0 {
      StripKeepsTurnLog(s.heap, s.owner, p, SessionOf(s, p).messages, o);
    }
    TurnStepOk(s, StripReminder(s, p), p, a, n, Commit);
    InternalStep(s, p, c);
  }

  lemma CommitHeap(s: State, p: nat, c: Choice) returns (a: nat, n: nat)
    requires Inv(s) && p < |s.ops| && s.ops[p].pc.Commit?
    ensures StepperOk(s, Apply(s, p, c), p, a, n)
  {
    assert OpLocks(s, p) && OpHeapOk(s, p) && SessionHeapOk(s, s.ops[p].found.value);
    a, n := |s.heap|, 0;
    InternalStep(s, p, c);
  }

  lemma NewArrayHeap(s: State, p: nat, c: Choice) returns (a: nat, n: nat)
    requires Inv(s) && p < |s.ops| && (s.ops[p].pc.NewInsert? || s.ops[p].pc.SnapClone?)
    ensures StepperOk(s, Apply(s, p, c), p, a, n)
  {
    assert OpLocks(s, p) && OpHeapOk(s, p);
    a, n := |s.heap|, 0;
    InternalStep(s, p, c);
  }

  predicate Quiet(pc: PC) {
    !InTurn(pc) && !pc.NewInsert? && !pc.SnapClone?
  }

  // Every other step leaves the heap alone.
  lemma QuietData(s: State, p: nat, c: Choice)
    requires p < |s.ops| && Quiet(s.ops[p].pc)
    ensures var d := Data(s, p, c);
      && d.heap == s.heap && d.owner == s.owner && |d.sessions| == |s.sessions|
      && (forall x :: 0 <= x < |s.sessions| ==> d.sessions[x].messages == s.sessions[x].messages)
  {
  }

  lemma QuietHeap(s: State, p: nat, c: Choice) returns (a: nat, n: nat)
    requires Inv(s) && Enabled(s, p) && Quiet(s.ops[p].pc)
    ensures StepperOk(s, Apply(s, p, c), p, a, n)
  {
    a, n := |s.heap|, 0;
    QuietData(s, p, c);
    LockingTouches(Data(s, p, c), p, Act(s.ops[p].pc));
    QuietOp(s, p, c);
  }

  // The points at which an operation relies on something on the heap.
  predicate Relies(o: Op) {
    || o.pc.Remind? || o.pc.Loop? || o.pc.Strip? || o.pc.Commit? || o.pc.FinRead? || o.pc.SnapUnlock?
    || (o.pc.Done? && o.kind.Snapshot? && o.found.Some?)
  }

  lemma NextRelies(o: Op, c: Choice)
    requires KindPc(o.kind, o.pc) && Quiet(o.pc) && Relies(o.(pc := NextPc(o, c))) && !o.pc.Done?
    ensures o.pc.FinTake? || o.pc.SnapUnlock?
  {
  }

  // What p relies on after a quiet step.
  lemma QuietOp(s: State, p: nat, c: Choice)
    requires Inv(s) && Enabled(s, p) && Quiet(s.ops[p].pc)
    ensures OpHeapOk(Apply(s, p, c), p)
  {
    assert OpLocks(s, p);
    StepperMoves(s, p, c);
    var d := Data(s, p, c).ops[p];
    if Relies(Apply(s, p, c).ops[p]) {
      NextRelies(d, c);
      QuietReader(s, p, c);
    }
  }

  lemma QuietReader(s: State, p: nat, c: Choice)
    requires Inv(s) && Enabled(s, p) && (s.ops[p].pc.FinTake? || s.ops[p].pc.SnapUnlock?)
    ensures OpHeapOk(Apply(s, p, c), p)
  {
    assert OpLocks(s, p) && OpHeapOk(s, p);
    QuietData(s, p, c);
    LockingTouches(Data(s, p, c), p, Act(s.ops[p].pc));
  }

  lemma StepHeap(s: State, p: nat, c: Choice) returns (a: nat, n: nat)
    requires Inv(s) && Enabled(s, p)
    ensures StepperOk(s, Apply(s, p, c), p, a, n)
  {
    match s.ops[p].pc
    case Begin => a, n := BeginHeap(s, p, c);
    case Remind => a, n := RemindHeap(s, p, c);
    case Loop => a, n := LoopHeap(s, p, c);
    case Strip => a, n := StripHeap(s, p, c);
    case Commit => a, n := CommitHeap(s, p, c);
    case NewInsert => a, n := NewArrayHeap(s, p, c);
    case SnapClone => a, n := NewArrayHeap(s, p, c);
    case _ => a, n := QuietHeap(s, p, c);
  }
}
