/** What the agent loop guarantees whatever the provider and the tools do. */
module AgentLoopTheorems {
  import opened Wrappers
  import opened Basics
  import opened Messages
  import opened AgentLoop

  // ---- the log in closed form -------------------------------------------------------------

  // What n generations of a course append, from generation k on.
  function RoundsOf(c: nat -> Taken, k: nat, n: nat): seq<Message>
    decreases n
  {
    if n == 0 then [] else RoundsOf(c, k, n - 1) + c(k + n - 1).round
  }

  lemma {:induction false} RoundsFromFront(c: nat -> Taken, k: nat, n: nat)
    requires n > 0
    ensures RoundsOf(c, k, n) == c(k).round + RoundsOf(c, k + 1, n - 1)
    decreases n
  {
    if n == 1 {
      assert RoundsOf(c, k, 1) == RoundsOf(c, k, 0) + c(k).round;
      Assoc(c(k).round, [], []);
    } else {
      RoundsFromFront(c, k, n - 1);
      Assoc(c(k).round, RoundsOf(c, k + 1, n - 2), c(k + n - 1).round);
    }
  }

  lemma RoundsBehind(c: nat -> Taken, k: nat, n: nat, log: seq<Message>)
    requires n > 0
    ensures log + RoundsOf(c, k, n) == log + c(k).round + RoundsOf(c, k + 1, n - 1)
  {
    RoundsFromFront(c, k, n);
    Assoc(log, c(k).round, RoundsOf(c, k + 1, n - 1));
  }

  lemma {:induction false} LogOf(c: nat -> Taken, k: nat, fuel: nat, log: seq<Message>)
    ensures var o := LoopOf(c, k, fuel, log); o.log == log + RoundsOf(c, k, |o.seen|)
    decreases fuel
  {
    var o := LoopOf(c, k, fuel, log);
    if fuel == 0 {
      Assoc(log, [], []);
    } else {
      RoundsBehind(c, k, |o.seen|, log);
      if c(k).end.None? {
        LogOf(c, k + 1, fuel - 1, log + c(k).round);
      } else {
        Assoc(log + c(k).round, [], []);
      }
    }
  }

  lemma {:induction false} SeenOf(c: nat -> Taken, k: nat, fuel: nat, log: seq<Message>, j: nat)
    requires j < |LoopOf(c, k, fuel, log).seen|
    ensures LoopOf(c, k, fuel, log).seen[j] == log + RoundsOf(c, k, j)
    decreases fuel
  {
    if j == 0 {
      Assoc(log, [], []);
    } else {
      SeenOf(c, k + 1, fuel - 1, log + c(k).round, j - 1);
      RoundsBehind(c, k, j, log);
    }
  }

  lemma {:induction false} EndOf(c: nat -> Taken, k: nat, fuel: nat, log: seq<Message>, n: nat)
    requires forall i :: k <= i < k + n ==> c(i).end == None
    requires n <= fuel
    ensures var o := LoopOf(c, k, fuel, log);
      if n == fuel then o.status == OutOfFuel && |o.seen| == n
      else c(k + n).end.Some? ==> o.status == c(k + n).end.value.1 && |o.seen| == n + 1
    decreases fuel
  {
    if fuel > 0 && n > 0 {
      EndOf(c, k + 1, fuel - 1, log + c(k).round, n - 1);
    }
  }

  // ---- the same of a world ----------------------------------------------------------------

  // What generation k adds to the log; nothing if the provider failed.
  function RoundAt(w: World, k: nat): seq<Message> {
    TakenAt(w, k).round
  }

  // The first n rounds from generation k on.
  function Rounds(w: World, k: nat, n: nat): seq<Message> {
    RoundsOf(Course(w), k, n)
  }

  // How generation k ends the loop, if it does.
  function Ending(w: World, k: nat): Option<Status> {
    var end := TakenAt(w, k).end;
    if end.Some? then Some(end.value.1) else None
  }

  // Whatever the log the loop starts from, it appends the same rounds...
  lemma LoopAppendsRounds(w: World, k: nat, fuel: nat, log: seq<Message>)
    ensures var o := Loop(w, k, fuel, log); o.log == log + Rounds(w, k, |o.seen|)
  {
    LogOf(Course(w), k, fuel, log);
  }

  // ...and its j-th generation is given the starting log and the j rounds before it.
  lemma GenerationsSeeRounds(w: World, k: nat, fuel: nat, log: seq<Message>, j: nat)
    requires j < |Loop(w, k, fuel, log).seen|
    ensures Loop(w, k, fuel, log).seen[j] == log + Rounds(w, k, j)
  {
    SeenOf(Course(w), k, fuel, log, j);
  }

  // The loop runs to the first generation that ends it, and ends the way that generation says.
  lemma LoopEndsAtFirstEnding(w: World, k: nat, fuel: nat, log: seq<Message>, n: nat)
    requires forall i :: k <= i < k + n ==> Ending(w, i) == None
    requires n <= fuel
    ensures var o := Loop(w, k, fuel, log);
      if n == fuel then o.status == OutOfFuel && |o.seen| == n
      else Ending(w, k + n).Some? ==> o.status == Ending(w, k + n).value && |o.seen| == n + 1
  {
    CourseFollows(w);
    forall i | k <= i < k + n ensures Course(w)(i).end == None {
      assert FollowsAt(Course(w), w, i) && Ending(w, i) == None;
    }
    assert FollowsAt(Course(w), w, k + n);
    EndOf(Course(w), k, fuel, log, n);
  }

  // ---- a run, message by message ----------------------------------------------------------

  lemma RoundReads(m: Message, exec: nat -> ExecOutcome, i: nat)
    requires i < |m.toolCalls|
    ensures var b, o := RoundOf(m, exec), exec(i);
      && |b| == 1 + |m.toolCalls| && b[0] == m
      && b[1 + i] == Message(Tool, if o.err.ToolError? then "Error: " + o.err.text else o.result, m.toolCalls[i].id, [])
  {
  }

  lemma EndingReads(w: World, k: nat)
    ensures match w.gen(k)
      case GenError(e) => RoundAt(w, k) == [] && TakenAt(w, k).end == Some((None, ProviderFailed(e)))
      case Reply(r) =>
        var calls := r.message.toolCalls;
        var stops := exists i :: 0 <= i < |calls| && w.exec(k, i).err.ErrDone?;
        && |RoundAt(w, k)| == 1 + |calls| && RoundAt(w, k)[0] == r.message
        && TakenAt(w, k).end == if calls == [] then Some((Some(r), Answered))
                                else if stops then Some((Some(r), StoppedByTool))
                                else None
  {
    if w.gen(k).Reply? {
      var m, exec := w.gen(k).resp.message, Execs(w, k);
      assert forall i: nat :: exec(i) == w.exec(k, i);
      assert AnyDone(m.toolCalls, exec) <==> exists i :: 0 <= i < |m.toolCalls| && w.exec(k, i).err.ErrDone?;
    }
  }

  lemma {:induction false} Grows(c: nat -> Taken, k: nat, fuel: nat, log: seq<Message>, j: nat)
    requires j < |LoopOf(c, k, fuel, log).seen|
    ensures var o := LoopOf(c, k, fuel, log);
      && o.seen[0] == log
      && (j + 1 < |o.seen| ==> c(k + j).end == None && o.seen[j + 1] == o.seen[j] + c(k + j).round)
      && (j + 1 == |o.seen| ==> o.log == o.seen[j] + c(k + j).round)
      && o.seen[j] + c(k + j).round <= o.log
    decreases fuel
  {
    var o := LoopOf(c, k, fuel, log);
    if c(k).end.None? {
      var rest := LoopOf(c, k + 1, fuel - 1, log + c(k).round);
      assert o.seen == [log] + rest.seen;
      if j > 0 {
        Grows(c, k + 1, fuel - 1, log + c(k).round, j - 1);
      } else if rest.seen != [] {
        Grows(c, k + 1, fuel - 1, log + c(k).round, 0);
        Earlier(rest.seen[0], c(k + 1).round, rest.log);
      } else {
        EmptyRun(c, k + 1, fuel - 1, log + c(k).round);
      }
    }
  }

  lemma Earlier(a: seq<Message>, b: seq<Message>, log: seq<Message>)
    requires a + b <= log
    ensures a <= log
  {
    assert a == (a + b)[..|a|];
  }

  lemma EmptyRun(c: nat -> Taken, k: nat, fuel: nat, log: seq<Message>)
    requires LoopOf(c, k, fuel, log).seen == []
    ensures fuel == 0 && LoopOf(c, k, fuel, log).log == log
  {
  }

  // Behind position n the log holds the answer to call i of reply m in round k: what the tool
  // returned, or its error in words, under the call's ID.
  predicate AnswerStands(log: seq<Message>, n: nat, m: Message, w: World, k: nat, i: nat) {
    i < |m.toolCalls| && n + 1 + i < |log| &&
    var e := w.exec(k, i);
    log[n + 1 + i] == Message(Tool, if e.err.ToolError? then "Error: " + e.err.text else e.result, m.toolCalls[i].id, [])
  }

  // From position n the log holds reply m and the answers to its calls, in order.
  predicate RoundStands(log: seq<Message>, n: nat, m: Message, w: World, k: nat) {
    && n + 1 + |m.toolCalls| <= |log| && log[n] == m
    && forall i :: 0 <= i < |m.toolCalls| ==> AnswerStands(log, n, m, w, k, i)
  }

  lemma RoundInLog(before: seq<Message>, m: Message, w: World, k: nat, log: seq<Message>)
    requires before + RoundOf(m, Execs(w, k)) <= log
    ensures before == log[..|before|] && RoundStands(log, |before|, m, w, k)
  {
    var b, n := RoundOf(m, Execs(w, k)), |before|;
    assert before + b == log[..n + |b|];
    forall i | 0 <= i < |b| ensures log[n + i] == b[i] { assert log[n + i] == (before + b)[n + i]; }
    assert log[n + 0] == b[0];
    forall i | 0 <= i < |m.toolCalls| ensures AnswerStands(log, n, m, w, k, i) {
      RoundReads(m, Execs(w, k), i);
      assert log[n + (1 + i)] == b[1 + i];
    }
  }

  // Message by message: generation j is given the log so far, a reply and what its calls returned
  // go behind it, and there the next generation goes on or the log ends.
  lemma LogReads(w: World, fuel: nat, log: seq<Message>, j: nat)
    requires j < |Loop(w, 0, fuel, log).seen| && w.gen(j).Reply?
    ensures var o, m := Loop(w, 0, fuel, log), w.gen(j).resp.message;
      && o.seen[0] == log && |o.seen[j]| <= |o.log| && o.seen[j] == o.log[..|o.seen[j]|]
      && RoundStands(o.log, |o.seen[j]|, m, w, j)
      && (if j + 1 < |o.seen| then |o.seen[j + 1]| else |o.log|) == |o.seen[j]| + 1 + |m.toolCalls|
  {
    Grows(Course(w), 0, fuel, log, j);
    assert Course(w)(j) == TakenAt(w, j);
    EndingReads(w, j);
    RoundInLog(Loop(w, 0, fuel, log).seen[j], w.gen(j).resp.message, w, j, Loop(w, 0, fuel, log).log);
  }

  // A generation that fails is the last, and adds nothing.
  lemma FailureReads(w: World, fuel: nat, log: seq<Message>, j: nat)
    requires j < |Loop(w, 0, fuel, log).seen| && w.gen(j).GenError?
    ensures var o := Loop(w, 0, fuel, log); o.seen[0] == log && j + 1 == |o.seen| && o.log == o.seen[j]
  {
    Grows(Course(w), 0, fuel, log, j);
    assert Course(w)(j) == TakenAt(w, j);
    EndingReads(w, j);
    Assoc(Loop(w, 0, fuel, log).seen[j], [], []);
    EndsAt(Course(w), 0, fuel, log, j);
  }

  // How it ends: no generation before the last fails, answers without calls or has a tool that
  // asks to stop; the last one does, or the run is not watched any further.
  lemma EndReads(w: World, fuel: nat, log: seq<Message>, j: nat)
    requires j < |Loop(w, 0, fuel, log).seen|
    ensures var o := Loop(w, 0, fuel, log);
      match w.gen(j)
      case GenError(e) => j + 1 == |o.seen| && o.status == ProviderFailed(e) && o.resp == None
      case Reply(r) =>
        var calls := r.message.toolCalls;
        if calls == [] then j + 1 == |o.seen| && o.status == Answered && o.resp == Some(r)
        else if exists i :: 0 <= i < |calls| && w.exec(j, i).err.ErrDone?
        then j + 1 == |o.seen| && o.status == StoppedByTool && o.resp == Some(r)
        else j + 1 < |o.seen| || (j + 1 == fuel && o.status == OutOfFuel && o.resp == None)
  {
    assert Course(w)(j) == TakenAt(w, j);
    EndingReads(w, j);
    EndsAt(Course(w), 0, fuel, log, j);
  }

  lemma {:induction false} EndsAt(c: nat -> Taken, k: nat, fuel: nat, log: seq<Message>, j: nat)
    requires j < |LoopOf(c, k, fuel, log).seen|
    ensures var o, e := LoopOf(c, k, fuel, log), c(k + j).end;
      if e.Some? then j + 1 == |o.seen| && o.resp == e.value.0 && o.status == e.value.1
      else j + 1 < |o.seen| || (j + 1 == fuel && o.resp == None && o.status == OutOfFuel)
    decreases fuel
  {
    if c(k).end.None? {
      var rest := LoopOf(c, k + 1, fuel - 1, log + c(k).round);
      assert LoopOf(c, k, fuel, log).seen == [log] + rest.seen;
      if j > 0 {
        EndsAt(c, k + 1, fuel - 1, log + c(k).round, j - 1);
      } else if rest.seen == [] {
        EmptyRun(c, k + 1, fuel - 1, log + c(k).round);
      }
    }
  }

  // ---- well-formed logs -------------------------------------------------------------------

  // ms answers the calls: one tool message per call, in call order, carrying its ID.
  predicate Answers(ms: seq<Message>, calls: seq<ToolCall>) {
    && |ms| == |calls|
    && forall i :: 0 <= i < |ms| ==>
         ms[i].role == Tool && ms[i].toolCallID == calls[i].id && ms[i].toolCalls == []
  }

  // A sequence of complete rounds, judged from the messages alone: each starts with a message
  // that makes k > 0 calls, and the next k messages answer them.
  predicate CompleteRounds(ext: seq<Message>) {
    ext == [] ||
    (var k := |ext[0].toolCalls|;
     && 0 < k < |ext|
     && Answers(ext[1..1 + k], ext[0].toolCalls)
     && CompleteRounds(ext[1 + k..]))
  }

  // m makes the calls the last messages answer.
  predicate HeadsLastRound(ext: seq<Message>, m: Message) {
    var n := 1 + |m.toolCalls|;
    1 < n <= |ext| && ext[|ext| - n] == m
  }

  lemma RoundBefore(a: seq<Message>, rest: seq<Message>)
    requires a != [] && Answers(a[1..], a[0].toolCalls) && |a| > 1 && CompleteRounds(rest)
    ensures CompleteRounds(a + rest)
  {
    assert (a + rest)[1..|a|] == a[1..] && (a + rest)[|a|..] == rest;
  }

  lemma {:induction false} CompleteRoundsConcat(a: seq<Message>, b: seq<Message>)
    requires CompleteRounds(a) && CompleteRounds(b)
    ensures CompleteRounds(a + b)
    decreases |a|
  {
    if a == [] {
      Assoc(b, [], []);
    } else {
      var n := 1 + |a[0].toolCalls|;
      CompleteRoundsConcat(a[n..], b);
      assert a[..n][1..] == a[1..n] && a == a[..n] + a[n..];
      Assoc(a[..n], a[n..], b);
      RoundBefore(a[..n], a[n..] + b);
    }
  }

  // Complete rounds and then a reply that makes no call.
  predicate AnswerEnds(ext: seq<Message>) {
    ext != [] && CompleteRounds(ext[..|ext| - 1]) && ext[|ext| - 1].toolCalls == []
  }

  // What the loop may append for each way it ends.
  predicate WellFormed(ext: seq<Message>, resp: Option<Response>, status: Status) {
    match status
    case Answered => AnswerEnds(ext) && resp.Some? && resp.value.message == ext[|ext| - 1]
    case StoppedByTool => CompleteRounds(ext) && resp.Some? && HeadsLastRound(ext, resp.value.message)
    case ProviderFailed(_) => CompleteRounds(ext) && resp == None
    case OutOfFuel => CompleteRounds(ext)
  }

  // A generation appends one complete round, or what is well-formed for the way it ends the loop.
  predicate TakenOk(t: Taken) {
    match t.end
    case None => CompleteRounds(t.round)
    case Some(e) => WellFormed(t.round, e.0, e.1)
  }

  lemma RoundIsComplete(m: Message, exec: nat -> ExecOutcome)
    requires m.toolCalls != []
    ensures CompleteRounds(RoundOf(m, exec)) && HeadsLastRound(RoundOf(m, exec), m)
  {
    var ext, k := RoundOf(m, exec), |m.toolCalls|;
    assert ext[1..1 + k] == ToolMessages(m.toolCalls, exec);
    assert Answers(ext[1..1 + k], ext[0].toolCalls);
    assert ext[1 + k..] == [];
  }

  lemma TakenIsOk(w: World, k: nat)
    ensures TakenOk(TakenAt(w, k))
  {
    if w.gen(k).Reply? {
      var m := w.gen(k).resp.message;
      if m.toolCalls != [] {
        RoundIsComplete(m, Execs(w, k));
      } else {
        assert RoundOf(m, Execs(w, k)) == [m];
        assert [m][..0] == [];
      }
    }
  }

  lemma AnswerBehind(round: seq<Message>, ext: seq<Message>)
    requires CompleteRounds(round) && AnswerEnds(ext)
    ensures AnswerEnds(round + ext) && (round + ext)[|round + ext| - 1] == ext[|ext| - 1]
  {
    InitAndLast(round, ext);
    CompleteRoundsConcat(round, ext[..|ext| - 1]);
  }

  lemma HeadBehind(round: seq<Message>, ext: seq<Message>, m: Message)
    requires HeadsLastRound(ext, m)
    ensures HeadsLastRound(round + ext, m)
  {
    var n := 1 + |m.toolCalls|;
    assert (round + ext)[|round + ext| - n] == ext[|ext| - n];
  }

  lemma WellFormedBehind(round: seq<Message>, ext: seq<Message>, resp: Option<Response>, status: Status)
    requires CompleteRounds(round) && WellFormed(ext, resp, status)
    ensures WellFormed(round + ext, resp, status)
  {
    if status.Answered? {
      AnswerBehind(round, ext);
    } else {
      CompleteRoundsConcat(round, ext);
      if status.StoppedByTool? { HeadBehind(round, ext, resp.value.message); }
    }
  }

  lemma LoopUnfolds(c: nat -> Taken, k: nat, fuel: nat, log: seq<Message>)
    requires fuel > 0
    ensures var o := LoopOf(c, k, fuel, log);
      match c(k).end
      case Some(e) => o.resp == e.0 && o.status == e.1 && |o.seen| == 1
      case None =>
        var rest := LoopOf(c, k + 1, fuel - 1, log + c(k).round);
        o.resp == rest.resp && o.status == rest.status && |o.seen| == |rest.seen| + 1
  {
  }

  lemma OnlyRound(c: nat -> Taken, k: nat)
    ensures RoundsOf(c, k, 1) == c(k).round
  {
    assert RoundsOf(c, k, 1) == RoundsOf(c, k, 0) + c(k).round;
    Assoc(c(k).round, [], []);
  }

  predicate OkAt(c: nat -> Taken, k: nat) {
    TakenOk(c(k))
  }

  predicate RunOk(c: nat -> Taken, k: nat, o: Outcome) {
    WellFormed(RoundsOf(c, k, |o.seen|), o.resp, o.status)
  }

  lemma NoRoundOk(c: nat -> Taken, k: nat, log: seq<Message>)
    ensures RunOk(c, k, LoopOf(c, k, 0, log))
  {
  }

  lemma EndedOk(c: nat -> Taken, k: nat, fuel: nat, log: seq<Message>)
    requires fuel > 0 && OkAt(c, k) && c(k).end.Some?
    ensures RunOk(c, k, LoopOf(c, k, fuel, log))
  {
    LoopUnfolds(c, k, fuel, log);
    OnlyRound(c, k);
  }

  lemma OneMoreOk(c: nat -> Taken, k: nat, fuel: nat, log: seq<Message>)
    requires fuel > 0 && OkAt(c, k) && c(k).end.None?
    requires RunOk(c, k + 1, LoopOf(c, k + 1, fuel - 1, log + c(k).round))
    ensures RunOk(c, k, LoopOf(c, k, fuel, log))
  {
    var rest := LoopOf(c, k + 1, fuel - 1, log + c(k).round);
    LoopUnfolds(c, k, fuel, log);
    WellFormedBehind(c(k).round, RoundsOf(c, k + 1, |rest.seen|), rest.resp, rest.status);
    RoundsFromFront(c, k, |rest.seen| + 1);
  }

  lemma {:induction false} RoundsWellFormed(c: nat -> Taken, k: nat, fuel: nat, log: seq<Message>)
    requires forall i: nat :: OkAt(c, i)
    ensures RunOk(c, k, LoopOf(c, k, fuel, log))
    decreases fuel
  {
    if fuel == 0 {
      NoRoundOk(c, k, log);
    } else {
      assert OkAt(c, k);
      if c(k).end.None? {
        RoundsWellFormed(c, k + 1, fuel - 1, log + c(k).round);
        OneMoreOk(c, k, fuel, log);
      } else {
        EndedOk(c, k, fuel, log);
      }
    }
  }

  // For every provider and every tool, the loop returns the log it was given extended by
  // complete rounds only - plus, on success, the final answer, which makes no call. In
  // particular no call is ever left unanswered.
  lemma LogIsWellFormed(w: World, k: nat, fuel: nat, log: seq<Message>)
    ensures var o := Loop(w, k, fuel, log);
      log <= o.log && WellFormed(o.log[|log|..], o.resp, o.status)
  {
    CourseFollows(w);
    forall i: nat ensures OkAt(Course(w), i) {
      assert FollowsAt(Course(w), w, i);
      TakenIsOk(w, i);
    }
    var o := Loop(w, k, fuel, log);
    RoundsWellFormed(Course(w), k, fuel, log);
    LogOf(Course(w), k, fuel, log);
    assert o.log[|log|..] == RoundsOf(Course(w), k, |o.seen|);
  }

  // ---- who speaks -------------------------------------------------------------------------

  // A provider that answers in the model's name.
  ghost predicate RepliesAsModel(w: World) {
    forall k: nat :: SpeaksAt(w, k)
  }

  predicate SpeaksAt(w: World, k: nat) {
    w.gen(k).Reply? ==> w.gen(k).resp.message.role == Model
  }

  // A message of the model, or a tool message, which makes no calls.
  predicate ModelOrTool(m: Message) {
    m.role == Model || (m.role == Tool && m.toolCalls == [])
  }

  predicate TakenByModel(t: Taken) {
    && Every(ModelOrTool, t.round)
    && (t.end.Some? && t.end.value.0.Some? ==> t.end.value.0.value.message.role == Model)
  }

  lemma TakenRoles(w: World, k: nat)
    requires SpeaksAt(w, k)
    ensures TakenByModel(TakenAt(w, k))
  {
  }

  lemma {:induction false} EveryInRounds(p: Message -> bool, c: nat -> Taken, k: nat, n: nat)
    requires forall i: nat :: Every(p, c(i).round)
    ensures Every(p, RoundsOf(c, k, n))
    decreases n
  {
    if n > 0 {
      EveryInRounds(p, c, k, n - 1);
      EveryConcat(p, RoundsOf(c, k, n - 1), c(k + n - 1).round);
    }
  }

  lemma {:induction false} AnswerRole(c: nat -> Taken, k: nat, fuel: nat, log: seq<Message>)
    requires forall i: nat :: TakenByModel(c(i))
    ensures var o := LoopOf(c, k, fuel, log); o.resp.Some? ==> o.resp.value.message.role == Model
    decreases fuel
  {
    if fuel > 0 && c(k).end.None? {
      AnswerRole(c, k + 1, fuel - 1, log + c(k).round);
    }
  }

  // With such a provider everything the loop appends is the model's or a tool's: so every round
  // of the log is a model message with its tool messages, and the answer is the model's.
  lemma LogRoles(w: World, k: nat, fuel: nat, log: seq<Message>)
    requires RepliesAsModel(w)
    ensures var o := Loop(w, k, fuel, log);
      && log <= o.log && Every(ModelOrTool, o.log[|log|..])
      && (o.resp.Some? ==> o.resp.value.message.role == Model)
  {
    CourseFollows(w);
    forall i: nat ensures TakenByModel(Course(w)(i)) {
      assert FollowsAt(Course(w), w, i) && SpeaksAt(w, i);
      TakenRoles(w, i);
    }
    var o := Loop(w, k, fuel, log);
    LogOf(Course(w), k, fuel, log);
    EveryInRounds(ModelOrTool, Course(w), k, |o.seen|);
    AnswerRole(Course(w), k, fuel, log);
    assert o.log[|log|..] == RoundsOf(Course(w), k, |o.seen|);
  }
}
