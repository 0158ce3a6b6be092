/** The generate/execute loop of pkg/provider/agent.go.

    The provider and the tools are arbitrary: a World says what the k-th generation returns and
    what executing its i-th tool call returns. The loop need not terminate, so `fuel` bounds how
    many generations a run is observed for; every finite run is one of these. */
module AgentLoop {
  import opened Wrappers
  import opened Basics
  import opened Messages
  import opened GoSlices

  datatype ExecError = NoError | ErrDone | ToolError(text: string)

  datatype ExecOutcome = ExecOutcome(result: string, err: ExecError)

  datatype Generation = GenError(text: string) | Reply(resp: Response)

  datatype World = World(gen: nat -> Generation, exec: (nat, nat) -> ExecOutcome)

  datatype Status = Answered | StoppedByTool | ProviderFailed(text: string) | OutOfFuel

  // The returned log, response and error, and the messages each generation was given.
  datatype Outcome = Outcome(log: seq<Message>, resp: Option<Response>, status: Status, seen: seq<seq<Message>>)

  // ---- tools ------------------------------------------------------------------------------

  function ToolMessage(tc: ToolCall, o: ExecOutcome): Message {
    Message(Tool, if o.err.ToolError? then "Error: " + o.err.text else o.result, tc.id, [])
  }

  // The sequential map of executeOne over the calls.
  function ToolMessages(calls: seq<ToolCall>, exec: nat -> ExecOutcome): (ms: seq<Message>)
    ensures |ms| == |calls|
    ensures forall i :: 0 <= i < |calls| ==> ms[i] == ToolMessage(calls[i], exec(i))
  {
    seq(|calls|, i requires 0 <= i < |calls| => ToolMessage(calls[i], exec(i)))
  }

  predicate AnyDone(calls: seq<ToolCall>, exec: nat -> ExecOutcome) {
    exists i :: 0 <= i < |calls| && exec(i).err.ErrDone?
  }

  // The handling of one call: its message, and whether the tool asked to stop.
  method ExecuteOne(tc: ToolCall, o: ExecOutcome) returns (m: Message, done: bool)
    ensures m == ToolMessage(tc, o)
    ensures m.role == Tool && m.toolCallID == tc.id && m.toolCalls == []
    ensures o.err.ToolError? ==> m.content == "Error: " + o.err.text
    ensures !o.err.ToolError? ==> m.content == o.result
    ensures done <==> o.err.ErrDone?
  {
    var result := o.result;
    done := o.err == ErrDone;
    if o.err != NoError && !done {
      result := "Error: " + o.err.text;
    }
    m := Message(Tool, result, tc.id, []);
  }

  // The goroutines finish in any order; each writes its own slot.
  method ExecuteToolsParallel(calls: seq<ToolCall>, exec: nat -> ExecOutcome) returns (msgs: seq<Message>, done: bool)
    ensures msgs == ToolMessages(calls, exec)
    ensures done <==> AnyDone(calls, exec)
  {
    var slots := new Message[|calls|];
    var pending := set i {:trigger calls[i]} | 0 <= i < |calls|;
    done := false;
    while pending != {}
      invariant forall i :: i in pending ==> 0 <= i < |calls|
      invariant forall i :: 0 <= i < |calls| && i !in pending ==> slots[i] == ToolMessage(calls[i], exec(i))
      invariant done <==> exists i :: 0 <= i < |calls| && i !in pending && exec(i).err.ErrDone?
    {
      var i :| i in pending;
      var m, d := ExecuteOne(calls[i], exec(i));
      slots[i] := m;
      if d { done := true; }
      pending := pending - {i};
    }
    msgs := slots[..];
    assert msgs == ToolMessages(calls, exec);
  }

  // What executing the calls of round k returns.
  function Execs(w: World, k: nat): nat -> ExecOutcome {
    (i: nat) => w.exec(k, i)
  }

  // ---- the loop ---------------------------------------------------------------------------

  // What a reply adds to the log: itself and, per call, its tool message.
  function RoundOf(m: Message, exec: nat -> ExecOutcome): seq<Message> {
    [m] + ToolMessages(m.toolCalls, exec)
  }

  // Whether the loop ends with this reply.
  function Verdict(m: Message, exec: nat -> ExecOutcome): Option<Status> {
    if m.toolCalls == [] then Some(Answered)
    else if AnyDone(m.toolCalls, exec) then Some(StoppedByTool)
    else None
  }

  // What is returned when the loop ends: the response and how it ended.
  type End = Option<(Option<Response>, Status)>

  // One generation: what it appends, and whether the loop ends with it.
  datatype Taken = Taken(round: seq<Message>, end: End)

  function TakenAt(w: World, k: nat): Taken {
    match w.gen(k)
    case GenError(e) => Taken([], Some((None, ProviderFailed(e))))
    case Reply(resp) =>
      var verdict := Verdict(resp.message, Execs(w, k));
      Taken(RoundOf(resp.message, Execs(w, k)), if verdict.Some? then Some((Some(resp), verdict.value)) else None)
  }

  // All generations of a world.
  function Course(w: World): nat -> Taken {
    (k: nat) => TakenAt(w, k)
  }

  // o, seen after the generations in `seen`.
  function Prefixed(seen: seq<seq<Message>>, o: Outcome): Outcome {
    o.(seen := seen + o.seen)
  }

  // The loop from generation k on.
  function LoopOf(c: nat -> Taken, k: nat, fuel: nat, log: seq<Message>): Outcome
    decreases fuel
  {
    if fuel == 0 then Outcome(log, None, OutOfFuel, []) else
    match c(k).end
    case Some(e) => Outcome(log + c(k).round, e.0, e.1, [log])
    case None => Prefixed([log], LoopOf(c, k + 1, fuel - 1, log + c(k).round))
  }

  function Loop(w: World, k: nat, fuel: nat, log: seq<Message>): Outcome {
    LoopOf(Course(w), k, fuel, log)
  }

  // The part of the loop body that both loops share: append the reply, execute its calls in
  // parallel, append their messages.
  method AppendRound(messages: Slice, m: Message, exec: nat -> ExecOutcome)
    returns (out: Slice, verdict: Option<Status>)
    requires messages.Valid()
    modifies messages.arr
    ensures out.Valid() && out.Elems() == old(messages.Elems()) + RoundOf(m, exec)
    ensures verdict == Verdict(m, exec)
    ensures out.arr == messages.arr || fresh(out.arr)
    ensures forall i :: 0 <= i < messages.len ==> messages.arr[i] == old(messages.arr[i])
  {
    out := Append(messages, [m]);
    if m.toolCalls == [] {
      return out, Some(Answered);
    }
    var toolMessages, done := ExecuteToolsParallel(m.toolCalls, exec);
    out := Append(out, toolMessages);
    verdict := if done then Some(StoppedByTool) else None;
  }

  // c tells what w does.
  ghost predicate Follows(c: nat -> Taken, w: World) {
    forall k: nat :: FollowsAt(c, w, k)
  }

  predicate FollowsAt(c: nat -> Taken, w: World, k: nat) {
    c(k) == TakenAt(w, k)
  }

  lemma CourseFollows(w: World)
    ensures Follows(Course(w), w)
  {
    forall k: nat ensures FollowsAt(Course(w), w, k) {
      assert Course(w)(k) == TakenAt(w, k);
    }
  }

  // Behind the generation, the loop body: what generation k answered is appended.
  method TakeAnswer(w: World, k: nat, g: Generation, messages: Slice, ghost c: nat -> Taken)
    returns (out: Slice, end: End)
    requires messages.Valid() && g == w.gen(k) && Follows(c, w)
    modifies messages.arr
    ensures out.Valid() && out.len >= messages.len
    ensures out.arr == messages.arr || fresh(out.arr)
    ensures forall i :: 0 <= i < messages.len ==> messages.arr[i] == old(messages.arr[i])
    ensures out.Elems() == old(messages.Elems()) + c(k).round && end == c(k).end
  {
    assert FollowsAt(c, w, k);
    match g
    case GenError(e) =>
      out, end := messages, Some((None, ProviderFailed(e)));
      Assoc(messages.Elems(), [], []);
    case Reply(r) =>
      var verdict;
      out, verdict := AppendRound(messages, r.message, Execs(w, k));
      end := if verdict.Some? then Some((Some(r), verdict.value)) else None;
  }

  // Where a run is after one more generation.
  lemma OneGeneration(c: nat -> Taken, k: nat, fuel: nat, log: seq<Message>, seen: seq<seq<Message>>,
      whole: Outcome)
    requires fuel > 0 && whole == Prefixed(seen, LoopOf(c, k, fuel, log))
    ensures match c(k).end
      case Some(e) => whole == Outcome(log + c(k).round, e.0, e.1, seen + [log])
      case None => whole == Prefixed(seen + [log], LoopOf(c, k + 1, fuel - 1, log + c(k).round))
  {
    if c(k).end.None? {
      var rest := LoopOf(c, k + 1, fuel - 1, log + c(k).round);
      Assoc(seen, [log], rest.seen);
    }
  }

  // RunAgentLoop. The caller's visible elements survive, even when the log grows in place.
  method RunAgentLoop(w: World, fuel: nat, messages: Slice)
    returns (out: Slice, resp: Option<Response>, status: Status, seen: seq<seq<Message>>)
    requires messages.Valid()
    modifies messages.arr
    ensures out.Valid() && Outcome(out.Elems(), resp, status, seen) == Loop(w, 0, fuel, old(messages.Elems()))
    ensures messages.Elems() == old(messages.Elems())
    ensures out.arr == messages.arr || fresh(out.arr)
    ensures out.len >= messages.len
  {
    CourseFollows(w);
    out, resp, status, seen := RunRounds(w, fuel, messages, Course(w));
  }

  // Its loop.
  method RunRounds(w: World, fuel: nat, messages: Slice, ghost c: nat -> Taken)
    returns (out: Slice, resp: Option<Response>, status: Status, seen: seq<seq<Message>>)
    requires messages.Valid() && Follows(c, w)
    modifies messages.arr
    ensures out.Valid() && Outcome(out.Elems(), resp, status, seen) == LoopOf(c, 0, fuel, old(messages.Elems()))
    ensures messages.Elems() == old(messages.Elems())
    ensures out.arr == messages.arr || fresh(out.arr)
    ensures out.len >= messages.len
  {
    out, resp, status, seen := messages, None, OutOfFuel, [];
    ghost var log := messages.Elems();
    ghost var whole := LoopOf(c, 0, fuel, log);
    Assoc([], whole.seen, []);
    var k := 0;
    while k < fuel
      invariant k <= fuel
      invariant out.Valid() && out.len >= messages.len
      invariant out.arr == messages.arr || fresh(out.arr)
      invariant messages.Elems() == log
      invariant whole == Prefixed(seen, LoopOf(c, k, fuel - k, out.Elems()))
    {
      var given := out.Elems();
      OneGeneration(c, k, fuel - k, given, seen, whole);
      var end;
      out, end := TakeAnswer(w, k, w.gen(k), out, c);
      seen := seen + [given];
      if end.Some? {
        return out, end.value.0, end.value.1, seen;
      }
      k := k + 1;
    }
    Assoc(seen, [], []);
  }
}
