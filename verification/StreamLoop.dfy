/** RunAgentLoopStream of pkg/provider/agent.go: the streaming loop is the plain loop over folded
    streams, and what it shows the user is what it logs. */
module StreamLoop {
  import opened Wrappers
  import opened Basics
  import opened Messages
  import opened GoSlices
  import opened AgentLoop
  import opened AgentLoopTheorems
  import opened Strings

  datatype Chunk = Chunk(content: string, toolCalls: seq<ToolCall>, usage: Usage)

  // The chunks a generation delivered, and the error that ended it, if any.
  datatype Stream = Stream(chunks: seq<Chunk>, err: Option<string>)

  // A provider that may or may not be able to stream, and the tools.
  datatype StreamWorld = StreamWorld(
    canStream: bool, stream: nat -> Stream, plain: nat -> Generation, exec: (nat, nat) -> ExecOutcome)

  // ---- folding a stream -------------------------------------------------------------------

  // Of the first n chunks: their text, their calls, the last usage they report, and what onChunk
  // is called with.
  function Text(chunks: seq<Chunk>, n: nat): string
    requires n <= |chunks|
  {
    if n == 0 then "" else Text(chunks, n - 1) + chunks[n - 1].content
  }

  function Calls(chunks: seq<Chunk>, n: nat): seq<ToolCall>
    requires n <= |chunks|
  {
    if n == 0 then [] else Calls(chunks, n - 1) + chunks[n - 1].toolCalls
  }

  predicate HasUsage(u: Usage) {
    u.input > 0 || u.output > 0
  }

  function LastUsage(chunks: seq<Chunk>, n: nat): Usage
    requires n <= |chunks|
  {
    if n == 0 then ZERO_USAGE
    else if HasUsage(chunks[n - 1].usage) then chunks[n - 1].usage
    else LastUsage(chunks, n - 1)
  }

  function Visible(chunks: seq<Chunk>, n: nat): seq<string>
    requires n <= |chunks|
  {
    if n == 0 then []
    else Visible(chunks, n - 1) + if chunks[n - 1].content != "" then [chunks[n - 1].content] else []
  }

  function FoldStream(s: Stream): Generation {
    var n := |s.chunks|;
    match s.err
    case Some(e) => GenError(e)
    case None =>
      Reply(Response(Message(Model, Text(s.chunks, n), "", Calls(s.chunks, n)), LastUsage(s.chunks, n)))
  }

  function AllText(s: Stream): string {
    Text(s.chunks, |s.chunks|)
  }

  // Everything a stream shows.
  function Shown(s: Stream): seq<string> {
    Visible(s.chunks, |s.chunks|)
  }

  // The plain world a streaming world amounts to.
  function Folded(w: StreamWorld): World {
    World((k: nat) => if w.canStream then FoldStream(w.stream(k)) else w.plain(k), w.exec)
  }

  // Everything shown during generations 0..n-1.
  function Emitted(w: StreamWorld, n: nat): seq<string> {
    if n == 0 || !w.canStream then [] else Emitted(w, n - 1) + Shown(w.stream(n - 1))
  }

  // With streaming each generation is what its stream folds to; without it the plain provider
  // answers. The tools are the same.
  lemma FoldedReads(w: StreamWorld, k: nat, i: nat)
    ensures Folded(w).gen(k) == if w.canStream then FoldStream(w.stream(k)) else w.plain(k)
    ensures Folded(w).exec(k, i) == w.exec(k, i)
  {
  }

  // ---- the loop ---------------------------------------------------------------------------

  // The inner loop over the chunks of one generation.
  method Collect(chunks: seq<Chunk>) returns (text: string, calls: seq<ToolCall>, usage: Usage, shown: seq<string>)
    ensures text == Text(chunks, |chunks|) && calls == Calls(chunks, |chunks|)
    ensures usage == LastUsage(chunks, |chunks|) && shown == Visible(chunks, |chunks|)
  {
    text, calls, usage, shown := "", [], ZERO_USAGE, [];
    for i := 0 to |chunks|
      invariant text == Text(chunks, i) && calls == Calls(chunks, i)
      invariant usage == LastUsage(chunks, i) && shown == Visible(chunks, i)
    {
      var chunk := chunks[i];
      text := text + chunk.content;
      if chunk.usage.input > 0 || chunk.usage.output > 0 {
        usage := chunk.usage;
      }
      calls := calls + chunk.toolCalls;
      if chunk.content != "" {
        shown := shown + [chunk.content];
      }
    }
  }

  // f answers what w's streams fold to.
  ghost predicate Folds(w: StreamWorld, f: World) {
    && w.canStream
    && f.exec == w.exec
    && forall k: nat :: FoldsAt(w, f, k)
  }

  predicate FoldsAt(w: StreamWorld, f: World, k: nat) {
    f.gen(k) == FoldStream(w.stream(k))
  }

  // RunAgentLoopStream refines the plain loop over the folded streams, on the same heap terms.
  method RunAgentLoopStream(w: StreamWorld, fuel: nat, messages: Slice)
    returns (out: Slice, resp: Option<Response>, status: Status, seen: seq<seq<Message>>, emitted: seq<string>)
    requires messages.Valid()
    modifies messages.arr
    ensures out.Valid()
    ensures Outcome(out.Elems(), resp, status, seen) == Loop(Folded(w), 0, fuel, old(messages.Elems()))
    ensures emitted == Emitted(w, |seen|)
    ensures messages.Elems() == old(messages.Elems())
    ensures out.arr == messages.arr || fresh(out.arr)
    ensures out.len >= messages.len
  {
    if !w.canStream {
      out, resp, status, seen := RunAgentLoop(Folded(w), fuel, messages);
      emitted := [];
    } else {
      CourseFollows(Folded(w));
      ghost var shows := (k: nat) => Emitted(w, k);
      assert forall k: nat :: ShowsAt(w, shows, k);
      out, resp, status, seen, emitted := StreamRounds(w, Folded(w), fuel, messages, Course(Folded(w)), shows);
    }
  }

  predicate ShowsAt(w: StreamWorld, shows: nat -> seq<string>, k: nat) {
    shows(k) == Emitted(w, k)
  }

  // What is shown after each number of generations.
  ghost predicate Shows(w: StreamWorld, shows: nat -> seq<string>) {
    forall k: nat :: ShowsAt(w, shows, k)
  }

  // Receives generation k: its chunks first, then its error, if any.
  method Receive(w: StreamWorld, f: World, k: nat) returns (g: Generation, shown: seq<string>)
    requires Folds(w, f)
    ensures g == f.gen(k)
    ensures Emitted(w, k + 1) == Emitted(w, k) + shown
  {
    assert FoldsAt(w, f, k);
    var text, calls, usage;
    text, calls, usage, shown := Collect(w.stream(k).chunks);
    g := if w.stream(k).err.Some? then GenError(w.stream(k).err.value)
         else Reply(Response(Message(Model, text, "", calls), usage));
  }

  // One generation: its chunks are shown, then its answer is appended.
  method StreamOne(w: StreamWorld, f: World, k: nat, messages: Slice, before: seq<string>, ghost c: nat -> Taken,
      ghost shows: nat -> seq<string>)
    returns (out: Slice, end: End, emitted: seq<string>)
    requires messages.Valid() && Folds(w, f) && Follows(c, f) && Shows(w, shows) && before == shows(k)
    modifies messages.arr
    ensures emitted == shows(k + 1)
    ensures out.Valid() && out.len >= messages.len
    ensures out.arr == messages.arr || fresh(out.arr)
    ensures forall i :: 0 <= i < messages.len ==> messages.arr[i] == old(messages.arr[i])
    ensures out.Elems() == old(messages.Elems()) + c(k).round && end == c(k).end
  {
    var g, shown;
    g, shown := Receive(w, f, k);
    emitted := before + shown;
    assert ShowsAt(w, shows, k) && ShowsAt(w, shows, k + 1);
    out, end := TakeAnswer(f, k, g, messages, c);
  }

  method StreamRounds(w: StreamWorld, f: World, fuel: nat, messages: Slice, ghost c: nat -> Taken,
      ghost shows: nat -> seq<string>)
    returns (out: Slice, resp: Option<Response>, status: Status, seen: seq<seq<Message>>, emitted: seq<string>)
    requires messages.Valid() && Folds(w, f) && Follows(c, f) && Shows(w, shows)
    modifies messages.arr
    ensures out.Valid()
    ensures Outcome(out.Elems(), resp, status, seen) == LoopOf(c, 0, fuel, old(messages.Elems()))
    ensures emitted == shows(|seen|)
    ensures messages.Elems() == old(messages.Elems())
    ensures out.arr == messages.arr || fresh(out.arr)
    ensures out.len >= messages.len
  {
    out, resp, status, seen, emitted := messages, None, OutOfFuel, [], [];
    ghost var log := messages.Elems();
    ghost var whole := LoopOf(c, 0, fuel, log);
    Assoc([], whole.seen, []);
    assert ShowsAt(w, shows, 0);
    var k := 0;
    while k < fuel
      invariant k <= fuel && |seen| == k
      invariant out.Valid() && out.len >= messages.len
      invariant out.arr == messages.arr || fresh(out.arr)
      invariant messages.Elems() == log
      invariant emitted == shows(k)
      invariant whole == Prefixed(seen, LoopOf(c, k, fuel - k, out.Elems()))
    {
      var given := out.Elems();
      OneGeneration(c, k, fuel - k, given, seen, whole);
      var end;
      out, end, emitted := StreamOne(w, f, k, out, emitted, c, shows);
      seen := seen + [given];
      if end.Some? {
        return out, end.value.0, end.value.1, seen, emitted;
      }
      k := k + 1;
    }
    Assoc(seen, [], []);
  }

  // A streaming provider always answers in the model's name.
  lemma StreamsReplyAsModel(w: StreamWorld)
    requires w.canStream
    ensures RepliesAsModel(Folded(w))
  {
    forall k: nat ensures SpeaksAt(Folded(w), k) {
      assert Folded(w).gen(k) == FoldStream(w.stream(k));
    }
  }

  lemma {:induction false} VisibleReads(chunks: seq<Chunk>, n: nat)
    requires n <= |chunks|
    ensures forall i :: 0 <= i < |Visible(chunks, n)| ==> Visible(chunks, n)[i] != ""
    ensures forall j :: 0 <= j < n && chunks[j].content != "" ==> chunks[j].content in Visible(chunks, n)
  {
    if n > 0 { VisibleReads(chunks, n - 1); }
  }

  // ---- what a stream folds to, field by field ---------------------------------------------

  function Said(c: Chunk): string {
    c.content
  }

  function Requested(c: Chunk): seq<ToolCall> {
    c.toolCalls
  }

  lemma {:induction false} TextReads(chunks: seq<Chunk>, n: nat)
    requires n <= |chunks|
    ensures Text(chunks, n) == FlatMap(Said, chunks, n) && Calls(chunks, n) == FlatMap(Requested, chunks, n)
  {
    if n > 0 { TextReads(chunks, n - 1); }
  }

  // Chunk j is the last of the first n that counts tokens.
  predicate LastCounted(chunks: seq<Chunk>, n: nat, j: nat) {
    && j < n <= |chunks|
    && (chunks[j].usage.input > 0 || chunks[j].usage.output > 0)
    && forall l :: j < l < n ==> chunks[l].usage.input <= 0 && chunks[l].usage.output <= 0
  }

  lemma {:induction false} UsageReads(chunks: seq<Chunk>, n: nat, j: nat)
    requires LastCounted(chunks, n, j)
    ensures LastUsage(chunks, n) == chunks[j].usage
  {
    if j < n - 1 { UsageReads(chunks, n - 1, j); }
  }

  // A stream folds to its error, or to a message of the model with the texts and the calls of its
  // chunks in a row, and the last usage that counts.
  lemma FoldReads(s: Stream)
    ensures s.err.Some? ==> FoldStream(s) == GenError(s.err.value)
    ensures s.err.None? ==>
      && FoldStream(s).Reply?
      && FoldStream(s).resp.message ==
           Message(Model, FlatMap(Said, s.chunks, |s.chunks|), "", FlatMap(Requested, s.chunks, |s.chunks|))
      && (forall j: nat :: LastCounted(s.chunks, |s.chunks|, j) ==> FoldStream(s).resp.usage == s.chunks[j].usage)
      && ((forall j: nat :: !LastCounted(s.chunks, |s.chunks|, j)) ==> FoldStream(s).resp.usage == Usage(0, 0))
  {
    TextReads(s.chunks, |s.chunks|);
    forall j: nat | LastCounted(s.chunks, |s.chunks|, j)
      ensures LastUsage(s.chunks, |s.chunks|) == s.chunks[j].usage
    {
      UsageReads(s.chunks, |s.chunks|, j);
    }
    if forall j: nat :: !LastCounted(s.chunks, |s.chunks|, j) { NeverCounted(s.chunks, |s.chunks|); }
  }

  lemma {:induction false} NeverCounted(chunks: seq<Chunk>, n: nat)
    requires n <= |chunks| && forall j: nat :: !LastCounted(chunks, n, j)
    ensures LastUsage(chunks, n) == Usage(0, 0)
  {
    if n > 0 {
      var k := n - 1;
      assert !LastCounted(chunks, n, k);
      forall j: nat ensures !LastCounted(chunks, k, j) {
        assert !LastCounted(chunks, n, j);
      }
      NeverCounted(chunks, k);
    }
  }

  // ---- what the user sees is what is logged -----------------------------------------------

  // The contents of the model's messages among the first n, in order.
  function ModelTextTo(ms: seq<Message>, n: nat): string
    requires n <= |ms|
  {
    if n == 0 then "" else ModelTextTo(ms, n - 1) + if ms[n - 1].role == Model then ms[n - 1].content else ""
  }

  function ModelText(ms: seq<Message>): string {
    ModelTextTo(ms, |ms|)
  }

  lemma {:induction false} ModelTextToConcat(a: seq<Message>, b: seq<Message>, n: nat)
    requires n <= |a| + |b|
    ensures ModelTextTo(a + b, n)
         == if n <= |a| then ModelTextTo(a, n) else ModelTextTo(a, |a|) + ModelTextTo(b, n - |a|)
    decreases n
  {
    if n > 0 {
      ModelTextToConcat(a, b, n - 1);
      if n == |a| + 1 { assert ModelTextTo(a, |a|) + ModelTextTo(b, 0) == ModelTextTo(a, |a|); }
    }
  }

  lemma ModelTextConcat(a: seq<Message>, b: seq<Message>)
    ensures ModelText(a + b) == ModelText(a) + ModelText(b)
  {
    ModelTextToConcat(a, b, |a| + |b|);
  }

  lemma {:induction false} NoModelText(ms: seq<Message>, n: nat)
    requires n <= |ms| && forall i :: 0 <= i < |ms| ==> ms[i].role == Tool
    ensures ModelTextTo(ms, n) == ""
  {
    if n > 0 { NoModelText(ms, n - 1); }
  }

  lemma {:induction false} VisibleIsText(chunks: seq<Chunk>, n: nat)
    requires n <= |chunks|
    ensures Flatten(Visible(chunks, n)) == Text(chunks, n)
  {
    if n > 0 {
      VisibleIsText(chunks, n - 1);
      if chunks[n - 1].content != "" {
        FlattenConcat(Visible(chunks, n - 1), [chunks[n - 1].content]);
        assert Flatten([chunks[n - 1].content]) == Joined([chunks[n - 1].content], 0) + chunks[n - 1].content;
      } else {
        assert Visible(chunks, n - 1) + [] == Visible(chunks, n - 1);
      }
    }
  }

  // The text of round k is what its stream showed.
  ghost predicate RoundShown(w: StreamWorld, f: World, k: nat) {
    ModelText(RoundAt(f, k)) == Flatten(Shown(w.stream(k)))
  }

  lemma StreamedRoundShown(w: StreamWorld, f: World, k: nat)
    requires Folds(w, f) && w.stream(k).err.None?
    ensures RoundShown(w, f, k)
  {
    assert FoldsAt(w, f, k);
    var m := FoldStream(w.stream(k)).resp.message;
    var tools := ToolMessages(m.toolCalls, Execs(f, k));
    assert RoundAt(f, k) == [m] + tools;
    ModelTextConcat([m], tools);
    NoModelText(tools, |tools|);
    assert ModelText([m]) == ModelTextTo([m], 0) + m.content;
    VisibleIsText(w.stream(k).chunks, |w.stream(k).chunks|);
  }

  lemma RoundsSnoc(f: World, k: nat, n: nat)
    requires n > 0
    ensures Rounds(f, k, n) == Rounds(f, k, n - 1) + RoundAt(f, k + n - 1)
  {
  }

  lemma {:induction false} RoundsShown(w: StreamWorld, f: World, n: nat)
    requires w.canStream && forall i: nat :: i < n ==> RoundShown(w, f, i)
    ensures Flatten(Emitted(w, n)) == ModelText(Rounds(f, 0, n))
    decreases n
  {
    if n > 0 {
      RoundsShown(w, f, n - 1);
      assert RoundShown(w, f, n - 1);
      RoundsSnoc(f, 0, n);
      TextsGrow(Emitted(w, n - 1), Shown(w.stream(n - 1)), Rounds(f, 0, n - 1), RoundAt(f, n - 1));
    }
  }

  lemma TextsGrow(shown: seq<string>, more: seq<string>, logged: seq<Message>, round: seq<Message>)
    requires Flatten(shown) == ModelText(logged) && Flatten(more) == ModelText(round)
    ensures Flatten(shown + more) == ModelText(logged + round)
  {
    FlattenConcat(shown, more);
    ModelTextConcat(logged, round);
  }

  predicate Fails(t: Taken) {
    t.end.Some? && t.end.value.1.ProviderFailed?
  }

  lemma {:induction false} LastFailsOf(c: nat -> Taken, k: nat, fuel: nat, log: seq<Message>, i: nat)
    requires i < |LoopOf(c, k, fuel, log).seen|
    ensures var o := LoopOf(c, k, fuel, log);
      Fails(c(k + i)) <==> o.status.ProviderFailed? && i == |o.seen| - 1
    decreases fuel
  {
    if i > 0 {
      LastFailsOf(c, k + 1, fuel - 1, log + c(k).round, i - 1);
    } else if c(k).end.None? {
      FailureIsSeen(c, k + 1, fuel - 1, log + c(k).round);
    }
  }

  lemma {:induction false} FailureIsSeen(c: nat -> Taken, k: nat, fuel: nat, log: seq<Message>)
    ensures LoopOf(c, k, fuel, log).status.ProviderFailed? ==> |LoopOf(c, k, fuel, log).seen| > 0
  {
  }

  // Only the last generation of a run can have failed.
  lemma OnlyLastFails(w: World, fuel: nat, log: seq<Message>, i: nat)
    requires i < |Loop(w, 0, fuel, log).seen|
    ensures var o := Loop(w, 0, fuel, log);
      w.gen(i).GenError? <==> o.status.ProviderFailed? && i == |o.seen| - 1
  {
    CourseFollows(w);
    assert FollowsAt(Course(w), w, i);
    LastFailsOf(Course(w), 0, fuel, log, i);
  }

  // The chunk callbacks concatenate to the model messages the run logged, in order; a failed
  // generation has shown the text that arrived before the error, and logged none of it.
  lemma ShownIsLogged(w: StreamWorld, fuel: nat, log: seq<Message>)
    requires w.canStream
    ensures var o := Loop(Folded(w), 0, fuel, log);
      var n := |o.seen|;
      && log <= o.log
      && (o.status.ProviderFailed? ==> n > 0)
      && (if o.status.ProviderFailed?
          then Flatten(Emitted(w, n)) == ModelText(o.log[|log|..]) + AllText(w.stream(n - 1))
          else Flatten(Emitted(w, n)) == ModelText(o.log[|log|..]))
  {
    assert forall k: nat :: FoldsAt(w, Folded(w), k);
    ShownIsLoggedBy(w, Folded(w), fuel, log);
  }

  // A failed generation shows its text and logs nothing.
  lemma FailedRoundShown(w: StreamWorld, f: World, k: nat)
    requires Folds(w, f) && f.gen(k).GenError?
    ensures Rounds(f, 0, k + 1) == Rounds(f, 0, k)
    ensures Flatten(Emitted(w, k + 1)) == Flatten(Emitted(w, k)) + AllText(w.stream(k))
  {
    RoundsSnoc(f, 0, k + 1);
    Assoc(Rounds(f, 0, k), [], []);
    FlattenConcat(Emitted(w, k), Shown(w.stream(k)));
    VisibleIsText(w.stream(k).chunks, |w.stream(k).chunks|);
  }

  lemma RunRoundsShown(w: StreamWorld, f: World, fuel: nat, log: seq<Message>, n: nat)
    requires Folds(w, f)
    requires var o := Loop(f, 0, fuel, log);
      n <= |o.seen| && (o.status.ProviderFailed? ==> n < |o.seen|)
    ensures Flatten(Emitted(w, n)) == ModelText(Rounds(f, 0, n))
  {
    forall i: nat | i < n ensures RoundShown(w, f, i) {
      OnlyLastFails(f, fuel, log, i);
      assert FoldsAt(w, f, i);
      StreamedRoundShown(w, f, i);
    }
    RoundsShown(w, f, n);
  }

  lemma FailedRunShown(w: StreamWorld, f: World, fuel: nat, log: seq<Message>)
    requires Folds(w, f) && Loop(f, 0, fuel, log).status.ProviderFailed?
    ensures var n := |Loop(f, 0, fuel, log).seen|;
      n > 0 && Flatten(Emitted(w, n)) == ModelText(Rounds(f, 0, n)) + AllText(w.stream(n - 1))
  {
    FailureIsSeen(Course(f), 0, fuel, log);
    var k := |Loop(f, 0, fuel, log).seen| - 1;
    OnlyLastFails(f, fuel, log, k);
    RunRoundsShown(w, f, fuel, log, k);
    FailedRoundShown(w, f, k);
  }

  lemma ShownIsRounds(w: StreamWorld, f: World, fuel: nat, log: seq<Message>)
    requires Folds(w, f)
    ensures var o := Loop(f, 0, fuel, log);
      var n := |o.seen|;
      && (o.status.ProviderFailed? ==> n > 0)
      && (if o.status.ProviderFailed?
          then Flatten(Emitted(w, n)) == ModelText(Rounds(f, 0, n)) + AllText(w.stream(n - 1))
          else Flatten(Emitted(w, n)) == ModelText(Rounds(f, 0, n)))
  {
    if Loop(f, 0, fuel, log).status.ProviderFailed? {
      FailedRunShown(w, f, fuel, log);
    } else {
      RunRoundsShown(w, f, fuel, log, |Loop(f, 0, fuel, log).seen|);
    }
  }

  lemma ShownIsLoggedBy(w: StreamWorld, f: World, fuel: nat, log: seq<Message>)
    requires Folds(w, f)
    ensures var o := Loop(f, 0, fuel, log);
      var n := |o.seen|;
      && log <= o.log
      && (o.status.ProviderFailed? ==> n > 0)
      && (if o.status.ProviderFailed?
          then Flatten(Emitted(w, n)) == ModelText(o.log[|log|..]) + AllText(w.stream(n - 1))
          else Flatten(Emitted(w, n)) == ModelText(o.log[|log|..]))
  {
    LoopAppendsRounds(f, 0, fuel, log);
    ShownIsRounds(w, f, fuel, log);
    var o := Loop(f, 0, fuel, log);
    assert o.log[|log|..] == Rounds(f, 0, |o.seen|);
  }
}
