/** pkg/provider/openai/openai.go: rebuilding a response from a stream of deltas. The SDK's types are
    reduced to the fields the code reads; decoding an argument string is a parameter. */
module OpenAIStream {
  import opened Wrappers
  import opened Basics
  import opened Messages
  import opened AgentLoop
  import opened StreamLoop

  // One fragment of the tool call with this index, which the wire does not keep from being negative.
  datatype Delta = Delta(index: int, id: string, name: string, args: string)

  datatype Choice = Choice(content: string, deltas: seq<Delta>, finish: string)

  // One event of the stream; choice is its first choice, if it has any.
  datatype Event = Event(usage: Usage, choice: Option<Choice>)

  // A tool call as the wire carries it.
  datatype RawCall = RawCall(id: string, name: string, args: string)

  // A whole, non-streamed answer.
  datatype Completion = Completion(choice: Option<Answer>, usage: Usage)

  datatype Answer = Answer(content: string, calls: seq<RawCall>)

  const TOOL_CALLS := "tool_calls"

  // The context is done before chunk `at` is delivered, with this error.
  datatype ContextDone = ContextDone(at: nat, err: string)

  // parseArgs, given the JSON decoder: an empty string is no arguments.
  function ParseArgs(decode: string -> Args, raw: string): Args {
    if raw == "" then NilArgs else decode(raw)
  }

  function Convert(decode: string -> Args, c: RawCall): ToolCall {
    ToolCall(c.id, c.name, ParseArgs(decode, c.args))
  }

  function ConvertAll(decode: string -> Args, cs: seq<RawCall>): (r: seq<ToolCall>)
    ensures |r| == |cs|
    ensures forall i :: 0 <= i < |cs| ==> r[i] == Convert(decode, cs[i])
  {
    seq(|cs|, i requires 0 <= i < |cs| => Convert(decode, cs[i]))
  }

  // ---- what a sequence of deltas means ----------------------------------------------------

  // The fragments of call i, in arrival order.
  function Only(ds: seq<Delta>, n: nat, i: nat): seq<Delta>
    requires n <= |ds|
  {
    if n == 0 then [] else Only(ds, n - 1, i) + if ds[n - 1].index == i then [ds[n - 1]] else []
  }

  // The call the fragments ds make up: the last non-empty ID and name, the arguments joined.
  function LastID(ds: seq<Delta>, n: nat): string
    requires n <= |ds|
  {
    if n == 0 then "" else if ds[n - 1].id != "" then ds[n - 1].id else LastID(ds, n - 1)
  }

  function LastName(ds: seq<Delta>, n: nat): string
    requires n <= |ds|
  {
    if n == 0 then "" else if ds[n - 1].name != "" then ds[n - 1].name else LastName(ds, n - 1)
  }

  function AllArgs(ds: seq<Delta>, n: nat): string
    requires n <= |ds|
  {
    if n == 0 then "" else AllArgs(ds, n - 1) + ds[n - 1].args
  }

  function CallOf(ds: seq<Delta>): RawCall {
    RawCall(LastID(ds, |ds|), LastName(ds, |ds|), AllArgs(ds, |ds|))
  }

  // One more than the highest index; 0 if there is none.
  function Width(ds: seq<Delta>, n: nat): nat
    requires n <= |ds|
  {
    if n == 0 then 0
    else if ds[n - 1].index < Width(ds, n - 1) then Width(ds, n - 1) else ds[n - 1].index + 1
  }

  // The calls that ds makes up: an index no fragment mentions yields an empty call.
  function CallAt(ds: seq<Delta>, i: nat): RawCall {
    CallOf(Only(ds, |ds|, i))
  }

  function CallsOf(ds: seq<Delta>): (r: seq<RawCall>)
    ensures |r| == Width(ds, |ds|)
    ensures forall i :: 0 <= i < |r| ==> r[i] == CallAt(ds, i)
  {
    seq(Width(ds, |ds|), i requires 0 <= i => CallAt(ds, i))
  }

  lemma {:induction false} OnlyPrefix(ds: seq<Delta>, d: Delta, n: nat, i: nat)
    requires n <= |ds|
    ensures Only(ds + [d], n, i) == Only(ds, n, i) && Width(ds + [d], n) == Width(ds, n)
  {
    if n > 0 { OnlyPrefix(ds, d, n - 1, i); }
  }

  lemma {:induction false} CallPrefix(ds: seq<Delta>, d: Delta, n: nat)
    requires n <= |ds|
    ensures LastID(ds + [d], n) == LastID(ds, n)
    ensures LastName(ds + [d], n) == LastName(ds, n)
    ensures AllArgs(ds + [d], n) == AllArgs(ds, n)
  {
    if n > 0 { CallPrefix(ds, d, n - 1); }
  }

  // How one more delta changes what is accumulated.
  function Merge(c: RawCall, d: Delta): RawCall {
    RawCall(if d.id != "" then d.id else c.id, if d.name != "" then d.name else c.name, c.args + d.args)
  }

  lemma OnlySnoc(ds: seq<Delta>, d: Delta, i: nat)
    ensures Only(ds + [d], |ds| + 1, i) == if d.index == i then Only(ds, |ds|, i) + [d] else Only(ds, |ds|, i)
    ensures Width(ds + [d], |ds| + 1)
         == if d.index < Width(ds, |ds|) then Width(ds, |ds|) else d.index + 1
  {
    OnlyPrefix(ds, d, |ds|, i);
    Assoc(Only(ds, |ds|, i), [], []);
  }

  lemma MergeLast(mine: seq<Delta>, d: Delta)
    ensures CallOf(mine + [d]) == Merge(CallOf(mine), d)
  {
    CallPrefix(mine, d, |mine|);
  }

  lemma OneMore(ds: seq<Delta>, d: Delta, i: nat)
    ensures CallAt(ds + [d], i) == if d.index == i then Merge(CallAt(ds, i), d) else CallAt(ds, i)
    ensures Width(ds + [d], |ds| + 1)
         == if d.index < Width(ds, |ds|) then Width(ds, |ds|) else d.index + 1
  {
    OnlySnoc(ds, d, i);
    MergeLast(Only(ds, |ds|, i), d);
  }

  lemma {:induction false} NothingBeyondWidth(ds: seq<Delta>, n: nat, i: nat)
    requires n <= |ds| && i >= Width(ds, n)
    ensures |Only(ds, n, i)| == 0
  {
    if n > 0 { NothingBeyondWidth(ds, n - 1, i); }
  }

  const EMPTY_CALL := RawCall("", "", "")

  predicate Indexed(deltas: seq<Delta>) {
    forall j :: 0 <= j < |deltas| ==> deltas[j].index >= 0
  }

  // One delta: the accumulators grown to its index and updated there.
  method AddDelta(accs: seq<RawCall>, d: Delta, ghost ds: seq<Delta>) returns (r: seq<RawCall>)
    requires accs == CallsOf(ds) && d.index >= 0
    ensures r == CallsOf(ds + [d])
  {
    r := accs;
    var idx := d.index;
    while |r| <= idx
      invariant |r| == Max(Width(ds, |ds|), |r|)
      invariant |r| <= Max(Width(ds, |ds|), idx + 1)
      invariant forall i :: 0 <= i < |r| ==> r[i] == CallAt(ds, i)
    {
      NothingBeyondWidth(ds, |ds|, |r|);
      r := r + [EMPTY_CALL];
    }
    if d.id != "" {
      r := r[idx := r[idx].(id := d.id)];
    }
    if d.name != "" {
      r := r[idx := r[idx].(name := d.name)];
    }
    r := r[idx := r[idx].(args := r[idx].args + d.args)];
    OneMore(ds, d, 0);
    forall i | 0 <= i < |r| ensures r[i] == CallAt(ds + [d], i) {
      OneMore(ds, d, i);
    }
  }

  // The accumulator loop over one event's deltas. A negative index is out of range: the code
  // panics.
  method AddDeltas(accs: seq<RawCall>, deltas: seq<Delta>, ghost before: seq<Delta>)
    returns (r: Option<seq<RawCall>>)
    requires accs == CallsOf(before)
    ensures r == if Indexed(deltas) then Some(CallsOf(before + deltas)) else None
  {
    var calls := accs;
    assert before + deltas[..0] == before;
    for j := 0 to |deltas|
      invariant Indexed(deltas[..j]) && calls == CallsOf(before + deltas[..j])
    {
      if deltas[j].index < 0 {
        return None;
      }
      calls := AddDelta(calls, deltas[j], before + deltas[..j]);
      assert before + deltas[..j + 1] == before + deltas[..j] + [deltas[j]];
    }
    assert deltas[..|deltas|] == deltas;
    r := Some(calls);
  }

  predicate SameFragments(one: seq<Delta>, two: seq<Delta>, i: nat) {
    Only(one, |one|, i) == Only(two, |two|, i)
  }

  // Deltas for different indices commute: any two streams of deltas whose fragments agree index
  // by index, however they are interleaved, make up the same calls.
  lemma InterleavingIsIrrelevant(one: seq<Delta>, two: seq<Delta>)
    requires forall i: nat :: SameFragments(one, two, i)
    ensures CallsOf(one) == CallsOf(two)
  {
    WidthWithin(one, two);
    assert forall i: nat :: SameFragments(one, two, i) ==> SameFragments(two, one, i);
    WidthWithin(two, one);
    forall i: nat ensures CallAt(one, i) == CallAt(two, i) {
      assert SameFragments(one, two, i);
    }
  }

  lemma {:induction false} HighestIndex(ds: seq<Delta>, n: nat)
    requires n <= |ds| && Width(ds, n) > 0
    ensures |Only(ds, n, Width(ds, n) - 1)| > 0
  {
    if ds[n - 1].index < Width(ds, n - 1) { HighestIndex(ds, n - 1); }
  }

  lemma WidthWithin(one: seq<Delta>, two: seq<Delta>)
    requires forall i: nat :: SameFragments(one, two, i)
    ensures Width(one, |one|) <= Width(two, |two|)
  {
    if Width(one, |one|) > Width(two, |two|) {
      var i := Width(one, |one|) - 1;
      assert SameFragments(one, two, i);
      HighestMentioned(one, i);
      NothingBeyondWidth(two, |two|, i);
    }
  }

  lemma HighestMentioned(ds: seq<Delta>, i: nat)
    requires i + 1 == Width(ds, |ds|)
    ensures |Only(ds, |ds|, i)| > 0
  {
    HighestIndex(ds, |ds|);
  }

  // ---- GenerateStream ---------------------------------------------------------------------

  predicate Finishes(e: Event) {
    e.choice.Some? && e.choice.value.finish == TOOL_CALLS
  }

  function Deltas(e: Event): seq<Delta> {
    if e.choice.Some? then e.choice.value.deltas else []
  }

  function ContentOf(e: Event): string {
    if e.choice.Some? then e.choice.value.content else ""
  }

  // The deltas not yet emitted before event n.
  function Pending(es: seq<Event>, n: nat): seq<Delta>
    requires n <= |es|
  {
    if n == 0 || Finishes(es[n - 1]) then [] else Pending(es, n - 1) + Deltas(es[n - 1])
  }

  // The chunk event j is turned into.
  function ChunkAt(decode: string -> Args, es: seq<Event>, j: nat): Chunk
    requires j < |es|
  {
    Chunk(
      ContentOf(es[j]),
      if Finishes(es[j]) then ConvertAll(decode, CallsOf(Pending(es, j) + Deltas(es[j]))) else [],
      if HasUsage(es[j].usage) then es[j].usage else ZERO_USAGE)
  }

  function Chunks(decode: string -> Args, es: seq<Event>): nat -> Chunk {
    (j: nat) => if j < |es| then ChunkAt(decode, es, j) else Chunk("", [], ZERO_USAGE)
  }

  function StreamError(err: Option<string>): Option<string> {
    if err.Some? then Some("openai: stream: " + err.value) else None
  }

  // What consumers receive: every chunk, unless the context is done before.
  ghost predicate Streams(decode: string -> Args, es: seq<Event>, err: Option<string>, done: Option<ContextDone>, s: Stream) {
    var n := if done.Some? && done.value.at < |es| then done.value.at else |es|;
    && Lists(Chunks(decode, es), s.chunks, n)
    && s.err == (if n < |es| then Some(done.value.err)
                 else StreamError(err))
  }

  // The loop that emits accumulated calls.
  method ConvertCalls(decode: string -> Args, cs: seq<RawCall>) returns (r: seq<ToolCall>)
    ensures r == ConvertAll(decode, cs)
  {
    r := [];
    for i := 0 to |cs|
      invariant |r| == i
      invariant forall l :: 0 <= l < i ==> r[l] == Convert(decode, cs[l])
    {
      r := r + [Convert(decode, cs[i])];
    }
  }

  // The events that are looked at before the context is found done.
  function Handled(es: seq<Event>, done: Option<ContextDone>): nat {
    if done.Some? && done.value.at < |es| then done.value.at + 1 else |es|
  }

  // Whether one of the first n events has a delta with a negative index.
  predicate Panics(es: seq<Event>, n: nat)
    requires n <= |es|
  {
    exists j :: 0 <= j < n && !Indexed(Deltas(es[j]))
  }

  // The body of the event loop: the chunk to deliver, and the accumulators that remain; nothing
  // if it panics.
  method NextChunk(decode: string -> Args, es: seq<Event>, j: nat, accs: seq<RawCall>)
    returns (next: Option<(Chunk, seq<RawCall>)>)
    requires j < |es| && accs == CallsOf(Pending(es, j))
    ensures next == if Indexed(Deltas(es[j])) then Some((ChunkAt(decode, es, j), CallsOf(Pending(es, j + 1)))) else None
  {
    var raw := es[j];
    var toolCalls := accs;
    var chunk := Chunk("", [], ZERO_USAGE);
    if raw.usage.input > 0 || raw.usage.output > 0 {
      chunk := chunk.(usage := raw.usage);
    }
    if raw.choice.Some? {
      var delta := raw.choice.value;
      if delta.content != "" {
        chunk := chunk.(content := delta.content);
      }
      var added := AddDeltas(toolCalls, delta.deltas, Pending(es, j));
      if added.None? {
        return None;
      }
      toolCalls := added.value;
      if delta.finish == TOOL_CALLS {
        var calls := ConvertCalls(decode, toolCalls);
        chunk := chunk.(toolCalls := calls);
        toolCalls := [];
      }
    } else {
      assert Pending(es, j) + Deltas(raw) == Pending(es, j);
    }
    next := Some((chunk, toolCalls));
  }

  lemma PanicsOneMore(es: seq<Event>, n: nat)
    requires n < |es|
    ensures Panics(es, n + 1) <==> Panics(es, n) || !Indexed(Deltas(es[n]))
  {
  }

  lemma PanicsEarlier(es: seq<Event>, m: nat, n: nat)
    requires m <= n <= |es| && Panics(es, m)
    ensures Panics(es, n)
  {
  }

  // The chunks and the accumulators behind the first j events.
  ghost predicate SoFar(decode: string -> Args, es: seq<Event>, chunks: seq<Chunk>, accs: seq<RawCall>, j: nat) {
    && j <= |es| && Lists(Chunks(decode, es), chunks, j) && !Panics(es, j)
    && accs == CallsOf(Pending(es, j))
  }

  method TakeEvent(decode: string -> Args, es: seq<Event>, j: nat, chunks: seq<Chunk>, accs: seq<RawCall>)
    returns (next: Option<(seq<Chunk>, seq<RawCall>)>)
    requires j < |es| && SoFar(decode, es, chunks, accs, j)
    ensures next.None? ==> Panics(es, j + 1)
    ensures next.Some? ==> SoFar(decode, es, next.value.0, next.value.1, j + 1)
  {
    var one := NextChunk(decode, es, j, accs);
    PanicsOneMore(es, j);
    if one.None? {
      return None;
    }
    assert Chunks(decode, es)(j) == ChunkAt(decode, es, j);
    ListsOneMore(Chunks(decode, es), chunks, j, one.value.0);
    next := Some((chunks + [one.value.0], one.value.1));
  }

  lemma Stops(decode: string -> Args, es: seq<Event>, err: Option<string>, done: Option<ContextDone>,
      chunks: seq<Chunk>, accs: seq<RawCall>, j: nat)
    requires SoFar(decode, es, chunks, accs, j)
    ensures done.Some? && done.value.at == j < |es| ==>
      Streams(decode, es, err, done, Stream(chunks, Some(done.value.err)))
    ensures j == |es| && (done.Some? ==> j <= done.value.at) ==>
      Streams(decode, es, err, done, Stream(chunks, StreamError(err))) && !Panics(es, Handled(es, done))
  {
  }

  // None stands for the panic, which nothing recovers.
  method GenerateStream(decode: string -> Args, es: seq<Event>, err: Option<string>, done: Option<ContextDone>)
    returns (s: Option<Stream>)
    ensures s.None? <==> Panics(es, Handled(es, done))
    ensures s.Some? ==> Streams(decode, es, err, done, s.value)
    ensures s.Some? ==>
      if done.Some? && done.value.at < |es| then |s.value.chunks| == done.value.at && s.value.err == Some(done.value.err)
      else |s.value.chunks| == |es| && s.value.err == if err.Some? then Some("openai: stream: " + err.value) else None
  {
    var toolCalls: seq<RawCall> := [];
    var chunks: seq<Chunk> := [];
    for j := 0 to |es|
      invariant SoFar(decode, es, chunks, toolCalls, j)
      invariant done.Some? ==> j <= done.value.at
    {
      var next := TakeEvent(decode, es, j, chunks, toolCalls);
      if next.None? {
        PanicsEarlier(es, j + 1, Handled(es, done));
        return None;
      }
      if done.Some? && done.value.at == j {
        Stops(decode, es, err, done, chunks, toolCalls, j);
        return Some(Stream(chunks, Some(done.value.err)));
      }
      chunks, toolCalls := next.value.0, next.value.1;
    }
    Stops(decode, es, err, done, chunks, toolCalls, |es|);
    s := Some(Stream(chunks, StreamError(err)));
  }

  // toResponse: an answer without choices keeps Go's zero message, whose role is not "model".
  function Answered(decode: string -> Args, c: Completion): Response {
    match c.choice
    case None => Response(ZERO_MESSAGE, c.usage)
    case Some(a) => Response(Message(Model, a.content, "", ConvertAll(decode, a.calls)), c.usage)
  }

  method ToResponse(decode: string -> Args, c: Completion) returns (r: Response)
    ensures r == Answered(decode, c)
  {
    r := Response(ZERO_MESSAGE, c.usage);
    if c.choice.None? {
      return;
    }
    var a := c.choice.value;
    var calls := ConvertCalls(decode, a.calls);
    r := r.(message := Message(Model, a.content, "", calls));
  }

  // ---- streaming refines non-streaming ----------------------------------------------------

  // All deltas of the first n events.
  function DeltasTo(es: seq<Event>, n: nat): seq<Delta>
    requires n <= |es|
  {
    if n == 0 then [] else DeltasTo(es, n - 1) + Deltas(es[n - 1])
  }

  function ContentTo(es: seq<Event>, n: nat): string
    requires n <= |es|
  {
    if n == 0 then ""
    else ContentTo(es, n - 1) + ContentOf(es[n - 1])
  }

  function UsageTo(es: seq<Event>, n: nat): Usage
    requires n <= |es|
  {
    if n == 0 then ZERO_USAGE
    else if HasUsage(es[n - 1].usage) then es[n - 1].usage
    else UsageTo(es, n - 1)
  }

  // The events finish with "tool_calls" at event f and nowhere else.
  predicate FinishesOnceAt(es: seq<Event>, f: nat) {
    f < |es| && forall j :: 0 <= j < |es| ==> (Finishes(es[j]) <==> j == f)
  }

  predicate NeverFinishes(es: seq<Event>) {
    forall j :: 0 <= j < |es| ==> !Finishes(es[j])
  }

  // The stream es, cut into events and fragments in any way, carries the answer a.
  ghost predicate Carries(es: seq<Event>, a: Answer, usage: Usage) {
    && ContentTo(es, |es|) == a.content
    && UsageTo(es, |es|) == usage
    && if a.calls == [] then NeverFinishes(es)
       else exists f: nat :: FinishesOnceAt(es, f) && CallsOf(DeltasTo(es, f + 1)) == a.calls
  }

  lemma {:induction false} PendingIsAll(es: seq<Event>, n: nat)
    requires n <= |es| && forall j :: 0 <= j < n ==> !Finishes(es[j])
    ensures Pending(es, n) == DeltasTo(es, n)
  {
    if n > 0 { PendingIsAll(es, n - 1); }
  }

  // What event j sends if it finishes.
  function BatchAt(es: seq<Event>, j: nat): seq<Delta>
    requires j < |es|
  {
    Pending(es, j) + Deltas(es[j])
  }

  // What a consumer receives for event j, field by field.
  lemma ChunkReads(decode: string -> Args, es: seq<Event>, s: Stream, j: nat)
    requires Streams(decode, es, None, None, s) && j < |es|
    ensures j < |s.chunks|
    ensures var e, c := es[j], s.chunks[j];
      && c.content == (if e.choice.Some? then e.choice.value.content else "")
      && c.usage == (if e.usage.input > 0 || e.usage.output > 0 then e.usage else Usage(0, 0))
      && c.toolCalls == if e.choice.Some? && e.choice.value.finish == "tool_calls"
                        then ConvertAll(decode, CallsOf(BatchAt(es, j))) else []
  {
    assert s.chunks[j] == ChunkAt(decode, es, j);
  }

  predicate SameText(chunks: seq<Chunk>, es: seq<Event>, j: nat) {
    j < |chunks| && j < |es| && chunks[j].content == ContentOf(es[j])
  }

  lemma {:induction false} TextFolds(chunks: seq<Chunk>, es: seq<Event>, n: nat)
    requires n <= |chunks| && n <= |es| && forall j: nat :: j < n ==> SameText(chunks, es, j)
    ensures Text(chunks, n) == ContentTo(es, n)
  {
    if n > 0 {
      TextFolds(chunks, es, n - 1);
      assert SameText(chunks, es, n - 1);
    }
  }

  predicate SameUsage(chunks: seq<Chunk>, es: seq<Event>, j: nat) {
    && j < |chunks| && j < |es|
    && chunks[j].usage == if HasUsage(es[j].usage) then es[j].usage else ZERO_USAGE
  }

  lemma {:induction false} UsageFolds(chunks: seq<Chunk>, es: seq<Event>, n: nat)
    requires n <= |chunks| && n <= |es| && forall j: nat :: j < n ==> SameUsage(chunks, es, j)
    ensures LastUsage(chunks, n) == UsageTo(es, n)
  {
    if n > 0 {
      UsageFolds(chunks, es, n - 1);
      assert SameUsage(chunks, es, n - 1);
    }
  }

  lemma FoldText(decode: string -> Args, es: seq<Event>, s: Stream, n: nat)
    requires Streams(decode, es, None, None, s) && n <= |es|
    ensures Text(s.chunks, n) == ContentTo(es, n)
    ensures LastUsage(s.chunks, n) == UsageTo(es, n)
  {
    forall j: nat | j < n ensures SameText(s.chunks, es, j) && SameUsage(s.chunks, es, j) {
      ChunkReads(decode, es, s, j);
    }
    TextFolds(s.chunks, es, n);
    UsageFolds(s.chunks, es, n);
  }

  lemma QuietChunk(decode: string -> Args, es: seq<Event>, s: Stream, i: nat)
    requires Streams(decode, es, None, None, s) && i < |es| && !Finishes(es[i])
    ensures i < |s.chunks| && |s.chunks[i].toolCalls| == 0
  {
    assert s.chunks[i] == ChunkAt(decode, es, i);
  }

  lemma {:induction false} NoneCalled(chunks: seq<Chunk>, n: nat)
    requires n <= |chunks| && forall j :: 0 <= j < n ==> |chunks[j].toolCalls| == 0
    ensures |Calls(chunks, n)| == 0
  {
    if n > 0 { NoneCalled(chunks, n - 1); }
  }

  lemma NoCalls(decode: string -> Args, es: seq<Event>, s: Stream, n: nat)
    requires Streams(decode, es, None, None, s) && n <= |es|
    requires forall j :: 0 <= j < n ==> !Finishes(es[j])
    ensures |Calls(s.chunks, n)| == 0
  {
    forall j | 0 <= j < n ensures |s.chunks[j].toolCalls| == 0 {
      QuietChunk(decode, es, s, j);
    }
    NoneCalled(s.chunks, n);
  }

  lemma FinishChunk(decode: string -> Args, es: seq<Event>, s: Stream, f: nat)
    requires Streams(decode, es, None, None, s) && FinishesOnceAt(es, f)
    ensures f < |s.chunks| && s.chunks[f].toolCalls == ConvertAll(decode, CallsOf(DeltasTo(es, f + 1)))
  {
    assert s.chunks[f] == ChunkAt(decode, es, f);
    PendingIsAll(es, f);
  }

  lemma {:induction false} OnlyOneCalls(chunks: seq<Chunk>, f: nat, n: nat)
    requires f < n <= |chunks| && forall j :: 0 <= j < n && j != f ==> |chunks[j].toolCalls| == 0
    ensures Calls(chunks, n) == chunks[f].toolCalls
  {
    if n == f + 1 {
      NoneCalled(chunks, f);
      assert Calls(chunks, n) == [] + chunks[f].toolCalls;
    } else {
      OnlyOneCalls(chunks, f, n - 1);
      Assoc(chunks[f].toolCalls, [], []);
      assert chunks[n - 1].toolCalls == [];
    }
  }

  lemma FoldCalls(decode: string -> Args, es: seq<Event>, s: Stream, f: nat, n: nat)
    requires Streams(decode, es, None, None, s) && FinishesOnceAt(es, f) && f < n <= |es|
    ensures Calls(s.chunks, n) == ConvertAll(decode, CallsOf(DeltasTo(es, f + 1)))
  {
    forall j | 0 <= j < n && j != f ensures |s.chunks[j].toolCalls| == 0 {
      QuietChunk(decode, es, s, j);
    }
    OnlyOneCalls(s.chunks, f, n);
    FinishChunk(decode, es, s, f);
  }

  // However it is cut up, a stream that carries an answer folds to the response the same answer
  // gives when it is not streamed.
  lemma StreamedEqualsWhole(decode: string -> Args, es: seq<Event>, s: Stream, a: Answer, usage: Usage)
    requires Streams(decode, es, None, None, s) && Carries(es, a, usage)
    ensures FoldStream(s) == Reply(Answered(decode, Completion(Some(a), usage)))
  {
    FoldText(decode, es, s, |es|);
    if a.calls == [] {
      NoCalls(decode, es, s, |es|);
      assert ConvertAll(decode, a.calls) == [];
    } else {
      var f: nat :| FinishesOnceAt(es, f) && CallsOf(DeltasTo(es, f + 1)) == a.calls;
      FoldCalls(decode, es, s, f, |es|);
    }
  }

  // ---- which fragments reach the response -------------------------------------------------

  function BatchesAt(es: seq<Event>): nat -> seq<seq<Delta>> {
    (j: nat) => if j < |es| && Finishes(es[j]) then [BatchAt(es, j)] else []
  }

  // The batches sent by the first n events.
  function Batches(es: seq<Event>, n: nat): seq<seq<Delta>> {
    Between(BatchesAt(es), 0, n)
  }

  function Itself(batch: seq<Delta>): seq<Delta> {
    batch
  }

  // Their fragments, in a row.
  function Sent(es: seq<Event>, n: nat): seq<Delta> {
    Flattened(Itself, Batches(es, n))
  }

  function BatchCalls(decode: string -> Args): seq<Delta> -> seq<ToolCall> {
    (batch: seq<Delta>) => ConvertAll(decode, CallsOf(batch))
  }

  lemma BatchesSnoc(es: seq<Event>, n: nat)
    requires n < |es|
    ensures Batches(es, n + 1) == if Finishes(es[n]) then Batches(es, n) + [BatchAt(es, n)] else Batches(es, n)
    ensures Pending(es, n + 1) == if Finishes(es[n]) then [] else BatchAt(es, n)
  {
    Assoc(Batches(es, n), [], []);
  }

  // Every fragment has been sent or is pending, in order.
  lemma {:induction false} SentOrPending(es: seq<Event>, n: nat)
    requires n <= |es|
    ensures DeltasTo(es, n) == Sent(es, n) + Pending(es, n)
  {
    if n > 0 {
      var k := n - 1;
      SentOrPending(es, k);
      BatchesSnoc(es, k);
      Assoc(Sent(es, k), Pending(es, k), Deltas(es[k]));
      if Finishes(es[k]) {
        FlattenedSnoc(Itself, Batches(es, k), BatchAt(es, k));
        Assoc(Sent(es, n), [], []);
      }
    }
  }

  function CallsAt(chunks: seq<Chunk>): nat -> seq<ToolCall> {
    (j: nat) => if j < |chunks| then chunks[j].toolCalls else []
  }

  lemma {:induction false} CallsInARow(chunks: seq<Chunk>, n: nat)
    requires n <= |chunks|
    ensures Calls(chunks, n) == Between(CallsAt(chunks), 0, n)
  {
    if n > 0 { CallsInARow(chunks, n - 1); }
  }

  lemma CallsOfBatch(decode: string -> Args, es: seq<Event>, s: Stream, j: nat)
    requires Streams(decode, es, None, None, s) && j < |es|
    ensures MapsAt(BatchCalls(decode), BatchesAt(es), CallsAt(s.chunks), j)
  {
    assert s.chunks[j] == ChunkAt(decode, es, j);
    if Finishes(es[j]) { FlattenedOne(BatchCalls(decode), BatchAt(es, j)); }
  }

  lemma CallsOfBatches(decode: string -> Args, es: seq<Event>, s: Stream, n: nat)
    requires Streams(decode, es, None, None, s) && n <= |es|
    ensures Calls(s.chunks, n) == Flattened(BatchCalls(decode), Batches(es, n))
  {
    forall j: nat | 0 <= j < n ensures MapsAt(BatchCalls(decode), BatchesAt(es), CallsAt(s.chunks), j) {
      CallsOfBatch(decode, es, s, j);
    }
    FlatMapBetween(BatchCalls(decode), BatchesAt(es), CallsAt(s.chunks), 0, n);
    CallsInARow(s.chunks, n);
  }

  // However often a stream finishes, its response holds the calls of every batch that was sent,
  // in a row; what is pending at its end is in none.
  lemma ResponseHoldsTheBatches(decode: string -> Args, es: seq<Event>, s: Stream)
    requires Streams(decode, es, None, None, s)
    ensures FoldStream(s).Reply?
    ensures FoldStream(s).resp.message.toolCalls == Flattened(BatchCalls(decode), Batches(es, |es|))
    ensures DeltasTo(es, |es|) == Sent(es, |es|) + Pending(es, |es|)
  {
    CallsOfBatches(decode, es, s, |es|);
    SentOrPending(es, |es|);
  }

  // Whether one of the events from j up to n finishes.
  predicate FinishedBy(es: seq<Event>, j: nat, n: nat)
    requires n <= |es|
  {
    exists f :: j <= f < n && Finishes(es[f])
  }

  predicate SentBy(es: seq<Event>, j: nat, n: nat)
    requires n <= |es|
  {
    j < n && Deltas(es[j]) != [] ==> FinishedBy(es, j, n)
  }

  lemma SentByOneMore(es: seq<Event>, j: nat, n: nat)
    requires n < |es| && j <= n
    ensures FinishedBy(es, j, n + 1) <==> FinishedBy(es, j, n) || Finishes(es[n])
  {
  }

  lemma {:induction false} NothingPending(es: seq<Event>, n: nat)
    requires n <= |es|
    ensures Pending(es, n) == [] <==> forall j: nat :: SentBy(es, j, n)
  {
    if n > 0 {
      var k := n - 1;
      NothingPending(es, k);
      forall j: nat | j <= k
        ensures SentBy(es, j, n) <==> Finishes(es[k]) || (SentBy(es, j, k) && (j == k ==> Deltas(es[k]) == []))
      {
        SentByOneMore(es, j, k);
      }
      if !Finishes(es[k]) && (forall j: nat :: SentBy(es, j, n)) {
        assert SentBy(es, k, n);
        forall j: nat ensures SentBy(es, j, k) { assert SentBy(es, j, n); }
      }
    }
  }

  // No fragment is lost exactly when nothing is pending at the end of the stream: exactly when
  // every event with a fragment finishes or has an event behind it that does.
  lemma NothingLostExactlyWhen(es: seq<Event>)
    ensures Sent(es, |es|) == DeltasTo(es, |es|) <==> Pending(es, |es|) == []
    ensures Sent(es, |es|) == DeltasTo(es, |es|) <==> forall j: nat :: SentBy(es, j, |es|)
  {
    SentOrPending(es, |es|);
    NothingPending(es, |es|);
    Assoc(Sent(es, |es|), [], []);
  }

  lemma {:induction false} IndexedWidth(ds: seq<Delta>, n: nat)
    requires n <= |ds| && Indexed(ds)
    ensures Width(ds, n) == 0 <==> n == 0
  {
    if n > 0 { IndexedWidth(ds, n - 1); }
  }

  lemma {:induction false} PendingIndexed(es: seq<Event>, n: nat)
    requires n <= |es| && !Panics(es, |es|)
    ensures Indexed(Pending(es, n))
  {
    if n > 0 { PendingIndexed(es, n - 1); }
  }

  predicate SendsNothing(es: seq<Event>, j: nat)
    requires j < |es|
  {
    Finishes(es[j]) ==> BatchAt(es, j) == []
  }

  lemma ChunkCallsNone(decode: string -> Args, es: seq<Event>, j: nat)
    requires j < |es| && !Panics(es, |es|)
    ensures ChunkAt(decode, es, j).toolCalls == [] <==> SendsNothing(es, j)
  {
    PendingIndexed(es, j);
    IndexedWidth(BatchAt(es, j), |BatchAt(es, j)|);
  }

  lemma {:induction false} CallsNone(chunks: seq<Chunk>, n: nat)
    requires n <= |chunks|
    ensures Calls(chunks, n) == [] <==> forall j :: 0 <= j < n ==> chunks[j].toolCalls == []
  {
    if n > 0 { CallsNone(chunks, n - 1); }
  }

  // A response has no call exactly when no "tool_calls" finish has a fragment before it that is
  // not sent yet, however many fragments there are.
  lemma CallsNeedTheFinish(decode: string -> Args, es: seq<Event>, s: Stream)
    requires Streams(decode, es, None, None, s) && !Panics(es, |es|)
    ensures FoldStream(s).Reply?
    ensures FoldStream(s).resp.message.toolCalls == [] <==> forall j :: 0 <= j < |es| ==> SendsNothing(es, j)
  {
    CallsNone(s.chunks, |es|);
    forall j | 0 <= j < |es| ensures s.chunks[j].toolCalls == [] <==> SendsNothing(es, j) {
      assert s.chunks[j] == ChunkAt(decode, es, j);
      ChunkCallsNone(decode, es, j);
    }
  }

  const ONE_FRAGMENT := Delta(0, "a", "f", "")
  const ANOTHER := Delta(1, "b", "f", "")
  const STOPPED := [Event(ZERO_USAGE, Some(Choice("", [ONE_FRAGMENT], "stop")))]
  const RESUMED := [Event(ZERO_USAGE, Some(Choice("", [ONE_FRAGMENT], TOOL_CALLS))),
                    Event(ZERO_USAGE, Some(Choice("", [ANOTHER], "")))]

  // A call whose stream finishes with "stop" is lost...
  lemma StoppedCallIsLost(decode: string -> Args, s: Stream)
    requires Streams(decode, STOPPED, None, None, s)
    ensures DeltasTo(STOPPED, 1) == [ONE_FRAGMENT]
    ensures FoldStream(s).Reply? && FoldStream(s).resp.message.toolCalls == []
  {
    assert !Finishes(STOPPED[0]);
    assert DeltasTo(STOPPED, 1) == DeltasTo(STOPPED, 0) + [ONE_FRAGMENT];
    NoCalls(decode, STOPPED, s, 1);
  }

  lemma OneCallOf(ds: seq<Delta>, d: Delta)
    requires ds == [d] && d.index == 0
    ensures CallsOf(ds) == [RawCall(d.id, d.name, d.args)]
  {
    OneMore([], d, 0);
    assert [] + [d] == ds && CallAt([], 0) == EMPTY_CALL;
    assert Merge(EMPTY_CALL, d) == RawCall(d.id, d.name, d.args);
  }

  lemma ResumedDeltas()
    ensures FinishesOnceAt(RESUMED, 0)
    ensures DeltasTo(RESUMED, 1) == [ONE_FRAGMENT] && DeltasTo(RESUMED, 2) == [ONE_FRAGMENT, ANOTHER]
  {
    assert DeltasTo(RESUMED, 1) == DeltasTo(RESUMED, 0) + [ONE_FRAGMENT];
    assert DeltasTo(RESUMED, 2) == DeltasTo(RESUMED, 1) + [ANOTHER];
  }

  // ...and so is one that comes behind the finish.
  lemma LateCallIsLost(decode: string -> Args, s: Stream)
    requires Streams(decode, RESUMED, None, None, s)
    ensures DeltasTo(RESUMED, 2) == [ONE_FRAGMENT, ANOTHER]
    ensures FoldStream(s).Reply?
    ensures FoldStream(s).resp.message.toolCalls == [Convert(decode, RawCall("a", "f", ""))]
  {
    ResumedDeltas();
    OneCallOf([ONE_FRAGMENT], ONE_FRAGMENT);
    FoldCalls(decode, RESUMED, s, 0, 2);
  }

  const NEGATIVE := [Event(ZERO_USAGE, Some(Choice("", [Delta(-1, "a", "f", "")], "")))]

  // An event that GenerateStream panics on.
  lemma NegativeIndexPanics()
    ensures Panics(NEGATIVE, Handled(NEGATIVE, None))
  {
    assert Deltas(NEGATIVE[0])[0].index < 0;
    assert !Indexed(Deltas(NEGATIVE[0]));
  }

  // ---- a call and a response, field by field ----------------------------------------------

  // What the fragments of call i add to its arguments.
  function ArgsOf(i: nat): Delta -> string {
    (d: Delta) => if d.index == i then d.args else ""
  }

  // Fragment j is the last of call i that has an ID, or a name.
  predicate LastNamed(ds: seq<Delta>, i: nat, j: nat) {
    && j < |ds| && ds[j].index == i && ds[j].name != ""
    && forall l :: j < l < |ds| && ds[l].index == i ==> ds[l].name == ""
  }

  predicate LastWithID(ds: seq<Delta>, i: nat, j: nat) {
    && j < |ds| && ds[j].index == i && ds[j].id != ""
    && forall l :: j < l < |ds| && ds[l].index == i ==> ds[l].id == ""
  }

  lemma CallBefore(ds: seq<Delta>, i: nat)
    requires ds != []
    ensures var before, d := ds[..|ds| - 1], ds[|ds| - 1];
      CallAt(ds, i) == if d.index == i then Merge(CallAt(before, i), d) else CallAt(before, i)
  {
    var before, d := ds[..|ds| - 1], ds[|ds| - 1];
    OneMore(before, d, i);
    assert before + [d] == ds;
  }

  lemma ArgsAdd(ds: seq<Delta>, i: nat, k: nat)
    requires k < |ds|
    ensures CallAt(ds[..k + 1], i).args == CallAt(ds[..k], i).args + ArgsOf(i)(ds[k])
  {
    var more := ds[..k + 1];
    CallBefore(more, i);
    assert more[..|more| - 1] == ds[..k] && more[|more| - 1] == ds[k];
    Assoc(CallAt(ds[..k], i).args, [], []);
  }

  // The arguments of a call are those of its fragments, in a row.
  lemma ArgsRead(ds: seq<Delta>, i: nat)
    ensures CallAt(ds, i).args == FlatMap(ArgsOf(i), ds, |ds|)
  {
    var h := (k: nat) => if k <= |ds| then CallAt(ds[..k], i).args else [];
    forall k: nat ensures AddsAt(h, ArgsOf(i), ds, k) { if k < |ds| { ArgsAdd(ds, i, k); } }
    FlatMapIs(h, ArgsOf(i), ds, |ds|);
    assert ds[..|ds|] == ds;
  }

  // Its ID and its name are the last that one of them brings.
  lemma {:induction false} NamesRead(ds: seq<Delta>, i: nat, j: nat)
    ensures LastWithID(ds, i, j) ==> CallAt(ds, i).id == ds[j].id
    ensures LastNamed(ds, i, j) ==> CallAt(ds, i).name == ds[j].name
    decreases |ds|
  {
    if j < |ds| {
      CallBefore(ds, i);
      if j < |ds| - 1 {
        NamesRead(ds[..|ds| - 1], i, j);
      }
    }
  }

  lemma {:induction false} NamelessReads(ds: seq<Delta>, i: nat)
    ensures (forall j: nat :: !LastWithID(ds, i, j)) ==> CallAt(ds, i).id == ""
    ensures (forall j: nat :: !LastNamed(ds, i, j)) ==> CallAt(ds, i).name == ""
    decreases |ds|
  {
    if ds != [] {
      var before, d := ds[..|ds| - 1], ds[|ds| - 1];
      CallBefore(ds, i);
      NamelessReads(before, i);
      if forall j: nat :: !LastWithID(ds, i, j) {
        assert !LastWithID(ds, i, |before|);
        forall j: nat ensures !LastWithID(before, i, j) { assert !LastWithID(ds, i, j); }
      }
      if forall j: nat :: !LastNamed(ds, i, j) {
        assert !LastNamed(ds, i, |before|);
        forall j: nat ensures !LastNamed(before, i, j) { assert !LastNamed(ds, i, j); }
      }
    }
  }

  // There is a call for every index up to the highest that a fragment has.
  lemma {:induction false} WidthReads(ds: seq<Delta>, n: nat)
    requires n <= |ds| && Indexed(ds)
    ensures forall j :: 0 <= j < n ==> ds[j].index < Width(ds, n)
    ensures Width(ds, n) == 0 || exists j :: 0 <= j < n && ds[j].index == Width(ds, n) - 1
  {
    if n > 0 { WidthReads(ds, n - 1); }
  }

  // The i-th call of a batch as the response holds it: arguments are decoded, unless there are
  // none.
  lemma CallReads(decode: string -> Args, ds: seq<Delta>, i: nat)
    requires i < Width(ds, |ds|)
    ensures |ConvertAll(decode, CallsOf(ds))| == Width(ds, |ds|)
    ensures var c, raw := ConvertAll(decode, CallsOf(ds))[i], FlatMap(ArgsOf(i), ds, |ds|);
      && c.args == (if raw == "" then NilArgs else decode(raw))
      && (forall j: nat :: LastWithID(ds, i, j) ==> c.id == ds[j].id)
      && (forall j: nat :: LastNamed(ds, i, j) ==> c.name == ds[j].name)
      && ((forall j: nat :: !LastWithID(ds, i, j)) ==> c.id == "")
      && ((forall j: nat :: !LastNamed(ds, i, j)) ==> c.name == "")
  {
    ArgsRead(ds, i);
    NamelessReads(ds, i);
    forall j: nat
      ensures LastWithID(ds, i, j) ==> CallAt(ds, i).id == ds[j].id
      ensures LastNamed(ds, i, j) ==> CallAt(ds, i).name == ds[j].name
    {
      NamesRead(ds, i, j);
    }
  }

  // An answer that is not streamed, as the response holds it.
  lemma AnswerReads(decode: string -> Args, a: Answer, usage: Usage)
    ensures var r := Answered(decode, Completion(Some(a), usage));
      && r.usage == usage
      && r.message.role == Model && r.message.content == a.content && r.message.toolCallID == ""
      && |r.message.toolCalls| == |a.calls|
      && forall i :: 0 <= i < |a.calls| ==>
           r.message.toolCalls[i] ==
             ToolCall(a.calls[i].id, a.calls[i].name, if a.calls[i].args == "" then NilArgs else decode(a.calls[i].args))
    ensures Answered(decode, Completion(None, usage)) == Response(Message(Unset, "", "", []), usage)
  {
  }

  // An answer without choices is where the two paths part: the streamed message has role model,
  // the whole one Go's empty role.
  lemma NoChoiceDiffers(decode: string -> Args, es: seq<Event>, s: Stream, usage: Usage)
    requires Streams(decode, es, None, None, s)
    ensures FoldStream(s) != Reply(Answered(decode, Completion(None, usage)))
  {
  }

  lemma {:induction false} SameCourseSameLoop(c: nat -> Taken, d: nat -> Taken, k: nat, fuel: nat, log: seq<Message>)
    requires forall i: nat :: c(i) == d(i)
    ensures LoopOf(c, k, fuel, log) == LoopOf(d, k, fuel, log)
    decreases fuel
  {
    if fuel > 0 && c(k).end.None? {
      SameCourseSameLoop(c, d, k + 1, fuel - 1, log + c(k).round);
    }
  }

  lemma SameWorldSameLoop(w: World, v: World, k: nat, fuel: nat, log: seq<Message>)
    requires w.exec == v.exec && forall i: nat :: w.gen(i) == v.gen(i)
    ensures Loop(w, k, fuel, log) == Loop(v, k, fuel, log)
  {
    CourseFollows(w);
    CourseFollows(v);
    forall i: nat ensures Course(w)(i) == Course(v)(i) {
      assert FollowsAt(Course(w), w, i) && FollowsAt(Course(v), v, i);
      assert Execs(w, i) == Execs(v, i);
    }
    SameCourseSameLoop(Course(w), Course(v), k, fuel, log);
  }

  // Streaming refines not streaming: if every generation's stream carries the answer the plain
  // provider would give, the streaming loop ends with the same log, response and status.
  lemma StreamingRefinesPlain(
    decode: string -> Args, w: StreamWorld, events: nat -> seq<Event>,
    answers: nat -> Answer, usages: nat -> Usage, fuel: nat, log: seq<Message>)
    requires w.canStream
    requires forall k: nat :: Streams(decode, events(k), None, None, w.stream(k))
    requires forall k: nat :: Carries(events(k), answers(k), usages(k))
    ensures var plain := World((k: nat) => Reply(Answered(decode, Completion(Some(answers(k)), usages(k)))), w.exec);
      Loop(Folded(w), 0, fuel, log) == Loop(plain, 0, fuel, log)
  {
    var plain := World((k: nat) => Reply(Answered(decode, Completion(Some(answers(k)), usages(k)))), w.exec);
    forall k: nat ensures Folded(w).gen(k) == plain.gen(k) {
      StreamedEqualsWhole(decode, events(k), w.stream(k), answers(k), usages(k));
    }
    SameWorldSameLoop(Folded(w), plain, 0, fuel, log);
  }
}
