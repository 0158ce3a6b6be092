/** The chat display of pkg/chat/tui/tui.go. Lines are kept by what they show, unrendered. */
module ToolWindow {
  import opened Basics
  import opened Strings

  const MAX_TOOL_CALLS_PER_TURN := 4

  datatype Line =
    | Blank
    | You(input: string)
    | AgentLabel
    | Reply(content: string)
    | Note(message: string)
    | Tool(caption: string)
    | More(count: int)
    | Failure(message: string)
    | Interrupted

  // What reaches the display during a turn.
  datatype Event =
    | ToolCall(caption: string)
    | Inform(message: string)
    | Chunk(content: string)

  // ---- what a turn shows ------------------------------------------------------------------

  // The captions of the tool calls among the first i events, and the text of the chunks.
  function Calls(es: seq<Event>, i: nat): seq<string>
    requires i <= |es|
  {
    if i == 0 then []
    else if es[i - 1].ToolCall? then Calls(es, i - 1) + [es[i - 1].caption]
    else Calls(es, i - 1)
  }

  function Text(es: seq<Event>, i: nat): string
    requires i <= |es|
  {
    if i == 0 then ""
    else if es[i - 1].Chunk? then Text(es, i - 1) + es[i - 1].content
    else Text(es, i - 1)
  }

  function StreamLine(es: seq<Event>, i: nat): Line
    requires i <= |es|
  {
    if i == 0 then Blank
    else if es[i - 1].Chunk? then Reply(Text(es, i))
    else StreamLine(es, i - 1)
  }

  // A row of the turn: an inform line, or the place the k-th tool call opened.
  datatype Row = NoteRow(message: string) | ToolRow(number: nat)

  // Every inform opens a row, and so do the first five tool calls.
  function Rows(es: seq<Event>, i: nat): seq<Row>
    requires i <= |es|
  {
    if i == 0 then []
    else match es[i - 1]
      case Inform(m) => Rows(es, i - 1) + [NoteRow(m)]
      case ToolCall(_) =>
        var n := |Calls(es, i)|;
        if n <= MAX_TOOL_CALLS_PER_TURN + 1 then Rows(es, i - 1) + [ToolRow(n)] else Rows(es, i - 1)
      case Chunk(_) => Rows(es, i - 1)
  }

  // What a row shows once the turn has made these calls: while there are four or fewer, each
  // call its own; with more, the first row how many are left out, the other four the last four.
  function Shown(row: Row, calls: seq<string>): Line {
    match row
    case NoteRow(m) => Note(m)
    case ToolRow(k) =>
      var n := |calls|;
      if n <= 4 then if 1 <= k <= n then Tool(calls[k - 1]) else Blank
      else if k == 1 then More(n - 4)
      else if 2 <= k <= 5 then Tool(calls[n - 6 + k])
      else Blank
  }

  function AllShown(rows: seq<Row>, calls: seq<string>): (lines: seq<Line>)
    ensures |lines| == |rows|
    ensures forall p :: 0 <= p < |rows| ==> lines[p] == Shown(rows[p], calls)
  {
    seq(|rows|, p requires 0 <= p < |rows| => Shown(rows[p], calls))
  }

  // The display in the middle of a turn: the earlier lines, the prompt, the rows, the reply.
  function TurnHead(base: seq<Line>, input: string): seq<Line> {
    base + [You(input), AgentLabel]
  }

  function TurnDisplay(base: seq<Line>, input: string, es: seq<Event>, i: nat): seq<Line>
    requires i <= |es|
  {
    TurnHead(base, input) + AllShown(Rows(es, i), Calls(es, i)) + [StreamLine(es, i)]
  }

  // ---- where the slots are ----------------------------------------------------------------

  // Rows are numbered in order, up to the fifth call.
  predicate Numbered(rows: seq<Row>, n: nat) {
    && (forall p :: 0 <= p < |rows| && rows[p].ToolRow? ==> 1 <= rows[p].number <= Min(n, 5))
    && (forall p, q :: 0 <= p < q < |rows| && rows[p].ToolRow? && rows[q].ToolRow? ==>
          rows[p].number < rows[q].number)
  }

  predicate IsRow(rows: seq<Row>, off: nat, idx: int, k: nat) {
    off <= idx < off + |rows| && rows[idx - off] == ToolRow(k)
  }

  // The slots are at the rows of the last calls, the overflow line at the first row.
  predicate Placed(rows: seq<Row>, off: nat, slots: seq<int>, overflow: int, n: nat) {
    && |slots| == Min(n, 4)
    && (forall j :: 0 <= j < |slots| ==> IsRow(rows, off, slots[j], if n <= 4 then j + 1 else j + 2))
    && (if n <= 4 then overflow == -1 else IsRow(rows, off, overflow, 1))
  }

  lemma {:induction false} RowsNumbered(es: seq<Event>, i: nat)
    requires i <= |es|
    ensures Numbered(Rows(es, i), |Calls(es, i)|)
  {
    if i > 0 {
      RowsNumbered(es, i - 1);
    }
  }

  lemma SlotsIncrease(rows: seq<Row>, off: nat, slots: seq<int>, overflow: int, n: nat)
    requires Numbered(rows, n) && Placed(rows, off, slots, overflow, n)
    ensures forall i, j :: 0 <= i < j < |slots| ==> slots[i] < slots[j]
    ensures n > 4 ==> overflow < slots[0]
  {
    forall i, j | 0 <= i < j < |slots| ensures slots[i] < slots[j] {
      assert IsRow(rows, off, slots[i], if n <= 4 then i + 1 else i + 2);
      assert IsRow(rows, off, slots[j], if n <= 4 then j + 1 else j + 2);
    }
    if n > 4 {
      assert IsRow(rows, off, slots[0], 2);
    }
  }

  // ---- one event at a time ----------------------------------------------------------------

  lemma InsertedRow(head: seq<Line>, shown: seq<Line>, line: Line, stream: Line)
    ensures Inserted(head + shown + [stream], |head| + |shown|, line) == head + (shown + [line]) + [stream]
  {
  }

  lemma ShownOneMore(rows: seq<Row>, row: Row, calls: seq<string>)
    ensures AllShown(rows + [row], calls) == AllShown(rows, calls) + [Shown(row, calls)]
  {
  }

  lemma PlacedGrows(rows: seq<Row>, row: Row, off: nat, slots: seq<int>, overflow: int, n: nat)
    requires Placed(rows, off, slots, overflow, n)
    ensures Placed(rows + [row], off, slots, overflow, n)
  {
    forall j | 0 <= j < |slots|
      ensures IsRow(rows + [row], off, slots[j], if n <= 4 then j + 1 else j + 2)
    {
      assert IsRow(rows, off, slots[j], if n <= 4 then j + 1 else j + 2);
    }
  }

  // A call among the first four opens a row behind the others and leaves them as they are.
  lemma ShownFewCalls(rows: seq<Row>, calls: seq<string>, c: string)
    requires Numbered(rows, |calls|) && |calls| < 4
    ensures AllShown(rows + [ToolRow(|calls| + 1)], calls + [c]) == AllShown(rows, calls) + [Tool(c)]
  {
    ShownOneMore(rows, ToolRow(|calls| + 1), calls + [c]);
    assert AllShown(rows, calls + [c]) == AllShown(rows, calls);
  }

  lemma PlacedFewCalls(rows: seq<Row>, off: nat, slots: seq<int>, n: nat)
    requires Placed(rows, off, slots, -1, n) && n < 4
    ensures Placed(rows + [ToolRow(n + 1)], off, slots + [off + |rows|], -1, n + 1)
  {
    PlacedGrows(rows, ToolRow(n + 1), off, slots, -1, n);
  }

  // The fifth call turns the first row into the count and opens the last row.
  lemma ShownFifthCall(rows: seq<Row>, calls: seq<string>, c: string, p: nat)
    requires Numbered(rows, 4) && |calls| == 4
    requires p < |rows| && rows[p] == ToolRow(1)
    ensures AllShown(rows + [ToolRow(5)], calls + [c]) == AllShown(rows, calls)[p := More(1)] + [Tool(c)]
  {
    ShownOneMore(rows, ToolRow(5), calls + [c]);
    forall q | 0 <= q < |rows|
      ensures AllShown(rows, calls + [c])[q] == AllShown(rows, calls)[p := More(1)][q]
    {
      if q < p { assert rows[q].ToolRow? ==> rows[q].number < rows[p].number; }
      if p < q { assert rows[q].ToolRow? ==> rows[p].number < rows[q].number; }
    }
    assert AllShown(rows, calls + [c]) == AllShown(rows, calls)[p := More(1)];
  }

  lemma PlacedFifthCall(rows: seq<Row>, off: nat, slots: seq<int>)
    requires Placed(rows, off, slots, -1, 4)
    ensures Placed(rows + [ToolRow(5)], off, slots[1..] + [off + |rows|], slots[0], 5)
  {
    PlacedGrows(rows, ToolRow(5), off, slots, -1, 4);
    var rows', slots' := rows + [ToolRow(5)], slots[1..] + [off + |rows|];
    assert IsRow(rows', off, slots[0], 1);
    forall j | 0 <= j < 4 ensures IsRow(rows', off, slots'[j], j + 2) {
      if j < 3 { assert IsRow(rows', off, slots[j + 1], j + 2); }
    }
  }

  // Every further call shifts the four slots by one and raises the count.
  predicate Shifted(d: seq<Line>, d': seq<Line>, slots: seq<int>, overflow: int, line: Line, summary: Line) {
    && |d'| == |d| && |slots| == 4
    && (forall j :: 0 <= j < 4 ==> 0 <= slots[j] < |d|) && 0 <= overflow < |d|
    && (forall j :: 0 <= j < 3 ==> d'[slots[j]] == d[slots[j + 1]])
    && d'[slots[3]] == line && d'[overflow] == summary
    && (forall p :: 0 <= p < |d| && p !in slots && p != overflow ==> d'[p] == d[p])
  }

  lemma OneRowEach(rows: seq<Row>, n: nat, p: nat, q: nat)
    requires Numbered(rows, n) && p < |rows| && q < |rows|
    requires rows[p].ToolRow? && rows[p] == rows[q]
    ensures p == q
  {
  }

  lemma CellOf(d: seq<Line>, off: nat, lines: seq<Line>, q: nat)
    requires off + |lines| <= |d| && d[off..off + |lines|] == lines && q < |lines|
    ensures d[off + q] == lines[q]
  {
  }

  // What one cell of the region shows behind the shift: a note, the count, or a call.
  lemma ShiftedNote(rows: seq<Row>, off: nat, slots: seq<int>, overflow: int, n: nat,
      d: seq<Line>, d': seq<Line>, line: Line, summary: Line, p: nat)
    requires n > 4 && Placed(rows, off, slots, overflow, n)
    requires Shifted(d, d', slots, overflow, line, summary)
    requires p < |rows| && rows[p].NoteRow? && off + p < |d|
    ensures d'[off + p] == d[off + p]
  {
    forall j | 0 <= j < 4 ensures slots[j] != off + p {
      assert IsRow(rows, off, slots[j], j + 2);
    }
  }

  lemma SlotOf(rows: seq<Row>, off: nat, slots: seq<int>, overflow: int, n: nat, p: nat)
    requires n > 4 && Numbered(rows, n) && Placed(rows, off, slots, overflow, n)
    requires p < |rows| && rows[p].ToolRow? && rows[p].number > 1
    ensures var j := rows[p].number - 2;
      && j < 4 == |slots| && slots[j] == off + p
      && (j < 3 ==> IsRow(rows, off, slots[j + 1], j + 3))
  {
    var j := rows[p].number - 2;
    assert IsRow(rows, off, slots[j], j + 2);
    OneRowEach(rows, n, p, slots[j] - off);
    if j < 3 { assert IsRow(rows, off, slots[j + 1], j + 3); }
  }

  lemma NextCall(calls: seq<string>, c: string, k: nat)
    requires |calls| > 4 && 2 <= k <= 5
    ensures Shown(ToolRow(k), calls + [c]) == if k == 5 then Tool(c) else Shown(ToolRow(k + 1), calls)
  {
  }

  lemma ShiftedCall(rows: seq<Row>, calls: seq<string>, c: string, off: nat, slots: seq<int>,
      overflow: int, d: seq<Line>, d': seq<Line>, p: nat)
    requires |calls| > 4 && Numbered(rows, |calls|) && Placed(rows, off, slots, overflow, |calls|)
    requires off + |rows| < |d| && d[off..off + |rows|] == AllShown(rows, calls)
    requires Shifted(d, d', slots, overflow, Tool(c), More(|calls| - 3))
    requires p < |rows| && rows[p].ToolRow? && rows[p].number > 1
    ensures d'[off + p] == Shown(rows[p], calls + [c])
  {
    var j := rows[p].number - 2;
    SlotOf(rows, off, slots, overflow, |calls|, p);
    NextCall(calls, c, j + 2);
    if j < 3 {
      CellOf(d, off, AllShown(rows, calls), slots[j + 1] - off);
    }
  }

  lemma ShiftedCell(rows: seq<Row>, calls: seq<string>, c: string, off: nat, slots: seq<int>,
      overflow: int, d: seq<Line>, d': seq<Line>, p: nat)
    requires |calls| > 4 && Numbered(rows, |calls|) && Placed(rows, off, slots, overflow, |calls|)
    requires off + |rows| < |d| && d[off..off + |rows|] == AllShown(rows, calls)
    requires Shifted(d, d', slots, overflow, Tool(c), More(|calls| - 3))
    requires p < |rows|
    ensures d'[off + p] == Shown(rows[p], calls + [c])
  {
    CellOf(d, off, AllShown(rows, calls), p);
    if rows[p].NoteRow? {
      ShiftedNote(rows, off, slots, overflow, |calls|, d, d', Tool(c), More(|calls| - 3), p);
    } else if rows[p].number == 1 {
      OneRowEach(rows, |calls|, p, overflow - off);
    } else {
      ShiftedCall(rows, calls, c, off, slots, overflow, d, d', p);
    }
  }

  lemma OutsideCell(rows: seq<Row>, off: nat, slots: seq<int>, overflow: int, n: nat,
      d: seq<Line>, d': seq<Line>, line: Line, summary: Line, p: nat)
    requires n > 4 && Placed(rows, off, slots, overflow, n)
    requires Shifted(d, d', slots, overflow, line, summary)
    requires p < |d| && !(off <= p < off + |rows|)
    ensures d'[p] == d[p]
  {
    forall j | 0 <= j < 4 ensures slots[j] != p {
      assert IsRow(rows, off, slots[j], j + 2);
    }
  }

  lemma Parts(d: seq<Line>, head: seq<Line>, lines: seq<Line>, stream: Line)
    requires |d| == |head| + |lines| + 1
    requires forall p :: 0 <= p < |head| ==> d[p] == head[p]
    requires d[|head|..|head| + |lines|] == lines && d[|head| + |lines|] == stream
    ensures d == head + lines + [stream]
  {
    assert d[..|head|] == head;
  }

  lemma ShiftedRegion(rows: seq<Row>, calls: seq<string>, c: string, off: nat, slots: seq<int>,
      overflow: int, d: seq<Line>, d': seq<Line>)
    requires |calls| > 4 && Numbered(rows, |calls|) && Placed(rows, off, slots, overflow, |calls|)
    requires off + |rows| < |d| && d[off..off + |rows|] == AllShown(rows, calls)
    requires Shifted(d, d', slots, overflow, Tool(c), More(|calls| - 3))
    ensures d'[off..off + |rows|] == AllShown(rows, calls + [c])
  {
    forall p | 0 <= p < |rows| ensures d'[off + p] == Shown(rows[p], calls + [c]) {
      ShiftedCell(rows, calls, c, off, slots, overflow, d, d', p);
    }
  }

  lemma SplitDisplay(d: seq<Line>, head: seq<Line>, lines: seq<Line>, stream: Line)
    requires d == head + lines + [stream]
    ensures |d| == |head| + |lines| + 1
    ensures forall p :: 0 <= p < |head| ==> d[p] == head[p]
    ensures d[|head|..|head| + |lines|] == lines && d[|head| + |lines|] == stream
  {
  }

  // Outside the rows nothing is shifted.
  lemma OutsideKept(rows: seq<Row>, head: seq<Line>, slots: seq<int>, overflow: int, n: nat,
      d: seq<Line>, d': seq<Line>, line: Line, summary: Line)
    requires n > 4 && Placed(rows, |head|, slots, overflow, n)
    requires Shifted(d, d', slots, overflow, line, summary)
    requires |d| == |head| + |rows| + 1 && forall p :: 0 <= p < |head| ==> d[p] == head[p]
    ensures |d'| == |d| && d'[|d| - 1] == d[|d| - 1]
    ensures forall p :: 0 <= p < |head| ==> d'[p] == head[p]
  {
    forall p | 0 <= p < |head| ensures d'[p] == head[p] {
      OutsideCell(rows, |head|, slots, overflow, n, d, d', line, summary, p);
    }
    OutsideCell(rows, |head|, slots, overflow, n, d, d', line, summary, |d| - 1);
  }

  // The rows move, and nothing else does.
  lemma RowsMove(rows: seq<Row>, calls: seq<string>, c: string, head: seq<Line>, stream: Line,
      slots: seq<int>, overflow: int, d: seq<Line>, d': seq<Line>)
    requires |calls| > 4 && Numbered(rows, |calls|) && Placed(rows, |head|, slots, overflow, |calls|)
    requires d == head + AllShown(rows, calls) + [stream]
    requires Shifted(d, d', slots, overflow, Tool(c), More(|calls| - 3))
    ensures |d'| == |d| == |head| + |rows| + 1 && d'[|head| + |rows|] == stream
    ensures forall p :: 0 <= p < |head| ==> d'[p] == head[p]
    ensures d'[|head|..|head| + |rows|] == AllShown(rows, calls + [c])
  {
    SplitDisplay(d, head, AllShown(rows, calls), stream);
    assert d'[|head|..|head| + |rows|] == AllShown(rows, calls + [c]) by {
      ShiftedRegion(rows, calls, c, |head|, slots, overflow, d, d');
    }
    OutsideKept(rows, head, slots, overflow, |calls|, d, d', Tool(c), More(|calls| - 3));
  }

  lemma ShownFurtherCall(rows: seq<Row>, calls: seq<string>, c: string, head: seq<Line>, stream: Line,
      slots: seq<int>, overflow: int, d: seq<Line>, d': seq<Line>)
    requires |calls| > 4 && Numbered(rows, |calls|) && Placed(rows, |head|, slots, overflow, |calls|)
    requires d == head + AllShown(rows, calls) + [stream]
    requires Shifted(d, d', slots, overflow, Tool(c), More(|calls| - 3))
    ensures d' == head + AllShown(rows, calls + [c]) + [stream]
  {
    RowsMove(rows, calls, c, head, stream, slots, overflow, d, d');
    Parts(d', head, AllShown(rows, calls + [c]), stream);
  }

  // The fields of the model behind the first i events of a turn.
  ghost predicate TurnState(d: seq<Line>, stream: int, slots: seq<int>, overflow: int, count: nat,
      base: seq<Line>, input: string, es: seq<Event>, i: nat)
    requires i <= |es|
  {
    && d == TurnDisplay(base, input, es, i)
    && stream == |base| + 2 + |Rows(es, i)|
    && count == |Calls(es, i)|
    && Placed(Rows(es, i), |base| + 2, slots, overflow, count)
  }

  lemma TurnStarts(base: seq<Line>, input: string, es: seq<Event>)
    ensures TurnState(base + [You(input)] + [AgentLabel] + [Blank], |base| + 2, [], -1, 0, base, input, es, 0)
  {
  }

  lemma StreamInRange(d: seq<Line>, stream: int, slots: seq<int>, overflow: int, count: nat,
      base: seq<Line>, input: string, es: seq<Event>, i: nat)
    requires i <= |es| && TurnState(d, stream, slots, overflow, count, base, input, es, i)
    ensures 0 <= stream == |d| - 1
    ensures |slots| == Min(count, 4) && (overflow == -1 <==> count <= 4)
    ensures forall j :: 0 <= j < |slots| ==> 0 <= slots[j] < stream
    ensures forall j, k :: 0 <= j < k < |slots| ==> slots[j] < slots[k]
    ensures count > 4 ==> 0 <= overflow < slots[0]
  {
    RowsNumbered(es, i);
    SlotsIncrease(Rows(es, i), |base| + 2, slots, overflow, count);
    forall j | 0 <= j < |slots| ensures 0 <= slots[j] < stream {
      assert IsRow(Rows(es, i), |base| + 2, slots[j], if count <= 4 then j + 1 else j + 2);
    }
  }

  lemma FewCallsStep(d: seq<Line>, stream: int, slots: seq<int>, count: nat,
      base: seq<Line>, input: string, es: seq<Event>, i: nat)
    requires i < |es| && es[i].ToolCall? && count < 4
    requires TurnState(d, stream, slots, -1, count, base, input, es, i)
    ensures 0 <= stream < |d|
    ensures TurnState(Inserted(d, stream, Tool(es[i].caption)), stream + 1, slots + [stream], -1, count + 1,
                      base, input, es, i + 1)
  {
    var rows, calls, c := Rows(es, i), Calls(es, i), es[i].caption;
    RowsNumbered(es, i);
    InsertedRow(TurnHead(base, input), AllShown(rows, calls), Tool(c), StreamLine(es, i));
    ShownFewCalls(rows, calls, c);
    PlacedFewCalls(rows, |base| + 2, slots, |calls|);
  }

  lemma UpdatedRow(head: seq<Line>, shown: seq<Line>, p: nat, line: Line, stream: Line)
    requires p < |shown|
    ensures (head + shown + [stream])[|head| + p := line] == head + shown[p := line] + [stream]
  {
  }

  lemma FifthCallStep(d: seq<Line>, stream: int, slots: seq<int>,
      base: seq<Line>, input: string, es: seq<Event>, i: nat)
    requires i < |es| && es[i].ToolCall?
    requires TurnState(d, stream, slots, -1, 4, base, input, es, i)
    ensures 0 <= stream < |d| && 0 <= slots[0] < |d|
    ensures TurnState(Inserted(d[slots[0] := More(1)], stream, Tool(es[i].caption)), stream + 1,
                      slots[1..] + [stream], slots[0], 5, base, input, es, i + 1)
  {
    var rows, calls, c, off := Rows(es, i), Calls(es, i), es[i].caption, |base| + 2;
    var head := TurnHead(base, input);
    assert IsRow(rows, off, slots[0], 1);
    var p := slots[0] - off;
    RowsNumbered(es, i);
    UpdatedRow(head, AllShown(rows, calls), p, More(1), StreamLine(es, i));
    InsertedRow(head, AllShown(rows, calls)[p := More(1)], Tool(c), StreamLine(es, i));
    ShownFifthCall(rows, calls, c, p);
    PlacedFifthCall(rows, off, slots);
  }

  lemma FurtherCallStep(d: seq<Line>, d': seq<Line>, stream: int, slots: seq<int>, overflow: int, count: nat,
      base: seq<Line>, input: string, es: seq<Event>, i: nat)
    requires i < |es| && es[i].ToolCall? && count > 4
    requires TurnState(d, stream, slots, overflow, count, base, input, es, i)
    requires Shifted(d, d', slots, overflow, Tool(es[i].caption), More(count - 3))
    ensures TurnState(d', stream, slots, overflow, count + 1, base, input, es, i + 1)
  {
    RowsNumbered(es, i);
    ShownFurtherCall(Rows(es, i), Calls(es, i), es[i].caption, TurnHead(base, input), StreamLine(es, i),
                     slots, overflow, d, d');
  }

  lemma InformStep(d: seq<Line>, stream: int, slots: seq<int>, overflow: int, count: nat,
      base: seq<Line>, input: string, es: seq<Event>, i: nat)
    requires i < |es| && es[i].Inform?
    requires TurnState(d, stream, slots, overflow, count, base, input, es, i)
    ensures 0 <= stream < |d|
    ensures TurnState(Inserted(d, stream, Note(es[i].message)), stream + 1, slots, overflow, count,
                      base, input, es, i + 1)
  {
    var rows, calls, row := Rows(es, i), Calls(es, i), NoteRow(es[i].message);
    InsertedRow(TurnHead(base, input), AllShown(rows, calls), Shown(row, calls), StreamLine(es, i));
    ShownOneMore(rows, row, calls);
    PlacedGrows(rows, row, |base| + 2, slots, overflow, |calls|);
  }

  // ---- the model --------------------------------------------------------------------------

  class Model {
    var display: seq<Line>
    var toolCallsThisTurn: nat
    var toolCallSlotIdxs: seq<int>
    var toolCallOverflowIdx: int
    var streamIdx: int
    var streamContent: string
    var loading: bool
    var sessionID: string

    constructor ()
      ensures display == [] && !loading && sessionID == ""
    {
      display, toolCallsThisTurn, toolCallSlotIdxs := [], 0, [];
      toolCallOverflowIdx, streamIdx := -1, 0;
      streamContent, loading, sessionID := "", false, "";
    }

    // The daemon has opened a session.
    method SessionCreated(session: string)
      modifies this`sessionID
      ensures sessionID == session
    {
      sessionID := session;
    }

    // The state behind the first i events of a turn.
    ghost predicate InTurn(base: seq<Line>, input: string, es: seq<Event>, i: nat)
      requires i <= |es|
      reads this
    {
      && loading
      && TurnState(display, streamIdx, toolCallSlotIdxs, toolCallOverflowIdx, toolCallsThisTurn,
                   base, input, es, i)
      && streamContent == Text(es, i)
    }

    method AppendDisplay(line: Line)
      modifies this`display
      ensures display == old(display) + [line]
    {
      display := display + [line];
    }

    method InsertDisplayBeforeStream(line: Line) returns (at: int)
      modifies this`display, this`streamIdx
      ensures var i, d := old(streamIdx), old(display);
        if 0 <= i < |d|
        then display == d[..i] + [line] + d[i..] && streamIdx == i + 1 && at == i
        else display == d + [line] && streamIdx == i && at == |d|
    {
      var idx := streamIdx;
      if idx < 0 || idx >= |display| {
        AppendDisplay(line);
        return |display| - 1;
      }
      var d := display;
      display := display + [Blank];
      display := display[..idx + 1] + d[idx..];
      display := display[idx := line];
      streamIdx := streamIdx + 1;
      at := idx;
    }

    // Enter, once the input is accepted.
    method StartTurn(input: string, ghost es: seq<Event>)
      modifies this
      ensures InTurn(old(display), input, es, 0) && sessionID == old(sessionID)
    {
      TurnStarts(display, input, es);
      AppendDisplay(You(input));
      AppendDisplay(AgentLabel);
      AppendDisplay(Blank);
      streamIdx := |display| - 1;
      streamContent := "";
      toolCallsThisTurn := 0;
      toolCallSlotIdxs := [];
      toolCallOverflowIdx := -1;
      loading := true;
    }

    method Enter(value: string, ghost es: seq<Event>) returns (sent: bool)
      modifies this
      ensures sent == (!old(loading) && sessionID != "" && Trim(Space, value) != "")
      ensures sessionID == old(sessionID)
      ensures sent ==> InTurn(old(display), Trim(Space, value), es, 0)
      ensures !sent ==> unchanged(this)
    {
      if loading || sessionID == "" {
        return false;
      }
      var input := Trim(Space, value);
      if input == "" {
        return false;
      }
      StartTurn(input, es);
      sent := true;
    }

    // While a turn is running a note goes above the reply, otherwise at the end.
    method Inform(message: string)
      modifies this`display, this`streamIdx
      ensures if old(loading) && 0 <= old(streamIdx) < |old(display)|
        then display == Inserted(old(display), old(streamIdx), Note(message)) && streamIdx == old(streamIdx) + 1
        else display == old(display) + [Note(message)] && streamIdx == old(streamIdx)
    {
      if loading && streamIdx != -1 {
        var _ := InsertDisplayBeforeStream(Note(message));
      } else {
        AppendDisplay(Note(message));
      }
    }

    method InformInTurn(message: string, ghost base: seq<Line>, ghost input: string,
        ghost es: seq<Event>, ghost i: nat)
      requires i < |es| && es[i] == Event.Inform(message) && InTurn(base, input, es, i)
      modifies this`display, this`streamIdx
      ensures InTurn(base, input, es, i + 1)
    {
      InformStep(display, streamIdx, toolCallSlotIdxs, toolCallOverflowIdx, toolCallsThisTurn, base, input, es, i);
      Inform(message);
    }

    method ChunkInTurn(content: string, ghost base: seq<Line>, ghost input: string,
        ghost es: seq<Event>, ghost i: nat)
      requires i < |es| && es[i] == Chunk(content) && InTurn(base, input, es, i)
      modifies this`display, this`streamContent
      ensures InTurn(base, input, es, i + 1)
    {
      streamContent := streamContent + content;
      display := display[streamIdx := Reply(streamContent)];
    }

    // A window of four: every slot takes over what the next one shows.
    method ShiftSlots(rendered: Line, summary: Line)
      requires |toolCallSlotIdxs| == 4
      requires forall i, j :: 0 <= i < j < 4 ==> toolCallSlotIdxs[i] < toolCallSlotIdxs[j]
      requires 0 <= toolCallOverflowIdx < toolCallSlotIdxs[0] && toolCallSlotIdxs[3] < |display|
      modifies this`display
      ensures Shifted(old(display), display, toolCallSlotIdxs, toolCallOverflowIdx, rendered, summary)
    {
      var slots := toolCallSlotIdxs;
      for i := 0 to |slots| - 1
        invariant |display| == |old(display)|
        invariant forall j :: 0 <= j < i ==> display[slots[j]] == old(display)[slots[j + 1]]
        invariant forall p :: 0 <= p < |display| && p !in slots[..i] ==> display[p] == old(display)[p]
      {
        display := display[slots[i] := display[slots[i + 1]]];
      }
      display := display[slots[|slots| - 1] := rendered];
      display := display[toolCallOverflowIdx := summary];
    }

    // The first four calls.
    method OpenSlot(rendered: Line)
      requires 0 <= streamIdx < |display|
      modifies this`display, this`streamIdx, this`toolCallSlotIdxs
      ensures display == Inserted(old(display), old(streamIdx), rendered)
      ensures streamIdx == old(streamIdx) + 1
      ensures toolCallSlotIdxs == old(toolCallSlotIdxs) + [old(streamIdx)]
    {
      var idx := InsertDisplayBeforeStream(rendered);
      toolCallSlotIdxs := toolCallSlotIdxs + [idx];
    }

    // The fifth: the first slot becomes the overflow line.
    method OpenOverflow(rendered: Line, summary: Line)
      requires toolCallSlotIdxs != [] && 0 <= toolCallSlotIdxs[0] < |display|
      requires 0 <= streamIdx < |display|
      modifies this`display, this`streamIdx, this`toolCallSlotIdxs, this`toolCallOverflowIdx
      ensures toolCallOverflowIdx == old(toolCallSlotIdxs[0])
      ensures display == Inserted(old(display)[toolCallOverflowIdx := summary], old(streamIdx), rendered)
      ensures streamIdx == old(streamIdx) + 1
      ensures toolCallSlotIdxs == old(toolCallSlotIdxs)[1..] + [old(streamIdx)]
    {
      toolCallOverflowIdx := toolCallSlotIdxs[0];
      display := display[toolCallOverflowIdx := summary];
      var idx := InsertDisplayBeforeStream(rendered);
      toolCallSlotIdxs := toolCallSlotIdxs[1..] + [idx];
    }

    // A call beyond the fourth.
    method Overflow(rendered: Line, ghost base: seq<Line>, ghost input: string,
        ghost es: seq<Event>, ghost i: nat)
      requires i < |es| && es[i].ToolCall? && rendered == Tool(es[i].caption) && toolCallsThisTurn > 4
      requires TurnState(display, streamIdx, toolCallSlotIdxs, toolCallOverflowIdx, toolCallsThisTurn - 1,
                         base, input, es, i)
      modifies this`display, this`streamIdx, this`toolCallSlotIdxs, this`toolCallOverflowIdx
      ensures TurnState(display, streamIdx, toolCallSlotIdxs, toolCallOverflowIdx, toolCallsThisTurn,
                        base, input, es, i + 1)
    {
      ghost var d, count := display, toolCallsThisTurn - 1;
      StreamInRange(d, streamIdx, toolCallSlotIdxs, toolCallOverflowIdx, count, base, input, es, i);
      var summary := More(toolCallsThisTurn - MAX_TOOL_CALLS_PER_TURN);
      if toolCallOverflowIdx == -1 {
        FifthCallStep(d, streamIdx, toolCallSlotIdxs, base, input, es, i);
        OpenOverflow(rendered, summary);
      } else {
        ShiftSlots(rendered, summary);
        FurtherCallStep(d, display, streamIdx, toolCallSlotIdxs, toolCallOverflowIdx, count, base, input, es, i);
      }
    }

    method ToolCallInTurn(caption: string, ghost base: seq<Line>, ghost input: string,
        ghost es: seq<Event>, ghost i: nat)
      requires i < |es| && es[i] == Event.ToolCall(caption) && InTurn(base, input, es, i)
      modifies this`display, this`streamIdx, this`toolCallSlotIdxs, this`toolCallOverflowIdx,
        this`toolCallsThisTurn
      ensures InTurn(base, input, es, i + 1)
    {
      assert Text(es, i + 1) == Text(es, i);
      var rendered := Tool(caption);
      toolCallsThisTurn := toolCallsThisTurn + 1;
      if toolCallsThisTurn <= MAX_TOOL_CALLS_PER_TURN {
        FewCallsStep(display, streamIdx, toolCallSlotIdxs, toolCallsThisTurn - 1, base, input, es, i);
        OpenSlot(rendered);
      } else {
        Overflow(rendered, base, input, es, i);
      }
    }

    method Handle(e: Event, ghost base: seq<Line>, ghost input: string, ghost es: seq<Event>, ghost i: nat)
      requires i < |es| && es[i] == e && InTurn(base, input, es, i)
      modifies this
      ensures InTurn(base, input, es, i + 1) && sessionID == old(sessionID)
    {
      match e
      case ToolCall(caption) => ToolCallInTurn(caption, base, input, es, i);
      case Inform(message) => InformInTurn(message, base, input, es, i);
      case Chunk(content) => ChunkInTurn(content, base, input, es, i);
    }

    method StreamDone(content: string, session: string)
      requires content != "" ==> 0 <= streamIdx < |display|
      modifies this`display, this`streamContent, this`loading, this`sessionID
      ensures !loading && streamContent == ""
      ensures display == if content != "" then old(display)[old(streamIdx) := Reply(content)] else old(display)
      ensures sessionID == if session != "" then session else old(sessionID)
    {
      loading := false;
      if session != "" {
        sessionID := session;
      }
      if content != "" {
        display := display[streamIdx := Reply(content)];
      }
      streamContent := "";
    }

    method AgentError(line: Line)
      modifies this`display, this`loading
      ensures !loading && display == old(display) + [line]
    {
      loading := false;
      AppendDisplay(line);
    }
  }

  // ---- the window -------------------------------------------------------------------------

  function Messages(es: seq<Event>, i: nat): seq<string>
    requires i <= |es|
  {
    if i == 0 then []
    else if es[i - 1].Inform? then Messages(es, i - 1) + [es[i - 1].message]
    else Messages(es, i - 1)
  }

  // The notes among the first n lines.
  function Notes(lines: seq<Line>, n: nat): seq<string>
    requires n <= |lines|
  {
    if n == 0 then []
    else if lines[n - 1].Note? then Notes(lines, n - 1) + [lines[n - 1].message]
    else Notes(lines, n - 1)
  }

  lemma {:induction false} NotesPrefix(a: seq<Line>, b: seq<Line>, n: nat)
    requires n <= |a| && n <= |b| && forall p :: 0 <= p < n ==> a[p] == b[p]
    ensures Notes(a, n) == Notes(b, n)
  {
    if n > 0 { NotesPrefix(a, b, n - 1); }
  }

  lemma {:induction false} NotesShown(es: seq<Event>, i: nat, calls: seq<string>)
    requires i <= |es|
    ensures Notes(AllShown(Rows(es, i), calls), |Rows(es, i)|) == Messages(es, i)
  {
    if i > 0 {
      NotesShown(es, i - 1, calls);
      var rows, rows' := Rows(es, i - 1), Rows(es, i);
      if |rows'| > |rows| {
        NotesPrefix(AllShown(rows, calls), AllShown(rows', calls), |rows|);
      }
    }
  }

  lemma WindowCell(d: seq<Line>, base: seq<Line>, input: string, es: seq<Event>, i: nat, p: nat)
    requires i <= |es| && d == TurnDisplay(base, input, es, i) && p < |Rows(es, i)|
    ensures |base| + 2 + p < |d| && d[|base| + 2 + p] == Shown(Rows(es, i)[p], Calls(es, i))
  {
    var lines := AllShown(Rows(es, i), Calls(es, i));
    assert d[|base| + 2..|base| + 2 + |lines|] == lines;
    CellOf(d, |base| + 2, lines, p);
  }

  lemma SlotShows(d: seq<Line>, stream: int, slots: seq<int>, overflow: int, n: nat,
      base: seq<Line>, input: string, es: seq<Event>, i: nat, j: nat)
    requires i <= |es| && TurnState(d, stream, slots, overflow, n, base, input, es, i)
    requires j < |slots| && stream == |d| - 1
    ensures |base| + 2 <= slots[j] < stream && d[slots[j]] == Tool(Calls(es, i)[n - |slots| + j])
  {
    assert IsRow(Rows(es, i), |base| + 2, slots[j], if n <= 4 then j + 1 else j + 2);
    WindowCell(d, base, input, es, i, slots[j] - |base| - 2);
  }

  lemma OverflowShows(d: seq<Line>, stream: int, slots: seq<int>, overflow: int, n: nat,
      base: seq<Line>, input: string, es: seq<Event>, i: nat)
    requires i <= |es| && TurnState(d, stream, slots, overflow, n, base, input, es, i)
    requires n > 4
    ensures |base| + 2 <= overflow < |d| && d[overflow] == More(n - 4)
  {
    assert IsRow(Rows(es, i), |base| + 2, overflow, 1);
    WindowCell(d, base, input, es, i, overflow - |base| - 2);
  }

  // At every point of a turn the lines of earlier turns are as they were, the reply is last, and
  // every note of the turn is there, in order.
  lemma NothingElseMoves(d: seq<Line>, stream: int, slots: seq<int>, overflow: int, n: nat,
      base: seq<Line>, input: string, es: seq<Event>, i: nat)
    requires i <= |es| && TurnState(d, stream, slots, overflow, n, base, input, es, i)
    ensures |base| + 2 <= stream == |d| - 1 && d[..|base|] == base && d[stream] == StreamLine(es, i)
    ensures Notes(d[|base| + 2..stream], stream - |base| - 2) == Messages(es, i)
  {
    var lines := AllShown(Rows(es, i), Calls(es, i));
    assert d[|base| + 2..|base| + 2 + |lines|] == lines;
    NotesShown(es, i, Calls(es, i));
  }

  // With n tool calls so far: the slots are in order above the reply and show the last four
  // calls in order, or all if there are no more; with more than four, the overflow line stands
  // above them and says n - 4.
  lemma SlidingWindow(d: seq<Line>, stream: int, slots: seq<int>, overflow: int, n: nat,
      base: seq<Line>, input: string, es: seq<Event>, i: nat)
    requires i <= |es| && TurnState(d, stream, slots, overflow, n, base, input, es, i)
    ensures n == |Calls(es, i)| && |slots| == Min(n, 4) && stream < |d|
    ensures forall j, k :: 0 <= j < k < |slots| ==> slots[j] < slots[k]
    ensures forall j :: 0 <= j < |slots| ==>
      |base| + 2 <= slots[j] < stream && d[slots[j]] == Tool(Calls(es, i)[n - |slots| + j])
    ensures n <= 4 <==> overflow == -1
    ensures n > 4 ==> |base| + 2 <= overflow < slots[0] && d[overflow] == More(n - 4)
  {
    StreamInRange(d, stream, slots, overflow, n, base, input, es, i);
    forall j | 0 <= j < |slots|
      ensures |base| + 2 <= slots[j] < stream && d[slots[j]] == Tool(Calls(es, i)[n - |slots| + j])
    {
      SlotShows(d, stream, slots, overflow, n, base, input, es, i, j);
    }
    if n > 4 { OverflowShows(d, stream, slots, overflow, n, base, input, es, i); }
  }

  // ---- the window in terms of the events --------------------------------------------------

  lemma CallsAdd(es: seq<Event>, k: nat)
    requires k < |es|
    ensures Calls(es, k + 1) == Calls(es, k) + if es[k].ToolCall? then [es[k].caption] else []
    ensures Text(es, k + 1) == Text(es, k) + if es[k].Chunk? then es[k].content else ""
    ensures Messages(es, k + 1) == Messages(es, k) + if es[k].Inform? then [es[k].message] else []
  {
    Assoc(Calls(es, k), [], []);
    Assoc(Text(es, k), [], []);
    Assoc(Messages(es, k), [], []);
  }

  lemma CallsAre(es: seq<Event>, i: nat, caption: Event -> seq<string>)
    requires i <= |es|
    requires forall e: Event :: caption(e) == if e.ToolCall? then [e.caption] else []
    ensures Calls(es, i) == FlatMap(caption, es, i)
  {
    var h := (k: nat) => if k <= |es| then Calls(es, k) else [];
    forall k: nat ensures AddsAt(h, caption, es, k) { if k < |es| { CallsAdd(es, k); } }
    FlatMapIs(h, caption, es, i);
  }

  lemma TextIs(es: seq<Event>, i: nat, said: Event -> string)
    requires i <= |es|
    requires forall e: Event :: said(e) == if e.Chunk? then e.content else ""
    ensures Text(es, i) == FlatMap(said, es, i)
  {
    var h := (k: nat) => if k <= |es| then Text(es, k) else [];
    forall k: nat ensures AddsAt(h, said, es, k) { if k < |es| { CallsAdd(es, k); } }
    FlatMapIs(h, said, es, i);
  }

  predicate Spoken(es: seq<Event>, i: nat)
    requires i <= |es|
  {
    exists k :: 0 <= k < i && es[k].Chunk?
  }

  lemma SilentStep(es: seq<Event>, i: nat)
    requires i < |es| && !es[i].Chunk?
    ensures StreamLine(es, i + 1) == StreamLine(es, i) && Text(es, i + 1) == Text(es, i)
    ensures Spoken(es, i + 1) <==> Spoken(es, i)
  {
  }

  lemma {:induction false} StreamLineIs(es: seq<Event>, i: nat)
    requires i <= |es|
    ensures StreamLine(es, i) == if Spoken(es, i) then Reply(Text(es, i)) else Blank
  {
    if i > 0 && !es[i - 1].Chunk? {
      StreamLineIs(es, i - 1);
      SilentStep(es, i - 1);
    }
  }

  lemma MessagesAre(es: seq<Event>, i: nat, message: Event -> seq<string>)
    requires i <= |es|
    requires forall e: Event :: message(e) == if e.Inform? then [e.message] else []
    ensures Messages(es, i) == FlatMap(message, es, i)
  {
    var h := (k: nat) => if k <= |es| then Messages(es, k) else [];
    forall k: nat ensures AddsAt(h, message, es, k) { if k < |es| { CallsAdd(es, k); } }
    FlatMapIs(h, message, es, i);
  }

  lemma NotesAdd(lines: seq<Line>, k: nat)
    requires k < |lines|
    ensures Notes(lines, k + 1) == Notes(lines, k) + if lines[k].Note? then [lines[k].message] else []
  {
    Assoc(Notes(lines, k), [], []);
  }

  lemma NotesAre(lines: seq<Line>, n: nat, note: Line -> seq<string>)
    requires n <= |lines|
    requires forall l: Line :: note(l) == if l.Note? then [l.message] else []
    ensures Notes(lines, n) == FlatMap(note, lines, n)
  {
    var h := (k: nat) => if k <= |lines| then Notes(lines, k) else [];
    forall k: nat ensures AddsAt(h, note, lines, k) { if k < |lines| { NotesAdd(lines, k); } }
    FlatMapIs(h, note, lines, n);
  }

  // The slots in terms of the captions of the tool calls there were, in order.
  lemma SlotsShowCaptions(d: seq<Line>, stream: int, slots: seq<int>, overflow: int, n: nat,
      base: seq<Line>, input: string, es: seq<Event>, i: nat, caption: Event -> seq<string>)
    requires i <= |es| && TurnState(d, stream, slots, overflow, n, base, input, es, i)
    requires forall e: Event :: caption(e) == if e.ToolCall? then [e.caption] else []
    ensures n == |FlatMap(caption, es, i)| && |slots| == Min(n, 4) && stream < |d|
    ensures forall j :: 0 <= j < |slots| ==>
      0 <= slots[j] < stream && d[slots[j]] == Tool(FlatMap(caption, es, i)[n - |slots| + j])
  {
    SlidingWindow(d, stream, slots, overflow, n, base, input, es, i);
    CallsAre(es, i, caption);
  }

  // Behind the earlier lines stand what was typed and the agent's label; the last line is the
  // reply: everything the chunks said so far, in order, or nothing yet.
  lemma ReplyIsJoined(d: seq<Line>, stream: int, slots: seq<int>, overflow: int, n: nat,
      base: seq<Line>, input: string, es: seq<Event>, i: nat, said: Event -> string)
    requires i <= |es| && TurnState(d, stream, slots, overflow, n, base, input, es, i)
    requires forall e: Event :: said(e) == if e.Chunk? then e.content else ""
    ensures |base| + 2 <= stream == |d| - 1
    ensures d[..|base|] == base && d[|base|] == You(input) && d[|base| + 1] == AgentLabel
    ensures d[stream] ==
      if exists k :: 0 <= k < i && es[k].Chunk? then Reply(FlatMap(said, es, i)) else Blank
  {
    NothingElseMoves(d, stream, slots, overflow, n, base, input, es, i);
    StreamLineIs(es, i);
    TextIs(es, i, said);
    assert d[..|base| + 2] == TurnHead(base, input);
    assert d[|base|] == TurnHead(base, input)[|base|] && d[|base| + 1] == TurnHead(base, input)[|base| + 1];
  }

  // The rows of the turn are between the agent's label and the reply.
  lemma RowsOfTurn(d: seq<Line>, stream: int, slots: seq<int>, overflow: int, n: nat,
      base: seq<Line>, input: string, es: seq<Event>, i: nat) returns (rows: seq<Line>)
    requires i <= |es| && TurnState(d, stream, slots, overflow, n, base, input, es, i)
    ensures |base| + 2 <= stream < |d| && rows == d[|base| + 2..stream]
    ensures Notes(rows, |rows|) == Messages(es, i)
  {
    NothingElseMoves(d, stream, slots, overflow, n, base, input, es, i);
    rows := d[|base| + 2..stream];
  }

  // The notes among them are the messages the turn was informed of, in order.
  lemma NotesAreMessages(d: seq<Line>, stream: int, slots: seq<int>, overflow: int, n: nat,
      base: seq<Line>, input: string, es: seq<Event>, i: nat,
      note: Line -> seq<string>, message: Event -> seq<string>) returns (rows: seq<Line>)
    requires i <= |es| && TurnState(d, stream, slots, overflow, n, base, input, es, i)
    requires forall l: Line :: note(l) == if l.Note? then [l.message] else []
    requires forall e: Event :: message(e) == if e.Inform? then [e.message] else []
    ensures |base| + 2 <= stream < |d| && rows == d[|base| + 2..stream]
    ensures FlatMap(note, rows, |rows|) == FlatMap(message, es, i)
  {
    rows := RowsOfTurn(d, stream, slots, overflow, n, base, input, es, i);
    SameNotes(rows, |rows|, es, i, note, message);
  }

  lemma SameNotes(rows: seq<Line>, k: nat, es: seq<Event>, i: nat,
      note: Line -> seq<string>, message: Event -> seq<string>)
    requires k <= |rows| && i <= |es| && Notes(rows, k) == Messages(es, i)
    requires forall l: Line :: note(l) == if l.Note? then [l.message] else []
    requires forall e: Event :: message(e) == if e.Inform? then [e.message] else []
    ensures FlatMap(note, rows, k) == FlatMap(message, es, i)
  {
    NotesAre(rows, k, note);
    MessagesAre(es, i, message);
  }

  // ---- a whole chat -----------------------------------------------------------------------

  datatype Ending =
    | Done(content: string, session: string)
    | Failed(message: string)
    | Canceled

  // What is typed, what happens, how it ends, and the informs that come while nothing runs.
  datatype Turn = Turn(value: string, events: seq<Event>, ending: Ending, idle: seq<string>)

  function LastLines(es: seq<Event>, ending: Ending): seq<Line> {
    var reply := StreamLine(es, |es|);
    match ending
    case Done(content, _) => [if content != "" then Reply(content) else reply]
    case Failed(m) => [reply, Failure(m)]
    case Canceled => [reply, Interrupted]
  }

  function TurnLines(input: string, es: seq<Event>, ending: Ending): seq<Line> {
    [You(input), AgentLabel] + AllShown(Rows(es, |es|), Calls(es, |es|)) + LastLines(es, ending)
  }

  function NoteLines(messages: seq<string>, n: nat): seq<Line>
    requires n <= |messages|
  {
    if n == 0 then [] else NoteLines(messages, n - 1) + [Note(messages[n - 1])]
  }

  // What a turn adds to the display; nothing but blanks typed starts none.
  function Block(turn: Turn): seq<Line> {
    var input := Trim(Space, turn.value);
    (if input == "" then [] else TurnLines(input, turn.events, turn.ending))
    + NoteLines(turn.idle, |turn.idle|)
  }

  function Blocks(turns: seq<Turn>, n: nat): seq<Line>
    requires n <= |turns|
  {
    if n == 0 then [] else Blocks(turns, n - 1) + Block(turns[n - 1])
  }

  lemma TurnEnds(base: seq<Line>, input: string, es: seq<Event>, ending: Ending)
    ensures var d := TurnDisplay(base, input, es, |es|); var stream := |base| + 2 + |Rows(es, |es|)|;
      && stream < |d|
      && base + TurnLines(input, es, ending) ==
        match ending
        case Done(content, _) => if content != "" then d[stream := Reply(content)] else d
        case Failed(m) => d + [Failure(m)]
        case Canceled => d + [Interrupted]
  {
  }

  method RunTurn(m: Model, input: string, es: seq<Event>, ending: Ending, ghost base: seq<Line>)
    requires m.InTurn(base, input, es, 0)
    modifies m
    ensures m.display == base + TurnLines(input, es, ending) && !m.loading
    ensures m.sessionID == if ending.Done? && ending.session != "" then ending.session else old(m.sessionID)
  {
    for i := 0 to |es|
      invariant m.InTurn(base, input, es, i) && m.sessionID == old(m.sessionID)
    {
      m.Handle(es[i], base, input, es, i);
    }
    TurnEnds(base, input, es, ending);
    match ending
    case Done(content, session) => m.StreamDone(content, session);
    case Failed(message) => m.AgentError(Failure(message));
    case Canceled => m.AgentError(Interrupted);
  }

  method InformIdle(m: Model, messages: seq<string>)
    requires !m.loading
    modifies m`display, m`streamIdx
    ensures m.display == old(m.display) + NoteLines(messages, |messages|)
  {
    for i := 0 to |messages|
      invariant m.display == old(m.display) + NoteLines(messages, i)
    {
      m.Inform(messages[i]);
    }
  }

  method TakeTurn(m: Model, turn: Turn)
    requires !m.loading && m.sessionID != ""
    modifies m
    ensures m.display == old(m.display) + Block(turn)
    ensures !m.loading && m.sessionID != ""
  {
    ghost var base := m.display;
    var input := Trim(Space, turn.value);
    var sent := m.Enter(turn.value, turn.events);
    if sent {
      RunTurn(m, input, turn.events, turn.ending, base);
    }
    ghost var shown := if sent then TurnLines(input, turn.events, turn.ending) else [];
    assert m.display == base + shown;
    InformIdle(m, turn.idle);
    Assoc(base, shown, NoteLines(turn.idle, |turn.idle|));
  }

  // Over a whole chat the display only grows, turn by turn: what earlier turns left is intact.
  method Chat(m: Model, turns: seq<Turn>)
    requires !m.loading && m.sessionID != ""
    modifies m
    ensures m.display == old(m.display) + Blocks(turns, |turns|) && !m.loading
  {
    for i := 0 to |turns|
      invariant m.display == old(m.display) + Blocks(turns, i)
      invariant !m.loading && m.sessionID != ""
    {
      TakeTurn(m, turns[i]);
      Assoc(old(m.display), Blocks(turns, i), Block(turns[i]));
    }
  }

  // From the start: an empty display, the session the daemon opens, and the chat.
  method Start(session: string, turns: seq<Turn>) returns (m: Model)
    requires session != ""
    ensures fresh(m) && m.display == Blocks(turns, |turns|) && !m.loading
  {
    m := new Model();
    m.SessionCreated(session);
    Chat(m, turns);
    Assoc([], Blocks(turns, |turns|), []);
  }
}
