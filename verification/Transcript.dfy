/** formatTranscript of pkg/agent/memory.go. */
module Transcript {
  import opened Messages
  import opened Basics
  import opened Strings
  import opened CompactText

  const TOOL_RESULT_KEEP_MAX_CHARS := 300
  const CONSECUTIVE_TOOL_COLLAPSE := 3

  datatype Speaker = UserSays | AssistantSays | ToolSays(name: string)

  // The heading of a text entry is kept apart from the text until it is written.
  datatype Entry = Text(speaker: Speaker, text: string) | Mark(name: string)

  predicate Allowlisted(name: string) {
    name == "read_memory" || name == "list_models"
  }

  // ---- first pass: entries ----------------------------------------------------------------

  function Heading(s: Speaker): string {
    match s
    case UserSays => "**User:** "
    case AssistantSays => "**Assistant:** "
    case ToolSays(name) => "**Tool result (" + name + "):** "
  }

  function KeptResult(content: string): string {
    Shortened(content, TOOL_RESULT_KEEP_MAX_CHARS)
  }

  // The calls of the model messages among the first n, in order.
  function CallsTo(messages: seq<Message>, n: nat): seq<ToolCall>
    requires n <= |messages|
  {
    if n == 0 then []
    else if messages[n - 1].role == Model then CallsTo(messages, n - 1) + messages[n - 1].toolCalls
    else CallsTo(messages, n - 1)
  }

  // The name of the latest of the first k calls with this ID, "" if there is none.
  function LatestName(calls: seq<ToolCall>, k: nat, id: string): string
    requires k <= |calls|
  {
    if k == 0 then ""
    else if calls[k - 1].id == id then calls[k - 1].name
    else LatestName(calls, k - 1, id)
  }

  function NameFor(messages: seq<Message>, n: nat, id: string): string
    requires n <= |messages|
  {
    LatestName(CallsTo(messages, n), |CallsTo(messages, n)|, id)
  }

  function Marks(calls: seq<ToolCall>, k: nat): seq<Entry>
    requires k <= |calls|
  {
    if k == 0 then [] else Marks(calls, k - 1) + [Mark(calls[k - 1].name)]
  }

  // What message k adds to the transcript.
  function Added(messages: seq<Message>, k: nat): seq<Entry>
    requires k < |messages|
  {
    var m := messages[k];
    match m.role
    case User => [Text(UserSays, m.content)]
    case Model =>
      var c := CompactAssistant(m.content);
      (if c != "" then [Text(AssistantSays, c)] else []) + Marks(m.toolCalls, |m.toolCalls|)
    case Tool =>
      var name := NameFor(messages, k, m.toolCallID);
      if Allowlisted(name) then [Text(ToolSays(name), KeptResult(m.content))] else []
    case Unset => []
  }

  function AddedBy(messages: seq<Message>): nat -> seq<Entry> {
    (k: nat) => if k < |messages| then Added(messages, k) else []
  }

  // What the first n messages add.
  function Entries(messages: seq<Message>, n: nat): seq<Entry>
    requires n <= |messages|
  {
    Stretch(AddedBy(messages), n)
  }

  lemma EntriesSnoc(messages: seq<Message>, k: nat)
    requires k < |messages|
    ensures Entries(messages, k + 1) == Entries(messages, k) + Added(messages, k)
  {
    assert AddedBy(messages)(k) == Added(messages, k);
  }

  // ---- the map of names -------------------------------------------------------------------

  function LookupName(names: map<string, string>, id: string): string {
    if id in names then names[id] else ""
  }

  predicate Agree(names: map<string, string>, calls: seq<ToolCall>, k: nat, id: string)
    requires k <= |calls|
  {
    LookupName(names, id) == LatestName(calls, k, id)
  }

  // The map answers with the latest call.
  ghost predicate NamesOf(names: map<string, string>, calls: seq<ToolCall>, k: nat)
    requires k <= |calls|
  {
    forall id: string :: Agree(names, calls, k, id)
  }

  lemma NamesAdd(names: map<string, string>, calls: seq<ToolCall>, k: nat)
    requires k < |calls| && NamesOf(names, calls, k)
    ensures NamesOf(names[calls[k].id := calls[k].name], calls, k + 1)
  {
    var names', k' := names[calls[k].id := calls[k].name], k + 1;
    forall id: string ensures Agree(names', calls, k', id) {
      assert Agree(names, calls, k, id);
    }
  }

  lemma {:induction false} LatestPrefix(calls: seq<ToolCall>, more: seq<ToolCall>, k: nat, id: string)
    requires k <= |calls|
    ensures LatestName(calls + more, k, id) == LatestName(calls, k, id)
  {
    if k > 0 { LatestPrefix(calls, more, k - 1, id); }
  }

  lemma NamesPrefix(names: map<string, string>, calls: seq<ToolCall>, more: seq<ToolCall>)
    requires NamesOf(names, calls, |calls|)
    ensures NamesOf(names, calls + more, |calls|)
  {
    var all := calls + more;
    forall id: string ensures Agree(names, all, |calls|, id) {
      LatestPrefix(calls, more, |calls|, id);
      assert Agree(names, calls, |calls|, id);
    }
  }

  // The loop over the calls of one model message.
  method AddCalls(toolNames: map<string, string>, entries: seq<Entry>, calls: seq<ToolCall>,
      ghost before: seq<ToolCall>)
    returns (names: map<string, string>, out: seq<Entry>)
    requires NamesOf(toolNames, before, |before|)
    ensures NamesOf(names, before + calls, |before + calls|)
    ensures out == entries + Marks(calls, |calls|)
  {
    names, out := toolNames, entries;
    ghost var all := before + calls;
    NamesPrefix(toolNames, before, calls);
    for k := 0 to |calls|
      invariant NamesOf(names, all, |before| + k)
      invariant out == entries + Marks(calls, k)
    {
      var tc := calls[k];
      assert all[|before| + k] == tc;
      NamesAdd(names, all, |before| + k);
      names := names[tc.id := tc.name];
      out := out + [Mark(tc.name)];
    }
  }

  // One message of the loop.
  method AddMessage(m: Message, toolNames: map<string, string>, entries: seq<Entry>,
      ghost messages: seq<Message>, ghost i: nat)
    returns (names: map<string, string>, out: seq<Entry>)
    requires i < |messages| && messages[i] == m
    requires NamesOf(toolNames, CallsTo(messages, i), |CallsTo(messages, i)|)
    ensures NamesOf(names, CallsTo(messages, i + 1), |CallsTo(messages, i + 1)|)
    ensures out == entries + Added(messages, i)
  {
    names, out := toolNames, entries;
    match m.role
    case User =>
      out := out + [Text(UserSays, m.content)];
    case Model =>
      var c := CompactAssistant(m.content);
      ghost var text := if c != "" then [Text(AssistantSays, c)] else [];
      if c != "" {
        out := out + [Text(AssistantSays, c)];
      }
      Assoc(entries, text, Marks(m.toolCalls, |m.toolCalls|));
      names, out := AddCalls(toolNames, out, m.toolCalls, CallsTo(messages, i));
    case Tool =>
      var name := LookupName(toolNames, m.toolCallID);
      assert Agree(toolNames, CallsTo(messages, i), |CallsTo(messages, i)|, m.toolCallID);
      if Allowlisted(name) {
        out := out + [Text(ToolSays(name), KeptResult(m.content))];
      }
    case Unset =>
  }

  method CollectEntries(messages: seq<Message>) returns (entries: seq<Entry>)
    ensures entries == Entries(messages, |messages|)
  {
    entries := [];
    var toolNames: map<string, string> := map[];
    for i := 0 to |messages|
      invariant entries == Entries(messages, i)
      invariant NamesOf(toolNames, CallsTo(messages, i), |CallsTo(messages, i)|)
    {
      toolNames, entries := AddMessage(messages[i], toolNames, entries, messages, i);
      EntriesSnoc(messages, i);
    }
  }

  // ---- second pass: runs ------------------------------------------------------------------

  // A paragraph of the transcript.
  datatype Block = Plain(speaker: Speaker, text: string) | Single(name: string) | Run(name: string, count: nat)

  // The end of the run of marks with this name that reaches position k.
  function RunEnd(entries: seq<Entry>, name: string, k: nat): (j: nat)
    requires k <= |entries|
    ensures k <= j <= |entries|
    ensures forall i :: k <= i < j ==> entries[i] == Mark(name)
    ensures j < |entries| ==> entries[j] != Mark(name)
    decreases |entries| - k
  {
    if k < |entries| && entries[k] == Mark(name) then RunEnd(entries, name, k + 1) else k
  }

  function Singles(name: string, n: nat): seq<Block> {
    if n == 0 then [] else Singles(name, n - 1) + [Single(name)]
  }

  function RunBlocks(name: string, n: nat): seq<Block> {
    if n > CONSECUTIVE_TOOL_COLLAPSE then [Run(name, n)] else Singles(name, n)
  }

  // Where the scan goes from position i, and what it leaves behind.
  function Next(entries: seq<Entry>, i: nat): (j: nat)
    requires i < |entries|
    ensures i < j <= |entries|
  {
    match entries[i]
    case Text(_, _) => i + 1
    case Mark(name) => RunEnd(entries, name, i + 1)
  }

  function Front(entries: seq<Entry>, i: nat): seq<Block>
    requires i < |entries|
  {
    match entries[i]
    case Text(who, t) => [Plain(who, t)]
    case Mark(name) => RunBlocks(name, Next(entries, i) - i)
  }

  function Blocks(entries: seq<Entry>, i: nat): seq<Block>
    requires i <= |entries|
    decreases |entries| - i
  {
    if i == |entries| then [] else Front(entries, i) + Blocks(entries, Next(entries, i))
  }

  function Paragraph(b: Block): string {
    match b
    case Plain(who, t) => Heading(who) + t + "\n\n"
    case Single(name) => "**Assistant** called tool `" + name + "`\n\n"
    case Run(name, n) => "**Assistant** called tool `" + name + "` ×" + Decimal(n) + "\n\n"
  }

  function Written(blocks: seq<Block>): string {
    FlatMap(Paragraph, blocks, |blocks|)
  }

  // ---- fidelity ---------------------------------------------------------------------------

  function MarkTimes(name: string, n: nat): seq<Entry> {
    if n == 0 then [] else MarkTimes(name, n - 1) + [Mark(name)]
  }

  // The entries a block stands for.
  function Meant(b: Block): seq<Entry> {
    match b
    case Plain(who, t) => [Text(who, t)]
    case Single(name) => [Mark(name)]
    case Run(name, n) => MarkTimes(name, n)
  }

  function Expanded(blocks: seq<Block>): seq<Entry> {
    FlatMap(Meant, blocks, |blocks|)
  }

  lemma ExpandedConcat(a: seq<Block>, b: seq<Block>)
    ensures Expanded(a + b) == Expanded(a) + Expanded(b)
  {
    FlatMapConcat(Meant, a, b, |b|);
  }

  lemma ExpandedOne(b: Block)
    ensures Expanded([b]) == Meant(b)
  {
    assert FlatMap(Meant, [b], 1) == FlatMap(Meant, [b], 0) + Meant(b);
  }

  lemma {:induction false} SinglesExpand(name: string, n: nat)
    ensures Expanded(Singles(name, n)) == MarkTimes(name, n)
  {
    if n > 0 {
      SinglesExpand(name, n - 1);
      ExpandedConcat(Singles(name, n - 1), [Single(name)]);
      ExpandedOne(Single(name));
    }
  }

  lemma RunExpands(name: string, n: nat)
    ensures Expanded(RunBlocks(name, n)) == MarkTimes(name, n)
  {
    SinglesExpand(name, n);
    ExpandedOne(Run(name, n));
  }

  lemma {:induction false} MarksAreTimes(entries: seq<Entry>, name: string, i: nat, j: nat)
    requires i <= j <= |entries| && forall k :: i <= k < j ==> entries[k] == Mark(name)
    ensures entries[i..j] == MarkTimes(name, j - i)
    decreases j - i
  {
    if i < j {
      MarksAreTimes(entries, name, i, j - 1);
      assert entries[i..j] == entries[i..j - 1] + [entries[j - 1]];
    }
  }

  lemma FrontExpands(entries: seq<Entry>, i: nat)
    requires i < |entries|
    ensures Expanded(Front(entries, i)) == entries[i..Next(entries, i)]
  {
    match entries[i]
    case Text(who, t) =>
      ExpandedOne(Plain(who, t));
    case Mark(name) =>
      var j := Next(entries, i);
      RunExpands(name, j - i);
      MarksAreTimes(entries, name, i, j);
  }

  // Expanding every run gives back exactly the entries: no call is lost, renamed or moved.
  lemma {:induction false} CollapseIsFaithful(entries: seq<Entry>, i: nat)
    requires i <= |entries|
    ensures Expanded(Blocks(entries, i)) == entries[i..]
    decreases |entries| - i
  {
    if i < |entries| {
      var j := Next(entries, i);
      CollapseIsFaithful(entries, j);
      FrontExpands(entries, i);
      ExpandedConcat(Front(entries, i), Blocks(entries, j));
      assert entries[i..] == entries[i..j] + entries[j..];
    }
  }

  // A run of equal marks that no neighbour prolongs.
  predicate WholeRun(entries: seq<Entry>, name: string, i: nat, j: nat) {
    && i < j <= |entries|
    && (forall k :: i <= k < j ==> entries[k] == Mark(name))
    && (i > 0 ==> entries[i - 1] != Mark(name))
    && (j < |entries| ==> entries[j] != Mark(name))
  }

  // No run of marks goes on over position i.
  predicate Boundary(entries: seq<Entry>, i: nat)
    requires i < |entries|
  {
    i == 0 || entries[i].Text? || entries[i - 1] != entries[i]
  }

  lemma NextStopsAt(entries: seq<Entry>, k: nat, i: nat)
    requires k < i < |entries| && Boundary(entries, i)
    ensures Next(entries, k) <= i
  {
    assert entries[k].Mark? && Next(entries, k) > i - 1 ==> entries[i - 1] == entries[k];
  }

  lemma NextOfRun(entries: seq<Entry>, name: string, i: nat, j: nat)
    requires WholeRun(entries, name, i, j)
    ensures Next(entries, i) == j && Front(entries, i) == RunBlocks(name, j - i)
  {
  }

  // From any earlier point the scan comes by every boundary.
  lemma {:induction false} ScanReaches(entries: seq<Entry>, k: nat, i: nat) returns (front: seq<Block>)
    requires k <= i < |entries| && Boundary(entries, i)
    ensures Blocks(entries, k) == front + Blocks(entries, i)
    decreases i - k
  {
    if k == i {
      front := [];
    } else {
      var e := Next(entries, k);
      NextStopsAt(entries, k, i);
      var f := ScanReaches(entries, e, i);
      front := Front(entries, k) + f;
      Assoc(Front(entries, k), f, Blocks(entries, i));
    }
  }

  lemma FrontStandsFor(entries: seq<Entry>, front: seq<Block>, i: nat)
    requires i <= |entries| && Blocks(entries, 0) == front + Blocks(entries, i)
    ensures Expanded(front) == entries[..i]
  {
    CollapseIsFaithful(entries, 0);
    CollapseIsFaithful(entries, i);
    ExpandedConcat(front, Blocks(entries, i));
    var e := Expanded(front);
    assert e + entries[i..] == entries[0..] == entries;
    assert |e| == i;
    assert e == (e + entries[i..])[..i];
  }

  // Every whole run longer than three becomes one paragraph with its length, a shorter one a
  // paragraph for each call, with everything around it unaffected.
  lemma RunIsOneParagraph(entries: seq<Entry>, name: string, i: nat, j: nat) returns (front: seq<Block>)
    requires WholeRun(entries, name, i, j)
    ensures Blocks(entries, 0) == front + RunBlocks(name, j - i) + Blocks(entries, j)
    ensures Expanded(front) == entries[..i]
  {
    front := ScanReaches(entries, 0, i);
    NextOfRun(entries, name, i, j);
    Assoc(front, RunBlocks(name, j - i), Blocks(entries, j));
    FrontStandsFor(entries, front, i);
  }

  // Every text is one paragraph, with everything around it unaffected.
  lemma TextIsOneParagraph(entries: seq<Entry>, i: nat) returns (front: seq<Block>)
    requires i < |entries| && entries[i].Text?
    ensures Blocks(entries, 0) ==
      front + [Plain(entries[i].speaker, entries[i].text)] + Blocks(entries, i + 1)
    ensures Expanded(front) == entries[..i]
  {
    front := ScanReaches(entries, 0, i);
    Assoc(front, [Plain(entries[i].speaker, entries[i].text)], Blocks(entries, i + 1));
    FrontStandsFor(entries, front, i);
  }

  // ---- writing ----------------------------------------------------------------------------

  lemma WrittenConcat(a: seq<Block>, b: seq<Block>)
    ensures Written(a + b) == Written(a) + Written(b)
  {
    FlatMapConcat(Paragraph, a, b, |b|);
  }

  lemma BlocksUnfold(entries: seq<Entry>, i: nat)
    requires i < |entries|
    ensures Blocks(entries, i) == Front(entries, i) + Blocks(entries, Next(entries, i))
  {
  }

  lemma WrittenFront(entries: seq<Entry>, i: nat)
    requires i < |entries|
    ensures Written(Blocks(entries, i)) == Written(Front(entries, i)) + Written(Blocks(entries, Next(entries, i)))
  {
    BlocksUnfold(entries, i);
    WrittenConcat(Front(entries, i), Blocks(entries, Next(entries, i)));
  }

  lemma WrittenOne(b: Block)
    ensures Written([b]) == Paragraph(b)
  {
    assert FlatMap(Paragraph, [b], 1) == FlatMap(Paragraph, [b], 0) + Paragraph(b);
  }

  lemma WrittenOneMore(bs: seq<Block>, b: Block)
    ensures Written(bs + [b]) == Written(bs) + Paragraph(b)
  {
    WrittenConcat(bs, [b]);
    WrittenOne(b);
  }

  // The inner loops: one run of marks.
  method WriteRun(name: string, n: nat) returns (b: string)
    ensures b == Written(RunBlocks(name, n))
  {
    if n > CONSECUTIVE_TOOL_COLLAPSE {
      WrittenOne(Run(name, n));
      return Paragraph(Run(name, n));
    }
    b := "";
    for k := 0 to n
      invariant b == Written(Singles(name, k))
    {
      WrittenOneMore(Singles(name, k), Single(name));
      b := b + Paragraph(Single(name));
    }
  }

  method EndOfRun(entries: seq<Entry>, i: nat) returns (j: nat)
    requires i < |entries| && entries[i].Mark?
    ensures j == Next(entries, i)
  {
    j := i + 1;
    while j < |entries| && entries[j].Mark? && entries[j].name == entries[i].name
      invariant i < j <= |entries|
      invariant RunEnd(entries, entries[i].name, i + 1) == RunEnd(entries, entries[i].name, j)
    {
      j := j + 1;
    }
  }

  // The loop body: what position i starts, written out, and where the scan goes on.
  method WriteFront(entries: seq<Entry>, i: nat) returns (text: string, j: nat)
    requires i < |entries|
    ensures text == Written(Front(entries, i)) && j == Next(entries, i)
  {
    var e := entries[i];
    if e.Text? {
      WrittenOne(Plain(e.speaker, e.text));
      return Paragraph(Plain(e.speaker, e.text)), i + 1;
    }
    j := EndOfRun(entries, i);
    text := WriteRun(e.name, j - i);
  }

  method WriteEntries(entries: seq<Entry>) returns (b: string)
    ensures b == Written(Blocks(entries, 0))
  {
    b := "";
    var i := 0;
    while i < |entries|
      invariant 0 <= i <= |entries|
      invariant b + Written(Blocks(entries, i)) == Written(Blocks(entries, 0))
    {
      var text, j := WriteFront(entries, i);
      WrittenFront(entries, i);
      Assoc(b, text, Written(Blocks(entries, j)));
      b := b + text;
      i := j;
    }
    Assoc(b, [], []);
  }

  method FormatTranscript(messages: seq<Message>) returns (b: string)
    ensures b == Written(Blocks(Entries(messages, |messages|), 0))
  {
    var entries := CollectEntries(messages);
    b := WriteEntries(entries);
  }

  // ---- what is in the transcript ----------------------------------------------------------

  // The entries fall into one stretch for every message, in order. So a user message is there
  // verbatim, and a tool result exactly when the latest earlier call with its ID names an
  // allowlisted tool.
  lemma EachMessageHasItsPlace(messages: seq<Message>, k: nat)
    requires k < |messages|
    ensures var from, all := Entries(messages, k), Entries(messages, |messages|);
      && from + Added(messages, k) <= all
      && (messages[k].role == User ==> |from| < |all| && all[|from|] == Text(UserSays, messages[k].content))
  {
    StretchGrows(AddedBy(messages), k + 1, |messages|);
    EntriesSnoc(messages, k);
    var from := Entries(messages, k);
    if messages[k].role == User {
      assert Entries(messages, k + 1)[|from|] == Text(UserSays, messages[k].content);
    }
  }

  lemma WrittenAround(front: seq<Block>, b: Block, rest: seq<Block>)
    ensures Written(front + [b] + rest) == Written(front) + Paragraph(b) + Written(rest)
  {
    WrittenConcat(front + [b], rest);
    WrittenOneMore(front, b);
  }

  lemma TextIsWritten(entries: seq<Entry>, i: nat) returns (front: seq<Block>, rest: seq<Block>)
    requires i < |entries| && entries[i].Text?
    ensures Written(Blocks(entries, 0)) ==
      Written(front) + (Heading(entries[i].speaker) + entries[i].text + "\n\n") + Written(rest)
    ensures Expanded(front) == entries[..i] && Expanded(rest) == entries[i + 1..]
  {
    front := TextIsOneParagraph(entries, i);
    rest := Blocks(entries, i + 1);
    CollapseIsFaithful(entries, i + 1);
    WrittenAround(front, Plain(entries[i].speaker, entries[i].text), rest);
  }

  lemma TextHasItsPlace(messages: seq<Message>, k: nat)
    requires k < |messages| && Added(messages, k) != []
    ensures var all, from := Entries(messages, |messages|), Entries(messages, k);
      |from| < |all| && all[|from|] == Added(messages, k)[0] && all[..|from|] == from
  {
    var all, from := Entries(messages, |messages|), Entries(messages, k);
    EachMessageHasItsPlace(messages, k);
    assert (from + Added(messages, k))[|from|] == Added(messages, k)[0];
    assert all[..|from|] == (from + Added(messages, k))[..|from|] == from;
  }

  // A message's own text - what a user says, what the model says, a result that is shown - is a
  // paragraph of the transcript; what is before it stands for the messages before, and what is
  // behind it for the rest.
  lemma MessageIsWritten(messages: seq<Message>, k: nat) returns (front: seq<Block>, rest: seq<Block>)
    requires k < |messages| && Added(messages, k) != [] && Added(messages, k)[0].Text?
    ensures var e := Added(messages, k)[0];
      Written(Blocks(Entries(messages, |messages|), 0)) ==
        Written(front) + (Heading(e.speaker) + e.text + "\n\n") + Written(rest)
    ensures Expanded(front) == Entries(messages, k)
    ensures |Entries(messages, k)| < |Entries(messages, |messages|)|
    ensures Expanded(rest) == Entries(messages, |messages|)[|Entries(messages, k)| + 1..]
  {
    TextHasItsPlace(messages, k);
    front, rest := TextIsWritten(Entries(messages, |messages|), |Entries(messages, k)|);
  }

  // Whether call c is the last of the first k that has this ID.
  predicate LastCall(calls: seq<ToolCall>, k: nat, id: string, c: int)
    requires k <= |calls|
  {
    0 <= c < k && calls[c].id == id && forall d :: c < d < k ==> calls[d].id != id
  }

  // Whether the last of the first k calls that has this ID is of an allowlisted tool.
  ghost predicate AllowedBy(calls: seq<ToolCall>, k: nat, id: string)
    requires k <= |calls|
  {
    exists c :: LastCall(calls, k, id, c) && Allowlisted(calls[c].name)
  }

  lemma LastCallSnoc(calls: seq<ToolCall>, k: nat, id: string)
    requires k < |calls|
    ensures AllowedBy(calls, k + 1, id) <==>
      if calls[k].id == id then Allowlisted(calls[k].name) else AllowedBy(calls, k, id)
  {
    var n := k + 1;
    if calls[k].id == id {
      assert forall c :: LastCall(calls, n, id, c) <==> c == k;
      assert LastCall(calls, n, id, k);
    } else {
      assert forall c :: LastCall(calls, n, id, c) <==> LastCall(calls, k, id, c);
    }
  }

  // The call that decides about a result: the last one before it that has its ID.
  lemma {:induction false} LatestDecides(calls: seq<ToolCall>, k: nat, id: string)
    requires k <= |calls|
    ensures Allowlisted(LatestName(calls, k, id)) <==> AllowedBy(calls, k, id)
  {
    if k > 0 {
      LatestDecides(calls, k - 1, id);
      LastCallSnoc(calls, k - 1, id);
    }
  }

  // What tool messages need to be shown.
  lemma ResultShownExactlyWhen(messages: seq<Message>, k: nat)
    requires k < |messages| && messages[k].role == Tool
    ensures var calls := CallsTo(messages, k);
      Added(messages, k) != [] <==> AllowedBy(calls, |calls|, messages[k].toolCallID)
  {
    LatestDecides(CallsTo(messages, k), |CallsTo(messages, k)|, messages[k].toolCallID);
  }

  // What a user says is in the transcript word for word.
  lemma UserIsVerbatim(messages: seq<Message>, k: nat) returns (front: seq<Block>, rest: seq<Block>)
    requires k < |messages| && messages[k].role == User
    ensures Written(Blocks(Entries(messages, |messages|), 0)) ==
      Written(front) + ("**User:** " + messages[k].content + "\n\n") + Written(rest)
    ensures Expanded(front) == Entries(messages, k)
  {
    front, rest := MessageIsWritten(messages, k);
  }

  lemma {:induction false} MarksRead(calls: seq<ToolCall>, k: nat)
    requires k <= |calls|
    ensures |Marks(calls, k)| == k
    ensures forall i :: 0 <= i < k ==> Marks(calls, k)[i] == Mark(calls[i].name)
  {
    if k > 0 { MarksRead(calls, k - 1); }
  }

  // The entries from position i on begin with one mark per call, in order.
  predicate CallsMarked(entries: seq<Entry>, i: nat, calls: seq<ToolCall>) {
    && i + |calls| <= |entries|
    && forall j :: 0 <= j < |calls| ==> entries[i + j] == Mark(calls[j].name)
  }

  lemma MarksInPlace(all: seq<Entry>, own: seq<Entry>, i: nat, marks: seq<Entry>, calls: seq<ToolCall>)
    requires own <= all && i + |calls| <= |own| && |marks| == |calls|
    requires own[i..i + |calls|] == marks
    requires forall j :: 0 <= j < |calls| ==> marks[j] == Mark(calls[j].name)
    ensures CallsMarked(all, i, calls)
  {
    forall j | 0 <= j < |calls| ensures all[i + j] == Mark(calls[j].name) {
      assert all[i + j] == own[i + j] == own[i..i + |calls|][j];
    }
  }

  lemma ModelAdds(messages: seq<Message>, k: nat)
    requires k < |messages| && messages[k].role == Model
    ensures var c, calls := CompactAssistant(messages[k].content), messages[k].toolCalls;
      Added(messages, k) == (if c != "" then [Text(AssistantSays, c)] else []) + Marks(calls, |calls|)
  {
  }

  lemma CallsBehindText(all: seq<Entry>, i: nat, rest: seq<Entry>, calls: seq<ToolCall>)
    requires i < |all| && rest == all[i + 1..] && CallsMarked(all, i + 1, calls)
    ensures CallsMarked(rest, 0, calls)
  {
    forall j | 0 <= j < |calls| ensures rest[0 + j] == Mark(calls[j].name) {
      assert rest[j] == all[i + 1 + j];
    }
  }

  lemma ModelMarked(messages: seq<Message>, k: nat)
    requires k < |messages| && messages[k].role == Model
    ensures var c, calls := CompactAssistant(messages[k].content), messages[k].toolCalls;
      CallsMarked(Entries(messages, |messages|), |Entries(messages, k)| + (if c != "" then 1 else 0), calls)
  {
    var c, calls := CompactAssistant(messages[k].content), messages[k].toolCalls;
    var text := if c != "" then [Text(AssistantSays, c)] else [];
    ModelAdds(messages, k);
    EachMessageHasItsPlace(messages, k);
    MarksRead(calls, |calls|);
    ModelPlaced(Entries(messages, |messages|), Entries(messages, k), Added(messages, k), text,
                Marks(calls, |calls|), calls);
  }

  lemma ModelPlaced(all: seq<Entry>, from: seq<Entry>, added: seq<Entry>, text: seq<Entry>, marks: seq<Entry>,
      calls: seq<ToolCall>)
    requires from + added <= all && added == text + marks && |marks| == |calls|
    requires forall j :: 0 <= j < |calls| ==> marks[j] == Mark(calls[j].name)
    ensures CallsMarked(all, |from| + |text|, calls)
  {
    MarksBehind(from, text, marks);
    MarksInPlace(all, from + added, |from| + |text|, marks, calls);
  }

  lemma MarksBehind(from: seq<Entry>, text: seq<Entry>, marks: seq<Entry>)
    ensures var own, i := from + (text + marks), |from| + |text|;
      |own| == i + |marks| && own[i..i + |marks|] == marks
  {
  }

  // What the assistant says is in the transcript, compacted, with its calls behind it...
  lemma AssistantIsWritten(messages: seq<Message>, k: nat) returns (front: seq<Block>, rest: seq<Block>)
    requires k < |messages| && messages[k].role == Model && CompactAssistant(messages[k].content) != ""
    ensures Written(Blocks(Entries(messages, |messages|), 0)) ==
      Written(front) + ("**Assistant:** " + CompactAssistant(messages[k].content) + "\n\n") + Written(rest)
    ensures Expanded(front) == Entries(messages, k)
    ensures CallsMarked(Expanded(rest), 0, messages[k].toolCalls)
  {
    ModelAdds(messages, k);
    ModelMarked(messages, k);
    front, rest := MessageIsWritten(messages, k);
    CallsBehindText(Entries(messages, |messages|), |Entries(messages, k)|, Expanded(rest), messages[k].toolCalls);
  }

  // ...and without a text its calls are there alone.
  lemma SilentAssistant(messages: seq<Message>, k: nat)
    requires k < |messages| && messages[k].role == Model && CompactAssistant(messages[k].content) == ""
    ensures CallsMarked(Entries(messages, |messages|), |Entries(messages, k)|, messages[k].toolCalls)
    ensures |Entries(messages, k + 1)| == |Entries(messages, k)| + |messages[k].toolCalls|
  {
    var calls := messages[k].toolCalls;
    ModelAdds(messages, k);
    ModelMarked(messages, k);
    EntriesSnoc(messages, k);
    MarksRead(calls, |calls|);
  }

  lemma {:induction false} LatestNameIs(calls: seq<ToolCall>, k: nat, id: string, c: nat)
    requires k <= |calls| && LastCall(calls, k, id, c)
    ensures LatestName(calls, k, id) == calls[c].name
  {
    if c < k - 1 { LatestNameIs(calls, k - 1, id, c); }
  }

  predicate Asked(calls: seq<ToolCall>, k: nat, id: string)
    requires k <= |calls|
  {
    exists c :: 0 <= c < k && calls[c].id == id
  }

  lemma {:induction false} NoLatestName(calls: seq<ToolCall>, k: nat, id: string)
    requires k <= |calls| && !Asked(calls, k, id)
    ensures LatestName(calls, k, id) == ""
  {
    if k > 0 { NoLatestName(calls, k - 1, id); }
  }

  lemma NothingAdded(messages: seq<Message>, k: nat)
    requires k < |messages| && Added(messages, k) == []
    ensures Entries(messages, k + 1) == Entries(messages, k)
  {
    EntriesSnoc(messages, k);
    Assoc(Entries(messages, k), [], []);
  }

  // A tool result is written under its tool's name, cut to its limit, when the last call before it
  // with its ID is of an allowlisted tool; it is not in the transcript otherwise.
  lemma ResultIsWritten(messages: seq<Message>, k: nat, c: nat) returns (front: seq<Block>, rest: seq<Block>)
    requires k < |messages| && messages[k].role == Tool
    requires LastCall(CallsTo(messages, k), |CallsTo(messages, k)|, messages[k].toolCallID, c)
    ensures var name := CallsTo(messages, k)[c].name;
      if name == "read_memory" || name == "list_models" then
        && Written(Blocks(Entries(messages, |messages|), 0)) ==
             Written(front) + ("**Tool result (" + name + "):** " + Shortened(messages[k].content, 300) + "\n\n")
             + Written(rest)
        && Expanded(front) == Entries(messages, k)
      else Entries(messages, k + 1) == Entries(messages, k)
  {
    var calls := CallsTo(messages, k);
    LatestNameIs(calls, |calls|, messages[k].toolCallID, c);
    if Allowlisted(calls[c].name) {
      front, rest := MessageIsWritten(messages, k);
    } else {
      front, rest := [], [];
      NothingAdded(messages, k);
    }
  }

  lemma NoNameIsAllowed()
    ensures !Allowlisted("")
  {
  }

  lemma ToolAdds(messages: seq<Message>, k: nat, name: string)
    requires k < |messages| && messages[k].role == Tool && name == NameFor(messages, k, messages[k].toolCallID)
    ensures !Allowlisted(name) ==> Added(messages, k) == []
  {
  }

  lemma UnsetAdds(messages: seq<Message>, k: nat)
    requires k < |messages| && messages[k].role == Unset
    ensures Added(messages, k) == []
  {
  }

  // A result no call asked for is not there...
  lemma StrayIsNotWritten(messages: seq<Message>, k: nat)
    requires k < |messages| && messages[k].role == Tool
    requires !Asked(CallsTo(messages, k), |CallsTo(messages, k)|, messages[k].toolCallID)
    ensures Entries(messages, k + 1) == Entries(messages, k)
  {
    NoLatestName(CallsTo(messages, k), |CallsTo(messages, k)|, messages[k].toolCallID);
    NoNameIsAllowed();
    ToolAdds(messages, k, "");
    NothingAdded(messages, k);
  }

  // ...and neither is a message without a role.
  lemma RolelessIsNotWritten(messages: seq<Message>, k: nat)
    requires k < |messages| && messages[k].role == Unset
    ensures Entries(messages, k + 1) == Entries(messages, k)
  {
    UnsetAdds(messages, k);
    NothingAdded(messages, k);
  }

  function CallsIn(m: Message): seq<ToolCall> {
    if m.role == Model then m.toolCalls else []
  }

  lemma CallsSnoc(messages: seq<Message>, k: nat)
    requires k < |messages|
    ensures CallsTo(messages, k + 1) == CallsTo(messages, k) + CallsIn(messages[k])
  {
    Assoc(CallsTo(messages, k), [], []);
  }

  // The calls before a message are those of the model messages before it, in a row.
  lemma {:induction false} CallsToRead(messages: seq<Message>, n: nat)
    requires n <= |messages|
    ensures CallsTo(messages, n) == FlatMap(CallsIn, messages, n)
  {
    if n > 0 {
      CallsToRead(messages, n - 1);
      CallsSnoc(messages, n - 1);
    }
  }

  // A run of calls is written as one line with its length, or as a line for each of up to three.
  lemma RunIsWritten(entries: seq<Entry>, name: string, i: nat, j: nat)
    returns (front: seq<Block>, rest: seq<Block>)
    requires WholeRun(entries, name, i, j)
    ensures Expanded(front) == entries[..i] && Expanded(rest) == entries[j..]
    ensures var n, line := j - i, "**Assistant** called tool `" + name + "`";
      Written(Blocks(entries, 0)) == Written(front)
        + (if n > 3 then line + " ×" + Decimal(n) + "\n\n" else Repeated(line + "\n\n", n))
        + Written(rest)
  {
    front := RunIsOneParagraph(entries, name, i, j);
    rest := Blocks(entries, j);
    CollapseIsFaithful(entries, j);
    WrittenConcat(front + RunBlocks(name, j - i), rest);
    WrittenConcat(front, RunBlocks(name, j - i));
    RunText(name, j - i);
  }

  function Repeated(line: string, n: nat): string {
    if n == 0 then "" else Repeated(line, n - 1) + line
  }

  lemma {:induction false} SinglesText(name: string, n: nat)
    ensures Written(Singles(name, n)) == Repeated("**Assistant** called tool `" + name + "`" + "\n\n", n)
  {
    if n > 0 {
      SinglesText(name, n - 1);
      WrittenOneMore(Singles(name, n - 1), Single(name));
      assert Paragraph(Single(name)) == "**Assistant** called tool `" + name + "`" + "\n\n";
    }
  }

  lemma RunText(name: string, n: nat)
    ensures var line := "**Assistant** called tool `" + name + "`";
      Written(RunBlocks(name, n)) ==
        if n > 3 then line + " ×" + Decimal(n) + "\n\n" else Repeated(line + "\n\n", n)
  {
    if n > 3 { WrittenOne(Run(name, n)); } else { SinglesText(name, n); }
  }

  // ---- calls are conserved ----------------------------------------------------------------

  function MarkName(e: Entry): seq<string> {
    if e.Mark? then [e.name] else []
  }

  function CallName(c: ToolCall): seq<string> {
    [c.name]
  }

  function Marked(entries: seq<Entry>): seq<string> {
    FlatMap(MarkName, entries, |entries|)
  }

  function Called(calls: seq<ToolCall>): seq<string> {
    FlatMap(CallName, calls, |calls|)
  }

  lemma MarkedConcat(a: seq<Entry>, b: seq<Entry>)
    ensures Marked(a + b) == Marked(a) + Marked(b)
  {
    FlatMapConcat(MarkName, a, b, |b|);
  }

  lemma MarkedOne(e: Entry)
    ensures Marked([e]) == MarkName(e)
  {
    assert FlatMap(MarkName, [e], 1) == FlatMap(MarkName, [e], 0) + MarkName(e);
  }

  lemma {:induction false} MarksMarked(calls: seq<ToolCall>, k: nat)
    requires k <= |calls|
    ensures Marked(Marks(calls, k)) == FlatMap(CallName, calls, k)
  {
    if k > 0 {
      MarksMarked(calls, k - 1);
      MarkedConcat(Marks(calls, k - 1), [Mark(calls[k - 1].name)]);
      MarkedOne(Mark(calls[k - 1].name));
    }
  }

  lemma AddedMarks(messages: seq<Message>, k: nat)
    requires k < |messages|
    ensures Marked(Added(messages, k)) ==
      if messages[k].role == Model then Called(messages[k].toolCalls) else []
  {
    var m := messages[k];
    match m.role
    case User =>
      MarkedOne(Text(UserSays, m.content));
    case Model =>
      var c := CompactAssistant(m.content);
      var text := if c != "" then [Text(AssistantSays, c)] else [];
      MarkedOne(Text(AssistantSays, c));
      MarksMarked(m.toolCalls, |m.toolCalls|);
      MarkedConcat(text, Marks(m.toolCalls, |m.toolCalls|));
      assert Marked(text) == [];
      Assoc(Called(m.toolCalls), [], []);
    case Tool =>
      MarkedOne(Text(ToolSays(NameFor(messages, k, m.toolCallID)), KeptResult(m.content)));
    case Unset =>
  }

  function CalledBy(m: Message): seq<string> {
    if m.role == Model then Called(m.toolCalls) else []
  }

  lemma MarkedStep(messages: seq<Message>, k: nat)
    requires k < |messages|
    ensures Marked(Entries(messages, k + 1)) == Marked(Entries(messages, k)) + CalledBy(messages[k])
  {
    EntriesSnoc(messages, k);
    MarkedConcat(Entries(messages, k), Added(messages, k));
    AddedMarks(messages, k);
  }

  lemma CalledStep(messages: seq<Message>, k: nat)
    requires k < |messages|
    ensures Called(CallsTo(messages, k + 1)) == Called(CallsTo(messages, k)) + CalledBy(messages[k])
  {
    var before, more := CallsTo(messages, k), messages[k].toolCalls;
    FlatMapConcat(CallName, before, more, |more|);
    Assoc(Called(before), [], []);
  }

  // Every tool call of the conversation is in the transcript, in order and under its name.
  lemma {:induction false} CallsAreConserved(messages: seq<Message>, n: nat)
    requires n <= |messages|
    ensures Marked(Entries(messages, n)) == Called(CallsTo(messages, n))
  {
    if n > 0 {
      var k := n - 1;
      CallsAreConserved(messages, k);
      assert Marked(Entries(messages, n)) == Marked(Entries(messages, k)) + CalledBy(messages[k]) by {
        MarkedStep(messages, k);
      }
      assert Called(CallsTo(messages, n)) == Called(CallsTo(messages, k)) + CalledBy(messages[k]) by {
        CalledStep(messages, k);
      }
    }
  }

  // Also through the runs: the names marked by the expanded transcript are the names called.
  lemma TranscriptConservesCalls(messages: seq<Message>)
    ensures Marked(Expanded(Blocks(Entries(messages, |messages|), 0))) == Called(CallsTo(messages, |messages|))
  {
    var entries := Entries(messages, |messages|);
    CollapseIsFaithful(entries, 0);
    CallsAreConserved(messages, |messages|);
    assert entries[0..] == entries;
  }
}
