# Verified model of the wildgecu agent daemon

A Dafny model of the parts of the daemon where state, indices and interleavings matter, with
proofs of what they guarantee. Verify it with `dafny verify dfyconfig.toml`.

**Sessions** (`SessionProtocol`, `SessionLocks`, `SessionHeap`, `SessionTheorems`,
`SessionFinalize`, `SessionRemoval`, `SessionRuns`, `SessionBlocks`, `SessionAgents`, `SessionScripts`). The session manager of
`pkg/daemon/sessions.go` is a state machine. Every turn, close, reset, interrupt, create and snapshot
read is a program counter over atomic steps; a schedule interleaves any number of them over any
number of sessions. The manager's RWMutex (a waiting writer holds back new readers), each
session's `mu` and each session's `cancelMu` are explicit, and so is the heap: conversation histories
are Go slices over backing arrays, `append` writes in place when capacity allows, and a turn appends
its user message in the very array that holds the history. `Data` gives what each step does,
`Act` its lock, `Behind` the control flow, with the deferred clear of `cancel` before the deferred
unlock. `owner` and the `closer` of a finalization are auxiliary: no step looks at them.

**Agent loop** (`GoSlices`, `AgentLoop`, `AgentLoopTheorems`, `ParallelTools`, `StreamLoop`, `Turn`,
`OpenAIStream`). Both loops of `pkg/provider/agent.go` run as methods over heap slices against a
function from the provider's and the tools' answers to log, response, error and what every
generation was given. The goroutines of one round are a state machine of their own. `Turn` adds the
reminder of `pkg/session/session.go`, applied to a copy and stripped in place. `OpenAIStream` turns
tool-call deltas into calls and shows that streaming refines not streaming.

**Capture buffer** (`HeadTail`). The ring buffer of `pkg/exec/bounded/bounded.go` against the whole
stream it was fed.

**Files** (`Frontmatter`, `FrontmatterLaws`, `FrontmatterFields`, `Framing`, `Cron`, `Skills`, `Replacing`, `Edits`,
`Files`). The line editor and its lens laws, the `---` framing of job and skill files, and the
edit tools of `pkg/agent/tools/files.go` as atomic folds of replacements.

**Chat display** (`ToolWindow`). The lines and remembered indices of `pkg/chat/tui/tui.go`, against a
closed form of what a turn shows.

**Transcript** (`Utf8`, `CompactText`, `Transcript`). The memory agent's transcript of
`pkg/agent/memory.go`: UTF-8 safe truncation on bytes, text compaction, and the two passes.

`Messages`, `Wrappers`, `Basics` and `Strings` hold what several of them share.

## Reading the model

- A session's ID is its position in the list of all sessions ever allocated, since every
  `uuid.New()` is distinct; `live` holds the keys of the manager's map.
- The provider is an oracle: a `World` says what the k-th generation and each tool call return. Any
  run of the real loop gives one. The loop need not end, so `fuel` bounds how many generations are
  looked at; every finite run is covered. In the session machine each step of the loop appends an
  arbitrary batch; an `AgentRun` is one whose batches are rounds, as the loop's own are
  (`SessionBlocks.RealLoopGoesOn`), and every course of the loop is that of one
  (`SessionAgents.TurnRunsTheLoop`).
- Go slices appear twice: `GoSlices` over Dafny arrays, for the loops that run as methods, and as
  headers over an explicit heap value in `SessionProtocol`, where a schedule interleaves the writes of
  many operations.
- Libraries that cannot be seen are parameters: the JSON decoder of call arguments, YAML and
  durations in `Cron.Library` and `Skills.Library`. `Faithful` says what a round trip relies on:
  that this one value marshals to a block that ends its last line, holds no line of dashes and
  unmarshals to itself.
- `HeadTail` uses one char per byte. Elsewhere text is Unicode characters; where Go counts bytes,
  `Utf8.Size` does.
- Display lines are kept by what they show (`Tool(caption)`, `More(n)`, ...) rather than rendered.

## What the code does not give

Each of these is a run or an input that a lemma exhibits, or the other side of an exact condition.

- A Close or Interrupt cancels a turn exactly when the turn has stored its `cancel`
  (`SessionTheorems.CancelHitsTheRunningTurn`); a turn that has only fetched the session goes on. It
  commits to a session that is gone exactly when a Close or Reset deleted it before
  (`SessionRemoval.OrphanCommitExactlyWhen`), and `SessionRuns.TurnCommitsAfterClose` is such a run.
- A session is finalized as often as there are Closes and Resets that found it
  (`SessionFinalize.SessionFinalizedPerClose`), so not at most once
  (`SessionFinalize.TwoClosesFinalizeTwice`).
- A turn is committed exactly when its loop ends behind an answer without calls
  (`SessionBlocks.OnlyAnswersAreCommitted`); what it did before a tool returned ErrDone is not kept
  (`SessionAgents.StoppedTurnIsNotKept`). No tool of a daemon session returns ErrDone, only those of
  `pkg/agent/bootstrap.go` and `pkg/agent/memory.go`, whose loops are not run in a session.
- A fragment of a call reaches the response exactly when a `tool_calls` finish comes with it or
  behind it (`OpenAIStream.NothingLostExactlyWhen`, `OpenAIStream.ResponseHoldsTheBatches`). A call is
  lost when the stream finishes otherwise (`OpenAIStream.StoppedCallIsLost`) or goes on behind its
  finish (`OpenAIStream.LateCallIsLost`).
- A completion without choices gets an empty role only on the plain path
  (`OpenAIStream.NoChoiceDiffers`).
- A stream is handled to its end exactly when no delta it reaches has a negative index, on which the
  code panics (`OpenAIStream.GenerateStream`, `OpenAIStream.NegativeIndexPanics`).
- `update_file` asks for exactly one occurrence, but counts non-overlapping ones
  (`Replacing.WhatCountMeans`). That tells a unique position in every text exactly when the old string
  has no border, a proper prefix that is also a suffix (`Replacing.CountTellsUniqueExactlyWhen`); with
  a border `Replacing.BorderIsNotUnique` gives the text.
- A batch of edits is all or nothing only as far as the one write at its end is, which whatever the
  disk does holds for next to no write (`Files.WriteIsAtomicExactlyWhen`,
  `Files.CutShortLeavesNeither`).
- A scalar reads back from the frontmatter only under the condition of
  `FrontmatterLaws.SetThenLookup`; one that starts a comment is cut off in front of it
  (`FrontmatterFields.CommentedScalarIsCut`), and further edits keep that comment
  (`FrontmatterLaws.SetThenSet`).
- An edit takes part of the old value for a comment and keeps it unless the condition of
  `FrontmatterLaws.NothingKeptExactlyWhen` holds; quoting does not help
  (`FrontmatterLaws.QuotedTailIsKept`).
- The edited line is the first that sets the key, nested or not, and only that line is written over; a
  new line is not indented. So a field reads back exactly under the condition of
  `FrontmatterFields.SetThenField`, and not in `FrontmatterFields.NestedIsEdited`,
  `FrontmatterFields.NewLineIsNotIndented` and `FrontmatterFields.BodyIsLeft`.

## Model

| member | source | states |
|---|---|---|
| SessionTheorems.DeadlockFree | pkg/daemon/sessions.go:189-341 | In every state reached by any number of turns, closes, resets, interrupts, creates and snapshot reads, in any interleaving, some operation can step as long as one is unfinished. |
| SessionTheorems.RunsAreBounded | pkg/daemon/sessions.go:189-341 | No livelock: n operations take at most 21n steps under any schedule, not counting the rounds their agent loops decide to append. |
| SessionTheorems.AlwaysCanFinish | pkg/daemon/sessions.go:189-341 | From every reachable state there is a continuation in which every operation finishes. |
| SessionTheorems.CancelOwnership | pkg/daemon/sessions.go:280-292 | A session's cancel is set to turn t exactly when t has stored it and not yet cleared it; it then holds that session's mu. So there is at most one, and a later turn finds it clear. |
| SessionTheorems.CancelHitsTheRunningTurn | pkg/daemon/sessions.go:61-67 | Interrupt and Close of an ID cancel turn t exactly when t is a turn on the session of that ID between storing and clearing its cancel: never a finished, later or foreign turn, and not a turn that has only fetched the session yet. |
| SessionTheorems.LookupFinds | pkg/daemon/sessions.go:181-195 | A lookup finds the session of the ID it is given if that is in the map, and nothing otherwise. |
| SessionTheorems.FoundIsAsked | pkg/daemon/sessions.go:181-246 | In every reachable state the session an operation has found is the one of the ID it was given. |
| SessionTheorems.RaceFree | pkg/daemon/sessions.go:21-44 | The session map, each message slice and each cancel field are never about to be accessed by two operations at once when one of them writes. |
| SessionTheorems.ElementsRaceFree | pkg/daemon/sessions.go:334-340 | Nor do two operations ever work on elements of the same backing array at once: append, reminder, strip, clone and the transcript's read never meet there. |
| SessionHeap.MutualExclusion | pkg/daemon/sessions.go:280-281 | Two operations that hold a session lock hold it for different sessions. |
| SessionLocks.StepKeepsLocks | pkg/daemon/sessions.go:181-341 | Every atomic step keeps the lock invariant: who holds which lock at which program point, and when cancel is set. |
| SessionHeap.StepHeap | pkg/daemon/sessions.go:334-340 | Every atomic step writes only arrays its operation owns or the unused end of the array behind the session it has locked, and leaves its own turn log as history, user message, reminder and loop rounds say. |
| SessionHeap.AppendReads | pkg/daemon/sessions.go:92-98 | append on a heap slice shows the old elements followed by the new ones and changes no cell below the old length, in place or not. |
| SessionHeap.BystanderHeap | pkg/daemon/sessions.go:280-281 | A step of one operation never disturbs the slices another operation is working on. |
| SessionTheorems.ReachableInv | pkg/daemon/sessions.go:181-341 | The lock and heap invariants hold in every reachable state. |
| SessionTheorems.HistoryStep | pkg/daemon/sessions.go:334-340 | One step either leaves a session's history as it is or, when it commits a successful turn there, appends the user message and what the loop appended, nothing else. |
| SessionTheorems.TurnsAreAtomic | pkg/daemon/sessions.go:334-340 | Over every run a history becomes itself followed by exactly what the successful turns on it committed, whole and in commit order; failed and interrupted turns leave no trace. |
| SessionTheorems.HistoriesOnlyGrow | pkg/daemon/sessions.go:33-36 | At any time each history is a prefix of itself at any later time. |
| SessionTheorems.HistoriesAreAppendOnly | pkg/daemon/sessions.go:33-36 | With real slice semantics no run overwrites an element of any slice a session has held: reading the old header on the later heap gives the old history. |
| SessionTheorems.SnapshotReadsHistory | pkg/daemon/sessions.go:47-51 | Messages() of an ID returns the history of the session of that ID at the moment it holds the lock. |
| SessionTheorems.SnapshotsNeverChange | pkg/daemon/sessions.go:47-51 | A slice returned by Messages() reads the same after every later run. |
| SessionTheorems.SessionsDoNotShare | pkg/daemon/sessions.go:92-98 | Two sessions never share a backing array. |
| SessionTheorems.SnapshotsDoNotShare | pkg/daemon/sessions.go:47-51 | A returned snapshot shares its array with no session, no other snapshot and no running turn. |
| SessionTheorems.ProviderSeesReminder | pkg/session/session.go:84-106 | While a turn runs in the daemon, the log on the heap is the session's history and user message, with the reminder behind a blank line in the last user message, followed by the loop's own messages. |
| SessionTheorems.RemindReads | pkg/session/session.go:84-106 | The reminder is applied exactly when there is one and the log has a user message, and to the last of these. |
| SessionTheorems.NewSessionReads | pkg/daemon/sessions.go:87-99 | A new session is in the map, unlocked, and its history is what it is created with. |
| SessionScripts.FinishedTrace | pkg/daemon/sessions.go:181-341 | Under every schedule a finished operation has made exactly the steps of its kind, in order: those for a session it found, or only the lookup. |
| SessionScripts.ResetCreates | pkg/daemon/sessions.go:211-217 | A finished Reset that found its session has created another one, and a finished Create has created one. |
| SessionTheorems.FinalizeReadsHistory | pkg/daemon/sessions.go:200-203 | The transcript Close finalizes is the whole history, at that moment, of the session of the ID it was given. |
| SessionTheorems.FinalizeSeesEarlierTurns | pkg/daemon/sessions.go:197-203 | Every turn committed before Close took the session lock is in the transcript it finalizes. |
| SessionTheorems.FinalizedTranscripts | pkg/daemon/sessions.go:200-203 | Every transcript ever finalized is a prefix of its session's history from then on. |
| SessionFinalize.EachCloseFinalizesOnce | pkg/daemon/sessions.go:189-217 | A Close, or the Close a Reset runs, that is behind Finalize with a session it found has finalized that session exactly once; any other operation has finalized nothing. |
| SessionFinalize.SessionFinalizedPerClose | pkg/daemon/sessions.go:189-217 | In every reachable state a session has been finalized exactly as often as there are Closes and Resets that found it and are behind Finalize. |
| SessionFinalize.TwoClosesFinalizeTwice | pkg/daemon/sessions.go:189-208 | Two Closes that both look a session up before either deletes it finalize it twice, so "at most once" is false. |
| SessionRemoval.LiveExactlyUntilDeleted | pkg/daemon/sessions.go:181-217 | Over every run a session is in the manager's map exactly as long as no Close or Reset has deleted it; it never comes back. |
| SessionRemoval.OrphanCommitExactlyWhen | pkg/daemon/sessions.go:189-208 | A turn commits to a session that is gone from the map exactly when a delete of that session precedes the commit, and its history grows all the same. |
| SessionRuns.TurnCommitsAfterClose | pkg/daemon/sessions.go:189-341 | There is a run of one create, one turn and one Close in which the turn waits at the session lock while Close runs to its end, and then commits to the removed session. |
| SessionBlocks.HistoriesGrowByExchanges | pkg/daemon/sessions.go:334-340 | When every turn runs the agent loop, each history grows over any run by whole exchanges only: a user message, rounds in which every call is answered, and an answer that makes no call. No session ever stores a dangling call. |
| SessionBlocks.OnlyAnswersAreCommitted | pkg/daemon/sessions.go:305-340 | When turns run the agent loop, a turn is committed exactly when what the loop appended ends in an answer without calls behind complete rounds: not after a provider error, and not when a tool asked to stop. |
| SessionBlocks.RealLoopGoesOn | pkg/provider/agent.go:101-131 | The agent loop of any provider and any tools goes on in this way: what it appends is a round behind complete rounds, and it succeeds only behind an answer without calls. |
| SessionAgents.TurnRunsTheLoop | pkg/daemon/sessions.go:305-340 | From any state in which a turn is about to run its loop, and for any provider and tools with which the loop ends, the turn can step to its commit, and the session's history is then the log the loop returns for the old history and the user message, or the old history if the loop ended otherwise than by an answer. |
| SessionAgents.EveryLoopIsRun | pkg/daemon/sessions.go:280-340 | Every course of the agent loop is that of a whole run: one create and one turn, from the initial state to the commit. |
| SessionAgents.StoppedTurnIsNotKept | pkg/daemon/sessions.go:329-340 | A turn whose first call returns ErrDone ends with a longer log, of which the session keeps nothing. |
| GoSlices.Append | pkg/provider/agent.go:77-85 | append writes in place when capacity allows and else copies; the elements of the old header and everything beyond the new length survive. |
| GoSlices.Make | pkg/session/session.go:102-103 | make and copy give a new array of exactly the source's length and elements. |
| AgentLoop.ExecuteOne | pkg/provider/agent.go:159-180 | One tool message with the call's ID and what the tool returned; a real error becomes its text, ErrDone does not, and is what the flag reports. |
| AgentLoop.ExecuteToolsParallel | pkg/provider/agent.go:135-154 | Whatever order the calls finish in, the result is the sequential map of executeOne and the flag says whether any asked to stop. |
| AgentLoop.AppendRound | pkg/provider/agent.go:122-129 | A reply and one tool message per call are appended behind the log, whose earlier elements stay, and the verdict tells whether the loop ends. |
| AgentLoop.RunAgentLoop | pkg/provider/agent.go:94-131 | The loop on heap slices computes the run of the loop function, with log, response, error and what each generation was given, and leaves the caller's visible elements alone. |
| AgentLoopTheorems.LogIsWellFormed | pkg/provider/agent.go:101-131 | For every provider and every tool the returned log is the given one extended by complete rounds only, each call answered once, in order, by ID; plus a call-free answer, the one returned, on success; on ErrDone the response heads the last round; after an error there is no response and nothing more. |
| AgentLoopTheorems.LogRoles | pkg/provider/agent.go:101-131 | With a provider that replies as the model, everything the loop appends is the model's or a tool's, and the response is the model's. |
| AgentLoopTheorems.LoopAppendsRounds | pkg/provider/agent.go:101-131 | What a run appends is the rounds of the generations it made, whatever log it started from. |
| AgentLoopTheorems.GenerationsSeeRounds | pkg/provider/agent.go:104-108 | The j-th generation is given the starting log and exactly the j rounds before it. |
| AgentLoopTheorems.LoopEndsAtFirstEnding | pkg/provider/agent.go:109-129 | The loop runs up to the first generation that fails, answers without calls or has a tool ask to stop, and ends the way that one says. |
| AgentLoopTheorems.LogReads | pkg/provider/agent.go:101-131 | Message by message: behind the log a generation was given stand its reply and, for its i-th call, a tool message with the call's ID and what the tool returned or its error in words; there the next generation's log or the returned one ends. |
| AgentLoopTheorems.EndReads | pkg/provider/agent.go:109-129 | In terms of what provider and tools return: a generation that fails, answers without calls or has a call that returns ErrDone is the last, and gives the error, the answer or ErrDone with its response; no other is, unless the run is not watched further. |
| ParallelTools.JoinIsSequentialMap | pkg/provider/agent.go:135-154 | For every interleaving of the goroutines, when Wait returns each call was executed exactly once, the messages are the sequential map of executeOne, and done is set exactly when some tool returned ErrDone. |
| ParallelTools.JoinReads | pkg/provider/agent.go:135-179 | Slot i holds what the tool of call i returned, or its error in words, under the call's ID; done tells whether one returned ErrDone. |
| ParallelTools.OrderLeavesNoTrace | pkg/provider/agent.go:140-153 | Two interleavings in which the tools return the same give the same messages and the same flag. |
| ParallelTools.NeverStuck | pkg/provider/agent.go:140-151 | Until Wait returns some goroutine or the spawning loop can step. |
| ParallelTools.StepInv | pkg/provider/agent.go:140-150 | Every goroutine step keeps the invariant that slots, wait-group count, flag and execution counts agree with where each goroutine is. |
| StreamLoop.Collect | pkg/provider/agent.go:48-60 | The chunks of one generation fold to their joined text, their calls in order, the last usage reported, and what onChunk was given. |
| StreamLoop.FoldReads | pkg/provider/agent.go:48-72 | A stream folds to its error, or to a model message of the texts and calls of its chunks in a row with the last usage that counts tokens. |
| StreamLoop.RunAgentLoopStream | pkg/provider/agent.go:27-90 | The streaming loop computes the plain loop over what its streams fold to, falls back to the plain loop without streaming, and shows the chunks of the generations it made. |
| StreamLoop.FoldedReads | pkg/provider/agent.go:27-33 | Each generation is the fold of its stream, or without streaming the plain provider's answer; the tools are the same. |
| StreamLoop.ShownIsLogged | pkg/provider/agent.go:51-69 | The chunk callbacks concatenate to the logged model texts in order; after a provider error they end with the unlogged text that had arrived. |
| StreamLoop.StreamsReplyAsModel | pkg/provider/agent.go:71-76 | A streaming provider always replies as the model, whatever its chunks. |
| OpenAIStream.AddDeltas | pkg/provider/openai/openai.go:132-144 | The accumulators always hold, per index, the last non-empty ID and name and the argument fragments joined in arrival order; a negative index is the code's panic. |
| OpenAIStream.InterleavingIsIrrelevant | pkg/provider/openai/openai.go:132-144 | Deltas of different indices commute: two streams with the same fragments for each index make up the same calls. |
| OpenAIStream.NextChunk | pkg/provider/openai/openai.go:110-158 | One event becomes the chunk for its text, usage and, at a tool_calls finish, all calls pending so far, which are then forgotten; it panics exactly on a negative index. |
| OpenAIStream.ChunkReads | pkg/provider/openai/openai.go:110-158 | The chunk of an event, field by field: the text of its first choice, its usage if it counts tokens, and calls only at a tool_calls finish. |
| OpenAIStream.CallReads | pkg/provider/openai/openai.go:131-157 | Call i of a batch has the last non-empty ID and the last non-empty name among its fragments, and their arguments joined in order and decoded, or none. |
| OpenAIStream.GenerateStream | pkg/provider/openai/openai.go:86-174 | Consumers get the chunk of every event, or of those before the context is done, and then the matching error, the context's own or the stream's; it panics exactly when an event it handles has a negative index. |
| OpenAIStream.NegativeIndexPanics | pkg/provider/openai/openai.go:132-144 | A delta with index -1 is an input it panics on. |
| OpenAIStream.ToResponse | pkg/provider/openai/openai.go:273-299 | A whole completion converts to the response of its first choice; without choices the message stays zero. |
| OpenAIStream.AnswerReads | pkg/provider/openai/openai.go:273-299 | The response to a whole answer, field by field. |
| OpenAIStream.StreamedEqualsWhole | pkg/provider/openai/openai.go:102-158 | However an answer is cut into events and fragments, its stream folds to the response the same answer gives unstreamed. |
| OpenAIStream.ResponseHoldsTheBatches | pkg/provider/openai/openai.go:131-158 | However often a stream finishes, the response holds the calls of the batch of every finish, in a row, and the fragments of the stream are those of the batches followed by the ones never sent. |
| OpenAIStream.NothingLostExactlyWhen | pkg/provider/openai/openai.go:131-158 | No fragment is lost exactly when every event that carries one finishes with tool_calls or has an event behind it that does; equivalently, when nothing waits at the end. |
| OpenAIStream.CallsNeedTheFinish | pkg/provider/openai/openai.go:146-157 | A response has no call exactly when no event that finishes with tool_calls has a fragment with it or waiting before it, however many fragments the stream has. |
| OpenAIStream.StoppedCallIsLost | pkg/provider/openai/openai.go:146-157 | A stream of one call that finishes with "stop" folds to an answer without calls. |
| OpenAIStream.LateCallIsLost | pkg/provider/openai/openai.go:146-157 | A call that comes behind the tool_calls finish of another is not in the response. |
| OpenAIStream.NoChoiceDiffers | pkg/provider/openai/openai.go:281-287 | For an answer without choices the two paths differ: only the streamed message has the model role. |
| OpenAIStream.StreamingRefinesPlain | pkg/provider/agent.go:27-131 | When every stream carries the answer the plain provider would give, the streaming loop ends with the same log, response and error as the plain loop. |
| Turn.ApplyReminder | pkg/session/session.go:84-106 | The result is the log with the reminder in its last user message, in a new array of the same length, or the log itself if there is no reminder or no user message. |
| Turn.StripReminder | pkg/session/session.go:111-116 | Only the one element is put back; the original and every other cell stay. |
| Turn.LoopOnReminded | pkg/session/session.go:41-44 | Running the loop on the reminded log and stripping the result is running it on the plain log, except that every generation saw the reminder in that one message. |
| Turn.SameStartSameRun | pkg/session/session.go:41-42 | For the same provider answers the loop takes the same course from any starting log. |
| Turn.TailStaysLastUser | pkg/session/session.go:92-98 | As long as the provider does not answer as the user, the message with the reminder is the last user message of every log it is given. |
| Turn.RunTurn | pkg/session/session.go:33-45 | The returned log is the caller's, the new user message and what the loop appended, with no reminder text, while every call saw the reminder on the last user message and nowhere else; the caller's elements are untouched. |
| Turn.RunTurnStream | pkg/session/session.go:55-67 | The same for the streaming turn, together with the chunks shown. |
| Turn.SeenReads | pkg/session/session.go:33-67 | Every generation is given the returned log up to there, but for the last user message of the turn's start, which has the reminder's text behind a blank line, if there is one and a message to carry it. |
| HeadTail.HeadTailBuf.constructor | pkg/exec/bounded/bounded.go:143-150 | A new buffer has seen the empty stream. |
| HeadTail.HeadTailBuf.Put | pkg/exec/bounded/bounded.go:164-172 | One more byte: the ring shows the last bytes of the stream it covers, that byte included. |
| HeadTail.HeadTailBuf.Write | pkg/exec/bounded/bounded.go:152-174 | After any write, head is the first min(total, headCap) bytes of all bytes ever written and the ring the last min(tailCap, rest) of the others; nothing of the chunking remains. |
| HeadTail.HeadTailBuf.Total | pkg/exec/bounded/bounded.go:176-178 | Total is the length of everything written. |
| HeadTail.HeadTailBuf.LinearTail | pkg/exec/bounded/bounded.go:209-215 | The linearised ring is the end of the stream. |
| HeadTail.HeadTailBuf.Render | pkg/exec/bounded/bounded.go:184-207 | The text is the stream if it fits; else the head window up to its last newline, the marker with the number of missing bytes, and the tail window behind its first newline, in this order. |
| HeadTail.Capture | pkg/exec/bounded/bounded.go:152-207 | Any sequence of writes gives that text, and the total, of the concatenated stream, so two ways of chunking it agree. |
| HeadTail.RenderingConserves | pkg/exec/bounded/bounded.go:196-206 | A truncated rendering is a stream prefix and a stream suffix; the dropped count and both lengths add up to the total; the prefix ends at the last newline of the head window and the suffix starts behind the first of the tail window, where there is one. |
| HeadTail.WholeStream | pkg/exec/bounded/bounded.go:185-194 | A stream that fits is rendered unchanged from its two parts. |
| Strings.DecimalReadsBack | pkg/exec/bounded/bounded.go:27-30 | The number printed in the marker reads back as the number dropped. |
| Strings.DecimalDigits | pkg/exec/bounded/bounded.go:27-30 | It is written in digits, without a leading zero. |
| Frontmatter.ExtractInlineComment | pkg/cron/frontmatter.go:85-99 | The comment found is the text from the first # that is first or behind a blank, trimmed. |
| Frontmatter.ReplaceOrAppendField | pkg/cron/frontmatter.go:51-83 | The loop edits the first line that sets the key, or inserts a line before the trailing blank lines, as the edit function says. |
| FrontmatterFields.MatchesExactlyWhen | pkg/cron/frontmatter.go:55-64 | A line sets a key exactly when the key stands behind blanks and in front of a colon that ends the line or has a blank or # behind it. |
| FrontmatterFields.KeptReads | pkg/cron/frontmatter.go:85-99 | What is kept of the text behind the colon: from the first # that is first or behind a blank, without trailing blanks; nothing if there is none. |
| FrontmatterFields.SetWrites | pkg/cron/frontmatter.go:66-72 | The first line that sets the key becomes its indent, the key, a colon and a blank, the scalar, and what is kept behind a blank; every other line stays. |
| FrontmatterFields.SetAdds | pkg/cron/frontmatter.go:75-82 | Without such a line, key, colon, blank and scalar are added as a line in front of the lines of nothing but space at the end. |
| Frontmatter.SplitThenJoin | pkg/cron/frontmatter.go:52-82 | Splitting at newlines and joining gives every text back. |
| Frontmatter.JoinThenSplit | pkg/cron/frontmatter.go:52-82 | Joining newline-free lines and splitting gives the lines back. |
| FrontmatterLaws.SetThenLookup | pkg/cron/frontmatter.go:51-83 | After setting a key, looking it up by the editor's own line rule gives the scalar exactly when the scalar is one line, has no blank at either end and nothing in it starts a comment. |
| FrontmatterLaws.OtherKeysUntouched | pkg/cron/frontmatter.go:55-82 | Every other key reads as before by that rule, value and comment, in the replace and in the append case. |
| FrontmatterLaws.SetKeepsComment | pkg/cron/frontmatter.go:66-71 | The key's inline comment is what it was exactly when the scalar starts no comment itself. |
| FrontmatterLaws.NothingKeptExactlyWhen | pkg/cron/frontmatter.go:66-71 | The edited line is the key and the new scalar alone exactly when no # in the old text behind the key is first or behind a blank. |
| FrontmatterLaws.QuotedTailIsKept | pkg/cron/frontmatter.go:85-99 | Setting k on the line k: "a #b" leaves k: true #b": the tail of the quoted value is taken for a comment. |
| FrontmatterLaws.SetThenSet | pkg/cron/frontmatter.go:51-83 | Setting v1 and then v2 is setting v2, byte for byte, exactly when the one-line v1 starts no comment. |
| FrontmatterLaws.SetTouchesOneLine | pkg/cron/frontmatter.go:55-82 | All lines but one stay, in order; a new line replaces none and stands right in front of the blank lines at the end. |
| FrontmatterLaws.LookupIsScalar | pkg/cron/frontmatter.go:85-99 | Whatever a lookup reads is a scalar that an edit would store faithfully. |
| FrontmatterLaws.OneKey | pkg/cron/frontmatter.go:56-64 | A line sets at most one key without a colon in it. |
| FrontmatterFields.SetThenField | pkg/cron/frontmatter.go:51-83 | The field of that name, a line as deep as the first of the block with a one-line value, reads back exactly when the first line that sets the key is such a field, or there is none and fields are not indented, or the field held the scalar already. |
| FrontmatterFields.OtherFieldsUntouched | pkg/cron/frontmatter.go:55-82 | Every other field reads as before. |
| FrontmatterFields.NestedIsEdited | pkg/cron/frontmatter.go:55-72 | In a block whose only line for the key is nested, that line is edited and the block still has no such field. |
| FrontmatterFields.NewLineIsNotIndented | pkg/cron/frontmatter.go:75-82 | A key added to a block of indented fields is no field of it. |
| FrontmatterFields.BodyIsLeft | pkg/cron/frontmatter.go:66-72 | When a value goes on over deeper lines, they are left behind the edited one. |
| FrontmatterFields.CommentedScalarIsCut | pkg/cron/frontmatter.go:66-99 | A scalar with a blank and # in it reads back cut off there. |
| Framing.SetFrontmatterField | pkg/cron/frontmatter.go:19-49 | The file becomes opening delimiter, edited block and old trailer; on a missing file, missing delimiters or an unmarshalable value no file changes; a write that fails is reported and leaves what the disk made of it. |
| Framing.RewriteFailsWhen | pkg/cron/frontmatter.go:25-41 | No content is written exactly when the file cannot be split or the value cannot be marshalled, and the error tells which. |
| Framing.RewriteKeepsTheFrame | pkg/cron/frontmatter.go:28-44 | Everything from the closing delimiter on is the same and the rewritten file splits there again, for every one-line scalar and every key that does not begin with dashes. |
| Framing.UnframesExactlyWhen | pkg/cron/cron.go:37-45 | A framed block is found again exactly when it does not hold a newline followed by three dashes. |
| Framing.ClosingIsDashedLine | pkg/cron/frontmatter.go:28-35 | A block holds the closing delimiter exactly when a line other than its first begins with three dashes. |
| Framing.FrameRoundTrip | pkg/cron/cron.go:34-46 | Serializing a block and a body and splitting again gives both back exactly when the block is free of the closing delimiter and the body is trimmed. |
| Framing.UnframedParts | pkg/cron/cron.go:37-45 | What is split is the whole file, and its block is free of the closing delimiter. |
| Framing.UnframeFailsWhen | pkg/cron/cron.go:34-43 | The error tells a missing opening line from a missing closing delimiter. |
| Cron.SaveThenLoad | pkg/cron/cron.go:85-111 | Saving and loading gives a job back exactly when it has a name, a schedule, a timeout that is not negative and a trimmed prompt. |
| Cron.ParsedIsStorable | pkg/cron/cron.go:31-82 | Every job that any file parses to has these properties. |
| Cron.ParsesExactlyWhen | pkg/cron/cron.go:31-82 | A job file is read exactly when it can be split and its block can be read, and the prompt is the trimmed rest. |
| Cron.FieldsParseWhen | pkg/cron/cron.go:48-81 | A block gives a job exactly when it is YAML with a name, a schedule, and no timeout or a duration that is not negative; it is the job of these fields. |
| Cron.LoadThenSave | pkg/cron/cron.go:31-111 | Loading any file, saving the job and loading again gives the same job. |
| Cron.RewriteKeepsThePrompt | pkg/cron/frontmatter.go:19-49 | Rewriting a field of a job file never changes the prompt it parses to. |
| Skills.SaveThenLoad | pkg/skill/skill.go:70-91 | Saving and loading gives a skill back exactly when it has a name, a description and trimmed content. |
| Skills.ParsedIsStorable | pkg/skill/skill.go:36-67 | Every skill that any file parses to has these properties. |
| Skills.ParsesExactlyWhen | pkg/skill/skill.go:36-67 | A skill file is read exactly when it can be split and its block is YAML with a name and a description; the content is the trimmed rest. |
| Skills.LoadThenSave | pkg/skill/skill.go:36-91 | Loading any file, saving the skill and loading again gives the same skill. |
| Edits.MultiEdit | pkg/agent/tools/files.go:266-303 | The handler answers with the first failing check in order and its index, and leaves either the file with all edits applied in turn or the files as they were; a write that fails is reported and leaves what the disk made of it. |
| Edits.UpdateFile | pkg/agent/tools/files.go:213-235 | Exactly one counted occurrence is replaced, else the files stay and the error says missing or ambiguous with the count; a write that fails is reported and leaves what the disk made of it. |
| Files.WriteIsAtomicExactlyWhen | pkg/agent/tools/files.go:299-301 | Whatever the disk does, the one write at the end leaves the old file or the new one exactly when there is nothing to write, or one character into an empty file. |
| Files.CutShortLeavesNeither | pkg/agent/tools/files.go:299-301 | "cd" written over "ab" and cut short behind its first character leaves "c". |
| Edits.SucceedsExactlyWhen | pkg/agent/tools/files.go:266-303 | A batch succeeds exactly when it is not empty, no edit is an identity, the file is readable and each edit counts its old string in the buffer the earlier ones leave once, or at least once with replace_all; the file then holds the last buffer. |
| Edits.BufferReads | pkg/agent/tools/files.go:282-296 | The buffer goes through the edits in order: replace_all replaces every occurrence, a plain edit the first. |
| Edits.OneEdit | pkg/agent/tools/files.go:284-295 | A single edit succeeds at a count of one, with replace_all at any count above zero, and then replaces that one or all of them; else the error says missing or ambiguous with the count. |
| Edits.RefusesExactlyWhen | pkg/agent/tools/files.go:266-281 | Which check answers: the empty list, the first identity with its index, the unreadable file. |
| Edits.RefusesEdit | pkg/agent/tools/files.go:284-290 | When all earlier edits can be made, edit i is refused as missing exactly at count zero, and as ambiguous with the count exactly above one without replace_all. |
| Edits.BatchSplits | pkg/agent/tools/files.go:282-296 | A batch es1+es2 succeeds exactly when es1 and then es2 do, with the same files; if only es1 would, nothing of it stays. |
| Edits.UpdateIsOneEdit | pkg/agent/tools/files.go:221-230 | update_file is a batch of one edit, with or without replace_all, wherever it succeeds, and refuses with the same error; they differ only on identities. |
| Replacing.ReplacesBetweenPieces | pkg/agent/tools/files.go:291-295 | Count, ReplaceAll: the text is pieces joined by the old string, each ending at its first occurrence; replacing joins the same pieces by the new string, and the count is one less than their number. |
| Replacing.ReplaceAllLength | pkg/agent/tools/files.go:291-292 | The replaced text has length &#124;s&#124; + Count * (&#124;new&#124; - &#124;old&#124;), for every old string, the empty one included. |
| Replacing.EmptyOld | pkg/agent/tools/files.go:284-295 | The empty old string counts one more than the characters; replacing goes in front, or around every character. |
| Replacing.OneIsAll | pkg/agent/tools/files.go:291-295 | When the count is one, replacing all and replacing the first are the same. |
| Replacing.WhatCountMeans | pkg/agent/tools/files.go:221-227 | Count is zero exactly when there is no occurrence, and one exactly when every occurrence overlaps the first. |
| Replacing.CountOneIsNotUnique | pkg/agent/tools/files.go:225-227 | "aa" occurs in "aaa" at two positions and counts once, so the check for uniqueness passes. |
| Replacing.CountTellsUniqueExactlyWhen | pkg/agent/tools/files.go:221-227 | For a non-empty old string, a count of one means exactly one position in every text if and only if the old string has no border. |
| Replacing.BorderIsNotUnique | pkg/agent/tools/files.go:225-227 | For every bordered old string a text in which it counts once and occurs at two positions. |
| ToolWindow.Model.InsertDisplayBeforeStream | pkg/chat/tui/tui.go:556-577 | The line goes in at the stream index, everything from there moves down by one and so does the index; out of range it is appended. |
| ToolWindow.Model.Enter | pkg/chat/tui/tui.go:200-221 | A non-blank input in an idle session starts a turn on the lines there are; anything else changes nothing. |
| ToolWindow.Model.Inform | pkg/chat/tui/tui.go:273-279 | A note goes above the reply while a turn runs, else to the end. |
| ToolWindow.Model.ShiftSlots | pkg/chat/tui/tui.go:306-310 | The in-place loop moves every slot's line to the slot before it, with the new call in the last slot and the count in the overflow line, and touches no other line. |
| ToolWindow.Model.ToolCallInTurn | pkg/chat/tui/tui.go:281-319 | After a tool call the display is what the turn's events so far say, and the indices are those of its rows. |
| ToolWindow.Model.ChunkInTurn | pkg/chat/tui/tui.go:326-334 | After a chunk the last line shows all text so far and nothing else has changed. |
| ToolWindow.Model.StreamDone | pkg/chat/tui/tui.go:336-354 | The final text, if any, replaces the reply line, and the turn is over. |
| ToolWindow.Model.AgentError | pkg/chat/tui/tui.go:356-364 | An error or interruption is appended and the turn is over. |
| ToolWindow.SlidingWindow | pkg/chat/tui/tui.go:294-311 | After any mix of n tool calls, informs and chunks the slots increase, lie above the reply and show the last min(n,4) calls in order; beyond four the overflow line stands above them and reads n-4. |
| ToolWindow.SlotsShowCaptions | pkg/chat/tui/tui.go:281-319 | The same in terms of the captions of the tool calls there were. |
| ToolWindow.NothingElseMoves | pkg/chat/tui/tui.go:273-334 | At every point of a turn the lines of earlier turns are intact, every inform line of this turn is there in order, and the reply is last. |
| ToolWindow.ReplyIsJoined | pkg/chat/tui/tui.go:326-334 | Behind the earlier lines stand what was typed and the agent's label, and the last line is what the chunks said so far, joined in order. |
| ToolWindow.NotesAreMessages | pkg/chat/tui/tui.go:273-279 | The notes between them are the messages the turn was informed of, in order. |
| ToolWindow.SlotsIncrease | pkg/chat/tui/tui.go:294-304 | Slots are strictly increasing and the overflow line is above them. |
| ToolWindow.FifthCallStep | pkg/chat/tui/tui.go:300-304 | The fifth call turns the first slot into the count and opens a last row. |
| ToolWindow.FurtherCallStep | pkg/chat/tui/tui.go:305-311 | A further call shifts the window by one and raises the count. |
| ToolWindow.RunTurn | pkg/chat/tui/tui.go:200-364 | A whole turn leaves the earlier lines followed by that turn's block, in closed form in its events and its ending. |
| ToolWindow.Chat | pkg/chat/tui/tui.go:200-364 | Over a whole chat the display is what it was followed by one block per turn, in order. |
| ToolWindow.Start | pkg/chat/tui/tui.go:155-158 | From an empty display and the session the daemon opens, a chat shows exactly its blocks. |
| Utf8.SafeTruncate | pkg/agent/memory.go:195-205 | The loop cuts at the last byte position up to n that is not a tail byte. |
| Utf8.TailByMask | pkg/agent/memory.go:201-202 | The bit mask test singles out exactly the tail bytes 80..BF. |
| Utf8.TruncatedIsLongest | pkg/agent/memory.go:195-205 | On valid UTF-8 (section 4 of RFC 3629) the result is the longest valid prefix of at most n bytes, and at most three bytes short of n when something is cut. |
| Utf8.ValidPrefix | pkg/agent/memory.go:200-204 | A prefix of valid text is valid exactly when it does not stop in front of a tail byte. |
| Utf8.EncodeIsValid | pkg/agent/memory.go:195-205 | Text encoded as in section 3 of RFC 3629 is valid by the grammar of section 4. |
| Utf8.CharReadsBack | pkg/agent/memory.go:195-205 | The bits of an encoded character, the high ones first, are its code point. |
| Utf8.EncodeIsInjective | pkg/agent/memory.go:195-205 | Texts with the same bytes are the same. |
| Utf8.TruncatedBytes | pkg/agent/memory.go:195-205 | Truncating the bytes of a text cuts the text between characters, at the most characters that fit. |
| CompactText.CompactSize | pkg/agent/memory.go:174-184 | Compacted assistant text never exceeds 1503 bytes. |
| CompactText.CompactKeepsWords | pkg/agent/memory.go:175-179 | Unless it truncates, compaction keeps every word in order and is idempotent. |
| CompactText.CompactReads | pkg/agent/memory.go:174-184 | Compacted text is a text with the same characters but for space and the same words, with single blanks between them, shortened to 1500 bytes. |
| CompactText.ShortenedReads | pkg/agent/memory.go:180-182 | A text that does not fit is cut to the most characters that do, with an ellipsis; one that fits stays. |
| Transcript.AddCalls | pkg/agent/memory.go:126-129 | Each call adds a marker, and the map answers every ID with the name of its latest call. |
| Transcript.CollectEntries | pkg/agent/memory.go:118-141 | The first pass yields each message's own entries in message order. |
| Transcript.FormatTranscript | pkg/agent/memory.go:100-170 | The two passes together write the run-length form of the entries of the conversation. |
| Transcript.WriteEntries | pkg/agent/memory.go:143-169 | The index loops write exactly the paragraphs of the run-length form. |
| Transcript.CollapseIsFaithful | pkg/agent/memory.go:143-167 | Expanding every counted marker gives back exactly the uncollapsed entries. |
| Transcript.RunIsOneParagraph | pkg/agent/memory.go:154-167 | A maximal run longer than three is one paragraph with its length, a shorter one a paragraph per call, with what is before and behind unaffected. |
| Transcript.RunIsWritten | pkg/agent/memory.go:154-167 | A run of calls longer than three is written as one line with the tool's name and the number, a shorter one as a line with the name per call. |
| Transcript.TextIsOneParagraph | pkg/agent/memory.go:148-152 | Every text entry is one paragraph, with what is before and behind unaffected. |
| Transcript.EachMessageHasItsPlace | pkg/agent/memory.go:118-141 | Every message has its own stretch of entries, in order; a user message is there verbatim. |
| Transcript.UserIsVerbatim | pkg/agent/memory.go:120-122 | Each user message is a paragraph of the written transcript, word for word, behind what stands for the messages before it. |
| Transcript.AssistantIsWritten | pkg/agent/memory.go:122-129 | What the assistant says is a paragraph of the written transcript, compacted, behind what stands for the messages before it and with a mark for each of its calls behind it. |
| Transcript.SilentAssistant | pkg/agent/memory.go:122-129 | Without a text its calls are there alone, in order. |
| Transcript.ResultShownExactlyWhen | pkg/agent/memory.go:130-139 | A tool result is shown exactly when the latest earlier call with its ID names an allowlisted tool. |
| Transcript.ResultIsWritten | pkg/agent/memory.go:130-139 | A result whose last earlier call with its ID is of read_memory or list_models is a paragraph under that tool's name, cut to 300 bytes; any other leaves nothing. |
| Transcript.StrayIsNotWritten | pkg/agent/memory.go:130-134 | A result that no earlier call asked for leaves nothing. |
| Transcript.CallsAreConserved | pkg/agent/memory.go:126-129 | The markers are the calls of the conversation, by name and in order. |
| Transcript.TranscriptConservesCalls | pkg/agent/memory.go:100-170 | The same through both passes: the expanded transcript names exactly the calls made. |

## Left out

- Text of errors from libraries, debug logging, timestamps, todo lists and callbacks other than
  chunks: they do not change the state that is modelled.
- AgentLoop.RunAgentLoop: the order in which the goroutines call `onToolCall` is not modelled, since
  it is the scheduler's.
- SessionTheorems.DeadlockFree: provider and tool steps are taken as always enabled; a provider that
  never returns blocks its session.
- SessionTheorems.CancelHitsTheRunningTurn: what a cancelled context makes the provider do is left to
  the provider, whose answer is arbitrary.
- HeadTail.HeadTailBuf.constructor: asks for a positive tail size, which Run's defaults provide; a
  ring of size zero would divide by zero.
- Frontmatter.ReplaceOrAppendField: the scalar is taken as given; rendering a value with YAML is not
  part of this model, and only what it returns matters here.
- FrontmatterLaws.SetThenLookup: reads a block by the editor's own line rule, under which a nested
  line is as good as a field; FrontmatterFields.SetThenField is about fields.
- FrontmatterLaws.OtherKeysUntouched: the same; FrontmatterFields.OtherFieldsUntouched is about fields.
- FrontmatterFields.SetThenField: a field is a line as deep as the first that is neither blank nor a
  comment, whose value does not go on over deeper lines. The YAML parser itself is not part of this
  model: quoted keys, a blank before the colon, flow mappings, and block values of lines that start with
  # are not told apart.
- FrontmatterFields.OtherFieldsUntouched: the same.
- Edits.MultiEdit: resolving the path is not part of this model.
- ToolWindow.Model.Enter: an empty session ID or a running turn make it a no-op as in the code; the
  viewport, markdown rendering and the spinner are left out.
- Transcript.FormatTranscript: text that is not valid UTF-8 is not modelled; `Utf8.SafeTruncate` is,
  on any bytes.
- Integer overflow of counters and lengths: Go's int is 64 bits wide and they count memory.
- Creation of code-mode sessions and sessions with a model override: the same locking and the same
  fresh slice as Create.
- LoadAll of jobs and skills, Load, Save and Delete: directory listing around Parse and Serialize.
- Process execution, sockets, the scheduler, the Telegram bridge, the provider clients, the setup
  wizard, autocomplete and grep: input and output, or easy beside what is here.
