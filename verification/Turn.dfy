/** One conversational turn, pkg/session/session.go, on the heap: the reminder is added to a copy of
    the log, the loop runs on the copy, and the reminder is taken out in place. */
module Turn {
  import opened Wrappers
  import opened Basics
  import opened Messages
  import opened GoSlices
  import opened AgentLoop
  import opened AgentLoopTheorems
  import opened StreamLoop

  // cfg.RequestReminder: nil, or what it returns.
  type Reminder = Option<string>

  // The index of the message that carries the reminder, or -1.
  function Tail(log: seq<Message>, r: Reminder): int {
    if r.None? || r.value == "" then -1 else LastUser(log)
  }

  function Text(r: Reminder): string {
    if r.Some? then r.value else ""
  }

  method ApplyReminder(messages: Slice, r: Reminder) returns (transient: Slice, tail: int)
    requires messages.Valid()
    ensures transient.Valid() && transient.len == messages.len
    ensures tail == Tail(messages.Elems(), r)
    ensures transient.Elems() == Reminded(messages.Elems(), tail, Text(r))
    ensures if tail < 0 then transient == messages else fresh(transient.arr)
    ensures tail >= 0 ==> transient.arr.Length == transient.len
  {
    if r.None? || r.value == "" {
      return messages, -1;
    }
    tail := -1;
    var i := messages.len - 1;
    assert messages.Elems()[..messages.len] == messages.Elems();
    while i >= 0
      invariant -1 <= i < messages.len
      invariant LastUser(messages.Elems()[..i + 1]) == LastUser(messages.Elems())
      invariant tail == -1
    {
      if messages.arr[i].role == User {
        tail := i;
        break;
      }
      assert messages.Elems()[..i + 1][..i] == messages.Elems()[..i];
      i := i - 1;
    }
    if tail < 0 {
      return messages, -1;
    }
    transient := Make(messages.Elems());
    transient.arr[tail] := WithReminder(transient.arr[tail], r.value);
    assert transient.Elems() == Reminded(messages.Elems(), tail, r.value);
  }

  // What stripReminder makes of the elements.
  function Stripped(updated: seq<Message>, original: seq<Message>, tail: int): seq<Message> {
    if 0 <= tail < |updated| && tail < |original| then updated[tail := original[tail]] else updated
  }

  method StripReminder(updated: Slice, original: Slice, tail: int)
    requires updated.Valid() && original.Valid()
    modifies updated.arr
    ensures updated.Elems() == Stripped(old(updated.Elems()), old(original.Elems()), tail)
    ensures updated.arr != original.arr ==> original.Elems() == old(original.Elems())
    ensures forall i :: 0 <= i < updated.arr.Length && i != tail ==> updated.arr[i] == old(updated.arr[i])
    ensures tail < 0 ==> unchanged(updated.arr)
  {
    if tail < 0 || tail >= updated.len || tail >= original.len {
      return;
    }
    updated.arr[tail] := original.arr[tail];
  }

  // The logs with the reminder in message `tail` of each.
  function RemindedAll(logs: seq<seq<Message>>, tail: int, reminder: string): (views: seq<seq<Message>>)
    ensures |views| == |logs|
    ensures forall j :: 0 <= j < |logs| ==> views[j] == Reminded(logs[j], tail, reminder)
  {
    seq(|logs|, j requires 0 <= j < |logs| => Reminded(logs[j], tail, reminder))
  }

  // A turn on log `base` that comes to o: exactly what the loop makes of the base and the user
  // message, except that every generation was shown the reminder in the last user message.
  ghost predicate TurnResult(w: World, fuel: nat, base: seq<Message>, input: string, r: Reminder, o: Outcome) {
    var log := base + UserPart(input);
    var plain := Loop(w, 0, fuel, log);
    && o.log == plain.log && o.resp == plain.resp && o.status == plain.status
    && o.seen == RemindedAll(plain.seen, Tail(log, r), Text(r))
  }

  lemma UpdatedExtends(log: seq<Message>, ext: seq<Message>, t: nat, m: Message)
    requires t < |log|
    ensures log[t := m] + ext == (log + ext)[t := m]
    ensures (log[t := m] + ext)[t := log[t]] == log + ext
  {
  }

  lemma RemindedExtends(log: seq<Message>, ext: seq<Message>, tail: int, reminder: string)
    requires tail < |log|
    ensures Reminded(log, tail, reminder) + ext == Reminded(log + ext, tail, reminder)
    ensures Stripped(Reminded(log, tail, reminder) + ext, log, tail) == log + ext
  {
    if tail >= 0 {
      assert (log + ext)[tail] == log[tail];
      UpdatedExtends(log, ext, tail, WithReminder(log[tail], reminder));
    }
  }

  // Running the loop on the reminded log and stripping the result.
  lemma LoopOnReminded(w: World, fuel: nat, log: seq<Message>, r: Reminder)
    ensures var tail := Tail(log, r);
      var o, plain := Loop(w, 0, fuel, Reminded(log, tail, Text(r))), Loop(w, 0, fuel, log);
      && o.resp == plain.resp && o.status == plain.status
      && Stripped(o.log, log, tail) == plain.log
      && o.seen == RemindedAll(plain.seen, tail, Text(r))
  {
    var tail := Tail(log, r);
    var reminded := Reminded(log, tail, Text(r));
    var o, plain := Loop(w, 0, fuel, reminded), Loop(w, 0, fuel, log);
    SameStartSameRun(w, 0, fuel, reminded, log);
    LoopAppendsRounds(w, 0, fuel, reminded);
    LoopAppendsRounds(w, 0, fuel, log);
    RemindedExtends(log, Rounds(w, 0, |o.seen|), tail, Text(r));
    forall j | 0 <= j < |o.seen| ensures o.seen[j] == Reminded(plain.seen[j], tail, Text(r)) {
      SeenReminded(w, fuel, log, tail, Text(r), j);
    }
  }

  lemma SeenReminded(w: World, fuel: nat, log: seq<Message>, tail: int, reminder: string, j: nat)
    requires tail < |log|
    requires j < |Loop(w, 0, fuel, Reminded(log, tail, reminder)).seen|
    requires j < |Loop(w, 0, fuel, log).seen|
    ensures Loop(w, 0, fuel, Reminded(log, tail, reminder)).seen[j]
         == Reminded(Loop(w, 0, fuel, log).seen[j], tail, reminder)
  {
    GenerationsSeeRounds(w, 0, fuel, Reminded(log, tail, reminder), j);
    GenerationsSeeRounds(w, 0, fuel, log, j);
    RemindedExtends(log, Rounds(w, 0, j), tail, reminder);
  }

  lemma {:induction false} SameCourse(c: nat -> Taken, k: nat, fuel: nat, a: seq<Message>, b: seq<Message>)
    ensures var o, p := LoopOf(c, k, fuel, a), LoopOf(c, k, fuel, b);
      o.resp == p.resp && o.status == p.status && |o.seen| == |p.seen|
    decreases fuel
  {
    if fuel > 0 && c(k).end.None? {
      SameCourse(c, k + 1, fuel - 1, a + c(k).round, b + c(k).round);
    }
  }

  // How the loop runs does not depend on the log it starts from.
  lemma SameStartSameRun(w: World, k: nat, fuel: nat, a: seq<Message>, b: seq<Message>)
    ensures var o, p := Loop(w, k, fuel, a), Loop(w, k, fuel, b);
      o.resp == p.resp && o.status == p.status && |o.seen| == |p.seen|
  {
    SameCourse(Course(w), k, fuel, a, b);
  }

  lemma {:induction false} LastUserExtends(log: seq<Message>, ext: seq<Message>)
    requires Every(NotUser, ext)
    ensures LastUser(log + ext) == LastUser(log)
  {
    if ext == [] {
      assert log + ext == log;
    } else {
      assert (log + ext)[..|log + ext| - 1] == log + ext[..|ext| - 1];
      LastUserExtends(log, ext[..|ext| - 1]);
    }
  }

  // A provider that does not answer in the user's name.
  ghost predicate NeverTheUser(w: World) {
    forall k: nat :: NotTheUserAt(w, k)
  }

  predicate NotTheUserAt(w: World, k: nat) {
    w.gen(k).Reply? ==> w.gen(k).resp.message.role != User
  }

  predicate NotUser(m: Message) {
    m.role != User
  }

  lemma RoundHasNoUser(w: World, k: nat)
    requires NotTheUserAt(w, k)
    ensures Every(NotUser, TakenAt(w, k).round)
  {
  }

  // As long as the provider does not answer in the user's name, the message that carries the
  // reminder stays the last user message of every log the provider is given.
  lemma TailStaysLastUser(w: World, fuel: nat, log: seq<Message>, j: nat)
    requires NeverTheUser(w)
    requires j < |Loop(w, 0, fuel, log).seen|
    ensures LastUser(Loop(w, 0, fuel, log).seen[j]) == LastUser(log)
  {
    CourseFollows(w);
    forall i: nat ensures Every(NotUser, Course(w)(i).round) {
      assert FollowsAt(Course(w), w, i) && NotTheUserAt(w, i);
      RoundHasNoUser(w, i);
    }
    GenerationsSeeRounds(w, 0, fuel, log, j);
    EveryInRounds(NotUser, Course(w), 0, j);
    LastUserExtends(log, Rounds(w, 0, j));
  }

  // The message at position t is the last of the user's.
  predicate IsLastUser(log: seq<Message>, t: nat) {
    t < |log| && log[t].role == User && forall u :: t < u < |log| ==> log[u].role != User
  }

  // What the provider is given in generation j: the log as it is returned, up to there, but for
  // the last user message of the turn's start, which has the reminder behind a blank line.
  lemma SeenReads(w: World, fuel: nat, base: seq<Message>, input: string, r: Reminder, o: Outcome, j: nat)
    requires TurnResult(w, fuel, base, input, r, o) && j < |o.seen|
    ensures var log := base + (if input == "" then [] else [Message(User, input, "", [])]);
      && log <= o.log && |log| <= |o.seen[j]| <= |o.log|
      && (forall t: nat :: IsLastUser(log, t) && r.Some? && r.value != "" ==>
            o.seen[j] == o.log[..|o.seen[j]|][t := log[t].(content := log[t].content + "\n\n" + r.value)])
      && (r.None? || r.value == "" || (forall t: nat :: !IsLastUser(log, t)) ==>
            o.seen[j] == o.log[..|o.seen[j]|])
  {
    var log := base + UserPart(input);
    var plain := Loop(w, 0, fuel, log);
    var n := |plain.seen[j]|;
    StartSeen(w, fuel, log, j);
    assert plain.seen[j] == o.log[..n];
    if r.Some? && r.value != "" {
      ReminderPlace(log, plain.seen[j], r.value);
    }
  }

  // The log a generation is given begins with the one the loop was given, and is a beginning of
  // the one it returns.
  lemma StartSeen(w: World, fuel: nat, log: seq<Message>, j: nat)
    requires j < |Loop(w, 0, fuel, log).seen|
    ensures var o := Loop(w, 0, fuel, log);
      |log| <= |o.seen[j]| <= |o.log| && log <= o.log && o.seen[j] == o.log[..|o.seen[j]|]
  {
    var o := Loop(w, 0, fuel, log);
    if w.gen(j).Reply? {
      LogReads(w, fuel, log, j);
    } else {
      FailureReads(w, fuel, log, j);
      assert o.log[..|o.log|] == o.log;
    }
    GenerationsSeeRounds(w, 0, fuel, log, j);
    LoopAppendsRounds(w, 0, fuel, log);
  }

  lemma ReminderPlace(log: seq<Message>, view: seq<Message>, reminder: string)
    requires log <= view
    ensures forall t: nat :: IsLastUser(log, t) ==>
      && LastUser(log) == t
      && Reminded(view, t, reminder) == view[t := log[t].(content := log[t].content + "\n\n" + reminder)]
    ensures (forall t: nat :: !IsLastUser(log, t)) ==> LastUser(log) == -1
  {
    forall t: nat | IsLastUser(log, t) ensures LastUser(log) == t && view[t] == log[t] {
    }
    if LastUser(log) >= 0 { assert IsLastUser(log, LastUser(log)); }
  }

  // What is left of the reminded run once the reminder is stripped.
  lemma StrippedRun(w: World, fuel: nat, base: seq<Message>, input: string, r: Reminder)
    ensures var log := base + UserPart(input);
      var tail := Tail(log, r);
      var o := Loop(w, 0, fuel, Reminded(log, tail, Text(r)));
      TurnResult(w, fuel, base, input, r, o.(log := Stripped(o.log, log, tail)))
  {
    LoopOnReminded(w, fuel, base + UserPart(input), r);
  }

  // The user message and the reminder: the log, and what the loop is to run on.
  method Prepare(r: Reminder, messages: Slice, input: string) returns (log: Slice, transient: Slice, tail: int)
    requires messages.Valid()
    modifies messages.arr
    ensures log.Valid() && messages.len <= log.len && (log.arr == messages.arr || fresh(log.arr))
    ensures log.Elems() == old(messages.Elems()) + UserPart(input)
    ensures messages.Elems() == old(messages.Elems())
    ensures transient.Valid() && tail == Tail(log.Elems(), r)
    ensures transient.Elems() == Reminded(log.Elems(), tail, Text(r))
    ensures if tail < 0 then transient == log else fresh(transient.arr) && transient.arr != log.arr
  {
    log := messages;
    if input != "" {
      log := Append(messages, [UserMessage(input)]);
    }
    transient, tail := ApplyReminder(log, r);
  }

  // RunTurn: the returned log is the caller's, the user message and what the loop appended, with
  // no trace of the reminder; the caller's own elements are untouched.
  method RunTurn(w: World, fuel: nat, r: Reminder, messages: Slice, input: string)
    returns (updated: Slice, resp: Option<Response>, status: Status, seen: seq<seq<Message>>)
    requires messages.Valid()
    modifies messages.arr
    ensures updated.Valid()
    ensures TurnResult(w, fuel, old(messages.Elems()), input, r, Outcome(updated.Elems(), resp, status, seen))
    ensures messages.Elems() == old(messages.Elems())
    ensures updated.arr == messages.arr || fresh(updated.arr)
  {
    StrippedRun(w, fuel, messages.Elems(), input, r);
    var log, transient, tail := Prepare(r, messages, input);
    updated, resp, status, seen := RunAgentLoop(w, fuel, transient);
    StripReminder(updated, log, tail);
  }

  // RunTurnStream: the same over the folded streams, together with what was shown meanwhile.
  method RunTurnStream(w: StreamWorld, fuel: nat, r: Reminder, messages: Slice, input: string)
    returns (updated: Slice, resp: Option<Response>, status: Status, seen: seq<seq<Message>>, emitted: seq<string>)
    requires messages.Valid()
    modifies messages.arr
    ensures updated.Valid()
    ensures TurnResult(Folded(w), fuel, old(messages.Elems()), input, r, Outcome(updated.Elems(), resp, status, seen))
    ensures emitted == Emitted(w, |seen|)
    ensures messages.Elems() == old(messages.Elems())
    ensures updated.arr == messages.arr || fresh(updated.arr)
  {
    StrippedRun(Folded(w), fuel, messages.Elems(), input, r);
    var log, transient, tail := Prepare(r, messages, input);
    updated, resp, status, seen, emitted := RunAgentLoopStream(w, fuel, transient);
    StripReminder(updated, log, tail);
  }
}
