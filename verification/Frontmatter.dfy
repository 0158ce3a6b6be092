/** The line editor of pkg/cron/frontmatter.go. */
module Frontmatter {
  import opened Wrappers
  import opened Basics
  import opened Strings

  // ---- lines ------------------------------------------------------------------------------

  predicate OneLine(s: string) {
    '\n' !in s
  }

  predicate LinesOk(lines: seq<string>) {
    lines != [] && forall i :: 0 <= i < |lines| ==> OneLine(lines[i])
  }

  // strings.Split(s, "\n") and strings.Join(lines, "\n").
  function Lines(s: string): (lines: seq<string>)
    ensures LinesOk(lines)
    decreases |s|
  {
    var i := IndexFrom(s, "\n", 0);
    if i < 0 then
      assert OneLine(s) by { if '\n' in s { var j :| 0 <= j < |s| && s[j] == '\n'; assert At(s, "\n", j); } }
      [s]
    else
      assert OneLine(s[..i]) by { if '\n' in s[..i] { var j :| 0 <= j < i && s[j] == '\n'; assert At(s, "\n", j); } }
      [s[..i]] + Lines(s[i + 1..])
  }

  function Unlines(lines: seq<string>): string
    requires lines != []
  {
    if |lines| == 1 then lines[0] else lines[0] + "\n" + Unlines(lines[1..])
  }

  lemma UnlinesCons(a: string, lines: seq<string>)
    requires lines != []
    ensures Unlines([a] + lines) == a + "\n" + Unlines(lines)
  {
    assert ([a] + lines)[1..] == lines;
  }

  lemma BreakAt(s: string, i: int)
    requires At(s, "\n", i)
    ensures s[..i] + "\n" + s[i + 1..] == s
  {
    assert s[i..i + 1] == "\n";
  }

  lemma LinesUnfold(s: string, i: int)
    requires IndexFrom(s, "\n", 0) == i
    ensures i < 0 ==> Lines(s) == [s]
    ensures i >= 0 ==> Lines(s) == [s[..i]] + Lines(s[i + 1..])
  {
  }

  lemma {:induction false} SplitThenJoin(s: string)
    ensures Unlines(Lines(s)) == s
    decreases |s|
  {
    var i := IndexFrom(s, "\n", 0);
    LinesUnfold(s, i);
    if i >= 0 {
      var rest := s[i + 1..];
      SplitThenJoin(rest);
      UnlinesCons(s[..i], Lines(rest));
      BreakAt(s, i);
    }
  }

  lemma FirstBreak(a: string, rest: string)
    requires OneLine(a)
    ensures IndexFrom(a + "\n" + rest, "\n", 0) == |a|
  {
    var s := a + "\n" + rest;
    assert At(s, "\n", |a|);
    forall j | 0 <= j < |a| ensures !At(s, "\n", j) {
      assert s[j] == a[j];
    }
  }

  lemma NoBreak(line: string)
    requires OneLine(line)
    ensures IndexFrom(line, "\n", 0) == -1
  {
    forall j | 0 <= j < |line| ensures !At(line, "\n", j) {
      assert line[j] in line;
    }
  }

  lemma LinesCons(a: string, rest: string)
    requires OneLine(a)
    ensures Lines(a + "\n" + rest) == [a] + Lines(rest)
  {
    var s := a + "\n" + rest;
    FirstBreak(a, rest);
    LinesUnfold(s, |a|);
    assert s[|a| + 1..] == rest && s[..|a|] == a;
  }

  lemma {:induction false} JoinThenSplit(lines: seq<string>)
    requires LinesOk(lines)
    ensures Lines(Unlines(lines)) == lines
    decreases |lines|
  {
    if |lines| == 1 {
      NoBreak(lines[0]);
      LinesUnfold(lines[0], -1);
    } else {
      JoinThenSplit(lines[1..]);
      LinesCons(lines[0], Unlines(lines[1..]));
    }
  }

  // ---- one line ---------------------------------------------------------------------------

  function Indent(line: string): string {
    line[..|line| - |TrimLeft(Blank, line)|]
  }

  // Whether the line sets the key.
  predicate Matches(line: string, key: string) {
    var t := TrimLeft(Blank, line);
    && key + ":" <= t
    && (|t| == |key| + 1 || Blank(t[|key| + 1]) || t[|key| + 1] == '#')
  }

  // What follows the colon.
  function After(line: string, key: string): string
    requires Matches(line, key)
  {
    TrimLeft(Blank, line)[|key| + 1..]
  }

  predicate StartsComment(s: string, i: nat)
    requires i < |s|
  {
    s[i] == '#' && (i == 0 || Blank(s[i - 1]))
  }

  // Where the inline comment starts, at or behind position k; |s| if there is none.
  function CommentAt(s: string, k: nat): (i: nat)
    requires k <= |s|
    ensures k <= i <= |s|
    ensures i < |s| ==> StartsComment(s, i)
    ensures forall j :: k <= j < i ==> !StartsComment(s, j)
    decreases |s| - k
  {
    if k == |s| || StartsComment(s, k) then k else CommentAt(s, k + 1)
  }

  function InlineComment(s: string): string {
    TrimRight(Blank, s[CommentAt(s, 0)..])
  }

  method ExtractInlineComment(s: string) returns (comment: string)
    ensures comment == InlineComment(s)
  {
    for i := 0 to |s|
      invariant CommentAt(s, 0) == CommentAt(s, i)
    {
      if s[i] == '#' && (i == 0 || s[i - 1] == ' ' || s[i - 1] == '\t') {
        return TrimRight(Blank, s[i..]);
      }
    }
    return "";
  }

  function WithComment(text: string, comment: string): string {
    if comment == "" then text else text + " " + comment
  }

  // The text that follows "key:" on a rewritten line.
  function NewAfter(scalar: string, comment: string): string {
    WithComment(" " + scalar, comment)
  }

  function NewLine(indent: string, key: string, scalar: string, comment: string): string {
    WithComment(indent + key + ": " + scalar, comment)
  }

  // ---- the edit ---------------------------------------------------------------------------

  function Setting(key: string): string -> bool {
    (line: string) => Matches(line, key)
  }

  // The first matching line; |lines| if there is none.
  function FirstMatch(lines: seq<string>, key: string): (i: nat)
    ensures i <= |lines|
    ensures i < |lines| ==> Matches(lines[i], key)
    ensures forall j :: 0 <= j < i ==> !Matches(lines[j], key)
  {
    FirstSuch(Setting(key), lines, 0)
  }

  predicate BlankLine(line: string) {
    Trim(Space, line) == ""
  }

  // Before the blank lines that end the block.
  function InsertAt(lines: seq<string>, n: nat): nat
    requires n <= |lines|
  {
    BackOver(BlankLine, lines, n)
  }

  function SetLines(lines: seq<string>, key: string, scalar: string): (r: seq<string>)
    requires lines != []
    ensures r != []
  {
    var i := FirstMatch(lines, key);
    if i < |lines| then
      lines[i := NewLine(Indent(lines[i]), key, scalar, InlineComment(After(lines[i], key)))]
    else
      Inserted(lines, InsertAt(lines, |lines|), key + ": " + scalar)
  }

  function Set(frontmatter: string, key: string, scalar: string): string {
    Unlines(SetLines(Lines(frontmatter), key, scalar))
  }

  // The loop body: the rewritten line, if this is the one to rewrite.
  method RewriteLine(line: string, key: string, scalar: string) returns (r: Option<string>)
    ensures r == if Matches(line, key)
                 then Some(NewLine(Indent(line), key, scalar, InlineComment(After(line, key))))
                 else None
  {
    var keyPrefix := key + ":";
    var trimmed := TrimLeft(Blank, line);
    if !(keyPrefix <= trimmed) {
      return None;
    }
    var after := trimmed[|keyPrefix|..];
    if after != "" && after[0] != ' ' && after[0] != '\t' && after[0] != '#' {
      return None;
    }
    var indent := line[..|line| - |trimmed|];
    var comment := ExtractInlineComment(after);
    var newLine := indent + key + ": " + scalar;
    if comment != "" {
      newLine := newLine + " " + comment;
    }
    r := Some(newLine);
  }

  method ReplaceOrAppendField(frontmatter: string, key: string, scalar: string) returns (r: string)
    ensures r == Set(frontmatter, key, scalar)
  {
    var lines := EditLines(Lines(frontmatter), key, scalar);
    r := Unlines(lines);
  }

  method EditLines(lines: seq<string>, key: string, scalar: string) returns (r: seq<string>)
    requires lines != []
    ensures r == SetLines(lines, key, scalar)
  {
    for i := 0 to |lines|
      invariant FirstMatch(lines, key) == FirstSuch(Setting(key), lines, i)
    {
      var newLine := RewriteLine(lines[i], key, scalar);
      if newLine.Some? {
        return lines[i := newLine.value];
      }
    }
    var insertAt := BeforeBlanks(lines);
    r := Inserted(lines, insertAt, key + ": " + scalar);
  }

  method BeforeBlanks(lines: seq<string>) returns (insertAt: nat)
    ensures insertAt == InsertAt(lines, |lines|)
  {
    insertAt := |lines|;
    while insertAt > 0 && BlankLine(lines[insertAt - 1])
      invariant 0 <= insertAt <= |lines| && InsertAt(lines, |lines|) == InsertAt(lines, insertAt)
    {
      insertAt := insertAt - 1;
    }
  }
}
