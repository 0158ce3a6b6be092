/** Markdown files framed by "---" lines: pkg/cron/cron.go, pkg/skill/skill.go and
    SetFrontmatterField of pkg/cron/frontmatter.go. */
module Framing {
  import opened Wrappers
  import opened Strings
  import opened Files
  import opened Frontmatter
  import opened FrontmatterLaws

  const OPENING := "---\n"
  const CLOSING := "\n---"

  datatype FrameError = MissingOpening | MissingClosing

  // The block between the delimiters, and the rest from the closing delimiter on.
  datatype Framed = Framed(frontmatter: string, trailer: string)

  function Unframe(content: string): (r: Result<Framed, FrameError>)
    ensures r.Ok? ==> CLOSING <= r.value.trailer
  {
    if !(OPENING <= content) then Err(MissingOpening)
    else
      var rest := content[4..];
      var idx := IndexFrom(rest, CLOSING, 0);
      if idx < 0 then Err(MissingClosing) else Ok(Framed(rest[..idx], rest[idx..]))
  }

  // The trimmed text behind the closing delimiter.
  function BodyOf(f: Framed): string
    requires CLOSING <= f.trailer
  {
    Trim(Space, f.trailer[4..])
  }

  // What Serialize writes around a marshalled block.
  function Serialized(block: string, body: string): string {
    var text := OPENING + block + "---\n";
    if body != "" then text + body + "\n" else text
  }

  ghost predicate FreeOfClosing(s: string) {
    forall j :: !At(s, CLOSING, j)
  }

  lemma UnframedParts(content: string)
    requires Unframe(content).Ok?
    ensures var f := Unframe(content).value;
      && content == OPENING + f.frontmatter + f.trailer
      && CLOSING <= f.trailer && FreeOfClosing(f.frontmatter)
  {
    var rest := content[4..];
    var idx := IndexFrom(rest, CLOSING, 0);
    assert content == OPENING + rest && rest == rest[..idx] + rest[idx..];
    forall j ensures !At(rest[..idx], CLOSING, j) {
      if At(rest[..idx], CLOSING, j) {
        assert rest[j..j + 4] == rest[..idx][j..j + 4];
        assert At(rest, CLOSING, j);
      }
    }
  }

  lemma ClosingAt(s: string, j: nat)
    ensures At(s, CLOSING, j) <==>
      j + 4 <= |s| && s[j] == '\n' && s[j + 1] == '-' && s[j + 2] == '-' && s[j + 3] == '-'
  {
    if j + 4 <= |s| {
      var t := s[j..j + 4];
      assert t == CLOSING <==> t[0] == '\n' && t[1] == '-' && t[2] == '-' && t[3] == '-';
    }
  }

  // An occurrence in front of a trailer lies within the block: the trailer's newline can match
  // nothing but the first character of the delimiter.
  lemma NoStraddling(block: string, trailer: string, j: nat)
    requires CLOSING <= trailer && j < |block|
    ensures At(block + trailer, CLOSING, j) <==> At(block, CLOSING, j)
  {
    assert (block + trailer)[|block|] == '\n';
    ClosingAt(block + trailer, j);
    ClosingAt(block, j);
  }

  // A block is found again exactly when it does not hold the closing delimiter.
  lemma UnframesExactlyWhen(block: string, trailer: string)
    requires CLOSING <= trailer
    ensures Unframe(OPENING + block + trailer) == Ok(Framed(block, trailer)) <==> FreeOfClosing(block)
  {
    var content, s := OPENING + block + trailer, block + trailer;
    assert content[4..] == s;
    assert s[|block|..|block| + 4] == CLOSING;
    assert At(s, CLOSING, |block|);
    if FreeOfClosing(block) {
      forall j | 0 <= j < |block| ensures !At(s, CLOSING, j) { NoStraddling(block, trailer, j); }
      assert IndexFrom(s, CLOSING, 0) == |block|;
      assert s[..|block|] == block && s[|block|..] == trailer;
    } else if Unframe(content) == Ok(Framed(block, trailer)) {
      UnframedParts(content);
    }
  }

  // Why a text cannot be split.
  lemma UnframeFailsWhen(content: string)
    ensures Unframe(content) == Err(MissingOpening) <==> !("---\n" <= content)
    ensures Unframe(content) == Err(MissingClosing) <==>
      "---\n" <= content && forall j :: !At(content[4..], "\n---", j)
  {
    if OPENING <= content && IndexFrom(content[4..], CLOSING, 0) >= 0 {
      assert At(content[4..], CLOSING, IndexFrom(content[4..], CLOSING, 0));
    }
  }

  // ---- SetFrontmatterField ----------------------------------------------------------------

  datatype FieldError = Unreadable | Unframed(error: FrameError) | Unmarshalable | WriteFailed

  // The whole file with one field set; scalar is what marshalScalar made of the value, if it could.
  function Rewritten(content: string, key: string, scalar: Option<string>): Result<string, FieldError> {
    match Unframe(content)
    case Err(e) => Err(Unframed(e))
    case Ok(f) =>
      if scalar.None? then Err(Unmarshalable)
      else Ok(OPENING + Set(f.frontmatter, key, scalar.value) + f.trailer)
  }

  // Why no file is rewritten: it cannot be split, or the value cannot be marshalled.
  lemma RewriteFailsWhen(content: string, key: string, scalar: Option<string>)
    ensures Rewritten(content, key, scalar).Err? <==> Unframe(content).Err? || scalar.None?
    ensures Unframe(content).Err? ==> Rewritten(content, key, scalar) == Err(Unframed(Unframe(content).error))
    ensures Unframe(content).Ok? && scalar.None? ==> Rewritten(content, key, scalar) == Err(Unmarshalable)
  {
  }

  method SetFrontmatterField(fs: FileSystem, path: string, key: string, scalar: Option<string>, disk: Disk)
    returns (r: Result<(), FieldError>)
    modifies fs
    ensures path !in old(fs.files) ==> r == Err(Unreadable) && fs.files == old(fs.files)
    ensures path in old(fs.files) ==>
      match Rewritten(old(fs.files)[path], key, scalar)
      case Ok(content) =>
        && fs.files == AfterWrite(old(fs.files), path, content, disk)
        && r == (if disk.Writes? then Ok(()) else Err(WriteFailed))
      case Err(e) => r == Err(e) && fs.files == old(fs.files)
  {
    var data := fs.ReadFile(path);
    if data.None? {
      return Err(Unreadable);
    }
    var content := data.value;
    if !("---\n" <= content) {
      return Err(Unframed(MissingOpening));
    }
    var rest := content[4..];
    var idx := IndexFrom(rest, "\n---", 0);
    if idx < 0 {
      return Err(Unframed(MissingClosing));
    }
    var frontmatter := rest[..idx];
    var trailer := rest[idx..];
    if scalar.None? {
      return Err(Unmarshalable);
    }
    var newFrontmatter := ReplaceOrAppendField(frontmatter, key, scalar.value);
    var ok := fs.WriteFile(path, "---\n" + newFrontmatter + trailer, disk);
    r := if ok then Ok(()) else Err(WriteFailed);
  }

  // ---- rewriting and framing --------------------------------------------------------------

  // A line that would read as a closing delimiter behind another line.
  predicate Dashed(line: string) {
    "---" <= line
  }

  predicate NoDashed(lines: seq<string>) {
    forall i :: 1 <= i < |lines| ==> !Dashed(lines[i])
  }

  lemma AtBehind(a: string, rest: string, j: nat)
    requires OneLine(a)
    ensures At(a + "\n" + rest, CLOSING, j) <==>
      (j == |a| && "---" <= rest) || (j > |a| && At(rest, CLOSING, j - |a| - 1))
  {
    ClosingAt(a + "\n" + rest, j);
    if j == |a| {
      assert "---" <= rest <==> |rest| >= 3 && rest[0] == '-' && rest[1] == '-' && rest[2] == '-';
    } else if j > |a| {
      ClosingAt(rest, j - |a| - 1);
    }
  }

  lemma FreeBehind(a: string, rest: string)
    requires OneLine(a)
    ensures FreeOfClosing(a + "\n" + rest) <==> !("---" <= rest) && FreeOfClosing(rest)
  {
    var s := a + "\n" + rest;
    AtBehind(a, rest, |a|);
    if FreeOfClosing(s) {
      forall j | 0 <= j ensures !At(rest, CLOSING, j) { AtBehind(a, rest, |a| + 1 + j); }
    } else {
      var j :| At(s, CLOSING, j);
      AtBehind(a, rest, j);
    }
  }

  lemma DashedFirst(lines: seq<string>)
    requires LinesOk(lines)
    ensures "---" <= Unlines(lines) <==> Dashed(lines[0])
  {
    var a, s := lines[0], Unlines(lines);
    if |lines| > 1 {
      if |a| >= 3 { assert s[..3] == a[..3]; }
      else { assert s[|a|] == '\n'; }
    }
  }

  lemma NoDashedCons(lines: seq<string>)
    requires |lines| > 1
    ensures NoDashed(lines) <==> !Dashed(lines[1]) && NoDashed(lines[1..])
  {
    var tail := lines[1..];
    assert forall i :: 1 <= i < |tail| ==> tail[i] == lines[i + 1];
    assert forall i :: 2 <= i < |lines| ==> lines[i] == tail[i - 1];
  }

  // In a block of lines the closing delimiter is a dashed line that is not the first.
  lemma {:induction false} ClosingIsDashedLine(lines: seq<string>)
    requires LinesOk(lines)
    ensures FreeOfClosing(Unlines(lines)) <==> NoDashed(lines)
    decreases |lines|
  {
    var s := Unlines(lines);
    if |lines| == 1 {
      forall j | 0 <= j ensures !At(s, CLOSING, j) { ClosingAt(s, j); }
    } else {
      ClosingIsDashedLine(lines[1..]);
      DashedFirst(lines[1..]);
      FreeBehind(lines[0], Unlines(lines[1..]));
      NoDashedCons(lines);
    }
  }

  // ---- the laws ---------------------------------------------------------------------------

  lemma NotDashed(indent: string, key: string, rest: string)
    requires AllSatisfy(Blank, indent) && !Dashed(key)
    ensures !Dashed(indent + (key + ":" + rest))
  {
    var l := indent + (key + ":" + rest);
    if indent != "" {
      assert Blank(indent[0]) && l[0] == indent[0];
    } else if |key| < 3 {
      assert l[|key|] == ':';
    } else {
      assert l[..3] == key[..3];
    }
  }

  lemma EditedLineIsNotDashed(lines: seq<string>, key: string, v: string)
    requires !Dashed(key)
    ensures !Dashed(EditedLine(lines, key, v))
  {
    var i := FirstMatch(lines, key);
    var indent, c := KeptIndent(lines, key), CommentLines(lines, key);
    if i < |lines| { IndentIsBlank(lines[i]); }
    NewLineSplits(indent, key, v, c);
    NotDashed(indent, key, NewAfter(v, c));
  }

  lemma BlankIsNotDashed(line: string)
    requires BlankLine(line)
    ensures !Dashed(line)
  {
  }

  lemma EditKeepsNoDashed(lines: seq<string>, r: seq<string>, i: nat, x: string, cut: nat)
    requires Edits(lines, r, i, x, cut) && NoDashed(lines) && !Dashed(x)
    requires i == 0 && cut == 0 && lines != [] ==> !Dashed(lines[0])
    ensures NoDashed(r)
  {
    forall j | 1 <= j < |r| ensures !Dashed(r[j]) {
      if j > i { assert r[j] == lines[j - 1 + cut]; }
    }
  }

  lemma SetKeepsNoDashed(lines: seq<string>, key: string, v: string)
    requires lines != [] && !Dashed(key) && NoDashed(lines)
    ensures NoDashed(SetLines(lines, key, v))
  {
    var i, x := Place(lines, key), EditedLine(lines, key, v);
    OneLineChanges(lines, key, v);
    EditedLineIsNotDashed(lines, key, v);
    if Cut(lines, key) == 0 && i == 0 { BlankIsNotDashed(lines[0]); }
    EditKeepsNoDashed(lines, SetLines(lines, key, v), i, x, Cut(lines, key));
  }

  lemma SetKeepsFree(frontmatter: string, key: string, v: string)
    requires OneLine(key) && !Dashed(key) && OneLine(v) && FreeOfClosing(frontmatter)
    ensures FreeOfClosing(Set(frontmatter, key, v))
  {
    var lines := Lines(frontmatter);
    SplitThenJoin(frontmatter);
    ClosingIsDashedLine(lines);
    SetKeepsNoDashed(lines, key, v);
    OneLineChanges(lines, key, v);
    EditedLineOk(lines, key, v);
    EditKeepsLines(lines, SetLines(lines, key, v), Place(lines, key), EditedLine(lines, key, v), Cut(lines, key));
    ClosingIsDashedLine(SetLines(lines, key, v));
  }

  // Rewriting a field leaves everything from the closing delimiter on as it was, and the file
  // splits at that delimiter again.
  lemma RewriteKeepsTheFrame(content: string, key: string, v: string)
    requires OneLine(key) && !Dashed(key) && OneLine(v) && Unframe(content).Ok?
    ensures var f, r := Unframe(content).value, Rewritten(content, key, Some(v));
      r.Ok? && Unframe(r.value) == Ok(Framed(Set(f.frontmatter, key, v), f.trailer))
  {
    var f := Unframe(content).value;
    UnframedParts(content);
    SetKeepsFree(f.frontmatter, key, v);
    UnframesExactlyWhen(Set(f.frontmatter, key, v), f.trailer);
  }

  // ---- serializing ------------------------------------------------------------------------

  function TrailerFor(body: string): string {
    if body != "" then "\n---\n" + body + "\n" else "\n---\n"
  }

  lemma SerializedParts(block: string, body: string)
    ensures Serialized(block + "\n", body) == OPENING + block + TrailerFor(body)
  {
    var d := "---\n";
    assert block + "\n" + d == block + ("\n" + d) && "\n" + d == "\n---\n";
    assert OPENING + (block + "\n") + d == OPENING + block + "\n---\n";
    if body != "" {
      assert OPENING + block + "\n---\n" + body + "\n" == OPENING + block + ("\n---\n" + body + "\n");
    }
  }

  lemma TrailerBody(body: string)
    ensures CLOSING <= TrailerFor(body)
    ensures Trim(Space, TrailerFor(body)[4..]) == body <==> Trimmed(Space, body)
  {
    var t := TrailerFor(body)[4..];
    if body == "" {
      TrimFinds(Space, "\n", "", "");
      assert t == "\n" + "" + "";
    } else {
      assert t == "\n" + body + "\n";
      TrimIsTrimmed(Space, t);
      if Trimmed(Space, body) { TrimFinds(Space, "\n", body, "\n"); }
    }
  }

  // Serializing and parsing the frame gives both parts back exactly when the block does not hold
  // the closing delimiter and the body is trimmed.
  lemma FrameRoundTrip(block: string, body: string)
    ensures var u := Unframe(Serialized(block + "\n", body));
      u.Ok? && CLOSING <= u.value.trailer && u.value.frontmatter == block && BodyOf(u.value) == body
      <==> FreeOfClosing(block) && Trimmed(Space, body)
  {
    var u := Unframe(Serialized(block + "\n", body));
    SerializedParts(block, body);
    TrailerBody(body);
    UnframesExactlyWhen(block, TrailerFor(body));
    if u.Ok? && u.value.frontmatter == block {
      UnframedParts(Serialized(block + "\n", body));
      SameFront(block, u.value.trailer, TrailerFor(body));
    }
  }

  lemma SameFront(block: string, t1: string, t2: string)
    requires OPENING + block + t1 == OPENING + block + t2
    ensures t1 == t2
  {
    var n := |OPENING + block|;
    assert t1 == (OPENING + block + t1)[n..] && t2 == (OPENING + block + t2)[n..];
  }
}
