/** What the frontmatter editor does to the fields of a block: the lines that set a key at the
    depth of the block's first line. */
module FrontmatterFields {
  import opened Wrappers
  import opened Basics
  import opened Strings
  import opened Frontmatter
  import opened FrontmatterLaws

  // ---- depth ------------------------------------------------------------------------------

  // Which lines count, and how deep they are.
  datatype Reader = Reader(content: string -> bool, indent: string -> string)

  // The indent of the first line that counts at or behind position k.
  function IndentFrom(y: Reader, lines: seq<string>, k: nat): string
    requires k <= |lines|
  {
    var i := FirstSuch(y.content, lines, k);
    if i < |lines| then y.indent(lines[i]) else ""
  }

  // The lines with property m that are as deep as base.
  function AsDeep(y: Reader, m: string -> bool, base: string): string -> bool {
    (line: string) => m(line) && y.indent(line) == base
  }

  // The first line with property m that is as deep as the first line that counts.
  function FirstField(y: Reader, m: string -> bool, lines: seq<string>): (i: nat)
    ensures i <= |lines|
    ensures i < |lines| ==> m(lines[i])
  {
    FirstSuch(AsDeep(y, m, IndentFrom(y, lines, 0)), lines, 0)
  }

  // Whether the value on line i goes on over the lines behind it: they are indented deeper.
  predicate GoesOn(y: Reader, lines: seq<string>, i: nat)
    requires i < |lines|
  {
    |IndentFrom(y, lines, i + 1)| > |IndentFrom(y, lines, 0)|
  }

  // A new line has only lines behind it that do not count; a line that replaces another is as
  // deep.
  predicate Seamless(y: Reader, lines: seq<string>, i: nat, x: string, cut: nat)
    requires i + cut <= |lines| && cut <= 1
  {
    && y.content(x)
    && (cut == 1 ==> y.content(lines[i]) && y.indent(x) == y.indent(lines[i]))
    && (cut == 0 ==> y.indent(x) == "" && forall j :: i <= j < |lines| ==> !y.content(lines[j]))
  }

  // No indent but that of the edited line itself changes.
  lemma IndentsKept(y: Reader, lines: seq<string>, r: seq<string>, i: nat, x: string, cut: nat, k: nat)
    requires Edits(lines, r, i, x, cut) && Seamless(y, lines, i, x, cut) && k <= i
    ensures IndentFrom(y, r, k) == IndentFrom(y, lines, k)
  {
    var j := FirstSuch(y.content, lines, k);
    FirstSuchIs(y.content, r, k, if j < i then j else i);
  }

  lemma IndentsBehind(y: Reader, lines: seq<string>, r: seq<string>, i: nat, x: string, cut: nat, k: nat)
    requires Edits(lines, r, i, x, cut) && i + cut <= k <= |lines|
    ensures IndentFrom(y, r, k + 1 - cut) == IndentFrom(y, lines, k)
  {
    var j := FirstSuch(y.content, lines, k);
    FirstSuchIs(y.content, r, k + 1 - cut, j + 1 - cut);
  }

  // Whether a value goes on is as before, line by line.
  lemma GoingOnKept(y: Reader, lines: seq<string>, r: seq<string>, i: nat, x: string, cut: nat, j: nat, j': nat)
    requires Edits(lines, r, i, x, cut) && Seamless(y, lines, i, x, cut)
    requires j < |lines| && j' == if j < i then j else j + 1 - cut
    ensures GoesOn(y, r, j') <==> GoesOn(y, lines, j)
  {
    IndentsKept(y, lines, r, i, x, cut, 0);
    if j < i {
      IndentsKept(y, lines, r, i, x, cut, j + 1);
    } else {
      IndentsBehind(y, lines, r, i, x, cut, j + 1);
    }
  }

  lemma NewLineEnds(y: Reader, lines: seq<string>, r: seq<string>, i: nat, x: string)
    requires Edits(lines, r, i, x, 0) && Seamless(y, lines, i, x, 0)
    ensures !GoesOn(y, r, i)
  {
    IndentsBehind(y, lines, r, i, x, 0, i);
    FirstSuchIs(y.content, lines, i, |lines|);
  }

  // A field the edit does not concern.
  lemma OtherField(y: Reader, m: string -> bool, lines: seq<string>, r: seq<string>, i: nat, x: string, cut: nat)
    requires Edits(lines, r, i, x, cut) && Seamless(y, lines, i, x, cut)
    requires !AsDeep(y, m, IndentFrom(y, lines, 0))(x)
    requires cut == 1 ==> !AsDeep(y, m, IndentFrom(y, lines, 0))(lines[i])
    ensures var j, j' := FirstField(y, m, lines), FirstField(y, m, r);
      && (j < |lines| <==> j' < |r|)
      && (j < |lines| ==> r[j'] == lines[j] && (GoesOn(y, r, j') <==> GoesOn(y, lines, j)))
  {
    IndentsKept(y, lines, r, i, x, cut, 0);
    EditMisses(AsDeep(y, m, IndentFrom(y, lines, 0)), lines, r, i, x, cut);
    var j := FirstField(y, m, lines);
    if j < |lines| { GoingOnKept(y, lines, r, i, x, cut, j, FirstField(y, m, r)); }
  }

  // The edited line, when it is as deep as the fields.
  lemma FieldFound(y: Reader, m: string -> bool, lines: seq<string>, r: seq<string>, i: nat, x: string, cut: nat)
    requires Edits(lines, r, i, x, cut) && Seamless(y, lines, i, x, cut)
    requires m(x) && y.indent(x) == IndentFrom(y, lines, 0)
    requires forall j :: 0 <= j < i ==> !m(lines[j])
    requires cut == 1 ==> m(lines[i])
    ensures FirstField(y, m, r) == i && r[i] == x
    ensures cut == 1 ==> FirstField(y, m, lines) == i
    ensures GoesOn(y, r, i) <==> cut == 1 && GoesOn(y, lines, i)
  {
    IndentsKept(y, lines, r, i, x, cut, 0);
    FirstSuchIs(AsDeep(y, m, IndentFrom(y, lines, 0)), r, 0, i);
    if cut == 1 {
      FirstSuchIs(AsDeep(y, m, IndentFrom(y, lines, 0)), lines, 0, i);
      GoingOnKept(y, lines, r, i, x, 1, i, i);
    } else {
      NewLineEnds(y, lines, r, i, x);
    }
  }

  // ---- fields -----------------------------------------------------------------------------

  // A line that is neither blank nor a comment.
  predicate IsContent(line: string) {
    var t := TrimLeft(Space, line);
    t != "" && t[0] != '#'
  }

  const BLOCK := Reader(IsContent, Indent)

  function FieldLines(y: Reader, lines: seq<string>, key: string): Option<string> {
    var i := FirstField(y, Setting(key), lines);
    if i < |lines| && !GoesOn(y, lines, i) then Some(ValueOf(After(lines[i], key))) else None
  }

  // The one-line value of a field.
  function Field(frontmatter: string, key: string): Option<string> {
    FieldLines(BLOCK, Lines(frontmatter), key)
  }

  // A key that neither a blank nor a comment starts with.
  predicate FieldKey(key: string) {
    KeyOk(key) && (key == "" || (!Space(key[0]) && key[0] != '#'))
  }

  lemma FieldIsContent(line: string, key: string)
    requires FieldKey(key) && Matches(line, key)
    ensures IsContent(line)
  {
    var t := TrimLeft(Blank, line);
    assert t[0] == if key == "" then ':' else key[0];
    assert line == Indent(line) + t;
    TrimLeftDrops(Space, Indent(line), t);
  }

  lemma ContentIsNotBlank(line: string)
    requires IsContent(line)
    ensures !BlankLine(line)
  {
  }

  lemma EditIsSeamless(lines: seq<string>, key: string, v: string)
    requires lines != [] && FieldKey(key)
    ensures Seamless(BLOCK, lines, Place(lines, key), EditedLine(lines, key, v), Cut(lines, key))
  {
    var i := Place(lines, key);
    EditedLineReads(lines, key, v);
    FieldIsContent(EditedLine(lines, key, v), key);
    if Cut(lines, key) == 1 {
      FieldIsContent(lines[i], key);
    } else {
      forall j | i <= j < |lines| ensures !IsContent(lines[j]) {
        if IsContent(lines[j]) { ContentIsNotBlank(lines[j]); }
      }
    }
  }

  // ---- the laws ---------------------------------------------------------------------------

  // The first line that sets the key is as deep as the fields and its value does not go on; a
  // new line, which is not indented, is as deep.
  predicate EditsField(lines: seq<string>, key: string) {
    && KeptIndent(lines, key) == IndentFrom(BLOCK, lines, 0)
    && (FirstMatch(lines, key) < |lines| ==> !GoesOn(BLOCK, lines, FirstMatch(lines, key)))
  }

  lemma FieldBack(y: Reader, lines: seq<string>, key: string, v: string)
    requires lines != [] && KeyOk(key) && ScalarOk(v)
    requires Seamless(y, lines, Place(lines, key), EditedLine(lines, key, v), Cut(lines, key))
    requires y.indent(EditedLine(lines, key, v)) == IndentFrom(y, lines, 0)
    ensures var i := FirstMatch(lines, key);
      if i < |lines| && GoesOn(y, lines, i)
      then FieldLines(y, SetLines(lines, key, v), key) == FieldLines(y, lines, key) == None
      else FieldLines(y, SetLines(lines, key, v), key) == Some(v)
  {
    OneLineChanges(lines, key, v);
    EditedLineReads(lines, key, v);
    FieldFound(y, Setting(key), lines, SetLines(lines, key, v), Place(lines, key), EditedLine(lines, key, v),
               Cut(lines, key));
    CommentLinesOk(lines, key);
    NewAfterReads(v, CommentLines(lines, key));
  }

  // A key whose line the edit does not reach as a field.
  lemma FieldUntouched(y: Reader, lines: seq<string>, key: string, v: string, other: string)
    requires lines != [] && KeyOk(key) && (other == key || ':' !in other)
    requires Seamless(y, lines, Place(lines, key), EditedLine(lines, key, v), Cut(lines, key))
    requires other == key ==> y.indent(EditedLine(lines, key, v)) != IndentFrom(y, lines, 0)
    ensures FieldLines(y, SetLines(lines, key, v), other) == FieldLines(y, lines, other)
  {
    var x, i := EditedLine(lines, key, v), Place(lines, key);
    OneLineChanges(lines, key, v);
    EditedLineReads(lines, key, v);
    if other != key {
      if Matches(x, other) { OneKey(x, key, other); }
      if Cut(lines, key) == 1 && Matches(lines[i], other) { OneKey(lines[i], key, other); }
    }
    OtherField(y, Setting(other), lines, SetLines(lines, key, v), i, x, Cut(lines, key));
  }

  // The field reads back as what was put exactly when the edit meets a field with a one-line
  // value, or adds one to fields that are not indented.
  lemma SetThenField(frontmatter: string, key: string, v: string)
    requires FieldKey(key) && ScalarOk(v)
    ensures Field(Set(frontmatter, key, v), key) == Some(v) <==>
      EditsField(Lines(frontmatter), key) || Field(frontmatter, key) == Some(v)
  {
    var lines := Lines(frontmatter);
    LinesOfSet(frontmatter, key, v);
    EditedLineReads(lines, key, v);
    EditIsSeamless(lines, key, v);
    if KeptIndent(lines, key) == IndentFrom(BLOCK, lines, 0) {
      FieldBack(BLOCK, lines, key, v);
    } else {
      FieldUntouched(BLOCK, lines, key, v, key);
    }
  }

  // Every other field reads as before.
  lemma OtherFieldsUntouched(frontmatter: string, key: string, v: string, other: string)
    requires FieldKey(key) && OneLine(v) && ':' !in other && other != key
    ensures Field(Set(frontmatter, key, v), other) == Field(frontmatter, other)
  {
    LinesOfSet(frontmatter, key, v);
    EditIsSeamless(Lines(frontmatter), key, v);
    FieldUntouched(BLOCK, Lines(frontmatter), key, v, other);
  }

  // ---- what is written, character by character --------------------------------------------

  // What may follow the colon of a line that sets a key.
  predicate Follows(after: string) {
    after == "" || after[0] == ' ' || after[0] == '\t' || after[0] == '#'
  }

  // The lines that set a key: it stands behind blanks and in front of a colon that ends the line
  // or has a blank or # behind it.
  lemma MatchesExactlyWhen(line: string, key: string)
    requires KeyOk(key)
    ensures Matches(line, key) <==> exists indent, after ::
      AllSatisfy(Blank, indent) && Follows(after) && line == indent + (key + ":" + after)
  {
    if Matches(line, key) {
      IndentIsBlank(line);
      var indent, after := Indent(line), After(line, key);
      assert line == indent + (key + ":" + after);
      assert AllSatisfy(Blank, indent) && Follows(after);
    }
    if indent, after :| AllSatisfy(Blank, indent) && Follows(after) && line == indent + (key + ":" + after) {
      FieldLine(indent, key, after);
    }
  }

  // A # that is first or behind a blank, with none before it.
  predicate FirstHash(after: string, c: nat) {
    && c < |after| && after[c] == '#' && (c == 0 || after[c - 1] == ' ' || after[c - 1] == '\t')
    && forall j :: 0 <= j < c && after[j] == '#' ==> j > 0 && after[j - 1] != ' ' && after[j - 1] != '\t'
  }

  // What is kept: from the first such # on, without the blanks at the end.
  lemma KeptReads(after: string)
    ensures (forall c: nat :: !FirstHash(after, c)) ==> InlineComment(after) == ""
    ensures forall c: nat :: FirstHash(after, c) ==>
      && InlineComment(after) != "" && InlineComment(after) <= after[c..]
      && AllSatisfy(Blank, after[c + |InlineComment(after)|..])
      && !Blank(InlineComment(after)[|InlineComment(after)| - 1])
  {
    var c := CommentAt(after, 0);
    if c < |after| {
      forall j | 0 <= j < c && after[j] == '#' ensures j > 0 && after[j - 1] != ' ' && after[j - 1] != '\t' {
        assert !StartsComment(after, j);
      }
      assert FirstHash(after, c);
      HashIsFirst(after, c);
      TrimmedTail(after[c..]);
      assert after[c..][|InlineComment(after)|..] == after[c + |InlineComment(after)|..];
    } else {
      forall d: nat ensures !FirstHash(after, d) { if d < |after| { assert !StartsComment(after, d); } }
    }
  }

  lemma HashIsFirst(after: string, c: nat)
    requires c == CommentAt(after, 0) < |after|
    ensures forall d: nat :: FirstHash(after, d) ==> d == c
  {
    assert StartsComment(after, c) && after[c] == '#';
    forall d: nat | FirstHash(after, d) ensures d == c {
      assert StartsComment(after, d);
    }
  }

  lemma TrimmedTail(t: string)
    requires t != "" && t[0] == '#'
    ensures var k := |TrimRight(Blank, t)|;
      k > 0 && AllSatisfy(Blank, t[k..]) && !Blank(TrimRight(Blank, t)[k - 1])
  {
    assert BackOver(Blank, t, |t|) > 0;
  }

  // The first line that sets the key is written anew: its indent, the key, the scalar, and what is
  // kept behind a blank; every other line stays.
  lemma SetWrites(frontmatter: string, key: string, v: string, i: nat, indent: string, after: string)
    requires KeyOk(key) && OneLine(v) && AllSatisfy(Blank, indent) && Follows(after)
    requires i < |Lines(frontmatter)| && Lines(frontmatter)[i] == indent + (key + ":" + after)
    requires forall j :: 0 <= j < i ==> !Matches(Lines(frontmatter)[j], key)
    ensures var c := InlineComment(after);
      Lines(Set(frontmatter, key, v)) ==
        Lines(frontmatter)[i := indent + key + ": " + v + if c == "" then "" else " " + c]
  {
    var lines := Lines(frontmatter);
    FieldLine(indent, key, after);
    FirstSuchIs(Setting(key), lines, 0, i);
    LinesOfSet(frontmatter, key, v);
    CommentBehind(indent + key + ": " + v, InlineComment(after));
  }

  lemma CommentBehind(text: string, c: string)
    ensures WithComment(text, c) == text + if c == "" then "" else " " + c
  {
  }

  // Without such a line one is added, in front of the lines of nothing but space at the end.
  lemma SetAdds(frontmatter: string, key: string, v: string) returns (at: nat)
    requires KeyOk(key) && OneLine(v)
    requires forall j :: 0 <= j < |Lines(frontmatter)| ==> !Matches(Lines(frontmatter)[j], key)
    ensures at <= |Lines(frontmatter)|
    ensures Lines(Set(frontmatter, key, v)) ==
      Lines(frontmatter)[..at] + [key + ": " + v] + Lines(frontmatter)[at..]
    ensures forall j :: at <= j < |Lines(frontmatter)| ==> BlankLine(Lines(frontmatter)[j])
    ensures at > 0 ==> !BlankLine(Lines(frontmatter)[at - 1])
  {
    var lines := Lines(frontmatter);
    FirstSuchIs(Setting(key), lines, 0, |lines|);
    LinesOfSet(frontmatter, key, v);
    at := InsertAt(lines, |lines|);
  }

  // ---- where the edit goes wrong ----------------------------------------------------------

  function FieldText(indent: string, key: string, after: string): string {
    indent + (key + ":" + after)
  }

  // What may follow the colon of a line.
  predicate AfterOk(after: string) {
    OneLine(after) && (after == "" || Blank(after[0]) || after[0] == '#')
  }

  lemma FieldParts(indent: string, key: string, after: string)
    requires FieldKey(key) && AllSatisfy(Blank, indent) && AfterOk(after)
    ensures var line := FieldText(indent, key, after);
      && OneLine(line) && Matches(line, key) && After(line, key) == after
      && Indent(line) == indent && IsContent(line)
  {
    FieldLine(indent, key, after);
    FieldIsContent(FieldText(indent, key, after), key);
    ConcatOneLine(key, ":");
    ConcatOneLine(key + ":", after);
    ConcatOneLine(indent, key + ":" + after);
  }

  lemma OtherKey(indent: string, key: string, after: string, other: string)
    requires FieldKey(key) && AllSatisfy(Blank, indent) && AfterOk(after)
    requires ':' !in other && other != key
    ensures !Matches(FieldText(indent, key, after), other)
  {
    FieldParts(indent, key, after);
    if Matches(FieldText(indent, key, after), other) { OneKey(FieldText(indent, key, after), key, other); }
  }

  lemma TwoLines(a: string, b: string)
    requires OneLine(a) && OneLine(b)
    ensures Lines(a + "\n" + b) == [a, b]
  {
    LinesCons(a, b);
    OneLineOnly(b);
  }

  // What an edit writes over a line without a comment.
  lemma SetReplaces(lines: seq<string>, i: nat, indent: string, key: string, v: string)
    requires i < |lines| && FirstMatch(lines, key) == i
    requires Indent(lines[i]) == indent && NoComment(After(lines[i], key))
    ensures SetLines(lines, key, v) == lines[i := FieldText(indent, key, " " + v)]
  {
    CommentIsEmpty(After(lines[i], key));
    NewLineSplits(indent, key, v, "");
  }

  lemma FirstOfTwo(a: string, b: string, key: string)
    requires Matches(a, key) || Matches(b, key)
    ensures FirstMatch([a, b], key) == if Matches(a, key) then 0 else 1
  {
    FirstSuchIs(Setting(key), [a, b], 0, if Matches(a, key) then 0 else 1);
  }

  lemma TwoJoined(a: string, b: string)
    ensures Unlines([a, b]) == a + "\n" + b
  {
    assert [a, b][1..] == [b] && Unlines([b]) == b;
  }

  lemma SetSecond(a: string, b: string, indent: string, key: string, v: string)
    requires OneLine(a) && OneLine(b) && !Matches(a, key)
    requires Matches(b, key) && Indent(b) == indent && NoComment(After(b, key))
    ensures Set(a + "\n" + b, key, v) == a + "\n" + FieldText(indent, key, " " + v)
  {
    var lines, x := [a, b], FieldText(indent, key, " " + v);
    assert SetLines(lines, key, v) == [a, x] by {
      FirstOfTwo(a, b, key);
      SetReplaces(lines, 1, indent, key, v);
    }
    TwoLines(a, b);
    TwoJoined(a, x);
  }

  lemma SetFirst(a: string, b: string, indent: string, key: string, v: string)
    requires OneLine(a) && OneLine(b)
    requires Matches(a, key) && Indent(a) == indent && NoComment(After(a, key))
    ensures Set(a + "\n" + b, key, v) == FieldText(indent, key, " " + v) + "\n" + b
  {
    var lines, x := [a, b], FieldText(indent, key, " " + v);
    assert SetLines(lines, key, v) == [x, b] by {
      FirstOfTwo(a, b, key);
      SetReplaces(lines, 0, indent, key, v);
    }
    TwoLines(a, b);
    TwoJoined(x, b);
  }

  lemma SetAppends(a: string, key: string, v: string)
    requires OneLine(a) && !Matches(a, key) && !BlankLine(a)
    ensures Set(a, key, v) == a + "\n" + FieldText("", key, " " + v)
  {
    var x := FieldText("", key, " " + v);
    OneLineOnly(a);
    FirstSuchIs(Setting(key), [a], 0, 1);
    BackOverIs(BlankLine, [a], 1, 1);
    assert x == key + ": " + v;
    assert Inserted([a], 1, x) == [a, x];
    TwoJoined(a, x);
  }

  // A line that is not as deep as the first is no field...
  lemma NoFieldAtOtherDepth(y: Reader, a: string, b: string, key: string)
    requires y.content(a) && !Matches(a, key) && y.indent(b) != y.indent(a)
    ensures FieldLines(y, [a, b], key) == None
  {
    FirstSuchIs(y.content, [a, b], 0, 0);
    FirstSuchIs(AsDeep(y, Setting(key), y.indent(a)), [a, b], 0, 2);
  }

  // ...and one with a deeper line behind it has no one-line value.
  lemma NoValueOverTwoLines(y: Reader, a: string, b: string, key: string)
    requires y.content(a) && y.content(b) && |y.indent(b)| > |y.indent(a)| && Matches(a, key)
    ensures FieldLines(y, [a, b], key) == None
  {
    FirstSuchIs(y.content, [a, b], 0, 0);
    FirstSuchIs(AsDeep(y, Setting(key), y.indent(a)), [a, b], 0, 0);
    FirstSuchIs(y.content, [a, b], 1, 1);
  }

  // A nested line is edited, and the block still has no such field.
  lemma NestedIsEdited(outer: string, indent: string, key: string, after: string, v: string)
    requires FieldKey(outer) && FieldKey(key) && outer != key
    requires indent != "" && AllSatisfy(Blank, indent)
    requires AfterOk(after) && NoComment(after) && OneLine(v)
    ensures var a, b := FieldText("", outer, ""), FieldText(indent, key, " " + v);
      && Set(a + "\n" + FieldText(indent, key, after), key, v) == a + "\n" + b
      && Field(a + "\n" + b, key) == None
  {
    var a, b := FieldText("", outer, ""), FieldText(indent, key, " " + v);
    FieldParts("", outer, "");
    OtherKey("", outer, "", key);
    FieldParts(indent, key, after);
    ConcatOneLine(" ", v);
    FieldParts(indent, key, " " + v);
    SetSecond(a, FieldText(indent, key, after), indent, key, v);
    TwoLines(a, b);
    NoFieldAtOtherDepth(BLOCK, a, b, key);
  }

  // A new line is not indented, whatever the fields are.
  lemma NewLineIsNotIndented(indent: string, other: string, after: string, key: string, v: string)
    requires FieldKey(other) && FieldKey(key) && other != key
    requires indent != "" && AllSatisfy(Blank, indent) && AfterOk(after) && OneLine(v)
    ensures var a, b := FieldText(indent, other, after), FieldText("", key, " " + v);
      && Set(a, key, v) == a + "\n" + b
      && Field(a + "\n" + b, key) == None
  {
    var a, b := FieldText(indent, other, after), FieldText("", key, " " + v);
    FieldParts(indent, other, after);
    OtherKey(indent, other, after, key);
    ContentIsNotBlank(a);
    SetAppends(a, key, v);
    ConcatOneLine(" ", v);
    FieldParts("", key, " " + v);
    TwoLines(a, b);
    NoFieldAtOtherDepth(BLOCK, a, b, key);
  }

  lemma BodyIsNoValue(a: string, body: string, key: string)
    requires OneLine(a) && IsContent(a) && Matches(a, key) && Indent(a) == ""
    requires OneLine(body) && IsContent(body) && Indent(body) != ""
    ensures Field(a + "\n" + body, key) == None
  {
    TwoLines(a, body);
    NoValueOverTwoLines(BLOCK, a, body, key);
  }

  // The lines a value goes on over are left behind it.
  lemma BodyIsLeft(key: string, after: string, body: string, v: string)
    requires FieldKey(key) && AfterOk(after) && NoComment(after) && OneLine(v)
    requires OneLine(body) && IsContent(body) && Indent(body) != ""
    ensures var b := FieldText("", key, " " + v);
      && Set(FieldText("", key, after) + "\n" + body, key, v) == b + "\n" + body
      && Field(b + "\n" + body, key) == None
  {
    var a, b := FieldText("", key, after), FieldText("", key, " " + v);
    assert Set(a + "\n" + body, key, v) == b + "\n" + body by {
      FieldParts("", key, after);
      SetFirst(a, body, "", key, v);
    }
    assert Field(b + "\n" + body, key) == None by {
      ConcatOneLine(" ", v);
      FieldParts("", key, " " + v);
      BodyIsNoValue(b, body, key);
    }
  }

  lemma CommentedValue(u: string, w: string, c: string)
    requires ScalarOk(u)
    ensures ValueOf(NewAfter(u + " #" + w, c)) == u
  {
    var s, r := NewAfter(u + " #" + w, c), |u| + 2;
    assert s[..r] == " " + u + " " && s[r] == '#';
    forall j | 0 <= j < r ensures !StartsComment(s, j) {
      if 1 <= j <= |u| { assert s[j] == u[j - 1] && !StartsComment(u, j - 1); }
    }
    CommentIs(s, 0, r);
    TrimFinds(Blank, " ", u, " ");
  }

  // A scalar that starts a comment reads back cut off in front of it.
  lemma CommentedScalarIsCut(frontmatter: string, key: string, u: string, w: string)
    requires KeyOk(key) && ScalarOk(u) && OneLine(w)
    ensures Lookup(Set(frontmatter, key, u + " #" + w), key) == Some(u)
  {
    var lines, v := Lines(frontmatter), u + " #" + w;
    ConcatOneLine(u, " #");
    ConcatOneLine(u + " #", w);
    LinesOfSet(frontmatter, key, v);
    FoundAgain(lines, key, v);
    EditedLineReads(lines, key, v);
    CommentedValue(u, w, CommentLines(lines, key));
  }
}
