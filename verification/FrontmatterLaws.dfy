/** Lens laws of the frontmatter editor. */
module FrontmatterLaws {
  import opened Wrappers
  import opened Basics
  import opened Strings
  import opened Frontmatter

  // ---- reading ----------------------------------------------------------------------------

  // What a value is, with the inline comment and the blanks around it taken off.
  function ValueOf(after: string): string {
    Trim(Blank, after[..CommentAt(after, 0)])
  }

  function LookupLines(lines: seq<string>, key: string): Option<string> {
    var i := FirstMatch(lines, key);
    if i < |lines| then Some(ValueOf(After(lines[i], key))) else None
  }

  function CommentLines(lines: seq<string>, key: string): string {
    var i := FirstMatch(lines, key);
    if i < |lines| then InlineComment(After(lines[i], key)) else ""
  }

  // The value and the inline comment the frontmatter gives a key.
  function Lookup(frontmatter: string, key: string): Option<string> {
    LookupLines(Lines(frontmatter), key)
  }

  function CommentFor(frontmatter: string, key: string): string {
    CommentLines(Lines(frontmatter), key)
  }

  // A key that can stand before a colon at the start of a line.
  predicate KeyOk(key: string) {
    ':' !in key && OneLine(key) && (key == "" || !Blank(key[0]))
  }

  // A scalar that reads back: one line, no blank at either end, nothing that starts a comment.
  predicate ScalarOk(v: string) {
    OneLine(v) && Trimmed(Blank, v) && NoComment(v)
  }

  predicate CommentOk(c: string) {
    c == "" || (c[0] == '#' && !Blank(c[|c| - 1]))
  }

  // ---- one line ---------------------------------------------------------------------------

  lemma {:induction false} CommentIs(s: string, k: nat, r: nat)
    requires k <= r <= |s|
    requires forall j :: k <= j < r ==> !StartsComment(s, j)
    requires r == |s| || StartsComment(s, r)
    ensures CommentAt(s, k) == r
    decreases r - k
  {
    if k < r { CommentIs(s, k + 1, r); }
  }

  lemma InlineCommentOk(s: string)
    ensures CommentOk(InlineComment(s))
    ensures OneLine(s) ==> OneLine(InlineComment(s))
  {
    var t := s[CommentAt(s, 0)..];
    if t != "" { assert !Blank(t[0]); }
  }

  lemma CommentIsEmpty(s: string)
    ensures InlineComment(s) == "" <==> CommentAt(s, 0) == |s|
  {
    var t := s[CommentAt(s, 0)..];
    if t != "" { assert t[0] == '#' && !Blank(t[0]); }
  }

  // Nothing in it starts a comment.
  predicate NoComment(v: string) {
    CommentAt(v, 0) == |v|
  }

  lemma NewAfterComment(v: string, c: string)
    requires NoComment(v) && CommentOk(c)
    ensures CommentAt(NewAfter(v, c), 0) == if c == "" then |v| + 1 else |v| + 2
  {
    var s := NewAfter(v, c);
    var r := if c == "" then |v| + 1 else |v| + 2;
    forall j | 0 <= j < r ensures !StartsComment(s, j) {
      if 1 <= j <= |v| {
        assert s[j] == v[j - 1] && !StartsComment(v, j - 1);
      }
    }
    CommentIs(s, 0, r);
  }

  lemma CommentStays(v: string, c: string)
    requires NoComment(v) && CommentOk(c)
    ensures InlineComment(NewAfter(v, c)) == c
  {
    var s := NewAfter(v, c);
    NewAfterComment(v, c);
    if c != "" {
      assert s[CommentAt(s, 0)..] == c + "";
      TrimRightDrops(Blank, c, "");
    }
  }

  lemma CommentPassesOver(v: string, c: string)
    requires !NoComment(v)
    ensures CommentAt(NewAfter(v, c), 0) <= |v|
  {
    var s, j := NewAfter(v, c), CommentAt(v, 0);
    assert s[j + 1] == v[j] && s[j] == if j == 0 then ' ' else v[j - 1];
    assert StartsComment(s, j + 1);
  }

  // A scalar with a comment in it lengthens the comment it is given.
  lemma CommentGrows(v: string, c: string)
    requires !NoComment(v) && CommentOk(c)
    ensures |InlineComment(NewAfter(v, c))| > |c|
  {
    var s := NewAfter(v, c);
    var t := s[CommentAt(s, 0)..];
    CommentPassesOver(v, c);
    assert t[0] == '#';
    if c == "" {
      CommentIsEmpty(s);
    } else {
      assert s[|s| - 1] == c[|c| - 1] && t[|t| - 1] == s[|s| - 1];
      assert t + "" == t;
      TrimRightDrops(Blank, t, "");
    }
  }

  // A rewritten line reads back: the new value, and the comment that was kept.
  lemma NewAfterReads(v: string, c: string)
    requires ScalarOk(v) && CommentOk(c)
    ensures ValueOf(NewAfter(v, c)) == v
    ensures InlineComment(NewAfter(v, c)) == c
  {
    var s := NewAfter(v, c);
    NewAfterComment(v, c);
    CommentStays(v, c);
    if c == "" {
      assert s[..CommentAt(s, 0)] == " " + v + "";
      TrimFinds(Blank, " ", v, "");
    } else {
      assert s[..CommentAt(s, 0)] == " " + v + " ";
      TrimFinds(Blank, " ", v, " ");
    }
  }

  lemma NewLineSplits(indent: string, key: string, v: string, c: string)
    ensures NewLine(indent, key, v, c) == indent + (key + ":" + NewAfter(v, c))
  {
  }

  lemma FieldLine(indent: string, key: string, after: string)
    requires KeyOk(key) && AllSatisfy(Blank, indent)
    requires after == "" || Blank(after[0]) || after[0] == '#'
    ensures var line := indent + (key + ":" + after);
      Matches(line, key) && After(line, key) == after && Indent(line) == indent
  {
    TrimLeftDrops(Blank, indent, key + ":" + after);
  }

  lemma NewLineParts(indent: string, key: string, v: string, c: string)
    requires KeyOk(key) && AllSatisfy(Blank, indent)
    ensures var l := NewLine(indent, key, v, c);
      Matches(l, key) && After(l, key) == NewAfter(v, c) && Indent(l) == indent
  {
    NewLineSplits(indent, key, v, c);
    FieldLine(indent, key, NewAfter(v, c));
  }

  lemma IndentIsBlank(line: string)
    ensures AllSatisfy(Blank, Indent(line))
  {
  }

  // A line sets one key at most.
  lemma OneKey(line: string, key: string, key': string)
    requires Matches(line, key) && Matches(line, key') && ':' !in key && ':' !in key'
    ensures key == key'
  {
    var t := TrimLeft(Blank, line);
    assert t[|key|] == ':' && t[|key'|] == ':';
    assert key == t[..|key|] && key' == t[..|key'|];
  }

  // ---- all lines --------------------------------------------------------------------------

  // r is lines with x put at place i, over `cut` of the old lines.
  predicate Edits(lines: seq<string>, r: seq<string>, i: nat, x: string, cut: nat) {
    cut <= 1 && i + cut <= |lines| && r == lines[..i] + [x] + lines[i + cut..]
  }

  lemma EditFound(lines: seq<string>, r: seq<string>, i: nat, x: string, cut: nat, key: string)
    requires Edits(lines, r, i, x, cut) && Matches(x, key)
    requires forall j :: 0 <= j < i ==> !Matches(lines[j], key)
    ensures FirstMatch(r, key) == i && r[i] == x
  {
    FirstSuchIs(Setting(key), r, 0, i);
  }

  // The first line a property picks, before and behind an edit that does not concern it.
  lemma EditMisses(p: string -> bool, lines: seq<string>, r: seq<string>, i: nat, x: string, cut: nat)
    requires Edits(lines, r, i, x, cut) && !p(x)
    requires cut == 1 ==> !p(lines[i])
    ensures var j, j' := FirstSuch(p, lines, 0), FirstSuch(p, r, 0);
      && j' == (if j < i then j else j + 1 - cut)
      && (j < |lines| <==> j' < |r|) && (j < |lines| ==> r[j'] == lines[j])
  {
    var j := FirstSuch(p, lines, 0);
    var j' := if j < i then j else j + 1 - cut;
    FirstSuchIs(p, r, 0, j');
  }

  lemma EditTwice(lines: seq<string>, r1: seq<string>, r2: seq<string>, i: nat,
      x1: string, x2: string, cut: nat)
    requires Edits(lines, r1, i, x1, cut) && Edits(r1, r2, i, x2, 1)
    ensures Edits(lines, r2, i, x2, cut)
  {
    assert r1[..i] == lines[..i] && r1[i + 1..] == lines[i + cut..];
  }

  lemma EditKeepsLines(lines: seq<string>, r: seq<string>, i: nat, x: string, cut: nat)
    requires Edits(lines, r, i, x, cut) && LinesOk(lines) && OneLine(x)
    ensures LinesOk(r)
  {
  }

  // Where SetLines lands, how many lines it writes over, and what it writes there.
  function Place(lines: seq<string>, key: string): (i: nat)
    ensures i + Cut(lines, key) <= |lines|
  {
    var i := FirstMatch(lines, key);
    if i < |lines| then i else InsertAt(lines, |lines|)
  }

  function Cut(lines: seq<string>, key: string): (n: nat) {
    if FirstMatch(lines, key) < |lines| then 1 else 0
  }

  function KeptIndent(lines: seq<string>, key: string): string {
    var i := FirstMatch(lines, key);
    if i < |lines| then Indent(lines[i]) else ""
  }

  function EditedLine(lines: seq<string>, key: string, v: string): string {
    NewLine(KeptIndent(lines, key), key, v, CommentLines(lines, key))
  }

  lemma BareLine(key: string, v: string)
    ensures NewLine("", key, v, "") == key + ": " + v
  {
    assert "" + key + ": " + v == key + ": " + v;
  }

  lemma UpdateEdits(lines: seq<string>, i: nat, x: string)
    requires i < |lines|
    ensures Edits(lines, lines[i := x], i, x, 1)
  {
  }

  // The edit touches one line.
  lemma OneLineChanges(lines: seq<string>, key: string, v: string)
    requires lines != []
    ensures Edits(lines, SetLines(lines, key, v), Place(lines, key), EditedLine(lines, key, v), Cut(lines, key))
  {
    var i := FirstMatch(lines, key);
    if i < |lines| {
      UpdateEdits(lines, i, EditedLine(lines, key, v));
    } else {
      BareLine(key, v);
    }
  }

  lemma CommentLinesOk(lines: seq<string>, key: string)
    ensures CommentOk(CommentLines(lines, key))
    ensures LinesOk(lines) ==> OneLine(CommentLines(lines, key))
  {
    var i := FirstMatch(lines, key);
    if i < |lines| {
      InlineCommentOk(After(lines[i], key));
    }
  }

  lemma EditedLineReads(lines: seq<string>, key: string, v: string)
    requires KeyOk(key)
    ensures var l := EditedLine(lines, key, v);
      && Matches(l, key) && After(l, key) == NewAfter(v, CommentLines(lines, key))
      && Indent(l) == KeptIndent(lines, key)
  {
    var i := FirstMatch(lines, key);
    if i < |lines| {
      IndentIsBlank(lines[i]);
    }
    NewLineParts(KeptIndent(lines, key), key, v, CommentLines(lines, key));
  }

  // Behind the edit the key is found where the edit landed.
  lemma FoundAgain(lines: seq<string>, key: string, v: string)
    requires lines != [] && KeyOk(key)
    ensures var r, i := SetLines(lines, key, v), Place(lines, key);
      FirstMatch(r, key) == i < |r| && r[i] == EditedLine(lines, key, v)
  {
    OneLineChanges(lines, key, v);
    EditedLineReads(lines, key, v);
    EditFound(lines, SetLines(lines, key, v), Place(lines, key), EditedLine(lines, key, v), Cut(lines, key), key);
  }

  lemma ConcatOneLine(a: string, b: string)
    requires OneLine(a) && OneLine(b)
    ensures OneLine(a + b)
  {
  }

  lemma NewLineOk(indent: string, key: string, v: string, c: string)
    requires OneLine(indent) && OneLine(key) && OneLine(v) && OneLine(c)
    ensures OneLine(NewLine(indent, key, v, c))
  {
    ConcatOneLine(indent, key);
    ConcatOneLine(indent + key, ": ");
    ConcatOneLine(indent + key + ": ", v);
    ConcatOneLine(indent + key + ": " + v, " ");
    ConcatOneLine(indent + key + ": " + v + " ", c);
  }

  lemma EditedLineOk(lines: seq<string>, key: string, v: string)
    requires LinesOk(lines) && OneLine(key) && OneLine(v)
    ensures OneLine(EditedLine(lines, key, v))
  {
    CommentLinesOk(lines, key);
    var i := FirstMatch(lines, key);
    assert OneLine(KeptIndent(lines, key)) by {
      if i < |lines| { assert OneLine(lines[i]) && Indent(lines[i]) <= lines[i]; }
    }
    NewLineOk(KeptIndent(lines, key), key, v, CommentLines(lines, key));
  }

  // The edited text splits into the edited lines.
  lemma LinesOfSet(frontmatter: string, key: string, v: string)
    requires OneLine(key) && OneLine(v)
    ensures Lines(Set(frontmatter, key, v)) == SetLines(Lines(frontmatter), key, v)
  {
    var lines := Lines(frontmatter);
    var r := SetLines(lines, key, v);
    OneLineChanges(lines, key, v);
    EditedLineOk(lines, key, v);
    EditKeepsLines(lines, r, Place(lines, key), EditedLine(lines, key, v), Cut(lines, key));
    JoinThenSplit(r);
  }

  // ---- the laws ---------------------------------------------------------------------------

  lemma NoCommentInside(after: string, lo: nat, hi: nat)
    requires lo <= hi <= |after| && (lo == 0 || Blank(after[lo - 1]))
    requires forall j :: 0 <= j < hi ==> !StartsComment(after, j)
    ensures CommentAt(after[lo..hi], 0) == hi - lo
  {
    var v := after[lo..hi];
    forall j | 0 <= j < |v| ensures !StartsComment(v, j) {
      assert !StartsComment(after, lo + j);
    }
    CommentIs(v, 0, |v|);
  }

  // Whatever is read is a scalar that reads back.
  lemma ReadsAreScalars(after: string)
    requires OneLine(after)
    ensures ScalarOk(ValueOf(after))
  {
    var text := after[..CommentAt(after, 0)];
    var lo := Skip(Blank, text, 0);
    var hi := lo + |ValueOf(after)|;
    assert TrimLeft(Blank, text) == text[lo..];
    assert ValueOf(after) == after[lo..hi];
    assert lo > 0 ==> Blank(text[lo - 1]);
    TrimIsTrimmed(Blank, text);
    NoCommentInside(after, lo, hi);
  }

  // What the edited key reads as.
  lemma ReadBack(lines: seq<string>, key: string, v: string)
    requires lines != [] && KeyOk(key) && ScalarOk(v)
    ensures LookupLines(SetLines(lines, key, v), key) == Some(v)
  {
    FoundAgain(lines, key, v);
    EditedLineReads(lines, key, v);
    CommentLinesOk(lines, key);
    NewAfterReads(v, CommentLines(lines, key));
  }

  // The comment it carries.
  lemma CommentBack(lines: seq<string>, key: string, v: string)
    requires lines != [] && KeyOk(key)
    ensures var c, c' := CommentLines(lines, key), CommentLines(SetLines(lines, key, v), key);
      if NoComment(v) then c' == c else |c'| > |c|
  {
    FoundAgain(lines, key, v);
    EditedLineReads(lines, key, v);
    CommentLinesOk(lines, key);
    if NoComment(v) { CommentStays(v, CommentLines(lines, key)); } else { CommentGrows(v, CommentLines(lines, key)); }
  }

  lemma LookupIsScalar(frontmatter: string, key: string)
    ensures Lookup(frontmatter, key).Some? ==> ScalarOk(Lookup(frontmatter, key).value)
  {
    var lines := Lines(frontmatter);
    var i := FirstMatch(lines, key);
    if i < |lines| { ReadsAreScalars(After(lines[i], key)); }
  }

  // Get what was put: exactly when the scalar is one a line can hold.
  lemma SetThenLookup(frontmatter: string, key: string, v: string)
    requires KeyOk(key)
    ensures Lookup(Set(frontmatter, key, v), key) == Some(v) <==> ScalarOk(v)
  {
    if ScalarOk(v) {
      LinesOfSet(frontmatter, key, v);
      ReadBack(Lines(frontmatter), key, v);
    } else {
      LookupIsScalar(Set(frontmatter, key, v), key);
    }
  }

  // The inline comment stays, and stays the same over any number of edits, exactly when the
  // scalar starts none itself.
  lemma SetKeepsComment(frontmatter: string, key: string, v: string)
    requires KeyOk(key) && OneLine(v)
    ensures CommentFor(Set(frontmatter, key, v), key) == CommentFor(frontmatter, key) <==> NoComment(v)
  {
    LinesOfSet(frontmatter, key, v);
    CommentBack(Lines(frontmatter), key, v);
  }

  lemma EditMissesKey(lines: seq<string>, r: seq<string>, i: nat, x: string, cut: nat, key: string)
    requires Edits(lines, r, i, x, cut) && !Matches(x, key)
    requires cut == 1 ==> !Matches(lines[i], key)
    ensures LookupLines(r, key) == LookupLines(lines, key)
    ensures CommentLines(r, key) == CommentLines(lines, key)
  {
    EditMisses(Setting(key), lines, r, i, x, cut);
  }

  // No line the edit reads or writes sets another key.
  lemma EditedIsNot(lines: seq<string>, key: string, v: string, other: string)
    requires KeyOk(key) && ':' !in other && other != key
    ensures !Matches(EditedLine(lines, key, v), other)
    ensures Cut(lines, key) == 1 ==> !Matches(lines[Place(lines, key)], other)
  {
    EditedLineReads(lines, key, v);
    if Matches(EditedLine(lines, key, v), other) { OneKey(EditedLine(lines, key, v), key, other); }
    var i := Place(lines, key);
    if Cut(lines, key) == 1 && Matches(lines[i], other) { OneKey(lines[i], key, other); }
  }

  // Every other key reads as before.
  lemma OtherKeysUntouched(frontmatter: string, key: string, v: string, other: string)
    requires KeyOk(key) && OneLine(v) && ':' !in other && other != key
    ensures Lookup(Set(frontmatter, key, v), other) == Lookup(frontmatter, other)
    ensures CommentFor(Set(frontmatter, key, v), other) == CommentFor(frontmatter, other)
  {
    var lines := Lines(frontmatter);
    LinesOfSet(frontmatter, key, v);
    OneLineChanges(lines, key, v);
    EditedIsNot(lines, key, v, other);
    EditMissesKey(lines, SetLines(lines, key, v), Place(lines, key), EditedLine(lines, key, v), Cut(lines, key), other);
  }

  lemma SetLinesTwice(lines: seq<string>, key: string, v1: string, v2: string)
    requires lines != [] && KeyOk(key)
    ensures var r := SetLines(SetLines(lines, key, v1), key, v2);
      Edits(lines, r, Place(lines, key), EditedLine(SetLines(lines, key, v1), key, v2), Cut(lines, key))
  {
    var r1, i, n := SetLines(lines, key, v1), Place(lines, key), Cut(lines, key);
    OneLineChanges(lines, key, v1);
    FoundAgain(lines, key, v1);
    OneLineChanges(r1, key, v2);
    EditTwice(lines, r1, SetLines(r1, key, v2), i, EditedLine(lines, key, v1), EditedLine(r1, key, v2), n);
  }

  // What the second edit writes: the same line as without the first, or a longer one.
  lemma SecondLine(lines: seq<string>, key: string, v1: string, v2: string)
    requires lines != [] && KeyOk(key)
    ensures var x, x' := EditedLine(lines, key, v2), EditedLine(SetLines(lines, key, v1), key, v2);
      if NoComment(v1) then x' == x else |x'| > |x|
  {
    FoundAgain(lines, key, v1);
    EditedLineReads(lines, key, v1);
    CommentBack(lines, key, v1);
  }

  lemma {:induction false} LongerLine(front: seq<string>, x: string, y: string, rest: seq<string>)
    requires |x| < |y|
    ensures |Unlines(front + [x] + rest)| < |Unlines(front + [y] + rest)|
  {
    if front == [] {
      assert [] + [x] + rest == [x] + rest && [] + [y] + rest == [y] + rest;
      if rest != [] {
        UnlinesCons(x, rest);
        UnlinesCons(y, rest);
      } else {
        Assoc([x], [], []);
        Assoc([y], [], []);
      }
    } else {
      var a, more := front[0], front[1..];
      LongerLine(more, x, y, rest);
      assert front + [x] + rest == [a] + (more + [x] + rest);
      assert front + [y] + rest == [a] + (more + [y] + rest);
      UnlinesCons(a, more + [x] + rest);
      UnlinesCons(a, more + [y] + rest);
    }
  }

  // The last edit of a key wins, byte for byte, exactly when the scalar before starts no comment.
  lemma SetThenSet(frontmatter: string, key: string, v1: string, v2: string)
    requires KeyOk(key) && OneLine(v1)
    ensures Set(Set(frontmatter, key, v1), key, v2) == Set(frontmatter, key, v2) <==> NoComment(v1)
  {
    var lines := Lines(frontmatter);
    var i, n := Place(lines, key), Cut(lines, key);
    LinesOfSet(frontmatter, key, v1);
    SetLinesTwice(lines, key, v1, v2);
    OneLineChanges(lines, key, v2);
    SecondLine(lines, key, v1, v2);
    if !NoComment(v1) {
      var x, x' := EditedLine(lines, key, v2), EditedLine(SetLines(lines, key, v1), key, v2);
      LongerLine(lines[..i], x, x', lines[i + n..]);
    }
  }

  // Every line but one is the same, in the same order; a new line goes before the blank lines
  // that end the block, and replaces none.
  lemma SetTouchesOneLine(frontmatter: string, key: string, v: string)
    requires OneLine(key) && OneLine(v)
    ensures var lines, i := Lines(frontmatter), Place(Lines(frontmatter), key);
      var n := if Lookup(frontmatter, key).Some? then 1 else 0;
      && Edits(lines, Lines(Set(frontmatter, key, v)), i, EditedLine(lines, key, v), n)
      && (n == 0 ==> (forall j :: i <= j < |lines| ==> BlankLine(lines[j])) && (i > 0 ==> !BlankLine(lines[i - 1])))
  {
    var lines := Lines(frontmatter);
    var i, n := Place(lines, key), Cut(lines, key);
    assert n == if Lookup(frontmatter, key).Some? then 1 else 0;
    LinesOfSet(frontmatter, key, v);
    OneLineChanges(lines, key, v);
    assert n == 0 ==> i == InsertAt(lines, |lines|);
  }

  lemma BlankLineReads(line: string)
    ensures BlankLine(line) <==> forall j :: 0 <= j < |line| ==> Space(line[j])
  {
    if forall j :: 0 <= j < |line| ==> Space(line[j]) {
      SkipIs(Space, line, 0, |line|);
    } else {
      var j :| 0 <= j < |line| && !Space(line[j]);
      assert Skip(Space, line, 0) <= j;
      var t := TrimLeft(Space, line);
      assert t != "" && BackOver(Space, t, |t|) > 0;
    }
  }

  // ---- what is kept of an old value -------------------------------------------------------

  lemma CommentShows(text: string, c: string)
    ensures WithComment(text, c) == text <==> c == ""
  {
    assert c != "" ==> |WithComment(text, c)| > |text|;
  }

  // An edit keeps nothing of the old value exactly when no # in it is first or behind a blank.
  lemma NothingKeptExactlyWhen(frontmatter: string, key: string, v: string)
    requires FirstMatch(Lines(frontmatter), key) < |Lines(frontmatter)|
    ensures var lines := Lines(frontmatter);
      var after := After(lines[FirstMatch(lines, key)], key);
      EditedLine(lines, key, v) == KeptIndent(lines, key) + key + ": " + v <==> CommentAt(after, 0) == |after|
  {
    var lines := Lines(frontmatter);
    var after := After(lines[FirstMatch(lines, key)], key);
    CommentIsEmpty(after);
    CommentShows(KeptIndent(lines, key) + key + ": " + v, InlineComment(after));
  }

  const QUOTED := " \"a #b\""
  const QUOTED_LINE := "k: \"a #b\""

  lemma QuotedComment()
    ensures InlineComment(QUOTED) == "#b\""
  {
    CommentIs(QUOTED, 0, 4);
    assert QUOTED[4..] == "#b\"";
    BackOverIs(Blank, "#b\"", 3, 3);
    assert "#b\""[..3] == "#b\"";
  }

  lemma OneLineOnly(line: string)
    requires OneLine(line)
    ensures Lines(line) == [line]
  {
    assert Unlines([line]) == line;
    JoinThenSplit([line]);
  }

  lemma SetOnlyLine(line: string, key: string, v: string)
    requires OneLine(line) && Matches(line, key)
    ensures Set(line, key, v) == NewLine(Indent(line), key, v, InlineComment(After(line, key)))
  {
    OneLineOnly(line);
    FirstSuchIs(Setting(key), [line], 0, 0);
    var x := NewLine(Indent(line), key, v, InlineComment(After(line, key)));
    assert [line][0 := x] == [x];
  }

  lemma QuotedRewritten()
    ensures NewLine("", "k", "true", "#b\"") == "k: true #b\""
  {
  }

  lemma QuotedLine()
    ensures "" + ("k" + ":" + QUOTED) == QUOTED_LINE && OneLine(QUOTED_LINE) && KeyOk("k")
  {
  }

  lemma SetField(indent: string, key: string, after: string, v: string)
    requires KeyOk(key) && AllSatisfy(Blank, indent)
    requires after == "" || Blank(after[0]) || after[0] == '#'
    requires OneLine(indent + (key + ":" + after))
    ensures Set(indent + (key + ":" + after), key, v) == NewLine(indent, key, v, InlineComment(after))
  {
    FieldLine(indent, key, after);
    SetOnlyLine(indent + (key + ":" + after), key, v);
  }

  // Quoting does not help: the tail of the old string is taken for a comment and kept.
  lemma QuotedTailIsKept()
    ensures Set(QUOTED_LINE, "k", "true") == "k: true #b\""
  {
    QuotedLine();
    SetField("", "k", QUOTED, "true");
    QuotedComment();
    QuotedRewritten();
  }
}
