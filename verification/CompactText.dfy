/** compactAssistant of pkg/agent/memory.go. Text is chars; its length in Go is Size, in bytes. */
module CompactText {
  import opened Basics
  import opened Strings
  import opened Utf8

  const ASSISTANT_MESSAGE_MAX_CHARS := 1500

  // ---- assistant text ---------------------------------------------------------------------

  // strings.Fields of the first n characters.
  function Fields(s: string, n: nat): (words: seq<string>)
    requires n <= |s|
    ensures n > 0 && !Space(s[n - 1]) ==> words != []
  {
    if n == 0 then []
    else
      var words := Fields(s, n - 1);
      if Space(s[n - 1]) then words
      else if n == 1 || Space(s[n - 2]) then words + [[s[n - 1]]]
      else words[|words| - 1 := words[|words| - 1] + [s[n - 1]]]
  }

  // strings.Join with a blank.
  function Spaced(words: seq<string>, n: nat): string
    requires n <= |words|
  {
    if n == 0 then "" else if n == 1 then words[0] else Spaced(words, n - 1) + " " + words[n - 1]
  }

  // Cut to a number of bytes, with an ellipsis if anything is lost.
  function Shortened(s: string, limit: nat): string {
    if Size(s) > limit then Cut(s, limit) + "..." else s
  }

  function CompactAssistant(s: string): string {
    var t := Trim(Space, s);
    if t == "" then ""
    else
      var words := Fields(t, |t|);
      Shortened(Spaced(words, |words|), ASSISTANT_MESSAGE_MAX_CHARS)
  }

  lemma EncodeConcat(a: string, b: string, n: nat)
    requires n <= |b|
    ensures Encode(a + b, |a| + n) == Encode(a, |a|) + Encode(b, n)
  {
    FlatMapConcat(EncodeChar, a, b, n);
  }

  lemma ShortenedSize(s: string, limit: nat)
    ensures Size(Shortened(s, limit)) <= limit + 3
  {
    CutSize(s, limit);
    var c := Cut(s, limit);
    EncodeConcat(c, "...", 3);
    assert Encode("...", 3) == Encode("...", 2) + EncodeChar('.');
    assert Encode("...", 2) == Encode("...", 1) + EncodeChar('.');
    assert Encode("...", 1) == Encode("...", 0) + EncodeChar('.');
  }

  // Compacted assistant text never exceeds 1503 bytes.
  lemma CompactSize(s: string)
    ensures Size(CompactAssistant(s)) <= 1503
  {
    var t := Trim(Space, s);
    if t != "" {
      ShortenedSize(Spaced(Fields(t, |t|), |Fields(t, |t|)|), ASSISTANT_MESSAGE_MAX_CHARS);
    }
  }

  predicate Word(w: string) {
    w != "" && forall j :: 0 <= j < |w| ==> !Space(w[j])
  }

  predicate Words(words: seq<string>) {
    forall i :: 0 <= i < |words| ==> Word(words[i])
  }

  lemma {:induction false} FieldsAreWords(s: string, n: nat)
    requires n <= |s|
    ensures Words(Fields(s, n))
  {
    if n > 0 { FieldsAreWords(s, n - 1); }
  }

  lemma {:induction false} FieldsPrefix(s: string, t: string, n: nat)
    requires n <= |s| && n <= |t| && forall j :: 0 <= j < n ==> s[j] == t[j]
    ensures Fields(s, n) == Fields(t, n)
  {
    if n > 0 { FieldsPrefix(s, t, n - 1); }
  }

  // A word behind a space, or at the start, is one more field.
  lemma {:induction false} OneMoreField(s: string, n: nat, m: nat)
    requires n < m <= |s| && (n == 0 || Space(s[n - 1]))
    requires forall j :: n <= j < m ==> !Space(s[j])
    ensures Fields(s, m) == Fields(s, n) + [s[n..m]]
    decreases m - n
  {
    if m == n + 1 {
      assert s[n..m] == [s[n]];
    } else {
      OneMoreField(s, n, m - 1);
      assert s[n..m] == s[n..m - 1] + [s[m - 1]];
    }
  }

  // Joined words split into the same words.
  lemma {:induction false} JoinedFields(words: seq<string>, n: nat)
    requires n <= |words| && Words(words)
    ensures var s := Spaced(words, n); Fields(s, |s|) == words[..n]
    ensures n > 0 ==> Spaced(words, n) != "" && !Space(Spaced(words, n)[|Spaced(words, n)| - 1])
  {
    if n == 1 {
      var w := words[0];
      OneMoreField(w, 0, |w|);
      assert w[0..|w|] == w && words[..1] == [] + [w];
    } else if n > 1 {
      var s, w := Spaced(words, n - 1), words[n - 1];
      var t := s + " " + w;
      JoinedFields(words, n - 1);
      FieldsPrefix(t, s, |s|);
      assert Fields(t, |s| + 1) == Fields(t, |s|);
      OneMoreField(t, |s| + 1, |t|);
      assert t[|s| + 1..|t|] == w && words[..n] == words[..n - 1] + [w];
    }
  }

  // Leading and trailing space makes no field.
  lemma {:induction false} FieldsBehind(pad: string, s: string, n: nat)
    requires AllSatisfy(Space, pad) && n <= |s|
    ensures Fields(pad + s, |pad| + n) == Fields(s, n)
    decreases |pad| + n
  {
    if n > 0 {
      FieldsBehind(pad, s, n - 1);
      assert (pad + s)[|pad| + n - 1] == s[n - 1];
      if n > 1 { assert (pad + s)[|pad| + n - 2] == s[n - 2]; }
    } else if pad != "" {
      var shorter := pad[..|pad| - 1];
      FieldsBehind(shorter, s, 0);
      FieldsPrefix(pad + s, shorter + s, |shorter|);
    }
  }

  lemma {:induction false} FieldsBefore(s: string, m: nat, n: nat)
    requires m <= n <= |s| && forall j :: m <= j < n ==> Space(s[j])
    ensures Fields(s, n) == Fields(s, m)
    decreases n - m
  {
    if m < n { FieldsBefore(s, m, n - 1); }
  }

  lemma TrimKeepsFields(s: string)
    ensures var t := Trim(Space, s); Fields(t, |t|) == Fields(s, |s|)
  {
    var u, t := TrimLeft(Space, s), Trim(Space, s);
    var pad := s[..|s| - |u|];
    assert pad + u == s;
    FieldsBehind(pad, u, |u|);
    FieldsBefore(u, |t|, |u|);
    FieldsPrefix(u, t, |t|);
  }

  // Compaction loses no word unless it truncates, and leaves text already compact as it is.
  lemma CompactKeepsWords(s: string)
    ensures var c := CompactAssistant(s);
      Size(Spaced(Fields(s, |s|), |Fields(s, |s|)|)) <= 1500 ==>
        Fields(c, |c|) == Fields(s, |s|) && CompactAssistant(c) == c
  {
    var t, words := Trim(Space, s), Fields(s, |s|);
    TrimKeepsFields(s);
    FieldsAreWords(s, |s|);
    JoinedFields(words, |words|);
    assert words[..|words|] == words;
    var c := CompactAssistant(s);
    if t != "" && Size(Spaced(words, |words|)) <= 1500 {
      TrimKeepsFields(c);
    }
  }

  // ---- what is kept, character by character -----------------------------------------------

  // A text that does not fit is cut to the most characters that do, with an ellipsis.
  lemma ShortenedReads(s: string, limit: nat)
    ensures var r := Shortened(s, limit);
      if Size(s) <= limit then r == s
      else
        var n := |r| - 3;
        && 0 <= n < |s| && r == s[..n] + "..."
        && Size(s[..n]) <= limit < Size(s[..n + 1])
  {
    if Size(s) > limit {
      var n := Fit(s, |s|, limit);
      EncodePrefix(s, s[..n], n);
      EncodePrefix(s, s[..n + 1], n + 1);
    }
  }

  function Ink(c: char): string {
    if Space(c) then "" else [c]
  }

  lemma {:induction false} JoinedSame(a: seq<string>, b: seq<string>, n: nat)
    requires n <= |a| && n <= |b| && forall i :: 0 <= i < n ==> a[i] == b[i]
    ensures Joined(a, n) == Joined(b, n)
  {
    if n > 0 { JoinedSame(a, b, n - 1); }
  }

  lemma LastWordGrows(words: seq<string>, c: string)
    requires words != []
    ensures Flatten(words[|words| - 1 := words[|words| - 1] + c]) == Flatten(words) + c
  {
    var n := |words| - 1;
    var longer := words[n := words[n] + c];
    JoinedSame(longer, words, n);
    Assoc(Joined(words, n), words[n], c);
  }

  lemma OneMoreWord(words: seq<string>, w: string)
    ensures Flatten(words + [w]) == Flatten(words) + w
  {
    JoinedSame(words + [w], words, |words|);
  }

  lemma InkStep(s: string, k: nat)
    requires k < |s|
    ensures Flatten(Fields(s, k + 1)) == Flatten(Fields(s, k)) + Ink(s[k])
  {
    var words := Fields(s, k);
    if Space(s[k]) {
      Assoc(Flatten(words), [], []);
    } else if k == 0 || Space(s[k - 1]) {
      OneMoreWord(words, [s[k]]);
    } else {
      LastWordGrows(words, [s[k]]);
    }
  }

  // The fields hold every character that is no space, in order.
  lemma {:induction false} FieldsHoldInk(s: string, n: nat)
    requires n <= |s|
    ensures Flatten(Fields(s, n)) == FlatMap(Ink, s, n)
  {
    if n > 0 {
      FieldsHoldInk(s, n - 1);
      InkStep(s, n - 1);
    }
  }

  // Every space is a single blank with a character on either side.
  predicate SingleBlanks(u: string) {
    forall i :: 0 <= i < |u| && Space(u[i]) ==>
      u[i] == ' ' && 0 < i < |u| - 1 && !Space(u[i - 1]) && !Space(u[i + 1])
  }

  lemma BlankBetween(s: string, w: string)
    requires SingleBlanks(s) && s != "" && Word(w)
    ensures SingleBlanks(s + " " + w)
  {
    var t := s + " " + w;
    assert forall j :: 0 <= j < |w| ==> t[|s| + 1 + j] == w[j] && !Space(w[j]);
    assert forall i :: |s| < i < |t| ==> t[i] == w[i - |s| - 1];
    forall i | 0 <= i < |t| && Space(t[i])
      ensures t[i] == ' ' && 0 < i < |t| - 1 && !Space(t[i - 1]) && !Space(t[i + 1])
    {
      if i < |s| { assert Space(s[i]); } else { assert t[i - 1] == s[|s| - 1] && t[i + 1] == w[0]; }
    }
  }

  lemma {:induction false} SpacedBlanks(words: seq<string>, n: nat)
    requires n <= |words| && Words(words)
    ensures SingleBlanks(Spaced(words, n)) && (n > 0 ==> Spaced(words, n) != "")
  {
    if n > 1 {
      SpacedBlanks(words, n - 1);
      BlankBetween(Spaced(words, n - 1), words[n - 1]);
    } else if n == 1 {
      assert Word(words[0]);
    }
  }

  // Compaction: the same characters but for space, in the same words, with a single blank between
  // words; and of that no more than fits in 1500 bytes.
  lemma CompactReads(s: string) returns (u: string)
    ensures CompactAssistant(s) == Shortened(u, 1500)
    ensures FlatMap(Ink, u, |u|) == FlatMap(Ink, s, |s|) && Fields(u, |u|) == Fields(s, |s|)
    ensures SingleBlanks(u)
  {
    var words := Fields(s, |s|);
    u := Spaced(words, |words|);
    FieldsAreWords(s, |s|);
    TrimKeepsFields(s);
    JoinedFields(words, |words|);
    assert words[..|words|] == words;
    SpacedBlanks(words, |words|);
    FieldsHoldInk(s, |s|);
    FieldsHoldInk(u, |u|);
  }
}
