/** strings.Count, strings.Replace and strings.ReplaceAll: leftmost, non-overlapping. */
module Replacing {
  import opened Strings

  function Count(s: string, oldStr: string): nat {
    if oldStr == "" then |s| + 1 else CountFrom(s, oldStr, 0)
  }

  // The occurrences taken at or behind position k.
  function CountFrom(s: string, oldStr: string, k: nat): nat
    requires oldStr != "" && k <= |s|
    decreases |s| - k
  {
    var i := IndexFrom(s, oldStr, k);
    if i < 0 then 0 else 1 + CountFrom(s, oldStr, i + |oldStr|)
  }

  // Replace with a limit of one.
  function Replace(s: string, oldStr: string, newStr: string): string {
    var i := IndexFrom(s, oldStr, 0);
    if i < 0 then s else s[..i] + newStr + s[i + |oldStr|..]
  }

  function ReplaceAll(s: string, oldStr: string, newStr: string): string {
    if oldStr == "" then Interleave(s, newStr) else ReplaceFrom(s, oldStr, newStr, 0)
  }

  // What s from position k on becomes.
  function ReplaceFrom(s: string, oldStr: string, newStr: string, k: nat): string
    requires oldStr != "" && k <= |s|
    decreases |s| - k
  {
    var i := IndexFrom(s, oldStr, k);
    if i < 0 then s[k..] else s[k..i] + newStr + ReplaceFrom(s, oldStr, newStr, i + |oldStr|)
  }

  // An empty old string is found before every character and at the end.
  function Interleave(s: string, newStr: string): string {
    if s == "" then newStr else newStr + [s[0]] + Interleave(s[1..], newStr)
  }

  // ---- what was found ---------------------------------------------------------------------

  // The texts between the occurrences that are taken.
  function Pieces(s: string, oldStr: string, k: nat): (r: seq<string>)
    requires oldStr != "" && k <= |s|
    ensures r != []
    decreases |s| - k
  {
    var i := IndexFrom(s, oldStr, k);
    if i < 0 then [s[k..]] else [s[k..i]] + Pieces(s, oldStr, i + |oldStr|)
  }

  function Join(pieces: seq<string>, sep: string): string
    requires pieces != []
  {
    if |pieces| == 1 then pieces[0] else pieces[0] + sep + Join(pieces[1..], sep)
  }

  ghost predicate Absent(s: string, t: string) {
    forall j :: !At(s, t, j)
  }

  // Whether the first place t is found in piece + t is behind the whole piece.
  predicate NotBefore(piece: string, t: string) {
    IndexFrom(piece + t, t, 0) == |piece|
  }

  ghost predicate Separated(pieces: seq<string>, t: string) {
    && pieces != []
    && (forall i :: 0 <= i < |pieces| - 1 ==> NotBefore(pieces[i], t))
    && Absent(pieces[|pieces| - 1], t)
  }

  lemma JoinCons(a: string, pieces: seq<string>, sep: string)
    requires pieces != []
    ensures Join([a] + pieces, sep) == a + sep + Join(pieces, sep)
  {
    assert ([a] + pieces)[1..] == pieces;
  }

  lemma AtDropped(s: string, t: string, k: nat, j: nat)
    requires k <= |s|
    ensures At(s[k..], t, j) <==> At(s, t, k + j)
  {
    if 0 <= j <= |s| - k - |t| {
      assert s[k..][j..j + |t|] == s[k + j..k + j + |t|];
    }
  }

  lemma AtTaken(s: string, t: string, n: nat, j: nat)
    requires n <= |s|
    ensures At(s[..n], t, j) <==> At(s, t, j) && j + |t| <= n
  {
    if j + |t| <= n {
      assert s[..n][j..j + |t|] == s[j..j + |t|];
    }
  }

  lemma FirstAt(s: string, t: string, r: nat)
    requires At(s, t, r)
    requires forall j :: 0 <= j < r ==> !At(s, t, j)
    ensures IndexFrom(s, t, 0) == r
  {
  }

  lemma LastPieceEnds(s: string, t: string, k: nat)
    requires k <= |s| && IndexFrom(s, t, k) < 0
    ensures Absent(s[k..], t)
  {
    forall j | 0 <= j ensures !At(s[k..], t, j) { AtDropped(s, t, k, j); }
  }

  lemma PieceEnds(s: string, t: string, k: nat, i: nat)
    requires k <= |s| && i == IndexFrom(s, t, k)
    ensures NotBefore(s[k..i], t)
  {
    var n, w := i + |t|, s[k..i] + t;
    assert w == s[..n][k..];
    forall j: nat ensures At(w, t, j) <==> At(s, t, k + j) && k + j + |t| <= n {
      AtDropped(s[..n], t, k, j);
      AtTaken(s, t, n, k + j);
    }
    assert At(w, t, i - k);
    FirstAt(w, t, i - k);
  }

  lemma PiecesUnfold(s: string, oldStr: string, k: nat, i: int)
    requires oldStr != "" && k <= |s| && i == IndexFrom(s, oldStr, k)
    ensures i < 0 ==> Pieces(s, oldStr, k) == [s[k..]] && CountFrom(s, oldStr, k) == 0
    ensures i >= 0 ==>
      && i + |oldStr| <= |s|
      && Pieces(s, oldStr, k) == [s[k..i]] + Pieces(s, oldStr, i + |oldStr|)
      && CountFrom(s, oldStr, k) == 1 + CountFrom(s, oldStr, i + |oldStr|)
  {
  }

  lemma TextUnfold(s: string, t: string, k: nat, i: nat)
    requires k <= i && At(s, t, i)
    ensures s[k..] == s[k..i] + t + s[i + |t|..]
  {
    assert s[i..i + |t|] == t;
    assert s[k..] == s[k..i] + s[i..i + |t|] + s[i + |t|..];
  }

  lemma {:induction false} PiecesRejoin(s: string, oldStr: string, k: nat)
    requires oldStr != "" && k <= |s|
    ensures Join(Pieces(s, oldStr, k), oldStr) == s[k..]
    decreases |s| - k
  {
    var i := IndexFrom(s, oldStr, k);
    PiecesUnfold(s, oldStr, k, i);
    if i >= 0 {
      var n := i + |oldStr|;
      PiecesRejoin(s, oldStr, n);
      JoinCons(s[k..i], Pieces(s, oldStr, n), oldStr);
      TextUnfold(s, oldStr, k, i);
    }
  }

  lemma ReplacedUnfold(s: string, oldStr: string, newStr: string, k: nat, i: int)
    requires oldStr != "" && k <= |s| && i == IndexFrom(s, oldStr, k)
    ensures i < 0 ==> ReplaceFrom(s, oldStr, newStr, k) == s[k..]
    ensures i >= 0 ==>
      ReplaceFrom(s, oldStr, newStr, k) == s[k..i] + newStr + ReplaceFrom(s, oldStr, newStr, i + |oldStr|)
  {
  }

  lemma {:induction false} PiecesReplaced(s: string, oldStr: string, newStr: string, k: nat)
    requires oldStr != "" && k <= |s|
    ensures Join(Pieces(s, oldStr, k), newStr) == ReplaceFrom(s, oldStr, newStr, k)
    decreases |s| - k
  {
    var i := IndexFrom(s, oldStr, k);
    PiecesUnfold(s, oldStr, k, i);
    ReplacedUnfold(s, oldStr, newStr, k, i);
    if i >= 0 {
      var n := i + |oldStr|;
      PiecesReplaced(s, oldStr, newStr, n);
      JoinCons(s[k..i], Pieces(s, oldStr, n), newStr);
    }
  }

  lemma {:induction false} PiecesCounted(s: string, oldStr: string, k: nat)
    requires oldStr != "" && k <= |s|
    ensures |Pieces(s, oldStr, k)| == CountFrom(s, oldStr, k) + 1
    decreases |s| - k
  {
    var i := IndexFrom(s, oldStr, k);
    PiecesUnfold(s, oldStr, k, i);
    if i >= 0 { PiecesCounted(s, oldStr, i + |oldStr|); }
  }

  lemma SeparatedCons(ps: seq<string>, a: string, pieces: seq<string>, t: string)
    requires ps == [a] + pieces && Separated(pieces, t) && NotBefore(a, t)
    ensures Separated(ps, t)
  {
    assert ps[|ps| - 1] == pieces[|pieces| - 1];
  }

  lemma OnePiece(ps: seq<string>, a: string, t: string)
    requires ps == [a] && Absent(a, t)
    ensures Separated(ps, t)
  {
  }

  lemma {:induction false} PiecesSeparated(s: string, oldStr: string, k: nat)
    requires oldStr != "" && k <= |s|
    ensures Separated(Pieces(s, oldStr, k), oldStr)
    decreases |s| - k
  {
    var i := IndexFrom(s, oldStr, k);
    PiecesUnfold(s, oldStr, k, i);
    if i < 0 {
      LastPieceEnds(s, oldStr, k);
      OnePiece(Pieces(s, oldStr, k), s[k..], oldStr);
    } else {
      PieceEnds(s, oldStr, k, i);
      PiecesSeparated(s, oldStr, i + |oldStr|);
      SeparatedCons(Pieces(s, oldStr, k), s[k..i], Pieces(s, oldStr, i + |oldStr|), oldStr);
    }
  }

  // The text is a list of pieces joined by the old string, each ending at the first occurrence
  // behind the one before it and the last without one; replacing joins the same pieces by the
  // new string, and the count is one less than their number.
  lemma ReplacesBetweenPieces(s: string, oldStr: string, newStr: string)
    requires oldStr != ""
    ensures var ps := Pieces(s, oldStr, 0);
      && Separated(ps, oldStr)
      && Join(ps, oldStr) == s
      && Join(ps, newStr) == ReplaceAll(s, oldStr, newStr)
      && |ps| == Count(s, oldStr) + 1
  {
    PiecesSeparated(s, oldStr, 0);
    PiecesRejoin(s, oldStr, 0);
    PiecesReplaced(s, oldStr, newStr, 0);
    PiecesCounted(s, oldStr, 0);
    assert s[0..] == s;
  }

  // The empty string is counted before every character and at the end; the first replacement
  // goes in front, and all of them go around every character.
  lemma EmptyOld(s: string, newStr: string)
    ensures Count(s, "") == |s| + 1
    ensures Replace(s, "", newStr) == newStr + s
    ensures ReplaceAll("", "", newStr) == newStr
    ensures s != "" ==> ReplaceAll(s, "", newStr) == newStr + [s[0]] + ReplaceAll(s[1..], "", newStr)
  {
    assert At(s, "", 0);
  }

  // ---- laws -------------------------------------------------------------------------------

  lemma ReplaceFromUnfolds(s: string, oldStr: string, newStr: string, k: nat)
    requires oldStr != "" && k <= |s| && IndexFrom(s, oldStr, k) >= 0
    ensures var i := IndexFrom(s, oldStr, k); var n := i + |oldStr|;
      && n <= |s|
      && |ReplaceFrom(s, oldStr, newStr, k)| == i - k + |newStr| + |ReplaceFrom(s, oldStr, newStr, n)|
      && CountFrom(s, oldStr, k) == 1 + CountFrom(s, oldStr, n)
  {
  }

  function Times(n: nat, d: int): int {
    if n == 0 then 0 else d + Times(n - 1, d)
  }

  lemma {:induction false} TimesIsProduct(n: nat, d: int)
    ensures Times(n, d) == n * d
  {
    if n > 0 { TimesIsProduct(n - 1, d); }
  }

  lemma {:induction false} ReplaceFromLength(s: string, oldStr: string, newStr: string, k: nat)
    requires oldStr != "" && k <= |s|
    ensures |ReplaceFrom(s, oldStr, newStr, k)| == |s| - k + Times(CountFrom(s, oldStr, k), |newStr| - |oldStr|)
    decreases |s| - k
  {
    var i := IndexFrom(s, oldStr, k);
    if i >= 0 {
      ReplaceFromUnfolds(s, oldStr, newStr, k);
      ReplaceFromLength(s, oldStr, newStr, i + |oldStr|);
    }
  }

  lemma {:induction false} InterleaveLength(s: string, newStr: string)
    ensures |Interleave(s, newStr)| == |s| + (|s| + 1) * |newStr|
  {
    if s != "" {
      InterleaveLength(s[1..], newStr);
    }
  }

  // The length law, for every old string.
  lemma ReplaceAllLength(s: string, oldStr: string, newStr: string)
    ensures |ReplaceAll(s, oldStr, newStr)| == |s| + Count(s, oldStr) * (|newStr| - |oldStr|)
  {
    if oldStr == "" {
      InterleaveLength(s, newStr);
    } else {
      ReplaceFromLength(s, oldStr, newStr, 0);
      TimesIsProduct(Count(s, oldStr), |newStr| - |oldStr|);
    }
  }

  // With one occurrence, replacing all and replacing one are the same.
  lemma OneIsAll(s: string, oldStr: string, newStr: string)
    requires Count(s, oldStr) == 1
    ensures ReplaceAll(s, oldStr, newStr) == Replace(s, oldStr, newStr)
  {
    if oldStr == "" {
      assert IndexFrom(s, oldStr, 0) == 0;
      assert s[..0] + newStr + s[0..] == newStr;
    } else {
      var i := IndexFrom(s, oldStr, 0);
      var n := i + |oldStr|;
      assert CountFrom(s, oldStr, n) == 0;
      assert ReplaceFrom(s, oldStr, newStr, n) == s[n..];
      assert s[0..i] == s[..i];
    }
  }

  // A count of zero means there is no occurrence at all. A count of one means every occurrence
  // overlaps the first, not that there is no other.
  lemma WhatCountMeans(s: string, oldStr: string)
    requires oldStr != ""
    ensures Count(s, oldStr) == 0 <==> forall j :: !At(s, oldStr, j)
    ensures Count(s, oldStr) == 1 <==>
      exists i :: At(s, oldStr, i) && forall j :: At(s, oldStr, j) ==> i <= j < i + |oldStr|
  {
    var i := IndexFrom(s, oldStr, 0);
    if i >= 0 {
      var n := i + |oldStr|;
      var m := IndexFrom(s, oldStr, n);
      assert Count(s, oldStr) == 1 + CountFrom(s, oldStr, n);
      assert CountFrom(s, oldStr, n) == 0 <==> m < 0;
      assert m >= 0 ==> At(s, oldStr, m);
      assert At(s, oldStr, i);
    }
  }

  lemma CountOneIsNotUnique()
    ensures Count("aaa", "aa") == 1 && At("aaa", "aa", 0) && At("aaa", "aa", 1)
  {
    assert At("aaa", "aa", 0);
    assert IndexFrom("aaa", "aa", 0) == 0;
    assert IndexFrom("aaa", "aa", 2) == -1;
  }

  // ---- when a count of one is a unique position -------------------------------------------

  // t begins with the b characters it ends with, so two occurrences can overlap by b.
  predicate Border(t: string, b: nat) {
    0 < b < |t| && t[..b] == t[|t| - b..]
  }

  predicate Borderless(t: string) {
    forall b :: 0 < b < |t| ==> !Border(t, b)
  }

  ghost predicate OccursOnce(s: string, t: string) {
    exists i :: At(s, t, i) && forall j :: At(s, t, j) ==> j == i
  }

  ghost predicate CountTellsUnique(s: string, t: string) {
    Count(s, t) == 1 <==> OccursOnce(s, t)
  }

  lemma OverlapIsBorder(s: string, t: string, i: nat, j: nat)
    requires At(s, t, i) && At(s, t, j) && i < j < i + |t|
    ensures Border(t, i + |t| - j)
  {
    var b := i + |t| - j;
    assert t[|t| - b..] == s[i..i + |t|][|t| - b..] == s[j..i + |t|];
    assert t[..b] == s[j..j + |t|][..b] == s[j..i + |t|];
  }

  lemma BorderlessIsUnique(s: string, t: string)
    requires t != "" && Borderless(t)
    ensures CountTellsUnique(s, t)
  {
    WhatCountMeans(s, t);
    if Count(s, t) == 1 {
      var i :| At(s, t, i) && forall j :: At(s, t, j) ==> i <= j < i + |t|;
      forall j | At(s, t, j) ensures j == i {
        if j > i { OverlapIsBorder(s, t, i, j); }
      }
    }
  }

  // The old string followed by all of it but a border: found twice, counted once.
  lemma BorderIsNotUnique(t: string, b: nat)
    requires Border(t, b)
    ensures var s := t + t[b..];
      Count(s, t) == 1 && At(s, t, 0) && At(s, t, |t| - b) && !CountTellsUnique(s, t)
  {
    var s := t + t[b..];
    assert s[0..|t|] == t;
    assert s[|t| - b..|t| - b + |t|] == t[|t| - b..] + t[b..] == t[..b] + t[b..] == t;
    assert At(s, t, 0) && At(s, t, |t| - b);
    WhatCountMeans(s, t);
  }

  ghost predicate AlwaysTellsUnique(t: string) {
    forall s :: CountTellsUnique(s, t)
  }

  lemma BorderlessAlwaysTells(t: string)
    requires t != "" && Borderless(t)
    ensures AlwaysTellsUnique(t)
  {
    forall s ensures CountTellsUnique(s, t) { BorderlessIsUnique(s, t); }
  }

  lemma BorderedText(t: string, b: nat) returns (s: string)
    requires Border(t, b)
    ensures !CountTellsUnique(s, t)
  {
    s := t + t[b..];
    BorderIsNotUnique(t, b);
  }

  lemma BorderedDoesNot(t: string, b: nat)
    requires Border(t, b)
    ensures !AlwaysTellsUnique(t)
  {
    var s := BorderedText(t, b);
  }

  // A count of one means one position, in every text, exactly when the old string has no border.
  lemma CountTellsUniqueExactlyWhen(t: string)
    requires t != ""
    ensures AlwaysTellsUnique(t) <==> Borderless(t)
  {
    if Borderless(t) {
      BorderlessAlwaysTells(t);
    } else {
      var b :| 0 < b < |t| && Border(t, b);
      BorderedDoesNot(t, b);
    }
  }
}
