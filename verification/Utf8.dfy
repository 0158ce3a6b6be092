/** UTF-8 as in RFC 3629, and safeTruncate of pkg/agent/memory.go. */
module Utf8 {
  import opened Basics

  type Byte = b: int | 0 <= b < 256

  // ---- validity: the grammar of section 4 -------------------------------------------------

  predicate Tail(b: Byte) {
    0x80 <= b <= 0xBF
  }

  // The test the code makes on a byte.
  lemma TailByMask(b: bv8)
    ensures b & 0xC0 == 0x80 <==> 0x80 <= b <= 0xBF
  {
  }

  // The length of the character at i, 0 if there is none.
  function CharLen(s: seq<Byte>, i: nat): (n: nat)
    ensures n <= 4 && (n > 0 ==> i + n <= |s|)
  {
    if i >= |s| then 0
    else
      var b := s[i];
      if b <= 0x7F then 1
      else if i + 1 >= |s| then 0
      else
        var c := s[i + 1];
        if 0xC2 <= b <= 0xDF then if Tail(c) then 2 else 0
        else if 0xE0 <= b <= 0xEF then
          if (if b == 0xE0 then 0xA0 <= c <= 0xBF else if b == 0xED then 0x80 <= c <= 0x9F else Tail(c))
            && i + 2 < |s| && Tail(s[i + 2])
          then 3 else 0
        else if 0xF0 <= b <= 0xF4 then
          if (if b == 0xF0 then 0x90 <= c <= 0xBF else if b == 0xF4 then 0x80 <= c <= 0x8F else Tail(c))
            && i + 3 < |s| && Tail(s[i + 2]) && Tail(s[i + 3])
          then 4 else 0
        else 0
  }

  // Whether the bytes from i to k are whole characters.
  predicate Chars(s: seq<Byte>, i: nat, k: nat)
    requires i <= k <= |s|
    decreases k - i
  {
    i == k || (var n := CharLen(s, i); n > 0 && i + n <= k && Chars(s, i + n, k))
  }

  predicate Valid(s: seq<Byte>) {
    Chars(s, 0, |s|)
  }

  // ---- truncation -------------------------------------------------------------------------

  // Back from n to a byte that is not a tail, or to the start.
  function CutPoint(s: seq<Byte>, n: nat): (k: nat)
    requires n < |s|
    ensures k <= n && (k == 0 || !Tail(s[k]))
    ensures forall j :: k < j <= n ==> Tail(s[j])
  {
    if n > 0 && Tail(s[n]) then CutPoint(s, n - 1) else n
  }

  function Truncated(s: seq<Byte>, n: nat): seq<Byte> {
    if |s| <= n then s else s[..CutPoint(s, n)]
  }

  method SafeTruncate(s: seq<Byte>, n: nat) returns (r: seq<Byte>)
    ensures r == Truncated(s, n)
  {
    if |s| <= n {
      return s;
    }
    var k := n;
    while k > 0 && 0x80 <= s[k] < 0xC0
      invariant 0 <= k <= n && CutPoint(s, n) == CutPoint(s, k)
    {
      k := k - 1;
    }
    r := s[..k];
  }

  // ---- where characters begin -------------------------------------------------------------

  lemma CharTails(s: seq<Byte>, i: nat, j: nat)
    requires i < j < i + CharLen(s, i)
    ensures Tail(s[j])
  {
  }

  lemma CharHead(s: seq<Byte>, i: nat)
    requires CharLen(s, i) > 0
    ensures !Tail(s[i])
  {
  }

  // Inside whole characters, a cut is between characters exactly when it is not at a tail.
  lemma {:induction false} CutsBetween(s: seq<Byte>, i: nat, k: nat, e: nat)
    requires i <= k <= e <= |s| && Chars(s, i, e)
    ensures Chars(s, i, k) <==> k == e || !Tail(s[k])
    decreases k - i
  {
    if i < e {
      var n := CharLen(s, i);
      if k >= i + n {
        CutsBetween(s, i + n, k, e);
      } else if i < k {
        CharTails(s, i, k);
      } else {
        CharHead(s, i);
      }
    }
  }

  // The character around position k begins at most three bytes before it.
  lemma {:induction false} HeadNear(s: seq<Byte>, i: nat, k: nat, e: nat) returns (h: nat)
    requires i <= k < e <= |s| && Chars(s, i, e)
    ensures i <= h <= k && k - 3 <= h && !Tail(s[h])
    decreases k - i
  {
    var n := CharLen(s, i);
    if k >= i + n {
      h := HeadNear(s, i + n, k, e);
    } else {
      CharHead(s, i);
      h := i;
    }
  }

  lemma CharLenTaken(s: seq<Byte>, k: nat, i: nat)
    requires i <= k <= |s|
    ensures CharLen(s[..k], i) == if i < k && i + CharLen(s, i) <= k then CharLen(s, i) else 0
  {
  }

  lemma {:induction false} CharsTaken(s: seq<Byte>, k: nat, i: nat, e: nat)
    requires i <= e <= k <= |s|
    ensures Chars(s[..k], i, e) <==> Chars(s, i, e)
    decreases e - i
  {
    if i < e {
      CharLenTaken(s, k, i);
      var n := CharLen(s, i);
      if n > 0 && i + n <= e { CharsTaken(s, k, i + n, e); }
    }
  }

  // The valid prefixes of valid text are those that do not stop in front of a tail.
  lemma ValidPrefix(s: seq<Byte>, k: nat)
    requires Valid(s) && k <= |s|
    ensures Valid(s[..k]) <==> k == |s| || !Tail(s[k])
  {
    CharsTaken(s, k, 0, k);
    CutsBetween(s, 0, k, |s|);
  }

  // On valid text the result is the longest valid prefix of at most n bytes, and when something
  // is cut off it is at most three bytes short of n.
  lemma TruncatedIsLongest(s: seq<Byte>, n: nat)
    requires Valid(s)
    ensures var r := Truncated(s, n);
      && r <= s && |r| <= n && Valid(r)
      && (forall k :: |r| < k <= n && k <= |s| ==> !Valid(s[..k]))
      && (|s| > n ==> |r| >= n - 3)
  {
    if |s| > n {
      var c := CutPoint(s, n);
      ValidPrefix(s, c);
      if c == 0 { assert s[..0] == []; }
      forall k | c < k <= n ensures !Valid(s[..k]) { ValidPrefix(s, k); }
      var h := HeadNear(s, 0, n, |s|);
    } else {
      assert s[..|s|] == s;
    }
  }

  // ---- encoding: section 3 ----------------------------------------------------------------

  function EncodeChar(c: char): (r: seq<Byte>)
    ensures 1 <= |r| <= 4
  {
    var u := c as int;
    if u < 0x80 then [u]
    else if u < 0x800 then [0xC0 + u / 64, 0x80 + u % 64]
    else if u < 0x10000 then [0xE0 + u / 4096, 0x80 + u / 64 % 64, 0x80 + u % 64]
    else [0xF0 + u / 262144, 0x80 + u / 4096 % 64, 0x80 + u / 64 % 64, 0x80 + u % 64]
  }

  // The bytes of the first n characters.
  function Encode(s: string, n: nat): seq<Byte>
    requires n <= |s|
  {
    FlatMap(EncodeChar, s, n)
  }

  function Bytes(s: string): seq<Byte> {
    Encode(s, |s|)
  }

  // len(s).
  function Size(s: string): nat {
    |Bytes(s)|
  }

  lemma EncodedCharLen(pre: seq<Byte>, c: char, post: seq<Byte>)
    ensures CharLen(pre + EncodeChar(c) + post, |pre|) == |EncodeChar(c)|
  {
    var e, s, i := EncodeChar(c), pre + EncodeChar(c) + post, |pre|;
    assert s[i] == e[0];
    if |e| > 1 { assert s[i + 1] == e[1]; }
    if |e| > 2 { assert s[i + 2] == e[2]; }
    if |e| > 3 { assert s[i + 3] == e[3]; }
  }

  lemma {:induction false} CharsAppend(s: seq<Byte>, i: nat, k: nat)
    requires i <= k <= |s| && Chars(s, i, k) && CharLen(s, k) > 0
    ensures Chars(s, i, k + CharLen(s, k))
    decreases k - i
  {
    if i < k {
      CharsAppend(s, i + CharLen(s, i), k);
    } else {
      assert Chars(s, k + CharLen(s, k), k + CharLen(s, k));
    }
  }

  lemma ValidSnoc(b: seq<Byte>, c: char)
    requires Valid(b)
    ensures Valid(b + EncodeChar(c))
  {
    var e := EncodeChar(c);
    EncodedCharLen(b, c, []);
    assert b + e + [] == b + e;
    CharsTaken(b + e, |b|, 0, |b|);
    assert (b + e)[..|b|] == b;
    CharsAppend(b + e, 0, |b|);
  }

  // Encoded text is valid.
  lemma {:induction false} EncodeIsValid(s: string, n: nat)
    requires n <= |s|
    ensures Valid(Encode(s, n))
  {
    if n > 0 {
      EncodeIsValid(s, n - 1);
      ValidSnoc(Encode(s, n - 1), s[n - 1]);
    }
  }

  lemma {:induction false} EncodeGrows(s: string, k: nat, n: nat)
    requires k <= n <= |s|
    ensures Encode(s, k) <= Encode(s, n)
    ensures |Encode(s, n)| >= |Encode(s, k)| + n - k
  {
    if k < n { EncodeGrows(s, k, n - 1); }
  }

  lemma EncodePrefix(s: string, t: string, n: nat)
    requires n <= |s| && n <= |t| && s[..n] == t[..n]
    ensures Encode(s, n) == Encode(t, n)
  {
    FlatMapPrefix(EncodeChar, s[..n], s[n..], n);
    FlatMapPrefix(EncodeChar, t[..n], t[n..], n);
    assert s == s[..n] + s[n..] && t == t[..n] + t[n..];
  }

  // Reading a character back: the bits of section 3, the high ones first.
  function CodePoint(e: seq<int>): int {
    if |e| == 1 then e[0]
    else if |e| == 2 then (e[0] - 0xC0) * 0x40 + (e[1] - 0x80)
    else if |e| == 3 then (e[0] - 0xE0) * 0x1000 + (e[1] - 0x80) * 0x40 + (e[2] - 0x80)
    else if |e| == 4 then
      (e[0] - 0xF0) * 0x4_0000 + (e[1] - 0x80) * 0x1000 + (e[2] - 0x80) * 0x40 + (e[3] - 0x80)
    else -1
  }

  lemma CharReadsBack(c: char)
    ensures CodePoint(EncodeChar(c)) == c as int
  {
    var u := c as int;
    SixBits(u, 1);
    SixBits(u, 64);
    SixBits(u, 4096);
  }

  lemma SixBits(u: nat, unit: nat)
    requires unit == 1 || unit == 64 || unit == 4096
    ensures u / unit == u / (64 * unit) * 64 + u / unit % 64
  {
    if unit == 64 {
      assert u / 4096 == u / 64 / 64;
    } else if unit == 4096 {
      assert u / 262144 == u / 4096 / 64;
    }
  }

  lemma EncodedHead(c: char)
    ensures var e := EncodeChar(c); !Tail(e[0]) && forall j :: 0 < j < |e| ==> Tail(e[j])
  {
  }

  // The last character of a text is the end of its bytes from the last that is not a tail.
  lemma SameLast(a: seq<Byte>, c: char, b: seq<Byte>, d: char)
    requires a + EncodeChar(c) == b + EncodeChar(d)
    ensures a == b && c == d
  {
    var s, e, f := a + EncodeChar(c), EncodeChar(c), EncodeChar(d);
    EncodedHead(c);
    EncodedHead(d);
    assert s[|a|] == e[0] && s[|b|] == f[0];
    assert forall k :: |a| < k < |s| ==> s[k] == e[k - |a|];
    assert forall k :: |b| < k < |s| ==> s[k] == f[k - |b|];
    assert |b| <= |a| && |a| <= |b|;
    assert a == s[..|a|] && b == s[..|b|] && e == s[|a|..] && f == s[|b|..];
    CharReadsBack(c);
    CharReadsBack(d);
  }

  lemma BytesSnoc(s: string)
    requires s != ""
    ensures Bytes(s) == Bytes(s[..|s| - 1]) + EncodeChar(s[|s| - 1])
  {
    EncodePrefix(s, s[..|s| - 1], |s| - 1);
  }

  lemma NoBytes(s: string)
    ensures Bytes(s) == [] <==> s == ""
  {
    if s != "" { BytesSnoc(s); }
  }

  // Two texts with the same bytes are the same text.
  lemma {:induction false} EncodeIsInjective(s: string, t: string)
    requires Bytes(s) == Bytes(t)
    ensures s == t
    decreases |s|
  {
    NoBytes(s);
    NoBytes(t);
    if s != "" {
      BytesSnoc(s);
      BytesSnoc(t);
      SameLast(Bytes(s[..|s| - 1]), s[|s| - 1], Bytes(t[..|t| - 1]), t[|t| - 1]);
      EncodeIsInjective(s[..|s| - 1], t[..|t| - 1]);
      assert s == s[..|s| - 1] + [s[|s| - 1]] && t == t[..|t| - 1] + [t[|t| - 1]];
    }
  }

  // ---- truncating text --------------------------------------------------------------------

  // The most characters that fit in n bytes, at most the first k.
  function Fit(s: string, k: nat, n: nat): (m: nat)
    requires k <= |s|
    ensures m <= k && |Encode(s, m)| <= n
    ensures m < k ==> |Encode(s, m + 1)| > n
  {
    if |Encode(s, k)| <= n then k else Fit(s, k - 1, n)
  }

  function Cut(s: string, n: nat): (r: string)
    ensures r <= s
  {
    s[..Fit(s, |s|, n)]
  }

  lemma {:induction false} CutPointIs(s: seq<Byte>, n: nat, k: nat)
    requires k <= n < |s| && !Tail(s[k])
    requires forall j :: k < j <= n ==> Tail(s[j])
    ensures CutPoint(s, n) == k
  {
    if k < n { CutPointIs(s, n - 1, k); }
  }

  // The bytes of one more character: a head, then tails.
  lemma EncodedBytes(s: string, m: nat, j: nat)
    requires m < |s| && |Encode(s, m)| <= j < |Encode(s, m + 1)|
    ensures |Encode(s, m + 1)| <= Size(s)
    ensures Tail(Bytes(s)[j]) <==> j > |Encode(s, m)|
  {
    EncodeGrows(s, m + 1, |s|);
    var e := EncodeChar(s[m]);
    assert Encode(s, m + 1)[j] == e[j - |Encode(s, m)|];
    assert Bytes(s)[j] == Encode(s, m + 1)[j];
  }

  // Truncating the bytes of a text is cutting the text between characters.
  lemma TruncatedBytes(s: string, n: nat)
    ensures Truncated(Bytes(s), n) == Bytes(Cut(s, n))
  {
    var m := Fit(s, |s|, n);
    var b, k := Bytes(s), |Encode(s, m)|;
    EncodePrefix(s, Cut(s, n), m);
    EncodeGrows(s, m, |s|);
    if |b| > n {
      assert m < |s|;
      EncodedBytes(s, m, k);
      forall j | k < j <= n ensures Tail(b[j]) { EncodedBytes(s, m, j); }
      CutPointIs(b, n, k);
    }
  }

  lemma CutSize(s: string, n: nat)
    ensures Size(Cut(s, n)) <= n
    ensures Size(s) > n ==> Size(Cut(s, n)) >= n - 3
    ensures Size(s) <= n ==> Cut(s, n) == s
  {
    var m := Fit(s, |s|, n);
    EncodePrefix(s, Cut(s, n), m);
  }
}
