/** The pieces of Go's strings and fmt packages the other modules rely on. */
module Strings {
  import opened Basics

  // ---- joining ----------------------------------------------------------------------------

  // The first n parts, joined.
  function Joined(parts: seq<string>, n: nat): string
    requires n <= |parts|
  {
    if n == 0 then "" else Joined(parts, n - 1) + parts[n - 1]
  }

  function Flatten(parts: seq<string>): string {
    Joined(parts, |parts|)
  }

  lemma {:induction false} JoinedConcat(a: seq<string>, b: seq<string>, n: nat)
    requires n <= |a| + |b|
    ensures Joined(a + b, n) == if n <= |a| then Joined(a, n) else Joined(a, |a|) + Joined(b, n - |a|)
    decreases n
  {
    if n > 0 {
      JoinedConcat(a, b, n - 1);
      if n == |a| + 1 { assert Joined(a, |a|) + Joined(b, 0) == Joined(a, |a|); }
    }
  }

  lemma FlattenConcat(a: seq<string>, b: seq<string>)
    ensures Flatten(a + b) == Flatten(a) + Flatten(b)
  {
    JoinedConcat(a, b, |a| + |b|);
  }

  // ---- decimal numbers --------------------------------------------------------------------

  function Digit(d: nat): char
    requires d < 10
  {
    '0' + d as char
  }

  // fmt's %d.
  function Decimal(n: nat): string {
    if n < 10 then [Digit(n)] else Decimal(n / 10) + [Digit(n % 10)]
  }

  // Reading a decimal number back.
  function Value(s: string): int {
    if s == "" then 0 else 10 * Value(s[..|s| - 1]) + (s[|s| - 1] as int - '0' as int)
  }

  lemma {:induction false} DecimalReadsBack(n: nat)
    ensures Value(Decimal(n)) == n
  {
    var s := Decimal(n);
    if n < 10 {
      assert s[..|s| - 1] == "";
    } else {
      DecimalReadsBack(n / 10);
      assert s[..|s| - 1] == Decimal(n / 10);
    }
  }

  // It has no leading zero, and nothing but digits.
  lemma {:induction false} DecimalDigits(n: nat)
    ensures Decimal(n) != "" && (Decimal(n)[0] == '0' <==> n == 0)
    ensures forall i :: 0 <= i < |Decimal(n)| ==> '0' <= Decimal(n)[i] <= '9'
  {
    if n >= 10 { DecimalDigits(n / 10); }
  }

  // ---- searching --------------------------------------------------------------------------

  predicate At(s: string, t: string, i: int) {
    0 <= i <= |s| - |t| && s[i..i + |t|] == t
  }

  // The first occurrence of t at or behind position k, or -1.
  function IndexFrom(s: string, t: string, k: nat): (i: int)
    requires k <= |s|
    ensures i == -1 || (k <= i && At(s, t, i))
    ensures forall j :: k <= j && At(s, t, j) ==> 0 <= i <= j
    decreases |s| - k
  {
    if At(s, t, k) then k else if k == |s| then -1 else IndexFrom(s, t, k + 1)
  }

  // ---- trimming ---------------------------------------------------------------------------

  // The cut set " \t".
  predicate Blank(c: char) {
    c == ' ' || c == '\t'
  }

  // unicode.IsSpace.
  predicate Space(c: char) {
    var u := c as int;
    || 9 <= u <= 13 || u == 0x20 || u == 0x85 || u == 0xA0 || u == 0x1680
    || 0x2000 <= u <= 0x200A || u == 0x2028 || u == 0x2029 || u == 0x202F || u == 0x205F
    || u == 0x3000
  }

  // Past the characters satisfying p, from position i forward.
  function Skip(p: char -> bool, s: string, i: nat): (r: nat)
    requires i <= |s|
    ensures i <= r <= |s|
    ensures forall j :: i <= j < r ==> p(s[j])
    ensures r < |s| ==> !p(s[r])
    decreases |s| - i
  {
    if i < |s| && p(s[i]) then Skip(p, s, i + 1) else i
  }

  function TrimLeft(p: char -> bool, s: string): (t: string)
    ensures |t| <= |s| && t == s[|s| - |t|..]
    ensures t == "" || !p(t[0])
  {
    s[Skip(p, s, 0)..]
  }

  function TrimRight(p: char -> bool, s: string): (t: string)
    ensures t <= s
    ensures t == "" || !p(t[|t| - 1])
  {
    s[..BackOver(p, s, |s|)]
  }

  function Trim(p: char -> bool, s: string): string {
    TrimRight(p, TrimLeft(p, s))
  }

  predicate AllSatisfy(p: char -> bool, s: string) {
    forall j :: 0 <= j < |s| ==> p(s[j])
  }

  // No character at either end satisfies p.
  predicate Trimmed(p: char -> bool, s: string) {
    s == "" || (!p(s[0]) && !p(s[|s| - 1]))
  }

  lemma {:induction false} SkipIs(p: char -> bool, s: string, i: nat, r: nat)
    requires i <= r <= |s|
    requires forall j :: i <= j < r ==> p(s[j])
    requires r == |s| || !p(s[r])
    ensures Skip(p, s, i) == r
    decreases r - i
  {
    if i < r { SkipIs(p, s, i + 1, r); }
  }

  lemma TrimLeftDrops(p: char -> bool, pad: string, s: string)
    requires AllSatisfy(p, pad)
    requires s == "" || !p(s[0])
    ensures TrimLeft(p, pad + s) == s
  {
    SkipIs(p, pad + s, 0, |pad|);
  }

  lemma TrimRightDrops(p: char -> bool, s: string, pad: string)
    requires AllSatisfy(p, pad)
    requires s == "" || !p(s[|s| - 1])
    ensures TrimRight(p, s + pad) == s
  {
    BackOverIs(p, s + pad, |s + pad|, |s|);
  }

  // Trimming finds the trimmed core between any two paddings, and always gives a trimmed string.
  lemma TrimFinds(p: char -> bool, left: string, s: string, right: string)
    requires AllSatisfy(p, left) && AllSatisfy(p, right) && Trimmed(p, s)
    ensures Trim(p, left + s + right) == s
  {
    if s == "" {
      var w := left + s + right;
      SkipIs(p, w, 0, |w|);
    } else {
      assert left + s + right == left + (s + right);
      TrimLeftDrops(p, left, s + right);
      TrimRightDrops(p, s, right);
    }
  }

  lemma TrimIsTrimmed(p: char -> bool, s: string)
    ensures Trimmed(p, Trim(p, s))
  {
  }
}
