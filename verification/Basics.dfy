/** Facts about numbers and sequences that several modules use. */
module Basics {

  function Min(a: nat, b: nat): nat {
    if a < b then a else b
  }

  function Max(a: nat, b: nat): nat {
    if a < b then b else a
  }

  lemma Assoc<T>(a: seq<T>, b: seq<T>, c: seq<T>)
    ensures a + b + c == a + (b + c)
    ensures a + [] == a && [] + a == a
  {
  }

  lemma InitAndLast<T>(a: seq<T>, b: seq<T>)
    requires b != []
    ensures (a + b)[..|a + b| - 1] == a + b[..|b| - 1] && (a + b)[|a + b| - 1] == b[|b| - 1]
  {
  }

  lemma PrefixOfPrefix<T>(a: seq<T>, b: seq<T>, c: seq<T>)
    requires a <= b && b <= c
    ensures a <= c
  {
  }

  // What f makes of the first n elements, in a row.
  function FlatMap<A, B>(f: A -> seq<B>, xs: seq<A>, n: nat): seq<B>
    requires n <= |xs|
  {
    if n == 0 then [] else FlatMap(f, xs, n - 1) + f(xs[n - 1])
  }

  lemma {:induction false} FlatMapPrefix<A, B>(f: A -> seq<B>, a: seq<A>, b: seq<A>, n: nat)
    requires n <= |a|
    ensures FlatMap(f, a + b, n) == FlatMap(f, a, n)
  {
    if n > 0 {
      assert (a + b)[n - 1] == a[n - 1];
      FlatMapPrefix(f, a, b, n - 1);
    }
  }

  lemma FlatMapSnoc<A, B>(f: A -> seq<B>, a: seq<A>, b: seq<A>, n: nat)
    requires n < |b|
    ensures FlatMap(f, a + b, |a| + n + 1) == FlatMap(f, a + b, |a| + n) + f(b[n])
    ensures FlatMap(f, b, n + 1) == FlatMap(f, b, n) + f(b[n])
  {
    assert (a + b)[|a| + n] == b[n];
  }

  lemma {:induction false} FlatMapConcat<A, B>(f: A -> seq<B>, a: seq<A>, b: seq<A>, n: nat)
    requires n <= |b|
    ensures FlatMap(f, a + b, |a| + n) == FlatMap(f, a, |a|) + FlatMap(f, b, n)
  {
    if n == 0 {
      FlatMapPrefix(f, a, b, |a|);
      Assoc(FlatMap(f, a, |a|), [], []);
    } else {
      FlatMapConcat(f, a, b, n - 1);
      FlatMapSnoc(f, a, b, n - 1);
      Assoc(FlatMap(f, a, |a|), FlatMap(f, b, n - 1), f(b[n - 1]));
    }
  }

  ghost predicate AddsAt<A, B>(h: nat -> seq<B>, f: A -> seq<B>, xs: seq<A>, k: nat) {
    k < |xs| ==> h(k + 1) == h(k) + f(xs[k])
  }

  // Whatever begins empty and adds f's part of each element is FlatMap.
  lemma {:induction false} FlatMapIs<A, B>(h: nat -> seq<B>, f: A -> seq<B>, xs: seq<A>, n: nat)
    requires n <= |xs| && h(0) == [] && forall k: nat :: AddsAt(h, f, xs, k)
    ensures h(n) == FlatMap(f, xs, n)
  {
    if n > 0 {
      FlatMapIs(h, f, xs, n - 1);
      assert AddsAt(h, f, xs, n - 1);
    }
  }

  function FoldLeft<A, B>(f: (B, A) -> B, b: B, xs: seq<A>, n: nat): B
    requires n <= |xs|
  {
    if n == 0 then b else f(FoldLeft(f, b, xs, n - 1), xs[n - 1])
  }

  lemma {:induction false} FoldPrefix<A, B>(f: (B, A) -> B, b: B, xs: seq<A>, ys: seq<A>, n: nat)
    requires n <= |xs|
    ensures FoldLeft(f, b, xs + ys, n) == FoldLeft(f, b, xs, n)
  {
    if n > 0 { FoldPrefix(f, b, xs, ys, n - 1); }
  }

  lemma {:induction false} FoldConcat<A, B>(f: (B, A) -> B, b: B, xs: seq<A>, ys: seq<A>, n: nat)
    requires n <= |ys|
    ensures FoldLeft(f, b, xs + ys, |xs| + n) == FoldLeft(f, FoldLeft(f, b, xs, |xs|), ys, n)
  {
    if n == 0 {
      FoldPrefix(f, b, xs, ys, |xs|);
    } else {
      FoldConcat(f, b, xs, ys, n - 1);
      assert (xs + ys)[|xs| + n - 1] == ys[n - 1];
    }
  }

  // The first element from position k on that p accepts; |xs| if there is none.
  function FirstSuch<T>(p: T -> bool, xs: seq<T>, k: nat): (i: nat)
    requires k <= |xs|
    ensures k <= i <= |xs|
    ensures i < |xs| ==> p(xs[i])
    ensures forall j :: k <= j < i ==> !p(xs[j])
    decreases |xs| - k
  {
    if k == |xs| || p(xs[k]) then k else FirstSuch(p, xs, k + 1)
  }

  lemma {:induction false} FirstSuchIs<T>(p: T -> bool, xs: seq<T>, k: nat, r: nat)
    requires k <= r <= |xs|
    requires forall j :: k <= j < r ==> !p(xs[j])
    requires r == |xs| || p(xs[r])
    ensures FirstSuch(p, xs, k) == r
    decreases r - k
  {
    if k < r { FirstSuchIs(p, xs, k + 1, r); }
  }

  // Back from n over the elements p accepts.
  function BackOver<T>(p: T -> bool, xs: seq<T>, n: nat): (r: nat)
    requires n <= |xs|
    ensures r <= n
    ensures forall j :: r <= j < n ==> p(xs[j])
    ensures r > 0 ==> !p(xs[r - 1])
  {
    if n > 0 && p(xs[n - 1]) then BackOver(p, xs, n - 1) else n
  }

  lemma {:induction false} BackOverIs<T>(p: T -> bool, xs: seq<T>, n: nat, r: nat)
    requires r <= n <= |xs|
    requires forall j :: r <= j < n ==> p(xs[j])
    requires r == 0 || !p(xs[r - 1])
    ensures BackOver(p, xs, n) == r
  {
    if r < n { BackOverIs(p, xs, n - 1, r); }
  }

  function Inserted<T>(s: seq<T>, i: nat, x: T): seq<T>
    requires i <= |s|
  {
    s[..i] + [x] + s[i..]
  }

  // f(0), f(1), ..., f(n - 1), in a row.
  function Stretch<T>(f: nat -> seq<T>, n: nat): seq<T> {
    if n == 0 then [] else Stretch(f, n - 1) + f(n - 1)
  }

  lemma {:induction false} StretchGrows<T>(f: nat -> seq<T>, k: nat, n: nat)
    requires k <= n
    ensures Stretch(f, k) <= Stretch(f, n)
    decreases n - k
  {
    if k < n {
      StretchGrows(f, k + 1, n);
      PrefixOfPrefix(Stretch(f, k), Stretch(f, k + 1), Stretch(f, n));
    }
  }

  // xs is f(0), ..., f(n - 1).
  ghost predicate Lists<T>(f: nat -> T, xs: seq<T>, n: nat) {
    |xs| == n && forall i :: 0 <= i < n ==> xs[i] == f(i)
  }

  lemma ListsOneMore<T>(f: nat -> T, xs: seq<T>, n: nat, x: T)
    requires Lists(f, xs, n) && x == f(n)
    ensures Lists(f, xs + [x], n + 1)
  {
  }

  // f(i), ..., f(j - 1), in a row.
  function Between<T>(f: nat -> seq<T>, i: nat, j: nat): seq<T>
    requires i <= j
  {
    if i == j then [] else Between(f, i, j - 1) + f(j - 1)
  }

  ghost predicate GrowsAt<T>(h: nat -> seq<T>, f: nat -> seq<T>, k: nat) {
    h(k + 1) == h(k) + f(k)
  }

  lemma {:induction false} GrowsBetween<T>(h: nat -> seq<T>, f: nat -> seq<T>, i: nat, j: nat)
    requires i <= j && forall k: nat :: i <= k < j ==> GrowsAt(h, f, k)
    ensures h(j) == h(i) + Between(f, i, j)
  {
    if i < j {
      GrowsBetween(h, f, i, j - 1);
      assert GrowsAt(h, f, j - 1);
      Assoc(h(i), Between(f, i, j - 1), f(j - 1));
    }
  }

  predicate Every<T>(p: T -> bool, xs: seq<T>) {
    forall i :: 0 <= i < |xs| ==> p(xs[i])
  }

  lemma EveryConcat<T>(p: T -> bool, xs: seq<T>, ys: seq<T>)
    requires Every(p, xs) && Every(p, ys)
    ensures Every(p, xs + ys)
  {
  }

  lemma {:induction false} EveryBetween<T>(p: T -> bool, f: nat -> seq<T>, i: nat, j: nat)
    requires i <= j && forall k: nat :: i <= k < j ==> Every(p, f(k))
    ensures Every(p, Between(f, i, j))
  {
    if i < j { EveryBetween(p, f, i, j - 1); }
  }

  // What f makes of all elements.
  function Flattened<A, B>(f: A -> seq<B>, xs: seq<A>): seq<B> {
    FlatMap(f, xs, |xs|)
  }

  lemma FlattenedConcat<A, B>(f: A -> seq<B>, a: seq<A>, b: seq<A>)
    ensures Flattened(f, a + b) == Flattened(f, a) + Flattened(f, b)
  {
    FlatMapConcat(f, a, b, |b|);
  }

  lemma FlattenedSnoc<A, B>(f: A -> seq<B>, xs: seq<A>, x: A)
    ensures Flattened(f, xs + [x]) == Flattened(f, xs) + f(x)
  {
    FlatMapPrefix(f, xs, [x], |xs|);
  }

  lemma FlattenedOne<A, B>(f: A -> seq<B>, x: A)
    ensures Flattened(f, [x]) == f(x)
  {
    assert FlatMap(f, [x], 1) == FlatMap(f, [x], 0) + f(x);
  }

  ghost predicate MapsAt<A, B>(t: A -> seq<B>, g: nat -> seq<A>, f: nat -> seq<B>, k: nat) {
    f(k) == Flattened(t, g(k))
  }

  lemma {:induction false} FlatMapBetween<A, B>(t: A -> seq<B>, g: nat -> seq<A>, f: nat -> seq<B>, i: nat, j: nat)
    requires i <= j && forall k: nat :: i <= k < j ==> MapsAt(t, g, f, k)
    ensures Between(f, i, j) == Flattened(t, Between(g, i, j))
  {
    if i < j {
      FlatMapBetween(t, g, f, i, j - 1);
      assert MapsAt(t, g, f, j - 1);
      FlattenedConcat(t, Between(g, i, j - 1), g(j - 1));
    }
  }
}
