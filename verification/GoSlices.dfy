/** Go slices of messages on Dafny's heap: a header over a shared backing array. Every slice here
    starts at offset 0, so its capacity is the array's length. */
module GoSlices {
  import opened Messages

  datatype Slice = Slice(arr: array<Message>, len: nat) {

    ghost predicate Valid() {
      len <= arr.Length
    }

    function Elems(): seq<Message>
      requires Valid()
      reads arr
    {
      arr[..len]
    }
  }

  // make([]T, n) followed by copy: a new array of exactly that length.
  method Make(xs: seq<Message>) returns (r: Slice)
    ensures fresh(r.arr) && r.Valid() && r.len == r.arr.Length && r.Elems() == xs
  {
    var a := new Message[|xs|](i requires 0 <= i < |xs| => xs[i]);
    r := Slice(a, |xs|);
    assert r.Elems() == xs;
  }

  // append(s, xs...): in place when the capacity allows - overwriting whatever lies beyond the
  // length - else in a new array whose spare capacity is the allocator's choice.
  method Append(s: Slice, xs: seq<Message>) returns (r: Slice)
    requires s.Valid()
    modifies s.arr
    ensures r.Valid() && r.len == s.len + |xs|
    ensures r.Elems() == old(s.Elems()) + xs
    ensures if s.len + |xs| <= s.arr.Length then r.arr == s.arr else fresh(r.arr)
    ensures r.arr != s.arr ==> unchanged(s.arr)
    ensures forall i :: 0 <= i < s.len ==> s.arr[i] == old(s.arr[i])
    ensures forall i :: s.len + |xs| <= i < s.arr.Length ==> s.arr[i] == old(s.arr[i])
  {
    var n := s.len + |xs|;
    if n <= s.arr.Length {
      forall i | 0 <= i < |xs| {
        s.arr[s.len + i] := xs[i];
      }
      r := Slice(s.arr, n);
    } else {
      var spare: int := *;
      if spare < 0 { spare := 0; }
      var a := new Message[n + spare];
      forall i | 0 <= i < s.len {
        a[i] := s.arr[i];
      }
      forall i | 0 <= i < |xs| {
        a[s.len + i] := xs[i];
      }
      r := Slice(a, n);
    }
    assert r.Elems() == old(s.Elems()) + xs;
  }
}
