/** Go slices: several may share one array, and appending to one that has spare capacity writes into
    the shared array. The monitor's checks append to recorded slices. */
module Slices {

  datatype Slice<T> = Slice(arr: array<T>, len: nat) {
    predicate Ok() {
      len <= arr.Length
    }

    predicate Spare() {
      len < arr.Length
    }

    function Content(): seq<T>
      requires Ok()
      reads arr
    {
      arr[..len]
    }
  }

  /** Go's `append`: in place if there is spare capacity, else into a new array whose capacity
      the growth policy chooses. */
  method Append<T(0)>(s: Slice<T>, x: T) returns (r: Slice<T>)
    requires s.Ok()
    modifies s.arr
    ensures r.Ok() && r.len == s.len + 1
    ensures r.Content() == old(s.Content()) + [x]
    ensures s.Spare() ==> r.arr == s.arr && s.arr[..] == old(s.arr[..])[s.len := x]
    ensures !s.Spare() ==> fresh(r.arr) && s.arr[..] == old(s.arr[..])
  {
    if s.len < s.arr.Length {
      s.arr[s.len] := x;
      r := Slice(s.arr, s.len + 1);
    } else {
      var extra: int :| 0 <= extra;
      var arr := new T[s.len + 1 + extra];
      forall i | 0 <= i < s.len {
        arr[i] := s.arr[i];
      }
      arr[s.len] := x;
      r := Slice(arr, s.len + 1);
      assert s.arr[..s.len] == s.arr[..];
    }
  }

  /** What a check such as `actions' = Append(actions, x)` does: append to the old slice and compare
      with the new one. It succeeds if and only if the new slice did hold the old one and `x`, or
      is the old slice grown by one in the same array: then the append overwrites whatever the
      last element was before the comparison reads it. */
  method CompareWithAppend<T(0, ==)>(prev: Slice<T>, next: Slice<T>, x: T) returns (equal: bool)
    requires prev.Ok() && next.Ok()
    modifies prev.arr
    ensures equal <==>
      || old(next.Content()) == old(prev.Content()) + [x]
      || (next.arr == prev.arr && next.len == prev.len + 1)
    ensures !prev.Spare() || old(prev.arr[prev.len]) == x ==> prev.arr[..] == old(prev.arr[..])
  {
    var r := Append(prev, x);
    equal := next.Content() == r.Content();
    if next.arr == prev.arr {
      assert prev.Spare() && next.len == prev.len + 1 ==> next.Content() == r.Content();
      assert next.len == prev.len + 1 ==> prev.Spare();
    } else {
      assert next.Content() == old(next.Content());
    }
  }
}
