/** Slices that own their array, grown and cleared in place. */
module Arrays {
  /** clear on part of an array. */
  method ClearFrom<T>(a: array<T>, lo: nat, hi: nat, zero: T)
    requires lo <= hi <= a.Length
    modifies a
    ensures forall j :: 0 <= j < a.Length ==> a[j] == if lo <= j < hi then zero else old(a[j])
  {
    for i := lo to hi
      invariant forall j :: 0 <= j < a.Length ==> a[j] == if lo <= j < i then zero else old(a[j])
    {
      a[i] := zero;
    }
  }

  ghost predicate ZeroFrom<T>(a: array<T>, n: nat, zero: T)
    reads a
  {
    forall j :: n <= j < a.Length ==> a[j] == zero
  }

  /** An array with room for `need` elements, the first n of them kept. */
  method Grow<T>(a: array<T>, n: nat, need: nat, zero: T, spare: nat) returns (b: array<T>)
    requires n <= a.Length && n <= need
    ensures need <= b.Length && (b == a || fresh(b)) && b[..n] == a[..n]
    ensures ZeroFrom(a, n, zero) ==> ZeroFrom(b, n, zero)
  {
    if need <= a.Length {
      return a;
    }
    b := new T[need + spare](_ => zero);
    for i := 0 to n
      invariant b[..i] == a[..i] && ZeroFrom(b, i, zero)
    {
      b[i] := a[i];
    }
  }

  /** append of some elements to the first n of an array. */
  method AppendTo<T>(a: array<T>, n: nat, xs: seq<T>, zero: T, spare: nat) returns (b: array<T>)
    requires n <= a.Length
    modifies a
    ensures n + |xs| <= b.Length && (b == a || fresh(b))
    ensures b[..n + |xs|] == old(a[..n]) + xs
    ensures old(ZeroFrom(a, n, zero)) ==> ZeroFrom(b, n + |xs|, zero)
  {
    b := Grow(a, n, n + |xs|, zero, spare);
    for i := 0 to |xs|
      invariant b[..n + i] == old(a[..n]) + xs[..i]
      invariant old(ZeroFrom(a, n, zero)) ==> ZeroFrom(b, n + i, zero)
    {
      b[n + i] := xs[i];
      assert b[..n + i + 1] == b[..n + i] + [xs[i]];
    }
  }
}
