/** Slices over an explicit memory of arrays, as a Go program sees them: a slice
names a region of an array, append writes into spare capacity when there is any,
and several slices may share one array.

A Store holds the arrays of one element type and, for every configuration
address, the slice that configuration holds together with the address recorded
as the owner of its array. */
module GoSlices {
  import opened Errors

  type Loc = nat
  type Addr = nat

  datatype Slice = Slice(arr: Loc, off: nat, len: nat, cap: nat)

  const NIL := Slice(0, 0, 0, 0)

  /** One slice field of a configuration and its owner pointer. */
  datatype Half = Half(slice: Slice, owner: Option<Addr>)

  /** `callers` are the arrays that belong to the application; `next` is an
      address no array has yet; `zero` is the element type's zero value. */
  datatype Store<T> = Store(arrays: map<Loc, seq<T>>, halves: map<Addr, Half>, callers: set<Loc>, next: Loc, zero: T)

  predicate WellFormed<T>(st: Store<T>, sl: Slice)
  {
    && sl.len <= sl.cap
    && (sl.cap > 0 ==> sl.arr in st.arrays && sl.off + sl.cap <= |st.arrays[sl.arr]|)
  }

  /** The elements a slice shows. */
  function View<T>(st: Store<T>, sl: Slice): seq<T>
    requires WellFormed(st, sl)
  {
    if sl.len == 0 then [] else st.arrays[sl.arr][sl.off..sl.off + sl.len]
  }

  predicate Owned<T>(st: Store<T>, a: Addr)
    requires a in st.halves
  {
    st.halves[a].owner == Some(a)
  }

  function Zeros<T>(zero: T, n: nat): (z: seq<T>)
    ensures |z| == n && forall i :: 0 <= i < n ==> z[i] == zero
  {
    seq(n, _ => zero)
  }

  /** `xs` written over the cells of an array from `at` on. */
  function Overwrite<T>(cells: seq<T>, at: nat, xs: seq<T>): (r: seq<T>)
    requires at + |xs| <= |cells|
    ensures |r| == |cells|
  {
    cells[..at] + xs + cells[at + |xs|..]
  }

  /** Go's append: in place when the capacity allows it, otherwise into a new
      array with `extra` spare cells. */
  function AppendTo<T>(st: Store<T>, sl: Slice, xs: seq<T>, extra: nat): (Store<T>, Slice)
    requires WellFormed(st, sl)
  {
    if |xs| == 0 then (st, sl)
    else if sl.len + |xs| <= sl.cap then
      (st.(arrays := st.arrays[sl.arr := Overwrite(st.arrays[sl.arr], sl.off + sl.len, xs)]),
       sl.(len := sl.len + |xs|))
    else
      var cells := View(st, sl) + xs + Zeros(st.zero, extra);
      (st.(arrays := st.arrays[st.next := cells], next := st.next + 1),
       Slice(st.next, 0, sl.len + |xs|, |cells|))
  }

  /** Go's clear on a slice. */
  function Clear<T>(st: Store<T>, sl: Slice): Store<T>
    requires WellFormed(st, sl)
  {
    if sl.len == 0 then st
    else st.(arrays := st.arrays[sl.arr := Overwrite(st.arrays[sl.arr], sl.off, Zeros(st.zero, sl.len))])
  }

  function Put<T>(st: Store<T>, a: Addr, sl: Slice, owner: Option<Addr>): Store<T>
  {
    st.(halves := st.halves[a := Half(sl, owner)])
  }

  // ----- The operations on one slice field

  /** Copy the elements into memory of one's own, unless already there. An empty
      borrowed slice becomes a zero-capacity slice of the same array. */
  function Adopt<T>(st: Store<T>, a: Addr, extra: nat): Store<T>
    requires a in st.halves && WellFormed(st, st.halves[a].slice)
  {
    if Owned(st, a) then st
    else
      var sl := st.halves[a].slice;
      var (st1, sl1) := AppendTo(st, sl.(len := 0, cap := 0), View(st, sl), extra);
      Put(st1, a, sl1, Some(a))
  }

  function AppendOwned<T>(st: Store<T>, a: Addr, xs: seq<T>, extra: nat): Store<T>
    requires a in st.halves && WellFormed(st, st.halves[a].slice)
  {
    var (st1, sl1) := AppendTo(st, st.halves[a].slice, xs, extra);
    Put(st1, a, sl1, st1.halves[a].owner)
  }

  /** Clear and keep an array of one's own; drop a borrowed one. */
  function ResetHalf<T>(st: Store<T>, a: Addr): Store<T>
    requires a in st.halves && WellFormed(st, st.halves[a].slice)
  {
    var sl := st.halves[a].slice;
    if Owned(st, a) then Put(Clear(st, sl), a, sl.(len := 0), Some(a))
    else Put(st, a, NIL, Some(a))
  }

  // ----- The invariant

  /** Ownership: an owned array is apart from the application's; whoever else
      still shows part of it is a borrower and shows no more than the owner's
      visible prefix. */
  ghost predicate Separated<T>(st: Store<T>)
  {
    forall a, b :: a in st.halves && b in st.halves ==> Apart(st, a, b)
  }

  predicate Apart<T>(st: Store<T>, a: Addr, b: Addr)
    requires a in st.halves && b in st.halves
  {
    a != b && Owned(st, a) && Shares(st, a, b) ==>
      && !Owned(st, b) && st.halves[b].slice.off == 0 && st.halves[b].slice.len <= st.halves[a].slice.len
  }

  /** Two configurations hold non-empty regions of one array. */
  predicate Shares<T>(st: Store<T>, a: Addr, b: Addr)
    requires a in st.halves && b in st.halves
  {
    st.halves[a].slice.cap > 0 && st.halves[b].slice.cap > 0 && st.halves[a].slice.arr == st.halves[b].slice.arr
  }

  /** What every run keeps, whatever is reset or copied back: slices are sound,
      and nobody records an owner for an application's array. */
  ghost predicate Sound<T>(st: Store<T>)
  {
    && (forall l :: l in st.arrays ==> l < st.next)
    && st.callers <= st.arrays.Keys
    && (forall a :: a in st.halves ==> WellFormed(st, st.halves[a].slice))
    && (forall a :: a in st.halves && st.halves[a].owner.Some? && st.halves[a].slice.cap > 0 ==>
          && st.halves[a].slice.arr !in st.callers
          && st.halves[a].slice.off == 0)
  }

  /** Every configuration shows exactly its private sequence in `vals`. */
  ghost predicate Refines<T>(st: Store<T>, vals: map<Addr, seq<T>>)
  {
    Sound(st) && Separated(st) && Shows(st, vals)
  }

  ghost predicate Shows<T>(st: Store<T>, vals: map<Addr, seq<T>>)
    requires Sound(st)
  {
    && st.halves.Keys == vals.Keys
    && (forall a :: a in st.halves ==> View(st, st.halves[a].slice) == vals[a])
  }

  // ----- Each operation keeps it

  lemma OverwriteKeeps<T>(cells: seq<T>, at: nat, xs: seq<T>, lo: nat, hi: nat)
    requires at + |xs| <= |cells| && lo <= hi <= |cells| && (hi <= at || at + |xs| <= lo)
    ensures Overwrite(cells, at, xs)[lo..hi] == cells[lo..hi]
  {
  }

  lemma OverwriteExtends<T>(cells: seq<T>, at: nat, xs: seq<T>, lo: nat)
    requires lo <= at && at + |xs| <= |cells|
    ensures Overwrite(cells, at, xs)[lo..at + |xs|] == cells[lo..at] + xs
  {
  }

  /** What append does to its own slice. */
  lemma AppendShows<T>(st: Store<T>, sl: Slice, xs: seq<T>, extra: nat)
    requires WellFormed(st, sl)
    ensures var (st1, sl1) := AppendTo(st, sl, xs, extra);
      WellFormed(st1, sl1) && View(st1, sl1) == View(st, sl) + xs
  {
    if |xs| == 0 {
    } else if sl.len + |xs| <= sl.cap {
      OverwriteExtends(st.arrays[sl.arr], sl.off + sl.len, xs, sl.off);
    } else {
      var cells := View(st, sl) + xs + Zeros(st.zero, extra);
      assert cells[..sl.len + |xs|] == View(st, sl) + xs;
    }
  }

  /** An array grew only by new ones, or one array that no other slice relies on
      changed past `upto`: every other slice still shows what it showed. */
  lemma AppendKeepsOthers<T>(st: Store<T>, sl: Slice, xs: seq<T>, extra: nat, other: Slice)
    requires (forall l :: l in st.arrays ==> l < st.next) && WellFormed(st, sl) && WellFormed(st, other)
    requires other.cap > 0 && sl.cap > 0 && other.arr == sl.arr ==> other.off + other.len <= sl.off + sl.len
    ensures var st1 := AppendTo(st, sl, xs, extra).0; WellFormed(st1, other) && View(st1, other) == View(st, other)
  {
    if 0 < |xs| && sl.len + |xs| <= sl.cap && other.len > 0 && other.arr == sl.arr {
      OverwriteKeeps(st.arrays[sl.arr], sl.off + sl.len, xs, other.off, other.off + other.len);
    }
  }

  /** What append does to the memory as a whole. */
  lemma AppendMemory<T>(st: Store<T>, sl: Slice, xs: seq<T>, extra: nat)
    requires (forall l :: l in st.arrays ==> l < st.next) && WellFormed(st, sl)
    ensures var (st1, sl1) := AppendTo(st, sl, xs, extra);
      && st1.halves == st.halves && st1.callers == st.callers && st1.zero == st.zero
      && st.arrays.Keys <= st1.arrays.Keys && (forall l :: l in st1.arrays ==> l < st1.next)
      && (forall l :: l in st.arrays && (l != sl.arr || sl.cap == 0) ==> st1.arrays[l] == st.arrays[l])
      && (sl1 == sl || (sl1.arr == sl.arr && sl1.off == sl.off && sl1.cap == sl.cap && sl1.len >= sl.len && sl.cap > 0)
          || (sl1.arr == st.next && sl1.off == 0 && sl1.arr !in st.arrays))
  {
  }

  // ----- Soundness and the application's memory, with no condition on the run

  /** No cell of an application's array, visible or spare, has changed. */
  ghost predicate CallersKept<T>(st: Store<T>, st': Store<T>)
    requires st.callers <= st.arrays.Keys
  {
    st.callers <= st'.callers && st'.callers <= st'.arrays.Keys &&
    forall l :: l in st.callers ==> st'.arrays[l] == st.arrays[l]
  }

  lemma AdoptSound<T>(st: Store<T>, a: Addr, extra: nat)
    requires Sound(st) && a in st.halves
    ensures var st' := Adopt(st, a, extra);
      Sound(st') && CallersKept(st, st') && Owned(st', a) && st'.halves.Keys == st.halves.Keys
  {
    if !Owned(st, a) {
      var sl := st.halves[a].slice;
      var empty := sl.(len := 0, cap := 0);
      AppendMemory(st, empty, View(st, sl), extra);
      AppendShows(st, empty, View(st, sl), extra);
      forall b | b in st.halves ensures WellFormed(AppendTo(st, empty, View(st, sl), extra).0, st.halves[b].slice) {
        AppendKeepsOthers(st, empty, View(st, sl), extra, st.halves[b].slice);
      }
    }
  }

  lemma AppendSound<T>(st: Store<T>, a: Addr, xs: seq<T>, extra: nat)
    requires Sound(st) && a in st.halves && Owned(st, a)
    ensures var st' := AppendOwned(st, a, xs, extra);
      Sound(st') && CallersKept(st, st') && Owned(st', a) && st'.halves.Keys == st.halves.Keys
  {
    var sl := st.halves[a].slice;
    AppendMemory(st, sl, xs, extra);
    AppendShows(st, sl, xs, extra);
  }

  lemma ResetSound<T>(st: Store<T>, a: Addr)
    requires Sound(st) && a in st.halves
    ensures var st' := ResetHalf(st, a); Sound(st') && CallersKept(st, st') && st'.halves.Keys == st.halves.Keys
  {
  }

  // ----- Refinement, operation by operation

  /** A half that holds a region of a new array, or no region, is apart from all. */
  lemma NewHalfApart<T>(st: Store<T>, st': Store<T>, a: Addr, h: Half)
    requires Sound(st) && Separated(st) && st'.halves == st.halves[a := h]
    requires h.slice.cap > 0 ==> h.slice.arr >= st.next
    ensures Separated(st')
  {
    forall x, y | x in st'.halves && y in st'.halves ensures Apart(st', x, y) {
      if x != a && y != a {
        assert Apart(st, x, y);
      } else if x != y {
        var other := if x == a then y else x;
        assert st.halves[other].slice.cap > 0 ==> st.halves[other].slice.arr < st.next;
      }
    }
  }

  lemma AdoptRefines<T>(st: Store<T>, vals: map<Addr, seq<T>>, a: Addr, extra: nat)
    requires Refines(st, vals) && a in st.halves
    ensures Refines(Adopt(st, a, extra), vals) && Owned(Adopt(st, a, extra), a)
  {
    AdoptSound(st, a, extra);
    if !Owned(st, a) {
      var sl := st.halves[a].slice;
      var empty, st' := sl.(len := 0, cap := 0), Adopt(st, a, extra);
      AppendMemory(st, empty, View(st, sl), extra);
      AppendShows(st, empty, View(st, sl), extra);
      NewHalfApart(st, st', a, st'.halves[a]);
      forall b | b in st.halves && b != a ensures View(st', st'.halves[b].slice) == vals[b] {
        AppendKeepsOthers(st, empty, View(st, sl), extra, st.halves[b].slice);
      }
    }
  }

  /** An owner that keeps its array and does not shrink stays apart from all. */
  lemma GrownHalfApart<T>(st: Store<T>, st': Store<T>, a: Addr, h: Half)
    requires Sound(st) && Separated(st) && a in st.halves && Owned(st, a) && st'.halves == st.halves[a := h]
    requires h.owner == Some(a) && h.slice.arr == st.halves[a].slice.arr
    requires h.slice.len >= st.halves[a].slice.len && h.slice.cap == st.halves[a].slice.cap
    ensures Separated(st')
  {
    forall x, y | x in st'.halves && y in st'.halves ensures Apart(st', x, y) {
      assert Apart(st, x, y) && Apart(st, y, x);
    }
  }

  lemma AppendApart<T>(st: Store<T>, a: Addr, xs: seq<T>, extra: nat)
    requires Sound(st) && Separated(st) && a in st.halves && Owned(st, a)
    ensures Separated(AppendOwned(st, a, xs, extra))
  {
    var sl, st' := st.halves[a].slice, AppendOwned(st, a, xs, extra);
    AppendMemory(st, sl, xs, extra);
    if st'.halves[a].slice.arr == sl.arr && st'.halves[a].slice.cap == sl.cap {
      GrownHalfApart(st, st', a, st'.halves[a]);
    } else {
      NewHalfApart(st, st', a, st'.halves[a]);
    }
  }

  lemma AppendShowsAll<T>(st: Store<T>, vals: map<Addr, seq<T>>, a: Addr, xs: seq<T>, extra: nat, b: Addr)
    requires Refines(st, vals) && a in st.halves && Owned(st, a) && b in st.halves
    ensures var (st', sl) := (AppendOwned(st, a, xs, extra), AppendOwned(st, a, xs, extra).halves[b].slice);
      WellFormed(st', sl) && View(st', sl) == vals[a := vals[a] + xs][b]
  {
    AppendShows(st, st.halves[a].slice, xs, extra);
    if b != a {
      assert Apart(st, a, b);
      AppendKeepsOthers(st, st.halves[a].slice, xs, extra, st.halves[b].slice);
    }
  }

  lemma AppendRefines<T>(st: Store<T>, vals: map<Addr, seq<T>>, a: Addr, xs: seq<T>, extra: nat)
    requires Refines(st, vals) && a in st.halves && Owned(st, a)
    ensures Refines(AppendOwned(st, a, xs, extra), vals[a := vals[a] + xs])
  {
    AppendSound(st, a, xs, extra);
    AppendApart(st, a, xs, extra);
    forall b | b in st.halves
      ensures View(AppendOwned(st, a, xs, extra), AppendOwned(st, a, xs, extra).halves[b].slice) == vals[a := vals[a] + xs][b]
    {
      AppendShowsAll(st, vals, a, xs, extra, b);
    }
  }

  /** A borrower of a slice that some other half holds, or of the application's
      memory, is apart from every owner. */
  lemma BorrowerApart<T>(st: Store<T>, st': Store<T>, a: Addr, h: Half)
    requires Sound(st) && Separated(st) && st'.halves == st.halves[a := h] && h.owner != Some(a)
    requires (h.slice.cap > 0 ==> h.slice.arr in st.callers) || (exists b :: b in st.halves && st.halves[b].slice == h.slice)
    ensures Separated(st')
  {
    forall x, y | x in st'.halves && y in st'.halves ensures Apart(st', x, y) {
      if x != a && y != a {
        assert Apart(st, x, y);
      } else if y == a && x != a && Owned(st', x) && Shares(st', x, y) {
        assert h.slice.arr !in st.callers;
        var b :| b in st.halves && st.halves[b].slice == h.slice;
        assert Apart(st, x, b);
      }
    }
  }

  /** Installing a slice of the application's memory by reference. */
  lemma InstallRefines<T>(st: Store<T>, vals: map<Addr, seq<T>>, a: Addr, sl: Slice)
    requires Refines(st, vals) && WellFormed(st, sl) && (sl.cap > 0 ==> sl.arr in st.callers)
    ensures Refines(Put(st, a, sl, None), vals[a := View(st, sl)])
  {
    BorrowerApart(st, Put(st, a, sl, None), a, Half(sl, None));
  }

  /** What the configurations show after one of them has got another slice. */
  lemma PutShows<T>(st: Store<T>, vals: map<Addr, seq<T>>, a: Addr, h: Half)
    requires Sound(st) && Shows(st, vals) && WellFormed(st, h.slice)
    requires h.owner.Some? && h.slice.cap > 0 ==> h.slice.arr !in st.callers && h.slice.off == 0
    ensures var st' := st.(halves := st.halves[a := h]); Sound(st') && Shows(st', vals[a := View(st, h.slice)])
  {
  }

  /** A value copy of a configuration, over any destination that the source does
      not name as its owner; a fresh variable is never named. */
  lemma CopyRefines<T>(st: Store<T>, vals: map<Addr, seq<T>>, src: Addr, dst: Addr)
    requires Refines(st, vals) && src in st.halves && (src == dst || st.halves[src].owner != Some(dst))
    ensures Refines(st.(halves := st.halves[dst := st.halves[src]]), vals[dst := vals[src]])
  {
    var st' := st.(halves := st.halves[dst := st.halves[src]]);
    if src == dst {
      assert st'.halves == st.halves && vals[dst := vals[src]] == vals;
    } else {
      PutShows(st, vals, dst, st.halves[src]);
      BorrowerApart(st, st', dst, st.halves[src]);
    }
  }

  /** Another configuration's current slice, installed by reference. */
  lemma ShareRefines<T>(st: Store<T>, vals: map<Addr, seq<T>>, a: Addr, b: Addr)
    requires Refines(st, vals) && b in st.halves
    ensures Refines(Put(st, a, st.halves[b].slice, None), vals[a := vals[b]])
  {
    BorrowerApart(st, Put(st, a, st.halves[b].slice, None), a, Half(st.halves[b].slice, None));
  }

  /** No other configuration still shows a cell of the array `a` owns. */
  ghost predicate Unshared<T>(st: Store<T>, a: Addr)
    requires a in st.halves
  {
    Owned(st, a) ==> forall b :: b in st.halves && b != a && Shares(st, a, b) ==> st.halves[b].slice.len == 0
  }

  lemma ResetApart<T>(st: Store<T>, a: Addr)
    requires Sound(st) && Separated(st) && a in st.halves && Unshared(st, a)
    ensures Separated(ResetHalf(st, a))
  {
    var st' := ResetHalf(st, a);
    if Owned(st, a) {
      forall x, y | x in st'.halves && y in st'.halves ensures Apart(st', x, y) {
        assert Apart(st, x, y) && Apart(st, y, x);
      }
    } else {
      NewHalfApart(st, st', a, st'.halves[a]);
    }
  }

  lemma ResetShows<T>(st: Store<T>, vals: map<Addr, seq<T>>, a: Addr, b: Addr)
    requires Refines(st, vals) && a in st.halves && b in st.halves && Unshared(st, a)
    ensures var (st', sl) := (ResetHalf(st, a), ResetHalf(st, a).halves[b].slice);
      WellFormed(st', sl) && View(st', sl) == vals[a := []][b]
  {
  }

  lemma ResetRefines<T>(st: Store<T>, vals: map<Addr, seq<T>>, a: Addr)
    requires Refines(st, vals) && a in st.halves && Unshared(st, a)
    ensures Refines(ResetHalf(st, a), vals[a := []])
  {
    ResetSound(st, a);
    ResetApart(st, a);
    forall b | b in st.halves ensures View(ResetHalf(st, a), ResetHalf(st, a).halves[b].slice) == vals[a := []][b] {
      ResetShows(st, vals, a, b);
    }
  }

  lemma ResetThenAppendSound<T>(st: Store<T>, a: Addr, x: T, extra: nat)
    requires Sound(st) && a in st.halves
    ensures var st1 := ResetHalf(st, a); Sound(st1) && a in st1.halves && Owned(st1, a) && Sound(AppendOwned(st1, a, [x], extra))
  {
    ResetSound(st, a);
    AppendSound(ResetHalf(st, a), a, [x], extra);
  }

  lemma ResetThenAppendRefines<T>(st: Store<T>, vals: map<Addr, seq<T>>, a: Addr, x: T, extra: nat)
    requires Refines(st, vals) && a in st.halves && Unshared(st, a)
    ensures var st1 := ResetHalf(st, a);
      Refines(st1, vals[a := []]) && a in st1.halves && Refines(AppendOwned(st1, a, [x], extra), vals[a := [x]])
  {
    ResetRefines(st, vals, a);
    AppendRefines(ResetHalf(st, a), vals[a := []], a, [x], extra);
    OnlyElement(vals, a, x);
  }

  lemma OnlyElement<T>(vals: map<Addr, seq<T>>, a: Addr, x: T)
    ensures vals[a := []][a := vals[a := []][a] + [x]] == vals[a := [x]]
  {
    assert [] + [x] == [x];
  }

  /** Reset and the next append, as the others see them: nothing changes for them
      exactly when none of them still shares the array. */
  lemma ResetSafeIff<T>(st: Store<T>, vals: map<Addr, seq<T>>, a: Addr, x: T, extra: nat)
    requires Refines(st, vals) && a in st.halves && x != st.zero
    ensures var st1 := ResetHalf(st, a); Sound(st1) && a in st1.halves && Sound(AppendOwned(st1, a, [x], extra))
    ensures var st1 := ResetHalf(st, a);
      Unshared(st, a) <==> Shows(st1, vals[a := []]) && Shows(AppendOwned(st1, a, [x], extra), vals[a := [x]])
  {
    ResetThenAppendSound(st, a, x, extra);
    if Unshared(st, a) {
      ResetThenAppendRefines(st, vals, a, x, extra);
    } else {
      SharerSees(st, vals, a, x, extra);
    }
  }

  lemma SharerSees<T>(st: Store<T>, vals: map<Addr, seq<T>>, a: Addr, x: T, extra: nat)
    requires Refines(st, vals) && a in st.halves && x != st.zero && !Unshared(st, a)
    ensures var st1 := ResetHalf(st, a); Sound(st1) && a in st1.halves && Sound(AppendOwned(st1, a, [x], extra))
    ensures var st1 := ResetHalf(st, a); !(Shows(st1, vals[a := []]) && Shows(AppendOwned(st1, a, [x], extra), vals[a := [x]]))
  {
    var b :| b in st.halves && b != a && Shares(st, a, b) && st.halves[b].slice.len > 0;
    assert Apart(st, a, b);
    ResetThenAppendSound(st, a, x, extra);
    ResetIsSeen(st, a, b, x, extra);
    assert vals[a := []][b] == vals[b] == vals[a := [x]][b];
  }

  /** Whoever still shares the array sees a zero first, and then the new element. */
  lemma ResetIsSeen<T>(st: Store<T>, a: Addr, b: Addr, x: T, extra: nat)
    requires Sound(st) && a in st.halves && b in st.halves && a != b && Owned(st, a) && Shares(st, a, b)
    requires st.halves[b].slice.len > 0 && st.halves[b].slice.off == 0 && st.halves[b].slice.len <= st.halves[a].slice.len
    ensures var (st1, sl) := (ResetHalf(st, a), st.halves[b].slice);
      var st2 := AppendOwned(st1, a, [x], extra);
      && st1.halves[b].slice == sl && st2.halves[b].slice == sl && WellFormed(st1, sl) && WellFormed(st2, sl)
      && View(st1, sl)[0] == st.zero && View(st2, sl)[0] == x
  {
    ResetThenAppendSound(st, a, x, extra);
  }

  // ----- Assigning an old copy back over its origin

  /** A configuration shows that cell of that array. */
  predicate ShowsCell(sl: Slice, arr: Loc, cell: nat)
  {
    sl.arr == arr && sl.off <= cell < sl.off + sl.len
  }

  predicate ShowsNone(sl: Slice, arr: Loc, from: nat, n: nat)
  {
    forall c :: from <= c < from + n ==> !ShowsCell(sl, arr, c)
  }

  /** The store after `dst` was assigned the copy `src` of itself. */
  function CopyBack<T>(st: Store<T>, src: Addr, dst: Addr): Store<T>
    requires src in st.halves
  {
    st.(halves := st.halves[dst := st.halves[src]])
  }

  /** Nobody but the overwritten configuration shows one of the next n cells behind
      the copy, or those cells are not there. */
  ghost predicate NextFree<T>(st: Store<T>, src: Addr, dst: Addr, n: nat)
    requires src in st.halves
  {
    var sl := st.halves[src].slice;
    sl.len + n <= sl.cap ==>
      forall b :: b in st.halves && b != dst ==> ShowsNone(st.halves[b].slice, sl.arr, sl.off + sl.len, n)
  }

  lemma CopyBackSound<T>(st: Store<T>, src: Addr, dst: Addr, xs: seq<T>, extra: nat)
    requires Sound(st) && src in st.halves && st.halves[src].owner == Some(dst)
    ensures var st1 := CopyBack(st, src, dst); Sound(st1) && Owned(st1, dst)
    ensures Sound(AppendOwned(CopyBack(st, src, dst), dst, xs, extra))
  {
    AppendSound(CopyBack(st, src, dst), dst, xs, extra);
  }

  /** A slice without any of the written cells shows what it showed. */
  lemma FreeOfCells<T>(st: Store<T>, sl: Slice, xs: seq<T>, extra: nat, other: Slice)
    requires (forall l :: l in st.arrays ==> l < st.next) && WellFormed(st, sl) && WellFormed(st, other)
    requires sl.len + |xs| <= sl.cap ==> ShowsNone(other, sl.arr, sl.off + sl.len, |xs|)
    ensures var st1 := AppendTo(st, sl, xs, extra).0; WellFormed(st1, other) && View(st1, other) == View(st, other)
  {
    if 0 < |xs| && sl.len + |xs| <= sl.cap && other.len > 0 && other.arr == sl.arr {
      var at := sl.off + sl.len;
      assert other.off + other.len <= at || at + |xs| <= other.off by {
        var c := if at <= other.off then other.off else at;
        assert at <= c < at + |xs| ==> !ShowsCell(other, sl.arr, c);
      }
      OverwriteKeeps(st.arrays[sl.arr], at, xs, other.off, other.off + other.len);
    }
  }

  /** What the append after a copy back leaves each configuration showing. */
  lemma CopyBackShowsOne<T>(st: Store<T>, vals: map<Addr, seq<T>>, src: Addr, dst: Addr, xs: seq<T>, extra: nat, b: Addr)
    requires Refines(st, vals) && src in st.halves && b in st.halves + map[dst := st.halves[src]]
    requires src != dst && st.halves[src].owner == Some(dst) && NextFree(st, src, dst, |xs|)
    ensures var st2 := AppendOwned(CopyBack(st, src, dst), dst, xs, extra);
      b in st2.halves && WellFormed(st2, st2.halves[b].slice) && View(st2, st2.halves[b].slice) == vals[dst := vals[src] + xs][b]
  {
    var st1, sl := CopyBack(st, src, dst), st.halves[src].slice;
    CopyBackSound(st, src, dst, xs, extra);
    if b == dst {
      AppendShows(st1, sl, xs, extra);
    } else {
      FreeOfCells(st1, sl, xs, extra, st.halves[b].slice);
    }
  }

  lemma CopyBackShows<T>(st: Store<T>, vals: map<Addr, seq<T>>, src: Addr, dst: Addr, xs: seq<T>, extra: nat)
    requires Refines(st, vals) && src in st.halves && src != dst && st.halves[src].owner == Some(dst) && NextFree(st, src, dst, |xs|)
    ensures var st2 := AppendOwned(CopyBack(st, src, dst), dst, xs, extra); Sound(st2) && Shows(st2, vals[dst := vals[src] + xs])
  {
    var st2 := AppendOwned(CopyBack(st, src, dst), dst, xs, extra);
    CopyBackSound(st, src, dst, xs, extra);
    forall b | b in st2.halves ensures View(st2, st2.halves[b].slice) == vals[dst := vals[src] + xs][b] {
      CopyBackShowsOne(st, vals, src, dst, xs, extra, b);
    }
  }

  /** Whoever shows one of those cells sees the new element there. */
  lemma CellIsSeen<T>(st: Store<T>, src: Addr, dst: Addr, xs: seq<T>, extra: nat, b: Addr, c: nat)
    requires Sound(st) && src in st.halves && b in st.halves && b != dst && st.halves[src].owner == Some(dst)
    requires var sl := st.halves[src].slice;
      sl.len + |xs| <= sl.cap && sl.off + sl.len <= c < sl.off + sl.len + |xs| && ShowsCell(st.halves[b].slice, sl.arr, c)
    ensures var (st2, sl, other) := (AppendOwned(CopyBack(st, src, dst), dst, xs, extra), st.halves[src].slice, st.halves[b].slice);
      && st2.halves[b].slice == other && WellFormed(st2, other)
      && View(st2, other)[c - other.off] == xs[c - sl.off - sl.len]
  {
    CopyBackSound(st, src, dst, xs, extra);
  }

  /** Exactly when the copy back is harmless: whatever is appended next, as many as
      `xs` and `ys` have, everyone shows what private sequences would show if and
      only if no other configuration shows a cell that those elements go to. */
  lemma CopyBackSafeIff<T>(st: Store<T>, vals: map<Addr, seq<T>>, src: Addr, dst: Addr, xs: seq<T>, ys: seq<T>, extra: nat)
    requires Refines(st, vals) && src in st.halves && src != dst && st.halves[src].owner == Some(dst)
    requires |xs| == |ys| && forall k :: 0 <= k < |xs| ==> xs[k] != ys[k]
    ensures var st1 := CopyBack(st, src, dst);
      && Sound(st1) && Sound(AppendOwned(st1, dst, xs, extra)) && Sound(AppendOwned(st1, dst, ys, extra))
      && (NextFree(st, src, dst, |xs|) <==>
            Shows(AppendOwned(st1, dst, xs, extra), vals[dst := vals[src] + xs]) &&
            Shows(AppendOwned(st1, dst, ys, extra), vals[dst := vals[src] + ys]))
  {
    CopyBackSound(st, src, dst, xs, extra);
    CopyBackSound(st, src, dst, ys, extra);
    if NextFree(st, src, dst, |xs|) {
      CopyBackShows(st, vals, src, dst, xs, extra);
      CopyBackShows(st, vals, src, dst, ys, extra);
    } else {
      CopyBackSeen(st, vals, src, dst, xs, ys, extra);
    }
  }

  lemma CopyBackSeen<T>(st: Store<T>, vals: map<Addr, seq<T>>, src: Addr, dst: Addr, xs: seq<T>, ys: seq<T>, extra: nat)
    requires Refines(st, vals) && src in st.halves && src != dst && st.halves[src].owner == Some(dst) && !NextFree(st, src, dst, |xs|)
    requires |xs| == |ys| && forall k :: 0 <= k < |xs| ==> xs[k] != ys[k]
    ensures var st1 := CopyBack(st, src, dst);
      && Sound(AppendOwned(st1, dst, xs, extra)) && Sound(AppendOwned(st1, dst, ys, extra))
      && !(Shows(AppendOwned(st1, dst, xs, extra), vals[dst := vals[src] + xs]) &&
           Shows(AppendOwned(st1, dst, ys, extra), vals[dst := vals[src] + ys]))
  {
    var sl := st.halves[src].slice;
    var b :| b in st.halves && b != dst && !ShowsNone(st.halves[b].slice, sl.arr, sl.off + sl.len, |xs|);
    var c :| sl.off + sl.len <= c < sl.off + sl.len + |xs| && ShowsCell(st.halves[b].slice, sl.arr, c);
    CopyBackSound(st, src, dst, xs, extra);
    CopyBackSound(st, src, dst, ys, extra);
    SeesBoth(st, src, dst, xs, ys, extra, b, c);
    assert vals[dst := vals[src] + xs][b] == vals[b] == vals[dst := vals[src] + ys][b];
  }

  lemma SeesBoth<T>(st: Store<T>, src: Addr, dst: Addr, xs: seq<T>, ys: seq<T>, extra: nat, b: Addr, c: nat)
    requires Sound(st) && src in st.halves && b in st.halves && b != dst && st.halves[src].owner == Some(dst)
    requires |xs| == |ys| && forall k :: 0 <= k < |xs| ==> xs[k] != ys[k]
    requires var sl := st.halves[src].slice;
      sl.len + |xs| <= sl.cap && sl.off + sl.len <= c < sl.off + sl.len + |xs| && ShowsCell(st.halves[b].slice, sl.arr, c)
    ensures var (sx, sy) := (AppendOwned(CopyBack(st, src, dst), dst, xs, extra), AppendOwned(CopyBack(st, src, dst), dst, ys, extra));
      && b in sx.halves && b in sy.halves && WellFormed(sx, sx.halves[b].slice) && WellFormed(sy, sy.halves[b].slice)
      && View(sx, sx.halves[b].slice) != View(sy, sy.halves[b].slice)
  {
    CellIsSeen(st, src, dst, xs, extra, b, c);
    CellIsSeen(st, src, dst, ys, extra, b, c);
  }

  // ----- append and clear as the runtime performs them, cell by cell

  method GoAppend<T>(st: Store<T>, sl: Slice, xs: seq<T>, extra: nat) returns (st1: Store<T>, sl1: Slice)
    requires WellFormed(st, sl)
    ensures (st1, sl1) == AppendTo(st, sl, xs, extra)
  {
    if |xs| == 0 {
      return st, sl;
    }
    if sl.len + |xs| <= sl.cap {
      var cells := st.arrays[sl.arr];
      for i := 0 to |xs|
        invariant cells == Overwrite(st.arrays[sl.arr], sl.off + sl.len, xs[..i])
      {
        cells := cells[sl.off + sl.len + i := xs[i]];
      }
      assert xs[..|xs|] == xs;
      return st.(arrays := st.arrays[sl.arr := cells]), sl.(len := sl.len + |xs|);
    }
    var cells := View(st, sl) + xs + Zeros(st.zero, extra);
    return st.(arrays := st.arrays[st.next := cells], next := st.next + 1), Slice(st.next, 0, sl.len + |xs|, |cells|);
  }

  method GoClear<T>(st: Store<T>, sl: Slice) returns (st1: Store<T>)
    requires WellFormed(st, sl)
    ensures st1 == Clear(st, sl)
  {
    if sl.len == 0 {
      return st;
    }
    var cells := st.arrays[sl.arr];
    for i := 0 to sl.len
      invariant cells == Overwrite(st.arrays[sl.arr], sl.off, Zeros(st.zero, i))
    {
      cells := cells[sl.off + i := st.zero];
    }
    return st.(arrays := st.arrays[sl.arr := cells]);
  }
}
