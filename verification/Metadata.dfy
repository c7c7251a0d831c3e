/** The metadata builder: two parallel arrays of entries, a cache of names, and an
arena of base64 bytes that binary entries point into. */
module Metadata {
  import opened Errors
  import opened Headers
  import opened Base64
  import opened MetadataSpec
  import opened Arrays

  /** Where a binary value lies in the arena; n < 0 marks a text entry. */
  datatype Span = Span(off: nat, n: int)

  const TEXT_SPAN := Span(0, -1)

  // ----- How slots stand for entries

  predicate InArena(s: Span, arena: Bytes)
  {
    0 <= s.n && s.off + s.n <= |arena|
  }

  /** A slot stands for an entry: a binary value is in the arena, as base64. */
  predicate Holds(f: HeaderField, s: Span, arena: Bytes, e: Entry)
  {
    && f.name == e.name && f.indexing == e.mode
    && (if e.binary then InArena(s, arena) && arena[s.off..s.off + s.n] == Encode(e.raw)
        else s.n < 0 && f.value == e.raw)
  }

  /** The first slots of the two arrays stand for a list. */
  predicate Represents(fields: seq<HeaderField>, spans: seq<Span>, arena: Bytes, list: seq<Entry>)
  {
    |list| <= |fields| && |list| <= |spans| &&
    forall i :: 0 <= i < |list| ==> Holds(fields[i], spans[i], arena, list[i])
  }

  /** What the compaction has made of a prefix. */
  function Compacted(list: seq<Entry>, e: Entry): seq<Entry>
  {
    if Has(list, e.name) then SetEntry(list, e) else list
  }

  lemma FirstIs(list: seq<Entry>, name: string, k: nat)
    requires k < |list| && list[k].name == name && !Has(list[..k], name)
    ensures Has(list, name) && First(list, name) == k
  {
    assert forall i :: 0 <= i < k ==> list[..k][i] == list[i];
    var j := First(list, name);
    assert forall i :: 0 <= i < j ==> list[..j][i] == list[i];
  }

  lemma {:induction false} SetStep(list: seq<Entry>, x: Entry, e: Entry)
    requires Has(list, e.name)
    ensures Has(list + [x], e.name) && SetEntry(list + [x], e) == SetEntry(list, e) + Without([x], e.name)
  {
    var all, k := list + [x], First(list, e.name);
    assert all[..k] == list[..k] && all[k + 1..] == list[k + 1..] + [x];
    FirstIs(all, e.name, k);
    WithoutSplits(list[k + 1..], [x], e.name);
  }

  lemma {:induction false} SetNew(list: seq<Entry>, x: Entry, e: Entry)
    requires !Has(list, e.name) && x.name == e.name
    ensures Has(list + [x], e.name) && SetEntry(list + [x], e) == list + [e]
  {
    var all := list + [x];
    assert all[..|list|] == list && all[|list| + 1..] == [];
    FirstIs(all, e.name, |list|);
  }

  lemma {:induction false} CompactedStep(list: seq<Entry>, x: Entry, e: Entry)
    ensures x.name != e.name ==> Compacted(list + [x], e) == Compacted(list, e) + [x]
    ensures x.name == e.name ==> Compacted(list + [x], e) == if Has(list, e.name) then Compacted(list, e) else list + [e]
  {
    HasStep(list, x, e.name);
    if Has(list, e.name) {
      SetStep(list, x, e);
      assert [x][1..] == [];
    } else if x.name == e.name {
      SetNew(list, x, e);
    }
  }

  /** A longer arena holds what a shorter one held. */
  lemma ArenaGrows(fields: seq<HeaderField>, spans: seq<Span>, arena: Bytes, more: Bytes, list: seq<Entry>)
    requires Represents(fields, spans, arena, list)
    ensures Represents(fields, spans, arena + more, list)
  {
    forall i | 0 <= i < |list| ensures Holds(fields[i], spans[i], arena + more, list[i]) {
      var s := spans[i];
      assert Holds(fields[i], s, arena, list[i]);
      if list[i].binary {
        assert (arena + more)[s.off..s.off + s.n] == arena[s.off..s.off + s.n];
      }
    }
  }

  /** Binding the binary values to the arena changes no entry. */
  lemma RenderedRepresents(fields: seq<HeaderField>, bound: seq<HeaderField>, spans: seq<Span>, arena: Bytes, list: seq<Entry>)
    requires Represents(fields, spans, arena, list) && |list| <= |bound|
    requires forall i :: 0 <= i < |list| ==> bound[i] == Render(list[i])
    ensures Represents(bound, spans, arena, list)
  {
    forall i | 0 <= i < |list| ensures Holds(bound[i], spans[i], arena, list[i]) {
      assert Holds(fields[i], spans[i], arena, list[i]);
    }
  }

  // ----- In place

  /** Where the compaction stands: the first w slots are what has become of the
      first i entries, and the slots from i on have not been touched. */
  predicate Midway(fields: seq<HeaderField>, spans: seq<Span>, fields0: seq<HeaderField>, spans0: seq<Span>,
                   arena: Bytes, list: seq<Entry>, e: Entry, i: nat, w: nat)
  {
    && w <= i <= |list| <= |fields| == |fields0| && |list| <= |spans| == |spans0|
    && fields[i..] == fields0[i..] && spans[i..] == spans0[i..]
    && w == |Compacted(list[..i], e)|
    && Represents(fields, spans, arena, Compacted(list[..i], e))
  }

  /** Writing the slot of a new last entry. */
  lemma SlotWritten(fields: seq<HeaderField>, spans: seq<Span>, arena: Bytes, done: seq<Entry>, f: HeaderField, s: Span, e: Entry)
    requires |done| < |fields| && |done| < |spans| && Represents(fields, spans, arena, done) && Holds(f, s, arena, e)
    ensures Represents(fields[|done| := f], spans[|done| := s], arena, done + [e])
  {
  }

  lemma TailKept<T>(a: seq<T>, a0: seq<T>, i: nat, w: nat, x: T)
    requires w <= i < |a| == |a0| && a[i..] == a0[i..]
    ensures a[w := x][i + 1..] == a0[i + 1..] && a[i] == a0[i]
  {
    assert a[i..][0] == a0[i..][0] && a[i..][1..] == a0[i..][1..];
  }

  /** One turn of the loop, for each of its three branches. */
  lemma TurnKeeps(fields: seq<HeaderField>, spans: seq<Span>, fields0: seq<HeaderField>, spans0: seq<Span>,
                  arena: Bytes, list: seq<Entry>, e: Entry, f: HeaderField, s: Span, i: nat, w: nat)
    requires i < |list| && Midway(fields, spans, fields0, spans0, arena, list, e, i, w)
    requires Holds(f, s, arena, e) && Holds(fields0[i], spans0[i], arena, list[i])
    ensures Has(list[..i + 1], e.name) == (Has(list[..i], e.name) || list[i].name == e.name)
    ensures fields[i] == fields0[i] && spans[i] == spans0[i] && (fields[i].name == f.name <==> list[i].name == e.name)
    ensures list[i].name == e.name && Has(list[..i], e.name) ==> Midway(fields, spans, fields0, spans0, arena, list, e, i + 1, w)
    ensures list[i].name == e.name && !Has(list[..i], e.name) ==>
      Midway(fields[w := f], spans[w := s], fields0, spans0, arena, list, e, i + 1, w + 1)
    ensures list[i].name != e.name ==>
      Midway(fields[w := fields[i]], spans[w := spans[i]], fields0, spans0, arena, list, e, i + 1, w + 1)
  {
    assert list[..i + 1] == list[..i] + [list[i]];
    CompactedStep(list[..i], list[i], e);
    HasStep(list[..i], list[i], e.name);
    TailKept(fields, fields0, i, w, f);
    TailKept(spans, spans0, i, w, s);
    TailKept(fields, fields0, i, w, fields[i]);
    TailKept(spans, spans0, i, w, spans[i]);
    if list[i].name == e.name {
      TailKept(fields, fields0, i, w, fields[w]);
      TailKept(spans, spans0, i, w, spans[w]);
      assert fields[w := fields[w]] == fields && spans[w := spans[w]] == spans;
      if !Has(list[..i], e.name) {
        SlotWritten(fields, spans, arena, list[..i], f, s, e);
      }
    } else {
      SlotWritten(fields, spans, arena, Compacted(list[..i], e), fields[i], spans[i], list[i]);
    }
  }

  lemma Starts(fields: seq<HeaderField>, spans: seq<Span>, arena: Bytes, list: seq<Entry>, e: Entry)
    requires |list| <= |fields| && |list| <= |spans|
    ensures Midway(fields, spans, fields, spans, arena, list, e, 0, 0) && !Has(list[..0], e.name)
  {
  }

  /** The body of the loop of put. */
  method Turn(fields: array<HeaderField>, spans: array<Span>, i: nat, w: nat, placed: bool, f: HeaderField, s: Span)
    returns (w1: nat, placed1: bool)
    requires w <= i < fields.Length && i < spans.Length
    modifies fields, spans
    ensures placed1 == (placed || old(fields[i]).name == f.name)
    ensures old(fields[i]).name == f.name && placed ==> fields[..] == old(fields[..]) && spans[..] == old(spans[..]) && w1 == w
    ensures old(fields[i]).name == f.name && !placed ==>
      fields[..] == old(fields[..])[w := f] && spans[..] == old(spans[..])[w := s] && w1 == w + 1
    ensures old(fields[i]).name != f.name ==>
      fields[..] == old(fields[..])[w := old(fields[i])] && spans[..] == old(spans[..])[w := old(spans[i])] && w1 == w + 1
  {
    w1, placed1 := w, placed;
    if fields[i].name == f.name {
      if placed {
        return;
      }
      fields[w], spans[w] := f, s;
      w1, placed1 := w + 1, true;
      return;
    }
    fields[w], spans[w] := fields[i], spans[i];
    w1 := w + 1;
  }

  /** The loop of put: overwrite the first entry of the name, drop the others,
      move the rest down. */
  method Compact(fields: array<HeaderField>, spans: array<Span>, n: nat, f: HeaderField, s: Span,
                 ghost arena: Bytes, ghost list: seq<Entry>, ghost e: Entry) returns (w: nat, placed: bool)
    requires n == |list| && Represents(fields[..], spans[..], arena, list) && Holds(f, s, arena, e)
    modifies fields, spans
    ensures placed == Has(list[..n], e.name)
    ensures Midway(fields[..], spans[..], old(fields[..]), old(spans[..]), arena, list, e, n, w)
  {
    w, placed := 0, false;
    Starts(fields[..], spans[..], arena, list, e);
    for i := 0 to n
      invariant placed == Has(list[..i], e.name)
      invariant Midway(fields[..], spans[..], old(fields[..]), old(spans[..]), arena, list, e, i, w)
    {
      TurnKeeps(fields[..], spans[..], old(fields[..]), old(spans[..]), arena, list, e, f, s, i, w);
      w, placed := Turn(fields, spans, i, w, placed, f, s);
    }
  }

  lemma AppendedRepresents(fields: seq<HeaderField>, spans: seq<Span>, fields1: seq<HeaderField>, spans1: seq<Span>,
                           arena: Bytes, list: seq<Entry>, f: HeaderField, s: Span, e: Entry)
    requires Represents(fields, spans, arena, list) && Holds(f, s, arena, e)
    requires |fields1| > |list| && fields1[..|list| + 1] == fields[..|list|] + [f]
    requires |spans1| > |list| && spans1[..|list| + 1] == spans[..|list|] + [s]
    ensures Represents(fields1, spans1, arena, list + [e])
  {
    forall i | 0 <= i <= |list| ensures Holds(fields1[i], spans1[i], arena, (list + [e])[i]) {
      assert fields1[i] == (fields[..|list|] + [f])[i] && spans1[i] == (spans[..|list|] + [s])[i];
    }
  }

  /** Only the slots in use matter. */
  lemma PrefixRepresents(fields: seq<HeaderField>, spans: seq<Span>, fields1: seq<HeaderField>, spans1: seq<Span>, arena: Bytes, list: seq<Entry>)
    requires Represents(fields, spans, arena, list) && |list| <= |fields1| && |list| <= |spans1|
    requires forall i :: 0 <= i < |list| ==> fields1[i] == fields[i] && spans1[i] == spans[i]
    ensures Represents(fields1, spans1, arena, list)
  {
  }

  lemma CompactedIsSet(list: seq<Entry>, e: Entry)
    ensures list[..|list|] == list && (Has(list, e.name) ==> Compacted(list, e) == SetEntry(list, e))
    ensures !Has(list, e.name) ==> Compacted(list, e) == list
  {
  }

  lemma HasStep(list: seq<Entry>, x: Entry, name: string)
    ensures Has(list + [x], name) == (Has(list, name) || x.name == name)
  {
    assert (list + [x])[|list|] == x;
    if Has(list, name) {
      var i :| 0 <= i < |list| && list[i].name == name;
      assert (list + [x])[i].name == name;
    }
  }

  /** A field with its value read out of the arena, if it is binary. */
  function Bound(f: HeaderField, s: Span, arena: Bytes): HeaderField
  {
    if InArena(s, arena) then f.(value := arena[s.off..s.off + s.n]) else f
  }

  lemma BoundIsRender(f: HeaderField, s: Span, arena: Bytes, e: Entry)
    requires Holds(f, s, arena, e)
    ensures Bound(f, s, arena) == Render(e) && (s.n >= 0 ==> InArena(s, arena))
  {
  }

  /** The loop of Fields: every binary value is read out of the arena. */
  method Bind(fields: array<HeaderField>, spans: array<Span>, n: nat, arena: Bytes, ghost list: seq<Entry>)
    requires n == |list| && Represents(fields[..], spans[..], arena, list)
    modifies fields
    ensures forall j :: 0 <= j < n ==> fields[j] == Render(list[j])
    ensures fields[n..] == old(fields[n..])
  {
    ghost var fs, ss := fields[..], spans[..];
    forall j | 0 <= j < n ensures Bound(fs[j], ss[j], arena) == Render(list[j]) && (ss[j].n >= 0 ==> InArena(ss[j], arena)) {
      BoundIsRender(fs[j], ss[j], arena, list[j]);
    }
    for i := 0 to n
      invariant forall j :: 0 <= j < i ==> fields[j] == Bound(fs[j], ss[j], arena)
      invariant forall j :: i <= j < fields.Length ==> fields[j] == old(fields[j])
    {
      var s := spans[i];
      assert ss[i] == s && fs[i] == fields[i];
      if s.n >= 0 {
        fields[i] := fields[i].(value := arena[s.off..s.off + s.n]);
      }
    }
  }

  /** put with replace: compact, and clear what is left over. */
  method Replace(fields: array<HeaderField>, spans: array<Span>, n: nat, f: HeaderField, s: Span,
                 ghost arena: Bytes, ghost list: seq<Entry>, ghost e: Entry) returns (w: nat, placed: bool)
    requires n == |list| && Represents(fields[..], spans[..], arena, list) && Holds(f, s, arena, e)
    requires ZeroFrom(fields, n, ZERO_FIELD)
    modifies fields, spans
    ensures placed == Has(list, e.name)
    ensures placed ==> w == |SetEntry(list, e)| && Represents(fields[..], spans[..], arena, SetEntry(list, e)) && ZeroFrom(fields, w, ZERO_FIELD)
    ensures !placed ==> Represents(fields[..], spans[..], arena, list) && ZeroFrom(fields, n, ZERO_FIELD)
  {
    CompactedIsSet(list, e);
    w, placed := Compact(fields, spans, n, f, s, arena, list, e);
    TailZero(fields, old(fields[..]), n);
    if placed {
      ghost var fs, ss := fields[..], spans[..];
      ClearFrom(fields, w, n, ZERO_FIELD);
      ClearFrom(spans, w, n, Span(0, 0));
      PrefixRepresents(fs, ss, fields[..], spans[..], arena, SetEntry(list, e));
    }
  }

  lemma TailZero(fields: array<HeaderField>, fields0: seq<HeaderField>, n: nat)
    requires n <= fields.Length == |fields0| && fields[..][n..] == fields0[n..]
    requires forall j :: n <= j < |fields0| ==> fields0[j] == ZERO_FIELD
    ensures ZeroFrom(fields, n, ZERO_FIELD)
  {
    forall j | n <= j < fields.Length ensures fields[j] == ZERO_FIELD {
      assert fields[j] == fields[..][n..][j - n] && fields0[j] == fields0[n..][j - n];
    }
  }

  method AppendSlot(fields: array<HeaderField>, n: nat, spans: array<Span>, m: nat, f: HeaderField, s: Span, spare: nat,
                    ghost arena: Bytes, ghost list: seq<Entry>, ghost e: Entry) returns (fields1: array<HeaderField>, spans1: array<Span>)
    requires n == m == |list| && Represents(fields[..], spans[..], arena, list) && Holds(f, s, arena, e)
    requires ZeroFrom(fields, n, ZERO_FIELD)
    modifies fields, spans
    ensures Represents(fields1[..], spans1[..], arena, list + [e]) && ZeroFrom(fields1, n + 1, ZERO_FIELD)
    ensures (fields1 == fields || fresh(fields1)) && (spans1 == spans || fresh(spans1))
  {
    fields1 := AppendTo(fields, n, [f], ZERO_FIELD, spare);
    spans1 := AppendTo(spans, m, [s], Span(0, 0), spare);
    assert fields1[..][..n + 1] == fields1[..n + 1] && spans1[..][..n + 1] == spans1[..n + 1];
    AppendedRepresents(old(fields[..]), old(spans[..]), fields1[..], spans1[..], arena, list, f, s, e);
  }

  // ----- The builder

  class Builder {
    var fields: array<HeaderField>
    var nfields: nat
    var spans: array<Span>
    var nspans: nat
    var names: map<string, string>
    var bin: array<Byte>
    var nbin: nat
    /** poseidon's rules for keys, and how much room append leaves. */
    const rules: Rules
    const spare: nat

    /** The entries the builder stands for. */
    ghost var entries: seq<Entry>

    ghost predicate Cleared()
      reads this, fields, bin
    {
      ZeroFrom(fields, nfields, ZERO_FIELD) && ZeroFrom(bin, nbin, 0)
    }

    /** The cache holds accepted keys only, each with its lower-case name. */
    ghost predicate CacheOk()
      reads this
    {
      forall k :: k in names ==> rules(k).None? && names[k] == ToLower(k)
    }

    /** Equal lengths; every live slot stands for its entry; a binary span exactly
        under names that end in -bin; nothing left past the end. */
    ghost predicate Valid()
      reads this, fields, spans, bin
    {
      && nfields == nspans == |entries|
      && nbin <= bin.Length && Represents(fields[..], spans[..], bin[..nbin], entries)
      && WellTyped(entries)
      && Cleared() && CacheOk()
    }

    constructor (rules: Rules, spare: nat)
      ensures Valid() && entries == [] && this.rules == rules && this.spare == spare
      ensures fresh(fields) && fresh(spans) && fresh(bin)
    {
      this.rules, this.spare := rules, spare;
      fields, spans, bin := new HeaderField[0], new Span[0], new Byte[0];
      nfields, nspans, nbin := 0, 0, 0;
      names := map[];
      entries := [];
    }

    /** The interned name, or poseidon's objection to the key. */
    method Intern(key: string) returns (name: string, err: Option<BuildError>)
      requires CacheOk()
      modifies this`names
      ensures CacheOk()
      ensures err == if rules(key).Some? then Some(Refused(rules(key).value)) else None
      ensures err.None? ==> name == ToLower(key)
    {
      if key in names {
        return names[key], None;
      }
      if rules(key).Some? {
        return "", Some(Refused(rules(key).value));
      }
      name := ToLower(key);
      names := names[key := name];
      err := None;
    }

    method Put(name: string, value: Bytes, s: Span, mode: IndexingMode, replace: bool, ghost e: Entry)
      requires Valid() && Holds(HeaderField(name, value, mode), s, bin[..nbin], e) && e.binary == EndsInBin(e.name)
      modifies this`fields, this`nfields, this`spans, this`nspans, this`entries, fields, spans
      ensures Valid() && entries == MetadataSpec.Put(old(entries), e, replace)
      ensures (fields == old(fields) || fresh(fields)) && (spans == old(spans) || fresh(spans))
    {
      var f := HeaderField(name, value, mode);
      var placed := false;
      if replace {
        placed := TryReplace(f, s, e);
      }
      if !placed {
        Append(f, s, e);
      }
    }

    /** Replace every entry of the name, if there is one. */
    method TryReplace(f: HeaderField, s: Span, ghost e: Entry) returns (placed: bool)
      requires Valid() && Holds(f, s, bin[..nbin], e) && e.binary == EndsInBin(e.name)
      modifies this`nfields, this`nspans, this`entries, fields, spans
      ensures Valid() && placed == Has(old(entries), e.name)
      ensures entries == if placed then SetEntry(old(entries), e) else old(entries)
    {
      PutTyped(entries, e, true);
      var w;
      w, placed := Replace(fields, spans, nfields, f, s, bin[..nbin], entries, e);
      if placed {
        nfields, nspans, entries := w, w, SetEntry(entries, e);
      }
    }

    method Append(f: HeaderField, s: Span, ghost e: Entry)
      requires Valid() && Holds(f, s, bin[..nbin], e) && e.binary == EndsInBin(e.name)
      modifies this`fields, this`nfields, this`spans, this`nspans, this`entries, fields, spans
      ensures Valid() && entries == old(entries) + [e]
      ensures (fields == old(fields) || fresh(fields)) && (spans == old(spans) || fresh(spans))
    {
      PutTyped(entries, e, false);
      fields, spans := AppendSlot(fields, nfields, spans, nspans, f, s, spare, bin[..nbin], entries, e);
      nfields, nspans, entries := nfields + 1, nspans + 1, entries + [e];
    }

    method Text(key: Key, value: Bytes, mode: IndexingMode, replace: bool) returns (err: Option<BuildError>)
      requires Valid()
      modifies this`fields, this`nfields, this`spans, this`nspans, this`entries, this`names, fields, spans
      ensures Valid() && (entries, err) == MetadataSpec.Text(rules, old(entries), key, value, mode, replace)
      ensures (fields == old(fields) || fresh(fields)) && (spans == old(spans) || fresh(spans))
    {
      FoldMatchesName(key);
      if HasBinSuffixFold(key) {
        return Some(NeedsBinary);
      }
      var name;
      name, err := Intern(key);
      if err.None? {
        Put(name, value, TEXT_SPAN, mode, replace, Entry(name, value, false, mode));
      }
    }

    /** Append to the arena; every span keeps its bytes. */
    method AppendEncode(code: Bytes)
      requires Valid()
      modifies this`bin, this`nbin, bin
      ensures Valid() && (bin == old(bin) || fresh(bin)) && nbin == old(nbin) + |code|
      ensures bin[..nbin][old(nbin)..] == code
    {
      ArenaGrows(fields[..], spans[..], bin[..nbin], code, entries);
      bin := AppendTo(bin, nbin, code, 0, spare);
      nbin := nbin + |code|;
    }

    method Binary(key: Key, value: Bytes, replace: bool) returns (err: Option<BuildError>)
      requires Valid()
      modifies this, fields, spans, bin
      ensures Valid() && (entries, err) == MetadataSpec.Binary(rules, old(entries), key, value, replace)
      ensures (fields == old(fields) || fresh(fields)) && (spans == old(spans) || fresh(spans)) && (bin == old(bin) || fresh(bin))
    {
      var name;
      name, err := Intern(key);
      if err.Some? {
        return;
      }
      if !EndsInBin(name) {
        return Some(NeedsText);
      }
      var off := nbin;
      AppendEncode(Encode(value));
      Put(name, [], Span(off, nbin - off), IndexIncremental, replace, Entry(name, value, true, IndexIncremental));
    }

    /** Bind the binary values to the arena and hand out the builder's own array. */
    method Fields() returns (r: array<HeaderField>, n: nat)
      requires Valid()
      modifies fields
      ensures Valid() && r == fields && n == nfields && r[..n] == RenderAll(entries)
    {
      Bind(fields, spans, nspans, bin[..nbin], entries);
      RenderedRepresents(old(fields[..]), fields[..], spans[..], bin[..nbin], entries);
      return fields, nfields;
    }

    method Reset()
      requires Valid()
      modifies this`nfields, this`nspans, this`nbin, this`entries, fields, bin
      ensures Valid() && entries == [] && nbin == 0
      ensures forall j :: 0 <= j < fields.Length ==> fields[j] == ZERO_FIELD
      ensures forall j :: 0 <= j < bin.Length ==> bin[j] == 0
    {
      ClearFrom(fields, 0, nfields, ZERO_FIELD);
      ClearFrom(bin, 0, nbin, 0);
      nfields, nspans, nbin, entries := 0, 0, 0, [];
    }

    method Do(op: BuildOp) returns (err: Option<BuildError>)
      requires Valid()
      modifies this, fields, spans, bin
      ensures Valid() && (entries, err) == Step(rules, old(entries), op)
      ensures (fields == old(fields) || fresh(fields)) && (spans == old(spans) || fresh(spans)) && (bin == old(bin) || fresh(bin))
    {
      err := None;
      match op {
        case SetText(key, value) => err := Text(key, value, IndexIncremental, true);
        case AddText(key, value) => err := Text(key, value, IndexIncremental, false);
        case SetSensitive(key, value) => err := Text(key, value, IndexNever, true);
        case SetBin(key, value) => err := Binary(key, value, true);
        case AddBin(key, value) => err := Binary(key, value, false);
        case ReadFields => var _, _ := Fields();
        case Reset => this.Reset();
      }
    }
  }

  /** A whole run on a new builder: the results and the fields are those of the
      naive list, whatever the arrays, the arena and the cache went through. */
  method Build(rules: Rules, spare: nat, ops: seq<BuildOp>) returns (fields: seq<HeaderField>, results: seq<Option<BuildError>>)
    ensures fields == RenderAll(Naive(rules, ops).0) && results == Naive(rules, ops).1
  {
    var b := new Builder(rules, spare);
    results := [];
    for i := 0 to |ops|
      invariant b.Valid() && b.rules == rules
      invariant fresh(b) && fresh(b.fields) && fresh(b.spans) && fresh(b.bin)
      invariant (b.entries, results) == Naive(rules, ops[..i])
    {
      assert ops[..i + 1][..i] == ops[..i];
      var err := b.Do(ops[i]);
      results := results + [err];
    }
    assert ops[..|ops|] == ops;
    var a, n := b.Fields();
    fields := a[..n];
  }
}
