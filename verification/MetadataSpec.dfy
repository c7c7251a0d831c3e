/** The metadata builder as a plain list of entries. */
module MetadataSpec {
  import opened Errors
  import opened Headers
  import opened Base64

  /** One entry: the value as the application gave it. */
  datatype Entry = Entry(name: string, raw: Bytes, binary: bool, mode: IndexingMode)

  datatype BuildOp =
    | SetText(key: Key, value: Bytes)
    | AddText(key: Key, value: Bytes)
    | SetSensitive(key: Key, value: Bytes)
    | SetBin(key: Key, value: Bytes)
    | AddBin(key: Key, value: Bytes)
    | ReadFields
    | Reset

  datatype BuildError = NeedsBinary | NeedsText | Refused(e: Error)

  /** poseidon's rules for a key: None accepts it, and its name is then the key in
      lower case. */
  type Rules = string -> Option<Error>

  // ----- Keys

  predicate Ascii(s: string)
  {
    forall i :: 0 <= i < |s| ==> s[i] < 128 as char
  }

  type Key = s: string | Ascii(s)

  function Lower(c: char): char
  {
    if 'A' <= c <= 'Z' then c - 'A' + 'a' else c
  }

  function ToLower(s: string): (r: string)
    ensures |r| == |s| && forall i :: 0 <= i < |s| ==> r[i] == Lower(s[i])
  {
    seq(|s|, i requires 0 <= i < |s| => Lower(s[i]))
  }

  const BIN := "-bin"

  predicate EndsInBin(name: string)
  {
    |name| >= 4 && name[|name| - 4..] == BIN
  }

  /** strings.EqualFold on ASCII. */
  predicate EqualFold(s: string, t: string)
  {
    |s| == |t| && forall i :: 0 <= i < |s| ==> Lower(s[i]) == Lower(t[i])
  }

  predicate HasBinSuffixFold(key: string)
  {
    |key| >= |BIN| && EqualFold(key[|key| - |BIN|..], BIN)
  }

  /** The check that allocates nothing agrees with the suffix of the interned name. */
  lemma FoldMatchesName(key: string)
    ensures HasBinSuffixFold(key) <==> EndsInBin(ToLower(key))
  {
    if |key| >= 4 {
      var tail, low := key[|key| - 4..], ToLower(key)[|key| - 4..];
      assert forall i :: 0 <= i < 4 ==> low[i] == Lower(tail[i]) && Lower(BIN[i]) == BIN[i];
      if HasBinSuffixFold(key) {
        assert low == BIN;
      }
    }
  }

  // ----- Replace-all

  predicate Has(list: seq<Entry>, name: string)
  {
    exists i :: 0 <= i < |list| && list[i].name == name
  }

  /** The list with every entry of that name removed. */
  function Without(list: seq<Entry>, name: string): seq<Entry>
  {
    if list == [] then []
    else if list[0].name == name then Without(list[1..], name)
    else [list[0]] + Without(list[1..], name)
  }

  /** The first position of a name. */
  function First(list: seq<Entry>, name: string): (k: nat)
    requires Has(list, name)
    ensures k < |list| && list[k].name == name && !Has(list[..k], name)
  {
    if list[0].name == name then 0
    else
      assert Has(list[1..], name);
      var k := First(list[1..], name);
      assert list[..k + 1] == [list[0]] + list[1..][..k];
      k + 1
  }

  /** Set: the entry takes the first position of its name, every other entry of
      that name goes, the rest stay in order; a new name goes to the end. */
  function SetEntry(list: seq<Entry>, e: Entry): seq<Entry>
  {
    if !Has(list, e.name) then list + [e]
    else
      var k := First(list, e.name);
      list[..k] + [e] + Without(list[k + 1..], e.name)
  }

  lemma {:induction false} WithoutSplits(a: seq<Entry>, b: seq<Entry>, name: string)
    ensures Without(a + b, name) == Without(a, name) + Without(b, name)
    decreases |a|
  {
    if a == [] {
      assert a + b == b;
    } else {
      assert (a + b)[1..] == a[1..] + b;
      WithoutSplits(a[1..], b, name);
    }
  }

  lemma {:induction false} WithoutNone(list: seq<Entry>, name: string)
    ensures !Has(Without(list, name), name)
    ensures !Has(list, name) ==> Without(list, name) == list
    decreases |list|
  {
    if list != [] {
      WithoutNone(list[1..], name);
      if !Has(list, name) {
        assert list[0].name != name;
        assert !Has(list[1..], name) by {
          assert forall i :: 0 <= i < |list| - 1 ==> list[1..][i] == list[i + 1];
        }
      }
    }
  }

  lemma WithoutMiddle(a: seq<Entry>, x: Entry, b: seq<Entry>)
    ensures Without(a + [x] + b, x.name) == Without(a, x.name) + Without(b, x.name)
  {
    assert a + [x] + b == a + ([x] + b);
    WithoutSplits(a, [x] + b, x.name);
    assert ([x] + b)[1..] == b;
  }

  /** Set leaves the entries of other names as they were, in order. */
  lemma SetKeepsOthers(list: seq<Entry>, e: Entry)
    ensures Without(SetEntry(list, e), e.name) == Without(list, e.name)
  {
    if !Has(list, e.name) {
      WithoutMiddle(list, e, []);
      assert SetEntry(list, e) == list + [e] + [];
    } else {
      var k := First(list, e.name);
      var rest := list[k + 1..];
      WithoutNone(rest, e.name);
      WithoutNone(Without(rest, e.name), e.name);
      WithoutMiddle(list[..k], e, Without(rest, e.name));
      WithoutMiddle(list[..k], list[k], rest);
      assert list == list[..k] + [list[k]] + rest;
    }
  }

  /** The new entry stands where the name first stood, or at the end. */
  function Position(list: seq<Entry>, name: string): (k: nat)
    ensures k <= |list| && !Has(list[..k], name) && (k < |list| ==> list[k].name == name)
  {
    if Has(list, name) then First(list, name) else assert list[..|list|] == list; |list|
  }

  lemma OnlyAt(a: seq<Entry>, e: Entry, b: seq<Entry>, i: nat)
    requires !Has(a, e.name) && !Has(b, e.name) && i < |a + [e] + b|
    ensures (a + [e] + b)[i].name == e.name <==> i == |a|
  {
    assert i > |a| ==> (a + [e] + b)[i] == b[i - |a| - 1];
  }

  /** Exactly one entry has the name afterwards: the new one, in its place. */
  lemma SetPlacesOne(list: seq<Entry>, e: Entry, i: nat)
    requires i < |SetEntry(list, e)|
    ensures Position(list, e.name) < |SetEntry(list, e)| && SetEntry(list, e)[Position(list, e.name)] == e
    ensures SetEntry(list, e)[i].name == e.name <==> i == Position(list, e.name)
  {
    var k := Position(list, e.name);
    var rest := if k < |list| then Without(list[k + 1..], e.name) else [];
    if k < |list| {
      WithoutNone(list[k + 1..], e.name);
    }
    assert SetEntry(list, e) == list[..k] + [e] + rest;
    OnlyAt(list[..k], e, rest, i);
  }

  // ----- The builder's operations on the list

  function Put(list: seq<Entry>, e: Entry, replace: bool): seq<Entry>
  {
    if replace then SetEntry(list, e) else list + [e]
  }

  function Text(rules: Rules, list: seq<Entry>, key: string, value: Bytes, mode: IndexingMode, replace: bool): (seq<Entry>, Option<BuildError>)
  {
    if EndsInBin(ToLower(key)) then (list, Some(NeedsBinary))
    else if rules(key).Some? then (list, Some(Refused(rules(key).value)))
    else (Put(list, Entry(ToLower(key), value, false, mode), replace), None)
  }

  function Binary(rules: Rules, list: seq<Entry>, key: string, value: Bytes, replace: bool): (seq<Entry>, Option<BuildError>)
  {
    if rules(key).Some? then (list, Some(Refused(rules(key).value)))
    else if !EndsInBin(ToLower(key)) then (list, Some(NeedsText))
    else (Put(list, Entry(ToLower(key), value, true, IndexIncremental), replace), None)
  }

  function Step(rules: Rules, list: seq<Entry>, op: BuildOp): (seq<Entry>, Option<BuildError>)
  {
    match op
    case SetText(key, value) => Text(rules, list, key, value, IndexIncremental, true)
    case AddText(key, value) => Text(rules, list, key, value, IndexIncremental, false)
    case SetSensitive(key, value) => Text(rules, list, key, value, IndexNever, true)
    case SetBin(key, value) => Binary(rules, list, key, value, true)
    case AddBin(key, value) => Binary(rules, list, key, value, false)
    case ReadFields => (list, None)
    case Reset => ([], None)
  }

  /** The list and the results after a run of operations. */
  function Naive(rules: Rules, ops: seq<BuildOp>): (seq<Entry>, seq<Option<BuildError>>)
  {
    if ops == [] then ([], [])
    else
      var (list, results) := Naive(rules, ops[..|ops| - 1]);
      var (list1, result) := Step(rules, list, ops[|ops| - 1]);
      (list1, results + [result])
  }

  /** The field a list entry stands for on the wire. */
  function Render(e: Entry): HeaderField
  {
    HeaderField(e.name, if e.binary then Encode(e.raw) else e.raw, e.mode)
  }

  function RenderAll(list: seq<Entry>): seq<HeaderField>
  {
    seq(|list|, i requires 0 <= i < |list| => Render(list[i]))
  }

  // ----- What holds of every list a run builds

  /** Names are accepted lower-case keys, and binary exactly when they end in -bin. */
  predicate WellTyped(list: seq<Entry>)
  {
    forall i :: 0 <= i < |list| ==> list[i].binary == EndsInBin(list[i].name)
  }

  lemma {:induction false} WithoutTyped(list: seq<Entry>, name: string)
    requires WellTyped(list)
    ensures WellTyped(Without(list, name))
  {
    if list != [] {
      WithoutTyped(list[1..], name);
    }
  }

  lemma PutTyped(list: seq<Entry>, e: Entry, replace: bool)
    requires WellTyped(list) && e.binary == EndsInBin(e.name)
    ensures WellTyped(Put(list, e, replace))
  {
    if replace && Has(list, e.name) {
      WithoutTyped(list[First(list, e.name) + 1..], e.name);
    }
  }

  lemma {:induction false} NaiveTyped(rules: Rules, ops: seq<BuildOp>)
    ensures WellTyped(Naive(rules, ops).0) && |Naive(rules, ops).1| == |ops|
  {
    if ops != [] {
      var n := |ops| - 1;
      NaiveTyped(rules, ops[..n]);
      var list := Naive(rules, ops[..n]).0;
      if !ops[n].Reset? && !ops[n].ReadFields? {
        var key, value := ToLower(ops[n].key), ops[n].value;
        forall replace, mode ensures EndsInBin(key) ==> WellTyped(Put(list, Entry(key, value, true, mode), replace)) {
          if EndsInBin(key) { PutTyped(list, Entry(key, value, true, mode), replace); }
        }
        forall replace, mode ensures !EndsInBin(key) ==> WellTyped(Put(list, Entry(key, value, false, mode), replace)) {
          if !EndsInBin(key) { PutTyped(list, Entry(key, value, false, mode), replace); }
        }
      }
    }
  }

  /** Every binary value of a rendered run decodes, by section 4 of RFC 4648, to
      the bytes the application gave; every other value is the given bytes. */
  lemma RenderedDecodes(rules: Rules, ops: seq<BuildOp>, i: nat)
    requires i < |Naive(rules, ops).0|
    ensures var e, f := Naive(rules, ops).0[i], RenderAll(Naive(rules, ops).0)[i];
      (if EndsInBin(f.name) then Decode(f.value) else Some(f.value)) == Some(e.raw)
  {
    NaiveTyped(rules, ops);
    DecodeEncode(Naive(rules, ops).0[i].raw);
  }
}
