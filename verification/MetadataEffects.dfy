/** What a caller of the metadata builder gets: the fields handed out after any run
and one more operation. */
module MetadataEffects {
  import opened Errors
  import opened Headers
  import opened Base64
  import opened MetadataSpec

  /** The fields after a run. */
  function FieldsOf(rules: Rules, ops: seq<BuildOp>): seq<HeaderField>
  {
    RenderAll(Naive(rules, ops).0)
  }

  /** The result of the last operation of a run. */
  function ResultOf(rules: Rules, ops: seq<BuildOp>, op: BuildOp): Option<BuildError>
  {
    Step(rules, Naive(rules, ops).0, op).1
  }

  function FieldsWithout(fs: seq<HeaderField>, name: string): seq<HeaderField>
  {
    if fs == [] then []
    else if fs[0].name == name then FieldsWithout(fs[1..], name)
    else [fs[0]] + FieldsWithout(fs[1..], name)
  }

  /** Exactly one field has the name, and it is this one. */
  ghost predicate OnlyOne(fs: seq<HeaderField>, f: HeaderField)
  {
    exists k :: 0 <= k < |fs| && fs[k] == f && forall i :: 0 <= i < |fs| && i != k ==> fs[i].name != f.name
  }

  /** Poseidon accepts the key, and it is a text key or a binary one. */
  predicate Accepts(rules: Rules, key: string, binary: bool)
  {
    rules(key).None? && EndsInBin(ToLower(key)) == binary
  }

  lemma {:induction false} OneMore(rules: Rules, ops: seq<BuildOp>, op: BuildOp)
    ensures Naive(rules, ops + [op]).0 == Step(rules, Naive(rules, ops).0, op).0
    ensures Naive(rules, ops + [op]).1 == Naive(rules, ops).1 + [ResultOf(rules, ops, op)]
  {
    assert (ops + [op])[..|ops|] == ops;
  }

  lemma {:induction false} RenderWithout(list: seq<Entry>, name: string)
    ensures RenderAll(Without(list, name)) == FieldsWithout(RenderAll(list), name)
    decreases |list|
  {
    if list != [] {
      RenderWithout(list[1..], name);
      assert RenderAll(list)[1..] == RenderAll(list[1..]);
      assert RenderAll([list[0]] + Without(list[1..], name)) == [Render(list[0])] + RenderAll(Without(list[1..], name));
    }
  }

  /** What a replacement leaves, as fields. */
  lemma SetRenders(list: seq<Entry>, e: Entry)
    ensures OnlyOne(RenderAll(SetEntry(list, e)), Render(e))
    ensures FieldsWithout(RenderAll(SetEntry(list, e)), e.name) == FieldsWithout(RenderAll(list), e.name)
  {
    var fs, k := RenderAll(SetEntry(list, e)), Position(list, e.name);
    WithSetPlace(list, e, k);
    assert fs[k] == Render(e);
    forall i | 0 <= i < |fs| && i != k ensures fs[i].name != e.name {
      SetPlacesOne(list, e, i);
    }
    SetKeepsOthers(list, e);
    RenderWithout(SetEntry(list, e), e.name);
    RenderWithout(list, e.name);
  }

  lemma WithSetPlace(list: seq<Entry>, e: Entry, k: nat)
    requires k == Position(list, e.name)
    ensures k < |SetEntry(list, e)| && SetEntry(list, e)[k] == e
  {
    if SetEntry(list, e) != [] {
      SetPlacesOne(list, e, 0);
    }
  }

  /** SetText, SetSensitive and SetBin: afterwards exactly one field has the name,
      with the value given, never indexed if it is sensitive and indexed otherwise;
      the fields of other names keep order, value and indexing. */
  lemma SetReplaces(rules: Rules, ops: seq<BuildOp>, op: BuildOp)
    requires op.SetText? || op.SetSensitive? || op.SetBin?
    requires Accepts(rules, op.key, op.SetBin?)
    ensures var fs, name := FieldsOf(rules, ops + [op]), ToLower(op.key);
      && OnlyOne(fs, HeaderField(name, if op.SetBin? then Encode(op.value) else op.value, if op.SetSensitive? then IndexNever else IndexIncremental))
      && FieldsWithout(fs, name) == FieldsWithout(FieldsOf(rules, ops), name)
    ensures ResultOf(rules, ops, op) == None
  {
    OneMore(rules, ops, op);
    var mode := if op.SetSensitive? then IndexNever else IndexIncremental;
    SetRenders(Naive(rules, ops).0, Entry(ToLower(op.key), op.value, op.SetBin?, mode));
  }

  /** AddText and AddBin: every field stays, and one is appended. */
  lemma AddAppends(rules: Rules, ops: seq<BuildOp>, op: BuildOp)
    requires op.AddText? || op.AddBin?
    requires Accepts(rules, op.key, op.AddBin?)
    ensures FieldsOf(rules, ops + [op]) ==
      FieldsOf(rules, ops) + [HeaderField(ToLower(op.key), if op.AddBin? then Encode(op.value) else op.value, IndexIncremental)]
    ensures ResultOf(rules, ops, op) == None
  {
    OneMore(rules, ops, op);
    var list, e := Naive(rules, ops).0, Entry(ToLower(op.key), op.value, op.AddBin?, IndexIncremental);
    assert RenderAll(list + [e]) == RenderAll(list) + [Render(e)];
  }

  /** A key of the wrong kind or one that poseidon refuses changes nothing, and the
      error says which it was: text under a binary key before poseidon is asked,
      bytes under a text key after. */
  lemma RefusalKeeps(rules: Rules, ops: seq<BuildOp>, op: BuildOp)
    requires !op.Reset? && !op.ReadFields? && !Accepts(rules, op.key, op.SetBin? || op.AddBin?)
    ensures FieldsOf(rules, ops + [op]) == FieldsOf(rules, ops)
    ensures var bin := op.SetBin? || op.AddBin?;
      ResultOf(rules, ops, op) ==
      if !bin && EndsInBin(ToLower(op.key)) then Some(NeedsBinary)
      else if rules(op.key).Some? then Some(Refused(rules(op.key).value))
      else Some(NeedsText)
  {
    OneMore(rules, ops, op);
  }

  /** Reset leaves nothing, and reading changes nothing. */
  lemma ResetEmpties(rules: Rules, ops: seq<BuildOp>)
    ensures FieldsOf(rules, ops + [Reset]) == [] && FieldsOf(rules, ops + [ReadFields]) == FieldsOf(rules, ops)
    ensures FieldsOf(rules, []) == []
  {
    OneMore(rules, ops, Reset);
    OneMore(rules, ops, ReadFields);
  }

  // ----- Keys

  /** A name is binary exactly if it is some prefix and "-bin". */
  lemma BinaryNames(name: string)
    ensures EndsInBin(name) <==> exists p: string :: name == p + "-bin"
  {
    if EndsInBin(name) {
      assert name == name[..|name| - 4] + name[|name| - 4..];
    }
    if p: string :| name == p + "-bin" {
      assert name[|name| - 4..] == "-bin";
    }
  }

  // ----- Lower case

  const UPPER := "ABCDEFGHIJKLMNOPQRSTUVWXYZ"
  const SMALL := "abcdefghijklmnopqrstuvwxyz"

  /** ToLower replaces the upper-case letters one for one, and nothing else. */
  lemma LowerIs(s: string, i: nat)
    requires i < |s|
    ensures forall k :: 0 <= k < 26 && s[i] == UPPER[k] ==> ToLower(s)[i] == SMALL[k]
    ensures s[i] !in UPPER ==> ToLower(s)[i] == s[i]
  {
    if !('A' <= s[i] <= 'Z') {
      assert ToLower(s)[i] == s[i];
    } else {
      var k := (s[i] - 'A') as int;
      assert UPPER[k] == s[i];
    }
  }
}
