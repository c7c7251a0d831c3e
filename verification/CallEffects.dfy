/** What a caller sees of each operation: its effect on the configuration it is
called on, and none on any other. */
module CallEffects {
  import opened Errors
  import opened GoSlices
  import opened CallConfig
  import opened CallOptions

  /** The configuration an operation changes. */
  function Target(op: Op): Addr
  {
    if op.Copy? then op.dst else op.a
  }

  /** What the target shows afterwards, in terms of what configurations showed. */
  ghost predicate TargetShows(env: Env, w: World, w': World, op: Op)
    requires SoundWorld(w) && SoundWorld(w') && Uses(w.md.halves.Keys, op) && Target(op) in w'.md.halves
  {
    var after := Shown(w', Target(op));
    match op
    case New(_) => after == EMPTY
    case Copy(src, _) => after == Shown(w, src)
    case SetMetadata(a, _, content) => after == Shown(w, a).(md := content)
    case ShareMetadata(a, b) => after == Shown(w, a).(md := Shown(w, b).md)
    case AppendField(a, f) => after == Shown(w, a).(md := Shown(w, a).md + [f])
    case AppendHeader(a, key, value) =>
      (match env.validate(key, value)
       case Accepted(f) => after == Shown(w, a).(md := Shown(w, a).md + [f])
       case Refused(e) => after == if Shown(w, a).err.Some? then Shown(w, a) else Shown(w, a).(err := Some(e)))
    case WithMetadata(a, _, content) => after == Shown(w, a).(md := Shown(w, a).md + content)
    case AppendPoseidonOptions(a, opts) => after == Shown(w, a).(pass := Shown(w, a).pass + NonNil(opts))
    case SetCodec(a, c) => after == Shown(w, a).(codec := c)
    case Fail(a, e) => after == if Shown(w, a).err.Some? then Shown(w, a) else Shown(w, a).(err := Some(e))
    case Reset(_) => after == EMPTY
  }

  lemma LastIsNew<T>(xs: seq<Option<T>>, x: Option<T>)
    ensures LastOf(xs + [x]) == x
  {
  }

  lemma FirstStays<T>(xs: seq<T>, x: T)
    ensures FirstOf(xs + [x]) == if FirstOf(xs).Some? then FirstOf(xs) else Some(x)
    ensures FirstOf(xs + []) == FirstOf(xs)
  {
    assert xs + [] == xs;
  }

  /** The same where nothing is shared. */
  ghost predicate TargetHolds(env: Env, m: Model, op: Op)
    requires SoundModel(m) && Uses(m.md.Keys, op)
  {
    var m' := SpecExec(env, m, op);
    && Target(op) in m'.md
    && (op.Copy? ==> PrivateOf(m', op.dst) == PrivateOf(m, op.src))
    && (op.New? || op.Reset? ==> PrivateOf(m', op.a) == EMPTY)
    && (op.SetMetadata? ==> PrivateOf(m', op.a) == PrivateOf(m, op.a).(md := op.content))
    && (op.ShareMetadata? ==> PrivateOf(m', op.a) == PrivateOf(m, op.a).(md := PrivateOf(m, op.b).md))
    && (op.AppendField? ==> PrivateOf(m', op.a) == PrivateOf(m, op.a).(md := m.md[op.a] + [op.f]))
    && (op.WithMetadata? ==> PrivateOf(m', op.a) == PrivateOf(m, op.a).(md := m.md[op.a] + op.content))
    && (op.AppendPoseidonOptions? ==> PrivateOf(m', op.a) == PrivateOf(m, op.a).(pass := m.pass[op.a] + NonNil(op.opts)))
    && (op.SetCodec? ==> PrivateOf(m', op.a) == PrivateOf(m, op.a).(codec := op.c))
    && (op.Fail? ==> PrivateOf(m', op.a) == Failed(PrivateOf(m, op.a), op.e))
    && (op.AppendHeader? ==>
          match env.validate(op.key, op.value)
          case Accepted(f) => PrivateOf(m', op.a) == PrivateOf(m, op.a).(md := m.md[op.a] + [f])
          case Refused(e) => PrivateOf(m', op.a) == Failed(PrivateOf(m, op.a), e))
  }

  function Failed(p: Private, e: Error): Private
  {
    if p.err.Some? then p else p.(err := Some(e))
  }

  lemma ModelTarget(env: Env, m: Model, op: Op)
    requires SoundModel(m) && Uses(m.md.Keys, op)
    ensures TargetHolds(env, m, op)
  {
    if op.SetCodec? { LastIsNew(m.codecs[op.a], op.c); }
    if op.Fail? { FirstStays(m.errs[op.a], op.e); }
    if op.AppendHeader? {
      var v := env.validate(op.key, op.value);
      assert m.md[op.a] + [] == m.md[op.a];
      if v.Refused? { FirstStays(m.errs[op.a], v.err); } else { assert m.errs[op.a] + [] == m.errs[op.a]; }
    }
  }

  lemma ModelOthers(env: Env, m: Model, op: Op, b: Addr)
    requires SoundModel(m) && Uses(m.md.Keys, op) && b in m.md && b != Target(op)
    ensures b in SpecExec(env, m, op).md && PrivateOf(SpecExec(env, m, op), b) == PrivateOf(m, b)
  {
  }

  /** Every operation within the documented use does to its configuration what its
      documentation says, and changes nothing that another configuration shows. */
  lemma Effect(env: Env, w: World, m: Model, op: Op)
    requires SoundWorld(w) && RefinesWorld(w, m) && MdEnabled(w.md, op) && Allowed(w, op)
    ensures var w' := Exec(env, w, op);
      SoundWorld(w') && Target(op) in w'.md.halves && TargetShows(env, w, w', op) &&
      forall b :: b in w.md.halves && b != Target(op) ==> b in w'.md.halves && Shown(w', b) == Shown(w, b)
  {
    var w', m' := Exec(env, w, op), SpecExec(env, m, op);
    ExecRefines(env, w, m, op);
    ModelTarget(env, m, op);
    ShownIsPrivate(w', m', Target(op));
    forall b | b in w.md.halves ensures b in m.md && Shown(w, b) == PrivateOf(m, b) {
      ShownIsPrivate(w, m, b);
    }
    forall b | b in w.md.halves && b != Target(op) ensures b in w'.md.halves && Shown(w', b) == Shown(w, b) {
      ModelOthers(env, m, op, b);
      ShownIsPrivate(w', m', b);
    }
  }

  /** Reset forgets everything, whoever still shares the memory, and leaves no
      element in the cells that were visible if they are its own; the codecs and
      errors of the others are untouched. */
  lemma ResetForgets(env: Env, w: World, a: Addr)
    requires SoundWorld(w) && a in w.md.halves
    ensures var w' := Exec(env, w, Op.Reset(a));
      && SoundWorld(w') && a in w'.md.halves && Shown(w', a) == EMPTY
      && (forall b :: b in w.codec && b != a ==> b in w'.codec && w'.codec[b] == w.codec[b] && w'.err[b] == w.err[b])
      && (Owned(w.md, a) ==> Cleared(w'.md, w.md.halves[a].slice)) && (Owned(w.pass, a) ==> Cleared(w'.pass, w.pass.halves[a].slice))
  {
    ExecKeepsCallers(env, w, Op.Reset(a));
    ResetEmpties(w.md, a);
    ResetEmpties(w.pass, a);
    if Owned(w.md, a) { ResetClears(w.md, a); }
    if Owned(w.pass, a) { ResetClears(w.pass, a); }
  }

  lemma ResetEmpties<T>(st: Store<T>, a: Addr)
    requires Sound(st) && a in st.halves
    ensures var st' := ResetHalf(st, a); a in st'.halves && WellFormed(st', st'.halves[a].slice) && View(st', st'.halves[a].slice) == []
  {
  }

  predicate Cleared<T(==)>(st: Store<T>, sl: Slice)
  {
    sl.len > 0 ==>
      && sl.arr in st.arrays && sl.off + sl.len <= |st.arrays[sl.arr]|
      && forall c :: sl.off <= c < sl.off + sl.len ==> st.arrays[sl.arr][c] == st.zero
  }

  lemma ResetClears<T>(st: Store<T>, a: Addr)
    requires Sound(st) && a in st.halves && Owned(st, a)
    ensures Cleared(ResetHalf(st, a), st.halves[a].slice)
  {
  }

  // ----- Codec and error over whole runs, from the history alone

  /** The operation makes the configuration anew. */
  predicate Makes(op: Op, a: Addr)
  {
    (op.New? || op.Reset? || op.Copy?) && Target(op) == a
  }

  predicate Unmade(ops: seq<Op>, a: Addr)
  {
    forall i :: 0 <= i < |ops| ==> !Makes(ops[i], a)
  }

  /** The failures reported to a configuration, in order. */
  function FailuresAt(env: Env, ops: seq<Op>, a: Addr): seq<Error>
  {
    if ops == [] then [] else FailuresOf(env, ops[0], a) + FailuresAt(env, ops[1..], a)
  }

  /** The codecs set on a configuration, in order. */
  function CodecsAt(ops: seq<Op>, a: Addr): seq<Option<nat>>
  {
    if ops == [] then [] else CodecsOf(ops[0], a) + CodecsAt(ops[1..], a)
  }

  /** The error after more failures: the one there was, or the first of them. */
  function ErrAfter(before: Option<Error>, fs: seq<Error>): Option<Error>
  {
    if before.Some? then before else FirstOf(fs)
  }

  /** The codec after more were set: the last of them, or the one there was. */
  function CodecAfter(before: Option<nat>, cs: seq<Option<nat>>): Option<nat>
  {
    if cs == [] then before else LastOf(cs)
  }

  lemma AfterBoth(e: Option<Error>, fs: seq<Error>, gs: seq<Error>, c: Option<nat>, cs: seq<Option<nat>>, ds: seq<Option<nat>>)
    ensures ErrAfter(ErrAfter(e, fs), gs) == ErrAfter(e, fs + gs)
    ensures CodecAfter(CodecAfter(c, cs), ds) == CodecAfter(c, cs + ds)
  {
    assert [] + gs == gs && cs + [] == cs;
  }

  function FailuresOf(env: Env, op: Op, a: Addr): seq<Error>
  {
    if Target(op) == a then Reports(env, op) else []
  }

  function CodecsOf(op: Op, a: Addr): seq<Option<nat>>
  {
    if op.SetCodec? && op.a == a then [op.c] else []
  }

  lemma ScalarStep(env: Env, w: World, op: Op, a: Addr)
    requires SoundWorld(w) && MdEnabled(w.md, op) && a in w.err && !Makes(op, a)
    ensures var w' := Exec(env, w, op);
      && a in w'.err && a in w'.codec
      && w'.err[a] == ErrAfter(w.err[a], FailuresOf(env, op, a)) && w'.codec[a] == CodecAfter(w.codec[a], CodecsOf(op, a))
  {
  }

  /** Over any run, allowed or not, in which a configuration is not made anew, its
      error is the one it had, or else the first failure reported to it, and its
      codec is the last one set. */
  lemma {:induction false} SinceMade(env: Env, w: World, ops: seq<Op>, w': World, a: Addr)
    requires SoundWorld(w) && AnyRun(env, w, ops, w') && a in w.err && Unmade(ops, a)
    ensures SoundWorld(w') && a in w'.err
    ensures w'.err[a] == ErrAfter(w.err[a], FailuresAt(env, ops, a)) && w'.codec[a] == CodecAfter(w.codec[a], CodecsAt(ops, a))
    decreases |ops|
  {
    if ops != [] {
      var w1 := Exec(env, w, ops[0]);
      ScalarStep(env, w, ops[0], a);
      SinceMade(env, w1, ops[1..], w', a);
      AfterBoth(w.err[a], FailuresOf(env, ops[0], a), FailuresAt(env, ops[1..], a), w.codec[a], CodecsOf(ops[0], a), CodecsAt(ops[1..], a));
    }
  }

  /** In particular after a Reset: nothing from before it is left. */
  lemma {:induction false} SinceReset(env: Env, w: World, ops: seq<Op>, w': World, a: Addr)
    requires SoundWorld(w) && a in w.md.halves && AnyRun(env, w, [Op.Reset(a)] + ops, w')
    requires Unmade(ops, a)
    ensures SoundWorld(w') && a in w'.err
    ensures w'.err[a] == FirstOf(FailuresAt(env, ops, a)) && w'.codec[a] == LastOf(CodecsAt(ops, a))
  {
    assert ([Op.Reset(a)] + ops)[1..] == ops;
    ResetForgets(env, w, a);
    SinceMade(env, Exec(env, w, Op.Reset(a)), ops, w', a);
  }
}
