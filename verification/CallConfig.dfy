/** CallConfig: any number of configurations over shared memory, and its
refinement to configurations that each hold private sequences. */
module CallConfig {
  import opened Errors
  import opened Headers
  import opened GoSlices

  /** One forwarded poseidon option; None is a nil interface value. */
  type PassOption = Option<nat>

  datatype Validation = Accepted(field: HeaderField) | Refused(err: Error)

  /** poseidon's AppendMetadata as far as it is visible here: it builds one field
      from a key and a value or refuses; and the runtime's growth policy. */
  datatype Env = Env(validate: (string, Bytes) -> Validation, grow: (nat, nat) -> nat)

  /** All configurations and the memory they live in. */
  datatype World = World(md: Store<HeaderField>, pass: Store<PassOption>,
                         codec: map<Addr, Option<nat>>, err: map<Addr, Option<Error>>)

  /** The operations. `content` is what the application's slice `sl` shows. */
  datatype Op =
    | New(a: Addr)
    | Copy(src: Addr, dst: Addr)
    | SetMetadata(a: Addr, sl: Slice, content: seq<HeaderField>)
    | ShareMetadata(a: Addr, b: Addr)
    | AppendField(a: Addr, f: HeaderField)
    | AppendHeader(a: Addr, key: string, value: Bytes)
    | WithMetadata(a: Addr, sl: Slice, content: seq<HeaderField>)
    | AppendPoseidonOptions(a: Addr, opts: seq<PassOption>)
    | SetCodec(a: Addr, c: Option<nat>)
    | Fail(a: Addr, e: Error)
    | Reset(a: Addr)

  // ----- What the code does

  function Extra<T>(env: Env, sl: Slice, n: nat): nat
  {
    env.grow(sl.cap, sl.len + n)
  }

  function Adopted<T>(env: Env, st: Store<T>, a: Addr): Store<T>
    requires a in st.halves && WellFormed(st, st.halves[a].slice)
  {
    Adopt(st, a, Extra<T>(env, st.halves[a].slice.(len := 0, cap := 0), st.halves[a].slice.len))
  }

  function Appended<T>(env: Env, st: Store<T>, a: Addr, xs: seq<T>): Store<T>
    requires a in st.halves && WellFormed(st, st.halves[a].slice)
  {
    AppendOwned(st, a, xs, Extra<T>(env, st.halves[a].slice, |xs|))
  }

  /** The loop of AppendPoseidonOptions: one append per option that is not nil. */
  function AppendEach(env: Env, st: Store<PassOption>, a: Addr, opts: seq<PassOption>): Store<PassOption>
    requires Sound(st) && a in st.halves && Owned(st, a)
    decreases |opts|
  {
    if opts == [] then st
    else if opts[0].None? then AppendEach(env, st, a, opts[1..])
    else
      AppendSound(st, a, [opts[0]], Extra<PassOption>(env, st.halves[a].slice, 1));
      AppendEach(env, Appended(env, st, a, [opts[0]]), a, opts[1..])
  }

  /** What a field-wise copy does to one field. */
  function Copied<V>(vs: map<Addr, V>, src: Addr, dst: Addr): map<Addr, V>
    requires src in vs
  {
    vs[dst := vs[src]]
  }

  function AdoptAndAppend(env: Env, st: Store<HeaderField>, a: Addr, xs: seq<HeaderField>): Store<HeaderField>
    requires Sound(st) && a in st.halves
  {
    AdoptSound(st, a, Extra<HeaderField>(env, st.halves[a].slice.(len := 0, cap := 0), st.halves[a].slice.len));
    Appended(env, Adopted(env, st, a), a, xs)
  }

  function AdoptAndAppendEach(env: Env, st: Store<PassOption>, a: Addr, opts: seq<PassOption>): Store<PassOption>
    requires Sound(st) && a in st.halves
  {
    AdoptSound(st, a, Extra<PassOption>(env, st.halves[a].slice.(len := 0, cap := 0), st.halves[a].slice.len));
    AppendEach(env, Adopted(env, st, a), a, opts)
  }

  /** The slice handed to SetMetadata or WithMetadata is the application's. */
  predicate OwnSlice(st: Store<HeaderField>, sl: Slice, content: seq<HeaderField>)
  {
    WellFormed(st, sl) && (sl.cap > 0 ==> sl.arr in st.callers) && View(st, sl) == content
  }

  /** The configurations an operation uses exist. */
  predicate Uses(known: set<Addr>, op: Op)
  {
    match op
    case New(a) => a !in known
    case Copy(src, _) => src in known
    case ShareMetadata(a, b) => a in known && b in known
    case _ => op.a in known
  }

  predicate MdEnabled(st: Store<HeaderField>, op: Op)
  {
    Uses(st.halves.Keys, op) &&
    match op
    case SetMetadata(_, sl, content) => OwnSlice(st, sl, content)
    case WithMetadata(_, sl, content) => OwnSlice(st, sl, content)
    case _ => true
  }

  /** The metadata field of every configuration after one operation. */
  function ExecMd(env: Env, st: Store<HeaderField>, op: Op): Store<HeaderField>
    requires Sound(st) && MdEnabled(st, op)
  {
    match op
    case New(a) => Put(st, a, NIL, None)
    case Copy(src, dst) => st.(halves := Copied(st.halves, src, dst))
    case SetMetadata(a, sl, _) => Put(st, a, sl, None)
    case ShareMetadata(a, b) => Put(st, a, st.halves[b].slice, None)
    case AppendField(a, f) => AdoptAndAppend(env, st, a, [f])
    case AppendHeader(a, key, value) =>
      // the metadata is adopted before the entry is validated
      if env.validate(key, value).Accepted? then AdoptAndAppend(env, st, a, [env.validate(key, value).field])
      else Adopted(env, st, a)
    case WithMetadata(a, sl, content) =>
      if st.halves[a].slice.len == 0 && !Owned(st, a) then Put(st, a, sl, None)
      else AdoptAndAppend(env, st, a, content)
    case Reset(a) => ResetHalf(st, a)
    case AppendPoseidonOptions(_, _) => st
    case SetCodec(_, _) => st
    case Fail(_, _) => st
  }

  /** The forwarded options of every configuration after one operation. */
  function ExecPass(env: Env, st: Store<PassOption>, op: Op): Store<PassOption>
    requires Sound(st) && Uses(st.halves.Keys, op)
  {
    match op
    case New(a) => Put(st, a, NIL, None)
    case Copy(src, dst) => st.(halves := Copied(st.halves, src, dst))
    case AppendPoseidonOptions(a, opts) => AdoptAndAppendEach(env, st, a, opts)
    case Reset(a) => ResetHalf(st, a)
    case _ => st
  }

  function ExecCodec(codec: map<Addr, Option<nat>>, op: Op): map<Addr, Option<nat>>
    requires Uses(codec.Keys, op)
  {
    match op
    case New(a) => codec[a := None]
    case Copy(src, dst) => Copied(codec, src, dst)
    case SetCodec(a, c) => codec[a := c]
    case Reset(a) => codec[a := None]
    case _ => codec
  }

  /** The first failure is latched. */
  function ExecErr(env: Env, err: map<Addr, Option<Error>>, op: Op): map<Addr, Option<Error>>
    requires Uses(err.Keys, op)
  {
    match op
    case New(a) => err[a := None]
    case Copy(src, dst) => Copied(err, src, dst)
    case Fail(a, e) => if err[a].Some? then err else err[a := Some(e)]
    case AppendHeader(a, key, value) =>
      if env.validate(key, value).Accepted? || err[a].Some? then err
      else err[a := Some(env.validate(key, value).err)]
    case Reset(a) => err[a := None]
    case _ => err
  }

  ghost predicate SoundWorld(w: World)
  {
    && Sound(w.md) && Sound(w.pass)
    && w.md.halves.Keys == w.pass.halves.Keys == w.codec.Keys == w.err.Keys
  }

  function Exec(env: Env, w: World, op: Op): World
    requires SoundWorld(w) && MdEnabled(w.md, op)
  {
    World(ExecMd(env, w.md, op), ExecPass(env, w.pass, op), ExecCodec(w.codec, op), ExecErr(env, w.err, op))
  }

  // ----- What configurations with private sequences would do

  /** For every configuration, sequences of its own: its fields, its options, and all
      the codecs set and failures reported since it was made or last reset. */
  datatype Model = Model(md: map<Addr, seq<HeaderField>>, pass: map<Addr, seq<PassOption>>,
                         codecs: map<Addr, seq<Option<nat>>>, errs: map<Addr, seq<Error>>)

  /** The codec that counts is the last one, the error that counts the first one. */
  function LastOf<T>(xs: seq<Option<T>>): Option<T>
  {
    if xs == [] then None else xs[|xs| - 1]
  }

  function FirstOf<T>(xs: seq<T>): Option<T>
  {
    if xs == [] then None else Some(xs[0])
  }

  function NonNil(opts: seq<PassOption>): seq<PassOption>
  {
    if opts == [] then []
    else if opts[0].None? then NonNil(opts[1..])
    else [opts[0]] + NonNil(opts[1..])
  }

  /** The fields an option adds: none for an entry that is refused. */
  function Valid(env: Env, key: string, value: Bytes): seq<HeaderField>
  {
    if env.validate(key, value).Accepted? then [env.validate(key, value).field] else []
  }

  function SpecMd(env: Env, md: map<Addr, seq<HeaderField>>, op: Op): map<Addr, seq<HeaderField>>
    requires Uses(md.Keys, op)
  {
    match op
    case New(a) => md[a := []]
    case Copy(src, dst) => Copied(md, src, dst)
    case SetMetadata(a, _, content) => md[a := content]
    case ShareMetadata(a, b) => md[a := md[b]]
    case AppendField(a, f) => md[a := md[a] + [f]]
    case AppendHeader(a, key, value) => md[a := md[a] + Valid(env, key, value)]
    case WithMetadata(a, _, content) => md[a := md[a] + content]
    case Reset(a) => md[a := []]
    case _ => md
  }

  function SpecPass(pass: map<Addr, seq<PassOption>>, op: Op): map<Addr, seq<PassOption>>
    requires Uses(pass.Keys, op)
  {
    match op
    case New(a) => pass[a := []]
    case Copy(src, dst) => Copied(pass, src, dst)
    case AppendPoseidonOptions(a, opts) => pass[a := pass[a] + NonNil(opts)]
    case Reset(a) => pass[a := []]
    case _ => pass
  }

  function SpecCodecs(codecs: map<Addr, seq<Option<nat>>>, op: Op): map<Addr, seq<Option<nat>>>
    requires Uses(codecs.Keys, op)
  {
    match op
    case New(a) => codecs[a := []]
    case Copy(src, dst) => Copied(codecs, src, dst)
    case SetCodec(a, c) => codecs[a := codecs[a] + [c]]
    case Reset(a) => codecs[a := []]
    case _ => codecs
  }

  /** The failures an operation reports to a configuration. */
  function Reports(env: Env, op: Op): seq<Error>
  {
    match op
    case Fail(_, e) => [e]
    case AppendHeader(_, key, value) => if env.validate(key, value).Refused? then [env.validate(key, value).err] else []
    case _ => []
  }

  function SpecErrs(env: Env, errs: map<Addr, seq<Error>>, op: Op): map<Addr, seq<Error>>
    requires Uses(errs.Keys, op)
  {
    match op
    case New(a) => errs[a := []]
    case Copy(src, dst) => Copied(errs, src, dst)
    case Reset(a) => errs[a := []]
    case _ => errs[op.a := errs[op.a] + Reports(env, op)]
  }

  predicate SoundModel(m: Model)
  {
    m.md.Keys == m.pass.Keys == m.codecs.Keys == m.errs.Keys
  }

  function SpecExec(env: Env, m: Model, op: Op): (m': Model)
    requires SoundModel(m) && Uses(m.md.Keys, op)
    ensures SoundModel(m')
  {
    Model(SpecMd(env, m.md, op), SpecPass(m.pass, op), SpecCodecs(m.codecs, op), SpecErrs(env, m.errs, op))
  }

  ghost predicate RefinesWorld(w: World, m: Model)
  {
    SoundModel(m) && Refines(w.md, m.md) && Refines(w.pass, m.pass) && ShowsLast(w.codec, m.codecs) && ShowsFirst(w.err, m.errs)
  }

  ghost predicate ShowsLast(codec: map<Addr, Option<nat>>, codecs: map<Addr, seq<Option<nat>>>)
  {
    codec.Keys == codecs.Keys && forall a :: a in codec ==> codec[a] == LastOf(codecs[a])
  }

  ghost predicate ShowsFirst(err: map<Addr, Option<Error>>, errs: map<Addr, seq<Error>>)
  {
    err.Keys == errs.Keys && forall a :: a in err ==> err[a] == FirstOf(errs[a])
  }

  /** The two uses the documentation excludes: Reset while a copy still shares the
      array, and assigning an old copy back over its origin. */
  ghost predicate AllowedHalf<T>(st: Store<T>, op: Op)
    requires Uses(st.halves.Keys, op)
  {
    match op
    case Copy(src, dst) => src == dst || st.halves[src].owner != Some(dst)
    case Reset(a) => Unshared(st, a)
    case _ => true
  }

  ghost predicate Allowed(w: World, op: Op)
    requires SoundWorld(w) && MdEnabled(w.md, op)
  {
    AllowedHalf(w.md, op) && AllowedHalf(w.pass, op)
  }

  // ----- The proof

  lemma AdoptAndAppendRefines(env: Env, st: Store<HeaderField>, vals: map<Addr, seq<HeaderField>>, a: Addr, xs: seq<HeaderField>)
    requires Refines(st, vals) && a in st.halves
    ensures Refines(AdoptAndAppend(env, st, a, xs), vals[a := vals[a] + xs])
  {
    AdoptRefines(st, vals, a, Extra<HeaderField>(env, st.halves[a].slice.(len := 0, cap := 0), st.halves[a].slice.len));
    var st1 := Adopted(env, st, a);
    AppendRefines(st1, vals, a, xs, Extra<HeaderField>(env, st1.halves[a].slice, |xs|));
  }

  lemma AppendOneRefines(env: Env, st: Store<PassOption>, vals: map<Addr, seq<PassOption>>, a: Addr, o: PassOption)
    requires Refines(st, vals) && a in st.halves && Owned(st, a)
    ensures var st1 := Appended(env, st, a, [o]);
      Refines(st1, vals[a := vals[a] + [o]]) && a in st1.halves && Owned(st1, a)
  {
    AppendSound(st, a, [o], Extra<PassOption>(env, st.halves[a].slice, 1));
    AppendRefines(st, vals, a, [o], Extra<PassOption>(env, st.halves[a].slice, 1));
  }

  lemma Reassociate<T>(vals: map<Addr, seq<T>>, a: Addr, x: T, rest: seq<T>)
    requires a in vals
    ensures vals[a := vals[a] + [x]][a := vals[a := vals[a] + [x]][a] + rest] == vals[a := vals[a] + ([x] + rest)]
  {
    assert vals[a] + [x] + rest == vals[a] + ([x] + rest);
  }

  lemma {:induction false} AppendEachRefines(env: Env, st: Store<PassOption>, vals: map<Addr, seq<PassOption>>, a: Addr, opts: seq<PassOption>)
    requires Refines(st, vals) && a in st.halves && Owned(st, a)
    ensures Refines(AppendEach(env, st, a, opts), vals[a := vals[a] + NonNil(opts)])
    decreases |opts|
  {
    if opts == [] {
      assert vals[a] + NonNil(opts) == vals[a];
      assert vals[a := vals[a] + NonNil(opts)] == vals;
    } else if opts[0].None? {
      AppendEachRefines(env, st, vals, a, opts[1..]);
    } else {
      AppendOneRefines(env, st, vals, a, opts[0]);
      AppendEachRefines(env, Appended(env, st, a, [opts[0]]), vals[a := vals[a] + [opts[0]]], a, opts[1..]);
      Reassociate(vals, a, opts[0], NonNil(opts[1..]));
    }
  }

  lemma OptionsRefine(env: Env, st: Store<PassOption>, vals: map<Addr, seq<PassOption>>, a: Addr, opts: seq<PassOption>)
    requires Refines(st, vals) && a in st.halves
    ensures Refines(AdoptAndAppendEach(env, st, a, opts), vals[a := vals[a] + NonNil(opts)])
  {
    var extra := Extra<PassOption>(env, st.halves[a].slice.(len := 0, cap := 0), st.halves[a].slice.len);
    AdoptRefines(st, vals, a, extra);
    AdoptSound(st, a, extra);
    AppendEachRefines(env, Adopted(env, st, a), vals, a, opts);
  }

  lemma HeaderRefines(env: Env, st: Store<HeaderField>, vals: map<Addr, seq<HeaderField>>, a: Addr, key: string, value: Bytes)
    requires Refines(st, vals) && a in st.halves
    ensures Refines(ExecMd(env, st, AppendHeader(a, key, value)), vals[a := vals[a] + Valid(env, key, value)])
  {
    if env.validate(key, value).Accepted? {
      AdoptAndAppendRefines(env, st, vals, a, [env.validate(key, value).field]);
    } else {
      assert vals[a] + [] == vals[a] && vals[a := vals[a]] == vals;
      AdoptRefines(st, vals, a, Extra<HeaderField>(env, st.halves[a].slice.(len := 0, cap := 0), st.halves[a].slice.len));
    }
  }

  lemma WithMetadataRefines(env: Env, st: Store<HeaderField>, vals: map<Addr, seq<HeaderField>>, a: Addr, sl: Slice, content: seq<HeaderField>)
    requires Refines(st, vals) && a in st.halves && OwnSlice(st, sl, content)
    ensures Refines(ExecMd(env, st, WithMetadata(a, sl, content)), vals[a := vals[a] + content])
  {
    if st.halves[a].slice.len == 0 && !Owned(st, a) {
      assert vals[a] + content == content;
      InstallRefines(st, vals, a, sl);
    } else {
      AdoptAndAppendRefines(env, st, vals, a, content);
    }
  }

  /** What an operation does to the metadata. */
  lemma MdRefines(env: Env, st: Store<HeaderField>, vals: map<Addr, seq<HeaderField>>, op: Op)
    requires Refines(st, vals) && MdEnabled(st, op) && AllowedHalf(st, op)
    ensures Refines(ExecMd(env, st, op), SpecMd(env, vals, op))
  {
    match op
    case New(a) => InstallRefines(st, vals, a, NIL);
    case Copy(src, dst) => CopyRefines(st, vals, src, dst);
    case SetMetadata(a, sl, content) => InstallRefines(st, vals, a, sl);
    case ShareMetadata(a, b) => ShareRefines(st, vals, a, b);
    case AppendField(a, f) => AdoptAndAppendRefines(env, st, vals, a, [f]);
    case AppendHeader(a, key, value) => HeaderRefines(env, st, vals, a, key, value);
    case WithMetadata(a, sl, content) => WithMetadataRefines(env, st, vals, a, sl, content);
    case Reset(a) => ResetRefines(st, vals, a);
    case _ =>
  }

  /** What an operation does to the forwarded options. */
  lemma PassRefines(env: Env, st: Store<PassOption>, vals: map<Addr, seq<PassOption>>, op: Op)
    requires Refines(st, vals) && Uses(st.halves.Keys, op) && AllowedHalf(st, op)
    ensures Refines(ExecPass(env, st, op), SpecPass(vals, op))
  {
    match op
    case New(a) => InstallRefines(st, vals, a, NIL);
    case Copy(src, dst) => CopyRefines(st, vals, src, dst);
    case AppendPoseidonOptions(a, opts) => OptionsRefine(env, st, vals, a, opts);
    case Reset(a) => ResetRefines(st, vals, a);
    case _ =>
  }

  lemma CodecRefines(codec: map<Addr, Option<nat>>, codecs: map<Addr, seq<Option<nat>>>, op: Op)
    requires ShowsLast(codec, codecs) && Uses(codec.Keys, op)
    ensures ShowsLast(ExecCodec(codec, op), SpecCodecs(codecs, op))
  {
  }

  lemma ErrRefines(env: Env, err: map<Addr, Option<Error>>, errs: map<Addr, seq<Error>>, op: Op)
    requires ShowsFirst(err, errs) && Uses(err.Keys, op)
    ensures ShowsFirst(ExecErr(env, err, op), SpecErrs(env, errs, op))
  {
  }

  /** One operation: the shared-memory configurations and the private ones agree. */
  lemma ExecRefines(env: Env, w: World, m: Model, op: Op)
    requires SoundWorld(w) && RefinesWorld(w, m) && MdEnabled(w.md, op) && Allowed(w, op)
    ensures RefinesWorld(Exec(env, w, op), SpecExec(env, m, op)) && SoundWorld(Exec(env, w, op))
  {
    MdRefines(env, w.md, m.md, op);
    PassRefines(env, w.pass, m.pass, op);
    CodecRefines(w.codec, m.codecs, op);
    ErrRefines(env, w.err, m.errs, op);
  }

  // ----- Whole runs

  /** A run of operations, each within the documented use. */
  ghost predicate Run(env: Env, w: World, ops: seq<Op>, w': World)
    requires SoundWorld(w)
    decreases |ops|
  {
    if ops == [] then w' == w
    else MdEnabled(w.md, ops[0]) && Allowed(w, ops[0]) && SoundWorld(Exec(env, w, ops[0])) &&
         Run(env, Exec(env, w, ops[0]), ops[1..], w')
  }

  function SpecRun(env: Env, m: Model, ops: seq<Op>): Option<Model>
    requires SoundModel(m)
    decreases |ops|
  {
    if ops == [] then Some(m)
    else if Uses(m.md.Keys, ops[0]) then SpecRun(env, SpecExec(env, m, ops[0]), ops[1..])
    else None
  }

  /** CallConfig refines value semantics: over every run on any number of
      configurations, each one's metadata, options, codec and error are those of
      a model in which nothing is shared. */
  lemma {:induction false} RunRefines(env: Env, w: World, m: Model, ops: seq<Op>, w': World)
    requires SoundWorld(w) && RefinesWorld(w, m) && Run(env, w, ops, w')
    ensures SpecRun(env, m, ops).Some? && SoundWorld(w') && RefinesWorld(w', SpecRun(env, m, ops).value)
    decreases |ops|
  {
    if ops != [] {
      ExecRefines(env, w, m, ops[0]);
      RunRefines(env, Exec(env, w, ops[0]), SpecExec(env, m, ops[0]), ops[1..], w');
    }
  }

  // ----- The application's memory

  lemma {:induction false} AppendEachSound(env: Env, st: Store<PassOption>, a: Addr, opts: seq<PassOption>)
    requires Sound(st) && a in st.halves && Owned(st, a)
    ensures var st' := AppendEach(env, st, a, opts);
      Sound(st') && CallersKept(st, st') && st'.halves.Keys == st.halves.Keys
    decreases |opts|
  {
    if opts != [] {
      if opts[0].Some? {
        AppendSound(st, a, [opts[0]], Extra<PassOption>(env, st.halves[a].slice, 1));
        AppendEachSound(env, Appended(env, st, a, [opts[0]]), a, opts[1..]);
      } else {
        AppendEachSound(env, st, a, opts[1..]);
      }
    }
  }

  lemma AdoptAndAppendSound(env: Env, st: Store<HeaderField>, a: Addr, xs: seq<HeaderField>)
    requires Sound(st) && a in st.halves
    ensures var st' := AdoptAndAppend(env, st, a, xs);
      Sound(st') && CallersKept(st, st') && st'.halves.Keys == st.halves.Keys
  {
    AdoptSound(st, a, Extra<HeaderField>(env, st.halves[a].slice.(len := 0, cap := 0), st.halves[a].slice.len));
    var st1 := Adopted(env, st, a);
    AppendSound(st1, a, xs, Extra<HeaderField>(env, st1.halves[a].slice, |xs|));
  }

  /** The configurations that exist after an operation. */
  function KeysAfter(known: set<Addr>, op: Op): set<Addr>
  {
    match op
    case New(a) => known + {a}
    case Copy(_, dst) => known + {dst}
    case _ => known
  }

  lemma PutSound<T>(st: Store<T>, a: Addr, sl: Slice)
    requires Sound(st) && WellFormed(st, sl)
    ensures Sound(Put(st, a, sl, None)) && CallersKept(st, Put(st, a, sl, None))
    ensures Put(st, a, sl, None).halves.Keys == st.halves.Keys + {a}
  {
  }

  lemma CopySound<T>(st: Store<T>, src: Addr, dst: Addr)
    requires Sound(st) && src in st.halves
    ensures var st' := st.(halves := Copied(st.halves, src, dst));
      Sound(st') && CallersKept(st, st') && st'.halves.Keys == st.halves.Keys + {dst}
  {
  }

  lemma ScalarKeys(env: Env, w: World, op: Op)
    requires Uses(w.codec.Keys, op) && Uses(w.err.Keys, op)
    ensures ExecCodec(w.codec, op).Keys == KeysAfter(w.codec.Keys, op)
    ensures ExecErr(env, w.err, op).Keys == KeysAfter(w.err.Keys, op)
  {
  }

  lemma MdKeepsCallers(env: Env, st: Store<HeaderField>, op: Op)
    requires Sound(st) && MdEnabled(st, op)
    ensures Sound(ExecMd(env, st, op)) && CallersKept(st, ExecMd(env, st, op))
    ensures ExecMd(env, st, op).halves.Keys == KeysAfter(st.halves.Keys, op)
  {
    match op
    case New(a) => PutSound(st, a, NIL);
    case Copy(src, dst) => CopySound(st, src, dst);
    case SetMetadata(a, sl, _) => PutSound(st, a, sl);
    case ShareMetadata(a, b) => PutSound(st, a, st.halves[b].slice);
    case AppendField(a, f) => AdoptAndAppendSound(env, st, a, [f]);
    case AppendHeader(a, key, value) =>
      var v := env.validate(key, value);
      if v.Accepted? { AdoptAndAppendSound(env, st, a, [v.field]); }
      AdoptSound(st, a, Extra<HeaderField>(env, st.halves[a].slice.(len := 0, cap := 0), st.halves[a].slice.len));
    case WithMetadata(a, sl, content) => PutSound(st, a, sl); AdoptAndAppendSound(env, st, a, content);
    case Reset(a) => ResetSound(st, a);
    case _ =>
  }

  lemma PassKeepsCallers(env: Env, st: Store<PassOption>, op: Op)
    requires Sound(st) && Uses(st.halves.Keys, op)
    ensures Sound(ExecPass(env, st, op)) && CallersKept(st, ExecPass(env, st, op))
    ensures ExecPass(env, st, op).halves.Keys == KeysAfter(st.halves.Keys, op)
  {
    match op
    case New(a) => PutSound(st, a, NIL);
    case Copy(src, dst) => CopySound(st, src, dst);
    case AppendPoseidonOptions(a, opts) =>
      AdoptSound(st, a, Extra<PassOption>(env, st.halves[a].slice.(len := 0, cap := 0), st.halves[a].slice.len));
      AppendEachSound(env, Adopted(env, st, a), a, opts);
    case Reset(a) => ResetSound(st, a);
    case _ =>
  }

  /** Every operation, allowed or not, keeps the slices sound and every cell of
      the application's arrays as it was. */
  lemma ExecKeepsCallers(env: Env, w: World, op: Op)
    requires SoundWorld(w) && MdEnabled(w.md, op)
    ensures var w' := Exec(env, w, op);
      SoundWorld(w') && CallersKept(w.md, w'.md) && CallersKept(w.pass, w'.pass)
  {
    MdKeepsCallers(env, w.md, op);
    PassKeepsCallers(env, w.pass, op);
    ScalarKeys(env, w, op);
  }

  /** A run with no restriction at all, Reset and copying back included. */
  ghost predicate AnyRun(env: Env, w: World, ops: seq<Op>, w': World)
    requires SoundWorld(w)
    decreases |ops|
  {
    if ops == [] then w' == w
    else MdEnabled(w.md, ops[0]) && SoundWorld(Exec(env, w, ops[0])) && AnyRun(env, Exec(env, w, ops[0]), ops[1..], w')
  }

  /** Caller memory is never written: no run whatever changes a cell, visible or
      spare, of an array that belongs to the application. */
  lemma {:induction false} CallerMemoryNeverWritten(env: Env, w: World, ops: seq<Op>, w': World)
    requires SoundWorld(w) && AnyRun(env, w, ops, w')
    ensures CallersKept(w.md, w'.md) && CallersKept(w.pass, w'.pass)
    decreases |ops|
  {
    if ops != [] {
      ExecKeepsCallers(env, w, ops[0]);
      CallerMemoryNeverWritten(env, Exec(env, w, ops[0]), ops[1..], w');
    }
  }

  /** Nothing stops such a run: from a sound world every enabled operation leads
      to a sound world. */
  lemma AnyRunContinues(env: Env, w: World, op: Op)
    requires SoundWorld(w) && MdEnabled(w.md, op)
    ensures SoundWorld(Exec(env, w, op)) && AnyRun(env, w, [op], Exec(env, w, op))
  {
    ExecKeepsCallers(env, w, op);
    assert [op][1..] == [];
  }
}
