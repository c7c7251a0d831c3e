/** Two runs outside the documented use, from a program without configurations: an
old copy assigned back over its origin, and Reset while a copy still shares. */
module UnsafeRuns {
  import opened Errors
  import opened Headers
  import opened GoSlices
  import opened CallConfig
  import opened CallHistory

  // ----- Runs, as far as the metadata goes

  /** The operations lead the code from `st` to `st'`, and private sequences from
      `md` to `md'`. */
  ghost predicate MdPath(env: Env, st: Store<HeaderField>, md: map<Addr, seq<HeaderField>>, ops: seq<Op>,
                         st': Store<HeaderField>, md': map<Addr, seq<HeaderField>>)
    requires Sound(st)
    decreases |ops|
  {
    if ops == [] then st' == st && md' == md
    else
      && MdEnabled(st, ops[0]) && Uses(md.Keys, ops[0]) && Sound(ExecMd(env, st, ops[0]))
      && MdPath(env, ExecMd(env, st, ops[0]), SpecMd(env, md, ops[0]), ops[1..], st', md')
  }

  /** One more operation in front. */
  lemma {:induction false} PathBy(env: Env, st: Store<HeaderField>, md: map<Addr, seq<HeaderField>>, op: Op,
                                  st1: Store<HeaderField>, md1: map<Addr, seq<HeaderField>>, rest: seq<Op>,
                                  st': Store<HeaderField>, md': map<Addr, seq<HeaderField>>)
    requires Sound(st) && MdEnabled(st, op) && Uses(md.Keys, op)
    requires st1 == ExecMd(env, st, op) && md1 == SpecMd(env, md, op) && Sound(st1) && MdPath(env, st1, md1, rest, st', md')
    ensures MdPath(env, st, md, [op] + rest, st', md')
  {
    assert ([op] + rest)[1..] == rest;
  }

  /** What such operations do to the metadata, whole worlds do. */
  lemma {:induction false} PathRuns(env: Env, w: World, m: Model, ops: seq<Op>,
                                    st': Store<HeaderField>, md': map<Addr, seq<HeaderField>>) returns (w': World)
    requires SoundWorld(w) && SoundModel(m) && MdPath(env, w.md, m.md, ops, st', md')
    ensures AnyRun(env, w, ops, w') && w'.md == st'
    ensures SpecRun(env, m, ops).Some? && SpecRun(env, m, ops).value.md == md'
    decreases |ops|
  {
    if ops == [] {
      w' := w;
    } else {
      ExecKeepsCallers(env, w, ops[0]);
      w' := PathRuns(env, Exec(env, w, ops[0]), SpecExec(env, m, ops[0]), ops[1..], st', md');
    }
  }

  // ----- The run

  function Starting(rest: seq<Op>): seq<Op>
  {
    [New(0)] + ([AppendField(0, A)] + rest)
  }

  function Named(name: string): HeaderField
  {
    HeaderField(name, [], IndexIncremental)
  }

  const A := Named("a")
  const B := Named("b")
  const C := Named("c")

  /** append leaves room for two more elements when it moves to a new array. */
  const ROOMY := Env((_, _) => Refused(Leaf(Foreign(0))), (_, _) => 2)

  /** The array of the run with these cells, and these halves. */
  function Memory(cells: seq<HeaderField>, halves: map<Addr, Half>): Store<HeaderField>
  {
    Store(map[0 := cells], halves, {}, 1, ZERO_FIELD)
  }

  function Prefix(n: nat): Half
  {
    Half(Slice(0, 0, n, 3), Some(0))
  }

  /** Every configuration shows a prefix of the one array, and 0 owns it. */
  predicate Prefixes(cells: seq<HeaderField>, halves: map<Addr, Half>)
  {
    |cells| == 3 && 0 in halves && forall a :: a in halves ==> halves[a].slice.len <= 3 && halves[a] == Prefix(halves[a].slice.len)
  }

  lemma PrefixesSound(cells: seq<HeaderField>, halves: map<Addr, Half>)
    requires Prefixes(cells, halves)
    ensures Sound(Memory(cells, halves))
  {
  }

  /** An append into spare capacity. */
  lemma InPlace(cells: seq<HeaderField>, halves: map<Addr, Half>, n: nat, x: HeaderField)
    requires Prefixes(cells, halves) && n < 3 && halves[0] == Prefix(n)
    ensures var st := Memory(cells, halves);
      Sound(st) && MdEnabled(st, AppendField(0, x)) &&
      ExecMd(ROOMY, st, AppendField(0, x)) == Memory(cells[n := x], halves[0 := Prefix(n + 1)])
  {
    PrefixesSound(cells, halves);
    assert Overwrite(cells, n, [x]) == cells[n := x];
    assert map[0 := cells][0 := cells[n := x]] == map[0 := cells[n := x]];
  }

  lemma {:induction false} AppendBy(cells: seq<HeaderField>, halves: map<Addr, Half>, md: map<Addr, seq<HeaderField>>, n: nat, x: HeaderField,
                                    rest: seq<Op>, st': Store<HeaderField>, md': map<Addr, seq<HeaderField>>)
    requires Prefixes(cells, halves) && n < 3 && halves[0] == Prefix(n) && 0 in md
    requires Sound(Memory(cells[n := x], halves[0 := Prefix(n + 1)]))
    requires MdPath(ROOMY, Memory(cells[n := x], halves[0 := Prefix(n + 1)]), md[0 := md[0] + [x]], rest, st', md')
    ensures Sound(Memory(cells, halves)) && MdPath(ROOMY, Memory(cells, halves), md, [AppendField(0, x)] + rest, st', md')
  {
    InPlace(cells, halves, n, x);
    PathBy(ROOMY, Memory(cells, halves), md, AppendField(0, x), Memory(cells[n := x], halves[0 := Prefix(n + 1)]), md[0 := md[0] + [x]], rest, st', md');
  }

  lemma {:induction false} CopyBy(cells: seq<HeaderField>, halves: map<Addr, Half>, md: map<Addr, seq<HeaderField>>, src: Addr, dst: Addr,
               rest: seq<Op>, st': Store<HeaderField>, md': map<Addr, seq<HeaderField>>)
    requires Prefixes(cells, halves) && src in halves && src in md
    requires Sound(Memory(cells, halves[dst := halves[src]]))
    requires MdPath(ROOMY, Memory(cells, halves[dst := halves[src]]), md[dst := md[src]], rest, st', md')
    ensures Sound(Memory(cells, halves)) && MdPath(ROOMY, Memory(cells, halves), md, [Copy(src, dst)] + rest, st', md')
  {
    PrefixesSound(cells, halves);
    PathBy(ROOMY, Memory(cells, halves), md, Copy(src, dst), Memory(cells, halves[dst := halves[src]]), md[dst := md[src]], rest, st', md');
  }

  // The memory and the private sequences after each operation but the first.

  const CELLS1 := [A, ZERO_FIELD, ZERO_FIELD]
  const CELLS2 := CELLS1[1 := B]
  const CELLS3 := CELLS2[1 := C]
  const HALVES1 := map[0 := Prefix(1)]
  const HALVES2 := HALVES1[1 := HALVES1[0]]
  const HALVES3 := HALVES2[0 := Prefix(2)]
  const HALVES4 := HALVES3[2 := HALVES3[0]]
  const HALVES5 := HALVES4[0 := HALVES4[1]]
  const HALVES6 := HALVES5[0 := Prefix(2)]
  const MD1: map<Addr, seq<HeaderField>> := map[0 := [A]]
  const MD2 := MD1[1 := MD1[0]]
  const MD3 := MD2[0 := MD2[0] + [B]]
  const MD4 := MD3[2 := MD3[0]]
  const MD5 := MD4[0 := MD4[1]]
  const MD6 := MD5[0 := MD5[0] + [C]]

  const OPS6 := [AppendField(0, C)] + []
  const OPS5 := [Copy(1, 0)] + OPS6
  const OPS4 := [Copy(0, 2)] + OPS5
  const OPS3 := [AppendField(0, B)] + OPS4
  const OPS2 := [Copy(0, 1)] + OPS3
  const BACK := Starting(OPS2)

  /** From a memory on, the rest of the run leads to the last one. */
  ghost predicate LeadsOn(cells: seq<HeaderField>, halves: map<Addr, Half>, md: map<Addr, seq<HeaderField>>, ops: seq<Op>)
  {
    Sound(Memory(cells, halves)) && MdPath(ROOMY, Memory(cells, halves), md, ops, Memory(CELLS3, HALVES6), MD6)
  }

  lemma SixthStep()
    ensures LeadsOn(CELLS2, HALVES5, MD5, OPS6)
  {
    PrefixesSound(CELLS3, HALVES6);
    AppendBy(CELLS2, HALVES5, MD5, 1, C, [], Memory(CELLS3, HALVES6), MD6);
  }

  lemma FifthStep()
    ensures LeadsOn(CELLS2, HALVES4, MD4, OPS5)
  {
    SixthStep();
    CopyBy(CELLS2, HALVES4, MD4, 1, 0, OPS6, Memory(CELLS3, HALVES6), MD6);
  }

  lemma FourthStep()
    ensures LeadsOn(CELLS2, HALVES3, MD3, OPS4)
  {
    FifthStep();
    CopyBy(CELLS2, HALVES3, MD3, 0, 2, OPS5, Memory(CELLS3, HALVES6), MD6);
  }

  lemma ThirdStep()
    ensures LeadsOn(CELLS1, HALVES2, MD2, OPS3)
  {
    FourthStep();
    AppendBy(CELLS1, HALVES2, MD2, 1, B, OPS4, Memory(CELLS3, HALVES6), MD6);
  }

  lemma SecondStep()
    ensures LeadsOn(CELLS1, HALVES1, MD1, OPS2)
  {
    ThirdStep();
    CopyBy(CELLS1, HALVES1, MD1, 0, 1, OPS3, Memory(CELLS3, HALVES6), MD6);
  }

  const NO_MEMORY: Store<HeaderField> := Store(map[], map[], {}, 0, ZERO_FIELD)
  const NO_CONFIGS := World(NO_MEMORY, Store(map[], map[], {}, 0, None), map[], map[])
  const ZERO_CONFIG: Store<HeaderField> := Store(map[], map[0 := Half(NIL, None)], {}, 0, ZERO_FIELD)

  /** The first append moves to a new array. */
  lemma FirstAppend()
    ensures Sound(ZERO_CONFIG) && MdEnabled(ZERO_CONFIG, AppendField(0, A))
    ensures ExecMd(ROOMY, ZERO_CONFIG, AppendField(0, A)) == Memory(CELLS1, HALVES1)
  {
    assert [] + [A] + Zeros(ZERO_FIELD, 2) == CELLS1;
    assert map[0 := Half(NIL, None)][0 := Half(NIL, Some(0))][0 := Prefix(1)] == HALVES1;
  }

  lemma FromNothing(rest: seq<Op>, st': Store<HeaderField>, md': map<Addr, seq<HeaderField>>)
    requires Sound(Memory(CELLS1, HALVES1)) && MdPath(ROOMY, Memory(CELLS1, HALVES1), MD1, rest, st', md')
    ensures Sound(NO_MEMORY) && MdPath(ROOMY, NO_MEMORY, map[], Starting(rest), st', md')
  {
    FirstAppend();
    assert [] + [A] == [A];
    PathBy(ROOMY, ZERO_CONFIG, map[0 := []], AppendField(0, A), Memory(CELLS1, HALVES1), MD1, rest, st', md');
    PathBy(ROOMY, NO_MEMORY, map[], New(0), ZERO_CONFIG, map[0 := []], [AppendField(0, A)] + rest, st', md');
  }

  /** In the end configuration 2, which nobody touched since it was copied, shows
      an element that was appended to configuration 0. */
  lemma SeenByThird()
    ensures Sound(Memory(CELLS3, HALVES6)) && 2 in HALVES6 && View(Memory(CELLS3, HALVES6), HALVES6[2].slice) == [A, C]
    ensures 2 in MD6 && MD6[2] == [A, B]
  {
    PrefixesSound(CELLS3, HALVES6);
    assert HALVES6[2] == Prefix(2) && CELLS3 == [A, C, ZERO_FIELD];
  }

  /** From a program without configurations: New, append, copy, append, copy, copy
      back, append. The code can run it, and does not show what private sequences
      would. */
  lemma {:induction false} CopyBackBreaks() returns (w: World, w': World)
    ensures NoConfigs(w) && AnyRun(ROOMY, w, BACK, w')
    ensures var spec := SpecRun(ROOMY, Model(map[], map[], map[], map[]), BACK); spec.Some? && !RefinesWorld(w', spec.value)
  {
    w := NO_CONFIGS;
    SecondStep();
    FromNothing(OPS2, Memory(CELLS3, HALVES6), MD6);
    w' := PathRuns(ROOMY, w, Model(map[], map[], map[], map[]), BACK, Memory(CELLS3, HALVES6), MD6);
    SeenByThird();
    assert A != B && B != C;
  }

  // ----- Reset while a copy still shares

  const CLEARED := [ZERO_FIELD, ZERO_FIELD, ZERO_FIELD]
  const RESET1 := [Reset(0)] + []
  const RESET := Starting([Copy(0, 1)] + RESET1)

  lemma ResetStep()
    ensures Sound(Memory(CELLS1, HALVES2)) && Sound(Memory(CLEARED, HALVES2[0 := Prefix(0)]))
    ensures MdPath(ROOMY, Memory(CELLS1, HALVES2), MD2, RESET1, Memory(CLEARED, HALVES2[0 := Prefix(0)]), MD2[0 := []])
  {
    var st, st' := Memory(CELLS1, HALVES2), Memory(CLEARED, HALVES2[0 := Prefix(0)]);
    PrefixesSound(CELLS1, HALVES2);
    PrefixesSound(CLEARED, HALVES2[0 := Prefix(0)]);
    assert Overwrite(CELLS1, 0, Zeros(ZERO_FIELD, 1)) == CLEARED;
    assert map[0 := CELLS1][0 := CLEARED] == map[0 := CLEARED];
    PathBy(ROOMY, st, MD2, Reset(0), st', MD2[0 := []], [], st', MD2[0 := []]);
  }

  lemma ResetPath()
    ensures Sound(NO_MEMORY) && MdPath(ROOMY, NO_MEMORY, map[], RESET, Memory(CLEARED, HALVES2[0 := Prefix(0)]), MD2[0 := []])
  {
    ResetStep();
    CopyBy(CELLS1, HALVES1, MD1, 0, 1, RESET1, Memory(CLEARED, HALVES2[0 := Prefix(0)]), MD2[0 := []]);
    FromNothing([Copy(0, 1)] + RESET1, Memory(CLEARED, HALVES2[0 := Prefix(0)]), MD2[0 := []]);
  }

  /** New, append, copy, Reset: the copy now shows a cleared field. */
  lemma {:induction false} ResetBreaks() returns (w: World, w': World)
    ensures NoConfigs(w) && AnyRun(ROOMY, w, RESET, w')
    ensures var spec := SpecRun(ROOMY, Model(map[], map[], map[], map[]), RESET); spec.Some? && !RefinesWorld(w', spec.value)
  {
    w := NO_CONFIGS;
    var st', md' := Memory(CLEARED, HALVES2[0 := Prefix(0)]), MD2[0 := []];
    ResetPath();
    w' := PathRuns(ROOMY, w, Model(map[], map[], map[], map[]), RESET, st', md');
    assert View(st', st'.halves[1].slice)[0] == ZERO_FIELD && md'[1][0] == A && A != ZERO_FIELD;
  }
}
