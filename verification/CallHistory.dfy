/** CallConfig refines value semantics under a condition on the history of calls
alone: whoever looks only at which operations were called, never at a slice or an
owner address, can tell whether a run is within the documented use. */
module CallHistory {
  import opened Errors
  import opened GoSlices
  import opened CallConfig
  import opened Headers

  // ----- What a bystander can track

  /** For each configuration, the ones it was copied from, directly or through
      other copies, since it was last modified. */
  type Links = map<Addr, set<Addr>>

  datatype History = History(md: Links, pass: Links)

  const NOTHING := History(map[], map[])

  function CopiedFrom(links: Links, src: Addr): set<Addr>
    requires src in links
  {
    links[src] + {src}
  }

  /** The metadata: every operation that appends to it or replaces it cuts the link. */
  function TrackMd(links: Links, op: Op): Links
    requires Uses(links.Keys, op)
  {
    match op
    case Copy(src, dst) => links[dst := CopiedFrom(links, src)]
    case ShareMetadata(a, b) => links[a := CopiedFrom(links, b)]
    case AppendPoseidonOptions(_, _) => links
    case SetCodec(_, _) => links
    case Fail(_, _) => links
    case _ => links[op.a := {}]
  }

  function TrackPass(links: Links, op: Op): Links
    requires Uses(links.Keys, op)
  {
    match op
    case New(a) => links[a := {}]
    case Copy(src, dst) => links[dst := CopiedFrom(links, src)]
    case AppendPoseidonOptions(a, _) => links[a := {}]
    case Reset(a) => links[a := {}]
    case _ => links
  }

  /** The documented use: no configuration is assigned back over one it was copied
      from, and Reset comes before copying or after every copy was modified. A
      variable that is not in use yet is never excluded as a destination. */
  predicate Fine(links: Links, op: Op)
    requires Uses(links.Keys, op)
  {
    match op
    case Copy(src, dst) => src == dst || dst !in links[src]
    case Reset(a) => forall b :: b in links && b != a ==> a !in links[b]
    case _ => true
  }

  predicate Usable(h: History, op: Op)
  {
    Uses(h.md.Keys, op) && Uses(h.pass.Keys, op) && Fine(h.md, op) && Fine(h.pass, op)
  }

  function Track(h: History, op: Op): History
    requires Usable(h, op)
  {
    History(TrackMd(h.md, op), TrackPass(h.pass, op))
  }

  predicate Documented(h: History, ops: seq<Op>)
    decreases |ops|
  {
    ops == [] ||
    (Usable(h, ops[0]) && Documented(Track(h, ops[0]), ops[1..]))
  }

  /** The slices a run installs are the application's own. */
  predicate SliceOk(st: Store<HeaderField>, op: Op)
  {
    op.SetMetadata? || op.WithMetadata? ==> OwnSlice(st, op.sl, op.content)
  }

  predicate SlicesOk(st: Store<HeaderField>, ops: seq<Op>)
  {
    forall i :: 0 <= i < |ops| ==> SliceOk(st, ops[i])
  }

  // ----- The links cover the sharing that is in memory

  ghost predicate LinkOk<T>(st: Store<T>, links: Links)
  {
    && links.Keys == st.halves.Keys
    && (forall b :: b in links ==> links[b] <= links.Keys)
    && (forall b :: b in st.halves && st.halves[b].owner.Some? && !Owned(st, b) ==> st.halves[b].owner.value in links[b])
    && (forall a, b :: a in st.halves && b in st.halves && a != b && Owned(st, a) && Shares(st, a, b) ==> a in links[b])
  }

  /** What was not in use is in nobody's links, so every copy to it is fine. */
  lemma FreshIsFine<T>(st: Store<T>, links: Links, src: Addr, dst: Addr)
    requires LinkOk(st, links) && src in links && dst !in links
    ensures Fine(links, Copy(src, dst))
  {
    assert links[src] <= links.Keys;
  }

  lemma FineIsAllowed<T>(st: Store<T>, links: Links, op: Op)
    requires LinkOk(st, links) && Uses(links.Keys, op) && Fine(links, op)
    ensures AllowedHalf(st, op)
  {
  }

  /** Half a gets a slice it does not own. */
  lemma PlacedLinks<T>(st: Store<T>, st': Store<T>, links: Links, a: Addr, from: set<Addr>)
    requires LinkOk(st, links) && a in st'.halves && st'.halves == st.halves[a := st'.halves[a]]
    requires from <= links.Keys + {a} && !Owned(st', a)
    requires st'.halves[a].owner.Some? ==> st'.halves[a].owner.value in from
    requires forall x :: x in st.halves && x != a && Owned(st, x) && Shares(st', x, a) ==> x in from
    ensures LinkOk(st', links[a := from])
  {
    var links' := links[a := from];
    forall b | b in links' ensures links'[b] <= links'.Keys {
      assert b != a ==> links[b] <= links.Keys;
    }
    forall x, y | x in st'.halves && y in st'.halves && x != y && Owned(st', x) && Shares(st', x, y) ensures x in links'[y] {
      assert x != a && st'.halves[x] == st.halves[x];
      assert y != a ==> Shares(st, x, y);
    }
  }

  /** Half a has an array of its own: the one it owned, a new one, or none. */
  ghost predicate Takes<T>(st: Store<T>, st': Store<T>, a: Addr)
  {
    && a in st.halves && a in st'.halves && st'.halves == st.halves[a := st'.halves[a]] && Owned(st', a) && st.next <= st'.next
    && var was, now := st.halves[a].slice, st'.halves[a].slice;
      now.cap == 0 || now.arr >= st.next || (Owned(st, a) && now.arr == was.arr && now.cap == was.cap)
  }

  lemma TakesThen<T>(st: Store<T>, st1: Store<T>, st2: Store<T>, a: Addr)
    requires Takes(st, st1, a) && Takes(st1, st2, a)
    ensures Takes(st, st2, a)
  {
  }

  lemma TakenLinks<T>(st: Store<T>, st': Store<T>, links: Links, a: Addr)
    requires Sound(st) && Separated(st) && LinkOk(st, links) && Takes(st, st', a)
    ensures LinkOk(st', links[a := {}])
  {
    forall x, y | x in st'.halves && y in st'.halves && x != y && Owned(st', x) && Shares(st', x, y) ensures x in links[a := {}][y] {
      assert WellFormed(st, st.halves[x].slice) && WellFormed(st, st.halves[y].slice);
      assert Apart(st, x, y);
    }
  }

  lemma AdoptTakes<T>(st: Store<T>, a: Addr, extra: nat)
    requires Sound(st) && a in st.halves
    ensures Takes(st, Adopt(st, a, extra), a)
  {
    if !Owned(st, a) {
      AppendMemory(st, st.halves[a].slice.(len := 0, cap := 0), View(st, st.halves[a].slice), extra);
    }
  }

  lemma AppendTakes<T>(st: Store<T>, a: Addr, xs: seq<T>, extra: nat)
    requires Sound(st) && a in st.halves && Owned(st, a)
    ensures Takes(st, AppendOwned(st, a, xs, extra), a)
  {
    AppendMemory(st, st.halves[a].slice, xs, extra);
  }

  lemma ResetTakes<T>(st: Store<T>, a: Addr)
    requires Sound(st) && a in st.halves
    ensures Takes(st, ResetHalf(st, a), a)
  {
  }

  lemma AdoptAndAppendTakes(env: Env, st: Store<HeaderField>, a: Addr, xs: seq<HeaderField>)
    requires Sound(st) && a in st.halves
    ensures Takes(st, Adopted(env, st, a), a) && Takes(st, AdoptAndAppend(env, st, a, xs), a)
  {
    var extra := Extra<HeaderField>(env, st.halves[a].slice.(len := 0, cap := 0), st.halves[a].slice.len);
    AdoptSound(st, a, extra);
    AdoptTakes(st, a, extra);
    var st1 := Adopted(env, st, a);
    AppendTakes(st1, a, xs, Extra<HeaderField>(env, st1.halves[a].slice, |xs|));
    TakesThen(st, st1, AdoptAndAppend(env, st, a, xs), a);
  }

  lemma {:induction false} AppendEachTakes(env: Env, st: Store<PassOption>, a: Addr, opts: seq<PassOption>)
    requires Sound(st) && a in st.halves && Owned(st, a)
    ensures Takes(st, AppendEach(env, st, a, opts), a)
    decreases |opts|
  {
    if opts != [] {
      if opts[0].Some? {
        var st1 := Appended(env, st, a, [opts[0]]);
        AppendSound(st, a, [opts[0]], Extra<PassOption>(env, st.halves[a].slice, 1));
        AppendTakes(st, a, [opts[0]], Extra<PassOption>(env, st.halves[a].slice, 1));
        AppendEachTakes(env, st1, a, opts[1..]);
        TakesThen(st, st1, AppendEach(env, st, a, opts), a);
      } else {
        AppendEachTakes(env, st, a, opts[1..]);
      }
    }
  }

  lemma OptionsTake(env: Env, st: Store<PassOption>, a: Addr, opts: seq<PassOption>)
    requires Sound(st) && a in st.halves
    ensures Takes(st, AdoptAndAppendEach(env, st, a, opts), a)
  {
    var extra := Extra<PassOption>(env, st.halves[a].slice.(len := 0, cap := 0), st.halves[a].slice.len);
    AdoptSound(st, a, extra);
    AdoptTakes(st, a, extra);
    AppendEachTakes(env, Adopted(env, st, a), a, opts);
    TakesThen(st, Adopted(env, st, a), AdoptAndAppendEach(env, st, a, opts), a);
  }

  /** A slice of the application's memory, installed by reference. */
  lemma InstallLinks<T>(st: Store<T>, links: Links, a: Addr, sl: Slice)
    requires Sound(st) && LinkOk(st, links) && WellFormed(st, sl) && (sl.cap > 0 ==> sl.arr in st.callers)
    ensures LinkOk(Put(st, a, sl, None), links[a := {}])
  {
    PlacedLinks(st, Put(st, a, sl, None), links, a, {});
  }

  lemma CopyLinks<T>(st: Store<T>, links: Links, src: Addr, dst: Addr)
    requires Sound(st) && LinkOk(st, links) && src in links && (src == dst || dst !in links[src])
    ensures LinkOk(st.(halves := Copied(st.halves, src, dst)), links[dst := CopiedFrom(links, src)])
  {
    var st' := st.(halves := Copied(st.halves, src, dst));
    if src == dst {
      assert st'.halves == st.halves;
    } else {
      PlacedLinks(st, st', links, dst, CopiedFrom(links, src));
    }
  }

  lemma ShareLinks<T>(st: Store<T>, links: Links, a: Addr, b: Addr)
    requires Sound(st) && LinkOk(st, links) && a in links && b in links
    ensures LinkOk(Put(st, a, st.halves[b].slice, None), links[a := CopiedFrom(links, b)])
  {
    PlacedLinks(st, Put(st, a, st.halves[b].slice, None), links, a, CopiedFrom(links, b));
  }

  lemma MdLinks(env: Env, st: Store<HeaderField>, links: Links, op: Op)
    requires Sound(st) && Separated(st) && LinkOk(st, links) && MdEnabled(st, op) && Fine(links, op)
    ensures LinkOk(ExecMd(env, st, op), TrackMd(links, op))
  {
    match op
    case New(a) => InstallLinks(st, links, a, NIL);
    case Copy(src, dst) => CopyLinks(st, links, src, dst);
    case SetMetadata(a, sl, _) => InstallLinks(st, links, a, sl);
    case ShareMetadata(a, b) => ShareLinks(st, links, a, b);
    case AppendField(a, f) => AdoptAndAppendTakes(env, st, a, [f]); TakenLinks(st, ExecMd(env, st, op), links, a);
    case AppendHeader(a, key, value) =>
      AdoptAndAppendTakes(env, st, a, Valid(env, key, value));
      TakenLinks(st, ExecMd(env, st, op), links, a);
    case WithMetadata(a, sl, content) => WithMetadataLinks(env, st, links, op);
    case Reset(a) => ResetTakes(st, a); TakenLinks(st, ResetHalf(st, a), links, a);
    case _ =>
  }

  lemma WithMetadataLinks(env: Env, st: Store<HeaderField>, links: Links, op: Op)
    requires Sound(st) && Separated(st) && LinkOk(st, links) && op.WithMetadata? && MdEnabled(st, op)
    ensures LinkOk(ExecMd(env, st, op), links[op.a := {}])
  {
    if st.halves[op.a].slice.len == 0 && !Owned(st, op.a) {
      InstallLinks(st, links, op.a, op.sl);
    } else {
      AdoptAndAppendTakes(env, st, op.a, op.content);
      TakenLinks(st, ExecMd(env, st, op), links, op.a);
    }
  }

  lemma PassLinks(env: Env, st: Store<PassOption>, links: Links, op: Op)
    requires Sound(st) && Separated(st) && LinkOk(st, links) && Uses(st.halves.Keys, op) && Fine(links, op)
    ensures LinkOk(ExecPass(env, st, op), TrackPass(links, op))
  {
    match op
    case New(a) => InstallLinks(st, links, a, NIL);
    case Copy(src, dst) => CopyLinks(st, links, src, dst);
    case AppendPoseidonOptions(a, opts) => OptionsTake(env, st, a, opts); TakenLinks(st, ExecPass(env, st, op), links, a);
    case Reset(a) => ResetTakes(st, a); TakenLinks(st, ResetHalf(st, a), links, a);
    case _ =>
  }

  // ----- Whole runs

  lemma SliceKept(st: Store<HeaderField>, st': Store<HeaderField>, ops: seq<Op>)
    requires Sound(st) && CallersKept(st, st') && SlicesOk(st, ops)
    ensures SlicesOk(st', ops)
  {
    forall i | 0 <= i < |ops| ensures SliceOk(st', ops[i]) {
      assert SliceOk(st, ops[i]);
    }
  }

  ghost predicate Tracked(w: World, h: History)
  {
    LinkOk(w.md, h.md) && LinkOk(w.pass, h.pass)
  }

  lemma UsableIsAllowed(w: World, h: History, op: Op)
    requires SoundWorld(w) && Tracked(w, h) && Usable(h, op) && SliceOk(w.md, op)
    ensures MdEnabled(w.md, op) && Allowed(w, op)
  {
    FineIsAllowed(w.md, h.md, op);
    FineIsAllowed(w.pass, h.pass, op);
  }

  lemma TrackedKept(env: Env, w: World, m: Model, h: History, op: Op)
    requires SoundWorld(w) && RefinesWorld(w, m) && Tracked(w, h) && Usable(h, op) && MdEnabled(w.md, op)
    ensures Tracked(Exec(env, w, op), Track(h, op))
  {
    MdLinks(env, w.md, h.md, op);
    PassLinks(env, w.pass, h.pass, op);
  }

  /** The code can execute the operations, and wherever that leads, every
      configuration shows what private sequences would hold. */
  ghost predicate RunsAs(env: Env, w: World, m: Model, ops: seq<Op>)
    requires SoundWorld(w) && SoundModel(m)
  {
    exists w' :: AnyRun(env, w, ops, w') && SpecRun(env, m, ops).Some? && RefinesWorld(w', SpecRun(env, m, ops).value)
  }

  lemma {:induction false} RunsAsAfter(env: Env, w: World, m: Model, ops: seq<Op>)
    requires SoundWorld(w) && SoundModel(m) && ops != [] && MdEnabled(w.md, ops[0]) && Uses(m.md.Keys, ops[0])
    requires SoundWorld(Exec(env, w, ops[0])) && RunsAs(env, Exec(env, w, ops[0]), SpecExec(env, m, ops[0]), ops[1..])
    ensures RunsAs(env, w, m, ops)
  {
    var w', m1 :| m1 == SpecExec(env, m, ops[0]) && AnyRun(env, Exec(env, w, ops[0]), ops[1..], w') &&
      SpecRun(env, m1, ops[1..]).Some? && RefinesWorld(w', SpecRun(env, m1, ops[1..]).value);
    assert AnyRun(env, w, ops, w');
    assert SpecRun(env, m, ops) == SpecRun(env, m1, ops[1..]);
  }

  /** One documented operation keeps the slices of the rest usable. */
  lemma DocumentedSlices(env: Env, w: World, ops: seq<Op>)
    requires SoundWorld(w) && ops != [] && MdEnabled(w.md, ops[0]) && SlicesOk(w.md, ops)
    ensures SlicesOk(Exec(env, w, ops[0]).md, ops[1..])
  {
    MdKeepsCallers(env, w.md, ops[0]);
    SliceKept(w.md, ExecMd(env, w.md, ops[0]), ops[1..]);
  }

  lemma DocumentedStep(env: Env, w: World, m: Model, h: History, op: Op)
    requires SoundWorld(w) && RefinesWorld(w, m) && Tracked(w, h) && Usable(h, op) && SliceOk(w.md, op)
    ensures MdEnabled(w.md, op) && Uses(m.md.Keys, op)
    ensures var w1 := Exec(env, w, op); SoundWorld(w1) && RefinesWorld(w1, SpecExec(env, m, op)) && Tracked(w1, Track(h, op))
  {
    UsableIsAllowed(w, h, op);
    TrackedKept(env, w, m, h, op);
    ExecRefines(env, w, m, op);
  }

  lemma {:induction false} DocumentedRunsAs(env: Env, w: World, m: Model, h: History, ops: seq<Op>)
    requires SoundWorld(w) && RefinesWorld(w, m) && Tracked(w, h) && Documented(h, ops) && SlicesOk(w.md, ops)
    ensures RunsAs(env, w, m, ops)
    decreases |ops|
  {
    if ops == [] {
      assert AnyRun(env, w, ops, w) && SpecRun(env, m, ops) == Some(m);
    } else {
      assert SliceOk(w.md, ops[0]);
      DocumentedStep(env, w, m, h, ops[0]);
      DocumentedSlices(env, w, ops);
      DocumentedRunsAs(env, Exec(env, w, ops[0]), SpecExec(env, m, ops[0]), Track(h, ops[0]), ops[1..]);
      RunsAsAfter(env, w, m, ops);
    }
  }

  /** No configuration exists yet; the application's arrays do. */
  ghost predicate NoConfigs(w: World)
  {
    Sound(w.md) && Sound(w.pass) && w.md.halves == map[] && w.pass.halves == map[] && w.codec == map[] && w.err == map[]
  }

  /** CallConfig refines value semantics: from a program without configurations,
      every documented sequence of operations on any number of them shows what a
      model shows in which nothing is shared. */
  lemma DocumentedUseRefines(env: Env, w: World, ops: seq<Op>)
    requires NoConfigs(w) && Documented(NOTHING, ops) && SlicesOk(w.md, ops)
    ensures RunsAs(env, w, Model(map[], map[], map[], map[]), ops)
  {
    DocumentedRunsAs(env, w, Model(map[], map[], map[], map[]), NOTHING, ops);
  }

  /** The plain form: copies only to variables not in use yet, and no Reset. */
  predicate PlainUse(known: set<Addr>, ops: seq<Op>)
    decreases |ops|
  {
    ops == [] ||
    (Uses(known, ops[0]) && !ops[0].Reset? && (ops[0].Copy? ==> ops[0].dst !in known) && PlainUse(KeysAfter(known, ops[0]), ops[1..]))
  }

  predicate Closed(links: Links)
  {
    forall b :: b in links ==> links[b] <= links.Keys
  }

  lemma TrackKeys(links: Links, op: Op)
    requires Uses(links.Keys, op) && Closed(links)
    ensures TrackMd(links, op).Keys == KeysAfter(links.Keys, op) && Closed(TrackMd(links, op))
    ensures TrackPass(links, op).Keys == KeysAfter(links.Keys, op) && Closed(TrackPass(links, op))
  {
  }

  /** Such a sequence is documented use, whatever else it does. */
  lemma {:induction false} PlainUseIsDocumented(h: History, ops: seq<Op>)
    requires h.md.Keys == h.pass.Keys && Closed(h.md) && Closed(h.pass) && PlainUse(h.md.Keys, ops)
    ensures Documented(h, ops)
    decreases |ops|
  {
    if ops != [] {
      TrackKeys(h.md, ops[0]);
      TrackKeys(h.pass, ops[0]);
      PlainUseIsDocumented(Track(h, ops[0]), ops[1..]);
    }
  }
}
