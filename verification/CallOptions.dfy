/** Call options, the procedure that resolves them, and the two faces that use
it: a per-call configuration, and a configuration returned by value. */
module CallOptions {
  import opened Errors
  import opened Headers
  import opened GoSlices
  import opened CallConfig

  /** The built-in options; WithMetadata carries a slice of the application's. */
  datatype CallOption =
    | MetadataOption(sl: Slice, content: seq<HeaderField>)
    | HeaderOption(key: string, value: Bytes)
    | ForwardOption(opts: seq<PassOption>)
    | CodecOption(c: Option<nat>)

  /** What applying an option does to the configuration at `a`. */
  function ToOp(a: Addr, o: CallOption): Op
  {
    match o
    case MetadataOption(sl, content) => WithMetadata(a, sl, content)
    case HeaderOption(key, value) => AppendHeader(a, key, value)
    case ForwardOption(opts) => AppendPoseidonOptions(a, opts)
    case CodecOption(c) => SetCodec(a, c)
  }

  /** Every slice in a list of options is the application's. */
  predicate OptionsOk(st: Store<HeaderField>, opts: seq<Option<CallOption>>)
  {
    forall i :: 0 <= i < |opts| && opts[i].Some? && opts[i].value.MetadataOption? ==>
      OwnSlice(st, opts[i].value.sl, opts[i].value.content)
  }

  lemma OwnSliceKept(st: Store<HeaderField>, st': Store<HeaderField>, sl: Slice, content: seq<HeaderField>)
    requires Sound(st) && OwnSlice(st, sl, content) && CallersKept(st, st')
    ensures OwnSlice(st', sl, content)
  {
  }

  lemma OptionsKept(st: Store<HeaderField>, st': Store<HeaderField>, opts: seq<Option<CallOption>>)
    requires Sound(st) && OptionsOk(st, opts) && CallersKept(st, st')
    ensures OptionsOk(st', opts)
  {
    forall i | 0 <= i < |opts| && opts[i].Some? && opts[i].value.MetadataOption?
      ensures OwnSlice(st', opts[i].value.sl, opts[i].value.content)
    {
      OwnSliceKept(st, st', opts[i].value.sl, opts[i].value.content);
    }
  }

  // ----- One configuration on its own

  datatype Private = Private(md: seq<HeaderField>, pass: seq<PassOption>, codec: Option<nat>, err: Option<Error>)

  const EMPTY := Private([], [], None, None)

  function PrivateOf(m: Model, a: Addr): Private
    requires SoundModel(m) && a in m.md
  {
    Private(m.md[a], m.pass[a], LastOf(m.codecs[a]), FirstOf(m.errs[a]))
  }

  /** An option applied to a configuration that shares nothing. */
  function ApplyOne(env: Env, p: Private, o: CallOption): Private
  {
    match o
    case MetadataOption(_, content) => p.(md := p.md + content)
    case HeaderOption(key, value) =>
      p.(md := p.md + Valid(env, key, value),
         err := if p.err.Some? || env.validate(key, value).Accepted? then p.err
                else Some(env.validate(key, value).err))
    case ForwardOption(opts) => p.(pass := p.pass + NonNil(opts))
    case CodecOption(c) => p.(codec := c)
  }

  function ApplyList(env: Env, p: Private, opts: seq<Option<CallOption>>): Private
    decreases |opts|
  {
    if opts == [] then p
    else ApplyList(env, if opts[0].None? then p else ApplyOne(env, p, opts[0].value), opts[1..])
  }

  // ----- The configurations in memory

  /** The class of all configurations in one memory. The methods are those of
      CallConfig, each on the configuration at an address. */
  class Configs {
    var md: Store<HeaderField>
    var pass: Store<PassOption>
    var codec: map<Addr, Option<nat>>
    var err: map<Addr, Option<Error>>

    function W(): World
      reads this
    {
      World(md, pass, codec, err)
    }

    constructor (w: World)
      ensures W() == w
    {
      md, pass, codec, err := w.md, w.pass, w.codec, w.err;
    }

    /** `var cfg CallConfig`: the zero value at a new address. */
    method New(env: Env, a: Addr)
      requires SoundWorld(W()) && MdEnabled(md, Op.New(a))
      modifies this
      ensures W() == Exec(env, old(W()), Op.New(a)) && SoundWorld(W())
    {
      ExecKeepsCallers(env, W(), Op.New(a));
      md, pass := Put(md, a, NIL, None), Put(pass, a, NIL, None);
      codec, err := codec[a := None], err[a := None];
    }

    /** A plain assignment of one configuration to another: every field is copied. */
    method Copy(env: Env, src: Addr, dst: Addr)
      requires SoundWorld(W()) && MdEnabled(md, Op.Copy(src, dst))
      modifies this
      ensures W() == Exec(env, old(W()), Op.Copy(src, dst)) && SoundWorld(W())
    {
      ExecKeepsCallers(env, W(), Op.Copy(src, dst));
      md := md.(halves := md.halves[dst := md.halves[src]]);
      pass := pass.(halves := pass.halves[dst := pass.halves[src]]);
      codec := codec[dst := codec[src]];
      err := err[dst := err[src]];
    }

    method SetMetadata(env: Env, a: Addr, sl: Slice, ghost content: seq<HeaderField>)
      requires SoundWorld(W()) && MdEnabled(md, Op.SetMetadata(a, sl, content))
      modifies this`md
      ensures W() == Exec(env, old(W()), Op.SetMetadata(a, sl, content)) && SoundWorld(W())
    {
      ExecKeepsCallers(env, W(), Op.SetMetadata(a, sl, content));
      md := md.(halves := md.halves[a := Half(sl, None)]);
    }

    /** adopt: copy into memory of one's own, unless it is that already. */
    method AdoptMetadata(env: Env, a: Addr)
      requires Sound(md) && a in md.halves
      modifies this`md
      ensures md == Adopted(env, old(md), a) && Sound(md) && a in md.halves && Owned(md, a)
    {
      var sl := md.halves[a].slice;
      var empty := sl.(len := 0, cap := 0);
      AdoptSound(md, a, Extra<HeaderField>(env, empty, sl.len));
      if md.halves[a].owner == Some(a) {
        return;
      }
      var st, sl1 := GoAppend(md, empty, View(md, sl), Extra<HeaderField>(env, empty, sl.len));
      md := st.(halves := st.halves[a := Half(sl1, Some(a))]);
    }

    /** Append to metadata that has been adopted. */
    method AppendFields(env: Env, a: Addr, xs: seq<HeaderField>)
      requires Sound(md) && a in md.halves && Owned(md, a)
      modifies this`md
      ensures md == Appended(env, old(md), a, xs)
    {
      var sl := md.halves[a].slice;
      var st, sl1 := GoAppend(md, sl, xs, Extra<HeaderField>(env, sl, |xs|));
      md := st.(halves := st.halves[a := Half(sl1, st.halves[a].owner)]);
    }

    method AdoptAndAppendFields(env: Env, a: Addr, xs: seq<HeaderField>)
      requires Sound(md) && a in md.halves
      modifies this`md
      ensures md == AdoptAndAppend(env, old(md), a, xs)
    {
      AdoptMetadata(env, a);
      AppendFields(env, a, xs);
    }

    method AppendField(env: Env, a: Addr, f: HeaderField)
      requires SoundWorld(W()) && a in md.halves
      modifies this`md
      ensures W() == Exec(env, old(W()), Op.AppendField(a, f)) && SoundWorld(W())
    {
      ExecKeepsCallers(env, W(), Op.AppendField(a, f));
      AdoptAndAppendFields(env, a, [f]);
    }

    /** Fail latches the first failure. */
    method Fail(env: Env, a: Addr, e: Error)
      requires SoundWorld(W()) && a in md.halves
      modifies this`err
      ensures W() == Exec(env, old(W()), Op.Fail(a, e)) && SoundWorld(W())
    {
      ExecKeepsCallers(env, W(), Op.Fail(a, e));
      if err[a].None? {
        err := err[a := Some(e)];
      }
    }

    method AppendHeader(env: Env, a: Addr, key: string, value: Bytes)
      requires SoundWorld(W()) && a in md.halves
      modifies this`md, this`err
      ensures W() == Exec(env, old(W()), Op.AppendHeader(a, key, value)) && SoundWorld(W())
    {
      ExecKeepsCallers(env, W(), Op.AppendHeader(a, key, value));
      var v := env.validate(key, value);
      if v.Accepted? {
        AdoptAndAppendFields(env, a, [v.field]);
        return;
      }
      // the metadata is adopted before the entry is found invalid
      AdoptMetadata(env, a);
      if err[a].None? {
        err := err[a := Some(v.err)];
      }
    }

    /** metadataOption.Apply: install by reference when there is nothing to keep. */
    method ApplyMetadata(env: Env, a: Addr, sl: Slice, ghost content: seq<HeaderField>)
      requires SoundWorld(W()) && MdEnabled(md, WithMetadata(a, sl, content))
      modifies this`md
      ensures W() == Exec(env, old(W()), WithMetadata(a, sl, content)) && SoundWorld(W())
    {
      ExecKeepsCallers(env, W(), WithMetadata(a, sl, content));
      if md.halves[a].slice.len == 0 && md.halves[a].owner != Some(a) {
        md := md.(halves := md.halves[a := Half(sl, None)]);
        return;
      }
      AdoptSound(md, a, Extra<HeaderField>(env, md.halves[a].slice.(len := 0, cap := 0), md.halves[a].slice.len));
      AdoptMetadata(env, a);
      OwnSliceKept(old(md), md, sl, content);
      AppendFields(env, a, View(md, sl));
    }

    method AdoptOptions(env: Env, a: Addr)
      requires Sound(pass) && a in pass.halves
      modifies this`pass
      ensures pass == Adopted(env, old(pass), a) && Sound(pass) && a in pass.halves && Owned(pass, a)
    {
      var sl := pass.halves[a].slice;
      var empty := sl.(len := 0, cap := 0);
      AdoptSound(pass, a, Extra<PassOption>(env, empty, sl.len));
      if pass.halves[a].owner != Some(a) {
        var st, sl1 := GoAppend(pass, empty, View(pass, sl), Extra<PassOption>(env, empty, sl.len));
        pass := st.(halves := st.halves[a := Half(sl1, Some(a))]);
      }
    }

    method AppendOption(env: Env, a: Addr, o: PassOption)
      requires Sound(pass) && a in pass.halves && Owned(pass, a)
      modifies this`pass
      ensures pass == Appended(env, old(pass), a, [o]) && Sound(pass) && a in pass.halves && Owned(pass, a)
    {
      var sl := pass.halves[a].slice;
      AppendSound(pass, a, [o], Extra<PassOption>(env, sl, 1));
      var st, sl1 := GoAppend(pass, sl, [o], Extra<PassOption>(env, sl, 1));
      pass := st.(halves := st.halves[a := Half(sl1, st.halves[a].owner)]);
    }

    /** AppendPoseidonOptions: adopt once, then append every option that is not nil. */
    method AppendPoseidonOptions(env: Env, a: Addr, opts: seq<PassOption>)
      requires SoundWorld(W()) && a in md.halves
      modifies this`pass
      ensures W() == Exec(env, old(W()), Op.AppendPoseidonOptions(a, opts)) && SoundWorld(W())
    {
      ExecKeepsCallers(env, W(), Op.AppendPoseidonOptions(a, opts));
      AdoptAndAppendOptions(env, a, opts);
    }

    method AdoptAndAppendOptions(env: Env, a: Addr, opts: seq<PassOption>)
      requires Sound(pass) && a in pass.halves
      modifies this`pass
      ensures pass == AdoptAndAppendEach(env, old(pass), a, opts)
    {
      AdoptOptions(env, a);
      AppendOptions(env, a, opts);
    }

    method AppendOptions(env: Env, a: Addr, opts: seq<PassOption>)
      requires Sound(pass) && a in pass.halves && Owned(pass, a)
      modifies this`pass
      ensures pass == AppendEach(env, old(pass), a, opts)
    {
      for i := 0 to |opts|
        invariant Sound(pass) && a in pass.halves && Owned(pass, a)
        invariant AppendEach(env, old(pass), a, opts) == AppendEach(env, pass, a, opts[i..])
      {
        assert opts[i..][1..] == opts[i + 1..];
        if opts[i].Some? {
          AppendOption(env, a, opts[i]);
        }
      }
    }

    method SetCodec(env: Env, a: Addr, c: Option<nat>)
      requires SoundWorld(W()) && a in md.halves
      modifies this`codec
      ensures W() == Exec(env, old(W()), Op.SetCodec(a, c)) && SoundWorld(W())
    {
      ExecKeepsCallers(env, W(), Op.SetCodec(a, c));
      codec := codec[a := c];
    }

    /** Reset: clear and keep what is owned, drop what is borrowed. */
    method Reset(env: Env, a: Addr)
      requires SoundWorld(W()) && a in md.halves
      modifies this
      ensures W() == Exec(env, old(W()), Op.Reset(a)) && SoundWorld(W())
    {
      ExecKeepsCallers(env, W(), Op.Reset(a));
      var sl := md.halves[a].slice;
      if md.halves[a].owner == Some(a) {
        var st := GoClear(md, sl);
        md := st.(halves := st.halves[a := Half(sl.(len := 0), Some(a))]);
      } else {
        md := md.(halves := md.halves[a := Half(NIL, Some(a))]);
      }
      sl := pass.halves[a].slice;
      if pass.halves[a].owner == Some(a) {
        var st := GoClear(pass, sl);
        pass := st.(halves := st.halves[a := Half(sl.(len := 0), Some(a))]);
      } else {
        pass := pass.(halves := pass.halves[a := Half(NIL, Some(a))]);
      }
      codec, err := codec[a := None], err[a := None];
    }

    /** The option's own Apply. */
    method ApplyOption(env: Env, a: Addr, o: CallOption)
      requires SoundWorld(W()) && MdEnabled(md, ToOp(a, o))
      modifies this
      ensures W() == Exec(env, old(W()), ToOp(a, o)) && SoundWorld(W())
    {
      match o {
        case MetadataOption(sl, content) => ApplyMetadata(env, a, sl, content);
        case HeaderOption(key, value) => AppendHeader(env, a, key, value);
        case ForwardOption(opts) => AppendPoseidonOptions(env, a, opts);
        case CodecOption(c) => SetCodec(env, a, c);
      }
    }

    /** Apply: in order, skipping nil options. */
    method Apply(env: Env, a: Addr, opts: seq<Option<CallOption>>)
      requires SoundWorld(W()) && a in md.halves && OptionsOk(md, opts)
      modifies this
      ensures W() == ApplyAll(env, old(W()), a, opts)
    {
      for i := 0 to |opts|
        invariant SoundWorld(W()) && a in md.halves && OptionsOk(md, opts[i..])
        invariant ApplyAll(env, old(W()), a, opts) == ApplyAll(env, W(), a, opts[i..])
      {
        ApplyFrom(env, W(), a, opts, i);
        ApplyEntry(env, a, opts[i]);
      }
    }

    method ApplyEntry(env: Env, a: Addr, o: Option<CallOption>)
      requires SoundWorld(W()) && a in md.halves && OptionOk(md, o)
      modifies this
      ensures W() == ApplyNth(env, old(W()), a, o)
    {
      if o.Some? {
        OptionKeeps(env, W(), a, o.value);
        ApplyOption(env, a, o.value);
      }
    }

    /** resolve: the client's defaults first, then the call's own options. */
    method Resolve(env: Env, a: Addr, defaults: seq<Option<CallOption>>, opts: seq<Option<CallOption>>) returns (e: Option<Error>)
      requires SoundWorld(W()) && a !in md.halves && OptionsOk(md, defaults) && OptionsOk(md, opts)
      modifies this
      ensures W() == Resolved(env, old(W()), a, defaults, opts)
      ensures a in err && e == err[a]
    {
      ExecKeepsCallers(env, W(), Op.New(a));
      New(env, a);
      OptionsKept(old(md), md, defaults);
      Apply(env, a, defaults);
      OptionsKept(old(md), md, opts);
      Apply(env, a, opts);
      e := err[a];
    }

    /** NewCallConfig and a later Apply: the defaults are applied to a local, the
        local is returned by value into `ret`, and the call's options go there. */
    method NewCallConfigThenApply(env: Env, local: Addr, ret: Addr, defaults: seq<Option<CallOption>>, opts: seq<Option<CallOption>>)
      requires SoundWorld(W()) && local !in md.halves && OptionsOk(md, defaults) && OptionsOk(md, opts)
      modifies this
      ensures W() == Returned(env, old(W()), local, ret, defaults, opts)
    {
      ExecKeepsCallers(env, W(), Op.New(local));
      New(env, local);
      OptionsKept(old(md), md, defaults);
      Apply(env, local, defaults);
      ExecKeepsCallers(env, W(), Op.Copy(local, ret));
      Copy(env, local, ret);
      OptionsKept(old(md), md, opts);
      Apply(env, ret, opts);
    }
  }

  /** The slice an option carries, if it carries one, is the application's. */
  predicate OptionOk(st: Store<HeaderField>, o: Option<CallOption>)
  {
    o.Some? && o.value.MetadataOption? ==> OwnSlice(st, o.value.sl, o.value.content)
  }

  lemma OptionKeeps(env: Env, w: World, a: Addr, o: CallOption)
    requires SoundWorld(w) && a in w.md.halves && OptionOk(w.md, Some(o))
    ensures MdEnabled(w.md, ToOp(a, o))
    ensures var w' := Exec(env, w, ToOp(a, o));
      SoundWorld(w') && w'.md.halves.Keys == w.md.halves.Keys && CallersKept(w.md, w'.md)
  {
    MdKeepsCallers(env, w.md, ToOp(a, o));
    PassKeepsCallers(env, w.pass, ToOp(a, o));
    ScalarKeys(env, w, ToOp(a, o));
  }

  /** One option, or none when the entry is nil. */
  function ApplyNth(env: Env, w: World, a: Addr, o: Option<CallOption>): (w': World)
    requires SoundWorld(w) && a in w.md.halves && OptionOk(w.md, o)
    ensures SoundWorld(w') && w'.md.halves.Keys == w.md.halves.Keys && CallersKept(w.md, w'.md)
  {
    if o.None? then w
    else
      OptionKeeps(env, w, a, o.value);
      Exec(env, w, ToOp(a, o.value))
  }

  /** One option leaves the rest of the list applicable. */
  lemma RestOk(env: Env, w: World, a: Addr, opts: seq<Option<CallOption>>)
    requires SoundWorld(w) && a in w.md.halves && opts != [] && OptionsOk(w.md, opts)
    ensures OptionOk(w.md, opts[0]) && OptionsOk(ApplyNth(env, w, a, opts[0]).md, opts[1..])
  {
    OptionsKept(w.md, ApplyNth(env, w, a, opts[0]).md, opts);
  }

  /** The world after a list of options has been applied at `a`, in order. */
  function ApplyAll(env: Env, w: World, a: Addr, opts: seq<Option<CallOption>>): (w': World)
    requires SoundWorld(w) && a in w.md.halves && OptionsOk(w.md, opts)
    ensures SoundWorld(w') && w'.md.halves.Keys == w.md.halves.Keys && CallersKept(w.md, w'.md)
    decreases |opts|
  {
    if opts == [] then w
    else
      RestOk(env, w, a, opts);
      ApplyAll(env, ApplyNth(env, w, a, opts[0]), a, opts[1..])
  }

  lemma ApplyFrom(env: Env, w: World, a: Addr, opts: seq<Option<CallOption>>, i: nat)
    requires SoundWorld(w) && a in w.md.halves && i < |opts| && OptionsOk(w.md, opts[i..])
    ensures OptionOk(w.md, opts[i]) && OptionsOk(ApplyNth(env, w, a, opts[i]).md, opts[i + 1..])
    ensures ApplyAll(env, w, a, opts[i..]) == ApplyAll(env, ApplyNth(env, w, a, opts[i]), a, opts[i + 1..])
  {
    RestOk(env, w, a, opts[i..]);
    assert opts[i..][1..] == opts[i + 1..];
  }

  /** The per-call face: a zero configuration, the defaults, the options. */
  function Resolved(env: Env, w: World, a: Addr, defaults: seq<Option<CallOption>>, opts: seq<Option<CallOption>>): (w': World)
    requires SoundWorld(w) && a !in w.md.halves && OptionsOk(w.md, defaults) && OptionsOk(w.md, opts)
    ensures SoundWorld(w') && a in w'.md.halves
  {
    ExecKeepsCallers(env, w, Op.New(a));
    var w1 := Exec(env, w, Op.New(a));
    OptionsKept(w.md, w1.md, defaults);
    var w2 := ApplyAll(env, w1, a, defaults);
    OptionsKept(w.md, w1.md, opts);
    OptionsKept(w1.md, w2.md, opts);
    ApplyAll(env, w2, a, opts)
  }

  /** The caller face: defaults on a local, a value copy, options on the copy. */
  function Returned(env: Env, w: World, local: Addr, ret: Addr, defaults: seq<Option<CallOption>>, opts: seq<Option<CallOption>>): (w': World)
    requires SoundWorld(w) && local !in w.md.halves && OptionsOk(w.md, defaults) && OptionsOk(w.md, opts)
    ensures SoundWorld(w') && ret in w'.md.halves
  {
    ExecKeepsCallers(env, w, Op.New(local));
    var w1 := Exec(env, w, Op.New(local));
    OptionsKept(w.md, w1.md, defaults);
    var w2 := ApplyAll(env, w1, local, defaults);
    ExecKeepsCallers(env, w2, Op.Copy(local, ret));
    var w3 := Exec(env, w2, Op.Copy(local, ret));
    OptionsKept(w.md, w1.md, opts);
    OptionsKept(w1.md, w2.md, opts);
    OptionsKept(w2.md, w3.md, opts);
    ApplyAll(env, w3, ret, opts)
  }

  // ----- The two faces agree

  /** One option, applied where configurations hold private sequences. */
  function SpecNth(env: Env, m: Model, a: Addr, o: Option<CallOption>): (m': Model)
    requires SoundModel(m) && a in m.md
    ensures SoundModel(m') && a in m'.md
  {
    if o.None? then m else SpecExec(env, m, ToOp(a, o.value))
  }

  function SpecApply(env: Env, m: Model, a: Addr, opts: seq<Option<CallOption>>): (m': Model)
    requires SoundModel(m) && a in m.md
    ensures SoundModel(m') && a in m'.md
    decreases |opts|
  {
    if opts == [] then m else SpecApply(env, SpecNth(env, m, a, opts[0]), a, opts[1..])
  }

  lemma SpecOption(env: Env, m: Model, a: Addr, o: CallOption)
    requires SoundModel(m) && a in m.md
    ensures PrivateOf(SpecNth(env, m, a, Some(o)), a) == ApplyOne(env, PrivateOf(m, a), o)
  {
  }

  lemma {:induction false} SpecApplyIsApplyList(env: Env, m: Model, a: Addr, opts: seq<Option<CallOption>>)
    requires SoundModel(m) && a in m.md
    ensures PrivateOf(SpecApply(env, m, a, opts), a) == ApplyList(env, PrivateOf(m, a), opts)
    decreases |opts|
  {
    if opts != [] {
      if opts[0].Some? {
        SpecOption(env, m, a, opts[0].value);
      }
      SpecApplyIsApplyList(env, SpecNth(env, m, a, opts[0]), a, opts[1..]);
    }
  }

  lemma OptionAllowed(w: World, a: Addr, o: CallOption)
    requires SoundWorld(w) && a in w.md.halves && OptionOk(w.md, Some(o))
    ensures MdEnabled(w.md, ToOp(a, o)) && Allowed(w, ToOp(a, o))
  {
  }

  lemma OptionRefines(env: Env, w: World, m: Model, a: Addr, o: Option<CallOption>)
    requires SoundWorld(w) && RefinesWorld(w, m) && a in w.md.halves && OptionOk(w.md, o)
    ensures a in m.md && RefinesWorld(ApplyNth(env, w, a, o), SpecNth(env, m, a, o))
  {
    if o.Some? {
      OptionAllowed(w, a, o.value);
      ExecRefines(env, w, m, ToOp(a, o.value));
    }
  }

  /** A list of options applied in memory refines the list applied to private
      sequences; every other configuration shows what it showed. */
  lemma {:induction false} ApplyRefines(env: Env, w: World, m: Model, a: Addr, opts: seq<Option<CallOption>>)
    requires SoundWorld(w) && RefinesWorld(w, m) && a in w.md.halves && a in m.md && OptionsOk(w.md, opts)
    ensures RefinesWorld(ApplyAll(env, w, a, opts), SpecApply(env, m, a, opts))
    decreases |opts|
  {
    if opts != [] {
      RestOk(env, w, a, opts);
      OptionRefines(env, w, m, a, opts[0]);
      ApplyRefines(env, ApplyNth(env, w, a, opts[0]), SpecNth(env, m, a, opts[0]), a, opts[1..]);
    }
  }

  /** What the configuration at `a` shows. */
  function Shown(w: World, a: Addr): Private
    requires SoundWorld(w) && a in w.md.halves
  {
    Private(View(w.md, w.md.halves[a].slice), View(w.pass, w.pass.halves[a].slice), w.codec[a], w.err[a])
  }

  lemma ShownIsPrivate(w: World, m: Model, a: Addr)
    requires SoundWorld(w) && RefinesWorld(w, m) && a in w.md.halves
    ensures a in m.md && Shown(w, a) == PrivateOf(m, a)
  {
  }

  lemma ApplyShows(env: Env, w: World, m: Model, a: Addr, opts: seq<Option<CallOption>>)
    requires SoundWorld(w) && RefinesWorld(w, m) && a in w.md.halves && a in m.md && OptionsOk(w.md, opts)
    ensures Shown(ApplyAll(env, w, a, opts), a) == ApplyList(env, Shown(w, a), opts)
    ensures RefinesWorld(ApplyAll(env, w, a, opts), SpecApply(env, m, a, opts))
  {
    ApplyRefines(env, w, m, a, opts);
    SpecApplyIsApplyList(env, m, a, opts);
    ShownIsPrivate(w, m, a);
    ShownIsPrivate(ApplyAll(env, w, a, opts), SpecApply(env, m, a, opts), a);
  }

  lemma NewShows(env: Env, w: World, m: Model, a: Addr)
    requires SoundWorld(w) && RefinesWorld(w, m) && a !in w.md.halves
    ensures a !in m.md && RefinesWorld(Exec(env, w, Op.New(a)), SpecExec(env, m, Op.New(a)))
    ensures SoundWorld(Exec(env, w, Op.New(a))) && a in Exec(env, w, Op.New(a)).md.halves
    ensures Shown(Exec(env, w, Op.New(a)), a) == EMPTY
  {
    ExecRefines(env, w, m, Op.New(a));
  }

  // A configuration is named as owner by nobody but itself and its copies.

  predicate OwnOwner<T>(st: Store<T>, a: Addr)
  {
    a in st.halves && (st.halves[a].owner == None || st.halves[a].owner == Some(a))
  }

  lemma {:induction false} AppendEachOwner(env: Env, st: Store<PassOption>, a: Addr, opts: seq<PassOption>)
    requires Sound(st) && a in st.halves && Owned(st, a)
    ensures OwnOwner(AppendEach(env, st, a, opts), a)
    decreases |opts|
  {
    if opts != [] {
      if opts[0].Some? {
        AppendSound(st, a, [opts[0]], Extra<PassOption>(env, st.halves[a].slice, 1));
        AppendEachOwner(env, Appended(env, st, a, [opts[0]]), a, opts[1..]);
      } else {
        AppendEachOwner(env, st, a, opts[1..]);
      }
    }
  }

  lemma AdoptOwner(env: Env, st: Store<HeaderField>, a: Addr, xs: seq<HeaderField>)
    requires Sound(st) && a in st.halves
    ensures OwnOwner(Adopted(env, st, a), a) && OwnOwner(AdoptAndAppend(env, st, a, xs), a)
  {
    AdoptSound(st, a, Extra<HeaderField>(env, st.halves[a].slice.(len := 0, cap := 0), st.halves[a].slice.len));
    var st1 := Adopted(env, st, a);
    AppendSound(st1, a, xs, Extra<HeaderField>(env, st1.halves[a].slice, |xs|));
  }

  lemma MdOwner(env: Env, st: Store<HeaderField>, a: Addr, o: CallOption)
    requires Sound(st) && OwnOwner(st, a) && MdEnabled(st, ToOp(a, o))
    ensures OwnOwner(ExecMd(env, st, ToOp(a, o)), a)
  {
    match o
    case MetadataOption(_, content) => AdoptOwner(env, st, a, content);
    case HeaderOption(key, value) => AdoptOwner(env, st, a, Valid(env, key, value));
    case _ =>
  }

  lemma PassOwner(env: Env, st: Store<PassOption>, a: Addr, o: CallOption)
    requires Sound(st) && OwnOwner(st, a) && Uses(st.halves.Keys, ToOp(a, o))
    ensures OwnOwner(ExecPass(env, st, ToOp(a, o)), a)
  {
    if o.ForwardOption? {
      AdoptSound(st, a, Extra<PassOption>(env, st.halves[a].slice.(len := 0, cap := 0), st.halves[a].slice.len));
      AppendEachOwner(env, Adopted(env, st, a), a, o.opts);
    }
  }

  lemma NthOwner(env: Env, w: World, a: Addr, o: Option<CallOption>)
    requires SoundWorld(w) && a in w.md.halves && OptionOk(w.md, o) && OwnOwner(w.md, a) && OwnOwner(w.pass, a)
    ensures var w' := ApplyNth(env, w, a, o); OwnOwner(w'.md, a) && OwnOwner(w'.pass, a)
  {
    if o.Some? {
      OptionKeeps(env, w, a, o.value);
      MdOwner(env, w.md, a, o.value);
      PassOwner(env, w.pass, a, o.value);
    }
  }

  lemma {:induction false} ApplyOwner(env: Env, w: World, a: Addr, opts: seq<Option<CallOption>>)
    requires SoundWorld(w) && a in w.md.halves && OptionsOk(w.md, opts) && OwnOwner(w.md, a) && OwnOwner(w.pass, a)
    ensures var w' := ApplyAll(env, w, a, opts); OwnOwner(w'.md, a) && OwnOwner(w'.pass, a)
    decreases |opts|
  {
    if opts != [] {
      RestOk(env, w, a, opts);
      NthOwner(env, w, a, opts[0]);
      ApplyOwner(env, ApplyNth(env, w, a, opts[0]), a, opts[1..]);
    }
  }

  lemma CopyShows(env: Env, w: World, m: Model, src: Addr, dst: Addr)
    requires SoundWorld(w) && RefinesWorld(w, m) && src in w.md.halves && OwnOwner(w.md, src) && OwnOwner(w.pass, src)
    ensures src in m.md && RefinesWorld(Exec(env, w, Op.Copy(src, dst)), SpecExec(env, m, Op.Copy(src, dst)))
    ensures SoundWorld(Exec(env, w, Op.Copy(src, dst))) && dst in Exec(env, w, Op.Copy(src, dst)).md.halves
    ensures Shown(Exec(env, w, Op.Copy(src, dst)), dst) == Shown(w, src)
  {
    ExecRefines(env, w, m, Op.Copy(src, dst));
  }

  /** resolve shows the defaults and then the options, folded from nothing. */
  lemma ResolvedIsFold(env: Env, w: World, m: Model, a: Addr, defaults: seq<Option<CallOption>>, opts: seq<Option<CallOption>>)
    requires SoundWorld(w) && RefinesWorld(w, m) && a !in w.md.halves && OptionsOk(w.md, defaults) && OptionsOk(w.md, opts)
    ensures Shown(Resolved(env, w, a, defaults, opts), a) == ApplyList(env, ApplyList(env, EMPTY, defaults), opts)
  {
    NewShows(env, w, m, a);
    ExecKeepsCallers(env, w, Op.New(a));
    var w1, m1 := Exec(env, w, Op.New(a)), SpecExec(env, m, Op.New(a));
    OptionsKept(w.md, w1.md, defaults);
    OptionsKept(w.md, w1.md, opts);
    ApplyShows(env, w1, m1, a, defaults);
    var w2 := ApplyAll(env, w1, a, defaults);
    OptionsKept(w1.md, w2.md, opts);
    ApplyShows(env, w2, SpecApply(env, m1, a, defaults), a, opts);
  }

  /** So does a configuration returned by value that has the options applied
      afterwards, whether the runtime copies it to a new address or not. */
  lemma ReturnedIsFold(env: Env, w: World, m: Model, local: Addr, ret: Addr, defaults: seq<Option<CallOption>>, opts: seq<Option<CallOption>>)
    requires SoundWorld(w) && RefinesWorld(w, m) && local !in w.md.halves && OptionsOk(w.md, defaults) && OptionsOk(w.md, opts)
    ensures Shown(Returned(env, w, local, ret, defaults, opts), ret) == ApplyList(env, ApplyList(env, EMPTY, defaults), opts)
  {
    NewShows(env, w, m, local);
    ExecKeepsCallers(env, w, Op.New(local));
    var w1, m1 := Exec(env, w, Op.New(local)), SpecExec(env, m, Op.New(local));
    OptionsKept(w.md, w1.md, defaults);
    OptionsKept(w.md, w1.md, opts);
    ApplyShows(env, w1, m1, local, defaults);
    ApplyOwner(env, w1, local, defaults);
    var w2, m2 := ApplyAll(env, w1, local, defaults), SpecApply(env, m1, local, defaults);
    OptionsKept(w1.md, w2.md, opts);
    CopyShows(env, w2, m2, local, ret);
    ExecKeepsCallers(env, w2, Op.Copy(local, ret));
    var w3, m3 := Exec(env, w2, Op.Copy(local, ret)), SpecExec(env, m2, Op.Copy(local, ret));
    OptionsKept(w2.md, w3.md, opts);
    ApplyShows(env, w3, m3, ret, opts);
  }

  /** The two faces agree: equal metadata, forwarded options, codec and error. */
  lemma TwoFacesAgree(env: Env, w: World, m: Model, a: Addr, local: Addr, ret: Addr,
                      defaults: seq<Option<CallOption>>, opts: seq<Option<CallOption>>)
    requires SoundWorld(w) && RefinesWorld(w, m) && a !in w.md.halves && local !in w.md.halves
    requires OptionsOk(w.md, defaults) && OptionsOk(w.md, opts)
    ensures Shown(Resolved(env, w, a, defaults, opts), a) == Shown(Returned(env, w, local, ret, defaults, opts), ret)
  {
    ResolvedIsFold(env, w, m, a, defaults, opts);
    ReturnedIsFold(env, w, m, local, ret, defaults, opts);
  }

  // ----- What the fold is, field by field

  /** The metadata one option contributes; a refused header contributes none. */
  function FieldsOf(env: Env, o: Option<CallOption>): seq<HeaderField>
  {
    match o
    case Some(MetadataOption(_, content)) => content
    case Some(HeaderOption(key, value)) => Valid(env, key, value)
    case _ => []
  }

  /** The failure one option contributes. */
  function FailureOf(env: Env, o: Option<CallOption>): seq<Error>
  {
    match o
    case Some(HeaderOption(key, value)) =>
      if env.validate(key, value).Accepted? then [] else [env.validate(key, value).err]
    case _ => []
  }

  function ForwardedOf(o: Option<CallOption>): seq<PassOption>
  {
    if o.Some? && o.value.ForwardOption? then NonNil(o.value.opts) else []
  }

  function PicksOf(o: Option<CallOption>): seq<Option<nat>>
  {
    if o.Some? && o.value.CodecOption? then [o.value.c] else []
  }

  /** What the options of a list contribute, in order. */
  function Gather<T>(f: Option<CallOption> -> seq<T>, opts: seq<Option<CallOption>>): seq<T>
  {
    if opts == [] then [] else f(opts[0]) + Gather(f, opts[1..])
  }

  function AllFields(env: Env, opts: seq<Option<CallOption>>): seq<HeaderField>
  {
    Gather(o => FieldsOf(env, o), opts)
  }

  function AllFailures(env: Env, opts: seq<Option<CallOption>>): seq<Error>
  {
    Gather(o => FailureOf(env, o), opts)
  }

  /** The metadata is the in-order fold of the valid entries, failing ones skipped. */
  lemma {:induction false} FoldMetadata(env: Env, p: Private, opts: seq<Option<CallOption>>)
    ensures ApplyList(env, p, opts).md == p.md + AllFields(env, opts)
    decreases |opts|
  {
    if opts != [] {
      FoldMetadata(env, if opts[0].None? then p else ApplyOne(env, p, opts[0].value), opts[1..]);
      assert AllFields(env, opts) == FieldsOf(env, opts[0]) + AllFields(env, opts[1..]);
    }
  }

  /** The error is the first failure. */
  lemma {:induction false} FoldError(env: Env, p: Private, opts: seq<Option<CallOption>>)
    ensures ApplyList(env, p, opts).err ==
      if p.err.Some? || AllFailures(env, opts) == [] then p.err else Some(AllFailures(env, opts)[0])
    decreases |opts|
  {
    if opts != [] {
      FoldError(env, if opts[0].None? then p else ApplyOne(env, p, opts[0].value), opts[1..]);
      assert AllFailures(env, opts) == FailureOf(env, opts[0]) + AllFailures(env, opts[1..]);
    }
  }

  lemma Appended3<T>(a: seq<T>, b: seq<T>, c: seq<T>)
    ensures a + b + c == a + (b + c)
  {
  }

  /** The forwarded options keep their order, nil entries dropped. */
  lemma {:induction false} FoldForwarded(env: Env, p: Private, opts: seq<Option<CallOption>>)
    ensures ApplyList(env, p, opts).pass == p.pass + Gather(ForwardedOf, opts)
    decreases |opts|
  {
    if opts != [] {
      var q := if opts[0].None? then p else ApplyOne(env, p, opts[0].value);
      FoldForwarded(env, q, opts[1..]);
      assert q.pass == p.pass + ForwardedOf(opts[0]);
      Appended3(p.pass, ForwardedOf(opts[0]), Gather(ForwardedOf, opts[1..]));
    }
  }

  /** The last codec option wins. */
  lemma {:induction false} FoldCodec(env: Env, p: Private, opts: seq<Option<CallOption>>)
    ensures var picks := Gather(PicksOf, opts);
      ApplyList(env, p, opts).codec == if picks == [] then p.codec else picks[|picks| - 1]
    decreases |opts|
  {
    if opts != [] {
      FoldCodec(env, if opts[0].None? then p else ApplyOne(env, p, opts[0].value), opts[1..]);
    }
  }

  /** CodecFor: the call's codec if it has one, else the client's. */
  function CodecFor(client: nat, cfg: Private): nat
  {
    if cfg.codec.Some? then cfg.codec.value else client
  }

  /** The codec a call uses: the last one its own options name, else the last
      default, else the client's; an explicit nil means inherit. */
  lemma CodecForPrefersCall(env: Env, client: nat, defaults: seq<Option<CallOption>>, opts: seq<Option<CallOption>>)
    ensures var ds, ps := Gather(PicksOf, defaults), Gather(PicksOf, opts);
      var pick := if ps != [] then ps[|ps| - 1] else if ds != [] then ds[|ds| - 1] else None;
      CodecFor(client, ApplyList(env, ApplyList(env, EMPTY, defaults), opts)) == if pick.Some? then pick.value else client
  {
    FoldCodec(env, EMPTY, defaults);
    FoldCodec(env, ApplyList(env, EMPTY, defaults), opts);
  }
}
