/** One guarded Caller under concurrent calls: any number of threads, the shared
scratch of the Caller, and every interleaving. */
module CallerGuard {
  import opened Errors
  import opened Headers
  import opened VtCodec
  import opened UnaryCall

  type Tid = nat

  /** The generated methods: a unary call; a server-streaming call, whose request
      goes through the Caller's buffer; and the two shapes that only open a stream. */
  datatype Shape = UnaryRpc | ServerOpen | StreamOpen

  /** Where the codec panics during a call, if it does. */
  datatype Panic = Never | Marshalling | Unmarshalling

  /** How a generated method ends: it returns, or a panic passes through it. */
  datatype Ending<+O> = Returns(seen: Observation<O>) | Panics(sent: Option<Bytes>)

  /** Where a thread is in its generated method. Inside, it holds the guard. */
  datatype Pc<+O> =
    | Outside
    | Entered
    | Marshalled
    | Awaiting(sent: Bytes)
    | Leaving(ending: Ending<O>)
    | Refused
    | Left(ending: Ending<O>)

  /** The Caller: the guard's flag, the two buffers and the shared out message. */
  datatype State<O> = State(inUse: bool, buf: Bytes, resp: Bytes, out: O, pcs: map<Tid, Pc<O>>)

  /** One thread's call: its shape, its request, whether a stream opens, where the
      codec panics, and what such a panic leaves in the buffer and in the message. */
  datatype Work<!I, +O> = Work(shape: Shape, rpc: Rpc<I>, opens: Option<Error>, panic: Panic, torn: Bytes, wreck: O)

  /** `guarded` is true of the generated Caller; without the guard every call enters. */
  datatype Env<!I, !O> = Env(guarded: bool, req: Lib<I>, resp: Lib<O>, zero: O, work: Tid -> Work<I, O>)

  predicate Inside<O>(pc: Pc<O>)
  {
    pc.Entered? || pc.Marshalled? || pc.Awaiting? || pc.Leaving?
  }

  /** What a call does before it marshals, if it ends there. */
  function EarlyEnd<I, O>(w: Work<I, O>): Option<Ending<O>>
  {
    if w.rpc.cfgErr.Some? then Some(Returns(Observation(None, w.rpc.cfgErr, None)))
    else if w.shape != UnaryRpc && w.opens.Some? then Some(Returns(Observation(None, w.opens, None)))
    else if w.shape == StreamOpen then Some(Returns(Observation(None, None, None)))
    else if w.panic == Marshalling then Some(Panics(None))
    else None
  }

  /** The end of a unary call whose answer has arrived. */
  function Decoded<I, O>(env: Env<I, O>, w: Work<I, O>, before: O, sent: Bytes, raw: Bytes): Ending<O>
  {
    if w.panic == Unmarshalling then Panics(Some(sent)) else Returns(Received(env.resp, before, sent, raw))
  }

  /** The call on a Caller of its own. */
  function Alone<I, O>(env: Env<I, O>, t: Tid): Ending<O>
  {
    var w := env.work(t);
    if EarlyEnd(w).Some? then EarlyEnd(w).value
    else
      match Encode(env.req, w.rpc.input)
      case EncodeFails(e) => Returns(Observation(None, Some(NewCodecError(Some(e))), None))
      case Encoded(bytes) =>
        match w.rpc.invoke(bytes)
        case NoAnswer(e) => Returns(Observation(Some(bytes), Some(e), None))
        case Answer(raw) =>
          if w.shape == ServerOpen then Returns(Observation(Some(bytes), None, None))
          else Decoded(env, w, env.zero, bytes, raw)
  }

  /** A unary call without a panic is the one the sequential model describes. */
  lemma AloneIsFresh<I, O>(env: Env<I, O>, t: Tid)
    requires env.work(t).shape == UnaryRpc && env.work(t).panic == Never
    ensures Alone(env, t) == Returns(Fresh(env.req, env.resp, env.zero, env.work(t).rpc))
  {
  }

  /** The streaming shapes: a stream that is only opened sends nothing, and a
      server-streaming call sends the encoding of its own request once a stream is
      open; neither decodes. */
  lemma AloneOpens<I, O>(env: Env<I, O>, t: Tid)
    requires env.work(t).shape != UnaryRpc
    ensures var (w, a) := (env.work(t), Alone(env, t));
      && (w.rpc.cfgErr.Some? ==> a == Returns(Observation(None, w.rpc.cfgErr, None)))
      && (w.rpc.cfgErr.None? && w.opens.Some? ==> a == Returns(Observation(None, w.opens, None)))
      && (w.rpc.cfgErr.None? && w.opens.None? && w.shape == StreamOpen ==> a == Returns(Observation(None, None, None)))
      && (a.Returns? ==> a.seen.response.None? && (a.seen.sent.Some? ==> w.shape == ServerOpen && Encode(env.req, w.rpc.input) == Encoded(a.seen.sent.value)))
      && (a.Returns? && a.seen.err.None? && w.shape == ServerOpen ==> a.seen.sent.Some? && w.rpc.invoke(a.seen.sent.value).Answer?)
  {
  }

  function Move<O>(s: State<O>, t: Tid, pc: Pc<O>): State<O>
  {
    s.(pcs := s.pcs[t := pc])
  }

  /** One step of thread t. Every buffer access is to the shared Caller; Leave is
      deferred, so a panic goes through it as well. */
  function Step<I, O>(env: Env<I, O>, s: State<O>, t: Tid): State<O>
    requires t in s.pcs
  {
    var w := env.work(t);
    match s.pcs[t]
    case Outside =>
      // Enter: compare-and-swap
      if env.guarded && s.inUse then Move(s, t, Refused) else Move(s.(inUse := true), t, Entered)
    case Entered =>
      if EarlyEnd(w).Some? then Move(if EarlyEnd(w).value.Panics? then s.(buf := w.torn) else s, t, Leaving(EarlyEnd(w).value))
      else (match Encode(env.req, w.rpc.input)
            case EncodeFails(e) => Move(s.(buf := []), t, Leaving(Returns(Observation(None, Some(NewCodecError(Some(e))), None))))
            case Encoded(bytes) => Move(s.(buf := bytes), t, Marshalled))
    case Marshalled =>
      (match w.rpc.invoke(s.buf)
       case NoAnswer(e) => Move(s.(resp := []), t, Leaving(Returns(Observation(Some(s.buf), Some(e), None))))
       case Answer(raw) =>
         if w.shape == ServerOpen then Move(s, t, Leaving(Returns(Observation(Some(s.buf), None, None))))
         else Move(s.(resp := raw), t, Awaiting(s.buf)))
    case Awaiting(sent) =>
      var out := if w.panic == Unmarshalling then w.wreck else Decode(env.resp, s.out, s.resp).0;
      Move(s.(out := out), t, Leaving(Decoded(env, w, s.out, sent, s.resp)))
    case Leaving(ending) =>
      Move(s.(inUse := false), t, Left(ending))
    case Refused => s
    case Left(_) => s
  }

  predicate Initial<O>(s: State<O>)
  {
    !s.inUse && forall t :: t in s.pcs ==> s.pcs[t] == Outside
  }

  /** The states an interleaving goes through, last one last. */
  function Run<I, O>(env: Env<I, O>, s: State<O>, schedule: seq<Tid>): (s': State<O>)
    requires forall i :: 0 <= i < |schedule| ==> schedule[i] in s.pcs
    ensures s'.pcs.Keys == s.pcs.Keys
    decreases |schedule|
  {
    if schedule == [] then s
    else
      assert Step(env, s, schedule[0]).pcs.Keys == s.pcs.Keys;
      Run(env, Step(env, s, schedule[0]), schedule[1..])
  }

  // ----- The invariant

  /** What a thread's position says about its call and the shared buffers. */
  ghost predicate Progressed<I, O>(env: Env<I, O>, s: State<O>, t: Tid)
    requires t in s.pcs
  {
    var w := env.work(t);
    match s.pcs[t]
    case Marshalled => EarlyEnd(w).None? && Encode(env.req, w.rpc.input) == Encoded(s.buf)
    case Awaiting(sent) =>
      && EarlyEnd(w).None? && w.shape == UnaryRpc
      && Encode(env.req, w.rpc.input) == Encoded(sent) && w.rpc.invoke(sent) == Answer(s.resp)
    case Leaving(ending) => ending == Alone(env, t)
    case Left(ending) => ending == Alone(env, t)
    case _ => true
  }

  ghost predicate OneInside<O>(s: State<O>)
  {
    forall t, u :: t in s.pcs && u in s.pcs && Inside(s.pcs[t]) && Inside(s.pcs[u]) ==> t == u
  }

  ghost predicate GuardOk<O>(s: State<O>)
  {
    OneInside(s) && (s.inUse <==> exists u :: u in s.pcs && Inside(s.pcs[u]))
  }

  ghost predicate Inv<I, O>(env: Env<I, O>, s: State<O>)
  {
    && GuardOk(s)
    && forall t :: t in s.pcs ==> Progressed(env, s, t)
  }

  lemma OwnProgress<I, O(!new)>(env: Env<I, O>, s: State<O>, t: Tid)
    requires Forgets(env.resp) && t in s.pcs && Progressed(env, s, t)
    ensures Progressed(env, Step(env, s, t), t)
  {
    if s.pcs[t].Awaiting? {
      ReceivedForgets(env.resp, env.zero, s.out, s.pcs[t].sent, s.resp);
    }
  }

  /** A thread that is not inside depends on none of the shared fields. */
  lemma OthersProgress<I, O>(env: Env<I, O>, s: State<O>, t: Tid, u: Tid)
    requires t in s.pcs && u in s.pcs && t != u && Progressed(env, s, u)
    requires Inside(s.pcs[t]) ==> !Inside(s.pcs[u])
    ensures Progressed(env, Step(env, s, t), u)
  {
  }

  /** One thread has moved, and the flag followed it. */
  lemma GuardCarried<O>(s: State<O>, s': State<O>, t: Tid)
    requires GuardOk(s) && t in s.pcs && t in s'.pcs && s'.pcs == s.pcs[t := s'.pcs[t]]
    requires Inside(s.pcs[t]) ==> (s'.inUse <==> Inside(s'.pcs[t]))
    requires !Inside(s.pcs[t]) && Inside(s'.pcs[t]) ==> !s.inUse && s'.inUse
    requires !Inside(s.pcs[t]) && !Inside(s'.pcs[t]) ==> s'.inUse == s.inUse
    ensures GuardOk(s')
  {
    if Inside(s'.pcs[t]) {
      assert s'.inUse;
    } else if !Inside(s.pcs[t]) && s.inUse {
      var u :| u in s.pcs && Inside(s.pcs[u]);
      assert u in s'.pcs && Inside(s'.pcs[u]);
    }
  }

  lemma GuardKept<I, O>(env: Env<I, O>, s: State<O>, t: Tid)
    requires env.guarded && t in s.pcs && GuardOk(s)
    ensures GuardOk(Step(env, s, t))
  {
    assert Inside(s.pcs[t]) ==> s.inUse;
    GuardCarried(s, Step(env, s, t), t);
  }

  lemma InvKept<I, O(!new)>(env: Env<I, O>, s: State<O>, t: Tid)
    requires env.guarded && Forgets(env.resp) && Inv(env, s) && t in s.pcs
    ensures Inv(env, Step(env, s, t))
  {
    GuardKept(env, s, t);
    OwnProgress(env, s, t);
    var s' := Step(env, s, t);
    forall u | u in s'.pcs ensures Progressed(env, s', u) {
      if u != t {
        OthersProgress(env, s, t, u);
      }
    }
  }

  lemma {:induction false} InvAlongRun<I, O(!new)>(env: Env<I, O>, s: State<O>, schedule: seq<Tid>)
    requires env.guarded && Forgets(env.resp) && Inv(env, s) && forall i :: 0 <= i < |schedule| ==> schedule[i] in s.pcs
    ensures Inv(env, Run(env, s, schedule))
    decreases |schedule|
  {
    if schedule != [] {
      InvKept(env, s, schedule[0]);
      InvAlongRun(env, Step(env, s, schedule[0]), schedule[1..]);
    }
  }

  /** In every interleaving at most one call is inside the Caller, and every call
      that was admitted ends as it would have ended on a Caller of its own. */
  lemma AdmittedCallsAreUndisturbed<I, O(!new)>(env: Env<I, O>, s: State<O>, schedule: seq<Tid>, t: Tid)
    requires env.guarded && Forgets(env.resp) && Initial(s) && t in s.pcs && forall i :: 0 <= i < |schedule| ==> schedule[i] in s.pcs
    ensures OneInside(Run(env, s, schedule))
    ensures Run(env, s, schedule).pcs[t].Left? ==> Run(env, s, schedule).pcs[t].ending == Alone(env, t)
  {
    InvAlongRun(env, s, schedule);
    assert Progressed(env, Run(env, s, schedule), t);
  }

  /** No panic poisons the Caller: when every call has ended, the guard is free. */
  lemma GuardIsReleased<I, O(!new)>(env: Env<I, O>, s: State<O>, schedule: seq<Tid>)
    requires env.guarded && Forgets(env.resp) && Initial(s) && forall i :: 0 <= i < |schedule| ==> schedule[i] in s.pcs
    requires forall t :: t in s.pcs ==> !Inside(Run(env, s, schedule).pcs[t])
    ensures !Run(env, s, schedule).inUse
  {
    InvAlongRun(env, s, schedule);
  }

  /** A call is refused exactly when another call is inside the Caller. */
  lemma RefusedIffBusy<I, O>(env: Env<I, O>, s: State<O>, t: Tid)
    requires env.guarded && Inv(env, s) && t in s.pcs && s.pcs[t] == Outside
    ensures Step(env, s, t).pcs[t] == Refused <==> exists u :: u in s.pcs && u != t && Inside(s.pcs[u])
  {
    if s.inUse {
      var u :| u in s.pcs && Inside(s.pcs[u]);
      assert u != t;
    }
  }

  // ----- What the guard is for

  /** A codec for numbers: one byte that is the number, and back. */
  const ECHO: Lib<Byte> := Lib(NotVt, _ => 0, _ => Fill([], 0, None), _ => Fill([], 0, None), false, NoReset,
                               m => m, m => m, (m, _) => (m, None),
                               m => Encoded([m]), (_, src) => (if |src| > 0 then src[0] else 0, None))

  /** Two callers without a guard: one sends 0, the other 1, to a peer that echoes. */
  const UNGUARDED: Env<Byte, Byte> :=
    Env(false, ECHO, ECHO, 0, t => Work(UnaryRpc, Rpc(None, if t == 0 then 0 else 1, bytes => Answer(bytes)), None, Never, [], 0))

  const START: State<Byte> := State(false, [], [], 0, map[0 := Outside, 1 := Outside])

  /** Without the guard a request body is another call's: thread 0 marshals, thread
      1 enters and marshals over it, and thread 0 sends what it finds. */
  lemma UnguardedSendsAnothersBody()
    ensures Initial(START)
    ensures var s1 := Step(UNGUARDED, START, 0);
      var s2 := Step(UNGUARDED, s1, 0);
      var s3 := Step(UNGUARDED, s2, 1);
      var s4 := Step(UNGUARDED, s3, 1);
      Step(UNGUARDED, s4, 0).pcs[0] == Awaiting([1])
    ensures Alone(UNGUARDED, 0) == Returns(Observation(Some([0]), None, Some(0)))
  {
    var s1 := Step(UNGUARDED, START, 0);
    var s2 := Step(UNGUARDED, s1, 0);
    assert s2.buf == [0] && s2.pcs[0] == Marshalled && s2.pcs[1] == Outside;
    var s3 := Step(UNGUARDED, s2, 1);
    var s4 := Step(UNGUARDED, s3, 1);
    assert s4.buf == [1] && s4.pcs[0] == Marshalled;
  }
}
