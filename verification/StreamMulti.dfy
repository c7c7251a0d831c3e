/** Receives on server-streaming and bidirectional streams: in every interleaving
they are the repeated receives of the sequential object. */
module StreamMulti {
  import opened Errors
  import opened StreamCore
  import opened StreamProtocol
  import opened StreamSafety
  import O = StreamObject

  // ----- Repeated receives on one object

  /** What a sequence of receives leaves: the latch, the events consumed, and the
      messages and errors that were returned. */
  datatype Tape = Tape(latch: Latch, pos: nat, received: seq<Message>, outcomes: seq<Error>)

  const BLANK := Tape(RUNNING, 0, [], [])

  /** One more receive. */
  function Again(peer: Peer, codec: Codec, t: Tape): Tape
  {
    if t.latch.ended then t.(outcomes := t.outcomes + [t.latch.Terminal().value])
    else
      match O.ReceiveAt(peer, codec, t.pos)
      case Got(m) => t.(pos := t.pos + 1, received := t.received + [m])
      case RecvPanics => t.(pos := t.pos + 1)
      case RecvFailed(e) =>
        Tape(t.latch.Set(Some(e), peer.StatusAt(t.pos + 1), peer.TrailerAt(t.pos + 1)), t.pos + 1, t.received, t.outcomes + [e])
  }

  function Repeated(peer: Peer, codec: Codec, n: nat): Tape
  {
    if n == 0 then BLANK else Again(peer, codec, Repeated(peer, codec, n - 1))
  }

  /** Recv called n times on a new stream object. */
  method RecvTimes(peer: Peer, codec: Codec, n: nat) returns (t: Tape)
    ensures t == Repeated(peer, codec, n)
  {
    var conn := new O.Conn();
    var s := new O.Stream(peer, codec, conn, _ => true);
    var received, outcomes := [], [];
    for i := 0 to n
      invariant fresh(s) && s.peer == peer && s.codec == codec
      invariant Tape(s.latch, s.pos, received, outcomes) == Repeated(peer, codec, i)
    {
      var r := s.RecvGatedInto();
      match r {
        case Got(m) => received := received + [m];
        case RecvFailed(e) => outcomes := outcomes + [e];
        case RecvPanics =>
      }
    }
    t := Tape(s.latch, s.pos, received, outcomes);
  }

  /** While nothing has failed. */
  lemma {:induction false} RunningTape(env: Env, n: nat)
    requires n <= |env.peer.payloads| && forall i :: 0 <= i < n ==> !env.codec.decode(env.peer.payloads[i]).DecodeFails?
    ensures Repeated(env.peer, env.codec, n) == Tape(RUNNING, n, Messages(env.codec, env.peer.payloads[..n]), [])
  {
    if n > 0 {
      RunningTape(env, n - 1);
      MessagesStep(env.codec, env.peer.payloads, n - 1);
    }
  }

  /** The latch after the receive at position f failed. */
  function LatchAt(peer: Peer, f: nat, e: Error): Latch
  {
    Latch(true, Some(e), peer.StatusAt(f + 1), peer.TrailerAt(f + 1))
  }

  function ErrorTimes(e: Error, k: nat): seq<Error>
  {
    seq(k, _ => e)
  }

  /** From the first failure on, every receive repeats it. */
  lemma {:induction false} EndedTape(env: Env, f: nat, e: Error, k: nat)
    requires f <= |env.peer.payloads| && forall i :: 0 <= i < f ==> !env.codec.decode(env.peer.payloads[i]).DecodeFails?
    requires O.ReceiveAt(env.peer, env.codec, f) == O.RecvFailed(e)
    ensures Repeated(env.peer, env.codec, f + 1 + k) ==
      Tape(LatchAt(env.peer, f, e), f + 1, Messages(env.codec, env.peer.payloads[..f]), ErrorTimes(e, k + 1))
    decreases k
  {
    if k == 0 {
      RunningTape(env, f);
      assert [] + [e] == ErrorTimes(e, 1);
    } else {
      EndedTape(env, f, e, k - 1);
      assert ErrorTimes(e, k) + [e] == ErrorTimes(e, k + 1);
    }
  }

  // ----- The step system, while nobody has closed it and the transport holds

  /** The last event consumed made a receive fail with this error. */
  predicate FailedAt(env: Env, rx: Rx, e: Error)
  {
    rx.pos > 0 && O.ReceiveAt(env.peer, env.codec, rx.pos - 1) == O.RecvFailed(e) && Handed(env, rx.received, rx.pos - 1)
  }

  predicate AtEnd(env: Env, rx: Rx, pc: PC)
  {
    pc.Receiving? && pc.r.AtFinish? && !rx.latch.ended ==> pc.r.res.Failed? && FailedAt(env, rx, pc.r.res.err)
  }

  predicate LatchFits(env: Env, rx: Rx)
  {
    if rx.latch.ended then
      rx.latch.err.Some? && FailedAt(env, rx, rx.latch.err.value) && rx.latch == LatchAt(env.peer, rx.pos - 1, rx.latch.err.value)
    else rx.latch == RUNNING
  }

  /** About to return an error that it has not returned yet. */
  predicate Unlocks(pc: PC)
  {
    pc.Receiving? && pc.k == Multi && pc.r.AtUnlock? && pc.r.res.Failed?
  }

  /** The error that ended the stream was returned, or is about to be. */
  ghost predicate Recorded(s: State)
  {
    s.sh.rx.latch.ended ==> s.sh.rx.outcomes != [] || exists t :: t in s.threads && Unlocks(s.threads[t].pc)
  }

  ghost predicate Quiet(env: Env, s: State)
  {
    && env.shape != ClientShape && s.sh.rx.fault.None? && !s.sh.flags.cancelled && LatchFits(env, s.sh.rx) && Recorded(s)
    && (forall t :: t in s.threads ==> AtEnd(env, s.sh.rx, s.threads[t].pc))
  }

  lemma QuietPump(env: Env, sh: Shared, l: Local, c: Choice)
    requires l.pc.Receiving? && OnPump(l.pc.r) && LocalOk(env, l) && CanStep(sh, l, c) && env.shape != ClientShape
    requires sh.rx.fault.None? && !sh.flags.cancelled && OutcomeOk(sh.rx.latch, l.pc)
    requires BufferOk(env, sh.rx, l.pc) && AtEnd(env, sh.rx, l.pc) && LatchFits(env, sh.rx)
    ensures var (rx', r') := PumpStep(env, sh.rx, l.pc.k, l.pc.r, c);
      && AtEnd(env, rx', Receiving(l.pc.k, r')) && LatchFits(env, rx') && rx'.fault.None? && rx'.outcomes == sh.rx.outcomes
      && ((rx'.pos == sh.rx.pos && rx'.received == sh.rx.received) || InReceive(l.pc)) && (sh.rx.latch.ended ==> rx'.latch.ended)
      && (rx'.latch.ended && !sh.rx.latch.ended ==> Unlocks(Receiving(l.pc.k, r')))
  {
  }

  /** What a move of one thread does, as long as it does not close the stream. */
  lemma QuietMove(env: Env, sh: Shared, l: Local, t: Tid, m: Move)
    requires CanMove(env, sh, l, m) && LocalOk(env, l) && env.shape != ClientShape && !WonClose(l.pc)
    requires sh.rx.fault.None? && !sh.flags.cancelled && OutcomeOk(sh.rx.latch, l.pc)
    requires BufferOk(env, sh.rx, l.pc) && AtEnd(env, sh.rx, l.pc) && LatchFits(env, sh.rx)
    ensures var (sh', l') := MoveThread(env, sh, l, t, m);
      && AtEnd(env, sh'.rx, l'.pc) && LatchFits(env, sh'.rx) && sh'.rx.fault.None? && !sh'.flags.cancelled
      && ((sh'.rx.pos == sh.rx.pos && sh'.rx.received == sh.rx.received) || InReceive(l.pc)) && (sh.rx.latch.ended ==> sh'.rx.latch.ended)
      && (sh.rx.outcomes != [] || Unlocks(l.pc) ==> sh'.rx.outcomes != [])
      && (sh'.rx.latch.ended && !sh.rx.latch.ended ==> Unlocks(l'.pc))
  {
    if PumpMove(l, m) {
      QuietPump(env, sh, l, m.choice);
    }
  }

  lemma OthersAtEnd(env: Env, s: State, t: Tid, sh': Shared, u: Tid)
    requires Inv(env, s) && Quiet(env, s) && t in s.threads && u in s.threads && u != t
    requires (sh'.rx.pos == s.sh.rx.pos && sh'.rx.received == s.sh.rx.received) || InReceive(s.threads[t].pc)
    requires s.sh.rx.latch.ended ==> sh'.rx.latch.ended
    ensures AtEnd(env, sh'.rx, s.threads[u].pc)
  {
    if InReceive(s.threads[t].pc) { LatchAlone(env, s, t, u); }
  }

  lemma RecordedCarried(s: State, t: Tid, sh': Shared, l': Local)
    requires Recorded(s) && t in s.threads
    requires s.sh.rx.outcomes != [] || Unlocks(s.threads[t].pc) ==> sh'.rx.outcomes != []
    requires sh'.rx.latch.ended && !s.sh.rx.latch.ended ==> Unlocks(l'.pc)
    ensures Recorded(State(sh', s.threads[t := l']))
  {
    var s' := State(sh', s.threads[t := l']);
    if Unlocks(l'.pc) {
      assert t in s'.threads && Unlocks(s'.threads[t].pc);
    } else if sh'.rx.latch.ended && sh'.rx.outcomes == [] {
      var u :| u in s.threads && Unlocks(s.threads[u].pc);
      assert u in s'.threads && Unlocks(s'.threads[u].pc);
    }
  }

  lemma QuietAct(env: Env, s: State, t: Tid, m: Move)
    requires Inv(env, s) && DeliveredOk(env, s) && Quiet(env, s) && Enabled(env, s, Act(t, m)) && !s.sh.flags.closed
    ensures Quiet(env, Next(env, s, Act(t, m)))
  {
    var (sh', l') := MoveThread(env, s.sh, s.threads[t], t, m);
    QuietMove(env, s.sh, s.threads[t], t, m);
    RecordedCarried(s, t, sh', l');
    forall u | u in s.threads && u != t ensures AtEnd(env, sh'.rx, s.threads[u].pc) {
      OthersAtEnd(env, s, t, sh', u);
    }
    assert Next(env, s, Act(t, m)) == State(sh', s.threads[t := l']);
  }

  lemma QuietKept(env: Env, s: State, a: Action)
    requires Inv(env, s) && DeliveredOk(env, s) && Quiet(env, s) && Enabled(env, s, a) && !a.Break? && !s.sh.flags.closed
    ensures Quiet(env, Next(env, s, a))
  {
    if a.Act? {
      QuietAct(env, s, a.t, a.move);
    }
  }

  lemma {:induction false} ClosedStays(env: Env, s: State, acts: seq<Action>, s': State)
    requires Run(env, s, acts, s') && s.sh.flags.closed
    ensures s'.sh.flags.closed
    decreases |acts|
  {
    if acts != [] {
      if acts[0].Act? {
        CloseMove(env, s.sh, s.threads[acts[0].t], acts[0].t, acts[0].move);
      }
      ClosedStays(env, Next(env, s, acts[0]), acts[1..], s');
    }
  }

  lemma {:induction false} QuietAlongRun(env: Env, s: State, acts: seq<Action>, s': State)
    requires Inv(env, s) && DeliveredOk(env, s) && Quiet(env, s)
    requires Run(env, s, acts, s') && NoBreak(acts) && !s'.sh.flags.closed
    ensures Inv(env, s') && DeliveredOk(env, s') && Quiet(env, s')
    decreases |acts|
  {
    if acts != [] {
      assert !acts[0].Break?;
      if s.sh.flags.closed { ClosedStays(env, s, acts, s'); }
      InvKept(env, s, acts[0]);
      DeliveredKept(env, s, acts[0]);
      QuietKept(env, s, acts[0]);
      QuietAlongRun(env, Next(env, s, acts[0]), acts[1..], s');
    }
  }

  /** No receive is under way. */
  ghost predicate AtRest(s: State)
  {
    forall t :: t in s.threads ==> !InReceive(s.threads[t].pc) && !InFlight(s.threads[t].pc) && !Unlocks(s.threads[t].pc)
  }

  function TapeOf(rx: Rx): Tape
  {
    Tape(rx.latch, rx.pos, rx.received, rx.outcomes)
  }

  lemma OutcomeMeansEnded(s: State)
    requires LatchOk(s) && s.sh.rx.outcomes != []
    ensures s.sh.rx.latch.ended
  {
    assert s.sh.rx.latch.Terminal() == Some(s.sh.rx.outcomes[0]);
  }

  lemma TapeIsRepeated(env: Env, s: State)
    requires Inv(env, s) && DeliveredOk(env, s) && Quiet(env, s) && AtRest(s)
    ensures exists n :: Repeated(env.peer, env.codec, n) == TapeOf(s.sh.rx)
  {
    var rx := s.sh.rx;
    if rx.latch.ended {
      var f, e, k := rx.pos - 1, rx.latch.err.value, |rx.outcomes| - 1;
      assert rx.outcomes == ErrorTimes(e, k + 1);
      EndedTape(env, f, e, k);
      assert Repeated(env.peer, env.codec, f + 1 + k) == TapeOf(rx);
    } else {
      RunningTape(env, rx.pos);
      if rx.outcomes != [] { OutcomeMeansEnded(s); }
      assert Repeated(env.peer, env.codec, rx.pos) == TapeOf(rx);
    }
  }

  /** In every interleaving of any number of receivers, iterators and senders on a
      stream that nobody has closed and whose transport holds, whenever no receive
      is under way the messages and errors returned so far and the latch are those
      of that many receives, one after the other, on the sequential object. */
  lemma MultiAgreesWithObject(env: Env, s0: State, acts: seq<Action>, s: State)
    requires Initial(env, s0) && Run(env, s0, acts, s) && NoBreak(acts)
    requires env.shape != ClientShape && !s.sh.flags.closed && AtRest(s)
    ensures exists n :: Repeated(env.peer, env.codec, n) == TapeOf(s.sh.rx)
  {
    InitialInv(env, s0);
    QuietAlongRun(env, s0, acts, s);
    TapeIsRepeated(env, s);
  }

  // ----- Iterations

  function Items(ms: seq<Message>): seq<O.Yield>
  {
    seq(|ms|, i requires 0 <= i < |ms| => O.Item(ms[i]))
  }

  /** What an iteration that made these receives has yielded. */
  function YieldsOf(t: Tape): seq<O.Yield>
  {
    Items(t.received) + if t.outcomes == [] || Is(t.outcomes[0], EOF) then [] else [O.Failure(t.outcomes[0])]
  }

  predicate GoesOn(react: nat -> O.Reaction, n: nat)
  {
    !react(n).stops && !react(n).closes
  }

  /** From any position up to the first failure, what was yielded before and what
      the rest of the iteration yields make up the same sequence. */
  lemma {:induction false} YieldsFrom(env: Env, f: nat, e: Error, pos: nat, react: nat -> O.Reaction, n: nat)
    requires pos <= f <= |env.peer.payloads| && (forall i: nat :: GoesOn(react, i))
    requires forall i :: 0 <= i < f ==> env.codec.decode(env.peer.payloads[i]).Decoded?
    requires O.ReceiveAt(env.peer, env.codec, f) == O.RecvFailed(e)
    ensures Items(Messages(env.codec, env.peer.payloads[..pos])) + O.Yields(env.peer, env.codec, pos, react, n) ==
      Items(Messages(env.codec, env.peer.payloads[..f])) + if Is(e, EOF) then [] else [O.Failure(e)]
    decreases f - pos
  {
    if pos < f {
      var before, m := Messages(env.codec, env.peer.payloads[..pos]), env.codec.decode(env.peer.payloads[pos]).message;
      assert GoesOn(react, n);
      MessagesStep(env.codec, env.peer.payloads, pos);
      YieldsFrom(env, f, e, pos + 1, react, n + 1);
      ItemsThen(before, m, O.Yields(env.peer, env.codec, pos + 1, react, n + 1));
    }
  }

  lemma ItemsThen(ms: seq<Message>, m: Message, rest: seq<O.Yield>)
    ensures Items(ms + [m]) + rest == Items(ms) + ([O.Item(m)] + rest)
  {
    assert Items(ms + [m]) == Items(ms) + [O.Item(m)];
  }

  lemma YieldsAtRest(env: Env, s: State, react: nat -> O.Reaction)
    requires LatchOk(s) && Quiet(env, s) && AtRest(s) && s.sh.rx.latch.ended && forall i: nat :: GoesOn(react, i)
    requires forall i :: 0 <= i < |env.peer.payloads| ==> !env.codec.decode(env.peer.payloads[i]).DecodePanics?
    ensures O.Yields(env.peer, env.codec, 0, react, 0) == YieldsOf(TapeOf(s.sh.rx))
  {
    var rx := s.sh.rx;
    assert rx.latch.Terminal() == Some(rx.outcomes[0]);
    YieldsFrom(env, rx.pos - 1, rx.latch.err.value, 0, react, 0);
    NothingBefore(env, O.Yields(env.peer, env.codec, 0, react, 0));
  }

  /** The yields of a whole iteration, as the sequential object specifies them, are
      the messages and the error of any interleaving that has ended the stream, for
      a codec that does not panic. */
  lemma YieldsAreReceives(env: Env, s0: State, acts: seq<Action>, s: State, react: nat -> O.Reaction)
    requires Initial(env, s0) && Run(env, s0, acts, s) && NoBreak(acts)
    requires env.shape != ClientShape && !s.sh.flags.closed && AtRest(s) && s.sh.rx.latch.ended
    requires forall i: nat :: GoesOn(react, i)
    requires forall i :: 0 <= i < |env.peer.payloads| ==> !env.codec.decode(env.peer.payloads[i]).DecodePanics?
    ensures O.Yields(env.peer, env.codec, 0, react, 0) == YieldsOf(TapeOf(s.sh.rx))
  {
    InitialInv(env, s0);
    QuietAlongRun(env, s0, acts, s);
    YieldsAtRest(env, s, react);
  }

  lemma NothingBefore(env: Env, ys: seq<O.Yield>)
    ensures Items(Messages(env.codec, env.peer.payloads[..0])) + ys == ys
  {
  }
}
