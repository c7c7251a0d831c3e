/** No false OK: what an ended stream's Status may report, over whole runs. */
module StreamStatus {
  import opened Errors
  import opened StreamCore
  import opened StreamProtocol
  import opened StreamSafety

  /** An error that neither claims a clean end nor carries an OK status. */
  predicate Honest(e: Error)
  {
    !Is(e, EOF) && !(As(e).Some? && As(e).value.code == OK)
  }

  /** poseidon's side of the bargain: io.EOF only for a clean end, and no error
      carrying an OK status. */
  predicate HonestPeer(peer: Peer)
  {
    && peer.WellFormed()
    && (peer.end.Broken? ==> Honest(peer.end.err))
  }

  /** The codec's side: no unmarshal failure contains io.EOF, and no panic inside
      the single receive of a client stream. */
  predicate HonestCodec(env: Env)
  {
    forall i :: 0 <= i < |env.peer.payloads| ==>
      match env.codec.decode(env.peer.payloads[i])
      case Decoded(_) => true
      case DecodeFails(cause) => !IsOpt(cause, EOF)
      case DecodePanics => env.shape != ClientShape
  }

  /** Every transport failure of the run is honest. */
  predicate HonestRun(acts: seq<Action>)
  {
    forall i :: 0 <= i < |acts| && acts[i].Break? ==> Honest(acts[i].err)
  }

  /** The call ended cleanly: the pump consumed a clean end, and on a client
      stream exactly one message came before it. */
  predicate Clean(env: Env, rx: Rx)
  {
    env.peer.EndedCleanlyAt(rx.pos) && (env.shape == ClientShape ==> |env.peer.payloads| == 1)
  }

  /** The codec spoiled the last payload that was consumed: its error contains
      io.EOF, or on a client stream it panicked. */
  predicate Poisoned(env: Env, pos: nat)
  {
    0 < pos <= |env.peer.payloads| &&
    var d := env.codec.decode(env.peer.payloads[pos - 1]);
    if env.shape == ClientShape then pos == 1 && d.DecodePanics? else d.DecodeFails? && IsOpt(d.cause, EOF)
  }

  /** What makes an ended stream report OK. */
  predicate LooksClean(env: Env, rx: Rx)
  {
    Clean(env, rx) || Poisoned(env, rx.pos)
  }

  /** An error about to be latched, or latched: it contains io.EOF exactly if the
      call looks clean, and it never carries an OK status. */
  predicate ErrorOk(env: Env, rx: Rx, e: Error)
  {
    && (Is(e, EOF) <==> LooksClean(env, rx))
    && !(As(e).Some? && As(e).value.code == OK)
  }

  predicate OutcomeHonest(env: Env, rx: Rx, res: Outcome)
  {
    if res.Failed? then ErrorOk(env, rx, res.err) else LooksClean(env, rx)
  }

  predicate LatchHonest(env: Env, rx: Rx)
  {
    rx.latch.ended ==>
      && (if rx.latch.err.Some? then ErrorOk(env, rx, rx.latch.err.value) else LooksClean(env, rx))
      && rx.latch.status == env.peer.StatusAt(rx.pos)
  }

  // ----- Where the pump stands while the stream runs

  /** Consuming, or about to record what was consumed. */
  predicate Busy(pc: PC)
  {
    InReceive(pc) || (pc.Receiving? && pc.r.AtFinish?)
  }

  predicate ThreadPos(env: Env, rx: Rx, pc: PC)
  {
    InReceive(pc) ==>
      && rx.pos <= |env.peer.payloads|
      && (pc.k == Single ==> rx.pos == if pc.r.InPull? then 0 else 1)
      && (if pc.r.InDecode? then rx.pos > 0 && rx.buf == env.peer.payloads[rx.pos - 1] else !Poisoned(env, rx.pos))
  }

  /** No end has been consumed; on a client stream nothing at all. */
  predicate Fresh(env: Env, pos: nat)
  {
    if env.shape == ClientShape then pos == 0 else pos <= |env.peer.payloads| && !Poisoned(env, pos)
  }

  predicate FinishHonest(env: Env, rx: Rx, pc: PC)
  {
    pc.Receiving? && pc.r.AtFinish? && !rx.latch.ended ==> OutcomeHonest(env, rx, pc.r.res)
  }

  ghost predicate HonestOk(env: Env, s: State)
  {
    var rx := s.sh.rx;
    && rx.arrived <= |env.peer.payloads| + 1
    && (rx.fault.Some? ==> Honest(rx.fault.value))
    && LatchHonest(env, rx)
    && (forall t :: t in s.threads ==> ThreadPos(env, rx, s.threads[t].pc) && FinishHonest(env, rx, s.threads[t].pc))
    && (rx.latch.ended || Fresh(env, rx.pos) || exists t :: t in s.threads && Busy(s.threads[t].pc))
  }

  /** A decode that failed, or panicked under recvSingle. */
  lemma CodecFailureHonest(env: Env, rx: Rx, k: Kind)
    requires 0 < rx.pos <= |env.peer.payloads| && rx.buf == env.peer.payloads[rx.pos - 1]
    requires (k == Single <==> env.shape == ClientShape) && (k == Single ==> rx.pos == 1)
    ensures match env.codec.decode(rx.buf)
      case DecodeFails(cause) => OutcomeHonest(env, rx, ReceiveFailed(k, NewCodecError(cause)).res)
      case DecodePanics => k == Single ==> OutcomeHonest(env, rx, Panicked)
      case Decoded(_) => !Poisoned(env, rx.pos)
  {
    var d := env.codec.decode(rx.buf);
    if d.DecodeFails? {
      CodecErrorIsInternal(d.cause);
    }
  }

  /** A receive that returned an error: what recvGatedInto or recvSingle makes of it. */
  lemma PullHonest(env: Env, sh: Shared, l: Local, c: Choice, rx': Rx)
    requires l.pc.Receiving? && l.pc.r.InPull? && LocalOk(env, l) && CanPull(sh, l, c)
    requires HonestPeer(env.peer) && (sh.rx.fault.Some? ==> Honest(sh.rx.fault.value))
    requires sh.rx.arrived <= |env.peer.payloads| + 1 && ThreadPos(env, sh.rx, l.pc)
    requires Pull(env, sh.rx.pos, c).PullError?
    requires rx' == sh.rx.(pos := Consume(sh.rx.pos, c), buf := [])
    ensures OutcomeHonest(env, rx', ReceiveFailed(l.pc.k, Pull(env, sh.rx.pos, c).err).res)
  {
  }

  lemma DrainHonest(env: Env, sh: Shared, l: Local, c: Choice, rx': Rx)
    requires l.pc.Receiving? && l.pc.r.InDrain? && LocalOk(env, l) && CanPull(sh, l, c)
    requires HonestPeer(env.peer) && (sh.rx.fault.Some? ==> Honest(sh.rx.fault.value))
    requires sh.rx.arrived <= |env.peer.payloads| + 1 && ThreadPos(env, sh.rx, l.pc)
    requires rx' == sh.rx.(pos := Consume(sh.rx.pos, c))
    ensures OutcomeHonest(env, rx', Drained(Pull(env, sh.rx.pos, c)))
  {
  }

  /** The pump's step of one thread keeps its own part of the invariant. */
  lemma HonestPump(env: Env, sh: Shared, l: Local, c: Choice)
    requires l.pc.Receiving? && OnPump(l.pc.r) && LocalOk(env, l) && CanStep(sh, l, c)
    requires HonestPeer(env.peer) && (sh.rx.fault.Some? ==> Honest(sh.rx.fault.value))
    requires OutcomeOk(sh.rx.latch, l.pc)
    requires sh.rx.arrived <= |env.peer.payloads| + 1
    requires ThreadPos(env, sh.rx, l.pc) && FinishHonest(env, sh.rx, l.pc) && LatchHonest(env, sh.rx)
    requires l.pc.r.AtTerminal? ==> sh.rx.latch.ended || Fresh(env, sh.rx.pos)
    ensures var (rx', r') := PumpStep(env, sh.rx, l.pc.k, l.pc.r, c);
      var pc' := Receiving(l.pc.k, r');
      && ThreadPos(env, rx', pc') && FinishHonest(env, rx', pc') && LatchHonest(env, rx')
      && ((rx'.pos == sh.rx.pos && rx'.buf == sh.rx.buf) || InReceive(l.pc))
      && (Busy(l.pc) ==> rx'.latch.ended || Busy(pc') || Fresh(env, rx'.pos))
      && (!Busy(l.pc) ==> rx'.pos == sh.rx.pos)
      && rx'.fault == sh.rx.fault && rx'.arrived == sh.rx.arrived
  {
    match l.pc.r
    case InPull =>
      if Pull(env, sh.rx.pos, c).PullError? {
        PullHonest(env, sh, l, c, sh.rx.(pos := Consume(sh.rx.pos, c), buf := []));
      }
    case InDecode =>
      CodecFailureHonest(env, sh.rx, l.pc.k);
    case InDrain => DrainHonest(env, sh, l, c, sh.rx.(pos := Consume(sh.rx.pos, c)));
    case _ =>
  }

  /** Every other move leaves the pump alone; Close latches only a running stream. */
  lemma HonestOther(env: Env, sh: Shared, l: Local, t: Tid, m: Move)
    requires CanMove(env, sh, l, m) && !PumpMove(l, m) && LatchHonest(env, sh.rx)
    requires HoldsWrite(l.pc) ==> sh.rx.latch.ended || Fresh(env, sh.rx.pos)
    ensures var (sh', l') := MoveThread(env, sh, l, t, m);
      && LatchHonest(env, sh'.rx) && !Busy(l'.pc)
      && sh'.rx.fault == sh.rx.fault && sh'.rx.arrived == sh.rx.arrived
  {
  }

  /** A thread that reads or writes the latch alone finds the pump at rest. */
  lemma FreshWhenAlone(env: Env, s: State, t: Tid)
    requires Inv(env, s) && HonestOk(env, s) && t in s.threads && !Busy(s.threads[t].pc)
    requires (HoldsRead(s.threads[t].pc) && Guarded(s.threads[t].pc)) || HoldsWrite(s.threads[t].pc)
    ensures s.sh.rx.latch.ended || Fresh(env, s.sh.rx.pos)
  {
    forall u | u in s.threads ensures !Busy(s.threads[u].pc) {
      if u != t { LatchAlone(env, s, t, u); }
    }
  }

  /** One move of one thread, pump or not. */
  lemma HonestMove(env: Env, sh: Shared, l: Local, t: Tid, m: Move)
    requires CanMove(env, sh, l, m) && LocalOk(env, l) && OutcomeOk(sh.rx.latch, l.pc)
    requires HonestPeer(env.peer) && (sh.rx.fault.Some? ==> Honest(sh.rx.fault.value))
    requires sh.rx.arrived <= |env.peer.payloads| + 1
    requires ThreadPos(env, sh.rx, l.pc) && FinishHonest(env, sh.rx, l.pc) && LatchHonest(env, sh.rx)
    requires HoldsWrite(l.pc) || (l.pc.Receiving? && l.pc.r.AtTerminal?) ==> sh.rx.latch.ended || Fresh(env, sh.rx.pos)
    ensures var (sh', l') := MoveThread(env, sh, l, t, m);
      && ThreadPos(env, sh'.rx, l'.pc) && FinishHonest(env, sh'.rx, l'.pc) && LatchHonest(env, sh'.rx)
      && ((sh'.rx.pos == sh.rx.pos && sh'.rx.buf == sh.rx.buf) || InReceive(l.pc))
      && (Busy(l.pc) ==> sh'.rx.latch.ended || Busy(l'.pc) || Fresh(env, sh'.rx.pos))
      && (!Busy(l.pc) ==> sh'.rx.pos == sh.rx.pos)
      && sh'.rx.fault == sh.rx.fault && sh'.rx.arrived == sh.rx.arrived
  {
    if PumpMove(l, m) {
      HonestPump(env, sh, l, m.choice);
    } else {
      HonestOther(env, sh, l, t, m);
      OtherMove(env, sh, l, t, m);
    }
  }

  /** The same, from the invariants of the whole state. */
  lemma HonestOwn(env: Env, s: State, t: Tid, m: Move)
    requires Inv(env, s) && HonestOk(env, s) && HonestPeer(env.peer)
    requires Enabled(env, s, Act(t, m))
    ensures var (l, rx) := (s.threads[t], s.sh.rx);
      var (sh', l') := MoveThread(env, s.sh, l, t, m);
      && ThreadPos(env, sh'.rx, l'.pc) && FinishHonest(env, sh'.rx, l'.pc) && LatchHonest(env, sh'.rx)
      && ((sh'.rx.pos == rx.pos && sh'.rx.buf == rx.buf) || InReceive(l.pc))
      && (Busy(l.pc) ==> sh'.rx.latch.ended || Busy(l'.pc) || Fresh(env, sh'.rx.pos))
      && (!Busy(l.pc) ==> sh'.rx.pos == rx.pos)
      && sh'.rx.fault == rx.fault && sh'.rx.arrived == rx.arrived && (rx.latch.ended ==> sh'.rx.latch == rx.latch)
  {
    var l := s.threads[t];
    if HoldsWrite(l.pc) || (l.pc.Receiving? && l.pc.r.AtTerminal?) { FreshWhenAlone(env, s, t); }
    HonestMove(env, s.sh, l, t, m);
    CloseMove(env, s.sh, l, t, m);
  }

  /** The threads that did not move, if the pump was theirs it is untouched. */
  lemma OthersHonest(env: Env, s: State, t: Tid, sh': Shared, u: Tid)
    requires Inv(env, s) && HonestOk(env, s) && t in s.threads && u in s.threads && u != t
    requires (sh'.rx.pos == s.sh.rx.pos && sh'.rx.buf == s.sh.rx.buf) || InReceive(s.threads[t].pc)
    requires s.sh.rx.latch.ended ==> sh'.rx.latch.ended
    ensures ThreadPos(env, sh'.rx, s.threads[u].pc) && FinishHonest(env, sh'.rx, s.threads[u].pc)
  {
    if InReceive(s.threads[t].pc) { LatchAlone(env, s, t, u); }
  }

  /** Whoever is still busy with what was consumed. */
  lemma BusyCarried(env: Env, s: State, t: Tid, sh': Shared, l': Local)
    requires HonestOk(env, s) && t in s.threads && (s.sh.rx.latch.ended ==> sh'.rx.latch.ended)
    requires Busy(s.threads[t].pc) ==> sh'.rx.latch.ended || Busy(l'.pc) || Fresh(env, sh'.rx.pos)
    requires !Busy(s.threads[t].pc) ==> sh'.rx.pos == s.sh.rx.pos
    ensures var s' := State(sh', s.threads[t := l']);
      s'.sh.rx.latch.ended || Fresh(env, s'.sh.rx.pos) || exists u :: u in s'.threads && Busy(s'.threads[u].pc)
  {
    var s' := State(sh', s.threads[t := l']);
    if Busy(l'.pc) {
      assert t in s'.threads && Busy(s'.threads[t].pc);
    } else if !Busy(s.threads[t].pc) && !s.sh.rx.latch.ended && !Fresh(env, s.sh.rx.pos) {
      var u :| u in s.threads && Busy(s.threads[u].pc);
      assert u in s'.threads && Busy(s'.threads[u].pc);
    }
  }

  lemma HonestAct(env: Env, s: State, t: Tid, m: Move)
    requires Inv(env, s) && HonestOk(env, s) && HonestPeer(env.peer)
    requires Enabled(env, s, Act(t, m))
    ensures HonestOk(env, Next(env, s, Act(t, m)))
  {
    var (sh', l') := MoveThread(env, s.sh, s.threads[t], t, m);
    HonestOwn(env, s, t, m);
    BusyCarried(env, s, t, sh', l');
    forall u | u in s.threads && u != t
      ensures ThreadPos(env, sh'.rx, s.threads[u].pc) && FinishHonest(env, sh'.rx, s.threads[u].pc)
    {
      OthersHonest(env, s, t, sh', u);
    }
    assert Next(env, s, Act(t, m)) == State(sh', s.threads[t := l']);
  }

  lemma HonestEnvironment(env: Env, s: State, a: Action)
    requires HonestOk(env, s) && Enabled(env, s, a) && !a.Act? && (a.Break? ==> Honest(a.err))
    ensures HonestOk(env, Next(env, s, a))
  {
  }

  lemma HonestKept(env: Env, s: State, a: Action)
    requires Inv(env, s) && HonestOk(env, s) && HonestPeer(env.peer)
    requires Enabled(env, s, a) && (a.Break? ==> Honest(a.err))
    ensures HonestOk(env, Next(env, s, a))
  {
    if a.Act? {
      HonestAct(env, s, a.t, a.move);
    } else {
      HonestEnvironment(env, s, a);
    }
  }

  lemma {:induction false} HonestAlongRun(env: Env, s: State, acts: seq<Action>, s': State)
    requires Inv(env, s) && HonestOk(env, s) && HonestPeer(env.peer)
    requires Run(env, s, acts, s') && HonestRun(acts)
    ensures HonestOk(env, s')
    decreases |acts|
  {
    if acts != [] {
      InvKept(env, s, acts[0]);
      HonestKept(env, s, acts[0]);
      HonestAlongRun(env, Next(env, s, acts[0]), acts[1..], s');
    }
  }

  lemma StatusOfHonestLatch(env: Env, rx: Rx)
    requires LatchHonest(env, rx) && rx.latch.ended && env.peer.WellFormed()
    ensures rx.latch.Status().code == OK <==> LooksClean(env, rx)
  {
    if rx.latch.err.Some? {
      StatusOfOkOnlyFromStatus(rx.latch.err.value);
    }
  }

  /** What an ended stream reports, over whole runs and for every codec: OK exactly
      when the call ended cleanly or the codec spoiled the last payload consumed. */
  lemma StatusOkIff(env: Env, s0: State, acts: seq<Action>, s: State)
    requires Initial(env, s0) && Run(env, s0, acts, s)
    requires HonestPeer(env.peer) && HonestRun(acts)
    requires s.sh.rx.latch.ended
    ensures s.sh.rx.latch.Status().code == OK <==> Clean(env, s.sh.rx) || Poisoned(env, s.sh.rx.pos)
  {
    InitialInv(env, s0);
    HonestAlongRun(env, s0, acts, s);
    StatusOfHonestLatch(env, s.sh.rx);
  }

  /** The false OK, exactly: it is reported if and only if the codec spoiled the
      last payload consumed. */
  lemma FalseOkIff(env: Env, s0: State, acts: seq<Action>, s: State)
    requires Initial(env, s0) && Run(env, s0, acts, s)
    requires HonestPeer(env.peer) && HonestRun(acts)
    requires s.sh.rx.latch.ended
    ensures s.sh.rx.latch.Status().code == OK && !Clean(env, s.sh.rx) <==> Poisoned(env, s.sh.rx.pos)
  {
    StatusOkIff(env, s0, acts, s);
  }

  /** No false OK, and no false failure, with a codec that does neither. */
  lemma StatusOkIffClean(env: Env, s0: State, acts: seq<Action>, s: State)
    requires Initial(env, s0) && Run(env, s0, acts, s)
    requires HonestPeer(env.peer) && HonestCodec(env) && HonestRun(acts)
    requires s.sh.rx.latch.ended
    ensures s.sh.rx.latch.Status().code == OK <==> Clean(env, s.sh.rx)
  {
    StatusOkIff(env, s0, acts, s);
  }

  // ----- The hypothesis on the codec is needed: a run

  /** One thread alone on the stream. */
  function Solo(sh: Shared, l: Local): State
  {
    State(sh, map[0 := l])
  }

  function SoloShared(readers: set<Tid>, rx: Rx): Shared
  {
    Shared(Gate(readers, None, None), Flags(false, false, false), rx, Tx(false, false, [], [], []))
  }

  /** Some run without dishonest transport failures leads from `s` to `s'`. */
  ghost predicate Reaches(env: Env, s: State, s': State)
  {
    exists acts :: Run(env, s, acts, s') && HonestRun(acts)
  }

  lemma ReachesBy(env: Env, s: State, a: Action, s': State)
    requires Enabled(env, s, a) && !a.Break? && Reaches(env, Next(env, s, a), s')
    ensures Reaches(env, s, s')
  {
    var rest :| Run(env, Next(env, s, a), rest, s') && HonestRun(rest);
    var acts := [a] + rest;
    assert acts[1..] == rest;
    assert Run(env, s, acts, s') && HonestRun(acts);
  }

  lemma SoloStep(env: Env, sh: Shared, l: Local, m: Move, s': State)
    requires CanMove(env, sh, l, m)
    requires var (sh1, l1) := MoveThread(env, sh, l, 0, m); Reaches(env, Solo(sh1, l1), s')
    ensures Reaches(env, Solo(sh, l), s')
  {
    var (sh1, l1) := MoveThread(env, sh, l, 0, m);
    assert map[0 := l][0 := l1] == map[0 := l1];
    ReachesBy(env, Solo(sh, l), Act(0, m), s');
  }

  function SoloRx(busy: bool, pos: nat, buf: Bytes): Rx
  {
    Rx(busy, RUNNING, false, buf, 1, pos, None, [], [], 0)
  }

  function At(r: RecvPC): Local
  {
    Local(Receiving(Multi, r), Out, true)
  }

  const GO := Step(Go)

  /** The first receive of a fresh stream, up to poseidon's receive. */
  lemma SoloEnters(env: Env, s': State)
    requires env.shape != ClientShape
    requires Reaches(env, Solo(SoloShared({0}, SoloRx(true, 0, [])), At(InPull)), s')
    ensures Reaches(env, Solo(SoloShared({}, SoloRx(false, 0, [])), Local(User, Out, true)), s')
  {
    SoloStep(env, SoloShared({0}, SoloRx(true, 0, [])), At(AtTerminal), GO, s');
    assert {} + {0} == {0};
    SoloStep(env, SoloShared({}, SoloRx(true, 0, [])), At(AtGate), GO, s');
    SoloStep(env, SoloShared({}, SoloRx(false, 0, [])), At(AtGuard(false)), GO, s');
    SoloStep(env, SoloShared({}, SoloRx(false, 0, [])), Local(User, Out, true), Start(Recv, true), s');
  }

  /** From poseidon's receive to the latch, when the payload does not decode. */
  lemma SoloFails(env: Env, e: Error) returns (s: State)
    requires env.shape != ClientShape && env.peer.payloads == [[1]]
    requires env.codec.decode([1]).DecodeFails? && e == NewCodecError(env.codec.decode([1]).cause)
    ensures Reaches(env, Solo(SoloShared({0}, SoloRx(true, 0, [])), At(InPull)), s)
    ensures s.sh.rx == Latched(env, SoloRx(true, 1, [1]), Some(e))
  {
    s := Solo(SoloShared({0}, Latched(env, SoloRx(true, 1, [1]), Some(e))), At(AtUnlock(Failed(e))));
    assert Run(env, s, [], s) && HonestRun([]);
    SoloStep(env, SoloShared({0}, SoloRx(true, 1, [1])), At(AtFinish(Failed(e))), GO, s);
    SoloStep(env, SoloShared({0}, SoloRx(true, 1, [1])), At(InDecode), GO, s);
    SoloStep(env, SoloShared({0}, SoloRx(true, 0, [])), At(InPull), GO, s);
  }

  /** A peer whose only payload does not decode and whose connection then breaks,
      and a codec whose error wraps io.EOF. */
  const EOF_ENV := Env(BidiShape, Peer([[1]], Broken(Leaf(ConnClosed)), []),
                       Codec(_ => EncodePanics, _ => DecodeFails(Some(Leaf(EOF)))))
  const EOF_ERROR := NewCodecError(Some(Leaf(EOF)))

  lemma EofRun() returns (s0: State, s: State)
    ensures Initial(EOF_ENV, s0) && Reaches(EOF_ENV, s0, s)
    ensures s.sh.rx == Latched(EOF_ENV, SoloRx(true, 1, [1]), Some(EOF_ERROR))
  {
    s := SoloFails(EOF_ENV, EOF_ERROR);
    SoloEnters(EOF_ENV, s);
    s0 := Solo(SoloShared({}, SoloRx(false, 0, []).(arrived := 0)), Local(User, Out, true));
    ReachesBy(EOF_ENV, s0, Arrive, s);
  }

  lemma EofLatch()
    ensures var rx := Latched(EOF_ENV, SoloRx(true, 1, [1]), Some(EOF_ERROR));
      rx.latch.ended && rx.latch.Status().code == OK && !Clean(EOF_ENV, rx)
  {
    CodecErrorIsInternal(Some(Leaf(EOF)));
  }

  /** A run that reports a false OK: the only payload does not decode, the codec's
      error wraps io.EOF, and the connection never ended the call cleanly. */
  lemma CodecEofGivesFalseOk() returns (env: Env, s0: State, s: State)
    ensures Initial(env, s0) && Reaches(env, s0, s) && HonestPeer(env.peer)
    ensures s.sh.rx.latch.ended && s.sh.rx.latch.Status().code == OK && !Clean(env, s.sh.rx)
  {
    env := EOF_ENV;
    s0, s := EofRun();
    EofLatch();
  }

  // ----- The other way: a codec panic under recvSingle

  /** A client stream whose only response makes the codec panic. */
  const PANIC_ENV := Env(ClientShape, Peer([[1]], Broken(Leaf(ConnClosed)), []), Codec(_ => EncodePanics, _ => DecodePanics))

  /** CloseAndRecv. */
  const LAST := Job(None, true, true)

  function SoloTx(readers: set<Tid>, rx: Rx, tx: Tx): Shared
  {
    Shared(Gate(readers, None, None), Flags(false, false, false), rx, tx)
  }

  function Sends(x: SendPC): Local
  {
    Local(Sending(x, LAST), Out, true)
  }

  function SingleAt(r: RecvPC): Local
  {
    Local(Receiving(Single, r), Out, true)
  }

  const SENT := Tx(false, true, [], [Frame(None, true)], [Ticket(LAST, true)])
  const IDLE := Rx(false, RUNNING, false, [], 1, 0, None, [], [], 0)

  lemma HalfCloses(s': State)
    requires Reaches(PANIC_ENV, Solo(SoloTx({}, IDLE, SENT), SingleAt(AtGate)), s')
    ensures Reaches(PANIC_ENV, Solo(SoloTx({}, IDLE, Tx(true, false, [], [], [Ticket(LAST, false)])), Sends(InWire)), s')
  {
    SoloStep(PANIC_ENV, SoloTx({}, IDLE, SENT.(busy := true)), Sends(AtSendLeave(Done)), GO, s');
    SoloStep(PANIC_ENV, SoloTx({}, IDLE, SENT.(busy := true, closed := false)), Sends(AtMark), GO, s');
    assert TicketDone([Ticket(LAST, false)]) == [Ticket(LAST, true)];
    assert [] + [Frame(None, true)] == [Frame(None, true)];
    SoloStep(PANIC_ENV, SoloTx({}, IDLE, Tx(true, false, [], [], [Ticket(LAST, false)])), Sends(InWire), GO, s');
  }

  lemma SendStarts(s': State)
    requires Reaches(PANIC_ENV, Solo(SoloTx({}, IDLE, Tx(true, false, [], [], [Ticket(LAST, false)])), Sends(InWire)), s')
    ensures Reaches(PANIC_ENV, Solo(SoloTx({}, IDLE, Tx(false, false, [], [], [])), Local(User, Out, true)), s')
  {
    var tx := Tx(true, false, [], [], [Ticket(LAST, false)]);
    SoloStep(PANIC_ENV, SoloTx({}, IDLE, tx), Sends(AtHalfCheck), GO, s');
    SoloStep(PANIC_ENV, SoloTx({}, IDLE, tx), Sends(AtClosedCheck), GO, s');
    assert [] + [Ticket(LAST, false)] == [Ticket(LAST, false)];
    SoloStep(PANIC_ENV, SoloTx({}, IDLE, Tx(false, false, [], [], [])), Sends(AtSendGuard), GO, s');
    SoloStep(PANIC_ENV, SoloTx({}, IDLE, Tx(false, false, [], [], [])), Local(User, Out, true), Start(Send(LAST), true), s');
  }

  lemma SingleEnters(s': State)
    requires Reaches(PANIC_ENV, Solo(SoloTx({0}, IDLE.(busy := true), SENT), SingleAt(InPull)), s')
    ensures Reaches(PANIC_ENV, Solo(SoloTx({}, IDLE, SENT), SingleAt(AtGate)), s')
  {
    SoloStep(PANIC_ENV, SoloTx({0}, IDLE.(busy := true), SENT), SingleAt(AtTerminal), GO, s');
    SoloStep(PANIC_ENV, SoloTx({0}, IDLE, SENT), SingleAt(AtGuard(false)), GO, s');
    assert {} + {0} == {0};
    SoloStep(PANIC_ENV, SoloTx({}, IDLE, SENT), SingleAt(AtGate), GO, s');
  }

  lemma SinglePanics() returns (s: State)
    ensures Reaches(PANIC_ENV, Solo(SoloTx({0}, IDLE.(busy := true), SENT), SingleAt(InPull)), s)
    ensures s.sh.rx == Latched(PANIC_ENV, IDLE.(busy := true, pos := 1, buf := [1]), None)
  {
    var rx := IDLE.(busy := true, pos := 1, buf := [1]);
    s := Solo(SoloTx({0}, Latched(PANIC_ENV, rx, None), SENT), SingleAt(AtLeave(Panicked)));
    assert Run(PANIC_ENV, s, [], s) && HonestRun([]);
    SoloStep(PANIC_ENV, SoloTx({0}, rx, SENT), SingleAt(AtFinish(Panicked)), GO, s);
    SoloStep(PANIC_ENV, SoloTx({0}, rx, SENT), SingleAt(InDecode), GO, s);
    SoloStep(PANIC_ENV, SoloTx({0}, IDLE.(busy := true), SENT), SingleAt(InPull), GO, s);
  }

  /** A run that reports a false OK for a call whose response the codec could not
      even look at. */
  lemma CodecPanicGivesFalseOk() returns (env: Env, s0: State, s: State)
    ensures Initial(env, s0) && Reaches(env, s0, s) && HonestPeer(env.peer) && env.shape == ClientShape
    ensures s.sh.rx.latch.ended && s.sh.rx.latch.Status().code == OK && !Clean(env, s.sh.rx)
  {
    env := PANIC_ENV;
    s := SinglePanics();
    SingleEnters(s);
    HalfCloses(s);
    SendStarts(s);
    s0 := Solo(SoloTx({}, IDLE.(arrived := 0), Tx(false, false, [], [], [])), Local(User, Out, true));
    ReachesBy(PANIC_ENV, s0, Arrive, s);
  }
}
