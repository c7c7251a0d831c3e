/** What an ended stream reports, and why it ended. */
module StreamEnd {
  import opened Errors
  import opened StreamProtocol
  import opened StreamSafety
  import opened StreamStatus
  import opened StreamSingle
  import O = StreamObject

  // ----- The snapshot of poseidon's status and trailers

  /** The latch was set with what poseidon had after the events consumed by then. */
  predicate SnapshotOk(env: Env, rx: Rx)
  {
    rx.latch.ended ==> rx.latch.status == env.peer.StatusAt(rx.pos) && rx.latch.trailer == env.peer.TrailerAt(rx.pos)
  }

  lemma SnapshotPump(env: Env, rx: Rx, pc: PC, c: Choice)
    requires pc.Receiving? && OnPump(pc.r) && SnapshotOk(env, rx) && OutcomeOk(rx.latch, pc)
    ensures SnapshotOk(env, PumpStep(env, rx, pc.k, pc.r, c).0)
  {
  }

  lemma SnapshotMove(env: Env, sh: Shared, l: Local, t: Tid, m: Move)
    requires CanMove(env, sh, l, m) && SnapshotOk(env, sh.rx) && OutcomeOk(sh.rx.latch, l.pc)
    ensures SnapshotOk(env, MoveThread(env, sh, l, t, m).0.rx)
  {
    if PumpMove(l, m) {
      SnapshotPump(env, sh.rx, l.pc, m.choice);
    }
  }

  lemma {:induction false} SnapshotAlongRun(env: Env, s: State, acts: seq<Action>, s': State)
    requires Inv(env, s) && SnapshotOk(env, s.sh.rx) && Run(env, s, acts, s')
    ensures SnapshotOk(env, s'.sh.rx)
    decreases |acts|
  {
    if acts != [] {
      var a := acts[0];
      if a.Act? {
        SnapshotMove(env, s.sh, s.threads[a.t], a.t, a.move);
      }
      InvKept(env, s, a);
      SnapshotAlongRun(env, Next(env, s, a), acts[1..], s');
    }
  }

  /** The call ended with a status that the peer declared. */
  predicate DeclaredEnd(env: Env, rx: Rx)
  {
    env.peer.end.Declared? && rx.pos > |env.peer.payloads|
  }

  lemma ReportOf(env: Env, rx: Rx)
    requires SnapshotOk(env, rx) && rx.latch.ended && env.peer.WellFormed()
    ensures DeclaredEnd(env, rx) ==> rx.latch.Status() == env.peer.end.status
    ensures !DeclaredEnd(env, rx) ==>
      match rx.latch.err
      case None => rx.latch.Status() == Errors.Status(OK, "")
      case Some(e) =>
        if Leaf(EOF) in Preorder(e) then rx.latch.Status() == Errors.Status(OK, "")
        else
          && rx.latch.Status().code == TableCode(Preorder(e))
          && (FirstStatus(Preorder(e)).Some? ==> rx.latch.Status() == FirstStatus(Preorder(e)).value)
  {
    if rx.latch.err.Some? {
      var e := rx.latch.err.value;
      IsIsMembership(e, EOF);
      StatusOfFollowsTable(e);
    }
  }

  /** What Status returns, over whole runs and for every codec and transport: the
      status the peer declared, code and message; else OK for a nil error or one
      with io.EOF among its nodes; else the first status in the error, or the code
      its first listed sentinel has. */
  lemma StatusReports(env: Env, s0: State, acts: seq<Action>, s: State)
    requires Initial(env, s0) && Run(env, s0, acts, s) && env.peer.WellFormed() && s.sh.rx.latch.ended
    ensures var (rx, st) := (s.sh.rx, s.sh.rx.latch.Status());
      if DeclaredEnd(env, rx) then st == env.peer.end.status
      else match rx.latch.err
        case None => st == Errors.Status(OK, "")
        case Some(e) =>
          if Leaf(EOF) in Preorder(e) then st == Errors.Status(OK, "")
          else st.code == TableCode(Preorder(e)) && (FirstStatus(Preorder(e)).Some? ==> st == FirstStatus(Preorder(e)).value)
  {
    InitialInv(env, s0);
    SnapshotAlongRun(env, s0, acts, s);
    ReportOf(env, s.sh.rx);
  }

  /** The trailers of an ended stream are the peer's exactly if the peer's end was
      consumed; a broken call has none. */
  lemma TrailerReports(env: Env, s0: State, acts: seq<Action>, s: State)
    requires Initial(env, s0) && Run(env, s0, acts, s) && s.sh.rx.latch.ended
    ensures s.sh.rx.latch.trailer == if s.sh.rx.pos > |env.peer.payloads| && !env.peer.end.Broken? then env.peer.trailer else []
  {
    InitialInv(env, s0);
    SnapshotAlongRun(env, s0, acts, s);
  }

  // ----- Why it ended

  /** The peer's events, as the codec reads them, lead to this result. */
  predicate PeerSays(env: Env, rx: Rx, res: Outcome)
  {
    if env.shape == ClientShape then
      res == ResultOf(O.SingleVerdict(env.peer, env.codec)) && rx.pos == O.SinglePos(env.peer, env.codec)
    else
      res.Failed? && rx.pos > 0 && O.ReceiveAt(env.peer, env.codec, rx.pos - 1) == O.RecvFailed(res.err)
  }

  predicate Cancelled(sh: Shared, res: Outcome)
  {
    sh.flags.cancelled && res == Failed(Leaf(CtxCanceled))
  }

  predicate FinishCaused(env: Env, sh: Shared, pc: PC)
  {
    pc.Receiving? && pc.r.AtFinish? && !sh.rx.latch.ended ==> PeerSays(env, sh.rx, pc.r.res) || Cancelled(sh, pc.r.res)
  }

  /** The peer's events lead to this latched error, or to a nil one. */
  predicate PeerEnds(env: Env, rx: Rx, err: Option<Error>)
  {
    if env.shape == ClientShape then
      err == ToError(ResultOf(O.SingleVerdict(env.peer, env.codec))) && rx.pos == O.SinglePos(env.peer, env.codec)
    else err.Some? && PeerSays(env, rx, Failed(err.value))
  }

  /** The latched error is grpc.ErrStreamClosed of a Close, the cancellation by one,
      or what the peer's events lead to. */
  predicate LatchCaused(env: Env, sh: Shared)
  {
    sh.rx.latch.ended ==>
      || (sh.flags.closed && sh.rx.latch.err == Some(Leaf(GrpcStreamClosed)))
      || (sh.flags.cancelled && sh.rx.latch.err == Some(Leaf(CtxCanceled)))
      || PeerEnds(env, sh.rx, sh.rx.latch.err)
  }

  ghost predicate Caused(env: Env, s: State)
  {
    s.sh.rx.fault.None? && LatchCaused(env, s.sh) && forall t :: t in s.threads ==> FinishCaused(env, s.sh, s.threads[t].pc)
  }

  lemma CausePump(env: Env, sh: Shared, l: Local, c: Choice)
    requires l.pc.Receiving? && OnPump(l.pc.r) && LocalOk(env, l) && CanStep(sh, l, c)
    requires sh.rx.fault.None? && OutcomeOk(sh.rx.latch, l.pc) && ThreadPos(env, sh.rx, l.pc) && SingleOk(env, sh.rx.pos, l.pc)
    requires FinishCaused(env, sh, l.pc) && LatchCaused(env, sh)
    ensures var (rx', r') := PumpStep(env, sh.rx, l.pc.k, l.pc.r, c);
      var sh' := sh.(rx := rx');
      && FinishCaused(env, sh', Receiving(l.pc.k, r')) && LatchCaused(env, sh') && rx'.fault.None?
      && (rx'.pos == sh.rx.pos || InReceive(l.pc)) && (sh.rx.latch.ended ==> rx'.latch.ended)
  {
  }

  lemma CauseMove(env: Env, sh: Shared, l: Local, t: Tid, m: Move)
    requires CanMove(env, sh, l, m) && LocalOk(env, l) && (WonClose(l.pc) ==> sh.flags.closed)
    requires sh.rx.fault.None? && OutcomeOk(sh.rx.latch, l.pc) && ThreadPos(env, sh.rx, l.pc) && SingleOk(env, sh.rx.pos, l.pc)
    requires FinishCaused(env, sh, l.pc) && LatchCaused(env, sh)
    ensures var (sh', l') := MoveThread(env, sh, l, t, m);
      && FinishCaused(env, sh', l'.pc) && LatchCaused(env, sh') && sh'.rx.fault.None?
      && (sh'.rx.pos == sh.rx.pos || InReceive(l.pc)) && (sh.rx.latch.ended ==> sh'.rx.latch.ended)
      && (sh.flags.cancelled ==> sh'.flags.cancelled)
  {
    if PumpMove(l, m) {
      CausePump(env, sh, l, m.choice);
    }
  }

  lemma OthersCaused(env: Env, s: State, t: Tid, sh': Shared, u: Tid)
    requires Inv(env, s) && Caused(env, s) && t in s.threads && u in s.threads && u != t
    requires (sh'.rx.pos == s.sh.rx.pos || InReceive(s.threads[t].pc)) && (s.sh.rx.latch.ended ==> sh'.rx.latch.ended)
    requires s.sh.flags.cancelled ==> sh'.flags.cancelled
    ensures FinishCaused(env, sh', s.threads[u].pc)
  {
    if InReceive(s.threads[t].pc) { LatchAlone(env, s, t, u); }
  }

  lemma CausedAct(env: Env, s: State, t: Tid, m: Move)
    requires Inv(env, s) && HonestOk(env, s) && SinglesOk(env, s) && Caused(env, s) && Enabled(env, s, Act(t, m))
    ensures Caused(env, Next(env, s, Act(t, m)))
  {
    var (sh', l') := MoveThread(env, s.sh, s.threads[t], t, m);
    CauseMove(env, s.sh, s.threads[t], t, m);
    forall u | u in s.threads && u != t ensures FinishCaused(env, sh', s.threads[u].pc) {
      OthersCaused(env, s, t, sh', u);
    }
    assert Next(env, s, Act(t, m)) == State(sh', s.threads[t := l']);
  }

  lemma CausedKept(env: Env, s: State, a: Action)
    requires Inv(env, s) && HonestOk(env, s) && SinglesOk(env, s) && Caused(env, s) && Enabled(env, s, a) && !a.Break?
    ensures Caused(env, Next(env, s, a))
  {
    if a.Act? {
      CausedAct(env, s, a.t, a.move);
    }
  }

  lemma {:induction false} CausedAlongRun(env: Env, s: State, acts: seq<Action>, s': State)
    requires Inv(env, s) && HonestOk(env, s) && HonestPeer(env.peer) && SinglesOk(env, s) && Caused(env, s)
    requires Run(env, s, acts, s') && NoBreak(acts)
    ensures Caused(env, s')
    decreases |acts|
  {
    if acts != [] {
      assert !acts[0].Break?;
      InvKept(env, s, acts[0]);
      HonestKept(env, s, acts[0]);
      SinglesKept(env, s, acts[0]);
      CausedKept(env, s, acts[0]);
      CausedAlongRun(env, Next(env, s, acts[0]), acts[1..], s');
    }
  }

  /** Why a stream ends, over whole runs on a transport that holds: a Close ended it,
      or cancelled the receive that did; or the peer's events did, a receive failing
      on the last event consumed, or recvSingle by its verdict on all of them. */
  lemma EndedBecause(env: Env, s0: State, acts: seq<Action>, s: State)
    requires Initial(env, s0) && Run(env, s0, acts, s) && HonestPeer(env.peer) && NoBreak(acts) && s.sh.rx.latch.ended
    ensures var err := s.sh.rx.latch.err;
      || (s.sh.flags.closed && err == Some(Leaf(GrpcStreamClosed)))
      || (s.sh.flags.cancelled && err == Some(Leaf(CtxCanceled)))
      || PeerEnds(env, s.sh.rx, err)
  {
    InitialInv(env, s0);
    CausedAlongRun(env, s0, acts, s);
  }
}
