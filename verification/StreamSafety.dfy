/** What every step of the protocol keeps, and what follows for whole runs:
exclusion of receives and of Close against receives, no leaked guard, a terminal
outcome that is set once, and a receive log that is the peer's own message list. */
module StreamSafety {
  import opened Errors
  import opened StreamCore
  import opened StreamProtocol

  // ----- The invariant, part by part

  /** Which program points a thread of this shape can be at. */
  predicate LocalOk(env: Env, l: Local)
  {
    && (l.iter.Loop? ==> env.shape != ClientShape)
    && (l.pc.Receiving? ==>
          && (l.pc.k == Single <==> env.shape == ClientShape)
          && (l.pc.r.InDrain? ==> l.pc.k == Single)
          && (l.pc.r.AtFinish? && l.pc.k == Multi ==> l.pc.r.res.Failed?))
    && (l.pc.Sending? ==> Offers(env.shape, Send(l.pc.job)))
    && (l.pc.Closing? && l.pc.deferred ==> l.iter.Loop?)
  }

  ghost predicate ShapeOk(env: Env, s: State)
  {
    forall t :: t in s.threads ==> LocalOk(env, s.threads[t])
  }

  predicate Waits(pc: PC)
  {
    pc.Closing? && pc.c.AtWait?
  }

  /** The gate is held exactly as the program counters say, and a writer excludes readers. */
  ghost predicate GateOk(s: State)
  {
    var g := s.sh.gate;
    && g.readers <= s.threads.Keys
    && (forall t :: t in s.threads ==> (t in g.readers <==> HoldsRead(s.threads[t].pc)))
    && (forall t :: t in s.threads ==> (g.writer == Some(t) <==> HoldsWrite(s.threads[t].pc)))
    && (forall t :: t in s.threads ==> (g.waiting == Some(t) <==> Waits(s.threads[t].pc)))
    && (g.writer.Some? ==> g.writer.value in s.threads && g.readers == {})
    && (g.waiting.Some? ==> g.waiting.value in s.threads)
  }

  /** One Close wins, it has set the flag, and it cancels before it takes the gate. */
  ghost predicate CloseOk(s: State)
  {
    var f := s.sh.flags;
    && (forall t :: t in s.threads && WonClose(s.threads[t].pc) ==> f.closed && !f.returned)
    && (forall t, u :: t in s.threads && u in s.threads && WonClose(s.threads[t].pc) && WonClose(s.threads[u].pc) ==> t == u)
    && (forall t :: t in s.threads && WonClose(s.threads[t].pc) && !s.threads[t].pc.c.AtCancel? ==> f.cancelled)
    && (f.returned ==> f.closed && s.sh.rx.latch.ended)
    && (forall t :: t in s.threads && s.threads[t].pc.Closing? && s.threads[t].pc.c.AtRelease? ==> s.sh.rx.latch.ended)
  }

  /** The receive guard has at most one holder, and is set only while it has one. */
  ghost predicate RecvOk(s: State)
  {
    && (forall t :: t in s.threads && HoldsRecv(s.threads[t]) ==> s.sh.rx.busy)
    && (forall t, u :: t in s.threads && u in s.threads && HoldsRecv(s.threads[t]) && HoldsRecv(s.threads[u]) ==> t == u)
    && (s.sh.rx.busy ==> exists t :: t in s.threads && HoldsRecv(s.threads[t]))
  }

  /** The same for the send guard. */
  ghost predicate SendOk(s: State)
  {
    && (forall t :: t in s.threads && HoldsSend(s.threads[t].pc) ==> s.sh.tx.busy)
    && (forall t, u :: t in s.threads && u in s.threads && HoldsSend(s.threads[t].pc) && HoldsSend(s.threads[u].pc) ==> t == u)
    && (s.sh.tx.busy ==> exists t :: t in s.threads && HoldsSend(s.threads[t].pc))
  }

  /** A thread that carries an outcome carries the latched one. */
  predicate OutcomeOk(latch: Latch, pc: PC)
  {
    && (InReceive(pc) ==> !latch.ended)
    && (pc.Receiving? ==>
          match pc.r
          case AtFinish(res) => latch.ended ==> pc.k == Single && Carries(latch, res)
          case AtUnlock(res) => pc.k == Multi && res.Failed? ==> Carries(latch, res)
          case AtLeave(res) => pc.k == Single ==> latch.ended && Carries(latch, res)
          case _ => true)
  }

  /** The outcome of a receive is the latched one: the same error, io.EOF for a
      nil one that another receive latched, or nil for the receive that latched nil. */
  predicate Carries(latch: Latch, res: Outcome)
  {
    if res.Failed? then latch.Terminal() == Some(res.err) else latch.err.None?
  }

  ghost predicate LatchOk(s: State)
  {
    var rx := s.sh.rx;
    && (forall t :: t in s.threads ==> OutcomeOk(rx.latch, s.threads[t].pc))
    && rx.latchings == (if rx.latch.ended then 1 else 0)
    && (forall i :: 0 <= i < |rx.outcomes| ==> rx.latch.Terminal() == Some(rx.outcomes[i]))
  }

  ghost predicate Inv(env: Env, s: State)
  {
    ShapeOk(env, s) && GateOk(s) && CloseOk(s) && RecvOk(s) && SendOk(s) && LatchOk(s)
  }

  lemma InitialInv(env: Env, s: State)
    requires Initial(env, s)
    ensures Inv(env, s)
  {
  }

  // ----- What each kind of step does to its own thread

  lemma PumpLocal(env: Env, rx: Rx, l: Local, c: Choice)
    requires l.pc.Receiving? && OnPump(l.pc.r) && LocalOk(env, l)
    ensures var (rx', r') := PumpStep(env, rx, l.pc.k, l.pc.r, c);
      var pc' := Receiving(l.pc.k, r');
      && LocalOk(env, l.(pc := pc')) && HoldsRead(pc') && Guarded(pc') && rx'.busy == rx.busy
  {
  }

  lemma GuardLocal(env: Env, rx: Rx, l: Local)
    requires l.pc.Receiving? && (l.pc.r.AtGuard? || l.pc.r.AtLeave?) && LocalOk(env, l)
    requires HoldsRecv(l) ==> rx.busy
    ensures var (rx', l') := GuardStep(rx, l, l.pc.k, l.pc.r);
      && LocalOk(env, l') && !l'.pc.Closing? && !l'.pc.Sending?
      && HoldsRead(l'.pc) == HoldsRead(l.pc)
      && (HoldsRecv(l') && !HoldsRecv(l) ==> !rx.busy && rx'.busy)
      && (!HoldsRecv(l') && HoldsRecv(l) ==> !rx'.busy)
      && (HoldsRecv(l') == HoldsRecv(l) ==> rx'.busy == rx.busy)
  {
  }

  lemma GateLocal(env: Env, gate: Gate, rx: Rx, l: Local, t: Tid)
    requires l.pc.Receiving? && (l.pc.r.AtGate? || l.pc.r.AtUnlock?) && LocalOk(env, l)
    ensures var (gate', rx', l') := GateStep(env.shape, gate, rx, l, t, l.pc.k, l.pc.r);
      && LocalOk(env, l') && !WonClose(l'.pc) && !l'.pc.Sending?
      && HoldsRead(l'.pc) == l.pc.r.AtGate? && HoldsRecv(l') == HoldsRecv(l)
      && rx'.busy == rx.busy && rx'.latch == rx.latch
      && gate' == gate.(readers := if l.pc.r.AtGate? then gate.readers + {t} else gate.readers - {t})
  {
  }

  lemma CloseLocal(env: Env, sh: Shared, l: Local, t: Tid)
    requires l.pc.Closing? && LocalOk(env, l)
    ensures var (sh', l') := CloseStep(env, sh, l, t, l.pc.c, l.pc.deferred);
      && LocalOk(env, l') && !HoldsRead(l'.pc) && !l'.pc.Sending? && HoldsRecv(l') == HoldsRecv(l)
      && sh'.rx.busy == sh.rx.busy && sh'.tx == sh.tx && sh'.gate.readers == sh.gate.readers
  {
  }

  lemma SendLocal(env: Env, closed: bool, tx: Tx, l: Local, c: Choice)
    requires HoldsSend(l.pc) && !l.pc.x.AtSendLeave? && LocalOk(env, l)
    ensures var (tx', x') := SendStep(env, closed, tx, l.pc.job, l.pc.x, c);
      LocalOk(env, l.(pc := Sending(x', l.pc.job))) && HoldsSend(Sending(x', l.pc.job)) && tx'.busy == tx.busy
  {
  }

  // ----- What one move of one thread does, without mentioning the other threads

  lemma RecvMove(env: Env, sh: Shared, l: Local, t: Tid, m: Move)
    requires LocalOk(env, l) && CanMove(env, sh, l, m)
    requires HoldsRecv(l) ==> sh.rx.busy
    ensures var (sh', l') := MoveThread(env, sh, l, t, m);
      && LocalOk(env, l')
      && (HoldsRecv(l') && !HoldsRecv(l) ==> !sh.rx.busy && sh'.rx.busy)
      && (!HoldsRecv(l') && HoldsRecv(l) ==> !sh'.rx.busy)
      && (HoldsRecv(l') == HoldsRecv(l) ==> sh'.rx.busy == sh.rx.busy)
  {
    if m.Step? {
      match l.pc
      case User =>
      case Closing(_, _) => CloseLocal(env, sh, l, t);
      case Sending(x, j) =>
        if HoldsSend(l.pc) && !x.AtSendLeave? { SendLocal(env, sh.flags.closed, sh.tx, l, m.choice); }
      case Receiving(_, r) =>
        if OnPump(r) { PumpLocal(env, sh.rx, l, m.choice); }
        else if r.AtGuard? || r.AtLeave? { GuardLocal(env, sh.rx, l); }
        else { GateLocal(env, sh.gate, sh.rx, l, t); }
    }
  }

  lemma GateMove(env: Env, sh: Shared, l: Local, t: Tid, m: Move)
    requires CanMove(env, sh, l, m) && LocalOk(env, l)
    requires HoldsRecv(l) ==> sh.rx.busy
    requires t in sh.gate.readers <==> HoldsRead(l.pc)
    ensures var (sh', l') := MoveThread(env, sh, l, t, m);
      && sh'.gate.readers == (if HoldsRead(l'.pc) then sh.gate.readers + {t} else sh.gate.readers - {t})
      && (HoldsRead(l'.pc) && !HoldsRead(l.pc) ==> sh.gate.writer.None? && sh.gate.waiting.None?)
  {
    if m.Step? {
      match l.pc
      case User =>
      case Closing(_, _) => CloseLocal(env, sh, l, t);
      case Sending(x, j) =>
        if HoldsSend(l.pc) && !x.AtSendLeave? { SendLocal(env, sh.flags.closed, sh.tx, l, m.choice); }
      case Receiving(_, r) =>
        if OnPump(r) { PumpLocal(env, sh.rx, l, m.choice); }
        else if r.AtGuard? || r.AtLeave? { GuardLocal(env, sh.rx, l); }
        else { GateLocal(env, sh.gate, sh.rx, l, t); }
    }
  }

  lemma WriterMove(env: Env, sh: Shared, l: Local, t: Tid, m: Move)
    requires CanMove(env, sh, l, m)
    ensures var (sh', l') := MoveThread(env, sh, l, t, m);
      && sh'.gate.writer == (if HoldsWrite(l'.pc) && !HoldsWrite(l.pc) then Some(t)
                             else if !HoldsWrite(l'.pc) && HoldsWrite(l.pc) then None else sh.gate.writer)
      && sh'.gate.waiting == (if Waits(l'.pc) then Some(t) else if Waits(l.pc) then None else sh.gate.waiting)
      && (HoldsWrite(l'.pc) && !HoldsWrite(l.pc) ==> sh.gate.readers == {} && WonClose(l.pc))
      && (Waits(l'.pc) ==> WonClose(l.pc))
  {
  }

  lemma CloseMove(env: Env, sh: Shared, l: Local, t: Tid, m: Move)
    requires CanMove(env, sh, l, m)
    ensures var (sh', l') := MoveThread(env, sh, l, t, m);
      && (sh.flags.closed ==> sh'.flags.closed) && (sh.flags.cancelled ==> sh'.flags.cancelled)
      && (WonClose(l'.pc) && !WonClose(l.pc) ==> !sh.flags.closed && sh'.flags.closed && l'.pc.c.AtCancel?)
      && (WonClose(l'.pc) && WonClose(l.pc) && l.pc.c.AtCancel? ==> sh'.flags.cancelled)
      && (WonClose(l'.pc) && WonClose(l.pc) ==> !l'.pc.c.AtCancel?)
      && (WonClose(l'.pc) && l'.pc.c.AtRelease? ==> sh'.rx.latch.ended)
      && sh'.flags.returned == (sh.flags.returned || (WonClose(l.pc) && l.pc.c.AtRelease?))
      && (WonClose(l.pc) && l.pc.c.AtRelease? ==> !WonClose(l'.pc))
      && (sh.rx.latch.ended ==> sh'.rx.latch == sh.rx.latch)
  {
  }

  lemma SendMove(env: Env, sh: Shared, l: Local, t: Tid, m: Move)
    requires CanMove(env, sh, l, m)
    requires HoldsSend(l.pc) ==> sh.tx.busy
    ensures var (sh', l') := MoveThread(env, sh, l, t, m);
      && (HoldsSend(l'.pc) && !HoldsSend(l.pc) ==> !sh.tx.busy && sh'.tx.busy)
      && (!HoldsSend(l'.pc) && HoldsSend(l.pc) ==> !sh'.tx.busy)
      && (HoldsSend(l'.pc) == HoldsSend(l.pc) ==> sh'.tx.busy == sh.tx.busy)
  {
  }

  lemma PumpLatch(env: Env, rx: Rx, l: Local, c: Choice)
    requires l.pc.Receiving? && OnPump(l.pc.r) && LocalOk(env, l) && OutcomeOk(rx.latch, l.pc)
    ensures var (rx', r') := PumpStep(env, rx, l.pc.k, l.pc.r, c);
      && OutcomeOk(rx'.latch, Receiving(l.pc.k, r'))
      && (rx'.latch != rx.latch ==> !rx.latch.ended && rx'.latch.ended)
      && rx'.latchings == rx.latchings + (if rx.latch.ended == rx'.latch.ended then 0 else 1)
  {
  }

  lemma GuardLatch(env: Env, rx: Rx, l: Local)
    requires l.pc.Receiving? && (l.pc.r.AtGuard? || l.pc.r.AtLeave?) && OutcomeOk(rx.latch, l.pc)
    ensures var (rx', l') := GuardStep(rx, l, l.pc.k, l.pc.r);
      rx'.latch == rx.latch && rx'.latchings == rx.latchings && OutcomeOk(rx.latch, l'.pc)
  {
  }

  lemma GateLatch(env: Env, gate: Gate, rx: Rx, l: Local, t: Tid)
    requires l.pc.Receiving? && (l.pc.r.AtGate? || l.pc.r.AtUnlock?) && OutcomeOk(rx.latch, l.pc)
    ensures var (gate', rx', l') := GateStep(env.shape, gate, rx, l, t, l.pc.k, l.pc.r);
      rx'.latch == rx.latch && rx'.latchings == rx.latchings && OutcomeOk(rx.latch, l'.pc)
  {
  }

  lemma LatchMove(env: Env, sh: Shared, l: Local, t: Tid, m: Move)
    requires CanMove(env, sh, l, m) && LocalOk(env, l) && OutcomeOk(sh.rx.latch, l.pc)
    ensures var (sh', l') := MoveThread(env, sh, l, t, m);
      && OutcomeOk(sh'.rx.latch, l'.pc)
      && (sh'.rx.latch != sh.rx.latch ==>
            !sh.rx.latch.ended && sh'.rx.latch.ended
            && ((HoldsRead(l.pc) && Guarded(l.pc)) || HoldsWrite(l.pc)))
      && sh'.rx.latchings == sh.rx.latchings + (if sh.rx.latch.ended == sh'.rx.latch.ended then 0 else 1)
  {
    if m.Step? && l.pc.Receiving? {
      if OnPump(l.pc.r) { PumpLatch(env, sh.rx, l, m.choice); }
      else if l.pc.r.AtGuard? || l.pc.r.AtLeave? { GuardLatch(env, sh.rx, l); }
      else { GateLatch(env, sh.gate, sh.rx, l, t); }
    }
  }

  lemma OutcomesMove(env: Env, sh: Shared, l: Local, t: Tid, m: Move)
    requires CanMove(env, sh, l, m) && OutcomeOk(sh.rx.latch, l.pc)
    ensures var (sh', l') := MoveThread(env, sh, l, t, m);
      || sh'.rx.outcomes == sh.rx.outcomes
      || (exists e :: sh'.rx.outcomes == sh.rx.outcomes + [e] && sh'.rx.latch == sh.rx.latch
                      && sh.rx.latch.Terminal() == Some(e))
  {
  }

  // ----- Every action keeps every part

  lemma ShapeKept(env: Env, s: State, a: Action)
    requires Inv(env, s) && Enabled(env, s, a)
    ensures ShapeOk(env, Next(env, s, a))
  {
    if a.Act? {
      RecvMove(env, s.sh, s.threads[a.t], a.t, a.move);
    }
  }

  /** The gate after one thread has moved, for any move that changes it only as the
      thread's own program counter says. */
  lemma GateCarried(s: State, t: Tid, sh': Shared, l': Local)
    requires GateOk(s) && CloseOk(s) && t in s.threads
    requires var (g, g', pc, pc') := (s.sh.gate, sh'.gate, s.threads[t].pc, l'.pc);
      && g'.readers == (if HoldsRead(pc') then g.readers + {t} else g.readers - {t})
      && (HoldsRead(pc') && !HoldsRead(pc) ==> g.writer.None? && g.waiting.None?)
      && g'.writer == (if HoldsWrite(pc') && !HoldsWrite(pc) then Some(t) else if !HoldsWrite(pc') && HoldsWrite(pc) then None else g.writer)
      && g'.waiting == (if Waits(pc') then Some(t) else if Waits(pc) then None else g.waiting)
      && (HoldsWrite(pc') && !HoldsWrite(pc) ==> g.readers == {} && WonClose(pc)) && (Waits(pc') ==> WonClose(pc))
    ensures GateOk(State(sh', s.threads[t := l']))
  {
  }

  lemma GateKept(env: Env, s: State, a: Action)
    requires Inv(env, s) && Enabled(env, s, a)
    ensures GateOk(Next(env, s, a))
  {
    if a.Act? {
      var (sh', l') := MoveThread(env, s.sh, s.threads[a.t], a.t, a.move);
      GateMove(env, s.sh, s.threads[a.t], a.t, a.move);
      WriterMove(env, s.sh, s.threads[a.t], a.t, a.move);
      GateCarried(s, a.t, sh', l');
    }
  }

  lemma CloseKept(env: Env, s: State, a: Action)
    requires Inv(env, s) && Enabled(env, s, a)
    ensures CloseOk(Next(env, s, a))
  {
    if a.Act? {
      CloseMove(env, s.sh, s.threads[a.t], a.t, a.move);
    }
  }

  lemma RecvKept(env: Env, s: State, a: Action)
    requires Inv(env, s) && Enabled(env, s, a)
    ensures RecvOk(Next(env, s, a))
  {
    if a.Act? {
      RecvMove(env, s.sh, s.threads[a.t], a.t, a.move);
      var s' := Next(env, s, a);
      if s'.sh.rx.busy && !HoldsRecv(s'.threads[a.t]) {
        var u :| u in s.threads && HoldsRecv(s.threads[u]);
        assert u in s'.threads && HoldsRecv(s'.threads[u]);
      }
    }
  }

  lemma SendKept(env: Env, s: State, a: Action)
    requires Inv(env, s) && Enabled(env, s, a)
    ensures SendOk(Next(env, s, a))
  {
    if a.Act? {
      SendMove(env, s.sh, s.threads[a.t], a.t, a.move);
      var s' := Next(env, s, a);
      if s'.sh.tx.busy && !HoldsSend(s'.threads[a.t].pc) {
        var u :| u in s.threads && HoldsSend(s.threads[u].pc);
        assert u in s'.threads && HoldsSend(s'.threads[u].pc);
      }
    }
  }

  /** When one thread sets the latch, no other is inside a receive. */
  lemma LatchAlone(env: Env, s: State, t: Tid, u: Tid)
    requires Inv(env, s) && t in s.threads && u in s.threads && t != u
    requires (HoldsRead(s.threads[t].pc) && Guarded(s.threads[t].pc)) || HoldsWrite(s.threads[t].pc)
    ensures !(HoldsRead(s.threads[u].pc) && Guarded(s.threads[u].pc))
  {
    if HoldsWrite(s.threads[t].pc) {
      assert s.sh.gate.writer == Some(t);
    } else if Guarded(s.threads[u].pc) {
      assert HoldsRecv(s.threads[t]) && HoldsRecv(s.threads[u]);
    }
  }

  lemma LatchKept(env: Env, s: State, a: Action)
    requires Inv(env, s) && Enabled(env, s, a)
    ensures LatchOk(Next(env, s, a))
  {
    if a.Act? {
      var s' := Next(env, s, a);
      LatchMove(env, s.sh, s.threads[a.t], a.t, a.move);
      OutcomesMove(env, s.sh, s.threads[a.t], a.t, a.move);
      forall u | u in s'.threads ensures OutcomeOk(s'.sh.rx.latch, s'.threads[u].pc) {
        if u != a.t && s'.sh.rx.latch != s.sh.rx.latch {
          LatchAlone(env, s, a.t, u);
        }
      }
      assert s'.sh.rx.outcomes != [] ==> s'.sh.rx.outcomes == s.sh.rx.outcomes || s'.sh.rx.latch == s.sh.rx.latch;
    }
  }

  /** Every step of every interleaving keeps the invariant. */
  lemma InvKept(env: Env, s: State, a: Action)
    requires Inv(env, s) && Enabled(env, s, a)
    ensures Inv(env, Next(env, s, a))
  {
    ShapeKept(env, s, a);
    GateKept(env, s, a);
    CloseKept(env, s, a);
    RecvKept(env, s, a);
    SendKept(env, s, a);
    LatchKept(env, s, a);
  }

  lemma {:induction false} InvAlongRun(env: Env, s: State, acts: seq<Action>, s': State)
    requires Inv(env, s) && Run(env, s, acts, s')
    ensures Inv(env, s')
    decreases |acts|
  {
    if acts != [] {
      InvKept(env, s, acts[0]);
      InvAlongRun(env, Next(env, s, acts[0]), acts[1..], s');
    }
  }

  // ----- What holds in every reachable state

  /** Using poseidon's unguarded receive state or the receive scratch: a receive,
      the snapshot of finish, or the winning Close. */
  predicate TouchesReceiveState(pc: PC)
  {
    InReceive(pc) || (pc.Receiving? && pc.r.AtFinish?) || HoldsWrite(pc)
  }

  /** Receive exclusion: in every reachable state at most one thread touches
      poseidon's receive state, whether it receives, snapshots or closes. */
  lemma ReceiveExclusion(env: Env, s0: State, acts: seq<Action>, s: State, t: Tid, u: Tid)
    requires Initial(env, s0) && Run(env, s0, acts, s)
    requires t in s.threads && u in s.threads
    requires TouchesReceiveState(s.threads[t].pc) && TouchesReceiveState(s.threads[u].pc)
    ensures t == u
  {
    InitialInv(env, s0);
    InvAlongRun(env, s0, acts, s);
    if t != u {
      if !HoldsWrite(s.threads[u].pc) {
        LatchAlone(env, s, t, u);
      } else if !HoldsWrite(s.threads[t].pc) {
        LatchAlone(env, s, u, t);
      }
    }
  }

  lemma LatchStep(env: Env, s: State, a: Action)
    requires Inv(env, s) && Enabled(env, s, a) && s.sh.rx.latch.ended
    ensures Next(env, s, a).sh.rx.latch == s.sh.rx.latch
  {
    if a.Act? {
      CloseMove(env, s.sh, s.threads[a.t], a.t, a.move);
    }
  }

  /** Terminal latch stability: once the outcome is set, no continuation of the
      run changes the error, the status or the trailers, and no thread is ever
      again inside a receive or a header fetch. */
  lemma {:induction false} EndIsFinal(env: Env, s: State, more: seq<Action>, s': State)
    requires Inv(env, s) && s.sh.rx.latch.ended && Run(env, s, more, s')
    ensures s'.sh.rx.latch == s.sh.rx.latch
    ensures forall t :: t in s'.threads ==> !InReceive(s'.threads[t].pc)
    decreases |more|
  {
    if more == [] {
      forall t | t in s'.threads ensures !InReceive(s'.threads[t].pc) {
        assert OutcomeOk(s'.sh.rx.latch, s'.threads[t].pc);
      }
    } else {
      InvKept(env, s, more[0]);
      LatchStep(env, s, more[0]);
      EndIsFinal(env, Next(env, s, more[0]), more[1..], s');
    }
  }

  /** Once the winning Close has returned, the outcome is latched and no thread
      ever starts another poseidon receive or Header call. */
  lemma NoReceiveAfterClose(env: Env, s0: State, acts: seq<Action>, s: State, more: seq<Action>, s': State)
    requires Initial(env, s0) && Run(env, s0, acts, s) && s.sh.flags.returned && Run(env, s, more, s')
    ensures s.sh.rx.latch.ended && s'.sh.rx.latch == s.sh.rx.latch
    ensures forall t :: t in s'.threads ==> !InReceive(s'.threads[t].pc)
  {
    InitialInv(env, s0);
    InvAlongRun(env, s0, acts, s);
    EndIsFinal(env, s, more, s');
  }

  /** Exactly one of finish and Close sets the outcome, and every error an
      admitted receive ever returns in the run is that one outcome. */
  lemma OneOutcome(env: Env, s0: State, acts: seq<Action>, s: State)
    requires Initial(env, s0) && Run(env, s0, acts, s)
    ensures s.sh.rx.latchings == (if s.sh.rx.latch.ended then 1 else 0)
    ensures forall e :: e in s.sh.rx.outcomes ==> s.sh.rx.latch.Terminal() == Some(e)
  {
    InitialInv(env, s0);
    InvAlongRun(env, s0, acts, s);
  }

  /** No guard leaks, whatever panicked: when every thread is back in user code
      outside an iteration, both guards and the gate are free. */
  lemma QuiescentIsFree(env: Env, s0: State, acts: seq<Action>, s: State)
    requires Initial(env, s0) && Run(env, s0, acts, s)
    requires forall t :: t in s.threads ==> s.threads[t].pc == User && s.threads[t].iter == Out
    ensures !s.sh.rx.busy && !s.sh.tx.busy && s.sh.gate == Gate({}, None, None)
  {
    InitialInv(env, s0);
    InvAlongRun(env, s0, acts, s);
    assert forall t :: t in s.sh.gate.readers ==> t in s.threads;
    assert s.sh.gate.readers == {};
  }

  // ----- The receive log

  /** The messages among some payloads: those that decode, in order. */
  function Messages(codec: Codec, payloads: seq<Bytes>): seq<Message>
  {
    if payloads == [] then []
    else
      var rest, d := Messages(codec, payloads[..|payloads| - 1]), codec.decode(payloads[|payloads| - 1]);
      if d.Decoded? then rest + [d.message] else rest
  }

  lemma {:induction false} MessagesStep(codec: Codec, payloads: seq<Bytes>, n: nat)
    requires n < |payloads|
    ensures var d := codec.decode(payloads[n]);
      Messages(codec, payloads[..n + 1]) == Messages(codec, payloads[..n]) + if d.Decoded? then [d.message] else []
  {
    assert payloads[..n + 1][..n] == payloads[..n];
  }

  /** The callers have been handed the messages of the first n payloads, none of
      which failed to decode; one on which the codec panicked counts for nothing. */
  predicate Handed(env: Env, received: seq<Message>, n: nat)
  {
    && n <= |env.peer.payloads|
    && (forall i :: 0 <= i < n ==> !env.codec.decode(env.peer.payloads[i]).DecodeFails?)
    && received == Messages(env.codec, env.peer.payloads[..n])
  }

  /** Everything consumed so far has been handed out. */
  predicate Settled(env: Env, rx: Rx)
  {
    Handed(env, rx.received, rx.pos)
  }

  /** What a thread knows of the scratch and of the position in the peer's list. */
  predicate BufferOk(env: Env, rx: Rx, pc: PC)
  {
    pc.Receiving? ==>
      match pc.r
      case InDecode =>
        0 < rx.pos <= |env.peer.payloads| && rx.buf == env.peer.payloads[rx.pos - 1] && Handed(env, rx.received, rx.pos - 1)
      case _ => InReceive(pc) ==> Settled(env, rx)
  }

  /** A payload or the end is consumed and its consequence not yet recorded. */
  predicate InFlight(pc: PC)
  {
    pc.Receiving? && (pc.r.InDecode? || pc.r.AtFinish?)
  }

  /** The messages handed to callers are those of the events consumed, or of all
      of them but the last: the end, or a payload that is not yet or not a message. */
  predicate Delivered(env: Env, rx: Rx)
  {
    Settled(env, rx) || (rx.pos > 0 && Handed(env, rx.received, rx.pos - 1))
  }

  predicate ReceivedPrefix(env: Env, rx: Rx)
  {
    rx.pos <= rx.arrived <= |env.peer.payloads| + 1 && Delivered(env, rx)
  }

  ghost predicate DeliveredOk(env: Env, s: State)
  {
    && ReceivedPrefix(env, s.sh.rx)
    && (forall t :: t in s.threads ==> BufferOk(env, s.sh.rx, s.threads[t].pc))
    && (s.sh.rx.latch.ended || Settled(env, s.sh.rx) || exists t :: t in s.threads && InFlight(s.threads[t].pc))
  }

  lemma DecodeHands(env: Env, rx: Rx)
    requires 0 < rx.pos <= |env.peer.payloads| && rx.buf == env.peer.payloads[rx.pos - 1] && Handed(env, rx.received, rx.pos - 1)
    ensures var d := env.codec.decode(rx.buf);
      && (d.Decoded? ==> Settled(env, rx.(received := rx.received + [d.message])))
      && (d.DecodePanics? ==> Settled(env, rx))
  {
    MessagesStep(env.codec, env.peer.payloads, rx.pos - 1);
  }

  /** The pump's step of one thread. */
  lemma DeliverPump(env: Env, rx: Rx, l: Local, sh: Shared, c: Choice)
    requires l.pc.Receiving? && OnPump(l.pc.r) && LocalOk(env, l) && OutcomeOk(rx.latch, l.pc)
    requires sh.rx == rx && CanStep(sh, l, c)
    requires ReceivedPrefix(env, rx) && BufferOk(env, rx, l.pc)
    requires l.pc.r.AtTerminal? ==> rx.latch.ended || Settled(env, rx)
    ensures var (rx', r') := PumpStep(env, rx, l.pc.k, l.pc.r, c);
      && ReceivedPrefix(env, rx') && BufferOk(env, rx', Receiving(l.pc.k, r'))
      && ((rx'.pos == rx.pos && rx'.buf == rx.buf && rx'.received == rx.received) || InReceive(l.pc))
      && (rx'.latch.ended || Settled(env, rx') || InFlight(Receiving(l.pc.k, r'))
          || (!InReceive(l.pc) && !InFlight(l.pc) && rx'.pos == rx.pos && rx'.received == rx.received))
  {
    if l.pc.r.InDecode? {
      DecodeHands(env, rx);
    }
  }

  predicate PumpMove(l: Local, m: Move)
  {
    m.Step? && l.pc.Receiving? && OnPump(l.pc.r)
  }

  /** Every other move leaves the pump, the scratch and the log alone. */
  lemma OtherMove(env: Env, sh: Shared, l: Local, t: Tid, m: Move)
    requires CanMove(env, sh, l, m) && !PumpMove(l, m)
    ensures var (sh', l') := MoveThread(env, sh, l, t, m);
      && sh'.rx.pos == sh.rx.pos && sh'.rx.buf == sh.rx.buf && sh'.rx.received == sh.rx.received
      && sh'.rx.arrived == sh.rx.arrived
      && !InReceive(l'.pc) && !InFlight(l'.pc)
  {
  }

  lemma DeliverMove(env: Env, sh: Shared, l: Local, t: Tid, m: Move)
    requires LocalOk(env, l) && OutcomeOk(sh.rx.latch, l.pc) && CanMove(env, sh, l, m)
    requires ReceivedPrefix(env, sh.rx) && BufferOk(env, sh.rx, l.pc)
    requires l.pc.Receiving? && l.pc.r.AtTerminal? ==> sh.rx.latch.ended || Settled(env, sh.rx)
    ensures var (sh', l') := MoveThread(env, sh, l, t, m);
      && ReceivedPrefix(env, sh'.rx) && BufferOk(env, sh'.rx, l'.pc)
      && ((sh'.rx.pos == sh.rx.pos && sh'.rx.buf == sh.rx.buf && sh'.rx.received == sh.rx.received) || InReceive(l.pc))
      && (sh'.rx.latch.ended || Settled(env, sh'.rx) || InFlight(l'.pc)
          || (!InReceive(l.pc) && !InFlight(l.pc) && sh'.rx.pos == sh.rx.pos && sh'.rx.received == sh.rx.received))
  {
    if PumpMove(l, m) {
      DeliverPump(env, sh.rx, l, sh, m.choice);
    } else {
      OtherMove(env, sh, l, t, m);
    }
  }

  /** A thread that finds the stream running has the pump to itself. */
  lemma SettledAtTerminal(env: Env, s: State, t: Tid)
    requires Inv(env, s) && DeliveredOk(env, s)
    requires t in s.threads && s.threads[t].pc.Receiving? && s.threads[t].pc.r.AtTerminal?
    ensures s.sh.rx.latch.ended || Settled(env, s.sh.rx)
  {
    forall u | u in s.threads ensures !InFlight(s.threads[u].pc) {
      if u != t { LatchAlone(env, s, t, u); }
    }
  }

  /** The same as DeliverMove, from the invariants of the whole state. */
  lemma DeliverOwn(env: Env, s: State, t: Tid, m: Move)
    requires Inv(env, s) && Enabled(env, s, Act(t, m)) && DeliveredOk(env, s)
    ensures var (l, rx) := (s.threads[t], s.sh.rx);
      var (sh', l') := MoveThread(env, s.sh, l, t, m);
      && ReceivedPrefix(env, sh'.rx) && BufferOk(env, sh'.rx, l'.pc)
      && ((sh'.rx.pos == rx.pos && sh'.rx.buf == rx.buf && sh'.rx.received == rx.received) || InReceive(l.pc))
      && (sh'.rx.latch.ended || Settled(env, sh'.rx) || InFlight(l'.pc)
          || (!InReceive(l.pc) && !InFlight(l.pc) && sh'.rx.pos == rx.pos && sh'.rx.received == rx.received))
      && (rx.latch.ended ==> sh'.rx.latch.ended)
  {
    var l := s.threads[t];
    if l.pc.Receiving? && l.pc.r.AtTerminal? { SettledAtTerminal(env, s, t); }
    DeliverMove(env, s.sh, l, t, m);
    CloseMove(env, s.sh, l, t, m);
  }

  lemma OthersBuffer(env: Env, s: State, t: Tid, sh': Shared, u: Tid)
    requires Inv(env, s) && DeliveredOk(env, s) && t in s.threads && u in s.threads && u != t
    requires (sh'.rx.pos == s.sh.rx.pos && sh'.rx.buf == s.sh.rx.buf && sh'.rx.received == s.sh.rx.received) || InReceive(s.threads[t].pc)
    ensures BufferOk(env, sh'.rx, s.threads[u].pc)
  {
    if InReceive(s.threads[t].pc) { LatchAlone(env, s, t, u); }
  }

  lemma FlightCarried(env: Env, s: State, t: Tid, sh': Shared, l': Local)
    requires DeliveredOk(env, s) && t in s.threads && (s.sh.rx.latch.ended ==> sh'.rx.latch.ended)
    requires
      sh'.rx.latch.ended || Settled(env, sh'.rx) || InFlight(l'.pc)
      || (!InReceive(s.threads[t].pc) && !InFlight(s.threads[t].pc) && sh'.rx.pos == s.sh.rx.pos && sh'.rx.received == s.sh.rx.received)
    ensures var s' := State(sh', s.threads[t := l']);
      s'.sh.rx.latch.ended || Settled(env, s'.sh.rx) || exists u :: u in s'.threads && InFlight(s'.threads[u].pc)
  {
    var s' := State(sh', s.threads[t := l']);
    if InFlight(l'.pc) {
      assert t in s'.threads && InFlight(s'.threads[t].pc);
    } else if !sh'.rx.latch.ended && !Settled(env, sh'.rx) {
      var u :| u in s.threads && InFlight(s.threads[u].pc);
      assert u in s'.threads && InFlight(s'.threads[u].pc);
    }
  }

  lemma DeliveredAct(env: Env, s: State, t: Tid, m: Move)
    requires Inv(env, s) && Enabled(env, s, Act(t, m)) && DeliveredOk(env, s)
    ensures DeliveredOk(env, Next(env, s, Act(t, m)))
  {
    var (sh', l') := MoveThread(env, s.sh, s.threads[t], t, m);
    DeliverOwn(env, s, t, m);
    FlightCarried(env, s, t, sh', l');
    forall u | u in s.threads && u != t ensures BufferOk(env, sh'.rx, s.threads[u].pc) {
      OthersBuffer(env, s, t, sh', u);
    }
    assert Next(env, s, Act(t, m)) == State(sh', s.threads[t := l']);
  }

  lemma DeliveredEnvironment(env: Env, s: State, a: Action)
    requires DeliveredOk(env, s) && Enabled(env, s, a) && !a.Act?
    ensures DeliveredOk(env, Next(env, s, a))
  {
  }

  lemma DeliveredKept(env: Env, s: State, a: Action)
    requires Inv(env, s) && Enabled(env, s, a) && DeliveredOk(env, s)
    ensures DeliveredOk(env, Next(env, s, a))
  {
    if a.Act? {
      DeliveredAct(env, s, a.t, a.move);
    } else {
      DeliveredEnvironment(env, s, a);
    }
  }

  lemma {:induction false} DeliveredAlongRun(env: Env, s: State, acts: seq<Action>, s': State)
    requires Inv(env, s) && DeliveredOk(env, s) && Run(env, s, acts, s')
    ensures DeliveredOk(env, s')
    decreases |acts|
  {
    if acts != [] {
      InvKept(env, s, acts[0]);
      DeliveredKept(env, s, acts[0]);
      DeliveredAlongRun(env, Next(env, s, acts[0]), acts[1..], s');
    }
  }

  /** No message is lost, duplicated, reordered or torn: in every interleaving of
      any number of receivers and closers, the messages handed out are exactly the
      messages of the events consumed so far, in order, except for the last event:
      it may be the end, have failed to decode, or be one message too many. While
      the stream runs not even that is missing, unless a receive is at work on it. */
  lemma MessagesInOrder(env: Env, s0: State, acts: seq<Action>, s: State)
    requires Initial(env, s0) && Run(env, s0, acts, s)
    ensures Delivered(env, s.sh.rx)
    ensures s.sh.rx.latch.ended || Settled(env, s.sh.rx) || exists t :: t in s.threads && InFlight(s.threads[t].pc)
  {
    InitialInv(env, s0);
    DeliveredAlongRun(env, s0, acts, s);
  }

  /** With a codec that never panics, the i-th message handed out is the decoding
      of the i-th payload. */
  lemma {:induction false} HandedOneByOne(env: Env, received: seq<Message>, n: nat)
    requires Handed(env, received, n) && forall i :: 0 <= i < n ==> !env.codec.decode(env.peer.payloads[i]).DecodePanics?
    ensures |received| == n && forall i :: 0 <= i < n ==> env.codec.decode(env.peer.payloads[i]) == Decoded(received[i])
    decreases n
  {
    if n > 0 {
      MessagesStep(env.codec, env.peer.payloads, n - 1);
      HandedOneByOne(env, Messages(env.codec, env.peer.payloads[..n - 1]), n - 1);
    }
  }
}
