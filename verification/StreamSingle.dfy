/** The single response of a client stream, in every interleaving. */
module StreamSingle {
  import opened StreamProtocol
  import opened StreamSafety
  import opened StreamStatus
  import O = StreamObject

  /** The peer sent one message that decodes, and then ended the call cleanly. */
  predicate OneAnswer(env: Env)
  {
    |env.peer.payloads| == 1 && env.codec.decode(env.peer.payloads[0]).Decoded? && env.peer.end.CleanEnd?
  }

  predicate FirstDecodes(env: Env)
  {
    |env.peer.payloads| > 0 && env.codec.decode(env.peer.payloads[0]).Decoded?
  }

  /** The result a receive is about to latch or to return. */
  predicate Returns(pc: PC, res: Outcome)
  {
    pc.Receiving? && (pc.r == AtFinish(res) || pc.r == AtLeave(res) || pc.r == AtUnlock(res))
  }

  /** What a thread in recvSingle knows of the peer and of the events consumed. */
  predicate SingleOk(env: Env, pos: nat, pc: PC)
  {
    pc.Receiving? && pc.k == Single ==>
      && (InReceive(pc) && !pc.r.InPull? && !pc.r.InDecode? ==> FirstDecodes(env))
      && (Returns(pc, Done) ==> OneAnswer(env) && pos >= 2)
  }

  ghost predicate SinglesOk(env: Env, s: State)
  {
    forall t :: t in s.threads ==> SingleOk(env, s.sh.rx.pos, s.threads[t].pc)
  }

  /** The drain: only a clean end after exactly one message is a success. */
  lemma DrainAnswers(env: Env, sh: Shared, l: Local, c: Choice)
    requires l.pc.Receiving? && l.pc.r.InDrain? && LocalOk(env, l) && CanPull(sh, l, c)
    requires HonestPeer(env.peer) && (sh.rx.fault.Some? ==> Honest(sh.rx.fault.value))
    requires ThreadPos(env, sh.rx, l.pc) && SingleOk(env, sh.rx.pos, l.pc) && Drained(Pull(env, sh.rx.pos, c)) == Done
    ensures OneAnswer(env)
  {
  }

  lemma SinglePump(env: Env, sh: Shared, l: Local, c: Choice)
    requires l.pc.Receiving? && OnPump(l.pc.r) && LocalOk(env, l) && CanStep(sh, l, c)
    requires HonestPeer(env.peer) && (sh.rx.fault.Some? ==> Honest(sh.rx.fault.value))
    requires ThreadPos(env, sh.rx, l.pc) && SingleOk(env, sh.rx.pos, l.pc)
    ensures var (rx', r') := PumpStep(env, sh.rx, l.pc.k, l.pc.r, c); SingleOk(env, rx'.pos, Receiving(l.pc.k, r')) && rx'.pos >= sh.rx.pos
  {
    if l.pc.r.InDrain? && Drained(Pull(env, sh.rx.pos, c)) == Done {
      DrainAnswers(env, sh, l, c);
    }
  }

  lemma SingleMove(env: Env, sh: Shared, l: Local, t: Tid, m: Move)
    requires CanMove(env, sh, l, m) && LocalOk(env, l)
    requires HonestPeer(env.peer) && (sh.rx.fault.Some? ==> Honest(sh.rx.fault.value))
    requires ThreadPos(env, sh.rx, l.pc) && SingleOk(env, sh.rx.pos, l.pc)
    ensures var (sh', l') := MoveThread(env, sh, l, t, m); SingleOk(env, sh'.rx.pos, l'.pc) && sh'.rx.pos >= sh.rx.pos
  {
    if PumpMove(l, m) {
      SinglePump(env, sh, l, m.choice);
    }
  }

  lemma SinglesKept(env: Env, s: State, a: Action)
    requires Inv(env, s) && HonestOk(env, s) && HonestPeer(env.peer) && Enabled(env, s, a) && SinglesOk(env, s)
    ensures SinglesOk(env, Next(env, s, a))
  {
    if a.Act? {
      SingleMove(env, s.sh, s.threads[a.t], a.t, a.move);
    }
  }

  lemma {:induction false} SinglesAlongRun(env: Env, s: State, acts: seq<Action>, s': State)
    requires Inv(env, s) && HonestOk(env, s) && HonestPeer(env.peer) && SinglesOk(env, s)
    requires Run(env, s, acts, s') && HonestRun(acts)
    ensures SinglesOk(env, s')
    decreases |acts|
  {
    if acts != [] {
      InvKept(env, s, acts[0]);
      HonestKept(env, s, acts[0]);
      SinglesKept(env, s, acts[0]);
      SinglesAlongRun(env, Next(env, s, acts[0]), acts[1..], s');
    }
  }

  /** recvSingle under concurrency: whatever other threads receive, send, close or
      fail, a receive that returns nil has seen one message and a clean end, that
      message is what was handed out, and it is what the sequential object answers. */
  lemma SingleSuccess(env: Env, s0: State, acts: seq<Action>, s: State, t: Tid)
    requires Initial(env, s0) && Run(env, s0, acts, s) && HonestPeer(env.peer) && HonestRun(acts)
    requires t in s.threads && Returns(s.threads[t].pc, Done) && s.threads[t].pc.k == Single
    ensures OneAnswer(env)
    ensures var m := env.codec.decode(env.peer.payloads[0]).message;
      s.sh.rx.received == [m] && O.SingleVerdict(env.peer, env.codec) == O.Answer(m)
  {
    InitialInv(env, s0);
    SinglesAlongRun(env, s0, acts, s);
    DeliveredAlongRun(env, s0, acts, s);
    assert SingleOk(env, s.sh.rx.pos, s.threads[t].pc);
    OnlyMessage(env, s.sh.rx);
    O.SingleAnswerIff(env.peer, env.codec, env.codec.decode(env.peer.payloads[0]).message);
  }

  lemma OnlyMessage(env: Env, rx: Rx)
    requires OneAnswer(env) && rx.pos >= 2 && Delivered(env, rx)
    ensures rx.received == [env.codec.decode(env.peer.payloads[0]).message]
  {
    assert env.peer.payloads[..1] == env.peer.payloads;
    MessagesStep(env.codec, env.peer.payloads, 0);
  }

  // ----- The two models of recvSingle agree

  function ResultOf(v: O.Verdict): Outcome
  {
    match v
    case Answer(_) => Done
    case Rejected(e) => Failed(e)
    case Crashed => Panicked
  }

  /** A result about to be latched is the sequential verdict on the peer's events,
      and the events consumed are those the sequential object consumes. */
  predicate Matches(env: Env, rx: Rx, pc: PC)
  {
    pc.Receiving? && pc.r.AtFinish? && !rx.latch.ended ==>
      && pc.r.res == ResultOf(O.SingleVerdict(env.peer, env.codec))
      && rx.pos == O.SinglePos(env.peer, env.codec)
  }

  predicate LatchMatches(env: Env, rx: Rx)
  {
    rx.latch.ended ==> rx.latch == O.SingleLatch(env.peer, env.codec)
  }

  /** A client stream that nobody closes on a transport that holds. */
  ghost predicate Calm(env: Env, s: State)
  {
    && env.shape == ClientShape && s.sh.rx.fault.None? && !s.sh.flags.cancelled && LatchMatches(env, s.sh.rx)
    && (forall t :: t in s.threads ==> !s.threads[t].pc.Closing? && Matches(env, s.sh.rx, s.threads[t].pc))
  }

  predicate CalmAction(a: Action)
  {
    !a.Break? && (a.Act? ==> !(a.move.Start? && a.move.op.Close?))
  }

  lemma CalmPump(env: Env, sh: Shared, l: Local, c: Choice)
    requires l.pc.Receiving? && OnPump(l.pc.r) && LocalOk(env, l) && CanStep(sh, l, c) && env.shape == ClientShape
    requires sh.rx.fault.None? && !sh.flags.cancelled && OutcomeOk(sh.rx.latch, l.pc)
    requires ThreadPos(env, sh.rx, l.pc) && SingleOk(env, sh.rx.pos, l.pc) && Matches(env, sh.rx, l.pc) && LatchMatches(env, sh.rx)
    ensures var (rx', r') := PumpStep(env, sh.rx, l.pc.k, l.pc.r, c);
      && Matches(env, rx', Receiving(l.pc.k, r')) && LatchMatches(env, rx') && rx'.fault.None?
      && (rx'.pos == sh.rx.pos || InReceive(l.pc)) && (sh.rx.latch.ended ==> rx'.latch.ended)
  {
  }

  lemma CalmMove(env: Env, sh: Shared, l: Local, t: Tid, m: Move)
    requires CanMove(env, sh, l, m) && LocalOk(env, l) && env.shape == ClientShape && CalmAction(Act(t, m)) && !l.pc.Closing?
    requires sh.rx.fault.None? && !sh.flags.cancelled && OutcomeOk(sh.rx.latch, l.pc)
    requires ThreadPos(env, sh.rx, l.pc) && SingleOk(env, sh.rx.pos, l.pc) && Matches(env, sh.rx, l.pc) && LatchMatches(env, sh.rx)
    ensures var (sh', l') := MoveThread(env, sh, l, t, m);
      && Matches(env, sh'.rx, l'.pc) && LatchMatches(env, sh'.rx) && sh'.rx.fault.None? && !sh'.flags.cancelled && !l'.pc.Closing?
      && (sh'.rx.pos == sh.rx.pos || InReceive(l.pc)) && (sh.rx.latch.ended ==> sh'.rx.latch.ended)
  {
    if PumpMove(l, m) {
      CalmPump(env, sh, l, m.choice);
    }
  }

  lemma OthersMatch(env: Env, s: State, t: Tid, sh': Shared, u: Tid)
    requires Inv(env, s) && Calm(env, s) && t in s.threads && u in s.threads && u != t
    requires (sh'.rx.pos == s.sh.rx.pos || InReceive(s.threads[t].pc)) && (s.sh.rx.latch.ended ==> sh'.rx.latch.ended)
    ensures Matches(env, sh'.rx, s.threads[u].pc)
  {
    if InReceive(s.threads[t].pc) { LatchAlone(env, s, t, u); }
  }

  lemma CalmKept(env: Env, s: State, a: Action)
    requires Inv(env, s) && HonestOk(env, s) && SinglesOk(env, s) && Calm(env, s) && Enabled(env, s, a) && CalmAction(a)
    ensures Calm(env, Next(env, s, a))
  {
    if a.Act? {
      var (sh', l') := MoveThread(env, s.sh, s.threads[a.t], a.t, a.move);
      CalmMove(env, s.sh, s.threads[a.t], a.t, a.move);
      forall u | u in s.threads && u != a.t ensures Matches(env, sh'.rx, s.threads[u].pc) {
        OthersMatch(env, s, a.t, sh', u);
      }
    }
  }

  predicate CalmRun(acts: seq<Action>)
  {
    forall i :: 0 <= i < |acts| ==> CalmAction(acts[i])
  }

  lemma {:induction false} CalmAlongRun(env: Env, s: State, acts: seq<Action>, s': State)
    requires Inv(env, s) && HonestOk(env, s) && HonestPeer(env.peer) && SinglesOk(env, s) && Calm(env, s)
    requires Run(env, s, acts, s') && CalmRun(acts)
    ensures Calm(env, s')
    decreases |acts|
  {
    if acts != [] {
      assert CalmAction(acts[0]);
      InvKept(env, s, acts[0]);
      HonestKept(env, s, acts[0]);
      SinglesKept(env, s, acts[0]);
      CalmKept(env, s, acts[0]);
      CalmAlongRun(env, Next(env, s, acts[0]), acts[1..], s');
    }
  }

  /** In every interleaving of sends and receives on a client stream that is neither
      closed nor broken, what is latched, error, status and trailers, is what the
      sequential object latches for that peer. */
  lemma SingleAgreesWithObject(env: Env, s0: State, acts: seq<Action>, s: State)
    requires Initial(env, s0) && Run(env, s0, acts, s) && HonestPeer(env.peer) && env.shape == ClientShape && CalmRun(acts)
    requires s.sh.rx.latch.ended
    ensures s.sh.rx.latch == O.SingleLatch(env.peer, env.codec)
  {
    InitialInv(env, s0);
    CalmAlongRun(env, s0, acts, s);
  }
}
