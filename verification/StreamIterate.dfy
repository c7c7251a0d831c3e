/** The iterators in every interleaving: what a loop body is never shown, and what
has happened when an iteration is over. */
module StreamIterate {
  import opened Errors
  import opened StreamProtocol
  import opened StreamSafety

  /** An iteration that has yielded an error has yielded the terminal one, and that
      contains no io.EOF; a server iteration that releases the guard has closed. */
  predicate IterOk(env: Env, sh: Shared, l: Local)
  {
    && (l.iter == Loop(true) ==> sh.rx.latch.ended && !Is(sh.rx.latch.Terminal().value, EOF))
    && (env.shape == ServerShape && l.iter.Loop? && l.pc.Receiving? && l.pc.r.AtLeave? ==> sh.flags.closed)
  }

  ghost predicate IterationsOk(env: Env, s: State)
  {
    forall t :: t in s.threads ==> IterOk(env, s.sh, s.threads[t])
  }

  lemma IterMove(env: Env, sh: Shared, l: Local, t: Tid, m: Move)
    requires CanMove(env, sh, l, m) && LocalOk(env, l) && OutcomeOk(sh.rx.latch, l.pc) && IterOk(env, sh, l)
    requires (HoldsRecv(l) ==> sh.rx.busy) && (WonClose(l.pc) ==> sh.flags.closed)
    ensures var (sh', l') := MoveThread(env, sh, l, t, m);
      IterOk(env, sh', l') && (env.shape == ServerShape && l.iter.Loop? && l'.iter.Out? ==> sh.flags.closed)
  {
    CloseMove(env, sh, l, t, m);
  }

  lemma OthersIter(env: Env, sh: Shared, sh': Shared, l: Local)
    requires IterOk(env, sh, l) && (sh.rx.latch.ended ==> sh'.rx.latch == sh.rx.latch) && (sh.flags.closed ==> sh'.flags.closed)
    ensures IterOk(env, sh', l)
  {
  }

  lemma IterAct(env: Env, s: State, t: Tid, m: Move)
    requires Inv(env, s) && IterationsOk(env, s) && Enabled(env, s, Act(t, m))
    ensures IterationsOk(env, Next(env, s, Act(t, m)))
  {
    var (sh', l') := MoveThread(env, s.sh, s.threads[t], t, m);
    IterMove(env, s.sh, s.threads[t], t, m);
    CloseMove(env, s.sh, s.threads[t], t, m);
    forall u | u in s.threads && u != t ensures IterOk(env, sh', s.threads[u]) {
      OthersIter(env, s.sh, sh', s.threads[u]);
    }
    assert Next(env, s, Act(t, m)) == State(sh', s.threads[t := l']);
  }

  lemma {:induction false} IterAlongRun(env: Env, s: State, acts: seq<Action>, s': State)
    requires Inv(env, s) && IterationsOk(env, s) && Run(env, s, acts, s')
    ensures Inv(env, s') && IterationsOk(env, s')
    decreases |acts|
  {
    if acts != [] {
      if acts[0].Act? {
        IterAct(env, s, acts[0].t, acts[0].move);
      }
      InvKept(env, s, acts[0]);
      IterAlongRun(env, Next(env, s, acts[0]), acts[1..], s');
    }
  }

  /** In every interleaving, the error an iteration has yielded is the terminal one of
      the stream, and io.EOF is not in it. */
  lemma NeverYieldsEof(env: Env, s0: State, acts: seq<Action>, s: State, t: Tid)
    requires Initial(env, s0) && Run(env, s0, acts, s) && t in s.threads && s.threads[t].iter == Loop(true)
    ensures s.sh.rx.latch.ended && !Is(s.sh.rx.latch.Terminal().value, EOF)
  {
    InitialInv(env, s0);
    IterAlongRun(env, s0, acts, s);
    assert IterOk(env, s.sh, s.threads[t]);
  }

  /** A server iteration, however it ends, is over only when the stream is closed. */
  lemma IterationCloses(env: Env, s0: State, acts: seq<Action>, s: State, t: Tid, m: Move)
    requires Initial(env, s0) && Run(env, s0, acts, s) && env.shape == ServerShape
    requires Enabled(env, s, Act(t, m)) && s.threads[t].iter.Loop? && Next(env, s, Act(t, m)).threads[t].iter.Out?
    ensures s.sh.flags.closed
  {
    InitialInv(env, s0);
    IterAlongRun(env, s0, acts, s);
    IterMove(env, s.sh, s.threads[t], t, m);
  }

  // ----- A bidirectional iteration leaves the stream open

  predicate NobodyCloses(acts: seq<Action>)
  {
    forall i :: 0 <= i < |acts| && acts[i].Act? && acts[i].move.Start? ==> !acts[i].move.op.Close?
  }

  ghost predicate Open(s: State)
  {
    !s.sh.flags.closed && forall t :: t in s.threads ==> !s.threads[t].pc.Closing?
  }

  lemma OpenMove(env: Env, sh: Shared, l: Local, t: Tid, m: Move)
    requires CanMove(env, sh, l, m) && env.shape == BidiShape && !l.pc.Closing? && !sh.flags.closed && !(m.Start? && m.op.Close?)
    ensures var (sh', l') := MoveThread(env, sh, l, t, m); !l'.pc.Closing? && !sh'.flags.closed
  {
  }

  lemma {:induction false} OpenAlongRun(env: Env, s: State, acts: seq<Action>, s': State)
    requires env.shape == BidiShape && Open(s) && Run(env, s, acts, s') && NobodyCloses(acts)
    ensures Open(s')
    decreases |acts|
  {
    if acts != [] {
      var a := acts[0];
      if a.Act? {
        OpenMove(env, s.sh, s.threads[a.t], a.t, a.move);
      }
      OpenAlongRun(env, Next(env, s, a), acts[1..], s');
    }
  }

  /** However many iterations begin and end on a bidirectional stream, only a call of
      Close closes it. */
  lemma BidiStaysOpen(env: Env, s0: State, acts: seq<Action>, s: State)
    requires Initial(env, s0) && Run(env, s0, acts, s) && env.shape == BidiShape && NobodyCloses(acts)
    ensures !s.sh.flags.closed
  {
    OpenAlongRun(env, s0, acts, s);
  }
}
