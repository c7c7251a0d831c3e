/** Close always finishes: a measure over the gate's readers and the closer. */
module StreamProgress {
  import opened StreamProtocol
  import opened StreamSafety

  /** A bound on the steps a thread takes before it gives the gate back. */
  function Rank(pc: PC): nat
  {
    if !HoldsRead(pc) then 0
    else match pc.r
      case AtGuard(_) => 11
      case AtGate => 0
      case AtTerminal => 10
      case InPull => 9
      case InDecode => 8
      case AtHeader => 7
      case InHeader => 6
      case StoreHeader => 5
      case InDrain => 4
      case AtFinish(_) => 3
      case AtLeave(_) => 2
      case AtUnlock(_) => 1
  }

  ghost function Work(ts: map<Tid, Local>): nat
    decreases |ts|
  {
    if ts == map[] then 0
    else var t :| t in ts; Rank(ts[t].pc) + Work(ts - {t})
  }

  lemma {:induction false} WorkWithout(ts: map<Tid, Local>, t: Tid)
    requires t in ts
    ensures Work(ts) == Rank(ts[t].pc) + Work(ts - {t})
    decreases |ts|
  {
    var u :| u in ts && Work(ts) == Rank(ts[u].pc) + Work(ts - {u});
    if u != t {
      WorkWithout(ts - {u}, t);
      WorkWithout(ts - {t}, u);
      assert ts - {u} - {t} == ts - {t} - {u};
    }
  }

  lemma WorkUpdate(ts: map<Tid, Local>, t: Tid, l: Local)
    requires t in ts
    ensures Work(ts[t := l]) + Rank(ts[t].pc) == Work(ts) + Rank(l.pc)
  {
    WorkWithout(ts, t);
    WorkWithout(ts[t := l], t);
    assert ts[t := l] - {t} == ts - {t};
  }

  /** The steps left to a Close that has announced itself at the gate. */
  function CloseRank(pc: PC): nat
  {
    if !pc.Closing? then 0
    else match pc.c
      case AtWait => 4
      case InClose => 3
      case AtLatch => 2
      case AtRelease => 1
      case _ => 0
  }

  ghost function Measure(s: State, c: Tid): nat
    requires c in s.threads
  {
    Work(s.threads) + CloseRank(s.threads[c].pc)
  }

  /** The closer is between announcing itself and releasing the gate. */
  predicate Pending(s: State, c: Tid)
  {
    c in s.threads && CloseRank(s.threads[c].pc) > 0
  }

  /** A move of a thread that holds, or does not hold, the gate for reading. */
  lemma RankMove(env: Env, sh: Shared, l: Local, t: Tid, m: Move)
    requires CanMove(env, sh, l, m) && LocalOk(env, l)
    requires sh.gate.writer.Some? || sh.gate.waiting.Some?
    ensures var l' := MoveThread(env, sh, l, t, m).1;
      if HoldsRead(l.pc) then Rank(l'.pc) < Rank(l.pc) else Rank(l'.pc) == 0
  {
  }

  lemma CloserMove(env: Env, sh: Shared, l: Local, t: Tid, m: Move)
    requires CanMove(env, sh, l, m) && CloseRank(l.pc) > 0
    ensures var l' := MoveThread(env, sh, l, t, m).1;
      && CloseRank(l'.pc) == CloseRank(l.pc) - 1 && !HoldsRead(l'.pc)
      && (CloseRank(l'.pc) == 0 ==> MoveThread(env, sh, l, t, m).0.flags.returned)
  {
  }

  lemma PendingBlocks(env: Env, s: State, c: Tid)
    requires Inv(env, s) && Pending(s, c)
    ensures s.sh.gate.writer.Some? || s.sh.gate.waiting.Some?
  {
    assert Waits(s.threads[c].pc) || HoldsWrite(s.threads[c].pc);
  }

  /** While a Close is at the gate, no action of anyone, sender, receiver, status
      reader or environment, increases the measure, and every action of a gate
      reader or of the closer decreases it. */
  lemma MeasureDecreases(env: Env, s: State, c: Tid, a: Action)
    requires Inv(env, s) && Pending(s, c) && Enabled(env, s, a)
    ensures var s' := Next(env, s, a);
      && c in s'.threads
      && Measure(s', c) <= Measure(s, c)
      && (a.Act? && (a.t == c || a.t in s.sh.gate.readers) ==> Measure(s', c) < Measure(s, c))
      && (Pending(s', c) || s'.sh.flags.returned)
  {
    if a.Act? {
      PendingBlocks(env, s, c);
      var (sh', l') := MoveThread(env, s.sh, s.threads[a.t], a.t, a.move);
      WorkUpdate(s.threads, a.t, l');
      if a.t == c {
        CloserMove(env, s.sh, s.threads[c], c, a.move);
      } else {
        RankMove(env, s.sh, s.threads[a.t], a.t, a.move);
      }
    }
  }

  /** The actions of a run that a gate reader or the closer takes at its turn. */
  ghost function TurnsTaken(env: Env, s: State, c: Tid, acts: seq<Action>): nat
    decreases |acts|
  {
    if acts == [] || !Enabled(env, s, acts[0]) then 0
    else TurnsTaken(env, Next(env, s, acts[0]), c, acts[1..]) +
         if acts[0].Act? && (acts[0].t == c || acts[0].t in s.sh.gate.readers) then 1 else 0
  }

  lemma ReturnedStays(env: Env, s: State, a: Action)
    requires Enabled(env, s, a) && s.sh.flags.returned
    ensures Next(env, s, a).sh.flags.returned
  {
  }

  lemma {:induction false} ReturnedAlongRun(env: Env, s: State, acts: seq<Action>, s': State)
    requires s.sh.flags.returned && Run(env, s, acts, s')
    ensures s'.sh.flags.returned
    decreases |acts|
  {
    if acts != [] {
      ReturnedStays(env, s, acts[0]);
      ReturnedAlongRun(env, Next(env, s, acts[0]), acts[1..], s');
    }
  }

  /** Every run: as long as a Close that waits at the gate has not returned, the
      readers and the closer have taken fewer turns than the measure allows, no
      matter how everybody else is interleaved. */
  lemma {:induction false} CloseWithinMeasure(env: Env, s: State, c: Tid, acts: seq<Action>, s': State)
    requires Inv(env, s) && Pending(s, c) && Run(env, s, acts, s')
    ensures s'.sh.flags.returned || (Pending(s', c) && TurnsTaken(env, s, c, acts) + Measure(s', c) <= Measure(s, c))
    decreases |acts|
  {
    if acts != [] {
      var s1 := Next(env, s, acts[0]);
      MeasureDecreases(env, s, c, acts[0]);
      InvKept(env, s, acts[0]);
      if s1.sh.flags.returned {
        ReturnedAlongRun(env, s1, acts[1..], s');
      } else {
        CloseWithinMeasure(env, s1, c, acts[1..], s');
      }
    }
  }

  /** Every receive that holds the gate was given the stream's own context. */
  ghost predicate DerivedReaders(s: State)
  {
    forall t :: t in s.sh.gate.readers && t in s.threads ==> s.threads[t].derived
  }

  /** The step a thread that is not parked takes: a blocked receive is cancelled. */
  function Wake(l: Local): Move
  {
    if l.pc.Receiving? && (l.pc.r.InPull? || l.pc.r.InDrain?) then Step(Abort) else Step(Go)
  }

  /** While the measure is positive, a gate reader or the closer can move: the
      cancellation has woken every receive that uses the derived context. */
  lemma SomeoneMoves(env: Env, s: State, c: Tid) returns (t: Tid)
    requires Inv(env, s) && Pending(s, c) && DerivedReaders(s)
    ensures t == c || t in s.sh.gate.readers
    ensures Enabled(env, s, Act(t, Wake(if t in s.threads then s.threads[t] else s.threads[c])))
  {
    assert s.sh.flags.cancelled;
    if s.sh.gate.readers == {} {
      t := c;
    } else {
      t :| t in s.sh.gate.readers;
      assert t in s.threads && HoldsRead(s.threads[t].pc);
    }
  }

  /** No new reader passes a gate at which a Close waits. */
  lemma ReadersShrink(env: Env, s: State, c: Tid, a: Action)
    requires Inv(env, s) && Pending(s, c) && Enabled(env, s, a)
    ensures Next(env, s, a).sh.gate.readers <= s.sh.gate.readers
  {
    if a.Act? {
      PendingBlocks(env, s, c);
      GateMove(env, s.sh, s.threads[a.t], a.t, a.move);
    }
  }

  lemma WakeKeepsDerived(env: Env, s: State, c: Tid, t: Tid)
    requires Inv(env, s) && Pending(s, c) && DerivedReaders(s)
    requires t in s.threads && Enabled(env, s, Act(t, Wake(s.threads[t])))
    ensures DerivedReaders(Next(env, s, Act(t, Wake(s.threads[t]))))
  {
    ReadersShrink(env, s, c, Act(t, Wake(s.threads[t])));
    assert MoveThread(env, s.sh, s.threads[t], t, Wake(s.threads[t])).1.derived == s.threads[t].derived;
  }

  /** One step towards the end of a Close that waits at the gate. */
  lemma CloseAdvances(env: Env, s: State, c: Tid) returns (a: Action, s1: State)
    requires Inv(env, s) && Pending(s, c) && DerivedReaders(s)
    ensures Enabled(env, s, a) && s1 == Next(env, s, a) && Inv(env, s1)
    ensures a.Act? && (a.t == c || a.t in s.sh.gate.readers)
    ensures c in s1.threads && Measure(s1, c) < Measure(s, c)
    ensures s1.sh.flags.returned || (Pending(s1, c) && DerivedReaders(s1))
    ensures s1.sh.gate.readers <= s.sh.gate.readers
  {
    var t := SomeoneMoves(env, s, c);
    a := Act(t, Wake(s.threads[t]));
    s1 := Next(env, s, a);
    MeasureDecreases(env, s, c, a);
    InvKept(env, s, a);
    WakeKeepsDerived(env, s, c, t);
    ReadersShrink(env, s, c, a);
  }

  /** Steps of `who` alone, at most `n` of them, bring a Close to its return. */
  ghost predicate FinishesBy(env: Env, s: State, who: set<Tid>, n: nat)
  {
    exists acts, s' :: Run(env, s, acts, s') && |acts| <= n && s'.sh.flags.returned && AllBy(acts, who)
  }

  predicate AllBy(acts: seq<Action>, who: set<Tid>)
  {
    forall i :: 0 <= i < |acts| ==> acts[i].Act? && acts[i].t in who
  }

  lemma FinishesNow(env: Env, s: State, who: set<Tid>)
    requires s.sh.flags.returned
    ensures FinishesBy(env, s, who, 0)
  {
    assert Run(env, s, [], s) && AllBy([], who);
  }

  lemma FinishesAfter(env: Env, s: State, a: Action, who: set<Tid>, who': set<Tid>, n: nat, n': nat)
    requires Enabled(env, s, a) && a.Act? && a.t in who' && who <= who' && n < n'
    requires FinishesBy(env, Next(env, s, a), who, n)
    ensures FinishesBy(env, s, who', n')
  {
    var rest, s' :| Run(env, Next(env, s, a), rest, s') && |rest| <= n && s'.sh.flags.returned && AllBy(rest, who);
    var acts := [a] + rest;
    assert acts[1..] == rest;
    assert Run(env, s, acts, s') && AllBy(acts, who');
  }

  /** Close progress: from any reachable state in which a Close waits at the gate,
      whatever the send side is doing, at most Measure steps of gate readers and
      of the closer bring that Close to its return. */
  lemma {:induction false} CloseFinishes(env: Env, s: State, c: Tid)
    requires Inv(env, s) && Pending(s, c) && DerivedReaders(s)
    ensures FinishesBy(env, s, s.sh.gate.readers + {c}, Measure(s, c))
    decreases Measure(s, c)
  {
    var a, s1 := CloseAdvances(env, s, c);
    var n := 0;
    if s1.sh.flags.returned {
      FinishesNow(env, s1, s1.sh.gate.readers + {c});
    } else {
      n := Measure(s1, c);
      CloseFinishes(env, s1, c);
    }
    FinishesAfter(env, s, a, s1.sh.gate.readers + {c}, s.sh.gate.readers + {c}, n, Measure(s, c));
  }

  /** Self-closing is free: on a server or bidirectional stream, a thread that
      calls Close while it holds the receive guard, as the iterator's deferred
      Close and a Close in the loop body do, finds no reader at the gate. */
  lemma SelfCloseNeverParks(env: Env, s: State, t: Tid)
    requires Inv(env, s) && env.shape != ClientShape
    requires t in s.threads && s.threads[t].pc.Closing? && HoldsRecv(s.threads[t])
    ensures s.sh.gate.readers == {}
  {
    assert forall u :: u in s.sh.gate.readers ==> u in s.threads && HoldsRecv(s.threads[u]) && u != t;
  }

  /** The residual rule: a receive on a private context with nothing to return
      parks the Close that waits for it, and neither can move. */
  lemma PrivateContextParks(env: Env, s: State, c: Tid, t: Tid)
    requires Inv(env, s) && c in s.threads && Waits(s.threads[c].pc)
    requires t in s.threads && s.threads[t].pc.Receiving? && (s.threads[t].pc.r.InPull? || s.threads[t].pc.r.InDrain?)
    requires !s.threads[t].derived && s.sh.rx.pos == s.sh.rx.arrived && s.sh.rx.fault.None?
    ensures forall m :: !Enabled(env, s, Act(t, m)) && !Enabled(env, s, Act(c, m))
  {
    assert t in s.sh.gate.readers;
  }
}
