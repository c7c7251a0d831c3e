/** The send side: what the log of successful writes is, in every interleaving
of Send, SendLast, CloseSend and Close. */
module StreamWire {
  import opened Errors
  import opened StreamCore
  import opened StreamProtocol
  import opened StreamSafety
  import O = StreamObject

  /** The frame a completed job puts on the wire: the whole encoding of its
      message, or a bare half-close. */
  function FrameOf(env: Env, j: Job): Frame
  {
    Frame(if j.message.Some? then Some(BodyOf(env, j)) else None, j.last)
  }

  /** The frames of the calls that wrote, in the order they passed the guard. */
  function FramesOf(env: Env, tickets: seq<Ticket>): seq<Frame>
  {
    if tickets == [] then []
    else
      var n := |tickets| - 1;
      FramesOf(env, tickets[..n]) + if tickets[n].wrote then [FrameOf(env, tickets[n].job)] else []
  }

  predicate EndedWire(wire: seq<Frame>)
  {
    wire != [] && wire[|wire| - 1].endStream
  }

  /** END_STREAM, if present, is on the last frame. */
  predicate EndStreamLast(wire: seq<Frame>)
  {
    forall i :: 0 <= i < |wire| - 1 ==> !wire[i].endStream
  }

  predicate Marks(pc: PC)
  {
    pc.Sending? && pc.x.AtMark?
  }

  /** What the holder of the send guard knows: its ticket is the last one, the
      scratch holds its own encoding so far, and its result is the truth. */
  predicate SenderOk(env: Env, tx: Tx, pc: PC)
  {
    HoldsSend(pc) ==>
      var n := |tx.tickets|;
      && n > 0 && tx.tickets[n - 1].job == pc.job
      && match pc.x
         case InMarshal(i) =>
           && !tx.tickets[n - 1].wrote && !EndedWire(tx.wire)
           && pc.job.message.Some? && i <= |BodyOf(env, pc.job)| && tx.buf == BodyOf(env, pc.job)[..i]
         case InWire =>
           && !tx.tickets[n - 1].wrote && !EndedWire(tx.wire)
           && (pc.job.message.Some? ==> tx.buf == BodyOf(env, pc.job))
         case AtMark => tx.tickets[n - 1].wrote && pc.job.last
         case AtSendLeave(res) =>
           if res.Done? then tx.tickets[n - 1].wrote || (pc.job.message.None? && tx.closed)
           else !tx.tickets[n - 1].wrote
         case _ => !tx.tickets[n - 1].wrote
  }

  ghost predicate WireOk(env: Env, s: State)
  {
    var tx := s.sh.tx;
    && tx.wire == FramesOf(env, tx.tickets)
    && EndStreamLast(tx.wire)
    && (forall t :: t in s.threads ==> SenderOk(env, tx, s.threads[t].pc))
    && (EndedWire(tx.wire) <==> tx.closed || exists t :: t in s.threads && Marks(s.threads[t].pc))
  }

  lemma FramesOfAppend(env: Env, tickets: seq<Ticket>, j: Job)
    ensures FramesOf(env, tickets + [Ticket(j, false)]) == FramesOf(env, tickets)
  {
    assert (tickets + [Ticket(j, false)])[..|tickets|] == tickets;
  }

  lemma FramesOfDone(env: Env, tickets: seq<Ticket>)
    requires tickets != [] && !tickets[|tickets| - 1].wrote
    ensures FramesOf(env, TicketDone(tickets)) == FramesOf(env, tickets) + [FrameOf(env, tickets[|tickets| - 1].job)]
  {
    var n := |tickets| - 1;
    assert TicketDone(tickets)[..n] == tickets[..n];
  }

  /** The write itself: it fails and writes nothing, or appends the sender's own frame. */
  lemma WriteStep(env: Env, closed: bool, tx: Tx, j: Job, c: Choice)
    requires SenderOk(env, tx, Sending(InWire, j)) && tx.wire == FramesOf(env, tx.tickets) && !tx.closed
    ensures var (tx', x') := SendStep(env, closed, tx, j, InWire, c);
      && tx'.wire == FramesOf(env, tx'.tickets)
      && (tx'.wire == tx.wire || tx'.wire == tx.wire + [FrameOf(env, j)])
      && SenderOk(env, tx', Sending(x', j))
      && (EndedWire(tx'.wire) <==> tx'.closed || x'.AtMark?)
  {
    FramesOfDone(env, tx.tickets);
  }

  lemma MarshalStep(env: Env, closed: bool, tx: Tx, j: Job, i: nat, c: Choice)
    requires SenderOk(env, tx, Sending(InMarshal(i), j))
    ensures var (tx', x') := SendStep(env, closed, tx, j, InMarshal(i), c);
      && tx' == tx.(buf := tx'.buf) && SenderOk(env, tx', Sending(x', j)) && !x'.AtMark?
  {
    var bs := BodyOf(env, j);
    if i < |bs| { assert bs[..i + 1] == bs[..i] + [bs[i]]; } else { assert bs[..i] == bs; }
  }

  /** The checks and the mark: nothing reaches the wire. */
  lemma CheckStep(env: Env, closed: bool, tx: Tx, j: Job, x: SendPC, c: Choice)
    requires x.AtClosedCheck? || x.AtHalfCheck? || x.AtMark?
    requires Offers(env.shape, Send(j)) && SenderOk(env, tx, Sending(x, j))
    requires EndedWire(tx.wire) <==> tx.closed || x.AtMark?
    ensures var (tx', x') := SendStep(env, closed, tx, j, x, c);
      && tx'.wire == tx.wire && tx'.tickets == tx.tickets
      && SenderOk(env, tx', Sending(x', j)) && (EndedWire(tx'.wire) <==> tx'.closed || x'.AtMark?)
  {
  }

  /** Either nothing reaches the wire, or the sender appends its own frame. */
  lemma SendPump(env: Env, closed: bool, tx: Tx, l: Local, c: Choice)
    requires HoldsSend(l.pc) && !l.pc.x.AtSendLeave? && LocalOk(env, l)
    requires SenderOk(env, tx, l.pc) && tx.wire == FramesOf(env, tx.tickets)
    requires EndedWire(tx.wire) <==> tx.closed || l.pc.x.AtMark?
    ensures var (tx', x') := SendStep(env, closed, tx, l.pc.job, l.pc.x, c);
      && tx'.wire == FramesOf(env, tx'.tickets)
      && (tx'.wire == tx.wire || (tx'.wire == tx.wire + [FrameOf(env, l.pc.job)] && !EndedWire(tx.wire)))
      && SenderOk(env, tx', Sending(x', l.pc.job))
      && (EndedWire(tx'.wire) <==> tx'.closed || x'.AtMark?)
  {
    if l.pc.x.InMarshal? {
      MarshalStep(env, closed, tx, l.pc.job, l.pc.x.i, c);
    } else if l.pc.x.InWire? {
      WriteStep(env, closed, tx, l.pc.job, c);
    } else {
      CheckStep(env, closed, tx, l.pc.job, l.pc.x, c);
    }
  }

  /** A move that is not a step of a send leaves the send side alone. */
  lemma WireOther(env: Env, sh: Shared, l: Local, t: Tid, m: Move)
    requires CanMove(env, sh, l, m) && LocalOk(env, l) && !(m.Step? && l.pc.Sending?)
    ensures var (sh', l') := MoveThread(env, sh, l, t, m);
      sh'.tx == sh.tx && SenderOk(env, sh'.tx, l'.pc) && !HoldsSend(l.pc) && !Marks(l'.pc)
  {
  }

  /** A step of a send. */
  lemma WireSending(env: Env, sh: Shared, l: Local, t: Tid, m: Move)
    requires CanMove(env, sh, l, m) && LocalOk(env, l) && (HoldsSend(l.pc) ==> sh.tx.busy) && m.Step? && l.pc.Sending?
    requires SenderOk(env, sh.tx, l.pc) && sh.tx.wire == FramesOf(env, sh.tx.tickets)
    requires HoldsSend(l.pc) ==> (EndedWire(sh.tx.wire) <==> sh.tx.closed || Marks(l.pc))
    ensures var (sh', l') := MoveThread(env, sh, l, t, m);
      && sh'.tx.wire == FramesOf(env, sh'.tx.tickets)
      && (sh'.tx.wire == sh.tx.wire || (sh'.tx.wire == sh.tx.wire + [FrameOf(env, l.pc.job)] && !EndedWire(sh.tx.wire)))
      && SenderOk(env, sh'.tx, l'.pc)
      && (HoldsSend(l.pc) ==> (EndedWire(sh'.tx.wire) <==> sh'.tx.closed || Marks(l'.pc)))
      && (!HoldsSend(l.pc) ==> sh'.tx.wire == sh.tx.wire && sh'.tx.closed == sh.tx.closed && !Marks(l'.pc))
      && (sh'.tx == sh.tx || HoldsSend(l.pc) || HoldsSend(l'.pc))
  {
    if l.pc.x.AtSendGuard? {
      FramesOfAppend(env, sh.tx.tickets, l.pc.job);
    } else if !l.pc.x.AtSendLeave? {
      SendPump(env, sh.flags.closed, sh.tx, l, m.choice);
    }
  }

  /** The same for a whole move of one thread. */
  lemma WireMove(env: Env, sh: Shared, l: Local, t: Tid, m: Move)
    requires CanMove(env, sh, l, m) && LocalOk(env, l) && (HoldsSend(l.pc) ==> sh.tx.busy)
    requires SenderOk(env, sh.tx, l.pc) && sh.tx.wire == FramesOf(env, sh.tx.tickets)
    requires HoldsSend(l.pc) ==> (EndedWire(sh.tx.wire) <==> sh.tx.closed || Marks(l.pc))
    ensures var (sh', l') := MoveThread(env, sh, l, t, m);
      && sh'.tx.wire == FramesOf(env, sh'.tx.tickets)
      && (sh'.tx.wire == sh.tx.wire || (sh'.tx.wire == sh.tx.wire + [FrameOf(env, l.pc.job)] && !EndedWire(sh.tx.wire)))
      && SenderOk(env, sh'.tx, l'.pc)
      && (HoldsSend(l.pc) ==> (EndedWire(sh'.tx.wire) <==> sh'.tx.closed || Marks(l'.pc)))
      && (!HoldsSend(l.pc) ==> sh'.tx.wire == sh.tx.wire && sh'.tx.closed == sh.tx.closed && !Marks(l'.pc))
      && (sh'.tx == sh.tx || HoldsSend(l.pc) || HoldsSend(l'.pc))
  {
    if m.Step? && l.pc.Sending? {
      WireSending(env, sh, l, t, m);
    } else {
      WireOther(env, sh, l, t, m);
    }
  }

  lemma EndedIffMine(env: Env, s: State, t: Tid)
    requires Inv(env, s) && WireOk(env, s) && t in s.threads && HoldsSend(s.threads[t].pc)
    ensures EndedWire(s.sh.tx.wire) <==> s.sh.tx.closed || Marks(s.threads[t].pc)
  {
    forall u | u in s.threads && Marks(s.threads[u].pc) ensures u == t {
      assert HoldsSend(s.threads[u].pc);
    }
  }

  lemma WireThreads(env: Env, s: State, t: Tid, m: Move)
    requires Inv(env, s) && WireOk(env, s) && Enabled(env, s, Act(t, m))
    ensures var s' := Next(env, s, Act(t, m));
      && s'.sh.tx.wire == FramesOf(env, s'.sh.tx.tickets) && EndStreamLast(s'.sh.tx.wire)
      && (forall u :: u in s'.threads ==> SenderOk(env, s'.sh.tx, s'.threads[u].pc))
      && (EndedWire(s.sh.tx.wire) ==> s'.sh.tx.wire == s.sh.tx.wire)
  {
    var s', l := Next(env, s, Act(t, m)), s.threads[t];
    if HoldsSend(l.pc) { EndedIffMine(env, s, t); }
    WireMove(env, s.sh, l, t, m);
    SendMove(env, s.sh, l, t, m);
    forall u | u in s'.threads && u != t ensures SenderOk(env, s'.sh.tx, s'.threads[u].pc) {
      assert HoldsSend(s.threads[u].pc) && HoldsSend(l.pc) ==> u == t;
    }
  }

  lemma WireEnd(env: Env, s: State, t: Tid, m: Move)
    requires Inv(env, s) && WireOk(env, s) && Enabled(env, s, Act(t, m))
    ensures var s' := Next(env, s, Act(t, m));
      EndedWire(s'.sh.tx.wire) <==> s'.sh.tx.closed || exists u :: u in s'.threads && Marks(s'.threads[u].pc)
  {
    var s', l := Next(env, s, Act(t, m)), s.threads[t];
    if HoldsSend(l.pc) { EndedIffMine(env, s, t); }
    WireMove(env, s.sh, l, t, m);
    if HoldsSend(l.pc) {
      forall u | u in s'.threads && Marks(s'.threads[u].pc) ensures u == t {
        assert u != t ==> HoldsSend(s.threads[u].pc);
      }
      if Marks(s'.threads[t].pc) { assert t in s'.threads; }
    } else {
      forall u | u in s.threads && u != t ensures Marks(s.threads[u].pc) <==> Marks(s'.threads[u].pc) {
      }
      assert !Marks(l.pc) && !Marks(s'.threads[t].pc);
    }
  }

  lemma WireKept(env: Env, s: State, a: Action)
    requires Inv(env, s) && WireOk(env, s) && Enabled(env, s, a)
    ensures WireOk(env, Next(env, s, a))
    ensures EndedWire(s.sh.tx.wire) ==> Next(env, s, a).sh.tx.wire == s.sh.tx.wire
  {
    if a.Act? {
      WireThreads(env, s, a.t, a.move);
      WireEnd(env, s, a.t, a.move);
    }
  }

  lemma {:induction false} WireAlongRun(env: Env, s: State, acts: seq<Action>, s': State)
    requires Inv(env, s) && WireOk(env, s) && Run(env, s, acts, s')
    ensures WireOk(env, s')
    ensures EndedWire(s.sh.tx.wire) ==> s'.sh.tx.wire == s.sh.tx.wire
    decreases |acts|
  {
    if acts != [] {
      InvKept(env, s, acts[0]);
      WireKept(env, s, acts[0]);
      WireAlongRun(env, Next(env, s, acts[0]), acts[1..], s');
    }
  }

  /** In every interleaving the wire carries, in guard order, exactly the whole
      encodings of the calls that wrote; END_STREAM occurs at most once and last;
      and a finished call reports success only if its frame is there (or the
      side was already half-closed), failure only if it is not. */
  lemma WireIsGuardOrder(env: Env, s0: State, acts: seq<Action>, s: State)
    requires Initial(env, s0) && Run(env, s0, acts, s)
    ensures s.sh.tx.wire == FramesOf(env, s.sh.tx.tickets)
    ensures EndStreamLast(s.sh.tx.wire)
    ensures forall t :: t in s.threads ==> SenderOk(env, s.sh.tx, s.threads[t].pc)
  {
    InitialInv(env, s0);
    assert WireOk(env, s0);
    WireAlongRun(env, s0, acts, s);
  }

  /** Nothing succeeds on the wire after END_STREAM, in any continuation. */
  lemma NothingAfterEndStream(env: Env, s0: State, acts: seq<Action>, s: State, more: seq<Action>, s': State)
    requires Initial(env, s0) && Run(env, s0, acts, s) && EndedWire(s.sh.tx.wire) && Run(env, s, more, s')
    ensures s'.sh.tx.wire == s.sh.tx.wire
  {
    InitialInv(env, s0);
    assert WireOk(env, s0);
    InvAlongRun(env, s0, acts, s);
    WireAlongRun(env, s0, acts, s);
    WireAlongRun(env, s, more, s');
  }

  /** A step that is not the write of the guard's holder writes nothing: calls
      refused by the guard or by a flag never reach the wire. */
  lemma OnlyHolderWrites(env: Env, s: State, a: Action)
    requires Inv(env, s) && Enabled(env, s, a)
    requires Next(env, s, a).sh.tx.wire != s.sh.tx.wire
    ensures a.Act? && s.threads[a.t].pc.Sending? && s.threads[a.t].pc.x.InWire? && a.move == Step(Go)
  {
  }

  // ----- Who answers

  /** Past the guard, and as long as nothing interferes, the checks and the codec
      answer as the sequential object does for a write that will succeed: they end
      the call with that result, or let it go on to marshal or to write. */
  lemma ChecksAgree(env: Env, closed: bool, tx: Tx, j: Job)
    ensures var (tx1, x1) := SendStep(env, closed, tx, j, AtClosedCheck, Go);
      if closed then
        x1 == AtSendLeave(if j.message.Some? then O.SendOutcome(true, tx.closed, env.codec.encode(j.message.value), None)
                          else O.HalfCloseOutcome(true, tx.closed, None))
      else
        x1 == AtHalfCheck &&
        var (tx2, x2) := SendStep(env, closed, tx1, j, x1, Go);
        if j.message.Some? then
          var r := O.SendOutcome(false, tx.closed, env.codec.encode(j.message.value), None);
          x2 == if r.Done? then InMarshal(0) else AtSendLeave(r)
        else
          x2 == if tx.closed then AtSendLeave(O.HalfCloseOutcome(false, true, None)) else InWire
  {
  }

  /** A client stream's final call goes on to the single receive exactly if its send
      went well or failed benignly; no other call receives. */
  lemma ReceivesAfterSend(j: Job, res: Outcome)
    ensures AfterSend(j, res) == if j.thenRecv && O.GoesOn(res) then Receiving(Single, AtGate) else User
  {
  }

  // ----- What the bodies are

  /** A sender that marshals or writes has a message that encodes. */
  predicate Encodes(env: Env, pc: PC)
  {
    HoldsSend(pc) && (pc.x.InMarshal? || pc.x.InWire?) && pc.job.message.Some? ==> env.codec.encode(pc.job.message.value).Encoded?
  }

  ghost predicate WrittenEncode(env: Env, s: State)
  {
    && (forall i :: 0 <= i < |s.sh.tx.tickets| && s.sh.tx.tickets[i].wrote && s.sh.tx.tickets[i].job.message.Some? ==>
          env.codec.encode(s.sh.tx.tickets[i].job.message.value).Encoded?)
    && (forall t :: t in s.threads ==> Encodes(env, s.threads[t].pc))
  }

  lemma EncodeMove(env: Env, sh: Shared, l: Local, t: Tid, m: Move)
    requires CanMove(env, sh, l, m) && Encodes(env, l.pc) && SenderOk(env, sh.tx, l.pc)
    ensures var (sh', l') := MoveThread(env, sh, l, t, m);
      && Encodes(env, l'.pc) && |sh'.tx.tickets| >= |sh.tx.tickets|
      && forall i :: 0 <= i < |sh'.tx.tickets| && sh'.tx.tickets[i].wrote && (i < |sh.tx.tickets| ==> !sh.tx.tickets[i].wrote) ==>
           HoldsSend(l.pc) && l.pc.x.InWire? && sh'.tx.tickets[i].job == l.pc.job
    ensures var tx' := MoveThread(env, sh, l, t, m).0.tx;
      forall i :: 0 <= i < |sh.tx.tickets| ==> tx'.tickets[i].job == sh.tx.tickets[i].job
  {
  }

  lemma WrittenKept(env: Env, s: State, a: Action)
    requires WireOk(env, s) && WrittenEncode(env, s) && Enabled(env, s, a)
    ensures WrittenEncode(env, Next(env, s, a))
  {
    if a.Act? {
      EncodeMove(env, s.sh, s.threads[a.t], a.t, a.move);
    }
  }

  lemma {:induction false} WrittenAlongRun(env: Env, s: State, acts: seq<Action>, s': State)
    requires Inv(env, s) && WireOk(env, s) && WrittenEncode(env, s) && Run(env, s, acts, s')
    ensures WireOk(env, s') && WrittenEncode(env, s')
    decreases |acts|
  {
    if acts != [] {
      InvKept(env, s, acts[0]);
      WireKept(env, s, acts[0]);
      WrittenKept(env, s, acts[0]);
      WrittenAlongRun(env, Next(env, s, acts[0]), acts[1..], s');
    }
  }

  /** A frame is what the codec makes of the message of some call that was admitted. */
  predicate FrameIs(env: Env, f: Frame, j: Job)
  {
    && f.endStream == j.last
    && (match j.message
        case Some(m) => f.body.Some? && env.codec.encode(m) == Encoded(f.body.value)
        case None => f.body.None?)
  }

  lemma {:induction false} FrameHasTicket(env: Env, tickets: seq<Ticket>, i: nat) returns (k: nat)
    requires i < |FramesOf(env, tickets)|
    ensures k < |tickets| && tickets[k].wrote && FramesOf(env, tickets)[i] == FrameOf(env, tickets[k].job)
    decreases |tickets|
  {
    var n := |tickets| - 1;
    if i < |FramesOf(env, tickets[..n])| {
      k := FrameHasTicket(env, tickets[..n], i);
    } else {
      k := n;
    }
  }

  /** Every frame on the wire carries exactly the bytes the codec encodes the message
      of an admitted call to, with END_STREAM if that call was the last. */
  lemma FramesAreEncodings(env: Env, s0: State, acts: seq<Action>, s: State, i: nat) returns (k: nat)
    requires Initial(env, s0) && Run(env, s0, acts, s) && i < |s.sh.tx.wire|
    ensures k < |s.sh.tx.tickets| && s.sh.tx.tickets[k].wrote && FrameIs(env, s.sh.tx.wire[i], s.sh.tx.tickets[k].job)
  {
    InitialInv(env, s0);
    assert WireOk(env, s0);
    WrittenAlongRun(env, s0, acts, s);
    k := FrameHasTicket(env, s.sh.tx.tickets, i);
  }

  // ----- After Close

  /** Past the check of the closed flag. */
  predicate PastCheck(pc: PC)
  {
    HoldsSend(pc) && (pc.x.AtHalfCheck? || pc.x.InMarshal? || pc.x.InWire?)
  }

  ghost predicate NobodyPast(s: State)
  {
    s.sh.flags.closed && forall t :: t in s.threads ==> !PastCheck(s.threads[t].pc)
  }

  lemma SilentMove(env: Env, sh: Shared, l: Local, t: Tid, m: Move)
    requires CanMove(env, sh, l, m) && sh.flags.closed && !PastCheck(l.pc)
    ensures var (sh', l') := MoveThread(env, sh, l, t, m); sh'.flags.closed && !PastCheck(l'.pc) && sh'.tx.wire == sh.tx.wire
  {
  }

  /** A closed stream is silent: once the sends that had passed the check are through,
      nothing more is written, whoever sends. */
  lemma {:induction false} SilentAfterClose(env: Env, s: State, acts: seq<Action>, s': State)
    requires NobodyPast(s) && Run(env, s, acts, s')
    ensures s'.sh.tx.wire == s.sh.tx.wire
    decreases |acts|
  {
    if acts != [] {
      var a := acts[0];
      if a.Act? {
        SilentMove(env, s.sh, s.threads[a.t], a.t, a.move);
      }
      SilentAfterClose(env, Next(env, s, a), acts[1..], s');
    }
  }
}
