/** The stream types as objects driven by one goroutine: what each operation
returns, as a function of everything the peer sends. */
module StreamObject {
  import opened Errors
  import opened StreamCore
  import P = StreamProtocol

  // ----- What the operations promise, as functions of the peer's event list

  /** The result of pulling one event and decoding it: recvOne. */
  datatype Received = Got(message: Message) | RecvFailed(err: Error) | RecvPanics

  function ReceiveAt(peer: Peer, codec: Codec, pos: nat): Received
  {
    if pos < |peer.payloads| then
      match codec.decode(peer.payloads[pos])
      case Decoded(m) => Got(m)
      case DecodeFails(cause) => RecvFailed(NewCodecError(cause))
      case DecodePanics => RecvPanics
    else RecvFailed(peer.EndError())
  }

  datatype Verdict = Answer(message: Message) | Rejected(err: Error) | Crashed

  const NO_MESSAGE := StatusError(Errors.Status(Internal, "no message"))
  const TOO_MANY := StatusError(Errors.Status(Internal, "more than one message"))

  /** What the peer's event list means to a single-response method. */
  function SingleVerdict(peer: Peer, codec: Codec): Verdict
  {
    match ReceiveAt(peer, codec, 0)
    case RecvFailed(e) => Rejected(if Is(e, EOF) then NO_MESSAGE else e)
    case RecvPanics => Crashed
    case Got(m) =>
      if |peer.payloads| > 1 then Rejected(TOO_MANY)
      else if Is(peer.EndError(), EOF) then Answer(m)
      else Rejected(peer.EndError())
  }

  /** The consumer of an iteration: what its body does with the n-th yield. */
  datatype Reaction = Reaction(closes: bool, stops: bool)

  datatype Yield = Item(message: Message) | Failure(err: Error)

  /** What an iteration yields from position `pos` on, the first yield being the
      n-th. A body that closes the stream makes the next receive report that. */
  function Yields(peer: Peer, codec: Codec, pos: nat, react: nat -> Reaction, n: nat): seq<Yield>
    decreases |peer.payloads| - pos
  {
    match ReceiveAt(peer, codec, pos)
    case RecvPanics => []
    case RecvFailed(e) => if Is(e, EOF) then [] else [Failure(e)]
    case Got(m) =>
      [Item(m)] +
      if react(n).stops then []
      else if react(n).closes then [Failure(Leaf(GrpcStreamClosed))]
      else Yields(peer, codec, pos + 1, react, n + 1)
  }

  /** The same for a stream that may already have a terminal outcome. */
  function YieldsFrom(term: Option<Error>, peer: Peer, codec: Codec, pos: nat, react: nat -> Reaction, n: nat): seq<Yield>
  {
    if term.None? then Yields(peer, codec, pos, react, n)
    else if Is(term.value, EOF) then []
    else [Failure(term.value)]
  }

  function Maybe(y: Option<Yield>): seq<Yield>
  {
    if y.Some? then [y.value] else []
  }

  lemma Regroup(goal: seq<Yield>, ys: seq<Yield>, rest: seq<Yield>, y: seq<Yield>, left: seq<Yield>)
    requires goal == ys + rest && rest == y + left
    ensures goal == (ys + y) + left
  {
  }

  // ----- The objects

  /** A connection: how many of the peer's concurrent streams are held. */
  class Conn {
    var held: int

    constructor ()
      ensures held == 0
    {
      held := 0;
    }
  }

  /** Shared by the three shapes; the send half is used by the client shape. */
  class Stream {
    const peer: Peer
    const codec: Codec
    const conn: Conn
    /** Whether poseidon's Header succeeds after that many events. */
    const headerOk: nat -> bool
    var closed: bool
    var recvBusy: bool
    var latch: Latch
    var hdrDone: bool
    var recvBuf: Bytes
    var sendBuf: Bytes
    var sendClosed: bool
    // poseidon's side: events consumed, writes done, and whether the slot is held
    var pos: nat
    var wire: seq<P.Frame>
    var open: bool

    constructor (peer: Peer, codec: Codec, conn: Conn, headerOk: nat -> bool)
      ensures this.peer == peer && this.codec == codec && this.conn == conn && this.headerOk == headerOk
      ensures !closed && !recvBusy && latch == RUNNING && pos == 0 && open
      ensures !sendClosed && wire == [] && !hdrDone
    {
      this.peer, this.codec, this.conn, this.headerOk := peer, codec, conn, headerOk;
      closed, recvBusy, latch, hdrDone := false, false, RUNNING, false;
      recvBuf, sendBuf, sendClosed := [], [], false;
      pos, wire, open := 0, [], true;
    }

    /** A stream whose terminal outcome and close flag agree with its slot. */
    predicate Valid()
      reads this
    {
      closed == !open && (closed ==> latch.ended)
    }

    /** finish: latch the outcome once, with poseidon's status and trailers. */
    method Finish(err: Option<Error>)
      modifies this`latch
      ensures latch == old(latch).Set(err, peer.StatusAt(pos), peer.TrailerAt(pos))
    {
      if latch.ended {
        return;
      }
      latch := Latch(true, err, peer.StatusAt(pos), peer.TrailerAt(pos));
    }

    /** Close: idempotent; the first one gives the slot back and latches. */
    method Close()
      requires Valid()
      modifies this`closed, this`open, this`latch, conn
      ensures Valid() && closed
      ensures conn.held == old(conn.held) - (if old(open) then 1 else 0)
      ensures latch == if old(closed) then old(latch)
                       else old(latch).Set(Some(Leaf(GrpcStreamClosed)), peer.StatusAt(pos), peer.TrailerAt(pos))
    {
      if closed {
        return;
      }
      closed := true;
      open := false;
      conn.held := conn.held - 1;
      if !latch.ended {
        latch := Latch(true, Some(Leaf(GrpcStreamClosed)), peer.StatusAt(pos), peer.TrailerAt(pos));
      }
    }

    /** poseidon's receive: the next event. */
    method Pull() returns (p: P.Pulled)
      modifies this`pos
      ensures pos == old(pos) + 1
      ensures p == if old(pos) < |peer.payloads| then P.Payload(peer.payloads[old(pos)]) else P.PullError(peer.EndError())
    {
      if pos < |peer.payloads| {
        p := P.Payload(peer.payloads[pos]);
      } else {
        p := P.PullError(peer.EndError());
      }
      pos := pos + 1;
    }

    /** recvOne: pull one payload into the scratch and decode it. */
    method RecvOne() returns (r: Received)
      modifies this`pos, this`recvBuf
      ensures pos == old(pos) + 1
      ensures r == ReceiveAt(peer, codec, old(pos))
    {
      var p := Pull();
      match p {
        case PullError(e) =>
          recvBuf := [];
          r := RecvFailed(e);
        case Payload(bytes) =>
          recvBuf := bytes;
          match codec.decode(recvBuf) {
            case Decoded(m) => r := Got(m);
            case DecodeFails(cause) => r := RecvFailed(NewCodecError(cause));
            case DecodePanics => r := RecvPanics;
          }
      }
    }

    /** cacheHeader: once cached, never asked for again; a failure is not an error. */
    method CacheHeader()
      modifies this`hdrDone
      ensures hdrDone == (old(hdrDone) || headerOk(pos))
    {
      if hdrDone {
        return;
      }
      if headerOk(pos) {
        hdrDone := true;
      }
    }

    /** recvGatedInto: a terminated stream repeats its outcome without touching
        poseidon; a running one receives, and latches a failure. */
    method RecvGatedInto() returns (r: Received)
      modifies this`pos, this`recvBuf, this`latch, this`hdrDone
      ensures old(latch).ended ==>
                r == RecvFailed(old(latch).Terminal().value) && latch == old(latch) && pos == old(pos)
      ensures !old(latch).ended ==>
                && r == ReceiveAt(peer, codec, old(pos)) && pos == old(pos) + 1
                && latch == (if r.RecvFailed? then old(latch).Set(Some(r.err), peer.StatusAt(pos), peer.TrailerAt(pos))
                             else old(latch))
      ensures hdrDone == (old(hdrDone) || (!old(latch).ended && r.Got? && headerOk(pos)))
    {
      var e := latch.Terminal();
      if e.Some? {
        return RecvFailed(e.value);
      }
      r := RecvOne();
      if r.RecvFailed? {
        Finish(Some(r.err));
      } else if r.Got? {
        CacheHeader();
      }
    }

    /** recvSingle. The deferred finish runs on every path past the guard. */
    method RecvSingle() returns (v: Verdict)
      modifies this`pos, this`recvBuf, this`latch, this`hdrDone, this`recvBusy
      ensures recvBusy == old(recvBusy)
      ensures old(recvBusy) ==> v == Rejected(Leaf(RecvInFlight)) && latch == old(latch) && pos == old(pos)
      ensures !old(recvBusy) && old(latch).ended ==>
                v == Rejected(old(latch).Terminal().value) && latch == old(latch) && pos == old(pos)
      ensures !old(recvBusy) && !old(latch).ended && old(pos) == 0 ==>
                && v == SingleVerdict(peer, codec)
                && latch == SingleLatch(peer, codec) && pos == SinglePos(peer, codec)
    {
      if recvBusy {
        return Rejected(Leaf(RecvInFlight));
      }
      recvBusy := true;
      var e := latch.Terminal();
      if e.Some? {
        v := Rejected(e.value);
      } else {
        var first := RecvOne();
        match first {
          case RecvFailed(err) => v := Rejected(if Is(err, EOF) then NO_MESSAGE else err);
          case RecvPanics => v := Crashed;
          case Got(m) =>
            CacheHeader();
            var p := Pull();
            match p {
              case Payload(_) => v := Rejected(TOO_MANY);
              case PullError(err) => v := if Is(err, EOF) then Answer(m) else Rejected(err);
            }
        }
      }
      Finish(if v.Rejected? then Some(v.err) else None);
      recvBusy := false;
    }

    /** What the rest of an iteration yields, the next yield being the n-th. */
    function Remaining(react: nat -> Reaction, n: nat): seq<Yield>
      reads this
    {
      YieldsFrom(latch.Terminal(), peer, codec, pos, react, n)
    }

    /** One turn of the iteration: a receive, a yield, and the body's reaction. */
    method Turn(react: nat -> Reaction, n: nat) returns (y: Option<Yield>, more: bool)
      requires Valid()
      modifies this`pos, this`recvBuf, this`latch, this`hdrDone, this`closed, this`open, conn
      ensures Valid()
      ensures conn.held == old(conn.held) - (if old(open) && !open then 1 else 0) && (open ==> old(open))
      ensures old(Remaining(react, n)) == Maybe(y) + if more then Remaining(react, n + 1) else []
      ensures more ==> y.Some? && (latch.ended || (pos == old(pos) + 1 && old(pos) < |peer.payloads|)) && !old(latch).ended
    {
      y, more := None, false;
      var r := RecvGatedInto();
      match r {
        case RecvPanics =>
        case RecvFailed(e) =>
          if !Is(e, EOF) {
            y := Some(Failure(e));
            if react(n).closes { Close(); }
          }
        case Got(m) =>
          y := Some(Item(m));
          if react(n).closes { Close(); }
          more := !react(n).stops;
      }
    }

    /** The loop of both iterators, under the receive guard. */
    method Iterate(react: nat -> Reaction) returns (ys: seq<Yield>)
      requires Valid()
      modifies this`pos, this`recvBuf, this`latch, this`hdrDone, this`closed, this`open, conn
      ensures Valid()
      ensures conn.held == old(conn.held) - (if old(open) && !open then 1 else 0) && (open ==> old(open))
      ensures ys == old(Remaining(react, 0))
    {
      ys := [];
      var running := true;
      ghost var rest := Remaining(react, 0);
      ghost var goal := rest;
      while running
        invariant Valid()
        invariant conn.held == old(conn.held) - (if old(open) && !open then 1 else 0) && (open ==> old(open))
        invariant goal == ys + rest && (!running ==> rest == [])
        invariant running ==> rest == Remaining(react, |ys|)
        decreases running, !latch.ended, |peer.payloads| - pos
      {
        var y;
        y, running := Turn(react, |ys|);
        ghost var left := if running then Remaining(react, |ys| + 1) else [];
        Regroup(goal, ys, rest, Maybe(y), left);
        ys, rest := ys + Maybe(y), left;
      }
    }

    /** ServerStream.All: claims the guard once, receives until the end, an
        error, or the body stops, and then always closes, before it releases
        the guard. */
    method All(react: nat -> Reaction) returns (ys: seq<Yield>)
      requires Valid()
      modifies this`pos, this`recvBuf, this`latch, this`hdrDone, this`closed, this`open, this`recvBusy, conn
      ensures Valid()
      ensures old(recvBusy) ==> ys == [Failure(Leaf(RecvInFlight))] && recvBusy && closed == old(closed)
                                && conn.held == old(conn.held)
      ensures !old(recvBusy) ==> ys == old(Remaining(react, 0)) && !recvBusy && closed
                                 && conn.held == old(conn.held) - (if old(open) then 1 else 0)
    {
      if recvBusy {
        return [Failure(Leaf(RecvInFlight))];
      }
      recvBusy := true;
      ys := Iterate(react);
      Close();
      recvBusy := false;
    }

    /** BidiStream.All: the same loop, but the stream is left open unless the body
        itself closed it. */
    method AllBidi(react: nat -> Reaction) returns (ys: seq<Yield>)
      requires Valid()
      modifies this`pos, this`recvBuf, this`latch, this`hdrDone, this`closed, this`open, this`recvBusy, conn
      ensures Valid()
      ensures old(recvBusy) ==> ys == [Failure(Leaf(RecvInFlight))] && recvBusy && closed == old(closed)
                                && conn.held == old(conn.held)
      ensures !old(recvBusy) ==> ys == old(Remaining(react, 0)) && !recvBusy && (open ==> old(open))
                                 && conn.held == old(conn.held) - (if old(open) && !open then 1 else 0)
    {
      if recvBusy {
        return [Failure(Leaf(RecvInFlight))];
      }
      recvBusy := true;
      ys := Iterate(react);
      recvBusy := false;
    }

    /** doSend: refused calls write nothing; `w` is what poseidon's write returns. */
    method DoSend(m: Message, last: bool, w: Option<Error>) returns (r: P.Outcome)
      modifies this`sendBuf, this`sendClosed, this`wire
      ensures r == SendOutcome(old(closed), old(sendClosed), codec.encode(m), w)
      ensures r.Done? <==> !old(closed) && !old(sendClosed) && codec.encode(m).Encoded? && w.None?
      ensures wire == if r.Done? then old(wire) + [P.Frame(Some(codec.encode(m).bytes), last)] else old(wire)
      ensures sendClosed == (old(sendClosed) || (r.Done? && last))
    {
      if closed {
        return P.Failed(Leaf(GrpcStreamClosed));
      }
      if sendClosed {
        return P.Failed(Leaf(GrpcSendClosed));
      }
      match codec.encode(m) {
        case EncodeFails(cause) =>
          sendBuf := [];
          return P.Failed(NewCodecError(cause));
        case EncodePanics => return P.Panicked;
        case Encoded(bytes) => sendBuf := bytes;
      }
      if w.Some? {
        return P.Failed(w.value);
      }
      wire := wire + [P.Frame(Some(sendBuf), last)];
      if last {
        sendClosed := true;
      }
      return P.Done;
    }

    /** doCloseSend: idempotent. */
    method DoCloseSend(w: Option<Error>) returns (r: P.Outcome)
      modifies this`sendClosed, this`wire
      ensures r == HalfCloseOutcome(old(closed), old(sendClosed), w)
      ensures !old(closed) && old(sendClosed) ==> r == P.Done && wire == old(wire)
      ensures wire == if r.Done? && !old(sendClosed) then old(wire) + [P.Frame(None, true)] else old(wire)
      ensures sendClosed == (old(sendClosed) || r.Done?)
    {
      if closed {
        return P.Failed(Leaf(GrpcStreamClosed));
      }
      if sendClosed {
        return P.Done;
      }
      if w.Some? {
        return P.Failed(w.value);
      }
      wire, sendClosed := wire + [P.Frame(None, true)], true;
      return P.Done;
    }

    /** SendLastAndRecv: a send, and unless it failed for good a single receive. */
    method SendLastAndRecv(m: Message, w: Option<Error>) returns (v: Verdict)
      requires recvBusy || latch.ended || pos == 0
      modifies this
      ensures v == AfterSending(SendOutcome(old(closed), old(sendClosed), codec.encode(m), w), old(recvBusy), old(latch), peer, codec)
      ensures var sent := SendOutcome(old(closed), old(sendClosed), codec.encode(m), w);
        && wire == (if sent.Done? then old(wire) + [P.Frame(Some(codec.encode(m).bytes), true)] else old(wire))
        && sendClosed == (old(sendClosed) || sent.Done?)
        && (if GoesOn(sent) && !old(recvBusy) && !old(latch).ended
            then latch == SingleLatch(peer, codec) && pos == SinglePos(peer, codec)
            else latch == old(latch) && pos == old(pos))
      ensures recvBusy == old(recvBusy) && closed == old(closed) && open == old(open)
    {
      var r := DoSend(m, true, w);
      if r.Panicked? {
        return Crashed;
      }
      if r.Failed? && SendTolerant(Some(r.err)).Some? {
        return Rejected(r.err);
      }
      v := RecvSingle();
    }

    /** CloseAndRecv: the same after a half-close. */
    method CloseAndRecv(w: Option<Error>) returns (v: Verdict)
      requires recvBusy || latch.ended || pos == 0
      modifies this
      ensures v == AfterSending(HalfCloseOutcome(old(closed), old(sendClosed), w), old(recvBusy), old(latch), peer, codec)
      ensures var sent := HalfCloseOutcome(old(closed), old(sendClosed), w);
        && wire == (if sent.Done? && !old(sendClosed) then old(wire) + [P.Frame(None, true)] else old(wire))
        && sendClosed == (old(sendClosed) || sent.Done?)
        && (if GoesOn(sent) && !old(recvBusy) && !old(latch).ended
            then latch == SingleLatch(peer, codec) && pos == SinglePos(peer, codec)
            else latch == old(latch) && pos == old(pos))
      ensures recvBusy == old(recvBusy) && closed == old(closed) && open == old(open)
    {
      var r := DoCloseSend(w);
      if r.Failed? && SendTolerant(Some(r.err)).Some? {
        return Rejected(r.err);
      }
      v := RecvSingle();
    }
  }

  /** What a send reports: the flags first, then the codec, then the transport. */
  function SendOutcome(closed: bool, sendClosed: bool, enc: Encoding, w: Option<Error>): P.Outcome
  {
    if closed then P.Failed(Leaf(GrpcStreamClosed))
    else if sendClosed then P.Failed(Leaf(GrpcSendClosed))
    else match enc
      case EncodeFails(cause) => P.Failed(NewCodecError(cause))
      case EncodePanics => P.Panicked
      case Encoded(_) => if w.Some? then P.Failed(w.value) else P.Done
  }

  function HalfCloseOutcome(closed: bool, sendClosed: bool, w: Option<Error>): P.Outcome
  {
    if closed then P.Failed(Leaf(GrpcStreamClosed))
    else if sendClosed || w.None? then P.Done
    else P.Failed(w.value)
  }

  /** Who answers a send: a closed stream before a half-closed side, both before the
      codec, and the codec before the transport; nothing else fails it. */
  lemma SendAnswers(closed: bool, sendClosed: bool, enc: Encoding, w: Option<Error>)
    ensures var r := SendOutcome(closed, sendClosed, enc, w);
      && (closed ==> r == P.Failed(Leaf(GrpcStreamClosed)))
      && (!closed && sendClosed ==> r == P.Failed(Leaf(GrpcSendClosed)))
      && (!closed && !sendClosed && enc.EncodeFails? ==> r == P.Failed(NewCodecError(enc.cause)))
      && (!closed && !sendClosed && enc.Encoded? && w.Some? ==> r == P.Failed(w.value))
      && (r == P.Panicked <==> !closed && !sendClosed && enc.EncodePanics?)
  {
  }

  /** A half-close of an open stream is done at most once, and a second one is no
      error; on a closed stream it is. */
  lemma HalfCloseAnswers(sendClosed: bool, w: Option<Error>)
    ensures HalfCloseOutcome(true, sendClosed, w) == P.Failed(Leaf(GrpcStreamClosed))
    ensures HalfCloseOutcome(false, true, w) == P.Done
    ensures HalfCloseOutcome(false, false, w) == if w.Some? then P.Failed(w.value) else P.Done
  {
  }

  /** The send went well, or failed in the way that is taken for a success. */
  predicate GoesOn(sent: P.Outcome)
  {
    !sent.Panicked? && SendTolerant(P.ToError(sent)).None?
  }

  /** What a client stream's final call returns, given how its send went. */
  function AfterSending(sent: P.Outcome, busy: bool, latch: Latch, peer: Peer, codec: Codec): Verdict
  {
    if sent.Panicked? then Crashed
    else if SendTolerant(P.ToError(sent)).Some? then Rejected(SendTolerant(P.ToError(sent)).value)
    else if busy then Rejected(Leaf(RecvInFlight))
    else if latch.ended then Rejected(latch.Terminal().value)
    else SingleVerdict(peer, codec)
  }

  /** A transport error that contains conn.ErrStreamClosed yields the outcome a
      successful write would have had; any other one is returned as it is. */
  lemma BenignSendIsSuccess(sendClosed: bool, enc: Encoding, e: Error, busy: bool, latch: Latch, peer: Peer, codec: Codec)
    ensures Is(e, ConnStreamClosed) ==>
      && AfterSending(SendOutcome(false, sendClosed, enc, Some(e)), busy, latch, peer, codec) ==
         AfterSending(SendOutcome(false, sendClosed, enc, None), busy, latch, peer, codec)
      && AfterSending(HalfCloseOutcome(false, sendClosed, Some(e)), busy, latch, peer, codec) ==
         AfterSending(HalfCloseOutcome(false, sendClosed, None), busy, latch, peer, codec)
    ensures !Is(e, ConnStreamClosed) && !sendClosed && enc.Encoded? ==>
      AfterSending(SendOutcome(false, sendClosed, enc, Some(e)), busy, latch, peer, codec) == Rejected(e)
  {
  }

  // ----- Opening server streams and iterating them

  /** One server-streaming call: how each stage of the constructor goes, what the
      peer then sends, and what the consumer does. */
  datatype Plan = Plan(cfgErr: Option<Error>, openErr: Option<Error>, request: Encoding,
                       sendErr: Option<Error>, headerErr: Option<Error>,
                       peer: Peer, codec: Codec, react: nat -> Reaction)

  predicate Opens(p: Plan)
  {
    p.cfgErr.None? && p.openErr.None? && p.request.Encoded? && SendTolerant(p.sendErr).None? && p.headerErr.None?
  }

  /** The one path that keeps a slot for nobody: the request's codec panics after
      the stream was opened, and no deferred call aborts it. */
  predicate Leaks(p: Plan)
  {
    p.cfgErr.None? && p.openErr.None? && p.request.EncodePanics?
  }

  /** NewServerStream: the first stage that fails gives the error, and every failure
      after the stream was opened aborts it. A panic returns nothing at all. */
  method NewServerStream(conn: Conn, p: Plan) returns (s: Stream?, err: Option<Error>)
    modifies conn
    ensures s != null <==> Opens(p)
    ensures s != null ==> fresh(s) && s.conn == conn && s.peer == p.peer && s.codec == p.codec && err.None?
    ensures s != null ==> s.Valid() && s.open && !s.recvBusy && s.latch == RUNNING && s.pos == 0 && s.hdrDone
    ensures s != null ==> s.sendClosed == false && (p.sendErr.None? ==> s.wire == [P.Frame(Some(p.request.bytes), true)])
    ensures s == null ==>
      err == if p.cfgErr.Some? then p.cfgErr
             else if p.openErr.Some? then p.openErr
             else if p.request.EncodePanics? then None
             else if p.request.EncodeFails? then Some(NewCodecError(p.request.cause))
             else if p.sendErr.Some? && !Is(p.sendErr.value, ConnStreamClosed) then p.sendErr
             else p.headerErr
    ensures conn.held == old(conn.held) + (if Opens(p) || Leaks(p) then 1 else 0)
  {
    s, err := null, None;
    if p.cfgErr.Some? {
      return null, p.cfgErr;
    }
    if p.openErr.Some? {
      return null, p.openErr;
    }
    var st := new Stream(p.peer, p.codec, conn, _ => false);
    conn.held := conn.held + 1;
    match p.request {
      case EncodePanics => return;
      case EncodeFails(cause) =>
        conn.held := conn.held - 1;
        return null, Some(NewCodecError(cause));
      case Encoded(bytes) =>
        if p.sendErr.None? {
          st.wire := [P.Frame(Some(bytes), true)];
        } else if SendTolerant(p.sendErr).Some? {
          conn.held := conn.held - 1;
          return null, p.sendErr;
        }
    }
    if p.headerErr.Some? {
      conn.held := conn.held - 1;
      return null, p.headerErr;
    }
    st.hdrDone := true;
    return st, None;
  }

  /** A stream is there exactly if no stage failed: the configuration, the stream, the
      codec, the write (but for the tolerated failure), and the eager header. */
  lemma OpensIff(p: Plan)
    ensures Opens(p) <==>
      p.cfgErr.None? && p.openErr.None? && p.request.Encoded? && p.headerErr.None? &&
      (p.sendErr.Some? ==> Leaf(ConnStreamClosed) in Preorder(p.sendErr.value))
    ensures Leaks(p) <==> p.cfgErr.None? && p.openErr.None? && p.request.EncodePanics?
  {
    if p.sendErr.Some? {
      IsIsMembership(p.sendErr.value, ConnStreamClosed);
    }
  }

  function LeakCount(plans: seq<Plan>): nat
  {
    if plans == [] then 0 else LeakCount(plans[..|plans| - 1]) + if Leaks(plans[|plans| - 1]) then 1 else 0
  }

  lemma LeakCountStep(plans: seq<Plan>, i: nat)
    requires i < |plans|
    ensures LeakCount(plans[..i + 1]) == LeakCount(plans[..i]) + if Leaks(plans[i]) then 1 else 0
  {
    assert plans[..i + 1][..i] == plans[..i];
  }

  /** What one call shows its consumer. */
  function LogOf(p: Plan): seq<Yield>
  {
    if Opens(p) then Yields(p.peer, p.codec, 0, p.react, 0) else []
  }

  /** One call from its constructor to the end of its iteration. */
  method Session(conn: Conn, p: Plan) returns (log: seq<Yield>)
    modifies conn
    ensures conn.held == old(conn.held) + (if Leaks(p) then 1 else 0)
    ensures log == LogOf(p)
  {
    log := [];
    var s, _ := NewServerStream(conn, p);
    if s != null {
      log := s.All(p.react);
    }
  }

  /** Slot conservation: after any number of opens and iterations, whatever fails
      and wherever a consumer stops or panics, every slot is given back except
      one per request codec that panicked. */
  method Sessions(conn: Conn, plans: seq<Plan>) returns (logs: seq<seq<Yield>>)
    modifies conn
    ensures conn.held == old(conn.held) + LeakCount(plans)
    ensures |logs| == |plans|
    ensures forall i :: 0 <= i < |plans| ==> logs[i] == LogOf(plans[i])
  {
    logs := [];
    for i := 0 to |plans|
      invariant conn.held == old(conn.held) + LeakCount(plans[..i])
      invariant |logs| == i
      invariant forall k :: 0 <= k < i ==> logs[k] == LogOf(plans[k])
    {
      var log := Session(conn, plans[i]);
      logs := logs + [log];
      LeakCountStep(plans, i);
    }
    assert plans[..|plans|] == plans;
  }

  // ----- What the specifications mean

  /** A single-response method returns m exactly when the peer sent one payload that
      decodes to m and then ended cleanly. */
  lemma SingleAnswerIff(peer: Peer, codec: Codec, m: Message)
    ensures SingleVerdict(peer, codec) == Answer(m) <==>
            |peer.payloads| == 1 && codec.decode(peer.payloads[0]) == Decoded(m) && Is(peer.EndError(), EOF)
    ensures StatusOf(Some(NO_MESSAGE)).code == Internal && StatusOf(Some(TOO_MANY)).code == Internal
  {
  }

  /** Otherwise it reports why: no message or too many although the peer ended with
      OK, the codec's failure, or the peer's own end, unchanged. */
  lemma SingleRejection(peer: Peer, codec: Codec)
    ensures var v := SingleVerdict(peer, codec);
      if |peer.payloads| == 0 then v == Rejected(if Is(peer.EndError(), EOF) then NO_MESSAGE else peer.EndError())
      else match codec.decode(peer.payloads[0])
        case DecodePanics => v == Crashed
        case DecodeFails(cause) => v == Rejected(if IsOpt(cause, EOF) then NO_MESSAGE else NewCodecError(cause))
        case Decoded(_) =>
          && (|peer.payloads| > 1 ==> v == Rejected(TOO_MANY))
          && (|peer.payloads| == 1 && !Is(peer.EndError(), EOF) ==> v == Rejected(peer.EndError()))
  {
    if |peer.payloads| > 0 && codec.decode(peer.payloads[0]).DecodeFails? {
      CodecErrorIsInternal(codec.decode(peer.payloads[0]).cause);
    }
  }

  /** The events recvSingle consumes: the drain takes one more after a message. */
  function SinglePos(peer: Peer, codec: Codec): nat
  {
    if ReceiveAt(peer, codec, 0).Got? then 2 else 1
  }

  /** The latch recvSingle leaves behind. */
  function SingleLatch(peer: Peer, codec: Codec): Latch
  {
    var (v, pos) := (SingleVerdict(peer, codec), SinglePos(peer, codec));
    Latch(true, if v.Rejected? then Some(v.err) else None, peer.StatusAt(pos), peer.TrailerAt(pos))
  }

  /** The nil result and the OK status coincide, for an honest peer and a codec
      that does not panic; a codec panic is the exception. */
  lemma SingleAgreesWithStatus(peer: Peer, codec: Codec)
    requires peer.WellFormed()
    requires peer.end.Broken? ==> !Is(peer.end.err, EOF) && !(As(peer.end.err).Some? && As(peer.end.err).value.code == OK)
    ensures SingleLatch(peer, codec).Status().code == OK <==>
            SingleVerdict(peer, codec).Answer? || SingleVerdict(peer, codec).Crashed?
  {
    var v := SingleVerdict(peer, codec);
    if v.Rejected? {
      RejectedIsNotOk(peer, codec);
      StatusOfOkOnlyFromStatus(v.err);
    }
  }

  /** A rejection neither contains io.EOF nor carries an OK status. */
  lemma RejectedIsNotOk(peer: Peer, codec: Codec)
    requires peer.WellFormed() && SingleVerdict(peer, codec).Rejected?
    requires peer.end.Broken? ==> !Is(peer.end.err, EOF) && !(As(peer.end.err).Some? && As(peer.end.err).value.code == OK)
    ensures var e := SingleVerdict(peer, codec).err; !Is(e, EOF) && !(As(e).Some? && As(e).value.code == OK)
  {
    if |peer.payloads| > 0 && codec.decode(peer.payloads[0]).DecodeFails? {
      CodecErrorIsInternal(codec.decode(peer.payloads[0]).cause);
      StatusOfOkOnlyFromStatus(NewCodecError(codec.decode(peer.payloads[0]).cause));
    }
  }

  /** The i-th of the yields `ys` that start at position `pos` as the n-th one: a
      message in the peer's order, or an error without io.EOF that comes last; and
      nothing follows the yield at which the consumer stopped. */
  predicate YieldOk(peer: Peer, codec: Codec, pos: nat, react: nat -> Reaction, n: nat, ys: seq<Yield>, i: nat)
    requires i < |ys|
  {
    && (i < |ys| - 1 ==> ys[i].Item? && !react(n + i).stops)
    && match ys[i]
       case Item(m) => pos + i < |peer.payloads| && codec.decode(peer.payloads[pos + i]) == Decoded(m)
       case Failure(e) => !Is(e, EOF)
  }

  lemma YieldShifts(peer: Peer, codec: Codec, pos: nat, react: nat -> Reaction, n: nat, y: Yield, rest: seq<Yield>, i: nat)
    requires 0 < i <= |rest| && YieldOk(peer, codec, pos + 1, react, n + 1, rest, i - 1)
    ensures YieldOk(peer, codec, pos, react, n, [y] + rest, i)
  {
    assert n + 1 + (i - 1) == n + i && pos + 1 + (i - 1) == pos + i;
    assert ([y] + rest)[i] == rest[i - 1];
  }

  /** What an iteration yields, for every peer and every consumer. */
  lemma {:induction false} YieldAt(peer: Peer, codec: Codec, pos: nat, react: nat -> Reaction, n: nat, i: nat)
    requires i < |Yields(peer, codec, pos, react, n)|
    ensures YieldOk(peer, codec, pos, react, n, Yields(peer, codec, pos, react, n), i)
    decreases i
  {
    match ReceiveAt(peer, codec, pos)
    case RecvPanics =>
    case RecvFailed(e) =>
    case Got(m) =>
      if i > 0 && !react(n).stops && !react(n).closes {
        YieldAt(peer, codec, pos + 1, react, n + 1, i - 1);
        YieldShifts(peer, codec, pos, react, n, Item(m), Yields(peer, codec, pos + 1, react, n + 1), i);
      }
  }

  /** An iteration over a stream that has ended: nothing after a clean end, else the
      terminal error, once. */
  lemma YieldsAfterEnd(latch: Latch, peer: Peer, codec: Codec, pos: nat, react: nat -> Reaction)
    requires latch.ended
    ensures var ys := YieldsFrom(latch.Terminal(), peer, codec, pos, react, 0);
      if latch.err.None? || Leaf(EOF) in Preorder(latch.err.value) then ys == [] else ys == [Failure(latch.err.value)]
  {
    if latch.err.Some? {
      IsIsMembership(latch.err.value, EOF);
    }
  }

  /** A consumer that never stops or closes gets every message of a peer whose
      payloads all decode, and after them the end: nothing more for a clean one,
      the call's error otherwise. */
  lemma {:induction false} YieldsAreComplete(peer: Peer, codec: Codec, pos: nat, react: nat -> Reaction, n: nat)
    requires pos <= |peer.payloads| && (forall i: nat :: !react(i).stops && !react(i).closes)
    requires forall i :: pos <= i < |peer.payloads| ==> codec.decode(peer.payloads[i]).Decoded?
    ensures var ys := Yields(peer, codec, pos, react, n); var e := peer.EndError();
      && |ys| == |peer.payloads| - pos + (if Is(e, EOF) then 0 else 1)
      && (!Is(e, EOF) ==> ys[|ys| - 1] == Failure(e))
      && (forall i :: 0 <= i < |peer.payloads| - pos ==> ys[i].Item?)
    decreases |peer.payloads| - pos
  {
    if pos < |peer.payloads| {
      YieldsAreComplete(peer, codec, pos + 1, react, n + 1);
      var rest, ys := Yields(peer, codec, pos + 1, react, n + 1), Yields(peer, codec, pos, react, n);
      assert !react(n).stops && !react(n).closes;
      assert forall i :: 0 < i < |ys| ==> ys[i] == rest[i - 1];
    }
  }
}
