/** The concurrency protocol of one stream as a step system.

Any number of threads call the operations of one stream. Each thread has a
program counter; a step is one access to shared state or one return from a call
into poseidon or the codec. The read/write gate blocks new readers while a
writer waits. poseidon is an environment: events of the peer arrive at any time,
the transport may fail at any time, and any send may fail. */
module StreamProtocol {
  import opened Errors
  import opened StreamCore

  type Tid = nat

  datatype Shape = ServerShape | ClientShape | BidiShape

  datatype Env = Env(shape: Shape, peer: Peer, codec: Codec)

  /** One successful write: a message body or a bare half-close. */
  datatype Frame = Frame(body: Option<Bytes>, endStream: bool)

  /** A send-side call: a message, or a half-close when there is none. On a
      client stream the final one goes on to read the single response. */
  datatype Job = Job(message: Option<Message>, last: bool, thenRecv: bool)

  /** History: a send-side call that passed the send guard, in guard order. */
  datatype Ticket = Ticket(job: Job, wrote: bool)

  datatype Outcome = Done | Failed(err: Error) | Panicked

  /** Which receive operation: one message of Recv or All through recvGatedInto,
      or the single response of a client stream through recvSingle. */
  datatype Kind = Multi | Single

  /** Program points of a receive. A Multi receive takes the guard, then the
      gate; a Single one takes the gate, then the guard. */
  datatype RecvPC =
    | AtGuard(all: bool)
    | AtGate
    | AtTerminal
    | InPull
    | InDecode
    | AtHeader
    | InHeader
    | StoreHeader
    | InDrain
    | AtFinish(res: Outcome)
    | AtUnlock(res: Outcome)
    | AtLeave(res: Outcome)

  datatype ClosePC = AtSwap | AtCancel | AtAnnounce | AtWait | InClose | AtLatch | AtRelease

  datatype SendPC =
    | AtSendGuard
    | AtClosedCheck
    | AtHalfCheck
    | InMarshal(i: nat)
    | InWire
    | AtMark
    | AtSendLeave(res: Outcome)

  /** `deferred` marks the self-closing iterator's own Close. */
  datatype PC =
    | User
    | Receiving(k: Kind, r: RecvPC)
    | Closing(c: ClosePC, deferred: bool)
    | Sending(x: SendPC, job: Job)

  /** `Loop` while the thread is inside an All iteration that holds the receive
      guard; `last` once the iteration has yielded its error. */
  datatype Iteration = Out | Loop(last: bool)

  /** `derived`: the context this thread gives to receives is the stream's own. */
  datatype Local = Local(pc: PC, iter: Iteration, derived: bool)

  /** sync.RWMutex: readers hold it together, a waiting writer stops new readers. */
  datatype Gate = Gate(readers: set<Tid>, writer: Option<Tid>, waiting: Option<Tid>)

  /** The receive half. `arrived` and `pos` count the peer's events that have
      reached poseidon and that its pump has consumed; `fault` is a transport
      failure. The last three fields are history: messages handed to callers,
      errors returned by admitted receives, and how often the latch was set. */
  datatype Rx = Rx(busy: bool, latch: Latch, hdrDone: bool, buf: Bytes,
                   arrived: nat, pos: nat, fault: Option<Error>,
                   received: seq<Message>, outcomes: seq<Error>, latchings: nat)

  /** The send half; `tickets` is history. */
  datatype Tx = Tx(busy: bool, closed: bool, buf: Bytes, wire: seq<Frame>, tickets: seq<Ticket>)

  /** `returned` is history: the winning Close has released the gate. */
  datatype Flags = Flags(closed: bool, cancelled: bool, returned: bool)

  datatype Shared = Shared(gate: Gate, flags: Flags, rx: Rx, tx: Tx)

  datatype State = State(sh: Shared, threads: map<Tid, Local>)

  datatype Op = Recv | All | Close | Send(job: Job)

  datatype Choice = Go | Abort | Fail(err: Error)

  /** What one thread does: enter an operation, leave the body of an iteration
      (to go on, or to stop by a break, a return or a panic), or take its next step. */
  datatype Move = Start(op: Op, derived: bool) | Body(more: bool) | Step(choice: Choice)

  datatype Action = Arrive | Break(err: Error) | Act(t: Tid, move: Move)

  /** The operations each shape's type has. */
  predicate Offers(shape: Shape, op: Op)
  {
    match op
    case Recv => shape != ClientShape
    case All => shape != ClientShape
    case Close => true
    case Send(j) =>
      && (j.message.None? ==> j.last)
      && match shape
         case ServerShape => false
         case ClientShape => j.thenRecv == j.last
         case BidiShape => !j.thenRecv
  }

  // ----- What a thread holds, as a function of where it is

  predicate HoldsRead(pc: PC)
  {
    pc.Receiving? &&
    match pc.r
    case AtGuard(_) => pc.k == Single
    case AtGate => false
    case AtLeave(_) => pc.k == Single
    case _ => true
  }

  predicate HoldsWrite(pc: PC)
  {
    pc.Closing? && (pc.c.InClose? || pc.c.AtLatch? || pc.c.AtRelease?)
  }

  /** Between the receive guard's compare-and-swap and its release. */
  predicate Guarded(pc: PC)
  {
    pc.Receiving? &&
    match pc.r
    case AtGuard(_) => false
    case AtGate => pc.k == Multi
    case AtUnlock(_) => pc.k == Multi
    case _ => true
  }

  predicate HoldsRecv(l: Local)
  {
    l.iter.Loop? || Guarded(l.pc)
  }

  /** Inside poseidon's unguarded receive state, or using the receive scratch. */
  predicate InReceive(pc: PC)
  {
    pc.Receiving? &&
    match pc.r
    case InPull => true
    case InDecode => true
    case AtHeader => true
    case InHeader => true
    case StoreHeader => true
    case InDrain => true
    case _ => false
  }

  predicate HoldsSend(pc: PC)
  {
    pc.Sending? && !pc.x.AtSendGuard?
  }

  /** Past the compare-and-swap that only one Close ever wins. */
  predicate WonClose(pc: PC)
  {
    pc.Closing? && !pc.c.AtSwap?
  }

  // ----- Steps

  /** Whether the thread's next step can happen. Only the gate, a Close waiting
      for the readers, and a receive with nothing to return are blocked. */
  predicate CanStep(sh: Shared, l: Local, c: Choice)
  {
    match l.pc
    case User => false
    case Receiving(_, r) =>
      (match r
       case AtGate => sh.gate.writer.None? && sh.gate.waiting.None? && c == Go
       case InPull => CanPull(sh, l, c)
       case InDrain => CanPull(sh, l, c)
       case InHeader => !c.Abort?
       case _ => c == Go)
    case Closing(p, _) => c == Go && (p.AtWait? ==> sh.gate.readers == {})
    case Sending(x, _) => if x.InWire? then !c.Abort? else c == Go
  }

  /** A receive returns an event that has arrived, the cancellation of a context
      derived from the stream's, or a failure of the transport. */
  predicate CanPull(sh: Shared, l: Local, c: Choice)
  {
    match c
    case Go => sh.rx.pos < sh.rx.arrived
    case Abort => sh.flags.cancelled && l.derived
    case Fail(e) => sh.rx.fault == Some(e)
  }

  datatype Pulled = Payload(bytes: Bytes) | PullError(err: Error)

  /** What the receive returns; an event is consumed only by Go. */
  function Pull(env: Env, pos: nat, c: Choice): Pulled
  {
    match c
    case Go =>
      if pos < |env.peer.payloads| then Payload(env.peer.payloads[pos])
      else PullError(env.peer.EndError())
    case Abort => PullError(Leaf(CtxCanceled))
    case Fail(e) => PullError(e)
  }

  function Consume(pos: nat, c: Choice): nat
  {
    if c == Go then pos + 1 else pos
  }

  /** Set the terminal outcome, first writer wins, with poseidon's status and trailers. */
  function Latched(env: Env, rx: Rx, e: Option<Error>): Rx
  {
    rx.(latch := rx.latch.Set(e, env.peer.StatusAt(rx.pos), env.peer.TrailerAt(rx.pos)),
        latchings := rx.latchings + if rx.latch.ended then 0 else 1)
  }

  function ToError(res: Outcome): Option<Error>
  {
    if res.Failed? then Some(res.err) else None
  }

  function Record(rx: Rx, res: Outcome): Rx
  {
    if res.Failed? then rx.(outcomes := rx.outcomes + [res.err]) else rx
  }

  /** Where an All iteration goes when it ends: its deferred calls. */
  function IterationExit(shape: Shape): PC
  {
    if shape == ServerShape then Closing(AtSwap, true) else Receiving(Multi, AtLeave(Done))
  }

  /** What a thread does with the result of recvGatedInto: Recv returns it, an
      iteration yields it, or stops silently on io.EOF. */
  function AfterUnlock(shape: Shape, l: Local, res: Outcome): Local
  {
    if l.iter.Out? then l.(pc := Receiving(Multi, AtLeave(res)))
    else match res
      case Done => l.(pc := User, iter := Loop(false))
      case Panicked => l.(pc := IterationExit(shape))
      case Failed(e) =>
        if Is(e, EOF) then l.(pc := IterationExit(shape)) else l.(pc := User, iter := Loop(true))
  }

  /** recvSingle's reading of an error of its first receive: any io.EOF in it
      means that the call carried no message. */
  function NoMessage(e: Error): Error
  {
    if Is(e, EOF) then StatusError(Errors.Status(Internal, "no message")) else e
  }

  /** recvSingle's reading of its drain. */
  function Drained(p: Pulled): Outcome
  {
    match p
    case Payload(_) => Failed(StatusError(Errors.Status(Internal, "more than one message")))
    case PullError(e) => if Is(e, EOF) then Done else Failed(e)
  }

  /** Where a failed recvOne leads. */
  function ReceiveFailed(k: Kind, e: Error): RecvPC
  {
    AtFinish(Failed(if k == Multi then e else NoMessage(e)))
  }

  function AfterHeader(k: Kind): RecvPC
  {
    if k == Multi then AtUnlock(Done) else InDrain
  }

  /** The receive guard: compare-and-swap, and unconditional release. A refused
      recvSingle still holds the gate. */
  function GuardStep(rx: Rx, l: Local, k: Kind, r: RecvPC): (Rx, Local)
    requires r.AtGuard? || r.AtLeave?
  {
    match r
    case AtGuard(all) =>
      if rx.busy then
        (rx, l.(pc := if k == Multi then User else Receiving(k, AtUnlock(Failed(Leaf(RecvInFlight))))))
      else if k == Multi then
        (rx.(busy := true), l.(pc := Receiving(k, AtGate), iter := if all then Loop(false) else l.iter))
      else (rx.(busy := true), l.(pc := Receiving(k, AtTerminal)))
    case AtLeave(res) =>
      if k == Multi then (rx.(busy := false), l.(pc := User, iter := Out))
      else (Record(rx, res).(busy := false), l.(pc := Receiving(k, AtUnlock(res))))
  }

  /** The gate's read side. */
  function GateStep(shape: Shape, gate: Gate, rx: Rx, l: Local, t: Tid, k: Kind, r: RecvPC): (Gate, Rx, Local)
    requires r.AtGate? || r.AtUnlock?
  {
    match r
    case AtGate =>
      (gate.(readers := gate.readers + {t}), rx,
       l.(pc := Receiving(k, if k == Multi then AtTerminal else AtGuard(false))))
    case AtUnlock(res) =>
      if k == Multi then (gate.(readers := gate.readers - {t}), Record(rx, res), AfterUnlock(shape, l, res))
      else (gate.(readers := gate.readers - {t}), rx, l.(pc := User))
  }

  predicate OnPump(r: RecvPC)
  {
    !r.AtGuard? && !r.AtLeave? && !r.AtGate? && !r.AtUnlock?
  }

  /** What happens under the guard and the gate: the terminal check, poseidon's
      receive, the codec, the header cache, and the latch. */
  function PumpStep(env: Env, rx: Rx, k: Kind, r: RecvPC, c: Choice): (Rx, RecvPC)
    requires OnPump(r)
  {
    match r
    case AtTerminal =>
      var e := rx.latch.Terminal();
      (rx, if e.None? then InPull else if k == Multi then AtUnlock(Failed(e.value)) else AtFinish(Failed(e.value)))
    case InPull =>
      (match Pull(env, rx.pos, c)
       case Payload(bs) => (rx.(pos := Consume(rx.pos, c), buf := bs), InDecode)
       case PullError(e) => (rx.(pos := Consume(rx.pos, c), buf := []), ReceiveFailed(k, e)))
    case InDecode =>
      (match env.codec.decode(rx.buf)
       case Decoded(m) => (rx.(received := rx.received + [m]), AtHeader)
       case DecodeFails(cause) => (rx, ReceiveFailed(k, NewCodecError(cause)))
       // recvSingle's deferred finish sees a nil error while a panic unwinds
       case DecodePanics => (rx, if k == Multi then AtUnlock(Panicked) else AtFinish(Panicked)))
    case AtHeader => (rx, if rx.hdrDone then AfterHeader(k) else InHeader)
    case InHeader => (rx, if c == Go then StoreHeader else AfterHeader(k))
    case StoreHeader => (rx.(hdrDone := true), AfterHeader(k))
    case InDrain => (rx.(pos := Consume(rx.pos, c)), AtFinish(Drained(Pull(env, rx.pos, c))))
    case AtFinish(res) => (Latched(env, rx, ToError(res)), if k == Multi then AtUnlock(res) else AtLeave(res))
  }

  function AfterClose(l: Local, deferred: bool): Local
  {
    l.(pc := if deferred then Receiving(Multi, AtLeave(Done)) else User)
  }

  /** Close: swap the flag, cancel, take the gate for writing, close poseidon's
      stream, latch, release. */
  function CloseStep(env: Env, sh: Shared, l: Local, t: Tid, p: ClosePC, d: bool): (Shared, Local)
  {
    match p
    case AtSwap =>
      if sh.flags.closed then (sh, AfterClose(l, d))
      else (sh.(flags := sh.flags.(closed := true)), l.(pc := Closing(AtCancel, d)))
    case AtCancel => (sh.(flags := sh.flags.(cancelled := true)), l.(pc := Closing(AtAnnounce, d)))
    case AtAnnounce => (sh.(gate := sh.gate.(waiting := Some(t))), l.(pc := Closing(AtWait, d)))
    case AtWait => (sh.(gate := sh.gate.(waiting := None, writer := Some(t))), l.(pc := Closing(InClose, d)))
    case InClose => (sh, l.(pc := Closing(AtLatch, d)))
    case AtLatch => (sh.(rx := Latched(env, sh.rx, Some(Leaf(GrpcStreamClosed)))), l.(pc := Closing(AtRelease, d)))
    case AtRelease =>
      (sh.(gate := sh.gate.(writer := None), flags := sh.flags.(returned := true)), AfterClose(l, d))
  }

  /** The encoding of a job's message. */
  function BodyOf(env: Env, j: Job): Bytes
  {
    if j.message.None? then []
    else match env.codec.encode(j.message.value)
      case Encoded(bs) => bs
      case _ => []
  }

  function TicketDone(tickets: seq<Ticket>): seq<Ticket>
  {
    if tickets == [] then [] else tickets[|tickets| - 1 := tickets[|tickets| - 1].(wrote := true)]
  }

  /** Where a send-side call goes after it has released the send guard. */
  function AfterSend(job: Job, res: Outcome): PC
  {
    if job.thenRecv && !res.Panicked? && SendTolerant(ToError(res)).None? then Receiving(Single, AtGate) else User
  }

  /** doSend and doCloseSend, up to the release of the send guard. Marshalling
      writes the shared scratch byte by byte. */
  function SendStep(env: Env, closed: bool, tx: Tx, j: Job, x: SendPC, c: Choice): (Tx, SendPC)
    requires HoldsSend(Sending(x, j)) && !x.AtSendLeave?
  {
    match x
    case AtClosedCheck => (tx, if closed then AtSendLeave(Failed(Leaf(GrpcStreamClosed))) else AtHalfCheck)
    case AtHalfCheck =>
      if tx.closed then (tx, AtSendLeave(if j.message.None? then Done else Failed(Leaf(GrpcSendClosed))))
      else if j.message.None? then (tx, InWire)
      else (match env.codec.encode(j.message.value)
            case Encoded(_) => (tx.(buf := []), InMarshal(0))
            case EncodeFails(e) => (tx.(buf := []), AtSendLeave(Failed(NewCodecError(e))))
            case EncodePanics => (tx.(buf := []), AtSendLeave(Panicked)))
    case InMarshal(i) =>
      var bs := BodyOf(env, j);
      if i < |bs| then (tx.(buf := tx.buf + [bs[i]]), InMarshal(i + 1)) else (tx, InWire)
    case InWire =>
      if c.Fail? then (tx, AtSendLeave(Failed(c.err)))
      else
        var body := if j.message.Some? then Some(tx.buf) else None;
        (tx.(wire := tx.wire + [Frame(body, j.last)], tickets := TicketDone(tx.tickets)),
         if j.last then AtMark else AtSendLeave(Done))
    case AtMark => (tx.(closed := true), AtSendLeave(Done))
  }

  function ThreadStep(env: Env, sh: Shared, l: Local, t: Tid, c: Choice): (Shared, Local)
  {
    match l.pc
    case User => (sh, l)
    case Receiving(k, r) =>
      if OnPump(r) then
        var (rx, r') := PumpStep(env, sh.rx, k, r, c);
        (sh.(rx := rx), l.(pc := Receiving(k, r')))
      else if r.AtGuard? || r.AtLeave? then
        var (rx, l') := GuardStep(sh.rx, l, k, r);
        (sh.(rx := rx), l')
      else
        var (gate, rx, l') := GateStep(env.shape, sh.gate, sh.rx, l, t, k, r);
        (sh.(gate := gate, rx := rx), l')
    case Closing(p, d) => CloseStep(env, sh, l, t, p, d)
    case Sending(x, j) =>
      if x.AtSendGuard? then
        if sh.tx.busy then (sh, l.(pc := User))
        else (sh.(tx := sh.tx.(busy := true, tickets := sh.tx.tickets + [Ticket(j, false)])),
              l.(pc := Sending(AtClosedCheck, j)))
      else if x.AtSendLeave? then (sh.(tx := sh.tx.(busy := false)), l.(pc := AfterSend(j, x.res)))
      else
        var (tx, x') := SendStep(env, sh.flags.closed, sh.tx, j, x, c);
        (sh.(tx := tx), l.(pc := Sending(x', j)))
  }

  function Entry(op: Op): PC
  {
    match op
    case Recv => Receiving(Multi, AtGuard(false))
    case All => Receiving(Multi, AtGuard(true))
    case Close => Closing(AtSwap, false)
    case Send(j) => Sending(AtSendGuard, j)
  }

  predicate CanMove(env: Env, sh: Shared, l: Local, m: Move)
  {
    match m
    case Start(op, _) => l.pc == User && Offers(env.shape, op)
    case Body(more) => l.pc == User && l.iter.Loop? && (more ==> !l.iter.last)
    case Step(c) => CanStep(sh, l, c)
  }

  function MoveThread(env: Env, sh: Shared, l: Local, t: Tid, m: Move): (Shared, Local)
  {
    match m
    case Start(op, derived) =>
      // inside an iteration's body the iteration keeps its own context
      (sh, l.(pc := Entry(op), derived := if l.iter.Loop? then l.derived else derived))
    case Body(more) => (sh, l.(pc := if more then Receiving(Multi, AtGate) else IterationExit(env.shape)))
    case Step(c) => ThreadStep(env, sh, l, t, c)
  }

  predicate Enabled(env: Env, s: State, a: Action)
  {
    match a
    case Arrive => s.sh.rx.arrived <= |env.peer.payloads|
    case Break(_) => true
    case Act(t, m) => t in s.threads && CanMove(env, s.sh, s.threads[t], m)
  }

  function Next(env: Env, s: State, a: Action): State
    requires Enabled(env, s, a)
  {
    match a
    case Arrive => s.(sh := s.sh.(rx := s.sh.rx.(arrived := s.sh.rx.arrived + 1)))
    case Break(e) => s.(sh := s.sh.(rx := s.sh.rx.(fault := Some(e))))
    case Act(t, m) =>
      var (sh, l) := MoveThread(env, s.sh, s.threads[t], t, m);
      State(sh, s.threads[t := l])
  }

  /** A stream as its constructor leaves it, with any finite set of threads. */
  predicate Initial(env: Env, s: State)
  {
    && (forall t :: t in s.threads ==> s.threads[t].pc == User && s.threads[t].iter == Out)
    && s.sh.gate == Gate({}, None, None)
    && s.sh.flags == Flags(false, false, false)
    && s.sh.rx == Rx(false, RUNNING, s.sh.rx.hdrDone, [], 0, 0, None, [], [], 0)
    && s.sh.tx == Tx(false, false, [], [], [])
  }

  /** `acts` is a run of the protocol from `s` to `s'`. */
  ghost predicate Run(env: Env, s: State, acts: seq<Action>, s': State)
    decreases |acts|
  {
    if acts == [] then s' == s
    else Enabled(env, s, acts[0]) && Run(env, Next(env, s, acts[0]), acts[1..], s')
  }

  /** The transport holds throughout. */
  predicate NoBreak(acts: seq<Action>)
  {
    forall i :: 0 <= i < |acts| ==> !acts[i].Break?
  }
}
