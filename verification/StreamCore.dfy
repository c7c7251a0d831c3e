/** What the streaming shapes share: the peer, the codec, and the latched
terminal outcome with the views a caller gets of it. */
module StreamCore {
  import opened Errors

  type Bytes = seq<nat>
  type Message = nat

  /** What a codec makes of one message or one payload. A panic is an outcome
      too: every guard is released by a deferred call. */
  datatype Encoding = Encoded(bytes: Bytes) | EncodeFails(cause: Option<Error>) | EncodePanics
  datatype Decoding = Decoded(message: Message) | DecodeFails(cause: Option<Error>) | DecodePanics

  datatype Codec = Codec(encode: Message -> Encoding, decode: Bytes -> Decoding)

  /** How the peer, or the transport, ends the call. */
  datatype End = CleanEnd | Declared(status: Status) | Broken(err: Error)

  /** Everything poseidon delivers on one stream, in order: the payloads, then
      the end together with the trailers of a peer-declared outcome. */
  datatype Peer = Peer(payloads: seq<Bytes>, end: End, trailer: seq<Bytes>)
  {
    /** The error a receive reports for the terminal event. */
    function EndError(): Error
    {
      match end
      case CleanEnd => Leaf(EOF)
      case Declared(st) => StatusError(st)
      case Broken(e) => e
    }

    /** poseidon's own status after `pos` events: set only by a peer-declared outcome. */
    function StatusAt(pos: nat): Status
    {
      if pos > |payloads| && end.Declared? then end.status else ZERO_STATUS
    }

    function TrailerAt(pos: nat): seq<Bytes>
    {
      if pos > |payloads| && !end.Broken? then trailer else []
    }

    /** A peer that declares a status declares a failure: OK is the clean end. */
    predicate WellFormed()
    {
      end.Declared? ==> end.status.code != OK
    }

    predicate EndedCleanlyAt(pos: nat)
    {
      pos > |payloads| && end.CleanEnd?
    }
  }

  /** The terminal outcome and its snapshots; the first writer wins. */
  datatype Latch = Latch(ended: bool, err: Option<Error>, status: Status, trailer: seq<Bytes>)
  {
    function Set(e: Option<Error>, st: Status, tr: seq<Bytes>): Latch
    {
      if ended then this else Latch(true, e, st, tr)
    }

    /** terminal(): the latched outcome, io.EOF for a nil one, nil while running. */
    function Terminal(): Option<Error>
    {
      if !ended then None else if err.Some? then err else Some(Leaf(EOF))
    }

    /** Status(): poseidon's status if it is a failure, else OK for a nil error or
        one that contains io.EOF, else what StatusOf says of the error. */
    function Status(): Status
    {
      if !ended then ZERO_STATUS
      else if status.code != OK then status
      else if err.None? || Is(err.value, EOF) then Errors.Status(OK, "")
      else StatusOf(err)
    }
  }

  const RUNNING := Latch(false, None, ZERO_STATUS, [])
}
