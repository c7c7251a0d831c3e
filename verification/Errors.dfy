/** Error values as finite trees, and the classification of a terminal error.

A Go error is a sentinel, a `*Status`, or a node that unwraps to a list of
errors. `errors.Is` and `errors.As` search such a tree in preorder. */
module Errors {

  datatype Option<+T> = None | Some(value: T)

  /** The gRPC status codes. */
  datatype Code =
    | OK | Canceled | Unknown | InvalidArgument | DeadlineExceeded | NotFound
    | AlreadyExists | PermissionDenied | ResourceExhausted | FailedPrecondition
    | Aborted | OutOfRange | Unimplemented | Internal | Unavailable | DataLoss
    | Unauthenticated

  datatype Status = Status(code: Code, message: string)

  /** What poseidon reports before any peer-declared outcome: the zero value. */
  const ZERO_STATUS := Status(OK, "")

  /** The sentinel values the package compares against. `Foreign` stands for
      every error value the package does not know. */
  datatype Sentinel =
    | EOF | CtxDeadline | CtxCanceled
    | MessageTooLarge | Compressed
    | ConnClosed | ConnDraining | GoAway | TooManyStreams
    | GrpcStreamClosed | GrpcSendClosed | ConnStreamClosed
    | RecvInFlight | SendInFlight | CallerInUse
    | Foreign(id: nat)

  datatype Error =
    | Leaf(sentinel: Sentinel)
    | StatusError(status: Status)
    | Wrap(children: seq<Error>)

  /** `errors.Is(e, s)` for a sentinel `s`. */
  predicate Is(e: Error, s: Sentinel)
  {
    match e
    case Leaf(x) => x == s
    case StatusError(_) => false
    case Wrap(cs) => exists i :: 0 <= i < |cs| && Is(cs[i], s)
  }

  /** `errors.Is` on a possibly nil error. */
  predicate IsOpt(e: Option<Error>, s: Sentinel)
  {
    e.Some? && Is(e.value, s)
  }

  /** `errors.As(e, &st)` with `st` of type `*Status`. */
  function As(e: Error): Option<Status>
    decreases e, 1
  {
    match e
    case Leaf(_) => None
    case StatusError(st) => Some(st)
    case Wrap(cs) => AsAny(cs)
  }

  function AsAny(cs: seq<Error>): Option<Status>
    decreases cs, 0
  {
    if cs == [] then None
    else if As(cs[0]).Some? then As(cs[0])
    else AsAny(cs[1..])
  }

  /** A serialisation failure: it unwraps to an Internal status first and to the
      codec's own cause second, when there is one. */
  function NewCodecError(cause: Option<Error>): Error
  {
    var mapped := StatusError(Status(Internal, "codec"));
    if cause.None? then Wrap([mapped]) else Wrap([mapped, cause.value])
  }

  /** StatusOf: one gRPC status for an arbitrary error value. */
  function StatusOf(err: Option<Error>): Status
  {
    if err.None? then Status(OK, "")
    else
      var e := err.value;
      if As(e).Some? then As(e).value
      else if Is(e, CtxDeadline) then Status(DeadlineExceeded, "")
      else if Is(e, CtxCanceled) then Status(Canceled, "")
      else if Is(e, MessageTooLarge) then Status(ResourceExhausted, "")
      else if Is(e, Compressed) then Status(Internal, "")
      else if Is(e, ConnClosed) || Is(e, ConnDraining) || Is(e, GoAway) || Is(e, TooManyStreams) then
        Status(Unavailable, "")
      else if Is(e, GrpcStreamClosed) || Is(e, GrpcSendClosed) then Status(Canceled, "")
      else if Is(e, ConnStreamClosed) then Status(Unavailable, "")
      else if Is(e, EOF) then Status(Internal, "stream ended without a grpc-status")
      else Status(Unknown, "")
  }

  /** sendTolerant: the early reset that section 8.1 of RFC 9113 grants a server is
      taken for a success, and every other failure stays. */
  function SendTolerant(err: Option<Error>): Option<Error>
  {
    if IsOpt(err, ConnStreamClosed) then None else err
  }

  // ----- An independent reading of Is and As: flatten first, then search

  /** The nodes that carry a value, in preorder. */
  function Preorder(e: Error): (ns: seq<Error>)
    decreases e, 1
  {
    match e
    case Leaf(_) => [e]
    case StatusError(_) => [e]
    case Wrap(cs) => PreorderAll(cs)
  }

  function PreorderAll(cs: seq<Error>): (ns: seq<Error>)
    decreases cs, 0
  {
    if cs == [] then [] else Preorder(cs[0]) + PreorderAll(cs[1..])
  }

  /** The first status of a flattened error. */
  function FirstStatus(ns: seq<Error>): Option<Status>
  {
    if ns == [] then None
    else if ns[0].StatusError? then Some(ns[0].status)
    else FirstStatus(ns[1..])
  }

  lemma {:induction false} FirstStatusConcat(a: seq<Error>, b: seq<Error>)
    ensures FirstStatus(a + b) == if FirstStatus(a).Some? then FirstStatus(a) else FirstStatus(b)
  {
    if a == [] {
      assert a + b == b;
    } else {
      assert (a + b)[1..] == a[1..] + b;
      FirstStatusConcat(a[1..], b);
    }
  }

  /** `errors.As` finds exactly the first status in preorder. */
  lemma {:induction false} AsIsFirstStatus(e: Error)
    ensures As(e) == FirstStatus(Preorder(e))
    decreases e, 1
  {
    match e
    case Leaf(_) =>
    case StatusError(_) =>
    case Wrap(cs) => AsAnyIsFirstStatus(cs);
  }

  lemma {:induction false} AsAnyIsFirstStatus(cs: seq<Error>)
    ensures AsAny(cs) == FirstStatus(PreorderAll(cs))
    decreases cs, 0
  {
    if cs != [] {
      AsIsFirstStatus(cs[0]);
      AsAnyIsFirstStatus(cs[1..]);
      FirstStatusConcat(Preorder(cs[0]), PreorderAll(cs[1..]));
    }
  }

  /** `errors.Is` finds exactly the sentinels of the flattened tree. */
  lemma {:induction false} IsIsMembership(e: Error, s: Sentinel)
    ensures Is(e, s) <==> Leaf(s) in Preorder(e)
    decreases e, 1
  {
    match e
    case Leaf(_) =>
    case StatusError(_) =>
    case Wrap(cs) => IsAnyIsMembership(cs, s);
  }

  lemma {:induction false} IsAnyIsMembership(cs: seq<Error>, s: Sentinel)
    ensures (exists i :: 0 <= i < |cs| && Is(cs[i], s)) <==> Leaf(s) in PreorderAll(cs)
    decreases cs, 0
  {
    if cs != [] {
      IsIsMembership(cs[0], s);
      IsAnyIsMembership(cs[1..], s);
      if i :| 0 <= i < |cs| && Is(cs[i], s) {
        assert i > 0 ==> Is(cs[1..][i - 1], s);
      }
      if i :| 0 <= i < |cs[1..]| && Is(cs[1..][i], s) {
        assert Is(cs[i + 1], s);
      }
    }
  }

  // ----- The classification as a precedence table

  const ROWS := 12

  /** The mapping StatusOf documents, highest precedence first. */
  function Row(n: nat): (Sentinel, Code)
    requires n < ROWS
  {
    match n
    case 0 => (CtxDeadline, DeadlineExceeded)
    case 1 => (CtxCanceled, Canceled)
    case 2 => (MessageTooLarge, ResourceExhausted)
    case 3 => (Compressed, Internal)
    case 4 => (ConnClosed, Unavailable)
    case 5 => (ConnDraining, Unavailable)
    case 6 => (GoAway, Unavailable)
    case 7 => (TooManyStreams, Unavailable)
    case 8 => (GrpcStreamClosed, Canceled)
    case 9 => (GrpcSendClosed, Canceled)
    case 10 => (ConnStreamClosed, Unavailable)
    case _ => (EOF, Internal)
  }

  /** The code of the first row, from `n` on, whose sentinel occurs in the flattened error. */
  function Lookup(n: nat, ns: seq<Error>): Code
    requires n <= ROWS
    decreases ROWS - n
  {
    if n == ROWS then Unknown
    else if Leaf(Row(n).0) in ns then Row(n).1
    else Lookup(n + 1, ns)
  }

  /** What the classification of a flattened error is. */
  function TableCode(ns: seq<Error>): Code
  {
    if FirstStatus(ns).Some? then FirstStatus(ns).value.code else Lookup(0, ns)
  }

  lemma {:induction false} RowDecides(e: Error, n: nat, s: Sentinel, c: Code)
    requires n < ROWS && Row(n) == (s, c)
    ensures Lookup(n, Preorder(e)) == if Is(e, s) then c else Lookup(n + 1, Preorder(e))
  {
    IsIsMembership(e, s);
  }

  lemma {:induction false} LastRows(e: Error)
    ensures Lookup(10, Preorder(e)) ==
            if Is(e, ConnStreamClosed) then Unavailable else if Is(e, EOF) then Internal else Unknown
  {
    RowDecides(e, 10, ConnStreamClosed, Unavailable);
    RowDecides(e, 11, EOF, Internal);
  }

  lemma {:induction false} LowRows(e: Error)
    ensures Lookup(8, Preorder(e)) ==
            if Is(e, GrpcStreamClosed) || Is(e, GrpcSendClosed) then Canceled else Lookup(10, Preorder(e))
  {
    RowDecides(e, 8, GrpcStreamClosed, Canceled);
    RowDecides(e, 9, GrpcSendClosed, Canceled);
  }

  lemma {:induction false} MiddleRows(e: Error)
    ensures Lookup(4, Preorder(e)) ==
            if Is(e, ConnClosed) || Is(e, ConnDraining) || Is(e, GoAway) || Is(e, TooManyStreams)
            then Unavailable else Lookup(8, Preorder(e))
  {
    RowDecides(e, 4, ConnClosed, Unavailable);
    RowDecides(e, 5, ConnDraining, Unavailable);
    RowDecides(e, 6, GoAway, Unavailable);
    RowDecides(e, 7, TooManyStreams, Unavailable);
  }

  lemma {:induction false} HighRows(e: Error)
    ensures Lookup(0, Preorder(e)) ==
            if Is(e, CtxDeadline) then DeadlineExceeded
            else if Is(e, CtxCanceled) then Canceled
            else if Is(e, MessageTooLarge) then ResourceExhausted
            else if Is(e, Compressed) then Internal
            else Lookup(4, Preorder(e))
  {
    RowDecides(e, 0, CtxDeadline, DeadlineExceeded);
    RowDecides(e, 1, CtxCanceled, Canceled);
    RowDecides(e, 2, MessageTooLarge, ResourceExhausted);
    RowDecides(e, 3, Compressed, Internal);
  }

  /** StatusOf is the table applied to the preorder of the tree; a status carried by
      the error is returned as it is, and no error at all is OK. */
  lemma {:induction false} StatusOfFollowsTable(e: Error)
    ensures StatusOf(Some(e)).code == TableCode(Preorder(e))
    ensures FirstStatus(Preorder(e)).Some? ==> StatusOf(Some(e)) == FirstStatus(Preorder(e)).value
    ensures StatusOf(None) == Status(OK, "")
  {
    AsIsFirstStatus(e);
    HighRows(e);
    MiddleRows(e);
    LowRows(e);
    LastRows(e);
  }

  /** StatusOf reports OK for a non-nil error only when the first status carried
      by that error is itself OK. */
  lemma {:induction false} StatusOfOkOnlyFromStatus(e: Error)
    ensures StatusOf(Some(e)).code == OK <==> As(e).Some? && As(e).value.code == OK
  {
  }

  /** Whatever the cause of a codec failure carries, it classifies as Internal,
      and the cause's sentinels remain visible through it. */
  lemma CodecErrorIsInternal(cause: Option<Error>)
    ensures StatusOf(Some(NewCodecError(cause))).code == Internal
    ensures forall s :: Is(NewCodecError(cause), s) <==> IsOpt(cause, s)
  {
    var e := NewCodecError(cause);
    assert As(e.children[0]) == Some(Status(Internal, "codec"));
    assert As(e) == AsAny(e.children) == As(e.children[0]);
    forall s ensures Is(e, s) <==> IsOpt(cause, s) {
      assert !Is(e.children[0], s);
      if cause.Some? {
        assert Is(e.children[1], s) <==> Is(cause.value, s);
      }
    }
  }

  /** A marshal failure is fatal exactly when its cause does not contain the
      peer-reset sentinel: the tolerance looks through the codec error. */
  lemma MarshalFailureToleratedIff(cause: Option<Error>)
    ensures SendTolerant(Some(NewCodecError(cause))).None? <==> IsOpt(cause, ConnStreamClosed)
  {
    CodecErrorIsInternal(cause);
  }
}
