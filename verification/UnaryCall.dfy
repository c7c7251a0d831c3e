/** Unary calls over buffers and an out message that are reused from call to
call: what a caller can observe is what fresh ones would give. */
module UnaryCall {
  import opened Errors
  import opened Headers
  import opened Arrays
  import opened VtCodec

  /** What poseidon's Invoke returns for the bytes of a request. */
  datatype Reply = Answer(bytes: Bytes) | NoAnswer(err: Error)

  /** One call: the configuration's latched error, the request, and the peer. */
  datatype Rpc<!I> = Rpc(cfgErr: Option<Error>, input: I, invoke: Bytes -> Reply)

  /** What the caller and the peer see: the bytes sent, the error, and after a
      success the response. */
  datatype Observation<+O> = Observation(sent: Option<Bytes>, err: Option<Error>, response: Option<O>)

  /** A call with fresh buffers and an out message that holds `zero`. */
  function Fresh<I, O>(req: Lib<I>, resp: Lib<O>, zero: O, c: Rpc<I>): Observation<O>
  {
    if c.cfgErr.Some? then Observation(None, c.cfgErr, None)
    else
      match Encode(req, c.input)
      case EncodeFails(e) => Observation(None, Some(NewCodecError(Some(e))), None)
      case Encoded(bytes) =>
        match c.invoke(bytes)
        case NoAnswer(e) => Observation(Some(bytes), Some(e), None)
        case Answer(raw) => Received(resp, zero, bytes, raw)
  }

  /** The end of a call: decode the answer into a message. */
  function Received<O>(resp: Lib<O>, before: O, sent: Bytes, raw: Bytes): Observation<O>
  {
    var (m, e) := Decode(resp, before, raw);
    if e.Some? then Observation(Some(sent), Some(NewCodecError(e)), None) else Observation(Some(sent), None, Some(m))
  }

  /** When a call succeeds, and with what: its request was encoded and sent, and the
      answer decodes to the response. */
  lemma CallSucceedsIff<I, O>(req: Lib<I>, resp: Lib<O>, zero: O, c: Rpc<I>)
    ensures var o := Fresh(req, resp, zero, c);
      && (o.err.None? <==>
            && c.cfgErr.None? && Encode(req, c.input).Encoded? && c.invoke(Encode(req, c.input).bytes).Answer?
            && Decode(resp, zero, c.invoke(Encode(req, c.input).bytes).bytes).1.None?)
      && (o.err.None? ==> o.response == Some(Decode(resp, zero, c.invoke(Encode(req, c.input).bytes).bytes).0))
      && (o.response.Some? <==> o.err.None?)
  {
  }

  /** When a request leaves, and how a call fails: nothing is sent unless the request
      could be encoded; codec failures are Internal, all others are unchanged. */
  lemma CallFailsWith<I, O>(req: Lib<I>, resp: Lib<O>, zero: O, c: Rpc<I>)
    ensures var o := Fresh(req, resp, zero, c);
      && (o.sent.Some? <==> c.cfgErr.None? && Encode(req, c.input).Encoded?)
      && (o.sent.Some? ==> Encoded(o.sent.value) == Encode(req, c.input))
      && (c.cfgErr.Some? ==> o.err == c.cfgErr)
      && (c.cfgErr.None? && o.sent.None? ==> o.err.Some? && StatusOf(o.err).code == Internal)
      && (o.sent.Some? && c.invoke(o.sent.value).NoAnswer? ==> o.err == Some(c.invoke(o.sent.value).err))
      && (o.sent.Some? && c.invoke(o.sent.value).Answer? && o.err.Some? ==> StatusOf(o.err).code == Internal)
  {
    match Encode(req, c.input)
    case EncodeFails(e) => CodecErrorIsInternal(Some(e));
    case Encoded(bytes) =>
      if c.invoke(bytes).Answer? {
        CodecErrorIsInternal(Decode(resp, zero, c.invoke(bytes).bytes).1);
      }
  }

  lemma ReceivedForgets<O(!new)>(resp: Lib<O>, a: O, b: O, sent: Bytes, raw: Bytes)
    requires Forgets(resp)
    ensures Received(resp, a, sent, raw) == Received(resp, b, sent, raw)
  {
    DecodeForgets(resp, a, b, raw);
  }

  /** The buffers a reusable caller owns: the request's and the response's. */
  class Scratch {
    var buf: array<Byte>
    var nbuf: nat
    var resp: array<Byte>
    var nresp: nat

    ghost predicate Valid()
      reads this
    {
      nbuf <= buf.Length && nresp <= resp.Length
    }

    constructor ()
      ensures Valid() && fresh(buf) && fresh(resp)
    {
      buf, resp, nbuf, nresp := new Byte[0], new Byte[0], 0, 0;
    }
  }

  /** Marshal into the request buffer; the array is kept on every path. */
  method MarshalRequest<I>(req: Lib<I>, s: Scratch, input: I, spare: nat) returns (err: Option<Error>)
    requires s.Valid() && FillOk(req, input)
    modifies s, s.buf
    ensures s.Valid() && (s.buf == old(s.buf) || fresh(s.buf)) && s.resp == old(s.resp)
    ensures match Encode(req, input)
      case Encoded(bytes) => err.None? && s.buf[..s.nbuf] == bytes
      case EncodeFails(e) => err == Some(e)
  {
    var buf, n, e := MarshalAppend(req, s.buf, 0, input, spare);
    s.buf, s.nbuf := buf, if e.Some? then 0 else n;
    return e;
  }

  /** InvokeInto: the answer lands in the response buffer, which is emptied on error. */
  method InvokeInto(s: Scratch, reply: Reply, spare: nat) returns (err: Option<Error>)
    requires s.Valid()
    modifies s`resp, s`nresp, s.resp
    ensures s.Valid() && (s.resp == old(s.resp) || fresh(s.resp))
    ensures match reply
      case Answer(bytes) => err.None? && s.resp[..s.nresp] == bytes
      case NoAnswer(e) => err == Some(e)
  {
    match reply {
      case Answer(bytes) =>
        s.resp := AppendTo(s.resp, 0, bytes, 0, spare);
        s.nresp := |bytes|;
        return None;
      case NoAnswer(e) =>
        s.nresp := 0;
        return Some(e);
    }
  }

  /** Unary, with whatever the scratch and the out message hold from before. */
  method Unary<I, O(!new)>(req: Lib<I>, resp: Lib<O>, c: Rpc<I>, s: Scratch, out: Message<O>, spare: nat, ghost zero: O)
    returns (seen: Observation<O>)
    requires s.Valid() && FillOk(req, c.input) && Forgets(resp)
    modifies s, s.buf, s.resp, out
    ensures s.Valid() && (s.buf == old(s.buf) || fresh(s.buf)) && (s.resp == old(s.resp) || fresh(s.resp))
    ensures seen == Fresh(req, resp, zero, c)
  {
    if c.cfgErr.Some? {
      return Observation(None, c.cfgErr, None);
    }
    var err := MarshalRequest(req, s, c.input, spare);
    if err.Some? {
      return Observation(None, Some(NewCodecError(err)), None);
    }
    var sent := s.buf[..s.nbuf];
    err := InvokeInto(s, c.invoke(sent), spare);
    if err.Some? {
      return Observation(Some(sent), err, None);
    }
    ReceivedForgets(resp, zero, out.value, sent, s.resp[..s.nresp]);
    err := Unmarshal(resp, s.resp[..s.nresp], out);
    if err.Some? {
      return Observation(Some(sent), Some(NewCodecError(err)), None);
    }
    return Observation(Some(sent), None, Some(out.value));
  }

  /** Reuse is unobservable: over any list of calls, with failures anywhere, one
      scratch and one out message give what fresh ones give for each call. */
  method CallAll<I(!new), O(!new)>(req: Lib<I>, resp: Lib<O>, zero: O, calls: seq<Rpc<I>>, spare: nat) returns (seen: seq<Observation<O>>)
    requires FillsOk(req) && Forgets(resp)
    ensures |seen| == |calls| && forall i :: 0 <= i < |calls| ==> seen[i] == Fresh(req, resp, zero, calls[i])
  {
    var s := new Scratch();
    var out := new Message(zero);
    seen := [];
    for i := 0 to |calls|
      invariant s.Valid() && fresh(s) && fresh(s.buf) && fresh(s.resp) && fresh(out)
      invariant |seen| == i && forall j :: 0 <= j < i ==> seen[j] == Fresh(req, resp, zero, calls[j])
    {
      assert FillOk(req, calls[i].input);
      var o := Unary(req, resp, calls[i], s, out, spare, zero);
      seen := seen + [o];
    }
  }
}
