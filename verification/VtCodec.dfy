/** The vtprotobuf codec: an exact-size buffer filled from its end, and a reset
before every merge. */
module VtCodec {
  import opened Errors
  import opened Headers
  import opened Arrays

  // ----- What the generated code and the fallback offer for one message type

  /** Which fill method the type has, and which reset. */
  datatype Marshaler = Vt | VtStrict | NotVt
  datatype Resetter = ByResetVT | ByReset | NoReset

  /** What a fill did: the bytes it put at the end of its buffer, the length it
      reports, and its error. */
  datatype Fill = Fill(payload: Bytes, reported: nat, err: Option<Error>)

  datatype Encoding = Encoded(bytes: Bytes) | EncodeFails(err: Error)

  datatype Lib<!M> = Lib(
    marshaler: Marshaler, size: M -> nat, fill: M -> Fill, fillStrict: M -> Fill,
    unmarshals: bool, resetter: Resetter, resetVT: M -> M, reset: M -> M,
    merge: (M, Bytes) -> (M, Option<Error>),
    fallbackEncode: M -> Encoding, fallbackDecode: (M, Bytes) -> (M, Option<Error>))

  /** The method the codec resolves for filling. */
  function FillOf<M>(lib: Lib<M>, m: M): Fill
  {
    if lib.marshaler == VtStrict then lib.fillStrict(m) else lib.fill(m)
  }

  /** A fill stays inside its buffer, and one that claims to have filled all of it
      has. Any other report, true or not, is allowed. */
  ghost predicate FillOk<M>(lib: Lib<M>, m: M)
  {
    var f := FillOf(lib, m);
    |f.payload| <= lib.size(m) && (f.err.None? && f.reported == lib.size(m) ==> |f.payload| == lib.size(m))
  }

  ghost predicate FillsOk<M(!new)>(lib: Lib<M>)
  {
    forall m :: FillOk(lib, m)
  }

  /** A reset forgets the message, and so does the fallback's own decoding. */
  ghost predicate Forgets<M(!new)>(lib: Lib<M>)
  {
    && (forall a, b :: lib.resetVT(a) == lib.resetVT(b))
    && (forall a, b :: lib.reset(a) == lib.reset(b))
    && (forall a, b, src :: lib.fallbackDecode(a, src) == lib.fallbackDecode(b, src))
  }

  const WRONG_LENGTH := Leaf(Foreign(1))
  const CANNOT_RESET := Leaf(Foreign(2))

  // ----- Marshalling

  /** The encoding of a message: a fill counts only if it wrote exactly the size. */
  function Encode<M>(lib: Lib<M>, m: M): Encoding
  {
    if lib.marshaler == NotVt then lib.fallbackEncode(m)
    else
      var f := FillOf(lib, m);
      if f.err.Some? then EncodeFails(f.err.value)
      else if f.reported != lib.size(m) then EncodeFails(WRONG_LENGTH)
      else Encoded(f.payload)
  }

  /** MarshalToSizedBufferVT: the payload goes to the end of the buffer. */
  method FillBackward(a: array<Byte>, lo: nat, hi: nat, payload: Bytes)
    requires lo <= hi <= a.Length && |payload| <= hi - lo
    modifies a
    ensures a[hi - |payload|..hi] == payload
    ensures a[..hi - |payload|] == old(a[..hi - |payload|])
  {
    for i := 0 to |payload|
      invariant a[hi - i..hi] == payload[|payload| - i..]
      invariant a[..hi - i] == old(a[..hi - i])
    {
      a[hi - 1 - i] := payload[|payload| - 1 - i];
      assert a[hi - 1 - i..hi] == [a[hi - 1 - i]] + a[hi - i..hi];
      assert payload[|payload| - 1 - i..] == [payload[|payload| - 1 - i]] + payload[|payload| - i..];
    }
  }

  /** The fast path: grow by exactly the size, fill, and reject any other length. */
  method MarshalVt<M>(lib: Lib<M>, dst: array<Byte>, len: nat, m: M, spare: nat) returns (out: array<Byte>, n: nat, err: Option<Error>)
    requires len <= dst.Length && lib.marshaler != NotVt && FillOk(lib, m)
    modifies dst
    ensures (out == dst || fresh(out)) && n <= out.Length
    ensures match Encode(lib, m)
      case Encoded(bytes) => err.None? && n == len + lib.size(m) && out[..n] == old(dst[..len]) + bytes
      case EncodeFails(e) => err == Some(e) && n == len && out[..n] == old(dst[..len])
  {
    var size, f := lib.size(m), FillOf(lib, m);
    out := Grow(dst, len, len + size, 0, spare);
    n := len;
    FillBackward(out, len, len + size, f.payload);
    assert out[..len] == out[..len + size - |f.payload|][..len];
    if f.err.Some? {
      return out, n, f.err;
    }
    if f.reported != size {
      return out, n, Some(WRONG_LENGTH);
    }
    n := len + size;
    err := None;
    assert out[..n] == out[..len] + out[len..n];
  }

  /** MarshalAppend: the prefix is kept, and a success appends the encoding of the
      message and nothing else. */
  method MarshalAppend<M>(lib: Lib<M>, dst: array<Byte>, len: nat, m: M, spare: nat) returns (out: array<Byte>, n: nat, err: Option<Error>)
    requires len <= dst.Length && FillOk(lib, m)
    modifies dst
    ensures (out == dst || fresh(out)) && n <= out.Length
    ensures match Encode(lib, m)
      case Encoded(bytes) => err.None? && out[..n] == old(dst[..len]) + bytes
      case EncodeFails(e) => err == Some(e) && out[..n] == old(dst[..len])
  {
    if lib.marshaler != NotVt {
      out, n, err := MarshalVt(lib, dst, len, m, spare);
      return;
    }
    match lib.fallbackEncode(m) {
      case Encoded(bytes) =>
        out := AppendTo(dst, len, bytes, 0, spare);
        return out, len + |bytes|, None;
      case EncodeFails(e) =>
        return dst, len, Some(e);
    }
  }

  /** The fast path succeeds exactly when the fill reports the size, whatever else
      it may have written, and what it appends then has that size. */
  lemma EncodeIsExact<M>(lib: Lib<M>, m: M)
    requires lib.marshaler != NotVt && FillOk(lib, m)
    ensures Encode(lib, m).Encoded? <==> FillOf(lib, m).err.None? && FillOf(lib, m).reported == lib.size(m)
    ensures Encode(lib, m).Encoded? ==> |Encode(lib, m).bytes| == lib.size(m)
  {
  }

  /** Where the bytes and the errors come from: a type with the strict fill is filled
      by that one, one with the plain fill by the plain one, any other goes to the
      fallback; a fill's own error comes before its length. */
  lemma EncodeFrom<M>(lib: Lib<M>, m: M)
    ensures lib.marshaler == NotVt ==> Encode(lib, m) == lib.fallbackEncode(m)
    ensures lib.marshaler != NotVt ==>
      var f := if lib.marshaler == Vt then lib.fill(m) else lib.fillStrict(m);
      && (f.err.Some? ==> Encode(lib, m) == EncodeFails(f.err.value))
      && (f.err.None? && f.reported != lib.size(m) ==> Encode(lib, m) == EncodeFails(WRONG_LENGTH))
      && (f.err.None? && f.reported == lib.size(m) ==> Encode(lib, m) == Encoded(f.payload))
  {
  }

  // ----- Unmarshalling

  /** A message that is decoded into in place. */
  class Message<M> {
    var value: M

    constructor (value: M)
      ensures this.value == value
    {
      this.value := value;
    }
  }

  /** What decoding into a message leaves in it, and the error. */
  function Decode<M>(lib: Lib<M>, before: M, src: Bytes): (M, Option<Error>)
  {
    if !lib.unmarshals then lib.fallbackDecode(before, src)
    else
      match lib.resetter
      case ByResetVT => lib.merge(lib.resetVT(before), src)
      case ByReset => lib.merge(lib.reset(before), src)
      case NoReset => (before, Some(CANNOT_RESET))
  }

  method Unmarshal<M>(lib: Lib<M>, src: Bytes, msg: Message<M>) returns (err: Option<Error>)
    modifies msg
    ensures (msg.value, err) == Decode(lib, old(msg.value), src)
  {
    if !lib.unmarshals {
      var (m, e) := lib.fallbackDecode(msg.value, src);
      msg.value := m;
      return e;
    }
    match lib.resetter {
      case ByResetVT => msg.value := lib.resetVT(msg.value);
      case ByReset => msg.value := lib.reset(msg.value);
      case NoReset => return Some(CANNOT_RESET);
    }
    var (m, e) := lib.merge(msg.value, src);
    msg.value := m;
    err := e;
  }

  /** Decoding forgets what the message held: the error never depends on it, and
      neither does the message after a success. */
  lemma DecodeForgets<M(!new)>(lib: Lib<M>, a: M, b: M, src: Bytes)
    requires Forgets(lib)
    ensures Decode(lib, a, src).1 == Decode(lib, b, src).1
    ensures Decode(lib, a, src).1.None? ==> Decode(lib, a, src) == Decode(lib, b, src)
  {
    assert lib.resetVT(a) == lib.resetVT(b) && lib.reset(a) == lib.reset(b);
  }

  /** Decoding is a merge into a message just reset, whichever message that was; a type
      without a parser goes to the fallback, and one that cannot be reset is left
      alone and reported. */
  lemma DecodeIsMerge<M(!new)>(lib: Lib<M>, before: M, any: M, src: Bytes)
    requires Forgets(lib)
    ensures !lib.unmarshals ==> Decode(lib, before, src) == lib.fallbackDecode(any, src)
    ensures lib.unmarshals && lib.resetter == ByResetVT ==> Decode(lib, before, src) == lib.merge(lib.resetVT(any), src)
    ensures lib.unmarshals && lib.resetter == ByReset ==> Decode(lib, before, src) == lib.merge(lib.reset(any), src)
    ensures lib.unmarshals && lib.resetter == NoReset ==> Decode(lib, before, src) == (before, Some(CANNOT_RESET))
  {
    assert lib.resetVT(before) == lib.resetVT(any) && lib.reset(before) == lib.reset(any);
  }

  /** Not even a failure lets the old contents through, except for a type that has
      UnmarshalVT and no reset, whose message is left alone. */
  lemma DecodeForgetsIff<M(!new)>(lib: Lib<M>, a: M, b: M, src: Bytes)
    requires Forgets(lib) && a != b
    ensures Decode(lib, a, src) == Decode(lib, b, src) <==> !(lib.unmarshals && lib.resetter == NoReset)
  {
    assert lib.resetVT(a) == lib.resetVT(b) && lib.reset(a) == lib.reset(b);
  }
}
