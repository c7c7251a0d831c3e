/** The padded base64 encoding of section 4 of RFC 4648, as a number per group:
24 bits read as three bytes and as four digits of the alphabet. */
module Base64 {
  import opened Errors
  import opened Headers

  const PAD: Byte := '=' as int

  type Sextet = v: nat | v < 64

  /** The alphabet of table 1. */
  function Digit(v: Sextet): Byte
  {
    if v < 26 then 'A' as int + v
    else if v < 52 then 'a' as int + (v - 26)
    else if v < 62 then '0' as int + (v - 52)
    else if v == 62 then '+' as int
    else '/' as int
  }

  function ValueOf(c: Byte): Option<Sextet>
  {
    if 'A' as int <= c <= 'Z' as int then Some(c - 'A' as int)
    else if 'a' as int <= c <= 'z' as int then Some(c - 'a' as int + 26)
    else if '0' as int <= c <= '9' as int then Some(c - '0' as int + 52)
    else if c == '+' as int then Some(62)
    else if c == '/' as int then Some(63)
    else None
  }

  type Group = n: nat | n < 0x100_0000

  /** A 24-bit group from its bytes, most significant first. */
  function Pack(a: Byte, b: Byte, c: Byte): Group
  {
    (a * 256 + b) * 256 + c
  }

  /** A 24-bit group from its sextets, most significant first. */
  function Join(p: Sextet, q: Sextet, r: Sextet, s: Sextet): Group
  {
    ((p * 64 + q) * 64 + r) * 64 + s
  }

  /** The three bytes of a group. */
  function Unpack(n: Group): (b: Bytes)
    ensures |b| == 3
  {
    [n / 256 / 256, n / 256 % 256, n % 256]
  }

  /** The four digits of a group. */
  function Digits(n: Group): (d: Bytes)
    ensures |d| == 4
  {
    [Digit(n / 64 / 64 / 64), Digit(n / 64 / 64 % 64), Digit(n / 64 % 64), Digit(n % 64)]
  }

  function Encode(b: Bytes): Bytes
  {
    if |b| == 0 then []
    else
      var d := Digits(Pack(b[0], if |b| > 1 then b[1] else 0, if |b| > 2 then b[2] else 0));
      if |b| == 1 then [d[0], d[1], PAD, PAD]
      else if |b| == 2 then [d[0], d[1], d[2], PAD]
      else d + Encode(b[3..])
  }

  /** The group four digits stand for. */
  function Quad(s: Bytes): Option<Group>
    requires |s| == 4
  {
    match (ValueOf(s[0]), ValueOf(s[1]), ValueOf(s[2]), ValueOf(s[3]))
    case (Some(p), Some(q), Some(r), Some(t)) => Some(Join(p, q, r, t))
    case _ => None
  }

  /** The first k bytes of a padded group: the rest must be zero. */
  function Short(n: Option<Group>, k: nat): Option<Bytes>
    requires k < 3
  {
    if n.Some? && forall i :: k <= i < 3 ==> Unpack(n.value)[i] == 0 then Some(Unpack(n.value)[..k]) else None
  }

  /** Strict decoding: padding only at the end, and no stray bits before it. */
  function Decode(s: Bytes): Option<Bytes>
  {
    if |s| == 0 then Some([])
    else if |s| < 4 then None
    else if |s| == 4 && s[3] == PAD then
      if s[2] == PAD then Short(Quad([s[0], s[1], Digit(0), Digit(0)]), 1)
      else Short(Quad([s[0], s[1], s[2], Digit(0)]), 2)
    else
      match (Quad(s[..4]), Decode(s[4..]))
      case (Some(n), Some(rest)) => Some(Unpack(n) + rest)
      case _ => None
  }

  // ----- Numbers

  lemma Div64(m: nat, t: Sextet)
    ensures (m * 64 + t) / 64 == m && (m * 64 + t) % 64 == t
  {
  }

  lemma Div256(m: nat, t: Byte)
    ensures (m * 256 + t) / 256 == m && (m * 256 + t) % 256 == t
  {
  }

  lemma DigitValue(v: Sextet, c: Byte)
    ensures ValueOf(Digit(v)) == Some(v) && Digit(v) != PAD
    ensures ValueOf(c).Some? ==> Digit(ValueOf(c).value) == c
  {
  }

  lemma JoinSplit(p: Sextet, q: Sextet, r: Sextet, t: Sextet)
    ensures Digits(Join(p, q, r, t)) == [Digit(p), Digit(q), Digit(r), Digit(t)]
  {
    Div64((p * 64 + q) * 64 + r, t);
    Div64(p * 64 + q, r);
    Div64(p, q);
  }

  lemma SplitJoin(n: Group)
    ensures n / 64 / 64 / 64 < 64 && Join(n / 64 / 64 / 64, n / 64 / 64 % 64, n / 64 % 64, n % 64) == n
  {
    assert n / 64 * 64 + n % 64 == n;
    assert n / 64 / 64 * 64 + n / 64 % 64 == n / 64;
    assert n / 64 / 64 / 64 * 64 + n / 64 / 64 % 64 == n / 64 / 64;
  }

  lemma PackSplit(a: Byte, b: Byte, c: Byte)
    ensures Unpack(Pack(a, b, c)) == [a, b, c]
  {
    Div256(a * 256 + b, c);
    Div256(a, b);
  }

  lemma SplitPack(n: Group)
    ensures n / 256 / 256 < 256 && Pack(n / 256 / 256, n / 256 % 256, n % 256) == n
  {
    assert n / 256 * 256 + n % 256 == n;
    assert n / 256 / 256 * 256 + n / 256 % 256 == n / 256;
  }

  lemma QuadOfDigits(n: Group)
    ensures Quad(Digits(n)) == Some(n)
  {
    SplitJoin(n);
    DigitValue(n / 64 / 64 / 64, 0);
    DigitValue(n / 64 / 64 % 64, 0);
    DigitValue(n / 64 % 64, 0);
    DigitValue(n % 64, 0);
  }

  lemma DigitsOfQuad(s: Bytes)
    requires |s| == 4 && Quad(s).Some?
    ensures Digits(Quad(s).value) == s
  {
    JoinSplit(ValueOf(s[0]).value, ValueOf(s[1]).value, ValueOf(s[2]).value, ValueOf(s[3]).value);
    DigitValue(0, s[0]);
    DigitValue(0, s[1]);
    DigitValue(0, s[2]);
    DigitValue(0, s[3]);
  }

  /** A group whose last bytes are missing has zeros for its last digits. */
  lemma ShortGroups(x: Byte, y: Byte)
    ensures var n := Pack(x, 0, 0); n / 64 % 64 == 0 && n % 64 == 0
    ensures Pack(x, y, 0) % 64 == 0
  {
    Div64(x * 1024, 0);
    Div64(x * 16, 0);
    Div64((x * 256 + y) * 4, 0);
  }

  // ----- The two directions

  lemma {:induction false} DecodeOne(b: Bytes)
    requires |b| == 1
    ensures Decode(Encode(b)) == Some(b)
  {
    var n := Pack(b[0], 0, 0);
    PackSplit(b[0], 0, 0);
    ShortGroups(b[0], 0);
    QuadOfDigits(n);
    assert Digits(n) == [Digits(n)[0], Digits(n)[1], Digit(0), Digit(0)];
    assert [b[0], 0, 0][..1] == b;
  }

  lemma {:induction false} DecodeTwo(b: Bytes)
    requires |b| == 2
    ensures Decode(Encode(b)) == Some(b)
  {
    var n := Pack(b[0], b[1], 0);
    PackSplit(b[0], b[1], 0);
    ShortGroups(b[0], b[1]);
    QuadOfDigits(n);
    DigitValue(n / 64 % 64, 0);
    assert Digits(n) == [Digits(n)[0], Digits(n)[1], Digits(n)[2], Digit(0)];
    assert [b[0], b[1], 0][..2] == b;
  }

  /** A full group in front of a text. */
  lemma {:induction false} DecodeGroup(x: Byte, y: Byte, z: Byte, d: Bytes, s: Bytes, rest: Bytes)
    requires d == Digits(Pack(x, y, z)) && Decode(s) == Some(rest)
    ensures Decode(d + s) == Some([x, y, z] + rest)
  {
    var n := Pack(x, y, z);
    PackSplit(x, y, z);
    QuadOfDigits(n);
    DigitValue(n % 64, 0);
    assert (d + s)[..4] == d && (d + s)[4..] == s;
  }

  lemma {:induction false} DecodeThree(b: Bytes)
    requires |b| >= 3 && Decode(Encode(b[3..])) == Some(b[3..])
    ensures Decode(Encode(b)) == Some(b)
  {
    DecodeGroup(b[0], b[1], b[2], Digits(Pack(b[0], b[1], b[2])), Encode(b[3..]), b[3..]);
    assert b == [b[0], b[1], b[2]] + b[3..];
  }

  /** Decoding undoes encoding. */
  lemma {:induction false} DecodeEncode(b: Bytes)
    ensures Decode(Encode(b)) == Some(b)
  {
    if |b| == 1 {
      DecodeOne(b);
    } else if |b| == 2 {
      DecodeTwo(b);
    } else if |b| > 2 {
      DecodeEncode(b[3..]);
      DecodeThree(b);
    }
  }

  lemma {:induction false} EncodeShort(s: Bytes, k: nat)
    requires |s| == 4 && Quad(s).Some? && 1 <= k < 3 && Short(Quad(s), k).Some?
    ensures Encode(Short(Quad(s), k).value) == s[..k + 1] + if k == 1 then [PAD, PAD] else [PAD]
  {
    var n := Quad(s).value;
    DigitsOfQuad(s);
    SplitPack(n);
    assert Unpack(n)[2] == 0 && (k == 1 ==> Unpack(n)[1] == 0);
  }

  /** Encoding undoes decoding: a text has at most one meaning and a value one text. */
  lemma {:induction false} EncodeDecode(s: Bytes)
    requires Decode(s).Some?
    ensures Encode(Decode(s).value) == s
  {
    if |s| > 0 {
      if |s| == 4 && s[3] == PAD && s[2] == PAD {
        EncodeShort([s[0], s[1], Digit(0), Digit(0)], 1);
        assert s == [s[0], s[1]] + [PAD, PAD];
      } else if |s| == 4 && s[3] == PAD {
        EncodeShort([s[0], s[1], s[2], Digit(0)], 2);
        assert s == [s[0], s[1], s[2]] + [PAD];
      } else {
        EncodeDecode(s[4..]);
        EncodeLong(s);
      }
    }
  }

  lemma {:induction false} EncodeGroup(n: Group, b: Bytes, rest: Bytes)
    requires b == Unpack(n) + rest
    ensures Encode(b) == Digits(n) + Encode(rest)
  {
    SplitPack(n);
    assert b[3..] == rest;
  }

  lemma {:induction false} EncodeLong(s: Bytes)
    requires |s| >= 4 && Quad(s[..4]).Some? && Decode(s[4..]).Some? && Encode(Decode(s[4..]).value) == s[4..]
    ensures Encode(Unpack(Quad(s[..4]).value) + Decode(s[4..]).value) == s
  {
    DigitsOfQuad(s[..4]);
    EncodeGroup(Quad(s[..4]).value, Unpack(Quad(s[..4]).value) + Decode(s[4..]).value, Decode(s[4..]).value);
    assert s == s[..4] + s[4..];
  }

  /** A text decodes to bytes exactly when it is their encoding. */
  lemma {:induction false} DecodesIff(s: Bytes, b: Bytes)
    ensures Decode(s) == Some(b) <==> s == Encode(b)
  {
    DecodeEncode(b);
    if Decode(s) == Some(b) {
      EncodeDecode(s);
    }
  }

  // ----- The table and the test vectors of RFC 4648

  /** Table 1. */
  const CAPITALS := "ABCDEFGHIJKLMNOPQRSTUVWXYZ"
  const SMALLS := "abcdefghijklmnopqrstuvwxyz"
  const NUMERALS := "0123456789"
  const ALPHABET := CAPITALS + SMALLS + NUMERALS + "+/"

  lemma CapitalDigits(v: Sextet)
    requires v < 26
    ensures Digit(v) == CAPITALS[v] as int
  {
  }

  lemma SmallDigits(v: Sextet)
    requires 26 <= v < 52
    ensures Digit(v) == SMALLS[v - 26] as int
  {
  }

  /** The digits are those of the table. */
  lemma DigitsAreAlphabet(v: Sextet)
    ensures |ALPHABET| == 64 && Digit(v) == ALPHABET[v] as int
  {
    if v < 26 {
      CapitalDigits(v);
    } else if v < 52 {
      SmallDigits(v);
    }
  }

  /** A text as bytes. */
  function Codes(s: string): Bytes
    requires forall i :: 0 <= i < |s| ==> s[i] < 128 as char
  {
    seq(|s|, i requires 0 <= i < |s| => s[i] as int)
  }

  lemma VectorOne()
    ensures Encode([]) == [] && Encode(Codes("f")) == Codes("Zg==")
  {
    assert Pack(102, 0, 0) == 6684672;
    assert Codes("f") == [102] && Codes("Zg==") == [90, 103, 61, 61];
  }

  lemma VectorTwo()
    ensures Encode(Codes("fo")) == Codes("Zm8=")
  {
    assert Pack(102, 111, 0) == 6713088;
    assert Codes("fo") == [102, 111] && Codes("Zm8=") == [90, 109, 56, 61];
  }

  lemma {:induction false} VectorThree()
    ensures Encode(Codes("bar")) == Codes("YmFy")
  {
    assert Codes("bar") == [98, 97, 114] && Codes("bar")[3..] == [];
    assert Pack(98, 97, 114) == 6447474;
    assert Encode(Codes("bar")) == Digits(6447474) + [];
    assert Codes("YmFy") == [89, 109, 70, 121];
  }

  lemma {:induction false} VectorSix()
    ensures Encode(Codes("foobar")) == Codes("Zm9vYmFy")
  {
    var b := Codes("foobar");
    VectorThree();
    assert b[3..] == Codes("bar") && b[0] == 102 && b[1] == 111 && b[2] == 111;
    assert Pack(102, 111, 111) == 6713199;
    assert Encode(b) == Digits(6713199) + Encode(b[3..]);
    assert Digits(6713199) == [90, 109, 57, 118] == Codes("Zm9v");
    assert Codes("Zm9v") + Codes("YmFy") == Codes("Zm9vYmFy");
  }
}
