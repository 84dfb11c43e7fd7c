/**
  Length-prefixed digest preimages. A SHA-256 value is modelled by the bytes
  that are hashed, so equality of digests is equality of preimages.
 */
module Digest {
  import opened Wrappers
  import opened Text

  const WORD := 0x1_0000_0000_0000_0000

  function Pow256(n: nat): (p: nat)
    ensures p > 0
  {
    if n == 0 then 1 else 256 * Pow256(n - 1)
  }

  /** The `width` low-order bytes of `n`, most significant first. */
  function BigEndian(n: nat, width: nat): (bytes: Bytes)
    ensures |bytes| == width
  {
    if width == 0 then [] else BigEndian(n / 256, width - 1) + [n % 256]
  }

  function FromBigEndian(bytes: Bytes): (n: nat)
    ensures n < Pow256(|bytes|)
  {
    if bytes == [] then 0
    else
      FromBigEndian(bytes[..|bytes| - 1]) * 256 + bytes[|bytes| - 1]
  }

  lemma Steps(n: nat, width: nat, bytes: Bytes, low: byte)
    ensures BigEndian(n, width + 1) == BigEndian(n / 256, width) + [n % 256]
    ensures Pow256(width + 1) == 256 * Pow256(width)
    ensures FromBigEndian(bytes + [low]) == FromBigEndian(bytes) * 256 + low
  {
    assert (bytes + [low])[..|bytes|] == bytes;
  }

  lemma {:induction false} BigEndianRoundTrip(n: nat, width: nat)
    requires n < Pow256(width)
    ensures FromBigEndian(BigEndian(n, width)) == n
  {
    if width > 0 {
      hide *;
      Steps(n, width - 1, BigEndian(n / 256, width - 1), n % 256);
      BigEndianRoundTrip(n / 256, width - 1);
    }
  }

  lemma {:induction false} FromBigEndianRoundTrip(bytes: Bytes)
    ensures BigEndian(FromBigEndian(bytes), |bytes|) == bytes
  {
    if bytes != [] {
      hide *;
      var init, low := bytes[..|bytes| - 1], bytes[|bytes| - 1];
      assert bytes == init + [low];
      Steps(FromBigEndian(bytes), |init|, init, low);
      FromBigEndianRoundTrip(init);
    }
  }

  lemma PowWord()
    ensures Pow256(8) == WORD
  {
    assert Pow256(2) == 0x1_0000;
    assert Pow256(4) == 0x1_0000_0000;
    assert Pow256(6) == 0x1_0000_0000_0000;
  }

  /** Go's `len` is an int, so it always fits the unsigned 64-bit prefix. */
  predicate Representable(parts: seq<Bytes>) {
    forall i :: 0 <= i < |parts| ==> |parts[i]| < WORD
  }

  /** The 8-byte length prefix; the conversion to `uint64` keeps the low-order word. */
  function Prefix(length: nat): (bytes: Bytes)
    ensures |bytes| == 8
  {
    BigEndian(length % WORD, 8)
  }

  lemma PrefixRoundTrip(length: nat)
    requires length < WORD
    ensures FromBigEndian(Prefix(length)) == length
  {
    hide BigEndian, FromBigEndian, Pow256;
    PowWord();
    BigEndianRoundTrip(length, 8);
  }

  lemma PrefixOfValue(bytes: Bytes)
    requires |bytes| == 8
    ensures FromBigEndian(bytes) < WORD && Prefix(FromBigEndian(bytes)) == bytes
  {
    hide BigEndian, FromBigEndian, Pow256;
    PowWord();
    FromBigEndianRoundTrip(bytes);
  }

  /** `appendDigestPart`: an 8-byte length, then the part. */
  function Frame(part: Bytes): (framed: Bytes)
    ensures |framed| == 8 + |part|
  {
    Prefix(|part|) + part
  }

  function Preimage(parts: seq<Bytes>): Bytes {
    if parts == [] then [] else Preimage(parts[..|parts| - 1]) + Frame(parts[|parts| - 1])
  }

  /** Reads frames off the front; None when the bytes do not end on a frame boundary. */
  function Decode(bytes: Bytes): Option<seq<Bytes>>
    decreases |bytes|
  {
    if bytes == [] then Some([])
    else if |bytes| < 8 || |bytes| < 8 + FromBigEndian(bytes[..8]) then None
    else
      var end := 8 + FromBigEndian(bytes[..8]);
      match Decode(bytes[end..])
      case None => None
      case Some(rest) => Some([bytes[8..end]] + rest)
  }

  lemma {:induction false} PreimageCons(part: Bytes, rest: seq<Bytes>)
    ensures Preimage([part] + rest) == Frame(part) + Preimage(rest)
    decreases |rest|
  {
    hide Frame;
    var all := [part] + rest;
    if rest == [] {
      assert all[..0] == [];
    } else {
      var init := rest[..|rest| - 1];
      var last := rest[|rest| - 1];
      assert all[..|all| - 1] == [part] + init && all[|all| - 1] == last;
      PreimageCons(part, init);
      assert Frame(part) + (Preimage(init) + Frame(last)) == (Frame(part) + Preimage(init)) + Frame(last);
    }
  }

  lemma DecodeFrame(part: Bytes, tail: Bytes)
    requires FromBigEndian(Prefix(|part|)) == |part| && Decode(tail).Some?
    ensures Decode(Frame(part) + tail) == Some([part] + Decode(tail).value)
  {
    hide Prefix, FromBigEndian;
    var bytes := Prefix(|part|) + part + tail;
    assert bytes == Frame(part) + tail;
    assert bytes[..8] == Prefix(|part|);
    assert bytes[8..8 + |part|] == part;
    assert bytes[8 + |part|..] == tail;
  }

  lemma {:induction false} DecodePreimage(parts: seq<Bytes>)
    requires Representable(parts)
    ensures Decode(Preimage(parts)) == Some(parts)
    decreases |parts|
  {
    hide Frame, Prefix, FromBigEndian;
    if parts != [] {
      var part, rest := parts[0], parts[1..];
      assert parts == [part] + rest;
      PreimageCons(part, rest);
      PrefixRoundTrip(|part|);
      DecodePreimage(rest);
      DecodeFrame(part, Preimage(rest));
    }
  }

  lemma FrameOfDecoded(bytes: Bytes, end: nat)
    requires |bytes| >= 8 && end == 8 + FromBigEndian(bytes[..8]) && end <= |bytes|
    ensures |bytes[8..end]| < WORD
    ensures bytes == Frame(bytes[8..end]) + bytes[end..]
  {
    hide FromBigEndian, BigEndian;
    PrefixOfValue(bytes[..8]);
    assert bytes == bytes[..8] + bytes[8..end] + bytes[end..];
  }

  lemma {:induction false} PreimageDecode(bytes: Bytes)
    requires Decode(bytes).Some?
    ensures Representable(Decode(bytes).value) && Preimage(Decode(bytes).value) == bytes
    decreases |bytes|
  {
    hide Preimage, Frame, FromBigEndian;
    if bytes != [] {
      var end := 8 + FromBigEndian(bytes[..8]);
      PreimageDecode(bytes[end..]);
      FrameOfDecoded(bytes, end);
      PreimageCons(bytes[8..end], Decode(bytes[end..]).value);
    } else {
      assert Preimage([]) == [] by { NoParts(); }
    }
  }

  lemma NoParts()
    ensures Preimage([]) == []
  {}

  /** Different part lists never share a preimage, whatever their lengths. */
  lemma PreimageInjective(a: seq<Bytes>, b: seq<Bytes>)
    requires Representable(a) && Representable(b)
    requires Preimage(a) == Preimage(b)
    ensures a == b
  {
    hide *;
    DecodePreimage(a);
    DecodePreimage(b);
  }

  /** `digestFields`: one loop writing a frame for each field. */
  method DigestFields(fields: seq<Bytes>) returns (digest: Bytes)
    requires Representable(fields)
    ensures Decode(digest) == Some(fields)
    ensures digest == Preimage(fields)
  {
    hide Prefix, Decode;
    digest := [];
    for i := 0 to |fields|
      invariant digest == Preimage(fields[..i])
    {
      var length := Prefix(|fields[i]|);
      digest := digest + length;
      digest := digest + fields[i];
      assert fields[..i + 1][..i] == fields[..i];
      assert Preimage(fields[..i]) + Frame(fields[i]) == Preimage(fields[..i]) + length + fields[i];
    }
    assert fields[..|fields|] == fields;
    DecodePreimage(fields);
  }
}
