/** Unsigned varints and the CID v1 byte layout (ansible_rust_core/src/atproto/cid.rs). */
module Cid {
  import opened Wrappers
  import opened Base32

  const U64: int := 0x1_0000_0000_0000_0000

  function Varint(v: nat): (r: seq<Byte>)
    ensures |r| > 0
  {
    if v < 0x80 then [v] else [v % 0x80 + 0x80] + Varint(v / 0x80)
  }

  /** Reads one varint off the front: seven bits a byte, least significant group first. */
  function ReadVarint(s: seq<Byte>): Option<(nat, seq<Byte>)> {
    if s == [] then None
    else if s[0] < 0x80 then Some((s[0], s[1..]))
    else
      match ReadVarint(s[1..])
      case None => None
      case Some((high, rest)) => Some((s[0] - 0x80 + 0x80 * high, rest))
  }

  /** Decoding what was written returns the value and leaves the following bytes alone. */
  lemma {:induction false} VarintRoundTrip(v: nat, rest: seq<Byte>)
    ensures ReadVarint(Varint(v) + rest) == Some((v, rest))
  {
    var s := Varint(v) + rest;
    if v < 0x80 {
      assert s[1..] == rest;
    } else {
      VarintRoundTrip(v / 0x80, rest);
      assert s[1..] == Varint(v / 0x80) + rest;
    }
  }

  function Pow128(n: nat): (r: nat)
    ensures r >= 1
  {
    if n == 0 then 1 else 0x80 * Pow128(n - 1)
  }

  /** The form is minimal: exactly one byte for each started group of seven bits. */
  lemma {:induction false} VarintLength(v: nat)
    ensures v < Pow128(|Varint(v)|)
    ensures v > 0 ==> Pow128(|Varint(v)| - 1) <= v
  {
    if v >= 0x80 { VarintLength(v / 0x80); } else { assert Pow128(1) == 0x80; }
  }

  /** A 64-bit value takes at most ten bytes. */
  lemma VarintU64(v: nat)
    requires v < U64
    ensures |Varint(v)| <= 10
  {
    VarintLength(v);
    if |Varint(v)| > 10 { Pow128Mono(10, |Varint(v)| - 1); }
    assert Pow128(4) == 0x1000_0000 by { assert Pow128(2) == 0x4000; }
    assert Pow128(8) == 0x100_0000_0000_0000 by { assert Pow128(6) == 0x400_0000_0000; }
    assert Pow128(10) == 0x40_0000_0000_0000_0000;
  }

  lemma {:induction false} Pow128Mono(m: nat, n: nat)
    requires m <= n
    ensures Pow128(m) <= Pow128(n)
  {
    if m < n { Pow128Mono(m, n - 1); }
  }

  /** The source's loop: shift seven bits out until nothing is left. */
  method WriteVarint(val: nat, out: seq<Byte>) returns (r: seq<Byte>)
    requires val < U64
    ensures r == out + Varint(val)
    ensures |r| <= |out| + 10
  {
    VarintU64(val);
    var v := val;
    r := out;
    while true
      invariant r + Varint(v) == out + Varint(val)
      decreases v
    {
      var byte := v % 0x80;
      var low := v;
      v := v / 0x80;
      if v == 0 {
        assert Varint(low) == [byte];
        r := r + [byte];
        break;
      } else {
        assert r + Varint(low) == (r + [byte + 0x80]) + Varint(v);
        r := r + [byte + 0x80];
      }
    }
  }

  datatype CidParts = CidParts(version: nat, codec: nat, hashCode: nat, hashLength: nat, digest: seq<Byte>)

  function ReadCid(s: seq<Byte>): Option<CidParts> {
    match ReadVarint(s)
    case None => None
    case Some((version, s1)) =>
      match ReadVarint(s1)
      case None => None
      case Some((codec, s2)) =>
        match ReadVarint(s2)
        case None => None
        case Some((hashCode, s3)) =>
          match ReadVarint(s3)
          case None => None
          case Some((hashLength, digest)) =>
            if |digest| == hashLength then Some(CidParts(version, codec, hashCode, hashLength, digest)) else None
  }

  /** Reads a multibase string: prefix 'b', then unpadded base32. */
  function ParseCid(text: string): Option<CidParts> {
    if |text| > 0 && text[0] == 'b' && (forall c <- text[1..] :: IsDigit(c))
    then ReadCid(Decode(text[1..])) else None
  }

  function CidBytes(digest: seq<Byte>): seq<Byte> {
    Varint(1) + (Varint(0x71) + (Varint(0x12) + (Varint(0x20) + digest)))
  }

  lemma CidLayout(digest: seq<Byte>)
    requires |digest| == 0x20
    ensures ReadCid(CidBytes(digest)) == Some(CidParts(1, 0x71, 0x12, 0x20, digest))
    ensures |CidBytes(digest)| == 36
  {
    var tail3 := Varint(0x20) + digest;
    var tail2 := Varint(0x12) + tail3;
    var tail1 := Varint(0x71) + tail2;
    VarintRoundTrip(1, tail1);
    VarintRoundTrip(0x71, tail2);
    VarintRoundTrip(0x12, tail3);
    VarintRoundTrip(0x20, digest);
  }

  lemma MultibaseRoundTrip(bytes: seq<Byte>)
    ensures ParseCid("b" + Encode(bytes)) == ReadCid(bytes)
  {
    EncodeInvertible(bytes);
    var text := "b" + Encode(bytes);
    assert text[1..] == Encode(bytes);
  }

  /** `compute_cid`, with SHA-256 as a parameter. The text parses back to version 1, codec
      DAG-CBOR, hash code sha2-256, length 32 and the digest itself. */
  method ComputeCid(cbor: seq<Byte>, sha256: seq<Byte> -> seq<Byte>) returns (cid: string)
    requires |sha256(cbor)| == 32
    ensures ParseCid(cid) == Some(CidParts(1, 0x71, 0x12, 0x20, sha256(cbor)))
    ensures |cid| == 59
  {
    var digest := sha256(cbor);
    var multihash := WriteVarint(0x12, []);
    multihash := WriteVarint(0x20, multihash);
    multihash := multihash + digest;
    var bytes := WriteVarint(1, []);
    bytes := WriteVarint(0x71, bytes);
    bytes := bytes + multihash;
    assert bytes == CidBytes(digest);
    var body := EncodeNoPad(bytes);
    cid := "b" + body;
    CidLayout(digest);
    MultibaseRoundTrip(bytes);
    EncodeShape(bytes);
  }
}
