/** Unpadded lower-case base32 (ansible_rust_core/src/atproto/mod.rs).

    The specification works on bit strings, as section 6 of RFC 4648 does; the
    implementation is the source's accumulator loop over a 32-bit word that
    silently drops its high bits. */
module Base32 {

  type Byte = b: int | 0 <= b < 256
  type Bit = b: int | 0 <= b < 2

  const ALPHABET: string := "abcdefghijklmnopqrstuvwxyz234567"
  const WORD: int := 0x1_0000_0000

  // ---------------------------------------------------------------- bit strings

  function Pow2(n: nat): (r: nat)
    ensures r >= 1
  {
    if n == 0 then 1 else 2 * Pow2(n - 1)
  }

  /** Big-endian value of a bit string. */
  function Val(bits: seq<Bit>): nat {
    if bits == [] then 0 else 2 * Val(bits[..|bits| - 1]) + bits[|bits| - 1]
  }

  function Zeros(n: nat): (r: seq<Bit>)
    ensures |r| == n
  {
    seq(n, _ => 0)
  }

  /** The `n` low bits of `v`, most significant first. */
  function ToBits(v: nat, n: nat): (r: seq<Bit>)
    ensures |r| == n
  {
    if n == 0 then [] else ToBits(v / 2, n - 1) + [v % 2]
  }

  function Bits(data: seq<Byte>): (r: seq<Bit>)
    ensures |r| == 8 * |data|
  {
    if data == [] then [] else ToBits(data[0], 8) + Bits(data[1..])
  }

  // ------------------------------------------------------------ the RFC encoding

  function Digit(v: nat): (c: char)
    requires v < 32
  {
    if v < 26 then 'a' + v as char else '2' + (v - 26) as char
  }

  function DigitValue(c: char): (v: nat)
    requires IsDigit(c)
    ensures v < 32
  {
    if 'a' <= c <= 'z' then c as int - 'a' as int else c as int - '2' as int + 26
  }

  predicate IsDigit(c: char) {
    'a' <= c <= 'z' || '2' <= c <= '7'
  }

  /** Groups of five bits from the left; a short last group is filled with zero bits. */
  function EncodeBits(bits: seq<Bit>): string {
    if bits == [] then ""
    else if |bits| < 5 then
      ValBound(bits + Zeros(5 - |bits|));
      [Digit(Val(bits + Zeros(5 - |bits|)))]
    else
      ValBound(bits[..5]);
      [Digit(Val(bits[..5]))] + EncodeBits(bits[5..])
  }

  function Encode(data: seq<Byte>): string {
    EncodeBits(Bits(data))
  }

  // ----------------------------------------------------------- a reference decoder

  function DecodeBits(text: string): (r: seq<Bit>)
    requires forall c <- text :: IsDigit(c)
    ensures |r| == 5 * |text|
  {
    if text == "" then [] else ToBits(DigitValue(text[0]), 5) + DecodeBits(text[1..])
  }

  /** Whole bytes from the left; fewer than eight trailing bits are dropped. */
  function Bytes(bits: seq<Bit>): (r: seq<Byte>) {
    if |bits| < 8 then []
    else
      ValBound(bits[..8]);
      [Val(bits[..8])] + Bytes(bits[8..])
  }

  function Decode(text: string): seq<Byte>
    requires forall c <- text :: IsDigit(c)
  {
    Bytes(DecodeBits(text))
  }

  // ------------------------------------------------------------------- bit lemmas

  lemma {:induction false} ValBound(bits: seq<Bit>)
    ensures Val(bits) < Pow2(|bits|)
    ensures Pow2(5) == 32 && Pow2(8) == 256
  {
    assert Pow2(3) == 8;
    assert Pow2(5) == 32;
    assert Pow2(8) == 256 by { assert Pow2(6) == 64; }
    if bits != [] { ValBound(bits[..|bits| - 1]); }
  }

  lemma {:induction false} ValConcat(a: seq<Bit>, b: seq<Bit>)
    ensures Val(a + b) == Val(a) * Pow2(|b|) + Val(b)
  {
    if b == [] {
      assert a + b == a;
    } else {
      var b' := b[..|b| - 1];
      assert (a + b)[..|a + b| - 1] == a + b' && (a + b)[|a + b| - 1] == b[|b| - 1];
      ValConcat(a, b');
      DoubleProduct(Val(a), Pow2(|b'|));
    }
  }

  lemma DoubleProduct(x: nat, p: nat)
    ensures x * (2 * p) == 2 * (x * p)
  {
  }

  lemma {:induction false} ToBitsVal(bits: seq<Bit>)
    ensures ToBits(Val(bits), |bits|) == bits
  {
    if bits != [] {
      ToBitsVal(bits[..|bits| - 1]);
      assert bits == bits[..|bits| - 1] + [bits[|bits| - 1]];
    }
  }

  lemma {:induction false} ValToBits(v: nat, n: nat)
    requires v < Pow2(n)
    ensures Val(ToBits(v, n)) == v
  {
    if n > 0 {
      ValToBits(v / 2, n - 1);
      var r := ToBits(v, n);
      assert r[..|r| - 1] == ToBits(v / 2, n - 1);
    }
  }

  lemma {:induction false} EncodeBitsDigits(bits: seq<Bit>)
    ensures forall c <- EncodeBits(bits) :: IsDigit(c)
    ensures |EncodeBits(bits)| == (|bits| + 4) / 5
  {
    if |bits| >= 5 {
      EncodeBitsDigits(bits[5..]);
      ValBound(bits[..5]);
    } else if bits != [] {
      ValBound(bits + Zeros(5 - |bits|));
    }
  }

  lemma {:induction false} DecodeEncodeBits(bits: seq<Bit>)
    ensures forall c <- EncodeBits(bits) :: IsDigit(c)
    ensures DecodeBits(EncodeBits(bits)) == bits + Zeros(5 * ((|bits| + 4) / 5) - |bits|)
  {
    EncodeBitsDigits(bits);
    var text := EncodeBits(bits);
    if bits == [] {
    } else if |bits| < 5 {
      ToBitsVal(bits + Zeros(5 - |bits|));
      ValBound(bits + Zeros(5 - |bits|));
      assert text[1..] == "";
    } else {
      DecodeEncodeBits(bits[5..]);
      ToBitsVal(bits[..5]);
      ValBound(bits[..5]);
      assert text[1..] == EncodeBits(bits[5..]);
      assert bits == bits[..5] + bits[5..];
    }
  }

  lemma {:induction false} BytesBits(data: seq<Byte>, pad: seq<Bit>)
    requires |pad| < 8
    ensures Bytes(Bits(data) + pad) == data
  {
    if data == [] {
      assert Bits(data) + pad == pad;
    } else {
      var all := Bits(data) + pad;
      assert all[..8] == ToBits(data[0], 8);
      assert all[8..] == Bits(data[1..]) + pad;
      ValBound([]);
      ValToBits(data[0], 8);
      BytesBits(data[1..], pad);
    }
  }

  // ------------------------------------------------------------------ main lemmas

  /** The encoding has ceil(8n/5) digits, all from the alphabet. */
  lemma EncodeShape(data: seq<Byte>)
    ensures |Encode(data)| == (8 * |data| + 4) / 5
    ensures forall c <- Encode(data) :: IsDigit(c)
  {
    EncodeBitsDigits(Bits(data));
  }

  /** The encoding is invertible. */
  lemma EncodeInvertible(data: seq<Byte>)
    ensures forall c <- Encode(data) :: IsDigit(c)
    ensures Decode(Encode(data)) == data
  {
    DecodeEncodeBits(Bits(data));
    BytesBits(data, Zeros(5 * ((8 * |data| + 4) / 5) - 8 * |data|));
  }

  lemma AlphabetTable(v: nat)
    requires v < 32
    ensures |ALPHABET| == 32 && ALPHABET[v] == Digit(v)
    ensures DigitValue(Digit(v)) == v
  {
    var a, b := "abcdefghijklmnop", "qrstuvwxyz234567";
    assert ALPHABET == a + b;
    if v < 16 { assert a[v] == Digit(v); } else { assert b[v - 16] == Digit(v); }
  }

  lemma MultipleBound(d: int, p: int)
    requires p > 0
    ensures d >= 1 ==> d * p >= p
    ensures d <= -1 ==> d * p <= -p
  {
    if d >= 1 { assert d * p == (d - 1) * p + p; }
    if d <= -1 { assert d * p == (d + 1) * p - p; }
  }

  lemma DivModUnique(x: int, p: int, q: int, r: int)
    requires p > 0 && 0 <= r < p && x == q * p + r
    ensures x / p == q && x % p == r
  {
    var q' := x / p;
    assert q * p - q' * p == (q - q') * p;
    MultipleBound(q - q', p);
  }

  /** Taking five bits off the top of the live part of the accumulator. */
  lemma TopGroup(word: nat, hi: nat, lo: nat, p: nat)
    requires p > 0 && hi < 32 && lo < p
    requires word % (32 * p) == hi * p + lo
    ensures (word / p) % 32 == hi && word % p == lo
  {
    var q := word / (32 * p);
    assert word == (32 * q + hi) * p + lo;
    DivModUnique(word, p, 32 * q + hi, lo);
  }

  lemma SmallPowers()
    ensures Pow2(0) == 1 && Pow2(1) == 2 && Pow2(2) == 4 && Pow2(3) == 8 && Pow2(4) == 16
  {
    assert Pow2(2) == 4;
    assert Pow2(4) == 16;
  }

  lemma {:induction false} Pow2Add(m: nat, n: nat)
    ensures Pow2(m + n) == Pow2(m) * Pow2(n)
  {
    if n > 0 { Pow2Add(m, n - 1); }
  }

  /** Shifting a byte in and cutting to 32 bits keeps the live low bits exact. */
  lemma ShiftIn(word: nat, byte: Byte, live: nat)
    requires live <= 4
    ensures Pow2(live + 8) == 256 * Pow2(live)
    ensures (Shl8(word) + byte) % Pow2(live + 8) == (word % Pow2(live)) * 256 + byte
  {
    Pow2Add(live, 8);
    ValBound([]);
    SmallPowers();
    var p := Pow2(live);
    var b, l := word / p, word % p;
    var a := word / 0x100_0000;
    var c := 0x100_0000 / p;
    assert 0x100_0000 == c * p;
    assert a * 0x100_0000 == (a * c) * p;
    assert word % 0x100_0000 == (b - a * c) * p + l;
    assert Shl8(word) + byte == (b - a * c) * (256 * p) + (l * 256 + byte);
    DivModUnique(Shl8(word) + byte, 256 * p, b - a * c, l * 256 + byte);
  }

  /** `word << 8` on a 32-bit word: the top byte is lost. */
  function Shl8(word: nat): (r: nat)
    ensures r + 255 < WORD
  {
    (word % 0x100_0000) * 0x100
  }

  /** `(word << n) & 0x1f` on a 32-bit word. */
  function ShlLow5(word: nat, n: nat): (r: nat)
    ensures r < 32
  {
    (word * Pow2(n)) % WORD % 32
  }

  /** `word` holds the pending bits `live` in its low `count` bits; what lies above is garbage. */
  ghost predicate Holds(word: nat, count: nat, live: seq<Bit>) {
    word < WORD && |live| == count && word % Pow2(count) == Val(live)
  }

  /** One `bits = (bits << 8) | byte` step. */
  lemma ByteIn(word: nat, count: nat, live: seq<Bit>, byte: Byte)
    requires count <= 4 && Holds(word, count, live)
    ensures Holds(Shl8(word) + byte, count + 8, live + ToBits(byte, 8))
  {
    ShiftIn(word, byte, count);
    ValConcat(live, ToBits(byte, 8));
    ValBound([]);
    ValToBits(byte, 8);
  }

  /** One pass of the inner loop: the emitted digit is the next RFC digit. */
  lemma GroupOut(word: nat, count: nat, live: seq<Bit>, rest: seq<Bit>)
    requires count >= 5 && Holds(word, count, live)
    ensures (word / Pow2(count - 5)) % 32 < 32
    ensures EncodeBits(live + rest) == [Digit((word / Pow2(count - 5)) % 32)] + EncodeBits(live[5..] + rest)
    ensures Holds(word, count - 5, live[5..])
  {
    var hi, lo, p := Val(live[..5]), Val(live[5..]), Pow2(count - 5);
    ValBound(live[..5]);
    ValBound(live[5..]);
    ValConcat(live[..5], live[5..]);
    assert live == live[..5] + live[5..];
    Pow2Add(count - 5, 5);
    TopGroup(word, hi, lo, p);
    assert (live + rest)[..5] == live[..5];
    assert (live + rest)[5..] == live[5..] + rest;
  }

  lemma ModMod(x: nat)
    ensures x % WORD % 32 == x % 32
  {
    assert x == (x / WORD) * WORD + x % WORD;
    assert x == ((x / WORD) * 0x800_0000 + (x % WORD) / 32) * 32 + x % WORD % 32;
  }

  lemma LastDigit(word: nat, value: nat, count: nat)
    requires 0 < count < 5 && word % Pow2(count) == value
    ensures ShlLow5(word, 5 - count) == value * Pow2(5 - count)
  {
    Pow2Add(count, 5 - count);
    ValBound([]);
    var p, q := Pow2(5 - count), word / Pow2(count);
    assert word == q * Pow2(count) + value;
    MulRegroup(q, Pow2(count), p, value);
    MultipleBelow(value, Pow2(count), p);
    DivModUnique(word * p, 32, q, value * p);
    ModMod(word * p);
  }

  lemma MulRegroup(q: nat, a: nat, p: nat, v: nat)
    ensures (q * a + v) * p == q * (a * p) + v * p
  {
  }

  lemma MultipleBelow(v: nat, a: nat, p: nat)
    requires v < a && p > 0
    ensures v * p < a * p
  {
  }

  /** The last, short group. */
  lemma LastOut(word: nat, count: nat, live: seq<Bit>)
    requires 0 < count < 5 && Holds(word, count, live)
    ensures EncodeBits(live) == [Digit(ShlLow5(word, 5 - count))]
  {
    hide Pow2, ShlLow5;
    var pad := Zeros(5 - count);
    ValConcat(live, pad);
    ValZeros(5 - count);
    ValBound(live + pad);
    LastDigit(word, Val(live), count);
  }

  lemma {:induction false} ValZeros(n: nat)
    ensures Val(Zeros(n)) == 0
  {
    if n > 0 {
      assert Zeros(n)[..n - 1] == Zeros(n - 1);
      ValZeros(n - 1);
    }
  }

  lemma NextByte(data: seq<Byte>, i: nat, live: seq<Bit>)
    requires i < |data|
    ensures live + Bits(data[i..]) == (live + ToBits(data[i], 8)) + Bits(data[i + 1..])
  {
    assert data[i..][1..] == data[i + 1..];
    assert Bits(data[i..]) == ToBits(data[i], 8) + Bits(data[i + 1..]);
  }

  lemma AtTheEnds(data: seq<Byte>)
    ensures Holds(0, 0, []) && Pow2(0) == 1
    ensures [] + Bits(data[0..]) == Bits(data)
    ensures forall live: seq<Bit> :: live + Bits(data[|data|..]) == live
  {
    assert data[0..] == data;
  }

  lemma Snoc(out: string, c: char, rest: string)
    ensures out + ([c] + rest) == (out + [c]) + rest
    ensures out + [] == out
  {
  }

  /** The accumulator loop computes the RFC encoding for inputs of every length,
      although `word` keeps only 32 bits. */
  method EncodeNoPad(data: seq<Byte>) returns (out: string)
    ensures out == Encode(data)
  {
    hide EncodeBits, Bits, ToBits, Val, Pow2, Digit;
    out := "";
    var word: nat := 0;
    var count: nat := 0;
    ghost var live: seq<Bit> := [];
    AtTheEnds(data);
    for i := 0 to |data|
      invariant count < 5 && Holds(word, count, live)
      invariant Encode(data) == out + EncodeBits(live + Bits(data[i..]))
    {
      ByteIn(word, count, live, data[i]);
      NextByte(data, i, live);
      word := Shl8(word) + data[i];
      count := count + 8;
      live := live + ToBits(data[i], 8);
      ghost var rest := Bits(data[i + 1..]);
      while count >= 5
        invariant Holds(word, count, live)
        invariant Encode(data) == out + EncodeBits(live + rest)
      {
        GroupOut(word, count, live, rest);
        count := count - 5;
        live := live[5..];
        var v := (word / Pow2(count)) % 32;
        AlphabetTable(v);
        Snoc(out, ALPHABET[v], EncodeBits(live + rest));
        out := out + [ALPHABET[v]];
      }
    }
    Snoc(out, 'a', "");
    if count > 0 {
      LastOut(word, count, live);
      var v := ShlLow5(word, 5 - count);
      AlphabetTable(v);
      out := out + [ALPHABET[v]];
    } else {
      NothingLeft(live);
    }
  }

  lemma NothingLeft(live: seq<Bit>)
    requires |live| == 0
    ensures EncodeBits(live) == ""
  {
  }
}
