/** SHA-256 as FIPS 180-4 defines it: sections 4.1.2 (functions), 4.2.2 (constants),
    5.1.1 (padding), 5.3.3 (initial value) and 6.2.2 (computation). */
module Fips180 {
  import opened Words

  // Section 4.2.2, in rows of eight.

  const K0: seq<Word> := [
    0x428a2f98, 0x71374491, 0xb5c0fbcf, 0xe9b5dba5, 0x3956c25b, 0x59f111f1, 0x923f82a4, 0xab1c5ed5
  ]

  const K1: seq<Word> := [
    0xd807aa98, 0x12835b01, 0x243185be, 0x550c7dc3, 0x72be5d74, 0x80deb1fe, 0x9bdc06a7, 0xc19bf174
  ]

  const K2: seq<Word> := [
    0xe49b69c1, 0xefbe4786, 0x0fc19dc6, 0x240ca1cc, 0x2de92c6f, 0x4a7484aa, 0x5cb0a9dc, 0x76f988da
  ]

  const K3: seq<Word> := [
    0x983e5152, 0xa831c66d, 0xb00327c8, 0xbf597fc7, 0xc6e00bf3, 0xd5a79147, 0x06ca6351, 0x14292967
  ]

  const K4: seq<Word> := [
    0x27b70a85, 0x2e1b2138, 0x4d2c6dfc, 0x53380d13, 0x650a7354, 0x766a0abb, 0x81c2c92e, 0x92722c85
  ]

  const K5: seq<Word> := [
    0xa2bfe8a1, 0xa81a664b, 0xc24b8b70, 0xc76c51a3, 0xd192e819, 0xd6990624, 0xf40e3585, 0x106aa070
  ]

  const K6: seq<Word> := [
    0x19a4c116, 0x1e376c08, 0x2748774c, 0x34b0bcb5, 0x391c0cb3, 0x4ed8aa4a, 0x5b9cca4f, 0x682e6ff3
  ]

  const K7: seq<Word> := [
    0x748f82ee, 0x78a5636f, 0x84c87814, 0x8cc70208, 0x90befffa, 0xa4506ceb, 0xbef9a3f7, 0xc67178f2
  ]

  const K: seq<Word> := K0 + K1 + K2 + K3 + K4 + K5 + K6 + K7

  /** The eight working variables, and also the eight words of a hash value. */
  datatype Vars = Vars(a: Word, b: Word, c: Word, d: Word, e: Word, f: Word, g: Word, h: Word) {
    function Words(): (s: seq<Word>)
      ensures |s| == 8
    {
      [a, b, c, d, e, f, g, h]
    }
  }

  const INITIAL: Vars := Vars(
    0x6a09e667, 0xbb67ae85, 0x3c6ef372, 0xa54ff53a, 0x510e527f, 0x9b05688c, 0x1f83d9ab, 0x5be0cd19)

  // Section 3.2 and section 4.1.2.

  function Rotr(n: nat, x: Word): Word
    requires n < 32
  {
    Or(Shr(x, n), Shl(x, 32 - n))
  }

  function Ch(x: Word, y: Word, z: Word): Word { Xor(And(x, y), And(Not(x), z)) }

  function Maj(x: Word, y: Word, z: Word): Word { Xor(Xor(And(x, y), And(x, z)), And(y, z)) }

  function BigSigma0(x: Word): Word { Xor(Xor(Rotr(2, x), Rotr(13, x)), Rotr(22, x)) }

  function BigSigma1(x: Word): Word { Xor(Xor(Rotr(6, x), Rotr(11, x)), Rotr(25, x)) }

  function SmallSigma0(x: Word): Word { Xor(Xor(Rotr(7, x), Rotr(18, x)), Shr(x, 3)) }

  function SmallSigma1(x: Word): Word { Xor(Xor(Rotr(17, x), Rotr(19, x)), Shr(x, 10)) }

  // Section 5.1.1, in whole bytes.

  /** Zero bytes after the 0x80 byte: the least count that leaves room for eight bytes. */
  function ZeroCount(len: nat): nat {
    (119 - len % 64) % 64
  }

  function Zeros(n: nat): (s: seq<Byte>)
    ensures |s| == n && forall i :: 0 <= i < n ==> s[i] == 0
  {
    seq(n, _ => 0)
  }

  function Pad(message: seq<Byte>): seq<Byte> {
    message + [0x80] + Zeros(ZeroCount(|message|)) + BigEndian(8 * |message|, 8)
  }

  // Section 6.2.2.

  /** Word `t` of the message schedule of the 64-byte block at `off`. */
  function W(padded: seq<Byte>, off: nat, t: nat): Word
    requires off + 64 <= |padded|
    decreases t
  {
    if t < 16 then WordAt(padded, off + 4 * t)
    else Plus(Plus(Plus(SmallSigma1(W(padded, off, t - 2)), W(padded, off, t - 7)),
                   SmallSigma0(W(padded, off, t - 15))),
              W(padded, off, t - 16))
  }

  function Round(v: Vars, k: Word, w: Word): Vars {
    var t1 := Plus(Plus(Plus(Plus(v.h, BigSigma1(v.e)), Ch(v.e, v.f, v.g)), k), w);
    var t2 := Plus(BigSigma0(v.a), Maj(v.a, v.b, v.c));
    Vars(Plus(t1, t2), v.a, v.b, v.c, Plus(v.d, t1), v.e, v.f, v.g)
  }

  /** The working variables after the first `t` rounds on the block at `off`. */
  function Rounds(start: Vars, padded: seq<Byte>, off: nat, t: nat): Vars
    requires off + 64 <= |padded| && t <= 64
  {
    if t == 0 then start
    else Round(Rounds(start, padded, off, t - 1), K[t - 1], W(padded, off, t - 1))
  }

  function AddVars(x: Vars, y: Vars): Vars {
    Vars(Plus(x.a, y.a), Plus(x.b, y.b), Plus(x.c, y.c), Plus(x.d, y.d),
         Plus(x.e, y.e), Plus(x.f, y.f), Plus(x.g, y.g), Plus(x.h, y.h))
  }

  /** The hash value after the first `n` blocks. */
  function HashAfter(padded: seq<Byte>, n: nat): Vars
    requires 64 * n <= |padded|
  {
    if n == 0 then INITIAL
    else
      var previous := HashAfter(padded, n - 1);
      AddVars(previous, Rounds(previous, padded, 64 * (n - 1), 64))
  }

  function WordsToBytes(words: seq<Word>): (r: seq<Byte>)
    ensures |r| == 4 * |words|
  {
    if words == [] then [] else WordsToBytes(words[..|words| - 1]) + BigEndian(words[|words| - 1], 4)
  }

  function Hash(message: seq<Byte>): seq<Byte> {
    var padded := Pad(message);
    WordsToBytes(HashAfter(padded, |padded| / 64).Words())
  }

  // What section 5.1.1 asks of the padding.

  /** The padded length is the smallest multiple of 64 that holds the message and nine more bytes. */
  lemma PaddedLength(message: seq<Byte>)
    ensures |Pad(message)| % 64 == 0
    ensures |message| + 9 <= |Pad(message)| < |message| + 9 + 64
    ensures |Pad(message)| == (|message| + 72) / 64 * 64
    ensures forall m: nat | m % 64 == 0 && m >= |message| + 9 :: m >= |Pad(message)|
  {
    assert |Pad(message)| == |message| + 9 + ZeroCount(|message|);
    PaddedSize(|message|, ZeroCount(|message|));
    forall m: nat | m % 64 == 0 && m >= |message| + 9 ensures m >= |Pad(message)| {
      NoMultipleBetween(m, |Pad(message)|, |message| + 9);
    }
  }

  lemma PaddedSize(len: nat, z: nat)
    requires z == ZeroCount(len)
    ensures (len + 9 + z) % 64 == 0 && z < 64 && len + 9 + z == (len + 72) / 64 * 64
  {
    var r := len % 64;
    assert z == if r <= 55 then 55 - r else 119 - r;
    assert len + 9 + z == 64 * (len / 64 + if r <= 55 then 1 else 2);
  }

  lemma NoMultipleBetween(m: nat, total: nat, low: nat)
    requires m % 64 == 0 && total % 64 == 0 && low <= m && total < low + 64
    ensures m >= total
  {
  }

  /** Two different messages never pad to the same bytes (the length field holds 64 bits). */
  lemma PadInjective(m1: seq<Byte>, m2: seq<Byte>)
    requires 8 * |m1| < Pow256(8) && 8 * |m2| < Pow256(8)
    requires Pad(m1) == Pad(m2)
    ensures m1 == m2
  {
    LengthField(m1);
    LengthField(m2);
    assert Pad(m1)[..|m1|] == m1 && Pad(m2)[..|m2|] == m2;
  }

  /** The last eight bytes of the padding tell the length of the message. */
  lemma LengthField(message: seq<Byte>)
    requires 8 * |message| < Pow256(8)
    ensures var p := Pad(message); FromBigEndian(p[|p| - 8..]) == 8 * |message|
  {
    var p := Pad(message);
    assert p[|p| - 8..] == BigEndian(8 * |message|, 8);
    BigEndianRoundTrip(8 * |message|, 8);
  }
}
