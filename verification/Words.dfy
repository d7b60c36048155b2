/** 32-bit words as FIPS 180-4 section 3.2 uses them: integers below 2^32, with
    bitwise operations, shifts and addition modulo 2^32. */
module Words {

  type Word = x: int | 0 <= x < 0x1_0000_0000
  type Byte = x: int | 0 <= x < 0x100

  function And(x: Word, y: Word): Word {
    ((x as bv32) & (y as bv32)) as Word
  }

  function Or(x: Word, y: Word): Word {
    ((x as bv32) | (y as bv32)) as Word
  }

  function Xor(x: Word, y: Word): Word {
    ((x as bv32) ^ (y as bv32)) as Word
  }

  /** Complement: every bit flipped, so the value is taken away from all ones. */
  function Not(x: Word): Word {
    0x1_0000_0000 - 1 - x
  }

  function Plus(x: Word, y: Word): Word {
    (x + y) % 0x1_0000_0000
  }

  /** `n` bits shifted out on the right, zeros shifted in on the left. */
  function Shr(x: Word, n: nat): Word
    decreases n
  {
    if n == 0 then x else Shr(x / 2, n - 1)
  }

  /** `n` bits shifted out on the left, zeros shifted in on the right. */
  function Shl(x: Word, n: nat): Word
    decreases n
  {
    if n == 0 then x else Shl(x * 2 % 0x1_0000_0000, n - 1)
  }

  /** A number written as quotient and remainder by 2^32. */
  lemma ModIs(n: int, q: int, r: int)
    requires n == 0x1_0000_0000 * q + r && 0 <= r < 0x1_0000_0000
    ensures n % 0x1_0000_0000 == r && n / 0x1_0000_0000 == q
  {
  }

  /** The 32-bit word whose four bytes, most significant first, start at `p`. */
  function WordAt(bytes: seq<Byte>, p: nat): Word
    requires p + 4 <= |bytes|
  {
    var b0: int, b1: int, b2: int, b3: int := bytes[p], bytes[p + 1], bytes[p + 2], bytes[p + 3];
    b0 * 0x100_0000 + b1 * 0x1_0000 + b2 * 0x100 + b3
  }

  function Pow256(k: nat): (p: nat)
    ensures p > 0
  {
    if k == 0 then 1 else 0x100 * Pow256(k - 1)
  }

  /** `n` in `k` bytes, most significant first (the low-order part if it does not fit). */
  function BigEndian(n: nat, k: nat): (r: seq<Byte>)
    ensures |r| == k
  {
    if k == 0 then [] else BigEndian(n / 0x100, k - 1) + [n % 0x100]
  }

  function FromBigEndian(bytes: seq<Byte>): nat {
    if |bytes| == 0 then 0
    else var last: int := bytes[|bytes| - 1]; FromBigEndian(bytes[..|bytes| - 1]) * 0x100 + last
  }

  /** A number that fits in `k` bytes is read back from them unchanged. */
  lemma {:induction false} BigEndianRoundTrip(n: nat, k: nat)
    requires n < Pow256(k)
    ensures FromBigEndian(BigEndian(n, k)) == n
  {
    if k > 0 {
      BigEndianRoundTrip(n / 0x100, k - 1);
      var r := BigEndian(n, k);
      assert r[..k - 1] == BigEndian(n / 0x100, k - 1);
    }
  }

  /** `n` without its `k` low-order bytes. */
  function DropBytes(n: nat, k: nat): nat {
    if k == 0 then n else DropBytes(n / 0x100, k - 1)
  }

  /** The high and the low bytes of a number. */
  lemma {:induction false} BigEndianSplit(n: nat, j: nat, k: nat)
    ensures BigEndian(n, j + k) == BigEndian(DropBytes(n, k), j) + BigEndian(n, k)
    decreases k
  {
    if k > 0 {
      var m := n / 0x100;
      BigEndianSplit(m, j, k - 1);
      assert BigEndian(n, j + k) == BigEndian(m, j + k - 1) + [n % 0x100];
      assert BigEndian(n, k) == BigEndian(m, k - 1) + [n % 0x100];
    }
  }

  /** Bytes above the field do not change it. */
  lemma {:induction false} BigEndianLow(n: nat, q: nat, k: nat)
    ensures BigEndian(n + q * Pow256(k), k) == BigEndian(n, k)
  {
    if k > 0 {
      var m := q * Pow256(k - 1);
      assert q * Pow256(k) == 0x100 * m;
      assert (n + 0x100 * m) / 0x100 == n / 0x100 + m && (n + 0x100 * m) % 0x100 == n % 0x100;
      BigEndianLow(n / 0x100, q, k - 1);
    }
  }

  lemma DropFour(n: nat)
    ensures DropBytes(n, 4) == n / 0x1_0000_0000
  {
    var n1, n2, n3 := n / 0x100, n / 0x1_0000, n / 0x100_0000;
    assert DropBytes(n, 4) == DropBytes(n1, 3);
    assert DropBytes(n1, 3) == DropBytes(n2, 2);
    assert DropBytes(n2, 2) == DropBytes(n3, 1);
  }

  /** Writing a 64-bit number as its two 32-bit halves writes its eight bytes. */
  lemma HalvesOfBigEndian(n: nat)
    ensures BigEndian(n / 0x1_0000_0000, 4) + BigEndian(n % 0x1_0000_0000, 4) == BigEndian(n, 8)
  {
    assert Pow256(4) == 0x1_0000_0000;
    DropFour(n);
    BigEndianSplit(n, 4, 4);
    hide BigEndian, Pow256, DropBytes;
    BigEndianLow(n % 0x1_0000_0000, n / 0x1_0000_0000, 4);
  }
}
