/** The browser's SHA-256 (src/lib/sha256.ts): typed arrays written in place, with
    JavaScript's signed and unsigned 32-bit operators, proved to return the
    FIPS 180-4 digest. */
module Sha256 {
  import opened Words
  import opened JsNumbers
  import Fips180

  /** A digest, or the RangeError of copying the message into a buffer that is too small. */
  datatype Outcome = Digest(bytes: array<Byte>) | RangeError

  /** `rotr`: a signed 32-bit number. */
  function Rotr(x: int, n: nat): int
    requires 0 < n < 32
  {
    BitOr(ShiftRightZero(x, n), ShiftLeft(x, 32 - n))
  }

  lemma WordIsItself(x: Word)
    ensures ToUint32(x) == x
  {
  }

  lemma RotrIsRotr(x: Word, n: nat)
    requires 0 < n < 32
    ensures ToUint32(Rotr(x, n)) == Fips180.Rotr(n, x)
  {
    hide Or, Shr, Shl;
    WordIsItself(x);
    hide ToInt32, ToUint32;
    SignedThenUnsigned(Shl(x, 32 - n));
    WordIsItself(Shl(x, 32 - n));
    WordIsItself(Shr(x, n));
    WordIsItself(Or(Shr(x, n), Shl(x, 32 - n)));
    SignedThenUnsigned(Or(Shr(x, n), Shl(x, 32 - n)));
  }

  lemma XorOfSigned(x: int, y: int)
    ensures ToUint32(BitXor(x, y)) == Xor(ToUint32(x), ToUint32(y))
  {
    hide Xor;
    SignedThenUnsigned(Xor(ToUint32(x), ToUint32(y)));
  }

  lemma AndOfSigned(x: int, y: int)
    ensures ToUint32(BitAnd(x, y)) == And(ToUint32(x), ToUint32(y))
  {
    hide And;
    SignedThenUnsigned(And(ToUint32(x), ToUint32(y)));
  }

  /** A chain of three rotations, exclusive-ored. */
  lemma RotrChain(x: Word, i: nat, j: nat, k: nat)
    requires 0 < i < 32 && 0 < j < 32 && 0 < k < 32
    ensures ToUint32(BitXor(BitXor(Rotr(x, i), Rotr(x, j)), Rotr(x, k)))
         == Xor(Xor(Fips180.Rotr(i, x), Fips180.Rotr(j, x)), Fips180.Rotr(k, x))
  {
    hide Xor, Fips180.Rotr, Rotr, BitXor;
    RotrIsRotr(x, i);
    RotrIsRotr(x, j);
    RotrIsRotr(x, k);
    XorOfSigned(Rotr(x, i), Rotr(x, j));
    XorOfSigned(BitXor(Rotr(x, i), Rotr(x, j)), Rotr(x, k));
  }

  /** Two rotations and a plain shift, exclusive-ored. */
  lemma RotrShiftChain(x: Word, i: nat, j: nat, k: nat)
    requires 0 < i < 32 && 0 < j < 32 && 0 < k < 32
    ensures ToUint32(BitXor(BitXor(Rotr(x, i), Rotr(x, j)), ShiftRightZero(x, k)))
         == Xor(Xor(Fips180.Rotr(i, x), Fips180.Rotr(j, x)), Shr(x, k))
  {
    hide Xor, Fips180.Rotr, Rotr, BitXor, Shr;
    RotrIsRotr(x, i);
    RotrIsRotr(x, j);
    XorOfSigned(Rotr(x, i), Rotr(x, j));
    XorOfSigned(BitXor(Rotr(x, i), Rotr(x, j)), ShiftRightZero(x, k));
    assert ToUint32(x) == x && ToUint32(ShiftRightZero(x, k)) == Shr(x, k);
  }

  function JsCh(e: int, f: int, g: int): int {
    BitXor(BitAnd(e, f), BitAnd(BitNot(e), g))
  }

  lemma ChOfSigned(e: Word, f: Word, g: Word)
    ensures ToUint32(JsCh(e, f, g)) == Fips180.Ch(e, f, g)
  {
    hide And, Xor, BitAnd, BitXor;
    AndOfSigned(e, f);
    AndOfSigned(BitNot(e), g);
    SignedThenUnsigned(Not(e));
    XorOfSigned(BitAnd(e, f), BitAnd(BitNot(e), g));
  }

  function JsMaj(a: int, b: int, c: int): int {
    BitXor(BitXor(BitAnd(a, b), BitAnd(a, c)), BitAnd(b, c))
  }

  lemma MajOfSigned(a: Word, b: Word, c: Word)
    ensures ToUint32(JsMaj(a, b, c)) == Fips180.Maj(a, b, c)
  {
    hide And, Xor, BitAnd, BitXor;
    AndOfSigned(a, b);
    AndOfSigned(a, c);
    AndOfSigned(b, c);
    XorOfSigned(BitAnd(a, b), BitAnd(a, c));
    XorOfSigned(BitXor(BitAnd(a, b), BitAnd(a, c)), BitAnd(b, c));
  }

  /** `total`: the buffer length the source computes with 32-bit shifts. */
  function Total(len: nat): Word
    requires Exact(len + 72)
  {
    ToUint32(ShiftLeft(ShiftRight(Add(Add(len, 9), 63), 6), 6))
  }

  /** `(n >> 6) << 6`, read as unsigned, is `n` rounded down to a multiple of 64, modulo 2^32. */
  lemma RoundDownTo64(n: nat)
    ensures ToUint32(ShiftLeft(ShiftRight(n, 6), 6)) == ToUint32(n / 64 * 64)
  {
    hide Shl, Halve, ToUint32, ToInt32;
    var s := ToInt32(n);
    var q := Wraps(n);
    HalveSixTimes(s);
    ShlSix(s / 64);
    SignedThenUnsigned(Shl(ToUint32(s / 64), 6));
    WordIsItself(Shl(ToUint32(s / 64), 6));
    SameModulo(n / 64 * 64, q);
  }

  /** How many times 2^32 is taken away from `n` to read it as a signed 32-bit number. */
  function Wraps(n: nat): (q: int)
    ensures ToInt32(n) == n - 0x1_0000_0000 * q
    ensures 64 * (ToInt32(n) / 64) == n / 64 * 64 - 0x1_0000_0000 * q
  {
    var q := n / 0x1_0000_0000 + (if ToUint32(n) >= 0x8000_0000 then 1 else 0);
    assert ToInt32(n) == n - 0x1_0000_0000 * q;
    q
  }

  lemma SameModulo(x: int, q: int)
    ensures ToUint32(x - 0x1_0000_0000 * q) == ToUint32(x)
  {
    ModIs(x - 0x1_0000_0000 * q, x / 0x1_0000_0000 - q, x % 0x1_0000_0000);
  }

  lemma HalveSixTimes(s: int)
    ensures Halve(s, 6) == s / 64
  {
    assert Halve(s, 6) == Halve(s / 2, 5) == Halve(s / 4, 4) == Halve(s / 8, 3);
    assert Halve(s / 8, 3) == Halve(s / 16, 2) == Halve(s / 32, 1) == Halve(s / 64, 0);
  }

  function Double(x: int, n: nat): int
    decreases n
  {
    if n == 0 then x else Double(2 * x, n - 1)
  }

  lemma DoubleModulo(x: int)
    ensures x % 0x1_0000_0000 * 2 % 0x1_0000_0000 == 2 * x % 0x1_0000_0000
  {
    var q, r := x / 0x1_0000_0000, x % 0x1_0000_0000;
    var carry := if 2 * r < 0x1_0000_0000 then 0 else 1;
    ModIs(2 * x, 2 * q + carry, 2 * r - 0x1_0000_0000 * carry);
    ModIs(2 * r, carry, 2 * r - 0x1_0000_0000 * carry);
  }

  /** Shifting left is doubling, modulo 2^32. */
  lemma {:induction false} ShlIsDouble(x: int, n: nat)
    ensures Shl(x % 0x1_0000_0000, n) == Double(x, n) % 0x1_0000_0000
    decreases n
  {
    if n > 0 {
      DoubleModulo(x);
      ShlIsDouble(2 * x, n - 1);
    }
  }

  lemma ShlSix(x: int)
    ensures Shl(ToUint32(x), 6) == ToUint32(64 * x)
  {
    ShlIsDouble(x, 6);
    assert Double(x, 6) == Double(2 * x, 5) == Double(4 * x, 4) == Double(8 * x, 3);
    assert Double(8 * x, 3) == Double(16 * x, 2) == Double(32 * x, 1) == Double(64 * x, 0);
  }

  /** The shifts give the padded length as long as it fits in 32 bits, and a length
      below that of the message in every other case. */
  lemma TotalIsPaddedLength(len: nat)
    requires Exact(len + 72)
    ensures len + 72 < 0x1_0000_0000 ==> Total(len) == (len + 72) / 64 * 64
    ensures len + 72 >= 0x1_0000_0000 ==> Total(len) < len
  {
    RoundDownTo64(len + 72);
    hide ShiftLeft, ShiftRight, ToUint32;
    assert Total(len) == ToUint32((len + 72) / 64 * 64);
    WrappedDown(len + 72);
  }

  /** Rounding down to a multiple of 64 commutes with comparing against 2^32. */
  lemma WrappedDown(n: nat)
    ensures n < 0x1_0000_0000 ==> ToUint32(n / 64 * 64) == n / 64 * 64
    ensures n >= 0x1_0000_0000 ==> ToUint32(n / 64 * 64) <= n - 0x1_0000_0000
  {
    var t := n / 64 * 64;
    assert t <= n && (n >= 0x1_0000_0000 ==> t >= 0x1_0000_0000);
    var q, r := t / 0x1_0000_0000, t % 0x1_0000_0000;
    assert t == 0x1_0000_0000 * q + r;
  }

  /** `DataView.setUint32`: four bytes, most significant first. */
  method SetUint32(buf: array<Byte>, p: nat, value: int)
    requires p + 4 <= buf.Length
    modifies buf
    ensures buf[p..p + 4] == BigEndian(ToUint32(value), 4)
    ensures buf[..p] == old(buf[..p]) && buf[p + 4..] == old(buf[p + 4..])
  {
    var v := ToUint32(value);
    buf[p] := v / 0x100_0000;
    buf[p + 1] := v / 0x1_0000 % 0x100;
    buf[p + 2] := v / 0x100 % 0x100;
    buf[p + 3] := v % 0x100;
    FourBytes(v);
  }

  /** The four bytes of a word, spelled out. */
  lemma FourBytes(v: Word)
    ensures BigEndian(v, 4) == [v / 0x100_0000, v / 0x1_0000 % 0x100, v / 0x100 % 0x100, v % 0x100]
  {
    var a: nat, b: nat, c: nat := v / 0x100, v / 0x1_0000, v / 0x100_0000;
    assert a / 0x100 == b && b / 0x100 == c && c < 0x100;
    assert BigEndian(v, 4) == BigEndian(a, 3) + [v % 0x100];
    assert BigEndian(a, 3) == BigEndian(b, 2) + [a % 0x100];
    assert BigEndian(b, 2) == BigEndian(c, 1) + [b % 0x100];
    assert BigEndian(c, 1) == BigEndian(0, 0) + [c];
  }

  /** Lines 20-28: the padded buffer. */
  method FillBuffer(data: array<Byte>) returns (buf: array<Byte>)
    requires data.Length + 72 < 0x1_0000_0000
    ensures buf[..] == Fips180.Pad(data[..])
  {
    hide *;
    ghost var message := data[..];
    PadIsFront(message);
    buf := CopyMessage(data);
    WriteLength(buf, data.Length * 8, Front(message));
    assert data[..] == message;
  }

  /** Lines 27-28: the bit length, written as two 32-bit words. */
  method WriteLength(buf: array<Byte>, bits: nat, ghost front: seq<Byte>)
    requires bits < 0x1_0000_0000 * 8 && buf.Length == |front| + 8 && buf[..|front|] == front
    modifies buf
    ensures buf[..] == front + BigEndian(bits, 8)
  {
    hide ToUint32, BigEndian;
    var p := buf.Length - 8;
    SetUint32(buf, p, bits / 0x1_0000_0000);
    assert buf[..p + 4] == buf[..p] + buf[p..p + 4];
    SetUint32(buf, p + 4, ToUint32(bits));
    assert buf[..] == buf[..p + 4] + buf[p + 4..p + 8];
    BitLength(bits);
  }

  /** Lines 20-24: a zeroed buffer with the message and the byte 0x80 in it. */
  method CopyMessage(data: array<Byte>) returns (buf: array<Byte>)
    requires data.Length + 72 < 0x1_0000_0000
    ensures fresh(buf) && buf.Length == |Front(data[..])| + 8 && buf[..buf.Length - 8] == Front(data[..])
  {
    FrontLength(data[..]);
    buf := new Byte[Total(data.Length)](_ => 0);
    hide Total;
    forall i | 0 <= i < data.Length {
      buf[i] := data[i];
    }
    buf[data.Length] := 0x80;
    assert buf[..data.Length] == data[..];
  }

  /** The padding up to the length field. */
  ghost function Front(message: seq<Byte>): seq<Byte> {
    message + [0x80] + Fips180.Zeros(Fips180.ZeroCount(|message|))
  }

  lemma FrontLength(message: seq<Byte>)
    requires |message| + 72 < 0x1_0000_0000
    ensures Total(|message|) == |Front(message)| + 8
  {
    TotalIsPaddedLength(|message|);
    Fips180.PaddedLength(message);
    PadIsFront(message);
    hide Total, Fips180.Pad;
  }

  lemma PadIsFront(message: seq<Byte>)
    ensures Fips180.Pad(message) == Front(message) + BigEndian(8 * |message|, 8)
  {
  }

  /** The two 32-bit writes of lines 27 and 28 make up the 64-bit length field. */
  lemma BitLength(bits: nat)
    requires bits < 0x1_0000_0000 * 8
    ensures BigEndian(ToUint32(bits / 0x1_0000_0000), 4) + BigEndian(ToUint32(ToUint32(bits)), 4) == BigEndian(bits, 8)
  {
    HalvesOfBigEndian(bits);
    ModIs(bits / 0x1_0000_0000, 0, bits / 0x1_0000_0000);
    WordIsItself(ToUint32(bits));
  }

  /** In a modular sum a term may be replaced by another with the same remainder. */
  lemma CongruentAdd(x: int, s: int, t: int)
    requires ToUint32(s) == ToUint32(t)
    ensures ToUint32(x + s) == ToUint32(x + t)
  {
    SameModulo(x + t, t / 0x1_0000_0000 - s / 0x1_0000_0000);
  }

  /** Adding one more word modulo 2^32. */
  lemma PlusOne(x: int, y: Word)
    ensures Plus(ToUint32(x), y) == ToUint32(x + y)
  {
    CongruentAdd(y, ToUint32(x), x);
  }

  /** Word `i` of the schedule, as line 34 to 36 compute it from four earlier ones. */
  function NextW(w16: Word, w15: Word, w7: Word, w2: Word): Word {
    var s0 := BitXor(BitXor(Rotr(w15, 7), Rotr(w15, 18)), ShiftRightZero(w15, 3));
    var s1 := BitXor(BitXor(Rotr(w2, 17), Rotr(w2, 19)), ShiftRightZero(w2, 10));
    ToUint32(Add(Add(Add(w16, s0), w7), s1))
  }

  lemma NextWIsSchedule(w16: Word, w15: Word, w7: Word, w2: Word)
    ensures NextW(w16, w15, w7, w2)
         == Plus(Plus(Plus(Fips180.SmallSigma1(w2), w7), Fips180.SmallSigma0(w15)), w16)
  {
    hide Xor, BitXor, Fips180.Rotr, Rotr, Shr;
    var s0 := BitXor(BitXor(Rotr(w15, 7), Rotr(w15, 18)), ShiftRightZero(w15, 3));
    var s1 := BitXor(BitXor(Rotr(w2, 17), Rotr(w2, 19)), ShiftRightZero(w2, 10));
    var t0, t1 := Fips180.SmallSigma0(w15), Fips180.SmallSigma1(w2);
    RotrShiftChain(w15, 7, 18, 3);
    RotrShiftChain(w2, 17, 19, 10);
    assert ToUint32(s0) == ToUint32(t0) && ToUint32(s1) == ToUint32(t1);
    hide Fips180.SmallSigma0, Fips180.SmallSigma1, ToUint32, Plus;
    CongruentAdd(w16 + w7 + s1, s0, t0);
    CongruentAdd(w16 + w7 + t0, s1, t1);
    WordIsItself(t1);
    PlusOne(t1, w7);
    PlusOne(t1 + w7, t0);
    PlusOne(t1 + w7 + t0, w16);
    assert w16 + s0 + w7 + s1 == w16 + w7 + s1 + s0;
    assert w16 + w7 + s1 + t0 == w16 + w7 + t0 + s1;
    assert w16 + w7 + t0 + t1 == t1 + w7 + t0 + w16;
  }

  /** The first `n` words are those of the schedule of the block at `off`. */
  ghost predicate Scheduled(bytes: seq<Byte>, off: nat, w: seq<Word>, n: nat)
    requires off + 64 <= |bytes|
  {
    n <= |w| && forall t :: 0 <= t < n ==> w[t] == Fips180.W(bytes, off, t)
  }

  lemma ScheduleStep(bytes: seq<Byte>, off: nat, w: seq<Word>, i: nat)
    requires off + 64 <= |bytes| && 16 <= i < 64 && Scheduled(bytes, off, w, i)
    ensures NextW(w[i - 16], w[i - 15], w[i - 7], w[i - 2]) == Fips180.W(bytes, off, i)
  {
    NextWIsSchedule(w[i - 16], w[i - 15], w[i - 7], w[i - 2]);
    hide NextW, Fips180.SmallSigma0, Fips180.SmallSigma1, Plus;
  }

  lemma ScheduleStart(bytes: seq<Byte>, off: nat, i: nat)
    requires off + 64 <= |bytes| && i < 16
    ensures Fips180.W(bytes, off, i) == WordAt(bytes, off + i * 4)
  {
  }

  /** Lines 32-37: the message schedule of the block at `off`. */
  method Schedule(buf: array<Byte>, off: nat, w: array<Word>)
    requires off + 64 <= buf.Length && w.Length == 64 && w as object != buf
    modifies w
    ensures Scheduled(buf[..], off, w[..], 64)
  {
    hide Fips180.W, NextW, WordAt;
    ghost var bytes := buf[..];
    for i := 0 to 16
      invariant buf[..] == bytes && Scheduled(bytes, off, w[..], i)
    {
      ScheduleStart(bytes, off, i);
      w[i] := WordAt(buf[..], off + i * 4);
    }
    for i := 16 to 64
      invariant buf[..] == bytes && Scheduled(bytes, off, w[..], i)
    {
      ScheduleStep(bytes, off, w[..], i);
      w[i] := NextW(w[i - 16], w[i - 15], w[i - 7], w[i - 2]);
    }
  }

  /** One pass of the loop of lines 39-54. */
  function JsRound(v: Fips180.Vars, k: Word, w: Word): Fips180.Vars {
    var bigS1 := BitXor(BitXor(Rotr(v.e, 6), Rotr(v.e, 11)), Rotr(v.e, 25));
    var t1 := ToUint32(Add(Add(Add(Add(v.h, bigS1), JsCh(v.e, v.f, v.g)), k), w));
    var bigS0 := BitXor(BitXor(Rotr(v.a, 2), Rotr(v.a, 13)), Rotr(v.a, 22));
    var t2 := ToUint32(Add(bigS0, JsMaj(v.a, v.b, v.c)));
    Fips180.Vars(ToUint32(Add(t1, t2)), v.a, v.b, v.c, ToUint32(Add(v.d, t1)), v.e, v.f, v.g)
  }

  lemma FirstTerm(v: Fips180.Vars, k: Word, w: Word)
    ensures var bigS1 := BitXor(BitXor(Rotr(v.e, 6), Rotr(v.e, 11)), Rotr(v.e, 25));
            ToUint32(Add(Add(Add(Add(v.h, bigS1), JsCh(v.e, v.f, v.g)), k), w))
            == Plus(Plus(Plus(Plus(v.h, Fips180.BigSigma1(v.e)), Fips180.Ch(v.e, v.f, v.g)), k), w)
  {
    hide Xor, BitXor, Fips180.Rotr, Rotr, Fips180.Ch, JsCh;
    var bigS1 := BitXor(BitXor(Rotr(v.e, 6), Rotr(v.e, 11)), Rotr(v.e, 25));
    RotrChain(v.e, 6, 11, 25);
    ChOfSigned(v.e, v.f, v.g);
    assert ToUint32(bigS1) == Fips180.BigSigma1(v.e);
    hide Fips180.BigSigma1;
    FirstSum(v.h, bigS1, JsCh(v.e, v.f, v.g), k, w, Fips180.BigSigma1(v.e), Fips180.Ch(v.e, v.f, v.g));
  }

  lemma SecondTerm(v: Fips180.Vars)
    ensures var bigS0 := BitXor(BitXor(Rotr(v.a, 2), Rotr(v.a, 13)), Rotr(v.a, 22));
            ToUint32(Add(bigS0, JsMaj(v.a, v.b, v.c))) == Plus(Fips180.BigSigma0(v.a), Fips180.Maj(v.a, v.b, v.c))
  {
    hide Xor, BitXor, Fips180.Rotr, Rotr, Fips180.Maj, JsMaj;
    var bigS0 := BitXor(BitXor(Rotr(v.a, 2), Rotr(v.a, 13)), Rotr(v.a, 22));
    RotrChain(v.a, 2, 13, 22);
    MajOfSigned(v.a, v.b, v.c);
    assert ToUint32(bigS0) == Fips180.BigSigma0(v.a);
    hide Fips180.BigSigma0;
    SecondSum(bigS0, JsMaj(v.a, v.b, v.c), Fips180.BigSigma0(v.a), Fips180.Maj(v.a, v.b, v.c));
  }

  lemma JsRoundIsRound(v: Fips180.Vars, k: Word, w: Word)
    ensures JsRound(v, k, w) == Fips180.Round(v, k, w)
  {
    hide BitXor, Rotr, JsCh, JsMaj, Fips180.BigSigma0, Fips180.BigSigma1, Fips180.Ch, Fips180.Maj;
    FirstTerm(v, k, w);
    SecondTerm(v);
  }

  lemma FirstSum(h: Word, s: int, c: int, k: Word, w: Word, fs: Word, fc: Word)
    requires ToUint32(s) == fs && ToUint32(c) == fc
    ensures ToUint32(h + s + c + k + w) == Plus(Plus(Plus(Plus(h, fs), fc), k), w)
  {
    WordIsItself(fs);
    WordIsItself(fc);
    WordIsItself(h);
    hide ToUint32, Plus;
    CongruentAdd(h + c + k + w, s, fs);
    CongruentAdd(h + fs + k + w, c, fc);
    PlusOne(h, fs);
    PlusOne(h + fs, fc);
    PlusOne(h + fs + fc, k);
    PlusOne(h + fs + fc + k, w);
    assert h + s + c + k + w == h + c + k + w + s && h + c + k + w + fs == h + fs + k + w + c;
    assert h + fs + k + w + fc == h + fs + fc + k + w;
  }

  lemma SecondSum(s: int, m: int, fs: Word, fm: Word)
    requires ToUint32(s) == fs && ToUint32(m) == fm
    ensures ToUint32(s + m) == Plus(fs, fm)
  {
    WordIsItself(fs);
    WordIsItself(fm);
    hide ToUint32, Plus;
    CongruentAdd(s, m, fm);
    CongruentAdd(fm, s, fs);
    PlusOne(fs, fm);
    assert s + fm == fm + s && fm + fs == fs + fm;
  }

  /** Lines 38-54: the sixty-four rounds on one block. */
  method Compress(buf: array<Byte>, off: nat, w: array<Word>, before: Fips180.Vars) returns (v: Fips180.Vars)
    requires off + 64 <= buf.Length && w.Length == 64 && w as object != buf
    requires Scheduled(buf[..], off, w[..], 64)
    ensures v == Fips180.Rounds(before, buf[..], off, 64)
  {
    hide Fips180.W, Fips180.Round, JsRound;
    v := before;
    for i := 0 to 64
      invariant v == Fips180.Rounds(before, buf[..], off, i)
    {
      JsRoundIsRound(v, Fips180.K[i], w[i]);
      assert w[i] == w[..][i];
      v := JsRound(v, Fips180.K[i], w[i]);
    }
  }

  function AddWord(x: Word, y: Word): (r: Word)
    ensures r == Plus(x, y)
  {
    ToUint32(Add(x, y))
  }

  /** Lines 55-62: the working variables added to the hash value. */
  method AddInto(h: array<Word>, v: Fips180.Vars, ghost before: Fips180.Vars)
    requires h.Length == 8 && h[..] == before.Words()
    modifies h
    ensures h[..] == Fips180.AddVars(before, v).Words()
  {
    hide AddWord, Plus;
    h[0] := AddWord(h[0], v.a);
    h[1] := AddWord(h[1], v.b);
    h[2] := AddWord(h[2], v.c);
    h[3] := AddWord(h[3], v.d);
    h[4] := AddWord(h[4], v.e);
    h[5] := AddWord(h[5], v.f);
    h[6] := AddWord(h[6], v.g);
    h[7] := AddWord(h[7], v.h);
  }

  /** Lines 64-67: the hash value as thirty-two bytes. */
  method Output(h: array<Word>) returns (out: array<Byte>)
    requires h.Length == 8
    ensures out[..] == Fips180.WordsToBytes(h[..])
  {
    out := new Byte[32](_ => 0);
    for i := 0 to 8
      invariant out.Length == 32 && fresh(out)
      invariant out[..4 * i] == Fips180.WordsToBytes(h[..i])
    {
      SetUint32(out, i * 4, h[i]);
      assert h[..i + 1][..i] == h[..i];
      assert out[..4 * (i + 1)] == out[..4 * i] + out[4 * i..4 * i + 4];
      assert ToUint32(h[i]) == h[i];
    }
    assert h[..8] == h[..] && out[..32] == out[..];
  }

  /** Lines 29-63: every block of the buffer in turn. */
  method HashBlocks(buf: array<Byte>) returns (h: array<Word>)
    requires buf.Length % 64 == 0
    ensures h.Length == 8 && h[..] == Fips180.HashAfter(buf[..], buf.Length / 64).Words()
  {
    hide Fips180.W, Fips180.Rounds, Fips180.AddVars;
    h := new Word[] [0x6a09e667, 0xbb67ae85, 0x3c6ef372, 0xa54ff53a,
                     0x510e527f, 0x9b05688c, 0x1f83d9ab, 0x5be0cd19];
    var w := new Word[64](_ => 0);
    var off := 0;
    while off < buf.Length
      invariant off % 64 == 0 && off <= buf.Length
      invariant fresh(h) && fresh(w) && h.Length == 8 && w.Length == 64 && h != w
      invariant h[..] == Fips180.HashAfter(buf[..], off / 64).Words()
    {
      ghost var before := Fips180.HashAfter(buf[..], off / 64);
      assert h[..][0] == h[0] && h[..][1] == h[1] && h[..][2] == h[2] && h[..][3] == h[3];
      assert h[..][4] == h[4] && h[..][5] == h[5] && h[..][6] == h[6] && h[..][7] == h[7];
      Schedule(buf, off, w);
      var v := Compress(buf, off, w, Fips180.Vars(h[0], h[1], h[2], h[3], h[4], h[5], h[6], h[7]));
      AddInto(h, v, before);
      off := off + 64;
    }
  }

  /** The digest of every message whose padded length fits in 32 bits; for any longer
      one the copy into the buffer fails. */
  method Sha256(data: array<Byte>) returns (r: Outcome)
    requires Exact(data.Length + 72)
    ensures r.Digest? <==> data.Length + 72 < 0x1_0000_0000
    ensures r.Digest? ==> r.bytes[..] == Fips180.Hash(data[..])
  {
    hide Total, Fips180.Pad, Fips180.HashAfter;
    TotalIsPaddedLength(data.Length);
    if Total(data.Length) < data.Length {
      return RangeError;
    }
    var buf := FillBuffer(data);
    Fips180.PaddedLength(data[..]);
    assert buf.Length == |buf[..]|;
    var h := HashBlocks(buf);
    var out := Output(h);
    return Digest(out);
  }
}
