/** JavaScript number arithmetic on integers: doubles that hold an exact integer,
    and the operators that first truncate their operands to 32 bits. */
module JsNumbers {
  import opened Words

  /** Integers up to this size are exact in a double. */
  const MAX_SAFE: int := 0x1F_FFFF_FFFF_FFFF

  predicate Exact(n: int) {
    -MAX_SAFE <= n <= MAX_SAFE
  }

  /** A sum that a double holds exactly; the caller shows that it does. */
  function Add(x: int, y: int): int
    requires Exact(x + y)
  {
    x + y
  }

  function ToUint32(n: int): Word {
    n % 0x1_0000_0000
  }

  function ToInt32(n: int): (r: int)
    ensures -0x8000_0000 <= r < 0x8000_0000
  {
    var u := ToUint32(n);
    if u >= 0x8000_0000 then u - 0x1_0000_0000 else u
  }

  function BitOr(x: int, y: int): int { ToInt32(Or(ToUint32(x), ToUint32(y))) }

  function BitAnd(x: int, y: int): int { ToInt32(And(ToUint32(x), ToUint32(y))) }

  function BitXor(x: int, y: int): int { ToInt32(Xor(ToUint32(x), ToUint32(y))) }

  function BitNot(x: int): int { ToInt32(Not(ToUint32(x))) }

  /** `x << n`: a signed result. */
  function ShiftLeft(x: int, n: nat): int
    requires n < 32
  {
    ToInt32(Shl(ToUint32(x), n))
  }

  /** `x >> n`: the signed 32-bit value halved `n` times, rounding down. */
  function ShiftRight(x: int, n: nat): int
    requires n < 32
  {
    Halve(ToInt32(x), n)
  }

  function Halve(x: int, n: nat): int
    decreases n
  {
    if n == 0 then x else Halve(x / 2, n - 1)
  }

  /** `x >>> n`: the unsigned 32-bit value shifted right. */
  function ShiftRightZero(x: int, n: nat): Word
    requires n < 32
  {
    Shr(ToUint32(x), n)
  }

  /** Reading a signed result back as unsigned loses nothing. */
  lemma SignedThenUnsigned(n: int)
    ensures ToUint32(ToInt32(n)) == ToUint32(n)
  {
  }

  /** `>>> 0` of a sum is the modular sum of the `>>> 0` of its terms. */
  lemma SumModulo(x: int, y: int)
    ensures ToUint32(x + y) == Plus(ToUint32(x), ToUint32(y))
  {
  }
}
