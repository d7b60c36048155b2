/** Where the constants of FIPS 180-4 come from: sections 4.2.2 and 5.3.3 define them as the first
    thirty-two bits of the fractional parts of roots of prime numbers. */
module FipsConstants {
  import opened Words
  import opened Fips180

  /** The first sixty-four prime numbers, in rows of eight. */
  const PRIMES0: seq<nat> := [2, 3, 5, 7, 11, 13, 17, 19]
  const PRIMES1: seq<nat> := [23, 29, 31, 37, 41, 43, 47, 53]
  const PRIMES2: seq<nat> := [59, 61, 67, 71, 73, 79, 83, 89]
  const PRIMES3: seq<nat> := [97, 101, 103, 107, 109, 113, 127, 131]
  const PRIMES4: seq<nat> := [137, 139, 149, 151, 157, 163, 167, 173]
  const PRIMES5: seq<nat> := [179, 181, 191, 193, 197, 199, 211, 223]
  const PRIMES6: seq<nat> := [227, 229, 233, 239, 241, 251, 257, 263]
  const PRIMES7: seq<nat> := [269, 271, 277, 281, 283, 293, 307, 311]
  const PRIMES: seq<nat> := PRIMES0 + PRIMES1 + PRIMES2 + PRIMES3 + PRIMES4 + PRIMES5 + PRIMES6 + PRIMES7

  /** `m` is the cube root of `p`, times 2^32 and rounded down. */
  predicate IsCubeRoot(p: nat, m: nat) {
    m * m * m <= p * 0x1_0000_0000_0000_0000_0000_0000 < (m + 1) * (m + 1) * (m + 1)
  }

  /** Likewise the square root. */
  predicate IsSquareRoot(p: nat, m: nat) {
    m * m <= p * 0x1_0000_0000_0000_0000 < (m + 1) * (m + 1)
  }

  /** The whole part of the cube root of a number below 343, and of the square root of one below 25. */
  function CubeFloor(p: nat): nat {
    if p < 8 then 1 else if p < 27 then 2 else if p < 64 then 3 else if p < 125 then 4 else if p < 216 then 5 else 6
  }

  function SquareFloor(p: nat): nat {
    if p < 4 then 1 else if p < 9 then 2 else if p < 16 then 3 else 4
  }

  predicate CubeBits(p: nat, k: Word) {
    IsCubeRoot(p, CubeFloor(p) * 0x1_0000_0000 + k)
  }

  predicate SquareBits(p: nat, k: Word) {
    IsSquareRoot(p, SquareFloor(p) * 0x1_0000_0000 + k)
  }

  predicate RowFits(ps: seq<nat>, ks: seq<Word>) {
    && |ps| == 8 && |ks| == 8
    && CubeBits(ps[0], ks[0]) && CubeBits(ps[1], ks[1]) && CubeBits(ps[2], ks[2]) && CubeBits(ps[3], ks[3])
    && CubeBits(ps[4], ks[4]) && CubeBits(ps[5], ks[5]) && CubeBits(ps[6], ks[6]) && CubeBits(ps[7], ks[7])
  }

  lemma Row0Fits()
    ensures RowFits(PRIMES0, K0)
  {
  }

  lemma Row1Fits()
    ensures RowFits(PRIMES1, K1)
  {
  }

  lemma Row2Fits()
    ensures RowFits(PRIMES2, K2)
  {
  }

  lemma Row3Fits()
    ensures RowFits(PRIMES3, K3)
  {
  }

  lemma Row4Fits()
    ensures RowFits(PRIMES4, K4)
  {
  }

  lemma Row5Fits()
    ensures RowFits(PRIMES5, K5)
  {
  }

  lemma Row6Fits()
    ensures RowFits(PRIMES6, K6)
  {
  }

  lemma Row7Fits()
    ensures RowFits(PRIMES7, K7)
  {
  }

  ghost predicate AllFit(ps: seq<nat>, ks: seq<Word>) {
    |ps| == |ks| && forall i :: 0 <= i < |ps| ==> CubeBits(ps[i], ks[i])
  }

  lemma RowAllFits(ps: seq<nat>, ks: seq<Word>)
    requires RowFits(ps, ks)
    ensures AllFit(ps, ks)
  {
    hide CubeBits;
  }

  lemma AppendRow(ps: seq<nat>, ks: seq<Word>, row: seq<nat>, words: seq<Word>)
    requires AllFit(ps, ks) && RowFits(row, words)
    ensures AllFit(ps + row, ks + words)
  {
    RowAllFits(row, words);
    hide CubeBits, RowFits;
  }

  lemma AllKFit()
    ensures AllFit(PRIMES, K) && |K| == 64
  {
    Row0Fits();
    Row1Fits();
    Row2Fits();
    Row3Fits();
    Row4Fits();
    Row5Fits();
    Row6Fits();
    Row7Fits();
    hide RowFits, AllFit;
    RowAllFits(PRIMES0, K0);
    AppendRow(PRIMES0, K0, PRIMES1, K1);
    AppendRow(PRIMES0 + PRIMES1, K0 + K1, PRIMES2, K2);
    AppendRow(PRIMES0 + PRIMES1 + PRIMES2, K0 + K1 + K2, PRIMES3, K3);
    AppendRow(PRIMES0 + PRIMES1 + PRIMES2 + PRIMES3, K0 + K1 + K2 + K3, PRIMES4, K4);
    AppendRow(PRIMES0 + PRIMES1 + PRIMES2 + PRIMES3 + PRIMES4, K0 + K1 + K2 + K3 + K4, PRIMES5, K5);
    AppendRow(PRIMES0 + PRIMES1 + PRIMES2 + PRIMES3 + PRIMES4 + PRIMES5, K0 + K1 + K2 + K3 + K4 + K5, PRIMES6, K6);
    AppendRow(PRIMES0 + PRIMES1 + PRIMES2 + PRIMES3 + PRIMES4 + PRIMES5 + PRIMES6,
              K0 + K1 + K2 + K3 + K4 + K5 + K6, PRIMES7, K7);
  }

  /** Every K is what section 4.2.2 says: the cube root of its prime, times 2^32 and rounded down,
      is that K and a whole part above its thirty-two bits. */
  lemma KIsCubeRoot(i: nat)
    requires i < 64
    ensures |K| == 64 && |PRIMES| == 64
    ensures exists m: nat :: IsCubeRoot(PRIMES[i], m) && m % 0x1_0000_0000 == K[i]
  {
    AllKFit();
    hide CubeBits;
    BitsAreFraction(PRIMES[i], K[i]);
  }

  lemma BitsAreFraction(p: nat, k: Word)
    requires CubeBits(p, k)
    ensures exists m: nat :: IsCubeRoot(p, m) && m % 0x1_0000_0000 == k
  {
    var m := CubeFloor(p) * 0x1_0000_0000 + k;
    hide IsCubeRoot, CubeFloor;
    ModIs(m, CubeFloor(p), k);
    assert IsCubeRoot(p, m);
  }

  /** Every word of the initial value is what section 5.3.3 says: the square roots of the first
      eight primes. */
  lemma InitialIsSquareRoot(i: nat)
    requires i < 8
    ensures exists m: nat :: IsSquareRoot(PRIMES0[i], m) && m % 0x1_0000_0000 == INITIAL.Words()[i]
  {
    var p, k := PRIMES0[i], INITIAL.Words()[i];
    assert SquareBits(p, k) by {
      SquareRow();
    }
    var m := SquareFloor(p) * 0x1_0000_0000 + k;
    hide IsSquareRoot, SquareFloor;
    ModIs(m, SquareFloor(p), k);
    assert IsSquareRoot(p, m);
  }

  lemma SquareRow()
    ensures forall i :: 0 <= i < 8 ==> SquareBits(PRIMES0[i], INITIAL.Words()[i])
  {
    var w := INITIAL.Words();
    assert SquareBits(2, w[0]) && SquareBits(3, w[1]) && SquareBits(5, w[2]) && SquareBits(7, w[3]);
    assert SquareBits(11, w[4]) && SquareBits(13, w[5]) && SquareBits(17, w[6]) && SquareBits(19, w[7]);
    hide SquareBits;
    assert PRIMES0[0] == 2 && PRIMES0[1] == 3 && PRIMES0[2] == 5 && PRIMES0[3] == 7;
    assert PRIMES0[4] == 11 && PRIMES0[5] == 13 && PRIMES0[6] == 17 && PRIMES0[7] == 19;
  }
}
