/** Base 64 as section 4 of RFC 4648 defines it, with padding. */
module Base64 {
  import opened Words

  type Sextet = x: int | 0 <= x < 64

  predicate IsDigit64(c: char) {
    'A' <= c <= 'Z' || 'a' <= c <= 'z' || '0' <= c <= '9' || c == '+' || c == '/'
  }

  function CharOf(x: Sextet): (c: char)
    ensures IsDigit64(c) && SextetOf(c) == x
  {
    if x < 26 then 'A' + x as char
    else if x < 52 then 'a' + (x - 26) as char
    else if x < 62 then '0' + (x - 52) as char
    else if x == 62 then '+'
    else '/'
  }

  function SextetOf(c: char): Sextet {
    if 'A' <= c <= 'Z' then (c - 'A') as int
    else if 'a' <= c <= 'z' then 26 + (c - 'a') as int
    else if '0' <= c <= '9' then 52 + (c - '0') as int
    else if c == '+' then 62
    else 63
  }

  /** Four digits for three bytes. */
  function Encode3(a: Byte, b: Byte, c: Byte): (s: string)
    ensures |s| == 4 && forall i :: 0 <= i < 4 ==> IsDigit64(s[i])
  {
    [CharOf(a / 4), CharOf(a % 4 * 16 + b / 16), CharOf(b % 16 * 4 + c / 64), CharOf(c % 64)]
  }

  function Encode(bytes: seq<Byte>): string {
    if |bytes| == 0 then ""
    else if |bytes| == 1 then Encode3(bytes[0], 0, 0)[..2] + "=="
    else if |bytes| == 2 then Encode3(bytes[0], bytes[1], 0)[..3] + "="
    else Encode3(bytes[0], bytes[1], bytes[2]) + Encode(bytes[3..])
  }

  function Decode4(w: Sextet, x: Sextet, y: Sextet, z: Sextet): (r: seq<Byte>)
    ensures |r| == 3
  {
    [w * 4 + x / 16, x % 16 * 16 + y / 4, y % 4 * 64 + z]
  }

  /** The number of padding characters at the end, at most two. */
  function Padding(s: string): nat {
    if |s| >= 2 && s[|s| - 2] == '=' && s[|s| - 1] == '=' then 2
    else if |s| >= 1 && s[|s| - 1] == '=' then 1
    else 0
  }

  /** One or more digits, then at most two padding characters. */
  predicate IsShape(s: string) {
    |s| > Padding(s) && forall i :: 0 <= i < |s| - Padding(s) ==> IsDigit64(s[i])
  }

  /** Padding characters read as zero; the bytes they stand for are dropped. */
  function Bytes(s: string): seq<Byte>
    requires |s| % 4 == 0
  {
    if s == "" then []
    else Decode4(SextetOf(Zero(s[0])), SextetOf(Zero(s[1])), SextetOf(Zero(s[2])), SextetOf(Zero(s[3]))) + Bytes(s[4..])
  }

  function Zero(c: char): char {
    if c == '=' then 'A' else c
  }

  function Decode(s: string): seq<Byte>
    requires |s| % 4 == 0
  {
    BytesLength(s);
    Bytes(s)[..|Bytes(s)| - Padding(s)]
  }

  lemma {:induction false} BytesLength(s: string)
    requires |s| % 4 == 0
    ensures |Bytes(s)| == |s| / 4 * 3 && |Bytes(s)| >= Padding(s)
  {
    if s != "" {
      BytesLength(s[4..]);
    }
  }

  lemma {:induction false} EncodedLength(bytes: seq<Byte>)
    ensures |Encode(bytes)| == (|bytes| + 2) / 3 * 4
  {
    hide Encode3;
    if |bytes| > 2 {
      EncodedLength(bytes[3..]);
      GroupsOf(|bytes|);
    }
  }

  lemma GroupsOf(n: nat)
    requires n > 2
    ensures (n + 2) / 3 == (n - 3 + 2) / 3 + 1 && n % 3 == (n - 3) % 3
  {
  }

  lemma Decode4Inverts(a: Byte, b: Byte, c: Byte)
    ensures Decode4(a / 4, a % 4 * 16 + b / 16, b % 16 * 4 + c / 64, c % 64) == [a, b, c]
  {
  }

  /** One group of four digits reads back as its three bytes. */
  lemma GroupReadsBack(a: Byte, b: Byte, c: Byte, rest: string)
    requires |rest| % 4 == 0
    ensures |Encode3(a, b, c) + rest| % 4 == 0 && Bytes(Encode3(a, b, c) + rest) == [a, b, c] + Bytes(rest)
  {
    Decode4Inverts(a, b, c);
    assert (Encode3(a, b, c) + rest)[4..] == rest;
    hide CharOf, SextetOf, Decode4;
  }

  /** A padded group reads back as its bytes and zeros. */
  lemma OneByteReadsBack(a: Byte)
    ensures Bytes(Encode3(a, 0, 0)[..2] + "==") == [a, 0, 0]
  {
    var s := Encode3(a, 0, 0)[..2] + "==";
    assert s == [CharOf(a / 4), CharOf(a % 4 * 16), '=', '='] && s[4..] == "";
    Decode4Inverts(a, 0, 0);
    assert SextetOf('A') == 0;
    hide CharOf, SextetOf, Decode4, Encode3;
  }

  lemma TwoBytesReadBack(a: Byte, b: Byte)
    ensures Bytes(Encode3(a, b, 0)[..3] + "=") == [a, b, 0]
  {
    var s := Encode3(a, b, 0)[..3] + "=";
    assert s == [CharOf(a / 4), CharOf(a % 4 * 16 + b / 16), CharOf(b % 16 * 4), '='] && s[4..] == "";
    Decode4Inverts(a, b, 0);
    assert SextetOf('A') == 0;
    hide CharOf, SextetOf, Decode4, Encode3;
  }

  /** The bytes of the last group that padding stands for. */
  function Lacking(n: nat): nat {
    if n % 3 == 1 then 2 else if n % 3 == 2 then 1 else 0
  }

  /** Encoding gives digits and padding that says how many bytes the last group lacks. */
  lemma {:induction false} EncodedShape(bytes: seq<Byte>)
    requires bytes != []
    ensures IsShape(Encode(bytes)) && Padding(Encode(bytes)) == Lacking(|bytes|)
  {
    if |bytes| > 3 {
      EncodedShape(bytes[3..]);
      EncodedLength(bytes[3..]);
      GroupsOf(|bytes|);
      PrefixedShape(Encode3(bytes[0], bytes[1], bytes[2]), Encode(bytes[3..]));
      hide Encode3, IsShape, Padding;
    } else if |bytes| == 3 {
      assert Encode(bytes) == Encode3(bytes[0], bytes[1], bytes[2]);
      hide Encode3;
    } else {
      hide Encode3;
    }
  }

  lemma PrefixedShape(head: string, rest: string)
    requires IsShape(rest) && |rest| >= 2 && forall i :: 0 <= i < |head| ==> IsDigit64(head[i])
    ensures IsShape(head + rest) && Padding(head + rest) == Padding(rest)
  {
    forall i | 0 <= i < |head + rest| - Padding(rest) ensures IsDigit64((head + rest)[i]) {
      assert i >= |head| ==> (head + rest)[i] == rest[i - |head|];
    }
  }

  lemma {:induction false} BytesOfEncoded(bytes: seq<Byte>)
    ensures |Encode(bytes)| % 4 == 0
    ensures |Bytes(Encode(bytes))| == |bytes| + Lacking(|bytes|) && bytes <= Bytes(Encode(bytes))
  {
    hide Bytes, Encode3;
    if |bytes| == 0 {
      assert Bytes("") == [] by { BytesLength(""); }
    } else if |bytes| == 1 {
      OneByteReadsBack(bytes[0]);
    } else if |bytes| == 2 {
      TwoBytesReadBack(bytes[0], bytes[1]);
    } else {
      BytesOfEncoded(bytes[3..]);
      GroupReadsBack(bytes[0], bytes[1], bytes[2], Encode(bytes[3..]));
      GroupsOf(|bytes|);
      assert bytes == [bytes[0], bytes[1], bytes[2]] + bytes[3..];
    }
  }

  /** Decoding gives back what was encoded. */
  lemma RoundTrip(bytes: seq<Byte>)
    ensures |Encode(bytes)| % 4 == 0 && Decode(Encode(bytes)) == bytes
  {
    BytesOfEncoded(bytes);
    if bytes != [] {
      EncodedShape(bytes);
    }
    hide Bytes, Encode, IsShape, Padding;
  }
}
