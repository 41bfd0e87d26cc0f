/** Base64, character by character and byte by byte: digits of 24-bit numbers over the alphabet of RFC 4648. */
module Base64Digits {
  import opened Wrappers
  import opened Bytes
  import opened Base64

  /** The alphabet of table 1 in section 4 of RFC 4648. */
  const ALPHABET := "ABCDEFGHIJKLMNOPQRSTUVWXYZ" + "abcdefghijklmnopqrstuvwxyz" + "0123456789+/"

  lemma SymbolsAreTheAlphabet(v: sextet)
    ensures |ALPHABET| == 64 && Symbol(v) == ALPHABET[v]
  {
    match v
    case 0 => case 1 => case 2 => case 3 => case 4 => case 5 => case 6 => case 7 =>
    case 8 => case 9 => case 10 => case 11 => case 12 => case 13 => case 14 => case 15 =>
    case 16 => case 17 => case 18 => case 19 => case 20 => case 21 => case 22 => case 23 =>
    case 24 => case 25 => case 26 => case 27 => case 28 => case 29 => case 30 => case 31 =>
    case 32 => case 33 => case 34 => case 35 => case 36 => case 37 => case 38 => case 39 =>
    case 40 => case 41 => case 42 => case 43 => case 44 => case 45 => case 46 => case 47 =>
    case 48 => case 49 => case 50 => case 51 => case 52 => case 53 => case 54 => case 55 =>
    case 56 => case 57 => case 58 => case 59 => case 60 => case 61 => case 62 => case 63 =>
  }

  /** The decoder's ranges accept exactly the alphabet, and give each character its place in it. */
  lemma ValuesAreTheAlphabet(c: char)
    ensures InAlphabet(c) <==> c in ALPHABET
    ensures InAlphabet(c) ==> |ALPHABET| == 64 && ALPHABET[Value(c)] == c
  {
    hide ALPHABET, Symbol, Value, InAlphabet;
    SymbolsAreTheAlphabet(0);
    if InAlphabet(c) {
      ValueSymbol(c);
      SymbolsAreTheAlphabet(Value(c));
    }
    if c in ALPHABET {
      var i :| 0 <= i < |ALPHABET| && ALPHABET[i] == c;
      SymbolsAreTheAlphabet(i);
      SymbolValue(i);
    }
  }

  // ----- Encoding

  /** Three bytes as a number, the first the most significant. */
  function Number(a: u8, b: u8, c: u8): nat {
    0x1_0000 * a + 0x100 * b + c
  }

  lemma Digits(a: u8, b: u8, c: u8)
    ensures var n := Number(a, b, c);
            && S0(a) == n / 0x4_0000 && S1(a, b) == n / 0x1000 % 64
            && S2(b, c) == n / 0x40 % 64 && S3(c) == n % 64
  {
    var n: int, s0: int, s1: int, s2: int, s3: int := Number(a, b, c), S0(a), S1(a, b), S2(b, c), S3(c);
    assert n == 0x4_0000 * s0 + 0x1000 * s1 + 0x40 * s2 + s3;
    DivMod(n, 64, 0x1000 * s0 + 64 * s1 + s2, s3);
    DivMod(n / 64, 64, 64 * s0 + s1, s2);
    DivMod(n, 0x1000, 64 * s0 + s1, 64 * s2 + s3);
    DivMod(n / 0x1000, 64, s0, s1);
    DivMod(n, 0x4_0000, s0, 0x1000 * s1 + 64 * s2 + s3);
  }

  /** The byte at `i`, or zero past the end. */
  function ByteAt(x: seq<u8>, i: nat): u8 {
    if i < |x| then x[i] else 0
  }

  /** What the four characters of a group are: the base-64 digits of its three bytes, or pads. */
  ghost predicate GroupAt(x: seq<u8>, encoded: string, g: nat)
    requires 4 * g + 3 < |encoded|
  {
    var n := Number(ByteAt(x, 3 * g), ByteAt(x, 3 * g + 1), ByteAt(x, 3 * g + 2));
    && |ALPHABET| == 64
    && encoded[4 * g] == ALPHABET[n / 0x4_0000 % 64]
    && encoded[4 * g + 1] == ALPHABET[n / 0x1000 % 64]
    && encoded[4 * g + 2] == (if 3 * g + 1 < |x| then ALPHABET[n / 0x40 % 64] else '=')
    && encoded[4 * g + 3] == (if 3 * g + 2 < |x| then ALPHABET[n % 64] else '=')
  }

  lemma FirstGroup(x: seq<u8>)
    requires x != []
    ensures |Encoded(x)| >= 4 && GroupAt(x, Encoded(x), 0)
  {
    hide Symbol, Number, S0, S1, S2, S3;
    var a, b, c := x[0], ByteAt(x, 1), ByteAt(x, 2);
    var n := Number(a, b, c);
    Digits(a, b, c);
    SmallNumber(a, b, c);
    SymbolsAreTheAlphabet(S0(a));
    SymbolsAreTheAlphabet(S1(a, b));
    SymbolsAreTheAlphabet(S2(b, c));
    SymbolsAreTheAlphabet(S3(c));
  }

  lemma SmallNumber(a: u8, b: u8, c: u8)
    ensures Number(a, b, c) / 0x4_0000 % 64 == Number(a, b, c) / 0x4_0000
  {
    Digits(a, b, c);
    var q: int := S0(a);
    DivMod(q, 64, 0, q);
  }

  /** Every group of characters holds the digits of its group of bytes. */
  lemma {:induction false} EncodedAt(x: seq<u8>, g: nat)
    requires 3 * g < |x|
    ensures 4 * g + 3 < |Encoded(x)| && GroupAt(x, Encoded(x), g)
    decreases g
  {
    hide Encoded, GroupAt;
    if g == 0 {
      FirstGroup(x);
    } else {
      EncodedAt(x[3..], g - 1);
      EncodedTail(x);
      GroupAfter(x, Encoded(x), g);
    }
  }

  lemma GroupAfter(x: seq<u8>, encoded: string, g: nat)
    requires |x| >= 3 && g > 0 && 4 * g + 3 < |encoded| && GroupAt(x[3..], encoded[4..], g - 1)
    ensures GroupAt(x, encoded, g)
  {
    hide ALPHABET, Number;
    var i, k := 3 * g, 4 * g;
    assert ByteAt(x, i) == ByteAt(x[3..], i - 3) && ByteAt(x, i + 1) == ByteAt(x[3..], i - 2);
    assert ByteAt(x, i + 2) == ByteAt(x[3..], i - 1);
    assert encoded[k] == encoded[4..][k - 4] && encoded[k + 1] == encoded[4..][k - 3];
    assert encoded[k + 2] == encoded[4..][k - 2] && encoded[k + 3] == encoded[4..][k - 1];
  }

  lemma EncodedTail(x: seq<u8>)
    requires |x| >= 3
    ensures |Encoded(x)| >= 4 && Encoded(x)[4..] == Encoded(x[3..])
  {
    hide Symbol, S0, S1, S2, S3;
  }

  // ----- Decoding

  /** The place in the alphabet of the character at `i`; zero for a pad, for what follows it and past the end. */
  function DigitAt(s: string, i: nat): sextet {
    if i < |s| && InAlphabet(s[i]) then Value(s[i]) else 0
  }

  /** Four characters as a number, the first the most significant digit. */
  function QuadNumber(s: string, g: nat): nat {
    0x4_0000 * DigitAt(s, 4 * g) + 0x1000 * DigitAt(s, 4 * g + 1) + 0x40 * DigitAt(s, 4 * g + 2) + DigitAt(s, 4 * g + 3)
  }

  function ByteOf(n: nat, k: nat): u8 {
    if k == 0 then n / 0x1_0000 % 0x100 else if k == 1 then n / 0x100 % 0x100 else n % 0x100
  }

  lemma QuadBytes(s: string)
    requires |s| >= 4
    ensures var n := QuadNumber(s, 0);
            && ByteOf(n, 0) == B0(DigitAt(s, 0), DigitAt(s, 1))
            && ByteOf(n, 1) == B1(DigitAt(s, 1), DigitAt(s, 2))
            && ByteOf(n, 2) == B2(DigitAt(s, 2), DigitAt(s, 3))
  {
    hide DigitAt, B0, B1, B2;
    BytesOfWord(0, DigitAt(s, 0), DigitAt(s, 1), DigitAt(s, 2), DigitAt(s, 3), QuadNumber(s, 0));
  }

  lemma FirstQuad(s: string, k: nat)
    requires |s| >= 4 && !FrontQuad(s).Bad? && k < |FrontQuad(s).bytes|
    ensures |FrontQuad(s).bytes| <= 3 && FrontQuad(s).bytes[k] == ByteOf(QuadNumber(s, 0), k)
  {
    hide B0, B1, B2, Value, InAlphabet, ByteOf, QuadNumber;
    QuadBytes(s);
  }

  /** Every byte decoded is a byte of the number its four characters stand for, canonical or not. */
  lemma {:induction false} DecodedAt(s: string, j: nat)
    requires Decoded(s).Success? && j < |Decoded(s).value|
    ensures Decoded(s).value[j] == ByteOf(QuadNumber(s, j / 3), j % 3)
    decreases |s|
  {
    hide FrontQuad, ByteOf, QuadNumber;
    if j < 3 && (FrontQuad(s).Last? || j < |FrontQuad(s).bytes|) {
      DivMod(j, 3, 0, j);
      FirstQuad(s, j);
    } else if FrontQuad(s).Full? {
      FullIsThree(s);
      DecodedAt(s[4..], j - 3);
      LaterQuad(s, (j - 3) / 3);
      DivMod(j, 3, (j - 3) / 3 + 1, (j - 3) % 3);
    } else {
      LastIsShort(s);
    }
  }

  lemma FullIsThree(s: string)
    requires |s| >= 4
    ensures FrontQuad(s).Full? ==> |FrontQuad(s).bytes| == 3
  {
  }

  lemma LastIsShort(s: string)
    requires |s| >= 4
    ensures FrontQuad(s).Last? ==> |FrontQuad(s).bytes| < 3
  {
  }

  lemma LaterQuad(s: string, g: nat)
    requires |s| >= 4
    ensures QuadNumber(s[4..], g) == QuadNumber(s, g + 1)
  {
    hide Value, InAlphabet;
  }

  /** The length is tested first, and nothing else is then. */
  lemma BadLength(s: string)
    ensures Decoded(s) == Failure(InvalidLength) <==> |s| % 4 != 0
  {
    if |s| % 4 == 0 && Decoded(s).Failure? {
      var p := DecodeBlamesFirst(s);
    }
  }
}
