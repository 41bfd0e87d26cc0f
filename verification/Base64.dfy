/**
 * Base64 as the server encodes and decodes it (section 4 of RFC 4648).
 *
 * `Encoded` and `Decoded` are the reference definitions, by groups; `Encode` and `Decode` are the
 * byte loops of the source, the second with its 32-bit accumulator that is never reset.
 * A shift is a multiplication or division by a power of two, a mask is a remainder, and an "or"
 * into bits just shifted in as zero is an addition.
 */
module Base64 {
  import opened Wrappers
  import opened Bytes

  const PAD := '='

  datatype Error = InvalidLength | InvalidPadding | InvalidCharacter

  type sextet = x: int | 0 <= x < 64

  /** The character of a six-bit value. */
  function Symbol(v: sextet): char {
    if v < 26 then (0x41 + v) as char
    else if v < 52 then (0x47 + v) as char
    else if v < 62 then (v - 0x04) as char
    else if v == 62 then '+'
    else '/'
  }

  predicate InAlphabet(c: char) {
    'A' <= c <= 'Z' || 'a' <= c <= 'z' || '0' <= c <= '9' || c == '+' || c == '/'
  }

  /** The six-bit value of a character, by the decoder's ranges and offsets. */
  function Value(c: char): sextet
    requires InAlphabet(c)
  {
    if 'A' <= c <= 'Z' then c as int - 0x41
    else if 'a' <= c <= 'z' then c as int - 0x47
    else if '0' <= c <= '9' then c as int + 0x04
    else if c == '+' then 0x3E
    else 0x3F
  }

  lemma SymbolValue(v: sextet)
    ensures InAlphabet(Symbol(v)) && Value(Symbol(v)) == v && Symbol(v) != PAD
  {
  }

  lemma PadIsOutside()
    ensures !InAlphabet(PAD)
  {
  }

  lemma ValueSymbol(c: char)
    requires InAlphabet(c)
    ensures Symbol(Value(c)) == c
  {
  }

  // ----- Regrouping: three bytes are four sextets

  function S0(a: u8): sextet { a / 4 }
  function S1(a: u8, b: u8): sextet { a % 4 * 16 + b / 16 }
  function S2(b: u8, c: u8): sextet { b % 16 * 4 + c / 64 }
  function S3(c: u8): sextet { c % 64 }

  function B0(p: sextet, q: sextet): u8 { p * 4 + q / 16 }
  function B1(q: sextet, r: sextet): u8 { q % 16 * 16 + r / 4 }
  function B2(r: sextet, t: sextet): u8 { r % 4 * 64 + t }

  lemma BytesFromSextets(a: u8, b: u8, c: u8)
    ensures B0(S0(a), S1(a, b)) == a
    ensures B1(S1(a, b), S2(b, c)) == b
    ensures B2(S2(b, c), S3(c)) == c
  {
    var q: int, r: int := S1(a, b), S2(b, c);
    assert q / 16 == a % 4 && q % 16 == b / 16;
    assert r / 4 == b % 16 && r % 4 == c / 64;
  }

  lemma SextetsFromBytes(p: sextet, q: sextet, r: sextet, t: sextet)
    ensures S0(B0(p, q)) == p
    ensures S1(B0(p, q), B1(q, r)) == q
    ensures S2(B1(q, r), B2(r, t)) == r
    ensures S3(B2(r, t)) == t
  {
    var a: int, b: int, c: int := B0(p, q), B1(q, r), B2(r, t);
    assert a / 4 == p && a % 4 == q / 16;
    assert b / 16 == q % 16 && b % 16 == r / 4;
    assert c / 64 == r % 4 && c % 64 == t;
  }

  /** With the last byte cut off, its bits come back as zero. */
  lemma SextetsFromTwoBytes(p: sextet, q: sextet, r: sextet)
    ensures S0(B0(p, q)) == p && S1(B0(p, q), B1(q, r)) == q
    ensures S2(B1(q, r), 0) == r - r % 4
  {
    SextetsFromBytes(p, q, r, 0);
    var b: int := B1(q, r);
    assert b % 16 == r / 4;
  }

  lemma SextetsFromOneByte(p: sextet, q: sextet)
    ensures S0(B0(p, q)) == p && S1(B0(p, q), 0) == q - q % 16
  {
    SextetsFromBytes(p, q, 0, 0);
    var a: int := B0(p, q);
    assert a % 4 == q / 16;
  }

  // ----- Encoding

  function Group3(a: u8, b: u8, c: u8): string {
    [Symbol(S0(a)), Symbol(S1(a, b)), Symbol(S2(b, c)), Symbol(S3(c))]
  }

  function Group2(a: u8, b: u8): string {
    [Symbol(S0(a)), Symbol(S1(a, b)), Symbol(S2(b, 0)), PAD]
  }

  function Group1(a: u8): string {
    [Symbol(S0(a)), Symbol(S1(a, 0)), PAD, PAD]
  }

  function Encoded(x: seq<u8>): string {
    match |x|
    case 0 => ""
    case 1 => Group1(x[0])
    case 2 => Group2(x[0], x[1])
    case _ => Group3(x[0], x[1], x[2]) + Encoded(x[3..])
  }

  method Encode(input: seq<u8>) returns (result: string)
    ensures result == Encoded(input)
  {
    hide Symbol, S0, S1, S2, S3, Encoded;
    result := "";
    var i := 0;
    assert input[0..] == input;
    while i + 2 < |input|
      invariant 0 <= i <= |input|
      invariant Encoded(input) == result + Encoded(input[i..])
    {
      ghost var before := result;
      EncodedGroup(input, i);
      result := result + [Symbol(S0(input[i]))];
      result := result + [Symbol(S1(input[i], input[i + 1]))];
      result := result + [Symbol(S2(input[i + 1], input[i + 2]))];
      result := result + [Symbol(S3(input[i + 2]))];
      assert result == before + Group3(input[i], input[i + 1], input[i + 2]);
      i := i + 3;
    }
    ghost var before := result;
    EncodedEnd(input[i..]);
    match |input| - i {
      case 2 =>
        result := result + [Symbol(S0(input[i]))];
        result := result + [Symbol(S1(input[i], input[i + 1]))];
        result := result + [Symbol(S2(input[i + 1], 0))];
        result := result + [PAD];
        assert result == before + Group2(input[i], input[i + 1]);
      case 1 =>
        result := result + [Symbol(S0(input[i]))];
        result := result + [Symbol(S1(input[i], 0))];
        result := result + [PAD];
        result := result + [PAD];
        assert result == before + Group1(input[i]);
      case _ =>
    }
  }

  lemma EncodedGroup(x: seq<u8>, i: nat)
    requires i + 2 < |x|
    ensures Encoded(x[i..]) == Group3(x[i], x[i + 1], x[i + 2]) + Encoded(x[i + 3..])
  {
    hide Group1, Group2, Group3;
    assert x[i..][3..] == x[i + 3..];
  }

  lemma EncodedEnd(x: seq<u8>)
    requires |x| <= 2
    ensures Encoded(x) == if |x| == 2 then Group2(x[0], x[1]) else if |x| == 1 then Group1(x[0]) else ""
  {
    hide Group1, Group2;
  }

  // ----- Decoding

  /** What the four characters at the front of the remaining input are. */
  datatype Quad =
    | Full(bytes: seq<u8>)
    | Last(bytes: seq<u8>)
    | Bad(error: Error)

  /** Why a character outside the alphabet is rejected. */
  function Rejection(c: char): Error {
    if c == PAD then InvalidPadding else InvalidCharacter
  }

  function FrontQuad(s: string): Quad
    requires |s| >= 4
  {
    if !InAlphabet(s[0]) then Bad(Rejection(s[0]))
    else if !InAlphabet(s[1]) then Bad(Rejection(s[1]))
    else if !InAlphabet(s[2]) then
      if s[2] == PAD && |s| == 4 then Last([B0(Value(s[0]), Value(s[1]))])
      else Bad(Rejection(s[2]))
    else if !InAlphabet(s[3]) then
      if s[3] == PAD && |s| == 4 then Last([B0(Value(s[0]), Value(s[1])), B1(Value(s[1]), Value(s[2]))])
      else Bad(Rejection(s[3]))
    else
      Full([B0(Value(s[0]), Value(s[1])), B1(Value(s[1]), Value(s[2])), B2(Value(s[2]), Value(s[3]))])
  }

  function Prepend(front: seq<u8>, rest: Result<seq<u8>, Error>): Result<seq<u8>, Error> {
    if rest.Failure? then rest else Success(front + rest.value)
  }

  function DecodedQuads(s: string): Result<seq<u8>, Error>
    requires |s| % 4 == 0
  {
    if s == "" then Success([])
    else
      match FrontQuad(s)
      case Bad(e) => Failure(e)
      case Last(bytes) => Success(bytes)
      case Full(bytes) => Prepend(bytes, DecodedQuads(s[4..]))
  }

  function Decoded(s: string): Result<seq<u8>, Error> {
    if |s| % 4 != 0 then Failure(InvalidLength) else DecodedQuads(s)
  }

  /** One turn of the decoder's accumulator: shift six bits in, losing what leaves 32 bits. */
  function Shifted(temp: u32, v: sextet): u32 {
    temp * 64 % TWO32 + v
  }

  /** What a turn loses is a multiple of 2^32. */
  lemma ShiftedLoses(temp: u32, v: sextet) returns (k: nat)
    ensures Shifted(temp, v) == temp * 64 + v - TWO32 * k
  {
    k := temp / 0x400_0000;
    assert temp * 64 == TWO32 * k + temp % 0x400_0000 * 64;
  }

  lemma BytesOfWord(h: int, p: sextet, q: sextet, r: sextet, t: sextet, w: int)
    requires w == 0x100_0000 * h + 0x4_0000 * p + 0x1000 * q + 0x40 * r + t
    ensures w / 0x1_0000 % 0x100 == B0(p, q) && w / 0x100 % 0x100 == B1(q, r) && w % 0x100 == B2(r, t)
  {
    var x0: int, x1: int, x2: int := B0(p, q), B1(q, r), B2(r, t);
    assert w == 0x100_0000 * h + 0x1_0000 * x0 + 0x100 * x1 + x2;
    DivMod(w, 0x100, 0x1_0000 * h + 0x100 * x0 + x1, x2);
    DivMod(w / 0x100, 0x100, 0x100 * h + x0, x1);
    DivMod(w, 0x1_0000, 0x100 * h + x0, 0x100 * x1 + x2);
    DivMod(w / 0x1_0000, 0x100, h, x0);
  }

  /**
   * Whatever earlier groups left in the accumulator, after one group its low 24 bits are the
   * group's sextets, so the bytes taken from it are those of the group alone; likewise for the two
   * sextets that precede a pad, with the pad's own shift included.
   */
  lemma StaleBitsNeverShow(temp: u32, p: sextet, q: sextet, r: sextet, t: sextet)
    ensures var full := Shifted(Shifted(Shifted(Shifted(temp, p), q), r), t);
            && full / 0x1_0000 % 0x100 == B0(p, q)
            && full / 0x100 % 0x100 == B1(q, r)
            && full % 0x100 == B2(r, t)
    ensures var two := Shifted(Shifted(Shifted(temp, p), q), 0);
            two / 0x400 % 0x100 == B0(p, q)
  {
    var t1 := Shifted(temp, p);
    var t2 := Shifted(t1, q);
    var t3 := Shifted(t2, r);
    var k1 := ShiftedLoses(temp, p);
    var k2 := ShiftedLoses(t1, q);
    var k3 := ShiftedLoses(t2, r);
    var k4 := ShiftedLoses(t3, t);
    BytesOfWord(temp - 0x100 * (0x4_0000 * k1 + 0x1000 * k2 + 0x40 * k3 + k4), p, q, r, t, Shifted(t3, t));
    var k5 := ShiftedLoses(t2, 0);
    var h := temp - 0x4000 * (0x1000 * k1 + 0x40 * k2 + k5);
    var two: int := Shifted(t2, 0);
    assert two == 0x4_0000 * h + 0x1000 * p + 0x40 * q;
    var x: int := B0(p, q);
    DivMod(two, 0x400, 0x100 * h + x, 0x40 * (q % 16));
    DivMod(two / 0x400, 0x100, h, x);
  }

  /** The accumulator after the first `i` characters of a group. */
  function Accumulated(temp: u32, quad: string, i: nat): u32
    requires i <= |quad| && forall k :: 0 <= k < i ==> InAlphabet(quad[k])
  {
    if i == 0 then temp else Shifted(Accumulated(temp, quad, i - 1), Value(quad[i - 1]))
  }

  /** The bytes the decoder takes from its accumulator, for each length of group. */
  lemma AccumulatedBytes(start: u32, s: string, i: nat)
    requires 2 <= i <= 4 <= |s| && forall k :: 0 <= k < i ==> InAlphabet(s[k])
    ensures var temp := Accumulated(start, s, i);
            match i
            case 4 =>
              && temp / 0x1_0000 % 0x100 == B0(Value(s[0]), Value(s[1]))
              && temp / 0x100 % 0x100 == B1(Value(s[1]), Value(s[2]))
              && temp % 0x100 == B2(Value(s[2]), Value(s[3]))
            case 3 =>
              && Shifted(temp, 0) / 0x1_0000 % 0x100 == B0(Value(s[0]), Value(s[1]))
              && Shifted(temp, 0) / 0x100 % 0x100 == B1(Value(s[1]), Value(s[2]))
            case _ =>
              Shifted(temp, 0) / 0x400 % 0x100 == B0(Value(s[0]), Value(s[1]))
  {
    hide InAlphabet, Value, B0, B1, B2, Shifted;
    assert Accumulated(start, s, 1) == Shifted(start, Value(s[0]));
    assert Accumulated(start, s, 2) == Shifted(Accumulated(start, s, 1), Value(s[1]));
    if i >= 3 {
      assert Accumulated(start, s, 3) == Shifted(Accumulated(start, s, 2), Value(s[2]));
    }
    StaleBitsNeverShow(start, Value(s[0]), Value(s[1]),
                       if i >= 3 then Value(s[2]) else 0, if i == 4 then Value(s[3]) else 0);
  }

  /** The group breaks off at its first character outside the alphabet. */
  lemma QuadBreaks(s: string, i: nat)
    requires |s| >= 4 && i < 4 && !InAlphabet(s[i]) && forall k :: 0 <= k < i ==> InAlphabet(s[k])
    ensures i == 2 && s[i] == PAD && |s| == 4 ==>
              FrontQuad(s) == Last([B0(Value(s[0]), Value(s[1]))])
    ensures i == 3 && s[i] == PAD && |s| == 4 ==>
              FrontQuad(s) == Last([B0(Value(s[0]), Value(s[1])), B1(Value(s[1]), Value(s[2]))])
    ensures i < 2 || s[i] != PAD || |s| != 4 ==> FrontQuad(s) == Bad(Rejection(s[i]))
  {
    hide InAlphabet, Value, B0, B1, B2;
  }

  lemma QuadCompletes(s: string)
    requires |s| >= 4 && forall k :: 0 <= k < 4 ==> InAlphabet(s[k])
    ensures FrontQuad(s) == Full([B0(Value(s[0]), Value(s[1])), B1(Value(s[1]), Value(s[2])),
                                  B2(Value(s[2]), Value(s[3]))])
  {
    hide InAlphabet, Value, B0, B1, B2;
  }

  /** How one group moves what is left to decode into what is decoded. */
  lemma DecodedQuad(decoded: seq<u8>, s: string)
    requires |s| % 4 == 0
    ensures s == "" ==> Prepend(decoded, DecodedQuads(s)) == Success(decoded)
    ensures s != "" ==>
              Prepend(decoded, DecodedQuads(s)) ==
              match FrontQuad(s)
              case Full(bytes) => Prepend(decoded + bytes, DecodedQuads(s[4..]))
              case Last(bytes) => Success(decoded + bytes)
              case Bad(e) => Failure(e)
  {
    hide FrontQuad;
    assert decoded + [] == decoded;
    if s != "" && FrontQuad(s).Full? && DecodedQuads(s[4..]).Success? {
      var bytes, rest := FrontQuad(s).bytes, DecodedQuads(s[4..]).value;
      assert decoded + (bytes + rest) == decoded + bytes + rest;
    }
  }

  method Decode(input: string) returns (result: Result<seq<u8>, Error>)
    ensures result == Decoded(input)
  {
    hide Value, InAlphabet, B0, B1, B2, DecodedQuads, FrontQuad, Prepend, Shifted;
    if |input| % 4 != 0 {
      return Failure(InvalidLength);
    }
    var decoded: seq<u8> := [];
    var temp: u32 := 0;
    var it := 0;
    NothingDecodedYet(input);
    while it < |input|
      invariant 0 <= it <= |input| && it % 4 == 0
      invariant DecodedQuads(input) == Prepend(decoded, DecodedQuads(input[it..]))
    {
      ghost var before, start, rest := decoded, temp, input[it..];
      DecodedQuad(decoded, rest);
      for i := 0 to 4
        invariant it == |input| - |rest| + i
        invariant forall k :: 0 <= k < i ==> InAlphabet(rest[k])
        invariant temp == Accumulated(start, rest, i) && decoded == before
      {
        assert input[it] == rest[i];
        if InAlphabet(input[it]) {
          temp := Shifted(temp, Value(input[it]));
        } else {
          QuadBreaks(rest, i);
          if input[it] == PAD {
            match |input| - it {
              case 1 =>
                AccumulatedBytes(start, rest, 3);
                temp := Shifted(temp, 0);
                decoded := decoded + [temp / 0x1_0000 % 0x100];
                decoded := decoded + [temp / 0x100 % 0x100];
                assert decoded == before + FrontQuad(rest).bytes;
                return Success(decoded);
              case 2 =>
                AccumulatedBytes(start, rest, 2);
                temp := Shifted(temp, 0);
                decoded := decoded + [temp / 0x400 % 0x100];
                return Success(decoded);
              case _ =>
                return Failure(InvalidPadding);
            }
          } else {
            return Failure(InvalidCharacter);
          }
        }
        it := it + 1;
      }
      QuadCompletes(rest);
      AccumulatedBytes(start, rest, 4);
      decoded := decoded + [temp / 0x1_0000 % 0x100];
      decoded := decoded + [temp / 0x100 % 0x100];
      decoded := decoded + [temp % 0x100];
      assert decoded == before + FrontQuad(rest).bytes && rest[4..] == input[it..];
    }
    DecodedQuad(decoded, input[it..]);
    return Success(decoded);
  }

  lemma NothingDecodedYet(input: string)
    requires |input| % 4 == 0
    ensures DecodedQuads(input) == Prepend([], DecodedQuads(input[0..]))
  {
    assert input[0..] == input;
    assert DecodedQuads(input).Success? ==> [] + DecodedQuads(input).value == DecodedQuads(input).value;
  }

  // ----- Theorems

  lemma {:induction false} EncodedLength(x: seq<u8>)
    ensures |Encoded(x)| == (|x| + 2) / 3 * 4
  {
    hide Symbol, S0, S1, S2, S3;
    if |x| >= 3 {
      EncodedLength(x[3..]);
    }
  }

  /** Decoding undoes encoding, for every byte string. */
  lemma {:induction false} DecodeEncode(x: seq<u8>)
    ensures Decoded(Encoded(x)) == Success(x)
  {
    hide Symbol, Value, InAlphabet, S0, S1, S2, S3, FrontQuad, Group1, Group2;
    EncodedLength(x);
    match |x| {
      case 0 =>
      case 1 =>
        QuadOfGroup1(x[0]);
        assert x == [x[0]];
      case 2 =>
        QuadOfGroup2(x[0], x[1]);
        assert x == [x[0], x[1]];
      case _ =>
        EncodedLength(x[3..]);
        DecodeEncode(x[3..]);
        QuadOfGroup3(x[0], x[1], x[2], Encoded(x[3..]));
        assert Encoded(x)[4..] == Encoded(x[3..]);
        assert [x[0], x[1], x[2]] + x[3..] == x;
    }
  }

  lemma QuadOfGroup1(a: u8)
    ensures FrontQuad(Group1(a)) == Last([a])
  {
    hide Symbol, Value, InAlphabet, S0, S1, S2, S3, B0, B1, B2;
    PadIsOutside();
    BytesFromSextets(a, 0, 0);
    SymbolValue(S0(a));
    SymbolValue(S1(a, 0));
  }

  lemma QuadOfGroup2(a: u8, b: u8)
    ensures FrontQuad(Group2(a, b)) == Last([a, b])
  {
    hide Symbol, Value, InAlphabet, S0, S1, S2, S3, B0, B1, B2;
    PadIsOutside();
    BytesFromSextets(a, b, 0);
    SymbolValue(S0(a));
    SymbolValue(S1(a, b));
    SymbolValue(S2(b, 0));
  }

  lemma QuadOfGroup3(a: u8, b: u8, c: u8, rest: string)
    ensures FrontQuad(Group3(a, b, c) + rest) == Full([a, b, c])
  {
    hide Symbol, Value, InAlphabet, S0, S1, S2, S3, B0, B1, B2;
    BytesFromSextets(a, b, c);
    SymbolValue(S0(a));
    SymbolValue(S1(a, b));
    SymbolValue(S2(b, c));
    SymbolValue(S3(c));
  }

  /** Exactly the inputs the decoder accepts: a pad may stand last, or last but one. */
  predicate Decodable(s: string) {
    && |s| % 4 == 0
    && (forall i :: 0 <= i < |s| - 2 ==> InAlphabet(s[i]))
    && (|s| > 0 ==>
          || s[|s| - 2] == PAD
          || (InAlphabet(s[|s| - 2]) && (s[|s| - 1] == PAD || InAlphabet(s[|s| - 1]))))
  }

  lemma {:induction false} DecodeSucceedsExactly(s: string)
    ensures Decoded(s).Success? <==> Decodable(s)
  {
    if |s| % 4 == 0 && |s| > 4 {
      DecodeSucceedsExactly(s[4..]);
      DecodableTail(s);
    } else if |s| == 4 {
      assert DecodedQuads(s[4..]) == Success([]);
    }
  }

  lemma DecodableTail(s: string)
    requires |s| % 4 == 0 && |s| > 4
    ensures Decodable(s) <==> FrontQuad(s).Full? && Decodable(s[4..])
  {
    var t := s[4..];
    assert s[|s| - 2] == t[|t| - 2] && s[|s| - 1] == t[|t| - 1];
    assert forall i :: 0 <= i < |t| - 2 ==> t[i] == s[i + 4];
    assert forall i :: 4 <= i < |s| - 2 ==> s[i] == t[i - 4];
  }

  /** A rejected input is blamed on its first character outside the alphabet. */
  lemma {:induction false} DecodeBlamesFirst(s: string) returns (p: nat)
    requires |s| % 4 == 0 && Decoded(s).Failure?
    ensures p < |s| && !InAlphabet(s[p]) && forall i :: 0 <= i < p ==> InAlphabet(s[i])
    ensures Decoded(s).error == if s[p] == '=' then InvalidPadding else InvalidCharacter
  {
    if FrontQuad(s).Bad? {
      p := if !InAlphabet(s[0]) then 0 else if !InAlphabet(s[1]) then 1 else if !InAlphabet(s[2]) then 2 else 3;
    } else {
      var q := DecodeBlamesFirst(s[4..]);
      assert forall i :: 4 <= i < q + 4 ==> s[i] == s[4..][i - 4];
      p := q + 4;
    }
  }

  /** The number of trailing pads the decoder subtracts when it reserves its output. */
  function Padding(s: string): nat
    requires |s| % 4 == 0
  {
    if s == "" then 0
    else (if s[|s| - 1] == PAD then 1 else 0) + (if s[|s| - 2] == PAD then 1 else 0)
  }

  predicate ProperlyPadded(s: string)
    requires |s| % 4 == 0
  {
    s != "" && s[|s| - 2] == PAD ==> s[|s| - 1] == PAD
  }

  /** The output never outgrows the reservation, and fills it exactly when the padding is proper. */
  lemma {:induction false} DecodedSize(s: string)
    requires Decoded(s).Success?
    ensures |Decoded(s).value| <= |s| / 4 * 3 - Padding(s)
    ensures |Decoded(s).value| == |s| / 4 * 3 - Padding(s) <==> ProperlyPadded(s)
  {
    if |s| > 4 {
      var t := s[4..];
      DecodedSize(t);
      assert s[|s| - 2] == t[|t| - 2] && s[|s| - 1] == t[|t| - 1];
    } else if |s| == 4 {
      assert DecodedQuads(s[4..]) == Success([]);
    }
  }

  /** Proper padding, and no bits dropped by it (section 3.5 of RFC 4648). */
  predicate Canonical(s: string) {
    && Decodable(s)
    && ProperlyPadded(s)
    && (s != "" && s[|s| - 1] == PAD ==>
          if s[|s| - 2] == PAD then Value(s[|s| - 3]) % 16 == 0 else Value(s[|s| - 2]) % 4 == 0)
  }

  /** Re-encoding what was decoded gives the input back exactly on canonical input. */
  lemma {:induction false} EncodeDecode(s: string)
    requires Decoded(s).Success?
    ensures Encoded(Decoded(s).value) == s <==> Canonical(s)
  {
    hide Encoded, DecodedQuads, FrontQuad, Decodable, Canonical;
    DecodeSucceedsExactly(s);
    NothingEncoded();
    DecodableLength(s);
    if |s| > 4 {
      FrontIsFull(s);
      EncodeDecode(s[4..]);
      EncodeDecodeMore(s);
    } else if |s| == 4 {
      EncodeLastQuad(s);
    }
  }

  lemma NothingEncoded()
    ensures Decoded("") == Success([]) && Encoded([]) == "" && Canonical("")
  {
  }

  lemma DecodableLength(s: string)
    requires Decodable(s)
    ensures |s| % 4 == 0
  {
  }

  lemma FrontIsFull(s: string)
    requires |s| > 4 && Decoded(s).Success?
    ensures |s| % 4 == 0 && FrontQuad(s).Full? && Decodable(s) && Decoded(s[4..]).Success?
  {
    hide FrontQuad, Decodable;
    DecodeSucceedsExactly(s);
    DecodeSucceedsExactly(s[4..]);
    DecodableTail(s);
  }

  /** The first four characters come back as they are; it is up to the rest. */
  lemma EncodeDecodeMore(s: string)
    requires |s| > 4 && |s| % 4 == 0 && Decoded(s).Success? && FrontQuad(s).Full? && Decodable(s)
    requires Decoded(s[4..]).Success? && (Encoded(Decoded(s[4..]).value) == s[4..] <==> Canonical(s[4..]))
    ensures Encoded(Decoded(s).value) == s <==> Canonical(s)
  {
    hide Encoded, Decoded, FrontQuad, Decodable, Canonical;
    CanonicalTail(s);
    EncodeFullQuad(s);
    var front, rest := s[..4], Encoded(Decoded(s[4..]).value);
    assert s == front + s[4..];
    assert (front + rest)[4..] == rest;
  }

  lemma CanonicalTail(s: string)
    requires |s| % 4 == 0 && |s| > 4 && Decodable(s)
    ensures Decodable(s[4..]) && (Canonical(s) <==> Canonical(s[4..]))
  {
    hide Value, InAlphabet, FrontQuad;
    DecodableTail(s);
    var t := s[4..];
    assert s[|s| - 1] == t[|t| - 1] && s[|s| - 2] == t[|t| - 2] && s[|s| - 3] == t[|t| - 3];
  }

  lemma DecodedFront(s: string)
    requires |s| >= 4 && Decoded(s).Success? && FrontQuad(s).Full?
    ensures Decoded(s[4..]).Success? && Decoded(s).value == FrontQuad(s).bytes + Decoded(s[4..]).value
  {
    hide FrontQuad;
  }

  lemma EncodedFront(a: u8, b: u8, c: u8, rest: seq<u8>)
    ensures Encoded([a, b, c] + rest) == Group3(a, b, c) + Encoded(rest)
  {
    hide Group3, Encoded;
    var x := [a, b, c] + rest;
    EncodedGroup(x, 0);
    assert x[0..] == x && x[3..] == rest;
  }

  lemma EncodeFullQuad(s: string)
    requires |s| >= 4 && Decoded(s).Success? && FrontQuad(s).Full?
    ensures Decoded(s[4..]).Success?
    ensures Encoded(Decoded(s).value) == s[..4] + Encoded(Decoded(s[4..]).value)
  {
    hide Symbol, Value, InAlphabet, B0, B1, B2, Group3, Encoded, Decoded, FrontQuad;
    FullQuad(s);
    DecodedFront(s);
    GroupOfQuad(s[0], s[1], s[2], s[3]);
    var bytes := FrontQuad(s).bytes;
    EncodedFront(bytes[0], bytes[1], bytes[2], Decoded(s[4..]).value);
    assert s[..4] == [s[0], s[1], s[2], s[3]];
  }

  lemma FullQuad(s: string)
    requires |s| >= 4 && FrontQuad(s).Full?
    ensures InAlphabet(s[0]) && InAlphabet(s[1]) && InAlphabet(s[2]) && InAlphabet(s[3])
    ensures FrontQuad(s).bytes
            == [B0(Value(s[0]), Value(s[1])), B1(Value(s[1]), Value(s[2])), B2(Value(s[2]), Value(s[3]))]
  {
    hide Value, InAlphabet, B0, B1, B2;
  }

  lemma GroupOfQuad(c0: char, c1: char, c2: char, c3: char)
    requires InAlphabet(c0) && InAlphabet(c1) && InAlphabet(c2) && InAlphabet(c3)
    ensures Group3(B0(Value(c0), Value(c1)), B1(Value(c1), Value(c2)), B2(Value(c2), Value(c3))) == [c0, c1, c2, c3]
  {
    SextetsFromBytes(Value(c0), Value(c1), Value(c2), Value(c3));
    ValueSymbol(c0);
    ValueSymbol(c1);
    ValueSymbol(c2);
    ValueSymbol(c3);
  }

  lemma EncodeLastQuad(s: string)
    requires |s| == 4 && Decoded(s).Success?
    ensures Encoded(Decoded(s).value) == s <==> Canonical(s)
  {
    hide Symbol, Value, InAlphabet, S0, S1, S2, S3, B0, B1, B2;
    PadIsOutside();
    DecodeSucceedsExactly(s);
    assert DecodedQuads(s[4..]) == Success([]);
    if FrontQuad(s).Full? {
      EncodeFullQuad(s);
      assert s[..4] == s;
    } else if s[2] == PAD {
      SextetsFromOneByte(Value(s[0]), Value(s[1]));
      ValueSymbol(s[0]);
      ValueSymbol(s[1]);
      SymbolValue(Value(s[1]) - Value(s[1]) % 16);
    } else {
      SextetsFromTwoBytes(Value(s[0]), Value(s[1]), Value(s[2]));
      ValueSymbol(s[0]);
      ValueSymbol(s[1]);
      ValueSymbol(s[2]);
      SymbolValue(Value(s[2]) - Value(s[2]) % 4);
    }
  }
}
