/** Fixed-width unsigned integers and their little-endian byte images. */
module Bytes {

  type u8 = x: int | 0 <= x < 0x100
  type u32 = x: int | 0 <= x < 0x1_0000_0000
  type u64 = x: int | 0 <= x < 0x1_0000_0000_0000_0000

  const TWO32 := 0x1_0000_0000
  const TWO64 := 0x1_0000_0000_0000_0000

  /** The quotient and remainder of a division are the only ones that fit. */
  lemma DivMod(x: int, d: int, q: int, r: int)
    requires d > 0 && x == d * q + r && 0 <= r < d
    ensures x / d == q && x % d == r
  {
    var k := x / d - q;
    assert d * k == r - x % d;
    assert k >= 1 ==> d * k >= d;
    assert k <= -1 ==> d * k <= -d;
  }

  /** How many values `n` bytes can hold. */
  function Range(n: nat): nat {
    if n == 0 then 1 else 0x100 * Range(n - 1)
  }

  lemma Ranges()
    ensures Range(1) == 0x100 && Range(4) == TWO32 && Range(8) == TWO64
  {
    assert Range(2) == 0x1_0000;
    assert Range(6) == 0x1_0000_0000_0000;
  }

  /** The `n` low bytes of `v`, least significant first. */
  function Le(v: nat, n: nat): (b: seq<u8>)
    ensures |b| == n
  {
    if n == 0 then [] else [v % 0x100] + Le(v / 0x100, n - 1)
  }

  function FromLe(b: seq<u8>): (v: nat)
    ensures v < Range(|b|)
  {
    if b == [] then 0 else Weigh(b[0], FromLe(b[1..]))
  }

  function Weigh(low: nat, high: nat): nat {
    low + 0x100 * high
  }

  function Le32(v: u32): (b: seq<u8>)
    ensures |b| == 4
  {
    Le(v, 4)
  }

  function Le64(v: u64): (b: seq<u8>)
    ensures |b| == 8
  {
    Le(v, 8)
  }

  /** A value that fits and its byte image determine each other. */
  lemma {:induction false} LeInverse(v: nat, b: seq<u8>)
    requires v < Range(|b|)
    ensures FromLe(b) == v <==> b == Le(v, |b|)
  {
    if b != [] {
      var low: nat := b[0];
      LeInverse(v / 0x100, b[1..]);
      if FromLe(b) == v {
        DivMod(v, 0x100, FromLe(b[1..]), low);
        assert b == [low] + b[1..];
      }
      if b == Le(v, |b|) {
        assert b[1..] == Le(v / 0x100, |b| - 1);
      }
    }
  }

  /** Least significant byte first, place by place. */
  lemma FourBytes(b: seq<u8>)
    requires |b| == 4
    ensures var p: int, q: int, r: int, s: int := b[0], b[1], b[2], b[3];
            FromLe(b) == p + 0x100 * q + 0x1_0000 * r + 0x100_0000 * s
  {
    Low(b);
    Low(b[1..]);
    Low(b[1..][1..]);
    Low(b[1..][1..][1..]);
  }

  lemma Low(b: seq<u8>)
    requires b != []
    ensures FromLe(b) == b[0] + 0x100 * FromLe(b[1..])
  {
  }

  lemma EightBytes(b: seq<u8>)
    requires |b| == 8
    ensures FromLe(b) == FromLe(b[..4]) + 0x1_0000_0000 * FromLe(b[4..])
  {
    hide FromLe;
    FourBytes(b[..4]);
    FourBytes(b[4..]);
    Low(b);
    Low(b[1..]);
    Low(b[2..]);
    Low(b[3..]);
    assert b[1..][1..] == b[2..] && b[2..][1..] == b[3..] && b[3..][1..] == b[4..];
  }
}
