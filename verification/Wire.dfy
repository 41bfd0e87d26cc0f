/**
 * Reading and writing length-prefixed little-endian records.
 *
 * The source copies bytes out of a buffer without checking that they are there. `Undefined` stands
 * for every read whose result the source does not define: past the end of the buffer, or a byte
 * other than 0 or 1 copied into a `bool`.
 */
module Wire {
  import opened Bytes

  datatype Read<+T> = Undefined | Got(value: T, next: nat) {
    predicate IsFailure() {
      Undefined?
    }

    function PropagateFailure<U>(): Read<U>
      requires Undefined?
    {
      Undefined
    }

    function Extract(): (T, nat)
      requires Got?
    {
      (value, next)
    }
  }

  /** `bytes` stands in `b` at offset `o`. */
  predicate Holds(b: seq<u8>, o: nat, bytes: seq<u8>) {
    o + |bytes| <= |b| && b[o..o + |bytes|] == bytes
  }

  lemma HoldsConcat(b: seq<u8>, o: nat, x: seq<u8>, y: seq<u8>)
    ensures Holds(b, o, x + y) <==> Holds(b, o, x) && Holds(b, o + |x|, y)
  {
    if o + |x + y| <= |b| {
      var m, n := o + |x|, o + |x| + |y|;
      assert b[o..n] == b[o..m] + b[m..n];
      assert b[o..n] == x + y ==> b[o..m] == (x + y)[..|x|] && b[m..n] == (x + y)[|x|..];
    }
  }

  lemma HoldsEmbedded(before: seq<u8>, bytes: seq<u8>, after: seq<u8>)
    ensures Holds(before + bytes + after, |before|, bytes)
  {
  }

  // ----- Readers of fixed-width values and blobs

  function ReadLe(b: seq<u8>, o: nat, width: nat): (r: Read<nat>)
    ensures r.Got? ==> r.next == o + width <= |b|
  {
    if o + width <= |b| then Got(FromLe(b[o..o + width]), o + width) else Undefined
  }

  function ReadU8(b: seq<u8>, o: nat): (r: Read<u8>)
    ensures r.Got? ==> r.next == o + 1 <= |b|
  {
    if o < |b| then Got(b[o], o + 1) else Undefined
  }

  function ReadU32(b: seq<u8>, o: nat): (r: Read<u32>)
    ensures r.Got? ==> r.next == o + 4 <= |b|
  {
    Ranges();
    ReadLe(b, o, 4)
  }

  function ReadU64(b: seq<u8>, o: nat): (r: Read<u64>)
    ensures r.Got? ==> r.next == o + 8 <= |b|
  {
    Ranges();
    ReadLe(b, o, 8)
  }

  function BoolBytes(v: bool): (b: seq<u8>)
    ensures |b| == 1
  {
    [if v then 1 else 0]
  }

  function ReadBool(b: seq<u8>, o: nat): (r: Read<bool>)
    ensures r.Got? ==> r.next == o + 1 <= |b|
  {
    if o < |b| && b[o] <= 1 then Got(b[o] == 1, o + 1) else Undefined
  }

  function ReadBlob(b: seq<u8>, o: nat, n: nat): (r: Read<seq<u8>>)
    ensures r.Got? ==> r.next == o + n <= |b| && |r.value| == n
  {
    if o + n <= |b| then Got(b[o..o + n], o + n) else Undefined
  }

  lemma LeLaw(b: seq<u8>, o: nat, width: nat, v: nat, n: nat)
    requires v < Range(width)
    ensures ReadLe(b, o, width) == Got(v, n) <==> n == o + width && Holds(b, o, Le(v, width))
  {
    if o + width <= |b| {
      LeInverse(v, b[o..o + width]);
    }
  }

  lemma U32Law(b: seq<u8>, o: nat, v: u32, n: nat)
    ensures ReadU32(b, o) == Got(v, n) <==> n == o + 4 && Holds(b, o, Le32(v))
  {
    Ranges();
    LeLaw(b, o, 4, v, n);
  }

  lemma U64Law(b: seq<u8>, o: nat, v: u64, n: nat)
    ensures ReadU64(b, o) == Got(v, n) <==> n == o + 8 && Holds(b, o, Le64(v))
  {
    Ranges();
    LeLaw(b, o, 8, v, n);
  }

  lemma BoolLaw(b: seq<u8>, o: nat, v: bool, n: nat)
    ensures ReadBool(b, o) == Got(v, n) <==> n == o + 1 && Holds(b, o, BoolBytes(v))
  {
  }

  lemma U8Law(b: seq<u8>, o: nat, v: u8, n: nat)
    ensures ReadU8(b, o) == Got(v, n) <==> n == o + 1 && Holds(b, o, [v])
  {
  }

  lemma BlobLaw(b: seq<u8>, o: nat, v: seq<u8>, n: nat)
    ensures ReadBlob(b, o, |v|) == Got(v, n) <==> n == o + |v| && Holds(b, o, v)
  {
  }

  // ----- Lists of records

  /**
   * A reader undoes a writer, both ways: it returns `v` and stops at `n` exactly when `v` is
   * writable and its bytes stand between the offset and `n`.
   */
  ghost predicate Lawful<T(!new)>(write: T -> seq<u8>, writable: T -> bool, read: (seq<u8>, nat) -> Read<T>) {
    forall b: seq<u8>, o: nat, v: T, n: nat ::
      read(b, o) == Got(v, n) <==> writable(v) && n == o + |write(v)| && Holds(b, o, write(v))
  }

  function ListBytes<T>(write: T -> seq<u8>, xs: seq<T>): seq<u8> {
    if xs == [] then [] else write(xs[0]) + ListBytes(write, xs[1..])
  }

  function ReadList<T>(read: (seq<u8>, nat) -> Read<T>, b: seq<u8>, o: nat, count: nat): (r: Read<seq<T>>)
    ensures r.Got? ==> |r.value| == count
    decreases count
  {
    if count == 0 then (if o <= |b| then Got([], o) else Undefined)
    else
      var (x, p) :- read(b, o);
      var (xs, q) :- ReadList(read, b, p, count - 1);
      Got([x] + xs, q)
  }

  lemma {:induction false} ListLaw<T(!new)>(write: T -> seq<u8>, writable: T -> bool, read: (seq<u8>, nat) -> Read<T>,
                                            b: seq<u8>, o: nat, xs: seq<T>, n: nat)
    requires Lawful(write, writable, read)
    ensures ReadList(read, b, o, |xs|) == Got(xs, n) <==>
            && (forall x :: x in xs ==> writable(x))
            && n == o + |ListBytes(write, xs)|
            && Holds(b, o, ListBytes(write, xs))
    decreases |xs|
  {
    if xs != [] {
      var x, rest := xs[0], xs[1..];
      var p := o + |write(x)|;
      assert xs == [x] + rest;
      ListLaw(write, writable, read, b, p, rest, n);
      HoldsConcat(b, o, write(x), ListBytes(write, rest));
      assert read(b, o) == Got(x, p) <==> writable(x) && Holds(b, o, write(x));
      assert forall v, m: nat :: read(b, o) == Got(v, m) ==> m == o + |write(v)|;
      assert forall y :: y in xs <==> y == x || y in rest;
      assert ReadList(read, b, o, |xs|) == Got(xs, n)
        <==> read(b, o) == Got(x, p) && ReadList(read, b, p, |rest|) == Got(rest, n) by {
        if ReadList(read, b, o, |xs|) == Got(xs, n) {
          var Got(x', p') := read(b, o);
          var Got(xs', q') := ReadList(read, b, p', |xs| - 1);
          assert ([x'] + xs')[0] == x && ([x'] + xs')[1..] == xs';
        }
      }
    }
  }

  lemma {:induction false} ListBytesAppend<T>(write: T -> seq<u8>, xs: seq<T>, x: T)
    ensures ListBytes(write, xs + [x]) == ListBytes(write, xs) + write(x)
  {
    if xs != [] {
      ListBytesAppend(write, xs[1..], x);
      assert (xs + [x])[1..] == xs[1..] + [x];
    } else {
      assert ListBytes(write, []) + write(x) == write(x) + ListBytes(write, []);
    }
  }

  lemma {:induction false} ListBytesLength<T>(write: T -> seq<u8>, width: nat, xs: seq<T>)
    requires forall x :: x in xs ==> |write(x)| == width
    ensures |ListBytes(write, xs)| == width * |xs|
  {
    if xs != [] {
      ListBytesLength(write, width, xs[1..]);
      var rest := |xs| - 1;
      assert width * |xs| == width + width * rest;
    }
  }
}
