/** Service calls on the wire, written in place into a caller's buffer. */
module ServiceMessage {
  import opened Bytes
  import opened Wire

  datatype ServiceResponse = ServiceResponse(serviceId: u32, callId: u32, encoding: seq<u8>, data: seq<u8>)

  function Size(r: ServiceResponse): nat {
    4 + 4 + 4 + |r.encoding| + |r.data|
  }

  function ResponseBytes(r: ServiceResponse): seq<u8> {
    Le32(r.serviceId) + Le32(r.callId) + Le32(|r.encoding| % TWO32) + r.encoding + r.data
  }

  /** The reader takes all of its payload; it is defined when the payload reaches past the encoding. */
  function ReadResponse(payload: seq<u8>): Read<ServiceResponse> {
    var (serviceId, o1) :- ReadU32(payload, 0);
    var (callId, o2) :- ReadU32(payload, o1);
    var (encodingLength, o3) :- ReadU32(payload, o2);
    var (encoding, o4) :- ReadBlob(payload, o3, encodingLength);
    var (data, o5) :- ReadBlob(payload, o4, |payload| - o4);
    Got(ServiceResponse(serviceId, callId, encoding, data), o5)
  }

  /** Every payload is read as the one response it is the image of, if it is the image of any. */
  lemma ResponseLaw(payload: seq<u8>, r: ServiceResponse)
    ensures ReadResponse(payload) == Got(r, |payload|) <==> |r.encoding| < TWO32 && payload == ResponseBytes(r)
    ensures |ResponseBytes(r)| == Size(r)
  {
    hide Le32, ReadU32, ReadBlob, Holds;
    var p1 := Le32(r.serviceId);
    var p2 := p1 + Le32(r.callId);
    var p3 := p2 + Le32(|r.encoding| % TWO32);
    var p4 := p3 + r.encoding;
    HoldsConcat(payload, 0, p1, Le32(r.callId));
    HoldsConcat(payload, 0, p2, Le32(|r.encoding| % TWO32));
    HoldsConcat(payload, 0, p3, r.encoding);
    HoldsConcat(payload, 0, p4, r.data);
    U32Law(payload, 0, r.serviceId, 4);
    U32Law(payload, 4, r.callId, 8);
    U32Law(payload, 8, |r.encoding| % TWO32, 12);
    BlobLaw(payload, 12, r.encoding, |p4|);
    BlobLaw(payload, |p4|, r.data, |payload|);
    HoldsWhole(payload, ResponseBytes(r));
  }

  lemma HoldsWhole(b: seq<u8>, bytes: seq<u8>)
    ensures |b| == |bytes| && Holds(b, 0, bytes) <==> b == bytes
  {
    assert |b| == |bytes| ==> b[0..|bytes|] == b;
  }

  /** Reading is defined exactly when the payload holds 12 bytes and the encoding they announce. */
  lemma ResponseReadable(payload: seq<u8>)
    ensures ReadResponse(payload).Got? <==> |payload| >= 12 && |payload| >= 12 + FromLe(payload[8..12])
  {
    hide FromLe;
    Ranges();
  }

  /** `buf` now is `was` with `bytes` written over it at `at`. */
  ghost predicate Overwritten(was: seq<u8>, now: seq<u8>, at: nat, bytes: seq<u8>) {
    && |now| == |was| && at + |bytes| <= |was|
    && now[..at + |bytes|] == was[..at] + bytes
    && now[at + |bytes|..] == was[at + |bytes|..]
  }

  lemma OverwrittenTwice(was: seq<u8>, mid: seq<u8>, now: seq<u8>, at: nat, x: seq<u8>, y: seq<u8>)
    requires Overwritten(was, mid, at, x) && Overwritten(mid, now, at + |x|, y)
    ensures Overwritten(was, now, at, x + y)
  {
    var m := at + |x|;
    assert now[..m + |y|] == was[..at] + x + y;
    assert now[m + |y|..] == mid[m..][|y|..] == was[m..][|y|..] == was[m + |y|..];
  }

  method WriteUint32LE(buf: array<u8>, at: nat, val: u32)
    requires at + 4 <= buf.Length
    modifies buf
    ensures Overwritten(old(buf[..]), buf[..], at, Le32(val))
  {
    CopyInto(buf, at, Le32(val));
  }

  method WriteUint64LE(buf: array<u8>, at: nat, val: u64)
    requires at + 8 <= buf.Length
    modifies buf
    ensures Overwritten(old(buf[..]), buf[..], at, Le64(val))
  {
    CopyInto(buf, at, Le64(val));
  }

  /** The byte copy into a buffer: it changes that window and nothing else. */
  method CopyInto(buf: array<u8>, at: nat, bytes: seq<u8>)
    requires at + |bytes| <= buf.Length
    modifies buf
    ensures Overwritten(old(buf[..]), buf[..], at, bytes)
  {
    for i := 0 to |bytes|
      invariant buf[..] == old(buf[..at]) + bytes[..i] + old(buf[at + i..])
    {
      buf[at + i] := bytes[i];
    }
    assert bytes[..|bytes|] == bytes;
  }

  /** Writes exactly `Size(r)` bytes at `at`; the rest of the buffer is untouched. */
  method WriteResponse(r: ServiceResponse, payload: array<u8>, at: nat)
    requires at + Size(r) <= payload.Length
    modifies payload
    ensures |ResponseBytes(r)| == Size(r) && Overwritten(old(payload[..]), payload[..], at, ResponseBytes(r))
  {
    hide Le32, Overwritten;
    var offset := at;
    ghost var was := payload[..];
    ghost var bytes := Le32(r.serviceId);
    WriteUint32LE(payload, offset, r.serviceId);
    offset := offset + 4;
    ghost var mid := payload[..];
    WriteUint32LE(payload, offset, r.callId);
    offset := offset + 4;
    OverwrittenTwice(was, mid, payload[..], at, bytes, Le32(r.callId));
    bytes, mid := bytes + Le32(r.callId), payload[..];
    WriteUint32LE(payload, offset, |r.encoding| % TWO32);
    offset := offset + 4;
    OverwrittenTwice(was, mid, payload[..], at, bytes, Le32(|r.encoding| % TWO32));
    bytes, mid := bytes + Le32(|r.encoding| % TWO32), payload[..];
    CopyInto(payload, offset, r.encoding);
    offset := offset + |r.encoding|;
    OverwrittenTwice(was, mid, payload[..], at, bytes, r.encoding);
    bytes, mid := bytes + r.encoding, payload[..];
    CopyInto(payload, offset, r.data);
    OverwrittenTwice(was, mid, payload[..], at, bytes, r.data);
  }

  /** Reads a whole payload, advancing an offset. */
  method ReadPayload(payload: seq<u8>) returns (r: ServiceResponse)
    requires ReadResponse(payload).Got?
    ensures ReadResponse(payload) == Got(r, |payload|)
  {
    hide FromLe;
    Ranges();
    var offset := 0;
    var serviceId := FromLe(payload[offset..offset + 4]);
    offset := offset + 4;
    var callId := FromLe(payload[offset..offset + 4]);
    offset := offset + 4;
    var encodingLength := FromLe(payload[offset..offset + 4]);
    offset := offset + 4;
    var encoding := payload[offset..offset + encodingLength];
    offset := offset + encodingLength;
    var dataSize := |payload| - offset;
    var data := payload[offset..offset + dataSize];
    r := ServiceResponse(serviceId, callId, encoding, data);
  }

  /** Writing then reading gives the response back, for every encoding its prefix can measure. */
  method ResponseRoundTrip(r: ServiceResponse) returns (back: ServiceResponse)
    requires |r.encoding| < TWO32
    ensures back == r
  {
    var payload := new u8[Size(r)];
    WriteResponse(r, payload, 0);
    ResponseLaw(ResponseBytes(r), r);
    assert payload[..] == ResponseBytes(r);
    back := ReadPayload(payload[..]);
  }
}
