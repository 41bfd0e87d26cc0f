/** Where each part of a binary message stands, byte by byte, numbers least significant byte first. */
module Layouts {
  import opened Bytes
  import opened Wire
  import opened Messages
  import opened ServiceMessage

  /** The four bytes at `o` are this number. */
  ghost predicate Word(b: seq<u8>, o: nat, v: nat) {
    o + 4 <= |b| && FromLe(b[o..o + 4]) == v
  }

  ghost predicate Long(b: seq<u8>, o: nat, v: nat) {
    o + 8 <= |b| && FromLe(b[o..o + 8]) == v
  }

  lemma WordAt(b: seq<u8>, o: nat, v: u32)
    requires Holds(b, o, Le32(v))
    ensures Word(b, o, v)
  {
    hide Le, FromLe, Range;
    Ranges();
    LeInverse(v, b[o..o + 4]);
  }

  lemma LongAt(b: seq<u8>, o: nat, v: u64)
    requires Holds(b, o, Le64(v))
    ensures Long(b, o, v)
  {
    hide Le, FromLe, Range;
    Ranges();
    LeInverse(v, b[o..o + 8]);
  }

  /** What stands in front of a concatenation, and what stands behind. */
  lemma Split(b: seq<u8>, o: nat, x: seq<u8>, y: seq<u8>)
    requires Holds(b, o, x + y)
    ensures Holds(b, o, x) && Holds(b, o + |x|, y)
  {
    HoldsConcat(b, o, x, y);
  }

  /** 4 bytes of sequence number, 8 of time, 4 of the name's size, the name. */
  lemma HeaderLayout(b: seq<u8>, o: nat, h: Header)
    requires Holds(b, o, HeaderBytes(h))
    ensures |HeaderBytes(h)| == 16 + |h.frameId| && o + 16 + |h.frameId| <= |b|
    ensures Word(b, o, h.sequence) && Long(b, o + 4, h.stamp) && Word(b, o + 12, |h.frameId| % 0x1_0000_0000)
    ensures b[o + 16..o + 16 + |h.frameId|] == h.frameId
  {
    hide Le32, Le64, Holds, Word, Long;
    var p1 := Le32(h.sequence);
    var p2 := p1 + Le64(h.stamp);
    var p3 := p2 + Le32(|h.frameId| % TWO32);
    Split(b, o, p3, h.frameId);
    Split(b, o, p2, Le32(|h.frameId| % TWO32));
    Split(b, o, p1, Le64(h.stamp));
    WordAt(b, o, h.sequence);
    LongAt(b, o + 4, h.stamp);
    WordAt(b, o + 12, |h.frameId| % TWO32);
    HeldAt(b, o + 16, h.frameId);
  }

  lemma HeldAt(b: seq<u8>, o: nat, bytes: seq<u8>)
    requires Holds(b, o, bytes)
    ensures o + |bytes| <= |b| && b[o..o + |bytes|] == bytes
  {
  }

  /** 4 bytes of the name's size, the name, 4 of offset, 1 of type, 4 of count. */
  lemma FieldLayout(b: seq<u8>, o: nat, f: PointField)
    requires Holds(b, o, FieldBytes(f))
    ensures var n := |f.name|;
            && |FieldBytes(f)| == 13 + n && o + 13 + n <= |b|
            && Word(b, o, n % 0x1_0000_0000) && b[o + 4..o + 4 + n] == f.name
            && Word(b, o + 4 + n, f.offset) && b[o + 8 + n] == f.datatype_ && Word(b, o + 9 + n, f.count)
  {
    hide Le32, Holds, Word;
    var n := |f.name|;
    var p1 := Le32(n % TWO32);
    var p2 := p1 + f.name;
    var p3 := p2 + Le32(f.offset);
    var p4 := p3 + [f.datatype_];
    Split(b, o, p4, Le32(f.count));
    Split(b, o, p3, [f.datatype_]);
    Split(b, o, p2, Le32(f.offset));
    Split(b, o, p1, f.name);
    WordAt(b, o, n % TWO32);
    HeldAt(b, o + 4, f.name);
    WordAt(b, o + 4 + n, f.offset);
    HeldAt(b, o + 8 + n, [f.datatype_]);
    WordAt(b, o + 9 + n, f.count);
  }

  /** Seven 8-byte numbers: the position, then the orientation. */
  lemma PoseLayout(b: seq<u8>, o: nat, p: Pose)
    requires Holds(b, o, PoseBytes(p))
    ensures |PoseBytes(p)| == 56
    ensures Long(b, o, p.px) && Long(b, o + 8, p.py) && Long(b, o + 16, p.pz)
    ensures Long(b, o + 24, p.ox) && Long(b, o + 32, p.oy) && Long(b, o + 40, p.oz) && Long(b, o + 48, p.ow)
  {
    hide Le64, Holds, Long;
    var p1 := Le64(p.px);
    var p2 := p1 + Le64(p.py);
    var p3 := p2 + Le64(p.pz);
    var p4 := p3 + Le64(p.ox);
    var p5 := p4 + Le64(p.oy);
    var p6 := p5 + Le64(p.oz);
    Split(b, o, p6, Le64(p.ow));
    Split(b, o, p5, Le64(p.oz));
    Split(b, o, p4, Le64(p.oy));
    Split(b, o, p3, Le64(p.ox));
    Split(b, o, p2, Le64(p.pz));
    Split(b, o, p1, Le64(p.py));
    LongAt(b, o, p.px);
    LongAt(b, o + 8, p.py);
    LongAt(b, o + 16, p.pz);
    LongAt(b, o + 24, p.ox);
    LongAt(b, o + 32, p.oy);
    LongAt(b, o + 40, p.oz);
    LongAt(b, o + 48, p.ow);
  }

  /** In a list of records of one width, each stands at its multiple of the width. */
  lemma {:induction false} RecordAt<T>(write: T -> seq<u8>, width: nat, xs: seq<T>, b: seq<u8>, o: nat, i: nat)
    requires forall x :: x in xs ==> |write(x)| == width
    requires Holds(b, o, ListBytes(write, xs)) && i < |xs|
    ensures Holds(b, o + width * i, write(xs[i]))
    decreases |xs|
  {
    hide Holds;
    Split(b, o, write(xs[0]), ListBytes(write, xs[1..]));
    if i == 0 {
      assert o + width * i == o;
    } else {
      RecordAt(write, width, xs[1..], b, o + width, i - 1);
      assert o + width + width * (i - 1) == o + width * i by { Times(width, i); }
    }
  }

  lemma Times(width: nat, i: nat)
    requires i > 0
    ensures width + width * (i - 1) == width * i
  {
  }

  /** The bytes that the fields before the `i`th take. */
  function FieldsBefore(fields: seq<PointField>, i: nat): nat
    requires i <= |fields|
  {
    if i == 0 then 0 else FieldsBefore(fields, i - 1) + 13 + |fields[i - 1].name|
  }

  lemma {:induction false} BeforeShifts(fields: seq<PointField>, i: nat)
    requires 0 < i <= |fields|
    ensures FieldsBefore(fields, i) == 13 + |fields[0].name| + FieldsBefore(fields[1..], i - 1)
    decreases i
  {
    if i > 1 {
      BeforeShifts(fields, i - 1);
    }
  }

  lemma FieldTakes(f: PointField)
    ensures |FieldBytes(f)| == 13 + |f.name|
  {
    hide Le32;
  }

  /** Each field stands where the ones before it end. */
  lemma {:induction false} FieldAt(fields: seq<PointField>, b: seq<u8>, o: nat, i: nat)
    requires Holds(b, o, ListBytes(FieldBytes, fields)) && i < |fields|
    ensures Holds(b, o + FieldsBefore(fields, i), FieldBytes(fields[i]))
    decreases |fields|
  {
    hide Holds, FieldBytes;
    Split(b, o, FieldBytes(fields[0]), ListBytes(FieldBytes, fields[1..]));
    if i > 0 {
      FieldTakes(fields[0]);
      FieldAt(fields[1..], b, o + |FieldBytes(fields[0])|, i - 1);
      BeforeShifts(fields, i);
    }
  }

  lemma {:induction false} FieldsTake(fields: seq<PointField>)
    ensures |ListBytes(FieldBytes, fields)| == FieldsBefore(fields, |fields|)
    decreases |fields|
  {
    hide FieldBytes;
    if fields != [] {
      FieldTakes(fields[0]);
      FieldsTake(fields[1..]);
      BeforeShifts(fields, |fields|);
    }
  }

  /** The header; height, width and number of fields, 4 bytes each; the fields one after the other. */
  lemma CloudHeadLayout(b: seq<u8>, o: nat, c: PointCloud, i: nat)
    requires Holds(b, o, CloudHead(c))
    ensures var n := o + 16 + |c.header.frameId|;
            && Holds(b, o, HeaderBytes(c.header))
            && Word(b, n, c.height) && Word(b, n + 4, c.width) && Word(b, n + 8, |c.fields| % 0x1_0000_0000)
            && (i < |c.fields| ==> Holds(b, n + 12 + FieldsBefore(c.fields, i), FieldBytes(c.fields[i])))
            && o + |CloudHead(c)| == n + 12 + FieldsBefore(c.fields, |c.fields|)
  {
    hide Le32, Holds, Word, HeaderBytes, FieldBytes, ListBytes, FieldsBefore;
    var n := o + 16 + |c.header.frameId|;
    var p1 := HeaderBytes(c.header);
    var p2 := p1 + Le32(c.height);
    var p3 := p2 + Le32(c.width);
    var p4 := p3 + Le32(|c.fields| % TWO32);
    Split(b, o, p4, ListBytes(FieldBytes, c.fields));
    Split(b, o, p3, Le32(|c.fields| % TWO32));
    Split(b, o, p2, Le32(c.width));
    Split(b, o, p1, Le32(c.height));
    HeaderLayout(b, o, c.header);
    WordAt(b, n, c.height);
    WordAt(b, n + 4, c.width);
    WordAt(b, n + 8, |c.fields| % TWO32);
    FieldsTake(c.fields);
    if i < |c.fields| {
      FieldAt(c.fields, b, n + 12, i);
    }
  }

  /** The byte order, the two steps, the number of data bytes, the data and the last flag. */
  lemma CloudTailLayout(b: seq<u8>, m: nat, c: PointCloud)
    requires Holds(b, m, CloudTail(c))
    ensures var n := |c.data|;
            && |CloudTail(c)| == 14 + n && m + 14 + n <= |b|
            && b[m] == (if c.isBigEndian then 1 else 0)
            && Word(b, m + 1, c.pointStep) && Word(b, m + 5, c.rowStep) && Word(b, m + 9, n % 0x1_0000_0000)
            && b[m + 13..m + 13 + n] == c.data && b[m + 13 + n] == if c.isDense then 1 else 0
  {
    hide Le32, Holds, Word;
    var p1 := BoolBytes(c.isBigEndian);
    var p2 := p1 + Le32(c.pointStep);
    var p3 := p2 + Le32(c.rowStep);
    var p4 := p3 + Le32(|c.data| % TWO32);
    var p5 := p4 + c.data;
    Split(b, m, p5, BoolBytes(c.isDense));
    Split(b, m, p4, c.data);
    Split(b, m, p3, Le32(|c.data| % TWO32));
    Split(b, m, p2, Le32(c.rowStep));
    Split(b, m, p1, Le32(c.pointStep));
    HeldAt(b, m, p1);
    WordAt(b, m + 1, c.pointStep);
    WordAt(b, m + 5, c.rowStep);
    WordAt(b, m + 9, |c.data| % TWO32);
    HeldAt(b, m + 13, c.data);
    HeldAt(b, m + 13 + |c.data|, BoolBytes(c.isDense));
  }

  /**
   * A point cloud: its header, its size, its fields, and from where they end the byte order, the two
   * steps, the data with its length, and the last flag.
   */
  lemma CloudLayout(b: seq<u8>, o: nat, c: PointCloud, i: nat)
    requires Holds(b, o, CloudBytes(c))
    ensures var n := o + 16 + |c.header.frameId|;
            var m, d := n + 12 + FieldsBefore(c.fields, |c.fields|), |c.data|;
            && |CloudBytes(c)| == m + 14 + d - o && m + 14 + d <= |b|
            && Holds(b, o, HeaderBytes(c.header))
            && Word(b, n, c.height) && Word(b, n + 4, c.width) && Word(b, n + 8, |c.fields| % 0x1_0000_0000)
            && (i < |c.fields| ==> Holds(b, n + 12 + FieldsBefore(c.fields, i), FieldBytes(c.fields[i])))
            && b[m] == (if c.isBigEndian then 1 else 0)
            && Word(b, m + 1, c.pointStep) && Word(b, m + 5, c.rowStep) && Word(b, m + 9, d % 0x1_0000_0000)
            && b[m + 13..m + 13 + d] == c.data && b[m + 13 + d] == if c.isDense then 1 else 0
  {
    hide CloudHead, CloudTail, Holds, Word, HeaderBytes, FieldBytes, FieldsBefore;
    Split(b, o, CloudHead(c), CloudTail(c));
    CloudHeadLayout(b, o, c, i);
    CloudTailLayout(b, o + |CloudHead(c)|, c);
  }

  /**
   * A scan: its header and seven 4-byte numbers; the number of ranges in 8 bytes and the ranges in 4
   * each; the intensities likewise.
   */
  lemma ScanLayout(b: seq<u8>, o: nat, s: LaserScan, i: nat)
    requires Holds(b, o, ScanBytes(s))
    ensures var n := o + 16 + |s.header.frameId|;
            var m := n + 36 + 4 * |s.ranges|;
            && |ScanBytes(s)| == m + 8 + 4 * |s.intensities| - o
            && Holds(b, o, HeaderBytes(s.header))
            && Word(b, n, s.angleMin) && Word(b, n + 4, s.angleMax) && Word(b, n + 8, s.angleIncrement)
            && Word(b, n + 12, s.timeIncrement) && Word(b, n + 16, s.scanTime)
            && Word(b, n + 20, s.rangeMin) && Word(b, n + 24, s.rangeMax)
            && Long(b, n + 28, |s.ranges| % 0x1_0000_0000_0000_0000)
            && (i < |s.ranges| ==> Word(b, n + 36 + 4 * i, s.ranges[i]))
            && Long(b, m, |s.intensities| % 0x1_0000_0000_0000_0000)
            && (i < |s.intensities| ==> Word(b, m + 8 + 4 * i, s.intensities[i]))
  {
    hide Holds, Word, Long, HeaderBytes, ScanHead, ScanTail;
    Split(b, o, ScanHead(s), ScanTail(s));
    ScanHeadLayout(b, o, s);
    ScanTailLayout(b, o + |ScanHead(s)|, s, i);
  }

  lemma ScanHeadLayout(b: seq<u8>, o: nat, s: LaserScan)
    requires Holds(b, o, ScanHead(s))
    ensures var n := o + 16 + |s.header.frameId|;
            && o + |ScanHead(s)| == n + 28
            && Holds(b, o, HeaderBytes(s.header))
            && Word(b, n, s.angleMin) && Word(b, n + 4, s.angleMax) && Word(b, n + 8, s.angleIncrement)
            && Word(b, n + 12, s.timeIncrement) && Word(b, n + 16, s.scanTime)
            && Word(b, n + 20, s.rangeMin) && Word(b, n + 24, s.rangeMax)
  {
    hide Le32, Holds, Word, HeaderBytes;
    var n := o + 16 + |s.header.frameId|;
    var q1 := HeaderBytes(s.header);
    var q2 := q1 + Le32(s.angleMin);
    var q3 := q2 + Le32(s.angleMax);
    var q4 := q3 + Le32(s.angleIncrement);
    var q5 := q4 + Le32(s.timeIncrement);
    var q6 := q5 + Le32(s.scanTime);
    var q7 := q6 + Le32(s.rangeMin);
    Split(b, o, q7, Le32(s.rangeMax));
    Split(b, o, q6, Le32(s.rangeMin));
    Split(b, o, q5, Le32(s.scanTime));
    Split(b, o, q4, Le32(s.timeIncrement));
    Split(b, o, q3, Le32(s.angleIncrement));
    Split(b, o, q2, Le32(s.angleMax));
    Split(b, o, q1, Le32(s.angleMin));
    HeaderLayout(b, o, s.header);
    WordAt(b, n, s.angleMin);
    WordAt(b, n + 4, s.angleMax);
    WordAt(b, n + 8, s.angleIncrement);
    WordAt(b, n + 12, s.timeIncrement);
    WordAt(b, n + 16, s.scanTime);
    WordAt(b, n + 20, s.rangeMin);
    WordAt(b, n + 24, s.rangeMax);
  }

  lemma FloatAt(b: seq<u8>, o: nat, fs: seq<u32>, i: nat)
    requires Holds(b, o, ListBytes(FloatBytes, fs)) && i < |fs|
    ensures Word(b, o + 4 * i, fs[i])
  {
    hide Holds, Word, ListBytes, Le32;
    RecordAt(FloatBytes, 4, fs, b, o, i);
    WordAt(b, o + 4 * i, fs[i]);
  }

  lemma ScanTailLayout(b: seq<u8>, o: nat, s: LaserScan, i: nat)
    requires Holds(b, o, ScanTail(s))
    ensures var m := o + 8 + 4 * |s.ranges|;
            && o + |ScanTail(s)| == m + 8 + 4 * |s.intensities|
            && Long(b, o, |s.ranges| % 0x1_0000_0000_0000_0000)
            && (i < |s.ranges| ==> Word(b, o + 8 + 4 * i, s.ranges[i]))
            && Long(b, m, |s.intensities| % 0x1_0000_0000_0000_0000)
            && (i < |s.intensities| ==> Word(b, m + 8 + 4 * i, s.intensities[i]))
  {
    hide Le32, Le64, Holds, Word, Long, ListBytes;
    var m := o + 8 + 4 * |s.ranges|;
    var r1 := Le64(|s.ranges| % TWO64);
    var r2 := r1 + ListBytes(FloatBytes, s.ranges);
    var r3 := r2 + Le64(|s.intensities| % TWO64);
    Split(b, o, r3, ListBytes(FloatBytes, s.intensities));
    Split(b, o, r2, Le64(|s.intensities| % TWO64));
    Split(b, o, r1, ListBytes(FloatBytes, s.ranges));
    ListBytesLength(FloatBytes, 4, s.ranges);
    ListBytesLength(FloatBytes, 4, s.intensities);
    LongAt(b, o, |s.ranges| % TWO64);
    LongAt(b, m, |s.intensities| % TWO64);
    if i < |s.ranges| {
      FloatAt(b, o + 8, s.ranges, i);
    }
    if i < |s.intensities| {
      FloatAt(b, m + 8, s.intensities, i);
    }
  }

  /** A path: its header, the number of poses in 8 bytes, and the poses in 56 each. */
  lemma PathLayout(b: seq<u8>, o: nat, p: Path, i: nat)
    requires Holds(b, o, PathBytes(p))
    ensures var n := o + 16 + |p.header.frameId|;
            && |PathBytes(p)| == n + 8 + 56 * |p.points| - o
            && Holds(b, o, HeaderBytes(p.header)) && Long(b, n, |p.points| % 0x1_0000_0000_0000_0000)
            && (i < |p.points| ==> Holds(b, n + 8 + 56 * i, PoseBytes(p.points[i])))
  {
    hide Le64, Holds, Long, HeaderBytes, PoseBytes, ListBytes;
    var n := o + 16 + |p.header.frameId|;
    var q1 := HeaderBytes(p.header);
    var q2 := q1 + Le64(|p.points| % TWO64);
    Split(b, o, q2, ListBytes(PoseBytes, p.points));
    Split(b, o, q1, Le64(|p.points| % TWO64));
    HeaderLayout(b, o, p.header);
    LongAt(b, n, |p.points| % TWO64);
    forall pose: Pose
      ensures |PoseBytes(pose)| == 56
    {
      PoseTakes(pose);
    }
    ListBytesLength(PoseBytes, 56, p.points);
    if i < |p.points| {
      RecordAt(PoseBytes, 56, p.points, b, n + 8, i);
    }
  }

  lemma PoseTakes(p: Pose)
    ensures |PoseBytes(p)| == 56
  {
    hide Le64;
  }

  /** A service response: service id, call id and the size of the encoding, 4 bytes each; the encoding; the data. */
  lemma ResponseLayout(r: ServiceResponse)
    ensures var b, n := ResponseBytes(r), |r.encoding|;
            && |b| == 12 + n + |r.data|
            && Word(b, 0, r.serviceId) && Word(b, 4, r.callId) && Word(b, 8, n % 0x1_0000_0000)
            && b[12..12 + n] == r.encoding && b[12 + n..] == r.data
  {
    hide Le32, Holds, Word;
    var b, n := ResponseBytes(r), |r.encoding|;
    var p1 := Le32(r.serviceId);
    var p2 := p1 + Le32(r.callId);
    var p3 := p2 + Le32(n % TWO32);
    var p4 := p3 + r.encoding;
    HoldsWhole(b, b);
    Split(b, 0, p4, r.data);
    Split(b, 0, p3, r.encoding);
    Split(b, 0, p2, Le32(n % TWO32));
    Split(b, 0, p1, Le32(r.callId));
    WordAt(b, 0, r.serviceId);
    WordAt(b, 4, r.callId);
    WordAt(b, 8, n % TWO32);
    HeldAt(b, 12, r.encoding);
    HeldAt(b, 12 + n, r.data);
  }
}
