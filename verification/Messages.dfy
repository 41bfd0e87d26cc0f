/**
 * The robot messages on the wire: the sender's byte images and the receiver's readers.
 *
 * Strings are sequences of bytes, floats and doubles are opaque 4- and 8-byte words. The sender
 * truncates a string's or array's size to the width of its length prefix, as the source does.
 */
module Messages {
  import opened Bytes
  import opened Wire

  datatype Header = Header(sequence: u32, stamp: u64, frameId: seq<u8>)

  datatype PointField = PointField(name: seq<u8>, offset: u32, datatype_: u8, count: u32)

  datatype PointCloud = PointCloud(
    header: Header, height: u32, width: u32, fields: seq<PointField>, isBigEndian: bool,
    pointStep: u32, rowStep: u32, data: seq<u8>, isDense: bool)

  datatype LaserScan = LaserScan(
    header: Header, angleMin: u32, angleMax: u32, angleIncrement: u32, timeIncrement: u32,
    scanTime: u32, rangeMin: u32, rangeMax: u32, ranges: seq<u32>, intensities: seq<u32>)

  datatype Pose = Pose(px: u64, py: u64, pz: u64, ox: u64, oy: u64, oz: u64, ow: u64)

  datatype Path = Path(header: Header, points: seq<Pose>)

  // ----- Byte images

  function HeaderBytes(h: Header): seq<u8> {
    Le32(h.sequence) + Le64(h.stamp) + Le32(|h.frameId| % TWO32) + h.frameId
  }

  function FieldBytes(f: PointField): seq<u8> {
    Le32(|f.name| % TWO32) + f.name + Le32(f.offset) + [f.datatype_] + Le32(f.count)
  }

  function CloudHead(c: PointCloud): seq<u8> {
    HeaderBytes(c.header) + Le32(c.height) + Le32(c.width) + Le32(|c.fields| % TWO32)
    + ListBytes(FieldBytes, c.fields)
  }

  function CloudTail(c: PointCloud): seq<u8> {
    BoolBytes(c.isBigEndian) + Le32(c.pointStep) + Le32(c.rowStep) + Le32(|c.data| % TWO32)
    + c.data + BoolBytes(c.isDense)
  }

  function CloudBytes(c: PointCloud): seq<u8> {
    CloudHead(c) + CloudTail(c)
  }

  function FloatBytes(f: u32): seq<u8> {
    Le32(f)
  }

  function ScanHead(s: LaserScan): seq<u8> {
    HeaderBytes(s.header) + Le32(s.angleMin) + Le32(s.angleMax) + Le32(s.angleIncrement)
    + Le32(s.timeIncrement) + Le32(s.scanTime) + Le32(s.rangeMin) + Le32(s.rangeMax)
  }

  function ScanTail(s: LaserScan): seq<u8> {
    Le64(|s.ranges| % TWO64) + ListBytes(FloatBytes, s.ranges)
    + Le64(|s.intensities| % TWO64) + ListBytes(FloatBytes, s.intensities)
  }

  function ScanBytes(s: LaserScan): seq<u8> {
    ScanHead(s) + ScanTail(s)
  }

  function PoseBytes(p: Pose): seq<u8> {
    Le64(p.px) + Le64(p.py) + Le64(p.pz) + Le64(p.ox) + Le64(p.oy) + Le64(p.oz) + Le64(p.ow)
  }

  function PathBytes(p: Path): seq<u8> {
    HeaderBytes(p.header) + Le64(|p.points| % TWO64) + ListBytes(PoseBytes, p.points)
  }

  // ----- Sizes the length prefixes can express

  predicate HeaderFits(h: Header) {
    |h.frameId| < TWO32
  }

  predicate FieldFits(f: PointField) {
    |f.name| < TWO32
  }

  predicate CloudFits(c: PointCloud) {
    && HeaderFits(c.header)
    && |c.fields| < TWO32 && (forall f :: f in c.fields ==> FieldFits(f))
    && |c.data| < TWO32
  }

  predicate ScanFits(s: LaserScan) {
    HeaderFits(s.header) && |s.ranges| < TWO64 && |s.intensities| < TWO64
  }

  predicate PathFits(p: Path) {
    HeaderFits(p.header) && |p.points| < TWO64
  }

  // ----- Readers

  function ReadHeader(b: seq<u8>, o: nat): Read<Header> {
    var (sequence, o1) :- ReadU32(b, o);
    var (stamp, o2) :- ReadU64(b, o1);
    var (size, o3) :- ReadU32(b, o2);
    var (frameId, o4) :- ReadBlob(b, o3, size);
    Got(Header(sequence, stamp, frameId), o4)
  }

  function ReadField(b: seq<u8>, o: nat): Read<PointField> {
    var (size, o1) :- ReadU32(b, o);
    var (name, o2) :- ReadBlob(b, o1, size);
    var (offset, o3) :- ReadU32(b, o2);
    var (datatype_, o4) :- ReadU8(b, o3);
    var (count, o5) :- ReadU32(b, o4);
    Got(PointField(name, offset, datatype_, count), o5)
  }

  function ReadCloud(b: seq<u8>, o: nat): Read<PointCloud> {
    var (header, o1) :- ReadHeader(b, o);
    var (height, o2) :- ReadU32(b, o1);
    var (width, o3) :- ReadU32(b, o2);
    var (fieldsSize, o4) :- ReadU32(b, o3);
    var (fields, o5) :- ReadList(ReadField, b, o4, fieldsSize);
    var (isBigEndian, o6) :- ReadBool(b, o5);
    var (pointStep, o7) :- ReadU32(b, o6);
    var (rowStep, o8) :- ReadU32(b, o7);
    var (dataSize, o9) :- ReadU32(b, o8);
    var (data, o10) :- ReadBlob(b, o9, dataSize);
    var (isDense, o11) :- ReadBool(b, o10);
    Got(PointCloud(header, height, width, fields, isBigEndian, pointStep, rowStep, data, isDense), o11)
  }

  /** The ranges and the intensities of a scan. */
  function ReadReadings(b: seq<u8>, o: nat): Read<(seq<u32>, seq<u32>)> {
    var (rangesSize, o1) :- ReadU64(b, o);
    var (ranges, o2) :- ReadList(ReadU32, b, o1, rangesSize);
    var (intensitiesSize, o3) :- ReadU64(b, o2);
    var (intensities, o4) :- ReadList(ReadU32, b, o3, intensitiesSize);
    Got((ranges, intensities), o4)
  }

  function ReadScan(b: seq<u8>, o: nat): Read<LaserScan> {
    var (header, o1) :- ReadHeader(b, o);
    var (angleMin, o2) :- ReadU32(b, o1);
    var (angleMax, o3) :- ReadU32(b, o2);
    var (angleIncrement, o4) :- ReadU32(b, o3);
    var (timeIncrement, o5) :- ReadU32(b, o4);
    var (scanTime, o6) :- ReadU32(b, o5);
    var (rangeMin, o7) :- ReadU32(b, o6);
    var (rangeMax, o8) :- ReadU32(b, o7);
    var (readings, o9) :- ReadReadings(b, o8);
    Got(LaserScan(header, angleMin, angleMax, angleIncrement, timeIncrement, scanTime, rangeMin, rangeMax,
                  readings.0, readings.1), o9)
  }

  function ReadPose(b: seq<u8>, o: nat): Read<Pose> {
    var (px, o1) :- ReadU64(b, o);
    var (py, o2) :- ReadU64(b, o1);
    var (pz, o3) :- ReadU64(b, o2);
    var (ox, o4) :- ReadU64(b, o3);
    var (oy, o5) :- ReadU64(b, o4);
    var (oz, o6) :- ReadU64(b, o5);
    var (ow, o7) :- ReadU64(b, o6);
    Got(Pose(px, py, pz, ox, oy, oz, ow), o7)
  }

  function ReadPath(b: seq<u8>, o: nat): Read<Path> {
    var (header, o1) :- ReadHeader(b, o);
    var (size, o2) :- ReadU64(b, o1);
    var (points, o3) :- ReadList(ReadPose, b, o2, size);
    Got(Path(header, points), o3)
  }

  // ----- Each reader undoes its writer, both ways

  lemma HeaderLaw(b: seq<u8>, o: nat, h: Header, n: nat)
    ensures ReadHeader(b, o) == Got(h, n) <==> HeaderFits(h) && n == o + |HeaderBytes(h)| && Holds(b, o, HeaderBytes(h))
  {
    hide Le32, Le64, ReadU32, ReadU64, ReadBlob, Holds;
    var p1 := Le32(h.sequence);
    var p2 := p1 + Le64(h.stamp);
    var p3 := p2 + Le32(|h.frameId| % TWO32);
    HoldsConcat(b, o, p1, Le64(h.stamp));
    HoldsConcat(b, o, p2, Le32(|h.frameId| % TWO32));
    HoldsConcat(b, o, p3, h.frameId);
    U32Law(b, o, h.sequence, o + |p1|);
    U64Law(b, o + |p1|, h.stamp, o + |p2|);
    U32Law(b, o + |p2|, |h.frameId| % TWO32, o + |p3|);
    BlobLaw(b, o + |p3|, h.frameId, n);
  }

  lemma FieldLaw(b: seq<u8>, o: nat, f: PointField, n: nat)
    ensures ReadField(b, o) == Got(f, n) <==> FieldFits(f) && n == o + |FieldBytes(f)| && Holds(b, o, FieldBytes(f))
  {
    hide Le32, ReadU8, ReadU32, ReadBlob, Holds;
    var p1 := Le32(|f.name| % TWO32);
    var p2 := p1 + f.name;
    var p3 := p2 + Le32(f.offset);
    var p4 := p3 + [f.datatype_];
    HoldsConcat(b, o, p1, f.name);
    HoldsConcat(b, o, p2, Le32(f.offset));
    HoldsConcat(b, o, p3, [f.datatype_]);
    HoldsConcat(b, o, p4, Le32(f.count));
    U32Law(b, o, |f.name| % TWO32, o + |p1|);
    BlobLaw(b, o + |p1|, f.name, o + |p2|);
    U32Law(b, o + |p2|, f.offset, o + |p3|);
    U8Law(b, o + |p3|, f.datatype_, o + |p4|);
    U32Law(b, o + |p4|, f.count, n);
  }

  lemma PoseLaw(b: seq<u8>, o: nat, p: Pose, n: nat)
    ensures ReadPose(b, o) == Got(p, n) <==> n == o + |PoseBytes(p)| && Holds(b, o, PoseBytes(p))
  {
    hide Le64, ReadU64, Holds;
    var p1 := Le64(p.px);
    var p2 := p1 + Le64(p.py);
    var p3 := p2 + Le64(p.pz);
    var p4 := p3 + Le64(p.ox);
    var p5 := p4 + Le64(p.oy);
    var p6 := p5 + Le64(p.oz);
    HoldsConcat(b, o, p1, Le64(p.py));
    HoldsConcat(b, o, p2, Le64(p.pz));
    HoldsConcat(b, o, p3, Le64(p.ox));
    HoldsConcat(b, o, p4, Le64(p.oy));
    HoldsConcat(b, o, p5, Le64(p.oz));
    HoldsConcat(b, o, p6, Le64(p.ow));
    U64Law(b, o, p.px, o + 8);
    U64Law(b, o + 8, p.py, o + 16);
    U64Law(b, o + 16, p.pz, o + 24);
    U64Law(b, o + 24, p.ox, o + 32);
    U64Law(b, o + 32, p.oy, o + 40);
    U64Law(b, o + 40, p.oz, o + 48);
    U64Law(b, o + 48, p.ow, n);
  }

  lemma FieldsLaw(b: seq<u8>, o: nat, fs: seq<PointField>, n: nat)
    ensures ReadList(ReadField, b, o, |fs|) == Got(fs, n) <==>
            && (forall f :: f in fs ==> FieldFits(f))
            && n == o + |ListBytes(FieldBytes, fs)|
            && Holds(b, o, ListBytes(FieldBytes, fs))
  {
    hide FieldBytes, ReadField, Holds;
    forall b: seq<u8>, o: nat, v: PointField, n: nat
      ensures ReadField(b, o) == Got(v, n) <==> FieldFits(v) && n == o + |FieldBytes(v)| && Holds(b, o, FieldBytes(v))
    {
      FieldLaw(b, o, v, n);
    }
    ListLaw(FieldBytes, FieldFits, ReadField, b, o, fs, n);
  }

  lemma FloatsLaw(b: seq<u8>, o: nat, fs: seq<u32>, n: nat)
    ensures ReadList(ReadU32, b, o, |fs|) == Got(fs, n) <==>
            && n == o + |ListBytes(FloatBytes, fs)|
            && Holds(b, o, ListBytes(FloatBytes, fs))
  {
    hide ReadU32, Holds;
    forall b: seq<u8>, o: nat, v: u32, n: nat
      ensures ReadU32(b, o) == Got(v, n) <==> n == o + |FloatBytes(v)| && Holds(b, o, FloatBytes(v))
    {
      U32Law(b, o, v, n);
    }
    ListLaw(FloatBytes, (f: u32) => true, ReadU32, b, o, fs, n);
  }

  lemma PosesLaw(b: seq<u8>, o: nat, ps: seq<Pose>, n: nat)
    ensures ReadList(ReadPose, b, o, |ps|) == Got(ps, n) <==>
            && n == o + |ListBytes(PoseBytes, ps)|
            && Holds(b, o, ListBytes(PoseBytes, ps))
  {
    hide PoseBytes, ReadPose, Holds;
    forall b: seq<u8>, o: nat, v: Pose, n: nat
      ensures ReadPose(b, o) == Got(v, n) <==> n == o + |PoseBytes(v)| && Holds(b, o, PoseBytes(v))
    {
      PoseLaw(b, o, v, n);
    }
    ListLaw(PoseBytes, (p: Pose) => true, ReadPose, b, o, ps, n);
  }

  lemma PathLaw(b: seq<u8>, o: nat, p: Path, n: nat)
    ensures ReadPath(b, o) == Got(p, n) <==> PathFits(p) && n == o + |PathBytes(p)| && Holds(b, o, PathBytes(p))
  {
    hide Le64, ReadU64, ReadHeader, HeaderBytes, Holds, ListBytes, ReadList;
    var p1 := HeaderBytes(p.header);
    var p2 := p1 + Le64(|p.points| % TWO64);
    HoldsConcat(b, o, p1, Le64(|p.points| % TWO64));
    HoldsConcat(b, o, p2, ListBytes(PoseBytes, p.points));
    HeaderLaw(b, o, p.header, o + |p1|);
    U64Law(b, o + |p1|, |p.points| % TWO64, o + |p2|);
    PosesLaw(b, o + |p2|, p.points, n);
    if ReadPath(b, o) == Got(p, n) {
      HeaderLaw(b, o, p.header, ReadHeader(b, o).next);
    }
  }

  lemma CloudLaw(b: seq<u8>, o: nat, c: PointCloud, n: nat)
    ensures ReadCloud(b, o) == Got(c, n) <==> CloudFits(c) && n == o + |CloudBytes(c)| && Holds(b, o, CloudBytes(c))
  {
    hide Le32, BoolBytes, ReadU32, ReadBool, ReadBlob, ReadHeader, HeaderBytes, Holds, ListBytes, ReadList;
    var q1 := HeaderBytes(c.header);
    var q2 := q1 + Le32(c.height);
    var q3 := q2 + Le32(c.width);
    var q4 := q3 + Le32(|c.fields| % TWO32);
    HoldsConcat(b, o, q1, Le32(c.height));
    HoldsConcat(b, o, q2, Le32(c.width));
    HoldsConcat(b, o, q3, Le32(|c.fields| % TWO32));
    HoldsConcat(b, o, q4, ListBytes(FieldBytes, c.fields));
    HoldsConcat(b, o, CloudHead(c), CloudTail(c));
    var m := o + |CloudHead(c)|;
    var r1 := BoolBytes(c.isBigEndian);
    var r2 := r1 + Le32(c.pointStep);
    var r3 := r2 + Le32(c.rowStep);
    var r4 := r3 + Le32(|c.data| % TWO32);
    var r5 := r4 + c.data;
    HoldsConcat(b, m, r1, Le32(c.pointStep));
    HoldsConcat(b, m, r2, Le32(c.rowStep));
    HoldsConcat(b, m, r3, Le32(|c.data| % TWO32));
    HoldsConcat(b, m, r4, c.data);
    HoldsConcat(b, m, r5, BoolBytes(c.isDense));
    HeaderLaw(b, o, c.header, o + |q1|);
    U32Law(b, o + |q1|, c.height, o + |q2|);
    U32Law(b, o + |q2|, c.width, o + |q3|);
    U32Law(b, o + |q3|, |c.fields| % TWO32, o + |q4|);
    FieldsLaw(b, o + |q4|, c.fields, m);
    BoolLaw(b, m, c.isBigEndian, m + |r1|);
    U32Law(b, m + |r1|, c.pointStep, m + |r2|);
    U32Law(b, m + |r2|, c.rowStep, m + |r3|);
    U32Law(b, m + |r3|, |c.data| % TWO32, m + |r4|);
    BlobLaw(b, m + |r4|, c.data, m + |r5|);
    BoolLaw(b, m + |r5|, c.isDense, n);
    if ReadCloud(b, o) == Got(c, n) {
      HeaderLaw(b, o, c.header, ReadHeader(b, o).next);
      FieldsLaw(b, o + |q4|, c.fields, ReadList(ReadField, b, o + |q4|, |c.fields|).next);
    }
  }

  lemma ReadingsLaw(b: seq<u8>, m: nat, s: LaserScan, n: nat)
    ensures ReadReadings(b, m) == Got((s.ranges, s.intensities), n)
            <==> |s.ranges| < TWO64 && |s.intensities| < TWO64 && n == m + |ScanTail(s)| && Holds(b, m, ScanTail(s))
  {
    hide Le64, ReadU64, Holds, ListBytes, ReadList;
    var r1 := Le64(|s.ranges| % TWO64);
    var r2 := r1 + ListBytes(FloatBytes, s.ranges);
    var r3 := r2 + Le64(|s.intensities| % TWO64);
    HoldsConcat(b, m, r1, ListBytes(FloatBytes, s.ranges));
    HoldsConcat(b, m, r2, Le64(|s.intensities| % TWO64));
    HoldsConcat(b, m, r3, ListBytes(FloatBytes, s.intensities));
    U64Law(b, m, |s.ranges| % TWO64, m + |r1|);
    FloatsLaw(b, m + |r1|, s.ranges, m + |r2|);
    U64Law(b, m + |r2|, |s.intensities| % TWO64, m + |r3|);
    FloatsLaw(b, m + |r3|, s.intensities, n);
    if ReadReadings(b, m) == Got((s.ranges, s.intensities), n) {
      FloatsLaw(b, m + |r1|, s.ranges, ReadList(ReadU32, b, m + |r1|, |s.ranges|).next);
    }
  }

  lemma ScanLaw(b: seq<u8>, o: nat, s: LaserScan, n: nat)
    ensures ReadScan(b, o) == Got(s, n) <==> ScanFits(s) && n == o + |ScanBytes(s)| && Holds(b, o, ScanBytes(s))
  {
    hide Le32, ReadU32, ReadHeader, HeaderBytes, Holds, ReadReadings, ScanTail;
    var q1 := HeaderBytes(s.header);
    var q2 := q1 + Le32(s.angleMin);
    var q3 := q2 + Le32(s.angleMax);
    var q4 := q3 + Le32(s.angleIncrement);
    var q5 := q4 + Le32(s.timeIncrement);
    var q6 := q5 + Le32(s.scanTime);
    var q7 := q6 + Le32(s.rangeMin);
    HoldsConcat(b, o, q1, Le32(s.angleMin));
    HoldsConcat(b, o, q2, Le32(s.angleMax));
    HoldsConcat(b, o, q3, Le32(s.angleIncrement));
    HoldsConcat(b, o, q4, Le32(s.timeIncrement));
    HoldsConcat(b, o, q5, Le32(s.scanTime));
    HoldsConcat(b, o, q6, Le32(s.rangeMin));
    HoldsConcat(b, o, q7, Le32(s.rangeMax));
    HoldsConcat(b, o, ScanHead(s), ScanTail(s));
    var m := o + |ScanHead(s)|;
    HeaderLaw(b, o, s.header, o + |q1|);
    U32Law(b, o + |q1|, s.angleMin, o + |q2|);
    U32Law(b, o + |q2|, s.angleMax, o + |q3|);
    U32Law(b, o + |q3|, s.angleIncrement, o + |q4|);
    U32Law(b, o + |q4|, s.timeIncrement, o + |q5|);
    U32Law(b, o + |q5|, s.scanTime, o + |q6|);
    U32Law(b, o + |q6|, s.rangeMin, o + |q7|);
    U32Law(b, o + |q7|, s.rangeMax, m);
    ReadingsLaw(b, m, s, n);
    if ReadScan(b, o) == Got(s, n) {
      HeaderLaw(b, o, s.header, ReadHeader(b, o).next);
    }
  }

  // ----- Theorems

  /**
   * A point cloud embedded anywhere is read back, with the offset advanced by exactly its length,
   * if and only if its sizes fit their 32-bit prefixes.
   */
  lemma CloudRoundTrip(before: seq<u8>, c: PointCloud, after: seq<u8>)
    ensures ReadCloud(before + CloudBytes(c) + after, |before|) == Got(c, |before| + |CloudBytes(c)|) <==> CloudFits(c)
  {
    hide CloudBytes, ReadCloud, Holds;
    HoldsEmbedded(before, CloudBytes(c), after);
    CloudLaw(before + CloudBytes(c) + after, |before|, c, |before| + |CloudBytes(c)|);
  }

  /** No point cloud's bytes are a proper prefix of another's. */
  lemma CloudPrefixFree(c: PointCloud, d: PointCloud)
    requires CloudFits(c) && CloudFits(d) && CloudBytes(c) <= CloudBytes(d)
    ensures c == d
  {
    hide CloudBytes, ReadCloud, CloudFits;
    var b := CloudBytes(d);
    CloudLaw(b, 0, c, |CloudBytes(c)|);
    CloudLaw(b, 0, d, |CloudBytes(d)|);
  }

  lemma ScanRoundTrip(s: LaserScan, after: seq<u8>)
    ensures ReadScan(ScanBytes(s) + after, 0) == Got(s, |ScanBytes(s)|) <==> ScanFits(s)
    ensures |ScanBytes(s)| == 16 + |s.header.frameId| + 44 + 4 * |s.ranges| + 4 * |s.intensities|
  {
    hide ReadScan, ScanFits, ListBytes, Le32, Le64;
    ScanLaw(ScanBytes(s) + after, 0, s, |ScanBytes(s)|);
    ListBytesLength(FloatBytes, 4, s.ranges);
    ListBytesLength(FloatBytes, 4, s.intensities);
  }

  lemma PathRoundTrip(p: Path, after: seq<u8>)
    ensures ReadPath(PathBytes(p) + after, 0) == Got(p, |PathBytes(p)|) <==> PathFits(p)
    ensures |PathBytes(p)| == 16 + |p.header.frameId| + 8 + 56 * |p.points|
  {
    hide ReadPath, PathFits, ListBytes, Le32, Le64;
    PathLaw(PathBytes(p) + after, 0, p, |PathBytes(p)|);
    ListBytesLength(PoseBytes, 56, p.points);
  }

  lemma ScanPrefixFree(s: LaserScan, t: LaserScan)
    requires ScanFits(s) && ScanFits(t) && ScanBytes(s) <= ScanBytes(t)
    ensures s == t
  {
    hide ScanBytes, ReadScan, ScanFits;
    ScanLaw(ScanBytes(t), 0, s, |ScanBytes(s)|);
    ScanLaw(ScanBytes(t), 0, t, |ScanBytes(t)|);
  }

  lemma PathPrefixFree(p: Path, q: Path)
    requires PathFits(p) && PathFits(q) && PathBytes(p) <= PathBytes(q)
    ensures p == q
  {
    hide PathBytes, ReadPath, PathFits;
    PathLaw(PathBytes(q), 0, p, |PathBytes(p)|);
    PathLaw(PathBytes(q), 0, q, |PathBytes(q)|);
  }
}
