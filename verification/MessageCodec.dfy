/**
 * The serializers of the sending program and the deserializers of the receiving one, statement by
 * statement: a growing buffer on one side, a threaded offset on the other. Each is proved against
 * the byte image or the reader of module Messages.
 */
module MessageCodec {
  import opened Bytes
  import opened Wire
  import opened Messages

  // ----- Sender

  method SerializeHeader(h: Header) returns (buffer: seq<u8>)
    ensures buffer == HeaderBytes(h)
  {
    buffer := [];
    buffer := buffer + Le32(h.sequence);
    buffer := buffer + Le64(h.stamp);
    var frameIdSize := |h.frameId| % TWO32;
    buffer := buffer + Le32(frameIdSize);
    buffer := buffer + h.frameId;
  }

  method SerializeField(f: PointField) returns (buffer: seq<u8>)
    ensures buffer == FieldBytes(f)
  {
    buffer := [];
    var nameSize := |f.name| % TWO32;
    buffer := buffer + Le32(nameSize);
    buffer := buffer + f.name;
    buffer := buffer + Le32(f.offset);
    buffer := buffer + [f.datatype_];
    buffer := buffer + Le32(f.count);
  }

  method SerializeCloud(c: PointCloud) returns (buffer: seq<u8>)
    ensures buffer == CloudBytes(c)
  {
    hide Le32, HeaderBytes, FieldBytes, BoolBytes;
    buffer := SerializeHeader(c.header);
    buffer := buffer + Le32(c.height);
    buffer := buffer + Le32(c.width);
    var fieldsSize := |c.fields| % TWO32;
    buffer := buffer + Le32(fieldsSize);
    ghost var head := buffer;
    for i := 0 to |c.fields|
      invariant buffer == head + ListBytes(FieldBytes, c.fields[..i])
    {
      var fieldBuffer := SerializeField(c.fields[i]);
      buffer := buffer + fieldBuffer;
      ListBytesAppend(FieldBytes, c.fields[..i], c.fields[i]);
      assert c.fields[..i + 1] == c.fields[..i] + [c.fields[i]];
    }
    assert c.fields[..|c.fields|] == c.fields;
    assert buffer == CloudHead(c);
    buffer := buffer + BoolBytes(c.isBigEndian);
    buffer := buffer + Le32(c.pointStep);
    buffer := buffer + Le32(c.rowStep);
    var dataSize := |c.data| % TWO32;
    buffer := buffer + Le32(dataSize);
    buffer := buffer + c.data;
    buffer := buffer + BoolBytes(c.isDense);
    assert buffer == CloudHead(c) + CloudTail(c);
  }

  method SerializeScan(s: LaserScan) returns (buffer: seq<u8>)
    ensures buffer == ScanBytes(s)
  {
    hide Le32, Le64, HeaderBytes, ListBytes;
    buffer := SerializeHeader(s.header);
    buffer := buffer + Le32(s.angleMin);
    buffer := buffer + Le32(s.angleMax);
    buffer := buffer + Le32(s.angleIncrement);
    buffer := buffer + Le32(s.timeIncrement);
    buffer := buffer + Le32(s.scanTime);
    buffer := buffer + Le32(s.rangeMin);
    buffer := buffer + Le32(s.rangeMax);
    assert buffer == ScanHead(s);
    var rangesSize := |s.ranges| % TWO64;
    buffer := buffer + Le64(rangesSize);
    buffer := buffer + ListBytes(FloatBytes, s.ranges);
    var intensitiesSize := |s.intensities| % TWO64;
    buffer := buffer + Le64(intensitiesSize);
    buffer := buffer + ListBytes(FloatBytes, s.intensities);
    assert buffer == ScanHead(s) + ScanTail(s);
  }

  method SerializePath(p: Path) returns (buffer: seq<u8>)
    ensures buffer == PathBytes(p)
  {
    hide Le64, HeaderBytes;
    buffer := SerializeHeader(p.header);
    var pointsSize := |p.points| % TWO64;
    buffer := buffer + Le64(pointsSize);
    ghost var head := buffer;
    for i := 0 to |p.points|
      invariant buffer == head + ListBytes(PoseBytes, p.points[..i])
    {
      ghost var before := buffer;
      var point := p.points[i];
      buffer := buffer + Le64(point.px);
      buffer := buffer + Le64(point.py);
      buffer := buffer + Le64(point.pz);
      buffer := buffer + Le64(point.ox);
      buffer := buffer + Le64(point.oy);
      buffer := buffer + Le64(point.oz);
      buffer := buffer + Le64(point.ow);
      assert buffer == before + PoseBytes(point);
      ListBytesAppend(PoseBytes, p.points[..i], point);
      assert p.points[..i + 1] == p.points[..i] + [point];
    }
    assert p.points[..|p.points|] == p.points;
  }

  // ----- Receiver

  method DeserializeHeader(buffer: seq<u8>, offset: nat) returns (header: Header, next: nat)
    requires ReadHeader(buffer, offset).Got?
    ensures ReadHeader(buffer, offset) == Got(header, next)
  {
    Ranges();
    next := offset;
    var sequence := FromLe(buffer[next..next + 4]);
    next := next + 4;
    var stamp := FromLe(buffer[next..next + 8]);
    next := next + 8;
    var frameIdSize := FromLe(buffer[next..next + 4]);
    next := next + 4;
    var frameId := buffer[next..next + frameIdSize];
    next := next + frameIdSize;
    header := Header(sequence, stamp, frameId);
  }

  method DeserializeField(buffer: seq<u8>, offset: nat) returns (field: PointField, next: nat)
    requires ReadField(buffer, offset).Got?
    ensures ReadField(buffer, offset) == Got(field, next)
  {
    Ranges();
    next := offset;
    var nameSize := FromLe(buffer[next..next + 4]);
    next := next + 4;
    var name := buffer[next..next + nameSize];
    next := next + nameSize;
    var fieldOffset := FromLe(buffer[next..next + 4]);
    next := next + 4;
    var datatype_ := buffer[next];
    next := next + 1;
    var count := FromLe(buffer[next..next + 4]);
    next := next + 4;
    field := PointField(name, fieldOffset, datatype_, count);
  }

  /** Reading `count` records with `i` already read into `done` is reading the rest. */
  ghost predicate ReadSoFar<T>(read: (seq<u8>, nat) -> Read<T>, whole: Read<seq<T>>, done: seq<T>,
                               b: seq<u8>, o: nat, left: nat)
  {
    var rest := ReadList(read, b, o, left);
    whole.Got? && rest.Got? && whole.value == done + rest.value && whole.next == rest.next
  }

  lemma ReadOneMore<T>(read: (seq<u8>, nat) -> Read<T>, whole: Read<seq<T>>, done: seq<T>,
                       b: seq<u8>, o: nat, left: nat)
    requires ReadSoFar(read, whole, done, b, o, left) && left > 0
    ensures read(b, o).Got?
    ensures ReadSoFar(read, whole, done + [read(b, o).value], b, read(b, o).next, left - 1)
  {
    var Got(x, p) := read(b, o);
    var rest := ReadList(read, b, p, left - 1);
    assert done + ([x] + rest.value) == done + [x] + rest.value;
  }

  lemma ReadAll<T>(read: (seq<u8>, nat) -> Read<T>, whole: Read<seq<T>>, done: seq<T>, b: seq<u8>, o: nat)
    requires ReadSoFar(read, whole, done, b, o, 0)
    ensures whole == Got(done, o)
  {
    assert done + [] == done;
  }

  method DeserializeCloud(buffer: seq<u8>, offset: nat) returns (cloud: PointCloud, next: nat)
    requires ReadCloud(buffer, offset).Got?
    ensures ReadCloud(buffer, offset) == Got(cloud, next)
  {
    hide FromLe, Range, ReadHeader, ReadField;
    Ranges();
    var header;
    header, next := DeserializeHeader(buffer, offset);
    var height := FromLe(buffer[next..next + 4]);
    next := next + 4;
    var width := FromLe(buffer[next..next + 4]);
    next := next + 4;
    var fieldsSize := FromLe(buffer[next..next + 4]);
    next := next + 4;
    ghost var whole := ReadList(ReadField, buffer, next, fieldsSize);
    assert whole.Got? ==> [] + whole.value == whole.value;
    var fields: seq<PointField> := [];
    for i := 0 to fieldsSize
      invariant ReadSoFar(ReadField, whole, fields, buffer, next, fieldsSize - i)
    {
      ReadOneMore(ReadField, whole, fields, buffer, next, fieldsSize - i);
      var field;
      field, next := DeserializeField(buffer, next);
      fields := fields + [field];
    }
    ReadAll(ReadField, whole, fields, buffer, next);
    var isBigEndian := buffer[next] == 1;
    next := next + 1;
    var pointStep := FromLe(buffer[next..next + 4]);
    next := next + 4;
    var rowStep := FromLe(buffer[next..next + 4]);
    next := next + 4;
    var dataSize := FromLe(buffer[next..next + 4]);
    next := next + 4;
    var data := buffer[next..next + dataSize];
    next := next + dataSize;
    var isDense := buffer[next] == 1;
    next := next + 1;
    cloud := PointCloud(header, height, width, fields, isBigEndian, pointStep, rowStep, data, isDense);
  }

  method DeserializeScan(buffer: seq<u8>) returns (scan: LaserScan)
    requires ReadScan(buffer, 0).Got?
    ensures ReadScan(buffer, 0).value == scan
  {
    hide FromLe, Range, ReadHeader;
    Ranges();
    var header, next := DeserializeHeader(buffer, 0);
    var angleMin := FromLe(buffer[next..next + 4]);
    next := next + 4;
    var angleMax := FromLe(buffer[next..next + 4]);
    next := next + 4;
    var angleIncrement := FromLe(buffer[next..next + 4]);
    next := next + 4;
    var timeIncrement := FromLe(buffer[next..next + 4]);
    next := next + 4;
    var scanTime := FromLe(buffer[next..next + 4]);
    next := next + 4;
    var rangeMin := FromLe(buffer[next..next + 4]);
    next := next + 4;
    var rangeMax := FromLe(buffer[next..next + 4]);
    next := next + 4;
    var rangesSize := FromLe(buffer[next..next + 8]);
    next := next + 8;
    var ranges := CopyFloats(buffer, next, rangesSize);
    next := next + 4 * rangesSize;
    var intensitiesSize := FromLe(buffer[next..next + 8]);
    next := next + 8;
    var intensities := CopyFloats(buffer, next, intensitiesSize);
    scan := LaserScan(header, angleMin, angleMax, angleIncrement, timeIncrement, scanTime, rangeMin, rangeMax,
                      ranges, intensities);
  }

  /** The block copy of `count` 4-byte words into a vector of floats. */
  method CopyFloats(buffer: seq<u8>, offset: nat, count: nat) returns (floats: seq<u32>)
    requires ReadList(ReadU32, buffer, offset, count).Got?
    ensures ReadList(ReadU32, buffer, offset, count) == Got(floats, offset + 4 * count)
  {
    hide ReadU32, FromLe, Range;
    Ranges();
    ghost var whole := ReadList(ReadU32, buffer, offset, count);
    assert [] + whole.value == whole.value;
    floats := [];
    var next := offset;
    for i := 0 to count
      invariant next == offset + 4 * i && ReadSoFar(ReadU32, whole, floats, buffer, next, count - i)
    {
      hide ReadSoFar;
      ReadOneMore(ReadU32, whole, floats, buffer, next, count - i);
      Word(buffer, next);
      floats := floats + [FromLe(buffer[next..next + 4])];
      next := next + 4;
    }
    ReadAll(ReadU32, whole, floats, buffer, next);
  }

  lemma Word(b: seq<u8>, o: nat)
    requires ReadU32(b, o).Got?
    ensures o + 4 <= |b| && FromLe(b[o..o + 4]) < TWO32
    ensures ReadU32(b, o) == Got(FromLe(b[o..o + 4]), o + 4)
  {
    hide FromLe;
    Ranges();
  }

  lemma PoseWords(b: seq<u8>, o: nat)
    requires ReadPose(b, o).Got?
    ensures o + 56 <= |b|
    ensures ReadPose(b, o) ==
            Got(Pose(FromLe(b[o..o + 8]), FromLe(b[o + 8..o + 16]), FromLe(b[o + 16..o + 24]),
                     FromLe(b[o + 24..o + 32]), FromLe(b[o + 32..o + 40]), FromLe(b[o + 40..o + 48]),
                     FromLe(b[o + 48..o + 56])), o + 56)
  {
    hide FromLe;
    Ranges();
  }

  method DeserializePath(buffer: seq<u8>) returns (path: Path)
    requires ReadPath(buffer, 0).Got?
    ensures ReadPath(buffer, 0).value == path
  {
    hide FromLe, Range, ReadHeader, ReadPose;
    Ranges();
    var header, next := DeserializeHeader(buffer, 0);
    var pointsSize := FromLe(buffer[next..next + 8]);
    next := next + 8;
    ghost var whole := ReadList(ReadPose, buffer, next, pointsSize);
    assert whole.Got? ==> [] + whole.value == whole.value;
    var points: seq<Pose> := [];
    for i := 0 to pointsSize
      invariant ReadSoFar(ReadPose, whole, points, buffer, next, pointsSize - i)
    {
      ReadOneMore(ReadPose, whole, points, buffer, next, pointsSize - i);
      PoseWords(buffer, next);
      var px := FromLe(buffer[next..next + 8]);
      next := next + 8;
      var py := FromLe(buffer[next..next + 8]);
      next := next + 8;
      var pz := FromLe(buffer[next..next + 8]);
      next := next + 8;
      var ox := FromLe(buffer[next..next + 8]);
      next := next + 8;
      var oy := FromLe(buffer[next..next + 8]);
      next := next + 8;
      var oz := FromLe(buffer[next..next + 8]);
      next := next + 8;
      var ow := FromLe(buffer[next..next + 8]);
      next := next + 8;
      points := points + [Pose(px, py, pz, ox, oy, oz, ow)];
    }
    ReadAll(ReadPose, whole, points, buffer, next);
    path := Path(header, points);
  }

  // ----- The two programs together

  /** What the sender serializes, the receiver deserializes to, wherever it stands in the buffer. */
  method CloudCrosses(before: seq<u8>, c: PointCloud, after: seq<u8>) returns (received: PointCloud, next: nat)
    requires CloudFits(c)
    ensures received == c && next == |before| + |CloudBytes(c)|
  {
    var bytes := SerializeCloud(c);
    CloudRoundTrip(before, c, after);
    received, next := DeserializeCloud(before + bytes + after, |before|);
  }

  /** Likewise a scan and a path, which the receiver reads from the start of a buffer. */
  method ScanCrosses(s: LaserScan, after: seq<u8>) returns (received: LaserScan)
    requires ScanFits(s)
    ensures received == s
  {
    hide ScanBytes, ReadScan;
    var bytes := SerializeScan(s);
    ScanRoundTrip(s, after);
    received := DeserializeScan(bytes + after);
  }

  method PathCrosses(p: Path, after: seq<u8>) returns (received: Path)
    requires PathFits(p)
    ensures received == p
  {
    hide PathBytes, ReadPath;
    var bytes := SerializePath(p);
    PathRoundTrip(p, after);
    received := DeserializePath(bytes + after);
  }
}
