/**
 * Parameters and their JSON form.
 *
 * Strings are sequences of characters, a 64-bit float is its opaque 8-byte word, and a JSON document
 * is the tree that the parser hands over. A byte array travels as its base64 string; only a
 * top-level one carries the type tag that turns it back.
 */
module ParameterJson {
  import opened Wrappers
  import opened Bytes
  import Base64

  type int64 = x: int | -0x8000_0000_0000_0000 <= x < 0x8000_0000_0000_0000

  datatype ParameterValue =
    | NotSet
    | Bool(bool)
    | Integer(int64)
    | Double(u64)
    | String(string)
    | Array(items: seq<ParameterValue>)
    | Struct(members: map<string, ParameterValue>)
    | ByteArray(bytes: seq<u8>)

  datatype Parameter = Parameter(name: string, value: ParameterValue)

  datatype Json =
    | Null
    | Boolean(bool)
    | NumberInteger(int64)
    | NumberUnsigned(u64)
    | NumberFloat(u64)
    | Text(text: string)
    | List(elements: seq<Json>)
    | Object(fields: map<string, Json>)

  datatype Error = MissingName | BadBase64(Base64.Error)

  // ----- Values

  function ValueToJson(p: ParameterValue): Json {
    match p
    case Bool(b) => Boolean(b)
    case Integer(i) => NumberInteger(i)
    case Double(d) => NumberFloat(d)
    case String(s) => Text(s)
    case ByteArray(bytes) => Text(Base64.Encoded(bytes))
    case Struct(members) => Object(map k | k in members :: ValueToJson(members[k]))
    case Array(items) => List(seq(|items|, i requires 0 <= i < |items| => ValueToJson(items[i])))
    case NotSet => Null
  }

  /** Reads an unsigned JSON number as a signed one, as the conversion of the JSON library does. */
  function Signed(n: u64): int64 {
    if n < 0x8000_0000_0000_0000 then n else n - TWO64
  }

  function ValueFromJson(j: Json): ParameterValue {
    match j
    case Text(s) => String(s)
    case Boolean(b) => Bool(b)
    case NumberInteger(i) => Integer(i)
    case NumberUnsigned(n) => Integer(Signed(n))
    case NumberFloat(d) => Double(d)
    case Object(fields) => Struct(map k | k in fields :: ValueFromJson(fields[k]))
    case List(elements) => Array(seq(|elements|, i requires 0 <= i < |elements| => ValueFromJson(elements[i])))
    case Null => NotSet
  }

  /** The value with every byte array, at any depth, replaced by its base64 string. */
  function Flattened(p: ParameterValue): ParameterValue {
    match p
    case ByteArray(bytes) => String(Base64.Encoded(bytes))
    case Struct(members) => Struct(map k | k in members :: Flattened(members[k]))
    case Array(items) => Array(seq(|items|, i requires 0 <= i < |items| => Flattened(items[i])))
    case _ => p
  }

  predicate HasByteArray(p: ParameterValue) {
    match p
    case ByteArray(_) => true
    case Struct(members) => exists k :: k in members && HasByteArray(members[k])
    case Array(items) => exists i :: 0 <= i < |items| && HasByteArray(items[i])
    case _ => false
  }

  lemma {:induction false} ValueRoundTrip(p: ParameterValue)
    ensures ValueFromJson(ValueToJson(p)) == Flattened(p)
  {
    match p
    case Struct(members) =>
      forall k | k in members
        ensures ValueFromJson(ValueToJson(members[k])) == Flattened(members[k])
      {
        ValueRoundTrip(members[k]);
      }
    case Array(items) =>
      forall i | 0 <= i < |items|
        ensures ValueFromJson(ValueToJson(items[i])) == Flattened(items[i])
      {
        ValueRoundTrip(items[i]);
      }
    case _ =>
  }

  /** Flattening changes a value exactly when a byte array is in it. */
  lemma {:induction false} FlattenedIsIdentity(p: ParameterValue)
    ensures Flattened(p) == p <==> !HasByteArray(p)
  {
    match p
    case Struct(members) =>
      forall k | k in members
        ensures Flattened(members[k]) == members[k] <==> !HasByteArray(members[k])
      {
        FlattenedIsIdentity(members[k]);
      }
      if Flattened(p) == p {
        forall k | k in members
          ensures !HasByteArray(members[k])
        {
          assert Flattened(p).members[k] == members[k];
        }
      }
    case Array(items) =>
      forall i | 0 <= i < |items|
        ensures Flattened(items[i]) == items[i] <==> !HasByteArray(items[i])
      {
        FlattenedIsIdentity(items[i]);
      }
      if Flattened(p) == p {
        forall i | 0 <= i < |items|
          ensures !HasByteArray(items[i])
        {
          assert Flattened(p).items[i] == items[i];
        }
      }
    case _ =>
  }

  // ----- Parameters

  function ToJson(p: Parameter): Json {
    var fields := map["value" := ValueToJson(p.value), "name" := Text(p.name)];
    Object(if p.value.ByteArray? then fields["type" := Text("byte_array")] else fields)
  }

  function FromJson(j: Json): Result<Parameter, Error> {
    if !j.Object? || "name" !in j.fields || !j.fields["name"].Text? then Failure(MissingName)
    else
      var name := j.fields["name"].text;
      if "value" !in j.fields then Success(Parameter(name, NotSet))
      else
        var value := ValueFromJson(j.fields["value"]);
        if "type" in j.fields && j.fields["type"] == Text("byte_array") && value.String? then
          match Base64.Decoded(j.fields["value"].text)
          case Failure(e) => Failure(BadBase64(e))
          case Success(bytes) => Success(Parameter(name, ByteArray(bytes)))
        else
          Success(Parameter(name, value))
  }

  /** What comes back: a top-level byte array as it was, anything else flattened. */
  function Normal(p: Parameter): Parameter {
    if p.value.ByteArray? then p else Parameter(p.name, Flattened(p.value))
  }

  lemma RoundTrip(p: Parameter)
    ensures FromJson(ToJson(p)) == Success(Normal(p))
  {
    ValueRoundTrip(p.value);
    assert "value"[0] != "name"[0] && "value"[0] != "type"[0] && "name"[0] != "type"[0];
    if p.value.ByteArray? {
      Base64.DecodeEncode(p.value.bytes);
    }
  }

  /** The tree a JSON parser builds for the text of `j`: it reads a natural number as unsigned. */
  function Reparsed(j: Json): Json {
    match j
    case NumberInteger(i) => if i >= 0 then NumberUnsigned(i) else j
    case Object(fields) => Object(map k | k in fields :: Reparsed(fields[k]))
    case List(elements) => List(seq(|elements|, i requires 0 <= i < |elements| => Reparsed(elements[i])))
    case _ => j
  }

  lemma {:induction false} ReparsedReadsTheSame(j: Json)
    ensures ValueFromJson(Reparsed(j)) == ValueFromJson(j)
  {
    match j
    case Object(fields) =>
      forall k | k in fields
        ensures ValueFromJson(Reparsed(fields[k])) == ValueFromJson(fields[k])
      {
        ReparsedReadsTheSame(fields[k]);
      }
    case List(elements) =>
      forall i | 0 <= i < |elements|
        ensures ValueFromJson(Reparsed(elements[i])) == ValueFromJson(elements[i])
      {
        ReparsedReadsTheSame(elements[i]);
      }
    case _ =>
  }

  /** The round trip does not depend on how a parser classifies integers. */
  lemma RoundTripThroughParser(p: Parameter)
    ensures FromJson(Reparsed(ToJson(p))) == Success(Normal(p))
  {
    RoundTrip(p);
    ReparsedReadsTheSame(ValueToJson(p.value));
    assert "value"[0] != "name"[0] && "value"[0] != "type"[0] && "name"[0] != "type"[0];
  }

  /** The round trip loses something exactly when a byte array lies below the top level. */
  lemma RoundTripIsExact(p: Parameter)
    ensures FromJson(ToJson(p)) == Success(p) <==> p.value.ByteArray? || !HasByteArray(p.value)
  {
    RoundTrip(p);
    FlattenedIsIdentity(p.value);
  }

  /** After one trip nothing more is lost: a second trip is exact. */
  lemma RoundTripSettles(p: Parameter)
    ensures FromJson(ToJson(Normal(p))) == Success(Normal(p))
  {
    RoundTripIsExact(Normal(p));
    if !p.value.ByteArray? {
      FlattenedHasNone(p.value);
    }
  }

  lemma {:induction false} FlattenedHasNone(p: ParameterValue)
    ensures !HasByteArray(Flattened(p))
  {
    match p
    case Struct(members) =>
      forall k | k in members
        ensures !HasByteArray(Flattened(members[k]))
      {
        FlattenedHasNone(members[k]);
      }
    case Array(items) =>
      forall i | 0 <= i < |items|
        ensures !HasByteArray(Flattened(items[i]))
      {
        FlattenedHasNone(items[i]);
      }
    case _ =>
  }

  // ----- The documents themselves

  /** The document says what the value is: its kind, and its contents, down to every part. */
  ghost predicate Says(j: Json, p: ParameterValue) {
    match p
    case NotSet => j == Null
    case Bool(b) => j == Boolean(b)
    case Integer(i) => j == NumberInteger(i)
    case Double(d) => j == NumberFloat(d)
    case String(s) => j == Text(s)
    case ByteArray(bytes) => j.Text? && Base64.Decoded(j.text) == Success(bytes) && |j.text| == 4 * ((|bytes| + 2) / 3)
    case Struct(members) =>
      j.Object? && j.fields.Keys == members.Keys && forall k :: k in members ==> Says(j.fields[k], members[k])
    case Array(items) =>
      j.List? && |j.elements| == |items| && forall i :: 0 <= i < |items| ==> Says(j.elements[i], items[i])
  }

  lemma {:induction false} ValueIsSaid(p: ParameterValue)
    ensures Says(ValueToJson(p), p)
  {
    match p
    case Struct(members) =>
      forall k | k in members
        ensures Says(ValueToJson(members[k]), members[k])
      {
        ValueIsSaid(members[k]);
      }
    case Array(items) =>
      forall i | 0 <= i < |items|
        ensures Says(ValueToJson(items[i]), items[i])
      {
        ValueIsSaid(items[i]);
      }
    case ByteArray(bytes) =>
      Base64.DecodeEncode(bytes);
      Base64.EncodedLength(bytes);
    case _ =>
  }

  /** A parameter's document has its name and its value, and a type just for a byte array, and nothing else. */
  lemma DocumentExactly(p: Parameter, key: string)
    ensures var j := ToJson(p);
            && j.Object?
            && (key in j.fields <==> key == "name" || key == "value" || (key == "type" && p.value.ByteArray?))
            && j.fields["name"] == Text(p.name) && Says(j.fields["value"], p.value)
            && (p.value.ByteArray? ==> j.fields["type"] == Text("byte_array"))
  {
    hide Says;
    ValueIsSaid(p.value);
    assert "value"[0] != "name"[0] && "value"[0] != "type"[0] && "name"[0] != "type"[0];
  }

  /** The value is what the document says, an unsigned number being read as the signed one with its bits. */
  ghost predicate ReadAs(j: Json, p: ParameterValue) {
    match j
    case Null => p == NotSet
    case Boolean(b) => p == Bool(b)
    case NumberInteger(i) => p == Integer(i)
    case NumberUnsigned(n) =>
      if n < 9_223_372_036_854_775_808 then p == Integer(n) else p == Integer(n - 18_446_744_073_709_551_616)
    case NumberFloat(d) => p == Double(d)
    case Text(s) => p == String(s)
    case Object(fields) =>
      p.Struct? && p.members.Keys == fields.Keys && forall k :: k in fields ==> ReadAs(fields[k], p.members[k])
    case List(elements) =>
      p.Array? && |p.items| == |elements| && forall i :: 0 <= i < |elements| ==> ReadAs(elements[i], p.items[i])
  }

  lemma {:induction false} ValueIsRead(j: Json)
    ensures ReadAs(j, ValueFromJson(j))
  {
    match j
    case Object(fields) =>
      forall k | k in fields
        ensures ReadAs(fields[k], ValueFromJson(fields[k]))
      {
        ValueIsRead(fields[k]);
      }
    case List(elements) =>
      forall i | 0 <= i < |elements|
        ensures ReadAs(elements[i], ValueFromJson(elements[i]))
      {
        ValueIsRead(elements[i]);
      }
    case _ =>
  }

  /** The document is tagged as a byte array, and its value is a string. */
  predicate Tagged(fields: map<string, Json>) {
    && "type" in fields && fields["type"] == Text("byte_array")
    && "value" in fields && fields["value"].Text?
  }

  /**
   * Of any document: reading fails exactly if it has no name that is a string, or if it is tagged as a
   * byte array and its string is not base64. Otherwise the name is read, and the value is what the
   * string stands for if it is tagged, unset if there is none, and what is said in any other case.
   */
  lemma ReadingExactly(j: Json)
    ensures var r, fields := FromJson(j), if j.Object? then j.fields else map[];
            var named := "name" in fields && fields["name"].Text?;
            && (r == Failure(MissingName) <==> !named)
            && (named && Tagged(fields) ==>
                  var bytes := Base64.Decoded(fields["value"].text);
                  r == if bytes.Failure? then Failure(BadBase64(bytes.error))
                       else Success(Parameter(fields["name"].text, ByteArray(bytes.value))))
            && (named && !Tagged(fields) ==>
                  && r.Success? && r.value.name == fields["name"].text
                  && if "value" in fields then ReadAs(fields["value"], r.value.value) else r.value.value == NotSet)
  {
    hide ReadAs;
    if j.Object? && "value" in j.fields {
      ValueIsRead(j.fields["value"]);
    }
  }
}
