/** The parser: a cursor that moves over the bytes, proved against the reading functions. */
module GgufParser {
  import opened Errors
  import opened Bytes
  import opened ByteLevel
  import opened Gguf

  /** A method's result and the cursor's position are what the reading function says. */
  ghost predicate Agrees<T>(r: Result<T>, pos: nat, spec: Read<T>) {
    match spec
    case Failure(e) => r == Failure(e)
    case Success(v) => r == Success(v.0) && pos == v.1
  }

  class Cursor {
    const data: seq<Byte>
    var pos: nat

    ghost predicate Valid()
      reads this
    {
      pos <= |data|
    }

    constructor (bytes: seq<Byte>)
      ensures Valid() && data == bytes && pos == 0
    {
      data, pos := bytes, 0;
    }

    function Remaining(): nat
      reads this
    {
      if pos <= |data| then |data| - pos else 0
    }

    method ReadBytes(n: nat) returns (r: Result<seq<Byte>>)
      requires Valid()
      modifies this
      ensures Valid() && Agrees(r, pos, Take(data, old(pos), n))
    {
      if Remaining() < n { return Failure(UnexpectedEof(pos)); }
      r := Success(data[pos..pos + n]);
      pos := pos + n;
    }

    /** `read_u8` to `read_u64`, by width. */
    method ReadUnsigned(w: nat) returns (r: Result<nat>)
      requires Valid()
      modifies this
      ensures Valid() && Agrees(r, pos, Number(data, old(pos), w))
    {
      var bytes :- ReadBytes(w);
      return Success(LeValue(bytes));
    }

    method ReadString() returns (r: Result<string>)
      requires Valid()
      modifies this
      ensures Valid() && Agrees(r, pos, ReadStr(data, old(pos)))
    {
      hide Number;
      var len :- ReadUnsigned(8);
      if Remaining() < len { return Failure(UnexpectedEof(pos)); }
      var bytes := data[pos..pos + len];
      pos := pos + len;
      match Utf8Decode(bytes)
      case None => return Failure(InvalidString(pos - len));
      case Some(s) => return Success(s);
    }

    /** `read_metadata_value`; arrays read their elements through it, and an array of arrays is refused
        before its count is read. */
    method ReadMetadataValue(typeId: nat) returns (r: Result<Value>)
      requires Valid()
      modifies this
      ensures Valid() && Agrees(r, pos, ReadValue(data, old(pos), typeId))
      decreases if typeId == 9 then 1 else 0
    {
      hide Number, ReadStr;
      if typeId == 9 {
        var elemType :- ReadUnsigned(4);
        if !ArrayType(elemType) { return Failure(UnknownMetadataType(elemType)); }
        var count :- ReadUnsigned(8);
        ghost var start := pos;
        var items: seq<Value> := [];
        for i := 0 to count
          invariant Valid() && ReadItems(data, start, elemType, i) == Success((items, pos))
        {
          ghost var before := pos;
          var item := ReadMetadataValue(elemType);
          if item.Failure? {
            FailureStays(data, start, elemType, i, count);
            return Failure(item.error);
          }
          items := items + [item.value];
        }
        return Success(Arr(elemType, items));
      }
      if typeId == 8 {
        var s :- ReadString();
        return Success(Str(s));
      }
      if typeId > 12 { return Failure(UnknownMetadataType(typeId)); }
      var n :- ReadUnsigned(Width(typeId));
      return Success(Scalar(typeId, n));
    }

    /** A failure at element i is the array's failure. */
    lemma {:induction false} FailureStays(bytes: seq<Byte>, start: nat, id: nat, i: nat, count: nat)
      requires i < count && ReadItems(bytes, start, id, i + 1).Failure?
      ensures ReadItems(bytes, start, id, count) == ReadItems(bytes, start, id, i + 1)
    {
      if i + 1 < count { FailureStays(bytes, start, id, i, count - 1); }
    }

    method ReadKeyValue() returns (r: Result<(string, Value)>)
      requires Valid()
      modifies this
      ensures Valid() && Agrees(r, pos, ReadEntry(data, old(pos)))
    {
      hide Number, ReadStr, ReadValue;
      var key :- ReadString();
      var typeId :- ReadUnsigned(4);
      var value :- ReadMetadataValue(typeId);
      return Success((key, value));
    }

    method ReadDimensions(count: nat) returns (r: Result<seq<nat>>)
      requires Valid()
      modifies this
      ensures Valid() && Agrees(r, pos, ReadDims(data, old(pos), count))
    {
      hide Number;
      ghost var start := pos;
      var dims: seq<nat> := [];
      for i := 0 to count
        invariant Valid() && ReadDims(data, start, i) == Success((dims, pos))
      {
        var d := ReadUnsigned(8);
        if d.Failure? {
          DimsFailureStays(data, start, i, count);
          return Failure(d.error);
        }
        dims := dims + [d.value];
      }
      return Success(dims);
    }

    lemma {:induction false} DimsFailureStays(bytes: seq<Byte>, start: nat, i: nat, count: nat)
      requires i < count && ReadDims(bytes, start, i + 1).Failure?
      ensures ReadDims(bytes, start, count) == ReadDims(bytes, start, i + 1)
    {
      if i + 1 < count { DimsFailureStays(bytes, start, i, count - 1); }
    }

    method ReadTensorInfo() returns (r: Result<TensorInfo>)
      requires Valid()
      modifies this
      ensures Valid() && Agrees(r, pos, ReadTensor(data, old(pos)))
    {
      hide Number, ReadStr, ReadDims;
      var name :- ReadString();
      var nDims :- ReadUnsigned(4);
      var dims :- ReadDimensions(nDims);
      var kind :- ReadUnsigned(4);
      if !TensorType(kind) { return Failure(UnknownTensorType(kind)); }
      var byteOffset :- ReadUnsigned(8);
      return Success(TensorInfo(name, dims, kind, byteOffset));
    }
  }

  lemma {:induction false} MetadataFailureStays(data: seq<Byte>, start: nat, i: nat, count: nat)
    requires i < count && ReadMetadata(data, start, i + 1).Failure?
    ensures ReadMetadata(data, start, count) == ReadMetadata(data, start, i + 1)
  {
    hide ReadEntry;
    if i + 1 < count { MetadataFailureStays(data, start, i, count - 1); }
  }

  lemma {:induction false} TensorsFailureStays(data: seq<Byte>, start: nat, i: nat, count: nat)
    requires i < count && ReadTensors(data, start, i + 1).Failure?
    ensures ReadTensors(data, start, count) == ReadTensors(data, start, i + 1)
  {
    hide ReadTensor;
    if i + 1 < count { TensorsFailureStays(data, start, i, count - 1); }
  }

  method ParseMetadata(cursor: Cursor, count: nat) returns (r: Result<map<string, Value>>)
    requires cursor.Valid()
    modifies cursor
    ensures cursor.Valid() && Agrees(r, cursor.pos, ReadMetadata(cursor.data, old(cursor.pos), count))
  {
    hide ReadEntry;
    ghost var start := cursor.pos;
    var metadata: map<string, Value> := map[];
    for i := 0 to count
      invariant cursor.Valid() && ReadMetadata(cursor.data, start, i) == Success((metadata, cursor.pos))
    {
      var kv := cursor.ReadKeyValue();
      if kv.Failure? {
        MetadataFailureStays(cursor.data, start, i, count);
        return Failure(kv.error);
      }
      metadata := metadata[kv.value.0 := kv.value.1];
    }
    return Success(metadata);
  }

  method ParseTensors(cursor: Cursor, count: nat) returns (r: Result<seq<TensorInfo>>)
    requires cursor.Valid()
    modifies cursor
    ensures cursor.Valid() && Agrees(r, cursor.pos, ReadTensors(cursor.data, old(cursor.pos), count))
  {
    hide ReadTensor;
    ghost var start := cursor.pos;
    var tensors: seq<TensorInfo> := [];
    for i := 0 to count
      invariant cursor.Valid() && ReadTensors(cursor.data, start, i) == Success((tensors, cursor.pos))
    {
      var t := cursor.ReadTensorInfo();
      if t.Failure? {
        TensorsFailureStays(cursor.data, start, i, count);
        return Failure(t.error);
      }
      tensors := tensors + [t.value];
    }
    return Success(tensors);
  }

  /** Parse a GGUF file from its bytes. */
  method Parse(data: seq<Byte>) returns (r: Result<File>)
    ensures ReadFile(data).Success? ==> r == Success(ReadFile(data).value.0)
    ensures ReadFile(data).Failure? ==> r == Failure(ReadFile(data).error)
  {
    hide Take, Number, ReadMetadata, ReadTensors;
    var cursor := new Cursor(data);
    var magic :- cursor.ReadBytes(4);
    if magic != MAGIC { return Failure(InvalidMagic); }
    var version :- cursor.ReadUnsigned(4);
    if version < 2 || version > 3 { return Failure(UnsupportedVersion(version)); }
    var tensorCount :- cursor.ReadUnsigned(8);
    var kvCount :- cursor.ReadUnsigned(8);
    var metadata :- ParseMetadata(cursor, kvCount);
    var tensors :- ParseTensors(cursor, tensorCount);
    return Success(File(version, metadata, tensors, AlignTo(cursor.pos, ALIGNMENT_BITS)));
  }
}
