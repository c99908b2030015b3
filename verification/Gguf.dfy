/** The GGUF header (GGUF specification, section "File Structure"): what it says, how it is read, and
    that reading undoes writing. */
module Gguf {
  import opened Errors
  import opened Bytes
  import opened ByteLevel
  import opened Striding

  // ---- Values ----

  /** Floats are kept as their bit patterns. */
  datatype Value =
    | U8(n: int) | I8(n: int) | U16(n: int) | I16(n: int) | U32(n: int) | I32(n: int)
    | Float32(n: int) | Bool(b: bool) | Str(s: string) | Arr(elem: nat, items: seq<Value>)
    | U64(n: int) | I64(n: int) | Float64(n: int)

  datatype TensorInfo = TensorInfo(name: string, dims: seq<nat>, kind: nat, byteOffset: nat)

  datatype File = File(version: nat, metadata: map<string, Value>, tensors: seq<TensorInfo>, dataOffset: nat)

  function TypeId(v: Value): nat {
    match v
    case U8(_) => 0 case I8(_) => 1 case U16(_) => 2 case I16(_) => 3 case U32(_) => 4 case I32(_) => 5
    case Float32(_) => 6 case Bool(_) => 7 case Str(_) => 8 case Arr(_, _) => 9
    case U64(_) => 10 case I64(_) => 11 case Float64(_) => 12
  }

  /** Element types of arrays: every type but arrays themselves. */
  predicate ArrayType(id: nat) { id <= 12 && id != 9 }

  /** Tensor type ids; 4 and 5 were removed. */
  predicate TensorType(id: nat) { id <= 33 && id != 4 && id != 5 }

  /** The tensor types with a number, block formats and plain ones. */
  const TENSOR_TYPES: set<nat> :=
    {0, 1, 2, 3, 6, 7, 8, 9, 10, 11, 12, 13, 14, 15, 16, 17, 18, 19, 20, 21, 22, 23, 24, 25, 26, 27, 28, 29, 30, 31, 32,
     33}

  lemma TensorTypesListed(id: nat)
    ensures TensorType(id) <==> id in TENSOR_TYPES
  {}

  /** An array may hold values of any type but arrays. */
  lemma ArrayHoldsScalars(id: nat)
    ensures ArrayType(id) <==> exists v: Value :: !v.Arr? && TypeId(v) == id
  {
    if ArrayType(id) {
      var v := if id == 0 then U8(0) else if id == 1 then I8(0) else if id == 2 then U16(0) else if id == 3 then I16(0)
        else if id == 4 then U32(0) else if id == 5 then I32(0) else if id == 6 then Float32(0)
        else if id == 7 then Bool(false) else if id == 8 then Str("") else if id == 10 then U64(0)
        else if id == 11 then I64(0) else Float64(0);
      assert !v.Arr? && TypeId(v) == id;
    }
  }

  function Pow256(w: nat): (p: nat)
    ensures p > 0
  {
    if w == 0 then 1 else 256 * Pow256(w - 1)
  }

  /** The w-byte number n as two's complement. */
  function Signed(n: nat, w: nat): int {
    if 2 * n < Pow256(w) then n else n - Pow256(w)
  }

  function Unsigned(n: int, w: nat): int {
    if n < 0 then n + Pow256(w) else n
  }

  // ---- Reading: a value and the position after it ----

  type Read<T> = Result<(T, nat)>

  function Take(data: seq<Byte>, pos: nat, n: nat): Read<seq<Byte>> {
    if |data| < pos + n then Failure(UnexpectedEof(pos)) else Success((data[pos..pos + n], pos + n))
  }

  function LeValue(b: seq<Byte>): nat { if b == [] then 0 else b[0] + 256 * LeValue(b[1..]) }

  function Number(data: seq<Byte>, pos: nat, w: nat): Read<nat> {
    match Take(data, pos, w)
    case Failure(e) => Failure(e)
    case Success(r) => Success((LeValue(r.0), r.1))
  }

  function ReadStr(data: seq<Byte>, pos: nat): Read<string> {
    match Number(data, pos, 8)
    case Failure(e) => Failure(e)
    case Success(len) =>
      match Take(data, len.1, len.0)
      case Failure(e) => Failure(e)
      case Success(r) =>
        match Utf8Decode(r.0)
        case None => Failure(InvalidString(len.1))
        case Some(s) => Success((s, r.1))
  }

  /** Bytes of a fixed-size scalar. */
  function Width(id: nat): nat {
    if id in {0, 1, 7} then 1 else if id in {2, 3} then 2 else if id in {4, 5, 6} then 4 else 8
  }

  function Scalar(id: nat, n: nat): Value
    requires ArrayType(id) && id != 8
  {
    match id
    case 0 => U8(n) case 1 => I8(Signed(n, 1)) case 2 => U16(n) case 3 => I16(Signed(n, 2))
    case 4 => U32(n) case 5 => I32(Signed(n, 4)) case 6 => Float32(n) case 7 => Bool(n != 0)
    case 10 => U64(n) case 11 => I64(Signed(n, 8)) case _ => Float64(n)
  }

  /** Everything but arrays. */
  function ReadScalar(data: seq<Byte>, pos: nat, id: nat): Read<Value> {
    if !ArrayType(id) then Failure(UnknownMetadataType(id))
    else if id == 8 then
      match ReadStr(data, pos)
      case Failure(e) => Failure(e)
      case Success(r) => Success((Str(r.0), r.1))
    else
      match Number(data, pos, Width(id))
      case Failure(e) => Failure(e)
      case Success(r) => Success((Scalar(id, r.0), r.1))
  }

  function ReadItems(data: seq<Byte>, pos: nat, id: nat, count: nat): Read<seq<Value>> {
    if count == 0 then Success(([], pos))
    else
      match ReadItems(data, pos, id, count - 1)
      case Failure(e) => Failure(e)
      case Success(rs) =>
        match ReadScalar(data, rs.1, id)
        case Failure(e) => Failure(e)
        case Success(r) => Success((rs.0 + [r.0], r.1))
  }

  function ReadArray(data: seq<Byte>, pos: nat): Read<Value> {
    match Number(data, pos, 4)
    case Failure(e) => Failure(e)
    case Success(id) =>
      if !ArrayType(id.0) then Failure(UnknownMetadataType(id.0))
      else
        match Number(data, id.1, 8)
        case Failure(e) => Failure(e)
        case Success(count) =>
          match ReadItems(data, count.1, id.0, count.0)
          case Failure(e) => Failure(e)
          case Success(items) => Success((Arr(id.0, items.0), items.1))
  }

  function ReadValue(data: seq<Byte>, pos: nat, id: nat): Read<Value> {
    if id == 9 then ReadArray(data, pos) else ReadScalar(data, pos, id)
  }

  function ReadEntry(data: seq<Byte>, pos: nat): Read<(string, Value)> {
    match ReadStr(data, pos)
    case Failure(e) => Failure(e)
    case Success(key) =>
      match Number(data, key.1, 4)
      case Failure(e) => Failure(e)
      case Success(id) =>
        match ReadValue(data, id.1, id.0)
        case Failure(e) => Failure(e)
        case Success(v) => Success(((key.0, v.0), v.1))
  }

  function ReadMetadata(data: seq<Byte>, pos: nat, count: nat): Read<map<string, Value>> {
    if count == 0 then Success((map[], pos))
    else
      match ReadMetadata(data, pos, count - 1)
      case Failure(e) => Failure(e)
      case Success(m) =>
        match ReadEntry(data, m.1)
        case Failure(e) => Failure(e)
        case Success(r) => Success((m.0[r.0.0 := r.0.1], r.1))
  }

  function ReadDims(data: seq<Byte>, pos: nat, count: nat): Read<seq<nat>> {
    if count == 0 then Success(([], pos))
    else
      match ReadDims(data, pos, count - 1)
      case Failure(e) => Failure(e)
      case Success(ds) =>
        match Number(data, ds.1, 8)
        case Failure(e) => Failure(e)
        case Success(d) => Success((ds.0 + [d.0], d.1))
  }

  function ReadTensor(data: seq<Byte>, pos: nat): Read<TensorInfo> {
    match ReadStr(data, pos)
    case Failure(e) => Failure(e)
    case Success(name) =>
      match Number(data, name.1, 4)
      case Failure(e) => Failure(e)
      case Success(n) =>
        match ReadDims(data, n.1, n.0)
        case Failure(e) => Failure(e)
        case Success(dims) =>
          match Number(data, dims.1, 4)
          case Failure(e) => Failure(e)
          case Success(kind) =>
            if !TensorType(kind.0) then Failure(UnknownTensorType(kind.0))
            else
              match Number(data, kind.1, 8)
              case Failure(e) => Failure(e)
              case Success(offset) => Success((TensorInfo(name.0, dims.0, kind.0, offset.0), offset.1))
  }

  function ReadTensors(data: seq<Byte>, pos: nat, count: nat): Read<seq<TensorInfo>> {
    if count == 0 then Success(([], pos))
    else
      match ReadTensors(data, pos, count - 1)
      case Failure(e) => Failure(e)
      case Success(ts) =>
        match ReadTensor(data, ts.1)
        case Failure(e) => Failure(e)
        case Success(t) => Success((ts.0 + [t.0], t.1))
  }

  /** x with its low bits masked off. */
  function ClearLow(x: nat, bits: nat): nat { if bits == 0 then x else 2 * ClearLow(x / 2, bits - 1) }

  /** `align_to`, for an alignment of 2 to the given power: the mask does what is meant for no other. */
  function AlignTo(offset: nat, bits: nat): nat { ClearLow(offset + TwoTo(bits) - 1, bits) }

  /** The data section is aligned to 32 bytes. */
  const ALIGNMENT_BITS: nat := 5

  const MAGIC: seq<Byte> := [0x47, 0x47, 0x55, 0x46]

  lemma MagicSpells()
    ensures MAGIC == Utf8("GGUF")
  {
    assert Utf8("F") == Utf8Char('F') + Utf8("");
    assert Utf8("UF") == Utf8Char('U') + Utf8("F");
    assert Utf8("GUF") == Utf8Char('G') + Utf8("UF");
    assert Utf8("GGUF") == Utf8Char('G') + Utf8("GUF");
  }

  /** Magic, version, counts. */
  function ReadPreamble(data: seq<Byte>): Read<(nat, nat, nat)> {
    match Take(data, 0, 4)
    case Failure(e) => Failure(e)
    case Success(magic) =>
      if magic.0 != MAGIC then Failure(InvalidMagic)
      else
        match Number(data, magic.1, 4)
        case Failure(e) => Failure(e)
        case Success(version) =>
          if version.0 < 2 || version.0 > 3 then Failure(UnsupportedVersion(version.0))
          else
            match Number(data, version.1, 8)
            case Failure(e) => Failure(e)
            case Success(tensors) =>
              match Number(data, tensors.1, 8)
              case Failure(e) => Failure(e)
              case Success(kvs) => Success(((version.0, tensors.0, kvs.0), kvs.1))
  }

  /** The file and where its header ends. */
  function ReadFile(data: seq<Byte>): Read<File> {
    match ReadPreamble(data)
    case Failure(e) => Failure(e)
    case Success(p) =>
      match ReadMetadata(data, p.1, p.0.2)
      case Failure(e) => Failure(e)
      case Success(m) =>
        match ReadTensors(data, m.1, p.0.1)
        case Failure(e) => Failure(e)
        case Success(t) => Success((File(p.0.0, m.0, t.0, AlignTo(t.1, ALIGNMENT_BITS)), t.1))
  }

  // ---- Only the bytes up to the end of what was read matter ----

  /** Two byte strings where one continues the other. */
  predicate Related(a: seq<Byte>, b: seq<Byte>) { a <= b || b <= a }

  /** A reading of data, up to position p, against the same reading of a related string: equal if the
      string reaches that far, and an unexpected end of file if it stops short. */
  ghost predicate LocalTo<T>(other: seq<Byte>, r: Read<T>, r': Read<T>) {
    r.Success? ==> if r.value.1 <= |other| then r' == r else r'.Failure? && r'.error.UnexpectedEof?
  }

  lemma TakeLocal(data: seq<Byte>, other: seq<Byte>, pos: nat, n: nat)
    requires Related(data, other)
    ensures LocalTo(other, Take(data, pos, n), Take(other, pos, n))
    ensures Take(data, pos, n).Success? ==> pos <= Take(data, pos, n).value.1 <= |data|
  {
    if pos + n <= |data| && pos + n <= |other| {
      assert data[pos..pos + n] == other[pos..pos + n];
    }
  }

  lemma SelfRelated(data: seq<Byte>)
    ensures Related(data, data)
  {}

  lemma NumberLocal(data: seq<Byte>, other: seq<Byte>, pos: nat, w: nat)
    requires Related(data, other)
    ensures LocalTo(other, Number(data, pos, w), Number(other, pos, w))
    ensures Number(data, pos, w).Success? ==> pos <= Number(data, pos, w).value.1 <= |data|
  {
    TakeLocal(data, other, pos, w);
  }

  lemma StrLocal(data: seq<Byte>, other: seq<Byte>, pos: nat)
    requires Related(data, other)
    ensures LocalTo(other, ReadStr(data, pos), ReadStr(other, pos))
    ensures ReadStr(data, pos).Success? ==> pos <= ReadStr(data, pos).value.1 <= |data|
  {
    hide Number, Take, Related, Utf8Decode;
    NumberLocal(data, other, pos, 8);
    var len := Number(data, pos, 8);
    if len.Success? { TakeLocal(data, other, len.value.1, len.value.0); }
  }

  lemma ScalarLocal(data: seq<Byte>, other: seq<Byte>, pos: nat, id: nat)
    requires Related(data, other)
    ensures LocalTo(other, ReadScalar(data, pos, id), ReadScalar(other, pos, id))
    ensures ReadScalar(data, pos, id).Success? ==> pos <= ReadScalar(data, pos, id).value.1 <= |data|
  {
    hide Number, Related, ReadStr, Scalar;
    if id == 8 { StrLocal(data, other, pos); } else { NumberLocal(data, other, pos, Width(id)); }
  }

  lemma {:induction false} ItemsLocal(data: seq<Byte>, other: seq<Byte>, pos: nat, id: nat, count: nat)
    requires Related(data, other) && pos <= |data| && pos <= |other|
    ensures LocalTo(other, ReadItems(data, pos, id, count), ReadItems(other, pos, id, count))
    ensures ReadItems(data, pos, id, count).Success? ==> pos <= ReadItems(data, pos, id, count).value.1 <= |data|
  {
    hide Related, ReadScalar;
    if count > 0 {
      ItemsLocal(data, other, pos, id, count - 1);
      var rs := ReadItems(data, pos, id, count - 1);
      if rs.Success? { ScalarLocal(data, other, rs.value.1, id); }
    }
  }

  lemma ValueLocal(data: seq<Byte>, other: seq<Byte>, pos: nat, id: nat)
    requires Related(data, other)
    ensures LocalTo(other, ReadValue(data, pos, id), ReadValue(other, pos, id))
    ensures ReadValue(data, pos, id).Success? ==> pos <= ReadValue(data, pos, id).value.1 <= |data|
  {
    hide Related, ReadScalar, Number, ReadItems;
    if id != 9 {
      ScalarLocal(data, other, pos, id);
    } else {
      NumberLocal(data, other, pos, 4);
      var elem := Number(data, pos, 4);
      if elem.Success? {
        NumberLocal(data, other, elem.value.1, 8);
        var count := Number(data, elem.value.1, 8);
        if count.Success? && count.value.1 <= |other| {
          ItemsLocal(data, other, count.value.1, elem.value.0, count.value.0);
        } else if count.Success? {
          SelfRelated(data);
          ItemsLocal(data, data, count.value.1, elem.value.0, count.value.0);
        }
      }
    }
  }

  lemma EntryLocal(data: seq<Byte>, other: seq<Byte>, pos: nat)
    requires Related(data, other)
    ensures LocalTo(other, ReadEntry(data, pos), ReadEntry(other, pos))
    ensures ReadEntry(data, pos).Success? ==> pos <= ReadEntry(data, pos).value.1 <= |data|
  {
    hide Related, ReadStr, Number, ReadValue;
    StrLocal(data, other, pos);
    var key := ReadStr(data, pos);
    if key.Success? {
      NumberLocal(data, other, key.value.1, 4);
      var id := Number(data, key.value.1, 4);
      if id.Success? { ValueLocal(data, other, id.value.1, id.value.0); }
    }
  }

  lemma {:induction false} MetadataLocal(data: seq<Byte>, other: seq<Byte>, pos: nat, count: nat)
    requires Related(data, other) && pos <= |data| && pos <= |other|
    ensures LocalTo(other, ReadMetadata(data, pos, count), ReadMetadata(other, pos, count))
    ensures ReadMetadata(data, pos, count).Success? ==> pos <= ReadMetadata(data, pos, count).value.1 <= |data|
  {
    hide Related, ReadEntry;
    if count > 0 {
      MetadataLocal(data, other, pos, count - 1);
      var m := ReadMetadata(data, pos, count - 1);
      if m.Success? { EntryLocal(data, other, m.value.1); }
    }
  }

  lemma {:induction false} DimsLocal(data: seq<Byte>, other: seq<Byte>, pos: nat, count: nat)
    requires Related(data, other) && pos <= |data| && pos <= |other|
    ensures LocalTo(other, ReadDims(data, pos, count), ReadDims(other, pos, count))
    ensures ReadDims(data, pos, count).Success? ==> pos <= ReadDims(data, pos, count).value.1 <= |data|
  {
    hide Related, Number;
    if count > 0 {
      DimsLocal(data, other, pos, count - 1);
      var ds := ReadDims(data, pos, count - 1);
      if ds.Success? { NumberLocal(data, other, ds.value.1, 8); }
    }
  }

  lemma TensorLocal(data: seq<Byte>, other: seq<Byte>, pos: nat)
    requires Related(data, other)
    ensures LocalTo(other, ReadTensor(data, pos), ReadTensor(other, pos))
    ensures ReadTensor(data, pos).Success? ==> pos <= ReadTensor(data, pos).value.1 <= |data|
  {
    hide Related, ReadStr, Number, ReadDims;
    StrLocal(data, other, pos);
    var name := ReadStr(data, pos);
    if name.Success? {
      NumberLocal(data, other, name.value.1, 4);
      var n := Number(data, name.value.1, 4);
      if n.Success? {
        if n.value.1 <= |other| {
          DimsLocal(data, other, n.value.1, n.value.0);
        } else {
          SelfRelated(data);
          DimsLocal(data, data, n.value.1, n.value.0);
        }
        var dims := ReadDims(data, n.value.1, n.value.0);
        if dims.Success? {
          NumberLocal(data, other, dims.value.1, 4);
          var kind := Number(data, dims.value.1, 4);
          if kind.Success? { NumberLocal(data, other, kind.value.1, 8); }
        }
      }
    }
  }

  lemma {:induction false} TensorsLocal(data: seq<Byte>, other: seq<Byte>, pos: nat, count: nat)
    requires Related(data, other) && pos <= |data| && pos <= |other|
    ensures LocalTo(other, ReadTensors(data, pos, count), ReadTensors(other, pos, count))
    ensures ReadTensors(data, pos, count).Success? ==> pos <= ReadTensors(data, pos, count).value.1 <= |data|
  {
    hide Related, ReadTensor;
    if count > 0 {
      TensorsLocal(data, other, pos, count - 1);
      var ts := ReadTensors(data, pos, count - 1);
      if ts.Success? { TensorLocal(data, other, ts.value.1); }
    }
  }

  lemma PreambleLocal(data: seq<Byte>, other: seq<Byte>)
    requires Related(data, other)
    ensures LocalTo(other, ReadPreamble(data), ReadPreamble(other))
    ensures ReadPreamble(data).Success? ==> ReadPreamble(data).value.1 <= |data|
  {
    hide Related, Take, Number;
    TakeLocal(data, other, 0, 4);
    var magic := Take(data, 0, 4);
    if magic.Success? {
      NumberLocal(data, other, magic.value.1, 4);
      var version := Number(data, magic.value.1, 4);
      if version.Success? {
        NumberLocal(data, other, version.value.1, 8);
        var tensors := Number(data, version.value.1, 8);
        if tensors.Success? { NumberLocal(data, other, tensors.value.1, 8); }
      }
    }
  }

  /** Of a string that parses, the bytes past the header do not matter and those before all do: whatever
      follows the header the result is the same, and a string cut short inside it fails with an
      unexpected end of file. */
  lemma FileLocal(data: seq<Byte>, other: seq<Byte>)
    requires Related(data, other) && ReadFile(data).Success?
    ensures LocalTo(other, ReadFile(data), ReadFile(other))
    ensures ReadFile(data).value.1 <= |data|
  {
    hide Related, ReadPreamble, ReadMetadata, ReadTensors, AlignTo;
    PreambleLocal(data, other);
    SelfRelated(data);
    var p := ReadPreamble(data).value;
    if p.1 <= |other| { MetadataLocal(data, other, p.1, p.0.2); } else { MetadataLocal(data, data, p.1, p.0.2); }
    var m := ReadMetadata(data, p.1, p.0.2).value;
    if m.1 <= |other| { TensorsLocal(data, other, m.1, p.0.1); } else { TensorsLocal(data, data, m.1, p.0.1); }
  }

  /** The data section starts at the least multiple of the alignment at or past the header's end. */
  lemma AlignToIsLeast(offset: nat, bits: nat, k: nat)
    ensures AlignTo(offset, bits) >= offset && AlignTo(offset, bits) % TwoTo(bits) == 0
    ensures k * TwoTo(bits) >= offset ==> AlignTo(offset, bits) <= k * TwoTo(bits)
    ensures TwoTo(ALIGNMENT_BITS) == 32
  {
    hide ClearLow, TwoTo;
    MaskIsMultiple(offset + TwoTo(bits) - 1, bits);
    RoundedIsLeast(offset, TwoTo(bits), k);
    assert TwoTo(5) == 32 by { ThirtyTwo(); }
  }

  lemma ThirtyTwo()
    ensures TwoTo(5) == 32
  {
    assert TwoTo(3) == 8;
  }

  lemma RoundedIsLeast(offset: nat, alignment: nat, k: nat)
    requires alignment > 0
    ensures var r := (offset + alignment - 1) / alignment * alignment;
      r >= offset && r % alignment == 0 && (k * alignment >= offset ==> r <= k * alignment)
  {
    var q := (offset + alignment - 1) / alignment;
    ModUnique(q * alignment, alignment, q, 0);
    if k < q { RowEnd(k, q, alignment); } else if q < k { RowEnd(q, k, alignment); }
  }

  /** Masking the low bits off leaves the multiple of the power of two below. */
  lemma {:induction false} MaskIsMultiple(x: nat, bits: nat)
    ensures ClearLow(x, bits) == x / TwoTo(bits) * TwoTo(bits)
  {
    if bits > 0 {
      var half := TwoTo(bits - 1);
      MaskIsMultiple(x / 2, bits - 1);
      HalvedQuotient(x, half);
      Doubled(x / 2 / half, half);
    }
  }

  lemma HalvedQuotient(x: nat, half: nat)
    requires half > 0
    ensures x / 2 / half == x / (2 * half)
  {
    var y, bit := x / 2, x % 2;
    var q, r := y / half, y % half;
    Doubled(q, half);
    ModUnique(x, 2 * half, q, 2 * r + bit);
  }

  lemma Doubled(q: int, half: int)
    ensures 2 * (q * half) == q * (2 * half)
  {}

  // ---- Writing ----

  function Le(n: nat, w: nat): (b: seq<Byte>)
    ensures |b| == w
  {
    if w == 0 then [] else [B(n % 256)] + Le(n / 256, w - 1)
  }

  function StrBytes(s: string): seq<Byte> { Le(|Utf8(s)|, 8) + Utf8(s) }

  /** A scalar's bytes; for an array nothing. */
  function ScalarBytes(v: Value): seq<Byte> {
    match v
    case U8(n) => Le(Nat(n), 1) case I8(n) => Le(Nat(Unsigned(n, 1)), 1)
    case U16(n) => Le(Nat(n), 2) case I16(n) => Le(Nat(Unsigned(n, 2)), 2)
    case U32(n) => Le(Nat(n), 4) case I32(n) => Le(Nat(Unsigned(n, 4)), 4)
    case Float32(n) => Le(Nat(n), 4) case Bool(b) => Le(if b then 1 else 0, 1)
    case Str(s) => StrBytes(s) case Arr(_, _) => []
    case U64(n) => Le(Nat(n), 8) case I64(n) => Le(Nat(Unsigned(n, 8)), 8) case Float64(n) => Le(Nat(n), 8)
  }

  function Nat(n: int): nat { if n < 0 then 0 else n }

  function ItemsBytes(items: seq<Value>): seq<Byte> {
    if items == [] then [] else ItemsBytes(items[..|items| - 1]) + ScalarBytes(items[|items| - 1])
  }

  function ValueBytes(v: Value): seq<Byte> {
    if v.Arr? then Le(v.elem, 4) + Le(|v.items|, 8) + ItemsBytes(v.items) else ScalarBytes(v)
  }

  function EntryBytes(key: string, v: Value): seq<Byte> { StrBytes(key) + Le(TypeId(v), 4) + ValueBytes(v) }

  function MetadataBytes(kvs: seq<(string, Value)>): seq<Byte> {
    if kvs == [] then []
    else MetadataBytes(kvs[..|kvs| - 1]) + EntryBytes(kvs[|kvs| - 1].0, kvs[|kvs| - 1].1)
  }

  function DimsBytes(dims: seq<nat>): seq<Byte> {
    if dims == [] then [] else DimsBytes(dims[..|dims| - 1]) + Le(dims[|dims| - 1], 8)
  }

  function TensorBytes(t: TensorInfo): seq<Byte> {
    StrBytes(t.name) + Le(|t.dims|, 4) + DimsBytes(t.dims) + Le(t.kind, 4) + Le(t.byteOffset, 8)
  }

  function TensorsBytes(ts: seq<TensorInfo>): seq<Byte> {
    if ts == [] then [] else TensorsBytes(ts[..|ts| - 1]) + TensorBytes(ts[|ts| - 1])
  }

  function HeaderBytes(version: nat, kvs: seq<(string, Value)>, ts: seq<TensorInfo>): seq<Byte> {
    MAGIC + Le(version, 4) + Le(|ts|, 8) + Le(|kvs|, 8) + MetadataBytes(kvs) + TensorsBytes(ts)
  }

  // ---- What fits in the fields ----

  predicate Fits(n: int, w: nat) { 0 <= n < Pow256(w) }

  predicate FitsSigned(n: int, w: nat) { 0 - Pow256(w) <= 2 * n < Pow256(w) }

  predicate ScalarOk(v: Value) {
    match v
    case U8(n) => Fits(n, 1) case I8(n) => FitsSigned(n, 1) case U16(n) => Fits(n, 2) case I16(n) => FitsSigned(n, 2)
    case U32(n) => Fits(n, 4) case I32(n) => FitsSigned(n, 4) case Float32(n) => Fits(n, 4) case Bool(_) => true
    case Str(s) => Fits(|Utf8(s)|, 8) case Arr(_, _) => false
    case U64(n) => Fits(n, 8) case I64(n) => FitsSigned(n, 8) case Float64(n) => Fits(n, 8)
  }

  /** Arrays are flat and hold values of their element type. */
  predicate ValueOk(v: Value) {
    if v.Arr? then
      ArrayType(v.elem) && Fits(|v.items|, 8)
      && forall i :: 0 <= i < |v.items| ==> ScalarOk(v.items[i]) && TypeId(v.items[i]) == v.elem
    else ScalarOk(v)
  }

  predicate EntryOk(kv: (string, Value)) { Fits(|Utf8(kv.0)|, 8) && ValueOk(kv.1) }

  predicate TensorOk(t: TensorInfo) {
    && Fits(|Utf8(t.name)|, 8) && Fits(|t.dims|, 4) && TensorType(t.kind) && Fits(t.byteOffset, 8)
    && forall i :: 0 <= i < |t.dims| ==> Fits(t.dims[i], 8)
  }

  predicate HeaderOk(version: nat, kvs: seq<(string, Value)>, ts: seq<TensorInfo>) {
    && 2 <= version <= 3 && Fits(|kvs|, 8) && Fits(|ts|, 8)
    && (forall i :: 0 <= i < |kvs| ==> EntryOk(kvs[i]))
    && (forall i :: 0 <= i < |ts| ==> TensorOk(ts[i]))
  }

  // ---- Reading undoes writing ----

  /** The bytes b stand in data at pos. */
  predicate StandsAt(data: seq<Byte>, pos: nat, b: seq<Byte>) {
    pos + |b| <= |data| && data[pos..pos + |b|] == b
  }

  lemma SplitAt(data: seq<Byte>, pos: nat, a: seq<Byte>, b: seq<Byte>)
    requires StandsAt(data, pos, a + b)
    ensures StandsAt(data, pos, a) && StandsAt(data, pos + |a|, b)
  {
    assert data[pos..pos + |a|] == data[pos..pos + |a + b|][..|a|] == (a + b)[..|a|];
    assert data[pos + |a|..pos + |a| + |b|] == data[pos..pos + |a + b|][|a|..] == (a + b)[|a|..];
  }

  lemma {:induction false} LeBack(n: nat, w: nat)
    requires Fits(n, w)
    ensures LeValue(Le(n, w)) == n
  {
    if w > 0 {
      assert n / 256 < Pow256(w - 1);
      LeBack(n / 256, w - 1);
      assert Le(n, w)[1..] == Le(n / 256, w - 1);
    }
  }

  lemma NumberBack(data: seq<Byte>, pos: nat, n: nat, w: nat)
    requires Fits(n, w) && StandsAt(data, pos, Le(n, w))
    ensures Number(data, pos, w) == Success((n, pos + w))
  {
    LeBack(n, w);
  }

  lemma StrBack(data: seq<Byte>, pos: nat, s: string)
    requires Fits(|Utf8(s)|, 8) && StandsAt(data, pos, StrBytes(s))
    ensures ReadStr(data, pos) == Success((s, pos + |StrBytes(s)|))
  {
    hide Number, Utf8, Utf8Decode, Le, Fits;
    SplitAt(data, pos, Le(|Utf8(s)|, 8), Utf8(s));
    NumberBack(data, pos, |Utf8(s)|, 8);
    DecodeUtf8(s);
  }

  lemma SignedBack(n: int, w: nat)
    requires FitsSigned(n, w)
    ensures Fits(Unsigned(n, w), w) && Signed(Unsigned(n, w), w) == n
  {}

  lemma ScalarBack(data: seq<Byte>, pos: nat, v: Value)
    requires ScalarOk(v) && StandsAt(data, pos, ScalarBytes(v))
    ensures ReadScalar(data, pos, TypeId(v)) == Success((v, pos + |ScalarBytes(v)|))
  {
    hide Number, ReadStr, Le, Pow256, StrBytes, StandsAt, Utf8;
    match v
    case U8(n) => NumberBack(data, pos, n, 1);
    case I8(n) => SignedBack(n, 1); NumberBack(data, pos, Unsigned(n, 1), 1);
    case U16(n) => NumberBack(data, pos, n, 2);
    case I16(n) => SignedBack(n, 2); NumberBack(data, pos, Unsigned(n, 2), 2);
    case U32(n) => NumberBack(data, pos, n, 4);
    case I32(n) => SignedBack(n, 4); NumberBack(data, pos, Unsigned(n, 4), 4);
    case Float32(n) => NumberBack(data, pos, n, 4);
    case Bool(b) => ByteFits(); NumberBack(data, pos, if b then 1 else 0, 1);
    case Str(s) => StrBack(data, pos, s);
    case U64(n) => NumberBack(data, pos, n, 8);
    case I64(n) => SignedBack(n, 8); NumberBack(data, pos, Unsigned(n, 8), 8);
    case Float64(n) => NumberBack(data, pos, n, 8);
  }

  lemma ByteFits()
    ensures Fits(0, 1) && Fits(1, 1)
  {}

  lemma {:induction false} ItemsBack(data: seq<Byte>, pos: nat, id: nat, items: seq<Value>)
    requires StandsAt(data, pos, ItemsBytes(items))
    requires forall i :: 0 <= i < |items| ==> ScalarOk(items[i]) && TypeId(items[i]) == id
    ensures ReadItems(data, pos, id, |items|) == Success((items, pos + |ItemsBytes(items)|))
  {
    hide ReadScalar, ScalarOk, ScalarBytes, StandsAt;
    if items != [] {
      var n := |items| - 1;
      SplitAt(data, pos, ItemsBytes(items[..n]), ScalarBytes(items[n]));
      ItemsBack(data, pos, id, items[..n]);
      ScalarBack(data, pos + |ItemsBytes(items[..n])|, items[n]);
      assert items[..n] + [items[n]] == items;
    }
  }

  lemma SmallFits(n: nat)
    requires n < 256
    ensures Fits(n, 4)
  {
    assert Pow256(4) == 256 * 256 * 256 * 256;
  }

  lemma ValueBack(data: seq<Byte>, pos: nat, v: Value)
    requires ValueOk(v) && StandsAt(data, pos, ValueBytes(v))
    ensures ReadValue(data, pos, TypeId(v)) == Success((v, pos + |ValueBytes(v)|))
  {
    hide ReadScalar, ScalarOk, ScalarBytes, StandsAt, Number, ReadItems, ItemsBytes, Le, Fits;
    if v.Arr? {
      SplitAt(data, pos, Le(v.elem, 4) + Le(|v.items|, 8), ItemsBytes(v.items));
      SplitAt(data, pos, Le(v.elem, 4), Le(|v.items|, 8));
      SmallFits(v.elem);
      NumberBack(data, pos, v.elem, 4);
      NumberBack(data, pos + 4, |v.items|, 8);
      ItemsBack(data, pos + 12, v.elem, v.items);
    } else {
      ScalarBack(data, pos, v);
    }
  }

  lemma EntryBack(data: seq<Byte>, pos: nat, kv: (string, Value))
    requires EntryOk(kv) && StandsAt(data, pos, EntryBytes(kv.0, kv.1))
    ensures ReadEntry(data, pos) == Success((kv, pos + |EntryBytes(kv.0, kv.1)|))
  {
    hide StandsAt, Number, ReadStr, ReadValue, StrBytes, ValueBytes, ValueOk, Le, Fits;
    var (key, v) := kv;
    SplitAt(data, pos, StrBytes(key) + Le(TypeId(v), 4), ValueBytes(v));
    SplitAt(data, pos, StrBytes(key), Le(TypeId(v), 4));
    StrBack(data, pos, key);
    SmallFits(TypeId(v));
    NumberBack(data, pos + |StrBytes(key)|, TypeId(v), 4);
    ValueBack(data, pos + |StrBytes(key)| + 4, v);
  }

  /** Entries inserted in order: a later one wins. */
  function MapOf(kvs: seq<(string, Value)>): map<string, Value> {
    if kvs == [] then map[] else MapOf(kvs[..|kvs| - 1])[kvs[|kvs| - 1].0 := kvs[|kvs| - 1].1]
  }

  predicate DistinctKeys(kvs: seq<(string, Value)>) {
    forall i, j :: 0 <= i < j < |kvs| ==> kvs[i].0 != kvs[j].0
  }

  lemma {:induction false} MapOfDistinct(kvs: seq<(string, Value)>)
    requires DistinctKeys(kvs)
    ensures |MapOf(kvs)| == |kvs| && forall i :: 0 <= i < |kvs| ==>
      kvs[i].0 in MapOf(kvs) && MapOf(kvs)[kvs[i].0] == kvs[i].1
    ensures forall key :: key in MapOf(kvs) ==> exists i :: 0 <= i < |kvs| && kvs[i].0 == key
  {
    KeysAreListed(kvs);
    if kvs != [] {
      hide MapOf;
      var n := |kvs| - 1;
      MapOfDistinct(kvs[..n]);
      MapGrows(kvs);
      forall i | 0 <= i < |kvs|
        ensures kvs[i].0 in MapOf(kvs) && MapOf(kvs)[kvs[i].0] == kvs[i].1
      {
        if i < n { assert kvs[..n][i] == kvs[i]; }
        KeyHasValue(kvs, i);
      }
    }
  }

  lemma MapGrows(kvs: seq<(string, Value)>)
    requires DistinctKeys(kvs) && kvs != []
    ensures |MapOf(kvs)| == |MapOf(kvs[..|kvs| - 1])| + 1
  {
    KeysAreListed(kvs[..|kvs| - 1]);
  }

  /** The last entry adds its key and keeps the values of the others. */
  lemma KeyHasValue(kvs: seq<(string, Value)>, i: nat)
    requires DistinctKeys(kvs) && i < |kvs|
    requires var n := |kvs| - 1; i < n ==> kvs[i].0 in MapOf(kvs[..n]) && MapOf(kvs[..n])[kvs[i].0] == kvs[i].1
    ensures kvs[i].0 in MapOf(kvs) && MapOf(kvs)[kvs[i].0] == kvs[i].1
  {}

  lemma {:induction false} KeysAreListed(kvs: seq<(string, Value)>)
    ensures forall key :: key in MapOf(kvs) ==> exists i :: 0 <= i < |kvs| && kvs[i].0 == key
  {
    if kvs != [] {
      var n := |kvs| - 1;
      KeysAreListed(kvs[..n]);
    }
  }

  lemma {:induction false} MetadataBack(data: seq<Byte>, pos: nat, kvs: seq<(string, Value)>)
    requires StandsAt(data, pos, MetadataBytes(kvs)) && forall i :: 0 <= i < |kvs| ==> EntryOk(kvs[i])
    ensures ReadMetadata(data, pos, |kvs|) == Success((MapOf(kvs), pos + |MetadataBytes(kvs)|))
  {
    hide StandsAt, ReadEntry, EntryOk, EntryBytes;
    if kvs != [] {
      var n := |kvs| - 1;
      SplitAt(data, pos, MetadataBytes(kvs[..n]), EntryBytes(kvs[n].0, kvs[n].1));
      MetadataBack(data, pos, kvs[..n]);
      EntryBack(data, pos + |MetadataBytes(kvs[..n])|, kvs[n]);
    }
  }

  lemma {:induction false} DimsBack(data: seq<Byte>, pos: nat, dims: seq<nat>)
    requires StandsAt(data, pos, DimsBytes(dims)) && forall i :: 0 <= i < |dims| ==> Fits(dims[i], 8)
    ensures ReadDims(data, pos, |dims|) == Success((dims, pos + |DimsBytes(dims)|))
  {
    hide StandsAt, Number, Fits, Le;
    if dims != [] {
      var n := |dims| - 1;
      SplitAt(data, pos, DimsBytes(dims[..n]), Le(dims[n], 8));
      DimsBack(data, pos, dims[..n]);
      NumberBack(data, pos + |DimsBytes(dims[..n])|, dims[n], 8);
      assert dims[..n] + [dims[n]] == dims;
    }
  }

  lemma TensorBack(data: seq<Byte>, pos: nat, t: TensorInfo)
    requires TensorOk(t) && StandsAt(data, pos, TensorBytes(t))
    ensures ReadTensor(data, pos) == Success((t, pos + |TensorBytes(t)|))
  {
    hide StandsAt, Number, ReadStr, ReadDims, StrBytes, DimsBytes, Le, Fits;
    var name, n, dims, kind, offset :=
      StrBytes(t.name), Le(|t.dims|, 4), DimsBytes(t.dims), Le(t.kind, 4), Le(t.byteOffset, 8);
    SplitAt(data, pos, name + n + dims + kind, offset);
    SplitAt(data, pos, name + n + dims, kind);
    SplitAt(data, pos, name + n, dims);
    SplitAt(data, pos, name, n);
    StrBack(data, pos, t.name);
    NumberBack(data, pos + |name|, |t.dims|, 4);
    DimsBack(data, pos + |name| + 4, t.dims);
    SmallFits(t.kind);
    NumberBack(data, pos + |name| + 4 + |dims|, t.kind, 4);
    NumberBack(data, pos + |name| + 8 + |dims|, t.byteOffset, 8);
  }

  lemma {:induction false} TensorsBack(data: seq<Byte>, pos: nat, ts: seq<TensorInfo>)
    requires StandsAt(data, pos, TensorsBytes(ts)) && forall i :: 0 <= i < |ts| ==> TensorOk(ts[i])
    ensures ReadTensors(data, pos, |ts|) == Success((ts, pos + |TensorsBytes(ts)|))
  {
    hide StandsAt, ReadTensor, TensorOk, TensorBytes;
    if ts != [] {
      var n := |ts| - 1;
      SplitAt(data, pos, TensorsBytes(ts[..n]), TensorBytes(ts[n]));
      TensorsBack(data, pos, ts[..n]);
      TensorBack(data, pos + |TensorsBytes(ts[..n])|, ts[n]);
      assert ts[..n] + [ts[n]] == ts;
    }
  }

  /** A written header reads back as exactly its entries and tensors, whatever follows it. */
  lemma HeaderBack(version: nat, kvs: seq<(string, Value)>, ts: seq<TensorInfo>, rest: seq<Byte>)
    requires HeaderOk(version, kvs, ts)
    ensures var header := HeaderBytes(version, kvs, ts);
      ReadFile(header + rest) == Success((File(version, MapOf(kvs), ts, AlignTo(|header|, ALIGNMENT_BITS)), |header|))
  {
    hide Number, ReadMetadata, ReadTensors, MetadataBytes, TensorsBytes, Le, Fits, EntryOk, TensorOk, AlignTo;
    var header := HeaderBytes(version, kvs, ts);
    var data := header + rest;
    assert StandsAt(data, 0, header);
    var v, nt, nk, md, tb := Le(version, 4), Le(|ts|, 8), Le(|kvs|, 8), MetadataBytes(kvs), TensorsBytes(ts);
    hide StandsAt;
    SplitAt(data, 0, MAGIC + v + nt + nk + md, tb);
    SplitAt(data, 0, MAGIC + v + nt + nk, md);
    SplitAt(data, 0, MAGIC + v + nt, nk);
    SplitAt(data, 0, MAGIC + v, nt);
    SplitAt(data, 0, MAGIC, v);
    TakeBack(data, 0, MAGIC);
    SmallFits(version);
    NumberBack(data, 4, version, 4);
    NumberBack(data, 8, |ts|, 8);
    NumberBack(data, 16, |kvs|, 8);
    MetadataBack(data, 24, kvs);
    TensorsBack(data, 24 + |md|, ts);
  }

  lemma TakeBack(data: seq<Byte>, pos: nat, b: seq<Byte>)
    requires StandsAt(data, pos, b)
    ensures Take(data, pos, |b|) == Success((b, pos + |b|))
  {}

  /** And every strict prefix of it ends too early. */
  lemma HeaderPrefix(version: nat, kvs: seq<(string, Value)>, ts: seq<TensorInfo>, n: nat)
    requires HeaderOk(version, kvs, ts) && n < |HeaderBytes(version, kvs, ts)|
    ensures var r := ReadFile(HeaderBytes(version, kvs, ts)[..n]); r.Failure? && r.error.UnexpectedEof?
  {
    hide HeaderBytes, ReadFile, HeaderOk;
    var header := HeaderBytes(version, kvs, ts);
    HeaderBack(version, kvs, ts, []);
    assert header + [] == header;
    FileLocal(header, header[..n]);
  }
}
