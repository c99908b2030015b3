/** The byte-level alphabet: UTF-8 (RFC 3629, section 3), and the table that gives each byte a
    printable character. */
module ByteLevel {
  import opened Bytes
  import opened Errors
  import opened Striding

  // ---- UTF-8 ----

  function B(n: int): Byte
    requires 0 <= n < 256
  {
    n
  }

  function Utf8Char(c: char): (bytes: seq<Byte>)
    ensures 1 <= |bytes| <= 4
  {
    var cp := c as int;
    if cp < 0x80 then [B(cp)]
    else if cp < 0x800 then [B(0xC0 + cp / 64), B(0x80 + cp % 64)]
    else if cp < 0x10000 then [B(0xE0 + cp / 4096), B(0x80 + cp / 64 % 64), B(0x80 + cp % 64)]
    else [B(0xF0 + cp / 262144), B(0x80 + cp / 4096 % 64), B(0x80 + cp / 64 % 64), B(0x80 + cp % 64)]
  }

  function Utf8(text: string): seq<Byte> {
    if text == [] then [] else Utf8Char(text[0]) + Utf8(text[1..])
  }

  /** The first byte tells how many follow. */
  lemma LeadByte(c: char)
    ensures var b := Utf8Char(c);
      |b| == if b[0] < 0x80 then 1 else if b[0] < 0xE0 then 2 else if b[0] < 0xF0 then 3 else 4
  {}

  lemma CharOfBytes(c: char, d: char)
    requires Utf8Char(c) == Utf8Char(d)
    ensures c == d
  {
    LeadByte(c);
    LeadByte(d);
    var n := |Utf8Char(c)|;
    var x, y := c as int, d as int;
    assert n > 1 ==> x % 64 == y % 64;
    assert n > 2 ==> x / 64 % 64 == y / 64 % 64;
    assert n > 3 ==> x / 4096 % 64 == y / 4096 % 64;
    assert n == 2 ==> x / 64 == y / 64;
    assert n == 3 ==> x / 4096 == y / 4096;
    assert n == 4 ==> x / 262144 == y / 262144;
    hide Utf8Char;
    HighDigits(x);
    HighDigits(y);
  }

  lemma HighDigits(x: nat)
    ensures x / 64 / 64 == x / 4096 && x / 4096 / 64 == x / 262144
  {
    ModUnique(x, 4096, x / 64 / 64, x / 64 % 64 * 64 + x % 64);
    ModUnique(x, 262144, x / 4096 / 64, x / 4096 % 64 * 4096 + x % 4096);
  }

  lemma {:induction false} Utf8Join(a: string, b: string)
    ensures Utf8(a + b) == Utf8(a) + Utf8(b)
  {
    hide Utf8Char;
    if a == [] {
      assert a + b == b;
    } else {
      Utf8Join(a[1..], b);
      assert (a + b)[1..] == a[1..] + b && (a + b)[0] == a[0];
    }
  }

  lemma {:induction false} Utf8Grows(a: string, b: string)
    ensures |Utf8(a + b)| >= |Utf8(a)| + |b|
  {
    hide Utf8Char;
    if a != [] {
      Utf8Grows(a[1..], b);
      assert (a + b)[1..] == a[1..] + b;
    } else if b != [] {
      Utf8Grows([], b[1..]);
      assert a + b == b && [] + b[1..] == b[1..];
    }
  }

  /** The bytes determine the text. */
  lemma {:induction false} Utf8Injective(a: string, b: string)
    requires Utf8(a) == Utf8(b)
    ensures a == b
  {
    if a != [] && b != [] {
      var u, v := Utf8Char(a[0]), Utf8Char(b[0]);
      assert Utf8(a)[0] == u[0] && Utf8(b)[0] == v[0];
      LeadByte(a[0]);
      LeadByte(b[0]);
      assert u == Utf8(a)[..|u|] && v == Utf8(b)[..|v|];
      CharOfBytes(a[0], b[0]);
      assert Utf8(a[1..]) == Utf8(a)[|u|..] && Utf8(b[1..]) == Utf8(b)[|v|..];
      Utf8Injective(a[1..], b[1..]);
    } else {
      assert a != [] ==> |Utf8(a)| > 0;
      assert b != [] ==> |Utf8(b)| > 0;
    }
  }

  /** The code point that a lead byte and its followers would spell. */
  function Assembled(b: seq<Byte>, n: nat): (cp: int)
    requires 1 <= n <= 4 && n <= |b|
  {
    if n == 1 then b[0]
    else if n == 2 then Low(b[0], 32) * 64 + Low(b[1], 64)
    else if n == 3 then Low(b[0], 16) * 4096 + Low(b[1], 64) * 64 + Low(b[2], 64)
    else Low(b[0], 8) * 262144 + Low(b[1], 64) * 4096 + Low(b[2], 64) * 64 + Low(b[3], 64)
  }

  function Low(b: Byte, m: int): int
    requires m > 0
  {
    (b as int) % m
  }

  function CharLength(lead: Byte): (n: nat)
    ensures 1 <= n <= 4
  {
    if lead < 0x80 then 1 else if lead < 0xE0 then 2 else if lead < 0xF0 then 3 else 4
  }

  /** Validation: only the bytes that encode a scalar value are accepted. */
  function Utf8Decode(bytes: seq<Byte>): Option<string> {
    if bytes == [] then Some([])
    else
      var n := CharLength(bytes[0]);
      if n > |bytes| then None
      else
        var cp := Assembled(bytes, n);
        if !(0 <= cp < 0xD800 || 0xE000 <= cp < 0x110000) || Utf8Char(cp as char) != bytes[..n] then None
        else match Utf8Decode(bytes[n..])
          case None => None
          case Some(rest) => Some([cp as char] + rest)
  }

  lemma AssembledChar(c: char, rest: seq<Byte>)
    ensures var b := Utf8Char(c) + rest; CharLength(b[0]) == |Utf8Char(c)| && Assembled(b, |Utf8Char(c)|) == c as int
  {
    hide Utf8Char;
    LeadByte(c);
    AssembledAlone(c);
    var u, b := Utf8Char(c), Utf8Char(c) + rest;
    assert forall i :: 0 <= i < |u| ==> b[i] == u[i];
  }

  lemma AssembledAlone(c: char)
    ensures Assembled(Utf8Char(c), |Utf8Char(c)|) == c as int
  {
    hide Assembled;
    var cp := c as int;
    if cp < 0x80 {
      OneByte(cp);
    } else if cp < 0x800 {
      TwoBytes(cp);
    } else if cp < 0x10000 {
      ThreeBytes(cp);
    } else {
      FourBytes(cp);
    }
  }

  lemma OneByte(cp: nat)
    requires cp < 0x80
    ensures Assembled([B(cp)], 1) == cp
  {}

  lemma TwoBytes(cp: nat)
    requires cp < 0x800
    ensures Assembled([B(0xC0 + cp / 64), B(0x80 + cp % 64)], 2) == cp
  {
    LeadDigits(cp);
  }

  lemma ThreeBytes(cp: nat)
    requires cp < 0x10000
    ensures Assembled([B(0xE0 + cp / 4096), B(0x80 + cp / 64 % 64), B(0x80 + cp % 64)], 3) == cp
  {
    LeadDigits(cp);
    HighDigits(cp);
    FourDigits(cp);
  }

  lemma FourBytes(cp: nat)
    requires cp < 0x110000
    ensures Assembled([B(0xF0 + cp / 262144), B(0x80 + cp / 4096 % 64), B(0x80 + cp / 64 % 64), B(0x80 + cp % 64)], 4)
      == cp
  {
    LeadDigits(cp);
    HighDigits(cp);
    FourDigits(cp);
  }

  /** A number from its base-64 digits. */
  lemma FourDigits(cp: nat)
    ensures cp / 64 * 64 + cp % 64 == cp
    ensures cp / 64 / 64 * 4096 + cp / 64 % 64 * 64 + cp % 64 == cp
    ensures cp / 64 / 64 / 64 * 262144 + cp / 64 / 64 % 64 * 4096 + cp / 64 % 64 * 64 + cp % 64 == cp
  {}

  lemma LeadDigits(cp: nat)
    requires cp < 0x110000
    ensures cp < 0x800 ==> (0xC0 + cp / 64) % 32 == cp / 64
    ensures cp < 0x10000 ==> (0xE0 + cp / 4096) % 16 == cp / 4096
    ensures (0xF0 + cp / 262144) % 8 == cp / 262144
    ensures (0x80 + cp % 64) % 64 == cp % 64 && (0x80 + cp / 64 % 64) % 64 == cp / 64 % 64
    ensures (0x80 + cp / 4096 % 64) % 64 == cp / 4096 % 64
  {}

  lemma {:induction false} DecodeUtf8(text: string)
    ensures Utf8Decode(Utf8(text)) == Some(text)
  {
    if text != [] {
      var u, rest := Utf8Char(text[0]), Utf8(text[1..]);
      AssembledChar(text[0], rest);
      DecodeUtf8(text[1..]);
      assert (u + rest)[..|u|] == u && (u + rest)[|u|..] == rest;
      hide Utf8Char, Utf8, Assembled, CharLength;
      assert text == [text[0]] + text[1..];
    }
  }

  /** Exactly the encodings of texts are accepted. */
  lemma {:induction false} DecodedIsUtf8(bytes: seq<Byte>)
    ensures Utf8Decode(bytes).Some? ==> Utf8(Utf8Decode(bytes).value) == bytes
    decreases |bytes|
  {
    if bytes != [] && Utf8Decode(bytes).Some? {
      hide Utf8Decode, Utf8, Utf8Char;
      var c, text, rest := DecodedHead(bytes);
      DecodedIsUtf8(rest);
      Utf8More(c, text);
    }
  }

  /** The first character, what the others decode to, and their bytes. */
  lemma DecodedHead(bytes: seq<Byte>) returns (c: char, text: string, rest: seq<Byte>)
    requires bytes != [] && Utf8Decode(bytes).Some?
    ensures bytes == Utf8Char(c) + rest && |rest| < |bytes|
    ensures Utf8Decode(rest) == Some(text) && Utf8Decode(bytes) == Some([c] + text)
  {
    hide Utf8Char, Assembled, CharLength;
    var n := CharLength(bytes[0]);
    c, rest := Assembled(bytes, n) as char, bytes[n..];
    text := Utf8Decode(rest).value;
  }

  lemma Utf8More(c: char, rest: string)
    ensures Utf8([c] + rest) == Utf8Char(c) + Utf8(rest)
  {
    hide Utf8Char;
    assert ([c] + rest)[1..] == rest;
  }

  // ---- The byte table ----

  /** Printable bytes stand for themselves. */
  predicate Direct(b: int) { 33 <= b <= 126 || 0xA1 <= b <= 0xAC || 0xAE <= b <= 0xFF }

  /** The code point of a byte: the others take 256, 257, ... in order. */
  function CodePoint(b: Byte): (cp: int)
    ensures 33 <= cp < 324
  {
    if Direct(b) then b else if b <= 32 then 256 + b else if b <= 160 then 256 + b - 94 else 323
  }

  function ByteChar(b: Byte): char { CodePoint(b) as char }

  /** The byte a character stands for. */
  function CharByte(c: char): (b: int)
    ensures -1 <= b < 256
  {
    var cp := c as int;
    if Direct(cp) then cp else if 256 <= cp <= 288 then cp - 256 else if 289 <= cp <= 322 then cp - 162
    else if cp == 323 then 173 else -1
  }

  /** The table is a bijection between the bytes and the characters that stand for one. */
  lemma ByteTable(b: Byte, c: char)
    ensures CharByte(ByteChar(b)) == b
    ensures CharByte(c) >= 0 ==> ByteChar(CharByte(c)) == c
  {}

  /** `build_byte_maps`: counting up through the unprintable bytes gives exactly that table. */
  method BuildByteMaps() returns (byteToChar: seq<char>, charToByte: map<char, Byte>)
    ensures |byteToChar| == 256 && forall b: Byte :: byteToChar[b] == ByteChar(b)
    ensures forall c :: c in charToByte <==> CharByte(c) >= 0
    ensures forall c :: c in charToByte ==> charToByte[c] == CharByte(c)
  {
    byteToChar, charToByte := [], map[];
    var next := 256;
    for b := 0 to 256
      invariant |byteToChar| == b && forall a: Byte :: a < b ==> byteToChar[a] == ByteChar(a)
      invariant next == 256 + (if b <= 33 then b else if b <= 127 then 33 else if b <= 161 then b - 94
                               else if b <= 173 then 67 else 68)
      invariant forall c :: c in charToByte <==> 0 <= CharByte(c) < b
      invariant forall c :: c in charToByte ==> charToByte[c] == CharByte(c)
    {
      var cp := b;
      if !Direct(b) {
        cp, next := next, next + 1;
      }
      ByteTable(b, cp as char);
      byteToChar := byteToChar + [cp as char];
      charToByte := charToByte[cp as char := b];
      forall c
        ensures c in charToByte <==> 0 <= CharByte(c) < b + 1
      {
        ByteTable(b, c);
      }
    }
  }

  // ---- Pieces and their bytes ----

  /** A text of bytes, byte by byte in its characters. */
  function ByteString(bytes: seq<Byte>): (s: string)
    ensures |s| == |bytes|
  {
    seq(|bytes|, i requires 0 <= i < |bytes| => ByteChar(bytes[i]))
  }

  /** `piece_to_bytes`: characters that stand for no byte are dropped. */
  function PieceBytes(piece: string): seq<Byte> {
    if piece == [] then []
    else (if CharByte(piece[0]) >= 0 then [B(CharByte(piece[0]))] else []) + PieceBytes(piece[1..])
  }

  lemma {:induction false} PieceJoin(a: string, b: string)
    ensures PieceBytes(a + b) == PieceBytes(a) + PieceBytes(b)
  {
    hide CharByte;
    if a == [] {
      assert a + b == b;
    } else {
      PieceJoin(a[1..], b);
      assert (a + b)[1..] == a[1..] + b;
    }
  }

  /** Every byte string comes back. */
  lemma {:induction false} ByteStringBack(bytes: seq<Byte>)
    ensures PieceBytes(ByteString(bytes)) == bytes
  {
    if bytes != [] {
      ByteTable(bytes[0], ByteChar(bytes[0]));
      assert ByteString(bytes)[1..] == ByteString(bytes[1..]);
      ByteStringBack(bytes[1..]);
    }
  }

  method PieceToBytes(piece: string) returns (bytes: seq<Byte>)
    ensures bytes == PieceBytes(piece)
  {
    bytes := [];
    for i := 0 to |piece|
      invariant bytes == PieceBytes(piece[..i])
    {
      PieceJoin(piece[..i], [piece[i]]);
      assert piece[..i + 1] == piece[..i] + [piece[i]];
      if CharByte(piece[i]) >= 0 { bytes := bytes + [B(CharByte(piece[i]))]; }
    }
    assert piece[..|piece|] == piece;
  }
}
