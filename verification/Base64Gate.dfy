/** The acceptance test for provider image data, against the encoding of RFC 4648, section 4. */
module Base64Gate {
  type Byte = b: int | 0 <= b < 256
  type Sextet = v: int | 0 <= v < 64

  // ---------- the encoding ----------

  function Symbol(v: Sextet): char {
    if v < 26 then 'A' + v as char
    else if v < 52 then 'a' + (v - 26) as char
    else if v < 62 then '0' + (v - 52) as char
    else if v == 62 then '+' else '/'
  }

  predicate IsSymbol(c: char) {
    'A' <= c <= 'Z' || 'a' <= c <= 'z' || '0' <= c <= '9' || c == '+' || c == '/'
  }

  function Index(c: char): (v: Sextet)
    requires IsSymbol(c)
    ensures Symbol(v) == c
  {
    if 'A' <= c <= 'Z' then (c - 'A') as int
    else if 'a' <= c <= 'z' then (c - 'a') as int + 26
    else if '0' <= c <= '9' then (c - '0') as int + 52
    else if c == '+' then 62 else 63
  }

  lemma IndexOfSymbol(v: Sextet)
    ensures IsSymbol(Symbol(v)) && Index(Symbol(v)) == v
  {
  }

  /** The six-bit pieces of consecutive bytes `a`, `b`, `c`. */
  function S0(a: int): Sextet requires 0 <= a < 256 { a / 4 }
  function S1(a: int, b: int): Sextet requires 0 <= a < 256 && 0 <= b < 256 { a % 4 * 16 + b / 16 }
  function S2(b: int, c: int): Sextet requires 0 <= b < 256 && 0 <= c < 256 { b % 16 * 4 + c / 64 }
  function S3(c: int): Sextet requires 0 <= c < 256 { c % 64 }

  function Four(b: seq<Byte>): (v: seq<Sextet>)
    requires |b| == 3
    ensures |v| == 4
  {
    [S0(b[0]), S1(b[0], b[1]), S2(b[1], b[2]), S3(b[2])]
  }

  /** The last one or two bytes are filled up with zero bits (section 3.5). */
  function PackTail(b: seq<Byte>): (v: seq<Sextet>)
    requires |b| < 3
    ensures |v| == if b == [] then 0 else |b| + 1
  {
    if b == [] then []
    else if |b| == 1 then [S0(b[0]), S1(b[0], 0)]
    else [S0(b[0]), S1(b[0], b[1]), S2(b[1], 0)]
  }

  /** Bytes to six-bit values, most significant bits first. */
  function Pack(b: seq<Byte>): (v: seq<Sextet>)
    ensures |v| == |b| / 3 * 4 + (if |b| % 3 == 0 then 0 else |b| % 3 + 1)
  {
    if |b| < 3 then PackTail(b) else Four(b[..3]) + Pack(b[3..])
  }

  function Symbols(v: seq<Sextet>): (s: string)
    ensures |s| == |v|
  {
    seq(|v|, i requires 0 <= i < |v| => Symbol(v[i]))
  }

  function Encode(b: seq<Byte>): string {
    Symbols(Pack(b))
  }

  function Padded(b: seq<Byte>): string {
    Encode(b) + (if |b| % 3 == 1 then "==" else if |b| % 3 == 2 then "=" else "")
  }

  // ---------- the code's test ----------

  function Padding(t: string): (p: nat)
    ensures p <= |t|
  {
    if |t| == 0 || t[|t| - 1] != '=' then 0 else if |t| >= 2 && t[|t| - 2] == '=' then 2 else 1
  }

  function Body(t: string): string {
    t[..|t| - Padding(t)]
  }

  predicate AllSymbols(s: string) {
    forall i :: 0 <= i < |s| ==> IsSymbol(s[i])
  }

  function Indices(s: string): (v: seq<Sextet>)
    requires AllSymbols(s)
    ensures |v| == |s|
  {
    seq(|s|, i requires 0 <= i < |s| => Index(s[i]))
  }

  /** The bytes of consecutive six-bit values `x`, `y`, `z`, `w`. */
  function B0(x: int, y: int): Byte requires 0 <= x < 64 && 0 <= y < 64 { x * 4 + y / 16 }
  function B1(y: int, z: int): Byte requires 0 <= y < 64 && 0 <= z < 64 { y % 16 * 16 + z / 4 }
  function B2(z: int, w: int): Byte requires 0 <= z < 64 && 0 <= w < 64 { z % 4 * 64 + w }

  function Three(v: seq<Sextet>): (b: seq<Byte>)
    requires |v| == 4
    ensures |b| == 3
  {
    [B0(v[0], v[1]), B1(v[1], v[2]), B2(v[2], v[3])]
  }

  /** A single left-over value yields nothing. */
  function UnpackTail(v: seq<Sextet>): (b: seq<Byte>)
    requires |v| < 4
    ensures |b| == if |v| < 2 then 0 else |v| - 1
  {
    if |v| < 2 then []
    else if |v| == 2 then [B0(v[0], v[1])]
    else [B0(v[0], v[1]), B1(v[1], v[2])]
  }

  function Unpack(v: seq<Sextet>): (b: seq<Byte>)
    ensures |b| == |v| / 4 * 3 + (if |v| % 4 < 2 then 0 else |v| % 4 - 1)
  {
    if |v| < 4 then UnpackTail(v) else Three(v[..4]) + Unpack(v[4..])
  }

  function Decode(s: string): seq<Byte>
    requires AllSymbols(s)
  {
    Unpack(Indices(s))
  }

  /** Size computed from the text alone. */
  function DeclaredSize(t: string): nat {
    var size := |t| * 3 / 4 - Padding(t);
    if size < 0 then 0 else size
  }

  /** The length test and the regular expression. */
  predicate Shaped(t: string) {
    |t| != 0 && |t| % 4 != 1 && ('=' in t ==> |t| % 4 == 0) && AllSymbols(Body(t))
  }

  /** The padding and the bits of the last symbol. */
  predicate Terminated(t: string)
    requires AllSymbols(Body(t))
  {
    var remainder := |Body(t)| % 4;
    var last := if Body(t) == "" then 0 else Index(Body(t)[|Body(t)| - 1]);
    && (Padding(t) == 2 ==> remainder == 2)
    && (Padding(t) == 1 ==> remainder == 3)
    && (remainder == 2 ==> last % 16 == 0)
    && (remainder == 3 ==> last % 4 == 0)
  }

  predicate Accepts(t: string) {
    Shaped(t) && Terminated(t) && DeclaredSize(t) != 0 && |Decode(Body(t))| == DeclaredSize(t)
  }

  /** Unused bits of the last value are zero. */
  predicate Canonical(v: seq<Sextet>) {
    && |v| % 4 != 1
    && (|v| % 4 == 2 ==> v[|v| - 1] % 16 == 0)
    && (|v| % 4 == 3 ==> v[|v| - 1] % 4 == 0)
  }

  // ---------- round trips ----------

  lemma SymbolsIndices(v: seq<Sextet>)
    ensures AllSymbols(Symbols(v)) && Indices(Symbols(v)) == v
  {
    forall i | 0 <= i < |v|
      ensures IsSymbol(Symbols(v)[i]) && Index(Symbols(v)[i]) == v[i]
    {
      IndexOfSymbol(v[i]);
    }
  }

  lemma FirstByte(a: int, b: int)
    requires 0 <= a < 256 && 0 <= b < 256
    ensures B0(S0(a), S1(a, b)) == a
  {
  }

  lemma SecondByte(a: int, b: int, c: int)
    requires 0 <= a < 256 && 0 <= b < 256 && 0 <= c < 256
    ensures B1(S1(a, b), S2(b, c)) == b
  {
    assert S1(a, b) % 16 == b / 16;
    assert S2(b, c) / 4 == b % 16;
  }

  lemma ThirdByte(b: int, c: int)
    requires 0 <= b < 256 && 0 <= c < 256
    ensures B2(S2(b, c), S3(c)) == c
  {
    assert S2(b, c) % 4 == c / 64;
  }

  lemma FirstPieces(x: int, y: int, z: int)
    requires 0 <= x < 64 && 0 <= y < 64 && 0 <= z < 64
    ensures S0(B0(x, y)) == x
    ensures S1(B0(x, y), B1(y, z)) == y
    ensures y % 16 == 0 ==> S1(B0(x, y), 0) == y
  {
    assert B0(x, y) % 4 == y / 16;
    assert B1(y, z) / 16 == y % 16;
  }

  lemma LastPieces(y: int, z: int, w: int)
    requires 0 <= y < 64 && 0 <= z < 64 && 0 <= w < 64
    ensures S2(B1(y, z), B2(z, w)) == z && S3(B2(z, w)) == w
    ensures z % 4 == 0 ==> S2(B1(y, z), 0) == z
  {
    assert B1(y, z) % 16 == z / 4;
    assert B2(z, w) / 64 == z % 4;
  }

  lemma ZeroBits(a: int)
    requires 0 <= a < 256
    ensures S1(a, 0) % 16 == 0 && S2(a, 0) % 4 == 0
  {
  }

  lemma ThreeFour(b: seq<Byte>)
    requires |b| == 3
    ensures Three(Four(b)) == b
  {
    FirstByte(b[0], b[1]);
    SecondByte(b[0], b[1], b[2]);
    ThirdByte(b[1], b[2]);
  }

  lemma FourThree(v: seq<Sextet>)
    requires |v| == 4
    ensures Four(Three(v)) == v
  {
    FirstPieces(v[0], v[1], v[2]);
    LastPieces(v[1], v[2], v[3]);
  }

  lemma PackedTailIsCanonical(b: seq<Byte>)
    requires |b| < 3
    ensures Canonical(PackTail(b))
  {
    if |b| > 0 {
      ZeroBits(b[|b| - 1]);
    }
  }

  lemma UnpackPackTail(b: seq<Byte>)
    requires |b| < 3
    ensures UnpackTail(PackTail(b)) == b
  {
    if |b| == 1 {
      FirstByte(b[0], 0);
    } else if |b| == 2 {
      FirstByte(b[0], b[1]);
      SecondByte(b[0], b[1], 0);
    }
  }

  lemma PackUnpackTail(v: seq<Sextet>)
    requires |v| < 4 && Canonical(v)
    ensures PackTail(UnpackTail(v)) == v
  {
    if |v| == 2 {
      FirstPieces(v[0], v[1], 0);
    } else if |v| == 3 {
      FirstPieces(v[0], v[1], v[2]);
      LastPieces(v[1], v[2], 0);
    }
  }

  lemma CanonicalDrop(v: seq<Sextet>)
    requires |v| >= 4
    ensures Canonical(v) <==> Canonical(v[4..])
  {
    assert |v| > 4 ==> v[4..][|v| - 5] == v[|v| - 1];
  }

  lemma {:induction false} UnpackPack(b: seq<Byte>)
    ensures Canonical(Pack(b)) && Unpack(Pack(b)) == b
    decreases |b|
  {
    if |b| < 3 {
      PackedTailIsCanonical(b);
      UnpackPackTail(b);
    } else {
      UnpackPack(b[3..]);
      ThreeFour(b[..3]);
      var v := Pack(b);
      assert v[..4] == Four(b[..3]) && v[4..] == Pack(b[3..]);
      CanonicalDrop(v);
      assert b == b[..3] + b[3..];
    }
  }

  lemma {:induction false} PackUnpack(v: seq<Sextet>)
    requires Canonical(v)
    ensures Pack(Unpack(v)) == v
    decreases |v|
  {
    if |v| < 4 {
      PackUnpackTail(v);
    } else {
      CanonicalDrop(v);
      PackUnpack(v[4..]);
      FourThree(v[..4]);
      var b := Unpack(v);
      assert b[..3] == Three(v[..4]) && b[3..] == Unpack(v[4..]);
      assert v == v[..4] + v[4..];
    }
  }

  lemma DecodeEncode(b: seq<Byte>)
    ensures AllSymbols(Encode(b)) && Canonical(Indices(Encode(b))) && Decode(Encode(b)) == b
  {
    SymbolsIndices(Pack(b));
    UnpackPack(b);
  }

  lemma EncodeDecode(s: string)
    requires AllSymbols(s) && Canonical(Indices(s))
    ensures Encode(Decode(s)) == s
  {
    PackUnpack(Indices(s));
    assert Symbols(Indices(s)) == s;
  }

  lemma BodyOfEncoding(e: string, pad: string)
    requires AllSymbols(e) && pad in {"", "=", "=="}
    ensures Padding(e + pad) == |pad| && Body(e + pad) == e
  {
    var t := e + pad;
    assert !IsSymbol('=');
    assert |e| > 0 ==> t[|e| - 1] == e[|e| - 1];
    assert t[..|e|] == e;
  }

  lemma CanonicalIsAccepted(e: string, pad: string)
    requires e != "" && AllSymbols(e) && Canonical(Indices(e))
    requires pad == "" || (pad == "==" && |e| % 4 == 2) || (pad == "=" && |e| % 4 == 3)
    ensures Accepts(e + pad)
  {
    var t := e + pad;
    BodyOfEncoding(e, pad);
    assert Shaped(t) by {
      assert '=' in t ==> pad != "" by {
        assert !IsSymbol('=');
      }
    }
    assert Terminated(t) by {
      assert Indices(e)[|e| - 1] == Index(e[|e| - 1]);
    }
  }

  lemma AcceptedIsCanonical(t: string)
    requires Accepts(t)
    ensures Body(t) != "" && Canonical(Indices(Body(t)))
  {
    var e := Body(t);
    assert Padding(t) > 0 ==> t[|t| - 1] == '=';
    assert Terminated(t);
    assert e != "" ==> Indices(e)[|e| - 1] == Index(e[|e| - 1]);
  }

  lemma EncodingsAreAccepted(b: seq<Byte>)
    requires b != []
    ensures Accepts(Encode(b)) && Accepts(Padded(b))
  {
    DecodeEncode(b);
    CanonicalIsAccepted(Encode(b), "");
    assert Encode(b) + "" == Encode(b);
    CanonicalIsAccepted(Encode(b), if |b| % 3 == 1 then "==" else if |b| % 3 == 2 then "=" else "");
  }

  lemma PaddingOfLength(t: string)
    ensures t == Body(t) + (if Padding(t) == 2 then "==" else if Padding(t) == 1 then "=" else "")
  {
    assert t == t[..|t| - Padding(t)] + t[|t| - Padding(t)..];
  }

  lemma AcceptedIsEncoding(t: string)
    requires Accepts(t)
    ensures var b := Decode(Body(t)); b != [] && (t == Encode(b) || t == Padded(b))
  {
    var s := Body(t);
    AcceptedIsCanonical(t);
    EncodeDecode(s);
    PaddingOfLength(t);
    assert s + "" == s;
    assert Terminated(t);
  }

  /**
   * The test accepts a text exactly when it is the canonical encoding, with or without padding, of some
   * non-empty byte string.
   */
  lemma AcceptsExactlyEncodings(t: string)
    ensures Accepts(t) <==> exists b: seq<Byte> :: b != [] && (t == Encode(b) || t == Padded(b))
  {
    if Accepts(t) {
      AcceptedIsEncoding(t);
    }
    forall b: seq<Byte> | b != [] && (t == Encode(b) || t == Padded(b))
      ensures Accepts(t)
    {
      EncodingsAreAccepted(b);
    }
  }

  /** Two accepted texts for the same bytes differ at most in their padding. */
  lemma EqualBytesEqualBodies(t: string, u: string)
    requires Accepts(t) && Accepts(u) && Decode(Body(t)) == Decode(Body(u))
    ensures Body(t) == Body(u)
  {
    AcceptedIsCanonical(t);
    AcceptedIsCanonical(u);
    EncodeDecode(Body(t));
    EncodeDecode(Body(u));
  }
}
