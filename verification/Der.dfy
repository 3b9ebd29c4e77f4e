/** DER as api/src/kerberos/der.rs reads and writes it, on byte strings: what one call of the
    reader yields, and the encoder. The cursor itself is `DerReader.Reader`. */
module Der {
  import opened Bytes
  import Utf8
  import opened Arith

  const INTEGER: byte := 0x02
  const BIT_STRING: byte := 0x03
  const OCTET_STRING: byte := 0x04
  const OID: byte := 0x06
  const ENUMERATED: byte := 0x0a
  const GENERALIZED_TIME: byte := 0x18
  const GENERAL_STRING: byte := 0x1b
  const SEQUENCE: byte := 0x30

  /** The largest content a three-byte length can announce, plus one. */
  const MAX_CONTENT: nat := 0x100_0000

  /** Field numbers stay below 31: a single-byte tag has no room for more. */
  type field = n: int | 0 <= n < 31

  /** `[n]` constructed, context-specific. */
  function Ctx(n: field): byte { 0xa0 + n }

  /** `[APPLICATION n]` constructed. */
  function App(n: field): byte { 0x60 + n }

  datatype DerError =
    | Truncated
    | MultiByteTag
    | TruncatedLength
    | IndefiniteLength
    | LengthOutOfRange
    | ContentPastEnd
    | UnexpectedTag
    | TrailingData
    | IntegerOutOfRange
    | StringTooLong
    | NotUtf8
    | BadTime
    | EtypeOutOfRange
    | KeyTypeOutOfRange
    | TooManyComponents
    | EmptyComponent
    | EmptyPrincipal
    | MalformedChecksum
    | MicrosecondsOutOfRange
    | NotApReq
    | NotApRep
    | NotComplete
    | NotKerberos

  /** What one read yields: the content, and what is left unread. */
  datatype Field = Field(content: bytes, rest: bytes)

  datatype OptField = OptField(content: Option<bytes>, rest: bytes)

  datatype Item = Item(tag: byte, content: bytes, rest: bytes)

  /** A length field: its value and what follows it. */
  datatype Length = Length(len: nat, rest: bytes)

  predicate SingleByteTag(tag: byte) { tag % 32 != 31 }

  function ReadLength(buf: bytes): (r: Result<Length, DerError>)
    ensures r.Ok? ==> |r.value.rest| < |buf| && buf[|buf| - |r.value.rest|..] == r.value.rest
  {
    if buf == [] then Err(TruncatedLength)
    else if buf[0] < 0x80 then Ok(Length(buf[0], buf[1..]))
    else
      var n := buf[0] - 0x80;
      if n == 0 then Err(IndefiniteLength)
      else if n > 3 || |buf| - 1 < n then Err(LengthOutOfRange)
      else Ok(Length(Val(buf[1..1 + n]), buf[1 + n..]))
  }

  /** The next item. Whatever is returned lies inside `buf`: the content is the stretch right before
      the rest, and the rest is a proper suffix. */
  function ReadItem(buf: bytes): (r: Result<Item, DerError>)
    ensures r.Ok? ==>
              var Item(tag, content, rest) := r.value;
              && SingleByteTag(tag)
              && |content| + |rest| + 2 <= |buf|
              && buf[0] == tag
              && buf[|buf| - |rest| - |content|..] == content + rest
  {
    if buf == [] then Err(Truncated)
    else if !SingleByteTag(buf[0]) then Err(MultiByteTag)
    else
      var Length(len, rest) :- ReadLength(buf[1..]);
      if |rest| < len then Err(ContentPastEnd)
      else
        assert rest == rest[..len] + rest[len..];
        Ok(Item(buf[0], rest[..len], rest[len..]))
  }

  function Expect(buf: bytes, tag: byte): (r: Result<Field, DerError>)
    ensures r.Ok? ==> |r.value.rest| < |buf|
  {
    var Item(t, content, rest) :- ReadItem(buf);
    if t == tag then Ok(Field(content, rest)) else Err(UnexpectedTag)
  }

  function Optional(buf: bytes, tag: byte): Result<OptField, DerError> {
    if buf != [] && buf[0] == tag then
      var Field(content, rest) :- Expect(buf, tag);
      Ok(OptField(Some(content), rest))
    else
      Ok(OptField(None, buf))
  }

  /** The content of the one item `buf` holds. */
  function Single(buf: bytes, tag: byte): Result<bytes, DerError> {
    var Field(content, rest) :- Expect(buf, tag);
    if rest != [] then Err(TrailingData) else Ok(content)
  }

  function Explicit(buf: bytes, n: field, inner: byte): (r: Result<Field, DerError>)
    ensures r.Ok? ==> |r.value.rest| < |buf|
  {
    var Field(wrapped, rest) :- Expect(buf, Ctx(n));
    var content :- Single(wrapped, inner);
    Ok(Field(content, rest))
  }

  function ExplicitOpt(buf: bytes, n: field, inner: byte): Result<OptField, DerError> {
    var OptField(wrapped, rest) :- Optional(buf, Ctx(n));
    match wrapped
    case None => Ok(OptField(None, rest))
    case Some(w) =>
      var content :- Single(w, inner);
      Ok(OptField(Some(content), rest))
  }

  /** Whether `skip_until` stops here: at `[until]`, past it, or at what is not a `[n]` field. */
  predicate StopsAt(tag: byte, until: field) {
    tag >= Ctx(until) || tag / 32 != 5
  }

  /** What is left after skipping `[n]` fields up to `[until]`. */
  function SkipUntil(buf: bytes, until: field): Result<bytes, DerError>
    decreases |buf|
  {
    if buf == [] || StopsAt(buf[0], until) then Ok(buf)
    else
      var Item(_, _, rest) :- ReadItem(buf);
      SkipUntil(rest, until)
  }

  /** A two's complement number, most significant byte first. */
  function Signed(content: bytes): int {
    if content != [] && content[0] >= 0x80 then Val(content) - Pow256(|content|) else Val(content)
  }

  function Int(content: bytes): Result<int, DerError> {
    if content == [] || |content| > 8 then Err(IntegerOutOfRange) else Ok(Signed(content))
  }

  function String(content: bytes): Result<string, DerError> {
    if |content| > 1024 then Err(StringTooLong)
    else match Utf8.Decode(content)
      case Some(s) => Ok(s)
      case None => Err(NotUtf8)
  }

  /** Bit `i` of a BIT STRING's content, bit 0 being the top bit of the byte after the padding count. */
  predicate Bit(content: bytes, i: nat) {
    1 + i / 8 < |content| && content[1 + i / 8] / Pow2(7 - i % 8) % 2 == 1
  }

  // ------------------------------------------------------------------ encoding

  function StripZeros(s: bytes): (t: bytes)
    ensures |t| <= |s|
  {
    if s != [] && s[0] == 0 then StripZeros(s[1..]) else s
  }

  /** The length field of an item holding `len` bytes. */
  function LengthBytes(len: nat): bytes {
    if len < 0x80 then [len] else
      var significant := StripZeros(Be(len, 8));
      [0x80 + |significant|] + significant
  }

  function Tlv(tag: byte, content: bytes): bytes {
    [tag] + LengthBytes(|content|) + content
  }

  function EncExplicit(n: field, inner: bytes): bytes {
    Tlv(Ctx(n), inner)
  }

  const I64_MIN: int := -0x8000_0000_0000_0000
  const I64_MAX: int := 0x7fff_ffff_ffff_ffff

  type i64 = v: int | -0x8000_0000_0000_0000 <= v <= 0x7fff_ffff_ffff_ffff

  /** `i64::to_be_bytes`. */
  function I64Bytes(v: i64): bytes {
    Be(if v < 0 then v + 0x1_0000_0000_0000_0000 else v, 8)
  }

  /** A leading byte that only repeats the sign of the next one. */
  predicate Redundant(s: bytes) {
    |s| > 1 && ((s[0] == 0x00 && s[1] < 0x80) || (s[0] == 0xff && s[1] >= 0x80))
  }

  function Minimal(s: bytes): (t: bytes)
    ensures s != [] ==> t != []
    ensures |t| <= |s| && !Redundant(t)
  {
    if Redundant(s) then Minimal(s[1..]) else s
  }

  function EncInt(v: i64): bytes {
    Tlv(INTEGER, Minimal(I64Bytes(v)))
  }

  // ------------------------------------------------------------------ reading what was written

  lemma {:induction false} StripZerosVal(s: bytes)
    ensures Val(StripZeros(s)) == Val(s)
    ensures StripZeros(s) != [] ==> StripZeros(s)[0] != 0
  {
    if s != [] && s[0] == 0 {
      assert s == [0] + s[1..];
      ValCons(0, s[1..]);
      StripZerosVal(s[1..]);
    }
  }

  /** A number below 256^k has at most k significant bytes, and one not below it has more. */
  lemma SignificantBytes(len: nat, k: nat)
    requires len < Pow256(8)
    ensures Val(StripZeros(Be(len, 8))) == len
    ensures len < Pow256(k) <==> |StripZeros(Be(len, 8))| <= k
  {
    hide Be, StripZeros, Val, Pow256;
    var t := StripZeros(Be(len, 8));
    StripZerosVal(Be(len, 8));
    ValBe(len, 8);
    ValBound(t);
    if |t| <= k {
      Pow256Monotone(|t|, k);
    } else {
      LeadingDigit(t);
      Pow256Monotone(k, |t| - 1);
    }
  }

  lemma LeadingDigit(t: bytes)
    requires t != [] && t[0] != 0
    ensures Val(t) >= Pow256(|t| - 1)
  {
    assert t == [t[0]] + t[1..];
    ValCons(t[0], t[1..]);
    Scale(1, t[0], Pow256(|t| - 1));
  }

  lemma {:induction false} Pow256Monotone(m: nat, n: nat)
    requires m <= n
    ensures Pow256(m) <= Pow256(n)
  {
    if m < n {
      Pow256Monotone(m, n - 1);
    }
  }

  lemma ReadLengthBytes(len: nat, rest: bytes)
    requires len < MAX_CONTENT
    ensures ReadLength(LengthBytes(len) + rest) == Ok(Length(len, rest))
    ensures |LengthBytes(len)| <= 4
  {
    if len >= 0x80 {
      Pow256Values();
      SignificantBytes(len, 3);
      SignificantBytes(len, 0);
      var t := StripZeros(Be(len, 8));
      var buf := [0x80 + |t|] + t + rest;
      assert buf[1..1 + |t|] == t;
      assert buf[1 + |t|..] == rest;
    }
  }

  /** An item under 2^24 bytes reads back exactly, whatever follows it. */
  lemma ReadTlv(tag: byte, content: bytes, rest: bytes)
    requires SingleByteTag(tag) && |content| < MAX_CONTENT
    ensures ReadItem(Tlv(tag, content) + rest) == Ok(Item(tag, content, rest))
    ensures |content| + 2 <= |Tlv(tag, content)| <= |content| + 5
  {
    hide Be, StripZeros, Val, ReadLength;
    ReadLengthBytes(|content|, content + rest);
    var buf := Tlv(tag, content) + rest;
    assert buf[1..] == LengthBytes(|content|) + (content + rest);
    assert (content + rest)[..|content|] == content && (content + rest)[|content|..] == rest;
  }

  /** A longer one, up to what a 64-bit length can count, is refused. */
  lemma LongTlvRefused(tag: byte, content: bytes, rest: bytes)
    requires SingleByteTag(tag) && MAX_CONTENT <= |content| < 0x1_0000_0000_0000_0000
    ensures ReadItem(Tlv(tag, content) + rest) == Err(LengthOutOfRange)
  {
    hide Be, StripZeros, Val;
    Pow256Values();
    SignificantBytes(|content|, 3);
    var buf := Tlv(tag, content) + rest;
    assert buf[1..] == LengthBytes(|content|) + (content + rest);
  }

  lemma SingleTlv(tag: byte, content: bytes)
    requires SingleByteTag(tag) && |content| < MAX_CONTENT
    ensures Single(Tlv(tag, content), tag) == Ok(content)
    ensures |content| + 2 <= |Tlv(tag, content)| <= |content| + 5
  {
    ReadTlv(tag, content, []);
    assert Tlv(tag, content) + [] == Tlv(tag, content);
  }

  lemma ExpectTlv(tag: byte, content: bytes, rest: bytes)
    requires SingleByteTag(tag) && |content| < MAX_CONTENT
    ensures Expect(Tlv(tag, content) + rest, tag) == Ok(Field(content, rest))
    ensures |content| + 2 <= |Tlv(tag, content)| <= |content| + 5
  {
    ReadTlv(tag, content, rest);
  }

  lemma CtxTag(n: field)
    ensures SingleByteTag(Ctx(n)) && Ctx(n) / 32 == 5
  {
  }

  /** An item with anything after it is not taken for the one item of a buffer. */
  lemma TrailingRefused(tag: byte, content: bytes, rest: bytes)
    requires SingleByteTag(tag) && |content| < MAX_CONTENT && rest != []
    ensures Single(Tlv(tag, content) + rest, tag) == Err(TrailingData)
  {
    hide Tlv, ReadItem;
    ReadTlv(tag, content, rest);
  }

  /** How much an item adds to its content, whatever its length. */
  lemma TlvSize(tag: byte, content: bytes)
    ensures |content| + 2 <= |Tlv(tag, content)| <= |content| + 10
  {
    hide StripZeros, Be;
  }

  lemma LongSingleRefused(tag: byte, content: bytes)
    requires SingleByteTag(tag) && MAX_CONTENT <= |content| < 0x1_0000_0000_0000_0000
    ensures Single(Tlv(tag, content), tag) == Err(LengthOutOfRange)
  {
    hide Tlv, ReadItem;
    LongTlvRefused(tag, content, []);
    assert Tlv(tag, content) + [] == Tlv(tag, content);
  }

  /** An item that can be read has a content under 2^24 bytes. */
  lemma SingleIsShort(buf: bytes, tag: byte)
    requires Single(buf, tag).Ok?
    ensures |buf| <= MAX_CONTENT + 5
  {
    var len := ReadLength(buf[1..]).value;
    if buf[1] >= 0x80 {
      Pow256Values();
      ValBound(buf[1..][1..1 + (buf[1] - 0x80)]);
    }
  }

  /** `[n] EXPLICIT` around an item reads back as that item's content; so does its optional form. */
  lemma ExplicitTlv(n: field, inner: byte, content: bytes, rest: bytes)
    requires SingleByteTag(inner) && |content| < MAX_CONTENT - 5
    ensures Explicit(EncExplicit(n, Tlv(inner, content)) + rest, n, inner) == Ok(Field(content, rest))
    ensures ExplicitOpt(EncExplicit(n, Tlv(inner, content)) + rest, n, inner) == Ok(OptField(Some(content), rest))
    ensures |content| + 4 <= |EncExplicit(n, Tlv(inner, content))| <= |content| + 10
  {
    SingleTlv(inner, content);
    CtxTag(n);
    ExpectTlv(Ctx(n), Tlv(inner, content), rest);
    assert (EncExplicit(n, Tlv(inner, content)) + rest)[0] == Ctx(n);
  }

  /** A field with another number is not taken for `[n]`. */
  lemma ExplicitOptAbsent(m: field, n: field, inner: bytes, rest: bytes, tag: byte)
    requires m != n
    ensures ExplicitOpt(EncExplicit(m, inner) + rest, n, tag) == Ok(OptField(None, EncExplicit(m, inner) + rest))
  {
    assert (EncExplicit(m, inner) + rest)[0] == Ctx(m) != Ctx(n);
  }

  // ------------------------------------------------------------------ integers

  lemma MinimalSigned(s: bytes)
    requires s != []
    ensures Signed(Minimal(s)) == Signed(s)
    decreases |s|
  {
    if Redundant(s) {
      var t := s[1..];
      assert s == [s[0]] + t;
      ValCons(s[0], t);
      assert Pow256(|s|) == 256 * Pow256(|t|);
      MinimalSigned(t);
    }
  }

  function SignedByte(b: byte): int { if b >= 0x80 then b - 256 else b }

  /** A two's complement number by its first byte and what the other bytes add. */
  lemma SignedSplit(s: bytes)
    requires s != []
    ensures var p, top := Pow256(|s| - 1), SignedByte(s[0]);
            && Signed(s) == top * p + Val(s[1..])
            && top * p <= Signed(s) < (top + 1) * p
            && 0 <= Val(s[1..]) < p
  {
    hide Val, Pow256;
    assert s == [s[0]] + s[1..];
    ValCons(s[0], s[1..]);
    ValBound(s[1..]);
    Pow256Step(|s| - 1);
    TwosComplement(s[0], Pow256(|s| - 1), Val(s[1..]));
  }

  lemma TwosComplement(b: int, p: nat, low: nat)
    requires low < p
    ensures (b - 256) * p + low == b * p + low - 256 * p
    ensures b * p <= b * p + low < (b + 1) * p
    ensures (b - 256) * p <= (b - 256) * p + low < (b - 256 + 1) * p
  {
  }

  /** The range of a k-byte two's complement number. */
  lemma SignedRange(s: bytes)
    requires s != []
    ensures -128 * Pow256(|s| - 1) <= Signed(s) < 128 * Pow256(|s| - 1)
  {
    SignedSplit(s);
    var p, top := Pow256(|s| - 1), SignedByte(s[0]);
    Scale(-128, top, p);
    Scale(top + 1, 128, p);
  }

  lemma I64BytesSigned(v: i64)
    ensures Signed(I64Bytes(v)) == v
  {
    Pow256Values();
    var u := if v < 0 then v + 0x1_0000_0000_0000_0000 else v;
    var s := I64Bytes(v);
    ValBe(u, 8);
    SignedRange(s);
    assert Pow256(8) == 256 * Pow256(7);
    assert Signed(s) == u || Signed(s) == u - Pow256(8);
  }

  /** `int` undoes `enc_int` for every i64. */
  lemma EncIntDecodes(v: i64)
    ensures Int(Minimal(I64Bytes(v))) == Ok(v)
    ensures Single(EncInt(v), INTEGER) == Ok(Minimal(I64Bytes(v)))
  {
    I64BytesSigned(v);
    MinimalSigned(I64Bytes(v));
    SingleTlv(INTEGER, Minimal(I64Bytes(v)));
  }

  /** A content without a redundant first byte is out of reach of any shorter content. */
  lemma NoShorterContent(s: bytes, c: bytes)
    requires s != [] && !Redundant(s) && c != [] && |c| < |s|
    ensures Signed(c) != Signed(s)
  {
    var p := Pow256(|s| - 2);
    SignedRange(c);
    Pow256Monotone(|c| - 1, |s| - 2);
    TwoLeadingBytes(s);
    var top := SignedByte(s[0]) * 256 + s[1];
    if top >= 128 {
      Scale(128, top, p);
    } else {
      Scale(top + 1, -128, p);
    }
  }

  lemma TwoLeadingBytes(s: bytes)
    requires |s| > 1
    ensures var p, top := Pow256(|s| - 2), SignedByte(s[0]) * 256 + s[1];
            top * p <= Signed(s) < (top + 1) * p
  {
    hide Val, Signed, Pow256;
    var p, high, next: int := Pow256(|s| - 2), SignedByte(s[0]), s[1];
    SignedSplit(s);
    assert s[1..] == [s[1]] + s[2..];
    ValCons(s[1], s[2..]);
    ValBound(s[2..]);
    Pow256Step(|s| - 2);
    TwoDigits(high, next, p);
  }

  lemma TwoDigits(high: int, next: int, p: int)
    ensures (high * 256 + next) * p == high * (256 * p) + next * p
    ensures (high * 256 + next + 1) * p == (high * 256 + next) * p + p
  {
  }

  /** `enc_int` is the shortest encoding: whatever decodes to `v` is at least as long. */
  lemma EncIntShortest(v: i64, c: bytes)
    requires Int(c) == Ok(v)
    ensures |Minimal(I64Bytes(v))| <= |c|
  {
    I64BytesSigned(v);
    MinimalSigned(I64Bytes(v));
    if |c| < |Minimal(I64Bytes(v))| {
      NoShorterContent(Minimal(I64Bytes(v)), c);
    }
  }

  /** An explicit INTEGER field, read back to its number. */
  lemma ExplicitInt(n: field, v: i64, rest: bytes)
    ensures var content := Minimal(I64Bytes(v));
            && Explicit(EncExplicit(n, EncInt(v)) + rest, n, INTEGER) == Ok(Field(content, rest))
            && ExplicitOpt(EncExplicit(n, EncInt(v)) + rest, n, INTEGER) == Ok(OptField(Some(content), rest))
            && Int(content) == Ok(v)
    ensures |EncExplicit(n, EncInt(v))| <= 18
  {
    EncIntDecodes(v);
    ExplicitTlv(n, INTEGER, Minimal(I64Bytes(v)), rest);
  }
}
