/** The cursor of api/src/kerberos/der.rs: a `Reader` whose methods move `buf`, and the loops of the
    integer codec, each proved against the functions of module `Der`. */
module DerReader {
  import opened Bytes
  import opened Der

  class Reader {
    var buf: bytes

    constructor (buf: bytes)
      ensures this.buf == buf
    {
      this.buf := buf;
    }

    /** The next item: its tag and content. On an error nothing is consumed. */
    method NextItem() returns (r: Result<(byte, bytes), DerError>)
      modifies this
      ensures match ReadItem(old(buf))
              case Ok(item) => r == Ok((item.tag, item.content)) && buf == item.rest
              case Err(e) => r == Err(e) && buf == old(buf)
    {
      if buf == [] {
        return Err(Truncated);
      }
      var tag := buf[0];
      if tag % 32 == 31 {
        return Err(MultiByteTag);
      }
      if |buf| == 1 {
        return Err(TruncatedLength);
      }
      var first, rest := buf[1], buf[2..];
      var len: nat := first;
      if first >= 0x80 {
        var n := first - 0x80;
        if n == 0 {
          return Err(IndefiniteLength);
        }
        if n > 3 || |rest| < n {
          return Err(LengthOutOfRange);
        }
        len := BigEndian(rest[..n]);
        assert buf[1..][1..1 + n] == rest[..n];
        rest := rest[n..];
        assert buf[1..][1 + n..] == rest;
      } else {
        assert buf[1..][1..] == rest;
      }
      if |rest| < len {
        return Err(ContentPastEnd);
      }
      buf := rest[len..];
      return Ok((tag, rest[..len]));
    }

    /** The next item, which must carry `tag`; it is consumed even when it does not. */
    method ExpectTag(tag: byte) returns (r: Result<bytes, DerError>)
      modifies this
      ensures match Expect(old(buf), tag)
              case Ok(f) => r == Ok(f.content) && buf == f.rest
              case Err(e) => r == Err(e)
    {
      var item :- NextItem();
      if item.0 == tag {
        return Ok(item.1);
      }
      return Err(UnexpectedTag);
    }

    /** The next item when it carries `tag`; nothing is read otherwise. */
    method OptionalTag(tag: byte) returns (r: Result<Option<bytes>, DerError>)
      modifies this
      ensures match Optional(old(buf), tag)
              case Ok(f) => r == Ok(f.content) && buf == f.rest
              case Err(e) => r == Err(e)
    {
      if buf != [] && buf[0] == tag {
        var content :- ExpectTag(tag);
        return Ok(Some(content));
      }
      return Ok(None);
    }

    method ExplicitField(n: field, inner: byte) returns (r: Result<bytes, DerError>)
      modifies this
      ensures match Explicit(old(buf), n, inner)
              case Ok(f) => r == Ok(f.content) && buf == f.rest
              case Err(e) => r == Err(e)
    {
      var wrapped :- ExpectTag(Ctx(n));
      r := SingleItem(wrapped, inner);
    }

    method ExplicitOptField(n: field, inner: byte) returns (r: Result<Option<bytes>, DerError>)
      modifies this
      ensures match ExplicitOpt(old(buf), n, inner)
              case Ok(f) => r == Ok(f.content) && buf == f.rest
              case Err(e) => r == Err(e)
    {
      var wrapped :- OptionalTag(Ctx(n));
      match wrapped {
        case None =>
          return Ok(None);
        case Some(w) =>
          var content :- SingleItem(w, inner);
          return Ok(Some(content));
      }
    }

    /** Skip optional `[n]` fields up to (not including) `[until]`. */
    method SkipFieldsUntil(until: field) returns (r: Result<(), DerError>)
      modifies this
      ensures match SkipUntil(old(buf), until)
              case Ok(rest) => r == Ok(()) && buf == rest
              case Err(e) => r == Err(e)
    {
      while buf != []
        invariant SkipUntil(buf, until) == SkipUntil(old(buf), until)
        decreases |buf|
      {
        if StopsAt(buf[0], until) {
          break;
        }
        var _ :- NextItem();
      }
      return Ok(());
    }
  }

  /** The content of the one item `buf` holds, which must carry `tag`. */
  method SingleItem(buf: bytes, tag: byte) returns (r: Result<bytes, DerError>)
    ensures r == Single(buf, tag)
  {
    var reader := new Reader(buf);
    var content :- reader.ExpectTag(tag);
    if reader.buf != [] {
      return Err(TrailingData);
    }
    return Ok(content);
  }

  method BigEndian(s: bytes) returns (v: nat)
    ensures v == Val(s)
  {
    v := 0;
    for i := 0 to |s|
      invariant v == Val(s[..i])
    {
      assert s[..i + 1][..i] == s[..i];
      v := v * 256 + s[i];
    }
    assert s[..|s|] == s;
  }

  /** An INTEGER's content, sign-extended from its first byte and shifted in byte by byte. The running
      value never leaves the 64-bit range. */
  method IntOf(content: bytes) returns (r: Result<int, DerError>)
    ensures r == Int(content)
  {
    if content == [] || |content| > 8 {
      return Err(IntegerOutOfRange);
    }
    var sign := if content[0] >= 0x80 then -1 else 0;
    var v := sign;
    assert content[..0] == [] && Pow256(0) == 1;
    for i := 0 to |content|
      invariant v == Val(content[..i]) + sign * Pow256(i)
      invariant I64_MIN <= v <= I64_MAX
    {
      var next := content[..i + 1];
      assert next[..i] == content[..i];
      v := v * 256 + content[i];
      SignedFits(next);
    }
    assert content[..|content|] == content;
    return Ok(v);
  }

  lemma SignedFits(s: bytes)
    requires 1 <= |s| <= 8
    ensures I64_MIN <= Signed(s) <= I64_MAX
  {
    SignedRange(s);
    Pow256Monotone(|s| - 1, 7);
    Pow256Values();
    assert Pow256(8) == 256 * Pow256(7);
  }

  /** `enc_int`'s loop drops each leading byte that only repeats the sign, at most seven of them. */
  method EncodeInt(v: i64) returns (out: bytes)
    ensures out == EncInt(v)
  {
    var s := I64Bytes(v);
    var start := 0;
    while start < 7
      invariant 0 <= start <= 7
      invariant Minimal(s[start..]) == Minimal(s)
    {
      var b, next := s[start], s[start + 1];
      if (b == 0x00 && next < 0x80) || (b == 0xff && next >= 0x80) {
        assert s[start..][1..] == s[start + 1..];
        start := start + 1;
      } else {
        break;
      }
    }
    out := Tlv(INTEGER, s[start..]);
  }
}
