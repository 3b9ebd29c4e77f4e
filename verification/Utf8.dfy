/** UTF-8 as Rust's `String` holds it: what `as_bytes` yields and what `String::from_utf8` accepts. */
module Utf8 {
  import opened Bytes

  /** The low six bits of `v` as a continuation byte. */
  function Tail(v: nat): byte { 0x80 + v % 64 }

  /** The encoding of one Unicode scalar value. */
  function EncodeChar(c: char): (s: bytes)
    ensures 1 <= |s| <= 4
  {
    var v := c as int;
    if v < 0x80 then [v]
    else if v < 0x800 then [0xc0 + v / 64, Tail(v)]
    else if v < 0x1_0000 then [0xe0 + v / 64 / 64, Tail(v / 64), Tail(v)]
    else [0xf0 + v / 64 / 64 / 64, Tail(v / 64 / 64), Tail(v / 64), Tail(v)]
  }

  function Encode(s: string): (b: bytes)
    ensures |s| <= |b|
  {
    if s == "" then [] else EncodeChar(s[0]) + Encode(s[1..])
  }

  predicate Continuation(b: byte) { 0x80 <= b < 0xc0 }

  predicate IsScalar(v: int) { 0 <= v < 0xd800 || 0xe000 <= v < 0x11_0000 }

  /** Six more bits. */
  function More(high: int, b: byte): int { high * 64 + (b - 0x80) }

  /** The scalar value a lead byte and its continuation bytes spell, and how many bytes that takes.
      Overlong forms, surrogates and values past U+10FFFF are refused. */
  function DecodeFirst(b: bytes): (r: Option<(char, nat)>)
    ensures r.Some? ==> 1 <= r.value.1 <= |b|
  {
    if b == [] then None
    else if b[0] < 0x80 then Some((b[0] as char, 1))
    else if b[0] < 0xc0 then None
    else if b[0] < 0xe0 then
      if |b| < 2 || !Continuation(b[1]) then None else
        Checked(More(b[0] - 0xc0, b[1]), 0x80, 2)
    else if b[0] < 0xf0 then
      if |b| < 3 || !Continuation(b[1]) || !Continuation(b[2]) then None else
        Checked(More(More(b[0] - 0xe0, b[1]), b[2]), 0x800, 3)
    else
      if |b| < 4 || !Continuation(b[1]) || !Continuation(b[2]) || !Continuation(b[3]) then None else
        Checked(More(More(More(b[0] - 0xf0, b[1]), b[2]), b[3]), 0x1_0000, 4)
  }

  function Checked(v: int, least: int, n: nat): (r: Option<(char, nat)>)
    ensures r.Some? ==> r.value.1 == n
  {
    if v < least || !IsScalar(v) then None else Some((v as char, n))
  }

  function Decode(b: bytes): Option<string> {
    if b == [] then Some("")
    else match DecodeFirst(b)
      case None => None
      case Some((c, n)) =>
        match Decode(b[n..])
        case None => None
        case Some(s) => Some([c] + s)
  }

  lemma DecodeFirstOfEncoding(c: char, rest: bytes)
    ensures DecodeFirst(EncodeChar(c) + rest) == Some((c, |EncodeChar(c)|))
  {
    var v := c as int;
    var b := EncodeChar(c) + rest;
    if 0x80 <= v < 0x800 {
      assert More(v / 64, b[1]) == v;
    } else if 0x800 <= v < 0x1_0000 {
      assert More(v / 64 / 64, b[1]) == v / 64;
      assert More(v / 64, b[2]) == v;
    } else if 0x1_0000 <= v {
      assert More(v / 64 / 64 / 64, b[1]) == v / 64 / 64;
      assert More(v / 64 / 64, b[2]) == v / 64;
      assert More(v / 64, b[3]) == v;
    }
  }

  lemma SixBits(high: nat, b: byte)
    requires Continuation(b)
    ensures More(high, b) / 64 == high && Tail(More(high, b)) == b
  {
  }

  lemma EncodingOfDecodeFirst(b: bytes)
    requires DecodeFirst(b).Some?
    ensures EncodeChar(DecodeFirst(b).value.0) == b[..DecodeFirst(b).value.1]
  {
    if 0xc0 <= b[0] < 0xe0 {
      SixBits(b[0] - 0xc0, b[1]);
    } else if 0xe0 <= b[0] < 0xf0 {
      SixBits(b[0] - 0xe0, b[1]);
      SixBits(More(b[0] - 0xe0, b[1]), b[2]);
    } else if 0xf0 <= b[0] {
      SixBits(b[0] - 0xf0, b[1]);
      SixBits(More(b[0] - 0xf0, b[1]), b[2]);
      SixBits(More(More(b[0] - 0xf0, b[1]), b[2]), b[3]);
    }
  }

  /** One step of `Decode`. */
  lemma DecodeStep(b: bytes, c: char, n: nat, s: string)
    requires DecodeFirst(b) == Some((c, n)) && Decode(b[n..]) == Some(s)
    ensures Decode(b) == Some([c] + s)
  {
  }

  lemma {:induction false} DecodeEncode(s: string)
    ensures Decode(Encode(s)) == Some(s)
  {
    if s != "" {
      var c, t := s[0], s[1..];
      DecodeEncode(t);
      DecodeFirstOfEncoding(c, Encode(t));
      assert (EncodeChar(c) + Encode(t))[|EncodeChar(c)|..] == Encode(t);
      DecodeStep(EncodeChar(c) + Encode(t), c, |EncodeChar(c)|, t);
      assert s == [c] + t;
    }
  }

  /** `from_utf8` accepts exactly what `as_bytes` of some string yields, and gives that string. */
  lemma {:induction false} DecodeExactly(b: bytes, s: string)
    ensures Decode(b) == Some(s) <==> b == Encode(s)
  {
    DecodeEncode(s);
    if Decode(b) == Some(s) {
      DecodedEncodes(b);
    }
  }

  lemma EncodeCons(c: char, s: string)
    ensures Encode([c] + s) == EncodeChar(c) + Encode(s)
  {
    assert ([c] + s)[1..] == s;
  }

  lemma DecodeStepBack(b: bytes) returns (c: char, n: nat, s: string)
    requires b != [] && Decode(b).Some?
    ensures 1 <= n <= |b| && EncodeChar(c) == b[..n]
    ensures Decode(b[n..]) == Some(s) && Decode(b) == Some([c] + s)
  {
    c, n := DecodeFirst(b).value.0, DecodeFirst(b).value.1;
    s := Decode(b[n..]).value;
    EncodingOfDecodeFirst(b);
  }

  lemma {:induction false} DecodedEncodes(b: bytes)
    requires Decode(b).Some?
    ensures Encode(Decode(b).value) == b
    decreases |b|
  {
    if b != [] {
      var c, n, s := DecodeStepBack(b);
      DecodedEncodes(b[n..]);
      EncodeCons(c, s);
      assert b == b[..n] + b[n..];
    }
  }
}
