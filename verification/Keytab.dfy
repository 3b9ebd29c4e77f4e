/** The framing of a keytab file: records behind a signed 32-bit size, a negative size marking a hole.
    What a record holds is left to `parse`. */
module Records {
  import opened Bytes

  datatype FrameError<+E> = TruncatedEntry | EntryPastEnd | TooManyEntries | BadRecord(error: E)

  function I32(b: bytes): int {
    if Val(b) >= 0x8000_0000 then Val(b) - 0x1_0000_0000 else Val(b)
  }

  function I32Bytes(size: int): (b: bytes)
    requires -0x8000_0000 <= size < 0x8000_0000
    ensures |b| == 4
  {
    Be(if size < 0 then size + 0x1_0000_0000 else size, 4)
  }

  lemma I32Back(size: int)
    requires -0x8000_0000 <= size < 0x8000_0000
    ensures I32(I32Bytes(size)) == size
  {
    Pow256Values();
    ValBe(if size < 0 then size + 0x1_0000_0000 else size, 4);
  }

  function Magnitude(size: int): nat { if size < 0 then -size else size }

  /** The records from `rest` on, after those in `done`. */
  function ParseRecords<T, E>(rest: bytes, done: seq<T>, limit: nat,
                              parse: bytes -> Result<T, E>): Result<seq<T>, FrameError<E>>
    decreases |rest|
  {
    if rest == [] then Ok(done)
    else if |rest| < 4 then Err(TruncatedEntry)
    else
      var size, after := I32(rest[..4]), rest[4..];
      if size == 0 then Ok(done)
      else if Magnitude(size) > |after| then Err(EntryPastEnd)
      else if size < 0 then ParseRecords(after[-size..], done, limit, parse)
      else if |done| == limit then Err(TooManyEntries)
      else match parse(after[..size])
        case Err(e) => Err(BadRecord(e))
        case Ok(v) => ParseRecords(after[size..], done + [v], limit, parse)
  }

  /** What stands in a file between its header and its end: a record and what it holds, or the hole a
      deleted one left. */
  datatype Piece<T> = Record(body: bytes, value: T) | Hole(content: bytes) {
    function Size(): int { if Record? then |body| else -|content| }
    function Body(): bytes { if Record? then body else content }

    ghost predicate Framed<E>(parse: bytes -> Result<T, E>) {
      && -0x8000_0000 <= Size() < 0x8000_0000 && Size() != 0
      && (Record? ==> parse(body) == Ok(value))
    }

    function Values(): seq<T> { if Record? then [value] else [] }
  }

  function WritePiece<T>(p: Piece<T>): (b: bytes)
    requires -0x8000_0000 <= p.Size() < 0x8000_0000
    ensures |b| == 4 + |p.Body()|
  {
    I32Bytes(p.Size()) + p.Body()
  }

  ghost predicate AllFramed<T, E>(pieces: seq<Piece<T>>, parse: bytes -> Result<T, E>) {
    forall i :: 0 <= i < |pieces| ==> pieces[i].Framed(parse)
  }

  predicate Sized<T>(pieces: seq<Piece<T>>) {
    forall i :: 0 <= i < |pieces| ==> -0x8000_0000 <= pieces[i].Size() < 0x8000_0000
  }

  function WritePieces<T>(pieces: seq<Piece<T>>): bytes
    requires Sized(pieces)
  {
    if pieces == [] then [] else WritePiece(pieces[0]) + WritePieces(pieces[1..])
  }

  /** What the records hold, in order. */
  function Values<T>(pieces: seq<Piece<T>>): seq<T> {
    if pieces == [] then [] else pieces[0].Values() + Values(pieces[1..])
  }

  /** One piece, whole: a record is taken and a hole is passed over. */
  lemma PieceBack<T, E>(p: Piece<T>, rest: bytes, done: seq<T>, limit: nat, parse: bytes -> Result<T, E>)
    requires p.Framed(parse) && |done| + |p.Values()| <= limit
    ensures ParseRecords(WritePiece(p) + rest, done, limit, parse) == ParseRecords(rest, done + p.Values(), limit, parse)
  {
    I32Back(p.Size());
    var buf, body := WritePiece(p) + rest, p.Body();
    assert buf[..4] == I32Bytes(p.Size()) && buf[4..] == body + rest;
    assert (body + rest)[..|body|] == body && (body + rest)[|body|..] == rest;
    assert p.Hole? ==> done + p.Values() == done;
  }

  /** One piece cut short is an error. */
  lemma PieceCut<T, E>(p: Piece<T>, cut: nat, done: seq<T>, limit: nat, parse: bytes -> Result<T, E>)
    requires p.Framed(parse) && 0 < cut < |WritePiece(p)|
    ensures ParseRecords(WritePiece(p)[..cut], done, limit, parse).Err?
  {
    I32Back(p.Size());
    var buf := WritePiece(p)[..cut];
    if cut >= 4 {
      assert buf[..4] == I32Bytes(p.Size());
    }
  }

  /** How many whole pieces the first `cut` bytes hold, if they end where a piece ends. */
  function Boundary<T>(pieces: seq<Piece<T>>, cut: nat): (k: Option<nat>)
    requires Sized(pieces)
    ensures k.Some? ==> k.value <= |pieces|
  {
    if cut == 0 then Some(0)
    else if pieces == [] || cut < |WritePiece(pieces[0])| then None
    else match Boundary(pieces[1..], cut - |WritePiece(pieces[0])|)
      case None => None
      case Some(k) => Some(k + 1)
  }

  lemma {:induction false} BoundaryIs<T>(pieces: seq<Piece<T>>, cut: nat, k: nat)
    requires Sized(pieces) && k <= |pieces|
    ensures Boundary(pieces, cut) == Some(k) <==> cut == |WritePieces(pieces[..k])|
  {
    if k == 0 {
      assert pieces[..0] == [];
    } else {
      assert pieces[..k][0] == pieces[0] && pieces[..k][1..] == pieces[1..][..k - 1];
      var first := |WritePiece(pieces[0])|;
      if cut >= first {
        BoundaryIs(pieces[1..], cut - first, k - 1);
      }
    }
  }

  lemma OneMoreValue<T>(pieces: seq<Piece<T>>, k: nat, done: seq<T>)
    requires k < |pieces|
    ensures done + pieces[0].Values() + Values(pieces[1..][..k]) == done + Values(pieces[..k + 1])
  {
    assert pieces[..k + 1][0] == pieces[0] && pieces[..k + 1][1..] == pieces[1..][..k];
  }

  /** Reading any prefix of written pieces: one that ends where a piece ends gives what the pieces before
      it hold, and every other one is an error. */
  lemma {:induction false} PrefixBack<T, E>(pieces: seq<Piece<T>>, cut: nat, done: seq<T>, limit: nat,
                                            parse: bytes -> Result<T, E>)
    requires AllFramed(pieces, parse) && cut <= |WritePieces(pieces)| && |done| + |Values(pieces)| <= limit
    ensures var r := ParseRecords(WritePieces(pieces)[..cut], done, limit, parse);
            match Boundary(pieces, cut)
            case Some(k) => r == Ok(done + Values(pieces[..k]))
            case None => r.Err?
    decreases |pieces|
  {
    hide I32Bytes, I32;
    if cut == 0 {
      assert done + Values(pieces[..0]) == done;
    } else {
      var p, more := pieces[0], pieces[1..];
      var first, all := WritePiece(p), WritePieces(pieces);
      if cut < |first| {
        assert all[..cut] == first[..cut];
        PieceCut(p, cut, done, limit, parse);
      } else {
        var rest := WritePieces(more)[..cut - |first|];
        assert all[..cut] == first + rest;
        PieceBack(p, rest, done, limit, parse);
        PrefixBack(more, cut - |first|, done + p.Values(), limit, parse);
        var k := Boundary(more, cut - |first|);
        if k.Some? {
          OneMoreValue(pieces, k.value, done);
        }
      }
    }
  }
}

/** MIT keytab files, format 0x0502 (api/src/kerberos/keytab.rs): reading, writing, and what a file
    with holes, or one cut short, is read as. */
module Keytab {
  import opened Bytes
  import opened Principals
  import opened Records
  import Utf8

  const MAX_KEYTAB_BYTES: nat := 64 * 1024
  const MAX_ENTRIES: nat := 256

  const ETYPE_AES128: int := 17
  const ETYPE_AES256: int := 18
  const ETYPE_AES128_SHA256: int := 19
  const ETYPE_AES256_SHA384: int := 20

  function EtypeKeyLen(etype: int): Option<nat> {
    if etype == ETYPE_AES128 || etype == ETYPE_AES128_SHA256 then Some(16)
    else if etype == ETYPE_AES256 || etype == ETYPE_AES256_SHA384 then Some(32)
    else None
  }

  predicate EtypeSupported(etype: int) { EtypeKeyLen(etype).Some? }

  datatype Entry = Entry(principal: Principal, kvno: nat, etype: int, key: bytes)

  datatype KeytabError =
    | TooBig
    | NativeByteOrder
    | NotAKeytab
    | TruncatedFile
    | RecordPastEnd
    | TooManyKeys
    | ShortRecord
    | BadNameCount
    | BadNamePart
    | NameNotUtf8
    | ImpossibleKeyLength
    | WrongKeyLength(etype: int)

  // ------------------------------------------------------------------ the cursor, on byte strings

  /** What was read, and what is left. */
  datatype Taken<+T> = Taken(value: T, rest: bytes)

  function Take(buf: bytes, n: nat): Result<Taken<bytes>, KeytabError> {
    if |buf| < n then Err(ShortRecord) else Ok(Taken(buf[..n], buf[n..]))
  }

  /** An `n`-byte big-endian number. */
  function Number(buf: bytes, n: nat): Result<Taken<nat>, KeytabError> {
    var t :- Take(buf, n);
    Ok(Taken(Val(t.value), t.rest))
  }

  function Counted(buf: bytes): Result<Taken<bytes>, KeytabError> {
    var n :- Number(buf, 2);
    Take(n.rest, n.value)
  }

  function Text(buf: bytes): Result<Taken<string>, KeytabError> {
    var raw :- Counted(buf);
    if raw.value == [] || |raw.value| > 255 then Err(BadNamePart)
    else match Utf8.Decode(raw.value)
      case Some(s) => Ok(Taken(s, raw.rest))
      case None => Err(NameNotUtf8)
  }

  function Texts(buf: bytes, count: nat): Result<Taken<seq<string>>, KeytabError> {
    if count == 0 then Ok(Taken([], buf)) else
      var first :- Text(buf);
      var more :- Texts(first.rest, count - 1);
      Ok(Taken([first.value] + more.value, more.rest))
  }

  function ParseEntry(record: bytes): Result<Entry, KeytabError> {
    var count :- Number(record, 2);
    if count.value == 0 || count.value > 8 then Err(BadNameCount) else
      var realm :- Text(count.rest);
      var components :- Texts(realm.rest, count.value);
      ParseKey(Principal(components.value, realm.value), components.rest)
  }

  /** The record after the principal: name type, time stamp, version, encryption type and key. */
  function ParseKey(principal: Principal, buf: bytes): Result<Entry, KeytabError> {
    var nameType :- Number(buf, 4);
    var timestamp :- Number(nameType.rest, 4);
    var vno8 :- Number(timestamp.rest, 1);
    var etype :- Number(vno8.rest, 2);
    var key :- Counted(etype.rest);
    if key.value == [] || |key.value| > 64 then Err(ImpossibleKeyLength) else
      var kvno := KeyVersion(vno8.value, key.rest);
      var want := EtypeKeyLen(etype.value);
      if want.Some? && |key.value| != want.value then Err(WrongKeyLength(etype.value))
      else Ok(Entry(principal, kvno, etype.value, key.value))
  }

  /** The 32-bit version when the record has room for one and it is not zero, else the 8-bit one. */
  function KeyVersion(vno8: nat, rest: bytes): nat {
    if |rest| >= 4 && Val(rest[..4]) != 0 then Val(rest[..4]) else vno8
  }

  function Parse(file: bytes): Result<seq<Entry>, KeytabError> {
    if |file| > MAX_KEYTAB_BYTES then Err(TooBig)
    else if |file| < 2 || file[0] != 0x05 then Err(NotAKeytab)
    else if file[1] == 0x01 then Err(NativeByteOrder)
    else if file[1] != 0x02 then Err(NotAKeytab)
    else match ParseRecords(file[2..], [], MAX_ENTRIES, ParseEntry)
      case Ok(entries) => Ok(entries)
      case Err(e) => Err(FileError(e))
  }

  function FileError(e: FrameError<KeytabError>): KeytabError {
    match e
    case TruncatedEntry => TruncatedFile
    case EntryPastEnd => RecordPastEnd
    case TooManyEntries => TooManyKeys
    case BadRecord(inner) => inner
  }

  // ------------------------------------------------------------------ writing

  function WriteCounted(b: bytes): bytes { Be(|b|, 2) + b }

  function WriteTexts(texts: seq<string>): bytes {
    if texts == [] then [] else WriteCounted(Utf8.Encode(texts[0])) + WriteTexts(texts[1..])
  }

  /** Lengths and numbers too wide for their fields lose their high bytes, as the casts do. */
  function WriteEntry(e: Entry): bytes {
    Be(|e.principal.components|, 2)
    + (WriteCounted(Utf8.Encode(e.principal.realm)) + (WriteTexts(e.principal.components) + WriteKey(e)))
  }

  function WriteKey(e: Entry): bytes {
    Be(1, 4) + (Be(0, 4) + (Be(e.kvno % 256, 1) + (Be(e.etype % 0x1_0000, 2) + (WriteCounted(e.key) + Be(e.kvno, 4)))))
  }

  predicate WellFormedText(s: string) { 1 <= |Utf8.Encode(s)| <= 255 }

  predicate WellFormedEntry(e: Entry) {
    && 1 <= |e.principal.components| <= 8
    && WellFormedText(e.principal.realm)
    && (forall c :: c in e.principal.components ==> WellFormedText(c))
    && 0 <= e.etype < 0x1_0000 && e.kvno < 0x1_0000_0000
    && 1 <= |e.key| <= 64
    && (EtypeSupported(e.etype) ==> |e.key| == EtypeKeyLen(e.etype).value)
  }

  function KeyRecord(e: Entry): Piece<Entry> { Record(WriteEntry(e), e) }

  /** The pieces of a file: well-formed keys as `write_keytab` writes them, and holes. */
  ghost predicate FilePieces(pieces: seq<Piece<Entry>>) {
    forall i :: 0 <= i < |pieces| ==> FilePiece(pieces[i])
  }

  ghost predicate FilePiece(p: Piece<Entry>) {
    match p
    case Record(body, e) => WellFormedEntry(e) && p == KeyRecord(e)
    case Hole(content) => 1 <= |content| <= 0x8000_0000
  }

  function FileOf(pieces: seq<Piece<Entry>>): bytes
    requires Sized(pieces)
  {
    [0x05, 0x02] + WritePieces(pieces)
  }

  // ------------------------------------------------------------------ reading what was written

  lemma TakeBack(a: bytes, rest: bytes)
    ensures Take(a + rest, |a|) == Ok(Taken(a, rest))
  {
    assert (a + rest)[..|a|] == a && (a + rest)[|a|..] == rest;
  }

  lemma NumberBack(v: nat, n: nat, rest: bytes)
    requires v < Pow256(n)
    ensures Number(Be(v, n) + rest, n) == Ok(Taken(v, rest))
  {
    TakeBack(Be(v, n), rest);
    ValBe(v, n);
  }

  lemma CountedBack(b: bytes, rest: bytes)
    requires |b| < 0x1_0000
    ensures Counted(WriteCounted(b) + rest) == Ok(Taken(b, rest))
  {
    Pow256Values();
    assert WriteCounted(b) + rest == Be(|b|, 2) + (b + rest);
    NumberBack(|b|, 2, b + rest);
    TakeBack(b, rest);
  }

  lemma TextBack(s: string, rest: bytes)
    requires WellFormedText(s)
    ensures Text(WriteCounted(Utf8.Encode(s)) + rest) == Ok(Taken(s, rest))
  {
    CountedBack(Utf8.Encode(s), rest);
    Utf8.DecodeEncode(s);
  }

  lemma {:induction false} TextsBack(texts: seq<string>, rest: bytes)
    requires forall c :: c in texts ==> WellFormedText(c)
    ensures Texts(WriteTexts(texts) + rest, |texts|) == Ok(Taken(texts, rest))
    ensures |WriteTexts(texts)| <= 257 * |texts|
  {
    hide Text, Utf8.Encode;
    if texts == [] {
      assert WriteTexts(texts) + rest == rest;
    } else {
      var more := WriteTexts(texts[1..]) + rest;
      assert WriteTexts(texts) + rest == WriteCounted(Utf8.Encode(texts[0])) + more;
      TextBack(texts[0], more);
      TextsBack(texts[1..], rest);
      assert texts == [texts[0]] + texts[1..];
    }
  }

  lemma VersionBack(kvno: nat)
    requires kvno < 0x1_0000_0000
    ensures KeyVersion(kvno % 256, Be(kvno, 4)) == kvno
  {
    Pow256Values();
    ValBe(kvno, 4);
    assert Be(kvno, 4)[..4] == Be(kvno, 4);
  }

  lemma KeyBack(e: Entry)
    requires 0 <= e.etype < 0x1_0000 && e.kvno < 0x1_0000_0000 && 1 <= |e.key| <= 64
    requires EtypeSupported(e.etype) ==> |e.key| == EtypeKeyLen(e.etype).value
    ensures ParseKey(e.principal, WriteKey(e)) == Ok(e)
  {
    hide Number, Counted, WriteCounted, Be, KeyVersion;
    var version := Be(e.kvno, 4);
    var a7 := WriteCounted(e.key) + version;
    var a6 := Be(e.etype % 0x1_0000, 2) + a7;
    var a5 := Be(e.kvno % 256, 1) + a6;
    var a4 := Be(0, 4) + a5;
    CountedBack(e.key, version);
    VersionBack(e.kvno);
    NumbersBack(e.kvno, e.etype, a4, a5, a6, a7);
  }

  lemma NumbersBack(kvno: nat, etype: nat, a4: bytes, a5: bytes, a6: bytes, a7: bytes)
    requires etype < 0x1_0000
    ensures Number(Be(1, 4) + a4, 4) == Ok(Taken(1, a4)) && Number(Be(0, 4) + a5, 4) == Ok(Taken(0, a5))
    ensures Number(Be(kvno % 256, 1) + a6, 1) == Ok(Taken(kvno % 256, a6))
    ensures Number(Be(etype, 2) + a7, 2) == Ok(Taken(etype, a7))
  {
    Pow256Values();
    NumberBack(1, 4, a4);
    NumberBack(0, 4, a5);
    NumberBack(kvno % 256, 1, a6);
    NumberBack(etype, 2, a7);
  }

  lemma EntrySize(e: Entry)
    requires WellFormedEntry(e)
    ensures 1 <= |WriteEntry(e)| < 0x8000_0000
  {
    TextsBack(e.principal.components, []);
  }

  lemma EntryBack(e: Entry)
    requires WellFormedEntry(e)
    ensures ParseEntry(WriteEntry(e)) == Ok(e)
  {
    hide ParseKey, WriteKey, WriteTexts, Texts, Text, Number, WriteCounted, Be, Utf8.Encode, Utf8.Decode;
    KeyBack(e);
    var a2 := WriteTexts(e.principal.components) + WriteKey(e);
    var a1 := WriteCounted(Utf8.Encode(e.principal.realm)) + a2;
    assert |e.principal.components| < Pow256(2);
    NumberBack(|e.principal.components|, 2, a1);
    TextBack(e.principal.realm, a2);
    TextsBack(e.principal.components, WriteKey(e));
  }

  lemma PiecesFramed(pieces: seq<Piece<Entry>>)
    requires FilePieces(pieces)
    ensures AllFramed(pieces, ParseEntry) && Sized(pieces)
  {
    hide ParseEntry, WriteEntry, WellFormedEntry;
    forall i | 0 <= i < |pieces|
      ensures pieces[i].Framed(ParseEntry)
    {
      assert FilePiece(pieces[i]);
      if pieces[i].Record? {
        EntryBack(pieces[i].value);
        EntrySize(pieces[i].value);
      }
    }
  }

  /** Reading any prefix of a file of keys and holes: one that ends where a piece ends gives exactly the
      keys before it, in order, and every other one is an error. */
  lemma ParsePrefix(pieces: seq<Piece<Entry>>, cut: nat)
    requires FilePieces(pieces) && Sized(pieces) && |Values(pieces)| <= MAX_ENTRIES
    requires cut <= |FileOf(pieces)| <= MAX_KEYTAB_BYTES
    ensures forall k :: 0 <= k <= |pieces| && cut == |FileOf(pieces[..k])| ==>
              Parse(FileOf(pieces)[..cut]) == Ok(Values(pieces[..k]))
    ensures (forall k :: 0 <= k <= |pieces| ==> cut != |FileOf(pieces[..k])|) ==> Parse(FileOf(pieces)[..cut]).Err?
  {
    hide ParseRecords, WritePieces, ParseEntry, FilePiece, Boundary, Values;
    if cut >= 2 {
      PiecesFramed(pieces);
      var file := FileOf(pieces)[..cut];
      assert file[2..] == WritePieces(pieces)[..cut - 2];
      PrefixBack(pieces, cut - 2, [], MAX_ENTRIES, ParseEntry);
      forall k | 0 <= k <= |pieces|
        ensures Boundary(pieces, cut - 2) == Some(k) <==> cut == |FileOf(pieces[..k])|
        ensures [] + Values(pieces[..k]) == Values(pieces[..k])
      {
        BoundaryIs(pieces, cut - 2, k);
      }
    }
  }

  /** `parse_keytab` undoes `write_keytab`, and holes anywhere between the keys change nothing. */
  lemma RoundTrip(pieces: seq<Piece<Entry>>)
    requires FilePieces(pieces) && Sized(pieces)
    requires |Values(pieces)| <= MAX_ENTRIES && |FileOf(pieces)| <= MAX_KEYTAB_BYTES
    ensures Parse(FileOf(pieces)) == Ok(Values(pieces))
  {
    hide ParseRecords, WritePieces, Parse, FilePiece;
    assert pieces[..|pieces|] == pieces;
    ParsePrefix(pieces, |FileOf(pieces)|);
    assert FileOf(pieces)[..|FileOf(pieces)|] == FileOf(pieces);
  }

  function KeyRecords(entries: seq<Entry>): (pieces: seq<Piece<Entry>>)
    requires WellFormedEntries(entries)
    ensures |pieces| == |entries|
    ensures forall i :: 0 <= i < |entries| ==> pieces[i] == KeyRecord(entries[i])
  {
    seq(|entries|, i requires 0 <= i < |entries| => KeyRecord(entries[i]))
  }

  predicate WellFormedEntries(entries: seq<Entry>) {
    forall i :: 0 <= i < |entries| ==> WellFormedEntry(entries[i])
  }

  /** The records of any entries, one after another. */
  function WriteRecords(entries: seq<Entry>): bytes {
    if entries == [] then [] else Be(|WriteEntry(entries[0])|, 4) + WriteEntry(entries[0]) + WriteRecords(entries[1..])
  }

  function WriteFile(entries: seq<Entry>): bytes { [0x05, 0x02] + WriteRecords(entries) }

  /** Of well-formed entries that is a file of their records. */
  lemma {:induction false} WrittenRecords(entries: seq<Entry>)
    requires WellFormedEntries(entries)
    ensures Sized(KeyRecords(entries)) && WriteRecords(entries) == WritePieces(KeyRecords(entries))
  {
    hide WriteEntry, WellFormedEntry, Be;
    KeyRecordValues(entries);
    if entries != [] {
      WrittenRecords(entries[1..]);
      assert KeyRecords(entries)[1..] == KeyRecords(entries[1..]);
    }
  }

  // ------------------------------------------------------------------ what is read is well formed

  lemma TextIsWellFormed(buf: bytes)
    ensures Text(buf).Ok? ==> WellFormedText(Text(buf).value.value)
  {
    hide Counted, Utf8.Decode, Utf8.Encode;
    if Text(buf).Ok? {
      Utf8.DecodeExactly(Counted(buf).value.value, Text(buf).value.value);
    }
  }

  lemma {:induction false} TextsAreWellFormed(buf: bytes, count: nat)
    ensures Texts(buf, count).Ok? ==>
              && |Texts(buf, count).value.value| == count
              && forall c :: c in Texts(buf, count).value.value ==> WellFormedText(c)
    decreases count
  {
    hide Text, WellFormedText;
    if count > 0 && Text(buf).Ok? {
      TextIsWellFormed(buf);
      TextsAreWellFormed(Text(buf).value.rest, count - 1);
    }
  }

  lemma NumberFits(buf: bytes, n: nat)
    ensures Number(buf, n).Ok? ==> Number(buf, n).value.value < Pow256(n)
  {
    if Number(buf, n).Ok? {
      ValBound(buf[..n]);
    }
  }

  lemma KeyIsWellFormed(principal: Principal, buf: bytes)
    ensures ParseKey(principal, buf).Ok? ==>
              var e := ParseKey(principal, buf).value;
              && e.principal == principal && 0 <= e.etype < 0x1_0000 && e.kvno < 0x1_0000_0000 && 1 <= |e.key| <= 64
              && (EtypeSupported(e.etype) ==> |e.key| == EtypeKeyLen(e.etype).value)
  {
    hide Number, Counted, KeyVersion;
    if ParseKey(principal, buf).Ok? {
      var timestamp := Number(Number(buf, 4).value.rest, 4).value;
      var vno8 := Number(timestamp.rest, 1).value;
      NumberFits(timestamp.rest, 1);
      NumberFits(vno8.rest, 2);
      Pow256Values();
      VersionFits(vno8.value, Counted(Number(vno8.rest, 2).value.rest).value.rest);
    }
  }

  lemma VersionFits(vno8: nat, rest: bytes)
    requires vno8 < 256
    ensures KeyVersion(vno8, rest) < 0x1_0000_0000
  {
    Pow256Values();
    if |rest| >= 4 {
      ValBound(rest[..4]);
    }
  }

  lemma EntryIsWellFormed(record: bytes)
    ensures ParseEntry(record).Ok? ==> WellFormedEntry(ParseEntry(record).value)
  {
    hide Number, Text, Texts, ParseKey, WellFormedText;
    if ParseEntry(record).Ok? {
      var count := Number(record, 2).value;
      var realm := Text(count.rest).value;
      var components := Texts(realm.rest, count.value).value;
      TextIsWellFormed(count.rest);
      TextsAreWellFormed(realm.rest, count.value);
      KeyIsWellFormed(Principal(components.value, realm.value), components.rest);
    }
  }

  lemma {:induction false} RecordsAreWellFormed(rest: bytes, done: seq<Entry>, limit: nat)
    requires WellFormedEntries(done) && |done| <= limit
    ensures var r := ParseRecords(rest, done, limit, ParseEntry);
            r.Ok? ==> WellFormedEntries(r.value) && |r.value| <= limit
    decreases |rest|
  {
    hide I32, ParseEntry, WellFormedEntry;
    if |rest| >= 4 && I32(rest[..4]) != 0 && Magnitude(I32(rest[..4])) <= |rest[4..]| {
      var size, after := I32(rest[..4]), rest[4..];
      if size < 0 {
        RecordsAreWellFormed(after[-size..], done, limit);
      } else if |done| != limit && ParseEntry(after[..size]).Ok? {
        EntryIsWellFormed(after[..size]);
        RecordsAreWellFormed(after[size..], done + [ParseEntry(after[..size]).value], limit);
      }
    }
  }

  /** Whatever the file, the entries read from it are well formed, and within the limits. */
  lemma ParsedIsWellFormed(file: bytes)
    ensures Parse(file).Ok? ==>
              WellFormedEntries(Parse(file).value) && |Parse(file).value| <= MAX_ENTRIES && |file| <= MAX_KEYTAB_BYTES
  {
    hide ParseRecords, ParseEntry, WellFormedEntry;
    if Parse(file).Ok? {
      RecordsAreWellFormed(file[2..], [], MAX_ENTRIES);
    }
  }

  /** Parsing undoes writing exactly for the lists of well-formed entries within the limits. */
  lemma ParseWritten(entries: seq<Entry>)
    ensures Parse(WriteFile(entries)) == Ok(entries) <==>
            WellFormedEntries(entries) && |entries| <= MAX_ENTRIES && |WriteFile(entries)| <= MAX_KEYTAB_BYTES
  {
    hide WriteEntry, WellFormedEntry, Parse, WritePieces, WriteRecords;
    ParsedIsWellFormed(WriteFile(entries));
    if WellFormedEntries(entries) && |entries| <= MAX_ENTRIES && |WriteFile(entries)| <= MAX_KEYTAB_BYTES {
      KeyRecordValues(entries);
      WrittenRecords(entries);
      RoundTrip(KeyRecords(entries));
    }
  }

  lemma {:induction false} KeyRecordValues(entries: seq<Entry>)
    requires WellFormedEntries(entries)
    ensures Values(KeyRecords(entries)) == entries && Sized(KeyRecords(entries))
  {
    hide WriteEntry, WellFormedEntry, WellFormedText;
    if entries != [] {
      EntrySize(entries[0]);
      KeyRecordValues(entries[1..]);
      assert KeyRecords(entries)[1..] == KeyRecords(entries[1..]);
      assert entries == [entries[0]] + entries[1..];
    }
  }

  // ------------------------------------------------------------------ the loops

  class Cursor {
    var buf: bytes

    constructor (buf: bytes)
      ensures this.buf == buf
    {
      this.buf := buf;
    }

    method TakeBytes(n: nat) returns (r: Result<bytes, KeytabError>)
      modifies this
      ensures match Take(old(buf), n)
              case Ok(t) => r == Ok(t.value) && buf == t.rest
              case Err(e) => r == Err(e)
    {
      if |buf| < n {
        return Err(ShortRecord);
      }
      r := Ok(buf[..n]);
      buf := buf[n..];
    }

    method TakeNumber(n: nat) returns (r: Result<nat, KeytabError>)
      modifies this
      ensures match Number(old(buf), n)
              case Ok(t) => r == Ok(t.value) && buf == t.rest
              case Err(e) => r == Err(e)
    {
      var b :- TakeBytes(n);
      return Ok(Val(b));
    }

    method TakeCounted() returns (r: Result<bytes, KeytabError>)
      modifies this
      ensures match Counted(old(buf))
              case Ok(t) => r == Ok(t.value) && buf == t.rest
              case Err(e) => r == Err(e)
    {
      var n :- TakeNumber(2);
      r := TakeBytes(n);
    }

    method TakeText() returns (r: Result<string, KeytabError>)
      modifies this
      ensures match Text(old(buf))
              case Ok(t) => r == Ok(t.value) && buf == t.rest
              case Err(e) => r == Err(e)
    {
      var raw :- TakeCounted();
      if raw == [] || |raw| > 255 {
        return Err(BadNamePart);
      }
      match Utf8.Decode(raw)
      case Some(s) => return Ok(s);
      case None => return Err(NameNotUtf8);
    }
  }

  method ReadEntry(record: bytes) returns (r: Result<Entry, KeytabError>)
    ensures r == ParseEntry(record)
  {
    var c := new Cursor(record);
    var count :- c.TakeNumber(2);
    if count == 0 || count > 8 {
      return Err(BadNameCount);
    }
    var realm :- c.TakeText();
    var components :- ReadTexts(c, count);
    r := ReadKey(c, Principal(components, realm));
  }

  /** What the loop over name parts still has to read, put after the parts it has. */
  ghost predicate Continues(whole: Result<Taken<seq<string>>, KeytabError>, done: seq<string>,
                            more: Result<Taken<seq<string>>, KeytabError>) {
    match more
    case Ok(t) => whole == Ok(Taken(done + t.value, t.rest))
    case Err(e) => whole == Err(e)
  }

  lemma ContinuesStep(whole: Result<Taken<seq<string>>, KeytabError>, done: seq<string>, part: string,
                      more: Result<Taken<seq<string>>, KeytabError>, next: Result<Taken<seq<string>>, KeytabError>)
    requires Continues(whole, done, more)
    requires more == match next case Ok(t) => Ok(Taken([part] + t.value, t.rest)) case Err(e) => Err(e)
    ensures Continues(whole, done + [part], next)
  {
    if next.Ok? {
      assert done + ([part] + next.value.value) == done + [part] + next.value.value;
    }
  }

  method ReadTexts(c: Cursor, count: nat) returns (r: Result<seq<string>, KeytabError>)
    modifies c
    ensures match Texts(old(c.buf), count)
            case Ok(t) => r == Ok(t.value) && c.buf == t.rest
            case Err(e) => r == Err(e)
  {
    hide Text;
    var parts: seq<string> := [];
    ghost var whole := Texts(c.buf, count);
    assert whole.Ok? ==> [] + whole.value.value == whole.value.value;
    for i := 0 to count
      invariant Continues(whole, parts, Texts(c.buf, count - i))
    {
      ghost var more := Texts(c.buf, count - i);
      var part :- c.TakeText();
      ContinuesStep(whole, parts, part, more, Texts(c.buf, count - i - 1));
      parts := parts + [part];
    }
    assert parts + [] == parts;
    return Ok(parts);
  }

  method ReadKey(c: Cursor, principal: Principal) returns (r: Result<Entry, KeytabError>)
    modifies c
    ensures r == ParseKey(principal, old(c.buf))
  {
    var nameType :- c.TakeNumber(4);
    var timestamp :- c.TakeNumber(4);
    var vno8 :- c.TakeNumber(1);
    var etype :- c.TakeNumber(2);
    var key :- c.TakeCounted();
    if key == [] || |key| > 64 {
      return Err(ImpossibleKeyLength);
    }
    var kvno := vno8;
    if |c.buf| >= 4 {
      var wide := c.TakeNumber(4);
      kvno := if wide.value == 0 then vno8 else wide.value;
    }
    var want := EtypeKeyLen(etype);
    if want.Some? && |key| != want.value {
      return Err(WrongKeyLength(etype));
    }
    return Ok(Entry(principal, kvno, etype, key));
  }

  method ReadFile(file: bytes) returns (r: Result<seq<Entry>, KeytabError>)
    ensures r == Parse(file)
  {
    hide ParseEntry, I32;
    if |file| > MAX_KEYTAB_BYTES {
      return Err(TooBig);
    }
    if |file| < 2 || file[0] != 0x05 || (file[1] != 0x01 && file[1] != 0x02) {
      return Err(NotAKeytab);
    }
    if file[1] == 0x01 {
      return Err(NativeByteOrder);
    }
    var rest := file[2..];
    var out: seq<Entry> := [];
    ghost var whole := ParseRecords(rest, out, MAX_ENTRIES, ParseEntry);
    while rest != []
      invariant ParseRecords(rest, out, MAX_ENTRIES, ParseEntry) == whole
      decreases |rest|
    {
      if |rest| < 4 {
        return Err(TruncatedFile);
      }
      var size := I32(rest[..4]);
      rest := rest[4..];
      if size == 0 {
        break;
      }
      var len := Magnitude(size);
      if len > |rest| {
        return Err(RecordPastEnd);
      }
      var record := rest[..len];
      rest := rest[len..];
      if size < 0 {
        continue;
      }
      if |out| == MAX_ENTRIES {
        return Err(TooManyKeys);
      }
      var entry :- ReadEntry(record);
      out := out + [entry];
    }
    return Ok(out);
  }

  method WriteEntries(entries: seq<Entry>) returns (out: bytes)
    ensures out == WriteFile(entries)
  {
    hide WriteEntry, Be, WriteRecords;
    out := [0x05, 0x02];
    assert entries[0..] == entries;
    for i := 0 to |entries|
      invariant out + WriteRecords(entries[i..]) == WriteFile(entries)
    {
      var rec := WriteEntry(entries[i]);
      WrittenAhead(entries, i);
      AppendOnce(out, Be(|rec|, 4), rec, WriteRecords(entries[i + 1..]));
      out := out + Be(|rec|, 4);
      out := out + rec;
    }
    NothingAhead(entries);
  }

  lemma AppendOnce(a: bytes, b: bytes, c: bytes, d: bytes)
    ensures a + (b + c + d) == (a + b) + c + d
  {
  }

  lemma NothingAhead(entries: seq<Entry>)
    ensures WriteRecords(entries[|entries|..]) == []
  {
  }

  lemma WrittenAhead(entries: seq<Entry>, i: nat)
    requires i < |entries|
    ensures WriteRecords(entries[i..]) == Be(|WriteEntry(entries[i])|, 4) + WriteEntry(entries[i]) + WriteRecords(entries[i + 1..])
  {
    hide WriteEntry, Be;
    assert entries[i..][1..] == entries[i + 1..];
  }
}
