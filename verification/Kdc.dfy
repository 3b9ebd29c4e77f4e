/** The other side (api/src/kerberos/testing.rs): a key distribution center and client in miniature, what
    they send and what they accept back, and the theorem that joins them to the acceptor. */
module Kdc {
  import opened Bytes
  import opened Primitives
  import opened Der
  import opened Principals
  import opened Keytab
  import opened Crypto
  import opened Acceptor
  import Spnego
  import Utf8

  /** A service with its long-term key. */
  datatype Service = Service(principal: Principal, kvno: u32, etype: int, key: bytes) {
    function Entry(): Entry { Keytab.Entry.Entry(principal, kvno, etype, key) }
  }

  /** Everything about one AP-REQ. */
  datatype Order = Order(
    client: Principal,
    authenticatorClient: Option<Principal>,
    authTime: int,
    startTime: Option<int>,
    endTime: int,
    ctime: int,
    mutual: bool,
    invalid: bool,
    sname: Option<Principal>,
    kvno: Option<u32>)
  {
    /** The client the authenticator names. */
    function Who(): Principal { if authenticatorClient.Some? then authenticatorClient.value else client }
  }

  /** What issuing draws at random. */
  datatype Draw = Draw(sessionKey: bytes, ticketConfounder: Block, authConfounder: Block)

  datatype Issued = Issued(apReq: bytes, sessionKey: bytes, ctime: int)

  function NamedService(kdc: Service, o: Order): Principal {
    if o.sname.Some? then o.sname.value else kdc.principal
  }

  // ------------------------------------------------------------------ encoders

  function NameStrings(components: seq<string>): bytes {
    if components == [] then []
    else Tlv(GENERAL_STRING, Utf8.Encode(components[0])) + NameStrings(components[1..])
  }

  function PrincipalName(p: Principal): bytes {
    EncExplicit(0, EncInt(if |p.components| > 1 then 2 else 1))
    + EncExplicit(1, Tlv(SEQUENCE, NameStrings(p.components)))
  }

  /** A realm field and a name field. */
  function EncName(n: field, p: Principal): bytes
    requires n < 30
  {
    EncExplicit(n, Tlv(GENERAL_STRING, Utf8.Encode(p.realm))) + EncExplicit(n + 1, Tlv(SEQUENCE, PrincipalName(p)))
  }

  function Encrypted(etype: i64, kvno: Option<i64>, cipher: bytes): bytes {
    EncExplicit(0, EncInt(etype))
    + ((if kvno.Some? then EncExplicit(1, EncInt(kvno.value)) else [])
       + EncExplicit(2, Tlv(OCTET_STRING, cipher)))
  }

  function Bits(first: byte): bytes { [0, first, 0, 0, 0] }

  function EncTime(env: Env, n: field, t: int): bytes {
    EncExplicit(n, Tlv(GENERALIZED_TIME, env.formatTime(t)))
  }

  function TimeFields(env: Env, o: Order): bytes {
    EncTime(env, 5, o.authTime)
    + ((if o.startTime.Some? then EncTime(env, 6, o.startTime.value) else []) + EncTime(env, 7, o.endTime))
  }

  function SessionField(sessionKey: bytes): bytes {
    EncExplicit(0, EncInt(ETYPE_AES256)) + EncExplicit(1, Tlv(OCTET_STRING, sessionKey))
  }

  function Transited(): bytes {
    Tlv(SEQUENCE, EncExplicit(0, EncInt(1)) + EncExplicit(1, Tlv(OCTET_STRING, [])))
  }

  function TicketPartFields(env: Env, o: Order, sessionKey: bytes): bytes {
    EncExplicit(0, Tlv(BIT_STRING, Bits(if o.invalid then 0x01 else 0x40)))
    + (EncExplicit(1, Tlv(SEQUENCE, SessionField(sessionKey)))
       + (EncName(2, o.client) + (EncExplicit(4, Transited()) + TimeFields(env, o))))
  }

  function TicketPart(env: Env, o: Order, sessionKey: bytes): bytes {
    Tlv(App(3), Tlv(SEQUENCE, TicketPartFields(env, o, sessionKey)))
  }

  function TicketFields(sname: Principal, encrypted: bytes): bytes {
    EncExplicit(0, EncInt(5)) + (EncName(1, sname) + EncExplicit(3, Tlv(SEQUENCE, encrypted)))
  }

  /** The GSS-API checksum: sixteen channel-binding bytes and the flags. */
  function Checksum(mutual: bool): bytes {
    [16, 0, 0, 0] + (seq(16, _ => 0) + [if mutual then 0x32 else 0x30, 0, 0, 0])
  }

  function ChecksumField(mutual: bool): bytes {
    EncExplicit(0, EncInt(CKSUM_GSSAPI)) + EncExplicit(1, Tlv(OCTET_STRING, Checksum(mutual)))
  }

  function ProofFields(env: Env, o: Order): bytes {
    EncExplicit(3, Tlv(SEQUENCE, ChecksumField(o.mutual)))
    + (EncExplicit(4, EncInt(123_456)) + (EncTime(env, 5, o.ctime) + EncExplicit(7, EncInt(42))))
  }

  function AuthenticatorMessage(env: Env, o: Order): bytes {
    Tlv(App(2), Tlv(SEQUENCE, EncExplicit(0, EncInt(5)) + (EncName(1, o.Who()) + ProofFields(env, o))))
  }

  function RequestFields(ticket: bytes, authCipher: bytes): bytes {
    EncExplicit(0, EncInt(5))
    + (EncExplicit(1, EncInt(14))
       + (EncExplicit(2, Tlv(BIT_STRING, Bits(0)))
          + (EncExplicit(3, Tlv(App(1), Tlv(SEQUENCE, ticket)))
             + EncExplicit(4, Tlv(SEQUENCE, Encrypted(ETYPE_AES256, None, authCipher))))))
  }

  function ApReqMessage(ticket: bytes, authCipher: bytes): bytes {
    Tlv(App(14), Tlv(SEQUENCE, RequestFields(ticket, authCipher)))
  }

  type u32 = v: int | 0 <= v <= 0xffff_ffff

  function Widened(kvno: Option<u32>): Option<i64> {
    if kvno.Some? then Some(kvno.value) else None
  }

  function Ticket(kdc: Service, o: Order, cipher: bytes): bytes
    requires IsI32(kdc.etype)
  {
    TicketFields(NamedService(kdc, o), Encrypted(kdc.etype, Widened(o.kvno), cipher))
  }

  function SealTicket(env: Env, kdc: Service, o: Order, draw: Draw): Result<bytes, CryptoError>
    requires env.Valid()
  {
    Crypto.Encrypt(env, kdc.etype, kdc.key, USAGE_TICKET, draw.ticketConfounder, TicketPart(env, o, draw.sessionKey))
  }

  function SealAuthenticator(env: Env, o: Order, draw: Draw): Result<bytes, CryptoError>
    requires env.Valid()
  {
    Crypto.Encrypt(env, ETYPE_AES256, draw.sessionKey, USAGE_AUTHENTICATOR, draw.authConfounder, AuthenticatorMessage(env, o))
  }

  /** Build the AP-REQ. */
  function Issue(env: Env, kdc: Service, o: Order, draw: Draw): Result<Issued, CryptoError>
    requires env.Valid() && IsI32(kdc.etype)
  {
    hide SealTicket, SealAuthenticator, ApReqMessage, Ticket;
    var ticketCipher :- SealTicket(env, kdc, o, draw);
    var authCipher :- SealAuthenticator(env, o, draw);
    Ok(Issued(ApReqMessage(Ticket(kdc, o, ticketCipher), authCipher), draw.sessionKey, o.ctime))
  }

  /** The `Authorization: Negotiate` token a browser would send. */
  function NegotiateToken(issued: Issued): bytes {
    Spnego.WrapApReq(issued.apReq, Spnego.MsKrb5, true)
  }

  /** `as i32`: the low 32 bits, signed. */
  function AsI32(v: int): int { (v + 0x8000_0000) % 0x1_0000_0000 - 0x8000_0000 }

  function ReadEncrypted(content: bytes): Result<EncData, DerError> {
    var e0 :- Explicit(content, 0, INTEGER);
    var etype :- Int(e0.content);
    var e1 :- ExplicitOpt(e0.rest, 1, INTEGER);
    var e2 :- Explicit(e1.rest, 2, OCTET_STRING);
    Ok(EncData(AsI32(etype), None, e2.content))
  }

  /** Check an AP-REP the way the client does. Times compare by their printed form. */
  function ReadApRep(env: Env, apRep: bytes, issued: Issued): Result<bool, AcceptError>
    requires env.Valid()
  {
    var body :- Wire(Body(apRep, 15));
    var f0 :- Wire(Explicit(body, 0, INTEGER));
    var f1 :- Wire(Explicit(f0.rest, 1, INTEGER));
    var f2 :- Wire(Explicit(f1.rest, 2, SEQUENCE));
    var enc :- Wire(ReadEncrypted(f2.content));
    match Crypto.Decrypt(env, enc.etype, issued.sessionKey, USAGE_AP_REP, enc.cipher)
    case Err(e) => Err(Authenticator(e))
    case Ok(plain) => Wire(ReadApRepPart(env, plain, issued.ctime))
  }

  function ReadApRepPart(env: Env, plain: bytes, ctime: int): Result<bool, DerError> {
    var p :- Body(plain, 27);
    var p0 :- Explicit(p, 0, GENERALIZED_TIME);
    var t :- TimeField(env, p0.content);
    var p1 :- Explicit(p0.rest, 1, INTEGER);
    var cusec :- Int(p1.content);
    Ok(env.formatTime(t) == env.formatTime(ctime) && cusec == 123_456)
  }

  predicate VerifyApRep(env: Env, apRep: bytes, issued: Issued)
    requires env.Valid()
  {
    ReadApRep(env, apRep, issued) == Ok(true)
  }

  // ------------------------------------------------------------------ what the acceptor reads of it

  /** Names short enough for a KerberosString. */
  predicate GoodText(s: string) { 1 <= |Utf8.Encode(s)| <= 1024 }

  predicate GoodName(p: Principal) {
    && 1 <= |p.components| <= 8 && GoodText(p.realm)
    && forall i :: 0 <= i < |p.components| ==> GoodText(p.components[i])
  }

  lemma TextBack(s: string)
    requires GoodText(s)
    ensures String(Utf8.Encode(s)) == Ok(s) && s != ""
  {
    Utf8.DecodeEncode(s);
  }

  lemma {:induction false} NameStringsBack(components: seq<string>, done: seq<string>)
    requires |done| + |components| <= 8
    requires forall i :: 0 <= i < |components| ==> GoodText(components[i])
    ensures Components(NameStrings(components), done) == Ok(done + components)
    ensures |NameStrings(components)| <= 1029 * |components|
    decreases |components|
  {
    hide Expect, Utf8.Encode, Utf8.Decode, Tlv;
    if components == [] {
      assert done + components == done;
    } else {
      var c, more := components[0], components[1..];
      assert GoodText(c);
      TextBack(c);
      ExpectTlv(GENERAL_STRING, Utf8.Encode(c), NameStrings(more));
      assert NameStrings(components) != [];
      NameStringsBack(more, done + [c]);
      assert done + [c] + more == done + components;
    }
  }

  lemma PrincipalNameBack(p: Principal)
    requires GoodName(p)
    ensures PrincipalOf(PrincipalName(p), p.realm) == Ok(p)
    ensures |PrincipalName(p)| <= 8300
  {
    hide Explicit, EncExplicit, Tlv, EncInt, Components, NameStrings, Utf8.Encode;
    TextBack(p.realm);
    NameStringsBack(p.components, []);
    assert [] + p.components == p.components;
    var names := EncExplicit(1, Tlv(SEQUENCE, NameStrings(p.components)));
    ExplicitTlv(1, SEQUENCE, NameStrings(p.components), []);
    assert names + [] == names;
    ExplicitInt(0, if |p.components| > 1 then 2 else 1, names);
  }

  lemma EncNameBack(n: field, p: Principal, rest: bytes)
    requires n < 30 && GoodName(p)
    ensures NameFields(EncName(n, p) + rest, n) == Ok((p, rest))
    ensures |EncName(n, p)| <= 9400
  {
    hide NameFields, EncExplicit, Tlv, PrincipalOf, PrincipalName, Utf8.Encode, String;
    TextBack(p.realm);
    PrincipalNameBack(p);
    var first := EncExplicit(n, Tlv(GENERAL_STRING, Utf8.Encode(p.realm)));
    var second := EncExplicit(n + 1, Tlv(SEQUENCE, PrincipalName(p)));
    assert EncName(n, p) + rest == first + (second + rest);
    NamePairBack(n, Utf8.Encode(p.realm), PrincipalName(p), p, first, second, rest);
  }

  lemma NamePairBack(n: field, realm: bytes, name: bytes, p: Principal, first: bytes, second: bytes, rest: bytes)
    requires n < 30 && |realm| <= 1024 && |name| <= 8300
    requires String(realm) == Ok(p.realm) && PrincipalOf(name, p.realm) == Ok(p)
    requires first == EncExplicit(n, Tlv(GENERAL_STRING, realm)) && second == EncExplicit(n + 1, Tlv(SEQUENCE, name))
    ensures NameFields(first + (second + rest), n) == Ok((p, rest))
    ensures |first + second| <= 9400
  {
    hide Explicit, EncExplicit, Tlv, PrincipalOf, String;
    ExplicitTlv(n, GENERAL_STRING, realm, second + rest);
    ExplicitTlv(n + 1, SEQUENCE, name, rest);
  }

  lemma EncryptedBack(etype: i64, kvno: Option<i64>, cipher: bytes)
    requires IsI32(etype) && |cipher| <= 0x10_0000
    ensures EncryptedData(Encrypted(etype, kvno, cipher)) == Ok(EncData(etype, kvno, cipher))
    ensures ReadEncrypted(Encrypted(etype, kvno, cipher)) == Ok(EncData(etype, None, cipher))
    ensures |Encrypted(etype, kvno, cipher)| <= |cipher| + 50
  {
    hide Explicit, ExplicitOpt, EncExplicit, Tlv, EncInt, Int;
    var last := EncExplicit(2, Tlv(OCTET_STRING, cipher));
    ExplicitTlv(2, OCTET_STRING, cipher, []);
    assert last + [] == last;
    if kvno.Some? {
      ExplicitInt(1, kvno.value, last);
    } else {
      ExplicitOptAbsent(2, 1, Tlv(OCTET_STRING, cipher), [], INTEGER);
      assert [] + last == last;
    }
    ExplicitInt(0, etype, (if kvno.Some? then EncExplicit(1, EncInt(kvno.value)) else []) + last);
    SmallAsI32(etype);
  }

  lemma SmallAsI32(v: int)
    requires IsI32(v)
    ensures AsI32(v) == v
  {
  }

  lemma VersionBack(n: field, v: i64, rest: bytes)
    ensures VersionField(EncExplicit(n, EncInt(v)) + rest, n, v) == Ok(rest)
    ensures |EncExplicit(n, EncInt(v))| <= 18
  {
    hide Explicit, EncExplicit, EncInt, Int;
    ExplicitInt(n, v, rest);
  }

  lemma BodyBack(n: field, fields: bytes)
    requires |fields| <= 0x20_0000
    ensures Body(Tlv(App(n), Tlv(SEQUENCE, fields)), n) == Ok(fields)
    ensures |Tlv(App(n), Tlv(SEQUENCE, fields))| <= |fields| + 10
  {
    hide Single, Tlv;
    SingleTlv(SEQUENCE, fields);
    SingleTlv(App(n), Tlv(SEQUENCE, fields));
  }

  lemma BitsBack()
    ensures !Bit(Bits(0), 1) && !Bit(Bits(0), 2)
    ensures Bit(Bits(0x01), 7) && !Bit(Bits(0x40), 7)
  {
  }

  lemma RequestBack(ticket: bytes, authCipher: bytes)
    requires |ticket| <= 0x10_0000 && |authCipher| <= 0x8_0000
    ensures ReadRequest(ApReqMessage(ticket, authCipher)) ==
            Ok(Request(false, Tlv(SEQUENCE, ticket), EncData(ETYPE_AES256, None, authCipher)))
    ensures Single(ApReqMessage(ticket, authCipher), App(14)).Ok?
    ensures |ApReqMessage(ticket, authCipher)| <= |ticket| + |authCipher| + 200
  {
    hide Explicit, Expect, Single, EncExplicit, Tlv, EncInt, VersionField, EncryptedData, Encrypted, Body;
    var auth := Encrypted(ETYPE_AES256, None, authCipher);
    EncryptedBack(ETYPE_AES256, None, authCipher);
    var a4 := EncExplicit(4, Tlv(SEQUENCE, auth));
    ExplicitTlv(4, SEQUENCE, auth, []);
    assert a4 + [] == a4;
    TicketFieldBack(ticket, a4);
    var a3 := EncExplicit(3, Tlv(App(1), Tlv(SEQUENCE, ticket))) + a4;
    ExplicitTlv(2, BIT_STRING, Bits(0), a3);
    BitsBack();
    var a2 := EncExplicit(2, Tlv(BIT_STRING, Bits(0))) + a3;
    VersionBack(1, 14, a2);
    var a1 := EncExplicit(1, EncInt(14)) + a2;
    VersionBack(0, 5, a1);
    BodyBack(14, RequestFields(ticket, authCipher));
    OuterBack(14, RequestFields(ticket, authCipher));
  }

  lemma OuterBack(n: field, fields: bytes)
    requires |fields| <= 0x20_0000
    ensures Single(Tlv(App(n), Tlv(SEQUENCE, fields)), App(n)).Ok?
  {
    hide Single, Tlv;
    SingleTlv(SEQUENCE, fields);
    SingleTlv(App(n), Tlv(SEQUENCE, fields));
  }

  /** The ticket field, read in two steps. */
  lemma TicketFieldBack(ticket: bytes, rest: bytes)
    requires |ticket| <= 0x10_0000
    ensures var wrapped := Tlv(App(1), Tlv(SEQUENCE, ticket));
            && Expect(EncExplicit(3, wrapped) + rest, Ctx(3)) == Ok(Field(wrapped, rest))
            && Single(wrapped, App(1)) == Ok(Tlv(SEQUENCE, ticket))
            && |EncExplicit(3, wrapped)| <= |ticket| + 15
  {
    hide Expect, Single, Tlv;
    SingleTlv(SEQUENCE, ticket);
    SingleTlv(App(1), Tlv(SEQUENCE, ticket));
    ExpectTlv(Ctx(3), Tlv(App(1), Tlv(SEQUENCE, ticket)), rest);
  }

  lemma TicketBack(sname: Principal, enc: bytes)
    requires GoodName(sname) && |enc| <= 0x8_0000
    ensures ReadTicket(Tlv(SEQUENCE, TicketFields(sname, enc))) ==
            Ok(TicketHead(sname, EncExplicit(3, Tlv(SEQUENCE, enc))))
    ensures |TicketFields(sname, enc)| <= |enc| + 9500
  {
    hide Single, EncExplicit, Tlv, EncInt, VersionField, NameFields, EncName;
    var last := EncExplicit(3, Tlv(SEQUENCE, enc));
    ExplicitTlv(3, SEQUENCE, enc, []);
    EncNameBack(1, sname, last);
    VersionBack(0, 5, EncName(1, sname) + last);
    SingleTlv(SEQUENCE, TicketFields(sname, enc));
  }

  // ------------------------------------------------------------------ the encrypted parts

  predicate GoodTime(t: int) { TIME_MIN <= t <= TIME_MAX }

  predicate GoodOrder(kdc: Service, o: Order) {
    && GoodName(o.client) && GoodName(o.Who()) && GoodName(NamedService(kdc, o))
    && GoodTime(o.authTime) && GoodTime(o.endTime) && GoodTime(o.ctime)
    && (o.startTime.Some? ==> GoodTime(o.startTime.value))
  }

  lemma TimeBack(env: Env, n: field, t: int, rest: bytes)
    requires env.Valid() && GoodTime(t)
    ensures Explicit(EncTime(env, n, t) + rest, n, GENERALIZED_TIME) == Ok(Field(env.formatTime(t), rest))
    ensures ExplicitOpt(EncTime(env, n, t) + rest, n, GENERALIZED_TIME) == Ok(OptField(Some(env.formatTime(t)), rest))
    ensures TimeField(env, env.formatTime(t)) == Ok(t)
    ensures |EncTime(env, n, t)| <= 25
  {
    hide Explicit, ExplicitOpt, EncExplicit, Tlv;
    ExplicitTlv(n, GENERALIZED_TIME, env.formatTime(t), rest);
  }

  lemma TimesBack(env: Env, o: Order)
    requires env.Valid() && GoodTime(o.authTime) && GoodTime(o.endTime)
    requires o.startTime.Some? ==> GoodTime(o.startTime.value)
    ensures ReadTimes(env, TimeFields(env, o)) == Ok(Times(o.authTime, o.startTime, o.endTime))
    ensures |TimeFields(env, o)| <= 75
  {
    hide Explicit, ExplicitOpt, EncTime, TimeField;
    var last := EncTime(env, 7, o.endTime);
    TimeBack(env, 7, o.endTime, []);
    assert last + [] == last;
    var start := if o.startTime.Some? then EncTime(env, 6, o.startTime.value) else [];
    if o.startTime.Some? {
      TimeBack(env, 6, o.startTime.value, last);
    } else {
      NoStart(env, o.endTime);
      assert start + last == last;
    }
    TimeBack(env, 5, o.authTime, start + last);
  }

  lemma NoStart(env: Env, t: int)
    ensures ExplicitOpt(EncTime(env, 7, t), 6, GENERALIZED_TIME) == Ok(OptField(None, EncTime(env, 7, t)))
  {
    hide ExplicitOpt, Tlv;
    ExplicitOptAbsent(7, 6, Tlv(GENERALIZED_TIME, env.formatTime(t)), [], GENERALIZED_TIME);
    assert EncTime(env, 7, t) + [] == EncTime(env, 7, t);
  }

  lemma SessionBack(sessionKey: bytes)
    requires |sessionKey| <= 64
    ensures EncryptionKey(SessionField(sessionKey)) == Ok(Session(ETYPE_AES256, sessionKey))
    ensures |SessionField(sessionKey)| <= 100
  {
    hide Explicit, EncExplicit, Tlv, EncInt, Int;
    var last := EncExplicit(1, Tlv(OCTET_STRING, sessionKey));
    ExplicitTlv(1, OCTET_STRING, sessionKey, []);
    assert last + [] == last;
    ExplicitInt(0, ETYPE_AES256, last);
  }

  lemma TransitedBack(rest: bytes)
    ensures Expect(EncExplicit(4, Transited()) + rest, Ctx(4)) == Ok(Field(Transited(), rest))
    ensures |EncExplicit(4, Transited())| <= 60
  {
    hide Expect, Tlv, EncInt;
    var fields := EncExplicit(0, EncInt(1)) + EncExplicit(1, Tlv(OCTET_STRING, []));
    ExplicitInt(0, 1, []);
    ExplicitTlv(1, OCTET_STRING, [], []);
    SingleTlv(SEQUENCE, fields);
    ExpectTlv(Ctx(4), Transited(), rest);
  }

  function PartOf(o: Order, sessionKey: bytes): Part {
    Part(o.invalid, Session(ETYPE_AES256, sessionKey), o.client, o.authTime, o.startTime, o.endTime)
  }

  lemma PartBack(env: Env, kdc: Service, o: Order, sessionKey: bytes)
    requires env.Valid() && GoodOrder(kdc, o) && |sessionKey| <= 64
    ensures ReadPart(env, TicketPart(env, o, sessionKey)) == Ok(PartOf(o, sessionKey))
    ensures |TicketPart(env, o, sessionKey)| <= 10000
  {
    hide Explicit, Expect, EncExplicit, Tlv, Body, NameFields, EncName, ReadTimes, TimeFields, EncryptionKey,
         SessionField, Bits, Bit, Transited;
    var times := TimeFields(env, o);
    TimesBack(env, o);
    TransitedBack(times);
    var a4 := EncExplicit(4, Transited()) + times;
    EncNameBack(2, o.client, a4);
    var a2 := EncName(2, o.client) + a4;
    SessionBack(sessionKey);
    ExplicitTlv(1, SEQUENCE, SessionField(sessionKey), a2);
    var a1 := EncExplicit(1, Tlv(SEQUENCE, SessionField(sessionKey))) + a2;
    BitsLength();
    BitsBack();
    ExplicitTlv(0, BIT_STRING, Bits(if o.invalid then 0x01 else 0x40), a1);
    BodyBack(3, TicketPartFields(env, o, sessionKey));
  }

  lemma BitsLength()
    ensures forall b: byte :: |Bits(b)| == 5
  {
  }

  lemma ChecksumFlags(mutual: bool)
    ensures var sum := Checksum(mutual);
            && |sum| == 24 && sum[..4] == [16, 0, 0, 0]
            && sum[20] / 2 % 2 == if mutual then 1 else 0
  {
  }

  lemma ChecksumBack(mutual: bool)
    ensures MutualFlag(Some(ChecksumField(mutual))) == Ok(mutual)
    ensures |ChecksumField(mutual)| <= 60
  {
    hide Explicit, EncExplicit, Tlv, EncInt, Int, Checksum;
    var sum := Checksum(mutual);
    ChecksumFlags(mutual);
    var last := EncExplicit(1, Tlv(OCTET_STRING, sum));
    ExplicitTlv(1, OCTET_STRING, sum, []);
    assert last + [] == last;
    ExplicitInt(0, CKSUM_GSSAPI, last);
  }

  lemma ProofBack(env: Env, o: Order)
    requires env.Valid() && GoodTime(o.ctime)
    ensures ReadProof(env, ProofFields(env, o)) == Ok(Proof(o.mutual, 123_456, env.formatTime(o.ctime), o.ctime))
    ensures |ProofFields(env, o)| <= 150
  {
    hide Explicit, ExplicitOpt, EncExplicit, Tlv, EncInt, Int, EncTime, MutualFlag, ChecksumField, TimeField;
    var last := EncExplicit(7, EncInt(42));
    VersionBack(7, 42, []);
    TimeBack(env, 5, o.ctime, last);
    var a5 := EncTime(env, 5, o.ctime) + last;
    ExplicitInt(4, 123_456, a5);
    var a4 := EncExplicit(4, EncInt(123_456)) + a5;
    ChecksumBack(o.mutual);
    ExplicitTlv(3, SEQUENCE, ChecksumField(o.mutual), a4);
  }

  lemma AuthenticatorBack(env: Env, policy: Policy, kdc: Service, o: Order)
    requires env.Valid() && GoodOrder(kdc, o)
    ensures CheckAuthenticator(env, policy, o.client, AuthenticatorMessage(env, o)) ==
            if o.Who() != o.client then Err(ClientMismatch)
            else if !FreshEnough(policy, o) then Err(Skew)
            else Ok(Proof(o.mutual, 123_456, env.formatTime(o.ctime), o.ctime))
    ensures |AuthenticatorMessage(env, o)| <= 10000
  {
    hide Body, VersionField, NameFields, EncName, ReadProof, ProofFields, EncExplicit, EncInt, Tlv;
    ProofBack(env, o);
    EncNameBack(1, o.Who(), ProofFields(env, o));
    var named := EncName(1, o.Who()) + ProofFields(env, o);
    VersionBack(0, 5, named);
    BodyBack(2, EncExplicit(0, EncInt(5)) + named);
  }

  // ------------------------------------------------------------------ end to end

  /** |ctime - now| within the allowed skew. */
  predicate FreshEnough(policy: Policy, o: Order) {
    -policy.maxSkew <= o.ctime - policy.now <= policy.maxSkew
  }

  /** The keytab's one key may open the ticket: it is for the service, and of the version asked for. */
  predicate KeyMatches(policy: Policy, kdc: Service, o: Order) {
    SameIgnoreCase(kdc.principal, policy.service) && (o.kvno.None? || o.kvno.value == kdc.kvno)
  }

  lemma OnlyCandidate(policy: Policy, kdc: Service, o: Order, cipher: bytes)
    requires policy.keys == [kdc.Entry()]
    ensures Candidates(policy, EncData(kdc.etype, Widened(o.kvno), cipher), policy.keys)
            == if KeyMatches(policy, kdc, o) then [kdc.Entry()] else []
  {
    hide SameIgnoreCase;
    var data := EncData(kdc.etype, Widened(o.kvno), cipher);
    assert policy.keys[1..] == [];
    assert Candidates(policy, data, []) == [];
    assert Candidate(policy, data, kdc.Entry()) <==> KeyMatches(policy, kdc, o);
  }

  /** The one candidate key opens a ticket sealed with it. */
  lemma OpenSealed(env: Env, policy: Policy, kdc: Service, o: Order, cipher: bytes, plain: bytes)
    requires env.Valid() && GoodKey(kdc.etype, kdc.key) && policy.keys == [kdc.Entry()] && |cipher| <= 0x10_0000
    requires Crypto.Decrypt(env, kdc.etype, kdc.key, USAGE_TICKET, cipher) == Ok(plain)
    ensures OpenTicket(env, policy, EncExplicit(3, Tlv(SEQUENCE, Encrypted(kdc.etype, Widened(o.kvno), cipher)))) ==
            if KeyMatches(policy, kdc, o) then Ok(plain) else Err(NoKey(kdc.etype, Widened(o.kvno)))
  {
    hide Explicit, EncExplicit, Tlv, EncryptedData, Encrypted, Candidates, KeyMatches, Crypto.Decrypt;
    EncryptedBack(kdc.etype, Widened(o.kvno), cipher);
    var enc := Encrypted(kdc.etype, Widened(o.kvno), cipher);
    ExplicitTlv(3, SEQUENCE, enc, []);
    assert EncExplicit(3, Tlv(SEQUENCE, enc)) + [] == EncExplicit(3, Tlv(SEQUENCE, enc));
    OnlyCandidate(policy, kdc, o, cipher);
  }

  /** What a message of the given make decrypts to and how long it is. */
  lemma SealedBack(env: Env, kdc: Service, o: Order, draw: Draw)
    requires env.Valid() && GoodOrder(kdc, o) && GoodKey(kdc.etype, kdc.key) && |draw.sessionKey| == 32
    ensures var c := SealTicket(env, kdc, o, draw);
            && c.Ok? && |c.value| <= 10040
            && Crypto.Decrypt(env, kdc.etype, kdc.key, USAGE_TICKET, c.value) == Ok(TicketPart(env, o, draw.sessionKey))
    ensures var c := SealAuthenticator(env, o, draw);
            && c.Ok? && |c.value| <= 10040
            && Crypto.Decrypt(env, ETYPE_AES256, draw.sessionKey, USAGE_AUTHENTICATOR, c.value)
               == Ok(AuthenticatorMessage(env, o))
  {
    hide TicketPart, AuthenticatorMessage, Crypto.Decrypt, Crypto.Encrypt;
    var part := TicketPart(env, o, draw.sessionKey);
    PartBack(env, kdc, o, draw.sessionKey);
    Crypto.RoundTrip(env, kdc.etype, kdc.key, USAGE_TICKET, draw.ticketConfounder, part);
    AuthenticatorBack(env, AnyPolicy(kdc), kdc, o);
    Crypto.RoundTrip(env, ETYPE_AES256, draw.sessionKey, USAGE_AUTHENTICATOR, draw.authConfounder, AuthenticatorMessage(env, o));
  }

  function AnyPolicy(kdc: Service): Policy { Policy([], kdc.principal, [], 0, 0) }

  // ------------------------------------------------------------------ the answer

  lemma ApRepPartBack(env: Env, ctime: int, seqNumber: i64)
    requires env.Valid() && GoodTime(ctime)
    ensures ReadApRepPart(env, ApRepPart(env.formatTime(ctime), 123_456, seqNumber), ctime) == Ok(true)
    ensures |ApRepPart(env.formatTime(ctime), 123_456, seqNumber)| <= 100
  {
    hide Body, Explicit, EncExplicit, Tlv, EncInt, Int, TimeField;
    VersionBack(3, seqNumber, []);
    var last := EncExplicit(3, EncInt(seqNumber));
    ExplicitInt(1, 123_456, last);
    TimeBack(env, 0, ctime, EncExplicit(1, EncInt(123_456)) + last);
    BodyBack(27, EncTime(env, 0, ctime) + (EncExplicit(1, EncInt(123_456)) + last));
  }

  lemma ApRepMessageBack(etype: i64, cipher: bytes)
    requires IsI32(etype) && |cipher| <= 0x8_0000
    ensures var body := Body(ApRepMessage(etype, cipher), 15);
            && body.Ok?
            && var f0 := Explicit(body.value, 0, INTEGER);
            && f0.Ok?
            && var f1 := Explicit(f0.value.rest, 1, INTEGER);
            && f1.Ok?
            && var f2 := Explicit(f1.value.rest, 2, SEQUENCE);
            && f2.Ok? && f2.value.content == Encrypted(etype, None, cipher)
    ensures |ApRepMessage(etype, cipher)| <= |cipher| + 150
  {
    hide Body, Explicit, EncExplicit, Tlv, EncInt, ReadEncrypted;
    var enc := Encrypted(etype, None, cipher);
    assert enc == EncExplicit(0, EncInt(etype)) + EncExplicit(2, Tlv(OCTET_STRING, cipher));
    EncryptedBack(etype, None, cipher);
    var last := EncExplicit(2, Tlv(SEQUENCE, enc));
    ExplicitTlv(2, SEQUENCE, enc, []);
    assert last + [] == last;
    ExplicitInt(1, 15, last);
    ExplicitInt(0, 5, EncExplicit(1, EncInt(15)) + last);
    BodyBack(15, EncExplicit(0, EncInt(5)) + (EncExplicit(1, EncInt(15)) + last));
  }

  /** The AP-REP the acceptor builds is the one the client is waiting for. */
  lemma ApRepVerifies(env: Env, sessionKey: bytes, ctime: int, rnd: Random, issued: Issued)
    requires env.Valid() && GoodTime(ctime) && |sessionKey| == 32 && GoodRandom(rnd)
    requires issued.sessionKey == sessionKey && issued.ctime == ctime
    ensures var rep := ApRep(env, Session(ETYPE_AES256, sessionKey), env.formatTime(ctime), 123_456, rnd);
            rep.Ok? && |rep.value| <= 300 && VerifyApRep(env, rep.value, issued)
  {
    hide Body, Explicit, ApRepPart, ApRepMessage, Crypto.Decrypt, Crypto.Encrypt, ReadApRepPart, ReadEncrypted, Encrypted;
    var part := ApRepPart(env.formatTime(ctime), 123_456, rnd.seqNumber);
    ApRepPartBack(env, ctime, rnd.seqNumber);
    Crypto.RoundTrip(env, ETYPE_AES256, sessionKey, USAGE_AP_REP, rnd.confounder, part);
    var cipher := Crypto.Encrypt(env, ETYPE_AES256, sessionKey, USAGE_AP_REP, rnd.confounder, part).value;
    ApRepMessageBack(ETYPE_AES256, cipher);
    EncryptedBack(ETYPE_AES256, None, cipher);
  }

  // ------------------------------------------------------------------ the theorem

  /** Why an order is refused, if it is: the conditions on a ticket and its bearer, in the order they bind. */
  function Refusal(policy: Policy, kdc: Service, o: Order): Option<AcceptError> {
    var sname := NamedService(kdc, o);
    var start := if o.startTime.Some? then o.startTime.value else o.authTime;
    if !SameIgnoreCase(sname, policy.service) then Some(WrongService(Display(sname)))
    else if !KeyMatches(policy, kdc, o) then Some(NoKey(kdc.etype, Widened(o.kvno)))
    else if o.invalid then Some(Invalid)
    else if policy.now < start - policy.maxSkew then Some(NotYetValid)
    else if o.endTime + policy.maxSkew < policy.now then Some(Expired)
    else if !RealmListed(policy, o.client.realm) then Some(Realm(o.client.realm))
    else if o.Who() != o.client then Some(ClientMismatch)
    else if !FreshEnough(policy, o) then Some(Skew)
    else None
  }

  /** The parameters of one exchange that the theorem ranges over. */
  ghost predicate GoodExchange(env: Env, policy: Policy, kdc: Service, o: Order, draw: Draw, rnd: Random) {
    && env.Valid() && GoodRandom(rnd) && GoodOrder(kdc, o)
    && GoodKey(kdc.etype, kdc.key) && policy.keys == [kdc.Entry()] && |draw.sessionKey| == 32
  }

  /** How the acceptor reads the request: the ticket, the name of its service, and the two sealed parts. */
  ghost predicate ReadsRequest(kdc: Service, o: Order, cipher: bytes, auth: bytes)
    requires IsI32(kdc.etype)
  {
    hide ReadRequest, ReadTicket, Single, Tlv, EncExplicit, Encrypted, Ticket, ApReqMessage;
    var ticket := Ticket(kdc, o, cipher);
    var apReq := ApReqMessage(ticket, auth);
    && Single(apReq, App(14)).Ok? && |apReq| <= 30000
    && ReadRequest(apReq) == Ok(Request(false, Tlv(SEQUENCE, ticket), EncData(ETYPE_AES256, None, auth)))
    && ReadTicket(Tlv(SEQUENCE, ticket)) ==
       Ok(TicketHead(NamedService(kdc, o), EncExplicit(3, Tlv(SEQUENCE, Encrypted(kdc.etype, Widened(o.kvno), cipher)))))
  }

  lemma RequestRead(kdc: Service, o: Order, cipher: bytes, auth: bytes)
    requires GoodName(NamedService(kdc, o)) && IsI32(kdc.etype) && |cipher| <= 10040 && |auth| <= 10040
    ensures ReadsRequest(kdc, o, cipher, auth)
  {
    hide ReadRequest, ReadTicket, ApReqMessage, Encrypted, EncryptedData, ReadEncrypted, EncExplicit, Tlv, Single,
         TicketFields, GoodName;
    EncryptedBack(kdc.etype, Widened(o.kvno), cipher);
    TicketBack(NamedService(kdc, o), Encrypted(kdc.etype, Widened(o.kvno), cipher));
    RequestBack(Ticket(kdc, o, cipher), auth);
  }

  /** The checks on the opened ticket refuse for the stated reason, or leave only the authenticator to check. */
  lemma PartChecked(policy: Policy, kdc: Service, o: Order, sessionKey: bytes)
    requires |sessionKey| == 32 && SameIgnoreCase(NamedService(kdc, o), policy.service) && KeyMatches(policy, kdc, o)
    ensures var checked := CheckPart(policy, PartOf(o, sessionKey), ETYPE_AES256);
            var refusal := Refusal(policy, kdc, o);
            if checked.Err? then refusal == Some(checked.error)
            else refusal == (if o.Who() != o.client then Some(ClientMismatch)
                             else if !FreshEnough(policy, o) then Some(Skew) else None)
  {
    hide SameIgnoreCase, RealmListed, KeyMatches, Display;
  }

  /** What is left once the ticket has passed: the bearer's name and clock. */
  ghost predicate ChecksAuthenticator(env: Env, policy: Policy, o: Order, req: Request, sessionKey: bytes, rnd: Random)
    requires env.Valid() && |sessionKey| == 32 && GoodRandom(rnd)
  {
    hide AcceptAuthenticator, Answered;
    AcceptAuthenticator(env, policy, PartOf(o, sessionKey), req, rnd) ==
      if o.Who() != o.client then Err(ClientMismatch)
      else if !FreshEnough(policy, o) then Err(Skew)
      else Answered(env, PartOf(o, sessionKey), req, Proof(o.mutual, 123_456, env.formatTime(o.ctime), o.ctime), rnd)
  }

  lemma AuthenticatorChecked(env: Env, policy: Policy, kdc: Service, o: Order, req: Request, sessionKey: bytes,
                             rnd: Random)
    requires env.Valid() && GoodOrder(kdc, o) && |sessionKey| == 32 && GoodRandom(rnd)
    requires Crypto.Decrypt(env, ETYPE_AES256, sessionKey, USAGE_AUTHENTICATOR, req.authenticator.cipher)
             == Ok(AuthenticatorMessage(env, o))
    ensures ChecksAuthenticator(env, policy, o, req, sessionKey, rnd)
  {
    hide Crypto.Decrypt, CheckAuthenticator, AuthenticatorMessage, Answered;
    AuthenticatorBack(env, policy, kdc, o);
  }

  /** What the acceptor makes of a request it grants: the client and times asked for, the authenticator's
      own replay key, and an answer if and only if one was asked for, which passes the client's check. */
  ghost predicate Grants(env: Env, o: Order, issued: Issued, auth: bytes, r: Result<Accepted, AcceptError>)
    requires env.Valid()
  {
    hide VerifyApRep;
    && r.Ok? && r.value.client == o.client && r.value.authTime == o.authTime && r.value.endTime == o.endTime
    && r.value.replayKey == env.sha256(auth)
    && (r.value.apRep.Some? <==> o.mutual)
    && (o.mutual ==> |r.value.apRep.value| <= 300 && VerifyApRep(env, r.value.apRep.value, issued))
  }

  lemma AnsweredGrants(env: Env, o: Order, req: Request, issued: Issued, sessionKey: bytes, rnd: Random)
    requires env.Valid() && GoodTime(o.ctime) && |sessionKey| == 32 && GoodRandom(rnd)
    requires !req.mutualRequired && issued.sessionKey == sessionKey && issued.ctime == o.ctime
    ensures Grants(env, o, issued, req.authenticator.cipher,
                   Answered(env, PartOf(o, sessionKey), req, Proof(o.mutual, 123_456, env.formatTime(o.ctime), o.ctime), rnd))
  {
    hide ApRep, VerifyApRep;
    ApRepVerifies(env, sessionKey, o.ctime, rnd, issued);
  }

  /** Accepting what was issued: refused exactly for the stated reason, and otherwise granted. */
  ghost predicate AcceptsExactly(env: Env, policy: Policy, kdc: Service, o: Order, issued: Issued, auth: bytes,
                                 rnd: Random)
    requires env.Valid() && GoodRandom(rnd)
  {
    hide Accept, Refusal, Grants;
    var r := Accept(env, policy, issued.apReq, rnd);
    match Refusal(policy, kdc, o)
    case Some(why) => r == Err(why)
    case None => Grants(env, o, issued, auth, r)
  }

  lemma TicketAccepted(env: Env, policy: Policy, kdc: Service, o: Order, draw: Draw, rnd: Random, issued: Issued,
                       req: Request, rest: bytes)
    requires GoodExchange(env, policy, kdc, o, draw, rnd)
    requires SameIgnoreCase(NamedService(kdc, o), policy.service) && KeyMatches(policy, kdc, o)
    requires !req.mutualRequired && req.authenticator.etype == ETYPE_AES256
    requires SealAuthenticator(env, o, draw) == Ok(req.authenticator.cipher)
    requires OpenTicket(env, policy, rest) == Ok(TicketPart(env, o, draw.sessionKey))
    requires issued.sessionKey == draw.sessionKey && issued.ctime == o.ctime
    ensures var r := AcceptTicket(env, policy, req, rest, rnd);
            match Refusal(policy, kdc, o)
            case Some(why) => r == Err(why)
            case None => Grants(env, o, issued, req.authenticator.cipher, r)
  {
    hide OpenTicket, ReadPart, TicketPart, CheckPart, AcceptAuthenticator, Answered, Refusal, Grants, SealAuthenticator,
         SealTicket, Crypto.Decrypt, AuthenticatorMessage, GoodName, SameIgnoreCase, KeyMatches;
    SealedBack(env, kdc, o, draw);
    PartBack(env, kdc, o, draw.sessionKey);
    PartChecked(policy, kdc, o, draw.sessionKey);
    AuthenticatorChecked(env, policy, kdc, o, req, draw.sessionKey, rnd);
    AnsweredGrants(env, o, req, issued, draw.sessionKey, rnd);
  }

  lemma TicketRefused(env: Env, policy: Policy, req: Request, rest: bytes, rnd: Random)
    requires env.Valid() && GoodRandom(rnd) && OpenTicket(env, policy, rest).Err?
    ensures AcceptTicket(env, policy, req, rest, rnd) == Err(OpenTicket(env, policy, rest).error)
  {
    hide OpenTicket;
  }

  /** The first two refusals. */
  lemma ServiceRefusal(policy: Policy, kdc: Service, o: Order)
    ensures !SameIgnoreCase(NamedService(kdc, o), policy.service) ==>
              Refusal(policy, kdc, o) == Some(WrongService(Display(NamedService(kdc, o))))
    ensures SameIgnoreCase(NamedService(kdc, o), policy.service) && !KeyMatches(policy, kdc, o) ==>
              Refusal(policy, kdc, o) == Some(NoKey(kdc.etype, Widened(o.kvno)))
  {
  }

  function IssuedWith(kdc: Service, o: Order, cipher: bytes, auth: bytes, sessionKey: bytes): Issued
    requires IsI32(kdc.etype)
  {
    Issued(ApReqMessage(Ticket(kdc, o, cipher), auth), sessionKey, o.ctime)
  }

  ghost predicate AcceptsSealed(env: Env, policy: Policy, kdc: Service, o: Order, draw: Draw, rnd: Random, cipher: bytes,
                                auth: bytes)
    requires GoodExchange(env, policy, kdc, o, draw, rnd)
  {
    hide SealTicket, SealAuthenticator, ReadsRequest, AcceptsExactly, IssuedWith, GoodName;
    SealTicket(env, kdc, o, draw) == Ok(cipher) && SealAuthenticator(env, o, draw) == Ok(auth)
    && ReadsRequest(kdc, o, cipher, auth) ==>
      AcceptsExactly(env, policy, kdc, o, IssuedWith(kdc, o, cipher, auth, draw.sessionKey), auth, rnd)
  }

  lemma IssuedAccepted(env: Env, policy: Policy, kdc: Service, o: Order, draw: Draw, rnd: Random, cipher: bytes,
                       auth: bytes)
    requires GoodExchange(env, policy, kdc, o, draw, rnd)
    ensures AcceptsSealed(env, policy, kdc, o, draw, rnd, cipher, auth)
  {
    hide ReadRequest, ReadTicket, OpenTicket, AcceptTicket, TicketPart, Refusal, Grants, SealTicket, SealAuthenticator,
         Crypto.Decrypt, AuthenticatorMessage, GoodName, SameIgnoreCase, KeyMatches, Tlv, EncExplicit, Encrypted, Ticket,
         ApReqMessage, Single;
    if SealTicket(env, kdc, o, draw) != Ok(cipher) || SealAuthenticator(env, o, draw) != Ok(auth) || !ReadsRequest(kdc, o, cipher, auth) {
      return;
    }
    SealedBack(env, kdc, o, draw);
    OpenSealed(env, policy, kdc, o, cipher, TicketPart(env, o, draw.sessionKey));
    ServiceRefusal(policy, kdc, o);
    var ticket := Ticket(kdc, o, cipher);
    var rest := EncExplicit(3, Tlv(SEQUENCE, Encrypted(kdc.etype, Widened(o.kvno), cipher)));
    var req := Request(false, Tlv(SEQUENCE, ticket), EncData(ETYPE_AES256, None, auth));
    if SameIgnoreCase(NamedService(kdc, o), policy.service) {
      if KeyMatches(policy, kdc, o) {
        TicketAccepted(env, policy, kdc, o, draw, rnd, IssuedWith(kdc, o, cipher, auth, draw.sessionKey), req, rest);
      } else {
        TicketRefused(env, policy, req, rest, rnd);
      }
    }
  }

  /** The SPNEGO offer a browser's token carries. */
  function OfferOf(issued: Issued): Spnego.Offer { Spnego.Offer(issued.apReq, Spnego.MsKrb5, true) }

  /** The whole exchange: the token carries the request; the acceptor refuses it for the stated reason or
      grants it; and the AP-REP the client digs out of the server's answer is the acceptor's own. */
  ghost predicate Exchange(env: Env, policy: Policy, kdc: Service, o: Order, draw: Draw, rnd: Random)
    requires GoodExchange(env, policy, kdc, o, draw, rnd)
  {
    hide Issue, SealAuthenticator, AcceptsExactly, Accept, NegotiateToken, Spnego.Parse, Spnego.Answer,
         Spnego.ApRepOfAnswer, GoodName;
    var issued := Issue(env, kdc, o, draw);
    var auth := SealAuthenticator(env, o, draw);
    && issued.Ok? && auth.Ok?
    && Spnego.Parse(NegotiateToken(issued.value)) == Ok(Spnego.Kerberos(OfferOf(issued.value)))
    && AcceptsExactly(env, policy, kdc, o, issued.value, auth.value, rnd)
    && var r := Accept(env, policy, issued.value.apReq, rnd);
    r.Ok? ==>
      && Spnego.Answer(OfferOf(issued.value), r.value.apRep).Some?
      && Spnego.ApRepOfAnswer(Spnego.Answer(OfferOf(issued.value), r.value.apRep).value) == Ok(r.value.apRep)
  }

  lemma EndToEnd(env: Env, policy: Policy, kdc: Service, o: Order, draw: Draw, rnd: Random)
    requires GoodExchange(env, policy, kdc, o, draw, rnd)
    ensures Exchange(env, policy, kdc, o, draw, rnd)
  {
    hide ReadRequest, ReadTicket, TicketPart, Refusal, SealTicket, SealAuthenticator, Crypto.Decrypt,
         AuthenticatorMessage, GoodName, Tlv, EncExplicit, Encrypted, Ticket, ApReqMessage, Single, Accept, Spnego.Parse,
         Spnego.Answer, Spnego.ApRepOfAnswer, Spnego.WrapApReq, Spnego.WrapContent, Spnego.AnswerBody, VerifyApRep;
    SealedBack(env, kdc, o, draw);
    var cipher := SealTicket(env, kdc, o, draw).value;
    var auth := SealAuthenticator(env, o, draw).value;
    RequestRead(kdc, o, cipher, auth);
    IssuedAccepted(env, policy, kdc, o, draw, rnd, cipher, auth);
    var issued := IssuedWith(kdc, o, cipher, auth, draw.sessionKey);
    assert Issue(env, kdc, o, draw) == Ok(issued);
    Spnego.WrapIsShort(issued.apReq, Spnego.MsKrb5, true);
    Spnego.ParseWrapped(issued.apReq, Spnego.MsKrb5, true);
    var r := Accept(env, policy, issued.apReq, rnd);
    if r.Ok? {
      Spnego.AnswerSizes(Spnego.MsKrb5, r.value.apRep);
      Spnego.AnswerBack(OfferOf(issued), r.value.apRep);
    }
  }

  /** Everything a request has to satisfy. */
  predicate Acceptable(policy: Policy, kdc: Service, o: Order) {
    && SameIgnoreCase(NamedService(kdc, o), policy.service)
    && SameIgnoreCase(kdc.principal, policy.service)
    && (o.kvno.None? || o.kvno.value == kdc.kvno)
    && !o.invalid
    && (if o.startTime.Some? then o.startTime.value else o.authTime) - policy.maxSkew <= policy.now <= o.endTime + policy.maxSkew
    && RealmListed(policy, o.client.realm)
    && o.Who() == o.client
    && -policy.maxSkew <= o.ctime - policy.now <= policy.maxSkew
  }

  ghost predicate AcceptedIff(env: Env, policy: Policy, kdc: Service, o: Order, draw: Draw, rnd: Random)
    requires GoodExchange(env, policy, kdc, o, draw, rnd)
  {
    hide Issue, Accept, VerifyApRep, Acceptable, GoodName;
    var issued := Issue(env, kdc, o, draw);
    && issued.Ok?
    && var r := Accept(env, policy, issued.value.apReq, rnd);
    && (r.Ok? <==> Acceptable(policy, kdc, o))
    && (r.Ok? ==> r.value.client == o.client && (r.value.apRep.Some? <==> o.mutual))
    && (r.Ok? && o.mutual ==> VerifyApRep(env, r.value.apRep.value, issued.value))
  }

  /** Accepted exactly when acceptable; then it names the client, and proves itself to it if asked. */
  lemma AcceptedExactlyWhenAcceptable(env: Env, policy: Policy, kdc: Service, o: Order, draw: Draw, rnd: Random)
    requires GoodExchange(env, policy, kdc, o, draw, rnd)
    ensures AcceptedIff(env, policy, kdc, o, draw, rnd)
  {
    hide Issue, SealAuthenticator, Accept, NegotiateToken, Spnego.Parse, Spnego.Answer, Spnego.ApRepOfAnswer, GoodName,
         VerifyApRep, SameIgnoreCase, RealmListed, Display;
    EndToEnd(env, policy, kdc, o, draw, rnd);
  }
}
