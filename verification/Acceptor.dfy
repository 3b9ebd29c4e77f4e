/** Accepting an AP-REQ (api/src/kerberos/acceptor.rs; section 3.2.3 of RFC 4120), and the look at its
    service name that is taken before any key is chosen. */
module Acceptor {
  import opened Bytes
  import opened Primitives
  import opened Der
  import opened Principals
  import opened Keytab
  import opened Crypto

  const USAGE_TICKET: nat := 2
  const USAGE_AUTHENTICATOR: nat := 11
  const USAGE_AP_REP: nat := 12
  const CKSUM_GSSAPI: int := 0x8003

  /** What the ticket has to satisfy. Times are in whole seconds. */
  datatype Policy = Policy(keys: seq<Entry>, service: Principal, realms: seq<string>, maxSkew: int, now: int)

  datatype Accepted = Accepted(client: Principal, authTime: int, endTime: int, replayKey: bytes, apRep: Option<bytes>)

  datatype AcceptError =
    | Malformed(error: DerError)
    | Version
    | UserToUser
    | WrongService(name: string)
    | NoKey(etype: int, kvno: Option<int>)
    | Ticket(why: CryptoError)
    | Authenticator(why: CryptoError)
    | NotYetValid
    | Expired
    | Invalid
    | Realm(name: string)
    | ClientMismatch
    | Skew

  /** Only the service check itself reports a wrong service. */
  predicate NotService<T>(r: Result<T, AcceptError>) { r.Err? ==> !r.error.WrongService? }

  function Wire<T>(r: Result<T, DerError>): (w: Result<T, AcceptError>)
    ensures NotService(w)
  {
    match r
    case Ok(v) => Ok(v)
    case Err(e) => Err(Malformed(e))
  }

  // ------------------------------------------------------------------ the pieces

  datatype EncData = EncData(etype: int, kvno: Option<int>, cipher: bytes)

  predicate IsI32(v: int) { -0x8000_0000 <= v <= 0x7fff_ffff }

  function OptInt(content: Option<bytes>): Result<Option<int>, DerError> {
    match content
    case None => Ok(None)
    case Some(c) =>
      var v :- Int(c);
      Ok(Some(v))
  }

  function EncryptedData(content: bytes): Result<EncData, DerError> {
    var f0 :- Explicit(content, 0, INTEGER);
    var etype :- Int(f0.content);
    var f1 :- ExplicitOpt(f0.rest, 1, INTEGER);
    var kvno :- OptInt(f1.content);
    var f2 :- Explicit(f1.rest, 2, OCTET_STRING);
    if !IsI32(etype) then Err(EtypeOutOfRange) else Ok(EncData(etype, kvno, f2.content))
  }

  /** The name components from `names` on, after those in `done`. */
  function Components(names: bytes, done: seq<string>): Result<seq<string>, DerError>
    decreases |names|
  {
    if names == [] then Ok(done)
    else if |done| == 8 then Err(TooManyComponents)
    else
      var f :- Expect(names, GENERAL_STRING);
      var c :- String(f.content);
      if c == "" then Err(DerError.EmptyComponent) else Components(f.rest, done + [c])
  }

  /** A PrincipalName, plus the realm it lives in. */
  function PrincipalOf(content: bytes, realm: string): Result<Principal, DerError> {
    var f0 :- Explicit(content, 0, INTEGER);
    var f1 :- Explicit(f0.rest, 1, SEQUENCE);
    var components :- Components(f1.content, []);
    if components == [] || realm == "" then Err(EmptyPrincipal) else Ok(Principal(components, realm))
  }

  /** A realm field followed by a name field, as tickets and authenticators carry them. */
  function NameFields(buf: bytes, n: field): Result<(Principal, bytes), DerError>
    requires n < 30
  {
    var f1 :- Explicit(buf, n, GENERAL_STRING);
    var realm :- String(f1.content);
    var f2 :- Explicit(f1.rest, n + 1, SEQUENCE);
    var p :- PrincipalOf(f2.content, realm);
    Ok((p, f2.rest))
  }

  datatype Session = Session(etype: int, value: bytes)

  function EncryptionKey(content: bytes): Result<Session, DerError> {
    var f0 :- Explicit(content, 0, INTEGER);
    var etype :- Int(f0.content);
    var f1 :- Explicit(f0.rest, 1, OCTET_STRING);
    if !IsI32(etype) then Err(KeyTypeOutOfRange) else Ok(Session(etype, f1.content))
  }

  function TimeField(env: Env, content: bytes): Result<int, DerError> {
    match env.parseTime(content)
    case Some(t) => Ok(t)
    case None => Err(BadTime)
  }

  function OptTime(env: Env, content: Option<bytes>): Result<Option<int>, DerError> {
    match content
    case None => Ok(None)
    case Some(c) =>
      var t :- TimeField(env, c);
      Ok(Some(t))
  }

  /** An INTEGER field that must hold `v`. */
  function VersionField(buf: bytes, n: field, v: int): (r: Result<bytes, AcceptError>)
    ensures NotService(r)
  {
    var f :- Wire(Explicit(buf, n, INTEGER));
    var i :- Wire(Int(f.content));
    if i != v then Err(Version) else Ok(f.rest)
  }

  // ------------------------------------------------------------------ the service name, unchecked

  /** The sequence inside an `[APPLICATION n]`. */
  function Body(buf: bytes, n: field): Result<bytes, DerError> {
    var outer :- Single(buf, App(n));
    Single(outer, SEQUENCE)
  }

  function ServiceOf(apReq: bytes): Result<Principal, DerError> {
    var body :- Body(apReq, 14);
    var rest :- SkipUntil(body, 3);
    var f3 :- Expect(rest, Ctx(3));
    var t :- Body(f3.content, 1);
    var t0 :- Explicit(t, 0, INTEGER);
    var named :- NameFields(t0.rest, 1);
    Ok(named.0)
  }

  // ------------------------------------------------------------------ accepting

  /** The AP-REQ's own fields; the ticket is what its `[APPLICATION 1]` holds. */
  datatype Request = Request(mutualRequired: bool, ticket: bytes, authenticator: EncData)

  function ReadRequest(apReq: bytes): (r: Result<Request, AcceptError>)
    ensures NotService(r)
  {
    var body :- Wire(Body(apReq, 14));
    var r1 :- VersionField(body, 0, 5);
    var r2 :- VersionField(r1, 1, 14);
    var f2 :- Wire(Explicit(r2, 2, BIT_STRING));
    if Bit(f2.content, 1) then Err(UserToUser) else
      var f3 :- Wire(Expect(f2.rest, Ctx(3)));
      var inner :- Wire(Single(f3.content, App(1)));
      var f4 :- Wire(Explicit(f3.rest, 4, SEQUENCE));
      var authenticator :- Wire(EncryptedData(f4.content));
      Ok(Request(Bit(f2.content, 2), inner, authenticator))
  }

  /** The ticket's fields up to its encrypted part, which is left in `rest`. */
  datatype TicketHead = TicketHead(sname: Principal, rest: bytes)

  function ReadTicket(ticket: bytes): (r: Result<TicketHead, AcceptError>)
    ensures NotService(r)
  {
    var t :- Wire(Single(ticket, SEQUENCE));
    var t0 :- VersionField(t, 0, 5);
    var named :- Wire(NameFields(t0, 1));
    Ok(TicketHead(named.0, named.1))
  }

  /** Which of the keytab's entries may open the ticket. */
  predicate Candidate(policy: Policy, enc: EncData, k: Entry) {
    k.etype == enc.etype && SameIgnoreCase(k.principal, policy.service) && (enc.kvno.None? || enc.kvno.value == k.kvno)
  }

  function Candidates(policy: Policy, enc: EncData, keys: seq<Entry>): seq<Entry> {
    if keys == [] then []
    else (if Candidate(policy, enc, keys[0]) then [keys[0]] else []) + Candidates(policy, enc, keys[1..])
  }

  /** The first key that opens it; else the last failure. */
  function TryKeys(env: Env, enc: EncData, keys: seq<Entry>, last: Result<bytes, CryptoError>): Result<bytes, CryptoError>
    requires env.Valid()
  {
    if keys == [] then last else
      var plain := Crypto.Decrypt(env, enc.etype, keys[0].key, USAGE_TICKET, enc.cipher);
      if plain.Ok? then plain else TryKeys(env, enc, keys[1..], plain)
  }

  function OpenTicket(env: Env, policy: Policy, rest: bytes): (r: Result<bytes, AcceptError>)
    requires env.Valid()
    ensures NotService(r)
  {
    var f3 :- Wire(Explicit(rest, 3, SEQUENCE));
    var enc :- Wire(EncryptedData(f3.content));
    var candidates := Candidates(policy, enc, policy.keys);
    if candidates == [] || !EtypeSupported(enc.etype) then Err(NoKey(enc.etype, enc.kvno))
    else match TryKeys(env, enc, candidates, Err(Integrity))
      case Ok(plain) => Ok(plain)
      case Err(e) => Err(Ticket(e))
  }

  datatype Part = Part(invalid: bool, session: Session, client: Principal, authTime: int, startTime: Option<int>, endTime: int)

  function ReadPart(env: Env, plain: bytes): Result<Part, DerError> {
    var p :- Body(plain, 3);
    var f0 :- Explicit(p, 0, BIT_STRING);
    var f1 :- Explicit(f0.rest, 1, SEQUENCE);
    var session :- EncryptionKey(f1.content);
    var named :- NameFields(f1.rest, 2);
    var f4 :- Expect(named.1, Ctx(4));
    var times :- ReadTimes(env, f4.rest);
    Ok(Part(Bit(f0.content, 7), session, named.0, times.auth, times.start, times.end))
  }

  datatype Times = Times(auth: int, start: Option<int>, end: int)

  function ReadTimes(env: Env, buf: bytes): Result<Times, DerError> {
    var f5 :- Explicit(buf, 5, GENERALIZED_TIME);
    var auth :- TimeField(env, f5.content);
    var f6 :- ExplicitOpt(f5.rest, 6, GENERALIZED_TIME);
    var start :- OptTime(env, f6.content);
    var f7 :- Explicit(f6.rest, 7, GENERALIZED_TIME);
    var end :- TimeField(env, f7.content);
    Ok(Times(auth, start, end))
  }

  predicate RealmListed(policy: Policy, realm: string) {
    exists i :: 0 <= i < |policy.realms| && EqIgnoreCase(policy.realms[i], realm)
  }

  function StartOrAuth(part: Part): int {
    if part.startTime.Some? then part.startTime.value else part.authTime
  }

  /** The checks on the opened ticket, in the order they are made. */
  function CheckPart(policy: Policy, part: Part, authEtype: int): (r: Result<(), AcceptError>)
    ensures NotService(r)
  {
    if part.invalid then Err(Invalid)
    else if StartOrAuth(part) - policy.maxSkew > policy.now then Err(NotYetValid)
    else if part.endTime + policy.maxSkew < policy.now then Err(Expired)
    else if !RealmListed(policy, part.client.realm) then Err(Realm(part.client.realm))
    else if !GoodKey(part.session.etype, part.session.value) || authEtype != part.session.etype then
      Err(Authenticator(Etype(authEtype)))
    else Ok(())
  }

  type Micros = v: int | 0 <= v <= 999_999

  /** What the authenticator says beyond its client. */
  datatype Proof = Proof(mutual: bool, cusec: Micros, ctimeRaw: bytes, ctime: int)

  /** Whether the GSS-API checksum asks for mutual authentication. */
  function MutualFlag(cksum: Option<bytes>): Result<bool, DerError> {
    match cksum
    case None => Ok(false)
    case Some(content) =>
      var f0 :- Explicit(content, 0, INTEGER);
      var kind :- Int(f0.content);
      var f1 :- Explicit(f0.rest, 1, OCTET_STRING);
      if kind != CKSUM_GSSAPI then Ok(false)
      else if |f1.content| < 24 || f1.content[..4] != [16, 0, 0, 0] then Err(MalformedChecksum)
      else Ok(f1.content[20] / 2 % 2 == 1)
  }

  function ReadProof(env: Env, buf: bytes): Result<Proof, DerError> {
    var f3 :- ExplicitOpt(buf, 3, SEQUENCE);
    var mutual :- MutualFlag(f3.content);
    var f4 :- Explicit(f3.rest, 4, INTEGER);
    var cusec :- Int(f4.content);
    if !(0 <= cusec <= 999_999) then Err(MicrosecondsOutOfRange) else
      var f5 :- Explicit(f4.rest, 5, GENERALIZED_TIME);
      var ctime :- TimeField(env, f5.content);
      Ok(Proof(mutual, cusec, f5.content, ctime))
  }

  /** The authenticator: it must name the ticket's client and be fresh. */
  function CheckAuthenticator(env: Env, policy: Policy, client: Principal, plain: bytes): (r: Result<Proof, AcceptError>)
    ensures NotService(r)
  {
    var a :- Wire(Body(plain, 2));
    var a0 :- VersionField(a, 0, 5);
    var named :- Wire(NameFields(a0, 1));
    if named.0 != client then Err(ClientMismatch) else
      var proof :- Wire(ReadProof(env, named.1));
      var off := proof.ctime - policy.now;
      if off > policy.maxSkew || -off > policy.maxSkew then Err(Skew) else Ok(proof)
  }

  /** What accepting draws at random: the AP-REP's sequence number and confounder. */
  datatype Random = Random(seqNumber: nat, confounder: Block)

  predicate GoodRandom(rnd: Random) { rnd.seqNumber <= 0x3fff_ffff }

  function ApRepPart(ctimeRaw: bytes, cusec: i64, seqNumber: i64): bytes {
    Tlv(App(27), Tlv(SEQUENCE,
      EncExplicit(0, Tlv(GENERALIZED_TIME, ctimeRaw)) + (EncExplicit(1, EncInt(cusec)) + EncExplicit(3, EncInt(seqNumber)))))
  }

  function ApRepMessage(etype: i64, cipher: bytes): bytes {
    var enc := Tlv(SEQUENCE, EncExplicit(0, EncInt(etype)) + EncExplicit(2, Tlv(OCTET_STRING, cipher)));
    Tlv(App(15), Tlv(SEQUENCE, EncExplicit(0, EncInt(5)) + (EncExplicit(1, EncInt(15)) + EncExplicit(2, enc))))
  }

  /** The AP-REP, echoing the authenticator's time under the session key. */
  function ApRep(env: Env, session: Session, ctimeRaw: bytes, cusec: i64, rnd: Random): Result<bytes, CryptoError>
    requires env.Valid() && IsI32(session.etype) && GoodRandom(rnd)
  {
    var cipher :- Crypto.Encrypt(env, session.etype, session.value, USAGE_AP_REP, rnd.confounder,
                                 ApRepPart(ctimeRaw, cusec, rnd.seqNumber));
    Ok(ApRepMessage(session.etype, cipher))
  }

  /** Everything after the service check. */
  function AcceptTicket(env: Env, policy: Policy, req: Request, rest: bytes, rnd: Random): (r: Result<Accepted, AcceptError>)
    requires env.Valid() && GoodRandom(rnd)
    ensures NotService(r)
  {
    var plain :- OpenTicket(env, policy, rest);
    var part :- Wire(ReadPart(env, plain));
    var _ :- CheckPart(policy, part, req.authenticator.etype);
    AcceptAuthenticator(env, policy, part, req, rnd)
  }

  function AcceptAuthenticator(env: Env, policy: Policy, part: Part, req: Request,
                               rnd: Random): (r: Result<Accepted, AcceptError>)
    requires env.Valid() && GoodRandom(rnd) && GoodKey(part.session.etype, part.session.value)
    ensures NotService(r)
  {
    match Crypto.Decrypt(env, part.session.etype, part.session.value, USAGE_AUTHENTICATOR, req.authenticator.cipher)
    case Err(e) => Err(Authenticator(e))
    case Ok(plain) =>
      var proof :- CheckAuthenticator(env, policy, part.client, plain);
      Answered(env, part, req, proof, rnd)
  }

  function Answered(env: Env, part: Part, req: Request, proof: Proof, rnd: Random): (r: Result<Accepted, AcceptError>)
    requires env.Valid() && GoodRandom(rnd) && GoodKey(part.session.etype, part.session.value)
    ensures NotService(r)
  {
    var replayKey := env.sha256(req.authenticator.cipher);
    if !(req.mutualRequired || proof.mutual) then
      Ok(Accepted(part.client, part.authTime, part.endTime, replayKey, None))
    else match ApRep(env, part.session, proof.ctimeRaw, proof.cusec, rnd)
      case Err(e) => Err(Authenticator(e))
      case Ok(rep) => Ok(Accepted(part.client, part.authTime, part.endTime, replayKey, Some(rep)))
  }

  function Accept(env: Env, policy: Policy, apReq: bytes, rnd: Random): Result<Accepted, AcceptError>
    requires env.Valid() && GoodRandom(rnd)
  {
    var req :- ReadRequest(apReq);
    var ticket :- ReadTicket(req.ticket);
    if !SameIgnoreCase(ticket.sname, policy.service) then Err(WrongService(Display(ticket.sname)))
    else AcceptTicket(env, policy, req, ticket.rest, rnd)
  }

  // ------------------------------------------------------------------ the service seen first is the service checked

  /** Skipping a field is reading it and forgetting it. */
  lemma SkipsField(buf: bytes, n: field, until: field)
    requires n < until && Expect(buf, Ctx(n)).Ok?
    ensures SkipUntil(buf, until) == SkipUntil(Expect(buf, Ctx(n)).value.rest, until)
  {
    CtxTag(n);
  }

  lemma SkipsToTicket(body: bytes, r1: bytes, r2: bytes, r3: bytes)
    requires Expect(body, Ctx(0)).Ok? && Expect(body, Ctx(0)).value.rest == r1
    requires Expect(r1, Ctx(1)).Ok? && Expect(r1, Ctx(1)).value.rest == r2
    requires Expect(r2, Ctx(2)).Ok? && Expect(r2, Ctx(2)).value.rest == r3
    requires Expect(r3, Ctx(3)).Ok?
    ensures SkipUntil(body, 3) == Ok(r3)
  {
    SkipsField(body, 0, 3);
    SkipsField(r1, 1, 3);
    SkipsField(r2, 2, 3);
  }

  lemma VersionFieldReads(buf: bytes, n: field, v: int)
    requires VersionField(buf, n, v).Ok?
    ensures Explicit(buf, n, INTEGER).Ok? && Explicit(buf, n, INTEGER).value.rest == VersionField(buf, n, v).value
    ensures Expect(buf, Ctx(n)).Ok? && Expect(buf, Ctx(n)).value.rest == VersionField(buf, n, v).value
  {
  }

  lemma RequestFindsTicket(apReq: bytes)
    requires ReadRequest(apReq).Ok?
    ensures var ticket := ReadRequest(apReq).value.ticket;
            && Body(apReq, 14).Ok?
            && var rest := SkipUntil(Body(apReq, 14).value, 3);
            && rest.Ok? && Expect(rest.value, Ctx(3)).Ok?
            && Single(Expect(rest.value, Ctx(3)).value.content, App(1)) == Ok(ticket)
  {
    hide Body, Expect, Single, EncryptedData, SkipUntil;
    var body := Body(apReq, 14).value;
    VersionFieldReads(body, 0, 5);
    var r1 := VersionField(body, 0, 5).value;
    VersionFieldReads(r1, 1, 14);
    var r2 := VersionField(r1, 1, 14).value;
    var r3 := Explicit(r2, 2, BIT_STRING).value.rest;
    SkipsToTicket(body, r1, r2, r3);
  }

  /** `service_of` skips where `accept` parses, yet names the very principal `accept` goes on to check. */
  lemma SameService(apReq: bytes)
    requires ReadRequest(apReq).Ok? && ReadTicket(ReadRequest(apReq).value.ticket).Ok?
    ensures ServiceOf(apReq) == Ok(ReadTicket(ReadRequest(apReq).value.ticket).value.sname)
  {
    RequestFindsTicket(apReq);
    var t := Single(ReadRequest(apReq).value.ticket, SEQUENCE).value;
    VersionFieldReads(t, 0, 5);
  }

  /** Whether an AP-REQ gets as far as having its service compared, and passes. */
  predicate PastServiceCheck(policy: Policy, apReq: bytes) {
    var req := ReadRequest(apReq);
    && req.Ok?
    && var ticket := ReadTicket(req.value.ticket);
    && ticket.Ok? && SameIgnoreCase(ticket.value.sname, policy.service)
  }

  /** For every byte string: a request that passes the service check, as every accepted one does, was seen
      as one for that service; and one refused for its service was seen as one for the service reported. */
  lemma ServiceAgrees(env: Env, policy: Policy, apReq: bytes, rnd: Random)
    requires env.Valid() && GoodRandom(rnd)
    ensures Accept(env, policy, apReq, rnd).Ok? ==> PastServiceCheck(policy, apReq)
    ensures PastServiceCheck(policy, apReq) ==>
              ServiceOf(apReq).Ok? && SameIgnoreCase(ServiceOf(apReq).value, policy.service)
    ensures var r := Accept(env, policy, apReq, rnd);
            r.Err? && r.error.WrongService? ==>
              ServiceOf(apReq).Ok? && r.error.name == Display(ServiceOf(apReq).value)
              && !SameIgnoreCase(ServiceOf(apReq).value, policy.service)
  {
    var req := ReadRequest(apReq);
    if req.Ok? {
      var ticket := ReadTicket(req.value.ticket);
      if ticket.Ok? {
        SameService(apReq);
      }
    }
  }
}
