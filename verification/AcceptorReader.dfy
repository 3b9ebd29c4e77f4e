/** The acceptor as it runs: readers that advance through the messages, a loop that collects name
    components, a loop that picks the candidate keys and one that tries them, each proved against the
    functions of module `Acceptor`. */
module AcceptorReader {
  import opened Bytes
  import opened Primitives
  import opened Der
  import opened DerReader
  import opened Principals
  import opened Keytab
  import opened Crypto
  import opened Acceptor

  method ReadPrincipal(content: bytes, realm: string) returns (r: Result<Principal, DerError>)
    ensures r == PrincipalOf(content, realm)
  {
    hide Explicit, Expect, String;
    var reader := new Reader(content);
    var _ :- reader.ExplicitField(0, INTEGER);
    var list :- reader.ExplicitField(1, SEQUENCE);
    var names := new Reader(list);
    var components := [];
    while names.buf != []
      invariant Components(names.buf, components) == Components(list, [])
      decreases |names.buf|
    {
      if |components| == 8 {
        return Err(TooManyComponents);
      }
      var text :- names.ExpectTag(GENERAL_STRING);
      var c :- String(text);
      if c == "" {
        return Err(DerError.EmptyComponent);
      }
      components := components + [c];
    }
    if components == [] || realm == "" {
      return Err(EmptyPrincipal);
    }
    return Ok(Principal(components, realm));
  }

  /** A realm field and the name field after it. */
  method ReadNames(reader: Reader, n: field) returns (r: Result<Principal, DerError>)
    requires n < 30
    modifies reader
    ensures match NameFields(old(reader.buf), n)
            case Ok(named) => r == Ok(named.0) && reader.buf == named.1
            case Err(e) => r == Err(e)
  {
    hide Explicit, String, PrincipalOf;
    var text :- reader.ExplicitField(n, GENERAL_STRING);
    var realm :- String(text);
    var name :- reader.ExplicitField(n + 1, SEQUENCE);
    r := ReadPrincipal(name, realm);
  }

  method ReadEncryptedData(content: bytes) returns (r: Result<EncData, DerError>)
    ensures r == EncryptedData(content)
  {
    hide Explicit, ExplicitOpt, Int;
    var reader := new Reader(content);
    var e :- reader.ExplicitField(0, INTEGER);
    var etype :- Int(e);
    var k :- reader.ExplicitOptField(1, INTEGER);
    var kvno :- OptInt(k);
    var cipher :- reader.ExplicitField(2, OCTET_STRING);
    if !IsI32(etype) {
      return Err(EtypeOutOfRange);
    }
    return Ok(EncData(etype, kvno, cipher));
  }

  method ReadEncryptionKey(content: bytes) returns (r: Result<Session, DerError>)
    ensures r == EncryptionKey(content)
  {
    hide Explicit, Int;
    var reader := new Reader(content);
    var e :- reader.ExplicitField(0, INTEGER);
    var etype :- Int(e);
    var value :- reader.ExplicitField(1, OCTET_STRING);
    if !IsI32(etype) {
      return Err(KeyTypeOutOfRange);
    }
    return Ok(Session(etype, value));
  }

  method ReadBody(buf: bytes, n: field) returns (r: Result<bytes, DerError>)
    ensures r == Body(buf, n)
  {
    hide Single;
    var outer :- SingleItem(buf, App(n));
    r := SingleItem(outer, SEQUENCE);
  }

  /** The service named in a request, before anything is checked. */
  method ReadService(apReq: bytes) returns (r: Result<Principal, DerError>)
    ensures r == ServiceOf(apReq)
  {
    hide Body, Expect, Explicit, SkipUntil, NameFields;
    var body :- ReadBody(apReq, 14);
    var reader := new Reader(body);
    var _ :- reader.SkipFieldsUntil(3);
    var wrapped :- reader.ExpectTag(Ctx(3));
    var fields :- ReadBody(wrapped, 1);
    var t := new Reader(fields);
    var _ :- t.ExplicitField(0, INTEGER);
    r := ReadNames(t, 1);
  }

  // ------------------------------------------------------------------ accepting

  method ReadVersion(reader: Reader, n: field, v: int) returns (r: Result<(), AcceptError>)
    modifies reader
    ensures match VersionField(old(reader.buf), n, v)
            case Ok(rest) => r == Ok(()) && reader.buf == rest
            case Err(e) => r == Err(e)
  {
    hide Explicit, Int;
    var field := reader.ExplicitField(n, INTEGER);
    var content :- Wire(field);
    var i :- Wire(Int(content));
    if i != v {
      return Err(Version);
    }
    return Ok(());
  }

  method ReadRequestFields(apReq: bytes) returns (r: Result<Request, AcceptError>)
    ensures r == ReadRequest(apReq)
  {
    hide Body, VersionField, Explicit, Expect, Single, EncryptedData, Bit;
    var inside := ReadBody(apReq, 14);
    var body :- Wire(inside);
    var reader := new Reader(body);
    var _ :- ReadVersion(reader, 0, 5);
    var _ :- ReadVersion(reader, 1, 14);
    var o := reader.ExplicitField(2, BIT_STRING);
    var options :- Wire(o);
    if Bit(options, 1) {
      return Err(UserToUser);
    }
    var w := reader.ExpectTag(Ctx(3));
    var wrapped :- Wire(w);
    var t := SingleItem(wrapped, App(1));
    var ticket :- Wire(t);
    var a := reader.ExplicitField(4, SEQUENCE);
    var content :- Wire(a);
    var e := ReadEncryptedData(content);
    var authenticator :- Wire(e);
    return Ok(Request(Bit(options, 2), ticket, authenticator));
  }

  method ReadTicketHead(ticket: bytes) returns (r: Result<TicketHead, AcceptError>)
    ensures r == ReadTicket(ticket)
  {
    hide Single, VersionField, NameFields;
    var inside := SingleItem(ticket, SEQUENCE);
    var fields :- Wire(inside);
    var reader := new Reader(fields);
    var _ :- ReadVersion(reader, 0, 5);
    var named := ReadNames(reader, 1);
    var sname :- Wire(named);
    return Ok(TicketHead(sname, reader.buf));
  }

  lemma {:induction false} CandidatesSplit(policy: Policy, enc: EncData, a: seq<Entry>, b: seq<Entry>)
    ensures Candidates(policy, enc, a + b) == Candidates(policy, enc, a) + Candidates(policy, enc, b)
  {
    hide Candidate;
    if a == [] {
      assert a + b == b;
    } else {
      assert (a + b)[1..] == a[1..] + b;
      CandidatesSplit(policy, enc, a[1..], b);
    }
  }

  method KeepCandidates(policy: Policy, enc: EncData) returns (candidates: seq<Entry>)
    ensures candidates == Candidates(policy, enc, policy.keys)
  {
    hide Candidate;
    candidates := [];
    for i := 0 to |policy.keys|
      invariant candidates == Candidates(policy, enc, policy.keys[..i])
    {
      var k := policy.keys[i];
      assert policy.keys[..i + 1] == policy.keys[..i] + [k];
      CandidatesSplit(policy, enc, policy.keys[..i], [k]);
      assert Candidates(policy, enc, [k][1..]) == [];
      if Candidate(policy, enc, k) {
        candidates := candidates + [k];
      }
    }
    assert policy.keys[..|policy.keys|] == policy.keys;
  }

  /** Try the candidates in turn. */
  method FirstThatOpens(env: Env, enc: EncData, keys: seq<Entry>) returns (plain: Result<bytes, CryptoError>)
    requires env.Valid()
    ensures plain == TryKeys(env, enc, keys, Err(Integrity))
  {
    hide Crypto.Decrypt;
    plain := Err(Integrity);
    for i := 0 to |keys|
      invariant plain.Err?
      invariant TryKeys(env, enc, keys, Err(Integrity)) == TryKeys(env, enc, keys[i..], plain)
    {
      assert keys[i..][1..] == keys[i + 1..];
      plain := Crypto.Decrypt(env, enc.etype, keys[i].key, USAGE_TICKET, enc.cipher);
      if plain.Ok? {
        return;
      }
    }
  }

  method UnlockTicket(env: Env, policy: Policy, rest: bytes) returns (r: Result<bytes, AcceptError>)
    requires env.Valid()
    ensures r == OpenTicket(env, policy, rest)
  {
    hide Explicit, EncryptedData, Candidates, TryKeys, EtypeSupported;
    var reader := new Reader(rest);
    var f := reader.ExplicitField(3, SEQUENCE);
    var content :- Wire(f);
    var e := ReadEncryptedData(content);
    var enc :- Wire(e);
    var candidates := KeepCandidates(policy, enc);
    if candidates == [] || !EtypeSupported(enc.etype) {
      return Err(NoKey(enc.etype, enc.kvno));
    }
    var plain := FirstThatOpens(env, enc, candidates);
    match plain {
      case Ok(p) => return Ok(p);
      case Err(why) => return Err(AcceptError.Ticket(why));
    }
  }

  method ReadTicketTimes(env: Env, reader: Reader) returns (r: Result<Times, DerError>)
    modifies reader
    ensures r == ReadTimes(env, old(reader.buf))
  {
    hide Explicit, ExplicitOpt;
    var a :- reader.ExplicitField(5, GENERALIZED_TIME);
    var auth :- TimeField(env, a);
    var s :- reader.ExplicitOptField(6, GENERALIZED_TIME);
    var start :- OptTime(env, s);
    var e :- reader.ExplicitField(7, GENERALIZED_TIME);
    var end :- TimeField(env, e);
    return Ok(Times(auth, start, end));
  }

  method ReadTicketPart(env: Env, plain: bytes) returns (r: Result<Part, DerError>)
    ensures r == ReadPart(env, plain)
  {
    hide Body, Explicit, Expect, EncryptionKey, NameFields, ReadTimes, Bit;
    var fields :- ReadBody(plain, 3);
    var reader := new Reader(fields);
    var flags :- reader.ExplicitField(0, BIT_STRING);
    var k :- reader.ExplicitField(1, SEQUENCE);
    var session :- ReadEncryptionKey(k);
    var client :- ReadNames(reader, 2);
    var _ :- reader.ExpectTag(Ctx(4));
    var times :- ReadTicketTimes(env, reader);
    return Ok(Part(Bit(flags, 7), session, client, times.auth, times.start, times.end));
  }

  /** `any` over the listed realms. */
  method AnyRealm(policy: Policy, realm: string) returns (listed: bool)
    ensures listed == RealmListed(policy, realm)
  {
    hide EqIgnoreCase;
    for i := 0 to |policy.realms|
      invariant forall j :: 0 <= j < i ==> !EqIgnoreCase(policy.realms[j], realm)
    {
      if EqIgnoreCase(policy.realms[i], realm) {
        return true;
      }
    }
    return false;
  }

  method CheckTicketPart(policy: Policy, part: Part, authEtype: int) returns (r: Result<(), AcceptError>)
    ensures r == CheckPart(policy, part, authEtype)
    ensures r.Ok? <==>
              && !part.invalid && StartOrAuth(part) - policy.maxSkew <= policy.now <= part.endTime + policy.maxSkew
              && RealmListed(policy, part.client.realm) && GoodKey(part.session.etype, part.session.value)
              && part.session.etype == authEtype
  {
    hide RealmListed, GoodKey;
    if part.invalid {
      return Err(Invalid);
    }
    if StartOrAuth(part) - policy.maxSkew > policy.now {
      return Err(NotYetValid);
    }
    if part.endTime + policy.maxSkew < policy.now {
      return Err(Expired);
    }
    var listed := AnyRealm(policy, part.client.realm);
    if !listed {
      return Err(Realm(part.client.realm));
    }
    if !GoodKey(part.session.etype, part.session.value) || authEtype != part.session.etype {
      return Err(Authenticator(Etype(authEtype)));
    }
    return Ok(());
  }

  method ReadMutualFlag(cksum: Option<bytes>) returns (r: Result<bool, DerError>)
    ensures r == MutualFlag(cksum)
  {
    hide Explicit, Int;
    match cksum {
      case None => return Ok(false);
      case Some(content) =>
        var reader := new Reader(content);
        var k :- reader.ExplicitField(0, INTEGER);
        var kind :- Int(k);
        var value :- reader.ExplicitField(1, OCTET_STRING);
        if kind == CKSUM_GSSAPI {
          if |value| < 24 || value[..4] != [16, 0, 0, 0] {
            return Err(MalformedChecksum);
          }
          return Ok(value[20] / 2 % 2 == 1);
        }
        return Ok(false);
    }
  }

  method ReadAuthenticatorProof(env: Env, reader: Reader) returns (r: Result<Proof, DerError>)
    modifies reader
    ensures r == ReadProof(env, old(reader.buf))
  {
    hide Explicit, ExplicitOpt, MutualFlag, Int;
    var cksum :- reader.ExplicitOptField(3, SEQUENCE);
    var mutual :- ReadMutualFlag(cksum);
    var c :- reader.ExplicitField(4, INTEGER);
    var cusec :- Int(c);
    if !(0 <= cusec <= 999_999) {
      return Err(MicrosecondsOutOfRange);
    }
    var raw :- reader.ExplicitField(5, GENERALIZED_TIME);
    var ctime :- TimeField(env, raw);
    return Ok(Proof(mutual, cusec, raw, ctime));
  }

  method ReadAuthenticator(env: Env, policy: Policy, client: Principal, plain: bytes)
    returns (r: Result<Proof, AcceptError>)
    ensures r == CheckAuthenticator(env, policy, client, plain)
  {
    hide Body, VersionField, NameFields, ReadProof;
    var b := ReadBody(plain, 2);
    var fields :- Wire(b);
    var reader := new Reader(fields);
    var _ :- ReadVersion(reader, 0, 5);
    var n := ReadNames(reader, 1);
    var who :- Wire(n);
    if who != client {
      return Err(ClientMismatch);
    }
    var p := ReadAuthenticatorProof(env, reader);
    var proof :- Wire(p);
    var off := proof.ctime - policy.now;
    if off > policy.maxSkew || -off > policy.maxSkew {
      return Err(Skew);
    }
    return Ok(proof);
  }

  method AcceptRequest(env: Env, policy: Policy, apReq: bytes, rnd: Random) returns (r: Result<Accepted, AcceptError>)
    requires env.Valid() && GoodRandom(rnd)
    ensures r == Accept(env, policy, apReq, rnd)
  {
    hide ReadRequest, ReadTicket, OpenTicket, ReadPart, CheckAuthenticator, Crypto.Decrypt, SameIgnoreCase, Display,
         ApRep;
    var req :- ReadRequestFields(apReq);
    var ticket :- ReadTicketHead(req.ticket);
    if !SameIgnoreCase(ticket.sname, policy.service) {
      return Err(WrongService(Display(ticket.sname)));
    }
    var plain :- UnlockTicket(env, policy, ticket.rest);
    var p := ReadTicketPart(env, plain);
    var part :- Wire(p);
    var _ :- CheckTicketPart(policy, part, req.authenticator.etype);
    var authPlain := Crypto.Decrypt(env, part.session.etype, part.session.value, USAGE_AUTHENTICATOR, req.authenticator.cipher);
    if authPlain.Err? {
      return Err(Authenticator(authPlain.error));
    }
    var proof :- ReadAuthenticator(env, policy, part.client, authPlain.value);
    var apRep := None;
    if req.mutualRequired || proof.mutual {
      var rep := ApRep(env, part.session, proof.ctimeRaw, proof.cusec, rnd);
      if rep.Err? {
        return Err(Authenticator(rep.error));
      }
      apRep := Some(rep.value);
    }
    return Ok(Accepted(part.client, part.authTime, part.endTime, env.sha256(req.authenticator.cipher), apRep));
  }
}
