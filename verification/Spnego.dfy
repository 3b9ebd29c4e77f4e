/** HTTP Negotiate tokens (api/src/kerberos/spnego.rs): SPNEGO (section 4.2 of RFC 4178) around a Kerberos
    GSS-API token (section 4.1 of RFC 4121), or a bare Kerberos token. */
module Spnego {
  import opened Bytes
  import opened Der
  import opened DerReader

  const OID_SPNEGO: bytes := [0x2b, 0x06, 0x01, 0x05, 0x05, 0x02]
  const OID_KRB5: bytes := [0x2a, 0x86, 0x48, 0x86, 0xf7, 0x12, 0x01, 0x02, 0x02]
  const OID_MS_KRB5: bytes := [0x2a, 0x86, 0x48, 0x82, 0xf7, 0x12, 0x01, 0x02, 0x02]
  const OID_NTLM: bytes := [0x2b, 0x06, 0x01, 0x04, 0x01, 0x82, 0x37, 0x02, 0x02, 0x0a]
  const TOK_AP_REQ: bytes := [0x01, 0x00]
  const TOK_AP_REP: bytes := [0x02, 0x00]
  /** `NTLMSSP` and a zero byte. */
  const NTLM_SIGNATURE: bytes := [0x4e, 0x54, 0x4c, 0x4d, 0x53, 0x53, 0x50, 0x00]

  datatype Mech = Krb5 | MsKrb5 {
    function Oid(): bytes {
      match this
      case Krb5 => OID_KRB5
      case MsKrb5 => OID_MS_KRB5
    }
  }

  function MechOf(oid: bytes): Option<Mech> {
    if oid == OID_KRB5 then Some(Krb5) else if oid == OID_MS_KRB5 then Some(MsKrb5) else None
  }

  lemma MechOfOid(m: Mech)
    ensures MechOf(m.Oid()) == Some(m) && |m.Oid()| == 9
    ensures m.Oid() != OID_SPNEGO
  {
    assert OID_KRB5[3] != OID_MS_KRB5[3];
  }

  datatype Offer = Offer(apReq: bytes, mech: Mech, spnego: bool)

  datatype Why = NotSpnegoOrKerberos | NotFirstChoice | NoTokenSent | WrongMechanism

  datatype Negotiated = Kerberos(offer: Offer) | Ntlm | Unsupported(why: Why)

  /** A GSS-API frame: the mechanism and what follows it. */
  datatype Frame = Frame(oid: bytes, inner: bytes)

  function GssFrame(token: bytes): Result<Frame, DerError> {
    var content :- Single(token, App(0));
    var f :- Expect(content, OID);
    Ok(Frame(f.content, f.rest))
  }

  /** An offer handed on holds exactly one whole AP-REQ. */
  predicate WholeOffer(r: Result<Negotiated, DerError>) {
    r.Ok? && r.value.Kerberos? ==> Single(r.value.offer.apReq, App(14)).Ok?
  }

  /** The AP-REQ inside a Kerberos token's inner part: the token id, then exactly one AP-REQ. */
  function ApReqOf(inner: bytes): (r: Result<bytes, DerError>)
    ensures r.Ok? ==> Single(r.value, App(14)).Ok?
  {
    if TOK_AP_REQ <= inner then
      var _ :- Single(inner[2..], App(14));
      Ok(inner[2..])
    else Err(NotApReq)
  }

  function ParseSpnego(inner: bytes): (r: Result<Negotiated, DerError>)
    ensures WholeOffer(r)
  {
    var init :- Single(inner, Ctx(0));
    var body :- Single(init, SEQUENCE);
    var mechList :- Explicit(body, 0, SEQUENCE);
    var first :- Expect(mechList.content, OID);
    var reqFlags :- Optional(mechList.rest, Ctx(1));
    var token :- ExplicitOpt(reqFlags.rest, 2, OCTET_STRING);
    Offered(first.content, token.content)
  }

  /** What a first choice and its optimistic token amount to. */
  function Offered(first: bytes, token: Option<bytes>): (r: Result<Negotiated, DerError>)
    ensures WholeOffer(r)
  {
    var mech := MechOf(first);
    if mech.None? then Ok(if first == OID_NTLM then Ntlm else Unsupported(NotFirstChoice))
    else if token.None? then Ok(Unsupported(NoTokenSent))
    else
      var frame :- GssFrame(token.value);
      if MechOf(frame.oid).None? then Ok(Unsupported(WrongMechanism))
      else
        var apReq :- ApReqOf(frame.inner);
        Ok(Kerberos(Offer(apReq, mech.value, true)))
  }

  /** Read the initiator's token. */
  function Parse(token: bytes): (r: Result<Negotiated, DerError>)
    ensures WholeOffer(r)
  {
    if NTLM_SIGNATURE <= token then Ok(Ntlm)
    else
      var frame :- GssFrame(token);
      if frame.oid == OID_SPNEGO then ParseSpnego(frame.inner)
      else if MechOf(frame.oid).Some? then
        var apReq :- ApReqOf(frame.inner);
        Ok(Kerberos(Offer(apReq, MechOf(frame.oid).value, false)))
      else Ok(if frame.oid == OID_NTLM then Ntlm else Unsupported(NotSpnegoOrKerberos))
  }

  // ------------------------------------------------------------------ writing

  function KrbContent(id: bytes, message: bytes): bytes {
    Tlv(OID, OID_KRB5) + (id + message)
  }

  function KrbToken(id: bytes, message: bytes): bytes {
    Tlv(App(0), KrbContent(id, message))
  }

  /** The acceptor's answer; None when there is nothing to send. */
  function Answer(offer: Offer, apRep: Option<bytes>): Option<bytes> {
    if !offer.spnego then
      (match apRep case Some(rep) => Some(KrbToken(TOK_AP_REP, rep)) case None => None)
    else
      Some(Tlv(Ctx(1), Tlv(SEQUENCE, AnswerBody(offer.mech, apRep))))
  }

  function AnswerBody(mech: Mech, apRep: Option<bytes>): bytes {
    EncExplicit(0, Tlv(ENUMERATED, [0])) + (EncExplicit(1, Tlv(OID, mech.Oid())) + AnswerToken(apRep))
  }

  function AnswerToken(apRep: Option<bytes>): bytes {
    match apRep
    case Some(rep) => EncExplicit(2, Tlv(OCTET_STRING, KrbToken(TOK_AP_REP, rep)))
    case None => []
  }

  function MechList(mech: Mech): bytes {
    Tlv(OID, mech.Oid()) + (Tlv(OID, OID_KRB5) + Tlv(OID, OID_NTLM))
  }

  function NegTokenInit(apReq: bytes, mech: Mech): bytes {
    EncExplicit(0, Tlv(SEQUENCE, MechList(mech))) + EncExplicit(2, Tlv(OCTET_STRING, KrbToken(TOK_AP_REQ, apReq)))
  }

  /** Wrap an AP-REQ the way a browser does. */
  function WrapApReq(apReq: bytes, mech: Mech, spnego: bool): bytes {
    if !spnego then KrbToken(TOK_AP_REQ, apReq)
    else Tlv(App(0), Tlv(OID, OID_SPNEGO) + Tlv(Ctx(0), Tlv(SEQUENCE, NegTokenInit(apReq, mech))))
  }

  /** The AP-REP inside an acceptor's answer (the initiator's side of `Answer`). */
  function ApRepOfAnswer(answer: bytes): Result<Option<bytes>, DerError> {
    if answer != [] && answer[0] == Ctx(1) then
      var resp :- Single(answer, Ctx(1));
      var body :- Single(resp, SEQUENCE);
      var state :- Explicit(body, 0, ENUMERATED);
      if state.content != [0] then Err(NotComplete) else
        var mech :- Optional(state.rest, Ctx(1));
        var token :- ExplicitOpt(mech.rest, 2, OCTET_STRING);
        if token.content.None? then Ok(None) else
          var rep :- ApRepOf(token.content.value);
          Ok(Some(rep))
    else
      var rep :- ApRepOf(answer);
      Ok(Some(rep))
  }

  function ApRepOf(krb: bytes): Result<bytes, DerError> {
    var frame :- GssFrame(krb);
    if MechOf(frame.oid).None? then Err(NotKerberos)
    else if TOK_AP_REP <= frame.inner then Ok(frame.inner[2..])
    else Err(NotApRep)
  }

  // ------------------------------------------------------------------ round trips

  /** What the outer frame of a token holds: it is what must fit in a three-byte length. */
  function WrapContent(apReq: bytes, mech: Mech, spnego: bool): bytes {
    if !spnego then KrbContent(TOK_AP_REQ, apReq)
    else Tlv(OID, OID_SPNEGO) + Tlv(Ctx(0), Tlv(SEQUENCE, NegTokenInit(apReq, mech)))
  }

  predicate Fits(content: bytes) { |content| < MAX_CONTENT }

  lemma GssFrameBack(oid: bytes, inner: bytes)
    requires |oid| <= 16 && Fits(Tlv(OID, oid) + inner)
    ensures GssFrame(Tlv(App(0), Tlv(OID, oid) + inner)) == Ok(Frame(oid, inner))
  {
    ExpectTlv(OID, oid, inner);
    SingleTlv(App(0), Tlv(OID, oid) + inner);
  }

  lemma GssFrameTooLong(content: bytes)
    requires MAX_CONTENT <= |content| < 0x1_0000_0000_0000_0000
    ensures GssFrame(Tlv(App(0), content)) == Err(LengthOutOfRange)
  {
    hide Tlv, Single;
    LongSingleRefused(App(0), content);
  }

  lemma KrbTokenBack(id: bytes, message: bytes)
    requires |id| == 2 && Fits(KrbContent(id, message))
    ensures GssFrame(KrbToken(id, message)) == Ok(Frame(OID_KRB5, id + message))
    ensures id <= id + message && (id + message)[2..] == message
  {
    GssFrameBack(OID_KRB5, id + message);
  }

  lemma KrbTokenSize(id: bytes, message: bytes)
    requires |id| == 2
    ensures |KrbContent(id, message)| + 2 <= |KrbToken(id, message)| <= |message| + 40
    ensures KrbToken(id, message) != [] && KrbToken(id, message)[0] == App(0)
  {
    TlvSize(OID, OID_KRB5);
    TlvSize(App(0), KrbContent(id, message));
  }

  lemma ApReqOfToken(apReq: bytes)
    requires Single(apReq, App(14)).Ok?
    ensures ApReqOf(TOK_AP_REQ + apReq) == Ok(apReq)
  {
    assert (TOK_AP_REQ + apReq)[2..] == apReq;
  }

  /** Every layer is smaller than the frame around it. */
  lemma WrapSizes(apReq: bytes, mech: Mech)
    ensures var init, krb := NegTokenInit(apReq, mech), KrbToken(TOK_AP_REQ, apReq);
            && |WrapContent(apReq, mech, true)| >= |Tlv(SEQUENCE, init)| + 2
            && |Tlv(SEQUENCE, init)| >= |init| + 2 && |init| >= |krb| + 4 && |krb| >= |KrbContent(TOK_AP_REQ, apReq)| + 2
            && |WrapContent(apReq, mech, true)| <= |apReq| + 250
  {
    hide Tlv;
    var krb := KrbToken(TOK_AP_REQ, apReq);
    KrbTokenSize(TOK_AP_REQ, apReq);
    TlvSize(OCTET_STRING, krb);
    TlvSize(Ctx(2), Tlv(OCTET_STRING, krb));
    MechListBack(mech);
    TlvSize(SEQUENCE, MechList(mech));
    TlvSize(Ctx(0), Tlv(SEQUENCE, MechList(mech)));
    var init := NegTokenInit(apReq, mech);
    TlvSize(SEQUENCE, init);
    TlvSize(Ctx(0), Tlv(SEQUENCE, init));
    TlvSize(OID, OID_SPNEGO);
  }

  lemma NegTokenInitBack(apReq: bytes, mech: Mech)
    requires Fits(WrapContent(apReq, mech, true)) && Single(apReq, App(14)).Ok?
    ensures ParseSpnego(Tlv(Ctx(0), Tlv(SEQUENCE, NegTokenInit(apReq, mech)))) == Ok(Kerberos(Offer(apReq, mech, true)))
  {
    WrapSizes(apReq, mech);
    hide WrapContent;
    var krb := KrbToken(TOK_AP_REQ, apReq);
    var token := EncExplicit(2, Tlv(OCTET_STRING, krb));
    ExplicitTlv(2, OCTET_STRING, krb, []);
    assert token + [] == token;
    MechListBack(mech);
    ExplicitTlv(0, SEQUENCE, MechList(mech), token);
    SingleTlv(SEQUENCE, NegTokenInit(apReq, mech));
    SingleTlv(Ctx(0), Tlv(SEQUENCE, NegTokenInit(apReq, mech)));
    assert Optional(token, Ctx(1)) == Ok(OptField(None, token));
    OfferedBack(apReq, mech);
  }

  lemma MechListBack(mech: Mech)
    ensures Expect(MechList(mech), OID).Ok? && Expect(MechList(mech), OID).value.content == mech.Oid()
    ensures |MechList(mech)| <= 42
  {
    MechOfOid(mech);
    ExpectTlv(OID, mech.Oid(), Tlv(OID, OID_KRB5) + Tlv(OID, OID_NTLM));
    SingleTlv(OID, OID_KRB5);
    SingleTlv(OID, OID_NTLM);
  }

  lemma OfferedBack(apReq: bytes, mech: Mech)
    requires Fits(KrbContent(TOK_AP_REQ, apReq)) && Single(apReq, App(14)).Ok?
    ensures Offered(mech.Oid(), Some(KrbToken(TOK_AP_REQ, apReq))) == Ok(Kerberos(Offer(apReq, mech, true)))
  {
    MechOfOid(mech);
    MechOfOid(Krb5);
    KrbTokenBack(TOK_AP_REQ, apReq);
    ApReqOfToken(apReq);
  }

  /** The acceptor reads back every AP-REQ a browser wrapped, and how it was wrapped, exactly when the frame fits
      in a length the reader takes; a longer one is refused for its length. */
  lemma ParseWrapped(apReq: bytes, mech: Mech, spnego: bool)
    requires Single(apReq, App(14)).Ok?
    ensures Parse(WrapApReq(apReq, mech, spnego)) ==
            if Fits(WrapContent(apReq, mech, spnego)) then Ok(Kerberos(Offer(apReq, if spnego then mech else Krb5, spnego)))
            else Err(LengthOutOfRange)
  {
    var token := WrapApReq(apReq, mech, spnego);
    assert token == Tlv(App(0), WrapContent(apReq, mech, spnego));
    assert token[0] == App(0) && !(NTLM_SIGNATURE <= token);
    if !Fits(WrapContent(apReq, mech, spnego)) {
      WrapIsShort(apReq, mech, spnego);
      GssFrameTooLong(WrapContent(apReq, mech, spnego));
    } else if spnego {
      NegTokenInitBack(apReq, mech);
      GssFrameBack(OID_SPNEGO, Tlv(Ctx(0), Tlv(SEQUENCE, NegTokenInit(apReq, mech))));
    } else {
      MechOfOid(Krb5);
      KrbTokenBack(TOK_AP_REQ, apReq);
      ApReqOfToken(apReq);
    }
  }

  /** How long a frame can get: an AP-REQ is itself an item that can be read. */
  lemma WrapIsShort(apReq: bytes, mech: Mech, spnego: bool)
    requires Single(apReq, App(14)).Ok?
    ensures |WrapContent(apReq, mech, spnego)| <= |apReq| + 250 && |apReq| <= MAX_CONTENT + 5
  {
    hide Tlv, Single, NegTokenInit;
    SingleIsShort(apReq, App(14));
    WrapSizes(apReq, mech);
    KrbTokenSize(TOK_AP_REQ, apReq);
  }

  lemma ApRepOfToken(rep: bytes)
    requires Fits(KrbContent(TOK_AP_REP, rep))
    ensures ApRepOf(KrbToken(TOK_AP_REP, rep)) == Ok(rep)
  {
    KrbTokenBack(TOK_AP_REP, rep);
    MechOfOid(Krb5);
  }

  /** What the outer item of an answer holds. */
  function AnswerContent(offer: Offer, apRep: Option<bytes>): bytes {
    if offer.spnego then Tlv(SEQUENCE, AnswerBody(offer.mech, apRep))
    else if apRep.Some? then KrbContent(TOK_AP_REP, apRep.value)
    else []
  }

  /** The initiator reads back what the acceptor answered, the AP-REP or that there is none, exactly when the
      answer fits in a length the reader takes. Only a bare Kerberos initiator that asked for nothing is sent
      nothing. */
  lemma AnswerBack(offer: Offer, apRep: Option<bytes>)
    requires apRep.Some? ==> |apRep.value| < 0x8000_0000_0000_0000
    ensures Answer(offer, apRep).None? <==> !offer.spnego && apRep.None?
    ensures Answer(offer, apRep).Some? ==>
              ApRepOfAnswer(Answer(offer, apRep).value) ==
                if Fits(AnswerContent(offer, apRep)) then Ok(apRep) else Err(LengthOutOfRange)
  {
    if offer.spnego {
      SpnegoAnswerBack(offer, apRep);
    } else if apRep.Some? {
      KrbTokenSize(TOK_AP_REP, apRep.value);
      if Fits(AnswerContent(offer, apRep)) {
        ApRepOfToken(apRep.value);
      } else {
        GssFrameTooLong(KrbContent(TOK_AP_REP, apRep.value));
      }
    }
  }

  lemma AnswerSizes(mech: Mech, apRep: Option<bytes>)
    ensures |AnswerBody(mech, apRep)| + 2 <= |Tlv(SEQUENCE, AnswerBody(mech, apRep))|
    ensures |AnswerToken(apRep)| + 4 <= |AnswerBody(mech, apRep)|
    ensures |Tlv(SEQUENCE, AnswerBody(mech, apRep))| <= (if apRep.Some? then |apRep.value| else 0) + 250
    ensures apRep.Some? ==>
              |KrbContent(TOK_AP_REP, apRep.value)| + 2 <= |KrbToken(TOK_AP_REP, apRep.value)| <= |AnswerToken(apRep)| - 4
  {
    hide Tlv;
    if apRep.Some? {
      KrbTokenSize(TOK_AP_REP, apRep.value);
      TlvSize(OCTET_STRING, KrbToken(TOK_AP_REP, apRep.value));
      TlvSize(Ctx(2), Tlv(OCTET_STRING, KrbToken(TOK_AP_REP, apRep.value)));
    }
    MechOfOid(mech);
    TlvSize(OID, mech.Oid());
    TlvSize(Ctx(1), Tlv(OID, mech.Oid()));
    TlvSize(ENUMERATED, [0]);
    TlvSize(Ctx(0), Tlv(ENUMERATED, [0]));
    TlvSize(SEQUENCE, AnswerBody(mech, apRep));
  }

  lemma SpnegoAnswerBack(offer: Offer, apRep: Option<bytes>)
    requires offer.spnego && (apRep.Some? ==> |apRep.value| < 0x8000_0000_0000_0000)
    ensures ApRepOfAnswer(Answer(offer, apRep).value) ==
              if Fits(AnswerContent(offer, apRep)) then Ok(apRep) else Err(LengthOutOfRange)
  {
    var mech := offer.mech;
    AnswerSizes(mech, apRep);
    var content := Tlv(SEQUENCE, AnswerBody(mech, apRep));
    TlvSize(Ctx(1), content);
    assert Tlv(Ctx(1), content)[0] == Ctx(1);
    if Fits(content) {
      BodyBack(mech, apRep);
      SingleTlv(SEQUENCE, AnswerBody(mech, apRep));
      SingleTlv(Ctx(1), content);
      if apRep.Some? {
        ApRepOfToken(apRep.value);
      }
    } else {
      LongSingleRefused(Ctx(1), content);
    }
  }

  /** The fields of an answer that fits. */
  lemma BodyBack(mech: Mech, apRep: Option<bytes>)
    requires Fits(Tlv(SEQUENCE, AnswerBody(mech, apRep)))
    ensures var body, token := AnswerBody(mech, apRep), AnswerToken(apRep);
            && var last := EncExplicit(1, Tlv(OID, mech.Oid()));
            && Explicit(body, 0, ENUMERATED) == Ok(Field([0], last + token))
            && Optional(last + token, Ctx(1)).Ok? && Optional(last + token, Ctx(1)).value.rest == token
            && ExplicitOpt(token, 2, OCTET_STRING)
               == Ok(OptField(if apRep.Some? then Some(KrbToken(TOK_AP_REP, apRep.value)) else None, []))
  {
    AnswerSizes(mech, apRep);
    var token, last := AnswerToken(apRep), EncExplicit(1, Tlv(OID, mech.Oid()));
    MechOfOid(mech);
    TlvSize(OID, mech.Oid());
    ExpectTlv(Ctx(1), Tlv(OID, mech.Oid()), token);
    ExplicitTlv(0, ENUMERATED, [0], last + token);
    if apRep.Some? {
      ExplicitTlv(2, OCTET_STRING, KrbToken(TOK_AP_REP, apRep.value), []);
      assert token + [] == token;
    }
  }

  // ------------------------------------------------------------------ reading with the cursor

  method ReadGssFrame(token: bytes) returns (r: Result<Frame, DerError>)
    ensures r == GssFrame(token)
  {
    var content :- SingleItem(token, App(0));
    var reader := new Reader(content);
    var oid :- reader.ExpectTag(OID);
    return Ok(Frame(oid, reader.buf));
  }

  method ReadApReq(inner: bytes) returns (r: Result<bytes, DerError>)
    ensures r == ApReqOf(inner)
  {
    if TOK_AP_REQ <= inner {
      var _ :- SingleItem(inner[2..], App(14));
      return Ok(inner[2..]);
    }
    return Err(NotApReq);
  }

  method ReadSpnego(inner: bytes) returns (r: Result<Negotiated, DerError>)
    ensures r == ParseSpnego(inner)
  {
    var init :- SingleItem(inner, Ctx(0));
    var body :- SingleItem(init, SEQUENCE);
    var reader := new Reader(body);
    var mechList :- reader.ExplicitField(0, SEQUENCE);
    var mechs := new Reader(mechList);
    var first :- mechs.ExpectTag(OID);
    var _ :- reader.OptionalTag(Ctx(1));
    var token :- reader.ExplicitOptField(2, OCTET_STRING);
    var mech := MechOf(first);
    if mech.None? {
      return Ok(if first == OID_NTLM then Ntlm else Unsupported(NotFirstChoice));
    }
    if token.None? {
      return Ok(Unsupported(NoTokenSent));
    }
    var frame :- ReadGssFrame(token.value);
    if MechOf(frame.oid).None? {
      return Ok(Unsupported(WrongMechanism));
    }
    var apReq :- ReadApReq(frame.inner);
    return Ok(Kerberos(Offer(apReq, mech.value, true)));
  }

  method ReadToken(token: bytes) returns (r: Result<Negotiated, DerError>)
    ensures r == Parse(token)
  {
    if NTLM_SIGNATURE <= token {
      return Ok(Ntlm);
    }
    var frame :- ReadGssFrame(token);
    if frame.oid == OID_SPNEGO {
      r := ReadSpnego(frame.inner);
      return;
    }
    match MechOf(frame.oid) {
      case Some(mech) =>
        var apReq :- ReadApReq(frame.inner);
        return Ok(Kerberos(Offer(apReq, mech, false)));
      case None =>
        return Ok(if frame.oid == OID_NTLM then Ntlm else Unsupported(NotSpnegoOrKerberos));
    }
  }
}
