/** api/src/kerberos/crypto.rs, built with the `kerberos` feature: the encryption types by number. */
module Crypto {
  import opened Bytes
  import opened Primitives
  import opened Keytab
  import Aes

  datatype CryptoError = Etype(etype: int) | Integrity

  function Decrypt(env: Env, etype: int, key: bytes, usage: nat, data: bytes): Result<bytes, CryptoError>
    requires env.Valid()
  {
    if !EtypeSupported(etype) then Err(Etype(etype)) else
      match Aes.ProfileOf(etype)
      case None => Err(Etype(etype))
      case Some(p) =>
        if |key| != p.keyLen then Err(Integrity)
        else match Aes.Decrypt(env, p, key, usage, data)
          case None => Err(Integrity)
          case Some(plain) => Ok(plain)
  }

  /** The confounder is drawn afresh each time; here it is given. */
  function Encrypt(env: Env, etype: int, key: bytes, usage: nat, confounder: Block,
                   data: bytes): Result<bytes, CryptoError>
    requires env.Valid()
  {
    if !EtypeSupported(etype) then Err(Etype(etype)) else
      match Aes.ProfileOf(etype)
      case None => Err(Etype(etype))
      case Some(p) =>
        if |key| != p.keyLen then Err(Integrity)
        else match Aes.EncryptWith(env, p, key, usage, confounder, data)
          case None => Err(Integrity)
          case Some(c) => Ok(c)
  }

  predicate GoodKey(etype: int, key: bytes) {
    EtypeKeyLen(etype) == Some(|key|)
  }

  /** With a key of the right length, what is encrypted decrypts, and grows by at most forty bytes. */
  lemma RoundTrip(env: Env, etype: int, key: bytes, usage: nat, confounder: Block, data: bytes)
    requires env.Valid() && GoodKey(etype, key)
    ensures var c := Encrypt(env, etype, key, usage, confounder, data);
            && c.Ok? && |c.value| <= |data| + 40
            && Decrypt(env, etype, key, usage, c.value) == Ok(data)
  {
    Aes.DecryptUndoesEncrypt(env, Aes.ProfileOf(etype).value, key, usage, confounder, data);
  }

  /** The two tables of encryption types agree. */
  lemma TablesAgree(etype: int)
    ensures EtypeSupported(etype) <==> Aes.ProfileOf(etype).Some?
    ensures EtypeSupported(etype) ==> EtypeKeyLen(etype).value == Aes.ProfileOf(etype).value.keyLen
  {
  }
}
