/** The foreign code the Kerberos stack calls, as arbitrary functions with the laws it relies on: AES on
    one block, HMAC, SHA-256 and the calendar. */
module Primitives {
  import opened Bytes

  const BLOCK: nat := 16

  type Block = b: bytes | |b| == BLOCK witness seq(BLOCK, _ => 0)

  datatype Hash = Sha1 | Sha256 | Sha384

  function DigestLen(h: Hash): nat {
    match h
    case Sha1 => 20
    case Sha256 => 32
    case Sha384 => 48
  }

  /** The years 0 to 9999, in seconds since 1970. */
  const TIME_MIN: int := -62167219200
  const TIME_MAX: int := 253402300799

  datatype Env = Env(
    encryptBlock: (bytes, Block) -> Block,
    decryptBlock: (bytes, Block) -> Block,
    hmac: (Hash, bytes, bytes) -> bytes,
    sha256: bytes -> bytes,
    /** A time in whole seconds as the fifteen digits and letter of a KerberosTime, and back. */
    formatTime: int -> bytes,
    parseTime: bytes -> Option<int>)
  {
    ghost predicate Valid() {
      && (forall k, b :: decryptBlock(k, encryptBlock(k, b)) == b)
      && (forall k, b :: encryptBlock(k, decryptBlock(k, b)) == b)
      && (forall h, k, m :: |hmac(h, k, m)| == DigestLen(h))
      && (forall t :: TIME_MIN <= t <= TIME_MAX ==> |formatTime(t)| == 15 && parseTime(formatTime(t)) == Some(t))
    }
  }
}
