/** Ciphertext stealing as it runs (api/src/kerberos/aes.rs): buffers that the block chaining overwrites in
    place, and vectors put together from their pieces, proved against the functions of module `Aes`. */
module AesBuffers {
  import opened Bytes
  import opened Primitives
  import opened Aes

  /** Overwrite one block. */
  method WriteBlock(buf: array<byte>, at: nat, block: Block)
    requires at + BLOCK <= buf.Length
    modifies buf
    ensures buf[..] == old(buf[..at]) + block + old(buf[at + BLOCK..])
  {
    for j := 0 to BLOCK
      invariant buf[..at] == old(buf[..at]) && buf[at..at + j] == block[..j] && buf[at + j..] == old(buf[at + j..])
    {
      buf[at + j] := block[j];
      assert buf[at..at + j + 1] == block[..j] + [block[j]];
    }
    assert buf[..] == buf[..at] + buf[at..at + BLOCK] + buf[at + BLOCK..];
  }

  lemma ChainStep(env: Env, key: bytes, prev: Block, done: bytes, rest: bytes)
    requires Whole(rest) && rest != []
    ensures var c := env.encryptBlock(key, XorSeq(prev, rest[..BLOCK]));
            done + CbcEncrypt(env, key, prev, rest) == (done + c) + CbcEncrypt(env, key, c, rest[BLOCK..])
  {
  }

  lemma UnchainStep(env: Env, key: bytes, prev: Block, done: bytes, rest: bytes)
    requires Whole(rest) && rest != []
    ensures var p := XorSeq(env.decryptBlock(key, rest[..BLOCK]), prev);
            done + CbcDecrypt(env, key, prev, rest) == (done + p) + CbcDecrypt(env, key, rest[..BLOCK], rest[BLOCK..])
  {
  }

  /** What a write at `at` leaves of a buffer. */
  lemma AfterWrite(was: bytes, now: bytes, at: nat, block: Block)
    requires at + BLOCK <= |was| && now == was[..at] + block + was[at + BLOCK..]
    ensures |now| == |was| && now[..at + BLOCK] == was[..at] + block && now[at + BLOCK..] == was[at + BLOCK..]
  {
  }

  method EncryptBlocks(env: Env, key: bytes, buf: array<byte>)
    requires buf.Length % BLOCK == 0
    modifies buf
    ensures buf[..] == CbcEncrypt(env, key, ZeroIv(), old(buf[..]))
  {
    hide CbcEncrypt, XorSeq;
    ghost var goal := CbcEncrypt(env, key, ZeroIv(), buf[..]);
    var at, prev := 0, ZeroIv();
    assert buf[0..] == buf[..] && buf[..0] + goal == goal;
    while at < buf.Length
      invariant 0 <= at <= buf.Length && at % BLOCK == 0
      invariant goal == buf[..at] + CbcEncrypt(env, key, prev, buf[at..])
    {
      ghost var was := buf[..];
      var first: Block := buf[at..at + BLOCK];
      var c := env.encryptBlock(key, XorSeq(prev, first));
      assert was[at..][..BLOCK] == first && was[at..][BLOCK..] == was[at + BLOCK..]
             && was[at..] == buf[at..] && was[..at] == buf[..at];
      ChainStep(env, key, prev, was[..at], was[at..]);
      WriteBlock(buf, at, c);
      AfterWrite(was, buf[..], at, c);
      assert buf[..at + BLOCK] == was[..at] + c && buf[at + BLOCK..] == was[at + BLOCK..];
      prev, at := c, at + BLOCK;
    }
    NothingLeft(env, key, prev, buf[..], at);
  }

  lemma NothingLeft(env: Env, key: bytes, prev: Block, s: bytes, at: nat)
    requires at == |s|
    ensures s[..at] + CbcEncrypt(env, key, prev, s[at..]) == s && s[..at] + CbcDecrypt(env, key, prev, s[at..]) == s
  {
  }

  method DecryptBlocks(env: Env, key: bytes, buf: array<byte>)
    requires buf.Length % BLOCK == 0
    modifies buf
    ensures buf[..] == CbcDecrypt(env, key, ZeroIv(), old(buf[..]))
  {
    hide CbcDecrypt, XorSeq;
    ghost var goal := CbcDecrypt(env, key, ZeroIv(), buf[..]);
    var at, prev := 0, ZeroIv();
    assert buf[0..] == buf[..] && buf[..0] + goal == goal;
    while at < buf.Length
      invariant 0 <= at <= buf.Length && at % BLOCK == 0
      invariant goal == buf[..at] + CbcDecrypt(env, key, prev, buf[at..])
    {
      ghost var was := buf[..];
      var c: Block := buf[at..at + BLOCK];
      var p: Block := XorSeq(env.decryptBlock(key, c), prev);
      assert was[at..][..BLOCK] == c && was[at..][BLOCK..] == was[at + BLOCK..] && was[at..] == buf[at..] && was[..at] == buf[..at];
      UnchainStep(env, key, prev, was[..at], was[at..]);
      WriteBlock(buf, at, p);
      AfterWrite(was, buf[..], at, p);
      assert buf[..at + BLOCK] == was[..at] + p && buf[at + BLOCK..] == was[at + BLOCK..];
      prev, at := c, at + BLOCK;
    }
    NothingLeft(env, key, prev, buf[..], at);
  }

  /** A buffer with the given content. */
  method Buffer(content: bytes) returns (buf: array<byte>)
    ensures fresh(buf) && buf[..] == content
  {
    buf := new byte[|content|](i requires 0 <= i < |content| => content[i]);
  }

  method StealEncrypt(env: Env, key: bytes, plain: bytes) returns (r: Option<bytes>)
    ensures r == CtsEncrypt(env, key, plain)
  {
    hide CbcEncrypt;
    var len := |plain|;
    if len < BLOCK || !AesKey(key) {
      return None;
    }
    var blocks := BlockCount(len);
    var buf := Buffer(plain + Zeros(blocks * BLOCK - len));
    EncryptBlocks(env, key, buf);
    if blocks == 1 {
      return Some(buf[..]);
    }
    var tail := len - (blocks - 1) * BLOCK;
    var split := BLOCK * (blocks - 2);
    var lastTwo := buf[split..];
    var out := buf[..split];
    out := out + lastTwo[BLOCK..];
    out := out + lastTwo[..tail];
    return Some(out);
  }

  /** Byte by byte, as a zip of the two. */
  method XorBytes(a: bytes, b: bytes) returns (x: bytes)
    requires |a| == |b|
    ensures x == XorSeq(a, b)
  {
    x := [];
    for i := 0 to |a|
      invariant |x| == i && forall j :: 0 <= j < i ==> x[j] == Xor(a[j], b[j])
    {
      x := x + [Xor(a[i], b[i])];
    }
  }

  method StealDecrypt(env: Env, key: bytes, cipher: bytes) returns (r: Option<bytes>)
    ensures r == CtsDecrypt(env, key, cipher)
  {
    hide CbcDecrypt, XorSeq;
    var len := |cipher|;
    if len < BLOCK || !AesKey(key) {
      return None;
    }
    var blocks := BlockCount(len);
    if blocks == 1 {
      var whole := Buffer(cipher);
      DecryptBlocks(env, key, whole);
      return Some(whole[..]);
    }
    var tail := len - (blocks - 1) * BLOCK;
    var head := cipher[..BLOCK * (blocks - 2)];
    var last: Block := cipher[BLOCK * (blocks - 2)..BLOCK * (blocks - 1)];
    var partial := cipher[BLOCK * (blocks - 1)..];
    var x := env.decryptBlock(key, last);
    var beforeLast := partial + x[tail..];
    var lastPlain := XorBytes(x[..tail], beforeLast[..tail]);
    var buf := Buffer(head + beforeLast);
    DecryptBlocks(env, key, buf);
    return Some(buf[..] + lastPlain);
  }
}
