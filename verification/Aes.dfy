/** The Kerberos AES encryption types (api/src/kerberos/aes.rs): CBC with ciphertext stealing, key
    derivation, and authenticated encryption in its two kinds. */
module Aes {
  import opened Bytes
  import opened Primitives
  import NFold

  // ------------------------------------------------------------------ CBC

  function XorSeq(a: bytes, b: bytes): (x: bytes)
    requires |a| == |b|
    ensures |x| == |a|
  {
    seq(|a|, i requires 0 <= i < |a| => Xor(a[i], b[i]))
  }

  lemma XorSeqLaws(a: bytes, b: bytes)
    requires |a| == |b|
    ensures XorSeq(XorSeq(a, b), b) == a && XorSeq(a, b) == XorSeq(b, a)
  {
    forall i | 0 <= i < |a|
      ensures XorSeq(XorSeq(a, b), b)[i] == a[i] && XorSeq(a, b)[i] == XorSeq(b, a)[i]
    {
      XorLaws(a[i], b[i]);
    }
  }

  function Zeros(n: nat): (z: bytes)
    ensures |z| == n
  {
    seq(n, _ => 0)
  }

  predicate Whole(data: bytes) { |data| % BLOCK == 0 }

  function CbcEncrypt(env: Env, key: bytes, prev: Block, data: bytes): (c: bytes)
    requires Whole(data)
    ensures |c| == |data|
    decreases |data|
  {
    if data == [] then [] else
      var c := env.encryptBlock(key, XorSeq(prev, data[..BLOCK]));
      c + CbcEncrypt(env, key, c, data[BLOCK..])
  }

  function CbcDecrypt(env: Env, key: bytes, prev: Block, data: bytes): (p: bytes)
    requires Whole(data)
    ensures |p| == |data|
    decreases |data|
  {
    if data == [] then [] else
      var c: Block := data[..BLOCK];
      XorSeq(env.decryptBlock(key, c), prev) + CbcDecrypt(env, key, c, data[BLOCK..])
  }

  lemma {:induction false} CbcDecryptEncrypt(env: Env, key: bytes, prev: Block, data: bytes)
    requires env.Valid() && Whole(data)
    ensures CbcDecrypt(env, key, prev, CbcEncrypt(env, key, prev, data)) == data
    decreases |data|
  {
    if data != [] {
      var first := data[..BLOCK];
      var c := env.encryptBlock(key, XorSeq(prev, first));
      var out := CbcEncrypt(env, key, prev, data);
      assert out[..BLOCK] == c && out[BLOCK..] == CbcEncrypt(env, key, c, data[BLOCK..]);
      XorSeqLaws(prev, first);
      XorSeqLaws(first, prev);
      CbcDecryptEncrypt(env, key, c, data[BLOCK..]);
      assert data == first + data[BLOCK..];
    }
  }

  lemma {:induction false} CbcEncryptDecrypt(env: Env, key: bytes, prev: Block, data: bytes)
    requires env.Valid() && Whole(data)
    ensures CbcEncrypt(env, key, prev, CbcDecrypt(env, key, prev, data)) == data
    decreases |data|
  {
    if data != [] {
      var c: Block := data[..BLOCK];
      var plain := XorSeq(env.decryptBlock(key, c), prev);
      var out := CbcDecrypt(env, key, prev, data);
      assert out[..BLOCK] == plain && out[BLOCK..] == CbcDecrypt(env, key, c, data[BLOCK..]);
      XorSeqLaws(env.decryptBlock(key, c), prev);
      XorSeqLaws(plain, prev);
      CbcEncryptDecrypt(env, key, c, data[BLOCK..]);
      assert data == c + data[BLOCK..];
    }
  }

  /** The block the next one is chained to. */
  function LastBlock(prev: Block, c: bytes): Block
    requires Whole(c)
  {
    if c == [] then prev else c[|c| - BLOCK..]
  }

  lemma {:induction false} CbcEncryptAppend(env: Env, key: bytes, prev: Block, a: bytes, b: bytes)
    requires Whole(a) && Whole(b)
    ensures var c := CbcEncrypt(env, key, prev, a);
            CbcEncrypt(env, key, prev, a + b) == c + CbcEncrypt(env, key, LastBlock(prev, c), b)
    decreases |a|
  {
    if a == [] {
      assert a + b == b;
    } else {
      var c := env.encryptBlock(key, XorSeq(prev, a[..BLOCK]));
      assert (a + b)[..BLOCK] == a[..BLOCK] && (a + b)[BLOCK..] == a[BLOCK..] + b;
      CbcEncryptAppend(env, key, c, a[BLOCK..], b);
      var tail := CbcEncrypt(env, key, c, a[BLOCK..]);
      assert LastBlock(prev, c + tail) == LastBlock(c, tail);
    }
  }

  // ------------------------------------------------------------------ ciphertext stealing

  /** `cipher_key`: AES-128 or AES-256 by the length of the key. */
  predicate AesKey(key: bytes) { |key| == 16 || |key| == 32 }

  function ZeroIv(): Block { Zeros(BLOCK) }

  function BlockCount(len: nat): nat { (len + BLOCK - 1) / BLOCK }

  function CtsEncrypt(env: Env, key: bytes, plain: bytes): Option<bytes> {
    var len := |plain|;
    if len < BLOCK || !AesKey(key) then None else
      var blocks := BlockCount(len);
      var buf := CbcEncrypt(env, key, ZeroIv(), plain + Zeros(blocks * BLOCK - len));
      if blocks == 1 then Some(buf) else
        var tail := len - (blocks - 1) * BLOCK;
        var head, lastTwo := buf[..BLOCK * (blocks - 2)], buf[BLOCK * (blocks - 2)..];
        Some(head + lastTwo[BLOCK..] + lastTwo[..tail])
  }

  function CtsDecrypt(env: Env, key: bytes, cipher: bytes): Option<bytes> {
    var len := |cipher|;
    if len < BLOCK || !AesKey(key) then None else
      var blocks := BlockCount(len);
      if blocks == 1 then Some(CbcDecrypt(env, key, ZeroIv(), cipher)) else
        var tail := len - (blocks - 1) * BLOCK;
        var head := cipher[..BLOCK * (blocks - 2)];
        var last: Block := cipher[BLOCK * (blocks - 2)..BLOCK * (blocks - 1)];
        var partial := cipher[BLOCK * (blocks - 1)..];
        var x := env.decryptBlock(key, last);
        var beforeLast := partial + x[tail..];
        var lastPlain := XorSeq(x[..tail], beforeLast[..tail]);
        Some(CbcDecrypt(env, key, ZeroIv(), head + beforeLast) + lastPlain)
  }

  /** A text of more than one block, cut as stealing sees it: whole blocks, one block more, and a last
      piece of one to sixteen bytes. */
  datatype Cut = Cut(head: bytes, middle: Block, last: bytes)

  ghost predicate IsCut(s: bytes, c: Cut) {
    s == c.head + c.middle + c.last && Whole(c.head) && 1 <= |c.last| <= BLOCK
  }

  lemma CutOf(s: bytes) returns (c: Cut)
    requires |s| > BLOCK
    ensures IsCut(s, c) && |c.head| == BLOCK * (BlockCount(|s|) - 2)
  {
    var h := BLOCK * (BlockCount(|s|) - 2);
    c := Cut(s[..h], s[h..h + BLOCK], s[h + BLOCK..]);
    assert s == s[..h] + s[h..h + BLOCK] + s[h + BLOCK..];
  }

  lemma CutBlocks(s: bytes, c: Cut)
    requires IsCut(s, c)
    ensures |s| > BLOCK
    ensures |c.head| == BLOCK * (BlockCount(|s|) - 2)
    ensures |c.last| == |s| - (BlockCount(|s|) - 1) * BLOCK
  {
  }

  /** Encryption, cut by cut: the last two blocks of the chain trade places and the one that now comes
      last is shortened. */
  lemma CtsEncryptCut(env: Env, key: bytes, plain: bytes, c: Cut)
    requires AesKey(key) && IsCut(plain, c)
    ensures var head := CbcEncrypt(env, key, ZeroIv(), c.head);
            var c1 := env.encryptBlock(key, XorSeq(LastBlock(ZeroIv(), head), c.middle));
            var c2 := env.encryptBlock(key, XorSeq(c1, c.last + Zeros(BLOCK - |c.last|)));
            CtsEncrypt(env, key, plain) == Some(head + c2 + c1[..|c.last|])
  {
    CutBlocks(plain, c);
    var pad: Block := c.last + Zeros(BLOCK - |c.last|);
    var padded := plain + Zeros(BlockCount(|plain|) * BLOCK - |plain|);
    assert padded == c.head + (c.middle + pad);
    CbcEncryptAppend(env, key, ZeroIv(), c.head, c.middle + pad);
    var head := CbcEncrypt(env, key, ZeroIv(), c.head);
    var iv := LastBlock(ZeroIv(), head);
    var c1: bytes := env.encryptBlock(key, XorSeq(iv, c.middle));
    var c2: bytes := env.encryptBlock(key, XorSeq(c1, pad));
    CbcTwoBlocks(env, key, iv, c.middle, pad);
    var buf := head + (c1 + c2);
    assert buf[..|head|] == head && buf[|head|..] == c1 + c2;
    assert (c1 + c2)[BLOCK..] == c2 && (c1 + c2)[..|c.last|] == c1[..|c.last|];
  }

  lemma CbcTwoBlocks(env: Env, key: bytes, iv: Block, a: Block, b: Block)
    ensures var c1 := env.encryptBlock(key, XorSeq(iv, a));
            CbcEncrypt(env, key, iv, a + b) == c1 + env.encryptBlock(key, XorSeq(c1, b))
  {
    assert (a + b)[..BLOCK] == a && (a + b)[BLOCK..] == b;
    assert b[..BLOCK] == b && b[BLOCK..] == [];
  }

  /** Decryption, cut by cut: the end of the block before the last is stolen back out of the last. */
  lemma CtsDecryptCut(env: Env, key: bytes, cipher: bytes, c: Cut)
    requires AesKey(key) && IsCut(cipher, c)
    ensures var tail := |c.last|;
            var x := env.decryptBlock(key, c.middle);
            CtsDecrypt(env, key, cipher) ==
            Some(CbcDecrypt(env, key, ZeroIv(), c.head + (c.last + x[tail..])) + XorSeq(x[..tail], c.last))
  {
    CutBlocks(cipher, c);
    var h, tail := |c.head|, |c.last|;
    assert cipher[..h] == c.head && cipher[h..h + BLOCK] == c.middle && cipher[h + BLOCK..] == c.last;
    var x := env.decryptBlock(key, c.middle);
    assert (c.last + x[tail..])[..tail] == c.last;
  }

  /** The padded last block, under its predecessor: past the real bytes the predecessor shows through. */
  lemma PaddedXor(c1: bytes, last: bytes)
    requires |last| <= |c1|
    ensures var x := XorSeq(c1, last + Zeros(|c1| - |last|));
            && x[|last|..] == c1[|last|..]
            && XorSeq(x[..|last|], c1[..|last|]) == last
  {
    var pad := last + Zeros(|c1| - |last|);
    var x := XorSeq(c1, pad);
    forall i | 0 <= i < |c1|
      ensures Xor(x[i], c1[i]) == pad[i] && (i >= |last| ==> x[i] == c1[i])
    {
      XorLaws(c1[i], pad[i]);
      XorLaws(pad[i], c1[i]);
    }
  }

  lemma CtsDecryptEncrypt(env: Env, key: bytes, plain: bytes)
    requires env.Valid() && AesKey(key) && |plain| >= BLOCK
    ensures var c := CtsEncrypt(env, key, plain);
            c.Some? && |c.value| == |plain| && CtsDecrypt(env, key, c.value) == Some(plain)
  {
    if |plain| == BLOCK {
      assert plain + Zeros(0) == plain;
      CbcDecryptEncrypt(env, key, ZeroIv(), plain);
    } else {
      var c := CutOf(plain);
      CtsEncryptCut(env, key, plain, c);
      CtsDecryptsCut(env, key, c);
    }
  }

  lemma CtsDecryptsCut(env: Env, key: bytes, c: Cut)
    requires env.Valid() && AesKey(key) && Whole(c.head) && 1 <= |c.last| <= BLOCK
    ensures var head := CbcEncrypt(env, key, ZeroIv(), c.head);
            var c1 := env.encryptBlock(key, XorSeq(LastBlock(ZeroIv(), head), c.middle));
            var c2 := env.encryptBlock(key, XorSeq(c1, c.last + Zeros(BLOCK - |c.last|)));
            CtsDecrypt(env, key, head + c2 + c1[..|c.last|]) == Some(c.head + c.middle + c.last)
  {
    hide XorSeq, CbcEncrypt, CbcDecrypt, LastBlock, CtsDecrypt;
    var tail := |c.last|;
    var head := CbcEncrypt(env, key, ZeroIv(), c.head);
    var c1 := env.encryptBlock(key, XorSeq(LastBlock(ZeroIv(), head), c.middle));
    var x := XorSeq(c1, c.last + Zeros(BLOCK - tail));
    var c2 := env.encryptBlock(key, x);
    CtsDecryptCut(env, key, head + c2 + c1[..tail], Cut(head, c2, c1[..tail]));
    PaddedXor(c1, c.last);
    assert c1[..tail] + x[tail..] == c1;
    CbcOneMore(env, key, c.head, c.middle);
    CbcDecryptEncrypt(env, key, ZeroIv(), c.head + c.middle);
  }

  lemma CbcOneMore(env: Env, key: bytes, a: bytes, b: Block)
    requires Whole(a)
    ensures var head := CbcEncrypt(env, key, ZeroIv(), a);
            CbcEncrypt(env, key, ZeroIv(), a + b) == head + env.encryptBlock(key, XorSeq(LastBlock(ZeroIv(), head), b))
  {
    CbcEncryptAppend(env, key, ZeroIv(), a, b);
    assert b[..BLOCK] == b && b[BLOCK..] == [];
  }

  lemma CtsEncryptDecrypt(env: Env, key: bytes, cipher: bytes)
    requires env.Valid() && AesKey(key) && |cipher| >= BLOCK
    ensures var p := CtsDecrypt(env, key, cipher);
            p.Some? && |p.value| == |cipher| && CtsEncrypt(env, key, p.value) == Some(cipher)
  {
    hide XorSeq, CbcEncrypt, CbcDecrypt, LastBlock;
    if |cipher| == BLOCK {
      var p := CbcDecrypt(env, key, ZeroIv(), cipher);
      assert p + Zeros(0) == p;
      CbcEncryptDecrypt(env, key, ZeroIv(), cipher);
    } else {
      var c := CutOf(cipher);
      var tail := |c.last|;
      CtsDecryptCut(env, key, cipher, c);
      var x := env.decryptBlock(key, c.middle);
      var c1: Block := c.last + x[tail..];
      var front := CbcDecrypt(env, key, ZeroIv(), c.head + c1);
      var last := XorSeq(x[..tail], c.last);
      var h := |c.head|;
      var cut := Cut(front[..h], front[h..], last);
      assert front == cut.head + cut.middle;
      CtsEncryptCut(env, key, front + last, cut);
      CbcEncryptDecrypt(env, key, ZeroIv(), c.head + c1);
      CbcOneMore(env, key, cut.head, cut.middle);
      var head := CbcEncrypt(env, key, ZeroIv(), cut.head);
      var d1 := env.encryptBlock(key, XorSeq(LastBlock(ZeroIv(), head), cut.middle));
      assert head + d1 == c.head + c1;
      assert head == (head + d1)[..h] && d1 == (head + d1)[h..];
      assert head == c.head && d1 == c1;
      StolenXor(x, c.last);
    }
  }

  /** The stolen bytes put back: padding the last plaintext and chaining it gives the block decrypted. */
  lemma StolenXor(x: bytes, partial: bytes)
    requires |partial| <= |x|
    ensures var tail := |partial|;
            XorSeq(partial + x[tail..], XorSeq(x[..tail], partial) + Zeros(|x| - tail)) == x
  {
    var tail := |partial|;
    var a, b := partial + x[tail..], XorSeq(x[..tail], partial) + Zeros(|x| - tail);
    forall i | 0 <= i < |x|
      ensures XorSeq(a, b)[i] == x[i]
    {
      if i < tail {
        XorLaws(x[i], partial[i]);
        XorLaws(partial[i], b[i]);
      } else {
        XorLaws(0, x[i]);
      }
    }
  }

  // ------------------------------------------------------------------ key derivation

  /** The chained encryptions of `block`, `len` bytes of them. */
  function Chain(env: Env, base: bytes, block: Block, len: nat): (out: bytes)
    ensures |out| == len
    decreases len
  {
    var next := env.encryptBlock(base, block);
    if len <= BLOCK then next[..len] else next + Chain(env, base, next, len - BLOCK)
  }

  /** DK of section 5.3 of RFC 3961. */
  function Dk(env: Env, base: bytes, constant: bytes, len: nat): (out: bytes)
    requires constant != []
    ensures |out| == len
  {
    Chain(env, base, NFold.Folded(constant, BLOCK), len)
  }

  function KdfInput(counter: nat, purpose: bytes, len: nat): bytes {
    Be(counter, 4) + purpose + [0] + Be(len * 8, 4)
  }

  /** What is left to produce from counter value `counter` on. */
  function KdfFrom(env: Env, alg: Hash, key: bytes, purpose: bytes, len: nat, counter: nat, left: nat): (out: bytes)
    requires env.Valid()
    ensures |out| == left
    decreases left
  {
    var digest := env.hmac(alg, key, KdfInput(counter, purpose, len));
    if left <= |digest| then digest[..left]
    else digest + KdfFrom(env, alg, key, purpose, len, counter + 1, left - |digest|)
  }

  /** KDF-HMAC-SHA2 of section 3 of RFC 8009. */
  function Kdf(env: Env, alg: Hash, key: bytes, purpose: bytes, len: nat): (out: bytes)
    requires env.Valid()
    ensures |out| == len
  {
    KdfFrom(env, alg, key, purpose, len, 1, len)
  }

  /** What a derivation loop has when `out` is produced and `rest` is to come: it stops past the length
      asked for and cuts. */
  ghost predicate Producing(goal: bytes, out: bytes, rest: bytes) {
    if |out| <= |goal| then out + rest == goal else out[..|goal|] == goal
  }

  lemma Produced(goal: bytes, out: bytes, piece: bytes, rest: bytes, next: bytes)
    requires |out| < |goal| && Producing(goal, out, rest) && |rest| == |goal| - |out|
    requires rest == if |rest| <= |piece| then piece[..|rest|] else piece + next
    requires |rest| == |piece| ==> next == []
    ensures Producing(goal, out + piece, next)
  {
    if |rest| <= |piece| {
      assert (out + piece)[..|goal|] == out + piece[..|rest|];
      assert |rest| == |piece| ==> (out + piece) + next == out + piece;
    } else {
      assert out + (piece + next) == out + piece + next;
    }
  }

  method DeriveDk(env: Env, base: bytes, constant: bytes, len: nat) returns (out: bytes)
    requires constant != []
    ensures out == Dk(env, base, constant, len)
  {
    hide NFold.Folded;
    ghost var goal := Dk(env, base, constant, len);
    var folded := NFold.Compute(constant, BLOCK);
    var block: Block := folded;
    out := [];
    assert out + goal == goal;
    while |out| < len
      invariant |goal| == len
      invariant Producing(goal, out, if |out| <= len then Chain(env, base, block, len - |out|) else [])
      decreases len - |out|
    {
      ghost var rest := Chain(env, base, block, len - |out|);
      block := env.encryptBlock(base, block);
      ghost var left := len - |out| - BLOCK;
      Produced(goal, out, block, rest, if left >= 0 then Chain(env, base, block, left) else []);
      out := out + block;
    }
    out := out[..len];
  }

  method DeriveKdf(env: Env, alg: Hash, key: bytes, purpose: bytes, len: nat) returns (out: bytes)
    requires env.Valid()
    ensures out == Kdf(env, alg, key, purpose, len)
  {
    ghost var goal := Kdf(env, alg, key, purpose, len);
    out := [];
    var counter := 1;
    assert out + goal == goal;
    while |out| < len
      invariant counter >= 1 && |goal| == len
      invariant Producing(goal, out, if |out| <= len then KdfFrom(env, alg, key, purpose, len, counter, len - |out|) else [])
      decreases len - |out|
    {
      ghost var rest := KdfFrom(env, alg, key, purpose, len, counter, len - |out|);
      var digest := env.hmac(alg, key, KdfInput(counter, purpose, len));
      ghost var left := len - |out| - |digest|;
      Produced(goal, out, digest, rest,
               if left >= 0 then KdfFrom(env, alg, key, purpose, len, counter + 1, left) else []);
      out := out + digest;
      counter := counter + 1;
    }
    out := out[..len];
  }

  // ------------------------------------------------------------------ the encryption types

  datatype Kind =
    | MacOverPlaintext
    | EncryptThenMac(alg: Hash, kiLen: nat, macLen: nat)

  datatype Profile = Profile(keyLen: nat, kind: Kind) {
    predicate Known() {
      && AesKey(Zeros(keyLen))
      && (kind.EncryptThenMac? ==> 0 < kind.macLen <= DigestLen(kind.alg))
    }

    function TagLen(): nat {
      match kind
      case MacOverPlaintext => 12
      case EncryptThenMac(_, _, macLen) => macLen
    }
  }

  function ProfileOf(etype: int): (r: Option<Profile>)
    ensures r.Some? ==> r.value.Known()
  {
    match etype
    case 17 => Some(Profile(16, MacOverPlaintext))
    case 18 => Some(Profile(32, MacOverPlaintext))
    case 19 => Some(Profile(16, EncryptThenMac(Sha256, 16, 16)))
    case 20 => Some(Profile(32, EncryptThenMac(Sha384, 24, 24)))
    case _ => None
  }

  datatype UsageKeys = UsageKeys(ke: bytes, ki: bytes)

  function UsageConstant(usage: nat, suffix: byte): bytes { Be(usage, 4) + [suffix] }

  /** `Ke` and `Ki` of one usage. */
  function KeysFor(env: Env, p: Profile, base: bytes, usage: nat): (k: UsageKeys)
    requires env.Valid()
    ensures |k.ke| == p.keyLen
  {
    match p.kind
    case MacOverPlaintext =>
      UsageKeys(Dk(env, base, UsageConstant(usage, 0xaa), p.keyLen), Dk(env, base, UsageConstant(usage, 0x55), p.keyLen))
    case EncryptThenMac(alg, kiLen, _) =>
      UsageKeys(Kdf(env, alg, base, UsageConstant(usage, 0xaa), p.keyLen),
                Kdf(env, alg, base, UsageConstant(usage, 0x55), kiLen))
  }

  /** The checksum: over the confounder and the plaintext, or over the zero IV and the ciphertext. */
  function TagOf(env: Env, p: Profile, ki: bytes, plain: bytes, cipher: bytes): (tag: bytes)
    requires env.Valid() && p.Known()
    ensures |tag| == p.TagLen()
  {
    match p.kind
    case MacOverPlaintext => env.hmac(Sha1, ki, plain)[..12]
    case EncryptThenMac(alg, _, macLen) => env.hmac(alg, ki, Zeros(BLOCK) + cipher)[..macLen]
  }

  /** `encrypt_with`: None where the source fails. */
  function EncryptWith(env: Env, p: Profile, key: bytes, usage: nat, confounder: Block, data: bytes): Option<bytes>
    requires env.Valid() && p.Known()
  {
    if |key| != p.keyLen then None else
      var k := KeysFor(env, p, key, usage);
      var plain := confounder + data;
      match CtsEncrypt(env, k.ke, plain)
      case None => None
      case Some(out) => Some(out + TagOf(env, p, k.ki, plain, out))
  }

  /** `decrypt`: the encrypt-then-MAC kind checks the tag before it decrypts, the other one after. */
  function Decrypt(env: Env, p: Profile, key: bytes, usage: nat, data: bytes): Option<bytes>
    requires env.Valid() && p.Known()
  {
    var tagLen := p.TagLen();
    if |key| != p.keyLen || |data| < BLOCK + tagLen then None else
      var k := KeysFor(env, p, key, usage);
      var cipher, tag := data[..|data| - tagLen], data[|data| - tagLen..];
      if p.kind.EncryptThenMac? && TagOf(env, p, k.ki, [], cipher) != tag then None else
        match CtsDecrypt(env, k.ke, cipher)
        case None => None
        case Some(plain) =>
          if p.kind.MacOverPlaintext? && TagOf(env, p, k.ki, plain, []) != tag then None
          else Some(plain[BLOCK..])
  }

  /** Each kind's checksum looks at one of the two texts only. */
  lemma TagInputs(env: Env, p: Profile, ki: bytes, plain: bytes, cipher: bytes)
    requires env.Valid() && p.Known()
    ensures TagOf(env, p, ki, plain, cipher) ==
            if p.kind.EncryptThenMac? then TagOf(env, p, ki, [], cipher) else TagOf(env, p, ki, plain, [])
  {
  }

  lemma DecryptUndoesEncrypt(env: Env, p: Profile, key: bytes, usage: nat, confounder: Block, data: bytes)
    requires env.Valid() && p.Known() && |key| == p.keyLen
    ensures var c := EncryptWith(env, p, key, usage, confounder, data);
            && c.Some? && |c.value| == BLOCK + |data| + p.TagLen()
            && Decrypt(env, p, key, usage, c.value) == Some(data)
  {
    hide KeysFor, CtsDecrypt, CtsEncrypt, TagOf;
    var UsageKeys(ke, ki) := KeysFor(env, p, key, usage);
    var plain := confounder + data;
    CtsDecryptEncrypt(env, ke, plain);
    var cipher := CtsEncrypt(env, ke, plain).value;
    var tag := TagOf(env, p, ki, plain, cipher);
    TagInputs(env, p, ki, plain, cipher);
    var all := cipher + tag;
    assert all[..|all| - p.TagLen()] == cipher && all[|all| - p.TagLen()..] == tag;
    assert plain[BLOCK..] == data;
  }

  lemma EncryptUndoesDecrypt(env: Env, p: Profile, key: bytes, usage: nat, data: bytes) returns (confounder: Block)
    requires env.Valid() && p.Known() && Decrypt(env, p, key, usage, data).Some?
    ensures EncryptWith(env, p, key, usage, confounder, Decrypt(env, p, key, usage, data).value) == Some(data)
  {
    hide KeysFor, CtsDecrypt, CtsEncrypt, TagOf;
    var UsageKeys(ke, ki) := KeysFor(env, p, key, usage);
    var split := |data| - p.TagLen();
    var cipher, tag := data[..split], data[split..];
    CtsEncryptDecrypt(env, ke, cipher);
    var plain := CtsDecrypt(env, ke, cipher).value;
    TagInputs(env, p, ki, plain, cipher);
    confounder := plain[..BLOCK];
    assert confounder + plain[BLOCK..] == plain;
    assert data == cipher + tag;
  }

  /** For every type, right-length key and usage: `decrypt` gives `plain` on exactly the byte strings
      that `encrypt_with` makes of `plain` under some confounder. */
  lemma DecryptExactly(env: Env, p: Profile, key: bytes, usage: nat, data: bytes, plain: bytes)
    requires env.Valid() && p.Known() && |key| == p.keyLen
    ensures Decrypt(env, p, key, usage, data) == Some(plain)
       <==> exists confounder: Block :: EncryptWith(env, p, key, usage, confounder, plain) == Some(data)
  {
    if Decrypt(env, p, key, usage, data) == Some(plain) {
      var confounder := EncryptUndoesDecrypt(env, p, key, usage, data);
    }
    if confounder: Block :| EncryptWith(env, p, key, usage, confounder, plain) == Some(data) {
      DecryptUndoesEncrypt(env, p, key, usage, confounder, plain);
    }
  }
}
