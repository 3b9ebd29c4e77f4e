/** The n-fold operation of api/src/kerberos/aes.rs (section 5.1 of RFC 3961): the byte loop with its
    running carry, proved to compute the one's complement sum of the rotated copies of its input. */
module NFold {
  import opened Bytes
  import opened Arith

  // ------------------------------------------------------------------ greatest common divisor

  function Gcd(a: nat, b: nat): nat
    decreases b
  {
    if b == 0 then a else Gcd(b, a % b)
  }

  ghost predicate Divides(d: int, x: int) {
    exists k: int :: d * k == x
  }

  lemma DividesIntro(d: int, k: int)
    ensures Divides(d, d * k)
  {
  }

  /** Bezout: the greatest common divisor divides both numbers and is a combination of them. */
  lemma {:induction false} GcdCombination(a: nat, b: nat) returns (x: int, y: int, u: int, v: int)
    ensures Gcd(a, b) * u == a && Gcd(a, b) * v == b
    ensures a * x + b * y == Gcd(a, b)
    decreases b
  {
    if b == 0 {
      x, y, u, v := 1, 0, 1, 0;
    } else {
      var x', y', u', v' := GcdCombination(b, a % b);
      x, y, u, v := BezoutStep(a, b, Gcd(a, b), x', y', u', v');
    }
  }

  lemma BezoutStep(a: nat, b: nat, g: int, x': int, y': int, u': int, v': int) returns (x: int, y: int, u: int, v: int)
    requires b > 0 && g * u' == b && g * v' == a % b && b * x' + a % b * y' == g
    ensures g * u == a && g * v == b && a * x + b * y == g
  {
    var q := a / b;
    x, y, u, v := y', x' - q * y', q * u' + v', u';
    Distribute(q * u', v', g);
    Exchange(g, q, u');
    Distribute(b * q, a % b, y');
    Distribute(x', q * y', b);
    Associate(b, q, y');
  }

  /** How many bytes of rotated input are summed. */
  function Lcm(outLen: nat, inLen: nat): nat
    requires outLen > 0 && inLen > 0
  {
    GcdPositive(outLen, inLen);
    outLen / Gcd(outLen, inLen) * inLen
  }

  lemma {:induction false} GcdPositive(a: nat, b: nat)
    requires a > 0 || b > 0
    ensures Gcd(a, b) > 0
    decreases b
  {
    if b > 0 {
      GcdPositive(b, a % b);
    }
  }

  /** It is the least common multiple: a multiple of both lengths that divides every other one. */
  lemma LcmIsLeast(outLen: nat, inLen: nat, m: int)
    requires outLen > 0 && inLen > 0
    ensures Lcm(outLen, inLen) > 0
    ensures Divides(outLen, Lcm(outLen, inLen)) && Divides(inLen, Lcm(outLen, inLen))
    ensures Divides(outLen, m) && Divides(inLen, m) ==> Divides(Lcm(outLen, inLen), m)
  {
    var n, k := outLen, inLen;
    var g := Gcd(n, k);
    GcdPositive(n, k);
    var x, y, u, v := GcdCombination(n, k);
    DivUnique(n, g, u, 0);
    var l := u * k;
    Signs(g, u, n);
    Signs(k, u, l);
    Exchange(u, g, v);
    Associate(g, u, v);
    DividesIntro(n, v);
    DividesIntro(k, u);
    if Divides(n, m) && Divides(k, m) {
      var s :| n * s == m;
      var t :| k * t == m;
      CommonMultiple(n, k, g, u, x, y, s, t, m);
      DividesIntro(l, x * t + y * s);
    }
  }

  lemma CommonMultiple(n: int, k: int, g: int, u: int, x: int, y: int, s: int, t: int, m: int)
    requires g > 0 && g * u == n && n * x + k * y == g
    requires n * s == m && k * t == m
    ensures (u * k) * (x * t + y * s) == m
  {
    calc {
      g * ((u * k) * (x * t + y * s));
    == { Associate(g, u * k, x * t + y * s); Associate(g, u, k); }
      (n * k) * (x * t + y * s);
    == { Distribute(x * t, y * s, n * k); }
      (n * k) * (x * t) + (n * k) * (y * s);
    == { Regroup(n, k, x, t); Regroup(k, n, y, s); }
      (n * x) * m + (k * y) * m;
    == { Distribute(n * x, k * y, m); }
      g * m;
    }
    Cancel(g, (u * k) * (x * t + y * s), m);
  }

  lemma Regroup(a: int, b: int, c: int, d: int)
    ensures (a * b) * (c * d) == (a * c) * (b * d) && (b * a) * (c * d) == (a * c) * (b * d)
  {
    Associate(a, b, c * d);
    Exchange(b, c, d);
    Associate(a, c, b * d);
  }

  // ------------------------------------------------------------------ the stream of rotated copies

  /** Bit `j` of a byte string, bit 0 being the top bit of the first byte. */
  function BitAt(s: bytes, j: nat): nat
    requires j / 8 < |s|
  {
    s[j / 8] / Pow2(7 - j % 8) % 2
  }

  /** Bit `j` of the input rotated right by `r` bits. */
  function RotatedBit(input: bytes, r: nat, j: nat): nat
    requires input != []
  {
    BitAt(input, (j - r) % (8 * |input|))
  }

  /** The first `t` of the eight bits of byte `k` of the rotated input, as a number. */
  function RotatedBits(input: bytes, r: nat, k: nat, t: nat): nat
    requires input != [] && t <= 8
  {
    if t == 0 then 0 else 2 * RotatedBits(input, r, k, t - 1) + RotatedBit(input, r, 8 * k + t - 1)
  }

  /** Byte `i` of the stream: its copy of the input is rotated 13 bits further than the one before. */
  function RotatedByte(input: bytes, i: nat): byte
    requires input != []
  {
    var v := RotatedBits(input, 13 * (i / |input|), i % |input|, 8);
    RotatedBitsBound(input, 13 * (i / |input|), i % |input|, 8);
    Pow2Of8();
    v
  }

  lemma {:induction false} RotatedBitsBound(input: bytes, r: nat, k: nat, t: nat)
    requires input != [] && t <= 8
    ensures RotatedBits(input, r, k, t) < Pow2(t)
  {
    if t > 0 {
      RotatedBitsBound(input, r, k, t - 1);
    }
  }

  /** The bit position the loop starts a byte at, counted from the low end. */
  function Msbit(n: nat, i: nat): (m: nat)
    requires n > 0
    ensures m < n * 8
  {
    ((n * 8 - 1) + (n * 8 + 13) * (i / n) + (n - i % n) * 8) % (n * 8)
  }

  /** The byte as the loop computes it. */
  function StreamByte(input: bytes, i: nat): byte
    requires input != []
  {
    var n := |input|;
    var msbit := Msbit(n, i);
    var hi: nat := input[(n - 1 - msbit / 8) % n];
    var lo: nat := input[(n - msbit / 8) % n];
    (hi * 256 + lo) / Pow2(msbit % 8 + 1) % 256
  }

  lemma {:induction false} Pow2Add(m: nat, n: nat)
    ensures Pow2(m + n) == Pow2(m) * Pow2(n)
  {
    if m > 0 {
      Pow2Add(m - 1, n);
      Associate(2, Pow2(m - 1), Pow2(n));
    }
  }

  lemma Pow2Zero()
    ensures Pow2(0) == 1
  {
  }

  lemma Pow2Step(n: nat)
    ensures Pow2(n + 1) == 2 * Pow2(n)
  {
  }

  /** Bit `u` of two adjacent bytes, counted from the top of the first. */
  lemma BitOfWord(hi: nat, lo: nat, u: nat)
    requires u < 16 && lo < 256
    ensures u < 8 ==> (hi * 256 + lo) / Pow2(15 - u) % 2 == hi / Pow2(7 - u) % 2
    ensures u >= 8 ==> (hi * 256 + lo) / Pow2(15 - u) % 2 == lo / Pow2(15 - u) % 2
  {
    hide Pow2;
    Pow2Of8();
    if u < 8 {
      Pow2Add(8, 7 - u);
      DivDiv(hi * 256 + lo, 256, Pow2(7 - u));
    } else {
      Pow2Add(15 - u, u - 7);
      Pow2Step(u - 8);
      LowBit(hi, lo, Pow2(15 - u), Pow2(u - 8));
    }
  }

  lemma LowBit(hi: nat, lo: nat, p: nat, half: nat)
    requires p > 0 && p * (2 * half) == 256
    ensures (hi * 256 + lo) / p % 2 == lo / p % 2
  {
    var a := half * hi;
    Associate(p, 2 * half, hi);
    Associate(2, half, hi);
    Distribute(2 * a, lo / p, p);
    DivUnique(hi * 256 + lo, p, 2 * a + lo / p, lo % p);
  }

  /** The two bytes of the cyclic input that eight bits starting at bit `s` span. */
  function Word(input: bytes, s: nat): nat
    requires s / 8 < |input|
  {
    input[s / 8] as int * 256 + input[(s / 8 + 1) % |input|]
  }

  /** Where the bit `e` places after bit `s`, going around, is: in the byte of `s` or the next one. */
  lemma Around(n: nat, s: nat, e: nat)
    requires s < 8 * n && e < 8
    ensures var j, u := (s + e) % (8 * n), s % 8 + e;
            if u < 8 then j / 8 == s / 8 && j % 8 == u else j / 8 == (s / 8 + 1) % n && j % 8 == u - 8
  {
    var b, u := s / 8, s % 8 + e;
    if u < 8 || b + 1 < n {
      DivUnique(s + e, 8 * n, 0, s + e);
      if b + 1 < n {
        DivUnique(b + 1, n, 0, b + 1);
      }
    } else {
      DivUnique(s + e, 8 * n, 1, u - 8);
      DivUnique(b + 1, n, 1, 0);
    }
  }

  lemma NextBit(input: bytes, s: nat, e: nat)
    requires input != [] && s < 8 * |input| && e < 8
    ensures BitAt(input, (s + e) % (8 * |input|)) == Word(input, s) / Pow2(15 - s % 8 - e) % 2
  {
    Around(|input|, s, e);
    BitOfWord(input[s / 8], input[(s / 8 + 1) % |input|], s % 8 + e);
  }

  lemma RotatedBitInWord(input: bytes, r: nat, k: nat, e: nat, s: nat)
    requires input != [] && e < 8 && s == (8 * k - r) % (8 * |input|)
    ensures RotatedBit(input, r, 8 * k + e) == Word(input, s) / Pow2(15 - s % 8 - e) % 2
  {
    ModShift(8 * k - r, e, 8 * |input|);
    NextBit(input, s, e);
  }

  /** Consecutive bits of the rotated input, out of the two bytes they span. */
  lemma {:induction false} BitsOfWord(input: bytes, r: nat, k: nat, t: nat, s: nat)
    requires input != [] && t <= 8 && s == (8 * k - r) % (8 * |input|)
    ensures RotatedBits(input, r, k, t) == Word(input, s) / Pow2(16 - s % 8 - t) % Pow2(t)
    decreases t
  {
    hide Pow2, Word, RotatedBit;
    if t > 0 {
      BitsOfWord(input, r, k, t - 1, s);
      RotatedBitInWord(input, r, k, t - 1, s);
      ShiftIn(Word(input, s), 16 - s % 8 - t, t - 1);
    } else {
      Pow2Zero();
    }
  }

  /** Taking one more bit of a number from the left. */
  lemma ShiftIn(w: nat, e: nat, t: nat)
    ensures w / Pow2(e) % Pow2(t + 1) == 2 * (w / Pow2(e + 1) % Pow2(t)) + w / Pow2(e) % 2
  {
    DivDiv(w, Pow2(e), 2);
    ModSplit(w / Pow2(e), Pow2(t));
  }

  lemma MsbitIsStart(n: nat, i: nat)
    requires n > 0
    ensures (8 * (i % n) - 13 * (i / n)) % (8 * n) == n * 8 - 1 - Msbit(n, i)
  {
    var bits, q, k := n * 8, i / n, i % n;
    var a := (bits - 1) + (bits + 13) * q + (n - k) * 8;
    StartOfByte(bits, q, 8 * k, a / bits, a % bits);
  }

  lemma StartOfByte(bits: nat, q: nat, start: int, z: int, msbit: nat)
    requires (bits - 1) + (bits + 13) * q + (bits - start) == bits * z + msbit && msbit < bits
    ensures (start - 13 * q) % bits == bits - 1 - msbit
  {
    Distribute(bits, 13, q);
    Distribute(q + 1, z, bits);
    Distribute(q, 1, bits);
    DivUnique(start - 13 * q, bits, q + 1 - z, bits - 1 - msbit);
  }

  /** The loop's byte is the rotated input's byte. */
  lemma StreamByteIsRotated(input: bytes, i: nat)
    requires input != []
    ensures StreamByte(input, i) == RotatedByte(input, i)
  {
    var n, msbit := |input|, Msbit(|input|, i);
    MsbitIsStart(n, i);
    var s := 8 * n - 1 - msbit;
    assert s / 8 == n - 1 - msbit / 8 && 16 - s % 8 - 8 == msbit % 8 + 1;
    DivUnique(s / 8, n, 0, s / 8);
    BitsOfWord(input, 13 * (i / n), i % n, 8, s);
    Pow2Of8();
  }

  // ------------------------------------------------------------------ the one's complement sum

  /** A sum folded into 0..m by end-around carry: only an empty sum folds to zero. */
  function Fold(sum: nat, m: nat): (v: nat)
    requires m > 0
  {
    if sum == 0 then 0 else (sum - 1) % m + 1
  }

  lemma FoldFixed(v: nat, m: nat)
    requires m > 0 && v <= m
    ensures Fold(v, m) == v
  {
    if v > 0 {
      DivUnique(v - 1, m, 0, v - 1);
    }
  }

  lemma FoldAdd(a: nat, b: nat, x: nat, m: nat)
    requires m > 0 && Fold(a, m) == Fold(b, m)
    ensures Fold(a + x, m) == Fold(b + x, m)
  {
    if a > 0 && b > 0 {
      ModShift(a - 1, x, m);
      ModShift(b - 1, x, m);
    }
  }

  /** A carry out of the top is worth one at the bottom. */
  lemma FoldWrap(v: nat, carry: nat, m: nat)
    requires m > 0
    ensures Fold(v + carry * (m + 1), m) == Fold(v + carry, m)
  {
    Distribute(m, 1, carry);
    if v + carry > 0 {
      Scale(0, m, carry);
      ModMultiple(v + carry - 1, carry, m);
    }
  }

  function Stream(input: bytes, len: nat): (s: bytes)
    requires input != []
    ensures |s| == len
  {
    seq(len, i requires 0 <= i < len => RotatedByte(input, i))
  }

  /** The sum of the first `count` chunks of `n` bytes, each read big-endian. */
  function ChunkSum(stream: bytes, n: nat, count: nat): nat
    requires count * n <= |stream|
  {
    if count == 0 then 0 else
      assert (count - 1) * n + n == count * n;
      ChunkSum(stream, n, count - 1) + Val(stream[(count - 1) * n..count * n])
  }

  /** What n-fold is, said without its loop. */
  function Folded(input: bytes, n: nat): (out: bytes)
    requires input != [] && n > 0
    ensures |out| == n
  {
    var len := Lcm(n, |input|);
    var stream := Stream(input, len);
    LcmMultiple(n, |input|);
    Be(Fold(ChunkSum(stream, n, len / n), AllOnes(n)), n)
  }

  /** The largest `n`-byte number, 256^n - 1. */
  function AllOnes(n: nat): (m: nat)
    requires n > 0
    ensures m >= 255
  {
    Pow256(n) - 1
  }

  /** Read big-endian, the result is congruent to the sum of the chunks modulo 256^n - 1, and is zero only if
      that sum is. */
  lemma FoldedIsCongruent(input: bytes, n: nat)
    requires input != [] && n > 0
    ensures Lcm(n, |input|) / n * n == Lcm(n, |input|)
    ensures var sum := ChunkSum(Stream(input, Lcm(n, |input|)), n, Lcm(n, |input|) / n);
            && Val(Folded(input, n)) % AllOnes(n) == sum % AllOnes(n)
            && (Val(Folded(input, n)) == 0 <==> sum == 0)
  {
    LcmMultiple(n, |input|);
    var sum := ChunkSum(Stream(input, Lcm(n, |input|)), n, Lcm(n, |input|) / n);
    var m := AllOnes(n);
    hide ChunkSum, Stream, Lcm, AllOnes, Pow256, Val;
    assert Pow256(n) == m + 1 by { OneLess(n); }
    ValBe(Fold(sum, m), n);
    if sum > 0 {
      ModShift(sum - 1, 1, m);
    }
  }

  lemma OneLess(n: nat)
    requires n > 0
    ensures Pow256(n) == AllOnes(n) + 1
  {
  }

  lemma LcmMultiple(n: nat, k: nat)
    requires n > 0 && k > 0
    ensures Lcm(n, k) / n * n == Lcm(n, k) && Lcm(n, k) % n == 0
  {
    LcmIsLeast(n, k, 0);
    var q :| n * q == Lcm(n, k);
    DivUnique(Lcm(n, k), n, q, 0);
  }

  // ------------------------------------------------------------------ the loop's own bookkeeping

  /** What position `i` of the stream is worth in the sum. */
  function Weight(i: nat, n: nat): nat
    requires n > 0
  {
    Pow256(n - 1 - i % n)
  }

  /** The bytes from `i` on, each at its weight. */
  function TailSum(stream: bytes, n: nat, i: nat): nat
    requires n > 0 && i <= |stream|
    decreases |stream| - i
  {
    if i == |stream| then 0 else stream[i] * Weight(i, n) + TailSum(stream, n, i + 1)
  }

  lemma TailStep(stream: bytes, n: nat, i: nat, m: nat)
    requires n > 0 && i < |stream| && i % n == n - m
    ensures TailSum(stream, n, i) == stream[i] * Pow256(m - 1) + TailSum(stream, n, i + 1)
  {
  }

  /** The tail from inside a chunk that ends at `e`: what is left of the chunk, and the tail after it. */
  lemma {:induction false} TailOfChunk(stream: bytes, n: nat, c: nat, m: nat, e: nat)
    requires n > 0 && m <= n && e == n * c + n <= |stream|
    ensures TailSum(stream, n, e - m) == Val(stream[e - m..e]) + TailSum(stream, n, e)
    decreases m
  {
    if m > 0 {
      var i := e - m;
      DivUnique(i, n, c, n - m);
      TailStep(stream, n, i, m);
      TailOfChunk(stream, n, c, m - 1, e);
      assert stream[i..e] == [stream[i]] + stream[i + 1..e];
      ValCons(stream[i], stream[i + 1..e]);
    }
  }

  lemma {:induction false} TailIsChunks(stream: bytes, n: nat, count: nat, e: nat)
    requires n > 0 && e == count * n <= |stream|
    ensures TailSum(stream, n, 0) == ChunkSum(stream, n, count) + TailSum(stream, n, e)
    decreases count
  {
    if count > 0 {
      Distribute(count - 1, 1, n);
      TailIsChunks(stream, n, count - 1, e - n);
      TailOfChunk(stream, n, count - 1, n, e);
    }
  }

  lemma {:induction false} ValUpdate(s: bytes, m: nat, b: byte)
    requires m < |s|
    ensures Val(s[m := b]) == Val(s) + (b as int - s[m]) * Pow256(|s| - 1 - m)
    decreases |s|
  {
    var n := |s| - 1;
    var t := s[m := b];
    if m == n {
      assert t[..n] == s[..n];
    } else {
      assert t[..n] == s[..n][m := b];
      ValUpdate(s[..n], m, b);
      Exchange(256, b as int - s[m], Pow256(n - 1 - m));
    }
  }

  /** Putting `sum` where `was` stood, the carry passed on to the place above: only the difference shows. */
  lemma DigitCarry(before: int, after: int, sum: int, was: int, p: int, up: int)
    requires up == 256 * p && after == before + (sum % 256 - was) * p
    ensures after + sum / 256 * up == before + sum * p - was * p
  {
    Distribute(sum % 256, was, p);
    Exchange(sum / 256, 256, p);
    Associate(256, sum / 256, p);
    Distribute(256 * (sum / 256), sum % 256, p);
  }

  /** Adding into byte `m`, worth `p`, and passing the carry on to the place above keeps the total. */
  lemma AddAtByte(s: bytes, m: nat, sum: nat, b: byte, p: nat, up: nat)
    requires m < |s| && b == sum % 256 && p == Pow256(|s| - 1 - m) && up == Pow256(|s| - m)
    ensures Val(s[m := b]) + sum / 256 * up == Val(s) + sum * p - s[m] as int * p
  {
    ValUpdate(s, m, b);
    assert up == 256 * p;
    DigitCarry(Val(s), Val(s[m := b]), sum, s[m], p, up);
  }

  /** What the carry is worth once the bytes from `i` on are done: at the first byte of a chunk it goes
      around to the last. */
  function CarryWeight(i: nat, n: nat): nat
    requires n > 0
  {
    if i % n == 0 then 1 else Pow256(n - i % n)
  }

  lemma NextCarryWeight(i: nat, n: nat)
    requires n > 0
    ensures CarryWeight(i + 1, n) == Weight(i, n)
  {
    var m := i % n;
    if m + 1 < n {
      DivUnique(i + 1, n, i / n, m + 1);
    } else {
      Distribute(i / n, 1, n);
      DivUnique(i + 1, n, i / n + 1, 0);
    }
  }

  /** One step of the loop: the folded total of buffer and carry gains the stream byte at its weight. */
  lemma StepKeepsSum(s: bytes, carry: nat, i: nat, b: nat, sum: nat, low: byte, total: nat, p: nat, up: nat)
    requires s != [] && sum == carry + b + s[i % |s|] && low == sum % 256
    requires p == Weight(i, |s|) && up == CarryWeight(i, |s|)
    requires Fold(Val(s) + carry * p, AllOnes(|s|)) == Fold(total, AllOnes(|s|))
    ensures Fold(Val(s[i % |s| := low]) + sum / 256 * up, AllOnes(|s|)) == Fold(total + b * p, AllOnes(|s|))
  {
    hide Val, Pow256, Fold;
    var m, all := i % |s|, AllOnes(|s|);
    AddAtByte(s, m, sum, low, p, Pow256(|s| - m));
    Distribute(carry + b, s[m], p);
    Distribute(carry, b, p);
    FoldAdd(Val(s) + carry * p, total, b * p, all);
    if m == 0 {
      FoldWrap(Val(s[m := low]), sum / 256, all);
    }
  }

  /** Byte by byte from the end of the stream, carrying into the byte before and from the first byte
      around to the last; then the leftover carry is added until none is left. */
  method Compute(input: bytes, outLen: nat) returns (out: bytes)
    requires input != [] && outLen > 0
    ensures out == Folded(input, outLen)
  {
    var lcm := Lcm(outLen, |input|);
    LcmMultiple(outLen, |input|);
    var a: array<byte> := new byte[outLen](_ => 0);
    ZeroVal(a[..]);
    var carry := AddStream(input, lcm, a);
    EndAround(a, carry);
    out := a[..];
    ReadsFolded(input, outLen, out);
  }

  lemma ReadsFolded(input: bytes, n: nat, out: bytes)
    requires input != [] && n == |out| > 0
    requires Val(out) == Fold(TailSum(Stream(input, Lcm(n, |input|)), n, 0), AllOnes(n))
    ensures out == Folded(input, n)
  {
    hide Val, Fold, Lcm, Stream, TailSum, ChunkSum, Be;
    var len := Lcm(n, |input|);
    LcmMultiple(n, |input|);
    TailIsChunks(Stream(input, len), n, len / n, len);
    TailEnds(Stream(input, len), n);
    BeVal(out);
  }

  /** The main loop. The carry out of a byte is never more than one. */
  method AddStream(input: bytes, lcm: nat, a: array<byte>) returns (carry: nat)
    requires input != [] && a.Length > 0 && lcm % a.Length == 0 && Val(a[..]) == 0
    modifies a
    ensures carry <= 1
    ensures Fold(Val(a[..]) + carry, AllOnes(a.Length)) == Fold(TailSum(Stream(input, lcm), a.Length, 0), AllOnes(a.Length))
  {
    hide StreamByte, Val, Pow256, Fold, Weight, CarryWeight, Stream, TailSum;
    ghost var stream, n, all := Stream(input, lcm), a.Length, AllOnes(a.Length);
    carry := 0;
    var i := lcm;
    TailEnds(stream, n);
    CarryGoesAround(n);
    while i > 0
      invariant 0 <= i <= lcm && carry <= 1
      invariant Fold(Val(a[..]) + carry * CarryWeight(i, n), all) == Fold(TailSum(stream, n, i), all)
    {
      i := i - 1;
      ghost var s: bytes, before := a[..], carry;
      var at := i % a.Length;
      var b := StreamByte(input, i);
      carry := carry + b;
      carry := carry + a[at];
      var low := carry % 256;
      NextCarryWeight(i, n);
      TailOfStream(input, lcm, n, i);
      StepKeepsSum(s, before, i, b, carry, low, TailSum(stream, n, i + 1), Weight(i, n), CarryWeight(i, n));
      a[at] := low;
      assert a[..] == s[at := low];
      carry := carry / 256;
    }
  }

  lemma TailEnds(stream: bytes, n: nat)
    requires n > 0
    ensures TailSum(stream, n, |stream|) == 0
  {
  }

  lemma CarryGoesAround(n: nat)
    requires n > 0
    ensures forall i: nat :: i % n == 0 ==> CarryWeight(i, n) == 1
    ensures CarryWeight(0, n) == 1
  {
    DivUnique(0, n, 0, 0);
  }

  lemma TailOfStream(input: bytes, len: nat, n: nat, i: nat)
    requires input != [] && n > 0 && i < len
    ensures var stream := Stream(input, len);
            TailSum(stream, n, i) == TailSum(stream, n, i + 1) + StreamByte(input, i) * Weight(i, n)
  {
    StreamByteIsRotated(input, i);
  }

  /** The leftover carry is added at the low end until none is left, which takes two rounds at most:
      only a buffer of all ones carries again, and it carries into zero. */
  method EndAround(a: array<byte>, c: nat)
    requires a.Length > 0 && c <= 1
    modifies a
    ensures Val(a[..]) == Fold(old(Val(a[..])) + c, AllOnes(a.Length))
  {
    hide Val, Fold, Pow256;
    ghost var all := AllOnes(a.Length);
    var carry := c;
    while carry != 0
      invariant carry <= 1
      invariant Fold(Val(a[..]) + carry, all) == Fold(old(Val(a[..])) + c, all)
      decreases if carry == 0 then 0 else if Val(a[..]) == all then 2 else 1
    {
      ValBound(a[..]);
      carry := AddCarry(a, carry);
      ValBound(a[..]);
      FoldWrap(Val(a[..]), carry, all);
    }
    ValBound(a[..]);
    FoldFixed(Val(a[..]), all);
  }

  lemma {:induction false} ZeroVal(s: bytes)
    requires forall k :: 0 <= k < |s| ==> s[k] == 0
    ensures Val(s) == 0
  {
    if s != [] {
      ZeroVal(s[..|s| - 1]);
    }
  }

  /** Add a carry at the last byte; the total, with the carry out of the top, is kept. */
  method AddCarry(a: array<byte>, c: nat) returns (carry: nat)
    requires a.Length > 0 && c <= 1
    modifies a
    ensures carry <= 1
    ensures Val(a[..]) + carry * Pow256(a.Length) == old(Val(a[..])) + c
  {
    carry := c;
    var k := a.Length;
    while k > 0
      invariant 0 <= k <= a.Length && carry <= 1
      invariant Val(a[..]) + carry * Pow256(a.Length - k) == old(Val(a[..])) + c
    {
      k := k - 1;
      ghost var s, before := a[..], carry;
      carry := carry + a[k];
      var low := carry % 256;
      AddAtByte(s, k, carry, low, Pow256(a.Length - 1 - k), Pow256(a.Length - k));
      Distribute(before, s[k], Pow256(a.Length - 1 - k));
      a[k] := low;
      assert a[..] == s[k := low];
      carry := carry / 256;
    }
  }
}
