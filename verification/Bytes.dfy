/** Bytes, big-endian numbers and the two failure-compatible wrappers every module uses. */
module Bytes {

  type byte = b: int | 0 <= b < 256

  type bytes = seq<byte>

  datatype Option<+T> = None | Some(value: T)

  datatype Result<+T, +E> = Ok(value: T) | Err(error: E) {
    predicate IsFailure() { Err? }

    function PropagateFailure<U>(): Result<U, E>
      requires Err?
    {
      Err(error)
    }

    function Extract(): T
      requires Ok?
    {
      value
    }
  }

  function Pow256(n: nat): (p: nat)
    ensures p >= 1
  {
    if n == 0 then 1 else 256 * Pow256(n - 1)
  }

  lemma Pow256Values()
    ensures Pow256(0) == 1 && Pow256(1) == 0x100 && Pow256(2) == 0x1_0000 && Pow256(3) == 0x100_0000
    ensures Pow256(4) == 0x1_0000_0000 && Pow256(8) == 0x1_0000_0000_0000_0000
  {
    assert Pow256(3) == 256 * Pow256(2);
    assert Pow256(4) == 256 * Pow256(3);
    assert Pow256(5) == 256 * Pow256(4);
    assert Pow256(6) == 256 * Pow256(5);
    assert Pow256(7) == 256 * Pow256(6);
  }

  lemma {:induction false} Pow256Add(m: nat, n: nat)
    ensures Pow256(m + n) == Pow256(m) * Pow256(n)
  {
    if m > 0 {
      Pow256Add(m - 1, n);
      assert 256 * (Pow256(m - 1) * Pow256(n)) == (256 * Pow256(m - 1)) * Pow256(n);
    }
  }

  /** The low `n` bytes of `v`, most significant first (Rust's `to_be_bytes`). */
  function Be(v: nat, n: nat): (s: bytes)
    ensures |s| == n
  {
    if n == 0 then [] else Be(v / 256, n - 1) + [v % 256]
  }

  /** A byte string read as a big-endian number. */
  function Val(s: bytes): nat {
    if s == [] then 0 else Val(s[..|s| - 1]) * 256 + s[|s| - 1]
  }

  lemma {:induction false} ValBound(s: bytes)
    ensures Val(s) < Pow256(|s|)
  {
    if s != [] {
      ValBound(s[..|s| - 1]);
    }
  }

  lemma {:induction false} BeVal(s: bytes)
    ensures Be(Val(s), |s|) == s
  {
    if s != [] {
      BeVal(s[..|s| - 1]);
      assert Val(s) / 256 == Val(s[..|s| - 1]);
    }
  }

  lemma {:induction false} ValBe(v: nat, n: nat)
    requires v < Pow256(n)
    ensures Val(Be(v, n)) == v
  {
    if n > 0 {
      ValBe(v / 256, n - 1);
      assert Be(v, n)[..n - 1] == Be(v / 256, n - 1);
    }
  }

  lemma {:induction false} ValAppend(a: bytes, b: bytes)
    ensures Val(a + b) == Val(a) * Pow256(|b|) + Val(b)
  {
    if b == [] {
      assert a + b == a;
    } else {
      var b' := b[..|b| - 1];
      ValAppend(a, b');
      assert (a + b)[..|a + b| - 1] == a + b';
      assert Val(a) * Pow256(|b'|) * 256 == Val(a) * Pow256(|b|);
    }
  }

  /** The first byte carries the top digit. */
  lemma ValCons(b: byte, s: bytes)
    ensures Val([b] + s) == b * Pow256(|s|) + Val(s)
  {
    hide Val, Pow256;
    ValAppend([b], s);
    ValOne(b);
  }

  lemma ValOne(b: byte)
    ensures Val([b]) == b
  {
    assert [b][..0] == [];
  }

  lemma Pow256Step(n: nat)
    ensures Pow256(n + 1) == 256 * Pow256(n)
  {
  }

  /** Bitwise exclusive or of two bytes, from the low bit up. */
  function XorBits(a: nat, b: nat, width: nat): (x: nat) {
    if width == 0 then 0 else (a + b) % 2 + 2 * XorBits(a / 2, b / 2, width - 1)
  }

  function Pow2(n: nat): (p: nat)
    ensures p >= 1
  {
    if n == 0 then 1 else 2 * Pow2(n - 1)
  }

  lemma {:induction false} XorBitsBound(a: nat, b: nat, width: nat)
    ensures XorBits(a, b, width) < Pow2(width)
  {
    if width > 0 {
      XorBitsBound(a / 2, b / 2, width - 1);
    }
  }

  lemma {:induction false} XorBitsCancels(a: nat, b: nat, width: nat)
    requires a < Pow2(width)
    ensures XorBits(XorBits(a, b, width), b, width) == a
  {
    if width > 0 {
      XorBitsCancels(a / 2, b / 2, width - 1);
      BitCancels(a, b, XorBits(a / 2, b / 2, width - 1));
    }
  }

  lemma BitCancels(a: nat, b: nat, high: nat)
    ensures var x := (a + b) % 2 + 2 * high; x / 2 == high && (x + b) % 2 == a % 2
  {
  }

  lemma {:induction false} XorBitsSymmetric(a: nat, b: nat, width: nat)
    ensures XorBits(a, b, width) == XorBits(b, a, width)
  {
    if width > 0 {
      XorBitsSymmetric(a / 2, b / 2, width - 1);
    }
  }

  lemma {:induction false} XorBitsZero(b: nat, width: nat)
    requires b < Pow2(width)
    ensures XorBits(0, b, width) == b
  {
    if width > 0 {
      XorBitsZero(b / 2, width - 1);
    }
  }

  function Xor(a: byte, b: byte): byte {
    assert Pow2(8) == 256 by { Pow2Of8(); }
    XorBitsBound(a, b, 8);
    XorBits(a, b, 8)
  }

  lemma Pow2Of8()
    ensures Pow2(8) == 256
  {
    assert Pow2(4) == 2 * Pow2(3);
    assert Pow2(8) == 2 * Pow2(7) && Pow2(7) == 2 * Pow2(6) && Pow2(6) == 2 * Pow2(5) && Pow2(5) == 2 * Pow2(4);
  }

  /** Exclusive or undoes itself, commutes and has zero as its unit. */
  lemma XorLaws(a: byte, b: byte)
    ensures Xor(Xor(a, b), b) == a
    ensures Xor(a, b) == Xor(b, a)
    ensures Xor(0, b) == b
  {
    Pow2Of8();
    XorBitsCancels(a, b, 8);
    XorBitsSymmetric(a, b, 8);
    XorBitsZero(b, 8);
  }
}
