/** The 32-bit FNV-1a hash over the bytes of a string. */
module Fnv {
  type Byte = x: int | 0 <= x < 256

  const MODULUS: nat := 0x1_0000_0000
  const OFFSET: nat := 0x811c_9dc5
  const PRIME: nat := 0x0100_0193

  /** Bitwise exclusive or. */
  function Xor(x: nat, y: nat): nat {
    if x == 0 && y == 0 then 0 else 2 * Xor(x / 2, y / 2) + (x + y) % 2
  }

  /** One byte: exclusive or into the state, then a wrapping multiplication. */
  function Step(h: nat, b: Byte): nat {
    Xor(h, b) * PRIME % MODULUS
  }

  function HashFrom(h: nat, data: seq<Byte>): nat
    decreases |data|
  {
    if data == [] then h else HashFrom(Step(h, data[0]), data[1..])
  }

  function Hash(data: seq<Byte>): nat {
    HashFrom(OFFSET, data)
  }

  /** `fnv1a_32` as the loop over bytes that it is; the state stays a 32-bit number. */
  method Fnv1a(data: seq<Byte>) returns (hash: nat)
    ensures hash == Hash(data) && hash < MODULUS
  {
    hash := OFFSET;
    var i := 0;
    while i < |data|
      invariant i <= |data| && hash < MODULUS
      invariant HashFrom(hash, data[i..]) == Hash(data)
    {
      assert data[i..][1..] == data[i + 1..];
      hash := Xor(hash, data[i]);
      hash := hash * PRIME % MODULUS;
      i := i + 1;
    }
  }

  lemma HalfAndBit(a: nat, p: nat)
    requires p < 2
    ensures (2 * a + p) / 2 == a && (2 * a + p) % 2 == p
  {
  }

  /** The recursion of `Xor`, on numbers given by their halves and low bits. */
  lemma XorOfHalves(a: nat, p: nat, b: nat, q: nat)
    requires p < 2 && q < 2
    ensures Xor(2 * a + p, 2 * b + q) == 2 * Xor(a, b) + (p + q) % 2
  {
    HalfAndBit(a, p);
    HalfAndBit(b, q);
    assert (2 * a + p + (2 * b + q)) % 2 == (p + q) % 2 by {
      if p + q < 2 { HalfAndBit(a + b, p + q); } else { HalfAndBit(a + b + 1, 0); }
    }
    if 2 * a + p == 0 && 2 * b + q == 0 { assert Xor(a, b) == 0; }
  }

  lemma {:induction false} XorUndone(x: nat, y: nat)
    ensures Xor(Xor(x, y), y) == x
    decreases x + y
  {
    if x != 0 || y != 0 {
      hide Xor;
      var a, p, b, q := x / 2, x % 2, y / 2, y % 2;
      assert x == 2 * a + p && y == 2 * b + q;
      assert ((p + q) % 2 + q) % 2 == p;
      XorOfHalves(a, p, b, q);
      XorOfHalves(Xor(a, b), (p + q) % 2, b, q);
      XorUndone(a, b);
    }
  }

  lemma {:induction false} XorCommutes(x: nat, y: nat)
    ensures Xor(x, y) == Xor(y, x)
    decreases x + y
  {
    if x != 0 || y != 0 { XorCommutes(x / 2, y / 2); }
  }

  /** A 32-bit state stays 32 bits wide under exclusive or with a byte. */
  lemma {:induction false} XorFits(x: nat, y: nat, bound: nat, k: nat)
    requires x < bound && y < bound && bound == Pow2(k)
    ensures Xor(x, y) < bound
    decreases k
  {
    if k > 0 && (x != 0 || y != 0) { XorFits(x / 2, y / 2, bound / 2, k - 1); }
  }

  function Pow2(k: nat): nat { if k == 0 then 1 else 2 * Pow2(k - 1) }

  /** The prime is odd, so multiplying by it modulo 2^32 can be undone. */
  lemma MultiplicationIsInjective(x: nat, y: nat)
    requires x < MODULUS && y < MODULUS && x * PRIME % MODULUS == y * PRIME % MODULUS
    ensures x == y
  {
    var p, q := x * PRIME / MODULUS, y * PRIME / MODULUS;
    assert (x - y) * PRIME == (p - q) * MODULUS;
    assert x - y == ((p - q) * 0x359c_449b - (x - y) * 3513497) * MODULUS;
  }

  lemma XorWithByteFits(h: nat, b: Byte)
    requires h < MODULUS
    ensures Xor(h, b) < MODULUS
  {
    assert Pow2(2) == 4 && Pow2(4) == 16 && Pow2(6) == 64 && Pow2(8) == 256 && Pow2(12) == 0x1000 && Pow2(16) == 0x1_0000;
    assert Pow2(20) == 0x10_0000 && Pow2(24) == 0x100_0000 && Pow2(28) == 0x1000_0000;
    XorFits(h, b, MODULUS, 32);
  }

  /** For a fixed byte a step is a bijection on the 32-bit states: different states stay different. */
  lemma StepIsInjective(h: nat, g: nat, b: Byte)
    requires h < MODULUS && g < MODULUS && Step(h, b) == Step(g, b)
    ensures h == g
  {
    XorWithByteFits(h, b);
    XorWithByteFits(g, b);
    MultiplicationIsInjective(Xor(h, b), Xor(g, b));
    XorUndone(h, b);
    XorUndone(g, b);
  }

  /** And for a fixed state different bytes give different states. */
  lemma ByteMatters(h: nat, b: Byte, c: Byte)
    requires h < MODULUS && Step(h, b) == Step(h, c)
    ensures b == c
  {
    XorWithByteFits(h, b);
    XorWithByteFits(h, c);
    MultiplicationIsInjective(Xor(h, b), Xor(h, c));
    XorCommutes(h, b);
    XorCommutes(h, c);
    XorUndone(b, h);
    XorUndone(c, h);
  }

  lemma {:induction false} HashFromIsInjective(h: nat, g: nat, data: seq<Byte>)
    requires h < MODULUS && g < MODULUS && h != g
    ensures HashFrom(h, data) != HashFrom(g, data)
    decreases |data|
  {
    if data != [] {
      if Step(h, data[0]) == Step(g, data[0]) { StepIsInjective(h, g, data[0]); }
      HashFromIsInjective(Step(h, data[0]), Step(g, data[0]), data[1..]);
    }
  }

  lemma {:induction false} HashFromSplits(h: nat, a: seq<Byte>, b: seq<Byte>)
    requires h < MODULUS
    ensures HashFrom(h, a) < MODULUS
    ensures HashFrom(h, a + b) == HashFrom(HashFrom(h, a), b)
    decreases |a|
  {
    if a == [] {
      assert a + b == b;
    } else {
      assert (a + b)[1..] == a[1..] + b;
      HashFromSplits(Step(h, a[0]), a[1..], b);
    }
  }

  /** Two inputs of one length that differ in exactly one byte never collide, at any position and length. */
  lemma OneByteNeverCollides(front: seq<Byte>, b: Byte, c: Byte, back: seq<Byte>)
    requires b != c
    ensures Hash(front + [b] + back) != Hash(front + [c] + back)
  {
    var h := HashFrom(OFFSET, front);
    HashFromSplits(OFFSET, front, [b] + back);
    HashFromSplits(OFFSET, front, [c] + back);
    assert front + [b] + back == front + ([b] + back);
    assert front + [c] + back == front + ([c] + back);
    HashFromSplits(h, [b], back);
    HashFromSplits(h, [c], back);
    if Step(h, b) == Step(h, c) { ByteMatters(h, b, c); }
    HashFromIsInjective(Step(h, b), Step(h, c), back);
    assert HashFrom(h, [b]) == Step(h, b) && HashFrom(h, [c]) == Step(h, c);
  }
}
