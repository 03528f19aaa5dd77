/**
 CRC-32C (section 12.1 of RFC 3720). `Reference` is the register that takes one message bit at a
 time, low bit first; `Update` is the byte-at-a-time form that looks its steps up in a table.
 */
module Crc32c {
  import opened Words
  import opened BitXor

  const POLY: u32 := 0x82F63B78

  function Step(c: u32): u32 {
    if c % 2 == 1 then Xor32(POLY, c / 2) else c / 2
  }

  function Steps(c: u32, k: nat): u32
    decreases k
  {
    if k == 0 then c else Steps(Step(c), k - 1)
  }

  function BitStep(c: u32, bit: bool): u32 {
    if (c % 2 == 1) != bit then Xor32(POLY, c / 2) else c / 2
  }

  function Reference(c: u32, bits: seq<bool>): u32
    decreases |bits|
  {
    if bits == [] then c else Reference(BitStep(c, bits[0]), bits[1..])
  }

  /** The n low bits of v, least significant first. */
  function Bits(v: nat, n: nat): (b: seq<bool>)
    ensures |b| == n
  {
    if n == 0 then [] else [v % 2 == 1] + Bits(v / 2, n - 1)
  }

  function MessageBits(data: seq<byte>): (b: seq<bool>)
    ensures |b| == 8 * |data|
  {
    if data == [] then [] else Bits(data[0], 8) + MessageBits(data[1..])
  }

  function TableEntry(i: byte): u32 { Steps(i, 8) }

  function UpdateByte(c: u32, b: byte): u32 {
    Xor32(TableEntry(Xor32(c, b) % 256), c / 256)
  }

  function Update(c: u32, data: seq<byte>): u32
    decreases |data|
  {
    if data == [] then c else Update(UpdateByte(c, data[0]), data[1..])
  }

  function Crc(data: seq<byte>): u32 {
    U32_MAX - Update(U32_MAX, data)
  }

  // ----- The step is linear and one-to-one -----

  lemma StepLinear(a: u32, b: u32)
    ensures Step(Xor32(a, b)) == Xor32(Step(a), Step(b))
  {
    var p, x, y := POLY, a / 2, b / 2;
    XorUnfold(a, b);
    if a % 2 == 1 && b % 2 == 1 {
      XorInterchange(p, x, p, y);
      XorSelf(p);
      XorZero(Xor(x, y));
    } else if a % 2 == 1 {
      XorAssociates(p, x, y);
    } else if b % 2 == 1 {
      XorAssociates(p, x, y);
      XorCommutes(p, x);
      XorAssociates(x, p, y);
    }
  }

  lemma {:induction false} StepsLinear(a: u32, b: u32, k: nat)
    ensures Steps(Xor32(a, b), k) == Xor32(Steps(a, k), Steps(b, k))
    decreases k
  {
    if k > 0 {
      StepLinear(a, b);
      StepsLinear(Step(a), Step(b), k - 1);
    }
  }

  /** Only zero steps to zero, because the polynomial's top bit is set. */
  lemma StepKernel(x: u32)
    requires Step(x) == 0
    ensures x == 0
  {
    if x % 2 == 1 {
      Pow2Values();
      XorHighBit(POLY - Pow2(31), x / 2, 31);
    }
  }

  lemma StepInjective(a: u32, b: u32)
    requires Step(a) == Step(b)
    ensures a == b
  {
    StepLinear(a, b);
    XorSelf(Step(a));
    StepKernel(Xor32(a, b));
    XorSelf(a);
    XorCancels(a, b, a);
  }

  lemma {:induction false} StepsInjective(a: u32, b: u32, k: nat)
    requires Steps(a, k) == Steps(b, k)
    ensures a == b
    decreases k
  {
    if k > 0 {
      StepsInjective(Step(a), Step(b), k - 1);
      StepInjective(a, b);
    }
  }

  lemma Doubling(q: nat, k: nat)
    requires k > 0
    ensures q * Pow2(k) == 2 * (q * Pow2(k - 1))
  {
  }

  /** Zero low bits are shifted out unchanged. */
  lemma {:induction false} StepsShift(q: nat, k: nat)
    requires q * Pow2(k) < 0x1_0000_0000
    ensures Steps(q * Pow2(k), k) == q
    decreases k
  {
    if k > 0 {
      var half := q * Pow2(k - 1);
      Doubling(q, k);
      assert Step(2 * half) == half;
      StepsShift(q, k - 1);
    }
  }

  // ----- Bits and bytes -----

  /** Feeding the k bits of p is the same as adding p to the register and stepping k times. */
  lemma {:induction false} BitsAreSteps(c: u32, p: u32, k: nat)
    requires p < Pow2(k)
    ensures Reference(c, Bits(p, k)) == Steps(Xor32(c, p), k)
    decreases k
  {
    if k == 0 {
      XorZero(c);
    } else {
      var d := BitStep(c, p % 2 == 1);
      assert Bits(p, k)[1..] == Bits(p / 2, k - 1);
      BitsAreSteps(d, p / 2, k - 1);
      XorUnfold(c, p);
      XorAssociates(POLY, c / 2, p / 2);
      assert Step(Xor32(c, p)) == Xor32(d, p / 2);
    }
  }

  lemma {:induction false} ReferenceAppend(c: u32, a: seq<bool>, b: seq<bool>)
    ensures Reference(c, a + b) == Reference(Reference(c, a), b)
    decreases |a|
  {
    if a == [] {
      assert a + b == b;
    } else {
      assert (a + b)[1..] == a[1..] + b;
      ReferenceAppend(BitStep(c, a[0]), a[1..], b);
    }
  }

  lemma {:induction false} ReferenceInjective(a: u32, b: u32, bits: seq<bool>)
    requires Reference(a, bits) == Reference(b, bits)
    ensures a == b
    decreases |bits|
  {
    if bits != [] {
      ReferenceInjective(BitStep(a, bits[0]), BitStep(b, bits[0]), bits[1..]);
      Pow2Values();
      var p := if bits[0] then 1 else 0;
      assert Pow2(1) == 2;
      OneBit(a, bits[0], p);
      OneBit(b, bits[0], p);
      StepInjective(Xor32(a, p), Xor32(b, p));
      XorCommutes(a, p);
      XorCommutes(b, p);
      XorCancels(p, a, b);
    }
  }

  lemma OneBit(c: u32, bit: bool, p: u32)
    requires p == if bit then 1 else 0
    ensures BitStep(c, bit) == Step(Xor32(c, p))
  {
    XorUnfold(c, p);
    XorZero(c / 2);
  }

  lemma XorHighPart(c: u32, b: byte)
    ensures Xor32(c, b) / 256 == c / 256
  {
    XorShift(c, b, 8);
    ShrEight(Xor(c, b));
    ShrEight(c);
    ShrEight(b);
    XorZero(c / 256);
  }

  /** One table lookup does the work of eight bit steps. */
  lemma ByteIsEightBits(c: u32, b: byte)
    ensures UpdateByte(c, b) == Reference(c, Bits(b, 8))
  {
    Pow2Values();
    var x := Xor32(c, b);
    var lo, q := x % 256, x / 256;
    BitsAreSteps(c, b, 8);
    XorDisjoint(lo, q, 8);
    StepsLinear(lo, q * 256, 8);
    StepsShift(q, 8);
    XorHighPart(c, b);
  }

  /** The table-driven register is the bit-at-a-time register, for every message. */
  lemma {:induction false} TableDrivenIsBitwise(c: u32, data: seq<byte>)
    ensures Update(c, data) == Reference(c, MessageBits(data))
    decreases |data|
  {
    if data != [] {
      ByteIsEightBits(c, data[0]);
      TableDrivenIsBitwise(UpdateByte(c, data[0]), data[1..]);
      ReferenceAppend(c, Bits(data[0], 8), MessageBits(data[1..]));
    }
  }

  /** Updating with two pieces in turn is updating with their concatenation. */
  lemma {:induction false} UpdateComposes(c: u32, a: seq<byte>, b: seq<byte>)
    ensures Update(c, a + b) == Update(Update(c, a), b)
    decreases |a|
  {
    if a == [] {
      assert a + b == b;
    } else {
      assert (a + b)[1..] == a[1..] + b;
      UpdateComposes(UpdateByte(c, a[0]), a[1..], b);
    }
  }

  lemma UpdateNext(c: u32, data: seq<byte>, i: nat)
    requires i < |data|
    ensures Update(c, data[..i + 1]) == UpdateByte(Update(c, data[..i]), data[i])
  {
    var r := Update(c, data[..i]);
    assert data[..i + 1] == data[..i] + [data[i]];
    UpdateComposes(c, data[..i], [data[i]]);
    assert Update(r, [data[i]]) == Update(UpdateByte(r, data[i]), []);
  }

  // ----- Packing bits back into numbers -----

  function Pack(w: seq<bool>): (p: nat)
    ensures p < Pow2(|w|)
  {
    if w == [] then 0 else (if w[0] then 1 else 0) + 2 * Pack(w[1..])
  }

  lemma {:induction false} BitsOfPack(w: seq<bool>)
    ensures Bits(Pack(w), |w|) == w
  {
    if w != [] {
      BitsOfPack(w[1..]);
      assert Pack(w) / 2 == Pack(w[1..]);
    }
  }

  lemma {:induction false} Pow2Monotone(a: nat, b: nat)
    requires a <= b
    ensures Pow2(a) <= Pow2(b)
    decreases b
  {
    if a < b { Pow2Monotone(a, b - 1); }
  }

  /**
   Burst detection: two messages that differ only inside a window of at most 32 consecutive bits,
   wherever it starts, never have the same register.
   */
  lemma BurstDetected(c: u32, pre: seq<bool>, w1: seq<bool>, w2: seq<bool>, post: seq<bool>)
    requires |w1| == |w2| <= 32
    requires w1 != w2
    ensures Reference(c, pre + w1 + post) != Reference(c, pre + w2 + post)
  {
    var k := |w1|;
    var r := Reference(c, pre);
    Pow2Values();
    Pow2Monotone(k, 32);
    forall w | w == w1 || w == w2
      ensures Reference(c, pre + w + post) == Reference(Steps(Xor32(r, Pack(w)), k), post)
    {
      ReferenceAppend(c, pre + w, post);
      ReferenceAppend(c, pre, w);
      BitsOfPack(w);
      BitsAreSteps(r, Pack(w), k);
    }
    var x1, x2 := Xor32(r, Pack(w1)), Xor32(r, Pack(w2));
    if Reference(c, pre + w1 + post) == Reference(c, pre + w2 + post) {
      ReferenceInjective(Steps(x1, k), Steps(x2, k), post);
      StepsInjective(x1, x2, k);
      XorCancels(r, Pack(w1), Pack(w2));
      BitsOfPack(w1);
      BitsOfPack(w2);
      assert false;
    }
  }

  lemma {:induction false} MessageBitsAppend(a: seq<byte>, b: seq<byte>)
    ensures MessageBits(a + b) == MessageBits(a) + MessageBits(b)
  {
    if a == [] {
      assert a + b == b;
    } else {
      assert (a + b)[1..] == a[1..] + b;
      MessageBitsAppend(a[1..], b);
    }
  }

  lemma {:induction false} BitsInjective(a: nat, b: nat, n: nat)
    requires a < Pow2(n) && b < Pow2(n)
    requires Bits(a, n) == Bits(b, n)
    ensures a == b
    decreases n
  {
    if n > 0 {
      assert Bits(a, n)[0] == Bits(b, n)[0];
      assert Bits(a, n)[1..] == Bits(a / 2, n - 1) && Bits(b, n)[1..] == Bits(b / 2, n - 1);
      BitsInjective(a / 2, b / 2, n - 1);
    }
  }

  lemma {:induction false} MessageBitsInjective(a: seq<byte>, b: seq<byte>)
    requires |a| == |b|
    requires MessageBits(a) == MessageBits(b)
    ensures a == b
  {
    if a != [] {
      assert MessageBits(a)[..8] == Bits(a[0], 8) && MessageBits(b)[..8] == Bits(b[0], 8);
      assert MessageBits(a)[8..] == MessageBits(a[1..]) && MessageBits(b)[8..] == MessageBits(b[1..]);
      Pow2Values();
      BitsInjective(a[0], b[0], 8);
      MessageBitsInjective(a[1..], b[1..]);
      assert a == [a[0]] + a[1..] && b == [b[0]] + b[1..];
    }
  }

  /** The byte form: equal-length messages that differ only within four consecutive bytes. */
  lemma FourByteDamageDetected(p: seq<byte>, u1: seq<byte>, u2: seq<byte>, s: seq<byte>)
    requires |u1| == |u2| <= 4
    requires u1 != u2
    ensures Crc(p + u1 + s) != Crc(p + u2 + s)
  {
    forall u | u == u1 || u == u2
      ensures Update(U32_MAX, p + u + s)
              == Reference(U32_MAX, MessageBits(p) + MessageBits(u) + MessageBits(s))
    {
      TableDrivenIsBitwise(U32_MAX, p + u + s);
      MessageBitsAppend(p + u, s);
      MessageBitsAppend(p, u);
    }
    if MessageBits(u1) == MessageBits(u2) {
      MessageBitsInjective(u1, u2);
    }
    BurstDetected(U32_MAX, MessageBits(p), MessageBits(u1), MessageBits(u2), MessageBits(s));
  }

  // ----- The stored checksum as part of the code word -----

  lemma {:induction false} XorOnes(c: nat, k: nat)
    requires c < Pow2(k)
    ensures Xor(c, Pow2(k) - 1) == Pow2(k) - 1 - c
  {
    if k == 0 {
      XorZero(c);
    } else {
      XorOnes(c / 2, k - 1);
      XorUnfold(c, Pow2(k) - 1);
      assert (Pow2(k) - 1) / 2 == Pow2(k - 1) - 1;
    }
  }

  lemma {:induction false} BitsConcat(v: nat, m: nat, n: nat)
    ensures Bits(v, m + n) == Bits(v, m) + Bits(Shr(v, m), n)
    decreases m
  {
    if m > 0 {
      BitsConcat(v / 2, m - 1, n);
    }
  }

  lemma {:induction false} LowBits(v: nat, n: nat)
    ensures Bits(v % Pow2(n), n) == Bits(v, n)
    decreases n
  {
    if n > 0 {
      HalfThenShift(v, Pow2(n - 1));
      LowBits(v / 2, n - 1);
    }
  }

  lemma {:induction false} MessageBitsOfLE(v: nat, n: nat)
    ensures MessageBits(LE(v, n)) == Bits(v, 8 * n)
    decreases n
  {
    if n > 0 {
      assert LE(v, n)[1..] == LE(v / 256, n - 1);
      MessageBitsOfLE(v / 256, n - 1);
      LowBits(v, 8);
      Pow2Values();
      BitsConcat(v, 8, 8 * (n - 1));
      ShrEight(v);
    }
  }

  /** What the register holds after a message and its own checksum, whatever the message. */
  const RESIDUE: u32 := Steps(U32_MAX, 32)

  /** A stored word is the checksum of a message exactly when the register ends at RESIDUE. */
  lemma ChecksumIffResidue(msg: seq<byte>, x: u32)
    ensures x == Crc(msg) <==> Update(U32_MAX, msg + LE(x, 4)) == RESIDUE
  {
    var r := Update(U32_MAX, msg);
    WordIsSteps(r, x);
    UpdateComposes(U32_MAX, msg, LE(x, 4));
    ComplementIsXor(r, x);
    if Steps(Xor32(r, x), 32) == RESIDUE {
      StepsInjective(Xor32(r, x), U32_MAX, 32);
    }
  }

  lemma WordIsSteps(r: u32, x: u32)
    ensures Update(r, LE(x, 4)) == Steps(Xor32(r, x), 32)
  {
    Pow2Values();
    TableDrivenIsBitwise(r, LE(x, 4));
    MessageBitsOfLE(x, 4);
    BitsAreSteps(r, x, 32);
  }

  lemma ComplementIsXor(r: u32, x: u32)
    ensures Xor32(r, x) == U32_MAX <==> x == U32_MAX - r
  {
    Pow2Values();
    XorOnes(r, 32);
    XorAssociates(r, r, U32_MAX);
    XorSelf(r);
    XorZero(U32_MAX);
    if Xor32(r, x) == U32_MAX {
      XorCancels(r, x, U32_MAX - r);
    }
  }

  /**
   A damaged code word is always caught: if a message with its correct checksum, and another message
   with the word stored behind it, differ in at most 32 consecutive bits, which may lie in the
   checksum itself or run across the boundary, then the second word is not the second checksum.
   */
  lemma CodewordBurstDetected(m1: seq<byte>, x1: u32, m2: seq<byte>, x2: u32,
                              pre: seq<bool>, w1: seq<bool>, w2: seq<bool>, post: seq<bool>)
    requires x1 == Crc(m1)
    requires MessageBits(m1 + LE(x1, 4)) == pre + w1 + post
    requires MessageBits(m2 + LE(x2, 4)) == pre + w2 + post
    requires |w1| == |w2| <= 32 && w1 != w2
    ensures x2 != Crc(m2)
  {
    ChecksumIffResidue(m1, x1);
    ChecksumIffResidue(m2, x2);
    TableDrivenIsBitwise(U32_MAX, m1 + LE(x1, 4));
    TableDrivenIsBitwise(U32_MAX, m2 + LE(x2, 4));
    BurstDetected(U32_MAX, pre, w1, w2, post);
  }
}
