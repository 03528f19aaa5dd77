/** The checksum of nine known bytes, worked out bit by bit: the polynomial and the conventions are the right ones. */
module CrcCheck {
  import opened Words
  import opened BitXor
  import opened Crc32c

  // ----- Numbers by their bits, the low one first -----

  datatype Register = End | Bit(low: bool, rest: Register)

  function Number(r: Register): nat {
    match r
    case End => 0
    case Bit(b, rest) => (if b then 1 else 0) + 2 * Number(rest)
  }

  function Lows(r: Register): (bits: seq<bool>) {
    match r
    case End => []
    case Bit(b, rest) => [b] + Lows(rest)
  }

  function Sum(a: Register, b: Register): Register {
    match (a, b)
    case (Bit(x, s), Bit(y, t)) => Bit(x != y, Sum(s, t))
    case _ => End
  }

  /** The same number with one more bit on top, which is not set. */
  function Padded(r: Register): Register {
    match r
    case End => Bit(false, End)
    case Bit(b, rest) => Bit(b, Padded(rest))
  }

  lemma {:induction false} SumIsXor(a: Register, b: Register)
    requires |Lows(a)| == |Lows(b)|
    ensures Number(Sum(a, b)) == Xor(Number(a), Number(b))
  {
    if a.Bit? && b.Bit? {
      SumIsXor(a.rest, b.rest);
      XorBit(a.low, b.low, Number(a.rest), Number(b.rest));
    }
  }

  lemma XorBit(x: bool, y: bool, m: nat, n: nat)
    ensures Xor((if x then 1 else 0) + 2 * m, (if y then 1 else 0) + 2 * n) == (if x != y then 1 else 0) + 2 * Xor(m, n)
  {
    XorUnfold((if x then 1 else 0) + 2 * m, (if y then 1 else 0) + 2 * n);
  }

  lemma {:induction false} PaddedIsSame(r: Register)
    ensures Number(Padded(r)) == Number(r) && |Lows(Padded(r))| == |Lows(r)| + 1
  {
    if r.Bit? {
      PaddedIsSame(r.rest);
    }
  }

  lemma {:induction false} BitsAreLows(r: Register)
    ensures Bits(Number(r), |Lows(r)|) == Lows(r)
  {
    if r.Bit? {
      BitsAreLows(r.rest);
      assert Number(r) / 2 == Number(r.rest);
    }
  }

  // ----- Eight bits at a time -----

  datatype Oct = Oct(b0: bool, b1: bool, b2: bool, b3: bool, b4: bool, b5: bool, b6: bool, b7: bool)

  function One(b: bool): nat { if b then 1 else 0 }

  function OctValue(o: Oct): nat {
    One(o.b0) + 2 * One(o.b1) + 4 * One(o.b2) + 8 * One(o.b3) + 16 * One(o.b4) + 32 * One(o.b5) + 64 * One(o.b6)
    + 128 * One(o.b7)
  }

  function OctList(o: Oct): seq<bool> { [o.b0, o.b1, o.b2, o.b3, o.b4, o.b5, o.b6, o.b7] }

  function Upper(o: Oct, rest: Register): Register { Bit(o.b4, Bit(o.b5, Bit(o.b6, Bit(o.b7, rest)))) }

  function Prefix(o: Oct, rest: Register): Register { Bit(o.b0, Bit(o.b1, Bit(o.b2, Bit(o.b3, Upper(o, rest))))) }

  function XorOct(a: Oct, b: Oct): Oct {
    Oct(a.b0 != b.b0, a.b1 != b.b1, a.b2 != b.b2, a.b3 != b.b3, a.b4 != b.b4, a.b5 != b.b5, a.b6 != b.b6, a.b7 != b.b7)
  }

  lemma UpperNumber(o: Oct, s: Register)
    ensures Number(Upper(o, s)) == One(o.b4) + 2 * One(o.b5) + 4 * One(o.b6) + 8 * One(o.b7) + 16 * Number(s)
  {
    var r3 := Bit(o.b7, s);
    var r2 := Bit(o.b6, r3);
    assert Number(r3) == One(o.b7) + 2 * Number(s);
    assert Number(r2) == One(o.b6) + 2 * Number(r3);
    assert Number(Bit(o.b5, r2)) == One(o.b5) + 2 * Number(r2);
  }

  lemma PrefixNumber(o: Oct, s: Register)
    ensures Number(Prefix(o, s)) == OctValue(o) + 0x100 * Number(s)
  {
    hide Upper;
    UpperNumber(o, s);
    var r3 := Bit(o.b3, Upper(o, s));
    var r2 := Bit(o.b2, r3);
    assert Number(r3) == One(o.b3) + 2 * Number(Upper(o, s));
    assert Number(r2) == One(o.b2) + 2 * Number(r3);
    assert Number(Bit(o.b1, r2)) == One(o.b1) + 2 * Number(r2);
  }

  lemma PrefixLows(o: Oct, s: Register)
    ensures Lows(Prefix(o, s)) == OctList(o) + Lows(s)
  {
    hide Upper, Lows, OctList;
    LowsTwo(o.b2, o.b3, Upper(o, s));
    LowsTwo(o.b0, o.b1, Bit(o.b2, Bit(o.b3, Upper(o, s))));
    UpperLows(o, s);
    Joined(o, Lows(s));
  }

  lemma Joined(o: Oct, t: seq<bool>)
    ensures [o.b0, o.b1] + ([o.b2, o.b3] + ([o.b4, o.b5, o.b6, o.b7] + t)) == OctList(o) + t
  {
  }

  lemma UpperLows(o: Oct, s: Register)
    ensures Lows(Upper(o, s)) == [o.b4, o.b5, o.b6, o.b7] + Lows(s)
  {
    hide Lows;
    LowsTwo(o.b6, o.b7, s);
    LowsTwo(o.b4, o.b5, Bit(o.b6, Bit(o.b7, s)));
  }

  lemma LowsTwo(a: bool, b: bool, s: Register)
    ensures Lows(Bit(a, Bit(b, s))) == [a, b] + Lows(s)
  {
    assert Lows(Bit(b, s)) == [b] + Lows(s);
  }

  lemma PrefixPadded(o: Oct, s: Register)
    ensures Padded(Prefix(o, s)) == Prefix(o, Padded(s))
  {
    assert Padded(Bit(o.b6, Bit(o.b7, s))) == Bit(o.b6, Bit(o.b7, Padded(s)));
    assert Padded(Upper(o, s)) == Upper(o, Padded(s));
    assert Padded(Bit(o.b2, Bit(o.b3, Upper(o, s)))) == Bit(o.b2, Bit(o.b3, Upper(o, Padded(s))));
  }

  lemma UpperSum(a: Oct, b: Oct, s: Register, t: Register)
    ensures Sum(Upper(a, s), Upper(b, t)) == Upper(XorOct(a, b), Sum(s, t))
  {
    assert Sum(Bit(a.b6, Bit(a.b7, s)), Bit(b.b6, Bit(b.b7, t))) == Bit(a.b6 != b.b6, Bit(a.b7 != b.b7, Sum(s, t)));
  }

  lemma PrefixSum(a: Oct, b: Oct, s: Register, t: Register)
    ensures Sum(Prefix(a, s), Prefix(b, t)) == Prefix(XorOct(a, b), Sum(s, t))
  {
    hide Upper;
    UpperSum(a, b, s, t);
    var x, y := Upper(a, s), Upper(b, t);
    assert Sum(Bit(a.b2, Bit(a.b3, x)), Bit(b.b2, Bit(b.b3, y))) == Bit(a.b2 != b.b2, Bit(a.b3 != b.b3, Sum(x, y)));
  }

  // ----- The register -----

  /** Thirty-two bits, the low eight first. */
  datatype Reg = Reg(o0: Oct, o1: Oct, o2: Oct, o3: Oct)

  function List(r: Reg): Register { Prefix(r.o0, Prefix(r.o1, Prefix(r.o2, Prefix(r.o3, End)))) }

  function XorReg(a: Reg, b: Reg): Reg {
    Reg(XorOct(a.o0, b.o0), XorOct(a.o1, b.o1), XorOct(a.o2, b.o2), XorOct(a.o3, b.o3))
  }

  /** One place down; the top bit is not set. */
  function Shifted(r: Reg): Reg {
    Reg(Oct(r.o0.b1, r.o0.b2, r.o0.b3, r.o0.b4, r.o0.b5, r.o0.b6, r.o0.b7, r.o1.b0),
        Oct(r.o1.b1, r.o1.b2, r.o1.b3, r.o1.b4, r.o1.b5, r.o1.b6, r.o1.b7, r.o2.b0),
        Oct(r.o2.b1, r.o2.b2, r.o2.b3, r.o2.b4, r.o2.b5, r.o2.b6, r.o2.b7, r.o3.b0),
        Oct(r.o3.b1, r.o3.b2, r.o3.b3, r.o3.b4, r.o3.b5, r.o3.b6, r.o3.b7, false))
  }

  lemma ListIs(r: Reg)
    ensures Number(List(r))
            == OctValue(r.o0) + 0x100 * OctValue(r.o1) + 0x1_0000 * OctValue(r.o2) + 0x100_0000 * OctValue(r.o3)
  {
    hide Prefix, OctValue, OctList;
    var s3 := Prefix(r.o3, End);
    var s2 := Prefix(r.o2, s3);
    var s1 := Prefix(r.o1, s2);
    PrefixNumber(r.o3, End);
    PrefixNumber(r.o2, s3);
    PrefixNumber(r.o1, s2);
    PrefixNumber(r.o0, s1);
  }

  lemma ListLength(r: Reg)
    ensures |Lows(List(r))| == 32
  {
    hide Prefix;
    var s3 := Prefix(r.o3, End);
    var s2 := Prefix(r.o2, s3);
    var s1 := Prefix(r.o1, s2);
    PrefixLows(r.o3, End);
    PrefixLows(r.o2, s3);
    PrefixLows(r.o1, s2);
    PrefixLows(r.o0, s1);
  }

  lemma ListPadded(r: Reg)
    ensures Padded(List(r)) == Prefix(r.o0, Prefix(r.o1, Prefix(r.o2, Prefix(r.o3, Padded(End)))))
  {
    hide Prefix;
    var s3 := Prefix(r.o3, End);
    var s2 := Prefix(r.o2, s3);
    PrefixPadded(r.o3, End);
    PrefixPadded(r.o2, s3);
    PrefixPadded(r.o1, s2);
    PrefixPadded(r.o0, Prefix(r.o1, s2));
  }

  lemma ListXor(a: Reg, b: Reg)
    ensures List(XorReg(a, b)) == Sum(List(a), List(b))
  {
    hide Prefix, XorOct;
    PrefixSum(a.o3, b.o3, End, End);
    PrefixSum(a.o2, b.o2, Prefix(a.o3, End), Prefix(b.o3, End));
    PrefixSum(a.o1, b.o1, Prefix(a.o2, Prefix(a.o3, End)), Prefix(b.o2, Prefix(b.o3, End)));
    PrefixSum(a.o0, b.o0, Prefix(a.o1, Prefix(a.o2, Prefix(a.o3, End))),
              Prefix(b.o1, Prefix(b.o2, Prefix(b.o3, End))));
  }

  lemma ListShift(r: Reg)
    ensures List(r).Bit? && List(r).low == r.o0.b0 && List(Shifted(r)) == Padded(List(r).rest)
  {
    ListPadded(r);
    assert Padded(List(r)) == Bit(List(r).low, Padded(List(r).rest));
  }

  lemma LowIsOdd(r: Register)
    requires r.Bit?
    ensures Number(r) % 2 == (if r.low then 1 else 0) && Number(r) / 2 == Number(r.rest)
  {
  }

  function Polynomial(): Reg {
    Reg(Oct(false, false, false, true, true, true, true, false),
        Oct(true, true, false, true, true, true, false, false),
        Oct(false, true, true, false, true, true, true, true),
        Oct(false, true, false, false, false, false, false, true))
  }

  lemma PolynomialIs()
    ensures Number(List(Polynomial())) == POLY
  {
    hide List;
    ListIs(Polynomial());
  }

  /** The register after one message bit. */
  function Feed(r: Reg, bit: bool): Reg {
    if r.o0.b0 != bit then XorReg(Polynomial(), Shifted(r)) else Shifted(r)
  }

  lemma FeedIsStep(r: Reg, bit: bool)
    ensures Number(List(r)) <= U32_MAX && Number(List(Feed(r, bit))) <= U32_MAX
    ensures Number(List(Feed(r, bit))) == BitStep(Number(List(r)), bit)
  {
    hide List, Polynomial, Shifted, XorReg, Xor32, Xor, Sum, Padded, OctValue, Lows, Number;
    InRange(r);
    InRange(Shifted(r));
    InRange(Feed(r, bit));
    PolynomialIs();
    ListShift(r);
    LowIsOdd(List(r));
    PaddedIsSame(List(r).rest);
    ListXor(Polynomial(), Shifted(r));
    ListLength(Polynomial());
    ListLength(Shifted(r));
    SumIsXor(List(Polynomial()), List(Shifted(r)));
    XorIs(POLY, Number(List(Shifted(r))));
  }

  lemma XorIs(a: u32, b: u32)
    ensures Xor32(a, b) == Xor(a, b)
  {
  }

  lemma InRange(r: Reg)
    ensures Number(List(r)) <= U32_MAX
  {
    hide List;
    ListIs(r);
  }

  // ----- Bytes -----

  function FeedOct(r: Reg, o: Oct): Reg {
    Feed(Feed(Feed(Feed(Feed(Feed(Feed(Feed(r, o.b0), o.b1), o.b2), o.b3), o.b4), o.b5), o.b6), o.b7)
  }

  lemma OctBits(o: Oct)
    ensures OctValue(o) < 0x100 && Bits(OctValue(o), 8) == OctList(o)
  {
    hide Prefix, Bits;
    PrefixNumber(o, End);
    PrefixLows(o, End);
    BitsAreLows(Prefix(o, End));
    assert OctList(o) + [] == OctList(o) && |OctList(o)| == 8;
  }

  /** What feeding bits, one after the other, comes to. */
  function FeedAll(r: Reg, bits: seq<bool>): Reg
    decreases |bits|
  {
    if bits == [] then r else FeedAll(Feed(r, bits[0]), bits[1..])
  }

  lemma {:induction false} FeedAllIs(r: Reg, bits: seq<bool>)
    ensures Number(List(r)) <= U32_MAX && Number(List(FeedAll(r, bits))) <= U32_MAX
    ensures Reference(Number(List(r)), bits) == Number(List(FeedAll(r, bits)))
    decreases |bits|
  {
    hide List, Feed, BitStep;
    InRange(r);
    if bits != [] {
      FeedIsStep(r, bits[0]);
      FeedAllIs(Feed(r, bits[0]), bits[1..]);
    }
  }

  lemma {:induction false} FeedAllAppend(r: Reg, s: seq<bool>, t: seq<bool>)
    ensures FeedAll(r, s + t) == FeedAll(FeedAll(r, s), t)
    decreases |s|
  {
    hide Feed;
    if s == [] {
      assert s + t == t;
    } else {
      assert (s + t)[1..] == s[1..] + t;
      FeedAllAppend(Feed(r, s[0]), s[1..], t);
    }
  }

  lemma FeedsOct(r: Reg, o: Oct)
    ensures FeedAll(r, OctList(o)) == FeedOct(r, o)
  {
    hide Feed;
    var s := OctList(o);
    assert FeedAll(r, s) == FeedAll(Feed(r, o.b0), s[1..]);
    FeedTwo(Feed(r, o.b0), s[1..]);
    FeedTwo(Feed(Feed(Feed(r, o.b0), o.b1), o.b2), s[3..]);
    FeedTwo(Feed(Feed(Feed(Feed(Feed(r, o.b0), o.b1), o.b2), o.b3), o.b4), s[5..]);
    assert s[1..][2..] == s[3..] && s[3..][2..] == s[5..] && s[5..][2..] == s[7..] && s[7..] == [o.b7];
  }

  lemma FeedTwo(r: Reg, s: seq<bool>)
    requires |s| >= 2
    ensures FeedAll(r, s) == FeedAll(Feed(Feed(r, s[0]), s[1]), s[2..])
  {
    hide Feed;
    assert s[1..][1..] == s[2..];
  }

  // ----- The nine bytes -----

  /** The characters from '1' to '9'. */
  function Digit(k: nat): Oct
    requires 1 <= k <= 9
  {
    Oct(k in {1, 3, 5, 7, 9}, k in {2, 3, 6, 7}, k in {4, 5, 6, 7}, k in {8, 9}, true, true, false, false)
  }

  /** The register before the digit k. */
  function Before(k: nat): Reg
    requires 1 <= k <= 10
  {
    match k
    case 1 => Reg(Oct(true, true, true, true, true, true, true, true),
                  Oct(true, true, true, true, true, true, true, true),
                  Oct(true, true, true, true, true, true, true, true),
                  Oct(true, true, true, true, true, true, true, true))
    case 2 => Reg(Oct(false, false, true, true, true, false, false, false),
                  Oct(false, true, true, false, false, true, true, false),
                  Oct(false, true, false, true, false, false, false, false),
                  Oct(true, true, true, true, false, true, true, false))
    case 3 => Reg(Oct(true, true, true, true, true, false, false, true),
                  Oct(true, true, false, true, true, true, false, false),
                  Oct(false, true, false, true, false, true, false, true),
                  Oct(false, false, true, true, false, false, false, true))
    case 4 => Reg(Oct(true, false, true, true, false, false, true, false),
                  Oct(false, false, false, false, true, false, true, true),
                  Oct(false, false, true, false, false, false, false, true),
                  Oct(true, true, true, true, false, true, true, true))
    case 5 => Reg(Oct(true, false, false, false, true, false, false, false),
                  Oct(true, true, false, true, false, false, false, false),
                  Oct(true, false, true, false, false, false, true, true),
                  Oct(true, false, false, true, false, false, false, false))
    case 6 => Reg(Oct(false, true, false, true, false, false, true, true),
                  Oct(false, false, true, true, true, false, true, true),
                  Oct(false, true, true, true, false, true, false, false),
                  Oct(true, true, true, false, false, true, true, true))
    case 7 => Reg(Oct(true, false, false, true, true, true, true, false),
                  Oct(false, true, true, true, false, false, false, true),
                  Oct(false, true, false, true, false, false, true, true),
                  Oct(false, true, true, true, true, true, false, true))
    case 8 => Reg(Oct(true, false, true, false, true, false, false, false),
                  Oct(false, false, false, true, false, true, true, false),
                  Oct(true, false, true, true, true, true, false, true),
                  Oct(true, false, true, true, false, true, true, true))
    case 9 => Reg(Oct(true, false, true, false, false, true, true, false),
                  Oct(true, true, true, true, true, true, true, false),
                  Oct(false, false, false, true, true, true, true, false),
                  Oct(true, true, true, true, true, false, false, true))
    case _ => Reg(Oct(false, false, true, true, true, true, true, false),
                  Oct(true, false, true, true, false, true, true, false),
                  Oct(true, false, false, true, true, true, true, true),
                  Oct(false, false, true, true, true, false, false, false))
  }

  lemma FedOne()
    ensures FeedOct(Before(1), Digit(1)) == Before(2)
  {
    var d := Digit(1);
    var half := Reg(Oct(true, false, true, false, false, true, true, true),
                    Oct(true, true, true, false, true, false, true, false),
                    Oct(true, true, true, true, false, false, true, true),
                    Oct(false, false, true, true, false, true, true, true));
    assert Feed(Feed(Feed(Feed(Before(1), d.b0), d.b1), d.b2), d.b3) == half;
    assert Feed(Feed(Feed(Feed(half, d.b4), d.b5), d.b6), d.b7) == Before(2);
  }

  lemma FedTwo()
    ensures FeedOct(Before(2), Digit(2)) == Before(3)
  {
    var d := Digit(2);
    var half := Reg(Oct(true, true, false, true, true, true, true, false),
                    Oct(false, true, true, true, false, false, false, false),
                    Oct(false, false, false, false, false, false, true, true),
                    Oct(true, false, true, false, false, true, true, true));
    assert Feed(Feed(Feed(Feed(Before(2), d.b0), d.b1), d.b2), d.b3) == half;
    assert Feed(Feed(Feed(Feed(half, d.b4), d.b5), d.b6), d.b7) == Before(3);
  }

  lemma FedThree()
    ensures FeedOct(Before(3), Digit(3)) == Before(4)
  {
    var d := Digit(3);
    var half := Reg(Oct(true, false, true, true, true, true, true, false),
                    Oct(true, false, true, false, false, false, false, true),
                    Oct(true, true, true, false, false, false, true, false),
                    Oct(true, true, false, true, false, false, true, true));
    assert Feed(Feed(Feed(Feed(Before(3), d.b0), d.b1), d.b2), d.b3) == half;
    assert Feed(Feed(Feed(Feed(half, d.b4), d.b5), d.b6), d.b7) == Before(4);
  }

  lemma FedFour()
    ensures FeedOct(Before(4), Digit(4)) == Before(5)
  {
    var d := Digit(4);
    var half := Reg(Oct(true, true, false, false, true, false, false, false),
                    Oct(true, false, false, false, true, true, false, true),
                    Oct(false, false, false, false, true, false, true, false),
                    Oct(false, false, true, true, true, false, false, true));
    assert Feed(Feed(Feed(Feed(Before(4), d.b0), d.b1), d.b2), d.b3) == half;
    assert Feed(Feed(Feed(Feed(half, d.b4), d.b5), d.b6), d.b7) == Before(5);
  }

  lemma FedFive()
    ensures FeedOct(Before(5), Digit(5)) == Before(6)
  {
    var d := Digit(5);
    var half := Reg(Oct(true, false, true, true, false, false, false, false),
                    Oct(true, false, true, true, false, false, true, false),
                    Oct(true, true, true, false, false, true, true, true),
                    Oct(true, false, false, false, false, false, true, false));
    assert Feed(Feed(Feed(Feed(Before(5), d.b0), d.b1), d.b2), d.b3) == half;
    assert Feed(Feed(Feed(Feed(half, d.b4), d.b5), d.b6), d.b7) == Before(6);
  }

  lemma FedSix()
    ensures FeedOct(Before(6), Digit(6)) == Before(7)
  {
    var d := Digit(6);
    var half := Reg(Oct(false, false, false, true, false, false, false, false),
                    Oct(true, true, false, true, false, false, true, true),
                    Oct(true, true, true, true, true, true, true, true),
                    Oct(true, false, true, true, false, false, true, true));
    assert Feed(Feed(Feed(Feed(Before(6), d.b0), d.b1), d.b2), d.b3) == half;
    assert Feed(Feed(Feed(Feed(half, d.b4), d.b5), d.b6), d.b7) == Before(7);
  }

  lemma FedSeven()
    ensures FeedOct(Before(7), Digit(7)) == Before(8)
  {
    var d := Digit(7);
    var half := Reg(Oct(true, false, true, true, true, true, true, true),
                    Oct(false, false, false, false, false, false, false, false),
                    Oct(false, false, true, true, true, false, true, true),
                    Oct(false, false, false, true, false, true, true, true));
    assert Feed(Feed(Feed(Feed(Before(7), d.b0), d.b1), d.b2), d.b3) == half;
    assert Feed(Feed(Feed(Feed(half, d.b4), d.b5), d.b6), d.b7) == Before(8);
  }

  lemma FedEight()
    ensures FeedOct(Before(8), Digit(8)) == Before(9)
  {
    var d := Digit(8);
    var half := Reg(Oct(false, true, false, true, false, true, false, false),
                    Oct(true, true, true, false, true, true, false, false),
                    Oct(false, false, false, true, false, false, false, false),
                    Oct(true, false, true, true, true, false, true, true));
    assert Feed(Feed(Feed(Feed(Before(8), d.b0), d.b1), d.b2), d.b3) == half;
    assert Feed(Feed(Feed(Feed(half, d.b4), d.b5), d.b6), d.b7) == Before(9);
  }

  lemma FedNine()
    ensures FeedOct(Before(9), Digit(9)) == Before(10)
  {
    var d := Digit(9);
    var half := Reg(Oct(false, true, false, false, true, true, false, false),
                    Oct(true, false, false, false, false, true, false, true),
                    Oct(false, true, false, true, true, true, true, false),
                    Oct(false, true, false, true, false, false, true, true));
    assert Feed(Feed(Feed(Feed(Before(9), d.b0), d.b1), d.b2), d.b3) == half;
    assert Feed(Feed(Feed(Feed(half, d.b4), d.b5), d.b6), d.b7) == Before(10);
  }

  lemma DigitFed(k: nat)
    requires 1 <= k <= 9
    ensures FeedOct(Before(k), Digit(k)) == Before(k + 1) && OctValue(Digit(k)) == 0x30 + k
  {
    hide Before, FeedOct;
    FedOne();
    FedTwo();
    FedThree();
    FedFour();
    FedFive();
    FedSix();
    FedSeven();
    FedEight();
    FedNine();
  }

  lemma Ends()
    ensures Number(List(Before(1))) == U32_MAX && Number(List(Before(10))) == U32_MAX - 0xE306_9283
  {
    hide List;
    ListIs(Before(1));
    ListIs(Before(10));
  }

  /** The digits from k on. */
  function Digits(k: nat): (b: seq<byte>)
    requires 1 <= k <= 10
    decreases 10 - k
  {
    if k == 10 then [] else [0x30 + k] + Digits(k + 1)
  }

  lemma {:induction false} DigitsFed(k: nat)
    requires 1 <= k <= 10
    ensures FeedAll(Before(k), MessageBits(Digits(k))) == Before(10)
    decreases 10 - k
  {
    hide Before, FeedOct, Digit, OctValue, OctList, FeedAll;
    if k < 10 {
      DigitFed(k);
      OctBits(Digit(k));
      assert Digits(k)[1..] == Digits(k + 1);
      FeedsOct(Before(k), Digit(k));
      FeedAllAppend(Before(k), OctList(Digit(k)), MessageBits(Digits(k + 1)));
      DigitsFed(k + 1);
    } else {
      NothingFed(Before(10));
    }
  }

  lemma NothingFed(r: Reg)
    ensures FeedAll(r, MessageBits([])) == r
  {
  }

  lemma DigitsAre()
    ensures Digits(1) == [0x31, 0x32, 0x33, 0x34, 0x35, 0x36, 0x37, 0x38, 0x39]
  {
    assert Digits(9) == [0x39] + Digits(10);
    assert Digits(8) == [0x38] + Digits(9);
    assert Digits(7) == [0x37] + Digits(8);
    assert Digits(6) == [0x36] + Digits(7);
    assert Digits(5) == [0x35] + Digits(6);
    assert Digits(4) == [0x34] + Digits(5);
    assert Digits(3) == [0x33] + Digits(4);
    assert Digits(2) == [0x32] + Digits(3);
  }

  /** "123456789" has the checksum published for CRC-32C. */
  lemma CheckValue()
    ensures Crc([0x31, 0x32, 0x33, 0x34, 0x35, 0x36, 0x37, 0x38, 0x39]) == 0xE306_9283
  {
    hide List, Before, Update, Reference, MessageBits, FeedAll, Digits;
    DigitsAre();
    DigitsFed(1);
    Ends();
    TableDrivenIsBitwise(U32_MAX, Digits(1));
    FeedAllIs(Before(1), MessageBits(Digits(1)));
  }
}
