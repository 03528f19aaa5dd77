/** The framed wire protocol: one frame's layout, and decoding a whole buffer of frames. */
module Frames {
  import opened Words
  import opened Crc32c
  import opened Checksum

  const MAGIC: u32 := 0x00C64E01
  const VERSION: u32 := 1
  const MAX_PAYLOAD: nat := 0x10_0000
  const HEADER_LEN: nat := 16
  const CRC_LEN: nat := 4

  datatype Frame = Frame(msgType: u32, payload: seq<byte>)

  datatype FrameError =
    | TruncatedHeader
    | BadMagic
    | BadVersion
    | Oversized
    | TruncatedFrame
    | ChecksumMismatch

  predicate Fits(f: Frame) { |f.payload| <= MAX_PAYLOAD }

  /** The bytes the checksum covers: type, payload length (cut to 32 bits) and payload. */
  function Covered(f: Frame): (b: seq<byte>)
    ensures |b| == 8 + |f.payload|
  {
    LE(f.msgType, 4) + LE(|f.payload| % 0x1_0000_0000, 4) + f.payload
  }

  function Preamble(): (b: seq<byte>)
    ensures |b| == 8
  {
    LE(MAGIC, 4) + LE(VERSION, 4)
  }

  function Encode(f: Frame): (b: seq<byte>)
    ensures |b| == HEADER_LEN + |f.payload| + CRC_LEN
  {
    Preamble() + Covered(f) + LE(Crc(Covered(f)), 4)
  }

  function EncodeAll(fs: seq<Frame>): seq<byte> {
    if fs == [] then [] else Encode(fs[0]) + EncodeAll(fs[1..])
  }

  /** What the front of a buffer holds. */
  datatype Scan =
    | Short(reason: FrameError)
    | Reject(error: FrameError)
    | Take(frame: Frame, size: nat)

  function ScanFrame(b: seq<byte>): (s: Scan)
    ensures s.Take? ==> s.size == HEADER_LEN + |s.frame.payload| + CRC_LEN <= |b| && Fits(s.frame)
  {
    if |b| < HEADER_LEN then Short(TruncatedHeader)
    else if FromLE(b[0..4]) != MAGIC then Reject(BadMagic)
    else if FromLE(b[4..8]) != VERSION then Reject(BadVersion)
    else
      var len := FromLE(b[12..16]);
      if len > MAX_PAYLOAD then Reject(Oversized)
      else if |b| < HEADER_LEN + len + CRC_LEN then Short(TruncatedFrame)
      else if FromLE(b[16 + len..20 + len]) != Crc(b[8..16 + len]) then Reject(ChecksumMismatch)
      else
        Pow256Values();
        Take(Frame(FromLE(b[8..12]), b[16..16 + len]), HEADER_LEN + len + CRC_LEN)
  }

  datatype Decoded = Decoded(error: Option<FrameError>, frames: seq<Frame>)

  /** Frame after frame until the buffer is used up or something is wrong. */
  function DecodeAll(b: seq<byte>): Decoded
    decreases |b|
  {
    if b == [] then Decoded(None, [])
    else match ScanFrame(b)
      case Take(f, n) =>
        var rest := DecodeAll(b[n..]);
        rest.(frames := [f] + rest.frames)
      case Short(e) => Decoded(Some(e), [])
      case Reject(e) => Decoded(Some(e), [])
  }

  // ----- One frame: encoding and scanning are inverse -----

  lemma WordRoundTrip(v: u32)
    ensures FromLE(LE(v, 4)) == v
  {
    Pow256Values();
    FromLEOfLE(v, 4);
  }

  lemma RawSlices(covered: seq<byte>, x: u32, rest: seq<byte>)
    requires |covered| >= 8
    ensures var b := Preamble() + covered + LE(x, 4) + rest;
            var n := |covered| - 8;
            && b[0..4] == LE(MAGIC, 4) && b[4..8] == LE(VERSION, 4)
            && b[8..12] == covered[..4] && b[12..16] == covered[4..8]
            && b[16..16 + n] == covered[8..] && b[16 + n..20 + n] == LE(x, 4)
            && b[8..16 + n] == covered
  {
    hide LE;
  }

  /** Any body of the declared length, behind the right preamble, is judged by its stored word alone. */
  lemma ScanOfRaw(covered: seq<byte>, x: u32, rest: seq<byte>)
    requires 8 <= |covered| <= 8 + MAX_PAYLOAD && FromLE(covered[4..8]) == |covered| - 8
    requires FromLE(covered[..4]) <= U32_MAX
    ensures ScanFrame(Preamble() + covered + LE(x, 4) + rest)
            == if x == Crc(covered)
               then Take(Frame(FromLE(covered[..4]), covered[8..]), |covered| + 12)
               else Reject(ChecksumMismatch)
  {
    hide LE, FromLE, Crc;
    RawSlices(covered, x, rest);
    WordRoundTrip(MAGIC);
    WordRoundTrip(VERSION);
    WordRoundTrip(x);
  }

  lemma CoveredFields(f: Frame)
    requires Fits(f)
    ensures FromLE(Covered(f)[..4]) == f.msgType
    ensures FromLE(Covered(f)[4..8]) == |f.payload|
    ensures Covered(f)[8..] == f.payload
  {
    hide LE, FromLE;
    WordRoundTrip(f.msgType);
    WordRoundTrip(|f.payload|);
    assert Covered(f)[..4] == LE(f.msgType, 4);
    assert Covered(f)[4..8] == LE(|f.payload|, 4);
  }

  lemma ScanOfEncode(f: Frame, rest: seq<byte>)
    requires Fits(f)
    ensures ScanFrame(Encode(f) + rest) == Take(f, |Encode(f)|)
  {
    hide LE, FromLE, Crc, ScanFrame, Covered;
    CoveredFields(f);
    ScanOfRaw(Covered(f), Crc(Covered(f)), rest);
  }

  lemma EncodeOfScan(b: seq<byte>)
    requires ScanFrame(b).Take?
    ensures var s := ScanFrame(b); b[..s.size] == Encode(s.frame)
  {
    hide LE, FromLE, Crc;
    var s := ScanFrame(b);
    var n := |s.frame.payload|;
    LEOfFromLE(b[0..4]);
    LEOfFromLE(b[4..8]);
    LEOfFromLE(b[8..12]);
    LEOfFromLE(b[12..16]);
    LEOfFromLE(b[16 + n..20 + n]);
    assert b[8..16 + n] == b[8..12] + b[12..16] + b[16..16 + n];
    assert Covered(s.frame) == b[8..16 + n];
    assert b[..s.size] == b[0..4] + b[4..8] + b[8..16 + n] + b[16 + n..20 + n];
  }

  /** A frame is taken off the front exactly when its encoding is there. */
  lemma ScanIff(b: seq<byte>, f: Frame, n: nat)
    ensures ScanFrame(b) == Take(f, n) <==> Fits(f) && n == |Encode(f)| && Encode(f) <= b
  {
    if ScanFrame(b) == Take(f, n) {
      EncodeOfScan(b);
    }
    if Fits(f) && n == |Encode(f)| && Encode(f) <= b {
      ScanOfEncode(f, b[n..]);
      assert b == Encode(f) + b[n..];
    }
  }

  /** A proper prefix of an encoded frame asks for more bytes and is never rejected. */
  lemma ScanOfPrefix(f: Frame, b: seq<byte>)
    requires Fits(f)
    requires b < Encode(f)
    ensures ScanFrame(b).Short?
  {
    hide LE, FromLE, Crc, Covered;
    if |b| >= HEADER_LEN {
      var e := Encode(f) + [];
      CoveredFields(f);
      RawSlices(Covered(f), Crc(Covered(f)), []);
      assert e == Encode(f);
      assert b[0..4] == e[0..4] && b[4..8] == e[4..8] && b[12..16] == e[12..16];
      WordRoundTrip(MAGIC);
      WordRoundTrip(VERSION);
    }
  }

  // ----- What is asked for more, and what is refused -----

  /** The first eight bytes of every frame. */
  lemma PreambleBytes()
    ensures Preamble() == [0x01, 0x4E, 0xC6, 0x00, 0x01, 0x00, 0x00, 0x00]
  {
  }

  /** The payload length a header declares, low byte first. */
  function Declared(b: seq<byte>): nat
    requires |b| >= HEADER_LEN
  {
    var w: seq<int> := b[12..16];
    w[0] + 0x100 * w[1] + 0x1_0000 * w[2] + 0x100_0000 * w[3]
  }

  lemma DeclaredIs(b: seq<byte>)
    requires |b| >= HEADER_LEN
    ensures Declared(b) == FromLE(b[12..16])
  {
    var w := b[12..16];
    assert w[1..][1..][1..][1..] == [];
    assert FromLE(w[1..][1..][1..]) == w[3];
    assert FromLE(w[1..][1..]) == w[2] + 0x100 * FromLE(w[1..][1..][1..]);
    assert FromLE(w[1..]) == w[1] + 0x100 * FromLE(w[1..][1..]);
  }

  lemma WordIs(b: seq<byte>, at: nat, v: u32)
    requires at + 4 <= |b|
    ensures FromLE(b[at..at + 4]) == v <==> b[at..at + 4] == LE(v, 4)
  {
    WordRoundTrip(v);
    LEOfFromLE(b[at..at + 4]);
  }

  /** The first of what is wrong with a whole header and what follows it, if anything is. */
  lemma ScanErrors(b: seq<byte>)
    requires |b| >= HEADER_LEN
    ensures ScanFrame(b) == Reject(BadMagic) <==> b[..4] != [0x01, 0x4E, 0xC6, 0x00]
    ensures ScanFrame(b) == Reject(BadVersion)
            <==> b[..4] == [0x01, 0x4E, 0xC6, 0x00] && b[4..8] != [0x01, 0x00, 0x00, 0x00]
    ensures ScanFrame(b) == Reject(Oversized) <==> b[..8] == Preamble() && Declared(b) > 0x10_0000
    ensures ScanFrame(b) == Short(TruncatedFrame)
            <==> b[..8] == Preamble() && Declared(b) <= 0x10_0000 && |b| < 20 + Declared(b)
    ensures ScanFrame(b) == Reject(ChecksumMismatch)
            <==> && b[..8] == Preamble() && Declared(b) <= 0x10_0000 && |b| >= 20 + Declared(b)
                 && FromLE(b[16 + Declared(b)..20 + Declared(b)]) != Crc(b[8..16 + Declared(b)])
  {
    hide LE, FromLE, Crc;
    PreambleBytes();
    DeclaredIs(b);
    WordIs(b, 0, MAGIC);
    WordIs(b, 4, VERSION);
    assert LE(MAGIC, 4) == Preamble()[..4] && LE(VERSION, 4) == Preamble()[4..];
    assert b[..8] == b[0..4] + b[4..8];
  }

  /** The buffer holds what the frame's encoding begins with, as far as they both go before the checksum. */
  ghost predicate AgreesBeforeCrc(b: seq<byte>, f: Frame) {
    forall i | 0 <= i < |b| && i < HEADER_LEN + |f.payload| :: b[i] == Encode(f)[i]
  }

  /** A frame that begins as the buffer does, the bytes that are missing filled with zeros. */
  function Completed(b: seq<byte>): Frame
    requires |b| >= HEADER_LEN
  {
    Pow256Values();
    var n := Declared(b);
    Frame(FromLE(b[8..12]), if |b| >= 16 + n then b[16..16 + n] else b[16..] + seq(16 + n - |b|, _ => 0))
  }

  lemma EncodeBytes(f: Frame, i: nat)
    requires Fits(f) && i < HEADER_LEN + |f.payload|
    ensures Encode(f)[i] == if i < 8 then Preamble()[i]
                            else if i < 12 then LE(f.msgType, 4)[i - 8]
                            else if i < 16 then LE(|f.payload|, 4)[i - 12] else f.payload[i - 16]
  {
    hide LE, Crc, Preamble;
  }

  lemma CompletedAgrees(b: seq<byte>)
    requires |b| >= HEADER_LEN && b[..8] == Preamble() && Declared(b) <= MAX_PAYLOAD
    ensures Fits(Completed(b)) && |Completed(b).payload| == Declared(b) && AgreesBeforeCrc(b, Completed(b))
  {
    hide LE, FromLE, Encode, Preamble;
    var f := Completed(b);
    DeclaredIs(b);
    LEOfFromLE(b[8..12]);
    LEOfFromLE(b[12..16]);
    forall i | 0 <= i < |b| && i < HEADER_LEN + |f.payload|
      ensures b[i] == Encode(f)[i]
    {
      EncodeBytes(f, i);
    }
  }

  lemma AgreeingHeader(b: seq<byte>, f: Frame)
    requires |b| >= HEADER_LEN && Fits(f) && AgreesBeforeCrc(b, f)
    ensures b[..8] == Preamble() && Declared(b) == |f.payload|
  {
    hide LE, FromLE, Encode, Preamble;
    forall i | 0 <= i < 16
      ensures b[i] == if i < 8 then Preamble()[i] else if i < 12 then LE(f.msgType, 4)[i - 8]
                      else LE(|f.payload|, 4)[i - 12]
    {
      EncodeBytes(f, i);
    }
    assert b[12..16] == LE(|f.payload|, 4);
    DeclaredIs(b);
    WordRoundTrip(|f.payload|);
  }

  /**
   With a whole header there, a scan asks for more exactly when some frame that fits has an encoding longer
   than the buffer and begins, up to its checksum, as the buffer does.
   */
  lemma ScanShortIff(b: seq<byte>)
    requires |b| >= HEADER_LEN
    ensures ScanFrame(b).Short? <==> exists f :: Fits(f) && |b| < |Encode(f)| && AgreesBeforeCrc(b, f)
  {
    hide ScanFrame, Encode, Preamble, AgreesBeforeCrc, Declared, Completed;
    ScanErrors(b);
    ScanIsOne(b);
    if ScanFrame(b).Short? {
      CompletedAgrees(b);
    }
    if f :| Fits(f) && |b| < |Encode(f)| && AgreesBeforeCrc(b, f) {
      AgreeingHeader(b, f);
    }
  }

  lemma ScanIsOne(b: seq<byte>)
    ensures |b| < HEADER_LEN <==> ScanFrame(b) == Short(TruncatedHeader)
    ensures ScanFrame(b).Short? ==> ScanFrame(b).reason in {TruncatedHeader, TruncatedFrame}
  {
    hide FromLE, Crc;
  }

  // ----- Whole buffers -----

  lemma DecodeStep(f: Frame, tail: seq<byte>)
    requires Fits(f)
    ensures var rest := DecodeAll(tail);
            DecodeAll(Encode(f) + tail) == rest.(frames := [f] + rest.frames)
  {
    hide ScanFrame, Encode;
    ScanOfEncode(f, tail);
    assert (Encode(f) + tail)[|Encode(f)|..] == tail;
  }

  /** decode_frames accepts exactly the encodings of frame lists, and returns that list. */
  lemma {:induction false} DecodeIff(b: seq<byte>, fs: seq<Frame>)
    ensures DecodeAll(b) == Decoded(None, fs)
            <==> b == EncodeAll(fs) && forall f :: f in fs ==> Fits(f)
    decreases |b|
  {
    hide ScanFrame, Encode;
    if b == [] {
      assert fs != [] ==> |EncodeAll(fs)| > 0;
    } else {
      match ScanFrame(b)
      case Take(f, n) => {
        ScanIff(b, f, n);
        assert b == Encode(f) + b[n..];
        if fs != [] {
          DecodeIff(b[n..], fs[1..]);
          assert fs == [fs[0]] + fs[1..];
          if b == EncodeAll(fs) && forall g :: g in fs ==> Fits(g) {
            ScanOfEncode(fs[0], EncodeAll(fs[1..]));
          }
        }
      }
      case _ => {
        if fs != [] && Fits(fs[0]) && b == EncodeAll(fs) {
          ScanOfEncode(fs[0], EncodeAll(fs[1..]));
        }
      }
    }
  }

  lemma {:induction false} DecodeAllAppend(fs: seq<Frame>, rest: seq<byte>)
    requires forall f :: f in fs ==> Fits(f)
    ensures DecodeAll(EncodeAll(fs) + rest).frames == fs + DecodeAll(rest).frames
  {
    hide DecodeAll, Encode;
    if fs == [] {
      assert EncodeAll(fs) + rest == rest;
    } else {
      var tail := EncodeAll(fs[1..]) + rest;
      DecodeStep(fs[0], tail);
      assert EncodeAll(fs) + rest == Encode(fs[0]) + tail;
      DecodeAllAppend(fs[1..], rest);
      assert fs == [fs[0]] + fs[1..];
    }
  }

  /** On failure too: what was decoded first is a prefix of the buffer, and the rest cannot be scanned. */
  lemma {:induction false} DecodePrefix(b: seq<byte>)
    ensures var d := DecodeAll(b);
            var done := EncodeAll(d.frames);
            && done <= b && (forall f :: f in d.frames ==> Fits(f))
            && (d.error == None <==> done == b)
            && (d.error.Some? ==> ScanFrame(b[|done|..]) in {Short(d.error.value), Reject(d.error.value)})
    decreases |b|
  {
    hide ScanFrame, Encode;
    if b != [] && ScanFrame(b).Take? {
      var s := ScanFrame(b);
      var rest := b[s.size..];
      EncodeOfScan(b);
      DecodePrefix(rest);
      var d := DecodeAll(rest);
      assert b == Encode(s.frame) + rest;
      assert DecodeAll(b).frames[1..] == d.frames;
      assert EncodeAll(DecodeAll(b).frames) == Encode(s.frame) + EncodeAll(d.frames);
      assert b[|Encode(s.frame) + EncodeAll(d.frames)|..] == rest[|EncodeAll(d.frames)|..];
    }
  }

  lemma {:induction false} EncodeAllAppend(a: seq<Frame>, b: seq<Frame>)
    ensures EncodeAll(a + b) == EncodeAll(a) + EncodeAll(b)
  {
    if a == [] {
      assert a + b == b;
    } else {
      assert (a + b)[1..] == a[1..] + b;
      EncodeAllAppend(a[1..], b);
    }
  }

  // ----- Damage -----

  /**
   Damage that leaves the length field alone and touches at most 32 consecutive bits of the type, the
   payload and the stored checksum is reported as a checksum mismatch, never decoded.
   */
  lemma DamagedFrameRejected(f: Frame, covered: seq<byte>, x: u32, rest: seq<byte>,
                             pre: seq<bool>, w1: seq<bool>, w2: seq<bool>, post: seq<bool>)
    requires Fits(f)
    requires |covered| == |Covered(f)| && covered[4..8] == Covered(f)[4..8]
    requires MessageBits(Covered(f) + LE(Crc(Covered(f)), 4)) == pre + w1 + post
    requires MessageBits(covered + LE(x, 4)) == pre + w2 + post
    requires |w1| == |w2| <= 32 && w1 != w2
    ensures ScanFrame(Preamble() + covered + LE(x, 4) + rest) == Reject(ChecksumMismatch)
  {
    hide LE, FromLE, Crc, ScanFrame, Covered, MessageBits;
    CoveredFields(f);
    CodewordBurstDetected(Covered(f), Crc(Covered(f)), covered, x, pre, w1, w2, post);
    Pow256Values();
    assert FromLE(covered[..4]) <= U32_MAX;
    ScanOfRaw(covered, x, rest);
  }

  // ----- The program's loops -----

  method PushU32(out: seq<byte>, v: u32) returns (grown: seq<byte>)
    ensures grown == out + LE(v, 4)
  {
    grown := out;
    for i := 0 to 4
      invariant grown == out + LE(v, 4)[..i]
    {
      LEAt(v, 4, i);
      grown := grown + [(v / Pow256(i)) % 256];
    }
  }

  method EncodeFrame(table: array<u32>, msgType: u32, payload: seq<byte>) returns (out: seq<byte>)
    requires IsTable(table[..])
    ensures out == Encode(Frame(msgType, payload))
  {
    hide LE, Crc, IsTable;
    var len := |payload|;
    out := PushU32([], MAGIC);
    out := PushU32(out, VERSION);
    out := PushU32(out, msgType);
    out := PushU32(out, len % 0x1_0000_0000);
    out := out + payload;
    assert out == Preamble() + Covered(Frame(msgType, payload));
    assert out[8..8 + HEADER_LEN - 8 + len] == Covered(Frame(msgType, payload));
    var crc := ComputeCrc(table, out[8..8 + HEADER_LEN - 8 + len]);
    out := PushU32(out, crc);
  }

  /** Four bytes put back together, as the parsing loops do. */
  method ReadU32(b: seq<byte>, at: nat) returns (v: u32)
    requires at + 4 <= |b|
    ensures v == FromLE(b[at..at + 4])
  {
    Pow256Values();
    v := 0;
    for i := 0 to 4
      invariant v == FromLE(b[at..at + i])
    {
      FromLEAppend(b[at..at + i], b[at + i]);
      assert b[at..at + i + 1] == b[at..at + i] + [b[at + i]];
      assert FromLE(b[at..at + i + 1]) < Pow256(i + 1) <= Pow256(4);
      v := v + b[at + i] * Pow256(i);
    }
  }

  datatype Header = Header(version: u32, msgType: u32, len: u32)

  method ParseHeader(h: seq<byte>) returns (header: Option<Header>)
    requires |h| >= HEADER_LEN
    ensures header == if FromLE(h[0..4]) != MAGIC then None
                      else Some(Header(FromLE(h[4..8]), FromLE(h[8..12]), FromLE(h[12..16])))
  {
    var magic := ReadU32(h, 0);
    if magic != MAGIC {
      return None;
    }
    var version := ReadU32(h, 4);
    var msgType := ReadU32(h, 8);
    var len := ReadU32(h, 12);
    return Some(Header(version, msgType, len));
  }

  /** The checks made on the front of a buffer, in the program's order. */
  method ScanBytes(table: array<u32>, b: seq<byte>) returns (s: Scan)
    requires IsTable(table[..])
    ensures s == ScanFrame(b)
  {
    hide FromLE, Crc, IsTable;
    if |b| < HEADER_LEN {
      return Short(TruncatedHeader);
    }
    var header := ParseHeader(b);
    if header == None {
      return Reject(BadMagic);
    }
    var Header(version, msgType, len) := header.value;
    if version != VERSION {
      return Reject(BadVersion);
    }
    if len > MAX_PAYLOAD {
      return Reject(Oversized);
    }
    var need := HEADER_LEN + len + CRC_LEN;
    if |b| < need {
      return Short(TruncatedFrame);
    }
    var crc := ReadU32(b, HEADER_LEN + len);
    var expected := ComputeCrc(table, b[8..HEADER_LEN + len]);
    if crc != expected {
      return Reject(ChecksumMismatch);
    }
    return Take(Frame(msgType, b[HEADER_LEN..HEADER_LEN + len]), need);
  }

  method DecodeFrames(table: array<u32>, data: seq<byte>)
    returns (error: Option<FrameError>, out: seq<Frame>)
    requires IsTable(table[..])
    ensures Decoded(error, out) == DecodeAll(data)
  {
    hide ScanFrame, IsTable;
    var pos := 0;
    out := [];
    while pos < |data|
      invariant pos <= |data|
      invariant DecodeAll(data)
                == Decoded(DecodeAll(data[pos..]).error, out + DecodeAll(data[pos..]).frames)
      decreases |data| - pos
    {
      ghost var b := data[pos..];
      var s := ScanBytes(table, data[pos..]);
      match s
      case Short(e) => return Some(e), out;
      case Reject(e) => return Some(e), out;
      case Take(f, need) =>
        assert data[pos + need..] == b[need..];
        assert out + ([f] + DecodeAll(b[need..]).frames) == (out + [f]) + DecodeAll(b[need..]).frames;
        out := out + [f];
        pos := pos + need;
    }
    return None, out;
  }
}
