/**
 Receiving frames from a byte stream. What the socket's recv will return is a list of chunks, an empty
 one standing for a call that fails this once, followed by a lasting end (orderly close or failure). A
 non-blocking call reads one chunk at most.
 */
module Connection {
  import opened Words
  import opened Checksum
  import opened Frames

  const MAX_CHUNK: nat := 4096
  const MAX_BUFFER: nat := MAX_PAYLOAD + HEADER_LEN + CRC_LEN

  datatype End = Closed | Broken

  datatype ReceiveError =
    | Malformed(error: FrameError)
    | PeerClosed
    | PeerClosedMidFrame
    | RecvFailed
    | OversizedBuffer
    | NoCompleteFrame

  datatype Outcome = Delivered(frame: Frame) | Failed(error: ReceiveError)

  /** Bytes buffered, and the chunks the socket has yet to hand over. */
  datatype Stream = Stream(rbuf: seq<byte>, chunks: seq<seq<byte>>)

  predicate ChunksOk(chunks: seq<seq<byte>>) {
    forall c :: c in chunks ==> 1 <= |c| <= MAX_CHUNK
  }

  function Flatten(chunks: seq<seq<byte>>): seq<byte> {
    if chunks == [] then [] else chunks[0] + Flatten(chunks[1..])
  }

  /** Everything still to be decoded. */
  function Pending(s: Stream): seq<byte> { s.rbuf + Flatten(s.chunks) }

  function ReceiveOne(s: Stream, end: End, blocking: bool): (Outcome, Stream)
    decreases |s.chunks|
  {
    match ScanFrame(s.rbuf)
    case Take(f, n) => (Delivered(f), s.(rbuf := s.rbuf[n..]))
    case Reject(e) => (Failed(Malformed(e)), s)
    case Short(_) =>
      if s.chunks == [] then
        (Failed(if end.Broken? then RecvFailed
                else if s.rbuf == [] then PeerClosed else PeerClosedMidFrame), s)
      else if s.chunks[0] == [] then (Failed(RecvFailed), s.(chunks := s.chunks[1..]))
      else
        var grown := Stream(s.rbuf + s.chunks[0], s.chunks[1..]);
        if |grown.rbuf| > MAX_BUFFER then (Failed(OversizedBuffer), grown)
        else if !blocking then (Failed(NoCompleteFrame), grown)
        else ReceiveOne(grown, end, blocking)
  }

  function FrameBytes(o: Outcome): seq<byte> {
    if o.Delivered? then Encode(o.frame) else []
  }

  /** A series of calls, each blocking or not; failed calls deliver nothing. */
  function ReceiveMany(s: Stream, end: End, calls: seq<bool>): (seq<Frame>, Stream)
    decreases |calls|
  {
    if calls == [] then ([], s)
    else
      var (o, s1) := ReceiveOne(s, end, calls[0]);
      var (fs, s2) := ReceiveMany(s1, end, calls[1..]);
      (if o.Delivered? then [o.frame] + fs else fs, s2)
  }

  // ----- Nothing is lost or made up, whatever the peer sends -----

  /** Every byte is in the delivered frame's encoding, in the buffer, or still to come. */
  lemma {:induction false} ReceiveConserves(s: Stream, end: End, blocking: bool)
    ensures var (o, t) := ReceiveOne(s, end, blocking);
            && Pending(s) == FrameBytes(o) + Pending(t)
            && (o.Delivered? ==> Fits(o.frame))
    decreases |s.chunks|
  {
    hide ScanFrame, Encode;
    match ScanFrame(s.rbuf)
    case Take(f, n) => {
      ScanIff(s.rbuf, f, n);
      assert s.rbuf == Encode(f) + s.rbuf[n..];
    }
    case Reject(_) => {}
    case Short(_) => {
      if s.chunks != [] {
        var grown := Stream(s.rbuf + s.chunks[0], s.chunks[1..]);
        assert Pending(grown) == Pending(s);
        if s.chunks[0] == [] {
          assert grown == s.(chunks := s.chunks[1..]);
        } else {
          ReceiveConserves(grown, end, blocking);
        }
      }
    }
  }

  /** The same over any series of blocking and non-blocking calls. */
  lemma {:induction false} StreamConserves(s: Stream, end: End, calls: seq<bool>)
    ensures var (fs, t) := ReceiveMany(s, end, calls);
            && Pending(s) == EncodeAll(fs) + Pending(t)
            && forall f :: f in fs ==> Fits(f)
    decreases |calls|
  {
    hide ReceiveOne, Encode;
    if calls != [] {
      var (o, s1) := ReceiveOne(s, end, calls[0]);
      ReceiveConserves(s, end, calls[0]);
      StreamConserves(s1, end, calls[1..]);
      var (fs, t) := ReceiveMany(s1, end, calls[1..]);
      if o.Delivered? {
        assert ([o.frame] + fs)[1..] == fs;
      }
    }
  }

  /**
   Streaming refines whole-buffer decoding: whatever bytes arrive, in whatever chunks and calls, the
   frames handed out are the first frames that decoding the whole stream at once would give.
   */
  lemma StreamRefinesDecode(chunks: seq<seq<byte>>, end: End, calls: seq<bool>)
    ensures var (fs, _) := ReceiveMany(Stream([], chunks), end, calls);
            fs <= DecodeAll(Flatten(chunks)).frames
  {
    hide DecodeAll, ReceiveOne;
    var s := Stream([], chunks);
    var (fs, t) := ReceiveMany(s, end, calls);
    StreamConserves(s, end, calls);
    DecodeAllAppend(fs, Pending(t));
    assert Pending(s) == Flatten(chunks);
  }

  // ----- No more is read than is needed -----

  /** The buffer once the first j chunks have been read. */
  function Grown(s: Stream, j: nat): seq<byte>
    requires j <= |s.chunks|
  {
    s.rbuf + Flatten(s.chunks[..j])
  }

  lemma GrownStep(s: Stream, j: nat)
    requires j < |s.chunks|
    ensures Grown(s, 0) == s.rbuf
    ensures Grown(Stream(s.rbuf + s.chunks[0], s.chunks[1..]), j) == Grown(s, j + 1)
  {
    assert s.chunks[..j + 1][1..] == s.chunks[1..][..j];
    assert s.chunks[..0] == [];
  }

  /**
   A call reads another chunk only while what it has asks for more; and it stops at the first point where
   that is no longer so, with what is there: a frame, or the refusal of the header or the checksum.
   */
  lemma {:induction false} ReadsOnlyWhileShort(s: Stream, end: End, blocking: bool)
    ensures var (o, t) := ReceiveOne(s, end, blocking);
            && |t.chunks| <= |s.chunks| && t.chunks == s.chunks[|s.chunks| - |t.chunks|..]
            && (forall j | 0 <= j < |s.chunks| - |t.chunks| :: ScanFrame(Grown(s, j)).Short?)
            && (o.Failed? && o.error.Malformed?
                ==> t.rbuf == Grown(s, |s.chunks| - |t.chunks|) && ScanFrame(t.rbuf) == Reject(o.error.error))
    decreases |s.chunks|
  {
    hide ScanFrame, Encode, Flatten;
    assert Grown(s, 0) == s.rbuf by { GrownNothing(s); }
    if ScanFrame(s.rbuf).Short? && s.chunks != [] {
      var grown := Stream(s.rbuf + s.chunks[0], s.chunks[1..]);
      var (o, t) := ReceiveOne(grown, end, blocking);
      forall j | 0 <= j < |s.chunks|
        ensures Grown(grown, j) == Grown(s, j + 1)
      {
        GrownStep(s, j);
      }
      if s.chunks[0] != [] {
        ReadsOnlyWhileShort(grown, end, blocking);
        forall j | 0 <= j < |s.chunks| - |t.chunks|
          ensures ScanFrame(Grown(s, j)).Short?
        {
          if j > 0 { assert ScanFrame(Grown(grown, j - 1)).Short?; }
        }
      }
    }
  }

  /** What the other failures mean. */
  lemma {:induction false} FailsBecause(s: Stream, end: End, blocking: bool)
    ensures var (o, t) := ReceiveOne(s, end, blocking);
            && (blocking || |t.chunks| <= |s.chunks| <= |t.chunks| + 1)
            && (o == Failed(PeerClosed) ==> t.chunks == [] && end.Closed? && t.rbuf == [])
            && (o == Failed(PeerClosedMidFrame) ==> t.chunks == [] && end.Closed? && t.rbuf != [])
            && (o == Failed(OversizedBuffer) ==> |t.rbuf| > MAX_PAYLOAD + 20)
            && (o == Failed(NoCompleteFrame) ==> !blocking && |t.rbuf| <= MAX_PAYLOAD + 20)
    decreases |s.chunks|
  {
    hide ScanFrame;
    if ScanFrame(s.rbuf).Short? && s.chunks != [] && s.chunks[0] != [] {
      FailsBecause(Stream(s.rbuf + s.chunks[0], s.chunks[1..]), end, blocking);
    }
  }

  lemma GrownNothing(s: Stream)
    ensures Grown(s, 0) == s.rbuf
  {
    assert s.chunks[..0] == [];
  }

  /** A header that declares too much is refused as soon as it is there: no further chunk is waited for. */
  lemma OversizedRefusedAtOnce(header: seq<byte>, more: seq<seq<byte>>, end: End, blocking: bool)
    requires |header| >= HEADER_LEN && header[..8] == Preamble() && Declared(header) > MAX_PAYLOAD
    ensures ReceiveOne(Stream(header, more), end, blocking) == (Failed(Malformed(Oversized)), Stream(header, more))
    ensures |header| <= MAX_CHUNK
            ==> ReceiveOne(Stream([], [header] + more), end, true)
                == (Failed(Malformed(Oversized)), Stream(header, more))
  {
    hide ScanFrame, Declared, Preamble;
    ScanErrors(header);
    ScanIsOne([]);
    assert ([header] + more)[1..] == more && [] + header == header;
  }

  // ----- What gets through however it is cut -----

  /** The greatest payload less one byte short of a chunk. */
  const SAFE_PAYLOAD: nat := 1048576 - 4095

  function Min(a: nat, b: nat): nat { if a < b then a else b }

  /** The payload leaves room for all that one chunk can bring in behind the frame's first bytes. */
  predicate HasRoom(f: Frame, behind: nat) { |f.payload| + Min(MAX_CHUNK - 1, behind) <= MAX_PAYLOAD }

  predicate AllHaveRoom(fs: seq<Frame>) {
    fs == [] || (HasRoom(fs[0], |EncodeAll(fs[1..])|) && AllHaveRoom(fs[1..]))
  }

  lemma {:induction false} BlockingDelivers(s: Stream, end: End, f: Frame, tail: seq<byte>)
    requires HasRoom(f, |tail|) && ChunksOk(s.chunks)
    requires Pending(s) == Encode(f) + tail
    ensures var (o, t) := ReceiveOne(s, end, true);
            && o == Delivered(f) && Pending(t) == tail
            && ChunksOk(t.chunks)
    decreases |s.chunks|
  {
    hide ScanFrame, Encode;
    var e, b := Encode(f), s.rbuf;
    if |e| <= |b| {
      assert e == (b + Flatten(s.chunks))[..|e|] == b[..|e|];
      ScanIff(b, f, |e|);
      assert Pending(s.(rbuf := b[|e|..])) == (e + tail)[|e|..];
    } else {
      assert b == (e + tail)[..|b|] == e[..|b|];
      ScanOfPrefix(f, b);
      assert s.chunks != [];
      var grown := Stream(b + s.chunks[0], s.chunks[1..]);
      assert Pending(grown) == Pending(s);
      assert s.chunks[0] in s.chunks;
      BlockingDelivers(grown, end, f, tail);
    }
  }

  /** As many calls as there are frames, all blocking. */
  function Blocking(n: nat): (calls: seq<bool>)
    ensures |calls| == n
  {
    seq(n, _ => true)
  }

  lemma ManyUnfold(s: Stream, end: End, n: nat)
    ensures ReceiveMany(s, end, Blocking(0)) == ([], s)
    ensures var (o, t) := ReceiveOne(s, end, true);
            var (fs, u) := ReceiveMany(t, end, Blocking(n));
            ReceiveMany(s, end, Blocking(n + 1)) == (if o.Delivered? then [o.frame] + fs else fs, u)
  {
    hide ReceiveOne;
    assert Blocking(n + 1)[1..] == Blocking(n);
  }

  /**
   However the encoding of such frames is cut into chunks, as many blocking calls as there are
   frames return exactly those frames in order and leave nothing behind.
   */
  lemma {:induction false} StreamDeliversAll(s: Stream, end: End, fs: seq<Frame>)
    requires ChunksOk(s.chunks)
    requires Pending(s) == EncodeAll(fs)
    requires AllHaveRoom(fs)
    ensures ReceiveMany(s, end, Blocking(|fs|)) == (fs, Stream([], []))
    decreases |fs|
  {
    hide ReceiveOne, ReceiveMany, Blocking, Encode;
    if fs == [] {
      NothingPending(s);
      ManyUnfold(s, end, 0);
    } else {
      BlockingDelivers(s, end, fs[0], EncodeAll(fs[1..]));
      var (o, t) := ReceiveOne(s, end, true);
      StreamDeliversAll(t, end, fs[1..]);
      ManyUnfold(s, end, |fs| - 1);
      assert fs == [fs[0]] + fs[1..];
    }
  }

  lemma {:induction false} ChunksHaveBytes(chunks: seq<seq<byte>>)
    requires ChunksOk(chunks)
    ensures |chunks| <= |Flatten(chunks)|
  {
    if chunks != [] {
      assert chunks[0] in chunks;
      ChunksHaveBytes(chunks[1..]);
    }
  }

  lemma NothingPending(s: Stream)
    requires ChunksOk(s.chunks) && Pending(s) == []
    ensures s == Stream([], [])
  {
    ChunksHaveBytes(s.chunks);
  }

  /** Payloads of at most MAX_PAYLOAD - 4095 always have room. */
  lemma {:induction false} SafeHaveRoom(fs: seq<Frame>)
    requires forall f :: f in fs ==> |f.payload| <= SAFE_PAYLOAD
    ensures AllHaveRoom(fs)
    decreases |fs|
  {
    if fs != [] {
      assert fs[0] in fs;
      SafeHaveRoom(fs[1..]);
    }
  }

  // ----- The margin is exact -----

  /** A frame that arrives whole, however cut, is always the next one delivered. */
  ghost predicate AlwaysDelivered(f: Frame) {
    forall chunks, end {:trigger ReceiveOne(Stream([], chunks), end, true)} ::
      ChunksOk(chunks) && Encode(f) <= Flatten(chunks)
      ==> ReceiveOne(Stream([], chunks), end, true).0 == Delivered(f)
  }

  /** b cut into pieces of one byte. */
  function Singles(b: seq<byte>): (chunks: seq<seq<byte>>)
    ensures |chunks| == |b| && ChunksOk(chunks)
  {
    if b == [] then [] else [[b[0]]] + Singles(b[1..])
  }

  lemma {:induction false} FlattenAppend(a: seq<seq<byte>>, b: seq<seq<byte>>)
    ensures Flatten(a + b) == Flatten(a) + Flatten(b)
  {
    if a == [] {
      assert a + b == b;
    } else {
      assert (a + b)[1..] == a[1..] + b;
      FlattenAppend(a[1..], b);
    }
  }

  lemma {:induction false} FlattenSingles(b: seq<byte>)
    ensures Flatten(Singles(b)) == b
  {
    if b != [] { FlattenSingles(b[1..]); }
  }

  /** Reading a frame byte by byte up to just before its last byte, then a chunk too long for what is left. */
  lemma {:induction false} LastChunkOverflows(f: Frame, b: seq<byte>, p: seq<byte>, last: seq<byte>,
                                              more: seq<seq<byte>>, end: End)
    requires Fits(f) && last != [] && |f.payload| + |last| - 1 > MAX_PAYLOAD
    requires b + p < Encode(f) && |b + p| == |Encode(f)| - 1
    ensures ReceiveOne(Stream(b, Singles(p) + [last] + more), end, true).0 == Failed(OversizedBuffer)
    decreases |p|
  {
    hide ScanFrame, Encode;
    var s := Stream(b, Singles(p) + [last] + more);
    assert b <= b + p;
    ScanOfPrefix(f, b);
    if p == [] {
      assert s.chunks[0] == last;
    } else {
      assert s.chunks[0] == [p[0]] && s.chunks[1..] == Singles(p[1..]) + [last] + more;
      assert b + p == (b + [p[0]]) + p[1..];
      LastChunkOverflows(f, b + [p[0]], p[1..], last, more, end);
    }
  }

  /** A frame read byte by byte is delivered, and nothing behind it is touched. */
  lemma {:induction false} SinglesDeliver(f: Frame, b: seq<byte>, p: seq<byte>, more: seq<seq<byte>>, end: End)
    requires Fits(f) && b + p == Encode(f)
    ensures ReceiveOne(Stream(b, Singles(p) + more), end, true) == (Delivered(f), Stream([], more))
    decreases |p|
  {
    hide ScanFrame, Encode;
    var s := Stream(b, Singles(p) + more);
    if p == [] {
      assert b == Encode(f) && s.chunks == more;
      ScanIff(b, f, |b|);
      assert b[|b|..] == [];
    } else {
      assert b < Encode(f) by { assert b <= b + p; }
      ScanOfPrefix(f, b);
      assert s.chunks[0] == [p[0]] && s.chunks[1..] == Singles(p[1..]) + more;
      assert b + p == (b + [p[0]]) + p[1..];
      SinglesDeliver(f, b + [p[0]], p[1..], more, end);
    }
  }

  lemma FlattenCut(a: seq<byte>, last: seq<byte>, b: seq<byte>)
    ensures Flatten(Singles(a) + [last] + Singles(b)) == a + last + b
  {
    FlattenSingles(a);
    FlattenSingles(b);
    FlattenAppend(Singles(a) + [last], Singles(b));
    FlattenAppend(Singles(a), [last]);
    assert [last][1..] == [] && Flatten([last]) == last;
  }

  lemma Rejoined(e: seq<byte>, tail: seq<byte>, m: nat)
    requires e != [] && m <= |tail|
    ensures e[..|e| - 1] + ([e[|e| - 1]] + tail[..m]) + tail[m..] == e + tail
    ensures [] + e[..|e| - 1] == e[..|e| - 1] && e[..|e| - 1] < e
  {
  }

  /** The cut that defeats a frame without room: its last byte comes with as much as a chunk can hold. */
  lemma OverflowingCut(f: Frame, tail: seq<byte>) returns (chunks: seq<seq<byte>>)
    requires Fits(f) && !HasRoom(f, |tail|)
    ensures ChunksOk(chunks) && Flatten(chunks) == Encode(f) + tail
    ensures ReceiveOne(Stream([], chunks), Closed, true).0 == Failed(OversizedBuffer)
  {
    hide ReceiveOne, Encode, Flatten, Singles;
    var e, m := Encode(f), Min(MAX_CHUNK - 1, |tail|);
    var front, last, more := e[..|e| - 1], [e[|e| - 1]] + tail[..m], Singles(tail[m..]);
    chunks := Singles(front) + [last] + more;
    Rejoined(e, tail, m);
    LastChunkOverflows(f, [], front, last, more, Closed);
    FlattenCut(front, last, tail[m..]);
  }

  /** Exactly the frames of at most MAX_PAYLOAD - 4095 bytes survive every cut, whatever comes behind them. */
  lemma AlwaysDeliveredIff(f: Frame)
    requires Fits(f)
    ensures AlwaysDelivered(f) <==> |f.payload| <= SAFE_PAYLOAD
  {
    hide ReceiveOne, Encode;
    var e := Encode(f);
    if |f.payload| <= SAFE_PAYLOAD {
      forall chunks, end | ChunksOk(chunks) && e <= Flatten(chunks)
        ensures ReceiveOne(Stream([], chunks), end, true).0 == Delivered(f)
      {
        var s := Stream([], chunks);
        assert Pending(s) == e + Flatten(chunks)[|e|..];
        BlockingDelivers(s, end, f, Flatten(chunks)[|e|..]);
      }
    } else {
      var chunks := OverflowingCut(f, seq(MAX_CHUNK - 1, _ => 0));
      assert ReceiveOne(Stream([], chunks), Closed, true).0 == Failed(OversizedBuffer);
    }
  }

  /** The list comes out whole and in order from every cut of its encoding. */
  ghost predicate AllDelivered(fs: seq<Frame>) {
    forall chunks, end {:trigger ReceiveMany(Stream([], chunks), end, Blocking(|fs|))} ::
      ChunksOk(chunks) && Flatten(chunks) == EncodeAll(fs)
      ==> ReceiveMany(Stream([], chunks), end, Blocking(|fs|)).0 == fs
  }

  lemma {:induction false} NoMoreThanCalls(s: Stream, end: End, calls: seq<bool>)
    ensures |ReceiveMany(s, end, calls).0| <= |calls|
    decreases |calls|
  {
    hide ReceiveOne;
    if calls != [] {
      NoMoreThanCalls(ReceiveOne(s, end, calls[0]).1, end, calls[1..]);
    }
  }

  /** A cut from which a list without room does not come out. */
  lemma {:induction false} DefeatingCut(fs: seq<Frame>) returns (chunks: seq<seq<byte>>)
    requires (forall f :: f in fs ==> Fits(f)) && !AllHaveRoom(fs)
    ensures ChunksOk(chunks) && Flatten(chunks) == EncodeAll(fs)
    ensures ReceiveMany(Stream([], chunks), Closed, Blocking(|fs|)).0 != fs
    decreases |fs|
  {
    hide ReceiveOne, ReceiveMany, Blocking, Encode, HasRoom, Flatten, Singles;
    var f, tail := fs[0], EncodeAll(fs[1..]);
    if HasRoom(f, |tail|) {
      var later := DefeatingCut(fs[1..]);
      chunks := Singles(Encode(f)) + later;
      assert [] + Encode(f) == Encode(f);
      SinglesDeliver(f, [], Encode(f), later, Closed);
      FlattenSingles(Encode(f));
      FlattenAppend(Singles(Encode(f)), later);
      ManyUnfold(Stream([], chunks), Closed, |fs| - 1);
      assert fs == [f] + fs[1..];
    } else {
      chunks := OverflowingCut(f, tail);
      ManyUnfold(Stream([], chunks), Closed, |fs| - 1);
      NoMoreThanCalls(ReceiveOne(Stream([], chunks), Closed, true).1, Closed, Blocking(|fs| - 1));
    }
  }

  /**
   The exact bound: a list of frames survives every cut of its encoding if and only if each payload,
   with the bytes behind the frame but no more than 4095 of them, is within the limit.
   */
  lemma AllDeliveredIff(fs: seq<Frame>)
    requires forall f :: f in fs ==> Fits(f)
    ensures AllDelivered(fs) <==> AllHaveRoom(fs)
  {
    hide ReceiveMany, EncodeAll, AllHaveRoom;
    if AllHaveRoom(fs) {
      forall chunks, end | ChunksOk(chunks) && Flatten(chunks) == EncodeAll(fs)
        ensures ReceiveMany(Stream([], chunks), end, Blocking(|fs|)).0 == fs
      {
        assert Pending(Stream([], chunks)) == Flatten(chunks);
        StreamDeliversAll(Stream([], chunks), end, fs);
      }
    } else {
      var chunks := DefeatingCut(fs);
      assert ReceiveMany(Stream([], chunks), Closed, Blocking(|fs|)).0 != fs;
    }
  }

  // ----- The connection object -----

  /** A frame taken off the buffer joins those returned. */
  lemma Returning(returned: seq<Frame>, rbuf: seq<byte>, f: Frame, need: nat)
    requires ScanFrame(rbuf) == Take(f, need)
    ensures need <= |rbuf| && EncodeAll(returned) + rbuf == EncodeAll(returned + [f]) + rbuf[need..]
  {
    hide ScanFrame, Encode;
    ScanIff(rbuf, f, need);
    EncodeAllAppend(returned, [f]);
    assert [f][1..] == [];
    assert EncodeAll([f]) == Encode(f) + EncodeAll([]);
    assert rbuf == Encode(f) + rbuf[need..];
  }

  class Connection {
    const table: array<u32>
    const end: End
    var rbuf: seq<byte>
    var incoming: seq<seq<byte>>
    /** Bytes read and frames returned since the connection was adopted. */
    ghost var read: seq<byte>
    ghost var returned: seq<Frame>

    /** The buffer is what was read less what was returned. */
    ghost predicate Valid()
      reads this, table
    {
      IsTable(table[..]) && read == EncodeAll(returned) + rbuf
    }

    function State(): Stream
      reads this
    {
      Stream(rbuf, incoming)
    }

    constructor (table: array<u32>, incoming: seq<seq<byte>>, end: End)
      requires IsTable(table[..])
      ensures Valid() && State() == Stream([], incoming) && this.end == end
      ensures read == [] && returned == []
    {
      this.table := table;
      this.end := end;
      this.rbuf := [];
      this.incoming := incoming;
      read, returned := [], [];
    }

    /** One recv call: 1, and a chunk is appended; 0 when the peer has closed; -1 when the call fails. */
    method ReadSome() returns (n: int)
      modifies this`rbuf, this`incoming, this`read
      ensures n == if old(incoming) == [] then (if end.Broken? then -1 else 0) else if old(incoming)[0] == []
              then -1 else 1
      ensures incoming == if old(incoming) == [] then [] else old(incoming)[1..]
      ensures rbuf == if n == 1 then old(rbuf) + old(incoming)[0] else old(rbuf)
      ensures read == if n == 1 then old(read) + old(incoming)[0] else old(read)
    {
      if incoming == [] {
        return if end.Broken? then -1 else 0;
      }
      var chunk := incoming[0];
      incoming := incoming[1..];
      if chunk == [] {
        return -1;
      }
      rbuf := rbuf + chunk;
      read := read + chunk;
      return 1;
    }

    method Receive(blocking: bool) returns (outcome: Outcome)
      requires Valid()
      modifies this
      ensures Valid()
      ensures (outcome, State()) == ReceiveOne(old(State()), end, blocking)
      ensures returned == if outcome.Delivered? then old(returned) + [outcome.frame] else old(returned)
    {
      hide ScanFrame, IsTable, Encode, EncodeAll;
      while true
        invariant Valid() && returned == old(returned)
        invariant ReceiveOne(State(), end, blocking) == ReceiveOne(old(State()), end, blocking)
        decreases |incoming|
      {
        var s := ScanBytes(table, rbuf);
        match s {
          case Take(f, need) =>
            Returning(returned, rbuf, f, need);
            rbuf := rbuf[need..];
            returned := returned + [f];
            return Delivered(f);
          case Reject(e) =>
            return Failed(Malformed(e));
          case Short(_) =>
        }
        var n := ReadSome();
        if n == 0 {
          return Failed(if rbuf == [] then PeerClosed else PeerClosedMidFrame);
        }
        if n < 0 {
          return Failed(RecvFailed);
        }
        if |rbuf| > MAX_BUFFER {
          return Failed(OversizedBuffer);
        }
        if !blocking {
          return Failed(NoCompleteFrame);
        }
      }
    }
  }
}
