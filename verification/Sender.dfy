/**
 Sending frames: the partial-write loop, and any number of threads that share one connection and
 take its write lock for a frame at a time.
 */
module Sender {
  import opened Words
  import opened Checksum
  import opened Frames

  class Socket {
    var wire: seq<byte>

    constructor ()
      ensures wire == []
    {
      wire := [];
    }

    /** One send call: any non-empty prefix is taken, or the call fails and takes nothing. */
    method SendSome(data: seq<byte>) returns (sent: int)
      requires data != []
      modifies this
      ensures -1 <= sent <= |data|
      ensures wire == if sent <= 0 then old(wire) else old(wire) + data[..sent]
    {
      sent :| -1 <= sent <= |data|;
      if sent > 0 {
        wire := wire + data[..sent];
      }
    }
  }

  datatype SendError = FrameTooLarge | ConnectionClosed | WriteFailed

  method WriteAll(socket: Socket, data: seq<byte>) returns (ok: bool)
    modifies socket
    ensures ok ==> socket.wire == old(socket.wire) + data
    ensures !ok ==> exists k :: 0 <= k < |data| && socket.wire == old(socket.wire) + data[..k]
  {
    var off := 0;
    assert data[..off] == [];
    while off < |data|
      invariant 0 <= off <= |data|
      invariant socket.wire == old(socket.wire) + data[..off]
    {
      var sent := socket.SendSome(data[off..]);
      if sent <= 0 {
        return false;
      }
      assert data[..off] + data[off..][..sent] == data[..off + sent];
      off := off + sent;
    }
    assert data[..off] == data;
    return true;
  }

  method Send(table: array<u32>, socket: Socket, valid: bool, f: Frame) returns (error: Option<SendError>)
    requires IsTable(table[..])
    modifies socket
    ensures error == None ==> valid && Fits(f) && socket.wire == old(socket.wire) + Encode(f)
    ensures error in {Some(FrameTooLarge), Some(ConnectionClosed)} ==> socket.wire == old(socket.wire)
    ensures error == Some(FrameTooLarge) <==> !Fits(f)
    ensures error == Some(WriteFailed)
            ==> exists b :: b < Encode(f) && socket.wire == old(socket.wire) + b
  {
    hide IsTable, Encode;
    if |f.payload| > MAX_PAYLOAD {
      return Some(FrameTooLarge);
    }
    if !valid {
      return Some(ConnectionClosed);
    }
    var frame := EncodeFrame(table, f.msgType, f.payload);
    assert frame == Encode(f);
    var ok := WriteAll(socket, frame);
    if !ok {
      ghost var k :| 0 <= k < |frame| && socket.wire == old(socket.wire) + frame[..k];
      assert frame[..k] < frame;
      return Some(WriteFailed);
    }
    return None;
  }

  // ----- Many senders, one lock -----

  /** The frame being written under the lock, by whom, and what is left of its encoding. */
  datatype Writer = Writer(sender: nat, frame: Frame, left: seq<byte>)

  /** A write that is over: whole, or given up when the socket failed. */
  datatype Attempt = Attempt(sender: nat, frame: Frame, whole: bool)

  /** torn counts the bytes that writes given up have left on the wire. */
  datatype Link = Link(
    todo: seq<seq<Frame>>,
    writer: Option<Writer>,
    wire: seq<byte>,
    log: seq<Attempt>,
    torn: int)

  datatype Event =
    | Refuse(sender: nat)
    | TakeLock(sender: nat)
    | Write(n: nat)
    | Fail

  predicate Enabled(s: Link, e: Event) {
    match e
    case Refuse(i) => i < |s.todo| && s.todo[i] != [] && !Fits(s.todo[i][0])
    case TakeLock(i) => s.writer == None && i < |s.todo| && s.todo[i] != [] && Fits(s.todo[i][0])
    case Write(n) => s.writer.Some? && 0 < n <= |s.writer.value.left|
    case Fail => s.writer.Some?
  }

  /** A failed write gives up the lock; what it wrote stays, and the next sender writes behind it. */
  function Apply(s: Link, e: Event): Link
    requires Enabled(s, e)
  {
    match e
    case Refuse(i) => s.(todo := s.todo[i := s.todo[i][1..]])
    case TakeLock(i) =>
      var f := s.todo[i][0];
      s.(todo := s.todo[i := s.todo[i][1..]], writer := Some(Writer(i, f, Encode(f))))
    case Write(n) =>
      var w := s.writer.value;
      var wire := s.wire + w.left[..n];
      if n == |w.left| then s.(wire := wire, writer := None, log := s.log + [Attempt(w.sender, w.frame, true)])
      else s.(wire := wire, writer := Some(w.(left := w.left[n..])))
    case Fail =>
      var w := s.writer.value;
      s.(writer := None, log := s.log + [Attempt(w.sender, w.frame, false)],
         torn := s.torn + |Encode(w.frame)| - |w.left|)
  }

  predicate IsRun(s: Link, es: seq<Event>)
    decreases |es|
  {
    es == [] || (Enabled(s, es[0]) && IsRun(Apply(s, es[0]), es[1..]))
  }

  function Run(s: Link, es: seq<Event>): Link
    requires IsRun(s, es)
    decreases |es|
  {
    if es == [] then s else Run(Apply(s, es[0]), es[1..])
  }

  function Start(programs: seq<seq<Frame>>): Link { Link(programs, None, [], [], 0) }

  /** The frames written whole, in order. */
  function Completed(log: seq<Attempt>): seq<Frame> {
    if log == [] then []
    else
      var last := log[|log| - 1];
      Completed(log[..|log| - 1]) + if last.whole then [last.frame] else []
  }

  /** The frames sender i tried to write. */
  function TriedBy(log: seq<Attempt>, i: nat): seq<Frame> {
    if log == [] then []
    else
      var last := log[|log| - 1];
      TriedBy(log[..|log| - 1], i) + if last.sender == i then [last.frame] else []
  }

  function Fitting(fs: seq<Frame>): seq<Frame> {
    if fs == [] then []
    else if Fits(fs[0]) then [fs[0]] + Fitting(fs[1..])
    else Fitting(fs[1..])
  }

  function Current(s: Link, i: nat): seq<Frame> {
    if s.writer.Some? && s.writer.value.sender == i then [s.writer.value.frame] else []
  }

  /** What the writer has on the wire of its frame. */
  function Begun(s: Link): int {
    if s.writer.Some? then |Encode(s.writer.value.frame)| - |s.writer.value.left| else 0
  }

  /** The completed frames, the torn bytes and what the writer has begun: in this order if none is torn. */
  ghost predicate Accounted(s: Link) {
    var done := EncodeAll(Completed(s.log));
    && (forall f :: f in Completed(s.log) ==> Fits(f))
    && 0 <= Begun(s) && 0 <= s.torn && |s.wire| == |done| + s.torn + Begun(s)
    && (s.writer.Some? ==> Fits(s.writer.value.frame) && s.writer.value.left != [])
    && (s.torn == 0 && s.writer.None? ==> s.wire == done)
    && (s.torn == 0 && s.writer.Some? ==> s.wire + s.writer.value.left == done + Encode(s.writer.value.frame))
  }

  /** A sender's frames are those tried, the one being written, and those still to do, in order. */
  ghost predicate InOrder(s: Link, programs: seq<seq<Frame>>, i: nat)
    requires i < |programs|
  {
    && |s.todo| == |programs|
    && Fitting(programs[i]) == TriedBy(s.log, i) + (Current(s, i) + Fitting(s.todo[i]))
  }

  lemma CompletedGrows(log: seq<Attempt>, a: Attempt)
    ensures Completed(log + [a]) == if a.whole then Completed(log) + [a.frame] else Completed(log)
    ensures EncodeAll(Completed(log + [a]))
            == if a.whole then EncodeAll(Completed(log)) + Encode(a.frame) else EncodeAll(Completed(log))
  {
    hide Encode;
    assert (log + [a])[..|log|] == log;
    if a.whole {
      EncodeAllAppend(Completed(log), [a.frame]);
      assert [a.frame][1..] == [];
      assert EncodeAll([a.frame]) == Encode(a.frame) + EncodeAll([]);
    } else {
      assert Completed(log) + [] == Completed(log);
    }
  }

  lemma AccountedIsKept(s: Link, e: Event)
    requires Accounted(s) && Enabled(s, e)
    ensures Accounted(Apply(s, e))
  {
    hide Encode, Completed, EncodeAll;
    var t := Apply(s, e);
    if e.Write? {
      var w := s.writer.value;
      assert w.left == w.left[..e.n] + w.left[e.n..];
      assert t.wire + w.left[e.n..] == s.wire + w.left;
      CompletedGrows(s.log, Attempt(w.sender, w.frame, true));
    } else if e.Fail? {
      var w, done := s.writer.value, EncodeAll(Completed(s.log));
      CompletedGrows(s.log, Attempt(w.sender, w.frame, false));
      if t.torn == 0 {
        assert s.wire == (s.wire + w.left)[..|s.wire|] == (done + Encode(w.frame))[..|done|] == done;
      }
    }
  }

  lemma InOrderIsKept(s: Link, e: Event, programs: seq<seq<Frame>>, i: nat)
    requires i < |programs| && InOrder(s, programs, i) && Enabled(s, e)
    requires s.writer.Some? ==> Fits(s.writer.value.frame)
    ensures InOrder(Apply(s, e), programs, i)
  {
    hide Encode, TriedBy;
    if e.Write? || e.Fail? {
      TriedByGrows(s.log, Attempt(s.writer.value.sender, s.writer.value.frame, e.Write?), i);
    } else if e.sender == i {
      assert s.todo[i] == [s.todo[i][0]] + Apply(s, e).todo[i];
    }
  }

  lemma TriedByGrows(log: seq<Attempt>, a: Attempt, i: nat)
    ensures TriedBy(log + [a], i) == TriedBy(log, i) + if a.sender == i then [a.frame] else []
  {
    assert (log + [a])[..|log|] == log;
  }

  lemma {:induction false} AccountedInEveryRun(s: Link, es: seq<Event>, programs: seq<seq<Frame>>)
    requires Accounted(s) && IsRun(s, es)
    requires forall i :: 0 <= i < |programs| ==> InOrder(s, programs, i)
    ensures Accounted(Run(s, es))
    ensures forall i :: 0 <= i < |programs| ==> InOrder(Run(s, es), programs, i)
    decreases |es|
  {
    hide InOrder, Apply, Enabled;
    if es != [] {
      AccountedIsKept(s, es[0]);
      forall i | 0 <= i < |programs|
        ensures InOrder(Apply(s, es[0]), programs, i)
      {
        InOrderIsKept(s, es[0], programs, i);
      }
      AccountedInEveryRun(Apply(s, es[0]), es[1..], programs);
    }
  }

  lemma StartIsAccounted(programs: seq<seq<Frame>>)
    ensures Accounted(Start(programs))
    ensures forall i :: 0 <= i < |programs| ==> InOrder(Start(programs), programs, i)
  {
  }

  /**
   For any number of senders, any partial writes and any failures: when no write is going on, the wire
   decodes, without error, to exactly the completed frames if and only if no failed write left a byte.
   */
  lemma WholeFramesIff(programs: seq<seq<Frame>>, es: seq<Event>)
    requires IsRun(Start(programs), es)
    ensures var s := Run(Start(programs), es);
            s.writer == None ==> (DecodeAll(s.wire) == Decoded(None, Completed(s.log)) <==> s.torn == 0)
  {
    hide Encode, DecodeAll, IsRun, Run, Completed, EncodeAll;
    var s := Run(Start(programs), es);
    StartIsAccounted(programs);
    AccountedInEveryRun(Start(programs), es, programs);
    DecodeIff(s.wire, Completed(s.log));
  }

  /** A sender's tries are, in order, the first of the frames it asked to send, oversized ones refused. */
  lemma SendersKeepOrder(programs: seq<seq<Frame>>, es: seq<Event>, i: nat)
    requires IsRun(Start(programs), es) && i < |programs|
    ensures var s := Run(Start(programs), es);
            && TriedBy(s.log, i) <= Fitting(programs[i])
            && (s.writer == None && i < |s.todo| && s.todo[i] == [] ==> TriedBy(s.log, i) == Fitting(programs[i]))
  {
    hide IsRun, Run, TriedBy;
    StartIsAccounted(programs);
    AccountedInEveryRun(Start(programs), es, programs);
    assert InOrder(Run(Start(programs), es), programs, i);
  }

  /** As long as no failed write has left a byte, decoding gives the completed frames, also in the midst of a write. */
  lemma FramesNeverTear(programs: seq<seq<Frame>>, es: seq<Event>)
    requires IsRun(Start(programs), es)
    ensures var s := Run(Start(programs), es);
            s.torn == 0 ==> && DecodeAll(s.wire).frames == Completed(s.log)
                            && (s.writer == None ==> DecodeAll(s.wire).error == None)
  {
    hide Encode, DecodeAll, IsRun, Run, Completed, EncodeAll;
    var s := Run(Start(programs), es);
    StartIsAccounted(programs);
    AccountedInEveryRun(Start(programs), es, programs);
    var fs := Completed(s.log);
    DecodeIff(s.wire, fs);
    if s.torn == 0 && s.writer.Some? {
      var w := s.writer.value;
      var done := EncodeAll(fs);
      assert s.wire[..|done|] == (s.wire + w.left)[..|done|] == done;
      var part := s.wire[|done|..];
      assert s.wire == done + part;
      assert part + w.left == (s.wire + w.left)[|done|..] == Encode(w.frame);
      PartialTail(fs, w.frame, part);
    }
  }

  lemma {:induction false} WireGrows(s: Link, es: seq<Event>)
    requires IsRun(s, es)
    ensures s.wire <= Run(s, es).wire
    decreases |es|
  {
    hide Encode;
    if es != [] {
      WireGrows(Apply(s, es[0]), es[1..]);
    }
  }

  /** What was completed before the first torn byte is decoded first, whatever happens afterwards. */
  lemma BeforeTheTear(s: Link, es: seq<Event>)
    requires Accounted(s) && s.torn == 0 && IsRun(s, es)
    ensures Completed(s.log) <= DecodeAll(Run(s, es).wire).frames
  {
    hide Encode, DecodeAll, IsRun, Run, Completed, EncodeAll;
    var done, wire := EncodeAll(Completed(s.log)), Run(s, es).wire;
    WireGrows(s, es);
    if s.writer.Some? {
      assert done == (s.wire + s.writer.value.left)[..|done|] == s.wire[..|done|];
    }
    assert wire == done + wire[|done|..];
    DecodeAllAppend(Completed(s.log), wire[|done|..]);
  }

  /** Frames do tear: a sender that fails after one byte of f, and another that then writes g whole. */
  lemma TornSomewhere(f: Frame, g: Frame)
    requires Fits(f) && Fits(g)
    ensures var es := [TakeLock(0), Write(1), Fail, TakeLock(1), Write(|Encode(g)|)];
            && IsRun(Start([[f], [g]]), es)
            && var s := Run(Start([[f], [g]]), es);
            && s.writer == None && Completed(s.log) == [g]
            && DecodeAll(s.wire) != Decoded(None, [g])
  {
    hide Encode, DecodeAll;
    var s0 := Start([[f], [g]]);
    var s1 := Apply(s0, TakeLock(0));
    var s2 := Apply(s1, Write(1));
    var s3 := Apply(s2, Fail);
    var s4 := Apply(s3, TakeLock(1));
    var s5 := Apply(s4, Write(|Encode(g)|));
    var es := [TakeLock(0), Write(1), Fail, TakeLock(1), Write(|Encode(g)|)];
    CompletedGrows([], Attempt(0, f, false));
    CompletedGrows([Attempt(0, f, false)], Attempt(1, g, true));
    FiveEvents(s0, es[0], es[1], es[2], es[3], es[4]);
    WholeFramesIff([[f], [g]], es);
  }

  lemma RunCons(s: Link, e: Event, es: seq<Event>)
    requires Enabled(s, e) && IsRun(Apply(s, e), es)
    ensures IsRun(s, [e] + es) && Run(s, [e] + es) == Run(Apply(s, e), es)
  {
    hide Apply, Enabled;
    assert ([e] + es)[1..] == es;
  }

  lemma FiveEvents(s: Link, a: Event, b: Event, c: Event, d: Event, e: Event)
    requires Enabled(s, a) && Enabled(Apply(s, a), b) && Enabled(Apply(Apply(s, a), b), c)
    requires Enabled(Apply(Apply(Apply(s, a), b), c), d)
    requires Enabled(Apply(Apply(Apply(Apply(s, a), b), c), d), e)
    ensures IsRun(s, [a, b, c, d, e])
    ensures Run(s, [a, b, c, d, e]) == Apply(Apply(Apply(Apply(Apply(s, a), b), c), d), e)
  {
    hide Apply, Enabled;
    var s1 := Apply(s, a);
    var s2 := Apply(s1, b);
    var s3 := Apply(s2, c);
    RunCons(Apply(s3, d), e, []);
    RunCons(s3, d, [e]);
    RunCons(s2, c, [d, e]);
    RunCons(s1, b, [c, d, e]);
    RunCons(s, a, [b, c, d, e]);
    assert [e] + [] == [e] && [d] + [e] == [d, e] && [c] + [d, e] == [c, d, e] && [b] + [c, d, e] == [b, c, d, e];
    assert [a] + [b, c, d, e] == [a, b, c, d, e];
  }

  lemma {:induction false} PartialTail(fs: seq<Frame>, f: Frame, part: seq<byte>)
    requires forall g :: g in fs ==> Fits(g)
    requires Fits(f) && part < Encode(f)
    ensures DecodeAll(EncodeAll(fs) + part).frames == fs
  {
    hide Encode, ScanFrame;
    if fs == [] {
      ScanOfPrefix(f, part);
      assert EncodeAll(fs) + part == part;
    } else {
      assert EncodeAll(fs) + part == Encode(fs[0]) + (EncodeAll(fs[1..]) + part);
      DecodeStep(fs[0], EncodeAll(fs[1..]) + part);
      PartialTail(fs[1..], f, part);
      assert fs == [fs[0]] + fs[1..];
    }
  }
}
