/** The byte stream of one connection: when responses stay contiguous on it, and
    what the client's reader then makes of it. */
module PipelineStream {
  import opened Bytes
  import opened Response
  import opened Pipeline
  import opened PipelineInv
  import opened PipelineFraming

  /** A connection's stream, each byte marked with the call it belongs to. */
  type Tagged = (nat, byte)

  function Tag(t: nat, bs: seq<byte>): seq<Tagged> {
    seq(|bs|, i requires 0 <= i < |bs| => (t, bs[i]))
  }

  function Stream(log: seq<Chunk>, c: nat): seq<Tagged> {
    if log == [] then []
    else
      var last := log[|log| - 1];
      Stream(log[..|log| - 1], c) + if last.conn == c then Tag(last.ticket, last.bytes) else []
  }

  /** The finished calls of a connection, in completion order. */
  function On(calls: seq<Call>, done: seq<nat>, c: nat): seq<nat> {
    if done == [] then []
    else
      var t := done[|done| - 1];
      On(calls, done[..|done| - 1], c) + if t < |calls| && calls[t].conn == c then [t] else []
  }

  /** The whole responses of some calls, one after the other. */
  function Frames(calls: seq<Call>, ts: seq<nat>): seq<Tagged> {
    if ts == [] then [] else Frames(calls, ts[..|ts| - 1]) + TaggedFrame(calls, ts[|ts| - 1])
  }

  function TaggedFrame(calls: seq<Call>, t: nat): seq<Tagged> {
    if t < |calls| && calls[t].value.Some? then Tag(t, FrameOf(calls[t])) else []
  }

  function DoneFrames(s: State, c: nat): seq<Tagged> { Frames(s.calls, On(s.calls, s.done, c)) }

  /** A call of connection `c` of which a part has been written. */
  predicate Partial(s: State, t: nat, c: nat) {
    t < |s.calls| && s.calls[t].conn == c && s.calls[t].pos > 0 && t !in s.done && t !in s.failed
  }

  /** The stream is the whole responses of the finished calls, in completion
      order, and then the beginning of at most one more. */
  ghost predicate Contiguous(s: State, c: nat) {
    && (forall t: nat | Partial(s, t, c) :: Stream(s.log, c) == DoneFrames(s, c) + Tag(t, Sent(s.log, t)))
    && ((forall t: nat :: !Partial(s, t, c)) ==> Stream(s.log, c) == DoneFrames(s, c))
  }

  /** When thread `i` writes, no other call of that connection is partly written. */
  ghost predicate Guard(s: State, l: Label)
    requires Enabled(s, l)
  {
    l.Write? ==>
      var t := s.threads[l.i].t;
      forall u: nat | u != t :: !Partial(s, u, s.calls[t].conn)
  }

  /** No write error. */
  predicate Clean(l: Label) { !l.WriteError? && !l.RequeueFull? }

  // ----- Lists of frames -----

  lemma TagConcat(t: nat, a: seq<byte>, b: seq<byte>)
    ensures Tag(t, a + b) == Tag(t, a) + Tag(t, b)
  {
  }

  lemma StreamAppend(log: seq<Chunk>, chunk: Chunk, c: nat)
    ensures Stream(log + [chunk], c) == Stream(log, c) + if chunk.conn == c then Tag(chunk.ticket, chunk.bytes) else []
  {
    assert (log + [chunk])[..|log|] == log;
  }

  lemma OnAppend(calls: seq<Call>, done: seq<nat>, t: nat, c: nat)
    ensures On(calls, done + [t], c) == On(calls, done, c) + if t < |calls| && calls[t].conn == c then [t] else []
  {
    assert (done + [t])[..|done|] == done;
  }

  lemma FramesAppend(calls: seq<Call>, ts: seq<nat>, t: nat)
    ensures Frames(calls, ts + [t]) == Frames(calls, ts) + TaggedFrame(calls, t)
  {
    assert (ts + [t])[..|ts|] == ts;
  }

  /** Finished calls do not change, so neither do their frames. */
  lemma {:induction false} OnFramed(calls: seq<Call>, calls': seq<Call>, done: seq<nat>, c: nat)
    requires forall t | t in done :: t < |calls| && t < |calls'| && calls'[t] == calls[t]
    ensures On(calls', done, c) == On(calls, done, c)
    ensures Frames(calls', On(calls', done, c)) == Frames(calls, On(calls, done, c))
  {
    if done != [] {
      var t := done[|done| - 1];
      var rest := done[..|done| - 1];
      assert t in done;
      assert forall u | u in rest :: u in done;
      OnFramed(calls, calls', rest, c);
      assert TaggedFrame(calls', t) == TaggedFrame(calls, t);
      hide Frames, TaggedFrame;
      var ts := On(calls, rest, c);
      if calls[t].conn == c {
        FramesAppend(calls, ts, t);
        FramesAppend(calls', ts, t);
      } else {
        assert On(calls, done, c) == ts && On(calls', done, c) == ts;
      }
    }
  }

  // ----- Steps that do not write to the connection -----

  lemma DoneUnchanged(f: Program, s: State, l: Label, c: nat)
    requires Inv(f, s) && Enabled(s, l)
    ensures On(Apply(f, s, l).calls, s.done, c) == On(s.calls, s.done, c)
    ensures Frames(Apply(f, s, l).calls, On(s.calls, s.done, c)) == DoneFrames(s, c)
  {
    var s' := Apply(f, s, l);
    LengthStep(f, s, l);
    forall t | t in s.done ensures t < |s.calls| && s'.calls[t] == s.calls[t] {
      assert Ready(s, t);
      CallsStep(f, s, l, t);
      if (l.Execute? || l.Write?) && s.threads[l.i].t == t { Sole(s, l.i, t); }
    }
    hide Apply, Inv, Enabled;
    OnFramed(s.calls, s'.calls, s.done, c);
  }

  predicate WritesTo(s: State, l: Label, c: nat)
    requires Enabled(s, l)
  {
    (l.Write? || l.WriteError?) && s.calls[s.threads[l.i].t].conn == c
  }

  lemma PartialUnchanged(f: Program, s: State, l: Label, c: nat, t: nat)
    requires Inv(f, s) && Enabled(s, l) && Clean(l) && !WritesTo(s, l, c)
    ensures Partial(Apply(f, s, l), t, c) <==> Partial(s, t, c)
    ensures Partial(s, t, c) ==> Sent(Apply(f, s, l).log, t) == Sent(s.log, t)
  {
    LengthStep(f, s, l);
    ListsStep(f, s, l);
    if l.Read? { NewCall(f, s, l); }
    if t < |s.calls| {
      CallsStep(f, s, l, t);
      if s.calls[t].conn == c { Untouched(f, s, l, t); }
    }
    hide Apply, Inv, Queue, Sent, Left;
  }

  lemma ContiguousElsewhere(f: Program, s: State, l: Label, c: nat)
    requires Inv(f, s) && Enabled(s, l) && Clean(l) && !WritesTo(s, l, c) && Contiguous(s, c)
    ensures Contiguous(Apply(f, s, l), c)
  {
    var s' := Apply(f, s, l);
    forall t: nat
      ensures Partial(s', t, c) <==> Partial(s, t, c)
      ensures Partial(s, t, c) ==> Sent(s'.log, t) == Sent(s.log, t)
    {
      PartialUnchanged(f, s, l, c, t);
    }
    StreamUnchanged(f, s, l, c);
    hide Apply, Inv, Enabled, Partial, Sent, Stream, DoneFrames;
  }

  lemma StreamUnchanged(f: Program, s: State, l: Label, c: nat)
    requires Inv(f, s) && Enabled(s, l) && !WritesTo(s, l, c)
    ensures Stream(Apply(f, s, l).log, c) == Stream(s.log, c)
    ensures DoneFrames(Apply(f, s, l), c) == DoneFrames(s, c)
  {
    LogStep(f, s, l);
    if l.Write? || l.WriteError? {
      hide Apply, Inv, Queue, Sending, Remaining, Stream;
      StreamAppend(s.log, Apply(f, s, l).log[|s.log|], c);
    }
    hide Enabled, Apply, Inv, Stream;
    DoneFramesUnchanged(f, s, l, c);
  }

  lemma DoneFramesUnchanged(f: Program, s: State, l: Label, c: nat)
    requires Inv(f, s) && Enabled(s, l) && !WritesTo(s, l, c)
    ensures DoneFrames(Apply(f, s, l), c) == DoneFrames(s, c)
  {
    var s' := Apply(f, s, l);
    ListsStep(f, s, l);
    DoneUnchanged(f, s, l, c);
    if l.Write? {
      var t := s.threads[l.i].t;
      LengthStep(f, s, l);
      CallsStep(f, s, l, t);
      OnAppend(s'.calls, s.done, t, c);
      hide On, Frames;
      assert On(s'.calls, s'.done, c) == On(s.calls, s.done, c);
    } else {
      hide On, Frames;
      assert s'.done == s.done;
    }
  }

  // ----- Steps that do -----

  /** The effect of a write on its connection's stream. */
  lemma WriteEffect(f: Program, s: State, l: Label)
    requires Inv(f, s) && Enabled(s, l) && l.Write?
    ensures
      var s' := Apply(f, s, l);
      var t := s.threads[l.i].t;
      var c := s.calls[t].conn;
      var sending := Sending(s.calls[t], l.n);
      && Stream(s'.log, c) == Stream(s.log, c) + Tag(t, sending)
      && Sent(s'.log, t) == Sent(s.log, t) + sending
      && |s'.calls| == |s.calls|
      && DoneFrames(s', c) == DoneFrames(s, c)
           + if l.n == Left(s.calls[t]) then Tag(t, FrameOf(s.calls[t])) else []
  {
    var s' := Apply(f, s, l);
    var t := s.threads[l.i].t;
    var c := s.calls[t].conn;
    assert SoundThread(s, s.threads[l.i]);
    LogStep(f, s, l);
    ListsStep(f, s, l);
    LengthStep(f, s, l);
    CallsStep(f, s, l, t);
    DoneUnchanged(f, s, l, c);
    hide Apply, Inv, Queue, Sending, Remaining, Stream, Sent, On, Frames, Tag;
    StreamAppend(s.log, s'.log[|s.log|], c);
    SentAppend(s.log, s'.log[|s.log|], t);
    OnAppend(s'.calls, s.done, t, c);
    if l.n == Left(s.calls[t]) { FramesAppend(s'.calls, On(s.calls, s.done, c), t); }
  }

  /** Which calls are partly written after a write. */
  lemma WritePartial(f: Program, s: State, l: Label, u: nat)
    requires Inv(f, s) && Enabled(s, l) && l.Write?
    ensures
      var t := s.threads[l.i].t;
      var c := s.calls[t].conn;
      Partial(Apply(f, s, l), u, c) <==> if u == t then l.n < Left(s.calls[t]) else Partial(s, u, c)
    ensures u != s.threads[l.i].t ==> Sent(Apply(f, s, l).log, u) == Sent(s.log, u)
  {
    var t := s.threads[l.i].t;
    Sole(s, l.i, t);
    ListsStep(f, s, l);
    LengthStep(f, s, l);
    if u < |s.calls| { CallsStep(f, s, l, u); }
    if u != t { Untouched(f, s, l, u); }
    hide Apply, Inv, Queue, Sent;
  }

  /** What a partly written call has sent is neither nothing nor everything. */
  lemma PartialSent(f: Program, s: State, t: nat, c: nat)
    requires Inv(f, s) && FramedAt(s, t) && t < |s.calls| && s.calls[t].value.Some?
    requires t !in s.done && t !in s.failed
    ensures s.calls[t].pos == 0 ==> Sent(s.log, t) == []
    ensures Partial(s, t, c) ==> Sent(s.log, t) != [] && Sent(s.log, t) < FrameOf(s.calls[t])
  {
    assert SoundCall(f, s, t);
    hide Sent;
    if s.calls[t].pos == 0 { RemainingAtStart(s.calls[t]); }
  }

  /** Before a guarded write the stream ends in what its own call has sent. */
  lemma BeforeGuardedWrite(f: Program, s: State, l: Label)
    requires Inv(f, s) && Framed(s) && Enabled(s, l) && l.Write? && Guard(s, l)
    requires Contiguous(s, s.calls[s.threads[l.i].t].conn)
    ensures
      var t := s.threads[l.i].t;
      var c := s.calls[t].conn;
      Stream(s.log, c) == DoneFrames(s, c) + Tag(t, Sent(s.log, t))
  {
    var t := s.threads[l.i].t;
    var c := s.calls[t].conn;
    assert SoundThread(s, s.threads[l.i]) && FramedAt(s, t);
    Sole(s, l.i, t);
    PartialSent(f, s, t, c);
    hide Inv, Framed, Sent, Stream, DoneFrames;
    if !Partial(s, t, c) { assert Tag(t, []) == []; }
  }

  lemma ContiguousWritten(f: Program, s: State, l: Label)
    requires Inv(f, s) && Framed(s) && Enabled(s, l) && l.Write? && Guard(s, l)
    requires Contiguous(s, s.calls[s.threads[l.i].t].conn)
    ensures Contiguous(Apply(f, s, l), s.calls[s.threads[l.i].t].conn)
  {
    hide Apply, Inv, Framed, Guard, Left, Sent, Stream, DoneFrames, Sending, FrameOf, Tag, Partial;
    var s' := Apply(f, s, l);
    var t := s.threads[l.i].t;
    var c := s.calls[t].conn;
    var sending := Sending(s.calls[t], l.n);
    forall u: nat ensures Partial(s', u, c) <==> u == t && l.n < Left(s.calls[t]) {
      OnlyWriterPartial(f, s, l, u);
    }
    BeforeGuardedWrite(f, s, l);
    WriteEffect(f, s, l);
    TagConcat(t, Sent(s.log, t), sending);
    if l.n < Left(s.calls[t]) {
      assert Partial(s', t, c);
      assert Stream(s'.log, c) == DoneFrames(s', c) + Tag(t, Sent(s'.log, t));
    } else {
      FramedStep(f, s, l);
      FinishedWrite(f, s, l);
      assert Stream(s'.log, c) == DoneFrames(s', c);
    }
  }

  lemma OnlyWriterPartial(f: Program, s: State, l: Label, u: nat)
    requires Inv(f, s) && Enabled(s, l) && l.Write? && Guard(s, l)
    ensures
      var t := s.threads[l.i].t;
      Partial(Apply(f, s, l), u, s.calls[t].conn) <==> u == t && l.n < Left(s.calls[t])
  {
    hide Apply, Inv, Left, Partial;
    WritePartial(f, s, l, u);
  }

  lemma FinishedWrite(f: Program, s: State, l: Label)
    requires Inv(f, s) && Enabled(s, l) && l.Write? && l.n == Left(s.calls[s.threads[l.i].t])
    requires Framed(Apply(f, s, l))
    ensures Sent(Apply(f, s, l).log, s.threads[l.i].t) == FrameOf(s.calls[s.threads[l.i].t])
  {
    var t := s.threads[l.i].t;
    assert SoundThread(s, s.threads[l.i]) && FramedAt(Apply(f, s, l), t);
    Sole(s, l.i, t);
    ListsStep(f, s, l);
    LengthStep(f, s, l);
    CallsStep(f, s, l, t);
    hide Apply, Inv, Queue, Sent, Sending, Remaining;
  }

  lemma InterleavedWritten(f: Program, s: State, l: Label, u: nat)
    requires Inv(f, s) && Framed(s) && Enabled(s, l) && l.Write?
    requires u != s.threads[l.i].t && Partial(s, u, s.calls[s.threads[l.i].t].conn)
    requires Contiguous(s, s.calls[s.threads[l.i].t].conn)
    ensures !Contiguous(Apply(f, s, l), s.calls[s.threads[l.i].t].conn)
  {
    hide Apply, Sent, Stream, DoneFrames, Sending, Remaining, Header;
    var s' := Apply(f, s, l);
    var t := s.threads[l.i].t;
    var c := s.calls[t].conn;
    assert SoundThread(s, s.threads[l.i]) && FramedAt(s, t) && SoundCall(f, s, t);
    assert FramedAt(s, u) && SoundCall(f, s, u);
    Sole(s, l.i, t);
    WriteEffect(f, s, l);
    SendingSplits(s.calls[t], l.n);
    WritePartial(f, s, l, u);
    WritePartial(f, s, l, t);
    PartialSent(f, s, u, c);
    hide Inv, Enabled, Framed;
    var k := |DoneFrames(s, c)|;
    assert Stream(s'.log, c)[k].0 == u;
  }

  /** A write keeps its connection's stream contiguous exactly when no other
      call of that connection is partly written at that moment. */
  lemma ContiguousExactly(f: Program, s: State, l: Label)
    requires Inv(f, s) && Framed(s) && Enabled(s, l) && l.Write?
    requires Contiguous(s, s.calls[s.threads[l.i].t].conn)
    ensures Contiguous(Apply(f, s, l), s.calls[s.threads[l.i].t].conn) <==> Guard(s, l)
  {
    hide Inv, Framed, Contiguous, Apply;
    if Guard(s, l) {
      ContiguousWritten(f, s, l);
    } else {
      var u: nat :| u != s.threads[l.i].t && Partial(s, u, s.calls[s.threads[l.i].t].conn);
      InterleavedWritten(f, s, l, u);
    }
  }

  // ----- Runs -----

  /** Every write happens while no other call of its connection is partly written. */
  ghost predicate GuardedRun(f: Program, s: State, ls: seq<Label>)
    decreases |ls|
  {
    ls == [] || (Enabled(s, ls[0]) && Clean(ls[0]) && Guard(s, ls[0]) && GuardedRun(f, Apply(f, s, ls[0]), ls[1..]))
  }

  /** Every write takes all that is left of the value. */
  predicate WholeRun(f: Program, s: State, ls: seq<Label>)
    decreases |ls|
  {
    ls == [] || (
      && Enabled(s, ls[0]) && Clean(ls[0])
      && (ls[0].Write? ==> ls[0].n == Left(s.calls[s.threads[ls[0].i].t]))
      && WholeRun(f, Apply(f, s, ls[0]), ls[1..]))
  }

  /** Whenever a call is written, it is alone in its connection's response stage. */
  ghost predicate SingleRun(f: Program, s: State, ls: seq<Label>)
    decreases |ls|
  {
    ls == [] || (
      && Enabled(s, ls[0]) && Clean(ls[0])
      && (ls[0].Write? ==>
            var t := s.threads[ls[0].i].t;
            forall u: nat | InResponse(s, u) && s.calls[u].conn == s.calls[t].conn :: u == t)
      && SingleRun(f, Apply(f, s, ls[0]), ls[1..]))
  }

  lemma {:induction false} WholeIsGuarded(f: Program, s: State, ls: seq<Label>)
    requires Inv(f, s) && WholeRun(f, s, ls) && forall t: nat | t < |s.calls| :: s.calls[t].pos == 0
    ensures GuardedRun(f, s, ls)
    decreases |ls|
  {
    hide Inv;
    if ls != [] {
      var s' := Apply(f, s, ls[0]);
      InvStep(f, s, ls[0]);
      LengthStep(f, s, ls[0]);
      forall t: nat | t < |s'.calls| ensures s'.calls[t].pos == 0 {
        if t < |s.calls| { CallsStep(f, s, ls[0], t); } else { NewCall(f, s, ls[0]); }
      }
      hide Apply, Enabled;
      WholeIsGuarded(f, s', ls[1..]);
    }
  }

  lemma {:induction false} SingleIsGuarded(f: Program, s: State, ls: seq<Label>)
    requires Inv(f, s) && SingleRun(f, s, ls)
    ensures GuardedRun(f, s, ls)
    decreases |ls|
  {
    if ls != [] {
      assert forall u: nat, c: nat | Partial(s, u, c) :: SoundCall(f, s, u) && InResponse(s, u);
      InvStep(f, s, ls[0]);
      hide Apply, Inv, SoundCall;
      SingleIsGuarded(f, Apply(f, s, ls[0]), ls[1..]);
    }
  }

  lemma {:induction false} ContiguousRun(f: Program, s: State, ls: seq<Label>, c: nat)
    requires Inv(f, s) && Framed(s) && Contiguous(s, c) && GuardedRun(f, s, ls)
    ensures Run(f, s, ls) && Inv(f, After(f, s, ls)) && Framed(After(f, s, ls)) && Contiguous(After(f, s, ls), c)
    decreases |ls|
  {
    hide Inv, Framed, Contiguous, Apply;
    if ls != [] {
      var l := ls[0];
      InvStep(f, s, l);
      FramedStep(f, s, l);
      if WritesTo(s, l, c) { ContiguousExactly(f, s, l); } else { ContiguousElsewhere(f, s, l, c); }
      hide Enabled, Guard;
      ContiguousRun(f, Apply(f, s, l), ls[1..], c);
    }
  }

  /** In every state of the run every connection's stream is contiguous. */
  ghost predicate AlwaysContiguous(f: Program, s: State, ls: seq<Label>)
    requires Run(f, s, ls)
    decreases |ls|
  {
    (forall c: nat :: Contiguous(s, c)) && (ls == [] || AlwaysContiguous(f, Apply(f, s, ls[0]), ls[1..]))
  }

  predicate CleanRun(ls: seq<Label>) { forall l | l in ls :: Clean(l) }

  /** A step keeps all streams contiguous exactly when it is guarded. */
  lemma AllContiguousExactly(f: Program, s: State, l: Label)
    requires Inv(f, s) && Framed(s) && Enabled(s, l) && Clean(l) && forall c: nat :: Contiguous(s, c)
    ensures (forall c: nat :: Contiguous(Apply(f, s, l), c)) <==> Guard(s, l)
  {
    hide Inv, Framed, Contiguous, Apply;
    if l.Write? { ContiguousExactly(f, s, l); }
    if Guard(s, l) {
      forall c: nat ensures Contiguous(Apply(f, s, l), c) {
        if !WritesTo(s, l, c) { ContiguousElsewhere(f, s, l, c); }
      }
    }
  }

  lemma {:induction false} ContiguousExactlyFrom(f: Program, s: State, ls: seq<Label>)
    requires Inv(f, s) && Framed(s) && Run(f, s, ls) && CleanRun(ls) && forall c: nat :: Contiguous(s, c)
    ensures AlwaysContiguous(f, s, ls) <==> GuardedRun(f, s, ls)
    decreases |ls|
  {
    hide Inv, Framed, Contiguous, Apply, Enabled, Clean, Guard;
    if ls != [] {
      var l := ls[0];
      var s' := Apply(f, s, l);
      AllContiguousExactly(f, s, l);
      if Guard(s, l) {
        InvStep(f, s, l);
        FramedStep(f, s, l);
        ContiguousExactlyFrom(f, s', ls[1..]);
      } else {
        assert !AlwaysContiguous(f, s', ls[1..]);
      }
    }
  }

  /** Over whole runs: without write errors, every connection's stream is
      contiguous throughout if and only if every write is guarded. */
  lemma ContiguousExactlyInRuns(f: Program, handlers: nat, ls: seq<Label>)
    requires Run(f, Init(handlers), ls) && CleanRun(ls)
    ensures AlwaysContiguous(f, Init(handlers), ls) <==> GuardedRun(f, Init(handlers), ls)
  {
    forall c: nat ensures Contiguous(Init(handlers), c) { StartsContiguous(f, handlers, c); }
    StartsContiguous(f, handlers, 0);
    ContiguousExactlyFrom(f, Init(handlers), ls);
  }

  // ----- The client's reader -----

  function Output(log: seq<Chunk>, c: nat): seq<byte> { Payload(Stream(log, c)) }

  function Payload(st: seq<Tagged>): seq<byte> { seq(|st|, i requires 0 <= i < |st| => st[i].1) }

  /** Calling `recvRespond` until no whole response is left. */
  function DecodeResponses(bs: seq<byte>): seq<(int, int)>
    decreases |bs|
  {
    match DecodeResponse(bs)
    case Throw(_) => []
    case Ok(reply, rest) => [reply] + DecodeResponses(rest)
  }

  predicate ExecutedCall(calls: seq<Call>, t: nat) {
    t < |calls| && calls[t].value.Some? && IsInt32(calls[t].id) && |calls[t].value.value| < SIZE_RANGE
  }

  predicate Executed(calls: seq<Call>, ts: seq<nat>) {
    forall i | 0 <= i < |ts| :: ExecutedCall(calls, ts[i])
  }

  function Cat(calls: seq<Call>, ts: seq<nat>): seq<byte>
    requires Executed(calls, ts)
  {
    if ts == [] then [] else FrameOf(calls[ts[0]]) + Cat(calls, ts[1..])
  }

  /** The ids and values of some calls, as the client understands them. */
  function Replies(calls: seq<Call>, ts: seq<nat>): seq<(int, int)>
    requires Executed(calls, ts)
  {
    if ts == [] then []
    else [(calls[ts[0]].id, ClientValue(calls[ts[0]].value.value))] + Replies(calls, ts[1..])
  }

  lemma {:induction false} CatAppend(calls: seq<Call>, ts: seq<nat>, us: seq<nat>)
    requires Executed(calls, ts) && Executed(calls, us)
    ensures Executed(calls, ts + us) && Cat(calls, ts + us) == Cat(calls, ts) + Cat(calls, us)
  {
    if ts == [] {
      assert ts + us == us;
    } else {
      hide FrameOf, ExecutedCall;
      CatAppend(calls, ts[1..], us);
      assert (ts + us)[1..] == ts[1..] + us;
      assert FrameOf(calls[ts[0]]) + Cat(calls, ts[1..]) + Cat(calls, us)
          == FrameOf(calls[ts[0]]) + (Cat(calls, ts[1..]) + Cat(calls, us));
    }
  }

  lemma {:induction false} PayloadOfFrames(calls: seq<Call>, ts: seq<nat>)
    requires Executed(calls, ts)
    ensures Payload(Frames(calls, ts)) == Cat(calls, ts)
  {
    hide FrameOf;
    if ts != [] {
      var t := ts[|ts| - 1];
      var rest := ts[..|ts| - 1];
      PayloadOfFrames(calls, rest);
      CatAppend(calls, rest, [t]);
      assert ts == rest + [t];
      assert Cat(calls, [t]) == FrameOf(calls[t]);
      assert Payload(Tag(t, FrameOf(calls[t]))) == FrameOf(calls[t]);
    }
  }

  lemma {:induction false} DecodeCat(calls: seq<Call>, ts: seq<nat>, cut: seq<byte>)
    requires Executed(calls, ts) && DecodeResponse(cut).Throw?
    ensures DecodeResponses(Cat(calls, ts) + cut) == Replies(calls, ts)
  {
    hide DecodeResponse, ClientValue, Frame;
    if ts == [] {
      assert Cat(calls, ts) + cut == cut;
    } else {
      var call := calls[ts[0]];
      var rest := Cat(calls, ts[1..]) + cut;
      assert Cat(calls, ts) + cut == FrameOf(call) + rest;
      ResponseRoundTrip(call.id, call.value.value, rest);
      DecodeCat(calls, ts[1..], cut);
    }
  }

  /** Every value fits the `int` position the writer keeps. */
  ghost predicate Sized(f: Program) { forall r :: |f(r)| <= INT_MAX }

  lemma {:induction false} OnDone(calls: seq<Call>, done: seq<nat>, c: nat, t: nat)
    requires t in On(calls, done, c)
    ensures t in done && t < |calls| && calls[t].conn == c
  {
    var u := done[|done| - 1];
    var rest := done[..|done| - 1];
    if t in On(calls, rest, c) { OnDone(calls, rest, c, t); }
  }

  lemma DoneExecuted(f: Program, s: State, c: nat)
    requires Inv(f, s) && Sized(f)
    ensures Executed(s.calls, On(s.calls, s.done, c))
  {
    hide On;
    var ts := On(s.calls, s.done, c);
    forall i | 0 <= i < |ts| ensures ExecutedCall(s.calls, ts[i]) {
      OnDone(s.calls, s.done, c, ts[i]);
      assert Ready(s, ts[i]) && SoundCall(f, s, ts[i]);
    }
  }

  /** A contiguous stream: whole responses and an undecodable rest. */
  lemma OutputSplits(f: Program, s: State, c: nat) returns (cut: seq<byte>)
    requires Inv(f, s) && Framed(s) && Contiguous(s, c) && Sized(f)
    ensures Executed(s.calls, On(s.calls, s.done, c))
    ensures Output(s.log, c) == Cat(s.calls, On(s.calls, s.done, c)) + cut
    ensures DecodeResponse(cut).Throw?
  {
    hide Stream, Sent, On, Frames, Cat, DecodeResponse, FrameOf, Executed;
    DoneExecuted(f, s, c);
    PayloadOfFrames(s.calls, On(s.calls, s.done, c));
    if t: nat :| Partial(s, t, c) {
      cut := Sent(s.log, t);
      PartialCut(f, s, t, c);
      hide Inv, Framed;
      assert Payload(DoneFrames(s, c) + Tag(t, cut)) == Payload(DoneFrames(s, c)) + cut;
    } else {
      cut := [];
      ResponseCut(0, [], []);
    }
  }

  lemma PartialCut(f: Program, s: State, t: nat, c: nat)
    requires Inv(f, s) && Framed(s) && Sized(f) && Partial(s, t, c)
    ensures DecodeResponse(Sent(s.log, t)).Throw?
  {
    assert SoundCall(f, s, t) && FramedAt(s, t);
    PartialSent(f, s, t, c);
    hide DecodeResponse, Sent, Inv;
    ResponseCut(s.calls[t].id, s.calls[t].value.value, Sent(s.log, t));
  }

  /** Stream framing: the client reads off a contiguous stream exactly the
      finished calls' ids and values, in completion order. */
  lemma ClientReads(f: Program, s: State, c: nat)
    requires Inv(f, s) && Framed(s) && Contiguous(s, c) && Sized(f)
    ensures Executed(s.calls, On(s.calls, s.done, c))
    ensures DecodeResponses(Output(s.log, c)) == Replies(s.calls, On(s.calls, s.done, c))
  {
    hide Inv, Framed, Contiguous, Output, On, Cat, DecodeResponses, DecodeResponse, Replies;
    var cut := OutputSplits(f, s, c);
    DecodeCat(s.calls, On(s.calls, s.done, c), cut);
  }

  lemma StartsContiguous(f: Program, handlers: nat, c: nat)
    ensures Inv(f, Init(handlers)) && Framed(Init(handlers)) && Contiguous(Init(handlers), c)
  {
    InvInit(f, handlers);
    assert forall t: nat :: FramedAt(Init(handlers), t);
  }

  /** Whole writes give whole responses, on every connection and in every run. */
  lemma WholeWritesReadBack(f: Program, handlers: nat, ls: seq<Label>, c: nat)
    requires WholeRun(f, Init(handlers), ls) && Sized(f)
    ensures Run(f, Init(handlers), ls)
    ensures
      var s := After(f, Init(handlers), ls);
      && Executed(s.calls, On(s.calls, s.done, c))
      && DecodeResponses(Output(s.log, c)) == Replies(s.calls, On(s.calls, s.done, c))
  {
    StartsContiguous(f, handlers, c);
    WholeIsGuarded(f, Init(handlers), ls);
    ContiguousRun(f, Init(handlers), ls, c);
    ClientReads(f, After(f, Init(handlers), ls), c);
  }

  /** So does one call at a time per connection, however its writes are split. */
  lemma SingleCallsReadBack(f: Program, handlers: nat, ls: seq<Label>, c: nat)
    requires SingleRun(f, Init(handlers), ls) && Sized(f)
    ensures Run(f, Init(handlers), ls)
    ensures
      var s := After(f, Init(handlers), ls);
      && Executed(s.calls, On(s.calls, s.done, c))
      && DecodeResponses(Output(s.log, c)) == Replies(s.calls, On(s.calls, s.done, c))
  {
    StartsContiguous(f, handlers, c);
    SingleIsGuarded(f, Init(handlers), ls);
    ContiguousRun(f, Init(handlers), ls, c);
    ClientReads(f, After(f, Init(handlers), ls), c);
  }
}
