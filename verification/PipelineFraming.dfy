/** What reaches the sockets: the bytes of one call, and the stream of a connection. */
module PipelineFraming {
  import opened Bytes
  import opened Response
  import opened Pipeline
  import opened PipelineInv

  // ----- The bytes sent for one call -----

  /** Everything written on behalf of one call, in order. */
  function Sent(log: seq<Chunk>, t: nat): seq<byte> {
    if log == [] then []
    else
      var last := log[|log| - 1];
      Sent(log[..|log| - 1], t) + if last.ticket == t then last.bytes else []
  }

  /** The response owed for an executed call. */
  function FrameOf(call: Call): seq<byte>
    requires call.value.Some?
  {
    Frame(call.id, call.value.value)
  }

  ghost predicate FramedAt(s: State, t: nat) {
    if t >= |s.calls| || s.calls[t].value.None? then Sent(s.log, t) == []
    else if t in s.failed then true
    else if t in s.done then Sent(s.log, t) == FrameOf(s.calls[t])
    else Sent(s.log, t) + Remaining(s.calls[t]) == FrameOf(s.calls[t])
  }

  /** No call's response has lost, repeated or misplaced a byte. */
  ghost predicate Framed(s: State) {
    forall t: nat :: FramedAt(s, t)
  }

  lemma SentAppend(log: seq<Chunk>, chunk: Chunk, t: nat)
    ensures Sent(log + [chunk], t) == Sent(log, t) + if chunk.ticket == t then chunk.bytes else []
  {
    assert (log + [chunk])[..|log|] == log;
  }

  /** One `processResponse` sends the header at position 0, and `n` bytes of the value. */
  lemma SendingIs(call: Call, n: nat)
    requires call.value.Some? && call.pos <= |call.value.value| && n <= Left(call)
    ensures Left(call) == |call.value.value| - call.pos
    ensures Sending(call, n) == (if call.pos == 0 then Header(call.id, call.value.value) else [])
                                  + call.value.value[call.pos..][..n]
  {
    hide LE32, LE64;
    var v := call.value.value;
    var head := if call.pos == 0 then Header(call.id, v) else [];
    assert Remaining(call) == head + v[call.pos..];
    hide Remaining;
    var k := |head| + n;
    assert (head + v[call.pos..])[..k] == head + v[call.pos..][..n];
  }

  lemma Cut(head: seq<byte>, tail: seq<byte>, n: nat)
    requires n <= |tail|
    ensures head + tail[..n] <= head + tail
    ensures (head + tail[..n]) + tail[n..] == head + tail
  {
  }

  /** A partial write sends a prefix of what remains; the rest remains. */
  lemma SendingSplits(call: Call, n: nat)
    requires call.value.Some? && call.pos <= |call.value.value| && n <= Left(call)
    ensures Sending(call, n) <= Remaining(call)
    ensures 0 < n < Left(call) ==> Sending(call, n) + Remaining(call.(pos := call.pos + n)) == Remaining(call)
    ensures n == Left(call) ==> Sending(call, n) == Remaining(call)
    ensures n > 0 || call.pos == 0 ==> Sending(call, n) != []
  {
    hide Header, Sending;
    var v := call.value.value;
    var head := if call.pos == 0 then Header(call.id, v) else [];
    SendingIs(call, n);
    assert Remaining(call) == head + v[call.pos..];
    if 0 < n < Left(call) {
      assert Remaining(call.(pos := call.pos + n)) == v[call.pos + n..] == v[call.pos..][n..];
    }
    hide Remaining, Left;
    Cut(head, v[call.pos..], n);
  }

  lemma LogStep(f: Program, s: State, l: Label)
    requires Enabled(s, l)
    ensures
      var pc := s.threads[Mover(l)];
      Apply(f, s, l).log ==
        if l.Write? then s.log + [Chunk(s.calls[pc.t].conn, pc.t, Sending(s.calls[pc.t], l.n))]
        else if l.WriteError? then s.log + [Chunk(s.calls[pc.t].conn, pc.t, Remaining(s.calls[pc.t])[..l.n])]
        else s.log
  {
    hide Sending, Remaining, Queue;
  }

  predicate Writes(s: State, l: Label, t: nat)
    requires Enabled(s, l)
  {
    (l.Write? || l.WriteError?) && s.threads[l.i].t == t
  }

  lemma FramedWriter(f: Program, s: State, l: Label, t: nat)
    requires Inv(f, s) && Enabled(s, l) && Writes(s, l, t) && FramedAt(s, t)
    ensures FramedAt(Apply(f, s, l), t)
  {
    hide Apply, Queue, Sent, Frame, Sending, Remaining, Balanced, Counted;
    assert SoundThread(s, s.threads[l.i]) && SoundCall(f, s, t);
    Sole(s, l.i, t);
    LogStep(f, s, l);
    LengthStep(f, s, l);
    ListsStep(f, s, l);
    CallsStep(f, s, l, t);
    hide Inv, SoundCall;
    SentAppend(s.log, Apply(f, s, l).log[|s.log|], t);
    if l.Write? { SendingSplits(s.calls[t], l.n); }
  }

  /** A step that neither writes nor executes a call leaves it as it was. */
  lemma Untouched(f: Program, s: State, l: Label, t: nat)
    requires Inv(f, s) && Enabled(s, l) && !Writes(s, l, t)
    ensures
      var s' := Apply(f, s, l);
      && Sent(s'.log, t) == Sent(s.log, t)
      && (t in s'.done <==> t in s.done)
      && (t in s'.failed <==> t in s.failed || (l.RequeueFull? && s.threads[l.i].t == t))
  {
    LogStep(f, s, l);
    ListsStep(f, s, l);
    hide Apply, Queue, Sent, Sending, Remaining, Inv;
    if l.Write? || l.WriteError? { SentAppend(s.log, Apply(f, s, l).log[|s.log|], t); }
  }

  lemma FramedExecute(f: Program, s: State, l: Label)
    requires Inv(f, s) && Enabled(s, l) && l.Execute? && FramedAt(s, s.threads[l.i].t)
    ensures FramedAt(Apply(f, s, l), s.threads[l.i].t)
  {
    var t := s.threads[l.i].t;
    assert SoundThread(s, s.threads[l.i]) && SoundCall(f, s, t);
    Sole(s, l.i, t);
    Untouched(f, s, l, t);
    LengthStep(f, s, l);
    CallsStep(f, s, l, t);
    hide Apply, Queue, Sent;
    RemainingAtStart(Apply(f, s, l).calls[t]);
  }

  lemma FramedOther(f: Program, s: State, l: Label, t: nat)
    requires Inv(f, s) && Enabled(s, l) && !Writes(s, l, t) && FramedAt(s, t)
    ensures FramedAt(Apply(f, s, l), t)
  {
    if l.Execute? && s.threads[l.i].t == t {
      FramedExecute(f, s, l);
    } else {
      Untouched(f, s, l, t);
      LengthStep(f, s, l);
      if l.Read? { NewCall(f, s, l); }
      if t < |s.calls| { CallsStep(f, s, l, t); }
      hide Apply, Inv, Queue, Sent, Frame, Sending, Remaining;
    }
  }

  lemma RemainingAtStart(call: Call)
    requires call.value.Some? && call.pos == 0
    ensures Remaining(call) == FrameOf(call)
  {
    assert call.value.value[0..] == call.value.value;
  }

  lemma FramedAtStep(f: Program, s: State, l: Label, t: nat)
    requires Inv(f, s) && Enabled(s, l) && FramedAt(s, t)
    ensures FramedAt(Apply(f, s, l), t)
  {
    hide Inv, FramedAt, Apply;
    if Writes(s, l, t) { FramedWriter(f, s, l, t); } else { FramedOther(f, s, l, t); }
  }

  lemma FramedStep(f: Program, s: State, l: Label)
    requires Inv(f, s) && Enabled(s, l) && Framed(s)
    ensures Framed(Apply(f, s, l))
  {
    hide FramedAt, Inv, Enabled, Apply;
    forall t: nat ensures FramedAt(Apply(f, s, l), t) {
      FramedAtStep(f, s, l, t);
    }
  }

  lemma {:induction false} FramedRun(f: Program, s: State, ls: seq<Label>)
    requires Inv(f, s) && Framed(s) && Run(f, s, ls)
    ensures Framed(After(f, s, ls))
    decreases |ls|
  {
    hide Inv, Framed, Enabled, Apply;
    if ls != [] {
      InvStep(f, s, ls[0]);
      FramedStep(f, s, ls[0]);
      FramedRun(f, Apply(f, s, ls[0]), ls[1..]);
    }
  }

  /** Per-call framing: under any interleaving and any partial writes, what was
      sent for a finished call is its id, the 8-byte length and the value string
      of its own request, each byte once; and no call is sent ahead of itself. */
  lemma ResponsesExact(f: Program, handlers: nat, ls: seq<Label>, t: nat)
    requires Run(f, Init(handlers), ls)
    ensures
      var s := After(f, Init(handlers), ls);
      && (t in s.done ==> t < |s.calls| && Sent(s.log, t) == Frame(s.calls[t].id, f(s.calls[t].request)))
      && (t < |s.calls| && t !in s.failed ==> Sent(s.log, t) <= Frame(s.calls[t].id, f(s.calls[t].request)))
  {
    InvInit(f, handlers);
    InvRun(f, Init(handlers), ls);
    FramedRun(f, Init(handlers), ls);
    var s := After(f, Init(handlers), ls);
    hide Run, After, Init, Frame, Remaining, Sent;
    assert FramedAt(s, t);
    if t in s.done { assert Ready(s, t); }
    if t < |s.calls| { assert SoundCall(f, s, t) && Places(s, t) == 1; }
  }
}
