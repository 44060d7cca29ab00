/** Runs that show what the theorems' hypotheses are for: two partial writes that
    interleave on one connection, and a connection closed with a response pending. */
module PipelineWitness {
  import opened Bytes
  import opened Codec
  import opened Response
  import opened Pipeline
  import opened PipelineStream
  import Method

  const VALUE: seq<byte> := [5, 0, 0, 0]

  /** One connection, two calls with ids 0 and 1, the responder and two handlers. */
  function Scene(r: Request, v: Option<seq<byte>>, pos0: nat, threads: seq<Pc>, queues: map<nat, seq<nat>>,
                 executed: seq<nat>, done: seq<nat>, log: seq<Chunk>): State {
    State([Call(0, 0, r, v, pos0), Call(0, 1, r, v, 0)], [], threads, queues, [], {0},
          executed, done, [], log, false)
  }

  /** Both calls are in the hands of handlers. */
  function Taken(r: Request): State { Scene(r, None, 0, [Idle, Took(0), Took(1)], map[], [], [], []) }

  function Executed(r: Request): State {
    Scene(r, Some(VALUE), 0, [Idle, Answered(0), Answered(1)], map[], [0, 1], [], [])
  }

  /** The first handler has pushed its call, found it alone and popped it. */
  function FirstWrites(r: Request): State {
    Scene(r, Some(VALUE), 0, [Idle, Writing(0), Answered(1)], map[0 := []], [0, 1], [], [])
  }

  function FirstPart(): seq<Chunk> { [Chunk(0, 0, Header(0, VALUE) + [5])] }

  /** It has written one byte of the value, and is about to put the call back. */
  function FirstStops(r: Request): State {
    Scene(r, Some(VALUE), 1, [Idle, Requeueing(0), Answered(1)], map[0 := []], [0, 1], [], FirstPart())
  }

  /** Before it does, the second handler pushes its own call, and finds it alone, too. */
  function SecondServes(r: Request): State {
    Scene(r, Some(VALUE), 1, [Idle, Requeueing(0), Serving(0)], map[0 := [1]], [0, 1], [], FirstPart())
  }

  /** It pops it, and the first lets go of the socket. */
  function SecondWrites(r: Request): State {
    Scene(r, Some(VALUE), 1, [Idle, Requeued(0), Writing(1)], map[0 := [0]], [0, 1], [], FirstPart())
  }

  function BothParts(): seq<Chunk> { FirstPart() + [Chunk(0, 1, Header(1, VALUE) + VALUE)] }

  function Mixed(r: Request): State {
    Scene(r, Some(VALUE), 1, [Idle, Requeued(0), Idle], map[0 := [0]], [0, 1], [1], BothParts())
  }

  lemma Begin(f: Program, r: Request) returns (ls: seq<Label>)
    ensures Run(f, Init(2), ls) && After(f, Init(2), ls) == Taken(r)
  {
    var s := Init(2);
    ls := [];
    Extend(f, s, ls, Open(0)); ls := ls + [Open(0)];
    Extend(f, s, ls, Read(0, 0, r)); ls := ls + [Read(0, 0, r)];
    Extend(f, s, ls, Take(1)); ls := ls + [Take(1)];
    Extend(f, s, ls, Read(0, 1, r)); ls := ls + [Read(0, 1, r)];
    assert s.threads == [Idle, Idle, Idle];
    Extend(f, s, ls, Take(2)); ls := ls + [Take(2)];
  }

  lemma BothExecuted(f: Program, r: Request) returns (ls: seq<Label>)
    requires f(r) == VALUE
    ensures Run(f, Init(2), ls) && After(f, Init(2), ls) == Executed(r)
  {
    hide Run, After, Init;
    ls := Begin(f, r);
    Extend(f, Init(2), ls, Execute(1)); ls := ls + [Execute(1)];
    Extend(f, Init(2), ls, Execute(2)); ls := ls + [Execute(2)];
  }

  lemma FirstPops(f: Program, r: Request, ls: seq<Label>) returns (ls': seq<Label>)
    requires Run(f, Init(2), ls) && After(f, Init(2), ls) == Executed(r)
    ensures Run(f, Init(2), ls') && After(f, Init(2), ls') == FirstWrites(r)
  {
    hide Run, After, Init;
    ls' := ls;
    Extend(f, Init(2), ls', PushResponse(1)); ls' := ls' + [PushResponse(1)];
    Extend(f, Init(2), ls', CheckSize(1)); ls' := ls' + [CheckSize(1)];
    Extend(f, Init(2), ls', Pop(1)); ls' := ls' + [Pop(1)];
  }

  lemma FirstIsCut(f: Program, r: Request, ls: seq<Label>) returns (ls': seq<Label>)
    requires Run(f, Init(2), ls) && After(f, Init(2), ls) == FirstWrites(r)
    ensures Run(f, Init(2), ls') && After(f, Init(2), ls') == FirstStops(r)
  {
    hide Run, After, Init, Header;
    var call := Call(0, 0, r, Some(VALUE), 0);
    assert Left(call) == 4 && Remaining(call) == Header(0, VALUE) + VALUE;
    assert Sending(call, 1) == Header(0, VALUE) + [5];
    hide Sending, Remaining, Left;
    Extend(f, Init(2), ls, Write(1, 1)); ls' := ls + [Write(1, 1)];
  }

  lemma SecondSees(f: Program, r: Request, ls: seq<Label>) returns (ls': seq<Label>)
    requires Run(f, Init(2), ls) && After(f, Init(2), ls) == FirstStops(r)
    ensures Run(f, Init(2), ls') && After(f, Init(2), ls') == SecondServes(r)
  {
    hide Run, After, Init, Header;
    var none: seq<nat> := [];
    assert none + [1] == [1];
    ls' := ls;
    Extend(f, Init(2), ls', PushResponse(2)); ls' := ls' + [PushResponse(2)];
    Extend(f, Init(2), ls', CheckSize(2)); ls' := ls' + [CheckSize(2)];
    assert After(f, Init(2), ls').queues == SecondServes(r).queues;
    assert After(f, Init(2), ls').threads == SecondServes(r).threads;
  }

  lemma SecondPops(f: Program, r: Request, ls: seq<Label>) returns (ls': seq<Label>)
    requires Run(f, Init(2), ls) && After(f, Init(2), ls) == FirstStops(r)
    ensures Run(f, Init(2), ls') && After(f, Init(2), ls') == SecondWrites(r)
  {
    hide Run, After, Init, Header;
    var none: seq<nat> := [];
    assert none + [0] == [0] && [1][1..] == none;
    ls' := SecondSees(f, r, ls);
    Extend(f, Init(2), ls', Pop(2)); ls' := ls' + [Pop(2)];
    Extend(f, Init(2), ls', Requeue(1)); ls' := ls' + [Requeue(1)];
    assert After(f, Init(2), ls').queues == SecondWrites(r).queues;
    assert After(f, Init(2), ls').threads == SecondWrites(r).threads;
  }

  lemma SecondIsWhole(f: Program, r: Request, ls: seq<Label>) returns (ls': seq<Label>)
    requires Run(f, Init(2), ls) && After(f, Init(2), ls) == SecondWrites(r)
    ensures Run(f, Init(2), ls') && After(f, Init(2), ls') == Mixed(r)
  {
    hide Run, After, Init, Header;
    var call := Call(0, 1, r, Some(VALUE), 0);
    assert Left(call) == 4 && Remaining(call) == Header(1, VALUE) + VALUE;
    assert Sending(call, 4) == Header(1, VALUE) + VALUE;
    hide Sending, Remaining, Left;
    Extend(f, Init(2), ls, Write(2, 4)); ls' := ls + [Write(2, 4)];
  }

  lemma InterleavedOutput(r: Request)
    ensures Output(Mixed(r).log, 0) == Header(0, VALUE) + [5] + Header(1, VALUE) + VALUE
  {
    var log := Mixed(r).log;
    var a, b := Header(0, VALUE) + [5], Header(1, VALUE) + VALUE;
    hide Header;
    assert log == [Chunk(0, 0, a)] + [Chunk(0, 1, b)];
    assert Stream([Chunk(0, 0, a)], 0) == Tag(0, a);
    StreamAppend([Chunk(0, 0, a)], Chunk(0, 1, b), 0);
    assert Stream(log, 0) == Tag(0, a) + Tag(1, b);
  }

  lemma InterleavedDecodes(out: seq<byte>)
    requires out == Header(0, VALUE) + [5] + Header(1, VALUE) + VALUE
    ensures
      var first := DecodeResponse(out);
      first.Ok? && first.value == (0, 5) && |first.rest| >= 4 && Int32(first.rest[..4]) == 1024
  {
    hide DecodeResponse;
    assert LE32(1) == [1, 0, 0, 0] && LE64(4) == [4, 0, 0, 0, 0, 0, 0, 0] && LE32(0) == [0, 0, 0, 0];
    var payload: seq<byte> := [5, 1, 0, 0];
    var rest: seq<byte> := [0] + LE64(4) + VALUE;
    assert out == Frame(0, payload) + rest;
    ResponseRoundTrip(0, payload, rest);
    assert rest[..4] == [0, 4, 0, 0];
  }

  /** The client takes the first bytes of the second response for the rest of
      the first value, loses step, and then reads a call id, 1024, that no call
      has: it aborts. */
  lemma ClientLosesStep(f: Program, r: Request) returns (ls: seq<Label>)
    requires f(r) == VALUE
    ensures Run(f, Init(2), ls)
    ensures
      var s := After(f, Init(2), ls);
      var first := DecodeResponse(Output(s.log, 0));
      && first.Ok? && first.value == (0, 5)
      && |first.rest| >= 4 && Int32(first.rest[..4]) == 1024
      && (forall t: nat | t < |s.calls| :: s.calls[t].request == r && s.calls[t].id != 1024)
  {
    hide Output, Run, After, Init, DecodeResponse, Header;
    ls := BothExecuted(f, r);
    ls := FirstPops(f, r, ls);
    ls := FirstIsCut(f, r, ls);
    ls := SecondPops(f, r, ls);
    ls := SecondIsWhole(f, r, ls);
    InterleavedOutput(r);
    InterleavedDecodes(Output(Mixed(r).log, 0));
  }

  /** It takes no more than two calls of `create(5, 0, 0, 0)`. */
  lemma TwoCreatesAreEnough() returns (ls: seq<Label>)
    ensures Run(Method.Answer, Init(2), ls)
    ensures
      var s := After(Method.Answer, Init(2), ls);
      var first := DecodeResponse(Output(s.log, 0));
      && (forall t: nat | t < |s.calls| :: s.calls[t].request == Method.CreateRequest(5, 0, 0, 0) && s.calls[t].id != 1024)
      && first.Ok? && |first.rest| >= 4 && Int32(first.rest[..4]) == 1024
  {
    var r := Method.CreateRequest(5, 0, 0, 0);
    assert Method.Answer(r) == VALUE by { assert |Method.NAME_NODE| == 8 && |Method.FS_NAME_SYSTEM| == 12; }
    hide Output, Run, After, Init, DecodeResponse, Method.Answer;
    ls := ClientLosesStep(Method.Answer, r);
  }

  // ----- A call cut short -----

  /** The second call was queued when the first came back. */
  function Behind(r: Request): State {
    Scene(r, Some(VALUE), 1, [Idle, Requeued(0), Pushed(0)], map[0 := [1, 0]], [0, 1], [], FirstPart())
  }

  lemma CutGoesBehind(f: Program, r: Request, ls: seq<Label>) returns (ls': seq<Label>)
    requires Run(f, Init(2), ls) && After(f, Init(2), ls) == FirstStops(r)
    ensures Run(f, Init(2), ls') && After(f, Init(2), ls') == Behind(r)
  {
    hide Run, After, Init, Header;
    var none: seq<nat> := [];
    assert none + [1] == [1] && [1] + [0] == [1, 0];
    ls' := ls;
    Extend(f, Init(2), ls', PushResponse(2)); ls' := ls' + [PushResponse(2)];
    Extend(f, Init(2), ls', Requeue(1)); ls' := ls' + [Requeue(1)];
    assert After(f, Init(2), ls').queues == Behind(r).queues;
    assert After(f, Init(2), ls').threads == Behind(r).threads;
  }

  /** The responder, sent to the connection for the call cut short, serves the other
      one first: the first waits with one byte of its value out. */
  lemma OtherCallFirst(f: Program, r: Request) returns (ls: seq<Label>)
    requires f(r) == VALUE
    ensures Run(f, Init(2), ls)
    ensures
      var s := After(f, Init(2), ls);
      && |s.threads| == 3 && s.threads[0] == Writing(1) && Queue(s, 0) == [0]
      && |s.calls| == 2 && s.calls[0].pos == 1 && s.calls[1].pos == 0
  {
    hide Run, After, Init, Header;
    ls := BothExecuted(f, r);
    ls := FirstPops(f, r, ls);
    ls := FirstIsCut(f, r, ls);
    ls := CutGoesBehind(f, r, ls);
    hide Left, Sending, Remaining;
    Extend(f, Init(2), ls, Repost(1)); ls := ls + [Repost(1)];
    Extend(f, Init(2), ls, TakeToken); ls := ls + [TakeToken];
    Extend(f, Init(2), ls, Lookup); ls := ls + [Lookup];
    Extend(f, Init(2), ls, Pop(0)); ls := ls + [Pop(0)];
  }

  // ----- A client that goes away -----

  /** The responder is about to look up a connection that was closed. */
  function Gone(r: Request): State {
    Scene(r, Some(VALUE), 0, [Looking(0), Idle, Pushed(0)], map[0 := [0, 1]], [0, 1], [], []).(open := {})
  }

  function BothQueued(r: Request): State {
    Scene(r, Some(VALUE), 0, [Idle, Posting(0), Pushed(0)], map[0 := [0, 1]], [0, 1], [], [])
  }

  lemma BothQueue(f: Program, r: Request, ls: seq<Label>) returns (ls': seq<Label>)
    requires Run(f, Init(2), ls) && After(f, Init(2), ls) == Executed(r)
    ensures Run(f, Init(2), ls') && After(f, Init(2), ls') == BothQueued(r)
  {
    hide Run, After, Init;
    var none: seq<nat> := [];
    assert none + [0] == [0] && [0] + [1] == [0, 1];
    ls' := ls;
    Extend(f, Init(2), ls', PushResponse(1)); ls' := ls' + [PushResponse(1)];
    Extend(f, Init(2), ls', PushResponse(2)); ls' := ls' + [PushResponse(2)];
    Extend(f, Init(2), ls', CheckSize(1)); ls' := ls' + [CheckSize(1)];
    assert After(f, Init(2), ls').queues == BothQueued(r).queues;
    assert After(f, Init(2), ls').threads == BothQueued(r).threads;
  }

  /** Both responses are queued, so the first handler posts a token; the client
      disconnects before the responder takes it. */
  lemma Disconnected(f: Program, r: Request) returns (ls: seq<Label>)
    requires f(r) == VALUE
    ensures Run(f, Init(2), ls) && After(f, Init(2), ls) == Gone(r)
  {
    hide Run, After, Init;
    ls := BothExecuted(f, r);
    ls := BothQueue(f, r, ls);
    hide Queue, Left, Sending, Remaining;
    Extend(f, Init(2), ls, Post(1)); ls := ls + [Post(1)];
    Extend(f, Init(2), ls, Close(0)); ls := ls + [Close(0)];
    Extend(f, Init(2), ls, TakeToken); ls := ls + [TakeToken];
  }

  /** The lookup then aborts the server, with two calls executed and none answered. */
  lemma DisconnectAborts(f: Program, r: Request) returns (ls: seq<Label>)
    requires f(r) == VALUE
    ensures Run(f, Init(2), ls)
    ensures var s := After(f, Init(2), ls); s.halted && s.executed == [0, 1] && s.done == [] && s.failed == []
    ensures ls[|ls| - 1..] == [Lookup]
  {
    hide Run, After, Init;
    ls := Disconnected(f, r);
    Extend(f, Init(2), ls, Lookup); ls := ls + [Lookup];
  }
}
