/** The whole framework: client connections, the server's listener and readers,
    and the pipeline behind them, joined by byte streams.

    A client connection and the server connection at its other end have the same
    number, that of the endpoint. Every write of the pipeline happens while no
    other call of its connection is partly written, and without error: responses
    reach the client as whole frames. */
module EndToEnd {
  import opened Bytes
  import opened Codec
  import opened Response
  import Method
  import A = Acceptance
  import P = Pipeline
  import S = PipelineStream

  /** `Client::Call`. */
  datatype ClientCall = ClientCall(request: Request, sent: bool, value: Option<int>)

  /** `Client::Connection`, and the bytes on their way from it. */
  datatype Client = Client(
    next: nat,                     // last_call_index
    calls: map<int, ClientCall>,   // _calls
    up: seq<byte>,                 // sent, not yet read by the server
    unread: seq<int>,              // history: the ids of the calls in `up`
    pos: nat,                      // how many bytes recvRespond has consumed
    got: nat                       // history: in how many responses
  )

  datatype System = System(
    front: A.Front,
    back: P.State,
    clients: seq<Client>,
    hand: map<nat, (int, Request)>, // calls readers have read and not yet pushed, by connection
    lost: bool                      // a client aborted: "Can not find received call id"
  )

  function Init(readers: nat, handlers: nat): System {
    System(A.Init(readers), P.Init(handlers), [], map[], false)
  }

  datatype Label =
    | Accept
    | Front(a: A.Label)                   // steps of listener and readers that touch nothing else
    | Enter                               // the connection is looked up or created
    | ReadCall(r: nat)                    // Call::read
    | PushCall(r: nat)
    | PushFull(r: nat)                    // _bq_call is full: the reader aborts
    | CloseConn(r: nat)
    | Back(p: P.Label)
    | AddCall(c: nat, request: Request)   // Client::getConnection
    | SendCall(c: nat, id: int)
    | Receive(c: nat)                     // recvRespond

  /** Requests the client library is asked to send: well-formed ones the server knows. */
  predicate Sendable(r: Request) { WellFormedRequest(r) && Method.Known(r) }

  predicate Own(a: A.Label) {
    a.Readable? || a.EventError? || a.Add? || a.Refuse? || a.Fetch? || a.ReadFail? || a.Rearm? || a.RearmError?
  }

  predicate Internal(p: P.Label) { !p.Open? && !p.Close? && !p.Read? && !p.CallQueueFull? }

  predicate Up(s: System) { !s.front.halted && !s.back.halted }

  function Fetched(s: System, e: nat): seq<byte> {
    if e < |s.clients| then s.clients[e].up else []
  }

  /** What the client has not consumed of its connection's stream. */
  function Inbox(s: System, c: nat): seq<byte>
    requires c < |s.clients|
  {
    var out := S.Output(s.back.log, c);
    if s.clients[c].pos <= |out| then out[s.clients[c].pos..] else []
  }

  /** The pipeline's step that takes what a reader has read from connection `e`. */
  function Push(s: System, e: nat): P.Label
    requires e in s.hand
  {
    P.Read(e, s.hand[e].0, s.hand[e].1)
  }

  ghost predicate Enabled(s: System, l: Label) {
    match l
    case Accept => Up(s) && A.Enabled(s.front, A.Accept)
    case Front(a) =>
      && Up(s) && Own(a) && A.Enabled(s.front, a)
      && (a.Readable? ==> Fetched(s, s.front.armed[a.k]) != [])
      && (a.ReadFail? ==> DecodeCall(Fetched(s, s.front.readers[a.r].pc.e)).Throw?)
    case Enter => Up(s) && A.Enabled(s.front, A.LookUp) && |s.back.threads| >= 1
    case ReadCall(r) =>
      && Up(s) && A.Enabled(s.front, A.ReadOk(r))
      && s.front.readers[r].pc.e < |s.clients|
      && DecodeCall(s.clients[s.front.readers[r].pc.e].up).Ok?
    case PushCall(r) =>
      && Up(s) && A.Enabled(s.front, A.PushCall(r))
      && s.front.readers[r].pc.e in s.hand && P.Enabled(s.back, Push(s, s.front.readers[r].pc.e))
    case PushFull(r) =>
      Up(s) && A.Enabled(s.front, A.PushCall(r)) && P.Enabled(s.back, P.CallQueueFull(s.front.readers[r].pc.e))
    case CloseConn(r) =>
      Up(s) && A.Enabled(s.front, A.CloseConn(r)) && P.Enabled(s.back, P.Close(s.front.readers[r].pc.e))
    case Back(p) =>
      Up(s) && Internal(p) && P.Enabled(s.back, p) && S.Clean(p) && S.Guard(s.back, p)
    case AddCall(c, request) => c < |s.clients| && !s.lost && s.clients[c].next <= INT_MAX && Sendable(request)
    case SendCall(c, id) => c < |s.clients| && id in s.clients[c].calls && !s.clients[c].calls[id].sent
    case Receive(c) => c < |s.clients| && !s.lost && DecodeResponse(Inbox(s, c)).Ok?
  }

  function Answer(r: Request): seq<byte> { Method.Answer(r) }

  function SetClient(s: System, c: nat, cl: Client): System
    requires c < |s.clients|
  {
    s.(clients := s.clients[c := cl])
  }

  ghost function Apply(s: System, l: Label): System
    requires Enabled(s, l)
  {
    match l
    case Accept =>
      s.(front := A.Apply(s.front, A.Accept), clients := s.clients + [Client(0, map[], [], [], 0, 0)])
    case Front(a) => s.(front := A.Apply(s.front, a))
    case Enter =>
      var e := s.front.listener.e;
      s.(front := A.Apply(s.front, A.LookUp),
      back := if P.Enabled(s.back, P.Open(e)) then P.Apply(Answer, s.back, P.Open(e)) else s.back)
    case ReadCall(r) =>
      var e := s.front.readers[r].pc.e;
      var cl := s.clients[e];
      var read := DecodeCall(cl.up);
      SetClient(s, e, cl.(up := read.rest, unread := if cl.unread == [] then [] else cl.unread[1..])).(
      front := A.Apply(s.front, A.ReadOk(r)), hand := s.hand[e := read.value])
    case PushCall(r) =>
      var e := s.front.readers[r].pc.e;
      s.(front := A.Apply(s.front, A.PushCall(r)), back := P.Apply(Answer, s.back, Push(s, e)), hand := s.hand - {e})
    case PushFull(r) => s.(back := P.Apply(Answer, s.back, P.CallQueueFull(s.front.readers[r].pc.e)))
    case CloseConn(r) =>
      var e := s.front.readers[r].pc.e;
      s.(front := A.Apply(s.front, A.CloseConn(r)), back := P.Apply(Answer, s.back, P.Close(e)))
    case Back(p) => s.(back := P.Apply(Answer, s.back, p))
    case AddCall(c, request) =>
      var cl := s.clients[c];
      SetClient(s, c, cl.(next := cl.next + 1, calls := cl.calls[cl.next := ClientCall(request, false, None)]))
    case SendCall(c, id) =>
      var cl := s.clients[c];
      var call := cl.calls[id];
      SetClient(s, c, cl.(calls := cl.calls[id := call.(sent := true)],
        up := cl.up + EncodeCall(id, call.request), unread := cl.unread + [id]))
    case Receive(c) =>
      var cl := s.clients[c];
      var read := DecodeResponse(Inbox(s, c));
      var (id, v) := read.value;
      if id in cl.calls then
        SetClient(s, c, cl.(calls := cl.calls[id := cl.calls[id].(value := Some(v))],
          pos := cl.pos + |Inbox(s, c)| - |read.rest|, got := cl.got + 1))
      else s.(lost := true)
  }

  ghost predicate Run(s: System, ls: seq<Label>)
    decreases |ls|
  {
    ls == [] || (Enabled(s, ls[0]) && Run(Apply(s, ls[0]), ls[1..]))
  }

  ghost function After(s: System, ls: seq<Label>): System
    requires Run(s, ls)
    decreases |ls|
  {
    if ls == [] then s else After(Apply(s, ls[0]), ls[1..])
  }
}
