/** The server behind the readers, as an interleaved transition system: the call
    queue `_bq_call`, any number of handler threads, the per-connection response
    queues, the global queue of connection tokens `_bq_respond`, and the responder.

    Every lock-protected section is one step: each `BlockQueue` operation, the
    connection lookup, and the socket writes of `Connection::processResponse`. The
    push back into `respond_queue` inside that last one is a step of its own,
    during which the connection's `_mutex` stays held. A step is named by a label,
    so a run is a sequence of labels. */
module Pipeline {
  import opened Bytes
  import opened Codec
  import opened Response

  /** `max_num_calls`, `_max_respond_size` and `max_repsond_size`. */
  const CAPACITY: nat := 100

  /** What executing a request yields, as the value string that is sent. */
  type Program = Request -> seq<byte>

  /** A call the server has read. Calls are named by tickets, in reading order. */
  datatype Call = Call(conn: nat, id: int, request: Request, value: Option<seq<byte>>, pos: nat)

  /** Bytes one write step put on a connection's socket on behalf of one call. */
  datatype Chunk = Chunk(conn: nat, ticket: nat, bytes: seq<byte>)

  /** Where a thread is, and what it holds there. */
  datatype Pc =
    | Idle
    | Took(t: nat)        // handler: popped the call from _bq_call
    | Answered(t: nat)    // handler: result stored, doRespond entered
    | Pushed(c: nat)      // handler: call is in the respond_queue of c
    | Posting(c: nat)     // handler: saw a size other than 1
    | Looking(c: nat)     // responder: took a token of c
    | Serving(c: nat)     // about to pop the respond_queue of c
    | Writing(t: nat)     // popped the call, about to write
    | Requeueing(t: nat)  // wrote a part, holds the connection's _mutex
    | Requeued(c: nat)    // call is back in the respond_queue of c

  datatype State = State(
    calls: seq<Call>,
    callQ: seq<nat>,
    threads: seq<Pc>,               // threads[0] is the responder, the others are handlers
    queues: map<nat, seq<nat>>,     // respond_queue of every connection
    tokens: seq<nat>,               // _bq_respond
    open: set<nat>,                 // keys of _connections
    executed: seq<nat>,             // history: executions of Method::call
    done: seq<nat>,                 // history: calls fully written, in completion order
    failed: seq<nat>,               // history: calls given up after a write error or a full queue
    log: seq<Chunk>,                // history: everything written to the sockets
    halted: bool                    // std::abort was called
  )

  function Queue(s: State, c: nat): seq<nat> {
    if c in s.queues then s.queues[c] else []
  }

  function Init(handlers: nat): State {
    State([], [], seq(handlers + 1, _ => Idle), map[], [], {}, [], [], [], [], false)
  }

  datatype Label =
    | Open(c: nat)                              // a connection is entered into _connections
    | Close(c: nat)                             // a reader closes a connection
    | Read(c: nat, id: int, request: Request)   // a reader pushes a call to _bq_call
    | CallQueueFull(c: nat)
    | Take(i: nat)
    | Execute(i: nat)
    | PushResponse(i: nat)
    | ResponseQueueFull(i: nat)
    | CheckSize(i: nat)
    | Post(i: nat)                              // token to the back, from doRespond
    | Repost(i: nat)                            // token to the front, after a partial write
    | TokenQueueFull(i: nat)
    | TakeToken
    | Lookup
    | Pop(i: nat)
    | PopEmpty(i: nat)
    | Write(i: nat, n: nat)
    | WriteError(i: nat, n: nat)
    | Requeue(i: nat)
    | RequeueFull(i: nat)

  /** Bytes of the value not yet written. */
  function Left(call: Call): nat {
    if call.value.Some? && call.pos <= |call.value.value| then |call.value.value| - call.pos else 0
  }

  /** What is still to be sent for a call: the header goes first, at position 0. */
  function Remaining(call: Call): seq<byte> {
    if call.value.None? || call.pos > |call.value.value| then []
    else (if call.pos == 0 then Header(call.id, call.value.value) else []) + call.value.value[call.pos..]
  }

  /** The bytes one `processResponse` sends when `write_some` takes `n` of the value. */
  function Sending(call: Call, n: nat): seq<byte>
    requires n <= Left(call)
  {
    var r := Remaining(call);
    r[..|r| - (Left(call) - n)]
  }

  /** No thread is inside `processResponse` of this connection. */
  predicate Unlocked(s: State, c: nat) {
    forall j :: 0 <= j < |s.threads| && s.threads[j].Requeueing? && s.threads[j].t < |s.calls|
      ==> s.calls[s.threads[j].t].conn != c
  }

  /** The thread a label moves; `Open`, `Close` and the reader's labels move none. */
  function Mover(l: Label): nat {
    match l
    case Take(i) => i case Execute(i) => i case PushResponse(i) => i case ResponseQueueFull(i) => i
    case CheckSize(i) => i case Post(i) => i case Repost(i) => i case TokenQueueFull(i) => i
    case Pop(i) => i case PopEmpty(i) => i case Write(i, _) => i case WriteError(i, _) => i
    case Requeue(i) => i case RequeueFull(i) => i
    case _ => 0
  }

  /** The ticket a thread holds. */
  predicate Holds(s: State, pc: Pc) {
    match pc
    case Took(t) => t < |s.calls|
    case Answered(t) => t < |s.calls|
    case Writing(t) => t < |s.calls|
    case Requeueing(t) => t < |s.calls|
    case _ => false
  }

  function ConnOf(s: State, pc: Pc): nat
    requires Holds(s, pc)
  {
    s.calls[pc.t].conn
  }

  predicate Enabled(s: State, l: Label) {
    && !s.halted
    && Mover(l) < |s.threads|
    && var pc := s.threads[Mover(l)];
      match l
      case Open(c) => c !in s.open
      case Close(c) => c in s.open
      case Read(c, id, _) => c in s.open && IsInt32(id) && |s.callQ| < CAPACITY
      case CallQueueFull(c) => c in s.open && |s.callQ| >= CAPACITY
      case Take(i) => i > 0 && pc.Idle? && s.callQ != []
      case Execute(i) => pc.Took? && Holds(s, pc)
      case PushResponse(i) => pc.Answered? && Holds(s, pc) && |Queue(s, ConnOf(s, pc))| < CAPACITY
      case ResponseQueueFull(i) => pc.Answered? && Holds(s, pc) && |Queue(s, ConnOf(s, pc))| >= CAPACITY
      case CheckSize(i) => pc.Pushed?
      case Post(i) => pc.Posting? && |s.tokens| < CAPACITY
      case Repost(i) => pc.Requeued? && |s.tokens| < CAPACITY
      case TokenQueueFull(i) => (pc.Posting? || pc.Requeued?) && |s.tokens| >= CAPACITY
      case TakeToken => pc.Idle? && s.tokens != []
      case Lookup => pc.Looking?
      case Pop(i) => pc.Serving? && Queue(s, pc.c) != []
      case PopEmpty(i) => pc.Serving? && Queue(s, pc.c) == []
      case Write(i, n) =>
        && pc.Writing? && Holds(s, pc) && Unlocked(s, ConnOf(s, pc))
        && n <= Left(s.calls[pc.t]) && (n == 0 ==> Left(s.calls[pc.t]) == 0)
      case WriteError(i, n) =>
        && pc.Writing? && Holds(s, pc) && Unlocked(s, ConnOf(s, pc))
        && n <= |Remaining(s.calls[pc.t])|
      case Requeue(i) => pc.Requeueing? && Holds(s, pc) && |Queue(s, ConnOf(s, pc))| < CAPACITY
      case RequeueFull(i) => pc.Requeueing? && Holds(s, pc) && |Queue(s, ConnOf(s, pc))| >= CAPACITY
  }

  function Go(s: State, i: nat, pc: Pc): State
    requires i < |s.threads|
  {
    s.(threads := s.threads[i := pc])
  }

  /** A writer gives a call up; `respond` aborts on that, `doRespond` ignores it. */
  function GiveUp(s: State, i: nat, t: nat): State
    requires i < |s.threads|
  {
    Go(s, i, Idle).(failed := s.failed + [t], halted := i == 0)
  }

  function Apply(f: Program, s: State, l: Label): State
    requires Enabled(s, l)
  {
    var pc := s.threads[Mover(l)];
    match l
    case Open(c) => s.(open := s.open + {c})
    case Close(c) => s.(open := s.open - {c})
    case Read(c, id, request) =>
      s.(calls := s.calls + [Call(c, id, request, None, 0)], callQ := s.callQ + [|s.calls|])
    case CallQueueFull(c) => s.(halted := true)
    case Take(i) => Go(s, i, Took(s.callQ[0])).(callQ := s.callQ[1..])
    case Execute(i) =>
      var call := s.calls[pc.t];
      Go(s, i, Answered(pc.t)).(
      calls := s.calls[pc.t := call.(value := Some(f(call.request)))],
      executed := s.executed + [pc.t])
    case PushResponse(i) =>
      var c := ConnOf(s, pc);
      Go(s, i, Pushed(c)).(queues := s.queues[c := Queue(s, c) + [pc.t]])
    case ResponseQueueFull(i) => s.(halted := true)
    case CheckSize(i) => Go(s, i, if |Queue(s, pc.c)| == 1 then Serving(pc.c) else Posting(pc.c))
    case Post(i) => Go(s, i, Idle).(tokens := s.tokens + [pc.c])
    case Repost(i) => Go(s, i, Idle).(tokens := [pc.c] + s.tokens)
    case TokenQueueFull(i) => s.(halted := true)
    case TakeToken => Go(s, 0, Looking(s.tokens[0])).(tokens := s.tokens[1..])
    case Lookup => if pc.c in s.open then Go(s, 0, Serving(pc.c)) else s.(halted := true)
    case Pop(i) =>
      var q := Queue(s, pc.c);
      Go(s, i, Writing(q[0])).(queues := s.queues[pc.c := q[1..]])
    case PopEmpty(i) => Go(s, i, Idle).(halted := i == 0)
    case Write(i, n) =>
      var call := s.calls[pc.t];
      var s1 := s.(log := s.log + [Chunk(call.conn, pc.t, Sending(call, n))]);
      if n < Left(call) then
        Go(s1, i, Requeueing(pc.t)).(calls := s.calls[pc.t := call.(pos := call.pos + n)])
      else
        Go(s1, i, Idle).(done := s.done + [pc.t])
    case WriteError(i, n) =>
      var call := s.calls[pc.t];
      GiveUp(s.(log := s.log + [Chunk(call.conn, pc.t, Remaining(call)[..n])]), i, pc.t)
    case Requeue(i) =>
      var c := ConnOf(s, pc);
      Go(s, i, Requeued(c)).(queues := s.queues[c := Queue(s, c) + [pc.t]])
    case RequeueFull(i) => GiveUp(s, i, pc.t)
  }

  // ----- Runs -----

  /** Every label of the run is enabled where it occurs. */
  predicate Run(f: Program, s: State, ls: seq<Label>)
    decreases |ls|
  {
    ls == [] || (Enabled(s, ls[0]) && Run(f, Apply(f, s, ls[0]), ls[1..]))
  }

  function After(f: Program, s: State, ls: seq<Label>): State
    requires Run(f, s, ls)
    decreases |ls|
  {
    if ls == [] then s else After(f, Apply(f, s, ls[0]), ls[1..])
  }

  /** A run goes on by any label enabled at its end. */
  lemma {:induction false} Extend(f: Program, s: State, ls: seq<Label>, l: Label)
    requires Run(f, s, ls) && Enabled(After(f, s, ls), l)
    ensures Run(f, s, ls + [l]) && After(f, s, ls + [l]) == Apply(f, After(f, s, ls), l)
    decreases |ls|
  {
    hide Enabled, Apply;
    if ls == [] {
      assert ls + [l] == [l];
    } else {
      Extend(f, Apply(f, s, ls[0]), ls[1..], l);
      assert (ls + [l])[1..] == ls[1..] + [l];
    }
  }

  /** A run without its last label. */
  lemma {:induction false} Shorten(f: Program, s: State, ls: seq<Label>)
    requires ls != [] && Run(f, s, ls)
    ensures
      var but := ls[..|ls| - 1];
      && Run(f, s, but) && Enabled(After(f, s, but), ls[|ls| - 1])
      && After(f, s, ls) == Apply(f, After(f, s, but), ls[|ls| - 1])
    decreases |ls|
  {
    hide Enabled, Apply;
    var but := ls[..|ls| - 1];
    if |ls| > 1 {
      assert but[1..] == ls[1..][..|ls| - 2] && ls[1..][|ls| - 2] == ls[|ls| - 1];
      Shorten(f, Apply(f, s, ls[0]), ls[1..]);
    }
  }
}
