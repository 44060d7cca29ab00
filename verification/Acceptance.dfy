/** The server's front as an interleaved transition system: the listener thread,
    which accepts sockets, waits for them to become readable and hands them to the
    readers in turn, and any number of reader threads with bounded queues.

    Connections are named by their endpoint objects, a fresh one per accepted socket. */
module Acceptance {

  /** `max_reader_queue_size`. */
  const READER_CAPACITY: nat := 100

  datatype ReaderPc =
    | Waiting
    | Reading(e: nat)    // inside Call::read
    | Holding(e: nat)    // read a call, about to push it to _bq_call
    | Rearming(e: nat)   // about to ask for the socket's next read event
    | Closing(e: nat)    // the read failed, about to close the connection

  datatype Reader = Reader(queue: seq<nat>, pc: ReaderPc)

  datatype ListenerPc =
    | Polling
    | Found(e: nat)   // handle_read entered
    /** In addToReader: `tries` readers from `start` on have refused. `live` is
        history: how many connections existed when the call began. */
    | Adding(e: nat, start: nat, tries: nat, live: int)

  datatype Front = Front(
    accepted: nat,             // endpoints 0 .. accepted-1 exist
    armed: seq<nat>,           // sockets waiting for a read event
    listener: ListenerPc,
    readers: seq<Reader>,
    last: int,                 // _last_reader_index
    table: map<nat, nat>,      // _connections: endpoint to connection index
    nextIndex: nat,            // _last_connection_index
    count: int,                // num_connections
    closed: seq<nat>,          // history: closed by a reader
    dropped: seq<nat>,         // history: let go after an error event
    given: seq<nat>,           // history: readers chosen by addToReader
    refusals: nat,             // history: try_push calls that timed out
    halted: bool
  )

  function Init(readers: nat): Front {
    Front(0, [], Polling, seq(readers, _ => Reader([], Waiting)), -1, map[], 0, 0, [], [], [], 0, false)
  }

  datatype Label =
    | Accept
    | Readable(k: nat)     // a read event of armed socket k
    | EventError(k: nat)   // an error event: handle_read ignores it
    | LookUp               // find or create the connection, enter addToReader
    | Add                  // the reader's try_push succeeds
    | Refuse               // it times out
    | Fetch(r: nat)        // the reader pops a connection
    | ReadOk(r: nat)
    | ReadFail(r: nat)
    | PushCall(r: nat)
    | Rearm(r: nat)
    | RearmError(r: nat)   // the exception is only logged
    | CloseConn(r: nat)

  function ReaderOf(l: Label): nat {
    match l
    case Fetch(r) => r case ReadOk(r) => r case ReadFail(r) => r case PushCall(r) => r
    case Rearm(r) => r case RearmError(r) => r case CloseConn(r) => r
    case _ => 0
  }

  function Without(q: seq<nat>, k: nat): seq<nat>
    requires k < |q|
  {
    q[..k] + q[k + 1..]
  }

  /** `(i+1) % num_readers`. */
  function Next(i: int, n: nat): int { if i + 1 >= n then 0 else i + 1 }

  function Live(s: Front): int { s.accepted - |s.closed| - |s.dropped| }

  predicate Enabled(s: Front, l: Label) {
    && !s.halted && ReaderOf(l) < |s.readers| && -1 <= s.last < |s.readers|
    && var rd := s.readers[ReaderOf(l)];
      match l
      case Accept => s.listener.Polling?
      case Readable(k) => s.listener.Polling? && k < |s.armed|
      case EventError(k) => s.listener.Polling? && k < |s.armed|
      case LookUp => s.listener.Found?
      case Add => s.listener.Adding? && s.last >= 0 && |s.readers[s.last].queue| < READER_CAPACITY
      case Refuse => s.listener.Adding? && s.last >= 0 && |s.readers[s.last].queue| >= READER_CAPACITY
      case Fetch(r) => rd.pc.Waiting? && rd.queue != []
      case ReadOk(r) => rd.pc.Reading?
      case ReadFail(r) => rd.pc.Reading?
      case PushCall(r) => rd.pc.Holding?
      case Rearm(r) => rd.pc.Rearming?
      case RearmError(r) => rd.pc.Rearming?
      case CloseConn(r) => rd.pc.Closing?
  }

  function Set(s: Front, r: nat, rd: Reader): Front
    requires r < |s.readers|
  {
    s.(readers := s.readers[r := rd])
  }

  function Apply(s: Front, l: Label): Front
    requires Enabled(s, l)
  {
    var n := |s.readers|;
    var rd := s.readers[ReaderOf(l)];
    match l
    case Accept => s.(armed := s.armed + [s.accepted], accepted := s.accepted + 1)
    case Readable(k) => s.(armed := Without(s.armed, k), listener := Found(s.armed[k]))
    case EventError(k) => s.(armed := Without(s.armed, k), dropped := s.dropped + [s.armed[k]])
    case LookUp =>
      var e := s.listener.e;
      var i := Next(s.last, n);
      var s1 := s.(last := i, listener := Adding(e, i, 0, Live(s)));
      if e in s.table then s1
      else s1.(table := s.table[e := s.nextIndex], nextIndex := s.nextIndex + 1, count := s.count + 1)
    case Add =>
      var chosen := s.readers[s.last];
      Set(s, s.last, chosen.(queue := chosen.queue + [s.listener.e])).(listener := Polling, given := s.given + [s.last])
    case Refuse =>
      s.(last := Next(s.last, n), refusals := s.refusals + 1,
      listener := s.listener.(tries := s.listener.tries + 1), halted := s.listener.tries + 1 >= n)
    case Fetch(r) => Set(s, r, Reader(rd.queue[1..], Reading(rd.queue[0])))
    case ReadOk(r) => Set(s, r, rd.(pc := Holding(rd.pc.e)))
    case ReadFail(r) => Set(s, r, rd.(pc := Closing(rd.pc.e)))
    case PushCall(r) => Set(s, r, rd.(pc := Rearming(rd.pc.e)))
    case Rearm(r) => Set(s, r, rd.(pc := Waiting)).(armed := s.armed + [rd.pc.e])
    case RearmError(r) => Set(s, r, rd.(pc := Waiting)).(dropped := s.dropped + [rd.pc.e])
    case CloseConn(r) =>
      Set(s, r, rd.(pc := Waiting)).(table := s.table - {rd.pc.e}, count := s.count - 1, closed := s.closed + [rd.pc.e])
  }

  predicate Run(s: Front, ls: seq<Label>)
    decreases |ls|
  {
    ls == [] || (Enabled(s, ls[0]) && Run(Apply(s, ls[0]), ls[1..]))
  }

  function After(s: Front, ls: seq<Label>): Front
    requires Run(s, ls)
    decreases |ls|
  {
    if ls == [] then s else After(Apply(s, ls[0]), ls[1..])
  }

  /** A run goes on by any label enabled at its end. */
  lemma {:induction false} Extend(s: Front, ls: seq<Label>, l: Label)
    requires Run(s, ls) && Enabled(After(s, ls), l)
    ensures Run(s, ls + [l]) && After(s, ls + [l]) == Apply(After(s, ls), l)
    decreases |ls|
  {
    hide Enabled, Apply;
    if ls == [] {
      assert [] + [l] == [l] && [l][1..] == [];
    } else {
      assert (ls + [l])[1..] == ls[1..] + [l];
      Extend(Apply(s, ls[0]), ls[1..], l);
    }
  }
}
