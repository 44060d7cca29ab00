/** A server connection: reading calls from its socket, and writing their responses
    to it bit by bit. */
module Connections {
  import opened Bytes
  import opened Codec
  import opened Response
  import opened CodecIO
  import opened BlockQueues
  import P = Pipeline
  import opened PipelineFraming

  /** `Server::Call`. */
  class Call {
    const conn: nat
    var id: int
    var cls: seq<byte>
    var name: seq<byte>
    var params: seq<Writable>
    var value: Option<seq<byte>>
    var pos: nat

    constructor (conn: nat)
      ensures this.conn == conn && cls == name == [] && params == [] && value == None && pos == 0
    {
      this.conn := conn;
      id, cls, name, params, value, pos := 0, [], [], [], None, 0;
    }

    /** The call as the pipeline's state holds it. */
    function Snapshot(): P.Call
      reads this
    {
      P.Call(conn, id, Request(cls, name, params), value, pos)
    }

    method Read(sock: Socket) returns (ok: bool)
      requires cls == name == [] && params == []
      modifies this`id, this`cls, this`name, this`params, sock`incoming
      ensures DecodeCall(old(sock.incoming))
              == if ok then Ok((id, Request(cls, name, params)), sock.incoming) else Throw(sock.incoming)
    {
      hide DecodeString, DecodeSize, DecodeParams, Int32;
      var l := sock.Read(4);
      if l.None? {
        return false;
      }
      id := Int32(l.value);
      var c := sock.ReadString();
      if c.None? {
        return false;
      }
      cls := c.value;
      var m := sock.ReadString();
      if m.None? {
        return false;
      }
      name := m.value;
      var size := sock.ReadSize();
      if size.None? {
        return false;
      }
      var threw;
      params, threw := ReadParams(size.value, sock);
      ok := !threw;
    }

    method SetValue(v: seq<byte>)
      modifies this`value
      ensures value == Some(v)
    {
      value := Some(v);
    }
  }

  // ----- A socket that may break -----

  /** A socket breaks when it has taken `room` more bytes, if that is given. */
  predicate Breaks(bs: seq<byte>, room: Option<nat>) { room.Some? && room.value < |bs| }

  function Upto(bs: seq<byte>, room: Option<nat>): seq<byte> {
    if Breaks(bs, room) then bs[..room.value] else bs
  }

  function LeftOver(bs: seq<byte>, room: Option<nat>): Option<nat> {
    if room.None? || room.value < |bs| then room else Some(room.value - |bs|)
  }

  lemma UptoConcat(a: seq<byte>, b: seq<byte>, room: Option<nat>)
    ensures Breaks(a + b, room) <==> Breaks(a, room) || Breaks(b, LeftOver(a, room))
    ensures Upto(a + b, room) == Upto(a, room) + if Breaks(a, room) then [] else Upto(b, LeftOver(a, room))
  {
  }

  class Connection {
    const sock: Socket
    const respondQueue: BlockQueue<Call>

    constructor (sock: Socket)
      ensures this.sock == sock && fresh(respondQueue)
      ensures respondQueue.Valid() && respondQueue.queue == [] && respondQueue.maxSize == P.CAPACITY
    {
      this.sock := sock;
      respondQueue := new BlockQueue<Call>(P.CAPACITY);
    }

    /** Sends as much of a response as the socket takes: `n` bytes of the value.
        1: a part was sent and the call is back in the queue; 0: all was sent. */
    method ProcessResponse(call: Call, n: nat, room: Option<nat>) returns (res: int)
      requires respondQueue.Valid() && call.value.Some? && n <= P.Left(call.Snapshot())
      modifies call`pos, sock`outgoing, respondQueue
      ensures respondQueue.Valid()
      ensures
        var was := old(call.Snapshot());
        var bytes := P.Sending(was, n);
        var failed := was.pos > |was.value.value| || Breaks(bytes, room);
        var partial := !failed && n < P.Left(was);
        var roomy := |old(respondQueue.queue)| < respondQueue.maxSize;
        && sock.outgoing == old(sock.outgoing) + Upto(bytes, room)
        && call.pos == (if partial then was.pos + n else was.pos)
        && respondQueue.queue == old(respondQueue.queue) + (if partial && roomy then [call] else [])
        && res == (if failed || (partial && !roomy) then -1 else if partial then 1 else 0)
    {
      hide P.Sending, LE32, LE64, Header;
      var length := |call.value.value|;
      var curr_pos := call.pos;
      if curr_pos > length {
        IllegalPos(call.Snapshot());
        return -1;
      }
      SendingIs(call.Snapshot(), n);
      var left := length - curr_pos;
      var room' := room;
      ghost var was := sock.outgoing;
      var start := call.value.value[curr_pos..];
      var threw := false;
      if curr_pos == 0 {
        threw, room' := SendHeader(call.id, call.value.value, room);
        UptoConcat(Header(call.id, call.value.value), start[..n], room);
      } else {
        assert P.Sending(call.Snapshot(), n) == start[..n];
      }
      if !threw {
        threw, room' := SendAll(start[..n], room');
      }
      assert threw == Breaks(P.Sending(old(call.Snapshot()), n), room);
      assert sock.outgoing == was + Upto(P.Sending(old(call.Snapshot()), n), room);
      hide Breaks, Upto;
      if threw {
        return -1;
      }
      if n < left {
        call.pos := n + curr_pos;
        var ok := respondQueue.TryPush(call);
        return if ok then 1 else -1;
      }
      res := 0;
    }

    method SendHeader(id: int, value: seq<byte>, room: Option<nat>) returns (threw: bool, left: Option<nat>)
      modifies sock`outgoing
      ensures threw == Breaks(Header(id, value), room)
      ensures sock.outgoing == old(sock.outgoing) + Upto(Header(id, value), room)
      ensures !threw ==> left == LeftOver(Header(id, value), room)
    {
      hide LE32, LE64;
      threw, left := SendAll(LE32(id), room);
      UptoConcat(LE32(id), LE64(|value|), room);
      if !threw {
        threw, left := SendAll(LE64(|value|), left);
      }
    }

    /** Writes all bytes, unless the socket breaks before. */
    method SendAll(bs: seq<byte>, room: Option<nat>) returns (threw: bool, left: Option<nat>)
      modifies sock`outgoing
      ensures threw == Breaks(bs, room)
      ensures sock.outgoing == old(sock.outgoing) + Upto(bs, room)
      ensures left == LeftOver(bs, room)
    {
      threw := room.Some? && room.value < |bs|;
      sock.Write(if threw then bs[..room.value] else bs);
      left := if room.Some? && !threw then Some(room.value - |bs|) else room;
    }
  }

  lemma IllegalPos(call: P.Call)
    requires call.value.Some? && call.pos > |call.value.value|
    ensures P.Left(call) == 0 && P.Sending(call, 0) == []
  {
  }

  // ----- A response sent in parts -----

  /** `ns` are the sizes of the writes until the response is complete. */
  predicate Finishes(call: P.Call, ns: seq<nat>)
    decreases |ns|
  {
    && ns != [] && ns[0] <= P.Left(call)
    && if ns[0] == P.Left(call) then |ns| == 1 else Finishes(Advanced(call, ns[0]), ns[1..])
  }

  function Advanced(call: P.Call, n: nat): P.Call { call.(pos := call.pos + n) }

  function Emitted(call: P.Call, ns: seq<nat>): seq<byte>
    requires Finishes(call, ns)
    decreases |ns|
  {
    P.Sending(call, ns[0]) + if |ns| == 1 then [] else Emitted(Advanced(call, ns[0]), ns[1..])
  }

  /** Once the header is out the rest of the value follows without loss or repetition. */
  lemma {:induction false} ResumedParts(call: P.Call, ns: seq<nat>)
    requires Finishes(call, ns) && call.value.Some? && 0 < call.pos <= |call.value.value|
    ensures Emitted(call, ns) == call.value.value[call.pos..]
    decreases |ns|
  {
    hide P.Sending, P.Remaining, Header;
    var tail := call.value.value[call.pos..];
    var n := ns[0];
    SendingIs(call, n);
    assert P.Sending(call, n) == tail[..n];
    if |ns| == 1 {
      assert n == |tail|;
    } else {
      ResumedParts(Advanced(call, n), ns[1..]);
      assert call.value.value[call.pos + n..] == tail[n..];
      hide Finishes, P.Left;
      assert tail[..n] + tail[n..] == tail;
    }
  }

  /** Every write that takes nothing at position 0 costs a header more. */
  function Stalls(ns: seq<nat>): nat {
    if ns != [] && ns[0] == 0 then 1 + Stalls(ns[1..]) else 0
  }

  function Repeated(bs: seq<byte>, n: nat): (r: seq<byte>)
    ensures |r| == n * |bs|
  {
    if n == 0 then [] else bs + Repeated(bs, n - 1)
  }

  lemma FirstPart(call: P.Call, ns: seq<nat>)
    requires Finishes(call, ns) && call.value.Some? && call.pos == 0 && ns[0] > 0
    ensures Emitted(call, ns) == Frame(call.id, call.value.value)
  {
    hide P.Sending, P.Remaining, Header;
    var v := call.value.value;
    var n := ns[0];
    SendingIs(call, n);
    if |ns| > 1 { ResumedParts(Advanced(call, n), ns[1..]); }
    var rest := if |ns| == 1 then [] else v[n..];
    assert n <= |v| && (|ns| == 1 ==> n == |v|);
    assert Emitted(call, ns) == P.Sending(call, n) + rest;
    hide Finishes, P.Left, Emitted;
    Glue(Header(call.id, v), v, n);
  }

  lemma Glue(h: seq<byte>, v: seq<byte>, n: nat)
    requires n <= |v|
    ensures v[0..] == v
    ensures (h + v[..n]) + v[n..] == h + v
    ensures n == |v| ==> (h + v[..n]) + [] == h + v
  {
  }

  lemma {:induction false} PartsFromTheStart(call: P.Call, ns: seq<nat>)
    requires Finishes(call, ns) && call.value.Some? && call.pos == 0 && call.value.value != []
    ensures Emitted(call, ns) == Repeated(Header(call.id, call.value.value), Stalls(ns)) + Frame(call.id, call.value.value)
    decreases |ns|
  {
    hide P.Sending, P.Remaining, Header, Frame;
    var h := Header(call.id, call.value.value);
    if ns[0] == 0 {
      SendingIs(call, 0);
      Glue(h, call.value.value, 0);
      assert P.Sending(call, 0) == h + call.value.value[..0] == h;
      assert Advanced(call, 0) == call && |ns| > 1;
      assert Emitted(call, ns) == h + Emitted(call, ns[1..]);
      PartsFromTheStart(call, ns[1..]);
      hide Finishes, P.Left, Emitted;
      Regroup(h, Repeated(h, Stalls(ns[1..])), Frame(call.id, call.value.value));
    } else {
      FirstPart(call, ns);
      hide P.Left, Finishes, Emitted;
      assert Stalls(ns) == 0;
      assert [] + Frame(call.id, call.value.value) == Frame(call.id, call.value.value);
    }
  }

  /** However the socket splits the writes, the parts make up one frame exactly when
      the first write takes at least a byte, or the value is empty. */
  lemma PartsAreOneFrameExactly(call: P.Call, ns: seq<nat>)
    requires Finishes(call, ns) && call.value.Some? && call.pos == 0
    ensures Emitted(call, ns) == Frame(call.id, call.value.value) <==> (ns[0] > 0 || call.value.value == [])
  {
    if call.value.value != [] {
      PartsFromTheStart(call, ns);
      assert Stalls(ns) == 0 ==> Repeated(Header(call.id, call.value.value), Stalls(ns)) == [];
    }
  }
}
