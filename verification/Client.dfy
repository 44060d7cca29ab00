/** The client library: connections to servers, the calls registered with them, and
    the receiver that hands answers to waiting callers. A socket's `incoming` stands
    for all that arrives while the methods run. */
module Clients {
  import opened Bytes
  import opened Codec
  import opened Response
  import opened CodecIO
  import opened PipelineStream

  /** `Client::Call`, for an `IntWritable` answer. */
  class Call {
    const request: Request
    var id: int
    var value: Option<int>
    var done: bool

    constructor (request: Request)
      ensures this.request == request && value == None && !done
    {
      this.request := request;
      id, value, done := 0, None, false;
    }

    method SetValue(v: int)
      modifies this`value, this`done
      ensures value == Some(v) && done
    {
      value := Some(v);
      done := true;
    }

    method Write(sock: Socket)
      modifies sock`outgoing
      ensures sock.outgoing == old(sock.outgoing) + EncodeCall(id, request)
    {
      WriteCall(id, request, sock);
    }
  }

  /** What one `recvRespond` came to. */
  datatype Received =
    | Delivered(id: int, v: int)
    | Unknown(id: int)   // "Can not find received call id": abort
    | Failed             // the stream ended inside the response

  /** The value of the first response with this id. */
  function FirstFor(rs: seq<(int, int)>, id: int): Option<int> {
    if rs == [] then None else if rs[0].0 == id then Some(rs[0].1) else FirstFor(rs[1..], id)
  }

  class Connection {
    const sock: Socket
    const index: nat
    var calls: map<int, Call>
    var lastCallIndex: nat

    /** The keys are the ids given out, and each call is under its own id. */
    ghost predicate Valid()
      reads this, calls.Values
    {
      && (forall k :: k in calls <==> 0 <= k < lastCallIndex)
      && (forall k | k in calls :: calls[k].id == k && calls[k].done == calls[k].value.Some?)
    }

    constructor (index: nat, incoming: seq<byte>)
      ensures Valid() && this.index == index && calls == map[] && lastCallIndex == 0
      ensures fresh(sock) && sock.incoming == incoming && sock.outgoing == []
    {
      this.index := index;
      calls, lastCallIndex := map[], 0;
      sock := new Socket(incoming);
    }

    method AddCall(call: Call)
      requires Valid() && call !in calls.Values && !call.done && call.value == None
      modifies this, call`id
      ensures Valid() && call.id == old(lastCallIndex) && lastCallIndex == old(lastCallIndex) + 1
      ensures calls == old(calls)[call.id := call]
    {
      var curr_call_id := lastCallIndex;
      lastCallIndex := lastCallIndex + 1;
      call.id := curr_call_id;
      calls := calls[curr_call_id := call];
    }

    /** Takes one response off the socket and hands its value to the call it names;
        no other call changes. */
    method RecvRespond() returns (r: Received)
      requires Valid()
      modifies sock`incoming, calls.Values`value, calls.Values`done
      ensures Valid() && calls == old(calls)
      ensures r.Delivered? ==> DecodeResponse(old(sock.incoming)) == Ok((r.id, r.v), sock.incoming)
      ensures r.Delivered? <==> DecodeResponse(old(sock.incoming)).Ok? && DecodeResponse(old(sock.incoming)).value.0 in calls
      ensures r.Unknown? ==> r.id !in calls && |old(sock.incoming)| >= 4 && r.id == Int32(old(sock.incoming)[..4])
      ensures forall k | k in calls ::
                calls[k].value == if r.Delivered? && k == r.id then Some(r.v) else old(calls[k].value)
    {
      var l := sock.Read(4);
      if l.None? {
        return Failed;
      }
      var recv_call_id := Int32(l.value);
      if recv_call_id !in calls {
        return Unknown(recv_call_id);
      }
      var curr_call := calls[recv_call_id];
      var val := new IntWritable(0);
      var threw := val.ReadFields(sock);
      if threw {
        return Failed;
      }
      curr_call.SetValue(val.value);
      r := Delivered(recv_call_id, val.value);
    }

    /** The caller waits while the receiver works. What it gets is the first
        response with its id, provided every response names a registered call. */
    method Wait(call: Call) returns (v: Option<int>)
      requires Valid() && call.id in calls && calls[call.id] == call && !call.done
      modifies sock`incoming, calls.Values`value, calls.Values`done
      ensures Valid() && calls == old(calls)
      ensures v.Some? ==> v == FirstFor(DecodeResponses(old(sock.incoming)), old(call.id))
      ensures (forall r | r in DecodeResponses(old(sock.incoming)) :: r.0 in calls) ==>
                v == FirstFor(DecodeResponses(old(sock.incoming)), old(call.id))
      ensures v == call.value && call.id == old(call.id)
    {
      ghost var all := DecodeResponses(sock.incoming);
      hide DecodeResponse, Int32;
      while !call.done
        invariant Valid() && calls == old(calls) && call.id == old(call.id)
        invariant if call.done then call.value == FirstFor(all, call.id)
                  else FirstFor(DecodeResponses(sock.incoming), call.id) == FirstFor(all, call.id)
        invariant (forall r | r in all :: r.0 in calls) ==> forall r | r in DecodeResponses(sock.incoming) :: r.0 in calls
        decreases !call.done, |sock.incoming|
      {
        ghost var bs := sock.incoming;
        var r := RecvRespond();
        if !r.Delivered? {
          assert DecodeResponses(bs) != [] ==> DecodeResponses(bs)[0] in DecodeResponses(bs);
          return None;
        }
        assert DecodeResponses(bs) == [(r.id, r.v)] + DecodeResponses(sock.incoming);
      }
      v := call.value;
    }
  }

  class Client {
    var connections: map<string, Connection>
    var lastConnectionIndex: nat

    /** Every endpoint has a connection of its own. */
    ghost predicate Valid()
      reads this
    {
      && (forall ep | ep in connections :: connections[ep].index < lastConnectionIndex)
      && (forall ep, ep' | ep in connections && ep' in connections && connections[ep].index == connections[ep'].index :: ep == ep')
    }

    constructor ()
      ensures Valid() && connections == map[]
    {
      connections, lastConnectionIndex := map[], 0;
    }

    /** Finds or creates the connection to an endpoint, and registers the call with
        it under a new id. `incoming` is what a new connection's socket will bring. */
    method GetConnection(ep: string, call: Call, incoming: seq<byte>) returns (conn: Connection)
      requires Valid() && !call.done && call.value == None
      requires ep in connections ==> connections[ep].Valid() && call !in connections[ep].calls.Values
      modifies this, call`id, if ep in connections then {connections[ep]} else {}
      ensures Valid() && connections == old(connections)[ep := conn] && conn.Valid()
      ensures conn.calls == (if ep in old(connections) then old(connections[ep].calls) else map[])[call.id := call]
      ensures conn.lastCallIndex == call.id + 1
      ensures call.id == if ep in old(connections) then old(connections[ep].lastCallIndex) else 0
      ensures ep in old(connections) ==> conn == old(connections[ep]) && lastConnectionIndex == old(lastConnectionIndex)
      ensures ep !in old(connections) ==>
                && fresh(conn) && fresh(conn.sock) && conn.sock.incoming == incoming && conn.sock.outgoing == []
                && conn.index == old(lastConnectionIndex) && lastConnectionIndex == old(lastConnectionIndex) + 1
    {
      if ep !in connections {
        conn := new Connection(lastConnectionIndex, incoming);
        lastConnectionIndex := lastConnectionIndex + 1;
        connections := connections[ep := conn];
      } else {
        conn := connections[ep];
      }
      conn.AddCall(call);
    }

    /** `Client::call`: registers the call, sends it, and waits. The request goes out
        whole, under the id it was registered with; what comes back is the first
        response with that id, provided every response names a registered call. */
    method DoCall(request: Request, ep: string, incoming: seq<byte>) returns (v: Option<int>, ghost conn: Connection, ghost id: int)
      requires Valid() && (ep in connections ==> connections[ep].Valid())
      modifies this, if ep in connections then {connections[ep], connections[ep].sock} + connections[ep].calls.Values else {}
      ensures Valid() && connections == old(connections)[ep := conn] && conn.Valid()
      ensures ep in old(connections) ==> conn == old(connections[ep])
      ensures id in conn.calls && conn.calls[id].request == request && conn.lastCallIndex == id + 1
      ensures id == if ep in old(connections) then old(connections[ep].lastCallIndex) else 0
      ensures conn.sock.outgoing == (if ep in old(connections) then old(connections[ep].sock.outgoing) else []) + EncodeCall(id, request)
      ensures
        var responses := DecodeResponses(if ep in old(connections) then old(connections[ep].sock.incoming) else incoming);
        && (v.Some? ==> v == FirstFor(responses, id))
        && ((forall r | r in responses :: 0 <= r.0 <= id) ==> v == FirstFor(responses, id))
    {
      hide EncodeCall, DecodeResponses, FirstFor;
      var call := new Call(request);
      var conn' := GetConnection(ep, call, incoming);
      conn := conn';
      id := call.id;
      call.Write(conn'.sock);
      ghost var known := if ep in old(connections) then old(connections[ep].calls) else map[];
      assert forall c | c in conn'.calls.Values :: c == call || c in known.Values;
      v := conn'.Wait(call);
    }
  }
}
