/** The codec as the programs run it: reads and writes on a socket, proved against
    the functions of `Codec`. A read that returns `None`, or a call that reports it
    threw, stands for the exception. */
module CodecIO {
  import opened Bytes
  import opened Codec

  /** A stream in each direction. Reading past the end uses up what there is. */
  class Socket {
    var incoming: seq<byte>
    var outgoing: seq<byte>

    constructor (incoming: seq<byte>)
      ensures this.incoming == incoming && outgoing == []
    {
      this.incoming := incoming;
      outgoing := [];
    }

    method Read(n: nat) returns (r: Option<seq<byte>>)
      modifies this`incoming
      ensures Take(n, old(incoming)) == if r.Some? then Ok(r.value, incoming) else Throw(incoming)
    {
      if n <= |incoming| {
        r := Some(incoming[..n]);
        incoming := incoming[n..];
      } else {
        r := None;
        incoming := [];
      }
    }

    method Write(bs: seq<byte>)
      modifies this`outgoing
      ensures outgoing == old(outgoing) + bs
    {
      outgoing := outgoing + bs;
    }

    method WriteString(str: seq<byte>)
      modifies this`outgoing
      ensures outgoing == old(outgoing) + EncodeString(str)
    {
      var length := ToInt32(|str|);
      if length != 0 {
        Write(LE32(length));
        Write(str);
        assert outgoing == old(outgoing) + (LE32(length) + str);
      }
    }

    method ReadString() returns (r: Option<seq<byte>>)
      modifies this`incoming
      ensures DecodeString(old(incoming)) == if r.Some? then Ok(r.value, incoming) else Throw(incoming)
    {
      r := Read(4);
      if r.Some? {
        var length := Int32(r.value);
        if length <= 0 || length == INT_MAX {
          r := None;
        } else {
          r := Read(length);
          if r.Some? {
            r := Some(UpToNul(r.value));
          }
        }
      }
    }

    method ReadSize() returns (r: Option<nat>)
      modifies this`incoming
      ensures DecodeSize(old(incoming)) == if r.Some? then Ok(r.value, incoming) else Throw(incoming)
    {
      var l := Read(8);
      r := if l.Some? then Some(Size64(l.value)) else None;
    }
  }

  class IntWritable {
    var value: int

    constructor (v: int)
      ensures value == v
    {
      value := v;
    }

    method ReadFields(sock: Socket) returns (threw: bool)
      modifies this, sock`incoming
      ensures DecodeInt(old(sock.incoming)) == if threw then Throw(sock.incoming) else Ok(value, sock.incoming)
      ensures threw ==> value == old(value)
    {
      var length := sock.ReadSize();
      if length.None? {
        return true;
      }
      var buf := sock.Read(length.value);
      if buf.None? {
        return true;
      }
      var terminated := buf.value + [0];
      value := SignExtend(terminated[0]);
      threw := false;
    }

    method Write(sock: Socket)
      modifies sock`outgoing
      ensures sock.outgoing == old(sock.outgoing) + Encode(IntW(value))
    {
      sock.Write(LE64(4));
      sock.Write(LE32(value));
      assert sock.outgoing == old(sock.outgoing) + (LE64(4) + LE32(value));
    }
  }

  class MethodWritable {
    var cls: seq<byte>
    var name: seq<byte>
    var params: seq<Writable>

    constructor (cls: seq<byte>, name: seq<byte>, params: seq<Writable>)
      ensures this.cls == cls && this.name == name && this.params == params
    {
      this.cls, this.name, this.params := cls, name, params;
    }

    /** Fills a new object. Every exception is caught, and leaves what was read. */
    method ReadFields(sock: Socket) returns (res: int)
      requires cls == name == [] && params == []
      modifies this, sock`incoming
      ensures DecodeFields(old(sock.incoming)) == Fields(cls, name, params, res == 0, sock.incoming)
      ensures res == 0 || res == -1
      decreases |sock.incoming|, 3
    {
      res := -1;
      var c := sock.ReadString();
      if c.None? {
        return;
      }
      cls := c.value;
      var m := sock.ReadString();
      if m.None? {
        return;
      }
      name := m.value;
      var size := sock.ReadSize();
      if size.None? {
        return;
      }
      var threw;
      params, threw := ReadParams(size.value, sock);
      if !threw {
        res := 0;
      }
    }

    method Write(sock: Socket)
      modifies sock`outgoing
      ensures sock.outgoing == old(sock.outgoing) + EncodeFields(cls, name, params)
    {
      WriteFields(cls, name, params, sock);
    }
  }

  /** What the parameter loop comes to when it has read `params` and `n` are to come. */
  function Onward(params: seq<Writable>, n: nat, bs: seq<byte>): (seq<Writable>, bool, seq<byte>) {
    var (ps, ok, rest) := DecodeParams(n, bs);
    (params + ps, ok, rest)
  }

  lemma OnwardStep(params: seq<Writable>, n: nat, bs: seq<byte>)
    requires n > 0
    ensures Onward(params, n, bs) ==
              match DecodeString(bs)
              case Throw(rest) => (params, false, rest)
              case Ok(cls, r1) =>
                var (w, ok, r2) := DecodeWritable(cls, r1);
                if !ok then (params + [w], false, r2) else Onward(params + [w], n - 1, r2)
  {
    hide DecodeString, DecodeWritable;
    if DecodeString(bs).Throw? {
      assert params + [] == params;
    } else {
      var (w, ok, r2) := DecodeWritable(DecodeString(bs).value, DecodeString(bs).rest);
      if ok {
        var ps := DecodeParams(n - 1, r2).0;
        assert params + ([w] + ps) == (params + [w]) + ps;
      }
    }
  }

  lemma EndOfParams(params: seq<Writable>, bs: seq<byte>)
    ensures Onward(params, 0, bs) == (params, true, bs)
  {
    assert DecodeParams(0, bs) == ([], true, bs);
    assert params + [] == params;
  }

  /** The parameter loop of `MethodWritable::readFields` and of `Call::read`. */
  method ReadParams(size: nat, sock: Socket) returns (params: seq<Writable>, threw: bool)
    modifies sock`incoming
    ensures DecodeParams(size, old(sock.incoming)) == (params, !threw, sock.incoming)
    decreases |sock.incoming|, 2
  {
    hide DecodeString, DecodeWritable;
    params, threw := [], false;
    var i := 0;
    ghost var all := Onward([], size, sock.incoming);
    assert all == DecodeParams(size, sock.incoming) by {
      assert [] + DecodeParams(size, sock.incoming).0 == DecodeParams(size, sock.incoming).0;
    }
    hide DecodeParams;
    while i < size
      invariant 0 <= i <= size && |sock.incoming| <= old(|sock.incoming|)
      invariant all == Onward(params, size - i, sock.incoming)
    {
      OnwardStep(params, size - i, sock.incoming);
      var param_class := sock.ReadString();
      if param_class.None? {
        return params, true;
      }
      var param, threw' := ReadNew(param_class.value, sock);
      params := params + [param];
      if threw' {
        return params, true;
      }
      i := i + 1;
    }
    EndOfParams(params, sock.incoming);
  }

  /** `Method::getNewInstance`, then `readFields` of the new object. */
  method ReadNew(param_class: seq<byte>, sock: Socket) returns (w: Writable, threw: bool)
    modifies sock`incoming
    ensures DecodeWritable(param_class, old(sock.incoming)) == (w, !threw, sock.incoming)
    decreases |sock.incoming|, 4
  {
    if param_class == INT_CLASS {
      var param := new IntWritable(0);
      threw := param.ReadFields(sock);
      w := IntW(param.value);
    } else if param_class == METHOD_CLASS {
      var param := new MethodWritable([], [], []);
      var _ := param.ReadFields(sock);
      w, threw := MethodW(param.cls, param.name, param.params), false;
    } else {
      w, threw := Base, false;
    }
  }

  method WriteWritable(w: Writable, sock: Socket)
    modifies sock`outgoing
    ensures sock.outgoing == old(sock.outgoing) + Encode(w)
    decreases w, 0
  {
    match w
    case Base =>
    case IntW(v) =>
      var param := new IntWritable(v);
      param.Write(sock);
    case MethodW(cls, name, params) =>
      WriteFields(cls, name, params, sock);
  }

  method WriteFields(cls: seq<byte>, name: seq<byte>, params: seq<Writable>, sock: Socket)
    modifies sock`outgoing
    ensures sock.outgoing == old(sock.outgoing) + EncodeFields(cls, name, params)
    decreases params, 1
  {
    hide EncodeString, LE64, Encode;
    ghost var was := sock.outgoing;
    sock.WriteString(cls);
    sock.WriteString(name);
    var size := |params|;
    sock.Write(LE64(size));
    ghost var head := sock.outgoing;
    assert head == was + (EncodeString(cls) + EncodeString(name) + LE64(|params|));
    WriteParams(params, sock);
    assert sock.outgoing == head + EncodeParams(params) == was + EncodeFields(cls, name, params);
  }

  method WriteParams(params: seq<Writable>, sock: Socket)
    modifies sock`outgoing
    ensures sock.outgoing == old(sock.outgoing) + EncodeParams(params)
    decreases params, 0
  {
    hide EncodeParam, EncodeParams;
    ghost var whole, todo := sock.outgoing + EncodeParams(params), EncodeParams(params);
    var size := |params|;
    var i := 0;
    assert params[0..] == params;
    while i < size
      invariant 0 <= i <= size && todo == EncodeParams(params[i..]) && whole == sock.outgoing + todo
    {
      FirstParam(params, i);
      Regroup(sock.outgoing, EncodeParam(params[i]), EncodeParams(params[i + 1..]));
      WriteParam(params[i], sock);
      i, todo := i + 1, EncodeParams(params[i + 1..]);
    }
    NoParams(params, sock.outgoing);
  }

  lemma Regroup(a: seq<byte>, b: seq<byte>, c: seq<byte>)
    ensures a + (b + c) == (a + b) + c
  {
  }

  lemma FirstParam(params: seq<Writable>, i: nat)
    requires i < |params|
    ensures EncodeParams(params[i..]) == EncodeParam(params[i]) + EncodeParams(params[i + 1..])
  {
    hide EncodeParam;
    assert params[i..][1..] == params[i + 1..];
  }

  lemma NoParams(params: seq<Writable>, sent: seq<byte>)
    ensures sent + EncodeParams(params[|params|..]) == sent
  {
  }

  method WriteParam(w: Writable, sock: Socket)
    modifies sock`outgoing
    ensures sock.outgoing == old(sock.outgoing) + EncodeParam(w)
    decreases w, 1
  {
    hide EncodeString, Encode;
    sock.WriteString(ClassOf(w));
    WriteWritable(w, sock);
  }

  /** `Call::write` of the client, for a call whose parameter is a method. */
  method WriteCall(id: int, r: Request, sock: Socket)
    modifies sock`outgoing
    ensures sock.outgoing == old(sock.outgoing) + EncodeCall(id, r)
  {
    sock.Write(LE32(id));
    var param := new MethodWritable(r.cls, r.name, r.params);
    param.Write(sock);
  }
}
