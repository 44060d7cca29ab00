/** Every caller gets its own answer. */
module EndToEndInv {
  import opened Bytes
  import opened Codec
  import opened CodecProofs
  import opened Response
  import opened EndToEnd
  import A = Acceptance
  import AI = AcceptanceInv
  import Method
  import P = Pipeline
  import PF = PipelineFraming
  import PI = PipelineInv
  import PipelineSafety
  import S = PipelineStream

  // ----- Invariants -----

  /** The parts keep what they keep by themselves. */
  ghost predicate PartsSound(s: System) {
    && AI.Inv(s.front) && PI.Inv(Answer, s.back) && PF.Framed(s.back)
    && (forall c: nat :: S.Contiguous(s.back, c))
  }

  /** The server's table is what the pipeline takes for it; nothing was closed. */
  ghost predicate Coupled(s: System) {
    && |s.clients| == s.front.accepted
    && s.back.open == s.front.table.Keys
    && s.front.closed == []
    && (forall r | 0 <= r < |s.front.readers| :: !s.front.readers[r].pc.Closing?)
  }

  /** A registered call that has been sent. */
  predicate Sent(s: System, c: nat, id: int) {
    c < |s.clients| && id in s.clients[c].calls && s.clients[c].calls[id].sent
  }

  /** A request on the server is a sent call's, as it arrives. */
  predicate Arrives(s: System, c: nat, id: int, request: Request) {
    Sent(s, c, id) && request == ArrivedRequest(s.clients[c].calls[id].request)
  }

  /** The requests in a client's outgoing stream. */
  function Pending(cl: Client, ids: seq<int>): seq<(int, Request)>
    requires forall i | 0 <= i < |ids| :: ids[i] in cl.calls
  {
    seq(|ids|, i requires 0 <= i < |ids| => (ids[i], cl.calls[ids[i]].request))
  }

  predicate Distinct(ids: seq<int>) {
    forall i, j | 0 <= i < j < |ids| :: ids[i] != ids[j]
  }

  /** Id discipline: a connection's calls are numbered from 0 on, and what was
      sent and not yet read is the unread calls' requests, one after the other. */
  ghost predicate ClientSound(cl: Client) {
    && cl.next <= INT_MAX + 1
    && (forall id :: id in cl.calls <==> 0 <= id < cl.next)
    && (forall id | id in cl.calls :: WellFormedRequest(cl.calls[id].request))
    && (forall i | 0 <= i < |cl.unread| :: cl.unread[i] in cl.calls && cl.calls[cl.unread[i]].sent)
    && Distinct(cl.unread)
    && cl.up == EncodeCalls(Pending(cl, cl.unread))
  }

  ghost predicate ClientsSound(s: System) {
    forall c | 0 <= c < |s.clients| :: ClientSound(s.clients[c])
  }

  /** Where a sent call can be: in the client's stream, in a reader's hand, or
      in the pipeline. */
  predicate Unread(s: System, c: nat, id: int) { c < |s.clients| && id in s.clients[c].unread }

  predicate InHand(s: System, c: nat, id: int) { c in s.hand && s.hand[c].0 == id }

  predicate IsCall(s: System, t: nat, c: nat, id: int) {
    t < |s.back.calls| && s.back.calls[t].conn == c && s.back.calls[t].id == id
  }

  /** A call of the pipeline is a sent one, under its own id, with its own
      request, and in no other place. */
  ghost predicate CallSeparate(s: System, t: nat, c: nat, id: int) {
    IsCall(s, t, c, id) ==>
      && Arrives(s, c, id, s.back.calls[t].request) && !Unread(s, c, id) && !InHand(s, c, id)
      && (forall u: nat | IsCall(s, u, c, id) :: t == u)
  }

  /** So is one in a reader's hand. */
  ghost predicate HandSeparate(s: System, c: nat, id: int) {
    InHand(s, c, id) ==> Arrives(s, c, id, s.hand[c].1) && !Unread(s, c, id)
  }

  ghost predicate Separate(s: System) {
    && (forall t: nat, c: nat, id: int :: CallSeparate(s, t, c, id))
    && (forall c: nat, id: int :: HandSeparate(s, c, id))
  }

  /** No sent call is lost on the way. */
  ghost predicate Somewhere(s: System) {
    forall c: nat, id: int | Sent(s, c, id) ::
      Unread(s, c, id) || InHand(s, c, id) || exists t: nat :: IsCall(s, t, c, id)
  }

  predicate Holds(pc: A.ReaderPc, e: nat) { pc.Holding? && pc.e == e }

  predicate Held(f: A.Front, c: nat) {
    exists r :: 0 <= r < |f.readers| && Holds(f.readers[r].pc, c)
  }

  /** Readers hold what they have read; whoever is on the way to being read has
      something to read. */
  ghost predicate HandsSound(s: System) {
    && (forall c: nat :: c in s.hand <==> Held(s.front, c))
    && (forall c: nat | c < |s.clients| && s.clients[c].unread == [] :: !Due(s.front, c))
  }

  /** On the way from a read event to `Call::read`. */
  predicate Due(f: A.Front, c: nat) {
    || (!f.listener.Polling? && f.listener.e == c)
    || (exists r :: 0 <= r < |f.readers| && DueAt(f.readers[r], c))
  }

  predicate DueAt(rd: A.Reader, c: nat) {
    c in rd.queue || (rd.pc.Reading? && rd.pc.e == c)
  }

  /** The finished calls of a connection, in the order of their responses. */
  function Finished(b: P.State, c: nat): seq<nat> { S.On(b.calls, b.done, c) }

  /** The k-th response of a connection answers call `id`. */
  predicate AnswersAt(b: P.State, c: nat, id: int, k: nat) {
    && k < |Finished(b, c)|
    && Finished(b, c)[k] < |b.calls| && b.calls[Finished(b, c)[k]].id == id
  }

  /** The client has consumed whole responses, the first `got`, and each call
      they name has the value they carry; no other call has one. */
  ghost predicate RepliesSound(b: P.State, cl: Client, c: nat) {
    var ts := Finished(b, c);
    && S.Executed(b.calls, ts)
    && cl.got <= |ts| && cl.pos == |S.Cat(b.calls, ts[..cl.got])|
    && (forall id | id in cl.calls :: ReplySound(b, cl, c, id))
  }

  ghost predicate ReplySound(b: P.State, cl: Client, c: nat, id: int)
    requires id in cl.calls
  {
    var call := cl.calls[id];
    && (call.value.Some? <==> exists k: nat :: k < cl.got && AnswersAt(b, c, id, k))
    && (call.value.Some? ==> call.value.value == ClientValue(Answer(ArrivedRequest(call.request))))
  }

  ghost predicate AllReplies(s: System) {
    forall c: nat | c < |s.clients| :: RepliesSound(s.back, s.clients[c], c)
  }

  ghost predicate Inv(s: System) {
    && PartsSound(s) && Coupled(s) && ClientsSound(s) && Separate(s) && Somewhere(s)
    && HandsSound(s) && AllReplies(s) && !s.lost
  }

  // ----- The parts -----

  /** The steps of the pipeline and of the front a label consists of. */
  function BackLabel(s: System, l: Label): Option<P.Label>
  {
    match l
    case Enter => if s.front.listener.Found? && P.Enabled(s.back, P.Open(s.front.listener.e)) then Some(P.Open(s.front.listener.e)) else None
    case PushCall(r) =>
      if r < |s.front.readers| && !s.front.readers[r].pc.Waiting? && s.front.readers[r].pc.e in s.hand
      then Some(Push(s, s.front.readers[r].pc.e)) else None
    case PushFull(r) =>
      if r < |s.front.readers| && !s.front.readers[r].pc.Waiting? then Some(P.CallQueueFull(s.front.readers[r].pc.e)) else None
    case CloseConn(r) =>
      if r < |s.front.readers| && !s.front.readers[r].pc.Waiting? then Some(P.Close(s.front.readers[r].pc.e)) else None
    case Back(p) => Some(p)
    case _ => None
  }

  function FrontLabel(l: Label): Option<A.Label> {
    match l
    case Accept => Some(A.Accept)
    case Front(a) => Some(a)
    case Enter => Some(A.LookUp)
    case ReadCall(r) => Some(A.ReadOk(r))
    case PushCall(r) => Some(A.PushCall(r))
    case CloseConn(r) => Some(A.CloseConn(r))
    case _ => None
  }

  lemma PartsStep(s: System, l: Label)
    requires Enabled(s, l)
    ensures FrontLabel(l).Some? ==> A.Enabled(s.front, FrontLabel(l).value)
    ensures BackLabel(s, l).Some? ==>
              P.Enabled(s.back, BackLabel(s, l).value) && S.Clean(BackLabel(s, l).value) && S.Guard(s.back, BackLabel(s, l).value)
    ensures Apply(s, l).front == if FrontLabel(l).Some? then A.Apply(s.front, FrontLabel(l).value) else s.front
    ensures Apply(s, l).back == if BackLabel(s, l).Some? then P.Apply(Answer, s.back, BackLabel(s, l).value) else s.back
  {
    hide A.Apply, P.Apply, DecodeCall, DecodeResponse, EncodeCall, Inbox;
    assert l.Enter? ==> s.front.listener.Found?;
    assert l.PushCall? || l.PushFull? || l.CloseConn? ==> !s.front.readers[l.r].pc.Waiting?;
    hide A.Enabled;
  }

  lemma BackStep(b: P.State, p: P.Label)
    requires PI.Inv(Answer, b) && PF.Framed(b) && (forall c: nat :: S.Contiguous(b, c))
    requires P.Enabled(b, p) && S.Clean(p) && S.Guard(b, p)
    ensures
      var b' := P.Apply(Answer, b, p);
      PI.Inv(Answer, b') && PF.Framed(b') && (forall c: nat :: S.Contiguous(b', c))
  {
    hide PI.Inv, PF.Framed, S.Contiguous, S.Guard, P.Apply, P.Enabled;
    PI.InvStep(Answer, b, p);
    PF.FramedStep(Answer, b, p);
    forall c: nat ensures S.Contiguous(P.Apply(Answer, b, p), c) {
      if S.WritesTo(b, p, c) { S.ContiguousExactly(Answer, b, p); } else { S.ContiguousElsewhere(Answer, b, p, c); }
    }
  }

  lemma PartsSoundStep(s: System, l: Label)
    requires PartsSound(s) && Enabled(s, l)
    ensures PartsSound(Apply(s, l))
  {
    PartsStep(s, l);
    hide Apply, Enabled, AI.Inv, PI.Inv, PF.Framed, S.Contiguous, A.Apply, P.Apply;
    if FrontLabel(l).Some? { AI.InvStep(s.front, FrontLabel(l).value); }
    if BackLabel(s, l).Some? { BackStep(s.back, BackLabel(s, l).value); }
  }

  // ----- The front and the clients' streams -----

  lemma {:induction false} EncodeCallsAppend(calls: seq<(int, Request)>, call: (int, Request))
    ensures EncodeCalls(calls + [call]) == EncodeCalls(calls) + EncodeCall(call.0, call.1)
  {
    hide EncodeCall;
    if calls == [] {
      assert EncodeCalls([call]) == EncodeCall(call.0, call.1) + EncodeCalls([]);
    } else {
      assert (calls + [call])[1..] == calls[1..] + [call];
      EncodeCallsAppend(calls[1..], call);
      assert EncodeCall(calls[0].0, calls[0].1) + EncodeCalls(calls[1..]) + EncodeCall(call.0, call.1)
          == EncodeCall(calls[0].0, calls[0].1) + (EncodeCalls(calls[1..]) + EncodeCall(call.0, call.1));
    }
  }

  /** A client's stream, if not empty, begins with a whole request: that of its
      first unread call. */
  lemma StreamHead(cl: Client)
    requires ClientSound(cl) && cl.unread != []
    ensures
      var id := cl.unread[0];
      && id in cl.calls && cl.calls[id].sent
      && DecodeCall(cl.up) == Ok((id, ArrivedRequest(cl.calls[id].request)), EncodeCalls(Pending(cl, cl.unread[1..])))
  {
    hide DecodeCall, EncodeCall, WellFormedRequest, ArrivedRequest;
    var id := cl.unread[0];
    assert id in cl.unread;
    var rest := Pending(cl, cl.unread[1..]);
    assert Pending(cl, cl.unread)[1..] == rest;
    assert cl.up == EncodeCall(id, cl.calls[id].request) + EncodeCalls(rest);
    CallRoundTrip(id, cl.calls[id].request, EncodeCalls(rest));
  }

  /** Sending appends one request to the stream. */
  lemma SendKeeps(cl: Client, id: int)
    requires ClientSound(cl) && id in cl.calls && !cl.calls[id].sent
    ensures
      var call := cl.calls[id];
      ClientSound(cl.(calls := cl.calls[id := call.(sent := true)],
                      up := cl.up + EncodeCall(id, call.request), unread := cl.unread + [id]))
  {
    hide EncodeCall, WellFormedRequest;
    var call := cl.calls[id];
    var cl' := cl.(calls := cl.calls[id := call.(sent := true)],
                   up := cl.up + EncodeCall(id, call.request), unread := cl.unread + [id]);
    assert Pending(cl', cl'.unread) == Pending(cl, cl.unread) + [(id, call.request)];
    EncodeCallsAppend(Pending(cl, cl.unread), (id, call.request));
    assert id !in cl.unread;
  }

  lemma RegisterKeeps(cl: Client, request: Request)
    requires ClientSound(cl) && cl.next <= INT_MAX && WellFormedRequest(request)
    ensures ClientSound(cl.(next := cl.next + 1, calls := cl.calls[cl.next := ClientCall(request, false, None)]))
  {
    hide EncodeCalls, WellFormedRequest;
    var cl' := cl.(next := cl.next + 1, calls := cl.calls[cl.next := ClientCall(request, false, None)]);
    assert Pending(cl', cl'.unread) == Pending(cl, cl.unread);
  }

  lemma ReadKeeps(cl: Client)
    requires ClientSound(cl) && cl.unread != [] && DecodeCall(cl.up).Ok?
    ensures ClientSound(cl.(up := DecodeCall(cl.up).rest, unread := cl.unread[1..]))
    ensures cl.unread[0] !in cl.unread[1..]
  {
    hide DecodeCall, EncodeCalls, WellFormedRequest, ArrivedRequest;
    StreamHead(cl);
    var cl' := cl.(up := DecodeCall(cl.up).rest, unread := cl.unread[1..]);
    assert forall i | 0 <= i < |cl'.unread| :: cl'.unread[i] == cl.unread[i + 1];
    assert Pending(cl', cl'.unread) == Pending(cl, cl.unread[1..]);
  }

  lemma ValueKeeps(cl: Client, id: int, v: int, pos: nat)
    requires ClientSound(cl) && id in cl.calls
    ensures ClientSound(cl.(calls := cl.calls[id := cl.calls[id].(value := Some(v))], pos := pos, got := cl.got + 1))
  {
    hide EncodeCalls, WellFormedRequest;
    var cl' := cl.(calls := cl.calls[id := cl.calls[id].(value := Some(v))], pos := pos, got := cl.got + 1);
    assert Pending(cl', cl'.unread) == Pending(cl, cl.unread);
  }

  /** What a reader is reading has arrived as a whole request. */
  lemma ReadingIsReady(s: System, r: nat)
    requires Coupled(s) && ClientsSound(s) && HandsSound(s) && PartsSound(s)
    requires r < |s.front.readers| && s.front.readers[r].pc.Reading?
    ensures
      var e := s.front.readers[r].pc.e;
      e < |s.clients| && s.clients[e].unread != [] && DecodeCall(s.clients[e].up).Ok?
  {
    var e := s.front.readers[r].pc.e;
    assert AI.ReaderListed(s.front, s.front.readers[r]);
    assert DueAt(s.front.readers[r], e);
    assert ClientSound(s.clients[e]);
    hide DecodeCall, Inv, PartsSound, HandsSound, ClientSound;
    StreamHead(s.clients[e]);
  }

  lemma ClientsSoundStep(s: System, l: Label)
    requires ClientsSound(s) && Coupled(s) && HandsSound(s) && PartsSound(s) && Enabled(s, l)
    ensures ClientsSound(Apply(s, l))
  {
    hide ClientSound, Coupled, HandsSound, PartsSound, A.Apply, P.Apply, DecodeCall, DecodeResponse, EncodeCall, Inbox;
    match l
    case Accept => FreshClient();
    case AddCall(c, request) => RegisterKeeps(s.clients[c], request);
    case SendCall(c, id) => SendKeeps(s.clients[c], id);
    case ReadCall(r) =>
      ReadingIsReady(s, r);
      ReadKeeps(s.clients[s.front.readers[r].pc.e]);
    case Receive(c) =>
      var read := DecodeResponse(Inbox(s, c));
      if read.value.0 in s.clients[c].calls {
        ValueKeeps(s.clients[c], read.value.0, read.value.1, s.clients[c].pos + |Inbox(s, c)| - |read.rest|);
      }
    case _ =>
  }

  lemma FreshClient()
    ensures ClientSound(Client(0, map[], [], [], 0, 0))
  {
    var cl := Client(0, map[], [], [], 0, 0);
    assert Pending(cl, []) == [];
  }

  // ----- Front and table -----

  lemma FrontStep(f: A.Front, a: A.Label, r: nat)
    requires A.Enabled(f, a) && r < |f.readers|
    ensures
      var f' := A.Apply(f, a);
      && |f'.readers| == |f.readers|
      && f'.accepted == f.accepted + (if a.Accept? then 1 else 0)
      && (f'.readers[r].pc.Closing? ==> f.readers[r].pc.Closing? || a == A.ReadFail(r))
      && (forall e: nat :: Holds(f'.readers[r].pc, e) <==>
            if a == A.ReadOk(r) then f.readers[r].pc.e == e
            else Holds(f.readers[r].pc, e) && a != A.PushCall(r))
  {
  }

  /** No read ever fails, so no connection is ever closed. */
  lemma NothingCloses(s: System, l: Label)
    requires PartsSound(s) && Coupled(s) && ClientsSound(s) && HandsSound(s) && Enabled(s, l)
    ensures !l.CloseConn? && !(l.Front? && l.a.ReadFail?)
  {
    hide DecodeCall, PartsSound, ClientsSound, HandsSound, P.Enabled;
    if l.Front? && l.a.ReadFail? { ReadingIsReady(s, l.a.r); }
  }

  lemma OpenCoupled(s: System, l: Label)
    requires PartsSound(s) && Coupled(s) && Enabled(s, l) && !l.CloseConn?
    ensures Apply(s, l).back.open == Apply(s, l).front.table.Keys
  {
    PartsStep(s, l);
    assert |s.back.threads| >= 1;
    hide PartsSound;
    if l.Enter? { assert P.Enabled(s.back, P.Open(s.front.listener.e)) <==> s.front.listener.e !in s.front.table; }
    hide P.Enabled;
    if FrontLabel(l).Some? { AI.TableStep(s.front, FrontLabel(l).value); }
    if BackLabel(s, l).Some? { PipelineSafety.OpenStep(Answer, s.back, BackLabel(s, l).value); }
    hide Apply, Enabled, A.Apply, A.Enabled, P.Apply;
  }

  lemma CoupledStep(s: System, l: Label)
    requires PartsSound(s) && Coupled(s) && ClientsSound(s) && HandsSound(s) && Enabled(s, l)
    ensures Coupled(Apply(s, l))
  {
    hide PartsSound, ClientsSound, HandsSound, DecodeCall, DecodeResponse, EncodeCall, Inbox, P.Apply, A.Apply, P.Enabled;
    var s' := Apply(s, l);
    NothingCloses(s, l);
    OpenCoupled(s, l);
    PartsStep(s, l);
    if FrontLabel(l).Some? {
      var a := FrontLabel(l).value;
      AI.TableStep(s.front, a);
      FrontStep(s.front, a, 0);
      AI.ReadersStep(s.front, a);
      forall r | 0 <= r < |s'.front.readers| ensures !s'.front.readers[r].pc.Closing? {
        FrontStep(s.front, a, r);
      }
      hide A.Enabled;
    }
  }

  // ----- Readers' hands -----

  lemma HeldStep(f: A.Front, a: A.Label, c: nat)
    requires AI.Inv(f) && A.Enabled(f, a)
    ensures Held(A.Apply(f, a), c) <==>
              if a.ReadOk? && f.readers[a.r].pc.e == c then true
              else if a.PushCall? && f.readers[a.r].pc.e == c then false
              else Held(f, c)
  {
    var f' := A.Apply(f, a);
    FrontStep(f, a, 0);
    forall r: nat | r < |f.readers|
      ensures Holds(f'.readers[r].pc, c) <==>
                if a == A.ReadOk(r) then f.readers[r].pc.e == c
                else Holds(f.readers[r].pc, c) && a != A.PushCall(r)
    {
      FrontStep(f, a, r);
    }
    if a.PushCall? && f.readers[a.r].pc.e == c { OnlyHolder(f, a.r, c); }
    hide A.Apply, AI.Inv;
    if a.ReadOk? && f.readers[a.r].pc.e == c {
      assert Holds(f'.readers[a.r].pc, c);
    } else if Held(f, c) {
      var r: nat :| r < |f.readers| && Holds(f.readers[r].pc, c);
      assert Holds(f'.readers[r].pc, c) || a == A.PushCall(r);
    }
  }

  lemma OnlyHolder(f: A.Front, r: nat, c: nat)
    requires AI.Inv(f) && r < |f.readers| && !f.readers[r].pc.Waiting? && f.readers[r].pc.e == c
    ensures forall q | 0 <= q < |f.readers| && q != r :: !Holds(f.readers[q].pc, c) && !DueAt(f.readers[q], c)
    ensures f.listener.Polling? || f.listener.e != c
    ensures c !in f.readers[r].queue
  {
    hide AI.ReadersHave;
    AI.Elsewhere(f, r, c);
    assert forall q | 0 <= q < |f.readers| && q != r :: AI.ReaderHas(f.readers[q], c) == 0;
  }

  /** Only a read event puts a connection on the way to being read; the read ends it. */
  lemma DueStep(f: A.Front, a: A.Label, c: nat)
    requires AI.Inv(f) && A.Enabled(f, a)
    ensures Due(A.Apply(f, a), c) ==> Due(f, c) || (a.Readable? && f.armed[a.k] == c)
    ensures a.ReadOk? && f.readers[a.r].pc.e == c ==> !Due(A.Apply(f, a), c)
  {
    var f' := A.Apply(f, a);
    AI.ReadersStep(f, a);
    forall r | 0 <= r < |f'.readers| && DueAt(f'.readers[r], c)
      ensures Due(f, c) && !(a.ReadOk? && f.readers[a.r].pc.e == c)
    {
      if DueAt(f.readers[r], c) {
        if a.ReadOk? && f.readers[a.r].pc.e == c { OnlyHolder(f, a.r, c); }
      } else {
        assert a.Add? && f.listener.e == c;
      }
    }
    if a.ReadOk? && f.readers[a.r].pc.e == c { OnlyHolder(f, a.r, c); }
    hide AI.Inv;
  }

  /** A label's effect on hands and on which calls are unread. */
  lemma HandEffect(s: System, l: Label)
    requires Enabled(s, l)
    ensures Apply(s, l).hand ==
              if l.ReadCall? then s.hand[s.front.readers[l.r].pc.e := DecodeCall(s.clients[s.front.readers[l.r].pc.e].up).value]
              else if l.PushCall? then s.hand - {s.front.readers[l.r].pc.e}
              else s.hand
  {
    hide P.Apply, A.Apply, P.Enabled, DecodeCall, DecodeResponse, EncodeCall, Inbox;
  }

  /** A client connection after a step. */
  ghost function NextClient(s: System, l: Label, c: nat): Client
    requires Enabled(s, l) && c < |s.clients|
  {
    var cl := s.clients[c];
    match l
    case ReadCall(r) =>
      if s.front.readers[r].pc.e == c
      then cl.(up := DecodeCall(cl.up).rest, unread := if cl.unread == [] then [] else cl.unread[1..]) else cl
    case AddCall(d, request) =>
      if d == c then cl.(next := cl.next + 1, calls := cl.calls[cl.next := ClientCall(request, false, None)]) else cl
    case SendCall(d, id) =>
      if d == c
      then cl.(calls := cl.calls[id := cl.calls[id].(sent := true)],
            up := cl.up + EncodeCall(id, cl.calls[id].request), unread := cl.unread + [id])
      else cl
    case Receive(d) =>
      var read := DecodeResponse(Inbox(s, d));
      if d == c && read.value.0 in cl.calls
      then cl.(calls := cl.calls[read.value.0 := cl.calls[read.value.0].(value := Some(read.value.1))],
            pos := cl.pos + |Inbox(s, d)| - |read.rest|, got := cl.got + 1)
      else cl
    case _ => cl
  }

  lemma ClientEffect(s: System, l: Label)
    requires Enabled(s, l)
    ensures |Apply(s, l).clients| == |s.clients| + if l.Accept? then 1 else 0
    ensures forall c: nat | c < |s.clients| :: Apply(s, l).clients[c] == NextClient(s, l, c)
    ensures l.Accept? ==> Apply(s, l).clients[|s.clients|] == Client(0, map[], [], [], 0, 0)
  {
    hide P.Apply, A.Apply, P.Enabled, DecodeCall, DecodeResponse, EncodeCall, Inbox;
  }

  lemma UnreadEffect(s: System, l: Label, c: nat)
    requires Enabled(s, l)
    ensures |Apply(s, l).clients| == |s.clients| + if l.Accept? then 1 else 0
    ensures
      c < |s.clients| ==> (Apply(s, l).clients[c].unread ==
        if l.ReadCall? && s.front.readers[l.r].pc.e == c then
          if s.clients[c].unread == [] then [] else s.clients[c].unread[1..]
        else if l.SendCall? && l.c == c then s.clients[c].unread + [l.id]
        else s.clients[c].unread)
    ensures c == |s.clients| < |Apply(s, l).clients| ==> Apply(s, l).clients[c].unread == []
  {
    ClientEffect(s, l);
    hide Apply, P.Enabled, A.Enabled, DecodeCall, DecodeResponse, EncodeCall, Inbox;
  }

  lemma HandStep(s: System, l: Label, c: nat)
    requires PartsSound(s) && HandsSound(s) && Enabled(s, l)
    ensures c in Apply(s, l).hand <==> Held(Apply(s, l).front, c)
  {
    hide PI.Inv, PF.Framed, S.Contiguous, Apply, P.Enabled, A.Apply, DecodeCall, DecodeResponse, Inbox;
    PartsStep(s, l);
    HandEffect(s, l);
    hide PI.Inv, PF.Framed, S.Contiguous, Apply, P.Enabled, A.Apply, DecodeCall, DecodeResponse, Inbox, Held;
    if FrontLabel(l).Some? { HeldStep(s.front, FrontLabel(l).value, c); }
  }

  lemma NotDueStep(s: System, l: Label, c: nat)
    requires PartsSound(s) && Coupled(s) && ClientsSound(s) && HandsSound(s) && Enabled(s, l)
    requires c < |Apply(s, l).clients| && Apply(s, l).clients[c].unread == []
    ensures !Due(Apply(s, l).front, c)
  {
    PartsStep(s, l);
    UnreadEffect(s, l, c);
    hide ClientSound, PI.Inv, PF.Framed, S.Contiguous, Apply, P.Enabled, A.Apply, DecodeCall, DecodeResponse, Inbox, Held, Due;
    if l.Front? && l.a.Readable? && s.front.armed[l.a.k] == c { NonEmptyUp(s, c); }
    if c == |s.clients| { FreshNotDue(s.front); }
    if FrontLabel(l).Some? { DueStep(s.front, FrontLabel(l).value, c); }
  }

  lemma NonEmptyUp(s: System, c: nat)
    requires ClientsSound(s) && Fetched(s, c) != []
    ensures s.clients[c].unread != []
  {
    assert ClientSound(s.clients[c]);
    hide EncodeCall, WellFormedRequest;
  }

  lemma FreshNotDue(f: A.Front)
    requires AI.Inv(f)
    ensures !Due(f, f.accepted)
  {
    var c := f.accepted;
    assert AI.Owners(f, c) == 0;
    forall r | 0 <= r < |f.readers| ensures !DueAt(f.readers[r], c) {
      AI.HaveAtLeast(f.readers, r, c);
    }
  }

  lemma HandsSoundStep(s: System, l: Label)
    requires PartsSound(s) && Coupled(s) && ClientsSound(s) && HandsSound(s) && Enabled(s, l)
    ensures HandsSound(Apply(s, l))
  {
    hide Apply, Enabled, PartsSound, Coupled, ClientsSound, Due, Held;
    forall c: nat ensures c in Apply(s, l).hand <==> Held(Apply(s, l).front, c) {
      HandStep(s, l, c);
    }
    forall c: nat | c < |Apply(s, l).clients| && Apply(s, l).clients[c].unread == [] ensures !Due(Apply(s, l).front, c) {
      NotDueStep(s, l, c);
    }
  }

  // ----- Where a call is -----

  lemma CallsEffect(s: System, l: Label, c: nat, id: int)
    requires ClientsSound(s) && Enabled(s, l)
    ensures Sent(Apply(s, l), c, id) <==> Sent(s, c, id) || (l.SendCall? && l.c == c && l.id == id)
    ensures
      c < |s.clients| && id in s.clients[c].calls ==>
        && c < |Apply(s, l).clients| && id in Apply(s, l).clients[c].calls
        && Apply(s, l).clients[c].calls[id].request == s.clients[c].calls[id].request
  {
    hide Apply, ClientSound, P.Enabled, A.Enabled, DecodeCall, DecodeResponse, EncodeCall, Inbox;
    ClientEffect(s, l);
    if l.AddCall? {
      assert ClientSound(s.clients[l.c]);
      NextIsFree(s.clients[l.c]);
    }
    hide ClientsSound;
  }

  lemma NextIsFree(cl: Client)
    requires ClientSound(cl)
    ensures cl.next !in cl.calls
  {
  }

  lemma ServerEffect(s: System, l: Label)
    requires Enabled(s, l)
    ensures
      var b, b' := s.back, Apply(s, l).back;
      && |b'.calls| == |b.calls| + (if l.PushCall? then 1 else 0)
      && (forall t: nat | t < |b.calls| ::
            b'.calls[t].conn == b.calls[t].conn && b'.calls[t].id == b.calls[t].id && b'.calls[t].request == b.calls[t].request)
      && (l.PushCall? ==>
            var e := s.front.readers[l.r].pc.e;
            var call := b'.calls[|b.calls|];
            e in s.hand && call.conn == e && call.id == s.hand[e].0 && call.request == s.hand[e].1)
  {
    PartsStep(s, l);
    if BackLabel(s, l).Some? {
      var p := BackLabel(s, l).value;
      PI.LengthStep(Answer, s.back, p);
      forall t: nat | t < |s.back.calls|
        ensures Apply(s, l).back.calls[t].conn == s.back.calls[t].conn && Apply(s, l).back.calls[t].id == s.back.calls[t].id
        ensures Apply(s, l).back.calls[t].request == s.back.calls[t].request
      {
        PI.CallsStep(Answer, s.back, p, t);
      }
      if l.PushCall? { PI.NewCall(Answer, s.back, p); }
    }
    hide Apply, P.Apply, P.Enabled, A.Apply, DecodeCall, DecodeResponse, Inbox;
  }

  /** What `Call::read` finds: the first unread call. */
  lemma ReadFinds(s: System, l: Label)
    requires PartsSound(s) && Coupled(s) && ClientsSound(s) && HandsSound(s) && Enabled(s, l) && l.ReadCall?
    ensures
      var e := s.front.readers[l.r].pc.e;
      var cl := s.clients[e];
      && e !in s.hand && cl.unread != [] && cl.unread[0] !in cl.unread[1..] && Unread(s, e, cl.unread[0])
      && Arrives(s, e, cl.unread[0], DecodeCall(cl.up).value.1) && DecodeCall(cl.up).value.0 == cl.unread[0]
  {
    hide DecodeCall, PI.Inv, PF.Framed, S.Contiguous;
    var e := s.front.readers[l.r].pc.e;
    ReadingIsReady(s, l.r);
    assert ClientSound(s.clients[e]);
    assert e !in s.hand by {
      assert AI.Inv(s.front);
      OnlyHolder(s.front, l.r, e);
      assert !Holds(s.front.readers[l.r].pc, e);
    }
    hide DecodeCall, PartsSound, Coupled, ClientsSound, HandsSound, ClientSound;
    StreamHead(s.clients[e]);
    ReadKeeps(s.clients[e]);
    assert s.clients[e].unread[0] in s.clients[e].unread;
  }

  /** The read that moves call `id` of connection `c` into a reader's hand, and
      the push that moves it on. */
  predicate Reads(s: System, l: Label, c: nat, id: int) {
    && l.ReadCall? && l.r < |s.front.readers| && !s.front.readers[l.r].pc.Waiting? && s.front.readers[l.r].pc.e == c
    && c < |s.clients| && s.clients[c].unread != [] && s.clients[c].unread[0] == id
  }

  predicate Pushes(s: System, l: Label, c: nat) {
    l.PushCall? && l.r < |s.front.readers| && !s.front.readers[l.r].pc.Waiting? && s.front.readers[l.r].pc.e == c
  }

  /** Where the call `id` of connection `c` is after a step. */
  lemma UnreadAfter(s: System, l: Label, c: nat, id: int)
    requires PartsSound(s) && Coupled(s) && ClientsSound(s) && HandsSound(s) && Enabled(s, l)
    ensures Unread(Apply(s, l), c, id) <==>
              (Unread(s, c, id) && !Reads(s, l, c, id)) || (l.SendCall? && l.c == c && l.id == id)
    ensures Reads(s, l, c, id) ==> Unread(s, c, id)
  {
    hide Apply, PartsSound, Coupled, ClientsSound, HandsSound, DecodeCall, P.Enabled, A.Apply, Inbox, DecodeResponse, EncodeCall, Arrives;
    UnreadEffect(s, l, c);
    if l.ReadCall? { ReadFinds(s, l); }
    if l.ReadCall? && s.front.readers[l.r].pc.e == c {
      var u := s.clients[c].unread;
      assert u == [u[0]] + u[1..];
    }
  }

  lemma InHandAfter(s: System, l: Label, c: nat, id: int)
    requires PartsSound(s) && Coupled(s) && ClientsSound(s) && HandsSound(s) && Enabled(s, l)
    ensures InHand(Apply(s, l), c, id) <==> (InHand(s, c, id) && !Pushes(s, l, c)) || Reads(s, l, c, id)
  {
    hide Apply, PartsSound, Coupled, ClientsSound, HandsSound, DecodeCall, P.Enabled, A.Apply, Inbox, DecodeResponse, Arrives, Unread;
    assert l.PushCall? ==> !s.front.readers[l.r].pc.Waiting?;
    HandEffect(s, l);
    if l.ReadCall? {
      ReadFinds(s, l);
      hide Enabled;
    } else {
      hide Enabled;
    }
  }

  /** A new call of the pipeline is the one its reader held. */
  lemma CallEffect(s: System, l: Label, t: nat, c: nat, id: int)
    requires Enabled(s, l)
    ensures IsCall(Apply(s, l), t, c, id) <==>
              IsCall(s, t, c, id) || (t == |s.back.calls| && Pushes(s, l, c) && InHand(s, c, id))
    ensures IsCall(s, t, c, id) ==> Apply(s, l).back.calls[t].request == s.back.calls[t].request
    ensures t == |s.back.calls| && Pushes(s, l, c) && InHand(s, c, id) ==>
              Apply(s, l).back.calls[t].request == s.hand[c].1
  {
    ServerEffect(s, l);
    assert l.PushCall? ==> !s.front.readers[l.r].pc.Waiting?;
    hide Apply, P.Enabled, A.Enabled, A.Apply, Inbox, DecodeResponse, DecodeCall;
  }

  lemma ArrivesKept(s: System, l: Label, c: nat, id: int, request: Request)
    requires ClientsSound(s) && Enabled(s, l) && Arrives(s, c, id, request)
    ensures Arrives(Apply(s, l), c, id, request)
  {
    hide Apply, Enabled, ClientsSound, ArrivedRequest;
    CallsEffect(s, l, c, id);
  }

  lemma CallSeparateStep(s: System, l: Label, t: nat, c: nat, id: int)
    requires PartsSound(s) && Coupled(s) && ClientsSound(s) && HandsSound(s) && Separate(s) && Enabled(s, l)
    ensures CallSeparate(Apply(s, l), t, c, id)
  {
    hide Apply, PartsSound, Coupled, ClientsSound, HandsSound, Unread, InHand, Reads, Pushes, ArrivedRequest;
    var s' := Apply(s, l);
    assert CallSeparate(s, t, c, id) && HandSeparate(s, c, id);
    assert l.SendCall? && l.c == c && l.id == id ==> !Sent(s, c, id);
    hide Enabled;
    if IsCall(s', t, c, id) {
      UnreadAfter(s, l, c, id);
      InHandAfter(s, l, c, id);
      CallEffect(s, l, t, c, id);
      ArrivesKept(s, l, c, id, s'.back.calls[t].request);
      forall u: nat | IsCall(s', u, c, id) ensures t == u {
        CallEffect(s, l, u, c, id);
        assert CallSeparate(s, u, c, id);
      }
    }
  }

  lemma HandSeparateStep(s: System, l: Label, c: nat, id: int)
    requires PartsSound(s) && Coupled(s) && ClientsSound(s) && HandsSound(s) && Separate(s) && Enabled(s, l)
    ensures HandSeparate(Apply(s, l), c, id)
  {
    UnreadAfter(s, l, c, id);
    InHandAfter(s, l, c, id);
    HandEffect(s, l);
    assert HandSeparate(s, c, id);
    if l.SendCall? && l.c == c && l.id == id { assert !Sent(s, c, id); }
    if l.ReadCall? { ReadFinds(s, l); }
    hide Apply, PartsSound, Coupled, ClientsSound, HandsSound, Separate, Unread, ArrivedRequest, DecodeCall;
    if InHand(Apply(s, l), c, id) {
      ArrivesKept(s, l, c, id, Apply(s, l).hand[c].1);
    }
  }

  lemma SeparateStep(s: System, l: Label)
    requires PartsSound(s) && Coupled(s) && ClientsSound(s) && HandsSound(s) && Separate(s) && Enabled(s, l)
    ensures Separate(Apply(s, l))
  {
    hide Apply, Enabled, PartsSound, Coupled, ClientsSound, HandsSound, CallSeparate, HandSeparate;
    forall t: nat, c: nat, id: int ensures CallSeparate(Apply(s, l), t, c, id) {
      CallSeparateStep(s, l, t, c, id);
    }
    forall c: nat, id: int ensures HandSeparate(Apply(s, l), c, id) {
      HandSeparateStep(s, l, c, id);
    }
  }

  lemma SomewhereStep(s: System, l: Label)
    requires PartsSound(s) && Coupled(s) && ClientsSound(s) && HandsSound(s) && Somewhere(s) && Enabled(s, l)
    ensures Somewhere(Apply(s, l))
  {
    var s' := Apply(s, l);
    hide Apply, Enabled, PartsSound, Coupled, ClientsSound, HandsSound, Unread, InHand, IsCall, Sent, Reads, Pushes;
    forall c: nat, id: int | Sent(s', c, id)
      ensures Unread(s', c, id) || InHand(s', c, id) || exists t: nat :: IsCall(s', t, c, id)
    {
      CallsEffect(s, l, c, id);
      UnreadAfter(s, l, c, id);
      InHandAfter(s, l, c, id);
      CallEffect(s, l, |s.back.calls|, c, id);
      if t: nat :| Sent(s, c, id) && IsCall(s, t, c, id) {
        CallEffect(s, l, t, c, id);
      }
    }
  }

  // ----- Replies -----

  lemma {:induction false} CatSame(calls: seq<P.Call>, calls': seq<P.Call>, ts: seq<nat>)
    requires S.Executed(calls, ts) && S.Executed(calls', ts)
    requires forall i | 0 <= i < |ts| :: calls'[ts[i]] == calls[ts[i]]
    ensures S.Cat(calls', ts) == S.Cat(calls, ts)
  {
    hide PF.FrameOf;
    if ts != [] { CatSame(calls, calls', ts[1..]); }
  }

  /** The pipeline only adds to the finished calls. */
  lemma FinishedGrows(b: P.State, p: P.Label, c: nat)
    requires PI.Inv(Answer, b) && P.Enabled(b, p)
    ensures
      var b' := P.Apply(Answer, b, p);
      && Finished(b, c) <= Finished(b', c)
      && S.Executed(b'.calls, Finished(b', c))
      && |b'.calls| >= |b.calls|
      && (forall i | 0 <= i < |Finished(b, c)| ::
            Finished(b, c)[i] < |b.calls| && b'.calls[Finished(b, c)[i]] == b.calls[Finished(b, c)[i]])
  {
    hide PI.Inv, P.Apply;
    var b' := P.Apply(Answer, b, p);
    PI.InvStep(Answer, b, p);
    AnswersSized();
    S.DoneExecuted(Answer, b', c);
    S.DoneUnchanged(Answer, b, p, c);
    PI.ListsStep(Answer, b, p);
    PI.LengthStep(Answer, b, p);
    if p.Write? && p.n == P.Left(b.calls[b.threads[p.i].t]) {
      S.OnAppend(b'.calls, b.done, b.threads[p.i].t, c);
    }
    forall i | 0 <= i < |Finished(b, c)|
      ensures Finished(b, c)[i] < |b.calls| && b'.calls[Finished(b, c)[i]] == b.calls[Finished(b, c)[i]]
    {
      var t := Finished(b, c)[i];
      S.OnDone(b.calls, b.done, c, t);
      DoneFixed(b, p, t);
    }
    hide PI.Inv, P.Apply, P.Enabled, P.Left, S.On, S.Executed;
  }

  lemma DoneFixed(b: P.State, p: P.Label, t: nat)
    requires PI.Inv(Answer, b) && P.Enabled(b, p) && t in b.done && t < |b.calls|
    ensures t < |P.Apply(Answer, b, p).calls| && P.Apply(Answer, b, p).calls[t] == b.calls[t]
  {
    PI.LengthStep(Answer, b, p);
    PI.CallsStep(Answer, b, p, t);
    if (p.Execute? || p.Write?) && b.threads[p.i].t == t { PI.Sole(b, p.i, t); }
  }

  lemma AnswersSized()
    ensures S.Sized(Answer)
  {
    hide LE32;
  }

  lemma RepliesBack(b: P.State, p: P.Label, cl: Client, c: nat)
    requires PI.Inv(Answer, b) && P.Enabled(b, p) && RepliesSound(b, cl, c)
    ensures RepliesSound(P.Apply(Answer, b, p), cl, c)
  {
    hide PI.Inv, P.Apply, P.Enabled;
    var b' := P.Apply(Answer, b, p);
    FinishedGrows(b, p, c);
    hide PI.Inv, P.Apply, P.Enabled, S.Cat, S.On;
    var ts := Finished(b, c)[..cl.got];
    assert Finished(b', c)[..cl.got] == ts;
    CatSame(b.calls, b'.calls, ts);
    forall id, k: nat | k < cl.got ensures AnswersAt(b', c, id, k) <==> AnswersAt(b, c, id, k) {
      assert Finished(b', c)[k] == Finished(b, c)[k];
    }
    hide AnswersAt, Finished;
    forall id | id in cl.calls ensures ReplySound(b', cl, c, id) {
      assert ReplySound(b, cl, c, id);
    }
  }

  /** Whom a response answers has sent its call. */
  lemma AnswersSent(s: System, c: nat, id: int, k: nat)
    requires Separate(s) && AnswersAt(s.back, c, id, k)
    ensures Sent(s, c, id)
  {
    var t := Finished(s.back, c)[k];
    S.OnDone(s.back.calls, s.back.done, c, t);
    hide S.On;
    assert CallSeparate(s, t, c, id);
  }

  /** Registering, sending and being read change no value. */
  lemma RepliesClient(s: System, l: Label, c: nat)
    requires Separate(s) && ClientsSound(s) && Enabled(s, l) && c < |s.clients| && !(l.Receive? && l.c == c)
    requires RepliesSound(s.back, s.clients[c], c)
    ensures RepliesSound(s.back, NextClient(s, l, c), c)
  {
    var cl, cl' := s.clients[c], NextClient(s, l, c);
    hide P.Enabled, A.Enabled, DecodeCall, DecodeResponse, EncodeCall, Inbox, S.Cat, S.Executed, Separate, ClientSound;
    assert ClientSound(cl);
    if l.AddCall? && l.c == c { NextIsFree(cl); }
    hide ClientsSound;
    forall id | id in cl'.calls ensures ReplySound(s.back, cl', c, id) {
      if id in cl.calls {
        assert ReplySound(s.back, cl, c, id);
      } else {
        forall k: nat | AnswersAt(s.back, c, id, k) ensures false {
          AnswersSent(s, c, id, k);
        }
      }
    }
  }

  lemma {:induction false} OnAtMostDone(calls: seq<P.Call>, done: seq<nat>, c: nat, t: nat)
    ensures multiset(S.On(calls, done, c))[t] <= multiset(done)[t]
  {
    if done != [] {
      var rest := done[..|done| - 1];
      OnAtMostDone(calls, rest, c, t);
      assert done == rest + [done[|done| - 1]];
    }
  }

  lemma FinishedDistinct(s: System, c: nat, j: nat, k: nat)
    requires PartsSound(s) && j < k < |Finished(s.back, c)|
    ensures Finished(s.back, c)[j] != Finished(s.back, c)[k]
  {
    var ts := Finished(s.back, c);
    var t := ts[j];
    S.OnDone(s.back.calls, s.back.done, c, t);
    OnAtMostDone(s.back.calls, s.back.done, c, t);
    assert PI.Places(s.back, t) == 1;
    hide S.On, PartsSound, PI.Holding, P.Queue;
    if ts[j] == ts[k] { TwiceIn(ts, j, k); }
  }

  lemma AnswersCall(s: System, c: nat, id: int, k: nat)
    requires AnswersAt(s.back, c, id, k)
    ensures IsCall(s, Finished(s.back, c)[k], c, id)
  {
    S.OnDone(s.back.calls, s.back.done, c, Finished(s.back, c)[k]);
  }

  /** No call is answered twice. */
  lemma AnsweredOnce(s: System, c: nat, id: int, j: nat, k: nat)
    requires PartsSound(s) && Separate(s) && AnswersAt(s.back, c, id, j) && AnswersAt(s.back, c, id, k)
    ensures j == k
  {
    AnswersCall(s, c, id, j);
    AnswersCall(s, c, id, k);
    hide PartsSound, Finished, IsCall;
    assert CallSeparate(s, Finished(s.back, c)[j], c, id);
    if j < k { FinishedDistinct(s, c, j, k); }
    if k < j { FinishedDistinct(s, c, k, j); }
  }

  lemma TwiceIn(ts: seq<nat>, j: nat, k: nat)
    requires j < k < |ts| && ts[j] == ts[k]
    ensures multiset(ts)[ts[j]] >= 2
  {
    assert ts == ts[..j] + [ts[j]] + ts[j + 1..k] + [ts[k]] + ts[k + 1..];
  }

  lemma InboxSplits(s: System, c: nat) returns (cut: seq<byte>)
    requires PartsSound(s) && c < |s.clients| && RepliesSound(s.back, s.clients[c], c)
    ensures
      var tail := Finished(s.back, c)[s.clients[c].got..];
      S.Executed(s.back.calls, tail) && Inbox(s, c) == S.Cat(s.back.calls, tail) + cut && DecodeResponse(cut).Throw?
  {
    hide DecodeResponse, S.Output, PI.Inv, PF.Framed, S.Contiguous, AI.Inv, S.On, ReplySound, S.ExecutedCall, S.Cat;
    AnswersSized();
    cut := S.OutputSplits(Answer, s.back, c);
    var ts := Finished(s.back, c);
    var head, tail := ts[..s.clients[c].got], ts[s.clients[c].got..];
    assert ts == head + tail;
    S.CatAppend(s.back.calls, head, tail);
    var h, t := S.Cat(s.back.calls, head), S.Cat(s.back.calls, tail);
    assert S.Output(s.back.log, c) == h + (t + cut);
    assert (h + (t + cut))[|h|..] == t + cut;
  }

  /** What the client has not consumed: the next whole response, if there is
      one, and nothing decodable otherwise. */
  lemma InboxHead(s: System, c: nat)
    requires PartsSound(s) && c < |s.clients| && RepliesSound(s.back, s.clients[c], c)
    ensures
      var cl := s.clients[c];
      var ts := Finished(s.back, c);
      if cl.got < |ts| then
        var call := s.back.calls[ts[cl.got]];
        && S.ExecutedCall(s.back.calls, ts[cl.got])
        && DecodeResponse(Inbox(s, c)).Ok?
        && DecodeResponse(Inbox(s, c)).value == (call.id, ClientValue(call.value.value))
        && |Inbox(s, c)| - |DecodeResponse(Inbox(s, c)).rest| == |PF.FrameOf(call)|
      else DecodeResponse(Inbox(s, c)).Throw?
  {
    hide DecodeResponse, PartsSound, Inbox, PF.FrameOf, ClientValue, S.On, ReplySound;
    var cl := s.clients[c];
    var ts := Finished(s.back, c);
    var cut := InboxSplits(s, c);
    if cl.got < |ts| {
      assert ts[cl.got..][0] == ts[cl.got];
      NextResponse(s.back.calls, ts[cl.got..], cut);
    } else {
      assert ts[cl.got..] == [];
      assert [] + cut == cut;
    }
  }

  lemma NextResponse(calls: seq<P.Call>, ts: seq<nat>, cut: seq<byte>)
    requires S.Executed(calls, ts) && ts != []
    ensures
      var call := calls[ts[0]];
      var inbox := S.Cat(calls, ts) + cut;
      && S.ExecutedCall(calls, ts[0])
      && DecodeResponse(inbox).Ok? && DecodeResponse(inbox).value == (call.id, ClientValue(call.value.value))
      && |inbox| - |DecodeResponse(inbox).rest| == |PF.FrameOf(call)|
  {
    var call := calls[ts[0]];
    var rest := S.Cat(calls, ts[1..]) + cut;
    hide DecodeResponse, ClientValue, Header;
    assert S.Cat(calls, ts) + cut == Frame(call.id, call.value.value) + rest;
    ResponseRoundTrip(call.id, call.value.value, rest);
  }

  /** A received response is for a call of this connection that is sent, has no
      value yet, and gets the value of its own request. */
  lemma ReceiveFinds(s: System, l: Label)
    requires PartsSound(s) && Separate(s) && ClientsSound(s) && AllReplies(s) && Enabled(s, l) && l.Receive?
    ensures
      var cl := s.clients[l.c];
      var (id, v) := DecodeResponse(Inbox(s, l.c)).value;
      && id in cl.calls && cl.calls[id].sent && cl.calls[id].value.None?
      && v == ClientValue(Answer(ArrivedRequest(cl.calls[id].request)))
      && AnswersAt(s.back, l.c, id, cl.got)
  {
    hide DecodeResponse, Inbox, PI.Inv, PF.Framed, S.Contiguous, AI.Inv;
    var c := l.c;
    var cl := s.clients[c];
    assert RepliesSound(s.back, cl, c);
    hide DecodeResponse, Inbox, ClientsSound, AllReplies, P.Enabled, A.Enabled, S.Executed, S.Cat, ClientValue, Answer, ArrivedRequest;
    InboxHead(s, c);
    var id := DecodeResponse(Inbox(s, c)).value.0;
    var t := Finished(s.back, c)[cl.got];
    assert AnswersAt(s.back, c, id, cl.got);
    ServerCall(s, c, id, t);
    assert ReplySound(s.back, cl, c, id);
    if k: nat :| k < cl.got && AnswersAt(s.back, c, id, k) {
      AnsweredOnce(s, c, id, k, cl.got);
    }
  }

  lemma ServerCall(s: System, c: nat, id: int, t: nat)
    requires PartsSound(s) && Separate(s) && t in Finished(s.back, c) && t < |s.back.calls| && s.back.calls[t].id == id
    ensures Arrives(s, c, id, s.back.calls[t].request)
    ensures s.back.calls[t].value == Some(Answer(s.back.calls[t].request))
  {
    S.OnDone(s.back.calls, s.back.done, c, t);
    assert CallSeparate(s, t, c, id);
    assert PI.SoundCall(Answer, s.back, t) && PI.Ready(s.back, t);
  }

  lemma PosAfter(b: P.State, cl: Client, c: nat)
    requires RepliesSound(b, cl, c) && cl.got < |Finished(b, c)|
    ensures
      var ts := Finished(b, c);
      && S.ExecutedCall(b.calls, ts[cl.got]) && S.Executed(b.calls, ts[..cl.got + 1])
      && |S.Cat(b.calls, ts[..cl.got + 1])| == cl.pos + |PF.FrameOf(b.calls[ts[cl.got]])|
  {
    hide S.On, ReplySound, S.ExecutedCall;
    var ts := Finished(b, c);
    var t := ts[cl.got];
    assert S.ExecutedCall(b.calls, ts[cl.got]);
    assert ts[..cl.got + 1] == ts[..cl.got] + [t];
    S.CatAppend(b.calls, ts[..cl.got], [t]);
    OneFrame(b.calls, t);
  }

  lemma OneFrame(calls: seq<P.Call>, t: nat)
    requires S.ExecutedCall(calls, t)
    ensures S.Executed(calls, [t]) && S.Cat(calls, [t]) == PF.FrameOf(calls[t])
  {
    hide PF.FrameOf;
    assert S.Cat(calls, [t][1..]) == [];
  }

  lemma ReplyKeeps(b: P.State, cl: Client, c: nat, id: int, v: int)
    requires RepliesSound(b, cl, c) && id in cl.calls && AnswersAt(b, c, id, cl.got)
    requires v == ClientValue(Answer(ArrivedRequest(cl.calls[id].request)))
    ensures
      var pos := cl.pos + |PF.FrameOf(b.calls[Finished(b, c)[cl.got]])|;
      RepliesSound(b, cl.(calls := cl.calls[id := cl.calls[id].(value := Some(v))], pos := pos, got := cl.got + 1), c)
  {
    PosAfter(b, cl, c);
    var pos := cl.pos + |PF.FrameOf(b.calls[Finished(b, c)[cl.got]])|;
    var cl' := cl.(calls := cl.calls[id := cl.calls[id].(value := Some(v))], pos := pos, got := cl.got + 1);
    hide S.Executed, S.Cat, S.On, ClientValue, Answer, ArrivedRequest, PF.FrameOf;
    forall id' | id' in cl'.calls ensures ReplySound(b, cl', c, id') {
      assert ReplySound(b, cl, c, id');
      assert AnswersAt(b, c, id', cl.got) <==> id' == id;
    }
  }

  lemma RepliesReceive(s: System, l: Label)
    requires PartsSound(s) && Separate(s) && ClientsSound(s) && AllReplies(s) && Enabled(s, l) && l.Receive?
    ensures RepliesSound(s.back, NextClient(s, l, l.c), l.c)
  {
    hide PartsSound, Separate, ClientsSound, RepliesSound, P.Enabled, A.Enabled, DecodeResponse, Inbox, ClientValue, Answer, ArrivedRequest, PF.FrameOf, S.On;
    var c := l.c;
    var cl := s.clients[c];
    assert RepliesSound(s.back, cl, c);
    hide AllReplies;
    ReceiveFinds(s, l);
    InboxHead(s, c);
    var (id, v) := DecodeResponse(Inbox(s, c)).value;
    ReplyKeeps(s.back, cl, c, id, v);
    hide Finished, AnswersAt;
    assert NextClient(s, l, c) == cl.(calls := cl.calls[id := cl.calls[id].(value := Some(v))],
      pos := cl.pos + |Inbox(s, c)| - |DecodeResponse(Inbox(s, c)).rest|, got := cl.got + 1);
  }

  lemma AllRepliesStep(s: System, l: Label)
    requires PartsSound(s) && Separate(s) && ClientsSound(s) && AllReplies(s) && Enabled(s, l)
    ensures AllReplies(Apply(s, l))
  {
    hide Apply, RepliesSound, PI.Inv, PF.Framed, S.Contiguous, AI.Inv, P.Apply, P.Enabled, A.Apply, A.Enabled;
    hide DecodeResponse, DecodeCall, EncodeCall, Inbox;
    var s' := Apply(s, l);
    PartsStep(s, l);
    ClientEffect(s, l);
    hide Apply, RepliesSound, PI.Inv, PF.Framed, S.Contiguous, AI.Inv, Separate, ClientsSound, P.Apply, P.Enabled, A.Apply, A.Enabled;
    hide DecodeResponse, DecodeCall, EncodeCall, Inbox;
    forall c: nat | c < |s'.clients| ensures RepliesSound(s'.back, s'.clients[c], c) {
      if c == |s.clients| {
        NoReplies(s.back, c);
      } else {
        assert RepliesSound(s.back, s.clients[c], c);
        if l.Receive? && l.c == c { RepliesReceive(s, l); } else { RepliesClient(s, l, c); }
        if BackLabel(s, l).Some? { RepliesBack(s.back, BackLabel(s, l).value, s.clients[c], c); }
      }
    }
  }

  lemma NoReplies(b: P.State, c: nat)
    requires PI.Inv(Answer, b)
    ensures RepliesSound(b, Client(0, map[], [], [], 0, 0), c)
  {
    AnswersSized();
    S.DoneExecuted(Answer, b, c);
  }

  // ----- Every reachable state -----

  lemma NotLostStep(s: System, l: Label)
    requires PartsSound(s) && Separate(s) && ClientsSound(s) && AllReplies(s) && Enabled(s, l) && !s.lost
    ensures !Apply(s, l).lost
  {
    hide PartsSound, Separate, ClientsSound, AllReplies, P.Enabled, A.Enabled, P.Apply, A.Apply, DecodeResponse, DecodeCall, EncodeCall, Inbox;
    if l.Receive? { ReceiveFinds(s, l); }
  }

  lemma InvStep(s: System, l: Label)
    requires Inv(s) && Enabled(s, l)
    ensures Inv(Apply(s, l))
  {
    hide Enabled, Apply, PartsSound, Coupled, ClientsSound, HandsSound, Separate, Somewhere, AllReplies;
    PartsSoundStep(s, l);
    CoupledStep(s, l);
    ClientsSoundStep(s, l);
    HandsSoundStep(s, l);
    SeparateStep(s, l);
    SomewhereStep(s, l);
    AllRepliesStep(s, l);
    NotLostStep(s, l);
  }

  lemma InvInit(readers: nat, handlers: nat)
    requires readers >= 1
    ensures Inv(Init(readers, handlers))
  {
    var s := Init(readers, handlers);
    AI.InvInit(readers);
    PI.InvInit(Answer, handlers);
    forall c: nat ensures S.Contiguous(s.back, c) && PF.Framed(s.back) {
      S.StartsContiguous(Answer, handlers, c);
    }
    assert forall r | 0 <= r < |s.front.readers| :: s.front.readers[r].pc.Waiting?;
    hide AI.Inv, PI.Inv, PF.Framed, S.Contiguous, S.On;
    assert forall c: nat :: !Held(s.front, c);
  }

  lemma {:induction false} InvRun(s: System, ls: seq<Label>)
    requires Inv(s) && Run(s, ls)
    ensures Inv(After(s, ls))
    decreases |ls|
  {
    hide Inv, Enabled, Apply;
    if ls != [] {
      InvStep(s, ls[0]);
      InvRun(Apply(s, ls[0]), ls[1..]);
    }
  }

  /** The call reached the server as one call, and that was executed once. */
  ghost predicate ExecutedOnce(s: System, c: nat, id: int) {
    exists t: nat :: IsCall(s, t, c, id) && multiset(s.back.executed)[t] == 1 && forall u: nat | IsCall(s, u, c, id) :: u == t
  }

  lemma ServedOnce(s: System, c: nat, id: int, t: nat)
    requires PartsSound(s) && Separate(s) && IsCall(s, t, c, id) && PI.Ready(s.back, t)
    ensures ExecutedOnce(s, c, id)
  {
    assert CallSeparate(s, t, c, id);
    assert PI.SoundCall(Answer, s.back, t);
  }

  /** A call that a response answers. */
  lemma AnsweredIsServed(s: System, c: nat, id: int, k: nat)
    requires PartsSound(s) && Separate(s) && AnswersAt(s.back, c, id, k)
    ensures ExecutedOnce(s, c, id)
  {
    var t := Finished(s.back, c)[k];
    S.OnDone(s.back.calls, s.back.done, c, t);
    assert PI.Ready(s.back, t);
    hide S.On, PI.Inv, PF.Framed, S.Contiguous, AI.Inv, Separate;
    ServedOnce(s, c, id, t);
  }

  /** End to end, for any number of readers, handlers, connections and calls and
      any schedule: a call that has a value has been sent and executed once, and
      its value is what its own request, as it arrives, yields; the ids of a connection are those
      below its counter; and no client meets an id it does not know. */
  lemma OwnAnswer(readers: nat, handlers: nat, ls: seq<Label>, c: nat, id: int)
    requires readers >= 1 && Run(Init(readers, handlers), ls)
    ensures
      var s := After(Init(readers, handlers), ls);
      && !s.lost
      && (c < |s.clients| ==> (id in s.clients[c].calls <==> 0 <= id < s.clients[c].next))
      && (c < |s.clients| && id in s.clients[c].calls && s.clients[c].calls[id].value.Some? ==>
            var call := s.clients[c].calls[id];
            && call.sent && call.value.value == ClientValue(Method.Answer(ArrivedRequest(call.request)))
            && ExecutedOnce(s, c, id))
  {
    InvInit(readers, handlers);
    InvRun(Init(readers, handlers), ls);
    var s := After(Init(readers, handlers), ls);
    hide Run, After, PartsSound, Coupled, HandsSound, Somewhere, Separate, Finished, AnswersAt, ArrivedRequest;
    if c < |s.clients| {
      assert ClientSound(s.clients[c]) && RepliesSound(s.back, s.clients[c], c);
      if id in s.clients[c].calls && s.clients[c].calls[id].value.Some? {
        assert ReplySound(s.back, s.clients[c], c, id);
        var k: nat :| k < s.clients[c].got && AnswersAt(s.back, c, id, k);
        AnswersSent(s, c, id, k);
        AnsweredIsServed(s, c, id, k);
      }
    }
  }

  /** A call's value is set at most once. */
  lemma ValueOnce(s: System, l: Label, c: nat, id: int)
    requires Inv(s) && Enabled(s, l) && c < |s.clients| && id in s.clients[c].calls
    requires s.clients[c].calls[id].value.Some?
    ensures c < |Apply(s, l).clients| && id in Apply(s, l).clients[c].calls
    ensures Apply(s, l).clients[c].calls[id].value == s.clients[c].calls[id].value
    ensures l.Receive? && l.c == c ==> DecodeResponse(Inbox(s, c)).value.0 != id
  {
    hide Apply, PartsSound, Coupled, HandsSound, Separate, Somewhere, AllReplies, ClientSound, P.Enabled, A.Enabled;
    hide DecodeResponse, DecodeCall, EncodeCall, Inbox, ClientValue, Answer, ArrivedRequest, AnswersAt;
    assert ClientSound(s.clients[c]);
    if l.Receive? { ReceiveFinds(s, l); }
    hide Inv, ClientsSound;
    ClientEffect(s, l);
    if l.AddCall? && l.c == c { NextIsFree(s.clients[c]); }
  }

  /** In particular `NameNode.create`, called from any thread in any run, returns
      the low byte of the sum of its four arguments. */
  lemma RemoteSum(readers: nat, handlers: nat, ls: seq<Label>, c: nat, id: int, x: int, y: int, z: int, w: int)
    requires readers >= 1 && Run(Init(readers, handlers), ls)
    requires
      var s := After(Init(readers, handlers), ls);
      && c < |s.clients| && id in s.clients[c].calls && s.clients[c].calls[id].value.Some?
      && s.clients[c].calls[id].request == Request(Ascii("NameNode"), Ascii("create"), [IntW(x), IntW(y), IntW(z), IntW(w)])
    requires IsInt32(x) && IsInt32(y) && IsInt32(z) && IsInt32(w)
    ensures After(Init(readers, handlers), ls).clients[c].calls[id].value == Some(LowByte(x + y + z + w))
  {
    OwnAnswer(readers, handlers, ls, c, id);
    hide Run, After, Init, Method.Answer;
    Method.CreateRequestGood(x, y, z, w);
    Method.CreateAnswer(x, y, z, w);
  }

  /** And `FSNameSystem.create` returns 32, whatever its parameters. */
  lemma RemoteFsCreate(readers: nat, handlers: nat, ls: seq<Label>, c: nat, id: int)
    requires readers >= 1 && Run(Init(readers, handlers), ls)
    requires var s := After(Init(readers, handlers), ls); c < |s.clients| && id in s.clients[c].calls
    requires
      var call := After(Init(readers, handlers), ls).clients[c].calls[id];
      call.value.Some? && call.request.cls == Ascii("FSNameSystem") && call.request.name == Ascii("create")
    ensures After(Init(readers, handlers), ls).clients[c].calls[id].value == Some(32)
  {
    OwnAnswer(readers, handlers, ls, c, id);
    hide Run, After, Method.Answer;
    Method.FsAnswer(ArrivedParams(After(Init(readers, handlers), ls).clients[c].calls[id].request.params));
  }
}
