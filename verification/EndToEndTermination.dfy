/** Every run of the whole framework ends, in a number of steps linear in its
    connections and calls. */
module EndToEndTermination {
  import opened Bytes
  import opened Codec
  import opened Response
  import opened EndToEnd
  import opened EndToEndInv
  import opened EndToEndProgress
  import A = Acceptance
  import AI = AcceptanceInv
  import P = Pipeline
  import PI = PipelineInv
  import PP = PipelineProgress

  // ----- The measure -----

  /** How far a connection has come since its read event, counted down; having
      been read, it is charged for what the pipeline will have to do. */
  function PcPhase(pc: A.ReaderPc, n: nat): int {
    match pc
    case Waiting => 0
    case Reading(_) => -(n + 3)
    case Holding(_) => 60
    case Rearming(_) => 1
    case Closing(_) => 0
  }

  function ReaderPhase(rd: A.Reader, n: nat): int { PcPhase(rd.pc, n) - (n + 2) * |rd.queue| }

  function ReaderPhases(rds: seq<A.Reader>, n: nat): int {
    if rds == [] then 0 else ReaderPhases(rds[1..], n) + ReaderPhase(rds[0], n)
  }

  function ListenerPhase(pc: A.ListenerPc): int {
    match pc
    case Polling => 0
    case Found(_) => -1
    case Adding(_, _, tries, _) => -2 - tries
  }

  function FrontPhase(f: A.Front): int { ListenerPhase(f.listener) + ReaderPhases(f.readers, |f.readers|) }

  /** Ids of calls not yet sent, and of calls without a value. */
  function Unsent(cl: Client): set<int> { set id | id in cl.calls && !cl.calls[id].sent }

  function Unvalued(cl: Client): set<int> { set id | id in cl.calls && cl.calls[id].value.None? }

  function ClientWork(cl: Client, n: nat): int {
    (n + 65) * |Unsent(cl)| + (n + 64) * |cl.unread| + |Unvalued(cl)|
  }

  function ClientsWork(cls: seq<Client>, n: nat): int {
    if cls == [] then 0 else ClientsWork(cls[1..], n) + ClientWork(cls[0], n)
  }

  function Total(s: System): int {
    var n := |s.front.readers|;
    PP.Measure(Answer, s.back) + ClientsWork(s.clients, n) + FrontPhase(s.front) + (n + 3) * s.front.accepted
  }

  lemma {:induction false} MoveReader(rds: seq<A.Reader>, r: nat, rd: A.Reader, n: nat)
    requires r < |rds|
    ensures ReaderPhases(rds[r := rd], n) == ReaderPhases(rds, n) - ReaderPhase(rds[r], n) + ReaderPhase(rd, n)
  {
    hide ReaderPhase;
    if r == 0 {
      assert rds[r := rd][1..] == rds[1..];
    } else {
      assert rds[r := rd][1..] == rds[1..][r - 1 := rd];
      MoveReader(rds[1..], r - 1, rd, n);
    }
  }

  lemma {:induction false} MoveClient(cls: seq<Client>, c: nat, cl: Client, n: nat)
    requires c < |cls|
    ensures ClientsWork(cls[c := cl], n) == ClientsWork(cls, n) - ClientWork(cls[c], n) + ClientWork(cl, n)
  {
    hide ClientWork;
    if c == 0 {
      assert cls[c := cl][1..] == cls[1..];
    } else {
      assert cls[c := cl][1..] == cls[1..][c - 1 := cl];
      MoveClient(cls[1..], c - 1, cl, n);
    }
  }

  lemma {:induction false} AppendClient(cls: seq<Client>, cl: Client, n: nat)
    ensures ClientsWork(cls + [cl], n) == ClientsWork(cls, n) + ClientWork(cl, n)
  {
    hide ClientWork;
    if cls == [] {
      assert cls + [cl] == [cl];
    } else {
      assert (cls + [cl])[1..] == cls[1..] + [cl];
      AppendClient(cls[1..], cl, n);
    }
  }

  // ----- It never runs out -----

  lemma {:induction false} WorkNotNegative(cls: seq<Client>, n: nat)
    ensures ClientsWork(cls, n) >= 0
  {
    if cls != [] { WorkNotNegative(cls[1..], n); }
  }

  lemma {:induction false} PhasesBounded(rds: seq<A.Reader>, n: nat)
    ensures ReaderPhases(rds, n) >= -((n + 3) * AI.Loads(rds))
  {
    if rds != [] {
      PhasesBounded(rds[1..], n);
      var q := |rds[0].queue|;
      assert (n + 3) * (q + 1) == (n + 3) * q + (n + 3) && (n + 3) * q == (n + 2) * q + q;
      assert ReaderPhase(rds[0], n) >= -((n + 3) * AI.Load(rds[0]));
      assert (n + 3) * (AI.Loads(rds[1..]) + AI.Load(rds[0])) == (n + 3) * AI.Loads(rds[1..]) + (n + 3) * AI.Load(rds[0]);
    }
  }

  lemma Scale(d: nat, a: int, b: int)
    requires a <= b
    ensures d * a <= d * b
  {
  }

  /** Only connections in the readers' and the listener's hands are counted down. */
  lemma FrontBounded(f: A.Front)
    requires AI.Counted(f) && (f.listener.Adding? ==> f.listener.tries <= |f.readers|)
    ensures FrontPhase(f) + (|f.readers| + 3) * f.accepted >= 0
  {
    var d := |f.readers| + 3;
    var loads := AI.Loads(f.readers);
    var one := if f.listener.Polling? then 0 else 1;
    assert loads + one <= f.accepted;
    assert ListenerPhase(f.listener) >= -(d * one);
    PhasesBounded(f.readers, |f.readers|);
    hide AI.Counted, AI.Loads, ReaderPhases, ListenerPhase;
    Outweighed(d, loads, one, f.accepted, ReaderPhases(f.readers, |f.readers|), ListenerPhase(f.listener));
  }

  lemma Outweighed(d: nat, x: int, y: int, total: int, p: int, q: int)
    requires x + y <= total && p >= -(d * x) && q >= -(d * y)
    ensures q + p + d * total >= 0
  {
    Scale(d, x + y, total);
    assert d * (x + y) == d * x + d * y;
  }

  lemma TotalNotNegative(s: System)
    requires Inv(s)
    ensures Total(s) >= 0
  {
    hide Coupled, ClientsSound, Separate, Somewhere, HandsSound, AllReplies, PI.Inv, ClientsWork, FrontPhase, PP.Measure;
    hide AI.Owned, AI.Counted, AI.TableSound, AI.Listed, AI.Fair, AI.Room;
    WorkNotNegative(s.clients, |s.front.readers|);
    FrontBounded(s.front);
  }

  // ----- What a step costs -----

  function Allowance(n: nat, l: Label): nat {
    match l
    case Accept => n + 3
    case AddCall(_, _) => n + 66
    case _ => 0
  }

  lemma FrontCost(s: System, l: Label)
    requires Inv(s) && Enabled(s, l) && FrontLabel(l).Some?
    ensures
      var a := FrontLabel(l).value;
      var n := |s.front.readers|;
      FrontPhase(Apply(s, l).front) - FrontPhase(s.front) <=
        if a.ReadOk? then n + 63 else if a.PushCall? then -59 else if a.Accept? || a.EventError? then 0 else -1
  {
    PartsStep(s, l);
    NothingCloses(s, l);
    assert AI.Inv(s.front) && !s.front.halted;
    hide Inv, Enabled, Apply;
    var a := FrontLabel(l).value;
    assert s.front.listener.Adding? ==> s.front.listener.tries < |s.front.readers|;
    hide AI.Inv;
    FrontPhaseStep(s.front, a);
  }

  lemma FrontPhaseStep(f: A.Front, a: A.Label)
    requires A.Enabled(f, a) && !a.CloseConn? && !a.ReadFail?
    requires f.listener.Adding? ==> f.listener.tries < |f.readers|
    ensures
      var n := |f.readers|;
      FrontPhase(A.Apply(f, a)) - FrontPhase(f) <=
        if a.ReadOk? then n + 63 else if a.PushCall? then -59 else if a.Accept? || a.EventError? then 0 else -1
  {
    hide A.Apply;
    var n := |f.readers|;
    var f' := A.Apply(f, a);
    var r := AI.Changed(f, a);
    AI.ReadersStep(f, a);
    MoveReader(f.readers, r, f'.readers[r], n);
    ListenerPhaseStep(f, a);
    ReaderPhaseStep(f, a);
    hide ReaderPhases, ReaderPhase, ListenerPhase, A.Enabled;
  }

  lemma ListenerPhaseStep(f: A.Front, a: A.Label)
    requires A.Enabled(f, a)
    requires f.listener.Adding? ==> f.listener.tries < |f.readers|
    ensures ListenerPhase(A.Apply(f, a).listener) - ListenerPhase(f.listener) <=
              if a.Add? then |f.readers| + 1 else if a.Readable? || a.LookUp? || a.Refuse? then -1 else 0
  {
  }

  lemma ReaderPhaseStep(f: A.Front, a: A.Label)
    requires A.Enabled(f, a) && !a.CloseConn? && !a.ReadFail?
    ensures AI.Changed(f, a) < |A.Apply(f, a).readers|
    ensures
      var n := |f.readers|;
      var r := AI.Changed(f, a);
      ReaderPhase(A.Apply(f, a).readers[r], n) - ReaderPhase(f.readers[r], n) <=
        if a.ReadOk? then n + 63 else if a.PushCall? then -59 else if a.Add? then -(n + 2)
        else if a.Fetch? || a.Rearm? || a.RearmError? then -1 else 0
  {
    var n := |f.readers|;
    var q := |f.readers[AI.Changed(f, a)].queue|;
    assert (n + 2) * (q + 1) == (n + 2) * q + (n + 2);
    assert q > 0 ==> (n + 2) * (q - 1) == (n + 2) * q - (n + 2);
  }

  /** A call's value is short, so the pipeline's charge for it is small. */
  lemma AnswerPrice(r: Request)
    ensures |Answer(r)| <= 4
  {
  }

  lemma BackCost(s: System, l: Label)
    requires Inv(s) && Enabled(s, l) && BackLabel(s, l).Some?
    ensures PP.Measure(Answer, Apply(s, l).back) - PP.Measure(Answer, s.back)
              <= if l.PushCall? then 49 else if l.Back? || l.PushFull? then -1 else 0
  {
    hide Coupled, ClientsSound, Separate, Somewhere, HandsSound, AllReplies, PP.Measure, PI.Inv, AI.Inv, P.Apply, P.Enabled, A.Enabled, Apply;
    PartsStep(s, l);
    var p := BackLabel(s, l).value;
    PP.MeasureStep(Answer, s.back, p);
    if p.Read? { AnswerPrice(p.request); }
  }

  lemma AddWork(cl: Client, cl': Client, request: Request, n: nat)
    requires cl.next !in cl.calls
    requires cl' == cl.(next := cl.next + 1, calls := cl.calls[cl.next := ClientCall(request, false, None)])
    ensures ClientWork(cl', n) == ClientWork(cl, n) + n + 66
  {
    assert Unsent(cl') == Unsent(cl) + {cl.next} && Unvalued(cl') == Unvalued(cl) + {cl.next};
  }

  lemma SendWork(cl: Client, cl': Client, id: int, up: seq<byte>, n: nat)
    requires id in cl.calls && !cl.calls[id].sent
    requires cl' == cl.(calls := cl.calls[id := cl.calls[id].(sent := true)], up := up, unread := cl.unread + [id])
    ensures ClientWork(cl', n) == ClientWork(cl, n) - 1
  {
    assert Unsent(cl') == Unsent(cl) - {id} && Unvalued(cl') == Unvalued(cl);
  }

  lemma ReadWork(cl: Client, cl': Client, up: seq<byte>, n: nat)
    requires cl.unread != [] && cl' == cl.(up := up, unread := cl.unread[1..])
    ensures ClientWork(cl', n) == ClientWork(cl, n) - (n + 64)
  {
  }

  lemma ReceiveWork(cl: Client, cl': Client, id: int, v: int, pos: nat, n: nat)
    requires id in cl.calls && cl.calls[id].value.None?
    requires cl' == cl.(calls := cl.calls[id := cl.calls[id].(value := Some(v))], pos := pos, got := cl.got + 1)
    ensures ClientWork(cl', n) == ClientWork(cl, n) - 1
  {
    assert Unsent(cl') == Unsent(cl) && Unvalued(cl') == Unvalued(cl) - {id};
  }

  /** What registering, sending, reading and receiving do to a client's work. */
  lemma ClientCost(s: System, l: Label, c: nat, n: nat)
    requires Inv(s) && Enabled(s, l) && c < |s.clients|
    ensures
      ClientWork(NextClient(s, l, c), n) - ClientWork(s.clients[c], n) ==
        if l.AddCall? && l.c == c then n + 66
        else if l.SendCall? && l.c == c then -1
        else if l.ReadCall? && s.front.readers[l.r].pc.e == c then -(n + 64)
        else if l.Receive? && l.c == c then -1
        else 0
  {
    hide PartsSound, Coupled, Separate, Somewhere, HandsSound, AllReplies, P.Enabled, DecodeResponse, DecodeCall, EncodeCall, Inbox, Answer, ClientValue, ArrivedRequest, ClientWork, ClientSound;
    var cl, cl' := s.clients[c], NextClient(s, l, c);
    if l.AddCall? && l.c == c {
      assert ClientSound(cl);
      NextIsFree(cl);
      AddWork(cl, cl', l.request, n);
    } else if l.SendCall? && l.c == c {
      SendWork(cl, cl', l.id, cl'.up, n);
    } else if l.ReadCall? && s.front.readers[l.r].pc.e == c {
      ReadFinds(s, l);
      ReadWork(cl, cl', cl'.up, n);
    } else if l.Receive? && l.c == c {
      ReceiveFinds(s, l);
      var (id, v) := DecodeResponse(Inbox(s, c)).value;
      ReceiveWork(cl, cl', id, v, cl'.pos, n);
    }
  }

  /** The connection whose client a label changes. */
  function Touched(s: System, l: Label): Option<nat> {
    match l
    case ReadCall(r) =>
      if r < |s.front.readers| && !s.front.readers[r].pc.Waiting? then Some(s.front.readers[r].pc.e) else None
    case AddCall(c, _) => Some(c)
    case SendCall(c, _) => Some(c)
    case Receive(c) => Some(c)
    case _ => None
  }

  lemma OnlyTouched(s: System, l: Label)
    requires Enabled(s, l)
    ensures Touched(s, l).Some? ==> Touched(s, l).value < |s.clients|
    ensures
      Apply(s, l).clients ==
        if Touched(s, l).Some? then s.clients[Touched(s, l).value := NextClient(s, l, Touched(s, l).value)]
        else if l.Accept? then s.clients + [Client(0, map[], [], [], 0, 0)]
        else s.clients
  {
    hide P.Apply, A.Apply, P.Enabled, DecodeCall, DecodeResponse, EncodeCall, Inbox;
  }

  lemma ClientsCost(s: System, l: Label, n: nat)
    requires Inv(s) && Enabled(s, l)
    ensures
      ClientsWork(Apply(s, l).clients, n) - ClientsWork(s.clients, n) ==
        if l.AddCall? then n + 66 else if l.SendCall? || l.Receive? then -1 else if l.ReadCall? then -(n + 64) else 0
  {
    hide Inv, Apply, ClientWork, ClientsWork, NextClient, P.Enabled, DecodeCall, DecodeResponse, EncodeCall, Inbox;
    OnlyTouched(s, l);
    if Touched(s, l).Some? {
      var c := Touched(s, l).value;
      ClientCost(s, l, c, n);
      MoveClient(s.clients, c, NextClient(s, l, c), n);
    } else if l.Accept? {
      FreshWork(n);
      AppendClient(s.clients, Client(0, map[], [], [], 0, 0), n);
    }
  }

  lemma FreshWork(n: nat)
    ensures ClientWork(Client(0, map[], [], [], 0, 0), n) == 0
  {
  }

  lemma NoClosing(s: System, l: Label)
    requires Inv(s) && Enabled(s, l)
    ensures !l.CloseConn? && (l.Front? ==> Own(l.a) && !l.a.ReadFail?) && |s.front.readers| >= 1
    ensures l.PushFull? ==> BackLabel(s, l).Some?
  {
    assert AI.Inv(s.front);
    assert l.PushFull? ==> !s.front.readers[l.r].pc.Waiting?;
    hide A.Enabled, P.Enabled, PartsSound, Coupled, ClientsSound, HandsSound, Separate, Somewhere, AllReplies;
    NothingCloses(s, l);
  }

  lemma FrontCharge(s: System, l: Label)
    requires Inv(s) && Enabled(s, l)
    ensures
      var n := |s.front.readers|;
      && |Apply(s, l).front.readers| == n
      && Apply(s, l).front.accepted == s.front.accepted + (if l.Accept? then 1 else 0)
      && FrontPhase(Apply(s, l).front) - FrontPhase(s.front) <=
           (if l.ReadCall? then n + 63 else if l.PushCall? then -59
            else if l.Enter? || (l.Front? && !l.a.EventError?) then -1 else 0)
  {
    hide Inv, Apply, Enabled, FrontPhase, A.Apply, A.Enabled;
    PartsStep(s, l);
    NoClosing(s, l);
    if FrontLabel(l).Some? {
      FrontCost(s, l);
      FrontStep(s.front, FrontLabel(l).value, 0);
    }
  }

  lemma BackCharge(s: System, l: Label)
    requires Inv(s) && Enabled(s, l)
    ensures PP.Measure(Answer, Apply(s, l).back) - PP.Measure(Answer, s.back)
              <= if l.PushCall? then 49 else if l.Back? || l.PushFull? then -1 else 0
  {
    hide Inv, Apply, Enabled, PP.Measure, P.Apply, P.Enabled;
    PartsStep(s, l);
    NoClosing(s, l);
    if BackLabel(s, l).Some? { BackCost(s, l); }
  }

  /** Each step lowers the total, unless it brings a new connection or a new
      call, or lets a connection go. */
  lemma TotalStep(s: System, l: Label)
    requires Inv(s) && Enabled(s, l)
    ensures Total(Apply(s, l)) <= Total(s) + Allowance(|s.front.readers|, l) - if Moves(l) then 1 else 0
    ensures |Apply(s, l).front.readers| == |s.front.readers|
  {
    hide Inv, Apply, Enabled, PP.Measure, ClientsWork, FrontPhase;
    var n := |s.front.readers|;
    NoClosing(s, l);
    ClientsCost(s, l, n);
    FrontCharge(s, l);
    BackCharge(s, l);
    assert (n + 3) * (s.front.accepted + 1) == (n + 3) * s.front.accepted + (n + 3);
  }

  function Steps(ls: seq<Label>): nat {
    if ls == [] then 0 else (if Moves(ls[0]) then 1 else 0) + Steps(ls[1..])
  }

  function Budget(n: nat, ls: seq<Label>): nat {
    if ls == [] then 0 else Allowance(n, ls[0]) + Budget(n, ls[1..])
  }

  lemma {:induction false} RunBounded(s: System, ls: seq<Label>)
    requires Inv(s) && Run(s, ls)
    ensures Steps(ls) <= Total(s) + Budget(|s.front.readers|, ls)
    decreases |ls|
  {
    hide Inv, Enabled, Apply, Total, Allowance, Moves;
    TotalNotNegative(s);
    if ls != [] {
      TotalStep(s, ls[0]);
      InvStep(s, ls[0]);
      RunBounded(Apply(s, ls[0]), ls[1..]);
    }
  }

  /** Every run of the whole framework ends: with `n` readers it takes at most
      n+3 steps per connection and n+66 per call, whatever the schedule. */
  lemma EveryRunEnds(readers: nat, handlers: nat, ls: seq<Label>)
    requires readers >= 1 && Run(Init(readers, handlers), ls)
    ensures Steps(ls) <= 1 + Budget(readers, ls)
  {
    InvInit(readers, handlers);
    hide Inv, Run;
    PP.IdlePhases(handlers + 1);
    IdleReaders(readers, readers);
    RunBounded(Init(readers, handlers), ls);
  }

  lemma {:induction false} IdleReaders(k: nat, n: nat)
    ensures ReaderPhases(seq(k, _ => A.Reader([], A.Waiting)), n) == 0
  {
    if k > 0 {
      assert seq(k, _ => A.Reader([], A.Waiting))[1..] == seq(k - 1, _ => A.Reader([], A.Waiting));
      IdleReaders(k - 1, n);
    }
  }
}
