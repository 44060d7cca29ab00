/** No caller is left waiting: where nothing can move any more, every call has its answer. */
module EndToEndProgress {
  import opened Bytes
  import opened Codec
  import opened Response
  import opened EndToEnd
  import opened EndToEndInv
  import A = Acceptance
  import AI = AcceptanceInv
  import P = Pipeline
  import PI = PipelineInv
  import PP = PipelineProgress
  import S = PipelineStream

  /** Steps that need neither a new connection, nor a new call, nor an error event. */
  predicate Moves(l: Label) {
    !l.Accept? && !l.AddCall? && !(l.Front? && (l.a.EventError? || l.a.RearmError?))
  }

  /** Nothing can move, nothing has aborted, and no error event let a connection go. */
  ghost predicate Quiet(s: System) {
    && Up(s) && s.front.dropped == [] && |s.back.threads| >= 2 && s.back.failed == []
    && forall l | Moves(l) :: !Enabled(s, l)
  }

  /** No response is partly written. */
  ghost predicate NoneHalf(s: System) {
    forall t: nat, c: nat :: !S.Partial(s.back, t, c)
  }

  lemma NobodyRequeues(s: System, i: nat)
    requires Inv(s) && NoneHalf(s) && i < |s.back.threads|
    ensures !s.back.threads[i].Requeueing?
  {
    var pc := s.back.threads[i];
    if pc.Requeueing? {
      assert PI.SoundThread(s.back, pc);
      PI.Sole(s.back, i, pc.t);
      assert S.Partial(s.back, pc.t, s.back.calls[pc.t].conn);
    }
  }

  /** The write a thread could do where it could fail. */
  function WriteInstead(b: P.State, i: nat): P.Label {
    if i < |b.threads| && b.threads[i].Writing? && b.threads[i].t < |b.calls|
    then P.Write(i, P.Left(b.calls[b.threads[i].t])) else P.Lookup
  }

  lemma FailOrWrite(b: P.State, i: nat, n: nat)
    ensures P.Enabled(b, P.WriteError(i, n)) ==> P.Enabled(b, WriteInstead(b, i))
  {
    hide P.Remaining, P.Queue;
  }

  /** Where no response is half written, every step but giving a call up is
      permitted; and whoever may give a call up may as well write it. */
  lemma BackStuck(s: System)
    requires Inv(s) && Quiet(s) && NoneHalf(s)
    ensures PP.Stuck(s.back)
  {
    forall p: P.Label | PP.Internal(p) ensures !P.Enabled(s.back, p) {
      if p.WriteError? {
        FailOrWrite(s.back, p.i, p.n);
        hide Inv, A.Enabled, S.Partial, P.Enabled;
        assert !Enabled(s, Back(WriteInstead(s.back, p.i)));
      } else if p.RequeueFull? {
        hide S.Partial, P.Queue;
        if p.i < |s.back.threads| { NobodyRequeues(s, p.i); }
      } else {
        hide Inv, A.Enabled, S.Partial, P.Enabled;
        assert !Enabled(s, Back(p));
      }
    }
  }

  lemma ListenerIdle(s: System)
    requires Inv(s) && Quiet(s)
    ensures s.front.listener.Polling?
  {
    assert AI.Inv(s.front) && |s.back.threads| >= 1;
    assert s.front.listener.Adding? ==> AI.Room(s.front);
    hide Inv, DecodeCall, P.Enabled;
    assert !Enabled(s, Enter);
    assert !Enabled(s, Front(A.Add)) && !Enabled(s, Front(A.Refuse));
  }

  predicate ReaderIdle(rd: A.Reader) { rd.pc.Waiting? && rd.queue == [] }

  /** A step open to a reader with something to do. */
  function ReaderMove(s: System, r: nat): Label
    requires r < |s.front.readers|
  {
    match s.front.readers[r].pc
    case Waiting => Front(A.Fetch(r))
    case Reading(_) => ReadCall(r)
    case Holding(_) => PushCall(r)
    case Rearming(_) => Front(A.Rearm(r))
    case Closing(_) => CloseConn(r)
  }

  lemma HeldCanBePushed(s: System, r: nat)
    requires Inv(s) && Up(s) && s.back.callQ == [] && r < |s.front.readers| && s.front.readers[r].pc.Holding?
    ensures s.front.readers[r].pc.e in s.hand && P.Enabled(s.back, Push(s, s.front.readers[r].pc.e))
  {
    var e := s.front.readers[r].pc.e;
    assert AI.ReaderListed(s.front, s.front.readers[r]);
    assert Holds(s.front.readers[r].pc, e);
    assert Held(s.front, e) && e in s.hand;
    assert HandSeparate(s, e, s.hand[e].0);
    assert ClientSound(s.clients[e]);
  }

  lemma ReaderCanMove(s: System, r: nat)
    requires Inv(s) && Up(s) && s.back.callQ == [] && r < |s.front.readers| && !ReaderIdle(s.front.readers[r])
    ensures Moves(ReaderMove(s, r)) && Enabled(s, ReaderMove(s, r))
  {
    hide DecodeCall, P.Enabled, Separate, Somewhere, AllReplies, HandsSound, ClientsSound, AI.Owned, AI.Counted, AI.TableSound, AI.Listed, AI.Fair, AI.Room, PI.Inv;
    assert -1 <= s.front.last < |s.front.readers| && !s.front.readers[r].pc.Closing?;
    hide PartsSound, Coupled;
    if s.front.readers[r].pc.Reading? { ReadingIsReady(s, r); }
    if s.front.readers[r].pc.Holding? { HeldCanBePushed(s, r); }
    hide Inv;
  }

  lemma ReadersIdle(s: System)
    requires Inv(s) && Quiet(s) && s.back.callQ == []
    ensures forall r | 0 <= r < |s.front.readers| :: ReaderIdle(s.front.readers[r])
  {
    hide Inv, Enabled;
    forall r: nat | r < |s.front.readers| ensures ReaderIdle(s.front.readers[r]) {
      if !ReaderIdle(s.front.readers[r]) { ReaderCanMove(s, r); }
    }
  }

  lemma {:induction false} IdleHaveNothing(rds: seq<A.Reader>, e: nat)
    requires forall r | 0 <= r < |rds| :: ReaderIdle(rds[r])
    ensures AI.ReadersHave(rds, e) == 0
  {
    if rds != [] {
      assert ReaderIdle(rds[0]);
      IdleHaveNothing(rds[1..], e);
    }
  }

  /** Every connection waits for a read event, so there is nothing to read. */
  lemma NothingUnread(s: System, c: nat)
    requires Inv(s) && Quiet(s) && s.back.callQ == [] && c < |s.clients|
    ensures s.clients[c].unread == [] && c !in s.hand
  {
    ListenerIdle(s);
    ReadersIdle(s);
    IdleHaveNothing(s.front.readers, c);
    assert AI.Owners(s.front, c) == 1;
    assert c in s.front.armed;
    var k: nat :| k < |s.front.armed| && s.front.armed[k] == c;
    assert AI.Inv(s.front);
    assert ClientSound(s.clients[c]);
    assert !Held(s.front, c);
    hide Inv, DecodeCall, P.Enabled, AI.Inv, ClientSound;
    assert !Enabled(s, Front(A.Readable(k)));
    if s.clients[c].unread != [] { StreamNotEmpty(s.clients[c]); }
  }

  lemma StreamNotEmpty(cl: Client)
    requires ClientSound(cl) && cl.unread != []
    ensures cl.up != []
  {
    StreamHead(cl);
  }

  /** Every response has been received. */
  lemma NothingUnreceived(s: System, c: nat)
    requires Inv(s) && Quiet(s) && c < |s.clients|
    ensures s.clients[c].got == |Finished(s.back, c)|
  {
    hide DecodeResponse, Inbox, S.On, ReplySound, ClientValue, PartsSound, Coupled, ClientsSound, HandsSound, Separate, Somewhere;
    assert RepliesSound(s.back, s.clients[c], c) && !s.lost;
    assert !Enabled(s, Receive(c));
    hide Inv, Quiet, Enabled;
    InboxHead(s, c);
  }

  lemma {:induction false} DoneIsFinished(calls: seq<P.Call>, done: seq<nat>, c: nat, t: nat)
    requires t in done && t < |calls| && calls[t].conn == c
    ensures t in S.On(calls, done, c)
  {
    var u := done[|done| - 1];
    if t != u { DoneIsFinished(calls, done[..|done| - 1], c, t); }
  }

  /** Nobody is left waiting: for any number of readers, with at least one
      handler, and however the work was scheduled, in a state where nothing can
      move, no response is half written and no connection was let go, every call
      ever registered has been sent, executed once, and answered with its own value. */
  lemma EveryCallAnswered(readers: nat, handlers: nat, ls: seq<Label>, c: nat, id: int)
    requires readers >= 1 && Run(Init(readers, handlers), ls)
    requires
      var s := After(Init(readers, handlers), ls);
      Quiet(s) && NoneHalf(s) && c < |s.clients| && id in s.clients[c].calls
    ensures
      var call := After(Init(readers, handlers), ls).clients[c].calls[id];
      && call.sent && ExecutedOnce(After(Init(readers, handlers), ls), c, id)
      && call.value == Some(ClientValue(Answer(ArrivedRequest(call.request))))
  {
    InvInit(readers, handlers);
    InvRun(Init(readers, handlers), ls);
    var s := After(Init(readers, handlers), ls);
    hide Run, After, Init;
    QuietAnswered(s, c, id);
  }

  lemma QuietAnswered(s: System, c: nat, id: int)
    requires Inv(s) && Quiet(s) && NoneHalf(s) && c < |s.clients| && id in s.clients[c].calls
    ensures
      var call := s.clients[c].calls[id];
      && call.sent && ExecutedOnce(s, c, id)
      && call.value == Some(ClientValue(Answer(ArrivedRequest(call.request))))
  {
    BackStuck(s);
    assert PI.Inv(Answer, s.back);
    PP.StuckIsDrained(Answer, s.back);
    NothingUnread(s, c);
    NothingUnreceived(s, c);
    assert !Enabled(s, SendCall(c, id));
    hide Enabled, Quiet, NoneHalf, PP.Stuck, PI.Inv, PartsSound, ExecutedOnce, ClientsSound, HandsSound, ArrivedRequest, ClientValue, Answer;
    assert Sent(s, c, id);
    var t: nat :| IsCall(s, t, c, id);
    DoneIsFinished(s.back.calls, s.back.done, c, t);
    var k: nat :| k < |Finished(s.back, c)| && Finished(s.back, c)[k] == t;
    assert AnswersAt(s.back, c, id, k);
    AnsweredIsServed(s, c, id, k);
    assert RepliesSound(s.back, s.clients[c], c);
    assert ReplySound(s.back, s.clients[c], c, id);
  }
}
