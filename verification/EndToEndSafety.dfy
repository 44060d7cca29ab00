/** When nothing in the whole framework can abort, and what that is worth to callers. */
module EndToEndSafety {
  import opened Bytes
  import opened Codec
  import opened EndToEnd
  import opened EndToEndInv
  import opened EndToEndProgress
  import opened Response
  import A = Acceptance
  import AI = AcceptanceInv
  import P = Pipeline
  import PI = PipelineInv
  import PP = PipelineProgress
  import PS = PipelineSafety
  import S = PipelineStream

  /** No error event, and room in `_bq_call` for what a reader pushes. */
  predicate Calm(s: System, l: Label) {
    && !(l.Front? && (l.a.EventError? || l.a.RearmError?))
    && (l.PushCall? || l.PushFull? ==> PI.InFlight(s.back) < 100)
  }

  /** At most 100 calls are between the end of their reading and their last byte,
      and at most 100 connections per reader are ever accepted. */
  predicate Few(s: System) {
    PI.InFlight(s.back) <= 100 && s.front.accepted <= 100 * |s.front.readers|
  }

  ghost predicate CalmRun(s: System, ls: seq<Label>)
    decreases |ls|
  {
    Few(s) && (ls == [] || (Enabled(s, ls[0]) && Calm(s, ls[0]) && CalmRun(Apply(s, ls[0]), ls[1..])))
  }

  /** Whatever a connection is told to write goes out at once. */
  predicate Whole(s: System, l: Label) {
    l.Back? && l.p.Write? && l.p.i < |s.back.threads| && s.back.threads[l.p.i].Writing?
    && s.back.threads[l.p.i].t < |s.back.calls| ==>
      l.p.n == P.Left(s.back.calls[s.back.threads[l.p.i].t])
  }

  ghost predicate WholeRun(s: System, ls: seq<Label>)
    decreases |ls|
  {
    ls == [] || (Enabled(s, ls[0]) && Whole(s, ls[0]) && WholeRun(Apply(s, ls[0]), ls[1..]))
  }

  /** What calm steps keep. */
  ghost predicate Undisturbed(s: System) {
    && Up(s) && PS.PendingOpen(s.back) && s.back.failed == [] && s.front.dropped == []
    && (s.front.listener.Adding? ==> s.front.listener.live <= s.front.accepted)
  }

  lemma FrontUndisturbed(f: A.Front, a: A.Label)
    requires AI.Inv(f) && !f.halted && A.Enabled(f, a) && !a.EventError? && !a.RearmError?
    requires f.accepted <= A.READER_CAPACITY * |f.readers| && f.dropped == []
    requires f.listener.Adding? ==> f.listener.live <= f.accepted
    ensures
      var f' := A.Apply(f, a);
      !f'.halted && f'.dropped == [] && (f'.listener.Adding? ==> f'.listener.live <= f'.accepted)
  {
    assert AI.Room(f);
    if f.listener.Adding? { AI.SomeReaderTakesIt(f); }
    hide AI.Inv, AI.Room;
  }

  lemma BackUndisturbed(b: P.State, p: P.Label)
    requires PI.Inv(Answer, b) && PS.PendingOpen(b) && !b.halted && P.Enabled(b, p) && S.Clean(p) && !p.Close?
    requires PI.InFlight(b) <= P.CAPACITY && (p.Read? || p.CallQueueFull? ==> PI.InFlight(b) < P.CAPACITY)
    requires b.failed == []
    ensures
      var b' := P.Apply(Answer, b, p);
      !b'.halted && PS.PendingOpen(b') && b'.failed == []
  {
    hide PI.Inv, PS.PendingOpen, P.Apply, P.Enabled;
    PS.CalmStep(Answer, b, p);
    PI.ListsStep(Answer, b, p);
  }

  lemma UndisturbedStep(s: System, l: Label)
    requires Inv(s) && Undisturbed(s) && Few(s) && Enabled(s, l) && Calm(s, l)
    ensures Undisturbed(Apply(s, l))
  {
    hide Apply, PS.PendingOpen, PI.Inv, AI.Inv, A.Enabled, A.Apply, P.Enabled, P.Apply, S.Guard;
    assert l.Back? ==> Internal(l.p);
    hide Enabled;
    NothingCloses(s, l);
    PartsStep(s, l);
    assert PI.Inv(Answer, s.back) && AI.Inv(s.front);
    hide Inv;
    if FrontLabel(l).Some? { FrontUndisturbed(s.front, FrontLabel(l).value); }
    if BackLabel(s, l).Some? { BackUndisturbed(s.back, BackLabel(s, l).value); }
  }

  lemma {:induction false} UndisturbedRun(s: System, ls: seq<Label>)
    requires Inv(s) && Undisturbed(s) && CalmRun(s, ls)
    ensures Run(s, ls) && Undisturbed(After(s, ls))
    decreases |ls|
  {
    hide Inv, Undisturbed, Few, Calm, Enabled, Apply;
    if ls != [] {
      UndisturbedStep(s, ls[0]);
      InvStep(s, ls[0]);
      UndisturbedRun(Apply(s, ls[0]), ls[1..]);
    }
  }

  /** Capacity, end to end: with so few calls and connections, no queue is ever
      found full, no lookup or pop fails, no reader is short of room, no answer is
      unknown to its client and no call is given up: nothing aborts. */
  lemma NothingAborts(readers: nat, handlers: nat, ls: seq<Label>)
    requires readers >= 1 && CalmRun(Init(readers, handlers), ls)
    ensures Run(Init(readers, handlers), ls)
    ensures var s := After(Init(readers, handlers), ls); Up(s) && !s.lost && s.back.failed == [] && s.front.dropped == []
  {
    InvInit(readers, handlers);
    UndisturbedRun(Init(readers, handlers), ls);
    OwnAnswer(readers, handlers, ls, 0, 0);
  }

  lemma NoneHalfStep(s: System, l: Label)
    requires Enabled(s, l) && NoneHalf(s) && Whole(s, l)
    ensures NoneHalf(Apply(s, l))
  {
    PartsStep(s, l);
    if BackLabel(s, l).Some? {
      var p := BackLabel(s, l).value;
      hide Apply, Enabled, A.Enabled, A.Apply, P.Apply, S.Guard, P.Queue, P.Left;
      forall t: nat, c: nat ensures !S.Partial(Apply(s, l).back, t, c) {
        assert !S.Partial(s.back, t, c);
        PI.LengthStep(Answer, s.back, p);
        PI.ListsStep(Answer, s.back, p);
        if t < |s.back.calls| { PI.CallsStep(Answer, s.back, p, t); }
        if p.Read? { PI.NewCall(Answer, s.back, p); }
      }
    }
  }

  lemma {:induction false} NoneHalfRun(s: System, ls: seq<Label>)
    requires NoneHalf(s) && WholeRun(s, ls)
    ensures Run(s, ls) && NoneHalf(After(s, ls))
    decreases |ls|
  {
    hide NoneHalf, Enabled, Apply, Whole;
    if ls != [] {
      NoneHalfStep(s, ls[0]);
      NoneHalfRun(Apply(s, ls[0]), ls[1..]);
    }
  }

  lemma {:induction false} ThreadsStay(s: System, ls: seq<Label>)
    requires Run(s, ls)
    ensures |After(s, ls).back.threads| == |s.back.threads|
    decreases |ls|
  {
    if ls != [] {
      PartsStep(s, ls[0]);
      if BackLabel(s, ls[0]).Some? { PI.ThreadsStep(Answer, s.back, BackLabel(s, ls[0]).value); }
      hide Enabled, Apply, P.Apply, P.Enabled, A.Apply, A.Enabled;
      ThreadsStay(Apply(s, ls[0]), ls[1..]);
    }
  }

  /** All of it together: for any number of readers and handlers and any schedule,
      with few calls and connections, no error events and whole writes, when
      nothing can move any more every call ever made has been sent, executed once
      and answered with the value of its own request. */
  lemma EveryCallerServed(readers: nat, handlers: nat, ls: seq<Label>, c: nat, id: int)
    requires readers >= 1 && handlers >= 1
    requires Run(Init(readers, handlers), ls)
    requires CalmRun(Init(readers, handlers), ls) && WholeRun(Init(readers, handlers), ls)
    requires
      var s := After(Init(readers, handlers), ls);
      (forall l | Moves(l) :: !Enabled(s, l)) && c < |s.clients| && id in s.clients[c].calls
    ensures
      var call := After(Init(readers, handlers), ls).clients[c].calls[id];
      && call.sent && ExecutedOnce(After(Init(readers, handlers), ls), c, id)
      && call.value == Some(ClientValue(Answer(ArrivedRequest(call.request))))
  {
    NothingAborts(readers, handlers, ls);
    ThreadsStay(Init(readers, handlers), ls);
    NoneHalfRun(Init(readers, handlers), ls);
    hide Run, After, CalmRun, WholeRun, Enabled;
    EveryCallAnswered(readers, handlers, ls, c, id);
  }

  // ----- Partial writes, one call at a time -----

  /** No connection has two calls in the response stage. */
  ghost predicate OneAtATime(b: P.State) {
    forall t: nat, u: nat | PI.InResponse(b, t) && PI.InResponse(b, u) && b.calls[t].conn == b.calls[u].conn :: t == u
  }

  lemma HolderInResponse(b: P.State, i: nat)
    requires PI.Inv(Answer, b) && i < |b.threads| && (b.threads[i].Writing? || b.threads[i].Requeueing?)
    ensures PI.InResponse(b, b.threads[i].t)
  {
    assert PI.SoundThread(b, b.threads[i]);
    PI.Sole(b, i, b.threads[i].t);
  }

  lemma AloneIsGuarded(b: P.State, p: P.Label)
    requires PI.Inv(Answer, b) && OneAtATime(b) && P.Enabled(b, p)
    ensures S.Guard(b, p)
  {
    if p.Write? {
      var t := b.threads[p.i].t;
      HolderInResponse(b, p.i);
      forall u: nat ensures S.Partial(b, u, b.calls[t].conn) ==> PI.InResponse(b, u) && b.calls[u].conn == b.calls[t].conn {
        if u < |b.calls| { assert PI.SoundCall(Answer, b, u); }
      }
      hide PI.Inv, PI.InResponse, P.Enabled, S.Partial;
    }
  }

  /** A call that is alone finds room to go back. */
  lemma AloneHasRoom(b: P.State, i: nat)
    requires PI.Inv(Answer, b) && OneAtATime(b)
    ensures !P.Enabled(b, P.RequeueFull(i))
  {
    if P.Enabled(b, P.RequeueFull(i)) {
      var t := b.threads[i].t;
      var c := b.calls[t].conn;
      HolderInResponse(b, i);
      var u := P.Queue(b, c)[0];
      assert u in P.Queue(b, c) && PI.Ready(b, u) && PI.Places(b, u) == 1;
      assert PI.InResponse(b, u);
      PI.Sole(b, i, t);
    }
  }

  lemma AloneIsStuck(s: System)
    requires Inv(s) && Quiet(s) && OneAtATime(s.back)
    ensures PP.Stuck(s.back)
  {
    assert PI.Inv(Answer, s.back);
    hide Inv, A.Enabled, P.Enabled, S.Guard, OneAtATime, PI.Inv;
    forall p: P.Label | PP.Internal(p) ensures !P.Enabled(s.back, p) {
      if p.RequeueFull? {
        AloneHasRoom(s.back, p.i);
      } else {
        var q := if p.WriteError? then WriteInstead(s.back, p.i) else p;
        if p.WriteError? { FailOrWrite(s.back, p.i, p.n); }
        assert P.Enabled(s.back, q) ==> Enabled(s, Back(q)) by {
          if P.Enabled(s.back, q) { AloneIsGuarded(s.back, q); }
        }
      }
    }
  }

  /** The same for writes of any size: when nothing can move any more, and no
      connection has two calls in the response stage, every call ever made is
      executed once and answered with the value of its own request. */
  lemma EveryCallerServedInParts(readers: nat, handlers: nat, ls: seq<Label>, c: nat, id: int)
    requires readers >= 1 && handlers >= 1
    requires Run(Init(readers, handlers), ls) && CalmRun(Init(readers, handlers), ls)
    requires
      var s := After(Init(readers, handlers), ls);
      && (forall l | Moves(l) :: !Enabled(s, l)) && OneAtATime(s.back)
      && c < |s.clients| && id in s.clients[c].calls
    ensures
      var call := After(Init(readers, handlers), ls).clients[c].calls[id];
      && call.sent && ExecutedOnce(After(Init(readers, handlers), ls), c, id)
      && call.value == Some(ClientValue(Answer(ArrivedRequest(call.request))))
  {
    NothingAborts(readers, handlers, ls);
    ThreadsStay(Init(readers, handlers), ls);
    InvInit(readers, handlers);
    InvRun(Init(readers, handlers), ls);
    var s := After(Init(readers, handlers), ls);
    hide Run, After, CalmRun, Enabled, OneAtATime;
    AloneIsStuck(s);
    assert PI.Inv(Answer, s.back);
    PP.StuckIsDrained(Answer, s.back);
    assert NoneHalf(s);
    EveryCallAnswered(readers, handlers, ls, c, id);
  }
}
