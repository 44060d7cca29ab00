/** When the server's `std::abort` calls cannot be reached. */
module PipelineSafety {
  import opened Pipeline
  import opened PipelineInv

  predicate Unfinished(s: State, t: nat) { t < |s.calls| && t !in s.done && t !in s.failed }

  /** The connection of every unfinished call is still in `_connections`. */
  ghost predicate PendingOpen(s: State) {
    forall t: nat | Unfinished(s, t) :: s.calls[t].conn in s.open
  }

  /** A connection is closed only when none of its calls is unfinished. */
  ghost predicate QuietClose(s: State, l: Label) {
    l.Close? ==> forall t: nat | Unfinished(s, t) :: s.calls[t].conn != l.c
  }

  lemma OpenStep(f: Program, s: State, l: Label)
    requires Enabled(s, l)
    ensures Apply(f, s, l).open ==
              if l.Open? then s.open + {l.c} else if l.Close? then s.open - {l.c} else s.open
  {
    hide Sending, Remaining, Queue, Left;
  }

  lemma PendingOpenStep(f: Program, s: State, l: Label)
    requires PendingOpen(s) && Enabled(s, l) && QuietClose(s, l)
    ensures PendingOpen(Apply(f, s, l))
  {
    var s' := Apply(f, s, l);
    OpenStep(f, s, l);
    LengthStep(f, s, l);
    ListsStep(f, s, l);
    if l.Read? { NewCall(f, s, l); }
    forall t: nat | Unfinished(s', t) ensures s'.calls[t].conn in s'.open {
      if t < |s.calls| {
        CallsStep(f, s, l, t);
        assert Unfinished(s, t);
      }
      hide Apply, Queue, Left;
    }
  }

  /** A thread that owes a connection a pop finds it in `_connections`. */
  lemma OwedIsOpen(f: Program, s: State, i: nat)
    requires Inv(f, s) && PendingOpen(s) && i < |s.threads| && s.threads[i].Looking?
    ensures s.threads[i].c in s.open
  {
    var c := s.threads[i].c;
    assert BalancedAt(s, c);
    OwingAtLeast(s.threads, i, c);
    var t := Queue(s, c)[0];
    assert t in Queue(s, c) && Ready(s, t) && Places(s, t) == 1;
    assert Unfinished(s, t);
  }

  /** Every way to abort. */
  lemma AbortCauses(f: Program, s: State, l: Label)
    requires Enabled(s, l) && Apply(f, s, l).halted
    ensures l.CallQueueFull? || l.ResponseQueueFull? || l.TokenQueueFull? || l.PopEmpty? || l.WriteError? || l.RequeueFull?
            || (l.Lookup? && s.threads[0].c !in s.open)
  {
    hide Sending, Remaining, Queue, Left;
  }

  /** No write error, no close with calls pending, and at most `CAPACITY` calls
      between the end of their reading and their last byte, counting in the one a
      reader is about to push. */
  ghost predicate CalmRun(f: Program, s: State, ls: seq<Label>)
    decreases |ls|
  {
    && InFlight(s) <= CAPACITY
    && (ls == [] || (
          && Enabled(s, ls[0]) && !ls[0].WriteError? && QuietClose(s, ls[0])
          && (ls[0].Read? || ls[0].CallQueueFull? ==> InFlight(s) < CAPACITY)
          && CalmRun(f, Apply(f, s, ls[0]), ls[1..])))
  }

  lemma CalmStep(f: Program, s: State, l: Label)
    requires Inv(f, s) && PendingOpen(s) && Enabled(s, l) && InFlight(s) <= CAPACITY && !l.WriteError? && QuietClose(s, l)
    requires l.Read? || l.CallQueueFull? ==> InFlight(s) < CAPACITY
    ensures !Apply(f, s, l).halted && !l.RequeueFull? && Inv(f, Apply(f, s, l)) && PendingOpen(Apply(f, s, l))
  {
    InvStep(f, s, l);
    PendingOpenStep(f, s, l);
    if l.PopEmpty? { NeverEmpty(s, l.i); }
    if l.Lookup? { OwedIsOpen(f, s, 0); }
    if l.CallQueueFull? || l.ResponseQueueFull? || l.TokenQueueFull? || l.RequeueFull? { NoQueueOverflows(f, s, l); }
    hide Apply, Inv, PendingOpen, Enabled, Queue;
    if Apply(f, s, l).halted { AbortCauses(f, s, l); }
  }

  lemma {:induction false} CalmRunIsSafe(f: Program, s: State, ls: seq<Label>)
    requires Inv(f, s) && PendingOpen(s) && !s.halted && CalmRun(f, s, ls)
    ensures Run(f, s, ls) && !After(f, s, ls).halted
    ensures forall l | l in ls :: !l.WriteError? && !l.RequeueFull?
    decreases |ls|
  {
    hide Inv, PendingOpen, Apply, Enabled, QuietClose;
    if ls != [] {
      CalmStep(f, s, ls[0]);
      CalmRunIsSafe(f, Apply(f, s, ls[0]), ls[1..]);
    }
  }

  /** In a calm run, with any number of handlers, the server never aborts and
      loses no call. */
  lemma NeverAborts(f: Program, handlers: nat, ls: seq<Label>)
    requires CalmRun(f, Init(handlers), ls)
    ensures Run(f, Init(handlers), ls) && !After(f, Init(handlers), ls).halted
    ensures forall l | l in ls :: !l.WriteError? && !l.RequeueFull?
  {
    InvInit(f, handlers);
    CalmRunIsSafe(f, Init(handlers), ls);
  }

  // ----- Connections closed too early -----

  /** As in a calm run, but connections are closed at any time. */
  ghost predicate FewRun(f: Program, s: State, ls: seq<Label>)
    decreases |ls|
  {
    && InFlight(s) <= CAPACITY
    && (ls == [] || (
          && Enabled(s, ls[0]) && !ls[0].WriteError?
          && (ls[0].Read? || ls[0].CallQueueFull? ==> InFlight(s) < CAPACITY)
          && FewRun(f, Apply(f, s, ls[0]), ls[1..])))
  }

  /** The responder looks up the connection of its token, and it is gone. */
  predicate Misses(s: State, l: Label) { l.Lookup? && |s.threads| > 0 && s.threads[0].Looking? && s.threads[0].c !in s.open }

  ghost predicate MissesIn(f: Program, s: State, ls: seq<Label>)
    requires Run(f, s, ls)
    decreases |ls|
  {
    ls != [] && (Misses(s, ls[0]) || MissesIn(f, Apply(f, s, ls[0]), ls[1..]))
  }

  lemma HaltsExactly(f: Program, s: State, l: Label)
    requires Inv(f, s) && !s.halted && InFlight(s) <= CAPACITY && Enabled(s, l) && !l.WriteError?
    requires l.Read? || l.CallQueueFull? ==> InFlight(s) < CAPACITY
    ensures Apply(f, s, l).halted <==> Misses(s, l)
  {
    if l.PopEmpty? { NeverEmpty(s, l.i); }
    if l.CallQueueFull? || l.ResponseQueueFull? || l.TokenQueueFull? || l.RequeueFull? { NoQueueOverflows(f, s, l); }
    if Apply(f, s, l).halted { AbortCauses(f, s, l); }
    hide Inv, Sending, Remaining, Left;
  }

  lemma {:induction false} FewRunIsRun(f: Program, s: State, ls: seq<Label>)
    requires FewRun(f, s, ls)
    ensures Run(f, s, ls)
    decreases |ls|
  {
    hide Apply, Enabled;
    if ls != [] { FewRunIsRun(f, Apply(f, s, ls[0]), ls[1..]); }
  }

  lemma {:induction false} HaltsIfMissed(f: Program, s: State, ls: seq<Label>)
    requires Inv(f, s) && !s.halted && FewRun(f, s, ls) && Run(f, s, ls)
    ensures After(f, s, ls).halted <==> MissesIn(f, s, ls)
    decreases |ls|
  {
    if ls != [] {
      var s' := Apply(f, s, ls[0]);
      HaltsExactly(f, s, ls[0]);
      InvStep(f, s, ls[0]);
      assert s'.halted && |ls| > 1 ==> !Enabled(s', ls[1]);
      hide Inv, Apply, Enabled, Misses;
      if s'.halted {
        assert |ls| == 1;
      } else {
        HaltsIfMissed(f, s', ls[1..]);
      }
    }
  }

  /** With at most `CAPACITY` calls in flight and no write error, the server aborts
      exactly when the responder looks up a connection that was closed while a
      token of it was about. */
  lemma AbortsExactlyOnMiss(f: Program, handlers: nat, ls: seq<Label>)
    requires FewRun(f, Init(handlers), ls)
    ensures Run(f, Init(handlers), ls)
    ensures After(f, Init(handlers), ls).halted <==> MissesIn(f, Init(handlers), ls)
  {
    InvInit(f, handlers);
    FewRunIsRun(f, Init(handlers), ls);
    HaltsIfMissed(f, Init(handlers), ls);
  }
}
