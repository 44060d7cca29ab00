/** Nothing is stranded: every run of the server's own steps is finite, and where
    none is possible any more all queues are empty and every call is finished. */
module PipelineProgress {
  import opened Bytes
  import opened Pipeline
  import opened PipelineInv

  /** Steps the server takes by itself, as opposed to what clients cause. */
  predicate Internal(l: Label) { !l.Open? && !l.Close? && !l.Read? && !l.CallQueueFull? }

  /** What is still to be written of a call, executed or not. */
  function Unsent(f: Program, call: Call): nat {
    if call.pos <= |f(call.request)| then |f(call.request)| - call.pos else 0
  }

  function UnsentAll(f: Program, calls: seq<Call>): nat {
    if calls == [] then 0 else Unsent(f, calls[0]) + UnsentAll(f, calls[1..])
  }

  /** How far a thread is from being idle. */
  function Phase(pc: Pc): nat {
    match pc
    case Idle => 0
    case Writing(_) => 1
    case Serving(_) => 2
    case Looking(_) => 3
    case Posting(_) => 5
    case Requeued(_) => 5
    case Pushed(_) => 6
    case Requeueing(_) => 6
    case Answered(_) => 7
    case Took(_) => 8
  }

  function Phases(threads: seq<Pc>): nat {
    if threads == [] then 0 else Phases(threads[1..]) + Phase(threads[0])
  }

  /** Bytes still to write, calls waiting, thread phases, tokens. */
  function Measure(f: Program, s: State): nat {
    10 * UnsentAll(f, s.calls) + 9 * |s.callQ| + Phases(s.threads) + 4 * |s.tokens| + if s.halted then 0 else 1
  }

  lemma {:induction false} MovePhases(threads: seq<Pc>, i: nat, pc: Pc)
    requires i < |threads|
    ensures Phases(threads[i := pc]) == Phases(threads) - Phase(threads[i]) + Phase(pc)
  {
    if i == 0 {
      assert threads[i := pc][1..] == threads[1..];
    } else {
      assert threads[i := pc][1..] == threads[1..][i - 1 := pc];
      MovePhases(threads[1..], i - 1, pc);
    }
  }

  lemma {:induction false} UnsentUpdate(f: Program, calls: seq<Call>, t: nat, call: Call)
    requires t < |calls|
    ensures UnsentAll(f, calls[t := call]) == UnsentAll(f, calls) - Unsent(f, calls[t]) + Unsent(f, call)
  {
    if t == 0 {
      assert calls[t := call][1..] == calls[1..];
    } else {
      assert calls[t := call][1..] == calls[1..][t - 1 := call];
      UnsentUpdate(f, calls[1..], t - 1, call);
    }
  }

  lemma {:induction false} UnsentAppend(f: Program, calls: seq<Call>, call: Call)
    ensures UnsentAll(f, calls + [call]) == UnsentAll(f, calls) + Unsent(f, call)
  {
    if calls != [] {
      assert (calls + [call])[1..] == calls[1..] + [call];
      UnsentAppend(f, calls[1..], call);
    }
  }

  lemma CallsAfter(f: Program, s: State, l: Label)
    requires Enabled(s, l)
    ensures
      var pc := s.threads[Mover(l)];
      Apply(f, s, l).calls ==
        if l.Read? then s.calls + [Call(l.c, l.id, l.request, None, 0)]
        else if l.Execute? then s.calls[pc.t := s.calls[pc.t].(value := Some(f(s.calls[pc.t].request)))]
        else if l.Write? && l.n < Left(s.calls[pc.t]) then s.calls[pc.t := s.calls[pc.t].(pos := s.calls[pc.t].pos + l.n)]
        else s.calls
  {
    hide Sending, Remaining, Queue;
  }

  lemma UnsentStep(f: Program, s: State, l: Label)
    requires Inv(f, s) && Enabled(s, l)
    ensures UnsentAll(f, Apply(f, s, l).calls) ==
      UnsentAll(f, s.calls)
      + (if l.Read? then |f(l.request)| else 0)
      - (if l.Write? && l.n < Left(s.calls[s.threads[l.i].t]) then l.n else 0)
  {
    hide Apply, Queue, UnsentAll, Balanced, Once, Counted;
    var pc := s.threads[Mover(l)];
    assert SoundThread(s, pc);
    CallsAfter(f, s, l);
    if l.Read? { UnsentAppend(f, s.calls, Call(l.c, l.id, l.request, None, 0)); }
    if l.Execute? || l.Write? {
      assert SoundCall(f, s, pc.t);
      UnsentUpdate(f, s.calls, pc.t, Apply(f, s, l).calls[pc.t]);
    }
  }

  /** The change of every part of the measure but the bytes. */
  function StepCost(s: State, l: Label): int
    requires Enabled(s, l)
  {
    Phase(NextPc(s, l)) - Phase(s.threads[Mover(l)])
    + (if l.Read? then 9 else if l.Take? then -9 else 0)
    + (if l.Post? || l.Repost? then 4 else if l.TakeToken? then -4 else 0)
  }

  lemma StepCostNegative(s: State, l: Label)
    requires Enabled(s, l)
    ensures Internal(l) && NextPc(s, l) != s.threads[Mover(l)] ==>
              StepCost(s, l) < 0 || (l.Write? && 0 < l.n < Left(s.calls[s.threads[l.i].t]) && StepCost(s, l) == 5)
    ensures !Internal(l) ==> StepCost(s, l) == if l.Read? then 9 else 0
    ensures NextPc(s, l) == s.threads[Mover(l)] && Internal(l) ==>
              StepCost(s, l) == 0 && (l.ResponseQueueFull? || l.TokenQueueFull? || l.Lookup?)
  {
    hide Queue, Left;
  }

  lemma HaltedStep(f: Program, s: State, l: Label)
    requires Enabled(s, l)
    ensures Internal(l) && NextPc(s, l) == s.threads[Mover(l)] ==> Apply(f, s, l).halted
    ensures !Internal(l) && !l.CallQueueFull? ==> !Apply(f, s, l).halted
    ensures l.CallQueueFull? ==> Apply(f, s, l).halted
  {
    hide Sending, Remaining, Queue, Left;
  }

  /** Each step of the server itself lowers the measure; a call read raises it
      by what that call can cost. */
  lemma MeasureStep(f: Program, s: State, l: Label)
    requires Inv(f, s) && Enabled(s, l)
    ensures Internal(l) ==> Measure(f, Apply(f, s, l)) < Measure(f, s)
    ensures !Internal(l) ==> Measure(f, Apply(f, s, l)) <= Measure(f, s) + Price(f, l)
    ensures l.CallQueueFull? ==> Measure(f, Apply(f, s, l)) < Measure(f, s)
  {
    ThreadsStep(f, s, l);
    ListsStep(f, s, l);
    UnsentStep(f, s, l);
    StepCostNegative(s, l);
    HaltedStep(f, s, l);
    hide Apply, NextPc, Inv, Phases, UnsentAll, Queue, Left;
    MovePhases(s.threads, Mover(l), NextPc(s, l));
    hide Enabled, Phase;
  }

  /** What a client's step can add to the measure. */
  function Price(f: Program, l: Label): nat {
    if l.Read? then 9 + 10 * |f(l.request)| else 0
  }

  function Budget(f: Program, ls: seq<Label>): nat {
    if ls == [] then 0 else Price(f, ls[0]) + Budget(f, ls[1..])
  }

  function Steps(ls: seq<Label>): nat {
    if ls == [] then 0 else (if Internal(ls[0]) then 1 else 0) + Steps(ls[1..])
  }

  lemma {:induction false} RunBounded(f: Program, s: State, ls: seq<Label>)
    requires Inv(f, s) && Run(f, s, ls)
    ensures Steps(ls) + Measure(f, After(f, s, ls)) <= Measure(f, s) + Budget(f, ls)
    decreases |ls|
  {
    if ls != [] {
      MeasureStep(f, s, ls[0]);
      InvStep(f, s, ls[0]);
      hide Apply, Enabled, Inv, Measure, Price, Internal;
      RunBounded(f, Apply(f, s, ls[0]), ls[1..]);
    }
  }

  /** With finitely many requests every run ends: the server takes at most 9
      steps per call and 10 per byte of its value, and one more to halt. */
  lemma EveryRunEnds(f: Program, handlers: nat, ls: seq<Label>)
    requires Run(f, Init(handlers), ls)
    ensures Steps(ls) <= 1 + Budget(f, ls)
  {
    InvInit(f, handlers);
    RunBounded(f, Init(handlers), ls);
    assert Phases(Init(handlers).threads) == 0 by { IdlePhases(handlers + 1); }
  }

  lemma {:induction false} IdlePhases(n: nat)
    ensures Phases(seq(n, _ => Idle)) == 0
  {
    if n > 0 {
      assert seq(n, _ => Idle)[1..] == seq(n - 1, _ => Idle);
      IdlePhases(n - 1);
    }
  }

  // ----- Where nothing can move -----

  /** No step of the server itself is possible, and it has not aborted. */
  ghost predicate Stuck(s: State) {
    !s.halted && forall l | Internal(l) :: !Enabled(s, l)
  }

  /** A step open to a busy thread. */
  function Move(s: State, i: nat): Label
    requires i < |s.threads|
  {
    match s.threads[i]
    case Idle => TakeToken
    case Took(_) => Execute(i)
    case Answered(t) =>
      if t < |s.calls| && |Queue(s, s.calls[t].conn)| < CAPACITY then PushResponse(i) else ResponseQueueFull(i)
    case Pushed(_) => CheckSize(i)
    case Posting(_) => if |s.tokens| < CAPACITY then Post(i) else TokenQueueFull(i)
    case Looking(_) => Lookup
    case Serving(c) => if Queue(s, c) != [] then Pop(i) else PopEmpty(i)
    case Writing(t) => Write(i, if t < |s.calls| then Left(s.calls[t]) else 0)
    case Requeueing(t) =>
      if t < |s.calls| && |Queue(s, s.calls[t].conn)| < CAPACITY then Requeue(i) else RequeueFull(i)
    case Requeued(_) => if |s.tokens| < CAPACITY then Repost(i) else TokenQueueFull(i)
  }

  /** A writer waits while another thread is inside the same connection's `processResponse`. */
  predicate Blocked(s: State, i: nat)
    requires i < |s.threads|
  {
    s.threads[i].Writing? && s.threads[i].t < |s.calls| && !Unlocked(s, s.calls[s.threads[i].t].conn)
  }

  /** A busy thread can always move, unless it waits for a connection's `_mutex`. */
  lemma BusyCanMove(f: Program, s: State, i: nat)
    requires Inv(f, s) && !s.halted && i < |s.threads| && !s.threads[i].Idle? && !Blocked(s, i)
    ensures Internal(Move(s, i)) && Enabled(s, Move(s, i))
  {
    assert SoundThread(s, s.threads[i]);
    hide Queue, Balanced, Once, Counted, SoundCalls, Unlocked;
  }

  /** A lock that blocks a writer is held by a thread that can move. */
  lemma StuckIsIdle(f: Program, s: State)
    requires Inv(f, s) && Stuck(s)
    ensures forall i | 0 <= i < |s.threads| :: s.threads[i].Idle?
  {
    hide Inv, Enabled;
    forall i | 0 <= i < |s.threads| ensures s.threads[i].Idle? || Blocked(s, i) {
      if !s.threads[i].Idle? && !Blocked(s, i) { BusyCanMove(f, s, i); }
    }
  }

  lemma {:induction false} IdleOwesNothing(threads: seq<Pc>, c: nat)
    requires forall i | 0 <= i < |threads| :: threads[i].Idle?
    ensures Owing(threads, c) == 0 && Holding(threads, c) == 0
  {
    if threads != [] { IdleOwesNothing(threads[1..], c); }
  }

  /** Drained: where the server can do nothing more, and has at least one
      handler, no call waits anywhere and every call is answered or given up. */
  lemma StuckIsDrained(f: Program, s: State)
    requires Inv(f, s) && Stuck(s) && |s.threads| >= 2
    ensures s.callQ == [] && s.tokens == []
    ensures forall c: nat :: Queue(s, c) == []
    ensures forall t: nat | t < |s.calls| :: t in s.done || t in s.failed
  {
    StuckIsIdle(f, s);
    assert !Enabled(s, Take(1)) && !Enabled(s, TakeToken);
    forall c: nat ensures Queue(s, c) == [] {
      assert BalancedAt(s, c);
      IdleOwesNothing(s.threads, c);
    }
    forall t: nat | t < |s.calls| ensures t in s.done || t in s.failed {
      assert Places(s, t) == 1;
      IdleOwesNothing(s.threads, t);
      assert Queue(s, s.calls[t].conn) == [];
    }
  }

  /** No call is given up without a write error or a full response queue. */
  predicate NoLoss(ls: seq<Label>) {
    forall l | l in ls :: !l.WriteError? && !l.RequeueFull?
  }

  lemma {:induction false} NothingLost(f: Program, s: State, ls: seq<Label>)
    requires Run(f, s, ls) && NoLoss(ls)
    ensures After(f, s, ls).failed == s.failed
    decreases |ls|
  {
    if ls != [] {
      ListsStep(f, s, ls[0]);
      assert ls[0] in ls;
      hide Apply, Enabled;
      NothingLost(f, Apply(f, s, ls[0]), ls[1..]);
    }
  }

  /** No stranded response: a run without write errors that can go no further
      has answered every call it read. */
  lemma NothingStranded(f: Program, handlers: nat, ls: seq<Label>)
    requires handlers >= 1 && Run(f, Init(handlers), ls) && NoLoss(ls)
    requires Stuck(After(f, Init(handlers), ls))
    ensures
      var s := After(f, Init(handlers), ls);
      && s.callQ == [] && s.tokens == []
      && (forall c: nat :: Queue(s, c) == [])
      && (forall t: nat | t < |s.calls| :: t in s.done)
  {
    InvInit(f, handlers);
    InvRun(f, Init(handlers), ls);
    NothingLost(f, Init(handlers), ls);
    SameThreads(f, Init(handlers), ls);
    StuckIsDrained(f, After(f, Init(handlers), ls));
  }

  lemma {:induction false} SameThreads(f: Program, s: State, ls: seq<Label>)
    requires Run(f, s, ls)
    ensures |After(f, s, ls).threads| == |s.threads|
    decreases |ls|
  {
    if ls != [] {
      ThreadsStep(f, s, ls[0]);
      hide Apply, Enabled, NextPc;
      SameThreads(f, Apply(f, s, ls[0]), ls[1..]);
    }
  }
}
