/** What every step of the pipeline keeps, whatever the interleaving. */
module PipelineInv {
  import opened Bytes
  import opened Pipeline
  import opened Sequences

  /** What a thread owes connection `c`: one `try_pop`, if it has pushed a call
      or taken a token and has not yet popped, or posted a token in turn. */
  function Owes(pc: Pc, c: nat): nat {
    match pc
    case Pushed(d) => if c == d then 1 else 0
    case Posting(d) => if c == d then 1 else 0
    case Looking(d) => if c == d then 1 else 0
    case Serving(d) => if c == d then 1 else 0
    case Requeued(d) => if c == d then 1 else 0
    case _ => 0
  }

  function Owing(threads: seq<Pc>, c: nat): nat {
    if threads == [] then 0 else Owing(threads[1..], c) + Owes(threads[0], c)
  }

  /** Whether a thread holds the call with ticket `t`. */
  function Has(pc: Pc, t: nat): nat {
    match pc
    case Took(u) => if t == u then 1 else 0
    case Answered(u) => if t == u then 1 else 0
    case Writing(u) => if t == u then 1 else 0
    case Requeueing(u) => if t == u then 1 else 0
    case _ => 0
  }

  function Holding(threads: seq<Pc>, t: nat): nat {
    if threads == [] then 0 else Holding(threads[1..], t) + Has(threads[0], t)
  }

  /** Threads with work in hand. */
  function Busy(threads: seq<Pc>): nat {
    if threads == [] then 0 else Busy(threads[1..]) + if threads[0].Idle? then 0 else 1
  }

  /** Response balance: a connection's queue holds exactly as many calls as
      there are tokens and threads owing it a pop. */
  ghost predicate Balanced(s: State) {
    forall c: nat :: BalancedAt(s, c)
  }

  /** In how many places a call is. */
  function Places(s: State, t: nat): nat
    requires t < |s.calls|
  {
    multiset(s.callQ)[t] + Holding(s.threads, t) + multiset(Queue(s, s.calls[t].conn))[t]
    + multiset(s.done)[t] + multiset(s.failed)[t]
  }

  /** Conservation: every call read is in exactly one place. */
  ghost predicate Once(s: State) {
    forall t: nat | t < |s.calls| :: Places(s, t) == 1
  }

  /** All work, counted: queued calls, busy threads, tokens and finished calls. */
  ghost predicate Counted(s: State) {
    |s.callQ| + Busy(s.threads) + |s.tokens| + |s.done| + |s.failed| == |s.calls|
  }

  /** A call is executed once, between the call queue and the response stage,
      and its position stays inside its value. */
  predicate SoundCall(f: Program, s: State, t: nat)
    requires t < |s.calls|
  {
    var call := s.calls[t];
    && IsInt32(call.id)
    && (call.value.Some? ==> call.value.value == f(call.request))
    && (call.pos == 0 || (call.value.Some? && call.pos < |call.value.value|))
    && multiset(s.executed)[t] == (if call.value.Some? then 1 else 0)
  }

  predicate Waiting(s: State, t: nat) { t < |s.calls| && s.calls[t].value.None? }

  predicate Ready(s: State, t: nat) { t < |s.calls| && s.calls[t].value.Some? }

  /** Executed, and neither answered nor given up. */
  predicate InResponse(s: State, t: nat) { Ready(s, t) && t !in s.done && t !in s.failed }

  predicate SoundThread(s: State, pc: Pc) {
    match pc
    case Took(t) => Waiting(s, t)
    case Answered(t) => Ready(s, t)
    case Writing(t) => Ready(s, t)
    case Requeueing(t) => Ready(s, t) && s.calls[t].pos > 0
    case _ => true
  }

  ghost predicate SoundCalls(f: Program, s: State) {
    && (forall t: nat | t < |s.calls| :: SoundCall(f, s, t))
    && (forall t | t in s.executed :: t < |s.calls|)
  }

  /** Calls wait unexecuted in `_bq_call`, and are executed everywhere behind it. */
  ghost predicate Staged(s: State) {
    && (forall t | t in s.callQ :: Waiting(s, t))
    && (forall t | t in s.done :: Ready(s, t))
    && (forall t | t in s.failed :: Ready(s, t))
    && (forall c: nat, t: nat | t in Queue(s, c) :: Ready(s, t) && s.calls[t].conn == c)
    && (forall i | 0 <= i < |s.threads| :: SoundThread(s, s.threads[i]))
  }

  /** Only the responder looks connections up; only handlers execute and push calls. */
  predicate Roles(s: State) {
    forall i | 0 <= i < |s.threads| ::
      if i == 0 then !s.threads[i].Took? && !s.threads[i].Answered? && !s.threads[i].Pushed? && !s.threads[i].Posting?
      else !s.threads[i].Looking?
  }

  ghost predicate Inv(f: Program, s: State) {
    && |s.threads| >= 1 && Roles(s)
    && Balanced(s) && Once(s) && Counted(s) && SoundCalls(f, s) && Staged(s)
  }

  lemma {:induction false} MoveOwing(threads: seq<Pc>, i: nat, pc: Pc, c: nat)
    requires i < |threads|
    ensures Owing(threads[i := pc], c)
            == Owing(threads, c) - Owes(threads[i], c) + Owes(pc, c)
  {
    if i == 0 {
      assert threads[i := pc][1..] == threads[1..];
    } else {
      assert threads[i := pc][1..] == threads[1..][i - 1 := pc];
      MoveOwing(threads[1..], i - 1, pc, c);
    }
  }

  lemma {:induction false} MoveHolding(threads: seq<Pc>, i: nat, pc: Pc, t: nat)
    requires i < |threads|
    ensures Holding(threads[i := pc], t)
            == Holding(threads, t) - Has(threads[i], t) + Has(pc, t)
  {
    if i == 0 {
      assert threads[i := pc][1..] == threads[1..];
    } else {
      assert threads[i := pc][1..] == threads[1..][i - 1 := pc];
      MoveHolding(threads[1..], i - 1, pc, t);
    }
  }

  lemma {:induction false} MoveBusy(threads: seq<Pc>, i: nat, pc: Pc)
    requires i < |threads|
    ensures Busy(threads[i := pc])
            == Busy(threads) - (if threads[i].Idle? then 0 else 1) + (if pc.Idle? then 0 else 1)
  {
    if i == 0 {
      assert threads[i := pc][1..] == threads[1..];
    } else {
      assert threads[i := pc][1..] == threads[1..][i - 1 := pc];
      MoveBusy(threads[1..], i - 1, pc);
    }
  }

  lemma OwingAtLeast(threads: seq<Pc>, i: nat, c: nat)
    requires i < |threads|
    ensures Owing(threads, c) >= Owes(threads[i], c)
  {
    hide Owing;
    MoveOwing(threads, i, Idle, c);
  }

  // ----- The effect of a step, part by part -----

  /** Where the moving thread goes. */
  function NextPc(s: State, l: Label): Pc
    requires Enabled(s, l)
  {
    var pc := s.threads[Mover(l)];
    match l
    case Take(_) => Took(s.callQ[0])
    case Execute(_) => Answered(pc.t)
    case PushResponse(_) => Pushed(ConnOf(s, pc))
    case CheckSize(_) => if |Queue(s, pc.c)| == 1 then Serving(pc.c) else Posting(pc.c)
    case TakeToken => Looking(s.tokens[0])
    case Lookup => if pc.c in s.open then Serving(pc.c) else pc
    case Pop(_) => Writing(Queue(s, pc.c)[0])
    case Write(_, n) => if n < Left(s.calls[pc.t]) then Requeueing(pc.t) else Idle
    case Requeue(_) => Requeued(ConnOf(s, pc))
    case Post(_) => Idle case Repost(_) => Idle case PopEmpty(_) => Idle
    case WriteError(_, _) => Idle case RequeueFull(_) => Idle
    case _ => pc
  }

  function NextQueue(s: State, l: Label, c: nat): seq<nat>
    requires Enabled(s, l)
  {
    var pc := s.threads[Mover(l)];
    if (l.PushResponse? || l.Requeue?) && ConnOf(s, pc) == c then Queue(s, c) + [pc.t]
    else if l.Pop? && pc.c == c then Queue(s, c)[1..]
    else Queue(s, c)
  }

  lemma ThreadsStep(f: Program, s: State, l: Label)
    requires Enabled(s, l)
    ensures Apply(f, s, l).threads == s.threads[Mover(l) := NextPc(s, l)]
  {
    hide Sending, Remaining;
  }

  lemma QueueStep(f: Program, s: State, l: Label, c: nat)
    requires Enabled(s, l)
    ensures Queue(Apply(f, s, l), c) == NextQueue(s, l, c)
  {
    hide Sending, Remaining, Left;
  }

  /** Only executing a call and writing a part of it change it. */
  lemma CallsStep(f: Program, s: State, l: Label, t: nat)
    requires Enabled(s, l) && t < |s.calls|
    ensures |Apply(f, s, l).calls| == |s.calls| + if l.Read? then 1 else 0
    ensures
      var call := s.calls[t];
      var pc := s.threads[Mover(l)];
      Apply(f, s, l).calls[t] ==
        if l.Execute? && pc.t == t then call.(value := Some(f(call.request)))
        else if l.Write? && pc.t == t && l.n < Left(call) then call.(pos := call.pos + l.n)
        else call
  {
    hide Sending, Remaining, Queue;
  }

  lemma NewCall(f: Program, s: State, l: Label)
    requires Enabled(s, l) && l.Read?
    ensures Apply(f, s, l).calls == s.calls + [Call(l.c, l.id, l.request, None, 0)]
    ensures Apply(f, s, l).callQ == s.callQ + [|s.calls|]
  {
  }

  lemma ListsStep(f: Program, s: State, l: Label)
    requires Enabled(s, l)
    ensures
      var s' := Apply(f, s, l);
      var pc := s.threads[Mover(l)];
      && s'.callQ == (if l.Read? then s.callQ + [|s.calls|] else if l.Take? then s.callQ[1..] else s.callQ)
      && s'.done == (if l.Write? && l.n == Left(s.calls[pc.t]) then s.done + [pc.t] else s.done)
      && s'.failed == (if l.WriteError? || l.RequeueFull? then s.failed + [pc.t] else s.failed)
      && s'.executed == (if l.Execute? then s.executed + [pc.t] else s.executed)
      && s'.tokens == (if l.Post? then s.tokens + [pc.c] else if l.Repost? then [pc.c] + s.tokens
                       else if l.TakeToken? then s.tokens[1..] else s.tokens)
  {
    hide Sending, Remaining, Queue;
  }

  // ----- Response balance -----

  ghost predicate BalancedAt(s: State, c: nat) {
    |Queue(s, c)| == multiset(s.tokens)[c] + Owing(s.threads, c)
  }

  /** How a step changes a connection's queue and tokens. */
  function QueueChange(s: State, l: Label, c: nat): int
    requires Enabled(s, l)
  {
    |NextQueue(s, l, c)| - |Queue(s, c)|
  }

  function TokenChange(s: State, l: Label, c: nat): int
    requires Enabled(s, l)
  {
    var pc := s.threads[Mover(l)];
    if (l.Post? || l.Repost?) && pc.c == c then 1
    else if l.TakeToken? && s.tokens[0] == c then -1
    else 0
  }

  lemma TokenStep(f: Program, s: State, l: Label, c: nat)
    requires Enabled(s, l)
    ensures multiset(Apply(f, s, l).tokens)[c] == multiset(s.tokens)[c] + TokenChange(s, l, c)
  {
    ListsStep(f, s, l);
    hide Apply;
    if l.TakeToken? { HeadTail(s.tokens); }
  }

  /** A thread takes a pop on itself exactly as it pushes a call or takes a
      token, and is rid of it as it pops or posts a token. */
  lemma OwesStep(s: State, l: Label, c: nat)
    requires Enabled(s, l) && (l.PopEmpty? ==> s.threads[Mover(l)].c != c)
    ensures Owes(NextPc(s, l), c) == Owes(s.threads[Mover(l)], c) + QueueChange(s, l, c) - TokenChange(s, l, c)
  {
    hide Left;
  }

  lemma BalancedAtStep(f: Program, s: State, l: Label, c: nat)
    requires BalancedAt(s, c) && Enabled(s, l)
    ensures BalancedAt(Apply(f, s, l), c)
  {
    var i := Mover(l);
    if l.PopEmpty? && s.threads[i].c == c {
      OwingAtLeast(s.threads, i, c);
      assert false;
    } else {
      OwesStep(s, l, c);
      ThreadsStep(f, s, l);
      QueueStep(f, s, l, c);
      TokenStep(f, s, l, c);
      hide Apply, Enabled, NextPc, NextQueue, Owing, Owes, Queue, TokenChange;
      MoveOwing(s.threads, i, NextPc(s, l), c);
    }
  }

  lemma BalancedStep(f: Program, s: State, l: Label)
    requires Balanced(s) && Enabled(s, l)
    ensures Balanced(Apply(f, s, l))
  {
    hide BalancedAt;
    forall c: nat ensures BalancedAt(Apply(f, s, l), c) {
      BalancedAtStep(f, s, l, c);
    }
  }

  // ----- Counting -----

  lemma CountedStep(f: Program, s: State, l: Label)
    requires Counted(s) && Enabled(s, l) && !l.PopEmpty?
    ensures Counted(Apply(f, s, l))
  {
    hide Apply, Busy, Queue, Left;
    ThreadsStep(f, s, l);
    ListsStep(f, s, l);
    LengthStep(f, s, l);
    MoveBusy(s.threads, Mover(l), NextPc(s, l));
  }

  // ----- Tickets -----

  lemma HoldingAtLeast(threads: seq<Pc>, i: nat, j: nat, t: nat)
    requires i < |threads| && j < |threads| && i != j
    ensures Holding(threads, t) >= Has(threads[i], t) + Has(threads[j], t)
  {
    hide Holding;
    MoveHolding(threads, i, Idle, t);
    MoveHolding(threads[i := Idle], j, Idle, t);
  }

  /** What a thread holds is nowhere else. */
  lemma Sole(s: State, i: nat, t: nat)
    requires Once(s) && t < |s.calls| && i < |s.threads| && Has(s.threads[i], t) == 1
    ensures t !in s.callQ && t !in s.done && t !in s.failed && t !in Queue(s, s.calls[t].conn)
    ensures forall j | 0 <= j < |s.threads| && j != i :: Has(s.threads[j], t) == 0
  {
    hide Holding;
    assert Places(s, t) == 1;
    MoveHolding(s.threads, i, Idle, t);
    forall j | 0 <= j < |s.threads| && j != i ensures Has(s.threads[j], t) == 0 {
      HoldingAtLeast(s.threads, i, j, t);
    }
  }

  lemma LengthStep(f: Program, s: State, l: Label)
    requires Enabled(s, l)
    ensures |Apply(f, s, l).calls| == |s.calls| + if l.Read? then 1 else 0
  {
    hide Sending, Remaining, Queue;
  }

  lemma SoundCallsStep(f: Program, s: State, l: Label)
    requires SoundCalls(f, s) && Staged(s) && Enabled(s, l)
    ensures SoundCalls(f, Apply(f, s, l))
  {
    var s' := Apply(f, s, l);
    var pc := s.threads[Mover(l)];
    assert SoundThread(s, pc);
    LengthStep(f, s, l);
    ListsStep(f, s, l);
    if l.Read? { NewCall(f, s, l); }
    forall t: nat | t < |s'.calls| ensures SoundCall(f, s', t) {
      if t < |s.calls| {
        assert SoundCall(f, s, t);
        CallsStep(f, s, l, t);
        hide Apply, Queue;
      } else {
        hide Apply;
        assert t !in s.executed;
      }
    }
  }

  lemma StagedListsStep(f: Program, s: State, l: Label)
    requires Staged(s) && Once(s) && Enabled(s, l)
    ensures
      var s' := Apply(f, s, l);
      && (forall t | t in s'.callQ :: Waiting(s', t))
      && (forall t | t in s'.done :: Ready(s', t))
      && (forall t | t in s'.failed :: Ready(s', t))
  {
    var s' := Apply(f, s, l);
    var pc := s.threads[Mover(l)];
    assert SoundThread(s, pc);
    LengthStep(f, s, l);
    ListsStep(f, s, l);
    if l.Read? { NewCall(f, s, l); }
    if l.Execute? { Sole(s, Mover(l), pc.t); }
    forall t: nat | t < |s.calls| ensures
        s'.calls[t].value.Some? == (s.calls[t].value.Some? || (l.Execute? && pc.t == t)) {
      CallsStep(f, s, l, t);
    }
    hide Apply, Queue, Left;
    forall t | t in s'.callQ ensures Waiting(s', t) {
      assert t in s.callQ || (l.Read? && t == |s.calls|);
    }
  }

  lemma StagedQueuesStep(f: Program, s: State, l: Label, c: nat, t: nat)
    requires Staged(s) && Enabled(s, l) && t in Queue(Apply(f, s, l), c)
    ensures Ready(Apply(f, s, l), t) && Apply(f, s, l).calls[t].conn == c
  {
    var pc := s.threads[Mover(l)];
    assert SoundThread(s, pc);
    LengthStep(f, s, l);
    QueueStep(f, s, l, c);
    if t in Queue(s, c) {
      assert Ready(s, t);
    } else {
      assert (l.PushResponse? || l.Requeue?) && ConnOf(s, pc) == c && t == pc.t;
    }
    CallsStep(f, s, l, t);
    hide Apply;
  }

  lemma StagedThreadsStep(f: Program, s: State, l: Label, i: nat)
    requires Staged(s) && Once(s) && Enabled(s, l) && i < |Apply(f, s, l).threads|
    ensures SoundThread(Apply(f, s, l), Apply(f, s, l).threads[i])
  {
    var pc := s.threads[Mover(l)];
    ThreadsStep(f, s, l);
    assert SoundThread(s, pc) && SoundThread(s, s.threads[i]);
    LengthStep(f, s, l);
    if l.Execute? { Sole(s, Mover(l), pc.t); }
    if i == Mover(l) {
      if l.Take? { assert s.callQ[0] in s.callQ; }
      if l.Pop? { assert Queue(s, pc.c)[0] in Queue(s, pc.c); }
      if Holds(s, NextPc(s, l)) { CallsStep(f, s, l, NextPc(s, l).t); }
      hide Apply;
    } else {
      if Holds(s, s.threads[i]) { CallsStep(f, s, l, s.threads[i].t); }
      hide Apply, NextPc;
    }
  }

  lemma StagedStep(f: Program, s: State, l: Label)
    requires Staged(s) && Once(s) && Enabled(s, l)
    ensures Staged(Apply(f, s, l))
  {
    var s' := Apply(f, s, l);
    StagedListsStep(f, s, l);
    forall c: nat, t: nat | t in Queue(s', c) ensures Ready(s', t) && s'.calls[t].conn == c {
      StagedQueuesStep(f, s, l, c, t);
    }
    forall i | 0 <= i < |s'.threads| ensures SoundThread(s', s'.threads[i]) {
      StagedThreadsStep(f, s, l, i);
    }
    hide Apply, Enabled;
  }

  // ----- Conservation -----

  /** How a step changes the number of lists, and of response queues, a call is in. */
  function ListChange(s: State, l: Label, t: nat): int
    requires Enabled(s, l)
  {
    var pc := s.threads[Mover(l)];
    if l.Take? && s.callQ[0] == t then -1
    else if l.Write? && l.n == Left(s.calls[pc.t]) && pc.t == t then 1
    else if (l.WriteError? || l.RequeueFull?) && pc.t == t then 1
    else 0
  }

  function QueuedChange(s: State, l: Label, t: nat): int
    requires Enabled(s, l)
  {
    var pc := s.threads[Mover(l)];
    if (l.PushResponse? || l.Requeue?) && pc.t == t then 1
    else if l.Pop? && Queue(s, pc.c)[0] == t then -1
    else 0
  }

  /** A thread gets hold of a call exactly as it leaves another place. */
  lemma HasStep(s: State, l: Label, t: nat)
    requires Enabled(s, l)
    ensures Has(NextPc(s, l), t) == Has(s.threads[Mover(l)], t) - ListChange(s, l, t) - QueuedChange(s, l, t)
  {
  }

  lemma ListedStep(f: Program, s: State, l: Label, t: nat)
    requires Enabled(s, l) && t < |s.calls|
    ensures
      var s' := Apply(f, s, l);
      multiset(s'.callQ)[t] + multiset(s'.done)[t] + multiset(s'.failed)[t]
      == multiset(s.callQ)[t] + multiset(s.done)[t] + multiset(s.failed)[t] + ListChange(s, l, t)
  {
    ListsStep(f, s, l);
    if l.Take? { HeadTail(s.callQ); }
    hide Apply, Left, Queue;
  }

  lemma QueuedStep(f: Program, s: State, l: Label, t: nat)
    requires Staged(s) && Enabled(s, l) && t < |s.calls|
    ensures multiset(Queue(Apply(f, s, l), s.calls[t].conn))[t]
            == multiset(Queue(s, s.calls[t].conn))[t] + QueuedChange(s, l, t)
  {
    QueueStep(f, s, l, s.calls[t].conn);
    if l.Pop? {
      var q := Queue(s, s.threads[l.i].c);
      HeadTail(q);
      assert q[0] in q;
    }
    hide Apply, Left, Queue;
  }

  lemma OnceStep(f: Program, s: State, l: Label)
    requires Once(s) && Staged(s) && Enabled(s, l)
    ensures Once(Apply(f, s, l))
  {
    var s' := Apply(f, s, l);
    LengthStep(f, s, l);
    ThreadsStep(f, s, l);
    forall t: nat | t < |s'.calls| ensures Places(s', t) == 1 {
      if t < |s.calls| {
        assert Places(s, t) == 1;
        CallsStep(f, s, l, t);
        ListedStep(f, s, l, t);
        QueuedStep(f, s, l, t);
        HasStep(s, l, t);
        MoveHolding(s.threads, Mover(l), NextPc(s, l), t);
        hide Apply, Holding, Has, NextPc, Queue, ListChange, QueuedChange, Enabled;
      } else {
        FreshCall(f, s, l);
      }
    }
  }

  lemma FreshCall(f: Program, s: State, l: Label)
    requires Staged(s) && Enabled(s, l) && l.Read?
    ensures |Apply(f, s, l).calls| == |s.calls| + 1 && Places(Apply(f, s, l), |s.calls|) == 1
  {
    var s' := Apply(f, s, l);
    var t := |s.calls|;
    NewCall(f, s, l);
    NobodyHolds(s, s.threads, t);
    assert forall u: nat | u in Queue(s, l.c) :: Ready(s, u);
    assert t !in s.callQ && t !in s.done && t !in s.failed && t !in Queue(s, l.c);
    assert Queue(s', l.c) == Queue(s, l.c);
  }

  lemma {:induction false} NobodyHolds(s: State, threads: seq<Pc>, t: nat)
    requires forall i | 0 <= i < |threads| :: SoundThread(s, threads[i])
    requires t >= |s.calls|
    ensures Holding(threads, t) == 0
  {
    if threads != [] {
      assert SoundThread(s, threads[0]);
      NobodyHolds(s, threads[1..], t);
    }
  }

  // ----- Every reachable state -----

  /** No pop by a thread that serves a connection finds its queue empty. */
  lemma NeverEmpty(s: State, i: nat)
    requires Balanced(s) && i < |s.threads| && s.threads[i].Serving?
    ensures Queue(s, s.threads[i].c) != [] && !Enabled(s, PopEmpty(i))
  {
    var c := s.threads[i].c;
    assert BalancedAt(s, c);
    OwingAtLeast(s.threads, i, c);
  }

  lemma RolesStep(f: Program, s: State, l: Label)
    requires Roles(s) && Enabled(s, l)
    ensures Roles(Apply(f, s, l))
  {
    ThreadsStep(f, s, l);
    hide Apply, Queue, Left;
  }

  lemma InvStep(f: Program, s: State, l: Label)
    requires Inv(f, s) && Enabled(s, l)
    ensures Inv(f, Apply(f, s, l))
  {
    if l.PopEmpty? { NeverEmpty(s, l.i); }
    ThreadsStep(f, s, l);
    RolesStep(f, s, l);
    BalancedStep(f, s, l);
    OnceStep(f, s, l);
    CountedStep(f, s, l);
    SoundCallsStep(f, s, l);
    StagedStep(f, s, l);
    hide Apply, Enabled, Roles, Balanced, Once, Counted, SoundCalls, Staged;
  }

  lemma {:induction false} AllIdle(n: nat, c: nat)
    ensures var threads := seq(n, _ => Idle); Owing(threads, c) == 0 && Holding(threads, c) == 0 && Busy(threads) == 0
  {
    var threads := seq(n, _ => Idle);
    if n > 0 {
      assert threads[1..] == seq(n - 1, _ => Idle);
      AllIdle(n - 1, c);
    }
  }

  lemma InvInit(f: Program, handlers: nat)
    ensures Inv(f, Init(handlers))
  {
    var s := Init(handlers);
    AllIdle(handlers + 1, 0);
    forall c: nat ensures BalancedAt(s, c) {
      AllIdle(handlers + 1, c);
    }
  }

  lemma {:induction false} InvRun(f: Program, s: State, ls: seq<Label>)
    requires Inv(f, s) && Run(f, s, ls)
    ensures Inv(f, After(f, s, ls))
    decreases |ls|
  {
    if ls != [] {
      InvStep(f, s, ls[0]);
      InvRun(f, Apply(f, s, ls[0]), ls[1..]);
    }
  }

  /** For any number of handlers and any interleaving: the queues are balanced,
      every call is in exactly one place, no `try_pop` finds a queue empty, and no
      call is executed or completely answered twice. */
  lemma Reachable(f: Program, handlers: nat, ls: seq<Label>)
    requires Run(f, Init(handlers), ls)
    ensures
      var s := After(f, Init(handlers), ls);
      && Inv(f, s)
      && (forall i: nat :: !Enabled(s, PopEmpty(i)))
      && (forall t: nat | t < |s.calls| :: multiset(s.executed)[t] <= 1 && multiset(s.done)[t] <= 1)
      && (forall t | t in s.done :: t < |s.calls| && multiset(s.executed)[t] == 1)
  {
    InvInit(f, handlers);
    InvRun(f, Init(handlers), ls);
    var s := After(f, Init(handlers), ls);
    hide Run, After, Init;
    forall i: nat ensures !Enabled(s, PopEmpty(i)) {
      if i < |s.threads| && s.threads[i].Serving? { NeverEmpty(s, i); }
    }
    forall t: nat | t < |s.calls| ensures multiset(s.executed)[t] <= 1 && multiset(s.done)[t] <= 1 {
      assert SoundCall(f, s, t) && Places(s, t) == 1;
    }
    forall t | t in s.done ensures t < |s.calls| && multiset(s.executed)[t] == 1 {
      assert Ready(s, t) && SoundCall(f, s, t);
    }
  }

  // ----- Capacity -----

  /** Calls read and neither answered nor given up. */
  function InFlight(s: State): int { |s.calls| - |s.done| - |s.failed| }

  lemma {:induction false} CountAtMost<T>(q: seq<T>, x: T)
    ensures multiset(q)[x] <= |q|
  {
    if q != [] {
      HeadTail(q);
      CountAtMost(q[1..], x);
    }
  }

  lemma {:induction false} OwingAtMostBusy(threads: seq<Pc>, c: nat)
    ensures Owing(threads, c) <= Busy(threads)
  {
    if threads != [] { OwingAtMostBusy(threads[1..], c); }
  }

  /** Whatever a connection's queue holds is in flight, and is not what thread `i` holds. */
  lemma QueueRoom(f: Program, s: State, i: nat, c: nat)
    requires Inv(f, s) && i < |s.threads| && !s.threads[i].Idle? && Owes(s.threads[i], c) == 0
    ensures |s.callQ| + |Queue(s, c)| + 1 <= InFlight(s)
  {
    assert BalancedAt(s, c);
    CountAtMost(s.tokens, c);
    hide Owing, Busy;
    MoveOwing(s.threads, i, Idle, c);
    MoveBusy(s.threads, i, Idle);
    OwingAtMostBusy(s.threads[i := Idle], c);
  }

  /** With at most `CAPACITY` calls in flight no queue-full failure can happen;
      a reader's push needs its own call counted in. */
  lemma NoQueueOverflows(f: Program, s: State, l: Label)
    requires Inv(f, s) && InFlight(s) <= CAPACITY
    requires l.ResponseQueueFull? || l.TokenQueueFull? || l.RequeueFull?
             || (l.CallQueueFull? && InFlight(s) < CAPACITY)
    ensures !Enabled(s, l)
  {
    var i := Mover(l);
    if Enabled(s, l) && !l.CallQueueFull? {
      hide Busy;
      MoveBusy(s.threads, i, Idle);
      if Holds(s, s.threads[i]) {
        QueueRoom(f, s, i, ConnOf(s, s.threads[i]));
      }
    }
  }
}
