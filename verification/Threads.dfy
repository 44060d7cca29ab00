/** The loops of the handlers and of the responder, as they run: between any two of
    their steps the other threads, readers included, do what they like. What one of
    these threads does is shown to be a run of the pipeline's transition system in
    which the thread's own steps come in the order of its program. */
module Threads {
  import opened Bytes
  import opened Response
  import opened Pipeline
  import opened PipelineInv
  import opened ProgramOrder
  import opened PipelineFraming
  import opened PipelineProgress
  import opened PipelineSafety

  /** What happens before a thread's next step: labels the others try in this order,
      how much the socket takes if the step is a write, and whether it breaks. */
  datatype Turn = Turn(others: seq<Label>, size: nat, breaks: bool)

  /** The next turn; when there is none, nothing happens and one byte is taken. */
  function First(turns: seq<Turn>): Turn { if turns == [] then Turn([], 1, false) else turns[0] }

  /** Those labels of a turn that the others can do where it is their time. */
  function Fires(f: Program, s: State, i: nat, ls: seq<Label>): seq<Label>
    decreases |ls|
  {
    if ls == [] then []
    else if Enabled(s, ls[0]) && !Moves(ls[0], i) then [ls[0]] + Fires(f, Apply(f, s, ls[0]), i, ls[1..])
    else Fires(f, s, i, ls[1..])
  }

  lemma FiresStep(f: Program, s: State, i: nat, ls: seq<Label>, k: nat)
    requires k < |ls|
    ensures Fires(f, s, i, ls[k..]) ==
              if Enabled(s, ls[k]) && !Moves(ls[k], i) then [ls[k]] + Fires(f, Apply(f, s, ls[k]), i, ls[k + 1..])
              else Fires(f, s, i, ls[k + 1..])
  {
    hide Enabled, Apply, Moves;
    assert ls[k..][1..] == ls[k + 1..];
  }

  lemma FiresNone(f: Program, s: State, i: nat, ls: seq<Label>)
    ensures Fires(f, s, i, ls[|ls|..]) == []
  {
  }

  // ----- What each step needs, and where it takes the thread -----

  ghost predicate OfThread(l: Label, i: nat) {
    Mover(l) == i && forall k: nat :: Moves(l, k) <==> k == i
  }

  lemma CanPop(f: Program, s: State, i: nat)
    requires !s.halted && i < |s.threads| && s.threads[i].Serving? && Queue(s, s.threads[i].c) != []
    ensures OfThread(Pop(i), i) && Enabled(s, Pop(i)) && NextPc(s, Pop(i)) == Writing(Queue(s, s.threads[i].c)[0])
    ensures var s' := Apply(f, s, Pop(i)); s'.calls == s.calls && s'.log == s.log && !s'.halted
  {
  }

  lemma CanWrite(f: Program, s: State, i: nat, n: nat)
    requires !s.halted && i < |s.threads| && s.threads[i].Writing? && Holds(s, s.threads[i])
    requires Unlocked(s, ConnOf(s, s.threads[i]))
    requires var left := Left(s.calls[s.threads[i].t]); n <= left && (n == 0 ==> left == 0)
    ensures
      var left := Left(s.calls[s.threads[i].t]);
      && OfThread(Write(i, n), i) && Enabled(s, Write(i, n)) && !Apply(f, s, Write(i, n)).halted
      && NextPc(s, Write(i, n)) == if n < left then Requeueing(s.threads[i].t) else Idle
  {
    hide Left, Sending, Remaining;
  }

  lemma CanBreak(f: Program, s: State, i: nat, n: nat)
    requires !s.halted && i < |s.threads| && s.threads[i].Writing? && Holds(s, s.threads[i])
    requires Unlocked(s, ConnOf(s, s.threads[i])) && n <= |Remaining(s.calls[s.threads[i].t])|
    ensures OfThread(WriteError(i, n), i) && Enabled(s, WriteError(i, n)) && NextPc(s, WriteError(i, n)) == Idle
    ensures i == 0 ==> Apply(f, s, WriteError(i, n)).halted
  {
    hide Left, Sending, Remaining;
  }

  function RequeueLabel(s: State, i: nat): Label
    requires i < |s.threads| && Holds(s, s.threads[i])
  {
    if |Queue(s, ConnOf(s, s.threads[i]))| < CAPACITY then Requeue(i) else RequeueFull(i)
  }

  lemma CanRequeue(f: Program, s: State, i: nat)
    requires !s.halted && i < |s.threads| && s.threads[i].Requeueing? && Holds(s, s.threads[i])
    ensures
      var l := RequeueLabel(s, i);
      && OfThread(l, i) && Enabled(s, l) && NextPc(s, l) == (if l.Requeue? then Requeued(ConnOf(s, s.threads[i])) else Idle)
      && Apply(f, s, l).calls == s.calls && Apply(f, s, l).log == s.log
      && Apply(f, s, l).halted == (l.RequeueFull? && i == 0)
  {
    hide Queue;
  }

  function TokenLabel(s: State, i: nat): Label
    requires i < |s.threads|
  {
    if |s.tokens| >= CAPACITY then TokenQueueFull(i) else if s.threads[i].Posting? then Post(i) else Repost(i)
  }

  lemma CanPost(f: Program, s: State, i: nat)
    requires !s.halted && i < |s.threads| && (s.threads[i].Requeued? || s.threads[i].Posting?)
    ensures
      var l := TokenLabel(s, i);
      && OfThread(l, i) && Enabled(s, l) && NextPc(s, l) == (if l.TokenQueueFull? then s.threads[i] else Idle)
      && Apply(f, s, l).halted == l.TokenQueueFull? && Apply(f, s, l).log == s.log
  {
  }

  function PushLabel(s: State, i: nat): Label
    requires i < |s.threads| && Holds(s, s.threads[i])
  {
    if |Queue(s, ConnOf(s, s.threads[i]))| < CAPACITY then PushResponse(i) else ResponseQueueFull(i)
  }

  lemma CanPush(f: Program, s: State, i: nat)
    requires !s.halted && i < |s.threads| && s.threads[i].Answered? && Holds(s, s.threads[i])
    ensures
      var l := PushLabel(s, i);
      && OfThread(l, i) && Enabled(s, l) && (l.PushResponse? ==> NextPc(s, l).Pushed?)
      && Apply(f, s, l).halted == l.ResponseQueueFull?
  {
    hide Queue;
  }

  lemma CanCheck(f: Program, s: State, i: nat)
    requires !s.halted && i < |s.threads| && s.threads[i].Pushed?
    ensures OfThread(CheckSize(i), i) && Enabled(s, CheckSize(i)) && !Apply(f, s, CheckSize(i)).halted
    ensures
      var c := s.threads[i].c;
      NextPc(s, CheckSize(i)) == if |Queue(s, c)| == 1 then Serving(c) else Posting(c)
  {
    hide Queue;
  }

  lemma CanTake(f: Program, s: State, i: nat)
    requires !s.halted && 0 < i < |s.threads| && s.threads[i].Idle? && s.callQ != []
    ensures OfThread(Take(i), i) && Enabled(s, Take(i)) && NextPc(s, Take(i)).Took? && !Apply(f, s, Take(i)).halted
  {
  }

  lemma CanExecute(f: Program, s: State, i: nat)
    requires !s.halted && i < |s.threads| && s.threads[i].Took? && Holds(s, s.threads[i])
    ensures OfThread(Execute(i), i) && Enabled(s, Execute(i)) && NextPc(s, Execute(i)).Answered? && !Apply(f, s, Execute(i)).halted
  {
  }

  lemma CanTakeToken(f: Program, s: State)
    requires !s.halted && |s.threads| > 0 && s.threads[0].Idle? && s.tokens != []
    ensures OfThread(TakeToken, 0) && Enabled(s, TakeToken) && NextPc(s, TakeToken).Looking? && !Apply(f, s, TakeToken).halted
  {
  }

  lemma CanLookup(f: Program, s: State)
    requires !s.halted && |s.threads| > 0 && s.threads[0].Looking?
    ensures OfThread(Lookup, 0) && Enabled(s, Lookup) && (Apply(f, s, Lookup).halted || NextPc(s, Lookup).Serving?)
  {
  }

  // ----- What the others leave alone -----

  /** What thread `i` has: its place, and the call it holds, of which nobody else
      sends anything. Nothing sent before is taken back. */
  predicate Undisturbed(s: State, s': State, i: nat) {
    && |s'.threads| == |s.threads| && i < |s.threads| && s'.threads[i] == s.threads[i]
    && s.log <= s'.log
    && (Holds(s, s.threads[i]) ==>
          var t := s.threads[i].t;
          Holds(s', s.threads[i]) && s'.calls[t] == s.calls[t] && Sent(s'.log, t) == Sent(s.log, t))
  }

  lemma OthersLeaveCall(f: Program, s: State, l: Label, i: nat)
    requires Inv(f, s) && Enabled(s, l) && i < |s.threads| && !Moves(l, i) && Holds(s, s.threads[i])
    ensures
      var s' := Apply(f, s, l);
      var t := s.threads[i].t;
      t < |s'.calls| && s'.calls[t] == s.calls[t] && Sent(s'.log, t) == Sent(s.log, t)
  {
    hide Apply, Sent, Sending, Remaining, Left, Queue, Unlocked, NextPc;
    NotHalted(s, l);
    var t := s.threads[i].t;
    Sole(s, i, t);
    hide Inv;
    CallsStep(f, s, l, t);
    Untouched(f, s, l, t);
  }

  lemma OthersLeave(f: Program, s: State, l: Label, i: nat)
    requires Inv(f, s) && Enabled(s, l) && i < |s.threads| && !Moves(l, i)
    ensures Undisturbed(s, Apply(f, s, l), i)
  {
    hide Apply, Inv, Sent, Sending, Remaining, Left, Queue, Unlocked, NextPc;
    NotHalted(s, l);
    OrderElsewhere(s, l, i);
    ThreadsStep(f, s, l);
    LogStep(f, s, l);
    hide Enabled, Moves, Mover;
    if Holds(s, s.threads[i]) { OthersLeaveCall(f, s, l, i); }
  }

  lemma UndisturbedTwice(s: State, s1: State, s2: State, i: nat)
    requires Undisturbed(s, s1, i) && Undisturbed(s1, s2, i)
    ensures Undisturbed(s, s2, i)
  {
    hide Sent;
  }

  lemma StaysItself(s: State, i: nat)
    requires i < |s.threads|
    ensures Undisturbed(s, s, i)
  {
  }

  lemma SamePlace(s: State, s': State, i: nat)
    requires Undisturbed(s, s', i)
    ensures |s'.threads| == |s.threads| && i < |s.threads| && s'.threads[i] == s.threads[i] && s.log <= s'.log
    ensures Holds(s, s.threads[i]) ==>
              var t := s.threads[i].t;
              t < |s.calls| && Holds(s', s.threads[i]) && t < |s'.calls| && s'.calls[t] == s.calls[t] && Sent(s'.log, t) == Sent(s.log, t)
  {
    hide Sent;
  }

  /** Thread `j` is not inside `Connection::processResponse` of the connection. */
  predicate Outside(s: State, j: nat, c: nat) {
    j < |s.threads| && (s.threads[j].Requeueing? ==> Holds(s, s.threads[j]) && ConnOf(s, s.threads[j]) != c)
  }

  lemma AllOutside(s: State, c: nat)
    requires forall j: nat | j < |s.threads| :: Outside(s, j, c)
    ensures Unlocked(s, c)
  {
    forall j: nat | j < |s.threads| && s.threads[j].Requeueing? && s.threads[j].t < |s.calls|
      ensures s.calls[s.threads[j].t].conn != c
    {
      assert Outside(s, j, c);
    }
  }

  lemma HeldTicket(s: State, i: nat)
    requires i < |s.threads| && s.threads[i].Writing? && Holds(s, s.threads[i])
    ensures s.threads[i].t < |s.calls|
  {
  }

  lemma {:induction false} SentGrows(log: seq<Chunk>, more: seq<Chunk>, t: nat)
    ensures Sent(log, t) <= Sent(log + more, t)
    decreases |more|
  {
    if more == [] {
      assert log + more == log;
    } else {
      var but := more[..|more| - 1];
      assert log + more == (log + but) + [more[|more| - 1]];
      SentAppend(log + but, more[|more| - 1], t);
      SentGrows(log, but, t);
    }
  }

  // ----- What a write is worth -----

  /** The bytes a write, or a failing one, puts on the socket: of the header, if
      nothing of the value is out yet, and of what is left of the value. */
  function Emits(call: Call, l: Label): seq<byte> {
    if call.value.None? || call.pos > |call.value.value| then []
    else
      var head := if call.pos == 0 then Header(call.id, call.value.value) else [];
      var tail := call.value.value[call.pos..];
      if l.Write? && l.n <= |tail| then head + tail[..l.n]
      else if l.WriteError? && l.n <= |head| + |tail| then (head + tail)[..l.n]
      else []
  }

  /** How many bytes of what is left the socket takes: at least one, if there is any. */
  function Takes(turn: Turn, left: nat): (n: nat)
    ensures n <= left && (left > 0 ==> n > 0)
    ensures turn.size >= left ==> n == left
    ensures 0 < turn.size < left ==> n == turn.size
  {
    if turn.size >= left then left else if turn.size == 0 then 1 else turn.size
  }

  /** What a call's write comes to in a turn: an error if the socket breaks,
      otherwise as many bytes of the value as it takes. */
  predicate AsTaken(turn: Turn, call: Call, l: Label, i: nat) {
    if turn.breaks then l.WriteError? && l.i == i && (turn.size <= |Remaining(call)| ==> l.n == turn.size)
    else l == Write(i, Takes(turn, Left(call)))
  }

  /** The part of `processResponse` that was done, if it had to stop. */
  predicate ServesSoFar(p: seq<Label>, i: nat) {
    && 1 <= |p| <= 4 && p[0] == Pop(i)
    && (|p| >= 3 ==> p[1].Write? && (p[2] == Requeue(i) || (p[2] == RequeueFull(i) && |p| == 3)))
    && (|p| == 4 ==> p[3] == Repost(i) || p[3] == TokenQueueFull(i))
  }

  /** The call was given up. */
  predicate GaveUp(p: seq<Label>) { exists l | l in p :: l.WriteError? || l.RequeueFull? }

  lemma GaveUpAfter(l: Label, p: seq<Label>)
    requires !l.WriteError? && !l.RequeueFull?
    ensures GaveUp([l] + p) <==> GaveUp(p)
  {
    assert forall x :: x in [l] + p <==> x == l || x in p;
  }

  lemma FirstPop(p: seq<Label>, i: nat)
    ensures Serves(p, i) ==> p[0] == Pop(i)
  {
  }

  lemma WriteEmits(f: Program, s: State, l: Label)
    requires Inv(f, s) && Enabled(s, l) && (l.Write? || l.WriteError?)
    ensures Holds(s, s.threads[l.i])
    ensures
      var s' := Apply(f, s, l);
      var t := s.threads[l.i].t;
      && Sent(s'.log, t) == Sent(s.log, t) + Emits(s.calls[t], l)
      && (NextPc(s, l).Idle? ==> if l.Write? then t in s'.done else t in s'.failed)
  {
    hide Apply, Sent, Sending, Remaining, Queue, Unlocked;
    LogStep(f, s, l);
    ListsStep(f, s, l);
    var t := s.threads[l.i].t;
    assert SoundThread(s, s.threads[l.i]) && SoundCall(f, s, t);
    EmitsWhat(s.calls[t], l);
    SentAppend(s.log, Apply(f, s, l).log[|s.log|], t);
    hide Inv, Emits;
  }

  lemma EmitsWhat(call: Call, l: Label)
    requires call.value.Some? && call.pos <= |call.value.value|
    ensures l.Write? && l.n <= Left(call) ==> Emits(call, l) == Sending(call, l.n)
    ensures l.WriteError? && l.n <= |Remaining(call)| ==> Emits(call, l) == Remaining(call)[..l.n]
  {
    hide Header;
    if l.Write? && l.n <= Left(call) { SendingIs(call, l.n); }
  }

  // ----- What a handler saw -----

  ghost predicate SizeAt(f: Program, handlers: nat, ls: seq<Label>, i: nat, size: nat) {
    && Run(f, Init(handlers), ls)
    && var s := After(f, Init(handlers), ls);
      i < |s.threads| && s.threads[i].Pushed? && |Queue(s, s.threads[i].c)| == size
  }

  /** Since label `from`, thread `i` has looked at its connection's queue, and
      found it that long. */
  ghost predicate Saw(f: Program, handlers: nat, trace: seq<Label>, from: nat, i: nat, size: nat) {
    exists k :: from <= k < |trace| && trace[k] == CheckSize(i) && SizeAt(f, handlers, trace[..k], i, size)
  }

  lemma SawIt(f: Program, handlers: nat, trace: seq<Label>, trace': seq<Label>, from: nat, i: nat, size: nat)
    requires SizeAt(f, handlers, trace, i, size) && from <= |trace| && trace + [CheckSize(i)] <= trace'
    ensures Saw(f, handlers, trace', from, i, size)
  {
    hide SizeAt;
    assert trace'[..|trace|] == trace && trace'[|trace|] == CheckSize(i);
  }

  // ----- From one point of a program to another -----

  /** Where the system is, how it came there, and what is to come. */
  datatype Point = Point(s: State, trace: seq<Label>, turns: seq<Turn>)

  /** Every label that can abort. */
  predicate Fatal(l: Label) {
    || l.CallQueueFull? || l.ResponseQueueFull? || l.TokenQueueFull? || l.PopEmpty? || l.WriteError?
    || l.RequeueFull? || l.Lookup?
  }

  predicate Silent(turns: seq<Turn>) { forall k | 0 <= k < |turns| :: turns[k].others == [] }

  /** No write fails. */
  predicate Healthy(turns: seq<Turn>) { forall k | 0 <= k < |turns| :: !turns[k].breaks }

  predicate NoErrors(p: seq<Label>) { forall l | l in p :: !l.WriteError? }

  lemma NoErrorServing(turns: seq<Turn>, call: Call, p: seq<Label>, i: nat)
    requires ServesSoFar(p, i) && (|p| >= 2 ==> AsTaken(First(turns), call, p[1], i))
    ensures Healthy(turns) ==> NoErrors(p)
  {
  }

  /** The others do nothing, and none of them is inside `Connection::processResponse`. */
  predicate Solo(a: Point, i: nat) {
    Silent(a.turns) && forall j | 0 <= j < |a.s.threads| && j != i :: !a.s.threads[j].Requeueing?
  }

  /** Thread `i` went from one point to the other by the steps `p` of its own. If the
      system has halted, the last step was one that can. If the others do nothing,
      nothing else happened, and the work left is less by as many steps. */
  ghost predicate Went(f: Program, i: nat, p: seq<Label>, a: Point, b: Point) {
    && a.trace <= b.trace && Own(b.trace, i) == Own(a.trace, i) + p
    && a.s.log <= b.s.log && |b.turns| <= |a.turns| && b.turns == a.turns[|a.turns| - |b.turns|..]
    && (b.s.halted ==> a.s.halted || (|b.trace| > |a.trace| && Fatal(b.trace[|b.trace| - 1])))
    && (Solo(a, i) ==> Solo(b, i) && b.trace == a.trace + p && Measure(f, b.s) + |p| <= Measure(f, a.s))
  }

  lemma Chain(f: Program, i: nat, p: seq<Label>, q: seq<Label>, a: Point, b: Point, c: Point)
    requires Went(f, i, p, a, b) && Went(f, i, q, b, c) && !b.s.halted
    ensures Went(f, i, p + q, a, c)
  {
    hide Measure, Own, Solo, Fatal;
  }

  lemma NotYet(f: Program, i: nat, a: Point)
    ensures Went(f, i, [], a, a)
  {
    hide Measure, Solo;
  }

  /** The others' turn takes no step of the thread's own, and in silence none at all. */
  lemma WentNowhere(f: Program, i: nat, a: Point, b: Point)
    requires a.trace <= b.trace && Own(b.trace, i) == Own(a.trace, i) && a.s.log <= b.s.log
    requires b.turns == if a.turns == [] then [] else a.turns[1..]
    requires b.s.halted ==> a.s.halted || (|b.trace| > |a.trace| && Fatal(b.trace[|b.trace| - 1]))
    requires First(a.turns).others == [] ==> b.s == a.s && b.trace == a.trace
    ensures Went(f, i, [], a, b)
  {
    hide Own, Fatal, Measure;
  }

  /** In a silent turn of a thread that is alone nobody holds a mutex against it. */
  lemma AloneIsUnlocked(a: Point, i: nat, c: nat)
    requires Solo(a, i) && i < |a.s.threads| && a.s.threads[i].Writing?
    ensures Unlocked(a.s, c)
  {
  }

  lemma HealthStays(f: Program, i: nat, p: seq<Label>, a: Point, b: Point)
    requires Went(f, i, p, a, b)
    ensures Healthy(a.turns) ==> Healthy(b.turns)
  {
    hide Measure, Solo;
  }

  lemma TraceGrew(f: Program, i: nat, p: seq<Label>, a: Point, b: Point)
    requires Went(f, i, p, a, b)
    ensures a.trace <= b.trace && |b.turns| <= |a.turns|
  {
  }

  lemma ByMeasure(f: Program, i: nat, p: seq<Label>, a: Point, b: Point)
    requires Went(f, i, p, a, b)
    ensures Solo(a, i) ==> |p| <= Measure(f, a.s)
  {
    hide Measure;
  }

  lemma LogGrew(f: Program, i: nat, p: seq<Label>, a: Point, b: Point, t: nat)
    requires Went(f, i, p, a, b)
    ensures Sent(a.s.log, t) <= Sent(b.s.log, t)
  {
    hide Measure, Sent, Solo;
    assert a.s.log + b.s.log[|a.s.log|..] == b.s.log;
    SentGrows(a.s.log, b.s.log[|a.s.log|..], t);
  }

  lemma SilentTurn(f: Program, i: nat, p: seq<Label>, a: Point, b: Point)
    requires Went(f, i, p, a, b)
    ensures Solo(a, i) ==> First(b.turns).others == []
  {
    hide Measure;
  }

  /** A step of a thread's own is work done. */
  lemma Costs(f: Program, s: State, l: Label, i: nat)
    requires Inv(f, s) && Enabled(s, l) && OfThread(l, i)
    ensures Measure(f, Apply(f, s, l)) < Measure(f, s)
    ensures s.log <= Apply(f, s, l).log && (Apply(f, s, l).halted ==> Fatal(l))
  {
    assert Moves(l, i);
    hide Inv, Apply, Measure, Enabled;
    MeasureStep(f, s, l);
    LogStep(f, s, l);
    HaltsByFatal(f, s, l);
  }

  lemma HaltsByFatal(f: Program, s: State, l: Label)
    requires Enabled(s, l)
    ensures Apply(f, s, l).halted ==> Fatal(l)
  {
    if Apply(f, s, l).halted { AbortCauses(f, s, l); }
  }

  // ----- What a loop saw -----

  /** A state the system was in, after label `from`. */
  ghost predicate Visited(f: Program, handlers: nat, trace: seq<Label>, from: nat, st: State) {
    exists k :: from <= k <= |trace| && Run(f, Init(handlers), trace[..k]) && After(f, Init(handlers), trace[..k]) == st
  }

  lemma StillVisited(f: Program, handlers: nat, trace: seq<Label>, trace': seq<Label>, from: nat, seen: seq<State>)
    requires trace <= trace' && forall st | st in seen :: Visited(f, handlers, trace, from, st)
    ensures forall st | st in seen :: Visited(f, handlers, trace', from, st)
  {
    hide Run, After, Init;
    forall st | st in seen ensures Visited(f, handlers, trace', from, st) {
      var k :| from <= k <= |trace| && Run(f, Init(handlers), trace[..k]) && After(f, Init(handlers), trace[..k]) == st;
      assert trace'[..k] == trace[..k];
    }
  }

  lemma WentOn(f: Program, handlers: nat, i: nat, p: seq<Label>, q: seq<Label>, a: Point, b: Point, c: Point, seen: seq<State>)
    requires Went(f, i, p, a, b) && Went(f, i, q, b, c) && !b.s.halted
    requires forall st | st in seen :: Visited(f, handlers, b.trace, |a.trace|, st)
    ensures Went(f, i, p + q, a, c) && |a.trace| <= |c.trace| && |c.turns| <= |b.turns|
    ensures forall st | st in seen :: Visited(f, handlers, c.trace, |a.trace|, st)
  {
    Chain(f, i, p, q, a, b, c);
    hide Measure, Own, Solo, Fatal, Visited;
    StillVisited(f, handlers, b.trace, c.trace, |a.trace|, seen);
  }

  function WithCalls(seen: seq<State>): nat {
    if seen == [] then 0 else WithCalls(seen[..|seen| - 1]) + if seen[|seen| - 1].callQ != [] then 1 else 0
  }

  function WithTokens(seen: seq<State>): nat {
    if seen == [] then 0 else WithTokens(seen[..|seen| - 1]) + if seen[|seen| - 1].tokens != [] then 1 else 0
  }

  lemma OneMoreSeen(seen: seq<State>, st: State)
    ensures WithCalls(seen + [st]) == WithCalls(seen) + if st.callQ != [] then 1 else 0
    ensures WithTokens(seen + [st]) == WithTokens(seen) + if st.tokens != [] then 1 else 0
  {
    assert (seen + [st])[..|seen|] == seen;
  }

  class Server {
    const f: Program
    const handlers: nat
    var s: State
    var turns: seq<Turn>
    ghost var trace: seq<Label>

    ghost predicate Valid()
      reads this`s, this`trace
    {
      && Run(f, Init(handlers), trace) && After(f, Init(handlers), trace) == s
      && Inv(f, s) && |s.threads| == handlers + 1
    }

    ghost function Here(): Point
      reads this
    {
      Point(s, trace, turns)
    }

    lemma Known(i: nat)
      requires Valid() && i <= handlers
      ensures |s.threads| == handlers + 1 && Inv(f, s)
      ensures var pc := s.threads[i]; pc.Took? || pc.Answered? || pc.Writing? || pc.Requeueing? ==> Holds(s, pc)
      ensures s.threads[i].Serving? ==> Queue(s, s.threads[i].c) != []
    {
      if s.threads[i].Serving? { NeverEmpty(s, i); }
      assert SoundThread(s, s.threads[i]);
    }

    constructor (f: Program, handlers: nat, turns: seq<Turn>)
      ensures Valid() && s == Init(handlers) && trace == [] && this.turns == turns
    {
      this.f, this.handlers, this.turns := f, handlers, turns;
      s := Init(handlers);
      trace := [];
      new;
      InvInit(f, handlers);
    }

    method Step(l: Label)
      requires Valid() && Enabled(s, l)
      modifies this`s, this`trace
      ensures Valid() && |s.threads| == handlers + 1 && trace == old(trace) + [l]
      ensures forall i: nat :: Own(trace, i) == Own(old(trace), i) + if Moves(l, i) then [l] else []
      ensures s == Apply(f, old(s), l) && s.threads == old(s.threads)[Mover(l) := NextPc(old(s), l)]
    {
      assert Mover(l) < |s.threads|;
      hide Enabled, Apply, Inv, Init;
      InvStep(f, s, l);
      ThreadsStep(f, s, l);
      Extend(f, Init(handlers), trace, l);
      forall i: nat ensures Own(trace + [l], i) == Own(trace, i) + if Moves(l, i) then [l] else [] {
        OwnAppend(trace, l, i);
      }
      assert Inv(f, Apply(f, s, l)) && |Apply(f, s, l).threads| == handlers + 1;
      assert Run(f, Init(handlers), trace + [l]);
      assert After(f, Init(handlers), trace + [l]) == Apply(f, s, l);
      s := Apply(f, s, l);
      trace := trace + [l];
    }

    /** A step of thread `i`. */
    method Do(i: nat, l: Label)
      requires Valid() && i <= handlers && Enabled(s, l) && OfThread(l, i)
      modifies this`s, this`trace
      ensures Valid() && |s.threads| == handlers + 1 && trace == old(trace) + [l]
      ensures s == Apply(f, old(s), l) && s.threads[i] == NextPc(old(s), l)
      ensures Went(f, i, [l], old(Here()), Here())
      ensures forall j: nat | j <= handlers && j != i :: s.threads[j] == old(s.threads[j]) && Own(trace, j) == Own(old(trace), j)
    {
      NotHalted(s, l);
      hide Enabled, Apply, Inv, Init, NextPc, Run, After, Measure;
      Costs(f, s, l, i);
      Step(l);
    }

    /** One label of the others' turn: it happens if they can do it now. */
    method Other(i: nat, l: Label)
      requires Valid() && i <= handlers
      modifies this`s, this`trace
      ensures Valid() && |s.threads| == handlers + 1 && Own(trace, i) == Own(old(trace), i) && Undisturbed(old(s), s, i)
      ensures
        if Enabled(old(s), l) && !Moves(l, i) then
          trace == old(trace) + [l] && s == Apply(f, old(s), l) && (s.halted ==> Fatal(l))
        else trace == old(trace) && s == old(s)
    {
      hide Server.Valid, Own, Holds, Enabled, Apply, NextPc, Moves, Mover, Inv, Sent, Undisturbed, Measure, Fatal;
      Known(i);
      if Enabled(s, l) && !Moves(l, i) {
        OthersLeave(f, s, l, i);
        HaltsByFatal(f, s, l);
        Step(l);
      } else {
        StaysItself(s, i);
      }
    }

    /** The others' turn: they do of it what they can. */
    method Others(i: nat) returns (turn: Turn)
      requires Valid() && i <= handlers
      modifies this
      ensures Valid() && |s.threads| == handlers + 1
      ensures turn == First(old(turns)) && turns == if old(turns) == [] then [] else old(turns)[1..]
      ensures trace == old(trace) + Fires(f, old(s), i, turn.others) && (turn.others == [] ==> s == old(s))
      ensures Went(f, i, [], old(Here()), Here()) && Undisturbed(old(s), s, i)
    {
      hide Server.Valid, Own, Holds, Enabled, Apply, NextPc, Moves, Mover, Inv, Sent, Undisturbed, Measure, Fatal, Fires, Solo;
      Known(i);
      StaysItself(s, i);
      ghost var a := Here();
      turn := First(turns);
      turns := if turns == [] then [] else turns[1..];
      assert turn.others[0..] == turn.others;
      for k := 0 to |turn.others|
        invariant turn == First(a.turns) && turns == if a.turns == [] then [] else a.turns[1..]
        invariant Valid() && |s.threads| == handlers + 1 && Own(trace, i) == Own(a.trace, i) && a.trace <= trace
        invariant trace + Fires(f, s, i, turn.others[k..]) == a.trace + Fires(f, a.s, i, turn.others)
        invariant Undisturbed(a.s, s, i)
        invariant s.halted ==> a.s.halted || (|trace| > |a.trace| && Fatal(trace[|trace| - 1]))
        invariant turn.others == [] ==> s == a.s && trace == a.trace
      {
        ghost var b := Here();
        FiresStep(f, s, i, turn.others, k);
        Other(i, turn.others[k]);
        UndisturbedTwice(a.s, b.s, s, i);
      }
      FiresNone(f, s, i, turn.others);
      SamePlace(a.s, s, i);
      WentNowhere(f, i, a, Here());
    }

    /** The connection's `_mutex`: the others have a turn if it is taken, and then the
        threads inside `Connection::processResponse` come out of it. */
    method AwaitMutex(i: nat)
      requires Valid() && i <= handlers && s.threads[i].Writing? && !s.halted
      modifies this
      ensures Valid() && |s.threads| == handlers + 1 && |turns| + 1 >= |old(turns)|
      ensures Went(f, i, [], old(Here()), Here()) && Undisturbed(old(s), s, i)
      ensures s.halted || (Holds(s, s.threads[i]) && Unlocked(s, ConnOf(s, s.threads[i])))
    {
      hide Server.Valid, Own, Enabled, Apply, NextPc, Moves, Mover, Inv, Sent, Undisturbed, Unlocked, Queue, Measure, Solo, Fires;
      Known(i);
      StaysItself(s, i);
      ghost var a := Here();
      NotYet(f, i, a);
      ghost var t := s.threads[i].t;
      var c := ConnOf(s, s.threads[i]);
      if !Unlocked(s, c) {
        assert !Solo(a, i) by { if Solo(a, i) { AloneIsUnlocked(a, i, c); } }
        var turn := Others(i);
        SamePlace(a.s, s, i);
        if !s.halted {
          ghost var b := Here();
          LetOut(i, c);
          UndisturbedTwice(a.s, b.s, s, i);
          SamePlace(b.s, s, i);
        }
      }
    }

    /** Every thread inside `Connection::processResponse` of a connection leaves it. */
    method LetOut(i: nat, c: nat)
      requires Valid() && i <= handlers && s.threads[i].Writing? && !s.halted
      modifies this`s, this`trace
      ensures Valid() && |s.threads| == handlers + 1 && Own(trace, i) == Own(old(trace), i) && old(trace) <= trace
      ensures Undisturbed(old(s), s, i) && (s.halted || Unlocked(s, c))
      ensures s.halted ==> |trace| > |old(trace)| && Fatal(trace[|trace| - 1])
    {
      hide Server.Valid, Own, Enabled, Apply, NextPc, Mover, Moves, Inv, Sent, Undisturbed, Queue, Measure, Solo, Fatal;
      Known(i);
      StaysItself(s, i);
      for j := 0 to handlers + 1
        invariant Valid() && |s.threads| == handlers + 1 && Own(trace, i) == Own(old(trace), i) && old(trace) <= trace
        invariant Undisturbed(old(s), s, i)
        invariant s.halted ==> |trace| > |old(trace)| && Fatal(trace[|trace| - 1])
        invariant s.halted || forall k | 0 <= k < j :: Outside(s, k, c)
      {
        SamePlace(old(s), s, i);
        ghost var before := s;
        if !s.halted {
          ComeOut(i, j, c);
          UndisturbedTwice(old(s), before, s, i);
        }
      }
      if !s.halted { AllOutside(s, c); }
    }

    /** Thread `j` leaves it, if it is inside. */
    method ComeOut(i: nat, j: nat, c: nat)
      requires Valid() && i <= handlers && j <= handlers && s.threads[i].Writing? && !s.halted
      modifies this`s, this`trace
      ensures Valid() && |s.threads| == handlers + 1 && Own(trace, i) == Own(old(trace), i) && old(trace) <= trace
      ensures Undisturbed(old(s), s, i) && (s.halted || Outside(s, j, c))
      ensures s.halted || forall k: nat | k <= handlers && Outside(old(s), k, c) :: Outside(s, k, c)
      ensures s.halted ==> |trace| > |old(trace)| && Fatal(trace[|trace| - 1])
    {
      hide Server.Valid, Own, Enabled, Apply, NextPc, Mover, Moves, Inv, Sent, Undisturbed, Queue, Measure, Solo, Fatal;
      Known(j);
      StaysItself(s, i);
      if s.threads[j].Requeueing? && ConnOf(s, s.threads[j]) == c {
        CanRequeue(f, s, j);
        var l := RequeueLabel(s, j);
        OthersLeave(f, s, l, i);
        HaltsByFatal(f, s, l);
        Do(j, l);
      }
    }

    /** `Responder::processResponse`: takes the connection's oldest response, which
        there always is, and writes of it what the socket takes in the next turn. */
    method ProcessResponse(i: nat) returns (ok: bool, ghost t: nat, ghost p: seq<Label>)
      requires Valid() && i <= handlers && !s.halted && s.threads[i].Serving?
      modifies this
      ensures Valid() && |s.threads| == handlers + 1 && Went(f, i, p, old(Here()), Here()) && |turns| + 4 >= |old(turns)|
      ensures Healthy(old(turns)) ==> NoErrors(p)
      ensures
        var q := old(Queue(s, s.threads[i].c));
        q != [] && t == q[0] && t < |old(s).calls|
      ensures ServesSoFar(p, i) && (|p| >= 2 ==> AsTaken(First(old(turns)), old(s).calls[t], p[1], i))
      ensures s.halted || (s.threads[i].Idle? && Serves(p, i))
      ensures
        var turn := First(old(turns));
        var left := Left(old(s).calls[t]);
        s.halted || (
          && (ok <==> !GaveUp(p))
          && Sent(old(s).log, t) + Emits(old(s).calls[t], p[1]) <= Sent(s.log, t)
          && (turn.breaks ==> !ok && t in s.failed)
          && (!turn.breaks && Takes(turn, left) == left ==> ok && t in s.done)
          && (!turn.breaks && Takes(turn, left) < left ==> if ok then p[2..] == [Requeue(i), Repost(i)] else p[2..] == [RequeueFull(i)]))
      ensures !ok && i == 0 ==> s.halted
    {
      hide Server.Valid, Went, Undisturbed, Own, Holds, ConnOf, Unlocked, OfThread, Enabled, Apply, NextPc, Queue, Mover, Moves, Sending, Remaining, Left, Inv, Sent, Measure, Emits, GaveUp, AsTaken, Serves;
      Known(i);
      ghost var a := Here();
      t := Queue(s, s.threads[i].c)[0];
      CanPop(f, s, i);
      Do(i, Pop(i));
      Known(i);
      HeldTicket(s, i);
      ghost var b := Here();
      var turn := Others(i);
      SamePlace(b.s, s, i);
      ghost var c := Here();
      p := [Pop(i)];
      Chain(f, i, p, [], a, b, c);
      assert p + [] == p;
      if s.halted { return false, t, p; }
      AwaitMutex(i);
      SamePlace(c.s, s, i);
      ghost var d := Here();
      Chain(f, i, p, [], a, c, d);
      if s.halted { return false, t, p; }
      ghost var q;
      ok, q := WriteSome(i, turn);
      HealthStays(f, i, p, a, d);
      Chain(f, i, p, q, a, d, Here());
      GaveUpAfter(Pop(i), q);
      p := p + q;
      assert p[2..] == q[1..];
      NoErrorServing(a.turns, a.s.calls[t], p, i);
    }

    /** `Connection::processResponse`, and the token after a partial write. */
    method WriteSome(i: nat, turn: Turn) returns (ok: bool, ghost p: seq<Label>)
      requires Valid() && i <= handlers && !s.halted && s.threads[i].Writing?
      requires Holds(s, s.threads[i]) && Unlocked(s, ConnOf(s, s.threads[i]))
      modifies this
      ensures Valid() && |s.threads| == handlers + 1 && Went(f, i, p, old(Here()), Here()) && |turns| + 2 >= |old(turns)|
      ensures old(s.threads[i].t) < |old(s).calls| && p != []
      ensures ServesSoFar([Pop(i)] + p, i) && AsTaken(turn, old(s).calls[old(s.threads[i].t)], p[0], i)
      ensures s.halted || (s.threads[i].Idle? && Serves([Pop(i)] + p, i))
      ensures
        var t := old(s.threads[i].t);
        var left := Left(old(s).calls[t]);
        s.halted || (
          && (ok <==> !GaveUp(p))
          && Sent(old(s).log, t) + Emits(old(s).calls[t], p[0]) <= Sent(s.log, t)
          && (turn.breaks ==> !ok && t in s.failed)
          && (!turn.breaks && Takes(turn, left) == left ==> ok && t in s.done)
          && (!turn.breaks && Takes(turn, left) < left ==> if ok then p[1..] == [Requeue(i), Repost(i)] else p[1..] == [RequeueFull(i)]))
      ensures !ok && i == 0 ==> s.halted
    {
      hide Server.Valid, Went, Undisturbed, Own, Holds, ConnOf, Unlocked, OfThread, Enabled, Apply, NextPc, Queue, Mover, Moves, Sending, Remaining, Left, Inv, Sent, Measure, Emits;
      Known(i);
      HeldTicket(s, i);
      ghost var a := Here();
      ghost var t := s.threads[i].t;
      var call := s.calls[s.threads[i].t];
      if turn.breaks {
        var l := WriteError(i, if turn.size <= |Remaining(call)| then turn.size else |Remaining(call)|);
        CanBreak(f, s, i, l.n);
        WriteEmits(f, s, l);
        Do(i, l);
        assert l in [l];
        return false, [l];
      }
      var left := Left(call);
      var n := Takes(turn, left);
      CanWrite(f, s, i, n);
      WriteEmits(f, s, Write(i, n));
      Do(i, Write(i, n));
      p := [Write(i, n)];
      if n == left {
        return true, p;
      }
      ghost var b := Here();
      ghost var more;
      ok, more := PutBack(i);
      Chain(f, i, p, more, a, b, Here());
      GaveUpAfter(Write(i, n), more);
      LogGrew(f, i, more, b, Here(), t);
      p := p + more;
      assert p[1..] == more;
    }

    /** A partly written call goes back to the queue, and a token to the front. */
    method PutBack(i: nat) returns (ok: bool, ghost p: seq<Label>)
      requires Valid() && i <= handlers && s.threads[i].Requeueing? && !s.halted
      modifies this
      ensures Valid() && |s.threads| == handlers + 1 && Went(f, i, p, old(Here()), Here()) && |turns| + 2 >= |old(turns)|
      ensures s.halted || (s.threads[i].Idle? && p == if ok then [Requeue(i), Repost(i)] else [RequeueFull(i)])
      ensures p == [] || p == [RequeueFull(i)] || p == [Requeue(i)] || p == [Requeue(i), Repost(i)] || p == [Requeue(i), TokenQueueFull(i)]
      ensures s.halted || (ok <==> !GaveUp(p))
      ensures !ok && i == 0 ==> s.halted
    {
      hide Server.Valid, Went, Undisturbed, Own, Holds, ConnOf, Unlocked, OfThread, Enabled, Apply, NextPc, Queue, Mover, Moves, Sending, Remaining, Left, Inv, Sent, Measure;
      Known(i);
      p := [];
      ghost var a := Here();
      var turn := Others(i);
      SamePlace(a.s, s, i);
      if s.halted { return true, p; }
      ghost var b := Here();
      Known(i);
      CanRequeue(f, s, i);
      var l := RequeueLabel(s, i);
      Do(i, l);
      ghost var c := Here();
      Chain(f, i, [], [l], a, b, c);
      p := [l];
      assert [] + p == p;
      assert l in p;
      if l.RequeueFull? {
        return false, p;
      }
      ghost var q := PostAgain(i);
      Chain(f, i, p, q, a, c, Here());
      ok, p := true, p + q;
    }

    /** The connection of a response cut short gets a token at the front. */
    method PostAgain(i: nat) returns (ghost p: seq<Label>)
      requires Valid() && i <= handlers && s.threads[i].Requeued? && !s.halted
      modifies this
      ensures Valid() && |s.threads| == handlers + 1 && Went(f, i, p, old(Here()), Here()) && |turns| + 1 >= |old(turns)|
      ensures s.halted || (s.threads[i].Idle? && p == [Repost(i)])
      ensures p == [] || p == [Repost(i)] || p == [TokenQueueFull(i)]
    {
      hide Server.Valid, Went, Undisturbed, Own, Holds, ConnOf, Unlocked, OfThread, Enabled, Apply, NextPc, Queue, Mover, Moves, Sending, Remaining, Left, Inv, Sent, Measure;
      Known(i);
      ghost var a := Here();
      var turn := Others(i);
      SamePlace(a.s, s, i);
      if s.halted { return []; }
      ghost var b := Here();
      CanPost(f, s, i);
      Do(i, TokenLabel(s, i));
      p := [TokenLabel(b.s, i)];
      Chain(f, i, [], p, a, b, Here());
      assert [] + p == p;
    }

    /** `Responder::doRespond`. False if the response queue is full. At the size it
        saw, `size`, the handler took the shortcut exactly if that was 1. */
    method DoRespond(i: nat) returns (ok: bool, ghost p: seq<Label>, ghost size: nat)
      requires Valid() && 0 < i <= handlers && !s.halted && s.threads[i].Answered?
      modifies this
      ensures Valid() && |s.threads| == handlers + 1 && Went(f, i, p, old(Here()), Here()) && |turns| + 7 >= |old(turns)|
      ensures Healthy(old(turns)) ==> NoErrors(p)
      ensures s.halted || (ok && s.threads[i].Idle? && Answers(p, i))
      ensures s.halted || (Saw(f, handlers, trace, |old(trace)|, i, size) && |p| >= 3 && (p[2] == Pop(i) <==> size == 1))
    {
      hide Server.Valid, Went, Undisturbed, Own, Holds, ConnOf, Unlocked, OfThread, Enabled, Apply, NextPc, Queue, Mover, Moves, Sending, Remaining, Left, Inv, Sent, Measure, SizeAt, Saw;
      Known(i);
      p, size := [], 0;
      ghost var a := Here();
      var turn := Others(i);
      SamePlace(a.s, s, i);
      if s.halted { return true, p, size; }
      ghost var b := Here();
      Known(i);
      CanPush(f, s, i);
      var l := PushLabel(s, i);
      Do(i, l);
      ghost var c := Here();
      p := [l];
      Chain(f, i, [], p, a, b, c);
      assert [] + p == p;
      if l.ResponseQueueFull? {
        return false, p, size;
      }
      turn := Others(i);
      SamePlace(c.s, s, i);
      ghost var d := Here();
      Chain(f, i, p, [], a, c, d);
      assert p + [] == p;
      if s.halted { return true, p, size; }
      size := |Queue(s, s.threads[i].c)|;
      SizeNow(i);
      ghost var q := WriteOrPost(i);
      HealthStays(f, i, p, a, d);
      Chain(f, i, p, q, a, d, Here());
      TraceGrew(f, i, p, a, d);
      SawIt(f, handlers, d.trace, trace, |a.trace|, i, size);
      ok, p := true, p + q;
      assert s.halted || p[2] == q[1];
    }

    lemma SizeNow(i: nat)
      requires Valid() && i <= handlers && s.threads[i].Pushed?
      ensures SizeAt(f, handlers, trace, i, |Queue(s, s.threads[i].c)|)
    {
      hide Run, After, Init, Queue, Inv;
    }

    /** The shortcut: at a size of 1 the handler writes the oldest response itself;
        otherwise a token goes to the responder. */
    method WriteOrPost(i: nat) returns (ghost p: seq<Label>)
      requires Valid() && i <= handlers && !s.halted && s.threads[i].Pushed?
      modifies this
      ensures Valid() && |s.threads| == handlers + 1 && Went(f, i, p, old(Here()), Here()) && |turns| + 5 >= |old(turns)|
      ensures Healthy(old(turns)) ==> NoErrors(p)
      ensures old(trace) + [CheckSize(i)] <= trace
      ensures s.halted || (s.threads[i].Idle? && Answers([PushResponse(i)] + p, i))
      ensures s.halted || (|p| >= 2 && (p[1] == Pop(i) <==> old(|Queue(s, s.threads[i].c)|) == 1))
    {
      hide Server.Valid, Went, Undisturbed, Own, Holds, ConnOf, Unlocked, OfThread, Enabled, Apply, NextPc, Queue, Mover, Moves, Sending, Remaining, Left, Inv, Sent, Measure, Serves, Emits, AsTaken, GaveUp, ServesSoFar;
      Known(i);
      p := [CheckSize(i)];
      ghost var a := Here();
      CanCheck(f, s, i);
      Do(i, CheckSize(i));
      ghost var b := Here();
      var turn := Others(i);
      SamePlace(b.s, s, i);
      ghost var c := Here();
      Chain(f, i, p, [], a, b, c);
      assert p + [] == p;
      TraceGrew(f, i, [], b, c);
      if s.halted { return; }
      ghost var q;
      if s.threads[i].Serving? {
        var ok;
        ghost var t;
        ok, t, q := ProcessResponse(i);
        FirstPop(q, i);
      } else {
        CanPost(f, s, i);
        Do(i, TokenLabel(s, i));
        q := [TokenLabel(c.s, i)];
      }
      HealthStays(f, i, p, a, c);
      Chain(f, i, p, q, a, c, Here());
      TraceGrew(f, i, q, c, Here());
      p := p + q;
      assert ([PushResponse(i)] + p)[2..] == q;
    }

    /** One round of `Handler::handle`, with a call in the queue. */
    method HandleOne(i: nat) returns (ghost p: seq<Label>)
      requires Valid() && 0 < i <= handlers && s.threads[i].Idle? && !s.halted && s.callQ != []
      modifies this
      ensures Valid() && |s.threads| == handlers + 1 && Went(f, i, p, old(Here()), Here()) && |turns| + 8 >= |old(turns)|
      ensures Healthy(old(turns)) ==> NoErrors(p)
      ensures p != [] && (s.halted || (s.threads[i].Idle? && Handles(p, i)))
    {
      hide Server.Valid, Went, Undisturbed, Own, Holds, ConnOf, Unlocked, OfThread, Enabled, Apply, NextPc, Queue, Mover, Moves, Sending, Remaining, Left, Inv, Sent, Measure, Answers, Serves, Rounds, Round, Saw;
      Known(i);
      ghost var a := Here();
      p := [Take(i)];
      CanTake(f, s, i);
      Do(i, Take(i));
      ghost var b := Here();
      var turn := Others(i);
      SamePlace(b.s, s, i);
      ghost var c := Here();
      Chain(f, i, p, [], a, b, c);
      assert p + [] == p;
      if s.halted { return; }
      Known(i);
      CanExecute(f, s, i);
      Do(i, Execute(i));
      ghost var d := Here();
      Chain(f, i, p, [Execute(i)], a, c, d);
      p := p + [Execute(i)];
      ghost var q, size;
      var ok;
      ok, q, size := DoRespond(i);
      HealthStays(f, i, p, a, d);
      Chain(f, i, p, q, a, d, Here());
      assert (p + q)[2..] == q;
      p := p + q;
    }

    /** `Handler::handle`, until the turns run out. At each of the loop's turns it sees
        a state of the system, `seen`; wherever that has a call in the queue the
        handler's next step is a round. */
    method Handle(i: nat) returns (ghost p: seq<Label>, ghost seen: seq<State>)
      requires Valid() && 0 < i <= handlers && s.threads[i].Idle? && !s.halted
      modifies this
      ensures Valid() && |s.threads| == handlers + 1 && Went(f, i, p, old(Here()), Here())
      ensures Healthy(old(turns)) ==> NoErrors(p)
      ensures forall st | st in seen :: Visited(f, handlers, trace, |old(trace)|, st)
      ensures s.halted || (turns == [] && s.threads[i].Idle?)
      ensures s.halted || (Rounds(p, i, WithCalls(seen)) && |old(turns)| <= |seen| + 8 * WithCalls(seen))
      ensures Solo(old(Here()), i) && |old(turns)| > 9 * Measure(f, old(s)) ==> s.halted || s.callQ == []
    {
      hide Server.Valid, Went, Undisturbed, Own, Holds, ConnOf, Unlocked, OfThread, Enabled, Apply, NextPc, Queue, Mover, Moves, Sending, Remaining, Left, Inv, Sent, Measure, Handles, Visited, Solo, Round, Fires;
      Known(i);
      ghost var a := Here();
      p, seen := [], [];
      NotYet(f, i, a);
      while !s.halted && turns != []
        invariant Valid() && |s.threads| == handlers + 1 && Went(f, i, p, a, Here()) && |a.trace| <= |trace|
        invariant Healthy(a.turns) ==> NoErrors(p)
        invariant forall st | st in seen :: Visited(f, handlers, trace, |a.trace|, st)
        invariant s.halted || (s.threads[i].Idle? && Rounds(p, i, WithCalls(seen)))
        invariant s.halted || |a.turns| <= |turns| + |seen| + 8 * WithCalls(seen)
        invariant Solo(a, i) ==> s.halted || s.callQ == [] || |a.turns| <= |turns| + 9 * |p|
        decreases |turns|
      {
        ghost var b := Here();
        var turn := Others(i);
        SamePlace(b.s, s, i);
        ghost var c := Here();
        WentOn(f, handlers, i, p, [], a, b, c, seen);
        assert p + [] == p;
        SilentTurn(f, i, p, a, b);
        if s.halted { return; }
        NowVisited(|a.trace|);
        ghost var before := seen;
        seen := seen + [s];
        OneMoreSeen(before, s);
        if s.callQ != [] {
          ghost var q := HandleOne(i);
          HealthStays(f, i, p, a, c);
          WentOn(f, handlers, i, p, q, a, c, Here(), seen);
          if !s.halted { OneMore(p, q, i, WithCalls(before)); }
          p := p + q;
        }
      }
      ByMeasure(f, i, p, a, Here());
    }

    lemma NowVisited(from: nat)
      requires Valid() && from <= |trace|
      ensures Visited(f, handlers, trace, from, s)
    {
      assert trace[..|trace|] == trace;
    }

    /** One round of `Responder::respond`, with a token in the queue. */
    method RelayOne() returns (ghost p: seq<Label>)
      requires Valid() && s.threads[0].Idle? && !s.halted && s.tokens != []
      modifies this
      ensures Valid() && |s.threads| == handlers + 1 && Went(f, 0, p, old(Here()), Here()) && |turns| + 8 >= |old(turns)|
      ensures Healthy(old(turns)) ==> NoErrors(p)
      ensures p != [] && (s.halted || (s.threads[0].Idle? && Relays(p)))
    {
      hide Server.Valid, Went, Undisturbed, Own, Holds, ConnOf, Unlocked, OfThread, Enabled, Apply, NextPc, Queue, Mover, Moves, Sending, Remaining, Left, Inv, Sent, Measure, Answers, Serves, Rounds, Round, Emits, AsTaken, GaveUp, ServesSoFar;
      Known(0);
      ghost var a := Here();
      p := [TakeToken];
      CanTakeToken(f, s);
      Do(0, TakeToken);
      ghost var b := Here();
      var turn := Others(0);
      SamePlace(b.s, s, 0);
      ghost var c := Here();
      Chain(f, 0, p, [], a, b, c);
      assert p + [] == p;
      if s.halted { return; }
      CanLookup(f, s);
      Do(0, Lookup);
      ghost var d := Here();
      Chain(f, 0, p, [Lookup], a, c, d);
      p := p + [Lookup];
      if s.halted { return; }
      turn := Others(0);
      SamePlace(d.s, s, 0);
      ghost var e := Here();
      Chain(f, 0, p, [], a, d, e);
      assert p + [] == p;
      if s.halted { return; }
      ghost var t, q;
      var ok;
      ok, t, q := ProcessResponse(0);
      HealthStays(f, 0, p, a, e);
      Chain(f, 0, p, q, a, e, Here());
      assert (p + q)[2..] == q;
      p := p + q;
    }

    /** `Responder::respond`, until the turns run out: a round for every state seen at
        the loop's turns that has a token in the queue. */
    method Respond() returns (ghost p: seq<Label>, ghost seen: seq<State>)
      requires Valid() && s.threads[0].Idle? && !s.halted
      modifies this
      ensures Valid() && |s.threads| == handlers + 1 && Went(f, 0, p, old(Here()), Here())
      ensures Healthy(old(turns)) ==> NoErrors(p)
      ensures forall st | st in seen :: Visited(f, handlers, trace, |old(trace)|, st)
      ensures s.halted || (turns == [] && s.threads[0].Idle?)
      ensures s.halted || (Rounds(p, 0, WithTokens(seen)) && |old(turns)| <= |seen| + 8 * WithTokens(seen))
      ensures Solo(old(Here()), 0) && |old(turns)| > 9 * Measure(f, old(s)) ==> s.halted || s.tokens == []
    {
      hide Server.Valid, Went, Undisturbed, Own, Holds, ConnOf, Unlocked, OfThread, Enabled, Apply, NextPc, Queue, Mover, Moves, Sending, Remaining, Left, Inv, Sent, Measure, Relays, Visited, Solo, Round, Fires;
      Known(0);
      ghost var a := Here();
      p, seen := [], [];
      NotYet(f, 0, a);
      while !s.halted && turns != []
        invariant Valid() && |s.threads| == handlers + 1 && Went(f, 0, p, a, Here()) && |a.trace| <= |trace|
        invariant Healthy(a.turns) ==> NoErrors(p)
        invariant forall st | st in seen :: Visited(f, handlers, trace, |a.trace|, st)
        invariant s.halted || (s.threads[0].Idle? && Rounds(p, 0, WithTokens(seen)))
        invariant s.halted || |a.turns| <= |turns| + |seen| + 8 * WithTokens(seen)
        invariant Solo(a, 0) ==> s.halted || s.tokens == [] || |a.turns| <= |turns| + 9 * |p|
        decreases |turns|
      {
        ghost var b := Here();
        var turn := Others(0);
        SamePlace(b.s, s, 0);
        ghost var c := Here();
        WentOn(f, handlers, 0, p, [], a, b, c, seen);
        assert p + [] == p;
        SilentTurn(f, 0, p, a, b);
        if s.halted { return; }
        NowVisited(|a.trace|);
        ghost var before := seen;
        seen := seen + [s];
        OneMoreSeen(before, s);
        if s.tokens != [] {
          ghost var q := RelayOne();
          HealthStays(f, 0, p, a, c);
          WentOn(f, handlers, 0, p, q, a, c, Here(), seen);
          if !s.halted { OneMore(p, q, 0, WithTokens(before)); }
          p := p + q;
        }
      }
      ByMeasure(f, 0, p, a, Here());
    }
  }
}
