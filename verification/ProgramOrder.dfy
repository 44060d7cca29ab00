/** The steps one thread takes in a run of the pipeline come in the order of its
    program: whole rounds of its loop, and then the beginning of one more. */
module ProgramOrder {
  import opened Pipeline
  import opened PipelineInv

  predicate Moves(l: Label, i: nat) {
    !l.Open? && !l.Close? && !l.Read? && !l.CallQueueFull? && Mover(l) == i
  }

  /** The steps of one thread. */
  function Own(ls: seq<Label>, i: nat): seq<Label> {
    if ls == [] then []
    else
      var l := ls[|ls| - 1];
      Own(ls[..|ls| - 1], i) + if Moves(l, i) then [l] else []
  }

  lemma OwnAppend(ls: seq<Label>, l: Label, i: nat)
    ensures Own(ls + [l], i) == Own(ls, i) + if Moves(l, i) then [l] else []
  {
    assert (ls + [l])[..|ls|] == ls;
  }

  // ----- The orders in which a thread takes its steps -----

  /** `Responder::processResponse`. */
  predicate Serves(p: seq<Label>, i: nat): (r: bool)
    ensures r ==> |p| >= 2
  {
    && |p| >= 2 && p[0] == Pop(i)
    && ((p[1].WriteError? && p[1].i == i && |p| == 2)
        || (p[1].Write? && p[1].i == i
            && (|p| == 2 || p[2..] == [RequeueFull(i)] || p[2..] == [Requeue(i), Repost(i)])))
  }

  /** `Responder::doRespond`. */
  predicate Answers(p: seq<Label>, i: nat) {
    && |p| >= 3 && p[0] == PushResponse(i) && p[1] == CheckSize(i)
    && (p[2..] == [Post(i)] || Serves(p[2..], i))
  }

  /** One round of `Handler::handle`. */
  predicate Handles(p: seq<Label>, i: nat) {
    |p| >= 2 && p[0] == Take(i) && p[1] == Execute(i) && Answers(p[2..], i)
  }

  /** One round of `Responder::respond`. */
  predicate Relays(p: seq<Label>) {
    |p| >= 2 && p[0] == TakeToken && p[1] == Lookup && Serves(p[2..], 0)
  }

  predicate Round(p: seq<Label>, i: nat) { if i == 0 then Relays(p) else Handles(p, i) }

  /** `n` rounds, one after the other. */
  ghost predicate Rounds(p: seq<Label>, i: nat, n: nat) {
    if n == 0 then p == [] else exists k | 0 <= k < |p| :: Rounds(p[..k], i, n - 1) && Round(p[k..], i)
  }

  lemma OneMore(p: seq<Label>, q: seq<Label>, i: nat, n: nat)
    requires Rounds(p, i, n) && Round(q, i)
    ensures Rounds(p + q, i, n + 1)
  {
    assert (p + q)[..|p|] == p && (p + q)[|p|..] == q;
  }

  // ----- In every run -----

  function Head(i: nat): seq<Label> {
    if i == 0 then [TakeToken, Lookup] else [Take(i), Execute(i), PushResponse(i), CheckSize(i)]
  }

  /** What a thread has done of its current round, by where it is. */
  predicate AtPc(pc: Pc, r: seq<Label>, i: nat) {
    var h := Head(i);
    match pc
    case Idle => r == []
    case Took(_) => i > 0 && r == [Take(i)]
    case Answered(_) => i > 0 && r == [Take(i), Execute(i)]
    case Pushed(_) => i > 0 && r == [Take(i), Execute(i), PushResponse(i)]
    case Posting(_) => i > 0 && r == h
    case Looking(_) => i == 0 && r == [TakeToken]
    case Serving(_) => r == h
    case Writing(_) => r == h + [Pop(i)]
    case Requeueing(_) => |r| == |h| + 2 && r == h + [Pop(i), r[|h| + 1]] && PartOf(r[|h| + 1], i)
    case Requeued(_) => |r| == |h| + 3 && r == h + [Pop(i), r[|h| + 1], Requeue(i)] && PartOf(r[|h| + 1], i)
  }

  predicate PartOf(l: Label, i: nat) { l.Write? && l.i == i }

  /** The steps of a thread that end in `std::abort` instead of the next one of its program. */
  predicate Aborts(l: Label) { l.ResponseQueueFull? || l.TokenQueueFull? }

  /** The beginning of a round, or one that an abort cut short. */
  ghost predicate Begun(r: seq<Label>, i: nat) {
    exists p :: Round(p, i) && (r <= p || (r != [] && Aborts(r[|r| - 1]) && r[..|r| - 1] <= p))
  }

  /** How a round can go on after its head. */
  function Tail(pc: Pc, r: seq<Label>, i: nat): (tail: seq<Label>)
    requires AtPc(pc, r, i)
    ensures Serves(tail, i) || (i > 0 && tail == [Post(i)])
  {
    var h := Head(i);
    if pc.Requeueing? then [Pop(i), r[|h| + 1]]
    else if pc.Requeued? then [Pop(i), r[|h| + 1], Requeue(i), Repost(i)]
    else if i > 0 && !pc.Serving? && !pc.Writing? then [Post(i)]
    else [Pop(i), Write(i, 0)]
  }

  lemma OnTheWay(pc: Pc, r: seq<Label>, i: nat)
    requires AtPc(pc, r, i)
    ensures r <= Head(i) + Tail(pc, r, i)
  {
  }

  lemma AtPcBegun(pc: Pc, r: seq<Label>, i: nat)
    requires AtPc(pc, r, i)
    ensures Begun(r, i) && forall l | Aborts(l) :: Begun(r + [l], i)
  {
    var whole := Head(i) + Tail(pc, r, i);
    OnTheWay(pc, r, i);
    assert whole[..|Head(i)|] == Head(i) && whole[|Head(i)|..] == Tail(pc, r, i);
    hide AtPc, Tail, Serves, Round, Head;
    Whole(whole, i);
    forall l | Aborts(l) ensures Begun(r + [l], i) {
      assert (r + [l])[..|r|] == r;
    }
  }

  /** A head, and what `processResponse` does, or a token. */
  lemma Whole(p: seq<Label>, i: nat)
    requires |p| >= |Head(i)| && p[..|Head(i)|] == Head(i)
    requires Serves(p[|Head(i)|..], i) || (i > 0 && p[|Head(i)|..] == [Post(i)])
    ensures Round(p, i)
  {
    hide Serves;
    var h := Head(i);
    assert forall k | 0 <= k < |h| :: p[k] == h[k];
    if i > 0 { assert p[2..][2..] == p[4..]; }
  }

  /** A label that ends a round. */
  lemma RoundEnds(pc: Pc, r: seq<Label>, l: Label, i: nat)
    requires AtPc(pc, r, i) && Moves(l, i)
    requires match pc
             case Posting(_) => l.Post?
             case Writing(_) => l.Write? || l.WriteError?
             case Requeueing(_) => l.RequeueFull?
             case Requeued(_) => l.Repost?
             case _ => false
    ensures Round(r + [l], i)
  {
    var h := Head(i);
    var p := r + [l];
    assert p[|h|..] == r[|h|..] + [l];
    Whole(p, i);
  }

  /** A step of the thread's own: it goes on with its round, ends it, or aborts. */
  lemma OrderStep(f: Program, s: State, l: Label, r: seq<Label>, i: nat)
    requires Inv(f, s) && Enabled(s, l) && i < |s.threads| && AtPc(s.threads[i], r, i) && Moves(l, i)
    ensures
      var pc' := NextPc(s, l);
      || AtPc(pc', r + [l], i)
      || (pc'.Idle? && Round(r + [l], i))
      || (Apply(f, s, l).halted && Begun(r + [l], i))
  {
    var pc := s.threads[i];
    if l.PopEmpty? { NeverEmpty(s, i); }
    assert Roles(s);
    hide Inv, Apply, Queue, Left, Sending, Remaining, Unlocked, Round, Begun;
    if l.ResponseQueueFull? || l.TokenQueueFull? {
      AtPcBegun(pc, r, i);
      Fails(f, s, l);
    } else if l.Post? || l.Repost? || l.WriteError? || l.RequeueFull? || (l.Write? && NextPc(s, l).Idle?) {
      RoundEnds(pc, r, l, i);
    } else if l.Lookup? && NextPc(s, l) == pc {
      Fails(f, s, l);
      AtPcBegun(Serving(pc.c), r + [l], i);
    }
  }

  lemma Fails(f: Program, s: State, l: Label)
    requires Enabled(s, l)
    requires l.ResponseQueueFull? || l.TokenQueueFull? || (l.Lookup? && !NextPc(s, l).Serving?)
    ensures Apply(f, s, l).halted
  {
  }

  lemma OrderElsewhere(s: State, l: Label, i: nat)
    requires Enabled(s, l) && i < |s.threads| && !Moves(l, i)
    ensures s.threads[Mover(l) := NextPc(s, l)][i] == s.threads[i]
  {
  }

  /** For any number of handlers, any interleaving and every thread: its own steps
      are whole rounds of its loop and then the beginning of one. Where it is says
      how far that one has come; an idle thread has done whole rounds only. */
  lemma {:induction false} InProgramOrder(f: Program, handlers: nat, ls: seq<Label>, i: nat) returns (q: seq<Label>, n: nat, r: seq<Label>)
    requires Run(f, Init(handlers), ls) && i <= handlers
    ensures Own(ls, i) == q + r && Rounds(q, i, n) && Begun(r, i)
    ensures |After(f, Init(handlers), ls).threads| == handlers + 1
    ensures
      var s := After(f, Init(handlers), ls);
      s.halted || AtPc(s.threads[i], r, i)
    decreases |ls|
  {
    if ls == [] {
      q, n, r := [], 0, [];
      AtPcBegun(Idle, r, i);
    } else {
      var l := ls[|ls| - 1];
      var but := ls[..|ls| - 1];
      Shorten(f, Init(handlers), ls);
      q, n, r := InProgramOrder(f, handlers, but, i);
      var s := After(f, Init(handlers), but);
      InvInit(f, handlers);
      InvRun(f, Init(handlers), but);
      ThreadsStep(f, s, l);
      NotHalted(s, l);
      hide Run, After, Init, Inv, Apply;
      if Moves(l, i) {
        OrderStep(f, s, l, r, i);
        q, n, r := Onward(q, n, r, l, NextPc(s, l), i);
      } else {
        OrderElsewhere(s, l, i);
      }
    }
  }

  lemma NotHalted(s: State, l: Label)
    requires Enabled(s, l)
    ensures !s.halted && Mover(l) < |s.threads|
  {
  }

  /** One more step: a round that is complete joins those before it. */
  lemma Onward(q: seq<Label>, n: nat, r: seq<Label>, l: Label, pc: Pc, i: nat) returns (q': seq<Label>, n': nat, r': seq<Label>)
    requires Rounds(q, i, n) && (AtPc(pc, r + [l], i) || (pc.Idle? && Round(r + [l], i)) || Begun(r + [l], i))
    ensures q + r + [l] == q' + r' && Rounds(q', i, n') && Begun(r', i)
    ensures AtPc(pc, r + [l], i) || (pc.Idle? && Round(r + [l], i)) ==> AtPc(pc, r', i)
  {
    hide AtPc, Round, Rounds, Begun;
    var r1 := r + [l];
    assert q + r + [l] == q + r1;
    if AtPc(pc, r1, i) {
      AtPcBegun(pc, r1, i);
      q', n', r' := q, n, r1;
    } else if pc.Idle? && Round(r1, i) {
      OneMore(q, r1, i, n);
      FreshStart(i);
      q', n', r' := q + r1, n + 1, [];
    } else {
      q', n', r' := q, n, r1;
    }
  }

  lemma FreshStart(i: nat)
    ensures AtPc(Idle, [], i) && Begun([], i)
  {
    AtPcBegun(Idle, [], i);
  }

  // ----- The shortcut -----

  /** The labels a thread can take next after looking at the size. */
  predicate Follows(pc: Pc, l: Label, i: nat) {
    && (pc.Serving? ==> l == Pop(i))
    && (pc.Posting? ==> l == Post(i) || l == TokenQueueFull(i))
  }

  lemma EnabledFollows(s: State, l: Label, i: nat)
    requires Balanced(s) && Enabled(s, l) && i < |s.threads| && Moves(l, i)
    ensures Follows(s.threads[i], l, i)
  {
    if l.PopEmpty? { NeverEmpty(s, i); }
    hide Unlocked, Queue, Left, Remaining;
  }

  lemma {:induction false} FirstOwn(f: Program, s: State, ls: seq<Label>, i: nat)
    requires Inv(f, s) && Run(f, s, ls) && i < |s.threads|
    ensures i < |After(f, s, ls).threads|
    ensures if Own(ls, i) == [] then After(f, s, ls).threads[i] == s.threads[i] else Follows(s.threads[i], Own(ls, i)[0], i)
    decreases |ls|
  {
    if ls != [] {
      var l := ls[|ls| - 1];
      var but := ls[..|ls| - 1];
      Shorten(f, s, ls);
      FirstOwn(f, s, but, i);
      InvRun(f, s, but);
      var s1 := After(f, s, but);
      ThreadsStep(f, s1, l);
      NotHalted(s1, l);
      if Moves(l, i) { EnabledFollows(s1, l, i); } else { OrderElsewhere(s1, l, i); }
      hide Run, After, Apply, Enabled, Moves, NextPc, Follows, Inv;
    }
  }

  /** The shortcut is taken exactly at a size of 1: whatever the others do before
      the handler's next step, it pops the connection's queue if the size it saw
      was 1, and otherwise posts a token. */
  lemma ShortcutExactly(f: Program, handlers: nat, before: seq<Label>, i: nat, after: seq<Label>)
    requires Run(f, Init(handlers), before)
    requires Enabled(After(f, Init(handlers), before), CheckSize(i))
    requires Run(f, Apply(f, After(f, Init(handlers), before), CheckSize(i)), after) && Own(after, i) != []
    ensures
      var s := After(f, Init(handlers), before);
      var next := Own(after, i)[0];
      && (next == Pop(i) <==> |Queue(s, s.threads[i].c)| == 1)
      && (next == Post(i) || next == TokenQueueFull(i) <==> |Queue(s, s.threads[i].c)| != 1)
  {
    var s := After(f, Init(handlers), before);
    var s' := Apply(f, s, CheckSize(i));
    InvInit(f, handlers);
    InvRun(f, Init(handlers), before);
    InvStep(f, s, CheckSize(i));
    assert s'.threads[i] == if |Queue(s, s.threads[i].c)| == 1 then Serving(s.threads[i].c) else Posting(s.threads[i].c);
    hide Run, After, Init, Apply, Queue, Own, Inv;
    FirstOwn(f, s', after, i);
  }
}
