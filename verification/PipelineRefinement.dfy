/** The response stage hides its queues, tokens and shortcut: seen from outside,
    each connection has a bag of unfinished responses, and a step sends some
    bytes of one of them. */
module PipelineRefinement {
  import opened Bytes
  import opened Response
  import opened Pipeline
  import opened PipelineInv
  import opened PipelineFraming

  datatype Unfinished = Unfinished(conn: nat, rest: seq<byte>)

  /** The specification: unfinished responses by ticket, and what was sent. */
  datatype Spec = Spec(bag: map<nat, Unfinished>, out: seq<Chunk>)

  datatype Act =
    | Silent
    | Submit(t: nat, conn: nat, frame: seq<byte>)  // a whole response enters the bag
    | Advance(t: nat, k: nat)                      // k bytes of it are sent; it leaves with the last
    | Break(t: nat, k: nat)                        // it is given up, after k more bytes
    | Drop(t: nat)

  predicate May(a: Spec, act: Act) {
    match act
    case Silent => true
    case Submit(t, _, frame) => t !in a.bag && frame != []
    case Advance(t, k) => t in a.bag && 0 < k <= |a.bag[t].rest|
    case Break(t, k) => t in a.bag && k <= |a.bag[t].rest|
    case Drop(t) => t in a.bag
  }

  function Do(a: Spec, act: Act): Spec
    requires May(a, act)
  {
    match act
    case Silent => a
    case Submit(t, c, frame) => a.(bag := a.bag[t := Unfinished(c, frame)])
    case Advance(t, k) =>
      var u := a.bag[t];
      Spec(if k == |u.rest| then a.bag - {t} else a.bag[t := u.(rest := u.rest[k..])],
           a.out + [Chunk(u.conn, t, u.rest[..k])])
    case Break(t, k) =>
      var u := a.bag[t];
      Spec(a.bag - {t}, a.out + [Chunk(u.conn, t, u.rest[..k])])
    case Drop(t) => a.(bag := a.bag - {t})
  }

  /** What the pipeline's state means to the specification. */
  function Abs(s: State): Spec {
    Spec(map t: nat | t < |s.calls| && InResponse(s, t) :: Unfinished(s.calls[t].conn, Remaining(s.calls[t])), s.log)
  }

  /** What a step means to the specification: only executing a call and writing,
      by whichever thread, mean anything at all. */
  function ActOf(f: Program, s: State, l: Label): Act
    requires Enabled(s, l)
  {
    var pc := s.threads[Mover(l)];
    match l
    case Execute(_) => Submit(pc.t, s.calls[pc.t].conn, Frame(s.calls[pc.t].id, f(s.calls[pc.t].request)))
    case Write(_, n) => Advance(pc.t, |Sending(s.calls[pc.t], n)|)
    case WriteError(_, n) => Break(pc.t, n)
    case RequeueFull(_) => Drop(pc.t)
    case _ => Silent
  }

  lemma BagStep(f: Program, s: State, l: Label, t: nat)
    requires Inv(f, s) && Enabled(s, l)
    ensures InResponse(Apply(f, s, l), t) <==>
              if l.Execute? && s.threads[l.i].t == t then true
              else if l.Write? && s.threads[l.i].t == t then l.n < Left(s.calls[t])
              else if (l.WriteError? || l.RequeueFull?) && s.threads[l.i].t == t then false
              else InResponse(s, t)
    ensures t < |s.calls| && (l.Execute? || l.Write? || l.WriteError? || l.RequeueFull?) && s.threads[l.i].t == t ==>
              (InResponse(s, t) <==> !l.Execute?)
  {
    hide Apply, Sending, Remaining, Queue, Left, Balanced, Counted, SoundCalls;
    LengthStep(f, s, l);
    ListsStep(f, s, l);
    var pc := s.threads[Mover(l)];
    assert SoundThread(s, pc);
    if t < |s.calls| { CallsStep(f, s, l, t); }
    if l.Read? { NewCall(f, s, l); }
    if l.Execute? || l.Write? || l.WriteError? || l.RequeueFull? { Sole(s, l.i, pc.t); }
    assert forall u | u in s.done || u in s.failed :: Ready(s, u);
  }

  lemma RemainingStep(f: Program, s: State, l: Label, t: nat)
    requires Inv(f, s) && Enabled(s, l) && InResponse(Apply(f, s, l), t)
    ensures
      var s' := Apply(f, s, l);
      if l.Execute? && s.threads[l.i].t == t then
        t < |s.calls| && Remaining(s'.calls[t]) == Frame(s.calls[t].id, f(s.calls[t].request)) && s'.calls[t].conn == s.calls[t].conn
      else if l.Write? && s.threads[l.i].t == t then
        && t < |s.calls| && s'.calls[t].conn == s.calls[t].conn
        && Sending(s.calls[t], l.n) + Remaining(s'.calls[t]) == Remaining(s.calls[t])
      else t < |s.calls| && s'.calls[t] == s.calls[t]
  {
    hide Apply, Sending, Remaining, Queue, Balanced, Counted, Frame, Header;
    LengthStep(f, s, l);
    BagStep(f, s, l, t);
    if l.Read? { NewCall(f, s, l); }
    assert t < |s.calls|;
    assert SoundCall(f, s, t);
    CallsStep(f, s, l, t);
    if (l.Execute? || l.Write?) && s.threads[l.i].t == t {
      assert SoundThread(s, s.threads[l.i]);
      if l.Write? {
        SendingSplits(s.calls[t], l.n);
      } else {
        RemainingAtStart(Apply(f, s, l).calls[t]);
      }
    }
  }

  lemma SendingWhole(f: Program, s: State, l: Label)
    requires Inv(f, s) && Enabled(s, l) && l.Write?
    ensures
      var call := s.calls[s.threads[l.i].t];
      && call.value.Some? && call.pos <= |call.value.value|
      && Sending(call, l.n) == Remaining(call)[..|Sending(call, l.n)|]
      && 0 < |Sending(call, l.n)| <= |Remaining(call)|
      && (l.n == Left(call) <==> |Sending(call, l.n)| == |Remaining(call)|)
  {
    var t := s.threads[l.i].t;
    assert SoundThread(s, s.threads[l.i]) && SoundCall(f, s, t);
    hide Inv, Header;
    SendingSplits(s.calls[t], l.n);
  }

  lemma Allowed(f: Program, s: State, l: Label)
    requires Inv(f, s) && Enabled(s, l)
    ensures May(Abs(s), ActOf(f, s, l))
  {
    hide Apply, Sending, Remaining, Queue, Left, Inv, Unlocked;
    var pc := s.threads[Mover(l)];
    if l.Execute? || l.Write? || l.WriteError? || l.RequeueFull? {
      BagStep(f, s, l, pc.t);
      if l.Execute? { assert |Frame(s.calls[pc.t].id, f(s.calls[pc.t].request))| >= 12; }
      if l.Write? { SendingWhole(f, s, l); }
      hide Frame;
    }
  }

  /** What a step leaves in the bag, entry by entry. */
  lemma BagAfter(f: Program, s: State, l: Label, t: nat)
    requires Inv(f, s) && Enabled(s, l) && May(Abs(s), ActOf(f, s, l))
    ensures
      var bag := Abs(Apply(f, s, l)).bag;
      var bag' := Do(Abs(s), ActOf(f, s, l)).bag;
      (t in bag <==> t in bag') && (t in bag ==> bag[t] == bag'[t])
  {
    hide Apply, Sending, Remaining, Queue, Left, Inv, Frame, InResponse, Unlocked, Abs;
    if l.Write? { SendingWhole(f, s, l); }
    BagStep(f, s, l, t);
    if InResponse(Apply(f, s, l), t) { RemainingStep(f, s, l, t); }
    AbsAt(s, t);
    AbsAt(Apply(f, s, l), t);
    hide Enabled, Holds, ConnOf;
  }

  lemma AbsAt(s: State, t: nat)
    ensures t in Abs(s).bag <==> InResponse(s, t)
    ensures InResponse(s, t) ==> Abs(s).bag[t] == Unfinished(s.calls[t].conn, Remaining(s.calls[t]))
  {
    hide Remaining;
  }

  lemma OutAfter(f: Program, s: State, l: Label)
    requires Inv(f, s) && Enabled(s, l) && May(Abs(s), ActOf(f, s, l))
    ensures Abs(Apply(f, s, l)).out == Do(Abs(s), ActOf(f, s, l)).out
  {
    hide Apply, Sending, Remaining, Queue, Left, Inv, Frame;
    if l.Write? { SendingWhole(f, s, l); }
    LogStep(f, s, l);
    if l.Write? || l.WriteError? { AbsAt(s, s.threads[l.i].t); }
    assert Abs(Apply(f, s, l)).out == Apply(f, s, l).log && Abs(s).out == s.log;
    hide Abs;
  }

  /** Every step of every thread, on the direct path and on the token path, is a
      step of the specification. */
  lemma Refines(f: Program, s: State, l: Label)
    requires Inv(f, s) && Enabled(s, l)
    ensures May(Abs(s), ActOf(f, s, l))
    ensures Abs(Apply(f, s, l)) == Do(Abs(s), ActOf(f, s, l))
  {
    Allowed(f, s, l);
    OutAfter(f, s, l);
    hide Abs, Do, Apply, ActOf, Inv, Enabled, May;
    var a, a' := Abs(Apply(f, s, l)), Do(Abs(s), ActOf(f, s, l));
    forall t: nat ensures (t in a.bag <==> t in a'.bag) && (t in a.bag ==> a.bag[t] == a'.bag[t]) {
      BagAfter(f, s, l, t);
    }
    assert a.bag == a'.bag;
  }

  predicate MayAll(a: Spec, acts: seq<Act>)
    decreases |acts|
  {
    acts == [] || (May(a, acts[0]) && MayAll(Do(a, acts[0]), acts[1..]))
  }

  function DoAll(a: Spec, acts: seq<Act>): Spec
    requires MayAll(a, acts)
    decreases |acts|
  {
    if acts == [] then a else DoAll(Do(a, acts[0]), acts[1..])
  }

  function Acts(f: Program, s: State, ls: seq<Label>): seq<Act>
    requires Run(f, s, ls)
    decreases |ls|
  {
    if ls == [] then [] else [ActOf(f, s, ls[0])] + Acts(f, Apply(f, s, ls[0]), ls[1..])
  }

  lemma {:induction false} RunRefines(f: Program, s: State, ls: seq<Label>)
    requires Inv(f, s) && Run(f, s, ls)
    ensures MayAll(Abs(s), Acts(f, s, ls)) && DoAll(Abs(s), Acts(f, s, ls)) == Abs(After(f, s, ls))
    decreases |ls|
  {
    hide Inv, Abs, Do, May, Apply, Enabled, ActOf;
    if ls != [] {
      var s' := Apply(f, s, ls[0]);
      Refines(f, s, ls[0]);
      InvStep(f, s, ls[0]);
      RunRefines(f, s', ls[1..]);
      assert Acts(f, s, ls)[1..] == Acts(f, s', ls[1..]);
    }
  }

  /** Shortcut refinement: whatever the pipeline does, from start to end, is a
      behaviour of the specification that began with an empty bag. */
  lemma PipelineRefinesBag(f: Program, handlers: nat, ls: seq<Label>)
    requires Run(f, Init(handlers), ls)
    ensures
      var acts := Acts(f, Init(handlers), ls);
      MayAll(Spec(map[], []), acts) && DoAll(Spec(map[], []), acts) == Abs(After(f, Init(handlers), ls))
  {
    InvInit(f, handlers);
    assert Abs(Init(handlers)) == Spec(map[], []);
    RunRefines(f, Init(handlers), ls);
  }
}
