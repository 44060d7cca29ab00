/** The order in which the pipeline's queues are served. What a run does to a queue is
    read off its labels and the tickets threads hold before and after them; it is a
    history of a `BlockQueue`, with pushes at the ends the program asks for. */
module PipelineOrder {
  import opened Pipeline
  import opened BlockQueues
  import PipelineInv

  /** The ticket or connection a thread has at hand. */
  function InHand(s: State, i: nat): nat {
    if i >= |s.threads| then 0
    else
      match s.threads[i]
      case Took(t) => t case Answered(t) => t case Writing(t) => t case Requeueing(t) => t
      case Pushed(c) => c case Posting(c) => c case Looking(c) => c case Serving(c) => c case Requeued(c) => c
      case Idle => 0
  }

  function ConnectionOf(s: State, t: nat): nat { if t < |s.calls| then s.calls[t].conn else 0 }

  /** The events of one step, at the response queue of connection `c`. */
  function ResponseEvent(s: State, l: Label, s': State, c: nat): seq<Event<nat>> {
    match l
    case PushResponse(i) => if ConnectionOf(s, InHand(s, i)) == c then [Event.Pushed(InHand(s, i), true)] else []
    case Requeue(i) => if ConnectionOf(s, InHand(s, i)) == c then [Event.Pushed(InHand(s, i), true)] else []
    case Pop(i) => if InHand(s, i) == c then [Popped(InHand(s', i))] else []
    case _ => []
  }

  /** At the call queue: a reader's call gets the next ticket. */
  function CallEvent(s: State, l: Label, s': State): seq<Event<nat>> {
    match l
    case Read(_, _, _) => [Event.Pushed(|s.calls|, true)]
    case Take(i) => [Popped(InHand(s', i))]
    case _ => []
  }

  /** At `_bq_respond`: new tokens at the back, those of partly sent responses in front. */
  function TokenEvent(s: State, l: Label, s': State): seq<Event<nat>> {
    match l
    case Post(i) => [Event.Pushed(InHand(s, i), true)]
    case Repost(i) => [Event.Pushed(InHand(s, i), false)]
    case TakeToken => [Popped(InHand(s', 0))]
    case _ => []
  }

  function ResponseEvents(f: Program, s: State, ls: seq<Label>, c: nat): seq<Event<nat>>
    requires Run(f, s, ls)
    decreases |ls|
  {
    if ls == [] then []
    else var s' := Apply(f, s, ls[0]); ResponseEvent(s, ls[0], s', c) + ResponseEvents(f, s', ls[1..], c)
  }

  function CallEvents(f: Program, s: State, ls: seq<Label>): seq<Event<nat>>
    requires Run(f, s, ls)
    decreases |ls|
  {
    if ls == [] then []
    else var s' := Apply(f, s, ls[0]); CallEvent(s, ls[0], s') + CallEvents(f, s', ls[1..])
  }

  function TokenEvents(f: Program, s: State, ls: seq<Label>): seq<Event<nat>>
    requires Run(f, s, ls)
    decreases |ls|
  {
    if ls == [] then []
    else var s' := Apply(f, s, ls[0]); TokenEvent(s, ls[0], s') + TokenEvents(f, s', ls[1..])
  }

  /** A step's events lead from one queue to the other. */
  predicate Leads(q: seq<nat>, es: seq<Event<nat>>, q': seq<nat>) {
    History(q, CAPACITY, es) && Contents(q, es) == q'
  }

  lemma Step(q: seq<nat>, e: Event<nat>, q': seq<nat>)
    requires May(q, CAPACITY, e) && Do(q, e) == q'
    ensures Leads(q, [e], q')
  {
    assert [e][1..] == [];
  }

  lemma Then(q: seq<nat>, es: seq<Event<nat>>, q1: seq<nat>, fs: seq<Event<nat>>, q2: seq<nat>)
    requires Leads(q, es, q1) && Leads(q1, fs, q2)
    ensures Leads(q, es + fs, q2)
  {
    Joined(q, CAPACITY, es, fs);
  }

  lemma ResponseStep(f: Program, s: State, l: Label, c: nat)
    requires Enabled(s, l)
    ensures Leads(Queue(s, c), ResponseEvent(s, l, Apply(f, s, l), c), Queue(Apply(f, s, l), c))
  {
    var s' := Apply(f, s, l);
    var q, q' := Queue(s, c), Queue(s', c);
    var es := ResponseEvent(s, l, s', c);
    hide Sending, Remaining, Left, Unlocked;
    if es != [] {
      assert May(q, CAPACITY, es[0]) && Do(q, es[0]) == q';
      Step(q, es[0], q');
    } else {
      assert q' == q;
    }
  }

  lemma CallStep(f: Program, s: State, l: Label)
    requires Enabled(s, l)
    ensures Leads(s.callQ, CallEvent(s, l, Apply(f, s, l)), Apply(f, s, l).callQ)
  {
    hide Sending, Remaining, Left, Unlocked, Queue;
    var es := CallEvent(s, l, Apply(f, s, l));
    if es != [] { Step(s.callQ, es[0], Apply(f, s, l).callQ); }
  }

  lemma TokenStep(f: Program, s: State, l: Label)
    requires Enabled(s, l)
    ensures Leads(s.tokens, TokenEvent(s, l, Apply(f, s, l)), Apply(f, s, l).tokens)
  {
    hide Sending, Remaining, Left, Unlocked, Queue;
    var es := TokenEvent(s, l, Apply(f, s, l));
    if es != [] { Step(s.tokens, es[0], Apply(f, s, l).tokens); }
  }

  /** Every queue of the pipeline is a `BlockQueue`, whatever the interleaving. */
  lemma {:induction false} QueuesAreBlockQueues(f: Program, s: State, ls: seq<Label>, c: nat)
    requires Run(f, s, ls)
    ensures Leads(Queue(s, c), ResponseEvents(f, s, ls, c), Queue(After(f, s, ls), c))
    ensures Leads(s.callQ, CallEvents(f, s, ls), After(f, s, ls).callQ)
    ensures Leads(s.tokens, TokenEvents(f, s, ls), After(f, s, ls).tokens)
    decreases |ls|
  {
    if ls != [] {
      var l, s' := ls[0], Apply(f, s, ls[0]);
      ResponseStep(f, s, l, c);
      CallStep(f, s, l);
      TokenStep(f, s, l);
      hide Apply, Enabled, Queue, Leads, ResponseEvent, CallEvent, TokenEvent;
      QueuesAreBlockQueues(f, s', ls[1..], c);
      Then(Queue(s, c), ResponseEvent(s, l, s', c), Queue(s', c), ResponseEvents(f, s', ls[1..], c), Queue(After(f, s, ls), c));
      Then(s.callQ, CallEvent(s, l, s'), s'.callQ, CallEvents(f, s', ls[1..]), After(f, s, ls).callQ);
      Then(s.tokens, TokenEvent(s, l, s'), s'.tokens, TokenEvents(f, s', ls[1..]), After(f, s, ls).tokens);
    }
  }

  // ----- First come, first served -----

  lemma {:induction false} ResponsesAtTheBack(f: Program, s: State, ls: seq<Label>, c: nat)
    requires Run(f, s, ls)
    ensures forall e | e in ResponseEvents(f, s, ls, c) && e.Pushed? :: e.back
    decreases |ls|
  {
    hide Enabled, Apply, InHand, ConnectionOf;
    if ls != [] { ResponsesAtTheBack(f, Apply(f, s, ls[0]), ls[1..], c); }
  }

  /** On every connection and from every state on, responses are popped in the order
      in which they were pushed or, cut short by a partial write, put back. */
  lemma ResponsesInOrder(f: Program, s: State, ls: seq<Label>, c: nat)
    requires Run(f, s, ls)
    ensures
      var es := ResponseEvents(f, s, ls, c);
      Queue(s, c) + PushedIn(es) == PoppedIn(es) + Queue(After(f, s, ls), c)
  {
    QueuesAreBlockQueues(f, s, ls, c);
    ResponsesAtTheBack(f, s, ls, c);
    hide Run, After, Queue, ResponseEvents;
    FirstInFirstOut(Queue(s, c), CAPACITY, ResponseEvents(f, s, ls, c));
  }

  /** A call cut short goes behind those already waiting: of its connection's next
      pops the first are theirs, in order, and then comes its own. */
  lemma CutCallWaitsItsTurn(f: Program, s: State, i: nat, ls: seq<Label>)
    requires Enabled(s, Requeue(i)) && Run(f, Apply(f, s, Requeue(i)), ls)
    ensures
      var c := ConnectionOf(s, InHand(s, i));
      var waiting := Queue(s, c);
      var popped := PoppedIn(ResponseEvents(f, Apply(f, s, Requeue(i)), ls, c));
      && (|popped| <= |waiting| ==> popped <= waiting)
      && (|popped| > |waiting| ==> popped[..|waiting|] == waiting && popped[|waiting|] == InHand(s, i))
  {
    var t := InHand(s, i);
    var c := ConnectionOf(s, t);
    var s' := Apply(f, s, Requeue(i));
    PutBackLast(f, s, i);
    hide Enabled, Apply, Queue, InHand, ConnectionOf;
    ResponsesInOrder(f, s', ls, c);
    hide Run, After, ResponseEvents;
    var es := ResponseEvents(f, s', ls, c);
    InFront(Queue(s, c), t, PushedIn(es), PoppedIn(es), Queue(After(f, s', ls), c));
  }

  lemma PutBackLast(f: Program, s: State, i: nat)
    requires Enabled(s, Requeue(i))
    ensures
      var c := ConnectionOf(s, InHand(s, i));
      Queue(Apply(f, s, Requeue(i)), c) == Queue(s, c) + [InHand(s, i)]
  {
    var t := InHand(s, i);
    var c := ConnectionOf(s, t);
    ResponseStep(f, s, Requeue(i), c);
    var e: Event<nat> := Event.Pushed(t, true);
    assert [e][1..] == [];
  }

  lemma InFront(q: seq<nat>, t: nat, pushed: seq<nat>, popped: seq<nat>, rest: seq<nat>)
    requires q + [t] + pushed == popped + rest
    ensures |popped| <= |q| ==> popped <= q
    ensures |popped| > |q| ==> popped[..|q|] == q && popped[|q|] == t
  {
    var all := q + [t] + pushed;
    assert popped == all[..|popped|];
    if |popped| <= |q| {
      assert all[..|popped|] == q[..|popped|];
    } else {
      assert popped[..|q|] == all[..|q|] == q && popped[|q|] == all[|q|];
    }
  }

  /** Calls are executed in the order in which they were read: the tickets taken so
      far, and those still waiting, are 0, 1, 2 and so on. */
  lemma CallsInOrder(f: Program, handlers: nat, ls: seq<Label>)
    requires Run(f, Init(handlers), ls)
    ensures
      var s := After(f, Init(handlers), ls);
      PoppedIn(CallEvents(f, Init(handlers), ls)) + s.callQ == Numbers(0, |s.calls|)
  {
    QueuesAreBlockQueues(f, Init(handlers), ls, 0);
    ReadsNumbered(f, Init(handlers), ls);
    hide Run, After, CallEvents;
    FirstInFirstOut(Init(handlers).callQ, CAPACITY, CallEvents(f, Init(handlers), ls));
    assert [] + Numbers(0, |After(f, Init(handlers), ls).calls|) == Numbers(0, |After(f, Init(handlers), ls).calls|);
  }

  function Numbers(from: nat, to: nat): (r: seq<nat>)
    decreases to - from
  {
    if from >= to then [] else [from] + Numbers(from + 1, to)
  }

  lemma {:induction false} ReadsNumbered(f: Program, s: State, ls: seq<Label>)
    requires Run(f, s, ls)
    ensures |s.calls| <= |After(f, s, ls).calls|
    ensures PushedIn(CallEvents(f, s, ls)) == Numbers(|s.calls|, |After(f, s, ls).calls|)
    ensures forall e | e in CallEvents(f, s, ls) && e.Pushed? :: e.back
    decreases |ls|
  {
    if ls != [] {
      var s' := Apply(f, s, ls[0]);
      PipelineInv.LengthStep(f, s, ls[0]);
      hide Enabled, Apply, InHand;
      ReadsNumbered(f, s', ls[1..]);
      var es := CallEvents(f, s', ls[1..]);
      var ev := CallEvent(s, ls[0], s');
      assert CallEvents(f, s, ls) == ev + es;
      if ev == [] {
        assert ev + es == es;
      } else {
        assert (ev + es)[1..] == es && (ev + es)[0] == ev[0];
        if ls[0].Take? { assert PushedIn(ev + es) == PushedIn(es); }
      }
    }
  }

  // ----- Tokens -----

  /** Until a response is cut short, tokens are taken in the order they were posted. */
  lemma TokensInOrder(f: Program, s: State, ls: seq<Label>)
    requires Run(f, s, ls) && forall l | l in ls :: !l.Repost?
    ensures
      var es := TokenEvents(f, s, ls);
      s.tokens + PushedIn(es) == PoppedIn(es) + After(f, s, ls).tokens
  {
    QueuesAreBlockQueues(f, s, ls, 0);
    TokensAtTheBack(f, s, ls);
    hide Run, After, TokenEvents;
    FirstInFirstOut(s.tokens, CAPACITY, TokenEvents(f, s, ls));
  }

  lemma {:induction false} TokensAtTheBack(f: Program, s: State, ls: seq<Label>)
    requires Run(f, s, ls) && forall l | l in ls :: !l.Repost?
    ensures forall e | e in TokenEvents(f, s, ls) && e.Pushed? :: e.back
    decreases |ls|
  {
    hide Enabled, Apply, InHand;
    if ls != [] { TokensAtTheBack(f, Apply(f, s, ls[0]), ls[1..]); }
  }

  lemma {:induction false} FirstTokenStays(f: Program, s: State, ls: seq<Label>)
    requires Run(f, s, ls) && s.tokens != [] && forall l | l in ls :: !l.Repost? && !l.TakeToken?
    ensures After(f, s, ls).tokens != [] && After(f, s, ls).tokens[0] == s.tokens[0]
    decreases |ls|
  {
    if ls != [] {
      TokenStep(f, s, ls[0]);
      hide Apply, Enabled, InHand;
      FirstTokenStays(f, Apply(f, s, ls[0]), ls[1..]);
    }
  }

  /** The connection of a response cut short is the next the responder turns to,
      whatever is posted meanwhile. */
  lemma CutConnectionIsNext(f: Program, s: State, i: nat, ls: seq<Label>)
    requires Enabled(s, Repost(i)) && Run(f, Apply(f, s, Repost(i)), ls)
    requires forall l | l in ls :: !l.Repost? && !l.TakeToken?
    requires Enabled(After(f, Apply(f, s, Repost(i)), ls), TakeToken)
    ensures
      var s' := After(f, Apply(f, s, Repost(i)), ls);
      0 < |Apply(f, s', TakeToken).threads| && Apply(f, s', TakeToken).threads[0] == Looking(InHand(s, i))
  {
    TokenStep(f, s, Repost(i));
    FirstTokenStays(f, Apply(f, s, Repost(i)), ls);
  }
}
