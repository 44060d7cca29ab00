/** The bounded double-ended queue every stage hands its work through. */
module BlockQueues {
  import opened Bytes

  /** What one call of an operation did. */
  datatype Event<+T> =
    | Pushed(x: T, back: bool)
    | PushTimedOut
    | Popped(x: T)
    | PopTimedOut

  /** The events possible in a state, and what they make of it. */
  predicate May<T(==)>(q: seq<T>, capacity: nat, e: Event<T>) {
    match e
    case Pushed(_, _) => |q| < capacity
    case PushTimedOut => |q| >= capacity
    case Popped(x) => q != [] && x == q[0]
    case PopTimedOut => q == []
  }

  function Do<T>(q: seq<T>, e: Event<T>): seq<T> {
    match e
    case Pushed(x, back) => if back then q + [x] else [x] + q
    case Popped(_) => if q == [] then [] else q[1..]
    case _ => q
  }

  /** A history that can have led from `q` on, by any number of threads. */
  predicate History<T(==)>(q: seq<T>, capacity: nat, es: seq<Event<T>>)
    decreases |es|
  {
    es == [] || (May(q, capacity, es[0]) && History(Do(q, es[0]), capacity, es[1..]))
  }

  function Contents<T>(q: seq<T>, es: seq<Event<T>>): seq<T>
    decreases |es|
  {
    if es == [] then q else Contents(Do(q, es[0]), es[1..])
  }

  /** What other threads try while one waits; `Attempt`s become events where they happen. */
  datatype Attempt<+T> = TryingPush(x: T, back: bool) | TryingPop

  function Outcome<T>(q: seq<T>, capacity: nat, a: Attempt<T>): Event<T> {
    match a
    case TryingPush(x, back) => if |q| < capacity then Pushed(x, back) else PushTimedOut
    case TryingPop => if q == [] then PopTimedOut else Popped(q[0])
  }

  function Outcomes<T>(q: seq<T>, capacity: nat, attempts: seq<Attempt<T>>): seq<Event<T>>
    decreases |attempts|
  {
    if attempts == [] then []
    else
      var e := Outcome(q, capacity, attempts[0]);
      [e] + Outcomes(Do(q, e), capacity, attempts[1..])
  }

  lemma {:induction false} OutcomesHappen<T>(q: seq<T>, capacity: nat, attempts: seq<Attempt<T>>)
    ensures History(q, capacity, Outcomes(q, capacity, attempts))
    decreases |attempts|
  {
    if attempts != [] {
      var e := Outcome(q, capacity, attempts[0]);
      OutcomesHappen(Do(q, e), capacity, attempts[1..]);
      assert Outcomes(q, capacity, attempts)[1..] == Outcomes(Do(q, e), capacity, attempts[1..]);
    }
  }

  function In<T>(e: Event<T>): seq<T> {
    if e.Pushed? then [e.x] else []
  }

  function Out<T>(e: Event<T>): seq<T> {
    if e.Popped? then [e.x] else []
  }

  function PushedIn<T>(es: seq<Event<T>>): seq<T> {
    if es == [] then [] else In(es[0]) + PushedIn(es[1..])
  }

  function PoppedIn<T>(es: seq<Event<T>>): seq<T> {
    if es == [] then [] else Out(es[0]) + PoppedIn(es[1..])
  }

  lemma DoKeepsBag<T>(q: seq<T>, capacity: nat, e: Event<T>)
    requires |q| <= capacity && May(q, capacity, e)
    ensures |Do(q, e)| <= capacity
    ensures multiset(q) + multiset(In(e)) == multiset(Out(e)) + multiset(Do(q, e))
  {
    if e.Popped? {
      assert q == [e.x] + Do(q, e);
    }
  }

  /** The queue never holds more than its capacity, and what was pushed is what
      was popped and what is still there. */
  lemma {:induction false} NothingLost<T>(q: seq<T>, capacity: nat, es: seq<Event<T>>)
    requires |q| <= capacity && History(q, capacity, es)
    ensures |Contents(q, es)| <= capacity
    ensures multiset(q) + multiset(PushedIn(es)) == multiset(PoppedIn(es)) + multiset(Contents(q, es))
    decreases |es|
  {
    if es != [] {
      var q' := Do(q, es[0]);
      DoKeepsBag(q, capacity, es[0]);
      NothingLost(q', capacity, es[1..]);
      Sums(multiset(q), multiset(In(es[0])), multiset(Out(es[0])), multiset(q'),
           multiset(PushedIn(es[1..])), multiset(PoppedIn(es[1..])), multiset(Contents(q', es[1..])));
    }
  }

  lemma Sums<T>(q: multiset<T>, i: multiset<T>, o: multiset<T>, q': multiset<T>,
                pushed: multiset<T>, popped: multiset<T>, rest: multiset<T>)
    requires q + i == o + q' && q' + pushed == popped + rest
    ensures q + (i + pushed) == (o + popped) + rest
  {
    assert q + (i + pushed) == (q + i) + pushed == o + (q' + pushed) == (o + popped) + rest;
  }

  /** With pushes at the back only, elements leave in the order they came. */
  lemma {:induction false} FirstInFirstOut<T>(q: seq<T>, capacity: nat, es: seq<Event<T>>)
    requires History(q, capacity, es)
    requires forall i | 0 <= i < |es| && es[i].Pushed? :: es[i].back
    ensures q + PushedIn(es) == PoppedIn(es) + Contents(q, es)
    decreases |es|
  {
    if es == [] {
      assert q + PushedIn(es) == q == PoppedIn(es) + q;
    } else {
      var e, q' := es[0], Do(q, es[0]);
      assert forall i | 0 <= i < |es[1..]| :: es[1..][i] == es[i + 1];
      FirstInFirstOut(q', capacity, es[1..]);
      DoKeepsOrder(q, capacity, e);
      Lines(q, In(e), Out(e), q', PushedIn(es[1..]), PoppedIn(es[1..]), Contents(q', es[1..]));
    }
  }

  lemma DoKeepsOrder<T>(q: seq<T>, capacity: nat, e: Event<T>)
    requires May(q, capacity, e) && (e.Pushed? ==> e.back)
    ensures q + In(e) == Out(e) + Do(q, e)
  {
  }

  lemma Lines<T>(q: seq<T>, i: seq<T>, o: seq<T>, q': seq<T>, pushed: seq<T>, popped: seq<T>, rest: seq<T>)
    requires q + i == o + q' && q' + pushed == popped + rest
    ensures q + (i + pushed) == (o + popped) + rest
  {
    assert q + (i + pushed) == (q + i) + pushed;
    assert (o + q') + pushed == o + (q' + pushed);
    assert o + (popped + rest) == (o + popped) + rest;
  }

  /** What is pushed at the front is the next to be popped, whatever is pushed at
      the back meanwhile. */
  lemma FrontIsNext<T>(q: seq<T>, capacity: nat, x: T, es: seq<Event<T>>, y: T)
    requires History(q, capacity, [Pushed(x, false)] + es + [Popped(y)])
    requires forall i | 0 <= i < |es| :: !es[i].Popped? && (es[i].Pushed? ==> es[i].back)
    ensures y == x
  {
    var all := [Pushed(x, false)] + es + [Popped(y)];
    assert all[1..] == es + [Popped(y)];
    FirstStays([x] + q, capacity, es, y);
  }

  lemma {:induction false} FirstStays<T>(q: seq<T>, capacity: nat, es: seq<Event<T>>, y: T)
    requires q != [] && History(q, capacity, es + [Popped(y)])
    requires forall i | 0 <= i < |es| :: !es[i].Popped? && (es[i].Pushed? ==> es[i].back)
    ensures y == q[0]
    decreases |es|
  {
    if es == [] {
      assert es + [Popped(y)] == [Popped(y)];
    } else {
      assert (es + [Popped(y)])[0] == es[0] && (es + [Popped(y)])[1..] == es[1..] + [Popped(y)];
      FirstStays(Do(q, es[0]), capacity, es[1..], y);
    }
  }

  /** A push at the front and a pop after it leave the queue as it was. */
  lemma FrontAndBack<T>(q: seq<T>, capacity: nat, x: T)
    requires |q| < capacity
    ensures History(q, capacity, [Pushed(x, false), Popped(x)])
    ensures Contents(q, [Pushed(x, false), Popped(x)]) == q
  {
    var es: seq<Event<T>> := [Pushed(x, false), Popped(x)];
    assert es[1..] == [Popped(x)] && es[1..][1..] == [];
    assert ([x] + q)[1..] == q;
    One([x] + q, Popped(x));
    assert Contents(q, es) == Contents([x] + q, es[1..]);
  }

  lemma One<T>(q: seq<T>, e: Event<T>)
    ensures Contents(q, [e]) == Do(q, e)
  {
    assert [e][1..] == [];
  }

  /** The queue after the others' first `k` turns. */
  function Later<T>(q: seq<T>, capacity: nat, others: seq<seq<Attempt<T>>>, k: nat): seq<T>
    requires k <= |others|
  {
    if k == 0 then q
    else
      var q' := Later(q, capacity, others, k - 1);
      Contents(q', Outcomes(q', capacity, others[k - 1]))
  }

  /** One push by another thread ends the wait for an element, one pop that for room. */
  lemma OneIsEnough<T>(q: seq<T>, capacity: nat, x: T, back: bool)
    requires capacity > 0
    ensures Later([], capacity, [[TryingPush(x, back)]], 1) == [x]
    ensures |q| == capacity ==> Later(q, capacity, [[TryingPop]], 1) == q[1..]
  {
    OneTurn([], capacity, TryingPush(x, back));
    OneTurn(q, capacity, TryingPop);
    var none: seq<T> := [];
    assert none + [x] == [x] == [x] + none;
  }

  lemma OneTurn<T>(q: seq<T>, capacity: nat, a: Attempt<T>)
    ensures Later(q, capacity, [[a]], 1) == Do(q, Outcome(q, capacity, a))
  {
    assert Later(q, capacity, [[a]], 0) == q;
    assert [a][1..] == [];
    assert Outcomes(q, capacity, [a]) == [Outcome(q, capacity, a)];
    One(q, Outcome(q, capacity, a));
  }

  lemma Start<T>(q: seq<T>, capacity: nat)
    ensures History(q, capacity, []) && Contents(q, []) == q
  {
  }

  /** One more event. */
  lemma Appended<T>(q: seq<T>, capacity: nat, es: seq<Event<T>>, e: Event<T>)
    requires History(q, capacity, es) && May(Contents(q, es), capacity, e)
    ensures History(q, capacity, es + [e]) && Contents(q, es + [e]) == Do(Contents(q, es), e)
  {
    One(Contents(q, es), e);
    assert [e][1..] == [];
    Joined(q, capacity, es, [e]);
  }

  class BlockQueue<T(==)> {
    const maxSize: nat
    var queue: seq<T>

    ghost predicate Valid()
      reads this
    {
      |queue| <= maxSize
    }

    constructor (capacity: nat)
      ensures Valid() && queue == [] && maxSize == capacity
    {
      maxSize := capacity;
      queue := [];
    }

    /** Waits for room, but no longer than the time limit. */
    method TryPush(val: T, back: bool := true) returns (ok: bool)
      requires Valid()
      modifies this
      ensures Valid()
      ensures
        var e := if ok then Pushed(val, back) else PushTimedOut;
        May(old(queue), maxSize, e) && queue == Do(old(queue), e)
      ensures ok <==> |old(queue)| < maxSize
      ensures queue == if !ok then old(queue) else if back then old(queue) + [val] else [val] + old(queue)
    {
      ok := |queue| < maxSize;
      if ok {
        if back { queue := queue + [val]; } else { queue := [val] + queue; }
      }
    }

    method TryPop() returns (result: Option<T>)
      requires Valid()
      modifies this
      ensures Valid()
      ensures
        var e := if result.Some? then Popped(result.value) else PopTimedOut;
        May(old(queue), maxSize, e) && queue == Do(old(queue), e)
      ensures if result.Some? then [result.value] + queue == old(queue) else queue == old(queue) == []
    {
      if |queue| > 0 {
        result := Some(queue[0]);
        queue := queue[1..];
      } else {
        result := None;
      }
    }

    /** The lock is free: other threads do what they try. */
    method Others(attempts: seq<Attempt<T>>) returns (ghost es: seq<Event<T>>)
      requires Valid()
      modifies this
      ensures Valid() && History(old(queue), maxSize, es) && queue == Contents(old(queue), es)
      ensures es == Outcomes(old(queue), maxSize, attempts)
    {
      es := Outcomes(queue, maxSize, attempts);
      OutcomesHappen(queue, maxSize, attempts);
      NothingLost(queue, maxSize, es);
      queue := Contents(queue, Outcomes(queue, maxSize, attempts));
    }

    /** Retries until there is room. While it sleeps after the k-th attempt, other
        threads do `others[k]`; the attempts end with those sleeps. It sleeps
        `slept` times: as long as the others leave the queue full, and no longer. */
    method Push(val: T, back: bool, others: seq<seq<Attempt<T>>>) returns (ok: bool, ghost es: seq<Event<T>>, ghost slept: nat)
      requires Valid()
      modifies this
      ensures Valid() && History(old(queue), maxSize, es) && queue == Contents(old(queue), es)
      ensures es != [] && es[|es| - 1] == if ok then Pushed(val, back) else PushTimedOut
      ensures slept <= |others| && forall j | 0 <= j < slept :: |Later(old(queue), maxSize, others, j)| >= maxSize
      ensures
        var q := Later(old(queue), maxSize, others, slept);
        if ok then |q| < maxSize && queue == (if back then q + [val] else [val] + q)
        else slept == |others| && |q| >= maxSize && queue == q
    {
      hide History, Contents, Outcomes, May, Do;
      es, slept := [], 0;
      Start(queue, maxSize);
      ok := TryPush(val, back);
      Appended(old(queue), maxSize, es, if ok then Pushed(val, back) else PushTimedOut);
      es := es + [if ok then Pushed(val, back) else PushTimedOut];
      var k := 0;
      while !ok && k < |others|
        invariant 0 <= k <= |others| && Valid() && slept == k
        invariant es != [] && History(old(queue), maxSize, es) && queue == Contents(old(queue), es)
        invariant es[|es| - 1] == if ok then Pushed(val, back) else PushTimedOut
        invariant forall j | 0 <= j < k :: |Later(old(queue), maxSize, others, j)| >= maxSize
        invariant
          var q := Later(old(queue), maxSize, others, k);
          if ok then |q| < maxSize && queue == (if back then q + [val] else [val] + q) else |q| >= maxSize && queue == q
      {
        ghost var during := Others(others[k]);
        Joined(old(queue), maxSize, es, during);
        es := es + during;
        ok := TryPush(val, back);
        Appended(old(queue), maxSize, es, if ok then Pushed(val, back) else PushTimedOut);
        es := es + [if ok then Pushed(val, back) else PushTimedOut];
        k, slept := k + 1, k + 1;
      }
    }

    /** Waits for an element. During the k-th wait other threads do `others[k]`. It
        waits `waited` times: as long as the others leave the queue empty, and no
        longer; nothing comes back only if the last of them does, too. */
    method Pop(others: seq<seq<Attempt<T>>>) returns (ret: Option<T>, ghost es: seq<Event<T>>, ghost waited: nat)
      requires Valid()
      modifies this
      ensures Valid() && History(old(queue), maxSize, es) && queue == Contents(old(queue), es)
      ensures ret.Some? ==> es != [] && es[|es| - 1] == Popped(ret.value)
      ensures waited <= |others| && forall j | 0 <= j < waited :: Later(old(queue), maxSize, others, j) == []
      ensures
        var q := Later(old(queue), maxSize, others, waited);
        if ret.Some? then q == [ret.value] + queue else waited == |others| && q == queue == []
    {
      es, waited := [], 0;
      ret := None;
      var k := 0;
      while |queue| == 0 && k < |others|
        invariant 0 <= k <= |others| && Valid() && waited == k
        invariant History(old(queue), maxSize, es) && queue == Contents(old(queue), es)
        invariant queue == Later(old(queue), maxSize, others, k)
        invariant forall j | 0 <= j < k :: Later(old(queue), maxSize, others, j) == []
      {
        ghost var during := Others(others[k]);
        Joined(old(queue), maxSize, es, during);
        es := es + during;
        k, waited := k + 1, k + 1;
      }
      if |queue| > 0 {
        ret := Some(queue[0]);
        ghost var e := Popped(queue[0]);
        assert Contents(queue, [e]) == Do(queue, e);
        Joined(old(queue), maxSize, es, [e]);
        es := es + [e];
        queue := queue[1..];
      }
    }
  }

  /** Histories can be put one after the other. */
  lemma {:induction false} Joined<T>(q: seq<T>, capacity: nat, es: seq<Event<T>>, fs: seq<Event<T>>)
    requires History(q, capacity, es) && History(Contents(q, es), capacity, fs)
    ensures History(q, capacity, es + fs) && Contents(q, es + fs) == Contents(Contents(q, es), fs)
    decreases |es|
  {
    if es == [] {
      assert es + fs == fs;
    } else {
      assert (es + fs)[1..] == es[1..] + fs;
      Joined(Do(q, es[0]), capacity, es[1..], fs);
    }
  }
}
