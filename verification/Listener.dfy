/** The listener and the readers as programs, with the other threads at work between
    any two of their steps. What they do is a run of the front's transition system. */
module Listeners {
  import opened Acceptance
  import AcceptanceInv

  /** What the other threads try, in this order, before a thread's next step. */
  type Turn = seq<Label>

  /** Thread 0 is the listener; reader `r` is thread `r + 1`. */
  function ThreadOf(l: Label): nat {
    if AcceptanceInv.ListenerStep(l) then 0 else ReaderOf(l) + 1
  }

  /** The steps of one thread. */
  function Own(ls: seq<Label>, i: nat): seq<Label> {
    if ls == [] then []
    else
      var l := ls[|ls| - 1];
      Own(ls[..|ls| - 1], i) + if ThreadOf(l) == i then [l] else []
  }

  lemma OwnAppend(ls: seq<Label>, l: Label, i: nat)
    ensures Own(ls + [l], i) == Own(ls, i) + if ThreadOf(l) == i then [l] else []
  {
    assert (ls + [l])[..|ls|] == ls;
  }

  /** The `k`-th reader from `start` on, in turn. */
  function InTurn(start: int, k: nat, n: nat): int { if start + k >= n then start + k - n else start + k }

  /** What stays the listener's own while readers take their steps. */
  predicate SameForListener(s: Front, s': Front) {
    && s'.listener == s.listener && s'.last == s.last && s'.given == s.given && s'.halted == s.halted
    && s'.nextIndex == s.nextIndex
    && (!s.listener.Polling? ==> SameEntry(s, s', s.listener.e))
  }

  predicate SameEntry(s: Front, s': Front, e: nat) {
    (e in s'.table <==> e in s.table) && (e in s.table ==> s'.table[e] == s.table[e])
  }

  lemma Unmoved(s: Front)
    ensures SameForListener(s, s)
  {
  }

  lemma UnmovedTwice(s: Front, s1: Front, s2: Front)
    requires SameForListener(s, s1) && SameForListener(s1, s2)
    ensures SameForListener(s, s2)
  {
  }

  lemma ReadersLeaveIt(s: Front, l: Label)
    requires AcceptanceInv.Inv(s) && Enabled(s, l) && ThreadOf(l) != 0
    ensures SameForListener(s, Apply(s, l))
  {
    if l.CloseConn? { AcceptanceInv.Elsewhere(s, l.r, s.readers[l.r].pc.e); }
    hide AcceptanceInv.Inv;
    AcceptanceInv.TableStep(s, l);
  }

  lemma OthersLeaveReader(s: Front, l: Label, r: nat)
    requires Enabled(s, l) && ThreadOf(l) != r + 1 && r < |s.readers|
    ensures r < |Apply(s, l).readers| && Apply(s, l).readers[r].pc == s.readers[r].pc
  {
    AcceptanceInv.ReadersStep(s, l);
  }

  class Listener {
    const numReaders: nat
    var front: Front
    var turns: seq<Turn>
    ghost var trace: seq<Label>

    ghost predicate Valid()
      reads this`front, this`trace
    {
      && Run(Init(numReaders), trace) && After(Init(numReaders), trace) == front
      && AcceptanceInv.Inv(front) && |front.readers| == numReaders
    }

    constructor (numReaders: nat, turns: seq<Turn>)
      requires numReaders >= 1
      ensures Valid() && front == Init(numReaders)
    {
      this.numReaders, this.turns := numReaders, turns;
      front := Init(numReaders);
      trace := [];
      new;
      AcceptanceInv.InvInit(numReaders);
    }

    method Step(l: Label)
      requires Valid() && Enabled(front, l)
      modifies this`front, this`trace
      ensures Valid() && |front.readers| == numReaders && front == Apply(old(front), l)
      ensures forall i: nat :: Own(trace, i) == Own(old(trace), i) + if ThreadOf(l) == i then [l] else []
    {
      AcceptanceInv.ReadersStep(front, l);
      hide Enabled, Apply, AcceptanceInv.Inv, Init;
      AcceptanceInv.InvStep(front, l);
      Extend(Init(numReaders), trace, l);
      forall i: nat ensures Own(trace + [l], i) == Own(trace, i) + if ThreadOf(l) == i then [l] else [] {
        OwnAppend(trace, l, i);
      }
      front := Apply(front, l);
      trace := trace + [l];
    }

    /** The turn of the others than thread `i`. */
    method Others(i: nat)
      requires Valid() && i <= numReaders
      modifies this
      ensures Valid() && |front.readers| == numReaders && Own(trace, i) == Own(old(trace), i)
      ensures i == 0 ==> SameForListener(old(front), front)
      ensures i > 0 ==> front.readers[i - 1].pc == old(front.readers[i - 1].pc)
    {
      hide Enabled, Apply, Own, Listener.Valid, SameForListener, AcceptanceInv.Inv;
      Known();
      Unmoved(front);
      var turn := if turns == [] then [] else turns[0];
      turns := if turns == [] then [] else turns[1..];
      for k := 0 to |turn|
        invariant Valid() && |front.readers| == numReaders && Own(trace, i) == Own(old(trace), i)
        invariant i == 0 ==> SameForListener(old(front), front)
        invariant i > 0 ==> front.readers[i - 1].pc == old(front.readers[i - 1].pc)
      {
        var l := turn[k];
        if Enabled(front, l) && ThreadOf(l) != i {
          Sound();
          if i == 0 {
            ReadersLeaveIt(front, l);
            UnmovedTwice(old(front), front, Apply(front, l));
          } else {
            OthersLeaveReader(front, l, i - 1);
          }
          Step(l);
        }
      }
    }

    /** `addToReader`: tries the readers in turn, each at most once, from the one
        after the last used. False exactly when each of them refused. */
    method AddToReader() returns (ok: bool, ghost tried: nat)
      requires Valid() && !front.halted && front.listener.Adding?
      requires front.listener.tries == 0 && front.last == front.listener.start < numReaders
      modifies this
      ensures Valid() && |front.readers| == numReaders && front.halted == !ok
      ensures Own(trace, 0) == Own(old(trace), 0) + seq(tried, _ => Refuse) + if ok then [Add] else []
      ensures
        if ok then
          && tried < numReaders && front.last == InTurn(old(front.last), tried, numReaders)
          && front.given == old(front.given) + [front.last]
          && var q := front.readers[front.last].queue; q != [] && q[|q| - 1] == old(front.listener.e)
        else tried == numReaders && front.given == old(front.given)
      ensures SameEntry(old(front), front, old(front.listener.e)) && front.nextIndex == old(front.nextIndex)
    {
      hide Listener.Valid, Own, Apply;
      Known();
      ghost var was := Own(trace, 0);
      ghost var e, start, live := front.listener.e, front.listener.start, front.listener.live;
      var retry_times := 0;
      while retry_times < numReaders
        invariant Valid() && |front.readers| == numReaders && retry_times <= numReaders
        invariant front.listener == Adding(e, start, retry_times, live)
        invariant front.last == InTurn(start, retry_times, numReaders)
        invariant front.halted == (retry_times == numReaders) && front.given == old(front.given)
        invariant SameEntry(old(front), front, e) && front.nextIndex == old(front.nextIndex)
        invariant Own(trace, 0) == was + seq(retry_times, _ => Refuse)
      {
        Others(0);
        if |front.readers[front.last].queue| < READER_CAPACITY {
          Added(front);
          Step(Add);
          return true, retry_times;
        }
        Refused(front);
        Step(Refuse);
        retry_times := retry_times + 1;
        assert seq(retry_times, _ => Refuse) == seq(retry_times - 1, _ => Refuse) + [Refuse];
      }
      ok, tried := false, retry_times;
    }

    lemma Sound()
      requires Valid()
      ensures AcceptanceInv.Inv(front)
    {
    }

    lemma Known()
      requires Valid()
      ensures |front.readers| == numReaders >= 1 && -1 <= front.last < numReaders
    {
    }

    /** `handle_read` without an error: the connection is looked up, or created and
        counted, and handed to a reader. It keeps its index meanwhile. */
    method HandleRead() returns (ok: bool, ghost tried: nat)
      requires Valid() && !front.halted && front.listener.Found?
      modifies this
      ensures Valid() && |front.readers| == numReaders && front.halted == !ok
      ensures
        var e := old(front.listener.e);
        && e in front.table && front.table[e] == (if e in old(front.table) then old(front.table[e]) else old(front.nextIndex))
        && front.nextIndex == old(front.nextIndex) + (if e in old(front.table) then 0 else 1)
        && front.count == |front.table|
      ensures ok ==> front.last == InTurn(Next(old(front.last), numReaders), tried, numReaders)
      ensures Own(trace, 0) == Own(old(trace), 0) + [LookUp] + seq(tried, _ => Refuse) + if ok then [Add] else []
    {
      hide Listener.Valid, Own, Apply;
      Known();
      Others(0);
      Known();
      LookedUp(front);
      Step(LookUp);
      ok, tried := AddToReader();
      CountIsSize();
    }

    lemma CountIsSize()
      requires Valid()
      ensures front.count == |front.table|
    {
    }

    /** `Reader::_do_read` of the next connection in the reader's queue. `readable`
        says whether `Call::read` succeeds, `rearmed` whether asking for the next
        read event does. A connection whose read fails is closed and taken out. */
    method DoRead(r: nat, readable: bool, rearmed: bool) returns (ghost p: seq<Label>)
      requires Valid() && r < numReaders && !front.halted && front.readers[r].pc.Waiting? && front.readers[r].queue != []
      modifies this
      ensures Valid() && |front.readers| == numReaders
      ensures front.halted || (front.readers[r].pc.Waiting? && Own(trace, r + 1) == Own(old(trace), r + 1) + p)
      ensures front.halted || p == if !readable then [Fetch(r), ReadFail(r), CloseConn(r)]
                                   else [Fetch(r), ReadOk(r), PushCall(r), if rearmed then Rearm(r) else RearmError(r)]
      ensures
        var e := old(front.readers[r].queue[0]);
        front.halted || if !readable then e !in front.table && e in front.closed && front.count == |front.table|
                        else if rearmed then e in front.armed else e in front.dropped
    {
      hide Listener.Valid, Own, Apply;
      Known();
      Stepped(front, Fetch(r), r);
      p := [Fetch(r)];
      Step(Fetch(r));
      Others(r + 1);
      Known();
      if front.halted { return; }
      ghost var q;
      if readable { q := PassOn(r, rearmed); } else { q := Drop(r); }
      p := p + q;
    }

    /** The call could not be read: the connection is closed. */
    method Drop(r: nat) returns (ghost p: seq<Label>)
      requires Valid() && r < numReaders && !front.halted && front.readers[r].pc.Reading?
      modifies this
      ensures Valid() && |front.readers| == numReaders
      ensures
        var e := old(front.readers[r].pc.e);
        front.halted || (
          && front.readers[r].pc.Waiting? && p == [ReadFail(r), CloseConn(r)] && Own(trace, r + 1) == Own(old(trace), r + 1) + p
          && e !in front.table && e in front.closed && front.count == |front.table|)
    {
      hide Listener.Valid, Own, Apply;
      Known();
      Stepped(front, ReadFail(r), r);
      Step(ReadFail(r));
      Others(r + 1);
      if front.halted { return []; }
      Known();
      Stepped(front, CloseConn(r), r);
      Step(CloseConn(r));
      CountIsSize();
      p := [ReadFail(r), CloseConn(r)];
    }

    /** The call goes to `_bq_call`, the socket back to the listener. */
    method PassOn(r: nat, rearmed: bool) returns (ghost p: seq<Label>)
      requires Valid() && r < numReaders && !front.halted && front.readers[r].pc.Reading?
      modifies this
      ensures Valid() && |front.readers| == numReaders
      ensures
        var e := old(front.readers[r].pc.e);
        front.halted || (
          && front.readers[r].pc.Waiting? && p == [ReadOk(r), PushCall(r), if rearmed then Rearm(r) else RearmError(r)]
          && Own(trace, r + 1) == Own(old(trace), r + 1) + p
          && if rearmed then e in front.armed else e in front.dropped)
    {
      hide Listener.Valid, Own, Apply;
      Known();
      Stepped(front, ReadOk(r), r);
      Step(ReadOk(r));
      Others(r + 1);
      if front.halted { return []; }
      Known();
      Stepped(front, PushCall(r), r);
      Step(PushCall(r));
      Others(r + 1);
      if front.halted { return []; }
      Known();
      var last := if rearmed then Rearm(r) else RearmError(r);
      Stepped(front, last, r);
      Step(last);
      p := [ReadOk(r), PushCall(r), last];
    }
  }

  lemma Added(s: Front)
    requires !s.halted && s.listener.Adding? && 0 <= s.last < |s.readers| && |s.readers[s.last].queue| < READER_CAPACITY
    ensures Enabled(s, Add)
    ensures
      var s' := Apply(s, Add);
      && s'.last == s.last && s'.given == s.given + [s.last] && s'.halted == s.halted
      && s'.readers[s.last].queue == s.readers[s.last].queue + [s.listener.e]
      && SameEntry(s, s', s.listener.e) && s'.nextIndex == s.nextIndex
  {
  }

  lemma Refused(s: Front)
    requires !s.halted && s.listener.Adding? && 0 <= s.last < |s.readers| && |s.readers[s.last].queue| >= READER_CAPACITY
    ensures Enabled(s, Refuse)
    ensures
      var s' := Apply(s, Refuse);
      && s'.listener == s.listener.(tries := s.listener.tries + 1) && s'.last == Next(s.last, |s.readers|)
      && s'.given == s.given && s'.halted == (s.listener.tries + 1 >= |s.readers|)
      && s'.table == s.table && s'.nextIndex == s.nextIndex
  {
  }

  lemma LookedUp(s: Front)
    requires !s.halted && s.listener.Found? && -1 <= s.last < |s.readers| && |s.readers| >= 1
    ensures Enabled(s, LookUp)
    ensures
      var s' := Apply(s, LookUp);
      var e := s.listener.e;
      && s'.listener == Adding(e, Next(s.last, |s.readers|), 0, Live(s)) && s'.last == Next(s.last, |s.readers|)
      && s'.given == s.given && !s'.halted
      && e in s'.table && s'.table[e] == (if e in s.table then s.table[e] else s.nextIndex)
      && s'.nextIndex == s.nextIndex + if e in s.table then 0 else 1
  {
  }

  /** Where a reader's step takes it. */
  lemma Stepped(s: Front, l: Label, r: nat)
    requires Enabled(s, l) && ThreadOf(l) == r + 1
    ensures
      var s' := Apply(s, l);
      var rd := s.readers[r];
      && s'.halted == s.halted && |s'.readers| == |s.readers|
      && s'.readers[r].pc == (match l
                              case Fetch(_) => Reading(rd.queue[0])
                              case ReadOk(_) => Holding(rd.pc.e)
                              case ReadFail(_) => Closing(rd.pc.e)
                              case PushCall(_) => Rearming(rd.pc.e)
                              case _ => Waiting)
      && (l.CloseConn? ==> rd.pc.e !in s'.table && rd.pc.e in s'.closed)
      && (l.Rearm? ==> rd.pc.e in s'.armed) && (l.RearmError? ==> rd.pc.e in s'.dropped)
  {
  }
}
