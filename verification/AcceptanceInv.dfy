/** Who owns a connection, how many there are, and whether readers can all be full. */
module AcceptanceInv {
  import opened Acceptance
  import opened Sequences

  // ----- Ownership -----

  function PcHas(pc: ReaderPc, e: nat): nat {
    if !pc.Waiting? && pc.e == e then 1 else 0
  }

  function ListenerHas(pc: ListenerPc, e: nat): nat {
    if !pc.Polling? && pc.e == e then 1 else 0
  }

  /** How often a reader has a connection, queued or in hand. */
  function ReaderHas(rd: Reader, e: nat): nat { multiset(rd.queue)[e] + PcHas(rd.pc, e) }

  function ReadersHave(rds: seq<Reader>, e: nat): nat {
    if rds == [] then 0 else ReadersHave(rds[1..], e) + ReaderHas(rds[0], e)
  }

  function Owners(s: Front, e: nat): nat {
    multiset(s.armed)[e] + ListenerHas(s.listener, e) + ReadersHave(s.readers, e)
    + multiset(s.closed)[e] + multiset(s.dropped)[e]
  }

  /** Exclusive ownership: every accepted connection is in exactly one place. */
  ghost predicate Owned(s: Front) {
    forall e: nat :: Owners(s, e) == if e < s.accepted then 1 else 0
  }

  function Load(rd: Reader): nat { |rd.queue| + if rd.pc.Waiting? then 0 else 1 }

  function Loads(rds: seq<Reader>): nat {
    if rds == [] then 0 else Loads(rds[1..]) + Load(rds[0])
  }

  ghost predicate Counted(s: Front) {
    |s.armed| + (if s.listener.Polling? then 0 else 1) + Loads(s.readers) + |s.closed| + |s.dropped| == s.accepted
  }

  lemma {:induction false} MoveHave(rds: seq<Reader>, r: nat, rd: Reader, e: nat)
    requires r < |rds|
    ensures ReadersHave(rds[r := rd], e) == ReadersHave(rds, e) - ReaderHas(rds[r], e) + ReaderHas(rd, e)
  {
    hide ReaderHas;
    if r == 0 {
      assert rds[r := rd][1..] == rds[1..];
    } else {
      assert rds[r := rd][1..] == rds[1..][r - 1 := rd];
      MoveHave(rds[1..], r - 1, rd, e);
    }
  }

  lemma {:induction false} MoveLoads(rds: seq<Reader>, r: nat, rd: Reader)
    requires r < |rds|
    ensures Loads(rds[r := rd]) == Loads(rds) - Load(rds[r]) + Load(rd)
  {
    hide Load;
    if r == 0 {
      assert rds[r := rd][1..] == rds[1..];
    } else {
      assert rds[r := rd][1..] == rds[1..][r - 1 := rd];
      MoveLoads(rds[1..], r - 1, rd);
    }
  }

  lemma WithoutOne(q: seq<nat>, k: nat)
    requires k < |q|
    ensures multiset(Without(q, k)) == multiset(q) - multiset{q[k]} && q[k] in multiset(q)
  {
    assert q == q[..k] + [q[k]] + q[k + 1..];
  }

  /** The reader a step changes, and what it becomes. */
  function Changed(s: Front, l: Label): nat
    requires Enabled(s, l)
  {
    if l.Add? then s.last else ReaderOf(l)
  }

  lemma ReadersStep(s: Front, l: Label)
    requires Enabled(s, l)
    ensures
      var s' := Apply(s, l);
      var r := Changed(s, l);
      && |s'.readers| == |s.readers|
      && s'.readers == s.readers[r := s'.readers[r]]
  {
  }

  predicate ListenerStep(l: Label) {
    l.Accept? || l.Readable? || l.EventError? || l.LookUp? || l.Add? || l.Refuse?
  }

  lemma ListenerOwners(s: Front, l: Label, e: nat)
    requires Enabled(s, l) && ListenerStep(l)
    ensures Owners(Apply(s, l), e) == Owners(s, e) + if l.Accept? && e == s.accepted then 1 else 0
  {
    hide ReadersHave, ReaderHas;
    match l
    case Readable(k) => EventOwners(s, l, e);
    case EventError(k) => EventOwners(s, l, e);
    case Add => AddOwners(s, e);
    case _ =>
  }

  lemma EventOwners(s: Front, l: Label, e: nat)
    requires Enabled(s, l) && (l.Readable? || l.EventError?)
    ensures Owners(Apply(s, l), e) == Owners(s, e)
  {
    hide ReadersHave, ReaderHas;
    WithoutOne(s.armed, l.k);
    hide Without;
  }

  lemma AddOwners(s: Front, e: nat)
    requires Enabled(s, Add)
    ensures Owners(Apply(s, Add), e) == Owners(s, e)
  {
    var rd := s.readers[s.last];
    var rd' := rd.(queue := rd.queue + [s.listener.e]);
    assert ReaderHas(rd', e) == ReaderHas(rd, e) + if s.listener.e == e then 1 else 0;
    hide ReaderHas, ReadersHave;
    MoveHave(s.readers, s.last, rd', e);
  }

  lemma ReaderOwners(s: Front, l: Label, e: nat)
    requires Enabled(s, l) && !ListenerStep(l)
    ensures Owners(Apply(s, l), e) == Owners(s, e)
  {
    var s' := Apply(s, l);
    var r := Changed(s, l);
    ReadersStep(s, l);
    if l.Fetch? { HeadTail(s.readers[r].queue); }
    var gone := if (l.Rearm? || l.RearmError? || l.CloseConn?) && s.readers[r].pc.e == e then 1 else 0;
    assert ReaderHas(s'.readers[r], e) == ReaderHas(s.readers[r], e) - gone;
    hide ReadersHave, ReaderHas;
    MoveHave(s.readers, r, s'.readers[r], e);
  }

  lemma OwnedStep(s: Front, l: Label)
    requires Owned(s) && Enabled(s, l)
    ensures Owned(Apply(s, l))
  {
    hide Owners;
    forall e: nat ensures Owners(Apply(s, l), e) == if e < Apply(s, l).accepted then 1 else 0 {
      if ListenerStep(l) { ListenerOwners(s, l, e); } else { ReaderOwners(s, l, e); }
    }
  }

  lemma CountedStep(s: Front, l: Label)
    requires Counted(s) && Enabled(s, l)
    ensures Counted(Apply(s, l))
  {
    var r := Changed(s, l);
    ReadersStep(s, l);
    MoveLoads(s.readers, r, Apply(s, l).readers[r]);
    hide Loads;
  }

  // ----- The connection table -----

  /** `num_connections` is the size of `_connections`, whose connections have
      distinct indices; closed connections are not in it. */
  ghost predicate TableSound(s: Front) {
    && s.count == |s.table|
    && (forall e | e in s.table :: e < s.accepted && s.table[e] < s.nextIndex)
    && (forall e, e' | e in s.table && e' in s.table && s.table[e] == s.table[e'] :: e == e')
    && (forall e | e in s.closed :: e !in s.table)
  }

  predicate ReaderListed(s: Front, rd: Reader) {
    && (forall e | e in rd.queue :: e in s.table)
    && (!rd.pc.Waiting? ==> rd.pc.e in s.table)
  }

  /** Connections given to readers are in the table. */
  ghost predicate Listed(s: Front) {
    && (s.listener.Adding? ==> s.listener.e in s.table)
    && (forall r | 0 <= r < |s.readers| :: ReaderListed(s, s.readers[r]))
  }

  lemma {:induction false} HaveAtLeast(rds: seq<Reader>, r: nat, e: nat)
    requires r < |rds|
    ensures ReadersHave(rds, e) >= ReaderHas(rds[r], e)
  {
    hide ReadersHave;
    MoveHave(rds, r, Reader([], Waiting), e);
  }

  /** A connection in one place is in no other. */
  lemma Elsewhere(s: Front, r: nat, e: nat)
    requires Owned(s) && r < |s.readers| && !s.readers[r].pc.Waiting? && s.readers[r].pc.e == e
    ensures e < s.accepted && ListenerHas(s.listener, e) == 0
    ensures e !in s.readers[r].queue && e !in s.closed
    ensures forall q | 0 <= q < |s.readers| && q != r :: ReaderHas(s.readers[q], e) == 0
  {
    assert Owners(s, e) == if e < s.accepted then 1 else 0;
    HaveAtLeast(s.readers, r, e);
    forall q | 0 <= q < |s.readers| && q != r ensures ReaderHas(s.readers[q], e) == 0 {
      var rest := s.readers[r := Reader([], Waiting)];
      hide ReadersHave;
      MoveHave(s.readers, r, Reader([], Waiting), e);
      HaveAtLeast(rest, q, e);
    }
  }

  function NextTable(s: Front, l: Label): map<nat, nat>
    requires Enabled(s, l)
  {
    if l.CloseConn? then s.table - {s.readers[l.r].pc.e}
    else if l.LookUp? && s.listener.e !in s.table then s.table[s.listener.e := s.nextIndex]
    else s.table
  }

  lemma TableStep(s: Front, l: Label)
    requires Enabled(s, l)
    ensures
      var s' := Apply(s, l);
      && s'.table == NextTable(s, l)
      && s'.count == s.count + (if l.CloseConn? then -1 else if NextTable(s, l) == s.table then 0 else 1)
      && s'.nextIndex == s.nextIndex + (if l.CloseConn? || NextTable(s, l) == s.table then 0 else 1)
      && s'.closed == (if l.CloseConn? then s.closed + [s.readers[l.r].pc.e] else s.closed)
      && s'.accepted >= s.accepted
  {
    if l.LookUp? && s.listener.e !in s.table { assert s.listener.e in NextTable(s, l); }
  }

  lemma TableSizes(m: map<nat, nat>, e: nat, v: nat)
    ensures e in m ==> |m - {e}| == |m| - 1
    ensures e !in m ==> |m[e := v]| == |m| + 1
  {
    if e in m {
      assert (m - {e}).Keys == m.Keys - {e};
    } else {
      assert m[e := v].Keys == m.Keys + {e};
    }
  }

  lemma TableSoundClose(s: Front, l: Label)
    requires TableSound(s) && Listed(s) && Enabled(s, l) && l.CloseConn?
    ensures TableSound(Apply(s, l))
  {
    hide Apply;
    TableStep(s, l);
    assert ReaderListed(s, s.readers[l.r]);
    TableSizes(s.table, s.readers[l.r].pc.e, 0);
    hide Listed, Enabled;
  }

  lemma TableSoundEnter(s: Front, l: Label)
    requires TableSound(s) && Owned(s) && Enabled(s, l) && l.LookUp? && s.listener.e !in s.table
    ensures TableSound(Apply(s, l))
  {
    hide Apply, ReadersHave;
    var e := s.listener.e;
    TableStep(s, l);
    assert Owners(s, e) == if e < s.accepted then 1 else 0;
    assert e !in s.closed && e < s.accepted;
    TableSizes(s.table, e, s.nextIndex);
    assert e in NextTable(s, l);
    hide Owned, Owners, Enabled;
  }

  lemma TableSoundStep(s: Front, l: Label)
    requires TableSound(s) && Listed(s) && Owned(s) && Enabled(s, l)
    ensures TableSound(Apply(s, l))
  {
    if l.CloseConn? {
      TableSoundClose(s, l);
    } else if l.LookUp? && s.listener.e !in s.table {
      TableSoundEnter(s, l);
    } else {
      TableStep(s, l);
      hide Apply, Owned, Listed, Enabled;
    }
  }

  lemma ReaderListedStep(s: Front, l: Label, r: nat)
    requires Listed(s) && Owned(s) && Enabled(s, l) && r < |Apply(s, l).readers|
    ensures ReaderListed(Apply(s, l), Apply(s, l).readers[r])
  {
    var s' := Apply(s, l);
    hide Owned;
    ReadersStep(s, l);
    TableStep(s, l);
    assert ReaderListed(s, s.readers[r]) && ReaderListed(s, s.readers[Changed(s, l)]);
    if l.CloseConn? {
      var e := s.readers[l.r].pc.e;
      Elsewhere(s, l.r, e);
      assert r != l.r ==> e !in s.readers[r].queue;
    }
    if l.Fetch? && r == l.r { assert s.readers[r].queue[0] in s.readers[r].queue; }
  }

  lemma ListedStep(s: Front, l: Label)
    requires Listed(s) && Owned(s) && Enabled(s, l)
    ensures Listed(Apply(s, l))
  {
    forall r | 0 <= r < |Apply(s, l).readers| ensures ReaderListed(Apply(s, l), Apply(s, l).readers[r]) {
      ReaderListedStep(s, l, r);
    }
    TableStep(s, l);
    if l.CloseConn? { Elsewhere(s, l.r, s.readers[l.r].pc.e); }
    hide Owned, ReaderListed;
  }

  // ----- Room in the readers' queues -----

  /** How many steps of round robin lead from `start` to `r`. */
  function Dist(start: nat, r: nat, n: nat): int { if r >= start then r - start else r - start + n }

  /** What is queued, counting from index `k` on, at readers not yet tried. */
  function Untried(rds: seq<Reader>, k: nat, start: nat, tries: nat): nat
    requires k <= |rds|
    decreases |rds| - k
  {
    if k == |rds| then 0
    else Untried(rds, k + 1, start, tries) + if Dist(start, k, |rds|) >= tries then |rds[k].queue| else 0
  }

  /** While `addToReader` runs, the connections in its hand, in refusing readers'
      queues at their refusal, and in the other queues are all different ones
      that existed when it began. */
  ghost predicate Room(s: Front) {
    s.listener.Adding? ==>
      var p := s.listener;
      && p.start < |s.readers| && p.tries < |s.readers|
      && 0 <= s.last < |s.readers| && Dist(p.start, s.last, |s.readers|) == p.tries
      && READER_CAPACITY * p.tries + Untried(s.readers, 0, p.start, p.tries) + 1 <= p.live
  }

  lemma {:induction false} UntriedAtMostLoads(rds: seq<Reader>, k: nat, start: nat)
    requires k <= |rds|
    ensures Untried(rds, k, start, 0) <= Loads(rds[k..])
    decreases |rds| - k
  {
    if k < |rds| {
      assert rds[k..][1..] == rds[k + 1..];
      UntriedAtMostLoads(rds, k + 1, start);
    }
  }

  /** One more refusal takes that reader's queue out of the sum. */
  lemma {:induction false} UntriedRefuse(rds: seq<Reader>, k: nat, start: nat, tries: nat, r: nat)
    requires k <= |rds| && start < |rds| && r < |rds| && Dist(start, r, |rds|) == tries
    ensures Untried(rds, k, start, tries) == Untried(rds, k, start, tries + 1) + if k <= r then |rds[r].queue| else 0
    decreases |rds| - k
  {
    if k < |rds| { UntriedRefuse(rds, k + 1, start, tries, r); }
  }

  /** Readers only take from their queues. */
  lemma {:induction false} UntriedShrinks(rds: seq<Reader>, rds': seq<Reader>, k: nat, start: nat, tries: nat)
    requires k <= |rds| == |rds'|
    requires forall r | 0 <= r < |rds| :: |rds'[r].queue| <= |rds[r].queue|
    ensures Untried(rds', k, start, tries) <= Untried(rds, k, start, tries)
    decreases |rds| - k
  {
    if k < |rds| { UntriedShrinks(rds, rds', k + 1, start, tries); }
  }

  lemma RoomStep(s: Front, l: Label)
    requires Room(s) && Counted(s) && Enabled(s, l)
    ensures Apply(s, l).halted || Room(Apply(s, l))
  {
    var s' := Apply(s, l);
    ReadersStep(s, l);
    hide Untried, Loads;
    if l.LookUp? {
      UntriedAtMostLoads(s.readers, 0, s'.last);
      assert s.readers[0..] == s.readers;
    } else if l.Refuse? {
      UntriedRefuse(s.readers, 0, s.listener.start, s.listener.tries, s.last);
    } else if s.listener.Adding? && !ListenerStep(l) {
      UntriedShrinks(s.readers, s'.readers, 0, s.listener.start, s.listener.tries);
    }
  }

  /** With at most `READER_CAPACITY` connections per reader when `addToReader`
      begins, the last reader it tries cannot refuse. */
  lemma SomeReaderTakesIt(s: Front)
    requires Room(s) && s.listener.Adding? && s.listener.live <= READER_CAPACITY * |s.readers|
    ensures s.listener.tries + 1 == |s.readers| ==> !Enabled(s, Refuse)
  {
    UntriedRefuse(s.readers, 0, s.listener.start, s.listener.tries, s.last);
  }

  // ----- Round robin -----

  /** How many readers are one connection ahead of the others. */
  function Ahead(s: Front): int {
    if s.listener.Adding? then s.last else Next(s.last, |s.readers|)
  }

  /** As long as no reader refuses, the readers' shares differ by at most one. */
  ghost predicate Fair(s: Front) {
    s.refusals == 0 ==>
      var n := |s.readers|;
      && 0 <= Ahead(s) < n
      && forall r: nat | r < n ::
           multiset(s.given)[r] == multiset(s.given)[n - 1] + if r < Ahead(s) then 1 else 0
  }

  lemma FairStep(s: Front, l: Label)
    requires Fair(s) && Enabled(s, l)
    ensures Fair(Apply(s, l))
  {
    ReadersStep(s, l);
  }

  // ----- Every reachable state -----

  ghost predicate Inv(s: Front) {
    |s.readers| >= 1 && -1 <= s.last < |s.readers| && Owned(s) && Counted(s) && TableSound(s) && Listed(s) && Fair(s) && (s.halted || Room(s))
    && (s.listener.Adding? ==> s.listener.tries <= |s.readers|)
  }

  lemma InvStep(s: Front, l: Label)
    requires Inv(s) && Enabled(s, l)
    ensures Inv(Apply(s, l))
  {
    ReadersStep(s, l);
    OwnedStep(s, l);
    CountedStep(s, l);
    TableSoundStep(s, l);
    ListedStep(s, l);
    RoomStep(s, l);
    FairStep(s, l);
    hide Owned, Counted, TableSound, Listed, Fair, Room, Enabled;
  }

  lemma {:induction false} Nobody(n: nat, e: nat)
    ensures var rds := seq(n, _ => Reader([], Waiting)); ReadersHave(rds, e) == 0 && Loads(rds) == 0
  {
    if n > 0 {
      assert seq(n, _ => Reader([], Waiting))[1..] == seq(n - 1, _ => Reader([], Waiting));
      Nobody(n - 1, e);
    }
  }

  lemma InvInit(readers: nat)
    requires readers >= 1
    ensures Inv(Init(readers))
  {
    Nobody(readers, 0);
    forall e: nat ensures Owners(Init(readers), e) == 0 {
      Nobody(readers, e);
    }
  }

  lemma {:induction false} InvRun(s: Front, ls: seq<Label>)
    requires Inv(s) && Run(s, ls)
    ensures Inv(After(s, ls))
    decreases |ls|
  {
    hide Inv, Apply, Enabled;
    if ls != [] {
      InvStep(s, ls[0]);
      InvRun(Apply(s, ls[0]), ls[1..]);
    }
  }

  /** For any positive number of readers and any interleaving: each connection
      has one owner, the count is right, and the shares are even. */
  lemma Reachable(readers: nat, ls: seq<Label>)
    requires readers >= 1 && Run(Init(readers), ls)
    ensures
      var s := After(Init(readers), ls);
      && Owned(s) && TableSound(s) && Listed(s) && Fair(s)
  {
    InvInit(readers);
    InvRun(Init(readers), ls);
  }

  /** No two readers have the same connection, queued or in hand. */
  lemma OneReaderEach(s: Front, r: nat, q: nat, e: nat)
    requires Inv(s) && r < |s.readers| && q < |s.readers| && r != q && ReaderHas(s.readers[r], e) > 0
    ensures ReaderHas(s.readers[q], e) == 0
  {
    hide ReadersHave;
    assert Owners(s, e) == if e < s.accepted then 1 else 0;
    var empty := Reader([], Waiting);
    MoveHave(s.readers, r, empty, e);
    HaveAtLeast(s.readers[r := empty], q, e);
  }

  /** A connection, once entered, keeps its index until a reader closes it, and
      is never entered again after that. */
  lemma IndexUnchanging(s: Front, l: Label, e: nat)
    requires Inv(s) && Enabled(s, l)
    ensures e in s.table && !(l.CloseConn? && s.readers[l.r].pc.e == e) ==>
              e in Apply(s, l).table && Apply(s, l).table[e] == s.table[e]
    ensures e in s.closed ==> e in Apply(s, l).closed && e !in Apply(s, l).table
  {
    TableSoundStep(s, l);
    TableStep(s, l);
    hide Apply, Owned, Listed, Room, Fair, Counted;
  }

  /** Every `addToReader` began with at most `READER_CAPACITY` connections per reader. */
  predicate FewRun(s: Front, ls: seq<Label>)
    decreases |ls|
  {
    && (s.listener.Adding? ==> s.listener.live <= READER_CAPACITY * |s.readers|)
    && (ls == [] || (Enabled(s, ls[0]) && FewRun(Apply(s, ls[0]), ls[1..])))
  }

  lemma {:induction false} FewNeverHalts(s: Front, ls: seq<Label>)
    requires Inv(s) && !s.halted && FewRun(s, ls)
    ensures Run(s, ls) && !After(s, ls).halted
    decreases |ls|
  {
    if ls != [] {
      if s.listener.Adding? { SomeReaderTakesIt(s); }
      assert !Apply(s, ls[0]).halted;
      InvStep(s, ls[0]);
      hide Inv, Enabled, Apply, Room;
      FewNeverHalts(Apply(s, ls[0]), ls[1..]);
    }
  }

  /** The readers are never all full: with two of them, as in the source, up to
      200 connections at a time are safe. */
  lemma NeverAllFull(readers: nat, ls: seq<Label>)
    requires readers >= 1 && FewRun(Init(readers), ls)
    ensures Run(Init(readers), ls) && !After(Init(readers), ls).halted
  {
    InvInit(readers);
    FewNeverHalts(Init(readers), ls);
  }
}
