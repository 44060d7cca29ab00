/** What the elements of a sequence come to as a multiset. */
module Sequences {
  lemma HeadTail<T>(q: seq<T>)
    requires q != []
    ensures multiset(q) == multiset{q[0]} + multiset(q[1..])
  {
    assert q == [q[0]] + q[1..];
  }
}
