/** Majorities of a finite voter set, and the sorted "match" buffer from which a leader reads its commit index. */
module Quorum {

  /** quorum() in the source: half the voters, rounded down, plus one. */
  function QuorumSize(n: nat): nat { n / 2 + 1 }

  predicate IsQuorum<T(==)>(voters: set<T>, q: set<T>) {
    q <= voters && |q| >= QuorumSize(|voters|)
  }

  lemma SubsetSize<T>(a: set<T>, b: set<T>)
    requires a <= b
    ensures |a| <= |b|
  {
    assert b == a + (b - a);
  }

  /** Any two majorities share a voter. */
  lemma QuorumsIntersect<T>(voters: set<T>, q1: set<T>, q2: set<T>) returns (common: T)
    requires IsQuorum(voters, q1) && IsQuorum(voters, q2)
    ensures common in q1 && common in q2
  {
    if q1 * q2 == {} {
      assert |q1 + q2| == |q1| + |q2|;
      SubsetSize(q1 + q2, voters);
      assert false;
    }
    common :| common in q1 * q2;
  }
}

module QuorumIndex {
  import opened Quorum

  function Insert(x: nat, s: seq<nat>): (r: seq<nat>)
    ensures |r| == |s| + 1
  {
    if s == [] || x <= s[0] then [x] + s else [s[0]] + Insert(x, s[1..])
  }

  function Sort(s: seq<nat>): (r: seq<nat>)
    ensures |r| == |s|
  {
    if s == [] then [] else Insert(s[|s| - 1], Sort(s[..|s| - 1]))
  }

  /** The entry of the sorted match values that a leader may commit up to. */
  function QuorumMatch(m: seq<nat>): nat
    requires m != []
  {
    Sort(m)[|m| - QuorumSize(|m|)]
  }

  /** How many values are at least v. */
  function CountGE(s: seq<nat>, v: nat): nat {
    if s == [] then 0 else CountGE(s[..|s| - 1], v) + (if s[|s| - 1] >= v then 1 else 0)
  }

  predicate Sorted(s: seq<nat>) {
    forall i, j :: 0 <= i < j < |s| ==> s[i] <= s[j]
  }

  lemma {:induction false} CountConcat(a: seq<nat>, b: seq<nat>, v: nat)
    ensures CountGE(a + b, v) == CountGE(a, v) + CountGE(b, v)
  {
    if b == [] {
      assert a + b == a;
    } else {
      var c := b[..|b| - 1];
      assert (a + b)[..|a + b| - 1] == a + c;
      CountConcat(a, c, v);
    }
  }

  lemma CountOne(x: nat, v: nat)
    ensures CountGE([x], v) == if x >= v then 1 else 0
  {
  }

  lemma {:induction false} InsertMembers(x: nat, s: seq<nat>)
    ensures multiset(Insert(x, s)) == multiset(s) + multiset{x}
  {
    if s != [] && x > s[0] {
      InsertMembers(x, s[1..]);
      assert s == [s[0]] + s[1..];
    }
  }

  lemma {:induction false} InsertSorted(x: nat, s: seq<nat>)
    requires Sorted(s)
    ensures Sorted(Insert(x, s))
  {
    if s != [] && x > s[0] {
      var r := Insert(x, s[1..]);
      InsertSorted(x, s[1..]);
      InsertMembers(x, s[1..]);
      forall i | 0 <= i < |r| ensures s[0] <= r[i] {
        assert r[i] in multiset(r);
        assert r[i] == x || r[i] in multiset(s[1..]);
      }
    }
  }

  lemma {:induction false} InsertCount(x: nat, s: seq<nat>, v: nat)
    ensures CountGE(Insert(x, s), v) == CountGE(s, v) + (if x >= v then 1 else 0)
  {
    CountOne(x, v);
    if s == [] || x <= s[0] {
      CountConcat([x], s, v);
    } else {
      InsertCount(x, s[1..], v);
      assert s == [s[0]] + s[1..];
      CountConcat([s[0]], Insert(x, s[1..]), v);
      CountConcat([s[0]], s[1..], v);
    }
  }

  /** Sorting orders the buffer and loses nothing. */
  lemma {:induction false} SortKeeps(s: seq<nat>, v: nat)
    ensures Sorted(Sort(s)) && multiset(Sort(s)) == multiset(s) && CountGE(Sort(s), v) == CountGE(s, v)
  {
    if s != [] {
      SortKeeps(s[..|s| - 1], v);
      InsertMembers(s[|s| - 1], Sort(s[..|s| - 1]));
      InsertSorted(s[|s| - 1], Sort(s[..|s| - 1]));
      InsertCount(s[|s| - 1], Sort(s[..|s| - 1]), v);
      assert s == s[..|s| - 1] + [s[|s| - 1]];
    }
  }

  lemma {:induction false} CountBelow(s: seq<nat>, v: nat)
    requires forall i :: 0 <= i < |s| ==> s[i] < v
    ensures CountGE(s, v) == 0
  {
    if s != [] { CountBelow(s[..|s| - 1], v); }
  }

  lemma {:induction false} CountAtMost(s: seq<nat>, v: nat)
    ensures CountGE(s, v) <= |s|
  {
    if s != [] { CountAtMost(s[..|s| - 1], v); }
  }

  lemma {:induction false} CountAll(s: seq<nat>, v: nat)
    requires forall i :: 0 <= i < |s| ==> s[i] >= v
    ensures CountGE(s, v) == |s|
  {
    if s != [] { CountAll(s[..|s| - 1], v); }
  }

  lemma SortedCountsFrom(s: seq<nat>, k: nat, v: nat)
    requires Sorted(s) && k < |s| && v <= s[k]
    ensures CountGE(s, v) >= |s| - k
  {
  }

  lemma SortedCountsAfter(s: seq<nat>, k: nat, v: nat)
    requires Sorted(s) && k < |s| && v > s[k]
    ensures CountGE(s, v) < |s| - k
  {
    var front, back := s[..k + 1], s[k + 1..];
    assert s == front + back;
    CountConcat(front, back, v);
    CountBelow(front, v);
    CountAtMost(back, v);
  }

  lemma PickedCounts(m: seq<nat>, v: nat)
    requires m != []
    ensures if v <= QuorumMatch(m) then CountGE(m, v) >= QuorumSize(|m|) else CountGE(m, v) < QuorumSize(|m|)
  {
    hide Sorted, CountGE, Sort;
    var k := |m| - QuorumSize(|m|);
    var s := Sort(m);
    SortKeeps(m, v);
    if v <= s[k] { SortedCountsFrom(s, k, v); } else { SortedCountsAfter(s, k, v); }
  }

  /** The picked match value is the greatest index that a quorum of voters has reached. */
  lemma QuorumMatchIsGreatest(m: seq<nat>)
    requires m != []
    ensures CountGE(m, QuorumMatch(m)) >= QuorumSize(|m|)
    ensures forall v: nat :: v > QuorumMatch(m) ==> CountGE(m, v) < QuorumSize(|m|)
  {
    hide QuorumMatch, CountGE;
    PickedCounts(m, QuorumMatch(m));
    forall v: nat | v > QuorumMatch(m) ensures CountGE(m, v) < QuorumSize(|m|) {
      PickedCounts(m, v);
    }
  }
}
