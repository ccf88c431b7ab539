/**
 The history of a Raft cluster, kept apart from any one implementation: who campaigned with which log,
 who voted for whom, what every elected leader's log became, and which prefixes replicas confirmed.
 The predicates below are what every step keeps; the safety theorems of the Raft paper follow from them.
 */
module Protocol {
  import opened Proto
  import opened Quorum
  import opened Logs

  /** A vote: the candidate it went to and the voter's own log at that moment. */
  datatype Vote = Vote(cand: Id, log: Log)

  datatype History = History(
    voters: set<Id>,
    boot: nat,                       // the term of the entries every node starts with; 0 if there are none
    term: map<Id, nat>,              // each node's current term
    log: map<Id, Log>,               // each node's complete log
    commit: map<Id, nat>,            // each node's commit index
    cands: map<(Id, nat), Log>,      // a candidate's log when it opened its campaign for a term
    votes: map<(Id, nat), Vote>,     // the vote a node cast in a term
    leader: map<nat, Id>,            // the winner of a term
    electors: map<nat, set<Id>>,     // the majority that elected it
    ll: map<nat, Log>,               // the winner's log, as far as it has grown
    lc: map<nat, nat>,               // the winner's commit index
    acks: map<(Id, nat), nat>)       // the longest prefix of ll[t] a node confirmed while in term t

  // --------------------------------------------------------------------------
  // The invariant

  ghost predicate Nodes(h: History) {
    && h.voters != {}
    && h.term.Keys == h.voters && h.log.Keys == h.voters && h.commit.Keys == h.voters
    && forall n :: n in h.voters ==> LogOk(h.ll, h.log[n], h.term[n])
  }

  ghost predicate CandOk(h: History, c: Id, t: nat)
    requires (c, t) in h.cands
  {
    && c in h.voters && c in h.term && 1 <= t <= h.term[c]
    && LogOk(h.ll, h.cands[(c, t)], t - 1)
  }

  ghost predicate Cands(h: History) {
    forall c, t :: (c, t) in h.cands ==> CandOk(h, c, t)
  }

  ghost predicate VoteOk(h: History, n: Id, t: nat)
    requires (n, t) in h.votes
  {
    var v := h.votes[(n, t)];
    && n in h.voters && n in h.term && 1 <= t <= h.term[n]
    && (v.cand, t) in h.cands
    && UpToDate(h.cands[(v.cand, t)], v.log)
    && LogOk(h.ll, v.log, t)
  }

  ghost predicate Votes(h: History) {
    forall n, t :: (n, t) in h.votes ==> VoteOk(h, n, t)
  }

  ghost predicate VotedFor(h: History, n: Id, t: nat, c: Id) {
    (n, t) in h.votes && h.votes[(n, t)].cand == c
  }

  /** What is known about the winner of term t. */
  ghost predicate LeaderOk(h: History, t: nat)
    requires t in h.ll
  {
    && t in h.leader && t in h.electors && t in h.lc
    && var c := h.leader[t];
    && (c, t) in h.cands && c in h.log && c in h.term
    && h.cands[(c, t)] <= h.ll[t]
    && (forall i :: |h.cands[(c, t)]| <= i < |h.ll[t]| ==> h.ll[t][i].term == t)
    && IsQuorum(h.voters, h.electors[t])
    && (forall n :: n in h.electors[t] ==> VotedFor(h, n, t, c))
    && LogOk(h.ll, h.ll[t], t)
    && (h.term[c] == t ==> h.log[c] == h.ll[t])
  }

  ghost predicate Leaders(h: History) {
    && h.leader.Keys == h.ll.Keys && h.electors.Keys == h.ll.Keys && h.lc.Keys == h.ll.Keys
    && forall t :: t in h.ll ==> LeaderOk(h, t)
  }

  ghost predicate Acked(h: History, n: Id, t: nat, i: nat) {
    (n, t) in h.acks && i <= h.acks[(n, t)]
  }

  ghost predicate AckOk(h: History, n: Id, t: nat)
    requires (n, t) in h.acks
  {
    n in h.voters && n in h.term && t <= h.term[n] && t in h.ll && h.acks[(n, t)] <= |h.ll[t]|
  }

  ghost predicate Acks(h: History) {
    forall n, t :: (n, t) in h.acks ==> AckOk(h, n, t)
  }

  /** Every leader of a term strictly between t and u has p. */
  ghost predicate HeldBetween(h: History, p: Log, t: nat, u: nat) {
    forall w :: w in h.ll && t < w < u ==> p <= h.ll[w]
  }

  /** A confirmed prefix stays in the log as long as all leaders since had it. */
  ghost predicate AckKept(h: History, n: Id, t: nat, i: nat)
    requires t in h.ll && i <= |h.ll[t]| && n in h.term && n in h.log
  {
    HeldBetween(h, h.ll[t][..i], t, h.term[n] + 1) ==> h.ll[t][..i] <= h.log[n]
  }

  ghost predicate AcksKept(h: History)
    requires Nodes(h) && Acks(h)
  {
    forall n, t, i: nat :: Acked(h, n, t, i) ==> AckOk(h, n, t) && AckKept(h, n, t, i)
  }

  /** A vote that can have helped elect the leader of its term. */
  ghost predicate Counts(h: History, n: Id, u: nat) {
    (n, u) in h.votes && (u in h.electors ==> n in h.electors[u])
  }

  /** ... and was in the log a later vote was cast with. */
  ghost predicate AckVoted(h: History, n: Id, t: nat, i: nat, u: nat)
    requires t in h.ll && i <= |h.ll[t]| && (n, u) in h.votes
  {
    HeldBetween(h, h.ll[t][..i], t, u) ==> h.ll[t][..i] <= h.votes[(n, u)].log
  }

  ghost predicate AcksVoted(h: History)
    requires Acks(h)
  {
    forall n, t, i: nat, u :: Acked(h, n, t, i) && t < u && Counts(h, n, u) ==>
      AckOk(h, n, t) && AckVoted(h, n, t, i, u)
  }

  /** Entry j of term t, in the log of the leader of t, is held by a majority: it is committed. */
  ghost predicate ChosenBy(h: History, t: nat, j: nat, q: set<Id>) {
    && t in h.ll && 1 <= j <= |h.ll[t]| && h.ll[t][j - 1].term == t
    && IsQuorum(h.voters, q)
    && forall n :: n in q ==> Acked(h, n, t, j)
  }

  ghost predicate Chosen(h: History, t: nat, j: nat) {
    exists q :: ChosenBy(h, t, j, q)
  }

  /** p is a prefix of something committed in a term up to u. */
  ghost predicate SafeVia(h: History, p: Log, u: nat, t: nat, j: nat) {
    t <= u && Chosen(h, t, j) && t in h.ll && j <= |h.ll[t]| && p <= h.ll[t][..j]
  }

  ghost predicate Safe(h: History, p: Log, u: nat) {
    p == [] || exists t: nat, j: nat :: SafeVia(h, p, u, t, j)
  }

  ghost predicate CommitOk(h: History, n: Id)
    requires n in h.commit && n in h.log && n in h.term
  {
    h.commit[n] <= |h.log[n]| && Safe(h, h.log[n][..h.commit[n]], h.term[n])
  }

  ghost predicate LeaderCommitOk(h: History, t: nat)
    requires t in h.ll && t in h.lc
  {
    h.lc[t] <= |h.ll[t]| && Safe(h, h.ll[t][..h.lc[t]], t)
  }

  ghost predicate Commits(h: History)
    requires Nodes(h) && Leaders(h)
  {
    && (forall n :: n in h.voters ==> CommitOk(h, n))
    && (forall t :: t in h.ll ==> LeaderCommitOk(h, t))
  }

  ghost predicate Inv(h: History) {
    && Nodes(h) && Cands(h) && Votes(h) && Leaders(h) && Acks(h)
    && AcksKept(h) && AcksVoted(h) && Commits(h)
  }

  // --------------------------------------------------------------------------
  // Consequences

  /** Election Safety (section 5.2): a majority of votes in a term can only be for that term's leader. */
  lemma ElectionSafety(h: History, c: Id, t: nat, q: set<Id>)
    requires Inv(h) && t in h.ll
    requires IsQuorum(h.voters, q) && forall n :: n in q ==> VotedFor(h, n, t, c)
    ensures h.leader[t] == c
  {
    assert LeaderOk(h, t);
    var n := QuorumsIntersect(h.voters, q, h.electors[t]);
    assert VotedFor(h, n, t, c) && VotedFor(h, n, t, h.leader[t]);
  }

  /** The comparison of last entries in a vote carries a prefix from the voter's log over to the candidate's. */
  lemma UpToDateCarries(h: History, p: Log, t: nat, cand: Log, voter: Log, u: nat)
    requires u >= 1 && LogOk(h.ll, cand, u - 1) && LogOk(h.ll, voter, u)
    requires UpToDate(cand, voter)
    requires |p| > 0 && p[|p| - 1].term == t && p <= voter && WellFormed(p)
    requires HeldBetween(h, p, t, u)
    ensures p <= cand
  {
    var j := |p|;
    assert voter[j - 1] == p[j - 1];
    assert t <= LastTerm(voter);
    var w := LastTerm(cand);
    assert |cand| > 0;
    assert FromLeader(h.ll, cand, |cand| - 1);
    assert cand[..|cand|] == cand;
    if w == LastTerm(voter) {
      assert FromLeader(h.ll, voter, |voter| - 1);
      assert voter[..|voter|] == voter;
      assert voter <= cand;
    } else {
      assert p <= h.ll[w] && cand <= h.ll[w];
      PrefixOrder(p, cand, h.ll[w]);
    }
  }

  /** Leader Completeness (sections 5.4.1-5.4.2): what is committed in term t is in the log of every later leader. */
  lemma {:induction false} LeaderCompleteness(h: History, t: nat, j: nat, u: nat)
    requires Inv(h) && Chosen(h, t, j) && u in h.ll && t < u
    ensures h.ll[t][..j] <= h.ll[u]
    decreases u
  {
    var p := h.ll[t][..j];
    var q :| ChosenBy(h, t, j, q);
    forall w | w in h.ll && t < w < u ensures p <= h.ll[w] {
      LeaderCompleteness(h, t, j, w);
    }
    assert HeldBetween(h, p, t, u);
    assert LeaderOk(h, u) && LeaderOk(h, t);
    var c := h.leader[u];
    var n := QuorumsIntersect(h.voters, q, h.electors[u]);
    assert Acked(h, n, t, j) && VotedFor(h, n, u, c);
    assert Counts(h, n, u);
    assert AckVoted(h, n, t, j, u);
    var v := h.votes[(n, u)];
    assert VoteOk(h, n, u) && CandOk(h, c, u);
    PrefixOk(h.ll, h.ll[t], j, t);
    UpToDateCarries(h, p, t, h.cands[(c, u)], v.log, u);
    PrefixTrans(p, h.cands[(c, u)], h.ll[u]);
  }

  /** A committed prefix is in the log of the current and of every later leader. */
  lemma SafeInLeader(h: History, p: Log, u: nat, w: nat)
    requires Inv(h) && Safe(h, p, u) && w in h.ll && u <= w
    ensures p <= h.ll[w]
  {
    hide Inv, Chosen;
    if p != [] {
      var t: nat, j: nat :| SafeVia(h, p, u, t, j);
      ChosenInLeader(h, t, j, w);
      PrefixTrans(p, h.ll[t][..j], h.ll[w]);
    }
  }

  lemma ChosenInLeader(h: History, t: nat, j: nat, w: nat)
    requires Inv(h) && Chosen(h, t, j) && w in h.ll && t <= w
    ensures t in h.ll && j <= |h.ll[t]| && h.ll[t][..j] <= h.ll[w]
  {
    hide Inv;
    var q :| ChosenBy(h, t, j, q);
    if t < w {
      LeaderCompleteness(h, t, j, w);
    }
  }

  /** Two committed prefixes never disagree. */
  lemma SafeComparable(h: History, p1: Log, u1: nat, p2: Log, u2: nat)
    requires Inv(h) && Safe(h, p1, u1) && Safe(h, p2, u2)
    ensures p1 <= p2 || p2 <= p1
  {
    if p1 != [] && p2 != [] {
      var t1: nat, j1: nat :| SafeVia(h, p1, u1, t1, j1);
      var t2: nat, j2: nat :| SafeVia(h, p2, u2, t2, j2);
      var t := if t1 < t2 then t2 else t1;
      TightenSafe(h, p1, u1, t1, j1);
      TightenSafe(h, p2, u2, t2, j2);
      SafeInLeader(h, p1, t1, t);
      SafeInLeader(h, p2, t2, t);
    }
  }

  lemma TightenSafe(h: History, p: Log, u: nat, t: nat, j: nat)
    requires SafeVia(h, p, u, t, j)
    ensures Safe(h, p, t) && t in h.ll
  {
    assert SafeVia(h, p, t, t, j);
  }

  /** State Machine Safety (section 5.4.3): no two nodes commit different entries at one index. */
  lemma StateMachineSafety(h: History, m: Id, n: Id, i: nat)
    requires Inv(h) && m in h.voters && n in h.voters
    requires i < h.commit[m] && i < h.commit[n]
    ensures i < |h.log[m]| && i < |h.log[n]| && h.log[m][i] == h.log[n][i]
  {
    assert CommitOk(h, m) && CommitOk(h, n);
    var p, q := h.log[m][..h.commit[m]], h.log[n][..h.commit[n]];
    SafeComparable(h, p, h.term[m], q, h.term[n]);
    assert p[i] == h.log[m][i] && q[i] == h.log[n][i];
  }

  /** Log Matching (section 5.3) between any two nodes. */
  lemma LogMatching(h: History, m: Id, n: Id, i: nat)
    requires Inv(h) && m in h.voters && n in h.voters
    requires i <= |h.log[m]| && i <= |h.log[n]| && TermAt(h.log[m], i) == TermAt(h.log[n], i)
    ensures h.log[m][..i] == h.log[n][..i]
  {
    Matching(h.ll, h.log[m], h.log[n], i);
  }

  /** While a node is still in the term in which it confirmed a prefix, it holds that prefix. */
  lemma AckHeld(h: History, n: Id, t: nat, i: nat)
    requires Inv(h) && Acked(h, n, t, i) && n in h.voters && h.term[n] == t
    ensures t in h.ll && i <= |h.ll[t]| && h.ll[t][..i] <= h.log[n]
  {
    assert AckOk(h, n, t) && AckKept(h, n, t, i);
    assert HeldBetween(h, h.ll[t][..i], t, t + 1);
  }
}
