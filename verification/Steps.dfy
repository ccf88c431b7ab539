/**
 The steps a replica takes in the history of Protocol, each shown to keep its invariant.
 A handler of the implementation is a short sequence of these.
 */
module Steps {
  import opened Proto
  import opened Logs
  import opened Protocol

  // --------------------------------------------------------------------------
  // Growth: what a step of node n may do to the history

  ghost predicate KeepsNodes(h: History, h': History, n: Id) {
    && h'.voters == h.voters && h'.boot == h.boot
    && h'.term.Keys == h.term.Keys && h'.log.Keys == h.log.Keys && h'.commit.Keys == h.commit.Keys
    && (forall m :: m in h.term && m != n ==> h'.term[m] == h.term[m])
    && (forall m :: m in h.log && m != n ==> h'.log[m] == h.log[m])
    && (forall m :: m in h.commit && m != n ==> h'.commit[m] == h.commit[m])
    && (n in h.term ==> h.term[n] <= h'.term[n])
  }

  ghost predicate KeepsVotes(h: History, h': History, n: Id) {
    && (forall m, t :: (m, t) in h.cands ==> (m, t) in h'.cands && h'.cands[(m, t)] == h.cands[(m, t)])
    && (forall m, t :: (m, t) in h.votes ==> (m, t) in h'.votes && h'.votes[(m, t)] == h.votes[(m, t)])
    && (forall m, t :: (m, t) in h'.votes && (m, t) !in h.votes ==> m == n)
  }

  ghost predicate KeepsLeaders(h: History, h': History, n: Id) {
    && (forall t :: t in h.leader ==> t in h'.leader && h'.leader[t] == h.leader[t])
    && (forall t :: t in h'.leader && t !in h.leader ==> h'.leader[t] == n)
    && Grows(h.ll, h'.ll)
    && (forall t :: t in h.ll && t in h.leader && h.leader[t] != n ==> h'.ll[t] == h.ll[t])
    && (forall t :: t in h.lc ==> t in h'.lc && h.lc[t] <= h'.lc[t])
    && (forall t :: t in h.lc && t in h.leader && h.leader[t] != n ==> h'.lc[t] == h.lc[t])
  }

  ghost predicate KeepsAcks(h: History, h': History) {
    forall m, t :: (m, t) in h.acks ==> (m, t) in h'.acks && h.acks[(m, t)] <= h'.acks[(m, t)]
  }

  /** What node n knew to be committed stays in its log. */
  ghost predicate KeepsSafe(h: History, h': History, n: Id) {
    n in h.log && n in h.term && n in h'.log ==>
      forall p: Log :: p <= h.log[n] && Safe(h, p, h.term[n]) ==> p <= h'.log[n]
  }

  ghost predicate Extends(h: History, h': History, n: Id) {
    KeepsNodes(h, h', n) && KeepsVotes(h, h', n) && KeepsLeaders(h, h', n) && KeepsAcks(h, h') && KeepsSafe(h, h', n)
  }

  lemma ExtendsRefl(h: History, n: Id)
    ensures Extends(h, h, n)
  {
  }

  lemma GrowsTrans(a: map<nat, Log>, b: map<nat, Log>, c: map<nat, Log>)
    requires Grows(a, b) && Grows(b, c)
    ensures Grows(a, c)
  {
  }

  lemma KeepsNodesTrans(a: History, b: History, c: History, n: Id)
    requires KeepsNodes(a, b, n) && KeepsNodes(b, c, n)
    ensures KeepsNodes(a, c, n)
  {
  }

  lemma KeepsVotesTrans(a: History, b: History, c: History, n: Id)
    requires KeepsVotes(a, b, n) && KeepsVotes(b, c, n)
    ensures KeepsVotes(a, c, n)
  {
  }

  lemma KeepsLeadersTrans(a: History, b: History, c: History, n: Id)
    requires KeepsLeaders(a, b, n) && KeepsLeaders(b, c, n)
    ensures KeepsLeaders(a, c, n)
  {
  }

  lemma KeepsAcksTrans(a: History, b: History, c: History)
    requires KeepsAcks(a, b) && KeepsAcks(b, c)
    ensures KeepsAcks(a, c)
  {
  }

  lemma KeepsSafeTrans(a: History, b: History, c: History, n: Id)
    requires Extends(a, b, n) && KeepsSafe(b, c, n)
    ensures KeepsSafe(a, c, n)
  {
    hide Safe, KeepsVotes, KeepsLeaders, KeepsAcks;
    if n in a.log && n in a.term && n in c.log {
      forall p: Log | p <= a.log[n] && Safe(a, p, a.term[n]) ensures p <= c.log[n] {
        SafeGrows(a, b, n, p, a.term[n], b.term[n]);
      }
    }
  }

  lemma ExtendsTrans(a: History, b: History, c: History, n: Id)
    requires Extends(a, b, n) && Extends(b, c, n)
    ensures Extends(a, c, n)
  {
    hide KeepsNodes, KeepsVotes, KeepsLeaders, KeepsAcks, KeepsSafe;
    KeepsNodesTrans(a, b, c, n);
    KeepsVotesTrans(a, b, c, n);
    KeepsLeadersTrans(a, b, c, n);
    KeepsAcksTrans(a, b, c);
    KeepsSafeTrans(a, b, c, n);
  }

  /** Everything committed stays committed. */
  lemma ChosenGrows(h: History, h': History, n: Id, t: nat, j: nat)
    requires Extends(h, h', n) && Chosen(h, t, j)
    ensures Chosen(h', t, j)
  {
    var q :| ChosenBy(h, t, j, q);
    assert forall m :: m in q ==> Acked(h, m, t, j) && Acked(h', m, t, j);
    assert ChosenBy(h', t, j, q);
  }

  lemma SafeGrows(h: History, h': History, n: Id, p: Log, u: nat, u': nat)
    requires Extends(h, h', n) && Safe(h, p, u) && u <= u'
    ensures Safe(h', p, u')
  {
    hide Chosen;
    if p != [] {
      var t: nat, j: nat :| SafeVia(h, p, u, t, j);
      ChosenGrows(h, h', n, t, j);
      hide Extends;
      assert h.ll[t][..j] == h'.ll[t][..j];
      assert SafeVia(h', p, u', t, j);
    }
  }

  // --------------------------------------------------------------------------
  // What each part of the invariant needs of a step of node n

  lemma NodesStep(h: History, h': History, n: Id)
    requires Nodes(h) && Extends(h, h', n)
    requires n in h.voters && LogOk(h'.ll, h'.log[n], h'.term[n])
    ensures Nodes(h')
  {
    forall m | m in h.voters ensures LogOk(h'.ll, h'.log[m], h'.term[m]) {
      if m != n {
        OkGrows(h.ll, h'.ll, h.log[m], h.term[m], h'.term[m]);
      }
    }
  }

  lemma CandsStep(h: History, h': History, n: Id)
    requires Cands(h) && Extends(h, h', n) && h'.cands == h.cands
    ensures Cands(h')
  {
    forall c, u | (c, u) in h'.cands ensures CandOk(h', c, u) {
      assert CandOk(h, c, u);
      OkGrows(h.ll, h'.ll, h.cands[(c, u)], u - 1, u - 1);
    }
  }

  lemma VotesStep(h: History, h': History, n: Id)
    requires Votes(h) && Extends(h, h', n)
    requires forall u :: (n, u) in h'.votes && (n, u) !in h.votes ==> VoteOk(h', n, u)
    ensures Votes(h')
  {
    forall m, u | (m, u) in h'.votes ensures VoteOk(h', m, u) {
      if (m, u) in h.votes {
        assert VoteOk(h, m, u);
        OkGrows(h.ll, h'.ll, h.votes[(m, u)].log, u, u);
      }
    }
  }

  /** A leader's record survives any step that leaves its log alone. */
  lemma LeaderStep(h: History, h': History, n: Id, u: nat)
    requires u in h.ll && LeaderOk(h, u) && Extends(h, h', n)
    requires u in h'.electors && h'.electors[u] == h.electors[u]
    requires h'.ll[u] == h.ll[u]
    requires h.leader[u] == n && h'.term[n] == u ==> h'.log[n] == h.ll[u]
    ensures LeaderOk(h', u)
  {
    OkGrows(h.ll, h'.ll, h.ll[u], u, u);
    forall m | m in h.electors[u] ensures VotedFor(h', m, u, h.leader[u]) {
      assert VotedFor(h, m, u, h.leader[u]);
    }
  }

  lemma LeadersStep(h: History, h': History, n: Id)
    requires Leaders(h) && Extends(h, h', n)
    requires h'.leader == h.leader && h'.electors == h.electors && h'.ll == h.ll && h'.lc.Keys == h.lc.Keys
    requires forall u :: u in h.ll && h.leader[u] == n && h'.term[n] == u ==> h'.log[n] == h.ll[u]
    ensures Leaders(h')
  {
    forall u | u in h'.ll ensures LeaderOk(h', u) {
      LeaderStep(h, h', n, u);
    }
  }

  lemma AcksStep(h: History, h': History, n: Id)
    requires Acks(h) && Extends(h, h', n) && h'.acks == h.acks
    ensures Acks(h')
  {
  }

  /** No existing leader comes to hold an older prefix by a step: what it appends has its own, later term. */
  ghost predicate NoNewHolders(h: History, h': History) {
    forall t, i: nat, w :: t in h.ll && i <= |h.ll[t]| && w in h.ll && w in h'.ll && t < w && h.ll[t][..i] <= h'.ll[w]
      ==> h.ll[t][..i] <= h.ll[w]
  }

  lemma HeldStep(h: History, h': History, n: Id, t: nat, i: nat, u: nat, u': nat)
    requires Extends(h, h', n) && NoNewHolders(h, h')
    requires t in h.ll && i <= |h.ll[t]| && u <= u'
    requires HeldBetween(h', h.ll[t][..i], t, u')
    ensures HeldBetween(h, h.ll[t][..i], t, u)
  {
  }

  /** Confirmations newly made in this step are node n's own, in its current term. */
  ghost predicate AcksByOnly(h: History, h': History, n: Id) {
    && n in h'.term
    && forall m, t, i: nat :: Acked(h', m, t, i) && !Acked(h, m, t, i) ==> m == n && t == h'.term[n]
  }

  lemma AcksKeptStep(h: History, h': History, n: Id)
    requires Nodes(h) && Acks(h) && AcksKept(h) && Extends(h, h', n) && NoNewHolders(h, h')
    requires Nodes(h') && Acks(h') && AcksByOnly(h, h', n)
    requires forall t, i: nat :: Acked(h', n, t, i) ==> AckOk(h', n, t) && AckKept(h', n, t, i)
    ensures AcksKept(h')
  {
    forall m, t, i: nat | Acked(h', m, t, i) ensures AckOk(h', m, t) && AckKept(h', m, t, i) {
      if m != n {
        AckKeptOther(h, h', n, m, t, i);
      }
    }
  }

  lemma AckKeptOther(h: History, h': History, n: Id, m: Id, t: nat, i: nat)
    requires Nodes(h) && Acks(h) && AcksKept(h) && Extends(h, h', n) && NoNewHolders(h, h')
    requires Nodes(h') && Acks(h') && Acked(h, m, t, i) && m != n
    ensures AckOk(h', m, t) && AckKept(h', m, t, i)
  {
    hide LogOk;
    assert AckOk(h, m, t) && AckKept(h, m, t, i);
    assert (m, t) in h'.acks && AckOk(h', m, t);
    assert h'.ll[t][..i] == h.ll[t][..i];
    if HeldBetween(h', h.ll[t][..i], t, h'.term[m] + 1) {
      HeldStep(h, h', n, t, i, h.term[m] + 1, h'.term[m] + 1);
    }
  }

  lemma AcksVotedStep(h: History, h': History, n: Id)
    requires Acks(h) && AcksVoted(h) && Extends(h, h', n) && NoNewHolders(h, h')
    requires Acks(h') && Votes(h') && AcksByOnly(h, h', n)
    requires forall m, u :: Counts(h', m, u) && !Counts(h, m, u) ==> m == n
    requires forall t, i: nat, u :: Acked(h, n, t, i) && t < u && Counts(h', n, u) && !Counts(h, n, u) ==>
      AckOk(h', n, t) && AckVoted(h', n, t, i, u)
    ensures AcksVoted(h')
  {
    forall m, t, i: nat, u | Acked(h', m, t, i) && t < u && Counts(h', m, u)
      ensures AckOk(h', m, t) && AckVoted(h', m, t, i, u)
    {
      assert VoteOk(h', m, u);
      assert Acked(h, m, t, i);
      if Counts(h, m, u) {
        AckVotedOld(h, h', n, m, t, i, u);
      }
    }
  }

  lemma AckVotedOld(h: History, h': History, n: Id, m: Id, t: nat, i: nat, u: nat)
    requires Acks(h) && AcksVoted(h) && Extends(h, h', n) && NoNewHolders(h, h')
    requires Acks(h') && Acked(h, m, t, i) && t < u && Counts(h, m, u)
    ensures AckOk(h', m, t) && (m, u) in h'.votes && AckVoted(h', m, t, i, u)
  {
  }

  lemma CommitsStep(h: History, h': History, n: Id)
    requires Nodes(h) && Leaders(h) && Commits(h) && Extends(h, h', n)
    requires Nodes(h') && Leaders(h') && n in h'.voters && CommitOk(h', n)
    requires forall t :: t in h'.ll && (t !in h.ll || h'.lc[t] != h.lc[t]) ==> LeaderCommitOk(h', t)
    ensures Commits(h')
  {
    hide LogOk, LeaderOk, CommitOk, LeaderCommitOk;
    CommitsOthers(h, h', n);
    CommitsLeaders(h, h', n);
  }

  lemma CommitsOthers(h: History, h': History, n: Id)
    requires Nodes(h) && Leaders(h) && Commits(h) && Extends(h, h', n) && Nodes(h') && n in h'.voters && CommitOk(h', n)
    ensures forall m :: m in h'.voters ==> CommitOk(h', m)
  {
    hide LogOk, LeaderOk, CommitOk, LeaderCommitOk;
    forall m | m in h'.voters ensures CommitOk(h', m) {
      if m != n {
        CommitOther(h, h', n, m);
      }
    }
  }

  lemma CommitsLeaders(h: History, h': History, n: Id)
    requires Nodes(h) && Leaders(h) && Commits(h) && Extends(h, h', n) && Leaders(h')
    requires forall t :: t in h'.ll && (t !in h.ll || h'.lc[t] != h.lc[t]) ==> LeaderCommitOk(h', t)
    ensures forall u :: u in h'.ll ==> LeaderCommitOk(h', u)
  {
    hide LogOk, LeaderOk, CommitOk, LeaderCommitOk;
    forall u | u in h'.ll ensures LeaderCommitOk(h', u) {
      if u in h.ll && h'.lc[u] == h.lc[u] {
        LeaderCommitOther(h, h', n, u);
      }
    }
  }

  lemma CommitOther(h: History, h': History, n: Id, m: Id)
    requires m in h.commit && m in h.log && m in h.term && CommitOk(h, m) && Extends(h, h', n) && m != n
    requires m in h'.commit && m in h'.log && m in h'.term
    ensures CommitOk(h', m)
  {
    hide Safe;
    SafeGrows(h, h', n, h.log[m][..h.commit[m]], h.term[m], h'.term[m]);
  }

  lemma LeaderCommitOther(h: History, h': History, n: Id, u: nat)
    requires u in h.ll && u in h.lc && LeaderCommitOk(h, u) && Extends(h, h', n)
    requires u in h'.ll && u in h'.lc && h'.lc[u] == h.lc[u]
    ensures LeaderCommitOk(h', u)
  {
    hide Safe;
    assert h'.ll[u][..h.lc[u]] == h.ll[u][..h.lc[u]];
    SafeGrows(h, h', n, h.ll[u][..h.lc[u]], u, u);
  }
}
