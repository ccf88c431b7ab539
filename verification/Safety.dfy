/** The safety properties of Raft, over every run of a cluster and across the times of one run. */
module Safety {
  import opened Proto
  import opened Quorum
  import opened Logs
  import opened Protocol
  import opened Steps
  import opened Actions
  import opened RaftLogSpec
  import opened NodeSpec
  import opened NodeInv
  import opened VoterProofs
  import opened FollowerProofs
  import opened StepProofs
  import opened Cluster
  import opened MatchProofs
  import P = ProgressSpec
  import ConfigProofs

  // --------------------------------------------------------------------------
  // A run and the histories behind it

  ghost predicate Explains(hs: seq<History>, cs: seq<State>, es: seq<Event>) {
    && |hs| == |cs| == |es| + 1
    && (forall i :: 0 <= i < |hs| ==> Backed(hs[i], cs[i]))
    && (forall i :: 0 <= i < |es| ==> Extends(hs[i], hs[i + 1], Actor(es[i])))
    && cs[0].nodes.Keys != {}
  }

  lemma {:induction false} RunExplained(cs: seq<State>, es: seq<Event>) returns (hs: seq<History>)
    requires Run(cs, es) && AllCounted(cs, es)
    ensures Explains(hs, cs, es)
    decreases |es|
  {
    hide Init, Backed, Extends, Next, Counted;
    if es == [] {
      var h := StartBacked(cs[0]);
      hs := [h];
    } else {
      var k := |es| - 1;
      var cs', es' := cs[..|cs| - 1], es[..k];
      assert forall i :: 0 <= i < k ==> Counted(cs'[i], es'[i]) by {
        forall i | 0 <= i < k ensures Counted(cs'[i], es'[i]) { assert Counted(cs[i], es[i]); }
      }
      var hs' := RunExplained(cs', es');
      assert Backed(hs'[k], cs'[k]);
      assert Counted(cs[k], es[k]);
      var h := NextBacked(hs'[k], cs[k], es[k], cs[k + 1]);
      hs := hs' + [h];
    }
  }

  /** What is never undone: leaders and their logs, confirmations, terms, and committed prefixes in a log. */
  ghost predicate Later(h: History, h': History) {
    && h'.voters == h.voters && h'.boot == h.boot
    && h'.term.Keys == h.term.Keys && h'.log.Keys == h.log.Keys
    && (forall n :: n in h.term && n in h'.term ==> h.term[n] <= h'.term[n])
    && (forall t :: t in h.leader ==> t in h'.leader && h'.leader[t] == h.leader[t])
    && (forall c, t :: (c, t) in h.cands ==> (c, t) in h'.cands && h'.cands[(c, t)] == h.cands[(c, t)])
    && Grows(h.ll, h'.ll)
    && KeepsAcks(h, h')
  }

  ghost predicate LaterSafe(h: History, h': History, n: Id) { KeepsSafe(h, h', n) }

  lemma ExtendsLater(h: History, h': History, a: Id, n: Id)
    requires Extends(h, h', a) && n in h.log
    ensures Later(h, h') && LaterSafe(h, h', n)
  {
  }

  lemma LaterChosen(h: History, h': History, p: Log, u: nat, u': nat)
    requires Later(h, h') && Safe(h, p, u) && u <= u'
    ensures Safe(h', p, u')
  {
    hide Chosen;
    if p != [] {
      var t: nat, j: nat :| SafeVia(h, p, u, t, j);
      LaterMajority(h, h', t, j);
      assert h.ll[t][..j] == h'.ll[t][..j];
      assert SafeVia(h', p, u', t, j);
    }
  }

  lemma LaterMajority(h: History, h': History, t: nat, j: nat)
    requires Later(h, h') && Chosen(h, t, j)
    ensures Chosen(h', t, j)
  {
    var q :| ChosenBy(h, t, j, q);
    assert forall m :: m in q ==> Acked(h, m, t, j) && Acked(h', m, t, j);
    assert ChosenBy(h', t, j, q);
  }

  lemma LaterTrans(a: History, b: History, c: History)
    requires Later(a, b) && Later(b, c)
    ensures Later(a, c)
  {
    GrowsTrans(a.ll, b.ll, c.ll);
    KeepsAcksTrans(a, b, c);
    hide Grows, KeepsAcks;
  }

  lemma LaterSafeTrans(a: History, b: History, c: History, n: Id)
    requires Later(a, b) && LaterSafe(a, b, n) && LaterSafe(b, c, n)
    ensures LaterSafe(a, c, n)
  {
    hide Safe, Grows, KeepsAcks;
    if n in a.log && n in a.term && n in c.log {
      forall p: Log | p <= a.log[n] && Safe(a, p, a.term[n]) ensures p <= c.log[n] {
        LaterChosen(a, b, p, a.term[n], b.term[n]);
      }
    }
  }

  lemma OneStep(hs: seq<History>, cs: seq<State>, es: seq<Event>, i: nat)
    requires Explains(hs, cs, es) && i < |es|
    ensures |hs| == |cs| == |es| + 1 && Backed(hs[i], cs[i]) && Backed(hs[i + 1], cs[i + 1])
    ensures Extends(hs[i], hs[i + 1], Actor(es[i]))
  {
    hide Backed, Extends;
  }

  lemma {:induction false} TimePasses(hs: seq<History>, cs: seq<State>, es: seq<Event>, a: nat, b: nat, n: Id)
    requires Explains(hs, cs, es) && a <= b < |hs| && n in cs[0].nodes
    ensures Later(hs[a], hs[b]) && LaterSafe(hs[a], hs[b], n)
    decreases b - a
  {
    hide Backed, Extends, Later, LaterSafe, Explains, Inv, NodeFine;
    Lengths(hs, cs, es);
    if a == b {
      LaterSame(hs[a], n);
    } else {
      OneStep(hs, cs, es, b - 1);
      TimePasses(hs, cs, es, a, b - 1, n);
      AlwaysThere(hs, cs, es, b - 1);
      BackedHas(hs[b - 1], cs[b - 1], n);
      ExtendsLater(hs[b - 1], hs[b], Actor(es[b - 1]), n);
      LaterTrans(hs[a], hs[b - 1], hs[b]);
      LaterSafeTrans(hs[a], hs[b - 1], hs[b], n);
    }
  }

  lemma Lengths(hs: seq<History>, cs: seq<State>, es: seq<Event>)
    requires Explains(hs, cs, es)
    ensures |hs| == |cs| == |es| + 1
  {
    hide Backed, Extends;
  }

  lemma LaterSame(h: History, n: Id)
    ensures Later(h, h) && LaterSafe(h, h, n)
  {
  }

  lemma BackedHas(h: History, c: State, n: Id)
    requires Backed(h, c) && n in c.nodes
    ensures n in h.voters && n in h.log && n in h.term && n in h.commit && NodeFine(h, n, c.nodes[n]) && Inv(h)
    ensures h.voters == c.nodes.Keys
  {
    hide Inv, NodeFine;
    NodesHave(h, n);
  }

  lemma {:induction false} AlwaysThere(hs: seq<History>, cs: seq<State>, es: seq<Event>, a: nat)
    requires Explains(hs, cs, es) && a < |hs|
    ensures cs[a].nodes.Keys == cs[0].nodes.Keys
    decreases a
  {
    hide Extends, Backed, Explains, Inv, Next;
    Lengths(hs, cs, es);
    if a > 0 {
      OneStep(hs, cs, es, a - 1);
      AlwaysThere(hs, cs, es, a - 1);
      SameVoters(hs[a - 1], hs[a], Actor(es[a - 1]));
      BackedVoters(hs[a - 1], cs[a - 1]);
      BackedVoters(hs[a], cs[a]);
    }
  }

  lemma BackedVoters(h: History, c: State)
    requires Backed(h, c)
    ensures h.voters == c.nodes.Keys && Inv(h)
  {
    hide Inv, NodeFine, NetOk;
  }

  // --------------------------------------------------------------------------
  // What can be seen in a node

  /** Index i is in the part of the log that has not been compacted away. */
  predicate Visible(n: Node, i: nat) { n.log.base < i <= n.log.LastIndex() }

  function At(n: Node, i: nat): Entry
    requires Visible(n, i)
  {
    n.log.ents[i - n.log.base - 1]
  }

  /** Two nodes do not contradict each other at index i. */
  predicate SameAt(m: Node, n: Node, i: nat) {
    Visible(m, i) && Visible(n, i) ==> At(m, i) == At(n, i)
  }

  lemma SeenIs(h: History, n: Node, i: nat)
    requires Core(h, n)
    ensures n.cfg.id in h.log && n.log.LastIndex() == |h.log[n.cfg.id]|
    ensures Visible(n, i) ==> 0 < i <= |h.log[n.cfg.id]| && At(n, i) == h.log[n.cfg.id][i - 1]
  {
  }

  /** Node n of a backed cluster, with everything the theorems need to know about it. */
  lemma Known(hs: seq<History>, cs: seq<State>, es: seq<Event>, a: nat, n: Id)
    requires Explains(hs, cs, es) && a < |cs| && n in cs[0].nodes
    ensures n in cs[a].nodes && cs[a].nodes[n].cfg.id == n && Good(hs[a], cs[a].nodes[n]) && Core(hs[a], cs[a].nodes[n])
    ensures Inv(hs[a]) && n in hs[a].voters && n in hs[a].log && n in hs[a].term && n in hs[a].commit
    ensures hs[a].term[n] == cs[a].nodes[n].term && hs[a].commit[n] == cs[a].nodes[n].log.committed
  {
    hide Inv, NetOk, Extends, SentOk, RoleOk;
    AlwaysThere(hs, cs, es, a);
    BackedHas(hs[a], cs[a], n);
    assert NodeFine(hs[a], n, cs[a].nodes[n]);
    CoreFacts(hs[a], cs[a].nodes[n]);
    CommitOf(hs[a], cs[a].nodes[n]);
  }

  // --------------------------------------------------------------------------
  // Theorems

  lemma LeaderOf(h: History, n: Node)
    requires Good(h, n) && n.role == Leader
    ensures LeaderIs(h, n.term, n.cfg.id) && n.cfg.id in h.log && h.log[n.cfg.id] == h.ll[n.term]
  {
  }

  /** Election Safety: one leader per term, over the whole run. */
  lemma ElectionSafety(cs: seq<State>, es: seq<Event>, a: nat, b: nat, m: Id, n: Id)
    requires Run(cs, es) && AllCounted(cs, es) && a <= b < |cs|
    requires m in cs[a].nodes && n in cs[b].nodes
    requires cs[a].nodes[m].role == Leader && cs[b].nodes[n].role == Leader
    requires cs[a].nodes[m].term == cs[b].nodes[n].term
    ensures m == n
  {
    hide Run, AllCounted, Explains, Good, Inv, Core;
    var hs := RunExplained(cs, es);
    StillThere(hs, cs, es, a, m);
    StillThere(hs, cs, es, b, n);
    Known(hs, cs, es, a, m);
    Known(hs, cs, es, b, n);
    TimePasses(hs, cs, es, a, b, m);
    LeaderOf(hs[a], cs[a].nodes[m]);
    LeaderOf(hs[b], cs[b].nodes[n]);
  }

  lemma LeadOf(h: History, n: Node)
    requires Good(h, n) && n.lead != 0
    ensures LeaderIs(h, n.term, n.lead)
  {
  }

  /** Whom a node takes for its leader is the one leader of its term, whenever that one is seen leading. */
  lemma LeadIsLeader(cs: seq<State>, es: seq<Event>, a: nat, b: nat, m: Id, n: Id)
    requires Run(cs, es) && AllCounted(cs, es) && a < |cs| && b < |cs| && m in cs[a].nodes && n in cs[b].nodes
    requires cs[a].nodes[m].lead != 0 && cs[b].nodes[n].role == Leader && cs[a].nodes[m].term == cs[b].nodes[n].term
    ensures cs[a].nodes[m].lead == n
  {
    hide Run, AllCounted, Explains, Good, Inv, Core;
    var hs := RunExplained(cs, es);
    StillThere(hs, cs, es, a, m);
    StillThere(hs, cs, es, b, n);
    Known(hs, cs, es, a, m);
    Known(hs, cs, es, b, n);
    LeadOf(hs[a], cs[a].nodes[m]);
    LeaderOf(hs[b], cs[b].nodes[n]);
    if a <= b { TimePasses(hs, cs, es, a, b, m); } else { TimePasses(hs, cs, es, b, a, m); }
  }

  lemma StillThere(hs: seq<History>, cs: seq<State>, es: seq<Event>, a: nat, n: Id)
    requires Explains(hs, cs, es) && a < |cs|
    ensures n in cs[a].nodes ==> n in cs[0].nodes
    ensures |hs| == |cs|
  {
    hide Backed, Extends;
    AlwaysThere(hs, cs, es, a);
  }

  /** Leader Append-Only: within its term a leader only adds to its log. */
  lemma LeaderAppendOnly(cs: seq<State>, es: seq<Event>, a: nat, b: nat, n: Id, i: nat)
    requires Run(cs, es) && AllCounted(cs, es) && a <= b < |cs| && n in cs[a].nodes && n in cs[b].nodes
    requires cs[a].nodes[n].role == Leader && cs[b].nodes[n].role == Leader
    requires cs[a].nodes[n].term == cs[b].nodes[n].term
    ensures cs[a].nodes[n].log.LastIndex() <= cs[b].nodes[n].log.LastIndex()
    ensures SameAt(cs[a].nodes[n], cs[b].nodes[n], i)
  {
    hide Run, AllCounted, Explains, Good, Inv, Core;
    var hs := RunExplained(cs, es);
    StillThere(hs, cs, es, a, n);
    Known(hs, cs, es, a, n);
    Known(hs, cs, es, b, n);
    TimePasses(hs, cs, es, a, b, n);
    LeaderOf(hs[a], cs[a].nodes[n]);
    LeaderOf(hs[b], cs[b].nodes[n]);
    SeenIs(hs[a], cs[a].nodes[n], i);
    SeenIs(hs[b], cs[b].nodes[n], i);
  }

  lemma SameSeen(h: History, h': History, m: Node, n: Node, k: nat, i: nat)
    requires Core(h, m) && Core(h', n) && m.cfg.id in h.log && n.cfg.id in h'.log
    requires k <= |h.log[m.cfg.id]| && k <= |h'.log[n.cfg.id]| && h.log[m.cfg.id][..k] == h'.log[n.cfg.id][..k]
    requires i <= k
    ensures SameAt(m, n, i)
  {
  }

  lemma SeenTerm(h: History, n: Node, i: nat)
    requires Core(h, n) && n.log.base <= i <= n.log.LastIndex()
    ensures n.cfg.id in h.log && i <= |h.log[n.cfg.id]| && n.log.Term(i) == TermAt(h.log[n.cfg.id], i)
  {
  }

  /** Log Matching: equal terms at an index mean equal logs up to it, whenever the two logs were looked at. */
  lemma LogMatching(cs: seq<State>, es: seq<Event>, a: nat, b: nat, m: Id, n: Id, k: nat, i: nat)
    requires Run(cs, es) && AllCounted(cs, es) && a <= b < |cs| && m in cs[a].nodes && n in cs[b].nodes
    requires cs[a].nodes[m].log.base <= k <= cs[a].nodes[m].log.LastIndex()
    requires cs[b].nodes[n].log.base <= k <= cs[b].nodes[n].log.LastIndex()
    requires cs[a].nodes[m].log.Term(k) == cs[b].nodes[n].log.Term(k) && i <= k
    ensures SameAt(cs[a].nodes[m], cs[b].nodes[n], i)
  {
    hide Run, AllCounted, Explains, Good, Inv, Core, SameAt, AllFromLeaders;
    var hs := RunExplained(cs, es);
    StillThere(hs, cs, es, a, m);
    StillThere(hs, cs, es, b, n);
    Known(hs, cs, es, a, m);
    Known(hs, cs, es, b, n);
    TimePasses(hs, cs, es, a, b, m);
    SeenTerm(hs[a], cs[a].nodes[m], k);
    SeenTerm(hs[b], cs[b].nodes[n], k);
    FollowerLogLater(hs[a], hs[b], m);
    FollowerLog(hs[b], n);
    Matching(hs[b].ll, hs[a].log[m], hs[b].log[n], k);
    SameSeen(hs[a], hs[b], cs[a].nodes[m], cs[b].nodes[n], k, i);
  }

  lemma FollowerLogLater(h: History, h': History, n: Id)
    requires Inv(h) && n in h.voters && Later(h, h')
    ensures n in h.log && AllFromLeaders(h'.ll, h.log[n])
  {
    hide LogOk;
    InvElim(h);
    NodeFacts(h, n);
    OkGrows(h.ll, h'.ll, h.log[n], h.term[n], h.term[n]);
    OkIsFrom(h'.ll, h.log[n], h.term[n]);
  }

  lemma OkIsFrom(ll: map<nat, Log>, log: Log, t: nat)
    requires LogOk(ll, log, t)
    ensures AllFromLeaders(ll, log)
  {
  }

  /** The committed part of a node's log, as the history sees it. */
  lemma CommittedIs(h: History, n: Node)
    requires Inv(h) && Core(h, n)
    ensures n.cfg.id in h.log && n.cfg.id in h.term && n.log.committed <= |h.log[n.cfg.id]|
    ensures Safe(h, h.log[n.cfg.id][..n.log.committed], h.term[n.cfg.id])
  {
  }

  lemma SamePrefixAt(p: Log, log: Log, k: nat)
    requires p <= log && k <= |p|
    ensures k <= |log| && log[..k] == p[..k]
  {
  }

  /** What is committed in a term is made of entries of that term and earlier ones. */
  lemma SafeTerms(h: History, p: Log, t: nat)
    requires Inv(h) && Safe(h, p, t)
    ensures TermsUpTo(p, t)
  {
    hide Inv, Chosen, LogOk;
    if p != [] {
      var t1: nat, j: nat :| SafeVia(h, p, t, t1, j);
      LeaderTerms(h, t1);
      assert forall i :: 0 <= i < |p| ==> p[i] == h.ll[t1][i];
    }
  }

  lemma LeaderTerms(h: History, t: nat)
    requires Inv(h) && t in h.ll
    ensures TermsUpTo(h.ll[t], t)
  {
    InvElim(h);
    assert LeaderOk(h, t) by { hide AcksKept, AcksVoted, Acks, Votes, Nodes, Cands, Commits; }
  }

  lemma LeaderRecord(h: History, t: nat)
    requires Inv(h) && t in h.ll
    ensures LeaderOk(h, t)
  {
    hide LeaderOk, LogOk;
    InvElim(h);
  }

  lemma NoneOfTerm(p: Log, cand: Log, l: Log, t: nat, u: nat)
    requires p <= l && cand <= l && TermsUpTo(p, t) && t < u && forall i :: |cand| <= i < |l| ==> l[i].term == u
    ensures |p| <= |cand|
  {
    PrefixEntry(p, l, |cand|);
  }

  lemma PrefixEntry(p: Log, l: Log, k: nat)
    requires p <= l
    ensures k < |p| ==> k < |l| && l[k] == p[k]
  {
  }

  /** An earlier committed prefix was in the log a later leader was elected with. */
  lemma ElectedWith(h: History, h': History, p: Log, t: nat, u: nat)
    requires Inv(h) && Inv(h') && Later(h, h') && Safe(h', p, t) && t < u && u in h.ll
    ensures p <= h.ll[u]
  {
    hide Inv, Safe, KeepsAcks, LogOk, IsQuorum;
    LeaderRecord(h, u);
    LeaderRecord(h', u);
    SafeTerms(h', p, t);
    SafeInLeader(h', p, t, u);
    var cand := h.cands[(h.leader[u], u)];
    assert cand == h'.cands[(h'.leader[u], u)];
    NoneOfTerm(p, cand, h'.ll[u], t, u);
    PrefixOrder(p, cand, h'.ll[u]);
    PrefixTrans(p, cand, h.ll[u]);
  }

  /**
   Leader Completeness: what a node has committed is in the log of every leader of a later term, whenever that one led,
   and in the log of the leaders of the same term from then on.
   */
  lemma LeaderCompleteness(cs: seq<State>, es: seq<Event>, a: nat, b: nat, m: Id, n: Id, i: nat)
    requires Run(cs, es) && AllCounted(cs, es) && a < |cs| && b < |cs| && m in cs[a].nodes && n in cs[b].nodes
    requires i <= cs[a].nodes[m].log.committed && cs[b].nodes[n].role == Leader
    requires cs[a].nodes[m].term < cs[b].nodes[n].term || (a <= b && cs[a].nodes[m].term == cs[b].nodes[n].term)
    ensures i <= cs[b].nodes[n].log.LastIndex() && SameAt(cs[a].nodes[m], cs[b].nodes[n], i)
  {
    hide Run, AllCounted, Explains, Good, Inv, Core, SameAt, Safe, Later, LaterSafe;
    var hs := RunExplained(cs, es);
    StillThere(hs, cs, es, a, m);
    StillThere(hs, cs, es, b, n);
    Known(hs, cs, es, a, m);
    Known(hs, cs, es, b, n);
    LeaderOf(hs[b], cs[b].nodes[n]);
    CommittedIs(hs[a], cs[a].nodes[m]);
    var k := cs[a].nodes[m].log.committed;
    var p := hs[a].log[m][..k];
    var w := cs[b].nodes[n].term;
    if a <= b {
      TimePasses(hs, cs, es, a, b, m);
      LaterChosen(hs[a], hs[b], p, cs[a].nodes[m].term, w);
      SafeInLeader(hs[b], p, w, w);
    } else {
      TimePasses(hs, cs, es, b, a, m);
      ElectedWith(hs[b], hs[a], p, cs[a].nodes[m].term, w);
    }
    SamePrefixAt(p, hs[b].log[n], k);
    assert p[..k] == p;
    SameSeen(hs[a], hs[b], cs[a].nodes[m], cs[b].nodes[n], k, i);
    SeenIs(hs[b], cs[b].nodes[n], i);
  }

  /** State Machine Safety: two nodes that have both committed index i, now or earlier, agree on it. */
  lemma StateMachineSafety(cs: seq<State>, es: seq<Event>, a: nat, b: nat, m: Id, n: Id, i: nat)
    requires Run(cs, es) && AllCounted(cs, es) && a <= b < |cs| && m in cs[a].nodes && n in cs[b].nodes
    requires i <= cs[a].nodes[m].log.committed && i <= cs[b].nodes[n].log.committed
    ensures SameAt(cs[a].nodes[m], cs[b].nodes[n], i)
  {
    hide Run, AllCounted, Explains, Good, Inv, Core, SameAt, Safe, Later, LaterSafe;
    var hs := RunExplained(cs, es);
    StillThere(hs, cs, es, a, m);
    StillThere(hs, cs, es, b, n);
    Known(hs, cs, es, a, m);
    Known(hs, cs, es, b, n);
    TimePasses(hs, cs, es, a, b, m);
    CommittedIs(hs[a], cs[a].nodes[m]);
    CommittedIs(hs[b], cs[b].nodes[n]);
    var p := hs[a].log[m][..cs[a].nodes[m].log.committed];
    var q := hs[b].log[n][..cs[b].nodes[n].log.committed];
    LaterChosen(hs[a], hs[b], p, cs[a].nodes[m].term, cs[a].nodes[m].term);
    SafeComparable(hs[b], p, cs[a].nodes[m].term, q, cs[b].nodes[n].term);
    PrefixesAgree(hs[a].log[m], |p|, hs[b].log[n], |q|, i);
    SameSeen(hs[a], hs[b], cs[a].nodes[m], cs[b].nodes[n], i, i);
  }

  lemma PrefixesAgree(a: Log, j: nat, b: Log, k: nat, i: nat)
    requires j <= |a| && k <= |b| && i <= j && i <= k && (a[..j] <= b[..k] || b[..k] <= a[..j])
    ensures a[..i] == b[..i]
  {
  }

  /** Durability: an entry a node has committed stays in its log, through truncations, snapshots and restarts. */
  lemma CommittedStays(cs: seq<State>, es: seq<Event>, a: nat, b: nat, n: Id, i: nat)
    requires Run(cs, es) && AllCounted(cs, es) && a <= b < |cs| && n in cs[a].nodes && n in cs[b].nodes
    requires i <= cs[a].nodes[n].log.committed
    ensures i <= cs[b].nodes[n].log.LastIndex() && SameAt(cs[a].nodes[n], cs[b].nodes[n], i)
  {
    hide Run, AllCounted, Explains, Good, Inv, Core, SameAt, Safe, Later;
    var hs := RunExplained(cs, es);
    StillThere(hs, cs, es, a, n);
    Known(hs, cs, es, a, n);
    Known(hs, cs, es, b, n);
    TimePasses(hs, cs, es, a, b, n);
    CommittedIs(hs[a], cs[a].nodes[n]);
    var k := cs[a].nodes[n].log.committed;
    var p := hs[a].log[n][..k];
    assert p <= hs[a].log[n];
    assert p <= hs[b].log[n];
    SamePrefixAt(p, hs[b].log[n], k);
    assert p[..k] == p;
    SameSeen(hs[a], hs[b], cs[a].nodes[n], cs[b].nodes[n], k, i);
    SeenIs(hs[b], cs[b].nodes[n], i);
  }

  /** No check that stops the process fires in any run, and the cursors of every log stay in order. */
  lemma NeverFatal(cs: seq<State>, es: seq<Event>, a: nat, n: Id)
    requires Run(cs, es) && AllCounted(cs, es) && a < |cs| && n in cs[a].nodes
    ensures !cs[a].nodes[n].fatal && Sane(cs[a].nodes[n]) && Shape(cs[a].nodes[n])
  {
    hide Run, AllCounted, Explains, Good, Inv, Core, Sane, Shape;
    var hs := RunExplained(cs, es);
    StillThere(hs, cs, es, a, n);
    Known(hs, cs, es, a, n);
    GoodShape(hs[a], cs[a].nodes[n]);
    ExplainedFine(hs, cs, es, a, n);
    FineIsSane(hs[a], n, cs[a].nodes[n]);
  }

  lemma ExplainedFine(hs: seq<History>, cs: seq<State>, es: seq<Event>, a: nat, n: Id)
    requires Explains(hs, cs, es) && a < |cs| && n in cs[a].nodes
    ensures NodeFine(hs[a], n, cs[a].nodes[n])
  {
    hide Extends;
    assert Backed(hs[a], cs[a]);
  }

  /** match is a sound lower bound: in the leader's term the follower holds the leader's log up to it. */
  lemma MatchIsSound(cs: seq<State>, es: seq<Event>, a: nat, l: Id, f: Id, i: nat)
    requires Run(cs, es) && AllCounted(cs, es) && a < |cs| && l in cs[a].nodes && f in cs[a].nodes
    requires cs[a].nodes[l].role == Leader && cs[a].nodes[f].term == cs[a].nodes[l].term
    requires f in cs[a].nodes[l].prs && i <= cs[a].nodes[l].prs[f].matched
    ensures i <= cs[a].nodes[f].log.LastIndex() && i <= cs[a].nodes[l].log.LastIndex()
    ensures SameAt(cs[a].nodes[l], cs[a].nodes[f], i)
  {
    hide Run, AllCounted, Explains, Good, Inv, Core, SameAt, Acked;
    var hs := RunExplained(cs, es);
    StillThere(hs, cs, es, a, l);
    StillThere(hs, cs, es, a, f);
    Known(hs, cs, es, a, l);
    Known(hs, cs, es, a, f);
    var h, lead := hs[a], cs[a].nodes[l];
    LeaderOf(h, lead);
    var k := lead.prs[f].matched;
    LeaderMatch(h, lead, f);
    if k > 0 {
      AckHeld(h, f, lead.term, k);
      var p := h.ll[lead.term][..k];
      assert h.log[f][..k] == p && h.log[l][..k] == p;
    }
    SameSeen(h, h, lead, cs[a].nodes[f], k, i);
    SeenIs(h, cs[a].nodes[f], i);
    SeenIs(h, lead, i);
  }

  /**
   In every run: a replicating follower's window rises strictly between match and next, and next stays within the log.
   */
  lemma WindowInOrder(cs: seq<State>, es: seq<Event>, a: nat, l: Id, f: Id)
    requires Run(cs, es) && AllCounted(cs, es) && a < |cs| && l in cs[a].nodes
    requires cs[a].nodes[l].role == Leader && f in cs[a].nodes[l].prs
    ensures var n := cs[a].nodes[l]; var p := n.prs[f];
      P.WindowOk(p, n.cfg.maxInflight) && 1 <= p.next <= n.log.LastIndex() + 1 && p.matched <= n.log.LastIndex()
  {
    hide Run, AllCounted, Explains, Inv, Core, SentOk, LeaderIs;
    var hs := RunExplained(cs, es);
    StillThere(hs, cs, es, a, l);
    Known(hs, cs, es, a, l);
    assert PrOk(hs[a], cs[a].nodes[l], f);
  }

  lemma LeaderMatch(h: History, n: Node, f: Id)
    requires Good(h, n) && n.role == Leader && f in n.prs
    ensures n.prs[f].matched <= n.log.LastIndex() && (n.prs[f].matched == 0 || Acked(h, f, n.term, n.prs[f].matched))
  {
  }

  /** A heartbeat in flight never names a commit index past what its addressee, still in that term, holds. */
  lemma HeartbeatCommitIsHeld(cs: seq<State>, es: seq<Event>, a: nat, m: Message)
    requires Run(cs, es) && AllCounted(cs, es) && a < |cs| && m in cs[a].net && m.mtype == MsgHeartbeat
    requires m.to in cs[a].nodes && cs[a].nodes[m.to].term == m.term
    ensures m.commit <= cs[a].nodes[m.to].log.LastIndex()
    ensures m.from in cs[a].nodes && (cs[a].nodes[m.from].term == m.term && cs[a].nodes[m.from].role == Leader ==>
      m.commit <= cs[a].nodes[m.from].log.committed && SameAt(cs[a].nodes[m.from], cs[a].nodes[m.to], m.commit))
  {
    hide Run, AllCounted, Explains, Good, Inv, Core, SameAt, Acked, LeaderIs;
    var hs := RunExplained(cs, es);
    StillThere(hs, cs, es, a, m.to);
    var h := hs[a];
    Known(hs, cs, es, a, m.to);
    ExplainedNet(hs, cs, es, a, m);
    LeaderIsVoter(h, m.term, m.from);
    ExplainedVoters(hs, cs, es, a);
    StillThere(hs, cs, es, a, m.from);
    Known(hs, cs, es, a, m.from);
    SeenIs(h, cs[a].nodes[m.to], m.commit);
    if m.commit > 0 { AckHeld(h, m.to, m.term, m.commit); }
    var lead := cs[a].nodes[m.from];
    if lead.term == m.term && lead.role == Leader {
      LeaderOf(h, lead);
      LeaderCommitIs(h, lead);
      if m.commit > 0 {
        var p := h.ll[m.term][..m.commit];
        assert h.log[m.to][..m.commit] == p && h.log[m.from][..m.commit] == p;
      }
      SameSeen(h, h, lead, cs[a].nodes[m.to], m.commit, m.commit);
    }
  }

  /**
   What a follower acknowledged it keeps as long as it is in that term, whatever appends of the term arrive again, late
   or out of order, and whatever became of the leader: it is the leader's log of that term, as seen at any time.
   */
  lemma AcknowledgedStays(cs: seq<State>, es: seq<Event>, a: nat, b: nat, d: nat, m: Message, l: Id, i: nat)
    requires Run(cs, es) && AllCounted(cs, es) && a <= b < |cs| && m in cs[a].net && m.mtype == MsgAppResp && !m.reject
    requires m.from in cs[b].nodes && cs[b].nodes[m.from].term == m.term && i <= m.index
    ensures i <= cs[b].nodes[m.from].log.LastIndex()
    ensures d < |cs| && l in cs[d].nodes && cs[d].nodes[l].role == Leader && cs[d].nodes[l].term == m.term ==>
      SameAt(cs[d].nodes[l], cs[b].nodes[m.from], i) && (a <= d ==> i <= cs[d].nodes[l].log.LastIndex())
  {
    hide Run, AllCounted, Explains, Good, Inv, Core, SameAt, LeaderIs, Later, LaterSafe, Acked;
    var hs := RunExplained(cs, es);
    StillThere(hs, cs, es, b, m.from);
    Known(hs, cs, es, b, m.from);
    ExplainedNet(hs, cs, es, a, m);
    TimePasses(hs, cs, es, a, b, m.from);
    if m.index > 0 {
      LaterAcked(hs[a], hs[b], m.from, m.term, m.index);
      AckHeld(hs[b], m.from, m.term, m.index);
      if d < |cs| && l in cs[d].nodes && cs[d].nodes[l].role == Leader && cs[d].nodes[l].term == m.term {
        StillThere(hs, cs, es, d, l);
        Known(hs, cs, es, d, l);
        LeaderOf(hs[d], cs[d].nodes[l]);
        if a <= d {
          TimePasses(hs, cs, es, a, d, l);
          LaterAcked(hs[a], hs[d], m.from, m.term, m.index);
          AckedLength(hs[d], m.from, m.term, m.index);
        }
        if d <= b {
          TimePasses(hs, cs, es, d, b, l);
          LaterLogs(hs[d], hs[b], m.term);
        } else {
          TimePasses(hs, cs, es, b, d, l);
          LaterLogs(hs[b], hs[d], m.term);
        }
        Overlap(hs[b], hs[d], m.from, l, m.term, m.index, i, cs[b].nodes[m.from], cs[d].nodes[l]);
      }
    } else {
      ZeroSame(cs, b, m.from, d, l, i);
    }
    SeenIs(hs[b], cs[b].nodes[m.from], i);
  }

  lemma LaterLogs(h: History, h': History, t: nat)
    requires Later(h, h') && t in h.ll
    ensures t in h'.ll && h.ll[t] <= h'.ll[t]
  {
  }

  lemma ZeroSame(cs: seq<State>, b: nat, f: Id, d: nat, l: Id, i: nat)
    requires i == 0 && b < |cs| && f in cs[b].nodes
    ensures d < |cs| && l in cs[d].nodes ==> SameAt(cs[d].nodes[l], cs[b].nodes[f], i)
  {
  }

  lemma AckedLength(h: History, n: Id, t: nat, i: nat)
    requires Inv(h) && Acked(h, n, t, i)
    ensures t in h.ll && i <= |h.ll[t]|
  {
    hide Nodes, Cands, Votes, Leaders, AcksKept, AcksVoted, Commits;
    assert AckOk(h, n, t);
  }

  /** The follower's acknowledged prefix and the leader's log, whichever is the longer view. */
  lemma Overlap(hb: History, hd: History, f: Id, l: Id, t: nat, k: nat, i: nat, nf: Node, nl: Node)
    requires Core(hb, nf) && nf.cfg.id == f && f in hb.log && t in hb.ll && k <= |hb.ll[t]|
    requires hb.ll[t][..k] <= hb.log[f]
    requires Core(hd, nl) && nl.cfg.id == l && l in hd.log && t in hd.ll && hd.log[l] == hd.ll[t] && i <= k
    requires hb.ll[t] <= hd.ll[t] || hd.ll[t] <= hb.ll[t]
    ensures SameAt(nl, nf, i) && nl.log.LastIndex() == |hd.ll[t]|
  {
    hide Core, SameAt;
    SeenIs(hd, nl, i);
    SeenIs(hb, nf, i);
    if i <= |hd.ll[t]| {
      assert hd.log[l][..i] == hb.log[f][..i];
      SameSeen(hd, hb, nl, nf, i, i);
    } else {
      Beyond(nl, nf, i);
    }
  }

  lemma Beyond(m: Node, n: Node, i: nat)
    requires i > m.log.LastIndex()
    ensures SameAt(m, n, i)
  {
  }

  lemma LaterAcked(h: History, h': History, n: Id, t: nat, i: nat)
    requires Later(h, h') && Acked(h, n, t, i)
    ensures Acked(h', n, t, i)
  {
  }

  lemma LeaderCommitIs(h: History, n: Node)
    requires Good(h, n) && n.role == Leader
    ensures n.term in h.lc && n.log.committed == h.lc[n.term]
  {
  }

  lemma ExplainedNet(hs: seq<History>, cs: seq<State>, es: seq<Event>, a: nat, m: Message)
    requires Explains(hs, cs, es) && a < |cs| && m in cs[a].net
    ensures MsgOk(hs[a], m)
  {
    hide Extends, Inv, NodeFine, MsgOk;
    assert Backed(hs[a], cs[a]);
    NetMessage(hs[a], cs[a].net, m);
  }

  lemma ExplainedVoters(hs: seq<History>, cs: seq<State>, es: seq<Event>, a: nat)
    requires Explains(hs, cs, es) && a < |cs|
    ensures hs[a].voters == cs[a].nodes.Keys
  {
    hide Extends;
    assert Backed(hs[a], cs[a]);
  }

  // --------------------------------------------------------------------------
  // Progress within a term

  lemma GoodTerm(h: History, n: Node)
    requires Good(h, n)
    ensures n.cfg.id in h.term && h.term[n.cfg.id] == n.term
  {
  }

  /** A step that adopts a later term never ends in the old one. */
  lemma CaughtUpTerm(h: History, n: Node, m: Message)
    requires Inv(h) && Good(h, n) && Drained(n.log) && MsgOk(h, m) && m.to == n.cfg.id && m.term > n.term
    requires !Miscounts(n, m)
    requires CatchUp(n, m) != n
    ensures Shape(CatchUp(n, m)) && Dispatch(CatchUp(n, m), m).term > n.term
  {
    hide Inv, Good, Extends, Dispatch, BecomeFollower, Miscounts, Shape, Current;
    var h1 := CatchUpKept(h, n, m);
    var n1 := CatchUp(n, m);
    GoodShape(h, n);
    CaughtUp(n, m);
    StepKeepsConfigOf(n1, m, h1);
    var h2 := DispatchKept(h1, n1, m);
    GoodTerm(h1, n1);
    GoodTerm(h2, Dispatch(n1, m));
    ExtendsLater(h1, h2, n.cfg.id, n.cfg.id);
  }

  lemma CaughtUp(n: Node, m: Message)
    requires !n.fatal && CatchUp(n, m) != n
    ensures CatchUp(n, m).term == m.term
  {
  }

  lemma StepKeepsConfigOf(n: Node, m: Message, h: History)
    requires Good(h, n)
    ensures Shape(n) && Dispatch(n, m).cfg == n.cfg && n.cfg.id in h.log
  {
    GoodShape(h, n);
    CoreFacts(h, n);
    hide Good, Dispatch;
    ConfigProofs.DispatchConfig(n, m);
  }

  lemma StepMatch(h: History, n: Node, m: Message, lease: bool)
    requires Inv(h) && Good(h, n) && Drained(n.log) && Arrives(h, n, m) && !Miscounts(n, m) && n.role == Leader
    ensures Shape(n) && var n' := Step(n, m, lease);
      n'.role == Leader && n'.term == n.term ==> Ahead(n, n')
  {
    hide Inv, Good, Ahead, Dispatch, CatchUp, StepStale, MsgOk, IsLocal, Shape, Miscounts;
    GoodShape(h, n);
    LocalTerm(m);
    AheadSame(n);
    DispatchAhead(n, m);
    StaleAhead(n, m);
    if m.term > n.term && CatchUp(n, m) != n {
      CaughtUpTerm(h, n, m);
    }
  }

  lemma StaleAhead(n: Node, m: Message)
    ensures Ahead(n, StepStale(n, m))
  {
  }

  /** A node whose leadership of its term is over does not lead that term again. */
  lemma NoComeback(h: History, n: Node, m: Message, lease: bool)
    requires Inv(h) && Good(h, n) && Drained(n.log) && Arrives(h, n, m) && !Miscounts(n, m)
    requires n.role != Leader && LeaderIs(h, n.term, n.cfg.id)
    ensures Shape(n) && var n' := Step(n, m, lease); n'.role == Leader ==> n'.term != n.term
  {
    hide Inv, Core, SentOk, Dispatch, CatchUp, StepStale, MsgOk, IsLocal, Shape, Miscounts, LeaderIs;
    GoodShape(h, n);
    LocalTerm(m);
    StaleRole(n, m);
    DispatchNextTerm(n, m);
    if m.term > n.term && CatchUp(n, m) != n {
      CaughtUpTerm(h, n, m);
    }
  }

  lemma StaleRole(n: Node, m: Message)
    ensures StepStale(n, m).role == n.role
  {
  }

  /** One step of the cluster keeps a leader's knowledge of a follower, unless the term or the leadership ends. */
  lemma NextMatch(h: History, c: State, e: Event, c': State, l: Id, f: Id)
    requires Backed(h, c) && Next(c, e, c') && Counted(c, e) && l in c.nodes && l in c'.nodes
    requires LeaderIs(h, c.nodes[l].term, l)
    requires c'.nodes[l].role == Leader && c'.nodes[l].term == c.nodes[l].term
    ensures c.nodes[l].role == Leader
    ensures f in c.nodes[l].prs && f in c'.nodes[l].prs ==> c.nodes[l].prs[f].matched <= c'.nodes[l].prs[f].matched
  {
    hide Inv, Good, NetOk, Step, Restarted, CompactTo, ApplyTo, Miscounts, IsLocal, Shape, Sane, CanCompact, CanApply,
      CanRestart, MsgOk, LeaderIs;
    if l == Actor(e) {
      var n := c.nodes[l];
      assert NodeFine(h, l, n);
      match e {
        case Deliver(m, lease) =>
          NetMessage(h, c.net, m);
          StepForward(h, n, m, lease);
        case Local(_, m) =>
          LocalCounts(n, m);
          StepForward(h, n, m, false);
        case Apply(_, to) => ApplySelf(n, to);
        case Compact(_, snap, base) => CompactSelf(n, snap, base);
        case Restart(_, commit) => RestartSelf(n, commit);
      }
    }
  }

  lemma StepForward(h: History, n: Node, m: Message, lease: bool)
    requires Inv(h) && Good(h, n) && Drained(n.log) && Arrives(h, n, m) && !Miscounts(n, m)
    requires LeaderIs(h, n.term, n.cfg.id)
    ensures Shape(n) && var n' := Step(n, m, lease);
      n'.role == Leader && n'.term == n.term ==> n.role == Leader && Ahead(n, n')
  {
    hide Inv, Good, Ahead, Step, MsgOk, IsLocal, Shape, Miscounts, LeaderIs;
    if n.role == Leader { StepMatch(h, n, m, lease); } else { NoComeback(h, n, m, lease); }
  }

  lemma ApplySelf(n: Node, to: nat)
    requires Sane(n) && CanApply(n, to)
    ensures var n' := ApplyTo(n, to); n'.role == n.role && n'.prs == n.prs
  {
  }

  lemma CompactSelf(n: Node, snap: nat, base: nat)
    requires CanCompact(n, snap, base)
    ensures var n' := CompactTo(n, snap, base); n'.role == n.role && n'.prs == n.prs
  {
  }

  lemma RestartSelf(n: Node, commit: nat)
    requires Sane(n) && CanRestart(n, commit)
    ensures Restarted(n, commit).role == Follower
  {
  }

  /** match never decreases while a node leads a term, and a term is led without interruption. */
  lemma {:induction false} MatchNeverDecreases(cs: seq<State>, es: seq<Event>, a: nat, b: nat, l: Id, f: Id)
    requires Run(cs, es) && AllCounted(cs, es) && a <= b < |cs| && l in cs[a].nodes && l in cs[b].nodes
    requires cs[a].nodes[l].role == Leader && cs[b].nodes[l].role == Leader
    requires cs[a].nodes[l].term == cs[b].nodes[l].term
    ensures f in cs[a].nodes[l].prs ==>
      f in cs[b].nodes[l].prs && cs[a].nodes[l].prs[f].matched <= cs[b].nodes[l].prs[f].matched
    decreases b - a
  {
    hide Run, AllCounted, Explains, Good, Inv, Core, Next, Counted, Backed, Extends, LeaderIs;
    if a < b {
      var k := b - 1;
      var hs := RunExplained(cs, es);
      Lengths(hs, cs, es);
      StillThere(hs, cs, es, a, l);
      Known(hs, cs, es, a, l);
      Known(hs, cs, es, k, l);
      Known(hs, cs, es, b, l);
      OneStep(hs, cs, es, k);
      TimePasses(hs, cs, es, a, k, l);
      TimePasses(hs, cs, es, k, b, l);
      LeaderOf(hs[a], cs[a].nodes[l]);
      StillLeads(hs[a], hs[k], cs[a].nodes[l].term, l);
      RunStep(cs, es, k);
      NextMatch(hs[k], cs[k], es[k], cs[b], l, f);
      SamePeers(hs, cs, es, k, b, l);
      MatchNeverDecreases(cs, es, a, k, l, f);
    }
  }

  lemma RunStep(cs: seq<State>, es: seq<Event>, k: nat)
    requires Run(cs, es) && AllCounted(cs, es) && k < |es|
    ensures |cs| == |es| + 1 && Next(cs[k], es[k], cs[k + 1]) && Counted(cs[k], es[k])
  {
  }

  lemma StillLeads(h: History, h': History, t: nat, l: Id)
    requires Later(h, h') && LeaderIs(h, t, l) && Inv(h')
    ensures LeaderIs(h', t, l)
  {
    InvElim(h');
    hide AcksKept, AcksVoted, Acks, Votes, Cands, Nodes, Commits, LeaderOk;
  }

  lemma SamePeers(hs: seq<History>, cs: seq<State>, es: seq<Event>, a: nat, b: nat, l: Id)
    requires Explains(hs, cs, es) && a <= b < |cs| && l in cs[0].nodes
    ensures l in cs[a].nodes && l in cs[b].nodes && cs[a].nodes[l].prs.Keys == cs[b].nodes[l].prs.Keys
  {
    hide Inv, Extends, Good, Backed, Explains;
    Known(hs, cs, es, a, l);
    Known(hs, cs, es, b, l);
    Lengths(hs, cs, es);
    TimePasses(hs, cs, es, a, b, l);
    PeersAre(hs[a], cs[a].nodes[l]);
    PeersAre(hs[b], cs[b].nodes[l]);
  }

  lemma PeersAre(h: History, n: Node)
    requires Core(h, n)
    ensures n.prs.Keys == h.voters
  {
  }
}
