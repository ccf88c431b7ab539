/** The individual steps of the protocol's history. Each one keeps the invariant of Protocol. */
module Actions {
  import opened Proto
  import opened Quorum
  import opened Logs
  import opened Protocol
  import opened Steps

  lemma InvIntro(h: History)
    requires Nodes(h) && Cands(h) && Votes(h) && Leaders(h) && Acks(h) && AcksKept(h) && AcksVoted(h) && Commits(h)
    ensures Inv(h)
  {
  }

  lemma InvElim(h: History)
    requires Inv(h)
    ensures Nodes(h) && Cands(h) && Votes(h) && Leaders(h) && Acks(h) && AcksKept(h) && AcksVoted(h) && Commits(h)
  {
  }

  /** A leader's term is one it has reached, and while it is still there its log is the leader log. */
  lemma LeaderFacts(h: History, u: nat)
    requires Cands(h) && Leaders(h) && u in h.ll
    ensures u in h.leader && u in h.electors && u in h.lc && LeaderOk(h, u)
    ensures h.leader[u] in h.term && u <= h.term[h.leader[u]] && h.leader[u] in h.log
    ensures h.term[h.leader[u]] == u ==> h.log[h.leader[u]] == h.ll[u]
  {
  }

  lemma OwnLogStays(h: History, h': History, n: Id)
    requires Cands(h) && Leaders(h) && h'.term == h.term && h'.log == h.log
    ensures forall u :: u in h.ll && h.leader[u] == n && n in h.term && h'.term[n] == u ==>
      n in h.log && h'.log[n] == h.ll[u]
  {
  }

  lemma NodeFacts(h: History, n: Id)
    requires Nodes(h) && n in h.voters
    ensures n in h.term && n in h.log && n in h.commit && LogOk(h.ll, h.log[n], h.term[n])
  {
  }

  // --------------------------------------------------------------------------
  // A node moves to a later term

  function SetTerm(h: History, n: Id, t: nat): History {
    h.(term := h.term[n := t])
  }

  lemma SetTermInv(h: History, n: Id, t: nat)
    requires Inv(h) && n in h.voters && n in h.term && h.term[n] < t
    ensures Inv(SetTerm(h, n, t)) && Extends(h, SetTerm(h, n, t), n)
  {
    hide *;
    InvElim(h);
    SetTermExtends(h, n, t);
    SetTermLogs(h, n, t);
    SetTermAcks(h, n, t);
    SetTermCommits(h, n, t);
    InvIntro(SetTerm(h, n, t));
  }

  lemma SetTermExtends(h: History, n: Id, t: nat)
    requires n in h.term && h.term[n] < t
    ensures Extends(h, SetTerm(h, n, t), n)
  {
  }

  lemma SetTermLogs(h: History, n: Id, t: nat)
    requires Nodes(h) && Cands(h) && Votes(h) && Leaders(h) && Acks(h) && n in h.voters && n in h.term && h.term[n] < t
    ensures var h' := SetTerm(h, n, t); Nodes(h') && Cands(h') && Votes(h') && Leaders(h') && Acks(h')
  {
    var h' := SetTerm(h, n, t);
    SetTermExtends(h, n, t);
    NodeFacts(h, n);
    OkGrows(h.ll, h.ll, h.log[n], h.term[n], t);
    forall u | u in h.ll && h.leader[u] == n ensures h'.term[n] != u {
      LeaderFacts(h, u);
    }
    hide Nodes, Cands, Votes, Leaders, Acks, LogOk, VoteOk, Extends;
    NodesStep(h, h', n);
    CandsStep(h, h', n);
    VotesStep(h, h', n);
    LeadersStep(h, h', n);
    AcksStep(h, h', n);
  }

  lemma SetTermAcks(h: History, n: Id, t: nat)
    requires Nodes(h) && Acks(h) && AcksKept(h) && AcksVoted(h) && n in h.voters && n in h.term && h.term[n] < t
    requires var h' := SetTerm(h, n, t); Nodes(h') && Votes(h') && Acks(h')
    ensures var h' := SetTerm(h, n, t); AcksKept(h') && AcksVoted(h')
  {
    var h' := SetTerm(h, n, t);
    SetTermExtends(h, n, t);
    forall u, i: nat | Acked(h', n, u, i) ensures AckOk(h', n, u) && AckKept(h', n, u, i) {
      SetTermAck(h, n, t, u, i);
    }
    hide Nodes, Votes, Acks, AcksKept, AcksVoted, Extends;
    AcksKeptStep(h, h', n);
    AcksVotedStep(h, h', n);
  }

  lemma SetTermAck(h: History, n: Id, t: nat, u: nat, i: nat)
    requires Nodes(h) && Acks(h) && AcksKept(h) && n in h.voters && n in h.term && n in h.log && h.term[n] < t
    requires Acked(h, n, u, i)
    ensures var h' := SetTerm(h, n, t); AckOk(h', n, u) && AckKept(h', n, u, i)
  {
  }

  lemma SetTermCommits(h: History, n: Id, t: nat)
    requires Inv(h) && n in h.voters && n in h.term && h.term[n] < t
    requires var h' := SetTerm(h, n, t); Nodes(h') && Leaders(h')
    ensures Commits(SetTerm(h, n, t))
  {
    hide LogOk, AcksKept, AcksVoted, LeaderOk, Safe, LeaderCommitOk;
    var h' := SetTerm(h, n, t);
    assert CommitOk(h, n);
    SafeGrows(h, h', n, h.log[n][..h.commit[n]], h.term[n], t);
    CommitsStep(h, h', n);
  }

  // --------------------------------------------------------------------------
  // A node opens a campaign in its current term and votes for itself

  ghost predicate CanOpen(h: History, n: Id) {
    && n in h.voters && n in h.term && n in h.log && h.term[n] >= 1
    && (n, h.term[n]) !in h.cands && (n, h.term[n]) !in h.votes
    && TermsUpTo(h.log[n], h.term[n] - 1)
  }

  function Open(h: History, n: Id): History
    requires n in h.term && n in h.log
  {
    h.(cands := h.cands[(n, h.term[n]) := h.log[n]],
       votes := h.votes[(n, h.term[n]) := Vote(n, h.log[n])])
  }

  lemma OpenInv(h: History, n: Id)
    requires Inv(h) && CanOpen(h, n)
    ensures Inv(Open(h, n)) && Extends(h, Open(h, n), n)
  {
    OpenExtends(h, n);
    OpenShape(h, n);
    hide *;
    InvElim(h);
    OpenLogs(h, n);
    VoteAcks(h, Open(h, n), n);
    VoteCommits(h, Open(h, n), n);
    InvIntro(Open(h, n));
  }

  lemma OpenExtends(h: History, n: Id)
    requires CanOpen(h, n)
    ensures Extends(h, Open(h, n), n)
  {
  }

  /** h' is h with one more vote, that of node n in its current term, cast with its current log. */
  ghost predicate AddsVote(h: History, h': History, n: Id) {
    && n in h.voters && n in h.term && n in h.log
    && h' == h.(cands := h'.cands, votes := h'.votes) && Extends(h, h', n)
    && var k := (n, h.term[n]);
    && k !in h.votes && k in h'.votes
    && h'.votes == h.votes[k := h'.votes[k]] && h'.votes[k].log == h.log[n]
  }

  lemma OpenShape(h: History, n: Id)
    requires CanOpen(h, n)
    ensures AddsVote(h, Open(h, n), n)
  {
  }

  lemma OpenLogs(h: History, n: Id)
    requires Nodes(h) && Cands(h) && Votes(h) && Leaders(h) && Acks(h) && CanOpen(h, n)
    ensures var h' := Open(h, n); Nodes(h') && Cands(h') && Votes(h') && Leaders(h') && Acks(h')
  {
    var h' := Open(h, n);
    OpenExtends(h, n);
    OpenCands(h, n);
    NodeFacts(h, n);
    OwnLogStays(h, h', n);
    hide Nodes, Cands, Votes, Leaders, Acks, LogOk, Extends;
    NodesStep(h, h', n);
    VotesStep(h, h', n);
    LeadersStep(h, h', n);
    AcksStep(h, h', n);
  }

  lemma OpenCands(h: History, n: Id)
    requires Nodes(h) && Cands(h) && CanOpen(h, n)
    ensures Cands(Open(h, n))
  {
  }

  /** Adding node n's vote of its current term keeps what is known about confirmed prefixes. */
  lemma VoteAcks(h: History, h': History, n: Id)
    requires Inv(h) && AddsVote(h, h', n)
    requires Nodes(h') && Votes(h') && Leaders(h') && Acks(h')
    ensures AcksKept(h') && AcksVoted(h')
  {
    hide Inv, Nodes, Votes, Leaders, Acks, AcksKept, AcksVoted, Extends, Commits, Cands;
    InvElim(h);
    VoteAcksKept(h, h', n);
    forall t, i: nat, u | Acked(h, n, t, i) && t < u && Counts(h', n, u) && !Counts(h, n, u)
      ensures AckOk(h', n, t) && AckVoted(h', n, t, i, u)
    {
      NewVoteKeeps(h, h', n, t, i, u);
    }
    assert forall m, u :: Counts(h', m, u) && !Counts(h, m, u) ==> m == n;
    AcksVotedStep(h, h', n);
  }

  lemma VoteAcksKept(h: History, h': History, n: Id)
    requires Nodes(h) && Acks(h) && AcksKept(h) && AddsVote(h, h', n) && Nodes(h') && Acks(h')
    ensures AcksKept(h')
  {
    hide LogOk;
    forall t, i: nat | Acked(h', n, t, i) ensures AckOk(h', n, t) && AckKept(h', n, t, i) {
      assert Acked(h, n, t, i) && AckKept(h, n, t, i);
    }
    AcksKeptStep(h, h', n);
  }

  lemma NewVoteKeeps(h: History, h': History, n: Id, t: nat, i: nat, u: nat)
    requires Nodes(h) && Leaders(h) && Acks(h) && AcksKept(h) && AddsVote(h, h', n) && Acks(h')
    requires Acked(h, n, t, i) && t < u && Counts(h', n, u) && !Counts(h, n, u)
    ensures AckOk(h', n, t) && (n, u) in h'.votes && AckVoted(h', n, t, i, u)
  {
    hide LogOk, LeaderOk, Extends;
    NoLeaderYet(h, h', n, u);
    assert AckOk(h, n, t) && AckKept(h, n, t, i);
    assert AckOk(h', n, t);
    hide Nodes, Leaders, Acks, AcksKept;
    HeldUpTo(h, h', h.ll[t][..i], t, u);
  }

  lemma HeldUpTo(h: History, h': History, p: Log, t: nat, u: nat)
    requires h'.ll == h.ll && u !in h.ll
    ensures HeldBetween(h', p, t, u) ==> HeldBetween(h, p, t, u + 1)
  {
  }

  lemma NoLeaderYet(h: History, h': History, n: Id, u: nat)
    requires Leaders(h) && AddsVote(h, h', n) && Counts(h', n, u) && !Counts(h, n, u)
    ensures u == h.term[n] && u !in h.ll
  {
  }

  lemma VoteCommits(h: History, h': History, n: Id)
    requires Inv(h) && AddsVote(h, h', n)
    requires Nodes(h') && Leaders(h')
    ensures Commits(h')
  {
    hide LogOk, AcksKept, AcksVoted, LeaderOk, Safe, LeaderCommitOk, Cands, Votes, Acks;
    assert CommitOk(h, n);
    SafeGrows(h, h', n, h.log[n][..h.commit[n]], h.term[n], h.term[n]);
    CommitsStep(h, h', n);
  }

  // --------------------------------------------------------------------------
  // A node votes for another node's open campaign

  ghost predicate CanCast(h: History, n: Id, c: Id) {
    && n in h.voters && n in h.term && n in h.log
    && (n, h.term[n]) !in h.votes
    && (c, h.term[n]) in h.cands
    && UpToDate(h.cands[(c, h.term[n])], h.log[n])
  }

  function Cast(h: History, n: Id, c: Id): History
    requires n in h.term && n in h.log
  {
    h.(votes := h.votes[(n, h.term[n]) := Vote(c, h.log[n])])
  }

  lemma CastInv(h: History, n: Id, c: Id)
    requires Inv(h) && CanCast(h, n, c)
    ensures Inv(Cast(h, n, c)) && Extends(h, Cast(h, n, c), n)
  {
    CastShape(h, n, c);
    hide *;
    InvElim(h);
    CastLogs(h, n, c);
    VoteAcks(h, Cast(h, n, c), n);
    VoteCommits(h, Cast(h, n, c), n);
    InvIntro(Cast(h, n, c));
  }

  lemma CastShape(h: History, n: Id, c: Id)
    requires CanCast(h, n, c)
    ensures AddsVote(h, Cast(h, n, c), n) && Extends(h, Cast(h, n, c), n)
  {
  }

  lemma CastLogs(h: History, n: Id, c: Id)
    requires Nodes(h) && Cands(h) && Votes(h) && Leaders(h) && Acks(h) && CanCast(h, n, c)
    ensures var h' := Cast(h, n, c); Nodes(h') && Cands(h') && Votes(h') && Leaders(h') && Acks(h')
  {
    var h' := Cast(h, n, c);
    CastShape(h, n, c);
    NodeFacts(h, n);
    assert CandOk(h, c, h.term[n]);
    OwnLogStays(h, h', n);
    hide Nodes, Cands, Votes, Leaders, Acks, LogOk, Extends;
    NodesStep(h, h', n);
    CandsStep(h, h', n);
    VotesStep(h, h', n);
    LeadersStep(h, h', n);
    AcksStep(h, h', n);
  }

  // --------------------------------------------------------------------------
  // A candidate with a majority of votes becomes leader

  ghost predicate CanElect(h: History, c: Id, q: set<Id>) {
    && c in h.voters && c in h.term && c in h.log && c in h.commit
    && var t := h.term[c];
    && t !in h.ll && (c, t) in h.cands && h.cands[(c, t)] == h.log[c]
    && IsQuorum(h.voters, q) && forall n :: n in q ==> VotedFor(h, n, t, c)
  }

  function Elect(h: History, c: Id, q: set<Id>): History
    requires c in h.term && c in h.log && c in h.commit
  {
    var t := h.term[c];
    h.(leader := h.leader[t := c], electors := h.electors[t := q],
       ll := h.ll[t := h.log[c]], lc := h.lc[t := h.commit[c]])
  }

  lemma ElectInv(h: History, c: Id, q: set<Id>)
    requires Inv(h) && CanElect(h, c, q)
    ensures Inv(Elect(h, c, q)) && Extends(h, Elect(h, c, q), c)
  {
    var h' := Elect(h, c, q);
    hide *;
    InvElim(h);
    ElectExtends(h, c, q);
    ElectLogs(h, c, q);
    ElectAcks(h, c, q);
    ElectCommits(h, c, q);
    InvIntro(h');
  }

  lemma ElectExtends(h: History, c: Id, q: set<Id>)
    requires Leaders(h) && CanElect(h, c, q)
    ensures Extends(h, Elect(h, c, q), c) && NoNewHolders(h, Elect(h, c, q))
  {
    hide LeaderOk;
  }

  lemma ElectLogs(h: History, c: Id, q: set<Id>)
    requires Nodes(h) && Cands(h) && Votes(h) && Leaders(h) && Acks(h) && CanElect(h, c, q)
    ensures var h' := Elect(h, c, q); Nodes(h') && Cands(h') && Votes(h') && Leaders(h') && Acks(h')
  {
    var h' := Elect(h, c, q);
    ElectExtends(h, c, q);
    NodeFacts(h, c);
    OkGrows(h.ll, h'.ll, h.log[c], h.term[c], h.term[c]);
    ElectLeaders(h, c, q);
    hide Nodes, Cands, Votes, Leaders, Acks, LogOk, Extends, NoNewHolders;
    NodesStep(h, h', c);
    CandsStep(h, h', c);
    VotesStep(h, h', c);
    AcksStep(h, h', c);
  }

  lemma ElectLeaders(h: History, c: Id, q: set<Id>)
    requires Nodes(h) && Cands(h) && Leaders(h) && CanElect(h, c, q)
    ensures Leaders(Elect(h, c, q))
  {
    var h' := Elect(h, c, q);
    ElectKeys(h, c, q);
    hide LogOk, LeaderOk, Extends, NoNewHolders, Nodes, Cands;
    ElectNewLeader(h, c, q);
    forall u | u in h'.ll ensures LeaderOk(h', u) {
      if u in h.ll {
        ElectExtends(h, c, q);
        LeaderFacts(h, u);
        ElectOldLeader(h, c, q, u);
      }
    }
  }

  lemma ElectKeys(h: History, c: Id, q: set<Id>)
    requires Leaders(h) && CanElect(h, c, q)
    ensures var h' := Elect(h, c, q);
      h'.leader.Keys == h'.ll.Keys && h'.electors.Keys == h'.ll.Keys && h'.lc.Keys == h'.ll.Keys
    ensures forall u :: u in Elect(h, c, q).ll ==> u in h.ll || u == h.term[c]
  {
    hide LeaderOk;
  }

  lemma ElectOldLeader(h: History, c: Id, q: set<Id>, u: nat)
    requires CanElect(h, c, q) && u in h.ll && u in h.electors && u in h.leader && LeaderOk(h, u)
    requires Extends(h, Elect(h, c, q), c)
    ensures LeaderOk(Elect(h, c, q), u)
  {
    hide LogOk, LeaderOk, Extends, IsQuorum, VotedFor;
    LeaderStep(h, Elect(h, c, q), c, u);
  }

  lemma ElectNewLeader(h: History, c: Id, q: set<Id>)
    requires Nodes(h) && Leaders(h) && CanElect(h, c, q)
    ensures LeaderOk(Elect(h, c, q), h.term[c])
  {
    hide LogOk, Extends, NoNewHolders, Nodes, Leaders;
    var h' := Elect(h, c, q);
    ElectExtends(h, c, q);
    NodeFacts(h, c);
    OkGrows(h.ll, h'.ll, h.log[c], h.term[c], h.term[c]);
    forall n | n in q ensures VotedFor(h', n, h.term[c], c) { assert VotedFor(h, n, h.term[c], c); }
  }

  lemma ElectAcks(h: History, c: Id, q: set<Id>)
    requires Nodes(h) && Leaders(h) && Acks(h) && AcksKept(h) && AcksVoted(h) && CanElect(h, c, q)
    requires var h' := Elect(h, c, q); Nodes(h') && Votes(h') && Acks(h')
    ensures var h' := Elect(h, c, q); AcksKept(h') && AcksVoted(h')
  {
    var h' := Elect(h, c, q);
    ElectExtends(h, c, q);
    ElectCounts(h, c, q);
    hide LogOk, LeaderOk, Leaders, Votes, Acks, AcksKept, AcksVoted, Extends, NoNewHolders;
    forall t, i: nat | Acked(h', c, t, i) ensures AckOk(h', c, t) && AckKept(h', c, t, i) {
      AckKeptLogGrows(h, h', c, t, i);
    }
    AcksKeptStep(h, h', c);
    AcksVotedStep(h, h', c);
  }

  lemma ElectCounts(h: History, c: Id, q: set<Id>)
    requires Leaders(h) && CanElect(h, c, q)
    ensures forall m, u :: Counts(Elect(h, c, q), m, u) ==> Counts(h, m, u)
  {
  }

  /** A node that stays in its term and only adds to its log keeps what it confirmed earlier. */
  lemma AckKeptLogGrows(h: History, h': History, n: Id, t: nat, i: nat)
    requires Nodes(h) && Acks(h) && AcksKept(h) && Extends(h, h', n) && NoNewHolders(h, h') && Acks(h')
    requires n in h.term && n in h.log && n in h'.term && n in h'.log
    requires h'.term[n] == h.term[n] && h.log[n] <= h'.log[n] && Acked(h, n, t, i)
    ensures AckOk(h', n, t) && AckKept(h', n, t, i)
  {
    hide LogOk;
    assert AckOk(h, n, t) && AckKept(h, n, t, i);
    assert (n, t) in h'.acks && AckOk(h', n, t);
    assert h'.ll[t][..i] == h.ll[t][..i];
    if HeldBetween(h', h.ll[t][..i], t, h.term[n] + 1) {
      HeldStep(h, h', n, t, i, h.term[n] + 1, h.term[n] + 1);
      PrefixTrans(h.ll[t][..i], h.log[n], h'.log[n]);
    }
  }

  lemma ElectCommits(h: History, c: Id, q: set<Id>)
    requires Inv(h) && CanElect(h, c, q)
    requires Nodes(Elect(h, c, q)) && Leaders(Elect(h, c, q))
    ensures Commits(Elect(h, c, q))
  {
    hide Nodes, Leaders, Inv, Safe, Extends, NoNewHolders, Commits, Cands, Votes, Acks, AcksKept, AcksVoted;
    var h' := Elect(h, c, q);
    InvElim(h);
    ElectExtends(h, c, q);
    CommitBound(h, c);
    SameCommit(h, h', c);
    SafeGrows(h, h', c, h.log[c][..h.commit[c]], h.term[c], h.term[c]);
    ElectKeys(h, c, q);
    assert LeaderCommitOk(h', h.term[c]);
    hide CommitOk, LeaderCommitOk, IsQuorum, VotedFor;
    CommitsStep(h, h', c);
  }

  /** The committed prefix of a node survives a step that keeps it in the log. */
  lemma SameCommit(h: History, h': History, n: Id)
    requires Nodes(h) && Leaders(h) && Commits(h) && n in h.voters && Extends(h, h', n)
    requires n in h.log && n in h'.log && n in h.commit && n in h'.commit && n in h.term && n in h'.term
    requires h'.commit[n] == h.commit[n] && |h'.log[n]| >= h.commit[n] && |h.log[n]| >= h.commit[n]
    requires h'.log[n][..h.commit[n]] == h.log[n][..h.commit[n]]
    ensures CommitOk(h', n)
  {
    hide LogOk, LeaderOk, Safe, LeaderCommitOk;
    assert CommitOk(h, n);
    SafeGrows(h, h', n, h.log[n][..h.commit[n]], h.term[n], h'.term[n]);
  }

  // --------------------------------------------------------------------------
  // A leader appends entries of its term

  ghost predicate CanExtend(h: History, c: Id, es: seq<Entry>) {
    && c in h.voters && c in h.term && c in h.log
    && var t := h.term[c];
    && t in h.ll && t in h.leader && h.leader[t] == c && h.log[c] == h.ll[t] && t >= 1
    && forall i :: 0 <= i < |es| ==> es[i].term == t && es[i].index == |h.ll[t]| + 1 + i
  }

  function Extend(h: History, c: Id, es: seq<Entry>): History
    requires c in h.term && c in h.log
  {
    var l := h.log[c] + es;
    h.(log := h.log[c := l], ll := h.ll[h.term[c] := l])
  }

  lemma ExtendInv(h: History, c: Id, es: seq<Entry>)
    requires Inv(h) && CanExtend(h, c, es)
    ensures Inv(Extend(h, c, es)) && Extends(h, Extend(h, c, es), c)
  {
    var h' := Extend(h, c, es);
    hide *;
    InvElim(h);
    ExtendExtends(h, c, es);
    ExtendHolders(h, c, es);
    ExtendLogs(h, c, es);
    ExtendAcks(h, c, es);
    ExtendShape(h, c, es);
    CommitsGrow(h, h', c);
    InvIntro(h');
  }

  lemma ExtendExtends(h: History, c: Id, es: seq<Entry>)
    requires CanExtend(h, c, es)
    ensures Extends(h, Extend(h, c, es), c)
  {
  }

  /** The appended entries are of a later term than anything an older leader could have confirmed. */
  lemma ExtendHolders(h: History, c: Id, es: seq<Entry>)
    requires Leaders(h) && CanExtend(h, c, es)
    ensures NoNewHolders(h, Extend(h, c, es))
  {
    var h' := Extend(h, c, es);
    var u := h.term[c];
    forall t, i: nat | t in h.ll && i <= |h.ll[t]| && t < u && h.ll[t][..i] <= h'.ll[u]
      ensures h.ll[t][..i] <= h.ll[u]
    {
      ExtendHolder(h, c, es, t, i);
    }
  }

  lemma ExtendHolder(h: History, c: Id, es: seq<Entry>, t: nat, i: nat)
    requires Leaders(h) && CanExtend(h, c, es)
    requires t in h.ll && i <= |h.ll[t]| && t < h.term[c]
    requires h.ll[t][..i] <= h.log[c] + es
    ensures h.ll[t][..i] <= h.ll[h.term[c]]
  {
    hide AllFromLeaders;
    var p, l := h.ll[t][..i], h.log[c];
    assert LeaderOk(h, t);
    assert forall k :: |l| <= k < |l + es| ==> (l + es)[k].term == h.term[c];
    if i > |l| {
      SamePosition(p, l + es, |l|);
    }
  }

  lemma SamePosition(p: Log, l: Log, k: nat)
    requires p <= l && k < |p|
    ensures p[k] == l[k]
  {
  }

  lemma ExtendedLogOk(h: History, c: Id, es: seq<Entry>)
    requires CanExtend(h, c, es) && LogOk(h.ll, h.log[c], h.term[c]) && Grows(h.ll, Extend(h, c, es).ll)
    ensures var h' := Extend(h, c, es); LogOk(h'.ll, h'.log[c], h.term[c])
  {
    var h' := Extend(h, c, es);
    var l, l' := h.log[c], h'.log[c];
    OkGrows(h.ll, h'.ll, l, h.term[c], h.term[c]);
    forall i | 0 <= i < |l'| ensures FromLeader(h'.ll, l', i) {
      if i < |l| {
        assert FromLeader(h'.ll, l, i);
        assert l'[..i + 1] == l[..i + 1];
      }
    }
  }

  lemma ExtendLogs(h: History, c: Id, es: seq<Entry>)
    requires Nodes(h) && Cands(h) && Votes(h) && Leaders(h) && Acks(h) && CanExtend(h, c, es)
    ensures var h' := Extend(h, c, es); Nodes(h') && Cands(h') && Votes(h') && Leaders(h') && Acks(h')
  {
    var h' := Extend(h, c, es);
    ExtendExtends(h, c, es);
    NodeFacts(h, c);
    ExtendedLogOk(h, c, es);
    hide Nodes, Cands, Votes, Leaders, Acks, LogOk, Extends;
    ExtendLeaders(h, c, es);
    NodesStep(h, h', c);
    CandsStep(h, h', c);
    VotesStep(h, h', c);
    AcksStep(h, h', c);
  }

  lemma ExtendLeaders(h: History, c: Id, es: seq<Entry>)
    requires Nodes(h) && Cands(h) && Leaders(h) && CanExtend(h, c, es)
    ensures Leaders(Extend(h, c, es))
  {
    var h' := Extend(h, c, es);
    ExtendKeys(h, c, es);
    ExtendExtends(h, c, es);
    NodeFacts(h, c);
    ExtendedLogOk(h, c, es);
    forall u | u in h.ll ensures LeaderOk(h', u) {
      ExtendLeader(h, c, es, u);
    }
    hide LogOk, LeaderOk, Extends, Nodes, Cands;
  }

  lemma ExtendKeys(h: History, c: Id, es: seq<Entry>)
    requires CanExtend(h, c, es)
    ensures Extend(h, c, es).ll.Keys == h.ll.Keys
  {
  }

  lemma ExtendLeader(h: History, c: Id, es: seq<Entry>, u: nat)
    requires Cands(h) && Leaders(h) && CanExtend(h, c, es) && u in h.ll
    requires Extends(h, Extend(h, c, es), c) && LogOk(Extend(h, c, es).ll, Extend(h, c, es).log[c], h.term[c])
    ensures LeaderOk(Extend(h, c, es), u)
  {
    hide LogOk, LeaderOk, Extends, Cands;
    LeaderFacts(h, u);
    if u == h.term[c] {
      ExtendOwn(h, c, es);
    } else {
      ExtendOther(h, c, es, u);
    }
  }

  lemma ExtendOwn(h: History, c: Id, es: seq<Entry>)
    requires CanExtend(h, c, es) && LeaderOk(h, h.term[c])
    requires LogOk(Extend(h, c, es).ll, Extend(h, c, es).log[c], h.term[c])
    ensures LeaderOk(Extend(h, c, es), h.term[c])
  {
  }

  lemma ExtendOther(h: History, c: Id, es: seq<Entry>, u: nat)
    requires CanExtend(h, c, es) && u in h.ll && u in h.leader && u in h.electors && LeaderOk(h, u) && u != h.term[c]
    requires Extends(h, Extend(h, c, es), c)
    ensures LeaderOk(Extend(h, c, es), u)
  {
    hide LogOk, LeaderOk, Extends;
    LeaderStep(h, Extend(h, c, es), c, u);
  }

  lemma ExtendAcks(h: History, c: Id, es: seq<Entry>)
    requires Nodes(h) && Acks(h) && AcksKept(h) && AcksVoted(h) && CanExtend(h, c, es)
    requires var h' := Extend(h, c, es); Nodes(h') && Votes(h') && Acks(h') && Extends(h, h', c) && NoNewHolders(h, h')
    ensures var h' := Extend(h, c, es); AcksKept(h') && AcksVoted(h')
  {
    var h' := Extend(h, c, es);
    hide Nodes, LogOk, Votes, Acks, AcksKept, AcksVoted, Extends, NoNewHolders;
    forall t, i: nat | Acked(h', c, t, i) ensures AckOk(h', c, t) && AckKept(h', c, t, i) {
      AckKeptLogGrows(h, h', c, t, i);
    }
    AcksKeptStep(h, h', c);
    AcksVotedStep(h, h', c);
  }

  lemma CommitsGrow(h: History, h': History, n: Id)
    requires Nodes(h) && Leaders(h) && Commits(h) && Extends(h, h', n) && Nodes(h') && Leaders(h')
    requires h'.commit == h.commit && h'.lc == h.lc && h'.ll.Keys == h.ll.Keys
    requires n in h.voters && n in h.log && n in h'.log && h.log[n] <= h'.log[n]
    ensures Commits(h')
  {
    hide *;
    NodeFacts(h, n);
    CommitBound(h, n);
    var p := h.log[n][..h.commit[n]];
    PrefixTrans(p, h.log[n], h'.log[n]);
    SlicePrefix(h.log[n], h'.log[n], h.commit[n]);
    CommitsSame(h, h', n);
  }

  lemma ExtendShape(h: History, c: Id, es: seq<Entry>)
    requires CanExtend(h, c, es)
    ensures var h' := Extend(h, c, es);
      c in h.voters && c in h.log && c in h'.log && h.log[c] <= h'.log[c]
      && h'.commit == h.commit && h'.lc == h.lc && h'.ll.Keys == h.ll.Keys
  {
  }

  lemma SlicePrefix(l: Log, l': Log, k: nat)
    requires k <= |l| && l[..k] <= l'
    ensures l'[..k] == l[..k]
  {
  }

  /** A step that moves no commit index and keeps node n's committed prefix in its log. */
  lemma CommitsSame(h: History, h': History, n: Id)
    requires Nodes(h) && Leaders(h) && Commits(h) && Extends(h, h', n) && Nodes(h') && Leaders(h')
    requires h'.commit == h.commit && h'.lc == h.lc && h'.ll.Keys == h.ll.Keys
    requires n in h.voters && n in h.log && n in h'.log && n in h.commit
    requires h.commit[n] <= |h.log[n]| && h.commit[n] <= |h'.log[n]|
    requires h'.log[n][..h.commit[n]] == h.log[n][..h.commit[n]]
    ensures Commits(h')
  {
    hide LogOk, LeaderOk, Safe, LeaderCommitOk, CommitOk, Commits, Extends;
    SameCommit(h, h', n);
    CommitsStep(h, h', n);
  }

  lemma CommitBound(h: History, n: Id)
    requires Nodes(h) && Leaders(h) && Commits(h) && n in h.voters && n in h.commit && n in h.log && n in h.term
    ensures h.commit[n] <= |h.log[n]| && Safe(h, h.log[n][..h.commit[n]], h.term[n])
  {
  }

  // --------------------------------------------------------------------------
  // A follower takes over a piece of the leader's log

  ghost predicate CanAdopt(h: History, n: Id, q: nat) {
    n in h.voters && n in h.term && n in h.log && h.term[n] in h.ll && q <= |h.ll[h.term[n]]|
  }

  function Adopt(h: History, n: Id, q: nat): History
    requires n in h.term && n in h.log && h.term[n] in h.ll && q <= |h.ll[h.term[n]]|
  {
    h.(log := h.log[n := Adopted(h.log[n], h.ll[h.term[n]], q)])
  }

  lemma AdoptInv(h: History, n: Id, q: nat)
    requires Inv(h) && CanAdopt(h, n, q)
    ensures Inv(Adopt(h, n, q)) && Extends(h, Adopt(h, n, q), n)
    ensures n in h.commit && h.commit[n] <= |h.log[n]| && h.log[n][..h.commit[n]] <= Adopt(h, n, q).log[n]
    ensures h.log[n][..h.commit[n]] <= h.ll[h.term[n]]
  {
    var h' := Adopt(h, n, q);
    hide *;
    AdoptExtends(h, n, q);
    InvElim(h);
    AdoptLogs(h, n, q);
    AdoptAcks(h, n, q);
    AdoptCommits(h, n, q);
    InvIntro(h');
  }

  /** Cutting a log back to the leader's loses nothing that was committed: the leader has that too. */
  lemma AdoptKeepsSafe(h: History, n: Id, q: nat)
    requires Inv(h) && CanAdopt(h, n, q)
    ensures KeepsSafe(h, Adopt(h, n, q), n)
  {
    hide Inv, Safe;
    var h' := Adopt(h, n, q);
    forall p: Log | p <= h.log[n] && Safe(h, p, h.term[n]) ensures p <= h'.log[n] {
      SafeInLeader(h, p, h.term[n], h.term[n]);
      AdoptedKeepsPrefix(h.log[n], h.ll[h.term[n]], q, p);
    }
  }

  lemma AdoptExtends(h: History, n: Id, q: nat)
    requires Inv(h) && CanAdopt(h, n, q)
    ensures Extends(h, Adopt(h, n, q), n) && NoNewHolders(h, Adopt(h, n, q))
  {
    hide Inv, KeepsSafe, Adopted;
    AdoptKeepsSafe(h, n, q);
    hide Adopted;
  }

  lemma AdoptLogs(h: History, n: Id, q: nat)
    requires Nodes(h) && Cands(h) && Votes(h) && Leaders(h) && Acks(h) && CanAdopt(h, n, q)
    requires Extends(h, Adopt(h, n, q), n)
    ensures var h' := Adopt(h, n, q); Nodes(h') && Cands(h') && Votes(h') && Leaders(h') && Acks(h')
  {
    hide LogOk, LeaderOk, Nodes, Cands, Votes, Leaders, Acks, Extends, Adopted;
    var h' := Adopt(h, n, q);
    NodeFacts(h, n);
    LeaderFacts(h, h.term[n]);
    AdoptedOk(h, n, q);
    AdoptsOwn(h, n, q);
    NodesStep(h, h', n);
    CandsStep(h, h', n);
    VotesStep(h, h', n);
    LeadersStep(h, h', n);
    AcksStep(h, h', n);
  }

  /** A leader that is told of its own log has it already. */
  lemma AdoptsOwn(h: History, n: Id, q: nat)
    requires Nodes(h) && Cands(h) && Leaders(h) && CanAdopt(h, n, q)
    ensures forall u :: u in h.ll && u in h.leader && h.leader[u] == n && h.term[n] == u ==>
      Adopt(h, n, q).log[n] == h.ll[u]
  {
    hide Nodes, Cands, Leaders, Adopted, LeaderOk;
    forall u | u in h.ll && u in h.leader && h.leader[u] == n && h.term[n] == u
      ensures Adopt(h, n, q).log[n] == h.ll[u]
    {
      LeaderFacts(h, u);
      AdoptedSelf(h.ll[u], q);
    }
  }

  lemma AdoptedSelf(l: Log, q: nat)
    requires q <= |l|
    ensures Adopted(l, l, q) == l
  {
  }

  lemma AdoptedOk(h: History, n: Id, q: nat)
    requires CanAdopt(h, n, q) && LogOk(h.ll, h.log[n], h.term[n]) && LeaderOk(h, h.term[n])
    ensures LogOk(h.ll, Adopt(h, n, q).log[n], h.term[n])
  {
    hide LogOk;
    PrefixOk(h.ll, h.ll[h.term[n]], q, h.term[n]);
  }

  lemma AdoptAcks(h: History, n: Id, q: nat)
    requires Nodes(h) && Acks(h) && AcksKept(h) && AcksVoted(h) && CanAdopt(h, n, q)
    requires var h' := Adopt(h, n, q); Nodes(h') && Votes(h') && Acks(h') && Extends(h, h', n) && NoNewHolders(h, h')
    ensures var h' := Adopt(h, n, q); AcksKept(h') && AcksVoted(h')
  {
    var h' := Adopt(h, n, q);
    hide Nodes, LogOk, Votes, Acks, AcksKept, AcksVoted, Extends, NoNewHolders, Adopted;
    forall t, i: nat | Acked(h', n, t, i) ensures AckOk(h', n, t) && AckKept(h', n, t, i) {
      AdoptAck(h, n, q, t, i);
    }
    AcksKeptStep(h, h', n);
    AcksVotedStep(h, h', n);
  }

  lemma AdoptAck(h: History, n: Id, q: nat, t: nat, i: nat)
    requires Nodes(h) && Acks(h) && AcksKept(h) && CanAdopt(h, n, q) && Acked(h, n, t, i)
    ensures var h' := Adopt(h, n, q); AckOk(h', n, t) && AckKept(h', n, t, i)
  {
  }

  lemma AdoptCommits(h: History, n: Id, q: nat)
    requires Inv(h) && CanAdopt(h, n, q)
    requires var h' := Adopt(h, n, q); Nodes(h') && Leaders(h') && Extends(h, h', n)
    ensures Commits(Adopt(h, n, q))
    ensures n in h.commit && h.commit[n] <= |h.log[n]| && h.log[n][..h.commit[n]] <= Adopt(h, n, q).log[n]
    ensures h.log[n][..h.commit[n]] <= h.ll[h.term[n]]
  {
    hide Inv, Nodes, Leaders, Extends, Commits, Adopted;
    var h' := Adopt(h, n, q);
    var t := h.term[n];
    AdoptShape(h, n, q);
    InvElim(h);
    NodeFacts(h, n);
    CommitBound(h, n);
    var p := h.log[n][..h.commit[n]];
    SafeInLeader(h, p, t, t);
    AdoptedKeepsPrefix(h.log[n], h.ll[t], q, p);
    SlicePrefix(h.log[n], h'.log[n], h.commit[n]);
    CommitsSame(h, h', n);
  }

  lemma AdoptShape(h: History, n: Id, q: nat)
    requires CanAdopt(h, n, q)
    ensures var h' := Adopt(h, n, q);
      n in h.voters && n in h.log && n in h'.log && h'.log[n] == Adopted(h.log[n], h.ll[h.term[n]], q)
      && h'.commit == h.commit && h'.lc == h.lc && h'.ll == h.ll
  {
  }

  // --------------------------------------------------------------------------
  // A node confirms a prefix of the leader log of its current term

  ghost predicate CanConfirm(h: History, n: Id, i: nat) {
    && n in h.voters && n in h.term && n in h.log
    && var t := h.term[n];
    && t in h.ll && i <= |h.ll[t]| && h.ll[t][..i] <= h.log[n]
  }

  function Confirm(h: History, n: Id, i: nat): History
    requires n in h.term
  {
    h.(acks := Raise(h.acks, (n, h.term[n]), i))
  }

  function Raise<K>(a: map<K, nat>, k: K, i: nat): map<K, nat> {
    if k in a && i <= a[k] then a else a[k := i]
  }

  lemma ConfirmInv(h: History, n: Id, i: nat)
    requires Inv(h) && CanConfirm(h, n, i)
    ensures Inv(Confirm(h, n, i)) && Extends(h, Confirm(h, n, i), n)
    ensures Acked(Confirm(h, n, i), n, h.term[n], i)
  {
    var h' := Confirm(h, n, i);
    ConfirmShape(h, n, i);
    if h' != h {
      hide *;
      InvElim(h);
      ConfirmAcksOk(h, n, i);
      ConfirmLogs(h, h', n);
      ConfirmAcks(h, n, i);
      CommitsGrow(h, h', n);
      InvIntro(h');
    }
  }

  ghost predicate OnlyAcks(h: History, h': History, n: Id) {
    && n in h.voters && n in h.log && n in h'.log && h.log[n] <= h'.log[n]
    && h' == h.(acks := h'.acks) && Extends(h, h', n) && NoNewHolders(h, h')
    && h'.commit == h.commit && h'.lc == h.lc && h'.ll.Keys == h.ll.Keys
  }

  lemma ConfirmShape(h: History, n: Id, i: nat)
    requires CanConfirm(h, n, i)
    ensures OnlyAcks(h, Confirm(h, n, i), n) && Extends(h, Confirm(h, n, i), n)
    ensures n in h.voters && n in h.log && n in Confirm(h, n, i).log && h.log[n] <= Confirm(h, n, i).log[n]
    ensures var h' := Confirm(h, n, i); h'.commit == h.commit && h'.lc == h.lc && h'.ll.Keys == h.ll.Keys
    ensures Acked(Confirm(h, n, i), n, h.term[n], i)
  {
  }

  lemma ConfirmAcksOk(h: History, n: Id, i: nat)
    requires CanConfirm(h, n, i) && Acks(h)
    ensures Acks(Confirm(h, n, i))
  {
  }

  lemma ConfirmLogs(h: History, h': History, n: Id)
    requires Nodes(h) && Cands(h) && Votes(h) && Leaders(h) && OnlyAcks(h, h', n)
    ensures Nodes(h') && Cands(h') && Votes(h') && Leaders(h')
  {
    NodeFacts(h, n);
    OwnLogStays(h, h', n);
    hide Nodes, Cands, Votes, Leaders, LogOk, Extends, NoNewHolders;
    NodesStep(h, h', n);
    CandsStep(h, h', n);
    VotesStep(h, h', n);
    LeadersStep(h, h', n);
  }

  lemma ConfirmAcks(h: History, n: Id, i: nat)
    requires Nodes(h) && Acks(h) && AcksKept(h) && AcksVoted(h) && CanConfirm(h, n, i) && Confirm(h, n, i) != h
    requires var h' := Confirm(h, n, i); Nodes(h') && Votes(h') && Acks(h') && OnlyAcks(h, h', n)
    ensures var h' := Confirm(h, n, i); AcksKept(h') && AcksVoted(h')
  {
    var h' := Confirm(h, n, i);
    ConfirmOnly(h, n, i);
    forall t, k: nat | Acked(h', n, t, k) ensures AckOk(h', n, t) && AckKept(h', n, t, k) {
      ConfirmAck(h, n, i, t, k);
    }
    hide Nodes, LogOk, Votes, Acks, AcksKept, AcksVoted, Extends, NoNewHolders;
    AcksKeptStep(h, h', n);
    AcksVotedStep(h, h', n);
  }

  lemma ConfirmOnly(h: History, n: Id, i: nat)
    requires CanConfirm(h, n, i)
    ensures AcksByOnly(h, Confirm(h, n, i), n)
    ensures forall m, u :: Counts(Confirm(h, n, i), m, u) ==> Counts(h, m, u)
  {
  }

  lemma ConfirmAck(h: History, n: Id, i: nat, t: nat, k: nat)
    requires Nodes(h) && Acks(h) && AcksKept(h) && CanConfirm(h, n, i) && Acked(Confirm(h, n, i), n, t, k)
    requires Acks(Confirm(h, n, i))
    ensures var h' := Confirm(h, n, i); AckOk(h', n, t) && AckKept(h', n, t, k)
  {
    hide LogOk, Nodes;
    var h' := Confirm(h, n, i);
    assert AckOk(h', n, t);
    if Acked(h, n, t, k) {
      assert AckKept(h, n, t, k);
    } else {
      hide Acks, AcksKept;
      PrefixTrans(h.ll[t][..k], h.ll[t][..i], h.log[n]);
    }
  }

  // --------------------------------------------------------------------------
  // Commit indices move

  function SetCommit(h: History, n: Id, k: nat): History {
    h.(commit := h.commit[n := k])
  }

  /** Node n may set its commit index to k: the prefix is in its log and committed. */
  lemma SetCommitInv(h: History, n: Id, k: nat)
    requires Inv(h) && n in h.voters && n in h.log && n in h.term && k <= |h.log[n]|
    requires Safe(h, h.log[n][..k], h.term[n])
    ensures Inv(SetCommit(h, n, k)) && Extends(h, SetCommit(h, n, k), n)
  {
    var h' := SetCommit(h, n, k);
    SetCommitShape(h, n, k);
    hide *;
    InvElim(h);
    CommitOnlyLogs(h, h', n);
    SafeGrows(h, h', n, h.log[n][..k], h.term[n], h.term[n]);
    SetCommitCommits(h, n, k);
    InvIntro(h');
  }

  ghost predicate OnlyCommit(h: History, h': History, n: Id) {
    && n in h.voters && n in h.log && n in h.term
    && h' == h.(commit := h'.commit, lc := h'.lc) && h'.lc.Keys == h.lc.Keys
    && Extends(h, h', n) && NoNewHolders(h, h')
  }

  lemma SetCommitShape(h: History, n: Id, k: nat)
    requires Nodes(h) && n in h.voters && n in h.log && n in h.term
    ensures var h' := SetCommit(h, n, k);
      OnlyCommit(h, h', n) && Extends(h, h', n) && h'.log == h.log && h'.term == h.term
  {
    hide LogOk;
  }

  lemma CommitOnlyLogs(h: History, h': History, n: Id)
    requires Nodes(h) && Cands(h) && Votes(h) && Leaders(h) && Acks(h) && AcksKept(h) && AcksVoted(h)
    requires OnlyCommit(h, h', n)
    ensures Nodes(h') && Cands(h') && Votes(h') && Leaders(h') && Acks(h') && AcksKept(h') && AcksVoted(h')
  {
    NodeFacts(h, n);
    OwnLogStays(h, h', n);
    hide Nodes, Cands, Votes, Leaders, LogOk, Extends, NoNewHolders, Acks, AcksKept, AcksVoted;
    NodesStep(h, h', n);
    CandsStep(h, h', n);
    VotesStep(h, h', n);
    LeadersStep(h, h', n);
    AcksStep(h, h', n);
    CommitOnlyAcks(h, h', n);
  }

  lemma CommitOnlyAcks(h: History, h': History, n: Id)
    requires Nodes(h) && Acks(h) && AcksKept(h) && AcksVoted(h) && OnlyCommit(h, h', n) && Nodes(h') && Votes(h')
    requires Acks(h')
    ensures AcksKept(h') && AcksVoted(h')
  {
    hide Nodes, Votes, LogOk, Extends, NoNewHolders, Acks, AcksKept, AcksVoted;
    forall t, i: nat | Acked(h', n, t, i) ensures AckOk(h', n, t) && AckKept(h', n, t, i) {
      AckKeptLogGrows(h, h', n, t, i);
    }
    AcksKeptStep(h, h', n);
    AcksVotedStep(h, h', n);
  }

  lemma SetCommitCommits(h: History, n: Id, k: nat)
    requires Nodes(h) && Leaders(h) && Commits(h) && n in h.voters && n in h.log && n in h.term && k <= |h.log[n]|
    requires var h' := SetCommit(h, n, k);
      Nodes(h') && Leaders(h') && Extends(h, h', n) && Safe(h', h.log[n][..k], h.term[n])
    ensures Commits(SetCommit(h, n, k))
  {
    hide Nodes, Leaders, Commits, LogOk, Extends, LeaderCommitOk, Safe;
    CommitsStep(h, SetCommit(h, n, k), n);
  }

  function SetLeaderCommit(h: History, t: nat, k: nat): History {
    h.(lc := h.lc[t := k])
  }

  /** The leader c of its current term may announce a commit index k that is committed. */
  lemma SetLeaderCommitInv(h: History, c: Id, k: nat)
    requires Inv(h) && c in h.voters && c in h.term && c in h.log && c in h.commit
    requires var t := h.term[c];
      && t in h.ll && t in h.leader && t in h.lc && h.leader[t] == c && h.lc[t] <= k <= |h.ll[t]|
      && Safe(h, h.ll[t][..k], t)
    ensures var h' := SetLeaderCommit(h, h.term[c], k); Inv(h') && Extends(h, h', c)
  {
    var t := h.term[c];
    var h' := SetLeaderCommit(h, t, k);
    SetLeaderCommitShape(h, c, k);
    hide *;
    InvElim(h);
    CommitOnlyLogs(h, h', c);
    SafeGrows(h, h', c, h.ll[t][..k], t, t);
    SetLeaderCommitCommits(h, c, k);
    InvIntro(h');
  }

  lemma SetLeaderCommitShape(h: History, c: Id, k: nat)
    requires c in h.voters && c in h.term && c in h.log
    requires var t := h.term[c];
      t in h.ll && t in h.leader && t in h.lc && h.leader[t] == c && h.lc[t] <= k
    ensures var h' := SetLeaderCommit(h, h.term[c], k);
      OnlyCommit(h, h', c) && Extends(h, h', c) && h'.log == h.log && h'.term == h.term && h'.ll == h.ll
  {
  }

  lemma SetLeaderCommitCommits(h: History, c: Id, k: nat)
    requires Nodes(h) && Leaders(h) && Commits(h) && c in h.voters && c in h.term && c in h.log && c in h.commit
    requires h.term[c] in h.ll && k <= |h.ll[h.term[c]]|
    requires var h' := SetLeaderCommit(h, h.term[c], k);
      Nodes(h') && Leaders(h') && Extends(h, h', c) && Safe(h', h.ll[h.term[c]][..k], h.term[c])
    ensures Commits(SetLeaderCommit(h, h.term[c], k))
  {
    var h' := SetLeaderCommit(h, h.term[c], k);
    hide Nodes, Leaders, Commits, LogOk, Extends, CommitOk, Safe;
    assert LeaderCommitOk(h', h.term[c]);
    CommitStays(h, h', c);
    SameLcElsewhere(h, h.term[c], k);
    hide SetLeaderCommit, LeaderCommitOk;
    CommitsStep(h, h', c);
  }

  lemma SameLcElsewhere(h: History, t: nat, k: nat)
    ensures var h' := SetLeaderCommit(h, t, k);
      && h'.ll == h.ll && h'.voters == h.voters
      && forall u :: u in h.ll && u != t && u in h.lc ==> u in h'.lc && h'.lc[u] == h.lc[u]
  {
  }

  lemma CommitStays(h: History, h': History, n: Id)
    requires Nodes(h) && Leaders(h) && Commits(h) && Extends(h, h', n) && n in h.voters && n in h.log && n in h.commit
    requires n in h.term
    requires h'.log == h.log && h'.commit == h.commit && h'.term == h.term
    ensures CommitOk(h', n)
  {
    hide Nodes, Leaders, Commits, LogOk, Extends, Safe;
    CommitBound(h, n);
    SafeGrows(h, h', n, h.log[n][..h.commit[n]], h.term[n], h.term[n]);
  }

  /** A shorter prefix of something committed is committed. */
  lemma SafeShorter(h: History, p: Log, q: Log, u: nat)
    requires Safe(h, q, u) && p <= q
    ensures Safe(h, p, u)
  {
    hide Chosen;
    if p != [] {
      var t: nat, j: nat :| SafeVia(h, q, u, t, j);
      PrefixTrans(p, q, h.ll[t][..j]);
      assert SafeVia(h, p, u, t, j);
    }
  }

  /** An index the leader announced as committed is committed. */
  lemma AnnouncedIsSafe(h: History, t: nat, k: nat)
    requires Inv(h) && t in h.ll && t in h.lc && k <= h.lc[t]
    ensures k <= |h.ll[t]| && Safe(h, h.ll[t][..k], t)
  {
    assert LeaderCommitOk(h, t) by { hide LogOk, AcksKept, AcksVoted, LeaderOk, Safe; }
    hide Inv, Safe;
    SafeShorter(h, h.ll[t][..k], h.ll[t][..h.lc[t]], t);
  }

  /** What a majority confirmed up to an entry of the leader's own term is committed. */
  lemma MajorityIsSafe(h: History, t: nat, j: nat, q: set<Id>)
    requires ChosenBy(h, t, j, q)
    ensures Safe(h, h.ll[t][..j], t)
  {
    assert SafeVia(h, h.ll[t][..j], t, t, j);
  }
}
