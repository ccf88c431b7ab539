/**
 The rules of elections, one node at a time: when a vote is granted, when a node campaigns, wins, loses or steps down,
 what a new leader starts from, and how leadership is handed over.
 */
module Elections {
  import opened Proto
  import opened Quorum
  import opened QuorumIndex
  import opened RaftLogSpec
  import opened NodeSpec
  import opened LeaderProofs
  import opened Proposals
  import opened Rounds
  import P = ProgressSpec
  import R = ReadOnlySpec

  // --------------------------------------------------------------------------
  // Granting votes

  /** A node that believes in a live leader does not let itself be disturbed, except for a transfer. */
  predicate Undisturbed(n: Node, m: Message, lease: bool) {
    n.cfg.checkQuorum && n.lead != 0 && lease && m.context != TRANSFER && m.term > n.term
  }

  /** Free to vote: in a new term, for the same candidate again, or for the first while no leader is known. */
  predicate Free(n: Node, m: Message) {
    m.term > n.term || n.vote == m.from || (n.vote == 0 && n.lead == 0)
  }

  /** The candidate's log ends in a later term, or in the same term and no earlier. */
  predicate NotBehind(n: Node, m: Message) {
    m.logTerm > n.log.LastTerm() || (m.logTerm == n.log.LastTerm() && m.index >= n.log.LastIndex())
  }

  /**
   A vote request of the node's term or a later one is answered exactly once, unless the node is not to be disturbed;
   it is granted exactly when the node is free and the candidate not behind; and only then the vote is cast.
   */
  lemma VoteRule(n: Node, m: Message, lease: bool)
    requires Shape(n) && !n.fatal && m.mtype == MsgVote && m.term >= n.term && m.term >= 1
    ensures var n' := Step(n, m, lease); var grant := Free(n, m) && NotBehind(n, m);
      if Undisturbed(n, m, lease) then n' == n
      else
        && n'.term == m.term && n'.log == n.log && !n'.fatal
        && n'.msgs == n.msgs + [Blank(MsgVoteResp, m.from).(from := n.cfg.id, term := m.term, reject := !grant)]
        && n'.vote == (if grant then m.from else if m.term > n.term then 0 else n.vote)
        && (m.term > n.term ==> n'.role == Follower && n'.lead == 0)
        && (m.term == n.term ==> n'.role == n.role && n'.lead == n.lead)
  {
    hide RLog.LastTerm, FreshProgress;
  }

  /** A pre-vote request is answered by the same rule and changes nothing else, not even the term. */
  lemma PreVoteRule(n: Node, m: Message, lease: bool)
    requires Shape(n) && !n.fatal && m.mtype == MsgPreVote && m.term >= n.term >= 1
    ensures var n' := Step(n, m, lease); var grant := Free(n, m) && NotBehind(n, m);
      if Undisturbed(n, m, lease) then n' == n
      else n' == n.(msgs := n.msgs + [Blank(MsgPreVoteResp, m.from).(
        from := n.cfg.id, term := if grant then m.term else n.term, reject := !grant)])
  {
    hide RLog.LastTerm, FreshProgress;
  }

  /** A message of an earlier term changes nothing; a stale leader and a stale pre-candidate are told the term. */
  lemma StaleRule(n: Node, m: Message, lease: bool)
    requires Shape(n) && !n.fatal && 0 < m.term < n.term
    ensures var n' := Step(n, m, lease);
      if (m.mtype == MsgHeartbeat || m.mtype == MsgApp) && (n.cfg.checkQuorum || n.cfg.preVote) then
        n' == n.(msgs := n.msgs + [Blank(MsgAppResp, m.from).(from := n.cfg.id, term := n.term)])
      else if m.mtype == MsgPreVote then
        n' == n.(msgs := n.msgs + [Blank(MsgPreVoteResp, m.from).(from := n.cfg.id, term := n.term, reject := true)])
      else n' == n
  {
  }

  // --------------------------------------------------------------------------
  // Campaigns

  lemma {:induction false} RequestsReach(n: Node, mtype: MessageType, term: nat, ctx: seq<byte>, peers: seq<Id>)
    requires !n.fatal && term >= 1 && IsVoteKind(mtype)
    ensures var n' := RequestVotes(n, mtype, term, ctx, peers); n' == n.(msgs := n'.msgs) && n.msgs <= n'.msgs
    ensures forall p :: p in peers && p != n.cfg.id ==>
      VoteRequest(n, mtype, term, ctx, p).(from := n.cfg.id) in RequestVotes(n, mtype, term, ctx, peers).msgs
    decreases |peers|
  {
    hide VoteRequest;
    if peers != [] {
      RequestIs(n, mtype, term, ctx, peers[0]);
      var n1 := if peers[0] == n.cfg.id then n else Send(n, VoteRequest(n, mtype, term, ctx, peers[0]));
      RequestsReach(n1, mtype, term, ctx, peers[1..]);
      forall p | p in peers && p != n.cfg.id
        ensures VoteRequest(n, mtype, term, ctx, p).(from := n.cfg.id) in RequestVotes(n, mtype, term, ctx, peers).msgs
      {
        SameRequest(n, n1, mtype, term, ctx, p);
        if p == peers[0] {
          assert n1.msgs[|n.msgs|] in RequestVotes(n, mtype, term, ctx, peers).msgs;
        } else {
          assert p in peers[1..];
        }
      }
    }
  }

  lemma RequestIs(n: Node, mtype: MessageType, term: nat, ctx: seq<byte>, p: Id)
    requires !n.fatal && term >= 1 && IsVoteKind(mtype)
    ensures var m := VoteRequest(n, mtype, term, ctx, p); m.mtype == mtype && m.term == term
    ensures var m := VoteRequest(n, mtype, term, ctx, p);
      Send(n, m) == n.(msgs := n.msgs + [m.(from := n.cfg.id)])
  {
  }

  lemma SameRequest(n: Node, n1: Node, mtype: MessageType, term: nat, ctx: seq<byte>, p: Id)
    requires n1 == n.(msgs := n1.msgs)
    ensures VoteRequest(n1, mtype, term, ctx, p) == VoteRequest(n, mtype, term, ctx, p)
  {
  }

  /** Every other voter is asked, with the end of the log. */
  ghost predicate AsksAll(n: Node, n': Node, mtype: MessageType, term: nat, ctx: seq<byte>) {
    forall p :: p in n.cfg.peers && p != n.cfg.id ==>
      Blank(mtype, p).(from := n.cfg.id, term := term, index := n.log.LastIndex(), logTerm := n.log.LastTerm(),
                       context := ctx) in n'.msgs
  }

  /** A candidate of the next term that has voted for itself, with nothing carried over. */
  ghost predicate Campaigns(n: Node, n': Node, ctx: seq<byte>) {
    && n'.role == Candidate && n'.term == n.term + 1 && n'.vote == n.cfg.id && n'.lead == 0 && !n'.fatal
    && n'.votes == map[n.cfg.id := true] && n'.log == n.log && AsksAll(n, n', MsgVote, n.term + 1, ctx)
  }

  ghost predicate Sounds(n: Node, n': Node) {
    && n' == n.(role := PreCandidate, lead := 0, votes := map[n.cfg.id := true], msgs := n'.msgs)
    && AsksAll(n, n', MsgPreVote, n.term + 1, [])
  }

  lemma ElectRule(n: Node, transfer: bool)
    requires Shape(n) && !n.fatal && n.role != Leader && NodeQuorum(n) > 1
    ensures Campaigns(n, NodeSpec.Elect(n, transfer), if transfer then TRANSFER else [])
  {
    hide RequestVotes, FreshProgress, BecomeLeader, RLog.LastTerm;
    var n1 := Poll(BecomeCandidate(n), n.cfg.id, true);
    assert GrantedBy(map[n.cfg.id := true]) == {n.cfg.id};
    RequestsReach(n1, MsgVote, n1.term, if transfer then TRANSFER else [], n1.cfg.peers);
  }

  lemma SoundRule(n: Node)
    requires Shape(n) && !n.fatal && n.role != Leader && NodeQuorum(n) > 1
    ensures Sounds(n, Campaign(n, CampaignPreElection))
  {
    hide RequestVotes, NodeSpec.Elect, RLog.LastTerm;
    var n1 := Poll(BecomePreCandidate(n), n.cfg.id, true);
    assert GrantedBy(map[n.cfg.id := true]) == {n.cfg.id};
    RequestsReach(n1, MsgPreVote, n1.term + 1, [], n1.cfg.peers);
  }

  lemma {:induction false} SizesGrow(es: seq<Entry>, k: nat)
    requires k <= |es|
    ensures TotalSize(es[..k]) <= TotalSize(es)
    decreases |es|
  {
    if k < |es| {
      SizesGrow(es[..|es| - 1], k);
      assert es[..|es| - 1][..k] == es[..k];
    } else {
      assert es[..k] == es;
    }
  }

  lemma {:induction false} FitsAll(es: seq<Entry>, limit: nat, k: nat)
    requires 1 <= k <= |es| && TotalSize(es) <= limit
    ensures FitCount(es, limit, k) == |es|
    decreases |es| - k
  {
    if k < |es| {
      SizesGrow(es, k + 1);
      FitsAll(es, limit, k + 1);
    }
  }

  /** A configuration change is committed but not yet applied. */
  ghost predicate ConfWaits(n: Node) {
    exists k :: 0 <= k < |n.log.ents| && n.log.applied < n.log.base + 1 + k <= n.log.committed
      && n.log.ents[k].etype == EntryConfChange
  }

  /**
   The election timeout: a leader ignores it, and so does a node with a committed configuration change that it has not
   applied. Any other starts a pre-election or, without that phase, an election.
   */
  lemma HupRule(n: Node, m: Message, lease: bool)
    requires Shape(n) && !n.fatal && m.mtype == MsgHup && m.term == 0 && NodeQuorum(n) > 1
    requires n.log.base <= n.log.applied <= n.log.committed <= n.log.LastIndex()
    requires TotalSize(Between(n.log, n.log.applied, n.log.committed)) <= 0xFFFF_FFFF_FFFF_FFFF
    ensures var n' := Step(n, m, lease);
      if n.role == Leader || ConfWaits(n) then n' == n
      else if n.cfg.preVote then Sounds(n, n')
      else Campaigns(n, n', [])
  {
    hide Campaign, LimitSize, TotalSize, Sounds, Campaigns, Step, ConfWaits, HasConfChange, Slice, NodeSpec.Elect;
    HupIs(n, m, lease);
    SlicesAll(n);
    if ConfWaits(n) { NothingBetween(n); }
    if n.role != Leader {
      SoundRule(n);
      ElectRule(n, false);
      CampaignIs(n);
    }
  }

  lemma NothingBetween(n: Node)
    requires ConfWaits(n)
    ensures n.log.applied < n.log.committed
  {
  }

  lemma HupIs(n: Node, m: Message, lease: bool)
    requires Shape(n) && !n.fatal && m.mtype == MsgHup && m.term == 0
    ensures Step(n, m, lease) == StepHup(n)
  {
  }

  lemma CampaignIs(n: Node)
    requires Shape(n) && !n.fatal
    ensures Campaign(n, CampaignElection) == NodeSpec.Elect(n, false)
    ensures Campaign(n, CampaignTransfer) == NodeSpec.Elect(n, true)
  {
  }

  lemma SlicesAll(n: Node)
    requires n.log.base <= n.log.applied <= n.log.committed <= n.log.LastIndex()
    requires TotalSize(Between(n.log, n.log.applied, n.log.committed)) <= 0xFFFF_FFFF_FFFF_FFFF
    ensures var es := Between(n.log, n.log.applied, n.log.committed);
      && Slice(n.log, n.log.applied + 1, n.log.committed + 1, 0xFFFF_FFFF_FFFF_FFFF) == Some(es)
      && (HasConfChange(es) <==> ConfWaits(n))
  {
    hide TotalSize, FitCount;
    var es := Between(n.log, n.log.applied, n.log.committed);
    if es != [] { FitsAll(es, 0xFFFF_FFFF_FFFF_FFFF, 1); }
    assert es[..|es|] == es;
    ConfBetween(n);
  }

  lemma ConfBetween(n: Node)
    requires n.log.base <= n.log.applied <= n.log.committed <= n.log.LastIndex()
    ensures HasConfChange(Between(n.log, n.log.applied, n.log.committed)) <==> ConfWaits(n)
  {
    var es, d := Between(n.log, n.log.applied, n.log.committed), n.log.applied - n.log.base;
    forall k | 0 <= k < |es| ensures es[k] == n.log.ents[d + k] {}
    if ConfWaits(n) {
      var k :| 0 <= k < |n.log.ents| && n.log.applied < n.log.base + 1 + k <= n.log.committed
        && n.log.ents[k].etype == EntryConfChange;
      assert es[k - d].etype == EntryConfChange;
    }
  }

  // --------------------------------------------------------------------------
  // Winning and losing

  function Denied(votes: map<Id, bool>): set<Id> { set i | i in votes && !votes[i] }

  lemma DeniedCount(votes: map<Id, bool>)
    ensures |votes| - |GrantedBy(votes)| == |Denied(votes)|
  {
    assert votes.Keys == GrantedBy(votes) + Denied(votes);
    assert |votes.Keys| == |votes|;
  }

  /** A candidate that a quorum has denied is a follower again, in the same term; nothing less makes it one. */
  lemma LossRule(n: Node)
    requires Shape(n) && !n.fatal && (n.role == Candidate || n.role == PreCandidate) && NodeQuorum(n) > 1
    requires Granted(n) != NodeQuorum(n)
    ensures if |Denied(n.votes)| == NodeQuorum(n)
      then Tally(n).role == Follower && Tally(n).term == n.term && Tally(n).lead == 0 && Tally(n).vote == n.vote
      else Tally(n) == n
  {
    DeniedCount(n.votes);
  }

  /** A pre-candidate with a quorum campaigns for the next term. */
  lemma PreWinRule(n: Node)
    requires Shape(n) && !n.fatal && n.role == PreCandidate && NodeQuorum(n) > 1 && Granted(n) == NodeQuorum(n)
    ensures Campaigns(n, Tally(n), [])
  {
    hide Campaigns, NodeSpec.Elect;
    ElectRule(n, false);
  }

  /** Only the first answer of a voter counts. */
  lemma FirstAnswerCounts(n: Node, m: Message, lease: bool)
    requires Shape(n) && !n.fatal && (n.role == Candidate || n.role == PreCandidate)
    requires
      || ((m.mtype == MsgVoteResp || m.mtype == MsgPreVoteResp) && m.term == n.term)
      || (m.mtype == MsgPreVoteResp && m.term > n.term && !m.reject)
    ensures var counted := n.(votes := if m.from in n.votes then n.votes else n.votes[m.from := !m.reject]);
      Shape(counted) && Step(n, m, lease) == Tally(counted)
  {
    hide Tally;
    assert n == n.(votes := n.votes);
  }

  /**
   A new leader: one empty entry of its term at the end of its log and nothing else changed; it has that entry itself,
   knows nothing of the others and will probe them from there; what is pending is taken to be its whole log.
   */
  lemma LeadRule(n: Node)
    requires Shape(n) && Voters(n) && !n.fatal && n.role == Candidate && n.log.committed <= n.log.LastIndex()
    ensures var n', last := BecomeLeader(n), n.log.LastIndex();
      n'.fatal || (
        && n'.role == Leader && n'.term == n.term && n'.vote == n.vote && n'.lead == n.cfg.id && n'.msgs == n.msgs
        && n'.log.base == n.log.base && n'.log.ents == n.log.ents + [Entry(EntryNormal, n.term, last + 1, [])]
        && n'.pendingConf == last && n'.uncommitted == 0 && n'.transferee == 0 && n'.readOnly == R.EMPTY
        && n'.prs.Keys == n.prs.Keys && n'.prs[n.cfg.id].matched == last + 1 && CommitsFrom(n', n.log.committed)
        && forall p :: p in n.prs && p != n.cfg.id ==> n'.prs[p] == P.NewProgress(0, last + 1))
  {
    hide CommitsFrom, NodeSpec.MaybeCommit, CommitIndex, PayloadSize32;
    StartRule(n);
    var n1 := StartLeader(n);
    EmptyPayload(n1.term, n.log.LastIndex());
    FirstEntry(n1);
    var n2 := AppendEntry(n1, [EMPTY_ENTRY]);
    if !n2.fatal {
      Entered(n1, [EMPTY_ENTRY]);
      CommitAfter(n2, BecomeLeader(n));
    }
  }

  lemma StartRule(n: Node)
    requires Shape(n)
    ensures var n', last := StartLeader(n), n.log.LastIndex();
      && Shape(n') && n' == n.(role := Leader, lead := n.cfg.id, transferee := 0, votes := map[], uncommitted := 0,
                               readOnly := R.EMPTY, pendingConf := last, prs := n'.prs)
      && n'.prs.Keys == n.prs.Keys && n'.prs[n.cfg.id].matched == last
      && forall p :: p in n.prs && p != n.cfg.id ==> n'.prs[p] == P.NewProgress(0, last + 1)
  {
  }

  lemma EmptyPayload(term: nat, last: nat)
    ensures PayloadSize32(Stamp([EMPTY_ENTRY], term, last)) == 0 == PayloadSize32([EMPTY_ENTRY])
  {
    PayloadAdds([], []);
    assert Stamp([EMPTY_ENTRY], term, last) == [Entry(EntryNormal, term, last + 1, [])];
  }

  lemma FirstEntry(n: Node)
    requires Shape(n) && n.cfg.peers != [] && !n.fatal && n.uncommitted == 0 && n.log.committed <= n.log.LastIndex()
    requires n.prs[n.cfg.id].matched <= n.log.LastIndex()
    ensures var n', last := AppendEntry(n, [EMPTY_ENTRY]), n.log.LastIndex();
      n'.fatal || (
        && n' == n.(log := n'.log, prs := n'.prs, uncommitted := n'.uncommitted)
        && n'.uncommitted == PayloadSize32(Stamp([EMPTY_ENTRY], n.term, last))
        && n'.log.base == n.log.base && n'.log.ents == n.log.ents + [Entry(EntryNormal, n.term, last + 1, [])]
        && n'.prs == n.prs[n.cfg.id := n'.prs[n.cfg.id]] && n'.prs[n.cfg.id].matched == last + 1)
  {
    hide CommitIndex, PayloadSize32;
    assert Stamp([EMPTY_ENTRY], n.term, n.log.LastIndex()) ==
      [Entry(EntryNormal, n.term, n.log.LastIndex() + 1, [])];
  }

  // --------------------------------------------------------------------------
  // Staying leader

  function Active(n: Node): set<Id> {
    set p | p in n.cfg.peers && (p == n.cfg.id || (p in n.prs && n.prs[p].recentActive))
  }

  function ActiveIn(n: Node, peers: seq<Id>): set<Id> {
    set p | p in peers && (p == n.cfg.id || (p in n.prs && n.prs[p].recentActive))
  }

  lemma {:induction false} CountsActive(n: Node, peers: seq<Id>)
    requires Distinct(peers)
    ensures CountActive(n, peers) == |ActiveIn(n, peers)|
  {
    if peers == [] {
      assert ActiveIn(n, peers) == {};
    } else {
      var p := peers[0];
      DistinctRest(peers);
      CountsActive(n, peers[1..]);
      ActiveSplits(n, peers);
    }
  }

  lemma DistinctRest(s: seq<Id>)
    requires Distinct(s) && s != []
    ensures Distinct(s[1..]) && s[0] !in s[1..]
  {
    forall i, j | 0 <= i < j < |s[1..]| ensures s[1..][i] != s[1..][j] { assert s[i + 1] != s[j + 1]; }
    forall j | 0 <= j < |s[1..]| ensures s[1..][j] != s[0] { assert s[0] != s[j + 1]; }
  }

  lemma ActiveSplits(n: Node, peers: seq<Id>)
    requires peers != [] && peers[0] !in peers[1..]
    ensures var p := peers[0]; var here := p == n.cfg.id || (p in n.prs && n.prs[p].recentActive);
      && ActiveIn(n, peers) == ActiveIn(n, peers[1..]) + (if here then {p} else {}) && p !in ActiveIn(n, peers[1..])
  {
    assert peers == [peers[0]] + peers[1..];
  }

  /**
   The quorum check: a leader steps down exactly when fewer than a quorum of the voters, itself included, is active.
   */
  lemma QuorumCheckRule(n: Node, m: Message, lease: bool)
    requires Shape(n) && Voters(n) && !n.fatal && n.role == Leader && m.mtype == MsgCheckQuorum && m.term == 0
    ensures var n' := Step(n, m, lease);
      if |Active(n)| >= NodeQuorum(n) then n' == n
      else n'.role == Follower && n'.term == n.term && n'.lead == 0 && n'.vote == n.vote && n'.log == n.log
  {
    hide CountActive, Shape, FreshProgress, Step;
    LeaderHandles(n, m, lease);
    CountsActive(n, n.cfg.peers);
    assert ActiveIn(n, n.cfg.peers) == Active(n);
  }

  /** A leader's message of the node's term or a later one makes a node that does not lead its follower. */
  lemma FollowRule(n: Node, m: Message, lease: bool)
    requires Shape(n) && !n.fatal && n.role != Leader && m.term >= n.term && m.term >= 1
    requires m.mtype == MsgApp || m.mtype == MsgHeartbeat || m.mtype == MsgSnap
    ensures var n' := Step(n, m, lease); n'.role == Follower && n'.lead == m.from && n'.term == m.term
  {
    hide HandleAppend, HandleHeartbeat, HandleSnapshot, FreshProgress, StepHup, StepVote, StepLeader, Campaign, Tally;
    var f := if m.term > n.term then CatchUp(n, m) else BecomeFollower(n, m.term, m.from);
    HandlersFollow(f, m);
    HandlersFollow(f.(lead := m.from), m);
    HandlersFollow(n.(lead := m.from), m);
  }

  lemma HandlersFollow(n: Node, m: Message)
    ensures SameRole(n, HandleAppend(n, m)) && SameRole(n, HandleHeartbeat(n, m)) && SameRole(n, HandleSnapshot(n, m))
  {
    AppendFollows(n, m);
    SnapshotFollows(n, m);
    hide MaybeAppend, CommitTo, HandleAppend, HandleSnapshot;
  }

  predicate SameRole(n: Node, n': Node) { n'.role == n.role && n'.lead == n.lead && n'.term == n.term }

  lemma AppendFollows(n: Node, m: Message)
    ensures SameRole(n, HandleAppend(n, m))
  {
    hide MaybeAppend;
  }

  lemma SnapshotFollows(n: Node, m: Message)
    ensures SameRole(n, HandleSnapshot(n, m))
  {
    hide CommitTo, Restore, RLog.Term, RestoredProgress;
  }

  /** A request for a transfer goes to the leader as well, with the follower's term. */
  lemma TransferForwarded(n: Node, m: Message, lease: bool)
    requires Shape(n) && !n.fatal && n.role == Follower && m.term == 0 && m.mtype == MsgTransferLeader
    ensures Step(n, m, lease) ==
      if n.lead == 0 then n else n.(msgs := n.msgs + [m.(to := n.lead, from := n.cfg.id, term := n.term)])
  {
  }

  /** Nobody takes proposals, reads or transfers while there is no leader. */
  lemma CandidateIgnores(n: Node, m: Message, lease: bool)
    requires Shape(n) && !n.fatal && (n.role == Candidate || n.role == PreCandidate) && m.term == 0
    requires m.mtype == MsgProp || m.mtype == MsgReadIndex || m.mtype == MsgTransferLeader || m.mtype == MsgTimeoutNow
    ensures Step(n, m, lease) == n
  {
  }

  /** A proposal or read request at a follower goes to its leader as it came, or nowhere when none is known. */
  lemma ForwardRule(n: Node, m: Message, lease: bool)
    requires Shape(n) && !n.fatal && n.role == Follower && m.term == 0
    requires m.mtype == MsgProp || m.mtype == MsgReadIndex
    ensures Step(n, m, lease) ==
      if n.lead == 0 || (m.mtype == MsgProp && n.cfg.disableForwarding) then n
      else n.(msgs := n.msgs + [m.(to := n.lead, from := n.cfg.id)])
  {
  }

  // --------------------------------------------------------------------------
  // Handing over

  /** The transfer is remembered, and the follower is told to campaign or sent what it lacks. */
  ghost predicate HandsOver(n: Node, n': Node, to: Id)
    requires to in n.prs
  {
    && n'.transferee == to && n'.log == n.log && n.msgs <= n'.msgs
    && (if n.prs[to].matched == n.log.LastIndex() then TellsToCampaign(n', to)
        else SendsAppend(n, to, true) ==> Told(n, n', to))
  }

  /**
   A transfer of leadership: to the leader itself it cancels one; again to the same follower it does nothing; to another
   it is remembered, and a follower that has the whole log is told to campaign at once, any other is sent what it lacks.
   */
  lemma TransferRule(n: Node, m: Message, lease: bool)
    requires Shape(n) && !n.fatal && m.from in n.prs && m.from != 0
    requires n.role == Leader && m.mtype == MsgTransferLeader && (m.term == 0 || m.term == n.term)
    ensures var n' := Step(n, m, lease);
      if m.from == n.transferee then n' == n
      else if m.from == n.cfg.id then n' == n.(transferee := 0)
      else n'.fatal || HandsOver(n, n', m.from)
  {
    hide Shape, MaybeSendAppend, SendsAppend, SentOne, Told, SendTimeoutNow, Step;
    LeaderHandles(n, m, lease);
    if m.from != n.transferee && m.from != n.cfg.id {
      var n1 := n.(transferee := m.from);
      ShapeTransfer(n, m.from);
      AppendSends(n1, m.from, true);
      SentSame(n1, SendAppend(n1, m.from));
      SentIs(n1, m.from, true);
      TimeoutSent(n1, m.from);
      if n.prs[m.from].matched != n.log.LastIndex() && SendsAppend(n, m.from, true) && !SendAppend(n1, m.from).fatal {
        SentTells(n1, SendAppend(n1, m.from), m.from);
        ToldStays(n, n1, SendAppend(n1, m.from), SendAppend(n1, m.from), m.from);
      }
    }
  }

  lemma ShapeTransfer(n: Node, to: Id)
    requires Shape(n) && to in n.prs
    ensures Shape(n.(transferee := to)) && SendsAppend(n.(transferee := to), to, true) == SendsAppend(n, to, true)
  {
  }

  /**
   The follower told to campaign does so at once, without the pre-vote phase, and no voter can ignore it for the sake of
   the old leader: each is asked, and grants its vote exactly when the follower's log is not behind its own.
   */
  lemma TransferHeeded(n: Node, m: Message, lease: bool, v: Node, lease': bool) returns (ask: Message)
    requires Shape(n) && !n.fatal && n.role == Follower && NodeQuorum(n) > 1
    requires m.mtype == MsgTimeoutNow && m.term == n.term
    requires Shape(v) && !v.fatal && v.cfg.id in n.cfg.peers && v.cfg.id != n.cfg.id && v.term <= n.term
    ensures Campaigns(n, Step(n, m, lease), TRANSFER)
    ensures ask in Step(n, m, lease).msgs && ask.mtype == MsgVote && ask.from == n.cfg.id && ask.to == v.cfg.id
    ensures var v' := Step(v, ask, lease');
      v'.term == n.term + 1 && v'.vote == if NotBehind(v, ask) then n.cfg.id else 0
    ensures ask.logTerm == n.log.LastTerm() && ask.index == n.log.LastIndex()
  {
    hide Shape, RLog.LastTerm, RLog.LastIndex;
    TimeoutIs(n, m, lease);
    ElectRule(n, true);
    ask := Blank(MsgVote, v.cfg.id).(from := n.cfg.id, term := n.term + 1, index := n.log.LastIndex(),
                                     logTerm := n.log.LastTerm(), context := TRANSFER);
    VoteRule(v, ask, lease');
    hide Step;
  }

  lemma TimeoutIs(n: Node, m: Message, lease: bool)
    requires Shape(n) && !n.fatal && n.role == Follower && m.mtype == MsgTimeoutNow && m.term == n.term
    ensures Step(n, m, lease) == NodeSpec.Elect(n, true)
  {
    hide NodeSpec.Elect;
  }
}
