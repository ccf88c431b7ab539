/** Terms, campaigns and votes: what becoming a follower, a candidate or a leader keeps, and what a vote does. */
module VoterProofs {
  import opened Proto
  import opened Quorum
  import opened Logs
  import opened Protocol
  import opened Steps
  import opened Actions
  import opened RaftLogSpec
  import opened NodeSpec
  import opened NodeInv
  import opened LeaderProofs
  import opened LeaderSteps
  import P = ProgressSpec
  import R = ReadOnlySpec

  /** What a step of node id must leave behind. */
  ghost predicate Kept(h: History, h': History, id: Id, n': Node) {
    Inv(h') && Extends(h, h', id) && Good(h', n')
  }

  lemma NoFuture(h: History, n: Id, t: nat)
    requires Inv(h) && n in h.voters
    ensures n in h.term && n in h.log
    ensures h.term[n] < t ==> (n, t) !in h.votes && (n, t) !in h.cands && !LeaderIs(h, t, n)
    ensures TermsUpTo(h.log[n], h.term[n])
  {
  }

  // --------------------------------------------------------------------------
  // Following

  lemma ResetCore(h: History, n: Node, lead: Id, role: Role)
    requires Core(h, n)
    ensures Core(h, Reset(n, n.term).(lead := lead, role := role))
  {
  }

  lemma LaterCore(h: History, n: Node, t: nat)
    requires Core(h, n) && n.term < t && (n.cfg.id, t) !in h.votes
    ensures Core(SetTerm(h, n.cfg.id, t), Reset(n, t))
  {
  }

  lemma RoleFrame(h: History, n: Node, lead: Id, role: Role)
    requires Core(h, n)
    ensures Core(h, n.(lead := lead, role := role))
  {
  }

  lemma SentFrame(h: History, n: Node, n': Node)
    requires SentOk(h, n) && n'.msgs == n.msgs
    ensures SentOk(h, n')
  {
  }

  lemma SetTermLeader(h: History, n: Id, u: nat, t: nat, c: Id)
    requires LeaderIs(h, t, c)
    ensures LeaderIs(SetTerm(h, n, u), t, c)
  {
  }

  /** become_follower, in the current or a later term. */
  lemma FollowBase(h: History, n: Node, t: nat, lead: Id) returns (h': History)
    requires Inv(h) && Base(h, n) && n.term <= t && lead != n.cfg.id && (lead != 0 ==> LeaderIs(h, t, lead))
    ensures Inv(h') && Extends(h, h', n.cfg.id)
    ensures Base(h', BecomeFollower(n, t, lead)) && IsFollowing(h', BecomeFollower(n, t, lead))
  {
    hide Inv, Core, SentOk, Extends, LeaderIs, Reset;
    CoreFacts(h, n);
    ResetMsgs(n, t);
    if n.term < t {
      NoFuture(h, n.cfg.id, t);
      h' := SetTerm(h, n.cfg.id, t);
      SetTermInv(h, n.cfg.id, t);
      LaterCore(h, n, t);
      RoleFrame(h', Reset(n, t), lead, Follower);
      SentStays(h, h', n.cfg.id, n);
      if lead != 0 { SetTermLeader(h, n.cfg.id, t, t, lead); }
    } else {
      h' := h;
      ExtendsRefl(h, n.cfg.id);
      ResetCore(h, n, lead, Follower);
    }
    SentFrame(h', n, BecomeFollower(n, t, lead));
  }

  lemma CoreFacts(h: History, n: Node)
    requires Core(h, n)
    ensures !n.fatal && Shape(n) && n.cfg.id in h.voters && n.cfg.id in h.term && n.cfg.id in h.log
    ensures h.term[n.cfg.id] == n.term
    ensures n.cfg.id != 0 && n.cfg.peers != [] && 0 !in h.voters
    ensures n.log.LastIndex() == |h.log[n.cfg.id]| && n.log.LastTerm() == LastTerm(h.log[n.cfg.id])
    ensures n.vote != 0 ==> VotedFor(h, n.cfg.id, n.term, n.vote)
    ensures n.vote == 0 && n.term > h.boot ==> (n.cfg.id, n.term) !in h.votes
    ensures n.term >= h.boot
    ensures forall p :: p in n.cfg.peers ==> p in n.prs
  {
  }

  lemma ResetMsgs(n: Node, t: nat)
    ensures Reset(n, t).msgs == n.msgs && Reset(n, t).cfg == n.cfg && Reset(n, t).term == t && Reset(n, t).log == n.log
    ensures Reset(n, t).fatal == n.fatal
    ensures Reset(n, t).votes == map[] && Reset(n, t).vote == if n.term == t then n.vote else 0
    ensures Reset(n, t).lead == 0 && Reset(n, t).uncommitted == 0 && Reset(n, t).role == n.role
  {
  }

  /** Following is a good state. */
  lemma FollowingGood(h: History, n: Node)
    requires Base(h, n) && IsFollowing(h, n)
    ensures Good(h, n)
  {
  }

  // --------------------------------------------------------------------------
  // Campaigning

  /** The candidate right after it voted for itself. */
  function Started(n: Node): Node {
    Reset(n, n.term + 1).(vote := n.cfg.id, role := Candidate, votes := map[n.cfg.id := true])
  }

  lemma StartedIs(n: Node)
    requires !n.fatal && n.role != Leader
    ensures Poll(BecomeCandidate(n), n.cfg.id, true) == Started(n)
  {
  }

  function Opened(h: History, n: Id, t: nat): History
    requires n in h.log
  {
    Open(SetTerm(h, n, t), n)
  }

  lemma OpenedIs(h: History, n: Id, t: nat)
    requires n in h.voters && n in h.term && n in h.log && t == h.term[n] + 1
    requires (n, t) !in h.votes && (n, t) !in h.cands && TermsUpTo(h.log[n], h.term[n])
    ensures CanOpen(SetTerm(h, n, t), n)
    ensures var h' := Opened(h, n, t);
      && VotedFor(h', n, t, n) && (n, t) in h'.cands && h'.cands[(n, t)] == h.log[n]
      && h'.log == h.log && h'.leader == h.leader && h'.ll == h.ll && h'.lc == h.lc && h'.commit == h.commit
      && h'.voters == h.voters && h'.boot == h.boot && n in h'.term && h'.term[n] == t
  {
  }

  lemma StartedCore(h: History, h': History, n: Node)
    requires Core(h, n) && h'.log == h.log && h'.commit == h.commit && h'.voters == h.voters && h'.boot == h.boot
    requires n.cfg.id in h'.term && h'.term[n.cfg.id] == n.term + 1 && VotedFor(h', n.cfg.id, n.term + 1, n.cfg.id)
    ensures Core(h', Started(n))
  {
  }

  lemma CandidateBase(h: History, n: Node) returns (h': History)
    requires Inv(h) && Base(h, n) && n.role != Leader
    ensures Inv(h') && Extends(h, h', n.cfg.id)
    ensures Base(h', Started(n)) && IsRunning(h', Started(n)) && Started(n).term > h'.boot
  {
    hide Inv, Core, SentOk, Extends, LeaderIs, Reset, Opened, VotedFor, CanOpen;
    var me, t := n.cfg.id, n.term + 1;
    CoreFacts(h, n);
    ResetMsgs(n, t);
    NoFuture(h, me, t);
    OpenedIs(h, me, t);
    h' := Opened(h, me, t);
    OpenedInv(h, me, t);
    StartedCore(h, h', n);
    SentStays(h, h', me, n);
    SentFrame(h', n, Started(n));
    SameLeaders(h, h', t, me);
  }

  lemma SameLeaders(h: History, h': History, t: nat, c: Id)
    requires h'.leader == h.leader && h'.ll == h.ll && h'.lc == h.lc
    ensures LeaderIs(h', t, c) == LeaderIs(h, t, c)
  {
  }

  lemma OpenedInv(h: History, n: Id, t: nat)
    requires Inv(h) && n in h.voters && n in h.term && n in h.log && t == h.term[n] + 1
    requires CanOpen(SetTerm(h, n, t), n)
    ensures Inv(Opened(h, n, t)) && Extends(h, Opened(h, n, t), n)
  {
    hide Inv, Extends, SetTerm, CanOpen, Open;
    SetTermInv(h, n, t);
    OpenInv(SetTerm(h, n, t), n);
    ExtendsTrans(h, SetTerm(h, n, t), Opened(h, n, t), n);
  }

  // --------------------------------------------------------------------------
  // Asking for votes

  lemma VoteRequestOk(h: History, n: Node, mtype: MessageType, term: nat, ctx: seq<byte>, to: Id)
    requires Core(h, n) && term >= 1
    requires (mtype == MsgVote && term == n.term > h.boot && IsRunning(h, n)) || mtype == MsgPreVote
    ensures var m := VoteRequest(n, mtype, term, ctx, to); Sendable(m) && MsgOk(h, Stamped(n, m))
  {
  }

  /** Nothing but the outbox. */
  ghost predicate OnlySent(n: Node, n': Node) {
    n' == n.(msgs := n'.msgs)
  }

  lemma SentRole(h: History, n: Node, n': Node)
    requires OnlySent(n, n')
    ensures RoleOk(h, n) ==> RoleOk(h, n')
    ensures IsRunning(h, n) ==> IsRunning(h, n')
    ensures IsFollowing(h, n) ==> IsFollowing(h, n')
  {
  }

  lemma {:induction false} RequestBase(h: History, n: Node, mtype: MessageType, term: nat, ctx: seq<byte>,
      peers: seq<Id>)
    requires Base(h, n) && term >= 1
    requires (mtype == MsgVote && term == n.term > h.boot && IsRunning(h, n)) || mtype == MsgPreVote
    ensures Base(h, RequestVotes(n, mtype, term, ctx, peers)) && OnlySent(n, RequestVotes(n, mtype, term, ctx, peers))
    decreases |peers|
  {
    hide Core, SentOk, IsRunning, Send, VoteRequest, MsgOk;
    if !n.fatal && peers != [] {
      var m := VoteRequest(n, mtype, term, ctx, peers[0]);
      var n1 := if peers[0] == n.cfg.id then n else Send(n, m);
      if peers[0] != n.cfg.id {
        VoteRequestOk(h, n, mtype, term, ctx, peers[0]);
        SendBase(h, n, m);
      }
      SentRole(h, n, n1);
      RequestBase(h, n1, mtype, term, ctx, peers[1..]);
    }
  }

  // --------------------------------------------------------------------------
  // Winning

  lemma WinnerIsNew(h: History, n: Node)
    requires Inv(h) && Core(h, n) && IsRunning(h, n) && Granted(n) == NodeQuorum(n)
    ensures n.cfg.id in h.commit && CanElect(h, n.cfg.id, GrantedBy(n.votes))
  {
    VoterCount(h, n);
    CoreFacts(h, n);
    var q := GrantedBy(n.votes);
    assert IsQuorum(h.voters, q);
    hide Core;
    if n.term in h.ll {
      ElectionSafety(h, n.cfg.id, n.term, q);
      InvElim(h);
      assert false;
    }
    NodesHave(h, n.cfg.id);
  }

  lemma NodesHave(h: History, n: Id)
    requires Inv(h) && n in h.voters
    ensures n in h.term && n in h.log && n in h.commit
  {
  }

  /** The history in which n has won its campaign and confirmed its own log. */
  function Won(h: History, n: Node): History
    requires n.cfg.id in h.term && n.cfg.id in h.log && n.cfg.id in h.commit
  {
    Confirm(Actions.Elect(h, n.cfg.id, GrantedBy(n.votes)), n.cfg.id, |h.log[n.cfg.id]|)
  }

  lemma WonInv(h: History, n: Node)
    requires Inv(h) && CanElect(h, n.cfg.id, GrantedBy(n.votes))
    ensures Inv(Won(h, n)) && Extends(h, Won(h, n), n.cfg.id)
  {
    var me := n.cfg.id;
    var h1 := Actions.Elect(h, me, GrantedBy(n.votes));
    ElectedIs(h, me, GrantedBy(n.votes));
    hide Inv, Extends, Confirm, Actions.Elect, CanConfirm, GrantedBy;
    ElectInv(h, me, GrantedBy(n.votes));
    ConfirmInv(h1, me, |h.log[me]|);
    ExtendsTrans(h, h1, Won(h, n), me);
  }

  lemma ElectedIs(h: History, c: Id, q: set<Id>)
    requires CanElect(h, c, q)
    ensures CanConfirm(Actions.Elect(h, c, q), c, |h.log[c]|)
  {
  }

  lemma WonIs(h: History, n: Node)
    requires CanElect(h, n.cfg.id, GrantedBy(n.votes)) && h.term[n.cfg.id] == n.term
    ensures var h', me := Won(h, n), n.cfg.id;
      && h'.voters == h.voters && h'.term == h.term && h'.votes == h.votes && h'.commit == h.commit && h'.log == h.log
      && h'.boot == h.boot
      && LeaderIs(h', n.term, me) && h'.ll[n.term] == h'.log[me] && h'.lc[n.term] == h'.commit[me]
      && Acked(h', me, n.term, |h'.log[me]|)
  {
  }

  lemma StartedLeading(h: History, h': History, n: Node)
    requires Core(h, n) && CanElect(h, n.cfg.id, GrantedBy(n.votes)) && h' == Won(h, n) && n.term >= 1
    ensures Core(h', StartLeader(n)) && IsLeading(h', StartLeader(n))
    ensures StartLeader(n).msgs == n.msgs && StartLeader(n).uncommitted == 0 && StartLeader(n).cfg == n.cfg
  {
    hide Won, CanElect, Acked, VotedFor, Core;
    CoreFacts(h, n);
    WonIs(h, n);
    StartLeaderCore(h, h', n);
    StartLeaderPrs(n);
  }

  /** The progress a new leader starts from: nothing known of the others, everything of itself. */
  lemma StartLeaderPrs(n: Node)
    requires Shape(n)
    ensures var n' := StartLeader(n); var last := n.log.LastIndex();
      forall p :: p in n'.prs ==>
        && n'.prs[p].next == last + 1 && n'.prs[p].inflights == [] && n'.prs[p].pendingSnapshot == 0
        && n'.prs[p].matched == (if p == n.cfg.id then last else 0) && P.WindowOk(n'.prs[p], n.cfg.maxInflight)
  {
  }

  lemma StartLeaderCore(h: History, h': History, n: Node)
    requires Core(h, n) && h'.log == h.log && h'.commit == h.commit && h'.voters == h.voters && h'.term == h.term
    requires h'.votes == h.votes && h'.boot == h.boot
    ensures Core(h', StartLeader(n))
  {
  }

  /** become_leader: a won election, and the empty entry of the new term. */
  lemma BecomeLeading(h: History, n: Node) returns (h': History)
    requires Inv(h) && Base(h, n) && IsRunning(h, n) && Granted(n) == NodeQuorum(n)
    ensures Shape(n) && Inv(h') && Extends(h, h', n.cfg.id) && Leading(h', BecomeLeader(n))
    ensures BecomeLeader(n).cfg == n.cfg
  {
    hide Inv, Core, SentOk, IsLeading, Extends, StartLeader, Won, AppendEntry, IsRunning, CanElect, Granted, GrantedBy;
    hide BecomeLeader, Shape;
    CoreFacts(h, n);
    RunningTerm(h, n);
    WinnerIsNew(h, n);
    WonInv(h, n);
    var h1 := Won(h, n);
    StartedLeading(h, h1, n);
    SentStays(h, h1, n.cfg.id, n);
    SentFrame(h1, n, StartLeader(n));
    RunningRole(h, n);
    h' := FirstAppend(h1, n);
    ExtendsTrans(h, h1, h', n.cfg.id);
  }

  lemma RunningRole(h: History, n: Node)
    requires IsRunning(h, n)
    ensures n.role == Candidate
  {
  }

  /** The empty entry of the new term always fits. */
  lemma FirstAppend(h: History, n: Node) returns (h': History)
    requires Shape(n) && n.role == Candidate && !n.fatal && Inv(h) && StartLeader(n).uncommitted == 0
    requires Leading(h, StartLeader(n))
    requires StartLeader(n).cfg == n.cfg
    ensures Inv(h') && Extends(h, h', n.cfg.id) && Leading(h', BecomeLeader(n)) && BecomeLeader(n).cfg == n.cfg
  {
    hide Inv, Leading, Extends, StartLeader, AppendEntry, Stamp, PayloadSize32, Shape, R.Consistent;
    var n1 := StartLeader(n);
    h' := AppendLeading(h, n1, [EMPTY_ENTRY]);
    AppendKeepsShape(n1, [EMPTY_ENTRY]);
    var n2 := AppendEntry(n1, [EMPTY_ENTRY]);
    LeadingShape(h', n2);
    Bookkeeping(h', n2, ReduceUncommitted(n2, [EMPTY_ENTRY]));
  }

  lemma RunningTerm(h: History, n: Node)
    requires Inv(h) && Core(h, n) && IsRunning(h, n)
    ensures n.term >= 1
  {
  }

  // --------------------------------------------------------------------------
  // Whole campaigns

  lemma LeadingGood(h: History, n: Node)
    requires Leading(h, n)
    ensures Good(h, n)
  {
  }

  lemma RunningGood(h: History, n: Node)
    requires Base(h, n) && IsRunning(h, n) && Granted(n) < NodeQuorum(n)
    ensures Good(h, n)
  {
  }

  lemma StartedVotes(n: Node)
    ensures GrantedBy(Started(n).votes) == {n.cfg.id} && Granted(Started(n)) == 1
    ensures Started(n).role == Candidate && Started(n).cfg == n.cfg && Started(n).fatal == n.fatal
  {
  }

  /** campaign(): a vote for oneself, then leadership in a one-voter cluster or requests to the others. */
  lemma ElectKept(h: History, n: Node, transfer: bool) returns (h': History)
    requires Inv(h) && Base(h, n) && n.role != Leader
    ensures Shape(n) && Kept(h, h', n.cfg.id, NodeSpec.Elect(n, transfer))
  {
    hide Inv, Core, SentOk, Extends, IsRunning, IsLeading, Started, Good, Granted, BecomeLeader, Shape,
      BecomeCandidate, Poll;
    CoreFacts(h, n);
    StartedIs(n);
    var h1 := CandidateBase(h, n);
    var c := Started(n);
    StartedVotes(n);
    CoreFacts(h1, c);
    if NodeQuorum(c) == Granted(c) {
      h' := BecomeLeading(h1, c);
      LeadingGood(h', BecomeLeader(c));
      ExtendsTrans(h, h1, h', n.cfg.id);
    } else {
      h' := h1;
      AskVotes(h1, c, if transfer then TRANSFER else []);
    }
  }

  lemma AskVotes(h: History, c: Node, ctx: seq<byte>)
    requires Inv(h) && Base(h, c) && IsRunning(h, c) && Granted(c) == 1 && NodeQuorum(c) != 1 && c.term > h.boot
    ensures Good(h, RequestVotes(c, MsgVote, c.term, ctx, c.cfg.peers))
  {
    hide Inv, Core, SentOk, IsRunning, RequestVotes;
    RunningTerm(h, c);
    RequestBase(h, c, MsgVote, c.term, ctx, c.cfg.peers);
    var c' := RequestVotes(c, MsgVote, c.term, ctx, c.cfg.peers);
    SentRole(h, c, c');
    RunningGood(h, c');
  }

  function PreStarted(n: Node): Node {
    n.(votes := map[n.cfg.id := true], lead := 0, role := PreCandidate)
  }

  lemma PreStartedIs(h: History, n: Node)
    requires Base(h, n) && n.role != Leader
    ensures Poll(BecomePreCandidate(n), n.cfg.id, true) == PreStarted(n) && Base(h, PreStarted(n))
    ensures GrantedBy(PreStarted(n).votes) == {n.cfg.id} && Granted(PreStarted(n)) == 1
  {
  }

  lemma PreGood(h: History, n: Node)
    requires Base(h, n) && n.role == PreCandidate && n.lead == 0 && Granted(n) < NodeQuorum(n)
    ensures Good(h, n)
  {
  }

  lemma CampaignKept(h: History, n: Node, t: CampaignType) returns (h': History)
    requires Inv(h) && Base(h, n) && n.role != Leader
    ensures Shape(n) && Kept(h, h', n.cfg.id, Campaign(n, t))
  {
    hide Inv, Core, SentOk, Extends, RoleOk, Granted, Shape, BecomePreCandidate, Poll, NodeSpec.Elect, RequestVotes;
    CoreFacts(h, n);
    if t == CampaignPreElection {
      PreStartedIs(h, n);
      var c := PreStarted(n);
      CoreFacts(h, c);
      if NodeQuorum(c) == Granted(c) {
        h' := ElectKept(h, c, false);
      } else {
        h' := h;
        ExtendsRefl(h, n.cfg.id);
        RequestBase(h, c, MsgPreVote, c.term + 1, [], c.cfg.peers);
        PreGood(h, c);
        SentRole(h, c, RequestVotes(c, MsgPreVote, c.term + 1, [], c.cfg.peers));
      }
    } else {
      h' := ElectKept(h, n, t == CampaignTransfer);
    }
  }

  /** MsgHup: campaign, unless leading or a configuration change waits to be applied. */
  lemma HupKept(h: History, n: Node) returns (h': History)
    requires Inv(h) && Good(h, n) && Drained(n.log)
    ensures Shape(n) && Kept(h, h', n.cfg.id, StepHup(n))
  {
    HupReads(h, n);
    hide Inv, Core, SentOk, Extends, RoleOk, Shape, Campaign, LimitSize, HasConfChange;
    CoreFacts(h, n);
    h' := CampaignOrStay(h, n);
  }

  lemma HupReads(h: History, n: Node)
    requires Core(h, n) && Drained(n.log)
    ensures n.log.applied <= n.log.committed <= n.log.LastIndex()
    ensures Slice(n.log, n.log.applied + 1, n.log.committed + 1, 0xFFFF_FFFF_FFFF_FFFF).Some?
  {
  }

  lemma CampaignOrStay(h: History, n: Node) returns (h': History)
    requires Inv(h) && Good(h, n) && Shape(n)
    requires n.log.applied <= n.log.committed <= n.log.LastIndex()
    requires Slice(n.log, n.log.applied + 1, n.log.committed + 1, 0xFFFF_FFFF_FFFF_FFFF).Some?
    ensures Kept(h, h', n.cfg.id, StepHup(n))
  {
    hide Inv, Core, SentOk, Extends, RoleOk, Shape, Campaign, Slice, HasConfChange;
    CoreFacts(h, n);
    if n.role == Leader {
      h' := h;
      ExtendsRefl(h, n.cfg.id);
    } else {
      h' := CampaignKept(h, n, if n.cfg.preVote then CampaignPreElection else CampaignElection);
      if StepHup(n) == n {
        h' := h;
        ExtendsRefl(h, n.cfg.id);
      }
    }
  }

  // --------------------------------------------------------------------------
  // Answering a vote request

  lemma UpToDateIs(h: History, n: Node, m: Message)
    requires Core(h, n) && VoteMsgOk(h, m)
    ensures n.log.IsUpToDate(m.index, m.logTerm) == UpToDate(h.cands[(m.from, m.term)], h.log[n.cfg.id])
  {
  }

  lemma CandIsVoter(h: History, c: Id, t: nat)
    requires Inv(h) && (c, t) in h.cands
    ensures c in h.voters
  {
  }

  /** Changing only the vote and the outbox leaves the role as it was, unless a candidate's own vote goes. */
  lemma VoteRole(h: History, n: Node, n': Node)
    requires RoleOk(h, n) && n' == n.(msgs := n'.msgs, vote := n'.vote) && (n.role == Candidate ==> n'.vote == n.vote)
    ensures RoleOk(h, n')
  {
  }

  lemma CastCore(h: History, n: Node, c: Id)
    requires Core(h, n) && CanCast(h, n.cfg.id, c) && c != 0
    ensures Core(Cast(h, n.cfg.id, c), n.(vote := c))
    ensures VotedFor(Cast(h, n.cfg.id, c), n.cfg.id, n.term, c)
  {
  }

  /** The history after a vote for the sender of a request: a new vote unless it is the old one again. */
  lemma GrantHistory(h: History, n: Node, m: Message) returns (h': History)
    requires Inv(h) && Core(h, n) && VoteMsgOk(h, m) && m.term == n.term && (n.vote == m.from || n.vote == 0)
    requires n.log.IsUpToDate(m.index, m.logTerm)
    ensures Inv(h') && Extends(h, h', n.cfg.id) && Core(h', n.(vote := m.from))
    ensures VotedFor(h', n.cfg.id, n.term, m.from)
    ensures h'.leader == h.leader && h'.ll == h.ll && h'.lc == h.lc && h'.log == h.log
  {
    hide Inv, Core, Extends, VotedFor, UpToDate;
    CoreFacts(h, n);
    CandIsVoter(h, m.from, m.term);
    if n.vote == m.from {
      h' := h;
      ExtendsRefl(h, n.cfg.id);
    } else {
      UpToDateIs(h, n, m);
      CastInv(h, n.cfg.id, m.from);
      CastCore(h, n, m.from);
      h' := Cast(h, n.cfg.id, m.from);
    }
  }

  lemma RoleKept(h: History, h': History, n: Node)
    requires RoleOk(h, n) && Extends(h, h', n.cfg.id)
    requires h'.leader == h.leader && h'.ll == h.ll && h'.lc == h.lc && h'.log == h.log
    ensures RoleOk(h', n)
  {
  }

  lemma GrantReply(h: History, n: Node, m: Message)
    requires Base(h, n) && (m.mtype == MsgVote || m.mtype == MsgPreVote) && m.term >= 1
    requires m.mtype == MsgVote ==> VotedFor(h, n.cfg.id, m.term, m.from)
    ensures var r := Blank(RespType(m.mtype), m.from).(term := m.term);
      Send(n, r) == n.(msgs := n.msgs + [Stamped(n, r)]) && Base(h, Send(n, r))
  {
  }

  lemma RejectReply(h: History, n: Node, m: Message)
    requires Good(h, n) && (m.mtype == MsgVote || m.mtype == MsgPreVote) && n.term >= 1
    ensures Good(h, Send(n, Blank(RespType(m.mtype), m.from).(term := n.term, reject := true)))
  {
    hide Core, SentOk, Send;
    var r := Blank(RespType(m.mtype), m.from).(term := n.term, reject := true);
    SendBase(h, n, r);
    SentRole(h, n, Send(n, r));
  }

  lemma LogTerms(h: History, n: Node)
    requires Inv(h) && Core(h, n)
    ensures n.log.LastTerm() <= n.term && (n.log.LastTerm() == 0 ==> n.log.LastIndex() == 0)
  {
  }

  lemma PreVoteKept(h: History, n: Node, m: Message)
    requires Inv(h) && Good(h, n) && m.mtype == MsgPreVote && m.term >= 1 && n.term <= m.term
    ensures Good(h, StepVote(n, m))
  {
    hide Inv, Core, SentOk, Send;
    CoreFacts(h, n);
    if CanVote(n, m) && n.log.IsUpToDate(m.index, m.logTerm) {
      GrantReply(h, n, m);
      SentRole(h, n, StepVote(n, m));
    } else {
      LogTerms(h, n);
      RejectReply(h, n, m);
    }
  }

  lemma VoteKept(h: History, n: Node, m: Message) returns (h': History)
    requires Inv(h) && Good(h, n) && m.mtype == MsgVote && VoteMsgOk(h, m) && m.term == n.term
    ensures Kept(h, h', n.cfg.id, StepVote(n, m))
  {
    hide Inv, Core, SentOk, Send, Extends, VotedFor, RoleOk;
    CoreFacts(h, n);
    if CanVote(n, m) && n.log.IsUpToDate(m.index, m.logTerm) {
      h' := GrantHistory(h, n, m);
      SentStays(h, h', n.cfg.id, n);
      RoleKept(h, h', n);
      var v := n.(vote := m.from);
      SentFrame(h', n, v);
      GrantReply(h', v, m);
      SendIs(n, Blank(RespType(m.mtype), m.from).(term := m.term));
      if n.role == Candidate { CandidateVote(h, n); }
      VoteRole(h', n, StepVote(n, m));
    } else {
      h' := h;
      ExtendsRefl(h, n.cfg.id);
      RejectReply(h, n, m);
    }
  }

  lemma CandidateVote(h: History, n: Node)
    requires RoleOk(h, n) && n.role == Candidate
    ensures n.vote == n.cfg.id
  {
  }

  // --------------------------------------------------------------------------
  // Counting votes

  /** A node in an election: possibly with a majority it has not acted on yet. */
  ghost predicate Electing(h: History, n: Node) {
    && Base(h, n) && n.lead == 0
    && (n.role == PreCandidate || (n.role == Candidate && IsRunning(h, n)))
  }

  lemma PolledCount(n: Node, id: Id, v: bool)
    requires Granted(n) < NodeQuorum(n)
    ensures var n' := Poll(n, id, v); Granted(n') <= NodeQuorum(n')
    ensures var n' := Poll(n, id, v); n' == n.(votes := n'.votes)
  {
    var n' := Poll(n, id, v);
    if n' != n {
      assert GrantedBy(n'.votes) <= GrantedBy(n.votes) + {id};
      SubsetSize(GrantedBy(n'.votes), GrantedBy(n.votes) + {id});
    }
  }

  lemma PolledCore(h: History, n: Node, votes: map<Id, bool>)
    requires Base(h, n)
    ensures Base(h, n.(votes := votes))
  {
  }

  lemma VoterOf(h: History, p: Id, t: nat, c: Id)
    requires Inv(h) && VotedFor(h, p, t, c)
    ensures p in h.voters
  {
  }

  lemma PolledRunning(h: History, n: Node, id: Id, v: bool)
    requires Inv(h) && IsRunning(h, n) && (v && id !in n.votes ==> VotedFor(h, id, n.term, n.cfg.id))
    ensures IsRunning(h, Poll(n, id, v))
  {
    hide Inv, VotedFor, LeaderIs;
    if v && id !in n.votes { VoterOf(h, id, n.term, n.cfg.id); }
  }

  lemma TallyKept(h: History, n: Node) returns (h': History)
    requires Inv(h) && Electing(h, n) && Granted(n) <= NodeQuorum(n)
    ensures Shape(n) && Kept(h, h', n.cfg.id, Tally(n))
  {
    hide Inv, Core, SentOk, Extends, RoleOk, Granted, Shape, NodeSpec.Elect, BecomeLeader, BcastAppend,
      BecomeFollower, IsRunning, IsLeading, IsFollowing;
    CoreFacts(h, n);
    if NodeQuorum(n) == Granted(n) {
      if n.role == PreCandidate {
        h' := ElectKept(h, n, false);
      } else {
        h' := BecomeLeading(h, n);
        LeadingShape(h', BecomeLeader(n));
        BcastLeading(h', BecomeLeader(n), n.cfg.peers);
        LeadingGood(h', BcastAppend(BecomeLeader(n), n.cfg.peers));
      }
    } else if NodeQuorum(n) == |n.votes| - Granted(n) {
      h' := FollowBase(h, n, n.term, 0);
      FollowingGood(h', BecomeFollower(n, n.term, 0));
      FollowerIs(n, n.term, 0);
    } else {
      h' := h;
      ExtendsRefl(h, n.cfg.id);
      if n.role == PreCandidate { PreGood(h, n); } else { RunningGood(h, n); }
    }
  }

  lemma FollowerIs(n: Node, t: nat, lead: Id)
    requires !n.fatal
    ensures var f := BecomeFollower(n, t, lead);
      f.cfg == n.cfg && f.term == t && f.lead == lead && f.role == Follower && f.log == n.log && !f.fatal
  {
  }

  /** What makes a granted pre-vote response dangerous: a candidate counts it as a vote. */
  predicate Miscounts(n: Node, m: Message) {
    n.role == Candidate && m.mtype == MsgPreVoteResp && !m.reject && m.term >= n.term && m.from !in n.votes
  }

  lemma VoteRespKept(h: History, n: Node, m: Message) returns (h': History)
    requires Inv(h) && Good(h, n) && (n.role == PreCandidate || n.role == Candidate)
    requires m.mtype == MsgVoteResp || m.mtype == MsgPreVoteResp
    requires MsgOk(h, m) && m.to == n.cfg.id && m.term >= n.term && !Miscounts(n, m)
    requires m.mtype == MsgVoteResp ==> m.term == n.term
    ensures Shape(n) && Kept(h, h', n.cfg.id, StepCandidate(n, m))
  {
    hide Inv, Core, SentOk, Extends, Granted, Shape, Tally, Poll, VotedFor, LeaderIs, VotesCounted;
    CoreFacts(h, n);
    PolledCount(n, m.from, !m.reject);
    var n1 := Poll(n, m.from, !m.reject);
    PolledCore(h, n, n1.votes);
    if n.role == Candidate {
      PolledRunning(h, n, m.from, !m.reject);
    }
    h' := TallyKept(h, n1);
  }
}
