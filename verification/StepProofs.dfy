/**
 One call of step(): whatever arrives, the invariant of the node and of the history survives, and nothing is fatal.
 */
module StepProofs {
  import opened Proto
  import opened Protocol
  import opened Steps
  import opened Actions
  import opened RaftLogSpec
  import opened NodeSpec
  import opened NodeInv
  import opened LeaderProofs
  import opened LeaderSteps
  import opened VoterProofs
  import opened FollowerProofs
  import R = ReadOnlySpec

  /** What the server itself hands to step(): ticks, reports, proposals and requests. */
  predicate IsLocal(m: Message) {
    && m.term == 0
    && match m.mtype
       case MsgHup => true
       case MsgBeat => true
       case MsgCheckQuorum => true
       case MsgUnreachable => true
       case MsgSnapStatus => true
       case MsgTransferLeader => true
       case MsgProp => m.entries != []
       case MsgReadIndex => m.entries != []
       case _ => false
  }

  /** A message step() may see: local, or true and addressed to this node. */
  ghost predicate Arrives(h: History, n: Node, m: Message) {
    IsLocal(m) || (MsgOk(h, m) && m.to == n.cfg.id)
  }

  /** Same, once the terms have been compared: not stale, and of a later term only if that term is not adopted. */
  ghost predicate Current(h: History, n: Node, m: Message) {
    && Arrives(h, n, m)
    && (|| m.term == 0 || m.term == n.term
        || (m.term > n.term && (m.mtype == MsgPreVote || (m.mtype == MsgPreVoteResp && !m.reject))))
  }

  // --------------------------------------------------------------------------
  // From a leader

  lemma FromLeader(h: History, n: Node, m: Message)
    requires Current(h, n, m) && Inv(h) && Core(h, n) && IsFromLeader(m.mtype)
    ensures LeaderIs(h, m.term, m.from) && m.to == n.cfg.id && m.from != n.cfg.id && m.term == n.term && m.from != 0
    ensures m.mtype == MsgApp ==> AppOk(h, m)
    ensures m.mtype == MsgHeartbeat ==> HeartbeatOk(h, m)
    ensures m.mtype == MsgSnap ==> SnapOk(h, m)
  {
    hide Inv, Core, AppOk, HeartbeatOk, SnapOk;
    assert LeaderIs(h, m.term, m.from) && m.to != m.from && m.term >= 1 by { LeaderMessage(h, m); }
    LeaderIsVoter(h, m.term, m.from);
    CoreFacts(h, n);
  }

  lemma LeaderMessage(h: History, m: Message)
    requires MsgOk(h, m) && IsFromLeader(m.mtype)
    ensures LeaderIs(h, m.term, m.from) && m.to != m.from && m.term >= 1
  {
  }

  lemma LeaderIsVoter(h: History, t: nat, c: Id)
    requires Inv(h) && LeaderIs(h, t, c)
    ensures c in h.voters
  {
    InvElim(h);
    assert LeaderOk(h, t) by { hide AcksKept, AcksVoted, Acks, Votes, Nodes, Commits; }
    CandIsVoter(h, c, t);
  }

  lemma NowFollowing(h: History, n: Node, m: Message)
    requires Inv(h) && Good(h, n) && n.role == Follower && Current(h, n, m) && IsFromLeader(m.mtype)
    ensures Following(h, n.(lead := m.from), m)
  {
    hide Inv, Core, SentOk, Current, LeaderIs;
    FromLeader(h, n, m);
    RoleFrame(h, n, m.from, Follower);
    SentFrame(h, n, n.(lead := m.from));
  }

  lemma FromLeaderKept(h: History, n: Node, m: Message) returns (h': History)
    requires Inv(h) && Following(h, n, m)
    requires m.mtype == MsgApp ==> AppOk(h, m)
    requires m.mtype == MsgHeartbeat ==> HeartbeatOk(h, m)
    requires m.mtype == MsgSnap ==> SnapOk(h, m)
    requires IsFromLeader(m.mtype)
    ensures Inv(h') && Extends(h, h', n.cfg.id)
    ensures m.mtype == MsgApp ==> Good(h', HandleAppend(n, m))
    ensures m.mtype == MsgHeartbeat ==> Good(h', HandleHeartbeat(n, m))
    ensures m.mtype == MsgSnap ==> Good(h', HandleSnapshot(n, m))
  {
    hide Inv, Extends, Good, Following, AppOk, HeartbeatOk, SnapOk, HandleAppend, HandleHeartbeat, HandleSnapshot;
    if m.mtype == MsgApp {
      h' := AppendKept(h, n, m);
    } else if m.mtype == MsgHeartbeat {
      h' := HeartbeatKept(h, n, m);
    } else {
      h' := SnapshotKept(h, n, m);
    }
  }

  // --------------------------------------------------------------------------
  // step_follower

  lemma ForwardOk(h: History, n: Node, m: Message)
    requires Inv(h) && Good(h, n) && n.role == Follower && Current(h, n, m) && n.lead != 0
    requires m.mtype == MsgProp || m.mtype == MsgReadIndex || m.mtype == MsgTransferLeader
    ensures Good(h, Forward(n, m))
  {
    hide Inv, Core, SentOk, Send, LeaderIs;
    TermReal(h, n.term, n.lead);
    if m.mtype == MsgTransferLeader { TransferLocal(h, n, m); }
    var m' := m.(to := n.lead);
    SendBase(h, n, m');
    SentRole(h, n, Send(n, m'));
    FollowingGood(h, Send(n, m'));
  }

  /** A transfer request that was forwarded went to a leader; a follower that knows a leader only sees local ones. */
  lemma TransferLocal(h: History, n: Node, m: Message)
    requires Inv(h) && IsFollowing(h, n) && Current(h, n, m) && n.lead != 0 && m.mtype == MsgTransferLeader
    ensures m.term == 0
  {
    hide Inv;
  }

  lemma FollowerKept(h: History, n: Node, m: Message) returns (h': History)
    requires Inv(h) && Good(h, n) && n.role == Follower && Current(h, n, m)
    ensures Shape(n) && Kept(h, h', n.cfg.id, StepFollower(n, m))
  {
    hide Inv, Core, SentOk, Extends, RoleOk, Current, Shape, Forward, Campaign, HandleAppend, HandleHeartbeat,
      HandleSnapshot, MsgOk;
    CoreFacts(h, n);
    if IsFromLeader(m.mtype) {
      FromLeader(h, n, m);
      NowFollowing(h, n, m);
      h' := FromLeaderKept(h, n.(lead := m.from), m);
    } else if m.mtype == MsgTimeoutNow {
      h' := CampaignKept(h, n, CampaignTransfer);
    } else {
      h' := h;
      ExtendsRefl(h, n.cfg.id);
      FollowerStays(h, n, m);
    }
  }

  lemma FollowerStays(h: History, n: Node, m: Message)
    requires Inv(h) && Good(h, n) && n.role == Follower && Current(h, n, m) && Shape(n) && !n.fatal
    requires !IsFromLeader(m.mtype) && m.mtype != MsgTimeoutNow
    ensures Good(h, StepFollower(n, m))
  {
    hide Inv, Core, SentOk, RoleOk, Current, Shape, Send, Campaign, HandleAppend, HandleHeartbeat, HandleSnapshot;
    if (m.mtype == MsgProp || m.mtype == MsgReadIndex || m.mtype == MsgTransferLeader) && n.lead != 0 {
      ForwardOk(h, n, m);
    } else if m.mtype == MsgReadIndexResp && |m.entries| == 1 {
      ReadStateGood(h, n, R.ReadState(m.index, R.CtxOf(m)));
    }
  }

  lemma ReadStateGood(h: History, n: Node, rs: R.ReadState)
    requires Good(h, n) && n.role == Follower
    ensures Good(h, PushReadState(n, rs))
  {
  }

  // --------------------------------------------------------------------------
  // step_candidate

  lemma RespTerm(h: History, m: Message)
    ensures MsgOk(h, m) && (m.mtype == MsgVoteResp || m.mtype == MsgPreVoteResp) ==> m.term >= 1
  {
  }

  lemma CandidateKept(h: History, n: Node, m: Message) returns (h': History)
    requires Inv(h) && Good(h, n) && (n.role == Candidate || n.role == PreCandidate) && Current(h, n, m)
    requires !Miscounts(n, m)
    ensures Shape(n) && Kept(h, h', n.cfg.id, StepCandidate(n, m))
  {
    hide Inv, Core, SentOk, Extends, RoleOk, Shape, BecomeFollower, Tally, Poll, HandleAppend, HandleHeartbeat,
      HandleSnapshot, MsgOk;
    CoreFacts(h, n);
    if IsFromLeader(m.mtype) {
      FromLeader(h, n, m);
      FollowerIs(n, m.term, m.from);
      var h1 := FollowBase(h, n, m.term, m.from);
      LeaderStays(h, h1, n.cfg.id, m.term, m.from);
      var f := BecomeFollower(n, m.term, m.from);
      FromLeaderStays(h, h1, n.cfg.id, m);
      FromLeader(h, n, m);
      h' := FromLeaderKept(h1, f, m);
      ExtendsTrans(h, h1, h', n.cfg.id);
    } else if m.mtype == MsgVoteResp || m.mtype == MsgPreVoteResp {
      RespTerm(h, m);
      h' := VoteRespKept(h, n, m);
    } else {
      h' := h;
      ExtendsRefl(h, n.cfg.id);
    }
  }

  lemma FromLeaderStays(h: History, h': History, n: Id, m: Message)
    requires Extends(h, h', n) && IsFromLeader(m.mtype)
    requires m.mtype == MsgApp ==> AppOk(h, m)
    requires m.mtype == MsgHeartbeat ==> HeartbeatOk(h, m)
    requires m.mtype == MsgSnap ==> SnapOk(h, m)
    ensures m.mtype == MsgApp ==> AppOk(h', m)
    ensures m.mtype == MsgHeartbeat ==> HeartbeatOk(h', m)
    ensures m.mtype == MsgSnap ==> SnapOk(h', m)
  {
  }

  // --------------------------------------------------------------------------
  // step_leader

  lemma LeaderKept(h: History, n: Node, m: Message) returns (h': History)
    requires Inv(h) && Good(h, n) && n.role == Leader && Current(h, n, m)
    ensures Shape(n) && Kept(h, h', n.cfg.id, StepLeader(n, m))
  {
    hide Inv, Core, SentOk, Extends, IsLeading, Shape, BecomeFollower, Propose, LeaderReadIndex, AppResp,
      HeartbeatResp, SnapStatus, Unreachable, TransferLeader, BcastHeartbeat, R.Consistent, LeaderIs, Acked, VotedFor,
      CountActive;
    LeadingShape(h, n);
    ExtendsRefl(h, n.cfg.id);
    h' := h;
    if m.mtype == MsgProp {
      h' := ProposeLeading(h, n, m);
      LeadingGood(h', Propose(n, m));
    } else if m.mtype == MsgCheckQuorum && CountActive(n, n.cfg.peers) < NodeQuorum(n) {
      CoreFacts(h, n);
      h' := FollowBase(h, n, n.term, 0);
      FollowingGood(h', BecomeFollower(n, n.term, 0));
    } else if m.mtype == MsgAppResp && m.from in n.prs {
      h' := AppRespLeading(h, n, m);
      LeadingGood(h', AppResp(n, m));
    } else {
      LeaderStaysGood(h, n, m);
    }
  }

  lemma LeaderStaysGood(h: History, n: Node, m: Message)
    requires Inv(h) && Leading(h, n) && Current(h, n, m) && Shape(n)
    requires m.mtype != MsgProp && (m.mtype == MsgAppResp ==> m.from !in n.prs)
    requires m.mtype == MsgCheckQuorum ==> CountActive(n, n.cfg.peers) >= NodeQuorum(n)
    ensures Good(h, StepLeader(n, m))
  {
    hide Inv, Core, SentOk, IsLeading, Shape, BecomeFollower, Propose, LeaderReadIndex, AppResp, HeartbeatResp,
      SnapStatus, Unreachable, TransferLeader, BcastHeartbeat, R.Consistent, LeaderIs, Acked, VotedFor, CountActive,
      Good;
    LeadingShape(h, n);
    if m.mtype == MsgBeat {
      BcastHeartbeatLeading(h, n, R.LastPendingCtx(n.readOnly), n.cfg.peers);
    } else if m.mtype == MsgReadIndex {
      ReadIndexLeading(h, n, m);
    } else if m.from in n.prs {
      if m.mtype == MsgHeartbeatResp {
        HeartbeatRespLeading(h, n, m);
      } else if m.mtype == MsgSnapStatus {
        SnapStatusLeading(h, n, m);
      } else if m.mtype == MsgUnreachable {
        UnreachableLeading(h, n, m);
      } else if m.mtype == MsgTransferLeader {
        TransferLeading(h, n, m);
      }
    }
    LeadingGood(h, StepLeader(n, m));
  }

  // --------------------------------------------------------------------------
  // step

  lemma DispatchKept(h: History, n: Node, m: Message) returns (h': History)
    requires Inv(h) && Good(h, n) && Drained(n.log) && Current(h, n, m) && !Miscounts(n, m)
    ensures Shape(n) && Kept(h, h', n.cfg.id, Dispatch(n, m))
  {
    hide Inv, Extends, Good, Shape, Current, StepHup, StepVote, StepLeader, StepFollower, StepCandidate, Miscounts,
      VoteMsgOk;
    GoodShape(h, n);
    if m.mtype == MsgHup {
      h' := HupKept(h, n);
    } else if m.mtype == MsgVote {
      VoteCurrent(h, n, m);
      h' := VoteKept(h, n, m);
    } else if m.mtype == MsgPreVote {
      h' := h;
      ExtendsRefl(h, n.cfg.id);
      PreVoteCurrent(h, n, m);
      PreVoteKept(h, n, m);
    } else if n.role == Leader {
      h' := LeaderKept(h, n, m);
    } else if n.role == Follower {
      h' := FollowerKept(h, n, m);
    } else {
      h' := CandidateKept(h, n, m);
    }
  }

  lemma GoodShape(h: History, n: Node)
    requires Good(h, n)
    ensures Shape(n) && !n.fatal && Base(h, n) && n.cfg.id in h.voters && n.cfg.id != 0
  {
  }

  lemma VoteCurrent(h: History, n: Node, m: Message)
    requires Current(h, n, m) && m.mtype == MsgVote
    ensures VoteMsgOk(h, m) && m.term == n.term
  {
  }

  lemma PreVoteCurrent(h: History, n: Node, m: Message)
    requires Current(h, n, m) && m.mtype == MsgPreVote
    ensures m.term >= 1 && n.term <= m.term
  {
  }

  /** A message of a later term first makes the node a follower in that term. */
  lemma CatchUpKept(h: History, n: Node, m: Message) returns (h': History)
    requires Inv(h) && Good(h, n) && MsgOk(h, m) && m.to == n.cfg.id && m.term > n.term
    ensures Kept(h, h', n.cfg.id, CatchUp(n, m)) && Current(h', CatchUp(n, m), m)
    ensures CatchUp(n, m).log == n.log && CatchUp(n, m).cfg == n.cfg
    ensures CatchUp(n, m) == n || !Miscounts(CatchUp(n, m), m)
  {
    hide Inv, Extends, Good, BecomeFollower, MsgOk, IsFollowing, LeaderIs;
    GoodShape(h, n);
    if m.mtype == MsgPreVote || (m.mtype == MsgPreVoteResp && !m.reject) {
      h' := h;
      ExtendsRefl(h, n.cfg.id);
    } else {
      var lead := if IsFromLeader(m.mtype) then m.from else 0;
      if IsFromLeader(m.mtype) { LeaderMessage(h, m); }
      h' := FollowBase(h, n, m.term, lead);
      FollowingGood(h', BecomeFollower(n, m.term, lead));
      FollowerIs(n, m.term, lead);
      MsgStays(h, h', n.cfg.id, m);
    }
  }

  lemma StaleKept(h: History, n: Node, m: Message)
    requires Inv(h) && Good(h, n) && MsgOk(h, m) && m.to == n.cfg.id && 1 <= m.term < n.term
    ensures Good(h, StepStale(n, m))
  {
    hide Inv, Core, SentOk, Send, RoleOk;
    GoodShape(h, n);
    if (n.cfg.checkQuorum || n.cfg.preVote) && (m.mtype == MsgHeartbeat || m.mtype == MsgApp) {
      LeaderMessage(h, m);
      StaleReply(h, n, Blank(MsgAppResp, m.from));
    } else if m.mtype == MsgPreVote {
      StaleReply(h, n, Blank(MsgPreVoteResp, m.from).(reject := true, term := n.term));
    }
  }

  lemma StaleReply(h: History, n: Node, r: Message)
    requires Good(h, n) && Sendable(r) && MsgOk(h, Stamped(n, r))
    ensures Good(h, Send(n, r))
  {
    hide Core, SentOk, Send, RoleOk, MsgOk;
    SendBase(h, n, r);
    SentRole(h, n, Send(n, r));
  }

  /** The one condition under which the node's own checks are not enough: see Miscounts. */
  lemma StepKept(h: History, n: Node, m: Message, lease: bool) returns (h': History)
    requires Inv(h) && Good(h, n) && Drained(n.log) && Arrives(h, n, m) && !Miscounts(n, m)
    ensures Shape(n) && Kept(h, h', n.cfg.id, Step(n, m, lease))
  {
    hide Inv, Extends, Good, Shape, Current, Dispatch, StepStale, Miscounts, InLease, CatchUp, MsgOk, IsLocal;
    GoodShape(h, n);
    LocalTerm(m);
    if m.term > n.term {
      if InLease(n, m, lease) {
        h' := h;
        ExtendsRefl(h, n.cfg.id);
      } else {
        var h1 := CatchUpKept(h, n, m);
        h' := DispatchKept(h1, CatchUp(n, m), m);
        ExtendsTrans(h, h1, h', n.cfg.id);
      }
    } else if m.term != 0 && m.term < n.term {
      h' := h;
      ExtendsRefl(h, n.cfg.id);
      StaleKept(h, n, m);
    } else {
      SameTermCurrent(h, n, m);
      h' := DispatchKept(h, n, m);
    }
  }

  lemma LocalTerm(m: Message)
    ensures IsLocal(m) ==> m.term == 0
  {
  }

  lemma SameTermCurrent(h: History, n: Node, m: Message)
    requires Arrives(h, n, m) && (m.term == 0 || m.term == n.term)
    ensures Current(h, n, m)
  {
  }
}
