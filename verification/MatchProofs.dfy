/**
 Progress only moves forward: within a leader's term no match index ever drops, and leadership of a term never
 returns.
 */
module MatchProofs {
  import opened Proto
  import opened RaftLogSpec
  import opened NodeSpec
  import P = ProgressSpec
  import R = ReadOnlySpec

  ghost predicate Ahead(n: Node, n': Node) {
    && n'.term == n.term && n'.role == n.role && n'.prs.Keys == n.prs.Keys
    && forall p :: p in n.prs && p in n'.prs ==> n.prs[p].matched <= n'.prs[p].matched
  }

  lemma AheadTrans(a: Node, b: Node, c: Node)
    requires Ahead(a, b) && Ahead(b, c)
    ensures Ahead(a, c)
  {
  }

  lemma SendAhead(n: Node, m: Message)
    ensures Ahead(n, Send(n, m))
  {
  }

  lemma SetAhead(n: Node, p: Id, r: P.Progress)
    requires p in n.prs && n.prs[p].matched <= r.matched
    ensures Ahead(n, SetPr(n, p, r))
  {
  }

  lemma MaybeSendAhead(n: Node, to: Id, e: bool)
    requires to in n.prs
    ensures Ahead(n, MaybeSendAppend(n, to, e))
  {
    hide SendsAppend, NextEntries;
    var p := n.prs[to];
    if !n.fatal && SendsAppend(n, to, e) {
      match NextEntries(n, to) {
        case None =>
          SetAhead(n, to, P.BecomeSnapshot(p, n.log.snap.index));
        case Some(es) =>
          SetAhead(n, to, SentProgress(p, es));
      }
    }
  }

  lemma {:induction false} BcastAhead(n: Node, peers: seq<Id>)
    requires forall p :: p in peers ==> p in n.prs
    ensures Ahead(n, BcastAppend(n, peers))
    decreases |peers|
  {
    hide MaybeSendAppend;
    if !n.fatal && peers != [] {
      var n1 := if peers[0] == n.cfg.id then n else SendAppend(n, peers[0]);
      if peers[0] != n.cfg.id { MaybeSendAhead(n, peers[0], true); }
      BcastAhead(n1, peers[1..]);
      AheadTrans(n, n1, BcastAppend(n, peers));
    }
  }

  lemma {:induction false} SendAllAhead(n: Node, to: Id)
    requires Shape(n) && to in n.prs
    ensures Ahead(n, SendAll(n, to))
    decreases Backlog(n, to), if n.fatal then 0 else if P.IsPaused(n.prs[to], n.cfg.maxInflight) then 1 else 2
  {
    hide MaybeSendAppend, Shape, Ahead;
    if !n.fatal && SendsAppend(n, to, false) {
      SendMakesProgress(n, to);
      MaybeSendAhead(n, to, false);
      SendAllAhead(MaybeSendAppend(n, to, false), to);
      AheadTrans(n, MaybeSendAppend(n, to, false), SendAll(n, to));
    } else {
      AheadSame(n);
    }
  }

  /** The send loop stops only when there is nothing more it may send. */
  lemma {:induction false} SendAllDrains(n: Node, to: Id)
    requires Shape(n) && to in n.prs
    ensures var n' := SendAll(n, to); to in n'.prs && (n'.fatal || !SendsAppend(n', to, false))
    decreases Backlog(n, to), if n.fatal then 0 else if P.IsPaused(n.prs[to], n.cfg.maxInflight) then 1 else 2
  {
    hide MaybeSendAppend, Shape;
    if !n.fatal && SendsAppend(n, to, false) {
      SendMakesProgress(n, to);
      SendAllDrains(MaybeSendAppend(n, to, false), to);
    }
  }

  lemma AheadSame(n: Node)
    ensures Ahead(n, n)
  {
  }

  lemma {:induction false} BeatsAhead(n: Node, ctx: seq<byte>, peers: seq<Id>)
    requires forall p :: p in peers ==> p in n.prs
    ensures Ahead(n, BcastHeartbeat(n, ctx, peers))
    decreases |peers|
  {
    hide Send;
    if !n.fatal && peers != [] {
      var n1 := if peers[0] == n.cfg.id then n else Heartbeat(n, peers[0], ctx);
      SendAhead(n, Blank(MsgHeartbeat, peers[0]).(commit := Min(n.prs[peers[0]].matched, n.log.committed),
        context := ctx));
      BeatsAhead(n1, ctx, peers[1..]);
      AheadTrans(n, n1, BcastHeartbeat(n, ctx, peers));
    }
  }

  lemma CommitAhead(n: Node)
    requires n.cfg.peers != []
    ensures Ahead(n, NodeSpec.MaybeCommit(n))
  {
  }

  lemma AppendAhead(n: Node, es: seq<Entry>)
    requires Shape(n)
    ensures Ahead(n, AppendEntry(n, es))
  {
  }

  lemma ProposeAhead(n: Node, m: Message)
    requires Shape(n)
    ensures Ahead(n, Propose(n, m))
  {
    hide AppendEntry, BcastAppend, FilterProposal, FitsUncommitted, Stamp;
    var (es, pending) := FilterProposal(m.entries, n.pendingConf, n.log.applied, n.log.LastIndex());
    var n1 := n.(pendingConf := pending);
    AppendKeepsShape(n1, es);
    AppendAhead(n1, es);
    BcastAhead(AppendEntry(n1, es), n.cfg.peers);
    AheadTrans(n1, AppendEntry(n1, es), BcastAppend(AppendEntry(n1, es), n.cfg.peers));
  }

  lemma AcceptedAhead(p: P.Progress, index: nat)
    ensures p.matched <= AcceptedProgress(p, index).matched
  {
  }

  lemma AfterAcceptAhead(n: Node, from: Id, paused: bool)
    requires Shape(n) && from in n.prs
    ensures Ahead(n, AfterAccept(n, from, paused))
  {
    hide MaybeSendAppend, BcastAppend, NodeSpec.MaybeCommit, CommitsMore;
    MaybeCommitKeepsShape(n);
    CommitAhead(n);
    BcastAhead(NodeSpec.MaybeCommit(n), n.cfg.peers);
    AheadTrans(n, NodeSpec.MaybeCommit(n), BcastAppend(NodeSpec.MaybeCommit(n), n.cfg.peers));
    MaybeSendAhead(n, from, true);
  }

  lemma AppRespAhead(n: Node, m: Message)
    requires Shape(n) && m.from in n.prs
    ensures Ahead(n, AppResp(n, m))
  {
    hide MaybeSendAppend, SendAll, AfterAccept, AcceptedProgress, Ahead, Send;
    var p := n.prs[m.from].(recentActive := true);
    AheadSame(n);
    SetAhead(n, m.from, p);
    SetAhead(n, m.from, P.MaybeUpdate(p, m.index));
    RejectAhead(n, m);
    AcceptAhead(n, m);
  }

  lemma RejectAhead(n: Node, m: Message)
    requires Shape(n) && m.from in n.prs
    ensures var p := n.prs[m.from].(recentActive := true); var q := P.MaybeDecreaseTo(p, m.index, m.rejectHint);
      Ahead(n, SendAppend(SetPr(n, m.from, if q.state == P.Replicate then P.BecomeProbe(q) else q), m.from))
  {
    hide MaybeSendAppend;
    var p := n.prs[m.from].(recentActive := true);
    var q := P.MaybeDecreaseTo(p, m.index, m.rejectHint);
    var r := if q.state == P.Replicate then P.BecomeProbe(q) else q;
    SetAhead(n, m.from, r);
    MaybeSendAhead(SetPr(n, m.from, r), m.from, true);
    AheadTrans(n, SetPr(n, m.from, r), SendAppend(SetPr(n, m.from, r), m.from));
  }

  lemma AcceptAhead(n: Node, m: Message)
    requires Shape(n) && m.from in n.prs
    ensures var p := n.prs[m.from].(recentActive := true);
      !n.fatal && !m.reject && P.Updates(p, m.index) ==> Ahead(n, AppResp(n, m))
  {
    hide MaybeSendAppend, SendAll, AfterAccept, AcceptedProgress, Ahead, Send, Shape;
    var p := n.prs[m.from].(recentActive := true);
    AcceptedAhead(p, m.index);
    var n1 := SetPr(n, m.from, AcceptedProgress(p, m.index));
    SetAhead(n, m.from, AcceptedProgress(p, m.index));
    ShapeSet(n, m.from, AcceptedProgress(p, m.index));
    var paused := P.IsPaused(p, n.cfg.maxInflight);
    AfterAcceptKeepsShape(n1, m.from, paused);
    AfterAcceptAhead(n1, m.from, paused);
    var n2 := AfterAccept(n1, m.from, paused);
    SendAllAhead(n2, m.from);
    var n3 := SendAll(n2, m.from);
    SendAhead(n3, Blank(MsgTimeoutNow, m.from));
    AheadTrans(n, n1, n2);
    AheadTrans(n, n2, n3);
    AheadTrans(n, n3, SendTimeoutNow(n3, m.from));
  }

  lemma ShapeSet(n: Node, p: Id, r: P.Progress)
    requires Shape(n) && p in n.prs
    ensures Shape(SetPr(n, p, r))
  {
  }

  lemma {:induction false} AnswersAhead(n: Node, ss: seq<R.ReadIndexStatus>)
    ensures Ahead(n, AnswerReads(n, ss))
    decreases |ss|
  {
    hide Send;
    if !n.fatal && ss != [] && ss[0].req.entries != [] {
      AnswerAhead(n, ss[0].req, ss[0].index);
      AnswersAhead(AnswerRead(n, ss[0].req, ss[0].index), ss[1..]);
      AheadTrans(n, AnswerRead(n, ss[0].req, ss[0].index), AnswerReads(n, ss));
    }
  }

  lemma AnswerAhead(n: Node, req: Message, index: nat)
    requires req.entries != []
    ensures Ahead(n, AnswerRead(n, req, index))
  {
  }

  lemma HeartbeatRespAhead(n: Node, m: Message)
    requires Shape(n) && m.from in n.prs
    ensures Ahead(n, HeartbeatResp(n, m))
  {
    hide MaybeSendAppend, HeartbeatReads, P.FreeFirstOne;
    if !n.fatal {
      var n1 := SetPr(n, m.from, HeartbeatProgress(n, n.prs[m.from]));
      SetAhead(n, m.from, HeartbeatProgress(n, n.prs[m.from]));
      MaybeSendAhead(n1, m.from, true);
      var n2 := if n1.prs[m.from].matched < n1.log.LastIndex() then SendAppend(n1, m.from) else n1;
      AheadTrans(n, n1, SendAppend(n1, m.from));
      HeartbeatReadsAhead(n2, m);
      AheadTrans(n, n2, HeartbeatReads(n2, m));
    }
  }

  lemma HeartbeatReadsAhead(n: Node, m: Message)
    ensures Ahead(n, HeartbeatReads(n, m))
  {
    hide AnswerReads, R.Advance, R.AdvanceStatuses, R.RecvAck, R.AckCount, R.AdvanceFails;
    var n1 := n.(readOnly := R.RecvAck(n.readOnly, m));
    var n2 := n1.(readOnly := R.Advance(n1.readOnly, m.context));
    AnswersAhead(n2, R.AdvanceStatuses(n1.readOnly, m.context));
    AheadTrans(n, n2, AnswerReads(n2, R.AdvanceStatuses(n1.readOnly, m.context)));
  }

  lemma ReadIndexAhead(n: Node, m: Message)
    requires Shape(n)
    ensures Ahead(n, LeaderReadIndex(n, m))
  {
    hide BcastHeartbeat, R.AddRequest, AnswerRead;
    if m.entries != [] {
      var n1 := n.(readOnly := R.AddRequest(n.readOnly, n.log.committed, m));
      BeatsAhead(n1, R.CtxOf(m), n.cfg.peers);
      AheadTrans(n, n1, BcastHeartbeat(n1, R.CtxOf(m), n.cfg.peers));
      AnswerAhead(n, m, n.log.committed);
    }
  }

  lemma TransferAhead(n: Node, m: Message)
    requires Shape(n) && m.from in n.prs
    ensures Ahead(n, TransferLeader(n, m))
  {
    hide MaybeSendAppend, Send;
    var n1 := n.(transferee := m.from);
    MaybeSendAhead(n1, m.from, true);
    SendAhead(n1, Blank(MsgTimeoutNow, m.from));
    AheadTrans(n, n1, SendAppend(n1, m.from));
    AheadTrans(n, n1, SendTimeoutNow(n1, m.from));
  }

  /** Every branch of step_leader that leaves the node leading. */
  lemma LeaderAhead(n: Node, m: Message)
    requires Shape(n) && n.role == Leader
    ensures StepLeader(n, m).role == Leader ==> Ahead(n, StepLeader(n, m))
  {
    hide Propose, LeaderReadIndex, AppResp, HeartbeatResp, BcastHeartbeat, TransferLeader, CountActive, Shape, Ahead,
      SnapStatus, Unreachable, Reset;
    AheadSame(n);
    ShapePeers(n);
    BeatsAhead(n, R.LastPendingCtx(n.readOnly), n.cfg.peers);
    ProposeAhead(n, m);
    ReadIndexAhead(n, m);
    if m.from in n.prs {
      AppRespAhead(n, m);
      HeartbeatRespAhead(n, m);
      TransferAhead(n, m);
      ReportsAhead(n, m);
    }
  }

  lemma ShapePeers(n: Node)
    requires Shape(n)
    ensures forall p :: p in n.cfg.peers ==> p in n.prs
  {
  }

  lemma ReportsAhead(n: Node, m: Message)
    requires m.from in n.prs
    ensures Ahead(n, SnapStatus(n, m)) && Ahead(n, Unreachable(n, m))
  {
  }

  lemma DispatchAhead(n: Node, m: Message)
    requires Shape(n) && n.role == Leader
    ensures Dispatch(n, m).role == Leader ==> Ahead(n, Dispatch(n, m))
  {
    hide StepLeader, Send, Shape;
    AheadSame(n);
    LeaderAhead(n, m);
    SendAhead(n, Blank(RespType(m.mtype), m.from).(term := m.term));
    SendAhead(n, Blank(RespType(m.mtype), m.from).(term := n.term, reject := true));
  }

  // --------------------------------------------------------------------------
  // A node that does not lead can only come to lead by opening a campaign in the next term

  lemma {:induction false} RequestSelf(n: Node, mtype: MessageType, term: nat, ctx: seq<byte>, peers: seq<Id>)
    ensures var n' := RequestVotes(n, mtype, term, ctx, peers); n'.role == n.role && n'.term == n.term
    decreases |peers|
  {
    if !n.fatal && peers != [] {
      var n1 := if peers[0] == n.cfg.id then n else Send(n, VoteRequest(n, mtype, term, ctx, peers[0]));
      RequestSelf(n1, mtype, term, ctx, peers[1..]);
    }
  }

  lemma BecomeLeaderTerm(n: Node)
    requires Shape(n)
    ensures BecomeLeader(n).term == n.term
  {
  }

  ghost predicate LeadsNextTerm(n: Node, n': Node) {
    n'.role == Leader ==> n'.term == n.term + 1
  }

  lemma ElectNextTerm(n: Node, transfer: bool)
    requires Shape(n) && n.role != Leader
    ensures LeadsNextTerm(n, NodeSpec.Elect(n, transfer))
  {
    hide BecomeLeader, RequestVotes;
    if !n.fatal {
      var n1 := Poll(BecomeCandidate(n), n.cfg.id, true);
      BecomeLeaderTerm(n1);
      RequestSelf(n1, MsgVote, n1.term, if transfer then TRANSFER else [], n1.cfg.peers);
    }
  }

  lemma CampaignNextTerm(n: Node, t: CampaignType)
    requires Shape(n) && n.role != Leader
    ensures LeadsNextTerm(n, Campaign(n, t))
  {
    hide NodeSpec.Elect, RequestVotes;
    ElectNextTerm(n, t == CampaignTransfer);
    var n1 := Poll(BecomePreCandidate(n), n.cfg.id, true);
    ElectNextTerm(n1, false);
    RequestSelf(n1, MsgPreVote, n1.term + 1, [], n1.cfg.peers);
  }

  lemma HandlersRole(n: Node, m: Message)
    ensures HandleAppend(n, m).role == n.role && HandleHeartbeat(n, m).role == n.role
    ensures HandleSnapshot(n, m).role == n.role
  {
    hide MaybeAppend, RestoredProgress;
  }

  lemma FollowerNextTerm(n: Node, m: Message)
    requires Shape(n) && n.role == Follower
    ensures LeadsNextTerm(n, StepFollower(n, m))
  {
    hide Campaign, HandleAppend, HandleHeartbeat, HandleSnapshot, Send, Shape;
    CampaignNextTerm(n, CampaignTransfer);
    SendAhead(n, m.(to := n.lead));
    HandlersRole(n.(lead := m.from), m);
  }

  lemma PreCandidateNextTerm(n: Node, m: Message)
    requires Shape(n) && n.role == PreCandidate
    ensures LeadsNextTerm(n, StepCandidate(n, m))
  {
    hide HandleAppend, HandleHeartbeat, HandleSnapshot, Shape, NodeSpec.Elect, Poll, BecomeLeader, BcastAppend, Reset;
    HandlersRole(BecomeFollower(n, m.term, m.from), m);
    PolledSelf(n, m.from, !m.reject);
    ElectNextTerm(Poll(n, m.from, !m.reject), false);
  }

  lemma DispatchNextTerm(n: Node, m: Message)
    requires Shape(n) && (n.role == Follower || n.role == PreCandidate)
    ensures LeadsNextTerm(n, Dispatch(n, m))
  {
    hide Campaign, StepFollower, StepCandidate, Send, Shape, Slice, HasConfChange;
    CampaignNextTerm(n, if n.cfg.preVote then CampaignPreElection else CampaignElection);
    SendAhead(n, Blank(RespType(m.mtype), m.from).(term := m.term));
    SendAhead(n, Blank(RespType(m.mtype), m.from).(term := n.term, reject := true));
    if n.role == Follower { FollowerNextTerm(n, m); } else { PreCandidateNextTerm(n, m); }
  }

  lemma PolledSelf(n: Node, id: Id, v: bool)
    ensures var n' := Poll(n, id, v); n'.role == n.role && n'.term == n.term && (Shape(n) ==> Shape(n'))
  {
  }
}
