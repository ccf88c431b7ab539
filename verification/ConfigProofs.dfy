/** No handler changes a node's configuration, or - unless it installs a snapshot - where its log starts. */
module ConfigProofs {
  import opened Proto
  import opened RaftLogSpec
  import opened NodeSpec
  import P = ProgressSpec
  import R = ReadOnlySpec

  /** Same configuration; the log may have grown or been committed further, but starts where it did. */
  predicate Steady(n: Node, n': Node) {
    && n'.cfg == n.cfg && n'.log.base == n.log.base && n'.log.baseTerm == n.log.baseTerm
    && n'.log.snap == n.log.snap && n'.log.applied == n.log.applied && n'.log.committed >= n.log.committed
  }

  /** The log was replaced by a snapshot that reaches past everything committed. */
  predicate Installed(n: Node, n': Node, s: Snapshot) {
    n'.cfg == n.cfg && s.index > n.log.committed && n'.log == Restore(n.log, s)
  }

  predicate Held(n: Node, m: Message, n': Node) {
    Steady(n, n') || Installed(n, n', m.snapshot)
  }

  lemma CommitSteady(n: Node)
    requires n.cfg.peers != []
    ensures Steady(n, NodeSpec.MaybeCommit(n))
  {
    hide CommitIndex, RLog.Term;
  }

  lemma AppendSteady(n: Node, es: seq<Entry>)
    requires Shape(n)
    ensures Steady(n, AppendEntry(n, es))
  {
    hide NodeSpec.MaybeCommit, Stamp, PayloadSize32, FitsUncommitted;
    if !n.fatal {
      var stamped := Stamp(es, n.term, n.log.LastIndex());
      match Append(n.log, stamped) {
        case None =>
        case Some(l) =>
          CommitSteady(n.(uncommitted := n.uncommitted + PayloadSize32(stamped), log := l,
                          prs := n.prs[n.cfg.id := P.MaybeUpdate(n.prs[n.cfg.id], l.LastIndex())]));
      }
    }
  }

  lemma LeadSteady(n: Node)
    requires Shape(n)
    ensures Steady(n, BecomeLeader(n))
  {
    hide AppendEntry, Stamp, PayloadSize32, FitsUncommitted;
    AppendSteady(StartLeader(n), [EMPTY_ENTRY]);
  }

  lemma {:induction false} RequestConfig(n: Node, mtype: MessageType, term: nat, ctx: seq<byte>, peers: seq<Id>)
    ensures Steady(n, RequestVotes(n, mtype, term, ctx, peers))
    decreases |peers|
  {
    if !n.fatal && peers != [] {
      var n1 := if peers[0] == n.cfg.id then n else Send(n, VoteRequest(n, mtype, term, ctx, peers[0]));
      RequestConfig(n1, mtype, term, ctx, peers[1..]);
    }
  }

  lemma {:induction false} HeartbeatsConfig(n: Node, ctx: seq<byte>, peers: seq<Id>)
    requires forall p :: p in peers ==> p in n.prs
    ensures Steady(n, BcastHeartbeat(n, ctx, peers))
    decreases |peers|
  {
    if !n.fatal && peers != [] {
      var n1 := if peers[0] == n.cfg.id then n else Heartbeat(n, peers[0], ctx);
      HeartbeatsConfig(n1, ctx, peers[1..]);
    }
  }

  lemma {:induction false} AnswersConfig(n: Node, ss: seq<R.ReadIndexStatus>)
    ensures Steady(n, AnswerReads(n, ss))
    decreases |ss|
  {
    if !n.fatal && ss != [] && ss[0].req.entries != [] {
      AnswersConfig(AnswerRead(n, ss[0].req, ss[0].index), ss[1..]);
    }
  }

  lemma ElectConfig(n: Node, transfer: bool)
    requires Shape(n)
    ensures Steady(n, NodeSpec.Elect(n, transfer))
  {
    hide RequestVotes, BecomeLeader;
    if !n.fatal {
      var n1 := Poll(BecomeCandidate(n), n.cfg.id, true);
      LeadSteady(n1);
      RequestConfig(n1, MsgVote, n1.term, if transfer then TRANSFER else [], n1.cfg.peers);
    }
  }

  lemma CampaignConfig(n: Node, t: CampaignType)
    requires Shape(n)
    ensures Steady(n, Campaign(n, t))
  {
    hide RequestVotes, NodeSpec.Elect;
    var n1 := Poll(BecomePreCandidate(n), n.cfg.id, true);
    ElectConfig(n, t == CampaignTransfer);
    ElectConfig(n1, false);
    RequestConfig(n1, MsgPreVote, n1.term + 1, [], n1.cfg.peers);
  }

  lemma ProposeConfig(n: Node, m: Message)
    requires Shape(n)
    ensures Steady(n, Propose(n, m))
  {
    hide AppendEntry, BcastAppend, FilterProposal;
    var (es, pending) := FilterProposal(m.entries, n.pendingConf, n.log.applied, n.log.LastIndex());
    var n1 := n.(pendingConf := pending);
    AppendKeepsShape(n1, es);
    AppendSteady(n1, es);
    BcastKeepsShape(AppendEntry(n1, es), n.cfg.peers);
  }

  lemma SetSteady(n: Node, p: Id, r: P.Progress)
    requires Shape(n) && p in n.prs
    ensures Shape(SetPr(n, p, r)) && Steady(n, SetPr(n, p, r)) && p in SetPr(n, p, r).prs
  {
  }

  lemma SentSteady(n: Node, to: Id)
    requires to in n.prs
    ensures Steady(n, SendAppend(n, to)) && Steady(n, SendTimeoutNow(n, to))
  {
    hide MaybeSendAppend;
    SendAppendKeepsShape(n, to, true);
  }

  /** The accepting branch. */
  lemma AcceptConfig(n: Node, from: Id, paused: bool)
    requires Shape(n) && from in n.prs
    ensures var n2 := AfterAccept(n, from, paused);
      Shape(n2) && from in n2.prs && Steady(n, SendAll(n2, from)) && Steady(n, SendTimeoutNow(SendAll(n2, from), from))
  {
    hide SendAll, AfterAccept, SendTimeoutNow, Shape;
    AfterAcceptKeepsShape(n, from, paused);
    AfterAcceptConfig(n, from, paused);
    var n2 := AfterAccept(n, from, paused);
    SendAllKeepsShape(n2, from);
    SentSteady(SendAll(n2, from), from);
  }

  lemma AppRespConfig(n: Node, m: Message)
    requires Shape(n) && m.from in n.prs
    ensures Steady(n, AppResp(n, m))
  {
    hide MaybeSendAppend, SendAll, AfterAccept, AcceptedProgress, P.MaybeDecreaseTo, P.MaybeUpdate, P.Decreases,
      P.BecomeProbe, P.IsPaused, SendTimeoutNow, Shape;
    var p := n.prs[m.from].(recentActive := true);
    var q := P.MaybeDecreaseTo(p, m.index, m.rejectHint);
    var r := if q.state == P.Replicate then P.BecomeProbe(q) else q;
    SetSteady(n, m.from, r);
    SentSteady(SetPr(n, m.from, r), m.from);
    SetSteady(n, m.from, AcceptedProgress(p, m.index));
    AcceptConfig(SetPr(n, m.from, AcceptedProgress(p, m.index)), m.from, P.IsPaused(p, n.cfg.maxInflight));
  }

  lemma AfterAcceptConfig(n: Node, from: Id, paused: bool)
    requires Shape(n) && from in n.prs
    ensures Steady(n, AfterAccept(n, from, paused))
  {
    hide MaybeSendAppend, BcastAppend, NodeSpec.MaybeCommit;
    MaybeCommitKeepsShape(n);
    CommitSteady(n);
    if CommitsMore(n) { BcastKeepsShape(NodeSpec.MaybeCommit(n), n.cfg.peers); }
    SendAppendKeepsShape(n, from, true);
  }

  lemma HeartbeatRespConfig(n: Node, m: Message)
    requires Shape(n) && m.from in n.prs
    ensures Steady(n, HeartbeatResp(n, m))
  {
    hide MaybeSendAppend, HeartbeatReads;
    var n1 := SetPr(n, m.from, HeartbeatProgress(n, n.prs[m.from]));
    SendAppendKeepsShape(n1, m.from, true);
    var n2 := if n1.prs[m.from].matched < n1.log.LastIndex() then SendAppend(n1, m.from) else n1;
    HeartbeatReadsConfig(n2, m);
  }

  lemma HeartbeatReadsConfig(n: Node, m: Message)
    ensures Steady(n, HeartbeatReads(n, m))
  {
    hide AnswerReads;
    var n1 := n.(readOnly := R.RecvAck(n.readOnly, m));
    AnswersConfig(n1.(readOnly := R.Advance(n1.readOnly, m.context)), R.AdvanceStatuses(n1.readOnly, m.context));
  }

  lemma LeaderConfig(n: Node, m: Message)
    requires Shape(n)
    ensures Steady(n, StepLeader(n, m))
  {
    hide Propose, AppResp, HeartbeatResp, BcastHeartbeat, MaybeSendAppend, CountActive;
    HeartbeatsConfig(n, R.LastPendingCtx(n.readOnly), n.cfg.peers);
    ProposeConfig(n, m);
    ReadIndexConfig(n, m);
    if m.from in n.prs {
      AppRespConfig(n, m);
      HeartbeatRespConfig(n, m);
      SendAppendKeepsShape(n.(transferee := m.from), m.from, true);
    }
  }

  lemma ReadIndexConfig(n: Node, m: Message)
    requires Shape(n)
    ensures Steady(n, LeaderReadIndex(n, m))
  {
    hide BcastHeartbeat;
    if m.entries != [] {
      HeartbeatsConfig(n.(readOnly := R.AddRequest(n.readOnly, n.log.committed, m)), R.CtxOf(m), n.cfg.peers);
    }
  }

  lemma TallyConfig(n: Node)
    requires Shape(n)
    ensures Steady(n, Tally(n))
  {
    hide NodeSpec.Elect, BecomeLeader, BcastAppend;
    ElectConfig(n, false);
    BecomeLeaderKeepsShape(n);
    LeadSteady(n);
    BcastKeepsShape(BecomeLeader(n), n.cfg.peers);
  }

  lemma MaybeAppendSteady(l: RLog, index: nat, logTerm: nat, commit: nat, es: seq<Entry>)
    ensures var r := MaybeAppend(l, index, logTerm, commit, es);
      r.Accepted? ==>
        && r.log.base == l.base && r.log.baseTerm == l.baseTerm && r.log.snap == l.snap && r.log.applied == l.applied
                      && r.log.committed >= l.committed
  {
    hide FindConflict, RLog.Term;
  }

  lemma HandleConfig(n: Node, m: Message)
    ensures Steady(n, HandleAppend(n, m)) && Steady(n, HandleHeartbeat(n, m)) && Held(n, m, HandleSnapshot(n, m))
  {
    hide MaybeAppend, RestoredProgress, RLog.Term;
    MaybeAppendSteady(n.log, m.index, m.logTerm, m.commit, m.entries);
  }

  lemma ForwardSteady(n: Node, m: Message)
    ensures Steady(n, Forward(n, m))
  {
  }

  lemma FollowerConfig(n: Node, m: Message)
    requires Shape(n)
    ensures Held(n, m, StepFollower(n, m))
  {
    hide HandleAppend, HandleHeartbeat, HandleSnapshot, Campaign, Forward, Restore, Shape;
    ForwardSteady(n, m);
    HandleConfig(n.(lead := m.from), m);
    CampaignConfig(n, CampaignTransfer);
  }

  lemma FollowingSteady(n: Node, t: nat, lead: Id)
    ensures Steady(n, BecomeFollower(n, t, lead)) && BecomeFollower(n, t, lead).log == n.log
  {
    hide FreshProgress;
  }

  lemma PolledSteady(n: Node, id: Id, v: bool)
    requires Shape(n)
    ensures Shape(Poll(n, id, v)) && Steady(n, Poll(n, id, v))
  {
  }

  lemma CandidateConfig(n: Node, m: Message)
    requires Shape(n)
    ensures Held(n, m, StepCandidate(n, m))
  {
    hide HandleAppend, HandleHeartbeat, HandleSnapshot, Tally, Poll, BecomeFollower, Restore, Shape;
    FollowingSteady(n, m.term, m.from);
    HandleConfig(BecomeFollower(n, m.term, m.from), m);
    PolledSteady(n, m.from, !m.reject);
    TallyConfig(Poll(n, m.from, !m.reject));
  }

  lemma DispatchConfig(n: Node, m: Message)
    requires Shape(n)
    ensures Held(n, m, Dispatch(n, m))
  {
    hide StepLeader, StepFollower, StepCandidate, Campaign;
    CampaignConfig(n, if n.cfg.preVote then CampaignPreElection else CampaignElection);
    LeaderConfig(n, m);
    FollowerConfig(n, m);
    CandidateConfig(n, m);
  }

  /** A step keeps the configuration, and the log's start unless it installs the message's snapshot. */
  lemma StepKeepsConfig(n: Node, m: Message, lease: bool)
    requires Shape(n)
    ensures Held(n, m, Step(n, m, lease)) && Step(n, m, lease).cfg == n.cfg
  {
    hide StepLeader, StepFollower, StepCandidate, Dispatch;
    DispatchConfig(n, m);
    DispatchConfig(CatchUp(n, m), m);
  }
}
