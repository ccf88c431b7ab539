/**
 What every node keeps by its own checks alone, in every run whatever: the shape of its data, one vote per term,
 campaigns short of a majority, read requests in order, and no read answered behind the heartbeats' back.
 */
module LocalInv {
  import opened Proto
  import opened Quorum
  import opened RaftLogSpec
  import opened NodeSpec
  import opened StepProofs
  import ConfigProofs
  import L = LeaderProofs
  import P = ProgressSpec
  import Q = ReadQueue
  import R = ReadOnlySpec
  import V = VoterProofs

  /** What the nodes have done that others rely on: who votes, who runs the pre-vote phase, who voted for whom. */
  datatype Ledger = Ledger(voters: set<Id>, pre: set<Id>, answers: bool, votes: map<(Id, nat), Id>)

  ghost predicate Grown(g: Ledger, g': Ledger) {
    && g'.voters == g.voters && g'.pre == g.pre && g'.answers == g.answers
    && forall k :: k in g.votes ==> k in g'.votes && g'.votes[k] == g.votes[k]
  }

  predicate Voted(g: Ledger, n: Id, t: nat, c: Id) { (n, t) in g.votes && g.votes[(n, t)] == c }

  /** Reads are answered on a lease, or by a node that is alone. */
  predicate MayAnswer(c: Config) { c.readOnlyOption == ReadOnlyLeaseBased || |c.peers| == 1 }

  // --------------------------------------------------------------------------
  // Messages

  ghost predicate NumberedAfter(es: seq<Entry>, index: nat) {
    forall i :: 0 <= i < |es| ==> es[i].index == index + 1 + i
  }

  ghost predicate FitMsg(g: Ledger, m: Message) {
    && (IsFromLeader(m.mtype) ==> m.term >= 1)
    && (m.mtype == MsgApp ==> NumberedAfter(m.entries, m.index))
    && (m.mtype == MsgHeartbeatResp ==> m.context == [])
    && (m.mtype == MsgReadIndexResp ==> g.answers)
    && (IsVoteKind(m.mtype) ==> m.term >= 1 && m.from in g.voters)
    && (m.mtype == MsgVoteResp && !m.reject ==> Voted(g, m.from, m.term, m.to))
    && (m.mtype == MsgPreVote ==> m.from in g.pre)
    && (m.mtype == MsgPreVoteResp ==> m.to in g.pre)
  }

  // --------------------------------------------------------------------------
  // Nodes

  ghost predicate FitConfig(g: Ledger, c: Config) {
    && ValidConfig(c) && c.id in g.voters && 0 !in g.voters && (forall p :: p in c.peers <==> p in g.voters)
    && (c.preVote ==> c.id in g.pre) && (MayAnswer(c) ==> g.answers)
  }

  ghost predicate FitMsgs(g: Ledger, ms: seq<Message>) {
    forall m :: m in ms ==> FitMsg(g, m)
  }

  /** Everything but votes and roles. */
  ghost predicate FitCore(g: Ledger, n: Node) {
    && FitConfig(g, n.cfg) && Shape(n) && FitMsgs(g, n.msgs)
    && (n.readStates != [] ==> g.answers)
    && Q.Ordered(n.readOnly, n.log.committed)
  }

  ghost predicate VotesBacked(g: Ledger, n: Node) {
    forall i :: i in n.votes && n.votes[i] ==> i in g.voters && Voted(g, i, n.term, n.cfg.id)
  }

  ghost predicate ElectedBy(g: Ledger, c: Id, t: nat, q: set<Id>) {
    IsQuorum(g.voters, q) && forall i :: i in q ==> Voted(g, i, t, c)
  }

  ghost predicate Elected(g: Ledger, c: Id, t: nat) {
    exists q: set<Id> :: ElectedBy(g, c, t, q)
  }

  ghost predicate FitLedger(g: Ledger, n: Node) {
    && (n.vote == 0 ==> (n.cfg.id, n.term) !in g.votes)
    && (n.vote != 0 ==> Voted(g, n.cfg.id, n.term, n.vote))
    && (forall t :: t > n.term ==> (n.cfg.id, t) !in g.votes)
  }

  ghost predicate FitRole(g: Ledger, n: Node) {
    match n.role
    case Leader => n.vote == n.cfg.id && n.term >= 1 && (n.cfg.id in g.pre || Elected(g, n.cfg.id, n.term))
    case Candidate =>
      && n.vote == n.cfg.id && n.term >= 1 && n.lead == 0 && Granted(n) < NodeQuorum(n)
      && (n.cfg.id in g.pre || VotesBacked(g, n))
    case PreCandidate => n.lead == 0 && Granted(n) < NodeQuorum(n)
    case Follower => true
  }

  ghost predicate Fit(g: Ledger, n: Node) {
    FitCore(g, n) && FitLedger(g, n) && FitRole(g, n)
  }

  // --------------------------------------------------------------------------
  // More votes change nothing for the others

  lemma MsgFits(g: Ledger, g': Ledger, m: Message)
    requires Grown(g, g') && FitMsg(g, m)
    ensures FitMsg(g', m)
  {
  }

  lemma MsgsFit(g: Ledger, g': Ledger, ms: seq<Message>)
    requires Grown(g, g') && FitMsgs(g, ms)
    ensures FitMsgs(g', ms)
  {
    hide FitMsg, Grown;
    forall m | m in ms ensures FitMsg(g', m) { MsgFits(g, g', m); }
  }

  lemma CoreFits(g: Ledger, g': Ledger, n: Node)
    requires Grown(g, g') && FitCore(g, n)
    ensures FitCore(g', n)
  {
    hide FitMsgs, Shape, ValidConfig, Q.Ordered;
    MsgsFit(g, g', n.msgs);
  }

  lemma ElectedStays(g: Ledger, g': Ledger, c: Id, t: nat)
    requires Grown(g, g') && Elected(g, c, t)
    ensures Elected(g', c, t)
  {
    var q: set<Id> :| ElectedBy(g, c, t, q);
    assert ElectedBy(g', c, t, q);
  }

  lemma RoleFits(g: Ledger, g': Ledger, n: Node)
    requires Grown(g, g') && FitRole(g, n)
    ensures FitRole(g', n)
  {
    hide Granted, Elected;
    if n.role == Leader && n.cfg.id !in g.pre { ElectedStays(g, g', n.cfg.id, n.term); }
  }

  /** New votes of another node. */
  lemma OtherFits(g: Ledger, g': Ledger, n: Node)
    requires Grown(g, g') && Fit(g, n) && forall k :: k in g'.votes && k !in g.votes ==> k.0 != n.cfg.id
    ensures Fit(g', n)
  {
    hide FitCore, FitRole;
    CoreFits(g, g', n);
    RoleFits(g, g', n);
  }

  lemma CoreFacts(g: Ledger, n: Node)
    requires FitCore(g, n)
    ensures Shape(n) && n.cfg.id in n.prs && n.cfg.id in g.voters && n.cfg.id != 0 && n.cfg.peers != []
    ensures forall p :: p in n.cfg.peers ==> p in n.prs
    ensures n.cfg.preVote ==> n.cfg.id in g.pre
  {
  }

  // --------------------------------------------------------------------------
  // Sending

  /** What a message has to be before send() stamps it. */
  ghost predicate Sendable(g: Ledger, n: Node, m: Message) {
    var t :=
      if IsVoteKind(m.mtype) then m.term
      else if m.mtype == MsgProp || m.mtype == MsgReadIndex then 0
      else n.term;
    FitMsg(g, m.(from := n.cfg.id, term := t))
  }

  ghost predicate SameButSent(n: Node, n': Node) {
    n' == n.(msgs := n'.msgs, fatal := n'.fatal)
  }

  lemma SendFits(g: Ledger, n: Node, m: Message)
    requires FitCore(g, n) && Sendable(g, n, m)
    ensures FitCore(g, Send(n, m)) && SameButSent(n, Send(n, m))
  {
    hide FitMsg, FitConfig, Q.Ordered, Shape;
    ShapeSent(n, Send(n, m));
  }

  lemma ShapeSent(n: Node, n': Node)
    requires n'.cfg == n.cfg && n'.prs == n.prs && n'.log == n.log
    ensures Shape(n) ==> Shape(n')
  {
  }

  // --------------------------------------------------------------------------
  // On the leader: terms, votes and roles stay

  ghost predicate SameVote(n: Node, n': Node) {
    && n'.cfg == n.cfg && n'.term == n.term && n'.vote == n.vote && n'.role == n.role && n'.lead == n.lead
    && n'.votes == n.votes
  }

  /** A step of a leader that stays within its term. */
  ghost predicate Kept(g: Ledger, n: Node, n': Node) {
    SameVote(n, n') && FitCore(g, n')
  }

  lemma VoteKeeps(g: Ledger, n: Node, n': Node)
    requires Fit(g, n) && Kept(g, n, n')
    ensures Fit(g, n')
  {
  }

  lemma SetPrFits(g: Ledger, n: Node, p: Id, r: P.Progress)
    requires FitCore(g, n) && p in n.prs
    ensures Kept(g, n, SetPr(n, p, r)) && SetPr(n, p, r).log == n.log
  {
    hide FitMsgs, FitConfig, Q.Ordered;
  }

  lemma EntriesNumbered(l: RLog, i: nat, limit: nat)
    requires l.Numbered()
    ensures var es := Entries(l, i, limit); es.Some? && es.value != [] ==> i >= 1 && NumberedAfter(es.value, i - 1)
  {
  }

  lemma MaybeSendFits(g: Ledger, n: Node, to: Id, e: bool)
    requires FitCore(g, n) && n.term >= 1 && to in n.prs
    ensures Kept(g, n, MaybeSendAppend(n, to, e)) && MaybeSendAppend(n, to, e).log == n.log
  {
    hide FitCore, SendsAppend, Entries, Shape, P.BecomeSnapshot, SentProgress, Send;
    CoreFacts(g, n);
    var p := n.prs[to];
    if !n.fatal && SendsAppend(n, to, e) {
      match NextEntries(n, to) {
        case None =>
          var s := P.BecomeSnapshot(p, n.log.snap.index);
          SetPrFits(g, n, to, s);
          SendFits(g, SetPr(n, to, s), Blank(MsgSnap, to).(snapshot := n.log.snap));
          DeadFits(g, n);
        case Some(es) =>
          SetPrFits(g, n, to, SentProgress(p, es));
          MessageFits(g, n, to, es);
          SendFits(g, SetPr(n, to, SentProgress(p, es)), AppendMessage(n, to, es));
          DeadFits(g, n);
      }
    }
  }

  lemma DeadFits(g: Ledger, n: Node)
    requires FitCore(g, n)
    ensures FitCore(g, Die(n)) && FitCore(g, n.(fatal := true))
  {
    hide FitMsgs, FitConfig, Q.Ordered;
  }

  lemma MessageFits(g: Ledger, n: Node, to: Id, es: seq<Entry>)
    requires Shape(n) && n.term >= 1 && to in n.prs && NextEntries(n, to) == Some(es)
    ensures forall p :: Sendable(g, SetPr(n, to, p), AppendMessage(n, to, es))
  {
    hide Entries;
    EntriesNumbered(n.log, n.prs[to].next, n.cfg.maxMsgSize);
  }

  lemma KeptSame(g: Ledger, n: Node)
    requires FitCore(g, n)
    ensures Kept(g, n, n)
  {
  }

  lemma SentKept(g: Ledger, n: Node, m: Message)
    requires FitCore(g, n) && Sendable(g, n, m)
    ensures Kept(g, n, Send(n, m)) && Send(n, m).log == n.log
  {
    hide FitCore, Sendable;
    SendFits(g, n, m);
  }

  lemma {:induction false} BcastFits(g: Ledger, n: Node, peers: seq<Id>)
    requires FitCore(g, n) && n.term >= 1 && forall p :: p in peers ==> p in n.prs
    ensures Kept(g, n, BcastAppend(n, peers)) && BcastAppend(n, peers).log == n.log
    decreases |peers|
  {
    hide FitCore, MaybeSendAppend;
    if !n.fatal && peers != [] {
      var n1 := if peers[0] == n.cfg.id then n else SendAppend(n, peers[0]);
      if peers[0] != n.cfg.id {
        MaybeSendFits(g, n, peers[0], true);
        SendAppendKeepsShape(n, peers[0], true);
      }
      BcastFits(g, n1, peers[1..]);
    }
  }

  lemma {:induction false} SendAllFits(g: Ledger, n: Node, to: Id)
    requires FitCore(g, n) && n.term >= 1 && Shape(n) && to in n.prs
    ensures Kept(g, n, SendAll(n, to)) && SendAll(n, to).log == n.log
    decreases Backlog(n, to), if n.fatal then 0 else if P.IsPaused(n.prs[to], n.cfg.maxInflight) then 1 else 2
  {
    hide FitCore, MaybeSendAppend, Shape, P.IsPaused, Entries;
    if !n.fatal && SendsAppend(n, to, false) {
      SendMakesProgress(n, to);
      MaybeSendFits(g, n, to, false);
      SendAllFits(g, MaybeSendAppend(n, to, false), to);
    }
  }

  lemma {:induction false} BeatsFit(g: Ledger, n: Node, ctx: seq<byte>, peers: seq<Id>)
    requires FitCore(g, n) && n.term >= 1 && forall p :: p in peers ==> p in n.prs
    ensures Kept(g, n, BcastHeartbeat(n, ctx, peers))
    decreases |peers|
  {
    hide FitCore, Send;
    if !n.fatal && peers != [] {
      var n1 := if peers[0] == n.cfg.id then n else Heartbeat(n, peers[0], ctx);
      if peers[0] != n.cfg.id {
        SentKept(g, n, Blank(MsgHeartbeat, peers[0]).(commit := Min(n.prs[peers[0]].matched, n.log.committed),
          context := ctx));
        SendIsSame(n, Blank(MsgHeartbeat, peers[0]).(commit := Min(n.prs[peers[0]].matched, n.log.committed),
          context := ctx));
      }
      BeatsFit(g, n1, ctx, peers[1..]);
    }
  }

  lemma SendIsSame(n: Node, m: Message)
    ensures SameButSent(n, Send(n, m))
  {
  }

  // --------------------------------------------------------------------------
  // Appending and committing

  lemma OrderedUp(r: R.ReadOnly, c: nat, c': nat)
    requires Q.Ordered(r, c) && c <= c'
    ensures Q.Ordered(r, c')
  {
  }

  /** A longer commit, and any numbered log. */
  lemma LogFits(g: Ledger, n: Node, l: RLog)
    requires FitCore(g, n) && l.Numbered() && n.log.committed <= l.committed
    ensures Kept(g, n, n.(log := l))
  {
    hide FitMsgs, FitConfig, Q.Ordered;
    OrderedUp(n.readOnly, n.log.committed, l.committed);
  }

  lemma CommitFits(g: Ledger, n: Node)
    requires FitCore(g, n) && n.cfg.peers != []
    ensures Kept(g, n, NodeSpec.MaybeCommit(n))
  {
    hide FitCore, CommitIndex, RLog.Term;
    CoreFacts(g, n);
    KeptSame(g, n);
    DeadFits(g, n);
    if !n.fatal {
      match RaftLogSpec.MaybeCommit(n.log, CommitIndex(n), n.term) {
        case None =>
        case Some(l) => LogFits(g, n, l);
      }
    }
  }

  /** Fields that none of this depends on. */
  lemma LedgerFree(g: Ledger, n: Node, n': Node)
    requires FitCore(g, n) && n'.cfg == n.cfg && n'.log == n.log && n'.prs.Keys == n.prs.Keys && n'.msgs == n.msgs
    requires n'.readStates == n.readStates && n'.readOnly == n.readOnly
    ensures FitCore(g, n')
  {
    hide FitMsgs, FitConfig, Q.Ordered;
  }

  lemma AppendNumbered(l: RLog, es: seq<Entry>)
    requires l.Numbered() && (es != [] ==> NumberedAfter(es, l.LastIndex()))
    ensures var r := Append(l, es); r.Some? ==> r.value.Numbered() && r.value.committed == l.committed
  {
  }

  lemma AppendFits(g: Ledger, n: Node, es: seq<Entry>)
    requires FitCore(g, n) && Shape(n)
    ensures Kept(g, n, AppendEntry(n, es))
  {
    hide FitCore, NodeSpec.MaybeCommit, Append, PayloadSize32, FitsUncommitted, Shape;
    CoreFacts(g, n);
    KeptSame(g, n);
    var stamped := Stamp(es, n.term, n.log.LastIndex());
    var n1 := n.(uncommitted := n.uncommitted + PayloadSize32(stamped));
    LedgerFree(g, n, n1);
    DeadFits(g, n1);
    AppendNumberedOf(n, stamped);
    match Append(n1.log, stamped) {
      case None =>
      case Some(l) =>
        var n2 := n1.(prs := n1.prs[n.cfg.id := P.MaybeUpdate(n1.prs[n.cfg.id], l.LastIndex())]);
        LedgerFree(g, n1, n2);
        LogFits(g, n2, l);
        CommitFits(g, n2.(log := l));
    }
  }

  lemma AppendNumberedOf(n: Node, es: seq<Entry>)
    requires Shape(n) && forall i :: 0 <= i < |es| ==> es[i].index == n.log.LastIndex() + 1 + i
    ensures var r := Append(n.log, es); r.Some? ==> r.value.Numbered() && r.value.committed == n.log.committed
  {
    hide Append;
    AppendNumbered(n.log, es);
  }

  lemma ProposeFits(g: Ledger, n: Node, m: Message)
    requires FitCore(g, n) && Shape(n) && n.term >= 1
    ensures Kept(g, n, Propose(n, m))
  {
    hide FitCore, AppendEntry, BcastAppend, FilterProposal, FitsUncommitted, Stamp, Shape;
    CoreFacts(g, n);
    KeptSame(g, n);
    DeadFits(g, n);
    var (es, pending) := FilterProposal(m.entries, n.pendingConf, n.log.applied, n.log.LastIndex());
    var n1 := n.(pendingConf := pending);
    LedgerFree(g, n, n1);
    ShapeSent(n, n1);
    AppendFits(g, n1, es);
    CoreFacts(g, AppendEntry(n1, es));
    BcastFits(g, AppendEntry(n1, es), n.cfg.peers);
  }

  // --------------------------------------------------------------------------
  // Replies to the leader

  lemma AfterAcceptFits(g: Ledger, n: Node, from: Id, paused: bool)
    requires FitCore(g, n) && Shape(n) && n.term >= 1 && from in n.prs
    ensures Kept(g, n, AfterAccept(n, from, paused))
  {
    hide FitCore, MaybeSendAppend, BcastAppend, NodeSpec.MaybeCommit, CommitsMore, Shape;
    CoreFacts(g, n);
    KeptSame(g, n);
    CommitFits(g, n);
    var n1 := NodeSpec.MaybeCommit(n);
    CoreFacts(g, n1);
    BcastFits(g, n1, n.cfg.peers);
    MaybeSendFits(g, n, from, true);
  }

  lemma TimeoutFits(g: Ledger, n: Node, to: Id)
    requires FitCore(g, n)
    ensures Kept(g, n, SendTimeoutNow(n, to))
  {
    hide FitCore;
    SentKept(g, n, Blank(MsgTimeoutNow, to));
  }

  lemma AcceptFits(g: Ledger, n: Node, m: Message)
    requires FitCore(g, n) && Shape(n) && n.term >= 1 && m.from in n.prs
    ensures var p := n.prs[m.from].(recentActive := true);
      !n.fatal && !m.reject && P.Updates(p, m.index) ==> Kept(g, n, AppResp(n, m))
  {
    hide FitCore, SendAll, AfterAccept, AcceptedProgress, SendTimeoutNow, Shape, P.MaybeDecreaseTo, P.MaybeUpdate;
    var p := n.prs[m.from].(recentActive := true);
    var n1 := SetPr(n, m.from, AcceptedProgress(p, m.index));
    SetPrFits(g, n, m.from, AcceptedProgress(p, m.index));
    CoreFacts(g, n1);
    var paused := P.IsPaused(p, n.cfg.maxInflight);
    AfterAcceptKeepsShape(n1, m.from, paused);
    AfterAcceptFits(g, n1, m.from, paused);
    var n2 := AfterAccept(n1, m.from, paused);
    SendAllFits(g, n2, m.from);
    TimeoutFits(g, SendAll(n2, m.from), m.from);
  }

  lemma AppRespFits(g: Ledger, n: Node, m: Message)
    requires FitCore(g, n) && Shape(n) && n.term >= 1 && m.from in n.prs
    ensures Kept(g, n, AppResp(n, m))
  {
    hide FitCore, SendAll, AfterAccept, AcceptedProgress, SendTimeoutNow, Shape, P.MaybeDecreaseTo, P.MaybeUpdate,
      P.Decreases;
    KeptSame(g, n);
    var p := n.prs[m.from].(recentActive := true);
    var q := P.MaybeDecreaseTo(p, m.index, m.rejectHint);
    var r := if q.state == P.Replicate then P.BecomeProbe(q) else q;
    SetPrFits(g, n, m.from, r);
    MaybeSendFits(g, SetPr(n, m.from, r), m.from, true);
    SetPrFits(g, n, m.from, p);
    SetPrFits(g, n, m.from, P.MaybeUpdate(p, m.index));
    AcceptFits(g, n, m);
  }

  /** A reply to a heartbeat names no request. */
  lemma HeartbeatRespFits(g: Ledger, n: Node, m: Message)
    requires FitCore(g, n) && Shape(n) && n.term >= 1 && m.from in n.prs && m.context == []
    ensures Kept(g, n, HeartbeatResp(n, m))
  {
    hide FitCore, MaybeSendAppend, HeartbeatProgress, Shape;
    KeptSame(g, n);
    var n1 := SetPr(n, m.from, HeartbeatProgress(n, n.prs[m.from]));
    SetPrFits(g, n, m.from, HeartbeatProgress(n, n.prs[m.from]));
    MaybeSendFits(g, n1, m.from, true);
  }

  lemma ReportsFit(g: Ledger, n: Node, m: Message)
    requires FitCore(g, n) && m.from in n.prs
    ensures Kept(g, n, SnapStatus(n, m)) && Kept(g, n, Unreachable(n, m))
  {
    hide FitCore, P.BecomeProbe;
    KeptSame(g, n);
    var p := n.prs[m.from];
    var q := if m.reject then p.(pendingSnapshot := 0) else p;
    SetPrFits(g, n, m.from, P.BecomeProbe(q).(paused := true));
    SetPrFits(g, n, m.from, P.BecomeProbe(p));
  }

  lemma TransferFits(g: Ledger, n: Node, m: Message)
    requires FitCore(g, n) && Shape(n) && n.term >= 1 && m.from in n.prs
    ensures Kept(g, n, TransferLeader(n, m))
  {
    hide FitCore, MaybeSendAppend, SendTimeoutNow, Shape;
    KeptSame(g, n);
    LedgerFree(g, n, n.(transferee := 0));
    var n1 := n.(transferee := m.from);
    LedgerFree(g, n, n1);
    TimeoutFits(g, n1, m.from);
    MaybeSendFits(g, n1, m.from, true);
  }

  // --------------------------------------------------------------------------
  // Reads

  lemma AnswerFits(g: Ledger, n: Node, req: Message, index: nat)
    requires FitCore(g, n) && req.entries != [] && g.answers
    ensures Kept(g, n, AnswerRead(n, req, index))
  {
    hide FitMsgs, FitConfig, Q.Ordered, Send, Shape;
    if !IsLocalRequest(n, req) {
      SentKept(g, n, Blank(MsgReadIndexResp, req.from).(index := index, entries := req.entries));
    } else {
      ShapeSent(n, AnswerRead(n, req, index));
    }
  }

  lemma QueuedFits(g: Ledger, n: Node, m: Message)
    requires FitCore(g, n) && m.entries != []
    ensures Kept(g, n, n.(readOnly := R.AddRequest(n.readOnly, n.log.committed, m)))
  {
    hide FitMsgs, FitConfig, Q.Ordered, Shape, R.AddRequest;
    Q.AddKeeps(n.readOnly, n.log.committed, m, n.log.committed);
    ShapeSent(n, n.(readOnly := R.AddRequest(n.readOnly, n.log.committed, m)));
  }

  lemma MayAnswerIs(g: Ledger, n: Node)
    requires FitCore(g, n) && MayAnswer(n.cfg)
    ensures g.answers
  {
  }

  lemma ReadIndexFits(g: Ledger, n: Node, m: Message)
    requires FitCore(g, n) && Shape(n) && n.term >= 1
    ensures Kept(g, n, LeaderReadIndex(n, m))
  {
    hide FitCore, BcastHeartbeat, R.AddRequest, AnswerRead, Shape, RLog.Term;
    CoreFacts(g, n);
    KeptSame(g, n);
    DeadFits(g, n);
    if m.entries != [] {
      if MayAnswer(n.cfg) {
        MayAnswerIs(g, n);
        AnswerFits(g, n, m, n.log.committed);
        PushFits(g, n, R.ReadState(n.log.committed, R.CtxOf(m)));
      } else {
        QueuedFits(g, n, m);
        var n1 := n.(readOnly := R.AddRequest(n.readOnly, n.log.committed, m));
        BeatsFit(g, n1, R.CtxOf(m), n.cfg.peers);
      }
    }
  }

  lemma PushFits(g: Ledger, n: Node, rs: R.ReadState)
    requires FitCore(g, n) && g.answers
    ensures Kept(g, n, PushReadState(n, rs))
  {
    hide FitMsgs, FitConfig, Q.Ordered, Shape;
    ShapeSent(n, PushReadState(n, rs));
  }

  // --------------------------------------------------------------------------
  // Following

  lemma EmptyOrdered(c: nat)
    ensures Q.Ordered(R.EMPTY, c)
  {
  }

  lemma ResetCore(g: Ledger, n: Node, t: nat)
    requires FitCore(g, n)
    ensures FitCore(g, Reset(n, t))
  {
    hide FitMsgs, FitConfig, Q.Ordered;
    EmptyOrdered(n.log.committed);
  }

  lemma RoleFree(g: Ledger, n: Node, n': Node)
    requires FitCore(g, n)
    requires n' == n.(term := n'.term, vote := n'.vote, lead := n'.lead, role := n'.role, votes := n'.votes)
    ensures FitCore(g, n')
  {
    hide FitMsgs, FitConfig, Q.Ordered, Shape;
    ShapeSent(n, n');
  }

  /** become_follower never goes back in time, and never frees a vote. */
  lemma FollowFits(g: Ledger, n: Node, t: nat, lead: Id)
    requires Fit(g, n) && t >= n.term
    ensures var n' := BecomeFollower(n, t, lead);
      && Fit(g, n') && n'.cfg == n.cfg && (!n.fatal ==> n'.role == Follower && n'.term == t && n'.lead == lead)
      && n'.log == n.log && n'.fatal == n.fatal
  {
    hide FitCore;
    ResetCore(g, n, t);
    RoleFree(g, Reset(n, t), Reset(n, t).(lead := lead, role := Follower));
  }

  /** A follower's log after one of the three messages from a leader. */
  lemma HandleAppendFits(g: Ledger, n: Node, m: Message)
    requires FitCore(g, n) && Shape(n) && NumberedAfter(m.entries, m.index)
    ensures Kept(g, n, HandleAppend(n, m))
  {
    hide FitCore, MaybeAppend, Send, NumberedAfter, Shape;
    KeptSame(g, n);
    DeadFits(g, n);
    SentKept(g, n, Blank(MsgAppResp, m.from).(index := n.log.committed));
    SentKept(g, n, Blank(MsgAppResp, m.from).(index := m.index, reject := true, rejectHint := n.log.LastIndex()));
    MaybeAppendNumbered(n, m);
    match MaybeAppend(n.log, m.index, m.logTerm, m.commit, m.entries) {
      case Accepted(l, last) =>
        LogFits(g, n, l);
        SentKept(g, n.(log := l), Blank(MsgAppResp, m.from).(index := last));
      case _ =>
    }
  }

  lemma MaybeAppendNumbered(n: Node, m: Message)
    requires Shape(n) && NumberedAfter(m.entries, m.index)
    ensures var r := MaybeAppend(n.log, m.index, m.logTerm, m.commit, m.entries);
      r.Accepted? ==> r.log.Numbered() && n.log.committed <= r.log.committed
  {
    hide FindConflict;
    AppendFromNumbered(n.log, m.index, m.entries);
  }

  lemma AppendFromNumbered(l: RLog, index: nat, es: seq<Entry>)
    requires l.Numbered() && NumberedAfter(es, index)
    ensures var r := AppendFrom(l, index, es); r.Some? ==> r.value.Numbered() && r.value.committed == l.committed
  {
    hide FindConflict;
  }

  lemma HandleHeartbeatFits(g: Ledger, n: Node, m: Message)
    requires FitCore(g, n) && Shape(n)
    ensures Kept(g, n, HandleHeartbeat(n, m))
  {
    hide FitCore, Send;
    KeptSame(g, n);
    DeadFits(g, n);
    if !n.fatal && CommitTo(n.log, m.commit).Some? {
      var l := CommitTo(n.log, m.commit).value;
      LogFits(g, n, l);
      SentKept(g, n.(log := l), Blank(MsgHeartbeatResp, m.from));
    }
  }

  lemma RestoredFits(g: Ledger, n: Node, last: nat)
    requires FitCore(g, n)
    ensures Kept(g, n, n.(prs := RestoredProgress(n, last)))
  {
    hide FitMsgs, FitConfig, Q.Ordered;
  }

  lemma HandleSnapshotFits(g: Ledger, n: Node, m: Message)
    requires FitCore(g, n) && Shape(n)
    ensures Kept(g, n, HandleSnapshot(n, m))
  {
    hide FitCore, Send, RestoredProgress, RLog.Term;
    KeptSame(g, n);
    DeadFits(g, n);
    var s := m.snapshot;
    var r := Blank(MsgAppResp, m.from);
    if !n.fatal && s.index <= n.log.committed {
      SentKept(g, n, r);
    } else if !n.fatal && n.log.MatchTerm(s.index, s.term) {
      if CommitTo(n.log, s.index).Some? {
        LogFits(g, n, CommitTo(n.log, s.index).value);
        SentKept(g, n.(log := CommitTo(n.log, s.index).value), r);
      }
    } else if !n.fatal {
      var l := Restore(n.log, s);
      var n1 := n.(prs := RestoredProgress(n, l.LastIndex()));
      RestoredFits(g, n, l.LastIndex());
      LogFits(g, n1, l);
      assert n1.(log := l) == n.(log := l, prs := RestoredProgress(n, l.LastIndex()));
      SentKept(g, n.(log := l, prs := RestoredProgress(n, l.LastIndex())), r);
    }
  }

  /** Same, once the terms have been compared. */
  ghost predicate InTerm(n: Node, m: Message) {
    || m.term == 0 || m.term == n.term
    || (m.term > n.term && (m.mtype == MsgPreVote || (m.mtype == MsgPreVoteResp && !m.reject)))
  }

  ghost predicate Comes(g: Ledger, n: Node, m: Message) {
    IsLocal(m) || (FitMsg(g, m) && m.to == n.cfg.id)
  }

  lemma FromLeaderFits(g: Ledger, n: Node, m: Message)
    requires Fit(g, n) && n.role == Follower && FitMsg(g, m)
    ensures m.mtype == MsgApp ==> Fit(g, HandleAppend(n, m))
    ensures Fit(g, HandleHeartbeat(n, m)) && Fit(g, HandleSnapshot(n, m))
  {
    hide FitCore, HandleAppend, HandleHeartbeat, HandleSnapshot;
    CoreFacts(g, n);
    if m.mtype == MsgApp {
      HandleAppendFits(g, n, m);
      VoteKeeps(g, n, HandleAppend(n, m));
    }
    HandleHeartbeatFits(g, n, m);
    VoteKeeps(g, n, HandleHeartbeat(n, m));
    HandleSnapshotFits(g, n, m);
    VoteKeeps(g, n, HandleSnapshot(n, m));
  }

  // --------------------------------------------------------------------------
  // Campaigns

  /** Nothing but the outbox and the stop. */
  lemma SentFits(g: Ledger, n: Node, n': Node)
    requires Fit(g, n) && SameButSent(n, n') && FitCore(g, n')
    ensures Fit(g, n')
  {
    hide FitCore;
  }

  lemma {:induction false} RequestsFit(g: Ledger, n: Node, mtype: MessageType, term: nat, ctx: seq<byte>,
      peers: seq<Id>)
    requires FitCore(g, n) && term >= 1 && (mtype == MsgVote || (mtype == MsgPreVote && n.cfg.id in g.pre))
    ensures var n' := RequestVotes(n, mtype, term, ctx, peers); FitCore(g, n') && SameButSent(n, n')
    decreases |peers|
  {
    hide FitCore, Send;
    CoreFacts(g, n);
    if !n.fatal && peers != [] {
      var m := VoteRequest(n, mtype, term, ctx, peers[0]);
      var n1 := if peers[0] == n.cfg.id then n else Send(n, m);
      SendFits(g, n, m);
      RequestsFit(g, n1, mtype, term, ctx, peers[1..]);
    }
  }

  function Cast(g: Ledger, n: Id, t: nat, c: Id): Ledger { g.(votes := g.votes[(n, t) := c]) }

  lemma CastGrows(g: Ledger, n: Id, t: nat, c: Id)
    requires (n, t) !in g.votes || g.votes[(n, t)] == c
    ensures Grown(g, Cast(g, n, t, c)) && Voted(Cast(g, n, t, c), n, t, c)
    ensures forall k :: k in Cast(g, n, t, c).votes && k !in g.votes ==> k.0 == n
  {
  }

  /** A step of node n, and the votes it cast in it. */
  ghost predicate Moves(g: Ledger, g': Ledger, n: Node, n': Node) {
    && Grown(g, g') && (forall k :: k in g'.votes && k !in g.votes ==> k.0 == n.cfg.id)
    && Fit(g', n') && n'.cfg == n.cfg
  }

  lemma StepsSame(g: Ledger, n: Node, n': Node)
    requires Fit(g, n') && n'.cfg == n.cfg
    ensures Moves(g, g, n, n')
  {
    hide Fit;
  }

  lemma CountOne(n: Node)
    requires n.votes == map[n.cfg.id := true]
    ensures Granted(n) == 1 && GrantedBy(n.votes) == {n.cfg.id}
  {
    assert GrantedBy(n.votes) == {n.cfg.id};
  }

  lemma BecomeLeaderFits(g: Ledger, n: Node)
    requires FitCore(g, n) && Shape(n) && n.term >= 1 && !n.fatal && n.role != Follower
    ensures var n' := BecomeLeader(n);
      FitCore(g, n') && n'.cfg == n.cfg && n'.term == n.term && n'.vote == n.vote && n'.role == Leader
  {
    hide FitCore, AppendEntry, Stamp, FitsUncommitted, PayloadSize32, Shape;
    StartFits(g, n);
    var n1 := StartLeader(n);
    CoreFacts(g, n1);
    AppendFits(g, n1, [EMPTY_ENTRY]);
    DeadFits(g, n1);
    var n2 := AppendEntry(n1, [EMPTY_ENTRY]);
    ReducedFits(g, n2, [EMPTY_ENTRY]);
  }

  lemma ReducedFits(g: Ledger, n: Node, es: seq<Entry>)
    requires FitCore(g, n)
    ensures Kept(g, n, ReduceUncommitted(n, es)) && ReduceUncommitted(n, es).log == n.log
  {
    hide FitCore, PayloadSize32;
    KeptSame(g, n);
    LedgerFree(g, n, n.(uncommitted := ReduceUncommitted(n, es).uncommitted));
  }

  lemma StartFits(g: Ledger, n: Node)
    requires FitCore(g, n) && Shape(n)
    ensures var n' := StartLeader(n);
      && FitCore(g, n') && n'.cfg == n.cfg && n'.term == n.term && n'.vote == n.vote && n'.role == Leader
      && n'.fatal == n.fatal
  {
    hide FitCore;
    ResetCore(g, n, n.term);
    var n1 := Reset(n, n.term);
    CoreFacts(g, n1);
    var n2 := n1.(lead := n.cfg.id, role := Leader);
    RoleFree(g, n1, n2);
    var n3 := n2.(prs := n2.prs[n.cfg.id := P.BecomeReplicate(n2.prs[n.cfg.id])], pendingConf := n2.log.LastIndex());
    LedgerFree(g, n2, n3);
    assert n3 == StartLeader(n);
  }

  lemma StartedFits(g: Ledger, n: Node)
    requires Fit(g, n) && !n.fatal
    ensures var c := V.Started(n);
      && c.cfg == n.cfg && c.votes == map[n.cfg.id := true] && c.term == n.term + 1 && c.vote == n.cfg.id
      && c.role == Candidate && !c.fatal
    ensures var g' := Cast(g, n.cfg.id, n.term + 1, n.cfg.id); var c := V.Started(n);
      && Grown(g, g') && FitCore(g', c) && FitLedger(g', c) && VotesBacked(g', c)
      && forall k :: k in g'.votes && k !in g.votes ==> k.0 == n.cfg.id
  {
    hide FitCore;
    var g' := Cast(g, n.cfg.id, n.term + 1, n.cfg.id);
    CastGrows(g, n.cfg.id, n.term + 1, n.cfg.id);
    CoreFits(g, g', n);
    CoreFacts(g, n);
    ResetCore(g', n, n.term + 1);
    RoleFree(g', Reset(n, n.term + 1), V.Started(n));
  }

  /** A majority of counted votes elects. */
  lemma WonElected(g: Ledger, n: Node)
    requires FitCore(g, n) && VotesBacked(g, n) && Granted(n) >= NodeQuorum(n)
    ensures Elected(g, n.cfg.id, n.term)
  {
    PeersCount(g, n);
    assert ElectedBy(g, n.cfg.id, n.term, GrantedBy(n.votes));
  }

  lemma PeersCount(g: Ledger, n: Node)
    requires FitCore(g, n)
    ensures |n.cfg.peers| == |g.voters|
  {
    hide FitMsgs, Shape, Q.Ordered;
    L.DistinctSize(n.cfg.peers);
    assert L.Members(n.cfg.peers) == g.voters;
  }

  lemma WinFits(g: Ledger, n: Node)
    requires FitCore(g, n) && FitLedger(g, n) && n.role == Candidate && n.vote == n.cfg.id && n.term >= 1 && !n.fatal
    requires n.cfg.id in g.pre || Elected(g, n.cfg.id, n.term)
    ensures Shape(n) && Fit(g, BecomeLeader(n)) && BecomeLeader(n).cfg == n.cfg
  {
    hide FitCore, BecomeLeader, Elected;
    CoreFacts(g, n);
    BecomeLeaderFits(g, n);
  }

  lemma DeadRole(g: Ledger, n: Node)
    requires Fit(g, n)
    ensures Fit(g, Die(n))
  {
    hide FitCore;
    DeadFits(g, n);
  }

  lemma StartedRole(g: Ledger, n: Node)
    requires FitCore(g, V.Started(n)) && FitLedger(g, V.Started(n)) && VotesBacked(g, V.Started(n))
    requires Granted(V.Started(n)) == 1 && NodeQuorum(V.Started(n)) != 1
    ensures Fit(g, V.Started(n))
  {
    hide FitCore, FitLedger, VotesBacked, Granted;
  }

  lemma ElectFits(g: Ledger, n: Node, transfer: bool) returns (g': Ledger)
    requires Fit(g, n)
    ensures Shape(n) && Moves(g, g', n, NodeSpec.Elect(n, transfer))
  {
    hide FitCore, FitLedger, BecomeLeader, RequestVotes, Reset, VotesBacked, Elected, FitRole, Shape, Grown, Granted,
      NodeQuorum;
    CoreFacts(g, n);
    g' := g;
    StepsSame(g, n, n);
    if n.fatal {
    } else if n.role == Leader {
      DeadRole(g, n);
      StepsSame(g, n, Die(n));
    } else {
      var c := V.Started(n);
      V.StartedIs(n);
      StartedFits(g, n);
      g' := Cast(g, n.cfg.id, n.term + 1, n.cfg.id);
      CountOne(c);
      if NodeQuorum(c) == Granted(c) {
        WonElected(g', c);
        WinFits(g', c);
      } else {
        var ctx := if transfer then TRANSFER else [];
        StartedRole(g', n);
        RequestsFit(g', c, MsgVote, c.term, ctx, c.cfg.peers);
        SentFits(g', c, RequestVotes(c, MsgVote, c.term, ctx, c.cfg.peers));
      }
    }
  }

  lemma PreStartedFits(g: Ledger, n: Node)
    requires Fit(g, n) && !n.fatal && n.role != Leader
    ensures var c := V.PreStarted(n);
      && Poll(BecomePreCandidate(n), n.cfg.id, true) == c && c.cfg == n.cfg && !c.fatal && c.role == PreCandidate
      && c.lead == 0
      && FitCore(g, c) && FitLedger(g, c) && Granted(c) == 1
  {
    hide FitCore, FitRole, VotesBacked;
    RoleFree(g, n, V.PreStarted(n));
    CountOne(V.PreStarted(n));
  }

  lemma WaitingFits(g: Ledger, n: Node)
    requires FitCore(g, n) && FitLedger(g, n) && n.role == PreCandidate && n.lead == 0 && Granted(n) < NodeQuorum(n)
    ensures Fit(g, n)
  {
    hide FitCore, FitLedger, Granted;
  }

  lemma CampaignFits(g: Ledger, n: Node, t: CampaignType) returns (g': Ledger)
    requires Fit(g, n) && (t == CampaignPreElection ==> n.cfg.preVote)
    ensures Shape(n) && Moves(g, g', n, Campaign(n, t))
  {
    hide FitCore, FitLedger, NodeSpec.Elect, RequestVotes, FitRole, Shape, Grown, Granted, VotesBacked, Elected;
    CoreFacts(g, n);
    g' := g;
    StepsSame(g, n, n);
    if n.fatal {
    } else if t != CampaignPreElection {
      g' := ElectFits(g, n, t == CampaignTransfer);
    } else if n.role == Leader {
      DeadRole(g, n);
      StepsSame(g, n, Die(n));
    } else {
      var c := V.PreStarted(n);
      PreStartedFits(g, n);
      CoreFacts(g, c);
      if NodeQuorum(c) == Granted(c) {
        g' := ElectOpen(g, c);
        MovesFrom(g, g', n, c, NodeSpec.Elect(c, false));
      } else {
        WaitingFits(g, c);
        RequestsFit(g, c, MsgPreVote, c.term + 1, [], c.cfg.peers);
        SentFits(g, c, RequestVotes(c, MsgPreVote, c.term + 1, [], c.cfg.peers));
        StepsSame(g, n, RequestVotes(c, MsgPreVote, c.term + 1, [], c.cfg.peers));
      }
    }
  }

  lemma MovesFrom(g: Ledger, g': Ledger, n: Node, c: Node, n': Node)
    requires Moves(g, g', c, n') && c.cfg == n.cfg
    ensures Moves(g, g', n, n')
  {
    hide Fit;
  }

  /** Opening the real election with a majority in hand: only the role and the count of the pre-campaign differ. */
  lemma ElectOpen(g: Ledger, c: Node) returns (g': Ledger)
    requires FitCore(g, c) && FitLedger(g, c) && !c.fatal && c.role == PreCandidate
    ensures Shape(c) && Moves(g, g', c, NodeSpec.Elect(c, false))
  {
    hide FitCore, FitLedger, NodeSpec.Elect, Shape, Grown;
    CoreFacts(g, c);
    var f := c.(role := Follower);
    RoleFree(g, c, f);
    CoreFacts(g, f);
    assert Fit(g, f) by { FollowerFits(g, c, f); }
    g' := ElectFits(g, f, false);
    SameElect(c, f);
    MovesFrom(g, g', c, f, NodeSpec.Elect(f, false));
  }

  lemma FollowerFits(g: Ledger, c: Node, f: Node)
    requires FitCore(g, f) && FitLedger(g, c) && f == c.(role := Follower)
    ensures Fit(g, f)
  {
    hide FitCore;
  }

  lemma SameElect(c: Node, f: Node)
    requires Shape(c) && Shape(f) && f == c.(role := Follower) && !c.fatal && c.role == PreCandidate
    ensures NodeSpec.Elect(c, false) == NodeSpec.Elect(f, false)
  {
    hide BecomeLeader, RequestVotes, Shape, Granted;
  }

  lemma HupFits(g: Ledger, n: Node) returns (g': Ledger)
    requires Fit(g, n)
    ensures Shape(n) && Moves(g, g', n, StepHup(n))
  {
    hide Fit, Campaign, Slice, HasConfChange, Shape, Grown;
    FitShape(g, n);
    StepsSame(g, n, n);
    DeadRole(g, n);
    StepsSame(g, n, Die(n));
    g' := CampaignFits(g, n, if n.cfg.preVote then CampaignPreElection else CampaignElection);
    if StepHup(n) == n || StepHup(n) == Die(n) { g' := g; }
  }

  lemma FitShape(g: Ledger, n: Node)
    requires Fit(g, n)
    ensures Shape(n) && FitCore(g, n) && n.cfg.id != 0 && n.cfg.id in g.voters && 0 !in g.voters
  {
  }

  // --------------------------------------------------------------------------
  // Votes

  lemma GrantFits(g: Ledger, n: Node, m: Message) returns (g': Ledger)
    requires Fit(g, n) && FitMsg(g, m) && m.mtype == MsgVote && m.term == n.term && !n.fatal
    requires n.vote == m.from || n.vote == 0
    ensures var n1 := n.(vote := m.from);
      Moves(g, g', n, n1) && Voted(g', n.cfg.id, n.term, m.from)
  {
    hide FitCore, Grown, Granted, Elected;
    FitShape(g, n);
    g' := Cast(g, n.cfg.id, n.term, m.from);
    CastGrows(g, n.cfg.id, n.term, m.from);
    CoreFits(g, g', n);
    RoleFits(g, g', n);
    RoleFree(g', n, n.(vote := m.from));
    assert FitRole(g', n.(vote := m.from)) by { SameCounts(g', n, m.from); }
  }

  lemma SameCounts(g: Ledger, n: Node, c: Id)
    requires FitRole(g, n) && (n.vote == c || n.vote == 0) && n.cfg.id != 0
    ensures FitRole(g, n.(vote := c))
  {
  }

  lemma VoteFits(g: Ledger, n: Node, m: Message) returns (g': Ledger)
    requires Fit(g, n) && FitMsg(g, m) && (m.mtype == MsgVote || m.mtype == MsgPreVote)
    requires m.mtype == MsgVote ==> m.term == n.term
    ensures Moves(g, g', n, StepVote(n, m))
  {
    hide Fit, Grown, Send, RLog.IsUpToDate;
    FitShape(g, n);
    g' := g;
    StepsSame(g, n, n);
    if !n.fatal && CanVote(n, m) && n.log.IsUpToDate(m.index, m.logTerm) {
      var r := Blank(RespType(m.mtype), m.from).(term := m.term);
      if m.mtype == MsgVote {
        g' := GrantFits(g, n, m);
        var n1 := n.(vote := m.from);
        FitShape(g', n1);
        SendFits(g', n1, r);
        SentFits(g', n1, Send(n1, r));
        MovesFrom2(g, g', n, n1, Send(n1, r));
        SentVote(n, m.from, r);
      } else {
        SendFits(g, n, r);
        SentFits(g, n, Send(n, r));
        StepsSame(g, n, Send(n, r));
      }
    } else if !n.fatal {
      RejectFits(g, n, m);
    }
  }

  lemma SentVote(n: Node, c: Id, r: Message)
    requires !n.fatal && IsVoteKind(r.mtype) && r.term != 0
    ensures Send(n.(vote := c), r) == Send(n, r).(vote := c) && !Send(n, r).fatal
  {
  }

  lemma MovesFrom2(g: Ledger, g': Ledger, n: Node, n1: Node, n2: Node)
    requires Moves(g, g', n, n1) && Fit(g', n2) && n2.cfg == n1.cfg
    ensures Moves(g, g', n, n2)
  {
    hide Fit;
  }

  lemma RejectFits(g: Ledger, n: Node, m: Message)
    requires Fit(g, n) && FitMsg(g, m) && (m.mtype == MsgVote || m.mtype == MsgPreVote)
    ensures Moves(g, g, n, Send(n, Blank(RespType(m.mtype), m.from).(term := n.term, reject := true)))
  {
    hide Fit, Send;
    FitShape(g, n);
    var r := Blank(RespType(m.mtype), m.from).(term := n.term, reject := true);
    if n.term == 0 && !n.fatal {
      DeadRole(g, n);
      assert Send(n, r) == Die(n) by { DeadVote(n, r); }
    } else {
      if n.term > 0 { SendFits(g, n, r); } else { FatalSend(n, r); }
      SentFits(g, n, Send(n, r));
    }
    StepsSame(g, n, Send(n, r));
  }

  lemma FatalSend(n: Node, r: Message)
    requires n.fatal
    ensures Send(n, r) == n
  {
  }

  lemma DeadVote(n: Node, r: Message)
    requires !n.fatal && IsVoteKind(r.mtype) && r.term == 0
    ensures Send(n, r) == Die(n)
  {
  }

  /** A counted answer of a voter. */
  lemma PollFits(g: Ledger, n: Node, m: Message)
    requires Fit(g, n) && FitMsg(g, m) && m.to == n.cfg.id && InTerm(n, m)
    requires (n.role == Candidate || n.role == PreCandidate)
    requires m.mtype == MsgVoteResp || m.mtype == MsgPreVoteResp
    ensures var c := Poll(n, m.from, !m.reject);
      && FitCore(g, c) && FitLedger(g, c) && c.cfg == n.cfg && c.role == n.role && c.lead == 0
      && Granted(c) <= NodeQuorum(c)
      && c.fatal == n.fatal && c.term == n.term && c.vote == n.vote
      && (n.role == Candidate && n.cfg.id !in g.pre ==> VotesBacked(g, c))
  {
    hide FitCore, Elected, Granted;
    var c := Poll(n, m.from, !m.reject);
    RoleFree(g, n, c);
    V.PolledCount(n, m.from, !m.reject);
  }

  lemma LostFits(g: Ledger, n: Node)
    requires FitCore(g, n) && FitLedger(g, n)
    ensures Fit(g, BecomeFollower(n, n.term, 0)) || n.fatal
    ensures BecomeFollower(n, n.term, 0).cfg == n.cfg
  {
    hide FitCore;
    ResetCore(g, n, n.term);
    RoleFree(g, Reset(n, n.term), Reset(n, n.term).(lead := 0, role := Follower));
  }

  lemma StillOpen(g: Ledger, n: Node)
    requires FitCore(g, n) && FitLedger(g, n) && (n.role == Candidate || n.role == PreCandidate) && n.lead == 0
    requires Granted(n) < NodeQuorum(n)
    requires n.role == Candidate ==> n.vote == n.cfg.id && n.term >= 1 && (n.cfg.id in g.pre || VotesBacked(g, n))
    ensures Fit(g, n)
  {
    hide FitCore, FitLedger, VotesBacked, Granted;
  }

  lemma TallyFits(g: Ledger, n: Node) returns (g': Ledger)
    requires FitCore(g, n) && FitLedger(g, n) && (n.role == Candidate || n.role == PreCandidate) && n.lead == 0
    requires Granted(n) <= NodeQuorum(n) && !n.fatal
    requires n.role == Candidate ==> n.vote == n.cfg.id && n.term >= 1 && (n.cfg.id in g.pre || VotesBacked(g, n))
    ensures Shape(n) && Moves(g, g', n, Tally(n))
  {
    hide FitCore, FitLedger, VotesBacked, Granted, NodeQuorum, NodeSpec.Elect, BecomeLeader, BcastAppend,
      BecomeFollower, Shape, Grown, Fit, Elected;
    CoreFacts(g, n);
    g' := g;
    if NodeQuorum(n) == Granted(n) {
      if n.role == PreCandidate {
        g' := ElectOpen(g, n);
      } else {
        if n.cfg.id !in g.pre { WonElected(g, n); }
        WinFits(g, n);
        BecomeLeaderFits(g, n);
        LeadFits(g, BecomeLeader(n), n.cfg.peers);
        BecomeLeaderKeepsShape(n);
        CoreFacts(g, BecomeLeader(n));
        StepsSame(g, n, BcastAppend(BecomeLeader(n), n.cfg.peers));
      }
    } else if NodeQuorum(n) == |n.votes| - Granted(n) {
      LostFits(g, n);
      StepsSame(g, n, BecomeFollower(n, n.term, 0));
    } else {
      StillOpen(g, n);
      StepsSame(g, n, n);
    }
  }

  lemma LeadFits(g: Ledger, n: Node, peers: seq<Id>)
    requires Fit(g, n) && n.role == Leader && peers == n.cfg.peers
    ensures Shape(n) && Fit(g, BcastAppend(n, peers)) && BcastAppend(n, peers).cfg == n.cfg
  {
    hide FitCore, FitLedger, BcastAppend, Elected;
    CoreFacts(g, n);
    BcastFits(g, n, peers);
    VoteKeeps(g, n, BcastAppend(n, peers));
  }

  // --------------------------------------------------------------------------
  // step

  lemma CandidateFits(g: Ledger, n: Node, m: Message) returns (g': Ledger)
    requires Fit(g, n) && (n.role == Candidate || n.role == PreCandidate) && Comes(g, n, m) && InTerm(n, m) && !n.fatal
    ensures Shape(n) && Moves(g, g', n, StepCandidate(n, m))
  {
    hide Fit, Grown, Shape, BecomeFollower, Tally, Poll, HandleAppend, HandleHeartbeat, HandleSnapshot, FitMsg,
      Granted, NodeQuorum, VotesBacked, FitCore, FitLedger;
    FitShape(g, n);
    g' := g;
    StepsSame(g, n, n);
    if IsFromLeader(m.mtype) {
      FromLeaderTerm(g, n, m);
      FollowFits(g, n, m.term, m.from);
      var f := BecomeFollower(n, m.term, m.from);
      FromLeaderFits(g, f, m);
      ConfigProofs.HandleConfig(f, m);
      StepsSame(g, n, StepCandidate(n, m));
    } else if m.mtype == MsgVoteResp || m.mtype == MsgPreVoteResp {
      PollFits(g, n, m);
      var c := Poll(n, m.from, !m.reject);
      CandidateVote(g, n);
      CoreFacts(g, c);
      g' := TallyFits(g, c);
      MovesFrom(g, g', n, c, Tally(c));
    }
  }

  lemma CandidateVote(g: Ledger, n: Node)
    requires Fit(g, n)
    ensures n.role == Candidate ==> n.vote == n.cfg.id && n.term >= 1
  {
  }

  lemma FromLeaderTerm(g: Ledger, n: Node, m: Message)
    requires Comes(g, n, m) && InTerm(n, m) && IsFromLeader(m.mtype)
    ensures m.term == n.term && FitMsg(g, m)
  {
  }

  lemma FollowerStep(g: Ledger, n: Node, m: Message) returns (g': Ledger)
    requires Fit(g, n) && n.role == Follower && Comes(g, n, m) && InTerm(n, m) && !n.fatal
    ensures Shape(n) && Moves(g, g', n, StepFollower(n, m))
  {
    hide Fit, Grown, Shape, Forward, Campaign, HandleAppend, HandleHeartbeat, HandleSnapshot, FitMsg, FitCore;
    FitShape(g, n);
    g' := g;
    StepsSame(g, n, n);
    if IsFromLeader(m.mtype) {
      FromLeaderTerm(g, n, m);
      var f := n.(lead := m.from);
      LeadFree(g, n, f);
      FromLeaderFits(g, f, m);
      ConfigProofs.HandleConfig(f, m);
      StepsSame(g, n, StepFollower(n, m));
    } else if m.mtype == MsgTimeoutNow {
      g' := CampaignFits(g, n, CampaignTransfer);
    } else {
      if m.mtype == MsgProp || m.mtype == MsgTransferLeader || m.mtype == MsgReadIndex { ForwardFits(g, n, m); }
      if m.mtype == MsgReadIndexResp && |m.entries| == 1 {
        AnswerComes(g, n, m);
        PushFits(g, n, R.ReadState(m.index, R.CtxOf(m)));
        VoteKeeps(g, n, PushReadState(n, R.ReadState(m.index, R.CtxOf(m))));
        StepsSame(g, n, PushReadState(n, R.ReadState(m.index, R.CtxOf(m))));
      }
    }
  }

  lemma LeadFree(g: Ledger, n: Node, f: Node)
    requires Fit(g, n) && n.role == Follower && f == n.(lead := f.lead)
    ensures Fit(g, f)
  {
    hide FitCore;
    RoleFree(g, n, f);
  }

  lemma AnswerComes(g: Ledger, n: Node, m: Message)
    requires Comes(g, n, m) && m.mtype == MsgReadIndexResp
    ensures g.answers
  {
  }

  lemma ForwardFits(g: Ledger, n: Node, m: Message)
    requires Fit(g, n) && (m.mtype == MsgProp || m.mtype == MsgTransferLeader || m.mtype == MsgReadIndex)
    ensures Moves(g, g, n, Forward(n, m))
  {
    hide FitCore, Send, Grown, FitRole, FitLedger;
    if n.lead != 0 { SendFits(g, n, m.(to := n.lead)); SentFits(g, n, Forward(n, m)); }
    StepsSame(g, n, Forward(n, m));
  }

  lemma LeaderFits(g: Ledger, n: Node, m: Message)
    requires Fit(g, n) && n.role == Leader && Comes(g, n, m) && InTerm(n, m) && !n.fatal
    ensures Shape(n) && Fit(g, StepLeader(n, m))
  {
    hide Fit, Shape, Propose, LeaderReadIndex, AppResp, HeartbeatResp, BcastHeartbeat, TransferLeader, CountActive,
      SnapStatus, Unreachable, BecomeFollower, FitMsg, FitCore, NodeQuorum;
    LeadingFacts(g, n);
    if m.mtype == MsgBeat {
      BeatsFit(g, n, R.LastPendingCtx(n.readOnly), n.cfg.peers);
      VoteKeeps(g, n, StepLeader(n, m));
    } else if m.mtype == MsgCheckQuorum {
      FollowFits(g, n, n.term, 0);
    } else if m.mtype == MsgProp {
      ProposeFits(g, n, m);
      VoteKeeps(g, n, StepLeader(n, m));
    } else if m.mtype == MsgReadIndex {
      ReadIndexFits(g, n, m);
      VoteKeeps(g, n, StepLeader(n, m));
    } else if m.from in n.prs {
      ReplyFits(g, n, m);
    }
  }

  lemma LeadingFacts(g: Ledger, n: Node)
    requires Fit(g, n) && n.role == Leader
    ensures FitCore(g, n) && Shape(n) && n.term >= 1 && n.vote == n.cfg.id
    ensures (forall p :: p in n.cfg.peers ==> p in n.prs)
  {
  }

  lemma ReplyFits(g: Ledger, n: Node, m: Message)
    requires Fit(g, n) && n.role == Leader && Comes(g, n, m) && InTerm(n, m) && m.from in n.prs && Shape(n)
    requires m.mtype != MsgBeat && m.mtype != MsgCheckQuorum && m.mtype != MsgProp && m.mtype != MsgReadIndex
    ensures Fit(g, StepLeader(n, m))
  {
    hide Fit, Shape, AppResp, HeartbeatResp, TransferLeader, SnapStatus, Unreachable, FitMsg, FitCore;
    LeadingFacts(g, n);
    KeptSame(g, n);
    if m.mtype == MsgAppResp {
      AppRespFits(g, n, m);
    } else if m.mtype == MsgHeartbeatResp {
      BeatAnswer(g, n, m);
      HeartbeatRespFits(g, n, m);
    } else if m.mtype == MsgTransferLeader {
      TransferFits(g, n, m);
    } else {
      ReportsFit(g, n, m);
    }
    VoteKeeps(g, n, StepLeader(n, m));
  }

  lemma BeatAnswer(g: Ledger, n: Node, m: Message)
    requires Comes(g, n, m) && m.mtype == MsgHeartbeatResp
    ensures m.context == []
  {
  }

  lemma DispatchFits(g: Ledger, n: Node, m: Message) returns (g': Ledger)
    requires Fit(g, n) && Comes(g, n, m) && InTerm(n, m)
    ensures Shape(n) && Moves(g, g', n, Dispatch(n, m))
  {
    hide Fit, Grown, Shape, StepHup, StepVote, StepLeader, StepFollower, StepCandidate, FitMsg;
    FitShape(g, n);
    g' := g;
    StepsSame(g, n, n);
    if n.fatal {
    } else if m.mtype == MsgHup {
      g' := HupFits(g, n);
    } else if m.mtype == MsgVote || m.mtype == MsgPreVote {
      VoteComes(g, n, m);
      g' := VoteFits(g, n, m);
    } else if n.role == Leader {
      LeaderFits(g, n, m);
      ConfigProofs.LeaderConfig(n, m);
      StepsSame(g, n, StepLeader(n, m));
    } else if n.role == Follower {
      g' := FollowerStep(g, n, m);
    } else {
      g' := CandidateFits(g, n, m);
    }
  }

  lemma VoteComes(g: Ledger, n: Node, m: Message)
    requires Comes(g, n, m) && InTerm(n, m) && (m.mtype == MsgVote || m.mtype == MsgPreVote)
    ensures FitMsg(g, m) && (m.mtype == MsgVote ==> m.term == n.term)
  {
  }

  lemma StaleFits(g: Ledger, n: Node, m: Message)
    requires Fit(g, n) && Comes(g, n, m) && m.term != 0 && m.term < n.term
    ensures Moves(g, g, n, StepStale(n, m))
  {
    hide FitCore, Send, Grown, FitRole, FitLedger;
    StepsSame(g, n, n);
    if (n.cfg.checkQuorum || n.cfg.preVote) && (m.mtype == MsgHeartbeat || m.mtype == MsgApp) {
      SendFits(g, n, Blank(MsgAppResp, m.from));
    } else if m.mtype == MsgPreVote {
      CoreFacts(g, n);
      SendFits(g, n, Blank(MsgPreVoteResp, m.from).(reject := true, term := n.term));
    }
    SentOrSame(g, n, StepStale(n, m));
  }

  lemma SentOrSame(g: Ledger, n: Node, n': Node)
    requires Fit(g, n) && (n' == n || (SameButSent(n, n') && FitCore(g, n')))
    ensures Moves(g, g, n, n')
  {
    hide FitCore;
  }

  /** One step, of whatever kind, from whatever state the checks allow. */
  lemma StepFits(g: Ledger, n: Node, m: Message, lease: bool) returns (g': Ledger)
    requires Fit(g, n) && Comes(g, n, m)
    ensures Shape(n) && Moves(g, g', n, Step(n, m, lease))
  {
    hide Fit, Grown, Shape, Dispatch, StepStale, InLease, FitMsg, BecomeFollower, IsLocal;
    FitShape(g, n);
    LocalTerm(m);
    g' := g;
    StepsSame(g, n, n);
    if n.fatal {
    } else if m.term > n.term {
      if !InLease(n, m, lease) {
        var n1 := CatchUp(n, m);
        if !(m.mtype == MsgPreVote || (m.mtype == MsgPreVoteResp && !m.reject)) {
          FollowFits(g, n, m.term, if IsFromLeader(m.mtype) then m.from else 0);
        }
        g' := DispatchFits(g, n1, m);
        MovesFrom(g, g', n, n1, Dispatch(n1, m));
      }
    } else if m.term != 0 && m.term < n.term {
      StaleFits(g, n, m);
    } else {
      g' := DispatchFits(g, n, m);
    }
  }
}
