/** Every branch of step_leader keeps the invariant of a leader and of the whole history. */
module LeaderSteps {
  import opened Proto
  import opened Protocol
  import opened Steps
  import opened Actions
  import opened NodeSpec
  import opened NodeInv
  import opened LeaderProofs
  import P = ProgressSpec
  import R = ReadOnlySpec

  /** Fields of a leader that no other node's safety depends on. */
  lemma Bookkeeping(h: History, n: Node, n': Node)
    requires Leading(h, n) && R.Consistent(n'.readOnly)
    requires n' == n.(pendingConf := n'.pendingConf, uncommitted := n'.uncommitted, transferee := n'.transferee,
                      readStates := n'.readStates, readOnly := n'.readOnly)
    ensures Leading(h, n')
  {
  }

  lemma LeadingShape(h: History, n: Node)
    requires Leading(h, n)
    ensures Shape(n) && !n.fatal && n.role == Leader && (forall p :: p in n.cfg.peers ==> p in n.prs)
    ensures R.Consistent(n.readOnly)
    ensures n.term >= 1 && n.cfg.peers != [] && n.cfg.id in n.prs
  {
  }

  lemma ProgressOf(h: History, n: Node, p: Id)
    requires Leading(h, n) && p in n.prs
    ensures PrOk(h, n, p)
  {
  }

  // --------------------------------------------------------------------------
  // Proposals

  lemma ProposeLeading(h: History, n: Node, m: Message) returns (h': History)
    requires Inv(h) && Leading(h, n) && m.entries != []
    ensures Shape(n) && Inv(h') && Extends(h, h', n.cfg.id) && Leading(h', Propose(n, m))
  {
    hide Leading, Inv, Extends, FilterProposal, FitsUncommitted, Stamp, AppendEntry, BcastAppend, Shape, R.Consistent;
    LeadingShape(h, n);
    ExtendsRefl(h, n.cfg.id);
    h' := h;
    if n.transferee == 0 {
      var (es, pending) := FilterProposal(m.entries, n.pendingConf, n.log.applied, n.log.LastIndex());
      var n1 := n.(pendingConf := pending);
      Bookkeeping(h, n, n1);
      if FitsUncommitted(n1, Stamp(es, n1.term, n1.log.LastIndex())) {
        h' := AppendLeading(h, n1, es);
        AppendKeepsShape(n1, es);
        LeadingShape(h', AppendEntry(n1, es));
        BcastLeading(h', AppendEntry(n1, es), n.cfg.peers);
      }
    }
  }

  // --------------------------------------------------------------------------
  // Replies to appends

  lemma WindowReset(r: P.Progress, size: nat)
    requires r.inflights == [] && (r.state == P.Replicate ==> r.matched < r.next)
    ensures P.WindowOk(r, size)
  {
  }

  lemma ActiveOk(h: History, n: Node, p: Id)
    requires p in n.prs && PrOk(h, n, p)
    ensures PrOk(h, SetPr(n, p, n.prs[p].(recentActive := true)), p)
  {
  }

  lemma RejectedOk(h: History, n: Node, p: Id, r: P.Progress, index: nat, hint: nat)
    requires p in n.prs && PrOk(h, SetPr(n, p, r), p) && P.Decreases(r, index)
    ensures var q := P.MaybeDecreaseTo(r, index, hint);
      PrOk(h, SetPr(n, p, if q.state == P.Replicate then P.BecomeProbe(q) else q), p)
  {
  }

  lemma StaleOk(h: History, n: Node, p: Id, r: P.Progress, index: nat)
    requires p in n.prs && PrOk(h, SetPr(n, p, r), p) && index <= r.matched
    ensures PrOk(h, SetPr(n, p, P.MaybeUpdate(r, index)), p)
  {
  }

  lemma AcceptedOk(h: History, n: Node, p: Id, r: P.Progress, index: nat)
    requires p in n.prs && PrOk(h, SetPr(n, p, r), p) && index > r.matched
    requires index <= n.log.LastIndex() && Acked(h, p, n.term, index) && n.log.committed <= n.log.LastIndex()
    ensures PrOk(h, SetPr(n, p, AcceptedProgress(r, index)), p)
  {
    AcceptedWindow(r, index, n.cfg.maxInflight);
    hide Acked, P.WindowOk, P.FreeTo;
  }

  lemma AcceptedWindow(r: P.Progress, index: nat, size: nat)
    requires P.WindowOk(r, size) && index > r.matched
    ensures P.WindowOk(AcceptedProgress(r, index), size)
  {
    if r.state == P.Replicate {
      hide P.WindowOk;
      P.AcceptWindow(r, index, size);
    } else {
      hide P.FreeTo;
      WindowReset(AcceptedProgress(r, index), size);
    }
  }

  lemma AckedWithin(h: History, n: Node, p: Id, i: nat)
    requires Inv(h) && Leading(h, n) && Acked(h, p, n.term, i)
    ensures i <= n.log.LastIndex()
  {
    assert AckOk(h, p, n.term) by { InvElim(h); hide Nodes, Cands, Votes, Leaders, AcksKept, AcksVoted, Commits; }
    LeadingFacts(h, n);
  }

  lemma CommittedWithin(h: History, n: Node)
    requires Leading(h, n)
    ensures n.log.committed <= n.log.LastIndex()
  {
  }

  lemma TimeoutLeading(h: History, n: Node, to: Id)
    requires Leading(h, n)
    ensures Leading(h, SendTimeoutNow(n, to))
  {
    hide Leading, Send;
    LeadingShape(h, n);
    SendLeading(h, n, Blank(MsgTimeoutNow, to));
  }

  lemma AfterAcceptLeading(h: History, n: Node, from: Id, oldPaused: bool) returns (h': History)
    requires Inv(h) && Leading(h, n) && from in n.prs && from != n.cfg.id
    ensures Shape(n) && Inv(h') && Extends(h, h', n.cfg.id) && Leading(h', AfterAccept(n, from, oldPaused))
    ensures AfterAccept(n, from, oldPaused).cfg == n.cfg
  {
    hide Leading, Inv, Extends, NodeSpec.MaybeCommit, BcastAppend, Shape, CommitsMore, MaybeSendAppend, R.Consistent;
    LeadingShape(h, n);
    h' := CommitLeading(h, n);
    if CommitsMore(n) {
      var n1 := NodeSpec.MaybeCommit(n);
      LeadingShape(h', n1);
      BcastLeading(h', n1, n.cfg.peers);
    } else {
      h' := h;
      ExtendsRefl(h, n.cfg.id);
      if oldPaused {
        MaybeSendLeading(h, n, from, true);
        MaybeSendSame(n, from, true);
      }
    }
  }

  lemma AppRespLeading(h: History, n: Node, m: Message) returns (h': History)
    requires Inv(h) && Leading(h, n) && m.mtype == MsgAppResp && MsgOk(h, m) && m.term == n.term
    requires m.from in n.prs && m.from != n.cfg.id
    ensures Shape(n) && Inv(h') && Extends(h, h', n.cfg.id) && Leading(h', AppResp(n, m))
  {
    hide Leading, Inv, Extends, Shape, PrOk, Acked, AfterAccept, SendAll, MaybeSendAppend, AcceptedProgress,
      P.MaybeDecreaseTo, P.MaybeUpdate, R.Consistent, P.IsPaused, P.Decreases, P.BecomeProbe, SendTimeoutNow;
    LeadingShape(h, n);
    ExtendsRefl(h, n.cfg.id);
    ProgressOf(h, n, m.from);
    ActiveOk(h, n, m.from);
    h' := h;
    var p := n.prs[m.from].(recentActive := true);
    if m.reject {
      if P.Decreases(p, m.index) {
        RejectedOk(h, n, m.from, p, m.index, m.rejectHint);
        var q := P.MaybeDecreaseTo(p, m.index, m.rejectHint);
        var r := if q.state == P.Replicate then P.BecomeProbe(q) else q;
        SetPrLeading(h, n, m.from, r);
        MaybeSendLeading(h, SetPr(n, m.from, r), m.from, true);
      } else {
        SetPrLeading(h, n, m.from, p);
      }
    } else if !P.Updates(p, m.index) {
      StaleOk(h, n, m.from, p, m.index);
      SetPrLeading(h, n, m.from, P.MaybeUpdate(p, m.index));
    } else {
      h' := AcceptLeading(h, n, m, p);
    }
  }

  /** The acceptance branch of a leader's reply handling, from the recorded activity p on. */
  lemma AcceptLeading(h: History, n: Node, m: Message, p: P.Progress) returns (h': History)
    requires Inv(h) && Leading(h, n) && m.from in n.prs && m.from != n.cfg.id && !m.reject
    requires p == n.prs[m.from].(recentActive := true) && P.Updates(p, m.index) && PrOk(h, SetPr(n, m.from, p), m.from)
    requires Acked(h, m.from, n.term, m.index)
    ensures Shape(n) && Inv(h') && Extends(h, h', n.cfg.id) && Leading(h', AppResp(n, m))
  {
    hide Leading, Inv, Extends, Shape, PrOk, Acked, AfterAccept, SendAll, MaybeSendAppend, AcceptedProgress,
      P.MaybeDecreaseTo, P.MaybeUpdate, R.Consistent, P.IsPaused, SendTimeoutNow;
    LeadingShape(h, n);
    CommittedWithin(h, n);
    AckedWithin(h, n, m.from, m.index);
    AcceptedOk(h, n, m.from, p, m.index);
    var n1 := SetPr(n, m.from, AcceptedProgress(p, m.index));
    SetPrLeading(h, n, m.from, AcceptedProgress(p, m.index));
    var paused := P.IsPaused(p, n.cfg.maxInflight);
    h' := AfterAcceptLeading(h, n1, m.from, paused);
    AfterAcceptKeepsShape(n1, m.from, paused);
    var n2 := AfterAccept(n1, m.from, paused);
    SendAllLeading(h', n2, m.from);
    var n3 := SendAll(n2, m.from);
    SendAllKeepsShape(n2, m.from);
    TimeoutLeading(h', n3, m.from);
  }

  // --------------------------------------------------------------------------
  // Heartbeats, reports and transfers

  lemma HeartbeatOkPr(h: History, n: Node, p: Id)
    requires p in n.prs && PrOk(h, n, p)
    ensures PrOk(h, SetPr(n, p, HeartbeatProgress(n, n.prs[p])), p)
  {
    var q := n.prs[p].(recentActive := true, paused := false);
    P.FreeFirstWindow(q, n.cfg.maxInflight);
    hide Acked, P.WindowOk;
    WindowKeeps(n.prs[p], q, n.cfg.maxInflight);
  }

  lemma WindowKeeps(r: P.Progress, q: P.Progress, size: nat)
    requires P.WindowOk(r, size) && q == r.(recentActive := q.recentActive, paused := q.paused)
    ensures P.WindowOk(q, size)
  {
  }

  lemma HeartbeatRespLeading(h: History, n: Node, m: Message)
    requires Leading(h, n) && m.context == [] && m.from in n.prs && m.from != n.cfg.id
    ensures Shape(n) && Leading(h, HeartbeatResp(n, m))
  {
    hide Leading, Shape, PrOk, MaybeSendAppend, HeartbeatProgress, R.Consistent;
    LeadingShape(h, n);
    ProgressOf(h, n, m.from);
    HeartbeatOkPr(h, n, m.from);
    SetPrLeading(h, n, m.from, HeartbeatProgress(n, n.prs[m.from]));
    var n1 := SetPr(n, m.from, HeartbeatProgress(n, n.prs[m.from]));
    if n1.prs[m.from].matched < n1.log.LastIndex() {
      MaybeSendLeading(h, n1, m.from, true);
    }
  }

  lemma ProbeOk(h: History, n: Node, p: Id, r: P.Progress)
    requires p in n.prs && PrOk(h, SetPr(n, p, r), p) && n.log.committed <= n.log.LastIndex()
    ensures PrOk(h, SetPr(n, p, P.BecomeProbe(r)), p)
    ensures PrOk(h, SetPr(n, p, P.BecomeProbe(r).(paused := true)), p)
    ensures P.BecomeProbe(r).inflights == []
  {
  }

  lemma SnapStatusLeading(h: History, n: Node, m: Message)
    requires Leading(h, n) && m.from in n.prs
    ensures Leading(h, SnapStatus(n, m))
  {
    hide Leading;
    LeadingShape(h, n);
    CommittedWithin(h, n);
    ProgressOf(h, n, m.from);
    var p := n.prs[m.from];
    var q := if m.reject then p.(pendingSnapshot := 0) else p;
    ProbeOk(h, n, m.from, q);
    if p.state == P.Snapshotting {
      SetPrLeading(h, n, m.from, P.BecomeProbe(q).(paused := true));
    }
  }

  lemma UnreachableLeading(h: History, n: Node, m: Message)
    requires Leading(h, n) && m.from in n.prs
    ensures Leading(h, Unreachable(n, m))
  {
    hide Leading;
    LeadingShape(h, n);
    CommittedWithin(h, n);
    ProgressOf(h, n, m.from);
    ProbeOk(h, n, m.from, n.prs[m.from]);
    if n.prs[m.from].state == P.Replicate {
      SetPrLeading(h, n, m.from, P.BecomeProbe(n.prs[m.from]));
    }
  }

  lemma TransferLeading(h: History, n: Node, m: Message)
    requires Leading(h, n) && m.from in n.prs
    ensures Shape(n) && Leading(h, TransferLeader(n, m))
  {
    hide Leading, Shape, MaybeSendAppend, R.Consistent, SendTimeoutNow;
    LeadingShape(h, n);
    Bookkeeping(h, n, n.(transferee := 0));
    var n1 := n.(transferee := m.from);
    Bookkeeping(h, n, n1);
    TimeoutLeading(h, n1, m.from);
    if m.from != n.cfg.id { MaybeSendLeading(h, n1, m.from, true); }
  }

  // --------------------------------------------------------------------------
  // Reads

  lemma AddConsistent(r: R.ReadOnly, index: nat, m: Message)
    requires R.Consistent(r) && m.entries != []
    ensures R.Consistent(R.AddRequest(r, index, m))
  {
  }

  lemma AnswerLeading(h: History, n: Node, req: Message, index: nat)
    requires Leading(h, n) && req.entries != []
    ensures Leading(h, AnswerRead(n, req, index))
  {
    hide Leading, Send, R.Consistent;
    LeadingShape(h, n);
    if IsLocalRequest(n, req) {
      Bookkeeping(h, n, PushReadState(n, R.ReadState(index, R.CtxOf(req))));
    } else {
      SendLeading(h, n, Blank(MsgReadIndexResp, req.from).(index := index, entries := req.entries));
    }
  }

  lemma ReadIndexLeading(h: History, n: Node, m: Message)
    requires Leading(h, n) && m.entries != []
    ensures Shape(n) && Leading(h, LeaderReadIndex(n, m))
  {
    hide Leading, BcastHeartbeat, R.Consistent, Shape, R.AddRequest, AnswerRead;
    LeadingShape(h, n);
    if n.cfg.readOnlyOption == ReadOnlySafe {
      AddConsistent(n.readOnly, n.log.committed, m);
      var n1 := n.(readOnly := R.AddRequest(n.readOnly, n.log.committed, m));
      Bookkeeping(h, n, n1);
      BcastHeartbeatLeading(h, n1, R.CtxOf(m), n.cfg.peers);
    }
    AnswerLeading(h, n, m, n.log.committed);
    Bookkeeping(h, n, PushReadState(n, R.ReadState(n.log.committed, R.CtxOf(m))));
  }
}
