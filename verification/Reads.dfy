/**
 Read requests. The reply to a heartbeat carries no context, so with a quorum to ask no request is ever answered:
 a run that answers one exists if and only if some node answers on a lease, or there is a single voter.
 */
module Reads {
  import opened Proto
  import opened QuorumIndex
  import opened Logs
  import opened RaftLogSpec
  import opened NodeSpec
  import opened MatchProofs
  import opened LocalInv
  import opened Cluster
  import opened EveryRun
  import opened Schedules
  import Safety
  import P = ProgressSpec

  /** A read state for the application of this node, or an answer on its way to the node that asked. */
  ghost predicate HasAnswer(n: Node) {
    n.readStates != [] || exists m :: m in n.msgs && m.mtype == MsgReadIndexResp
  }

  /** The event leaves an answer behind. */
  ghost predicate Answers(c: State, e: Event) {
    match e
    case Deliver(m, lease) => m.to in c.nodes && Shape(c.nodes[m.to]) && HasAnswer(Step(c.nodes[m.to], m, lease))
    case Local(id, m) => id in c.nodes && Shape(c.nodes[id]) && HasAnswer(Step(c.nodes[id], m, false))
    case _ => false
  }

  // --------------------------------------------------------------------------
  // Never

  lemma FitAnswer(g: Ledger, n: Node)
    requires Fit(g, n) && HasAnswer(n)
    ensures g.answers
  {
    hide FitLedger, FitRole, FitConfig, Shape;
    if n.readStates == [] {
      var m :| m in n.msgs && m.mtype == MsgReadIndexResp;
      assert FitMsg(g, m);
    }
  }

  lemma NoAnswer(g: Ledger, c: State, e: Event, c': State)
    requires Held(g, c) && Next(c, e, c') && Answers(c, e)
    ensures g.answers
  {
    hide Fit, FitMsg, Step, Shape, HasAnswer, Grown, StepProofs.IsLocal;
    match e {
      case Deliver(m, lease) =>
        assert FitAt(g, m.to, c.nodes[m.to]);
        var g' := StepFits(g, c.nodes[m.to], m, lease);
        FitAnswer(g', Step(c.nodes[m.to], m, lease));
        MovedAnswers(g, g', c.nodes[m.to], Step(c.nodes[m.to], m, lease));
      case Local(id, m) =>
        assert FitAt(g, id, c.nodes[id]);
        var g' := StepFits(g, c.nodes[id], m, false);
        FitAnswer(g', Step(c.nodes[id], m, false));
        MovedAnswers(g, g', c.nodes[id], Step(c.nodes[id], m, false));
      case _ =>
    }
  }

  lemma MovedAnswers(g: Ledger, g': Ledger, n: Node, n': Node)
    requires Moves(g, g', n, n')
    ensures g'.answers == g.answers
  {
    hide Fit;
  }

  /** Answered at some point of a run. */
  ghost predicate Answered(c0: State, c: State, e: Event, c': State) {
    Reachable(c0, c) && Next(c, e, c') && Answers(c, e)
  }

  lemma AnsweredMay(c0: State, c: State, e: Event, c': State)
    requires Answered(c0, c, e, c')
    ensures AnswersReads(c0)
  {
    hide Run, Held, Grown, Init, Next, Answers, AnswersReads;
    var cs: seq<State>, es: seq<Event> :| Ends(cs, es, c0, c, false);
    assert |cs| == |es| + 1 by { RunIs(cs, es); }
    var gs := RunTracked(cs, es);
    var k := |cs| - 1;
    assert Held(gs[k], cs[k]) && Grown(gs[0], gs[k]);
    NoAnswer(gs[k], c, e, c');
    GrownSets(gs[0], gs[k]);
    StartIs(c0);
  }

  lemma RunIs(cs: seq<State>, es: seq<Event>)
    requires Run(cs, es)
    ensures |cs| == |es| + 1
  {
    hide Init, Next;
  }

  // --------------------------------------------------------------------------
  // A leader's first entry

  const READ := Blank(MsgReadIndex, 0).(entries := [EMPTY_ENTRY])

  /** The empty entry of the first leader. */
  function Noop(boot: Log): Entry { Entry(EntryNormal, First(boot), |boot| + 1, []) }

  /** The append that carries it to p. */
  predicate FirstAppend(m: Message, x: Id, p: Id, boot: Log) {
    && m.mtype == MsgApp && m.from == x && m.to == p && m.term == First(boot)
    && m.index == |boot| && m.logTerm == BootTerm(boot) && m.entries == [Noop(boot)]
  }

  function Ack(p: Id, x: Id, boot: Log): Message {
    Blank(MsgAppResp, x).(from := p, term := First(boot), index := |boot| + 1)
  }

  /** A log of the first entries and the empty one. */
  predicate Extended(l: RLog, boot: Log) {
    l.base == 0 && l.baseTerm == 0 && l.ents == boot + [Noop(boot)]
  }

  lemma ExtendedTerms(l: RLog, boot: Log)
    requires Extended(l, boot) && IsBoot(boot)
    ensures l.LastIndex() == |boot| + 1 && l.Term(|boot|) == BootTerm(boot) && l.Term(|boot| + 1) == First(boot)
  {
  }

  /** The new leader with its entry stored, before it tries to commit. */
  function Storing(n: Node, boot: Log): Node
    requires Shape(n)
  {
    var n0 := StartLeader(n);
    n0.(uncommitted := n0.uncommitted + PayloadSize32([Noop(boot)]), log := n0.log.(ents := n0.log.ents + [Noop(boot)]),
        prs := n0.prs[n.cfg.id := P.MaybeUpdate(n0.prs[n.cfg.id], |boot| + 1)])
  }

  lemma LeadIs(cfg: Config, boot: Log, s: set<Id>)
    requires IsBoot(boot) && Shape(Cand(cfg, boot, s)) && cfg.peers != []
    ensures var n1 := Storing(Cand(cfg, boot, s), boot);
      && BecomeLeader(Cand(cfg, boot, s)) == ReduceUncommitted(NodeSpec.MaybeCommit(n1), [EMPTY_ENTRY])
      && n1.cfg.peers != []
  {
    hide IsBoot, CommitIndex, PayloadSize32, NodeSpec.MaybeCommit, ReduceUncommitted;
    CandFacts(cfg, boot, s);
    BootLog(cfg, boot, |boot|);
    assert Stamp([EMPTY_ENTRY], First(boot), |boot|) == [Noop(boot)];
    assert boot[..|boot|] == boot;
  }

  lemma StoringLed(cfg: Config, boot: Log, s: set<Id>)
    requires IsBoot(boot) && Shape(Cand(cfg, boot, s)) && cfg.peers != []
    ensures var n := Storing(Cand(cfg, boot, s), boot);
      && Led(n, boot) && n.cfg == cfg
      && (forall p :: p in n.prs && p != cfg.id ==> n.prs[p] == P.NewProgress(0, |boot| + 1))
      && (cfg.id in n.prs ==> n.prs[cfg.id].matched == |boot| + 1)
  {
    hide IsBoot, PayloadSize32;
    CandFacts(cfg, boot, s);
    BootLog(cfg, boot, |boot|);
  }

  lemma CommitKeeps(n: Node)
    requires n.cfg.peers != []
    ensures var n' := NodeSpec.MaybeCommit(n);
      && n'.log == n.log.(committed := n'.log.committed) && n'.term == n.term && n'.cfg == n.cfg && n'.role == n.role
      && n'.prs == n.prs
  {
    hide CommitIndex, RLog.Term;
  }

  lemma ReducedSame(n: Node, es: seq<Entry>)
    ensures var n' := ReduceUncommitted(n, es); n' == n.(uncommitted := n'.uncommitted)
  {
    hide PayloadSize32;
  }

  lemma LeadLog(cfg: Config, boot: Log, s: set<Id>)
    requires IsBoot(boot) && Shape(Cand(cfg, boot, s)) && !BecomeLeader(Cand(cfg, boot, s)).fatal && cfg.peers != []
    ensures var n := BecomeLeader(Cand(cfg, boot, s));
      && Extended(n.log, boot) && n.term == First(boot) && n.cfg == cfg && n.role == Leader
      && (forall p :: p in n.prs && p != cfg.id ==> n.prs[p] == P.NewProgress(0, |boot| + 1))
      && (cfg.id in n.prs ==> n.prs[cfg.id].matched == |boot| + 1)
  {
    hide IsBoot, Shape, BecomeLeader, Cand, Storing, NodeSpec.MaybeCommit, ReduceUncommitted, PayloadSize32, First;
    LeadIs(cfg, boot, s);
    StoringLed(cfg, boot, s);
    var n := Storing(Cand(cfg, boot, s), boot);
    CommitKeeps(n);
    ReducedSame(NodeSpec.MaybeCommit(n), [EMPTY_ENTRY]);
  }

  lemma OneFits(e: Entry, limit: nat)
    ensures LimitSize([e], limit) == [e]
  {
  }

  lemma FirstRead(l: RLog, boot: Log, limit: nat)
    requires Extended(l, boot)
    ensures Entries(l, |boot| + 1, limit) == Some([Noop(boot)])
  {
    hide LimitSize;
    assert l.ents[|boot|..|boot| + 1] == [Noop(boot)];
    OneFits(Noop(boot), limit);
  }

  /** An append to one follower leaves the others' records and the log alone. */
  lemma SendElsewhere(n: Node, to: Id, p: Id)
    requires to in n.prs && p in n.prs && p != to
    ensures var n' := SendAppend(n, to);
      && n'.prs.Keys == n.prs.Keys && n'.prs[p] == n.prs[p] && n'.log == n.log && n'.cfg == n.cfg && n'.term == n.term
      && n.msgs <= n'.msgs
  {
    hide SendsAppend, Entries, Send, P.BecomeSnapshot, SentProgress;
    if !n.fatal && SendsAppend(n, to, true) {
      match NextEntries(n, to) {
        case None =>
          SentOnly(SetPr(n, to, P.BecomeSnapshot(n.prs[to], n.log.snap.index)),
            Blank(MsgSnap, to).(snapshot := n.log.snap));
        case Some(es) => SentOnly(SetPr(n, to, SentProgress(n.prs[to], es)), AppendMessage(n, to, es));
      }
    }
  }

  lemma SentOnly(n: Node, m: Message)
    ensures SameButSent(n, Send(n, m)) && n.msgs <= Send(n, m).msgs
  {
  }

  lemma {:induction false} BcastGrows(n: Node, peers: seq<Id>)
    requires forall p :: p in peers ==> p in n.prs
    ensures n.msgs <= BcastAppend(n, peers).msgs && (n.fatal ==> BcastAppend(n, peers).fatal)
    decreases |peers|
  {
    hide MaybeSendAppend;
    if !n.fatal && peers != [] {
      if peers[0] != n.cfg.id {
        SendAppendKeepsShape(n, peers[0], true);
        SendGrows(n, peers[0]);
      }
      BcastGrows(if peers[0] == n.cfg.id then n else SendAppend(n, peers[0]), peers[1..]);
    }
  }

  lemma SendGrows(n: Node, to: Id)
    requires to in n.prs
    ensures n.msgs <= SendAppend(n, to).msgs
  {
    hide SendsAppend, Entries;
  }

  /** A follower the leader knows nothing of is sent the empty entry. */
  lemma SendsFirst(n: Node, p: Id, boot: Log) returns (m: Message)
    requires IsBoot(boot) && Extended(n.log, boot) && n.term == First(boot) && !n.fatal
    requires p in n.prs && n.prs[p] == P.NewProgress(0, |boot| + 1)
    ensures FirstAppend(m, n.cfg.id, p, boot) && (m in SendAppend(n, p).msgs || SendAppend(n, p).fatal)
  {
    hide Entries, IsBoot, Extended;
    FirstRead(n.log, boot, n.cfg.maxMsgSize);
    ExtendedTerms(n.log, boot);
    m := AppendMessage(n, p, [Noop(boot)]).(from := n.cfg.id, term := n.term);
  }

  lemma {:induction false} BcastSends(n: Node, peers: seq<Id>, p: Id, boot: Log) returns (m: Message)
    requires IsBoot(boot) && Extended(n.log, boot) && n.term == First(boot) && p in peers && p != n.cfg.id
    requires (forall q :: q in peers ==> q in n.prs) && n.prs[p] == P.NewProgress(0, |boot| + 1)
    requires forall i, j :: 0 <= i < j < |peers| ==> peers[i] != peers[j]
    requires !BcastAppend(n, peers).fatal
    ensures FirstAppend(m, n.cfg.id, p, boot) && m in BcastAppend(n, peers).msgs
    decreases |peers|
  {
    hide MaybeSendAppend, IsBoot, Extended, FirstAppend, First;
    BcastGrows(n, peers);
    var n1 := if peers[0] == n.cfg.id then n else SendAppend(n, peers[0]);
    if peers[0] != n.cfg.id { SendAppendKeepsShape(n, peers[0], true); }
    BcastGrows(n1, peers[1..]);
    if peers[0] == p {
      m := SendsFirst(n, p, boot);
    } else {
      assert p in peers[1..];
      if peers[0] != n.cfg.id { SendElsewhere(n, peers[0], p); }
      m := BcastSends(n1, peers[1..], p, boot);
    }
  }

  /** The winner's first appends. */
  lemma WinSends(cfg: Config, boot: Log, s: set<Id>, n': Node, p: Id) returns (m: Message)
    requires IsBoot(boot) && ValidConfig(cfg) && Shape(Cand(cfg, boot, s)) && Wins(Cand(cfg, boot, s), n') && !n'.fatal
    requires p in cfg.peers && p != cfg.id
    ensures FirstAppend(m, cfg.id, p, boot) && m in n'.msgs
  {
    hide BecomeLeader, BcastAppend, Cand, IsBoot, Extended, FirstAppend, First, Shape;
    CandFacts(cfg, boot, s);
    var n := BecomeLeader(Cand(cfg, boot, s));
    BcastGrows(n, cfg.peers);
    LeadLog(cfg, boot, s);
    m := BcastSends(n, cfg.peers, p, boot);
  }

  // --------------------------------------------------------------------------
  // A follower takes it

  lemma AppendsFirst(l: RLog, boot: Log, commit: nat)
    requires IsBoot(boot) && l.base == 0 && l.baseTerm == 0 && l.ents == boot && l.committed == |boot|
    ensures MaybeAppend(l, |boot|, BootTerm(boot), commit, [Noop(boot)]).Accepted?
    ensures MaybeAppend(l, |boot|, BootTerm(boot), commit, [Noop(boot)]).last == |boot| + 1
  {
    var e := Noop(boot);
    assert l.Term(|boot|) == BootTerm(boot);
    assert FindConflict(l, [e]) == |boot| + 1;
    assert [e][0..] == [e];
  }

  lemma SupporterIs(cfg: Config, boot: Log, a: nat, x: Id)
    requires ValidConfig(cfg) && IsBoot(boot) && a <= |boot|
    ensures var n := Supporter(cfg, boot, a, x);
      && Shape(n) && n.role == Follower && n.term == First(boot) && !n.fatal && n.cfg == cfg
      && n.log.base == 0 && n.log.baseTerm == 0 && n.log.ents == boot && n.log.committed == |boot|
  {
    BootLog(cfg, boot, a);
  }

  lemma TakesFirst(n: Node, a: nat, x: Id, m: Message, boot: Log)
    requires ValidConfig(n.cfg) && IsBoot(boot) && a <= |boot| && n == Supporter(n.cfg, boot, a, x)
    requires FirstAppend(m, x, n.cfg.id, boot)
    ensures Shape(n) && Ack(n.cfg.id, x, boot) in Step(n, m, false).msgs
  {
    hide IsBoot, MaybeAppend, ValidConfig, Supporter, Shape;
    SupporterIs(n.cfg, boot, a, x);
    AppendsFirst(n.log, boot, m.commit);
  }

  // --------------------------------------------------------------------------
  // The leader counts the acknowledgements

  ghost predicate SameMatch(n: Node, n': Node) {
    && n'.cfg == n.cfg && n'.prs.Keys == n.prs.Keys
    && forall p :: p in n.prs && p in n'.prs ==> n'.prs[p].matched == n.prs[p].matched
  }

  lemma SendSameMatch(n: Node, to: Id, e: bool)
    requires to in n.prs
    ensures SameMatch(n, MaybeSendAppend(n, to, e)) && MaybeSendAppend(n, to, e).log == n.log
  {
    hide SendsAppend, Entries;
  }

  lemma {:induction false} SendAllSameMatch(n: Node, to: Id)
    requires Shape(n) && to in n.prs
    ensures SameMatch(n, SendAll(n, to)) && SendAll(n, to).log == n.log
    decreases Backlog(n, to), if n.fatal then 0 else if P.IsPaused(n.prs[to], n.cfg.maxInflight) then 1 else 2
  {
    hide MaybeSendAppend, Shape, P.IsPaused, Entries;
    if !n.fatal && SendsAppend(n, to, false) {
      SendMakesProgress(n, to);
      SendSameMatch(n, to, false);
      SendAllSameMatch(MaybeSendAppend(n, to, false), to);
    }
  }

  lemma {:induction false} BcastSameMatch(n: Node, peers: seq<Id>)
    requires forall p :: p in peers ==> p in n.prs
    ensures SameMatch(n, BcastAppend(n, peers)) && BcastAppend(n, peers).log == n.log
    decreases |peers|
  {
    hide MaybeSendAppend;
    if !n.fatal && peers != [] {
      if peers[0] != n.cfg.id { SendSameMatch(n, peers[0], true); }
      BcastSameMatch(if peers[0] == n.cfg.id then n else SendAppend(n, peers[0]), peers[1..]);
    }
  }

  lemma {:induction false} BufSame(a: map<Id, P.Progress>, b: map<Id, P.Progress>, peers: seq<Id>)
    requires a.Keys == b.Keys && forall p :: p in a ==> a[p].matched == b[p].matched
    ensures MatchBuf(a, peers) == MatchBuf(b, peers)
  {
    if peers != [] { BufSame(a, b, peers[..|peers| - 1]); }
  }

  lemma {:induction false} BufWithin(prs: map<Id, P.Progress>, peers: seq<Id>, k: nat)
    requires forall p :: p in prs ==> prs[p].matched <= k
    ensures forall i :: 0 <= i < |peers| ==> MatchBuf(prs, peers)[i] <= k
  {
    if peers != [] { BufWithin(prs, peers[..|peers| - 1], k); }
  }

  lemma {:induction false} BufAll(prs: map<Id, P.Progress>, peers: seq<Id>, k: nat)
    requires forall p :: p in peers ==> p in prs && prs[p].matched >= k
    ensures forall i :: 0 <= i < |peers| ==> MatchBuf(prs, peers)[i] >= k
  {
    if peers != [] { BufAll(prs, peers[..|peers| - 1], k); }
  }

  /** Unless the new entry is committed, a majority has not confirmed it. */
  predicate Due(n: Node, k: nat) {
    n.log.committed < k ==> CountGE(MatchBuf(n.prs, n.cfg.peers), k) < NodeQuorum(n)
  }

  lemma DueSame(n: Node, n': Node, k: nat)
    requires SameMatch(n, n') && n'.log == n.log && Due(n, k)
    ensures Due(n', k)
  {
    BufSame(n.prs, n'.prs, n.cfg.peers);
  }

  lemma CommitIndexIs(n: Node, k: nat)
    requires n.cfg.peers != [] && forall p :: p in n.prs ==> n.prs[p].matched <= k
    ensures CommitIndex(n) <= k && (CommitIndex(n) >= k <==> CountGE(MatchBuf(n.prs, n.cfg.peers), k) >= NodeQuorum(n))
  {
    hide MatchBuf, CountGE, QuorumMatch;
    var b := MatchBuf(n.prs, n.cfg.peers);
    BufWithin(n.prs, n.cfg.peers, k);
    PickedCounts(b, k);
    PickedCounts(b, k + 1);
    CountBelow(b, k + 1);
  }

  /** The leader of the first campaign, with its entry in the log. */
  ghost predicate Led(n: Node, boot: Log) {
    && n.role == Leader && n.term == First(boot) && Extended(n.log, boot) && Shape(n) && n.cfg.peers != []
    && forall p :: p in n.prs ==> n.prs[p].matched <= |boot| + 1
  }

  lemma CommitsDue(n: Node, boot: Log)
    requires Led(n, boot) && IsBoot(boot) && !NodeSpec.MaybeCommit(n).fatal
    ensures var n' := NodeSpec.MaybeCommit(n); SameMatch(n, n') && Extended(n'.log, boot) && Due(n', |boot| + 1)
  {
    hide CommitIndex, IsBoot, MatchBuf, CountGE, RLog.Term, Shape, First;
    CommitIndexIs(n, |boot| + 1);
    ExtendedTerms(n.log, boot);
    CommitLog(n.log, CommitIndex(n), n.term);
  }

  lemma CommitLog(l: RLog, k: nat, term: nat)
    ensures var r := RaftLogSpec.MaybeCommit(l, k, term);
      r.Some? ==> r.value == l.(committed := r.value.committed) && (l.Term(k) == term ==> r.value.committed >= k)
  {
    hide RLog.Term;
  }

  lemma NoMore(n: Node)
    requires n.cfg.peers != [] && !CommitsMore(n)
    ensures NodeSpec.MaybeCommit(n) == n
  {
    hide CommitIndex;
  }

  lemma SameMatchTrans(a: Node, b: Node, c: Node)
    requires SameMatch(a, b) && SameMatch(b, c)
    ensures SameMatch(a, c)
  {
  }

  lemma AfterAcceptDue(n: Node, from: Id, paused: bool, boot: Log)
    requires Led(n, boot) && IsBoot(boot) && from in n.prs && !n.fatal && !AfterAccept(n, from, paused).fatal
    ensures var n' := AfterAccept(n, from, paused); SameMatch(n, n') && Extended(n'.log, boot) && Due(n', |boot| + 1)
  {
    hide CommitsMore, NodeSpec.MaybeCommit, IsBoot, MaybeSendAppend, BcastAppend, Extended, Due;
    var k := |boot| + 1;
    var n1 := NodeSpec.MaybeCommit(n);
    if CommitsMore(n) {
      MaybeCommitKeepsShape(n);
      BcastGrows(n1, n.cfg.peers);
      CommitsDue(n, boot);
      BcastSameMatch(n1, n.cfg.peers);
      SameMatchTrans(n, n1, BcastAppend(n1, n.cfg.peers));
      DueSame(n1, BcastAppend(n1, n.cfg.peers), k);
    } else {
      NoMore(n);
      CommitsDue(n, boot);
      SendSameMatch(n, from, true);
      DueSame(n, SendAppend(n, from), k);
    }
  }

  lemma AcceptedMatch(p: P.Progress, k: nat)
    requires p.matched < k
    ensures AcceptedProgress(p, k).matched == k
  {
  }

  lemma {:induction false} SendAllFatal(n: Node, to: Id)
    requires Shape(n) && to in n.prs && n.fatal
    ensures SendAll(n, to) == n
  {
  }

  /** The records after an acknowledgement. */
  ghost predicate Confirmed(n: Node, n': Node, p: Id, boot: Log) {
    && n'.cfg == n.cfg && n'.prs.Keys == n.prs.Keys && Extended(n'.log, boot) && Due(n', |boot| + 1)
    && (forall q :: q in n.prs && q in n'.prs ==> n.prs[q].matched <= n'.prs[q].matched)
    && (p in n'.prs ==> n'.prs[p].matched >= |boot| + 1)
  }

  /** Commit, tell the followers, and send what there is to send. */
  lemma AcceptedDue(n: Node, from: Id, paused: bool, boot: Log)
    requires Led(n, boot) && IsBoot(boot) && from in n.prs && !n.fatal
    ensures var n2 := AfterAccept(n, from, paused); Shape(n2) && from in n2.prs && var n3 := SendAll(n2, from);
      !n3.fatal ==> SameMatch(n, n3) && Extended(n3.log, boot) && Due(n3, |boot| + 1)
  {
    hide AfterAccept, SendAll, IsBoot, Extended, Due, SameMatch;
    AfterAcceptKeepsShape(n, from, paused);
    var n2 := AfterAccept(n, from, paused);
    if n2.fatal {
      SendAllFatal(n2, from);
    } else {
      AfterAcceptDue(n, from, paused, boot);
      SendAllSameMatch(n2, from);
      var n3 := SendAll(n2, from);
      SameMatchTrans(n, n2, n3);
      DueSame(n2, n3, |boot| + 1);
    }
  }

  lemma SentDue(n: Node, n': Node, m: Message, k: nat)
    requires n' == n || n' == Send(n, m)
    ensures SameMatch(n, n') && n'.log == n.log && n'.cfg == n.cfg && (Due(n, k) ==> Due(n', k))
    ensures (n.fatal ==> n'.fatal)
  {
    hide MatchBuf, CountGE;
  }

  lemma AppRespAccepts(n: Node, m: Message)
    requires Shape(n) && m.from in n.prs && !n.fatal && !m.reject && n.prs[m.from].matched < m.index
    ensures var pr := n.prs[m.from].(recentActive := true); var n1 := SetPr(n, m.from, AcceptedProgress(pr, m.index));
      var n2 := AfterAccept(n1, m.from, P.IsPaused(pr, n.cfg.maxInflight));
      && Shape(n1) && Shape(n2) && m.from in n2.prs
      && (|| AppResp(n, m) == SendAll(n2, m.from)
          || AppResp(n, m) == Send(SendAll(n2, m.from), Blank(MsgTimeoutNow, m.from)))
  {
    hide AfterAccept, SendAll, AcceptedProgress, P.IsPaused, P.MaybeDecreaseTo, P.MaybeUpdate;
    var pr := n.prs[m.from].(recentActive := true);
    AfterAcceptKeepsShape(SetPr(n, m.from, AcceptedProgress(pr, m.index)), m.from, P.IsPaused(pr, n.cfg.maxInflight));
  }

  lemma AcceptedLed(n: Node, boot: Log, p: Id)
    requires Led(n, boot) && p in n.prs && n.prs[p].matched < |boot| + 1
    ensures var pr := n.prs[p].(recentActive := true); Led(SetPr(n, p, AcceptedProgress(pr, |boot| + 1)), boot)
  {
    AcceptedMatch(n.prs[p].(recentActive := true), |boot| + 1);
    hide AcceptedProgress, Extended;
  }

  /** An acknowledgement that is news. */
  lemma AcceptsAck(n: Node, boot: Log, p: Id, m: Message)
    requires Led(n, boot) && IsBoot(boot) && !n.fatal && p in n.prs && n.prs[p].matched < |boot| + 1
    requires m == Ack(p, n.cfg.id, boot) && !AppResp(n, m).fatal
    ensures Confirmed(n, AppResp(n, m), p, boot)
  {
    hide AfterAccept, SendAll, IsBoot, Extended, Due, AcceptedProgress, AppResp, Send, P.IsPaused;
    var k := |boot| + 1;
    var pr := n.prs[p].(recentActive := true);
    var n1 := SetPr(n, p, AcceptedProgress(pr, k));
    AcceptedMatch(pr, k);
    AcceptedLed(n, boot, p);
    var paused := P.IsPaused(pr, n.cfg.maxInflight);
    AppRespAccepts(n, m);
    AcceptedDue(n1, p, paused, boot);
    var n3 := SendAll(AfterAccept(n1, p, paused), p);
    SentDue(n3, AppResp(n, m), Blank(MsgTimeoutNow, p), k);
    SameMatchTrans(n1, n3, AppResp(n, m));
  }

  /** Any acknowledgement of the new entry. */
  lemma TakesAck(n: Node, boot: Log, p: Id)
    requires Led(n, boot) && IsBoot(boot) && !n.fatal && p in n.prs && Due(n, |boot| + 1)
    requires !Step(n, Ack(p, n.cfg.id, boot), false).fatal
    ensures Confirmed(n, Step(n, Ack(p, n.cfg.id, boot), false), p, boot)
  {
    hide AppResp, IsBoot, Extended, Due;
    var m := Ack(p, n.cfg.id, boot);
    assert Step(n, m, false) == AppResp(n, m);
    if n.prs[p].matched < |boot| + 1 {
      AcceptsAck(n, boot, p, m);
    } else {
      OldAck(n, m);
      DueSame(n, AppResp(n, m), |boot| + 1);
    }
  }

  lemma OldAck(n: Node, m: Message)
    requires Shape(n) && m.from in n.prs && !m.reject && m.index <= n.prs[m.from].matched
    ensures SameMatch(n, AppResp(n, m)) && AppResp(n, m).log == n.log
  {
    hide AfterAccept, SendAll, AcceptedProgress, P.MaybeDecreaseTo;
  }

  /** Once all have confirmed it, the entry is committed, and a lease is enough to answer a read. */
  lemma LeaseAnswers(n: Node, boot: Log)
    requires Led(n, boot) && IsBoot(boot) && !n.fatal && Due(n, |boot| + 1) && n.log.committed <= |boot| + 1
    requires n.cfg.readOnlyOption == ReadOnlyLeaseBased
    requires forall p :: p in n.cfg.peers ==> p in n.prs && n.prs[p].matched >= |boot| + 1
    ensures HasAnswer(Step(n, READ, false))
  {
    hide IsBoot, Extended, MatchBuf, CountGE, RLog.Term;
    var b := MatchBuf(n.prs, n.cfg.peers);
    BufAll(n.prs, n.cfg.peers, |boot| + 1);
    CountAll(b, |boot| + 1);
    ExtendedTerms(n.log, boot);
    assert Step(n, READ, false) == LeaderReadIndex(n, READ);
  }

  /** A leader that is alone answers at once. */
  lemma AloneAnswers(n: Node)
    requires Shape(n) && n.role == Leader && !n.fatal && |n.cfg.peers| == 1
    ensures HasAnswer(Step(n, READ, false))
  {
    assert Step(n, READ, false) == LeaderReadIndex(n, READ);
  }

  // --------------------------------------------------------------------------
  // The run that answers a read

  lemma CleanFacts(c0: State, c: State, x: Id)
    requires Reaches(c0, c, true) && x in c.nodes
    ensures var n := c.nodes[x];
      && !n.fatal && Shape(n) && n.log.committed <= n.log.LastIndex()
      && (n.role == Leader ==> forall p :: p in n.prs ==> n.prs[p].matched <= n.log.LastIndex())
  {
    hide Run, AllCounted, Shape, P.WindowOk;
    var cs: seq<State>, es: seq<Event> :| Ends(cs, es, c0, c, true);
    RunIs(cs, es);
    var k := |cs| - 1;
    Safety.NeverFatal(cs, es, k, x);
    var n := c.nodes[x];
    if n.role == Leader {
      forall p | p in n.prs ensures n.prs[p].matched <= n.log.LastIndex() { Safety.WindowInOrder(cs, es, k, x, p); }
    }
  }

  lemma StageClean(c0: State, boot: Log, c: State, x: Id)
    requires Stage(c0, boot, c, true) && x in c.nodes
    ensures var n := c.nodes[x];
      && !n.fatal && Shape(n) && n.log.committed <= n.log.LastIndex()
      && (n.role == Leader ==> forall p :: p in n.prs ==> n.prs[p].matched <= n.log.LastIndex())
  {
    hide Shape, StartsWith;
    CleanFacts(c0, c, x);
  }

  /** x asks for pre-votes first if it is configured to, and then for votes. */
  lemma Runs(c0: State, boot: Log, c: State, x: Id) returns (c': State)
    requires Stage(c0, boot, c, true) && |c.nodes.Keys| >= 2 && x in c.nodes
    requires c.nodes[x] == Fresh(c.nodes[x].cfg, boot, |boot|)
    requires forall p :: p in c.nodes && p != x ==> IsFresh(c.nodes[p], boot)
    ensures Stage(c0, boot, c', true) && Only(c, c', x) && c'.nodes[x] == Cand(c.nodes[x].cfg, boot, {x})
    ensures forall p :: p in c.nodes && p != x ==> Ask(MsgVote, x, p, boot) in c'.net
  {
    hide Stage, Fresh, Pre, Cand, IsFresh, Idle, Yes, Ask;
    var others := c.nodes.Keys - {x};
    if c.nodes[x].cfg.preVote {
      var c1 := RunPreHup(c0, boot, c, true, x);
      forall p | p in others ensures Idle(c1.nodes[p], boot) { FreshIdle(c.nodes[p], boot); }
      var c2 := RunPreGrants(c0, boot, c1, true, x, others);
      StageConfig(c0, boot, c, true, x);
      PreFacts(c.nodes[x].cfg, boot, {x});
      OthersCount(c.nodes.Keys, x);
      c' := RunPre(c0, boot, c2, true, x, {x}, others);
      OnlyTrans(c, c1, c2, x);
      OnlyTrans(c, c2, c', x);
    } else {
      c' := RunCandHup(c0, boot, c, true, x);
    }
  }

  lemma FreshIdle(n: Node, boot: Log)
    requires IsFresh(n, boot)
    ensures Idle(n, boot)
  {
  }

  ghost predicate HasAppend(net: set<Message>, x: Id, p: Id, boot: Log) {
    exists m :: m in net && FirstAppend(m, x, p, boot)
  }

  predicate Supports(n: Node, x: Id, boot: Log) {
    n.log.applied <= |boot| && n == Supporter(n.cfg, boot, n.log.applied, x)
  }

  /** x leads, the others voted for it, and its first appends are out. */
  ghost predicate Elected(c: State, x: Id, boot: Log, ps: set<Id>) {
    && x in c.nodes && x !in ps && ps <= c.nodes.Keys
    && (forall p :: p in ps ==> HasAppend(c.net, x, p, boot) && Supports(c.nodes[p], x, boot))
  }

  /** x leads with its entry, which is committed as soon as a majority has confirmed it. */
  ghost predicate Counting(n: Node, boot: Log) {
    Led(n, boot) && Due(n, |boot| + 1) && !n.fatal && n.cfg.id in n.prs && n.prs[n.cfg.id].matched >= |boot| + 1
  }

  lemma WonCounting(cfg: Config, boot: Log, won: set<Id>, n': Node)
    requires IsBoot(boot) && ValidConfig(cfg) && Shape(Cand(cfg, boot, won)) && Wins(Cand(cfg, boot, won), n')
    requires !n'.fatal
    requires forall p :: p in n'.prs ==> n'.prs[p].matched <= |boot| + 1
    ensures Counting(Drain(n'), boot)
  {
    hide BecomeLeader, BcastAppend, Cand, IsBoot, Extended, Shape, Due;
    CandFacts(cfg, boot, won);
    var l := BecomeLeader(Cand(cfg, boot, won));
    BcastGrows(l, cfg.peers);
    LeadLog(cfg, boot, won);
    BcastKeepsShape(l, cfg.peers);
    BcastSameMatch(l, cfg.peers);
    BecomeLeaderKeepsShape(Cand(cfg, boot, won));
    LeadDue(cfg, boot, won);
    DueSame(l, n', |boot| + 1);
    DrainedLed(n', boot);
  }

  lemma DrainedLed(n: Node, boot: Log)
    requires Counting(n, boot)
    ensures Counting(Drain(n), boot)
  {
    hide MatchBuf, CountGE;
  }

  lemma LeadDue(cfg: Config, boot: Log, s: set<Id>)
    requires IsBoot(boot) && ValidConfig(cfg) && Shape(Cand(cfg, boot, s)) && !BecomeLeader(Cand(cfg, boot, s)).fatal
    ensures Due(BecomeLeader(Cand(cfg, boot, s)), |boot| + 1)
  {
    hide IsBoot, Shape, BecomeLeader, Cand, Storing, NodeSpec.MaybeCommit, Due, Led, PayloadSize32;
    var n1 := Storing(Cand(cfg, boot, s), boot);
    LeadIs(cfg, boot, s);
    StoringLed(cfg, boot, s);
    CommitsDue(n1, boot);
    ReducedDue(NodeSpec.MaybeCommit(n1), |boot| + 1);
  }

  lemma ReducedDue(n: Node, k: nat)
    ensures var n' := ReduceUncommitted(n, [EMPTY_ENTRY]); (Due(n, k) ==> Due(n', k)) && n'.fatal == n.fatal
  {
    hide MatchBuf, CountGE, PayloadSize32;
  }

  /** Everybody else votes for x. */
  lemma Backs(c0: State, boot: Log, x: Id) returns (c: State)
    requires StartsWith(c0, boot) && |c0.nodes.Keys| >= 2 && x in c0.nodes
    ensures Stage(c0, boot, c, true) && c.nodes.Keys == c0.nodes.Keys && c.nodes[x] == Cand(c0.nodes[x].cfg, boot, {x})
    ensures forall p :: p in c0.nodes && p != x ==>
      Yes(MsgVoteResp, p, x, boot) in c.net && Supports(c.nodes[p], x, boot)
  {
    hide Stage, Fresh, IsFresh, StartsWith, Cand, Yes, Ask, Supporter, Supports;
    Schedules.Started(c0, boot, true);
    var others := c0.nodes.Keys - {x};
    var c1 := Applied(c0, boot, c0, true, x);
    FreshCfg(c0.nodes[x].cfg, boot);
    var c2 := Runs(c0, boot, c1, x);
    c := RunVotes(c0, boot, c2, true, x, others);
    forall p | p in others ensures Supports(c.nodes[p], x, boot) { FreshSupports(c0.nodes[p], x, boot); }
  }

  lemma Leads(c0: State, boot: Log, x: Id) returns (c: State)
    requires StartsWith(c0, boot) && |c0.nodes.Keys| >= 2 && x in c0.nodes
    ensures Stage(c0, boot, c, true) && Elected(c, x, boot, c0.nodes.Keys - {x}) && Counting(c.nodes[x], boot)
  {
    hide Stage, StartsWith, Cand, Yes, Wins, Supports, Shape, IsBoot, Counting, ValidConfig, FirstAppend;
    var others := c0.nodes.Keys - {x};
    var c1 := Backs(c0, boot, x);
    StageConfig(c0, boot, c1, true, x);
    var cfg := c0.nodes[x].cfg;
    CandFacts(cfg, boot, {x});
    OthersCount(c0.nodes.Keys, x);
    var n', won;
    c, n', won := RunWin(c0, boot, c1, true, x, MsgVoteResp, {x}, others);
    WonFacts(c0, boot, c, x, cfg, won, n');
    forall p | p in others ensures HasAppend(c.net, x, p, boot) {
      var m := WinSends(cfg, boot, won, n', p);
      assert m in Outbox(n');
    }
  }

  lemma FreshCfg(cfg: Config, boot: Log)
    ensures Fresh(cfg, boot, |boot|).cfg == cfg
  {
  }

  lemma FreshSupports(n: Node, x: Id, boot: Log)
    requires IsFresh(n, boot)
    ensures Supports(Supporter(n.cfg, boot, n.log.applied, x), x, boot)
  {
  }

  lemma WonFacts(c0: State, boot: Log, c: State, x: Id, cfg: Config, won: set<Id>, n': Node)
    requires Stage(c0, boot, c, true) && x in c.nodes && c.nodes[x] == Drain(n') && IsBoot(boot) && ValidConfig(cfg)
    requires Shape(Cand(cfg, boot, won)) && Wins(Cand(cfg, boot, won), n')
    ensures !n'.fatal && Counting(c.nodes[x], boot)
  {
    hide Stage, Cand, Wins, Shape, IsBoot, Counting;
    StageClean(c0, boot, c, x);
    WonEnds(cfg, boot, won, n');
    WonCounting(cfg, boot, won, n');
  }

  lemma WonEnds(cfg: Config, boot: Log, won: set<Id>, n': Node)
    requires IsBoot(boot) && Shape(Cand(cfg, boot, won)) && Wins(Cand(cfg, boot, won), n') && !n'.fatal
    requires cfg.peers != []
    ensures n'.log.LastIndex() == |boot| + 1 && n'.role == Leader
    ensures Drain(n').fatal == n'.fatal && Drain(n').prs == n'.prs && Drain(n').log.LastIndex() == n'.log.LastIndex()
    ensures Drain(n').role == n'.role
  {
    hide BecomeLeader, BcastAppend, Cand, IsBoot, Shape;
    CandFacts(cfg, boot, won);
    var l := BecomeLeader(Cand(cfg, boot, won));
    BcastGrows(l, cfg.peers);
    LeadLog(cfg, boot, won);
    BcastSameMatch(l, cfg.peers);
  }

  /** Every follower of ps takes the entry and acknowledges it. */
  lemma {:induction false} RunAcks(c0: State, boot: Log, c: State, x: Id, ps: set<Id>) returns (c': State)
    requires Stage(c0, boot, c, true) && Elected(c, x, boot, ps)
    ensures Stage(c0, boot, c', true) && OnlyIn(c, c', ps) && forall p :: p in ps ==> Ack(p, x, boot) in c'.net
    decreases |ps|
  {
    hide Stage, Ack, FirstAppend, Supporter, Step, Shape, Drain, ValidConfig, IsBoot;
    c' := c;
    if ps != {} {
      var p :| p in ps;
      StageConfig(c0, boot, c, true, p);
      var m :| m in c.net && FirstAppend(m, x, p, boot);
      TakesFirst(c.nodes[p], c.nodes[p].log.applied, x, m, boot);
      AppendTo(m, x, p, boot);
      var n' := Step(c.nodes[p], m, false);
      var c1 := Delivered(c0, boot, c, true, m);
      assert Ack(p, x, boot) in Outbox(n');
      StillElected(c, c1, x, boot, ps, p);
      c' := RunAcks(c0, boot, c1, x, ps - {p});
    }
  }

  lemma AppendTo(m: Message, x: Id, p: Id, boot: Log)
    requires FirstAppend(m, x, p, boot)
    ensures m.to == p && m.mtype == MsgApp
  {
  }

  lemma StillElected(c: State, c': State, x: Id, boot: Log, ps: set<Id>, p: Id)
    requires Elected(c, x, boot, ps) && Only(c, c', p) && p in ps
    ensures Elected(c', x, boot, ps - {p})
  {
    hide Supports, FirstAppend;
    forall q | q in ps - {p} ensures HasAppend(c'.net, x, q, boot) {
      var m :| m in c.net && FirstAppend(m, x, q, boot);
      assert m in c'.net;
    }
  }

  /** x has counted the acknowledgements of done. */
  ghost predicate Heard(n: Node, boot: Log, done: set<Id>) {
    Counting(n, boot) && forall p :: p in done ==> p in n.prs && n.prs[p].matched >= |boot| + 1
  }

  /** One more acknowledgement. */
  lemma CountsOne(c0: State, boot: Log, c: State, x: Id, done: set<Id>, p: Id) returns (c': State)
    requires Stage(c0, boot, c, true) && x in c.nodes && p in c.nodes && Heard(c.nodes[x], boot, done)
    requires Ack(p, x, boot) in c.net
    ensures Stage(c0, boot, c', true) && Only(c, c', x) && Heard(c'.nodes[x], boot, done + {p})
  {
    hide Stage, Ack, Heard, Step, Shape, Drain, ValidConfig, IsBoot;
    AckIs(p, x, boot);
    StageConfig(c0, boot, c, true, x);
    StageClean(c0, boot, c, x);
    c' := Delivered(c0, boot, c, true, Ack(p, x, boot));
    StageClean(c0, boot, c', x);
    PeersThere(c.nodes[x], p);
    HeardMore(c.nodes[x], c'.nodes[x], boot, done, p);
  }

  lemma {:induction false} RunCounts(c0: State, boot: Log, c: State, x: Id, done: set<Id>, ps: set<Id>)
    returns (c': State)
    requires Stage(c0, boot, c, true) && x in c.nodes && ps <= c.nodes.Keys && Heard(c.nodes[x], boot, done)
    requires forall p :: p in ps ==> Ack(p, x, boot) in c.net
    ensures Stage(c0, boot, c', true) && Only(c, c', x) && Heard(c'.nodes[x], boot, done + ps)
    decreases |ps|
  {
    hide Stage, Ack, Heard;
    c' := c;
    if ps == {} {
      assert done + ps == done;
    } else {
      var p :| p in ps;
      var c1 := CountsOne(c0, boot, c, x, done, p);
      c' := RunCounts(c0, boot, c1, x, done + {p}, ps - {p});
      assert done + {p} + (ps - {p}) == done + ps;
      OnlyTrans(c, c1, c', x);
    }
  }

  lemma AckIs(p: Id, x: Id, boot: Log)
    ensures Ack(p, x, boot).to == x && Ack(p, x, boot).mtype == MsgAppResp
  {
  }

  lemma PeersThere(n: Node, p: Id)
    requires Shape(n) && p in n.cfg.peers
    ensures p in n.prs
  {
  }

  lemma HeardMore(n: Node, c: Node, boot: Log, done: set<Id>, p: Id)
    requires Heard(n, boot, done) && IsBoot(boot) && p in n.prs && Shape(n)
    requires c == Drain(Step(n, Ack(p, n.cfg.id, boot), false)) && !c.fatal && Shape(c)
    requires c.role == Leader ==> forall q :: q in c.prs ==> c.prs[q].matched <= c.log.LastIndex()
    ensures Heard(c, boot, done + {p})
  {
    hide IsBoot, Due, Extended, Step, Shape;
    var n' := Step(n, Ack(p, n.cfg.id, boot), false);
    DrainedSame(n', boot);
    TakesAck(n, boot, p);
    StillLeads(n, boot, p);
    ExtendedTerms(n'.log, boot);
  }

  lemma DrainedSame(n: Node, boot: Log)
    ensures var c := Drain(n);
      && c.fatal == n.fatal && c.prs == n.prs && c.role == n.role && c.term == n.term && c.cfg == n.cfg
      && c.log.LastIndex() == n.log.LastIndex()
      && (Extended(n.log, boot) ==> Extended(c.log, boot)) && (Due(n, |boot| + 1) ==> Due(c, |boot| + 1))
  {
    hide MatchBuf, CountGE;
  }

  lemma StillLeads(n: Node, boot: Log, p: Id)
    requires Led(n, boot) && !n.fatal && p in n.prs
    ensures var n' := Step(n, Ack(p, n.cfg.id, boot), false); n'.role == Leader && n'.term == n.term
  {
    hide AppResp, Extended;
    var m := Ack(p, n.cfg.id, boot);
    assert Step(n, m, false) == AppResp(n, m);
    AppRespAhead(n, m);
  }

  lemma ReadLocal()
    ensures StepProofs.IsLocal(READ)
  {
  }

  /** A lease-based node that has been elected, and has had its first entry confirmed, answers. */
  lemma LeaseRun(c0: State, boot: Log, x: Id) returns (c: State, e: Event, c': State)
    requires StartsWith(c0, boot) && |c0.nodes.Keys| >= 2 && x in c0.nodes
    requires c0.nodes[x].cfg.readOnlyOption == ReadOnlyLeaseBased
    ensures Answered(c0, c, e, c')
  {
    hide Stage, StartsWith, Counting, Supports, HasAppend, Ack, Step, Shape, Drain, ValidConfig, IsBoot, HasAnswer;
    var others := c0.nodes.Keys - {x};
    var c1 := Leads(c0, boot, x);
    var c2 := RunAcks(c0, boot, c1, x, others);
    assert Heard(c2.nodes[x], boot, {});
    c := RunCounts(c0, boot, c2, x, {}, others);
    StageConfig(c0, boot, c, true, x);
    StageClean(c0, boot, c, x);
    AllHeard(c.nodes[x], boot, {} + others);
    LeaseAnswers(c.nodes[x], boot);
    e := Local(x, READ);
    c' := AnswersNow(c0, boot, c, x);
  }

  lemma AllHeard(n: Node, boot: Log, done: set<Id>)
    requires Heard(n, boot, done) && (forall p :: p in n.cfg.peers && p != n.cfg.id ==> p in done)
    requires n.log.committed <= n.log.LastIndex()
    ensures Led(n, boot) && !n.fatal && Due(n, |boot| + 1) && n.log.committed <= |boot| + 1
    ensures forall p :: p in n.cfg.peers ==> p in n.prs && n.prs[p].matched >= |boot| + 1
  {
    hide Due;
  }

  lemma AnswersNow(c0: State, boot: Log, c: State, x: Id) returns (c': State)
    requires Stage(c0, boot, c, true) && x in c.nodes && Shape(c.nodes[x]) && HasAnswer(Step(c.nodes[x], READ, false))
    ensures Answered(c0, c, Local(x, READ), c')
  {
    hide StartsWith, Step, Shape, HasAnswer, Reaches, Run;
    ReadLocal();
    c' := Replace(c, x, Step(c.nodes[x], READ, false));
    CleanReach(c0, c);
  }

  lemma CleanReach(c0: State, c: State)
    requires Reaches(c0, c, true)
    ensures Reachable(c0, c)
  {
    hide Run, AllCounted;
    var cs: seq<State>, es: seq<Event> :| Ends(cs, es, c0, c, true);
    assert Ends(cs, es, c0, c, false);
  }

  lemma AloneLeads(cfg: Config, boot: Log)
    requires ValidConfig(cfg) && IsBoot(boot) && |cfg.peers| == 1
    ensures var n := Fresh(cfg, boot, |boot|); Shape(n) && Drain(Step(n, HUP, false)).role == Leader
  {
    hide IsBoot, Step, Shape, Fresh, BecomeLeader, Cand, Granted, ValidConfig;
    HupOpens(cfg, boot);
    FormSettled(cfg, boot, |boot|, {cfg.id});
    FreshLive(cfg, boot);
    var n := Fresh(cfg, boot, |boot|);
    AloneElects(n, cfg, boot);
    var c := Poll(BecomePreCandidate(n), cfg.id, true);
    AloneCounts(n);
    AloneElects(c, cfg, boot);
  }

  lemma AloneCounts(n: Node)
    requires !n.fatal && n.role == Follower && n.lead == 0 && Shape(n)
    ensures var c := Poll(BecomePreCandidate(n), n.cfg.id, true);
      Granted(c) == 1 && c == n.(role := c.role, votes := c.votes) && c.role == PreCandidate && Shape(c)
  {
    LocalInv.CountOne(Poll(BecomePreCandidate(n), n.cfg.id, true));
  }

  lemma AloneElects(n: Node, cfg: Config, boot: Log)
    requires ValidConfig(cfg) && IsBoot(boot) && |cfg.peers| == 1 && Shape(n)
    requires n == Fresh(cfg, boot, |boot|).(role := n.role, votes := n.votes) && n.role != Leader
    ensures NodeSpec.Elect(n, false).role == Leader
  {
    hide IsBoot, Shape, Cand, Fresh, BecomeCandidate, Poll, Granted, AppendEntry, Stamp, FitsUncommitted,
      PayloadSize32, ValidConfig;
    CandIs(n, cfg, boot);
    CandFacts(cfg, boot, {cfg.id});
    FormSettled(cfg, boot, |boot|, {cfg.id});
    var c := Cand(cfg, boot, {cfg.id});
    LeaderNow(c);
  }

  /** A node that is alone elects itself and answers. */
  lemma AloneRun(c0: State, boot: Log, x: Id) returns (c: State, e: Event, c': State)
    requires StartsWith(c0, boot) && |c0.nodes.Keys| == 1 && x in c0.nodes
    ensures Answered(c0, c, e, c')
  {
    hide Stage, StartsWith, Step, Shape, Drain, ValidConfig, IsBoot, HasAnswer, Fresh;
    Schedules.Started(c0, boot, true);
    var c1 := Applied(c0, boot, c0, true, x);
    StageConfig(c0, boot, c1, true, x);
    FreshCfg(c0.nodes[x].cfg, boot);
    AloneLeads(c1.nodes[x].cfg, boot);
    HupLocal();
    c := Called(c0, boot, c1, true, x, HUP);
    StageClean(c0, boot, c, x);
    StageConfig(c0, boot, c, true, x);
    AloneAnswers(c.nodes[x]);
    e := Local(x, READ);
    c' := AnswersNow(c0, boot, c, x);
  }

  lemma HupLocal()
    ensures StepProofs.IsLocal(HUP)
  {
  }

  /**
   Over all runs: a read request is answered in some run if and only if some node answers on a lease or there is a
   single voter. In every other cluster - the server's own configuration - ReadIndex never completes.
   */
  lemma ReadsCompleteIff(c0: State)
    requires Init(c0)
    ensures (exists c, e, c' :: Answered(c0, c, e, c')) <==> AnswersReads(c0)
  {
    hide Init, Answered, StartsWith;
    if c, e, c' :| Answered(c0, c, e, c') {
      AnsweredMay(c0, c, e, c');
    }
    if AnswersReads(c0) {
      var boot := BootOf(c0);
      var x :| x in c0.nodes && MayAnswer(c0.nodes[x].cfg);
      Schedules.StartConfig(c0, boot, x);
      assert |c0.nodes.Keys| >= 1;
      if |c0.nodes.Keys| == 1 {
        var c, e, c' := AloneRun(c0, boot, x);
      } else {
        var c, e, c' := LeaseRun(c0, boot, x);
      }
    }
  }
}
