/**
 One Raft node as a value, and what each handler of raft.cpp does to it. A LOG_FATAL of the source, or an
 access it makes outside a container, sets fatal; a node that is fatal takes no further step.
 */
module NodeSpec {
  import opened Proto
  import opened Quorum
  import opened QuorumIndex
  import opened RaftLogSpec
  import P = ProgressSpec
  import R = ReadOnlySpec

  datatype Role = Follower | PreCandidate | Candidate | Leader

  datatype CampaignType = CampaignPreElection | CampaignElection | CampaignTransfer

  datatype ReadOnlyOption = ReadOnlySafe | ReadOnlyLeaseBased

  /** Configuration. peers lists the voters in the (fixed) iteration order of the progress map. */
  datatype Config = Config(
    id: Id, peers: seq<Id>, preVote: bool, checkQuorum: bool,
    maxMsgSize: nat, maxUncommitted: nat, maxInflight: nat,
    disableForwarding: bool, readOnlyOption: ReadOnlyOption)

  datatype Node = Node(
    cfg: Config, term: nat, vote: Id, lead: Id, role: Role,
    log: RLog, prs: map<Id, P.Progress>, votes: map<Id, bool>,
    msgs: seq<Message>, transferee: Id, pendingConf: nat, uncommitted: nat,
    readOnly: R.ReadOnly, readStates: seq<R.ReadState>, fatal: bool)

  /** The context that marks a vote request as part of a leadership transfer. */
  const TRANSFER: seq<byte> := [67, 97, 109, 112, 97, 105, 103, 110, 84, 114, 97, 110, 115, 102, 101, 114]

  ghost predicate ValidConfig(c: Config) {
    && c.id != 0 && c.id in c.peers && 0 !in c.peers && c.maxInflight > 0
    && (forall i, j :: 0 <= i < j < |c.peers| ==> c.peers[i] != c.peers[j])
  }

  /** The progress map has exactly the voters, and the log is numbered. */
  ghost predicate Shape(n: Node) {
    n.cfg.id in n.cfg.peers && (forall p :: p in n.prs <==> p in n.cfg.peers) && n.log.Numbered()
  }

  function Die(n: Node): Node { n.(fatal := true) }

  function NodeQuorum(n: Node): nat { QuorumSize(|n.cfg.peers|) }

  predicate IsVoteKind(t: MessageType) {
    t == MsgVote || t == MsgVoteResp || t == MsgPreVote || t == MsgPreVoteResp
  }

  function Send(n: Node, m: Message): Node {
    if n.fatal then n
    else if IsVoteKind(m.mtype) then
      if m.term == 0 then Die(n) else n.(msgs := n.msgs + [m.(from := n.cfg.id)])
    else if m.term != 0 then Die(n)
    else
      var t := if m.mtype == MsgProp || m.mtype == MsgReadIndex then 0 else n.term;
      n.(msgs := n.msgs + [m.(from := n.cfg.id, term := t)])
  }

  // --------------------------------------------------------------------------
  // Changing role

  function FreshProgress(n: Node): map<Id, P.Progress> {
    map p | p in n.prs :: P.NewProgress(if p == n.cfg.id then n.log.LastIndex() else 0, n.log.LastIndex() + 1)
  }

  function Reset(n: Node, term: nat): Node {
    n.(term := term, vote := if n.term != term then 0 else n.vote,
       lead := 0, transferee := 0, votes := map[], prs := FreshProgress(n),
       pendingConf := 0, uncommitted := 0, readOnly := R.EMPTY)
  }

  function BecomeFollower(n: Node, term: nat, lead: Id): Node {
    if n.fatal then n else Reset(n, term).(lead := lead, role := Follower)
  }

  function BecomeCandidate(n: Node): Node {
    if n.fatal then n
    else if n.role == Leader then Die(n)
    else Reset(n, n.term + 1).(vote := n.cfg.id, role := Candidate)
  }

  function BecomePreCandidate(n: Node): Node {
    if n.fatal then n
    else if n.role == Leader then Die(n)
    else n.(votes := map[], lead := 0, role := PreCandidate)
  }

  function PayloadSize(es: seq<Entry>): nat {
    if es == [] then 0 else PayloadSize(es[..|es| - 1]) + |es[|es| - 1].data|
  }

  /** The running sum is kept in 32 bits. */
  function PayloadSize32(es: seq<Entry>): nat { PayloadSize(es) % 0x1_0000_0000 }

  predicate FitsUncommitted(n: Node, es: seq<Entry>) {
    !(n.uncommitted > 0 && n.uncommitted + PayloadSize32(es) > n.cfg.maxUncommitted)
  }

  function ReduceUncommitted(n: Node, es: seq<Entry>): Node {
    if n.fatal || n.uncommitted == 0 then n
    else if PayloadSize32(es) > n.uncommitted then n.(uncommitted := 0)
    else n.(uncommitted := n.uncommitted - PayloadSize32(es))
  }

  /** The match values in the iteration order of the progress map. */
  function MatchBuf(prs: map<Id, P.Progress>, peers: seq<Id>): (r: seq<nat>)
    ensures |r| == |peers|
  {
    if peers == [] then []
    else
      var last := peers[|peers| - 1];
      MatchBuf(prs, peers[..|peers| - 1]) + [if last in prs then prs[last].matched else 0]
  }

  function CommitIndex(n: Node): nat
    requires n.cfg.peers != []
  {
    QuorumMatch(MatchBuf(n.prs, n.cfg.peers))
  }

  predicate CommitsMore(n: Node)
    requires n.cfg.peers != []
  {
    WouldCommit(n.log, CommitIndex(n), n.term)
  }

  function MaybeCommit(n: Node): (r: Node)
    requires n.cfg.peers != []
  {
    if n.fatal then n
    else
      match RaftLogSpec.MaybeCommit(n.log, CommitIndex(n), n.term)
      case None => Die(n)
      case Some(l) => n.(log := l)
  }

  function Stamp(es: seq<Entry>, term: nat, last: nat): (r: seq<Entry>)
    ensures |r| == |es|
    ensures forall i :: 0 <= i < |es| ==> r[i].term == term && r[i].index == last + 1 + i
    ensures forall i :: 0 <= i < |es| ==> r[i].data == es[i].data && r[i].etype == es[i].etype
  {
    seq(|es|, i requires 0 <= i < |es| => Entry(es[i].etype, term, last + 1 + i, es[i].data))
  }

  function AppendEntry(n: Node, es: seq<Entry>): Node
    requires Shape(n)
  {
    if n.fatal || !FitsUncommitted(n, Stamp(es, n.term, n.log.LastIndex())) then n
    else
      var stamped := Stamp(es, n.term, n.log.LastIndex());
      var n1 := n.(uncommitted := n.uncommitted + PayloadSize32(stamped));
      match Append(n1.log, stamped)
      case None => Die(n1)
      case Some(l) =>
        var me := n.cfg.id;
        MaybeCommit(n1.(log := l, prs := n1.prs[me := P.MaybeUpdate(n1.prs[me], l.LastIndex())]))
  }

  const EMPTY_ENTRY := Entry(EntryNormal, 0, 0, [])

  /** What become_leader does before it appends the empty entry of its term. */
  function StartLeader(n: Node): Node
    requires Shape(n)
  {
    var n1 := Reset(n, n.term);
    var me := n.cfg.id;
    n1.(lead := me, role := Leader, prs := n1.prs[me := P.BecomeReplicate(n1.prs[me])],
      pendingConf := n1.log.LastIndex())
  }

  function BecomeLeader(n: Node): Node
    requires Shape(n)
  {
    if n.fatal then n
    else if n.role == Follower then Die(n)
    else
      var n1 := StartLeader(n);
      if !FitsUncommitted(n1, Stamp([EMPTY_ENTRY], n1.term, n1.log.LastIndex())) then Die(n1)
      else ReduceUncommitted(AppendEntry(n1, [EMPTY_ENTRY]), [EMPTY_ENTRY])
  }

  // --------------------------------------------------------------------------
  // Campaigns and votes

  function GrantedBy(votes: map<Id, bool>): set<Id> { set i | i in votes && votes[i] }

  function Granted(n: Node): nat { |GrantedBy(n.votes)| }

  function Poll(n: Node, id: Id, v: bool): Node {
    if n.fatal || id in n.votes then n else n.(votes := n.votes[id := v])
  }

  function VoteRequest(n: Node, mtype: MessageType, term: nat, ctx: seq<byte>, to: Id): Message {
    Blank(mtype, to).(term := term, index := n.log.LastIndex(), logTerm := n.log.LastTerm(), context := ctx)
  }

  function RequestVotes(n: Node, mtype: MessageType, term: nat, ctx: seq<byte>, peers: seq<Id>): Node
    decreases |peers|
  {
    if n.fatal || peers == [] then n
    else
      var n1 := if peers[0] == n.cfg.id then n else Send(n, VoteRequest(n, mtype, term, ctx, peers[0]));
      RequestVotes(n1, mtype, term, ctx, peers[1..])
  }

  function Elect(n: Node, transfer: bool): Node
    requires Shape(n)
  {
    if n.fatal then n
    else
      var n1 := Poll(BecomeCandidate(n), n.cfg.id, true);
      if n1.fatal then n1
      else if NodeQuorum(n1) == Granted(n1) then BecomeLeader(n1)
      else RequestVotes(n1, MsgVote, n1.term, if transfer then TRANSFER else [], n1.cfg.peers)
  }

  function Campaign(n: Node, t: CampaignType): Node
    requires Shape(n)
  {
    if n.fatal then n
    else if t == CampaignPreElection then
      var n1 := Poll(BecomePreCandidate(n), n.cfg.id, true);
      if n1.fatal then n1
      else if NodeQuorum(n1) == Granted(n1) then Elect(n1, false)
      else RequestVotes(n1, MsgPreVote, n1.term + 1, [], n1.cfg.peers)
    else Elect(n, t == CampaignTransfer)
  }

  predicate HasConfChange(es: seq<Entry>) {
    exists i :: 0 <= i < |es| && es[i].etype == EntryConfChange
  }

  function StepHup(n: Node): Node
    requires Shape(n)
  {
    if n.fatal || n.role == Leader then n
    else if n.log.applied > n.log.committed || n.log.committed > n.log.LastIndex() then Die(n)
    else
      match Slice(n.log, n.log.applied + 1, n.log.committed + 1, 0xFFFF_FFFF_FFFF_FFFF)
      case None => Die(n)
      case Some(es) =>
        if HasConfChange(es) && n.log.committed > n.log.applied then n
        else Campaign(n, if n.cfg.preVote then CampaignPreElection else CampaignElection)
  }

  function RespType(t: MessageType): MessageType {
    if t == MsgVote then MsgVoteResp else MsgPreVoteResp
  }

  predicate CanVote(n: Node, m: Message) {
    n.vote == m.from || (n.vote == 0 && n.lead == 0) || (m.mtype == MsgPreVote && m.term > n.term)
  }

  function StepVote(n: Node, m: Message): Node {
    if n.fatal then n
    else if CanVote(n, m) && n.log.IsUpToDate(m.index, m.logTerm) then
      var n1 := Send(n, Blank(RespType(m.mtype), m.from).(term := m.term));
      if !n1.fatal && m.mtype == MsgVote then n1.(vote := m.from) else n1
    else Send(n, Blank(RespType(m.mtype), m.from).(term := n.term, reject := true))
  }

  // --------------------------------------------------------------------------
  // Replication, on the leader

  function SetPr(n: Node, to: Id, p: P.Progress): Node { n.(prs := n.prs[to := p]) }

  /** The entries and log position of the next append to a follower. */
  function NextEntries(n: Node, to: Id): Option<seq<Entry>>
    requires to in n.prs
  {
    Entries(n.log, n.prs[to].next, n.cfg.maxMsgSize)
  }

  function PrevIndex(p: P.Progress): nat { if p.next == 0 then 0 else p.next - 1 }

  predicate SendsAppend(n: Node, to: Id, sendIfEmpty: bool)
    requires to in n.prs
  {
    && !P.IsPaused(n.prs[to], n.cfg.maxInflight)
    && match NextEntries(n, to)
       case None => sendIfEmpty && n.prs[to].recentActive
       case Some(es) => sendIfEmpty || es != []
  }

  function AppendMessage(n: Node, to: Id, es: seq<Entry>): Message
    requires to in n.prs
  {
    var prev := PrevIndex(n.prs[to]);
    Blank(MsgApp, to).(index := prev, logTerm := n.log.Term(prev), entries := es, commit := n.log.committed)
  }

  function SentProgress(p: P.Progress, es: seq<Entry>): P.Progress {
    if es == [] then p
    else if p.state == P.Replicate then
      p.(next := es[|es| - 1].index + 1, inflights := p.inflights + [es[|es| - 1].index])
    else p.(paused := true)
  }

  function MaybeSendAppend(n: Node, to: Id, sendIfEmpty: bool): Node
    requires to in n.prs
  {
    if n.fatal || !SendsAppend(n, to, sendIfEmpty) then n
    else
      var p := n.prs[to];
      match NextEntries(n, to)
      case None =>
        if n.log.snap.index == 0 then Die(n)
        else Send(SetPr(n, to, P.BecomeSnapshot(p, n.log.snap.index)), Blank(MsgSnap, to).(snapshot := n.log.snap))
      case Some(es) =>
        if es != [] && p.state == P.Snapshotting then Die(n)
        else if es != [] && p.state == P.Replicate && P.IsFull(p.inflights, n.cfg.maxInflight) then Die(n)
        else Send(SetPr(n, to, SentProgress(p, es)), AppendMessage(n, to, es))
  }

  function SendAppend(n: Node, to: Id): Node
    requires to in n.prs
  {
    MaybeSendAppend(n, to, true)
  }

  function BcastAppend(n: Node, peers: seq<Id>): Node
    requires forall p :: p in peers ==> p in n.prs
    decreases |peers|
  {
    if n.fatal || peers == [] then n
    else
      var n1 := if peers[0] == n.cfg.id then n else SendAppend(n, peers[0]);
      BcastAppend(n1, peers[1..])
  }

  /** How far the follower's next index is from the end of the log: what the send loop uses up. */
  function Backlog(n: Node, to: Id): nat
    requires to in n.prs
  {
    if n.prs[to].next > n.log.LastIndex() then 0 else n.log.LastIndex() + 1 - n.prs[to].next
  }

  /** while (maybe_send_append(to, false)) {} */
  function SendAll(n: Node, to: Id): Node
    requires Shape(n) && to in n.prs
    decreases Backlog(n, to), if n.fatal then 0 else if P.IsPaused(n.prs[to], n.cfg.maxInflight) then 1 else 2
  {
    if n.fatal || !SendsAppend(n, to, false) then n
    else
      SendMakesProgress(n, to);
      SendAll(MaybeSendAppend(n, to, false), to)
  }

  lemma SendMakesProgress(n: Node, to: Id)
    requires Shape(n) && to in n.prs && !n.fatal && SendsAppend(n, to, false)
    ensures var n1 := MaybeSendAppend(n, to, false);
      && Shape(n1) && to in n1.prs
      && Backlog(n1, to) <= Backlog(n, to)
      && (n1.fatal || Backlog(n1, to) < Backlog(n, to) || P.IsPaused(n1.prs[to], n1.cfg.maxInflight))
  {
  }

  function Heartbeat(n: Node, to: Id, ctx: seq<byte>): Node
    requires to in n.prs
  {
    Send(n, Blank(MsgHeartbeat, to).(commit := Min(n.prs[to].matched, n.log.committed), context := ctx))
  }

  function BcastHeartbeat(n: Node, ctx: seq<byte>, peers: seq<Id>): Node
    requires forall p :: p in peers ==> p in n.prs
    decreases |peers|
  {
    if n.fatal || peers == [] then n
    else
      var n1 := if peers[0] == n.cfg.id then n else Heartbeat(n, peers[0], ctx);
      BcastHeartbeat(n1, ctx, peers[1..])
  }

  function CountActive(n: Node, peers: seq<Id>): nat {
    if peers == [] then 0
    else
      var active := peers[0] == n.cfg.id || (peers[0] in n.prs && n.prs[peers[0]].recentActive);
      (if active then 1 else 0) + CountActive(n, peers[1..])
  }

  // --------------------------------------------------------------------------
  // step_leader

  /** A second configuration change is replaced by an empty entry while one may still be pending. */
  function FilterProposal(es: seq<Entry>, pendingConf: nat, applied: nat, last: nat): (r: (seq<Entry>, nat))
    ensures |r.0| == |es|
  {
    if es == [] then ([], pendingConf)
    else
      var (front, pending) := FilterProposal(es[..|es| - 1], pendingConf, applied, last);
      var e := es[|es| - 1];
      if e.etype != EntryConfChange then (front + [e], pending)
      else if pending > applied then (front + [EMPTY_ENTRY], pending)
      else (front + [e], last + |es|)
  }

  function Propose(n: Node, m: Message): Node
    requires Shape(n)
  {
    if n.fatal then n
    else if m.entries == [] then Die(n)
    else if n.transferee != 0 then n
    else
      var (es, pending) := FilterProposal(m.entries, n.pendingConf, n.log.applied, n.log.LastIndex());
      var n1 := n.(pendingConf := pending);
      if !FitsUncommitted(n1, Stamp(es, n1.term, n1.log.LastIndex())) then n1
      else
        AppendKeepsShape(n1, es);
        BcastAppend(AppendEntry(n1, es), n.cfg.peers)
  }

  lemma AppendKeepsShape(n: Node, es: seq<Entry>)
    requires Shape(n)
    ensures Shape(AppendEntry(n, es)) && AppendEntry(n, es).cfg == n.cfg
  {
  }

  function PushReadState(n: Node, rs: R.ReadState): Node { n.(readStates := n.readStates + [rs]) }

  predicate IsLocalRequest(n: Node, m: Message) { m.from == 0 || m.from == n.cfg.id }

  /** Answers one read request: locally, or by a message to the node that forwarded it. */
  function AnswerRead(n: Node, req: Message, index: nat): Node
    requires req.entries != []
  {
    if n.fatal then n
    else if IsLocalRequest(n, req) then PushReadState(n, R.ReadState(index, R.CtxOf(req)))
    else Send(n, Blank(MsgReadIndexResp, req.from).(index := index, entries := req.entries))
  }

  function LeaderReadIndex(n: Node, m: Message): Node
    requires Shape(n)
  {
    if n.fatal then n
    else if NodeQuorum(n) > 1 then
      if n.log.Term(n.log.committed) != n.term then n
      else if m.entries == [] then Die(n)
      else if n.cfg.readOnlyOption == ReadOnlySafe then
        var n1 := n.(readOnly := R.AddRequest(n.readOnly, n.log.committed, m));
        BcastHeartbeat(n1, R.CtxOf(m), n.cfg.peers)
      else AnswerRead(n, m, n.log.committed)
    else if m.entries == [] then Die(n)
    else PushReadState(n, R.ReadState(n.log.committed, R.CtxOf(m)))
  }

  function AnswerReads(n: Node, ss: seq<R.ReadIndexStatus>): Node
    decreases |ss|
  {
    if n.fatal || ss == [] then n
    else if ss[0].req.entries == [] then Die(n)
    else AnswerReads(AnswerRead(n, ss[0].req, ss[0].index), ss[1..])
  }

  /** The new progress of a follower that accepted everything up to index. */
  function AcceptedProgress(p: P.Progress, index: nat): P.Progress {
    var q := P.MaybeUpdate(p, index);
    if q.state == P.Probe then P.BecomeReplicate(q)
    else if q.state == P.Snapshotting then if P.NeedSnapshotAbort(q) then P.BecomeProbe(q) else q
    else q.(inflights := P.FreeTo(q.inflights, index))
  }

  function SendTimeoutNow(n: Node, to: Id): Node { Send(n, Blank(MsgTimeoutNow, to)) }

  /** After an acceptance moved a follower forward: commit, and tell the followers what is new. */
  function AfterAccept(n: Node, from: Id, oldPaused: bool): Node
    requires Shape(n) && from in n.prs
  {
    if n.fatal then n
    else if CommitsMore(n) then
      MaybeCommitKeepsShape(n);
      BcastAppend(MaybeCommit(n), n.cfg.peers)
    else if oldPaused then SendAppend(n, from)
    else n
  }

  lemma MaybeCommitKeepsShape(n: Node)
    requires Shape(n)
    ensures Shape(MaybeCommit(n)) && MaybeCommit(n).cfg == n.cfg && MaybeCommit(n).prs == n.prs
  {
  }

  lemma SendAppendKeepsShape(n: Node, to: Id, sendIfEmpty: bool)
    requires to in n.prs
    ensures var n1 := MaybeSendAppend(n, to, sendIfEmpty);
      n1.cfg == n.cfg && n1.log == n.log && n1.prs.Keys == n.prs.Keys
    ensures Shape(n) ==> Shape(MaybeSendAppend(n, to, sendIfEmpty))
  {
  }

  lemma {:induction false} BcastKeepsShape(n: Node, peers: seq<Id>)
    requires forall p :: p in peers ==> p in n.prs
    ensures var n1 := BcastAppend(n, peers); n1.cfg == n.cfg && n1.log == n.log && n1.prs.Keys == n.prs.Keys
    ensures Shape(n) ==> Shape(BcastAppend(n, peers))
    decreases |peers|
  {
    if !n.fatal && peers != [] {
      if peers[0] != n.cfg.id { SendAppendKeepsShape(n, peers[0], true); }
      var n1 := if peers[0] == n.cfg.id then n else SendAppend(n, peers[0]);
      BcastKeepsShape(n1, peers[1..]);
    }
  }

  lemma AfterAcceptKeepsShape(n: Node, from: Id, oldPaused: bool)
    requires Shape(n) && from in n.prs
    ensures var n1 := AfterAccept(n, from, oldPaused); Shape(n1) && from in n1.prs
  {
    MaybeCommitKeepsShape(n);
    if CommitsMore(n) { BcastKeepsShape(MaybeCommit(n), n.cfg.peers); }
    SendAppendKeepsShape(n, from, true);
  }

  function AppResp(n: Node, m: Message): Node
    requires Shape(n) && m.from in n.prs
  {
    if n.fatal then n
    else
      var p := n.prs[m.from].(recentActive := true);
      if m.reject then
        if P.Decreases(p, m.index) then
          var q := P.MaybeDecreaseTo(p, m.index, m.rejectHint);
          SendAppend(SetPr(n, m.from, if q.state == P.Replicate then P.BecomeProbe(q) else q), m.from)
        else SetPr(n, m.from, p)
      else if !P.Updates(p, m.index) then SetPr(n, m.from, P.MaybeUpdate(p, m.index))
      else
        var n1 := SetPr(n, m.from, AcceptedProgress(p, m.index));
        AfterAcceptKeepsShape(n1, m.from, P.IsPaused(p, n.cfg.maxInflight));
        var n2 := AfterAccept(n1, m.from, P.IsPaused(p, n.cfg.maxInflight));
        SendAllKeepsShape(n2, m.from);
        var n3 := SendAll(n2, m.from);
        if !n3.fatal && m.from == n3.transferee && n3.prs[m.from].matched == n3.log.LastIndex()
        then SendTimeoutNow(n3, m.from) else n3
  }

  lemma {:induction false} SendAllKeepsShape(n: Node, to: Id)
    requires Shape(n) && to in n.prs
    ensures var n1 := SendAll(n, to); Shape(n1) && to in n1.prs && n1.cfg == n.cfg && n1.log == n.log
    decreases Backlog(n, to), if n.fatal then 0 else if P.IsPaused(n.prs[to], n.cfg.maxInflight) then 1 else 2
  {
    if !n.fatal && SendsAppend(n, to, false) {
      SendMakesProgress(n, to);
      SendAppendKeepsShape(n, to, false);
      SendAllKeepsShape(MaybeSendAppend(n, to, false), to);
    }
  }

  function HeartbeatProgress(n: Node, p: P.Progress): P.Progress {
    var q := p.(recentActive := true, paused := false);
    if q.state == P.Replicate && P.IsFull(q.inflights, n.cfg.maxInflight)
    then q.(inflights := P.FreeFirstOne(q.inflights)) else q
  }

  /** The read-index part of a heartbeat response. */
  function HeartbeatReads(n: Node, m: Message): Node {
    if n.fatal || n.cfg.readOnlyOption != ReadOnlySafe || m.context == [] then n
    else
      var n1 := n.(readOnly := R.RecvAck(n.readOnly, m));
      if R.AckCount(n.readOnly, m) < NodeQuorum(n) then n1
      else if R.AdvanceFails(n1.readOnly, m.context) then Die(n1)
      else
        var ss := R.AdvanceStatuses(n1.readOnly, m.context);
        AnswerReads(n1.(readOnly := R.Advance(n1.readOnly, m.context)), ss)
  }

  function HeartbeatResp(n: Node, m: Message): Node
    requires Shape(n) && m.from in n.prs
  {
    if n.fatal then n
    else
      var n1 := SetPr(n, m.from, HeartbeatProgress(n, n.prs[m.from]));
      var n2 := if n1.prs[m.from].matched < n1.log.LastIndex() then SendAppend(n1, m.from) else n1;
      HeartbeatReads(n2, m)
  }

  function SnapStatus(n: Node, m: Message): Node
    requires m.from in n.prs
  {
    var p := n.prs[m.from];
    if n.fatal || p.state != P.Snapshotting then n
    else
      var q := if m.reject then p.(pendingSnapshot := 0) else p;
      SetPr(n, m.from, P.BecomeProbe(q).(paused := true))
  }

  function Unreachable(n: Node, m: Message): Node
    requires m.from in n.prs
  {
    if !n.fatal && n.prs[m.from].state == P.Replicate then SetPr(n, m.from, P.BecomeProbe(n.prs[m.from])) else n
  }

  function TransferLeader(n: Node, m: Message): Node
    requires Shape(n) && m.from in n.prs
  {
    if n.fatal || (n.transferee != 0 && n.transferee == m.from) then n
    else if m.from == n.cfg.id then n.(transferee := 0)
    else
      var n1 := n.(transferee := m.from);
      if n1.prs[m.from].matched == n1.log.LastIndex() then SendTimeoutNow(n1, m.from) else SendAppend(n1, m.from)
  }

  function StepLeader(n: Node, m: Message): Node
    requires Shape(n)
  {
    if m.mtype == MsgBeat then BcastHeartbeat(n, R.LastPendingCtx(n.readOnly), n.cfg.peers)
    else if m.mtype == MsgCheckQuorum then
      if !n.fatal && CountActive(n, n.cfg.peers) < NodeQuorum(n) then BecomeFollower(n, n.term, 0) else n
    else if m.mtype == MsgProp then Propose(n, m)
    else if m.mtype == MsgReadIndex then LeaderReadIndex(n, m)
    else if m.from !in n.prs then n
    else if m.mtype == MsgAppResp then AppResp(n, m)
    else if m.mtype == MsgHeartbeatResp then HeartbeatResp(n, m)
    else if m.mtype == MsgSnapStatus then SnapStatus(n, m)
    else if m.mtype == MsgUnreachable then Unreachable(n, m)
    else if m.mtype == MsgTransferLeader then TransferLeader(n, m)
    else n
  }

  // --------------------------------------------------------------------------
  // Followers and candidates

  function HandleAppend(n: Node, m: Message): Node {
    if n.fatal then n
    else if m.index < n.log.committed then Send(n, Blank(MsgAppResp, m.from).(index := n.log.committed))
    else
      match MaybeAppend(n.log, m.index, m.logTerm, m.commit, m.entries)
      case Fatal => Die(n)
      case Accepted(l, last) => Send(n.(log := l), Blank(MsgAppResp, m.from).(index := last))
      case Rejected =>
        Send(n, Blank(MsgAppResp, m.from).(index := m.index, reject := true, rejectHint := n.log.LastIndex()))
  }

  /** The reply carries no context: the source stores it into the request. */
  function HandleHeartbeat(n: Node, m: Message): Node {
    if n.fatal then n
    else
      match CommitTo(n.log, m.commit)
      case None => Die(n)
      case Some(l) => Send(n.(log := l), Blank(MsgHeartbeatResp, m.from))
  }

  function RestoredProgress(n: Node, last: nat): map<Id, P.Progress> {
    map p | p in n.prs :: P.NewProgress(if p == n.cfg.id then last else 0, last + 1)
  }

  predicate Restores(n: Node, s: Snapshot) {
    s.index > n.log.committed && !n.log.MatchTerm(s.index, s.term)
  }

  /** The reply carries index 0: the source stores it into the request. */
  function HandleSnapshot(n: Node, m: Message): Node {
    if n.fatal then n
    else
      var s := m.snapshot;
      if s.index <= n.log.committed then Send(n, Blank(MsgAppResp, m.from))
      else if n.log.MatchTerm(s.index, s.term) then
        match CommitTo(n.log, s.index)
        case None => Die(n)
        case Some(l) => Send(n.(log := l), Blank(MsgAppResp, m.from))
      else
        var l := Restore(n.log, s);
        Send(n.(log := l, prs := RestoredProgress(n, l.LastIndex())), Blank(MsgAppResp, m.from))
  }

  /** After a vote was counted: win, lose, or wait. */
  function Tally(n: Node): Node
    requires Shape(n)
  {
    if n.fatal then n
    else if NodeQuorum(n) == Granted(n) then
      if n.role == PreCandidate then Elect(n, false)
      else if n.role != Candidate then Die(n)
      else
        BecomeLeaderKeepsShape(n);
        BcastAppend(BecomeLeader(n), n.cfg.peers)
    else if NodeQuorum(n) == |n.votes| - Granted(n) then BecomeFollower(n, n.term, 0)
    else n
  }

  lemma BecomeLeaderKeepsShape(n: Node)
    requires Shape(n)
    ensures Shape(BecomeLeader(n)) && BecomeLeader(n).cfg == n.cfg
  {
    assert Shape(StartLeader(n));
    AppendKeepsShape(StartLeader(n), [EMPTY_ENTRY]);
  }

  function StepCandidate(n: Node, m: Message): Node
    requires Shape(n)
  {
    if m.mtype == MsgApp then HandleAppend(BecomeFollower(n, m.term, m.from), m)
    else if m.mtype == MsgHeartbeat then HandleHeartbeat(BecomeFollower(n, m.term, m.from), m)
    else if m.mtype == MsgSnap then HandleSnapshot(BecomeFollower(n, m.term, m.from), m)
    else if m.mtype == MsgVoteResp || m.mtype == MsgPreVoteResp then Tally(Poll(n, m.from, !m.reject))
    else n
  }

  function Forward(n: Node, m: Message): Node {
    if n.lead == 0 then n else Send(n, m.(to := n.lead))
  }

  function StepFollower(n: Node, m: Message): Node
    requires Shape(n)
  {
    if n.fatal then n
    else if m.mtype == MsgProp then if n.cfg.disableForwarding then n else Forward(n, m)
    else if m.mtype == MsgApp then HandleAppend(n.(lead := m.from), m)
    else if m.mtype == MsgHeartbeat then HandleHeartbeat(n.(lead := m.from), m)
    else if m.mtype == MsgSnap then HandleSnapshot(n.(lead := m.from), m)
    else if m.mtype == MsgTransferLeader then Forward(n, m)
    else if m.mtype == MsgTimeoutNow then Campaign(n, CampaignTransfer)
    else if m.mtype == MsgReadIndex then Forward(n, m)
    else if m.mtype == MsgReadIndexResp && |m.entries| == 1 then
      PushReadState(n, R.ReadState(m.index, R.CtxOf(m)))
    else n
  }

  // --------------------------------------------------------------------------
  // step

  function Dispatch(n: Node, m: Message): Node
    requires Shape(n)
  {
    if n.fatal then n
    else if m.mtype == MsgHup then StepHup(n)
    else if m.mtype == MsgVote || m.mtype == MsgPreVote then StepVote(n, m)
    else if n.role == Leader then StepLeader(n, m)
    else if n.role == Follower then StepFollower(n, m)
    else StepCandidate(n, m)
  }

  predicate IsFromLeader(t: MessageType) { t == MsgApp || t == MsgHeartbeat || t == MsgSnap }

  /** A vote request is ignored while the node believes in a live leader. lease: the election timeout has not passed. */
  predicate InLease(n: Node, m: Message, lease: bool) {
    && (m.mtype == MsgVote || m.mtype == MsgPreVote) && m.context != TRANSFER
    && n.cfg.checkQuorum && n.lead != 0 && lease
  }

  /** How a message of a later term moves the node's own term. */
  function CatchUp(n: Node, m: Message): Node {
    if m.mtype == MsgPreVote || (m.mtype == MsgPreVoteResp && !m.reject) then n
    else BecomeFollower(n, m.term, if IsFromLeader(m.mtype) then m.from else 0)
  }

  function StepStale(n: Node, m: Message): Node {
    if (n.cfg.checkQuorum || n.cfg.preVote) && (m.mtype == MsgHeartbeat || m.mtype == MsgApp) then
      Send(n, Blank(MsgAppResp, m.from))
    else if m.mtype == MsgPreVote then
      Send(n, Blank(MsgPreVoteResp, m.from).(reject := true, term := n.term))
    else n
  }

  function Step(n: Node, m: Message, lease: bool): Node
    requires Shape(n)
  {
    if n.fatal then n
    else if m.term > n.term then
      if InLease(n, m, lease) then n else Dispatch(CatchUp(n, m), m)
    else if m.term != 0 && m.term < n.term then StepStale(n, m)
    else Dispatch(n, m)
  }
}
