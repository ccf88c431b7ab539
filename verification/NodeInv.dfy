/** How a node and a message of the implementation relate to the protocol's history. */
module NodeInv {
  import opened Proto
  import opened Logs
  import opened Protocol
  import opened Steps
  import opened RaftLogSpec
  import opened NodeSpec
  import P = ProgressSpec
  import R = ReadOnlySpec

  ghost predicate LeaderIs(h: History, t: nat, c: Id) {
    t in h.leader && h.leader[t] == c && t in h.ll && t in h.lc
  }

  // --------------------------------------------------------------------------
  // Messages

  ghost predicate AppOk(h: History, m: Message) {
    && LeaderIs(h, m.term, m.from) && m.to != m.from && m.term >= 1
    && var l := h.ll[m.term];
    && m.index + |m.entries| <= |l|
    && m.logTerm == TermAt(l, m.index)
    && m.entries == l[m.index..m.index + |m.entries|]
    && m.commit <= h.lc[m.term]
  }

  ghost predicate HeartbeatOk(h: History, m: Message) {
    && LeaderIs(h, m.term, m.from) && m.to != m.from && m.term >= 1
    && m.commit <= h.lc[m.term]
    && (m.commit == 0 || Acked(h, m.to, m.term, m.commit))
  }

  ghost predicate SnapOk(h: History, m: Message) {
    && LeaderIs(h, m.term, m.from) && m.to != m.from && m.term >= 1
    && 1 <= m.snapshot.index <= h.lc[m.term]
    && m.snapshot.index <= |h.ll[m.term]|
    && m.snapshot.term == TermAt(h.ll[m.term], m.snapshot.index)
  }

  ghost predicate VoteMsgOk(h: History, m: Message) {
    && m.term > h.boot && (m.from, m.term) in h.cands
    && m.index == |h.cands[(m.from, m.term)]| && m.logTerm == LastTerm(h.cands[(m.from, m.term)])
  }

  /** What a message in the network tells the truth about. Local messages never get there. */
  ghost predicate MsgOk(h: History, m: Message) {
    match m.mtype
    case MsgHup => false
    case MsgBeat => false
    case MsgUnreachable => false
    case MsgSnapStatus => false
    case MsgCheckQuorum => false
    case MsgProp => m.term == 0 && m.entries != []
    case MsgReadIndex => m.term == 0 && m.entries != []
    case MsgReadIndexResp => m.term >= 1
    case MsgTransferLeader => m.term >= 1 && LeaderIs(h, m.term, m.to)
    case MsgTimeoutNow => m.term >= 1
    case MsgApp => AppOk(h, m)
    case MsgAppResp => m.term >= 1 && m.from != m.to && (m.reject || m.index == 0 || Acked(h, m.from, m.term, m.index))
    case MsgSnap => SnapOk(h, m)
    case MsgHeartbeat => HeartbeatOk(h, m)
    case MsgHeartbeatResp => m.term >= 1 && m.from != m.to && m.context == []
    case MsgVote => VoteMsgOk(h, m)
    case MsgVoteResp => m.term >= 1 && (m.reject || VotedFor(h, m.from, m.term, m.to))
    case MsgPreVote => m.term >= 1
    case MsgPreVoteResp => m.term >= 1
  }

  // --------------------------------------------------------------------------
  // Nodes

  /** What is true of a node in any role. */
  ghost predicate Core(h: History, n: Node) {
    var me := n.cfg.id;
    && ValidConfig(n.cfg) && Shape(n) && !n.fatal
    && me in h.voters && (forall p :: p in n.cfg.peers <==> p in h.voters)
    && me in h.term && me in h.log && me in h.commit
    && h.term[me] == n.term && h.commit[me] == n.log.committed
    && Shows(n.log, h.log[me])
    && n.term >= h.boot && (n.vote == 0 && n.term > h.boot ==> (me, n.term) !in h.votes)
    && (n.vote != 0 ==> VotedFor(h, me, n.term, n.vote))
    && R.Consistent(n.readOnly)
  }

  ghost predicate SentOk(h: History, n: Node) {
    forall m :: m in n.msgs ==> MsgOk(h, m)
  }

  ghost predicate VotesCounted(h: History, n: Node) {
    forall i :: i in n.votes && n.votes[i] ==> i in h.voters && VotedFor(h, i, n.term, n.cfg.id)
  }

  /** The leader's view of a follower is backed by what the follower confirmed in this term. */
  ghost predicate PrOk(h: History, n: Node, p: Id)
    requires p in n.prs
  {
    var r := n.prs[p];
    && r.matched <= n.log.LastIndex() && (r.matched == 0 || Acked(h, p, n.term, r.matched))
    && 1 <= r.next <= n.log.LastIndex() + 1
    && r.pendingSnapshot <= n.log.committed
    && P.WindowOk(r, n.cfg.maxInflight)
  }

  ghost predicate IsLeading(h: History, n: Node) {
    && n.role == Leader && n.lead == n.cfg.id && n.term >= 1
    && LeaderIs(h, n.term, n.cfg.id)
    && n.cfg.id in h.log && h.log[n.cfg.id] == h.ll[n.term]
    && n.log.committed == h.lc[n.term]
    && (forall p :: p in n.prs ==> PrOk(h, n, p))
    && (n.cfg.id in n.prs ==> n.prs[n.cfg.id].inflights == [])
  }

  ghost predicate IsRunning(h: History, n: Node) {
    && n.role == Candidate && n.lead == 0
    && n.vote == n.cfg.id && n.cfg.id in h.log
    && (n.cfg.id, n.term) in h.cands && h.cands[(n.cfg.id, n.term)] == h.log[n.cfg.id]
    && !LeaderIs(h, n.term, n.cfg.id)
    && VotesCounted(h, n)
  }

  ghost predicate IsFollowing(h: History, n: Node) {
    && n.role == Follower && n.lead != n.cfg.id
    && (n.lead != 0 ==> LeaderIs(h, n.term, n.lead))
  }

  ghost predicate RoleOk(h: History, n: Node) {
    match n.role
    case Leader => IsLeading(h, n)
    case Candidate => IsRunning(h, n) && Granted(n) < NodeQuorum(n)
    case PreCandidate => n.lead == 0 && Granted(n) < NodeQuorum(n)
    case Follower => IsFollowing(h, n)
  }

  ghost predicate Good(h: History, n: Node) {
    Core(h, n) && SentOk(h, n) && RoleOk(h, n)
  }

  // --------------------------------------------------------------------------
  // Steps of other nodes disturb none of this

  lemma LeaderStays(h: History, h': History, n: Id, t: nat, c: Id)
    requires Extends(h, h', n) && LeaderIs(h, t, c)
    ensures LeaderIs(h', t, c) && h.ll[t] <= h'.ll[t] && h.lc[t] <= h'.lc[t]
  {
  }

  lemma AppStays(h: History, h': History, n: Id, m: Message)
    requires Extends(h, h', n) && AppOk(h, m)
    ensures AppOk(h', m)
  {
  }

  lemma SnapStays(h: History, h': History, n: Id, m: Message)
    requires Extends(h, h', n) && SnapOk(h, m)
    ensures SnapOk(h', m)
  {
  }

  lemma AckedStays(h: History, h': History, n: Id, p: Id, t: nat, i: nat)
    requires Extends(h, h', n) && Acked(h, p, t, i)
    ensures Acked(h', p, t, i)
  {
  }

  lemma VoteStays(h: History, h': History, n: Id, p: Id, t: nat, c: Id)
    requires Extends(h, h', n)
    ensures VotedFor(h, p, t, c) ==> VotedFor(h', p, t, c)
    ensures (p, t) in h.cands ==> (p, t) in h'.cands && h'.cands[(p, t)] == h.cands[(p, t)]
    ensures (p, t) in h.votes ==> (p, t) in h'.votes && h'.votes[(p, t)] == h.votes[(p, t)]
    ensures (p, t) !in h.votes && p != n ==> (p, t) !in h'.votes
  {
  }

  lemma BootStays(h: History, h': History, n: Id)
    requires Extends(h, h', n)
    ensures h'.boot == h.boot
  {
    hide KeepsVotes, KeepsLeaders, KeepsAcks, KeepsSafe;
  }

  lemma MsgStays(h: History, h': History, n: Id, m: Message)
    requires Extends(h, h', n) && MsgOk(h, m)
    ensures MsgOk(h', m)
  {
    hide Extends, AppOk, SnapOk, LeaderIs, Acked, VotedFor;
    BootStays(h, h', n);
    match m.mtype
    case MsgApp => AppStays(h, h', n, m);
    case MsgSnap => SnapStays(h, h', n, m);
    case MsgHeartbeat =>
      LeaderStays(h, h', n, m.term, m.from);
      if m.commit != 0 { AckedStays(h, h', n, m.to, m.term, m.commit); }
    case MsgTransferLeader => LeaderStays(h, h', n, m.term, m.to);
    case MsgAppResp => if !m.reject && m.index != 0 { AckedStays(h, h', n, m.from, m.term, m.index); }
    case MsgVote => VoteStays(h, h', n, m.from, m.term, m.to);
    case MsgVoteResp => VoteStays(h, h', n, m.from, m.term, m.to);
    case _ =>
  }

  lemma SentStays(h: History, h': History, n: Id, k: Node)
    requires Extends(h, h', n) && SentOk(h, k)
    ensures SentOk(h', k)
  {
    hide Extends, MsgOk;
    forall m | m in k.msgs ensures MsgOk(h', m) {
      MsgStays(h, h', n, m);
    }
  }

  lemma CoreStays(h: History, h': History, n: Id, k: Node)
    requires Extends(h, h', n) && Core(h, k) && k.cfg.id != n
    ensures Core(h', k)
  {
  }

  lemma PrStays(h: History, h': History, n: Id, k: Node, p: Id)
    requires Extends(h, h', n) && p in k.prs && PrOk(h, k, p)
    ensures PrOk(h', k, p)
  {
  }

  lemma LeadingStays(h: History, h': History, n: Id, k: Node)
    requires Extends(h, h', n) && IsLeading(h, k) && k.cfg.id != n
    ensures IsLeading(h', k)
  {
  }

  lemma RunningStays(h: History, h': History, n: Id, k: Node)
    requires Extends(h, h', n) && IsRunning(h, k) && k.cfg.id != n && h'.leader.Keys == h'.ll.Keys
    requires h'.lc.Keys == h'.ll.Keys
    requires h.leader.Keys == h.ll.Keys && h.lc.Keys == h.ll.Keys
    ensures IsRunning(h', k)
  {
  }

  lemma RoleStays(h: History, h': History, n: Id, k: Node)
    requires Extends(h, h', n) && RoleOk(h, k) && k.cfg.id != n && Leaders(h) && Leaders(h')
    ensures RoleOk(h', k)
  {
    hide Extends, IsLeading, IsRunning, Granted, LeaderIs, LeaderOk;
    match k.role
    case Leader => LeadingStays(h, h', n, k);
    case Candidate => RunningStays(h, h', n, k);
    case PreCandidate =>
    case Follower => if k.lead != 0 { LeaderStays(h, h', n, k.term, k.lead); }
  }

  /** A node that takes no part in a step is as good as before. */
  lemma GoodStays(h: History, h': History, n: Id, k: Node)
    requires Extends(h, h', n) && Good(h, k) && k.cfg.id != n && Inv(h) && Inv(h')
    ensures Good(h', k)
  {
    hide Extends, Core, SentOk, RoleOk, Nodes, Cands, Votes, Leaders, Acks, AcksKept, AcksVoted, Commits;
    CoreStays(h, h', n, k);
    SentStays(h, h', n, k);
    RoleStays(h, h', n, k);
  }
}
