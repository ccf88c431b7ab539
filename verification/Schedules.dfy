/**
 Runs put together event by event from the start of a cluster: campaigns, pre-votes and votes. They show what can
 happen, where EveryRun and Safety show what cannot.
 */
module Schedules {
  import opened Proto
  import opened Quorum
  import opened Logs
  import opened RaftLogSpec
  import opened NodeSpec
  import opened LeaderProofs
  import opened Cluster
  import opened MatchProofs
  import ConfigProofs
  import StepProofs

  /** A run from c0 to c; a clean one counts no pre-vote response as a vote. */
  ghost predicate Ends(cs: seq<State>, es: seq<Event>, c0: State, c: State, clean: bool) {
    Run(cs, es) && cs[0] == c0 && cs[|cs| - 1] == c && (clean ==> AllCounted(cs, es))
  }

  ghost predicate Reaches(c0: State, c: State, clean: bool) {
    exists cs: seq<State>, es: seq<Event> :: Ends(cs, es, c0, c, clean)
  }

  ghost predicate Reachable(c0: State, c: State) { Reaches(c0, c, false) }

  lemma ReachStart(c0: State, clean: bool)
    requires Init(c0)
    ensures Reaches(c0, c0, clean)
  {
    hide Init;
    assert Ends([c0], [], c0, c0, clean);
  }

  lemma ReachNext(c0: State, c: State, e: Event, c': State, clean: bool)
    requires Reaches(c0, c, clean) && Next(c, e, c') && (clean ==> Counted(c, e))
    ensures Reaches(c0, c', clean)
  {
    hide Init, Next, Counted;
    var cs: seq<State>, es: seq<Event> :| Ends(cs, es, c0, c, clean);
    var cs', es' := cs + [c'], es + [e];
    forall i | 0 <= i < |es'| ensures Next(cs'[i], es'[i], cs'[i + 1]) && (clean ==> Counted(cs'[i], es'[i])) {
      if i < |es| { assert Next(cs[i], es[i], cs[i + 1]); }
    }
    assert Ends(cs', es', c0, c', clean);
  }

  // --------------------------------------------------------------------------
  // Nodes and messages of the first campaign

  /** The term of a first campaign. */
  function First(boot: Log): nat { BootTerm(boot) + 1 }

  function All(s: set<Id>): map<Id, bool> { map p | p in s :: true }

  /** A node that has only applied some of its first entries. */
  function Fresh(cfg: Config, boot: Log, a: nat): Node {
    var n := InitialNode(cfg, boot);
    n.(log := n.log.(applied := a))
  }

  function Pre(cfg: Config, boot: Log, s: set<Id>): Node {
    Fresh(cfg, boot, |boot|).(role := PreCandidate, votes := All(s))
  }

  function Cand(cfg: Config, boot: Log, s: set<Id>): Node {
    Reset(Fresh(cfg, boot, |boot|), First(boot)).(vote := cfg.id, role := Candidate, votes := All(s))
  }

  /** A node that voted for x. */
  function Supporter(cfg: Config, boot: Log, a: nat, x: Id): Node {
    Reset(Fresh(cfg, boot, a), First(boot)).(vote := x)
  }

  function Ask(mtype: MessageType, x: Id, p: Id, boot: Log): Message {
    Blank(mtype, p).(term := First(boot), from := x, index := |boot|, logTerm := BootTerm(boot))
  }

  function Yes(mtype: MessageType, p: Id, x: Id, boot: Log): Message {
    Blank(mtype, x).(term := First(boot), from := p)
  }

  const HUP := Blank(MsgHup, 0)

  predicate IsFresh(n: Node, boot: Log) {
    n.log.applied <= |boot| && n == Fresh(n.cfg, boot, n.log.applied)
  }

  /** A node that has done nothing but open a pre-campaign. */
  predicate Idle(n: Node, boot: Log) {
    IsFresh(n, boot) || n == Pre(n.cfg, boot, {n.cfg.id})
  }

  lemma AllGranted(s: set<Id>)
    ensures GrantedBy(All(s)) == s && |All(s)| == |s|
    ensures forall p :: All(s)[p := true] == All(s + {p})
  {
    assert All(s).Keys == s;
    MapSize(All(s));
  }

  lemma {:induction false} MapSize(m: map<Id, bool>)
    ensures |m| == |m.Keys|
  {
  }

  /** The log of a node that has only its first entries. */
  lemma BootLog(cfg: Config, boot: Log, a: nat)
    requires IsBoot(boot) && a <= |boot|
    ensures var l := Fresh(cfg, boot, a).log;
      && l.Numbered() && l.LastIndex() == |boot| && l.LastTerm() == BootTerm(boot) && l.committed == |boot|
      && l.applied == a && l.base == 0
  {
  }

  ghost predicate Settled(n: Node) {
    Shape(n) && Drain(n) == n && !n.fatal
  }

  lemma FormSettled(cfg: Config, boot: Log, a: nat, s: set<Id>)
    requires ValidConfig(cfg) && IsBoot(boot) && a <= |boot|
    ensures Settled(Fresh(cfg, boot, a)) && Settled(Pre(cfg, boot, s)) && Settled(Cand(cfg, boot, s))
  {
    BootLog(cfg, boot, a);
    BootLog(cfg, boot, |boot|);
  }

  // --------------------------------------------------------------------------
  // One node, one message

  /** Requests go out to everybody else, and nothing else happens. */
  lemma {:induction false} Requested(n: Node, mtype: MessageType, term: nat, peers: seq<Id>)
    requires !n.fatal && term >= 1 && (mtype == MsgPreVote || mtype == MsgVote)
    ensures var n' := RequestVotes(n, mtype, term, [], peers);
      && n' == n.(msgs := n'.msgs) && (forall m :: m in n.msgs ==> m in n'.msgs)
      && (forall p :: p in peers && p != n.cfg.id ==> VoteRequest(n, mtype, term, [], p).(from := n.cfg.id) in n'.msgs)
    decreases |peers|
  {
    if peers != [] {
      var r := VoteRequest(n, mtype, term, [], peers[0]);
      var n1 := if peers[0] == n.cfg.id then n else Send(n, r);
      Requested(n1, mtype, term, peers[1..]);
      if peers[0] != n.cfg.id {
        assert r.(from := n.cfg.id) in n1.msgs;
      }
      forall p | p in peers && p != n.cfg.id
        ensures VoteRequest(n, mtype, term, [], p).(from := n.cfg.id) in RequestVotes(n, mtype, term, [], peers).msgs
      {
        assert VoteRequest(n1, mtype, term, [], p) == VoteRequest(n, mtype, term, [], p);
        if p != peers[0] { assert p in peers[1..]; }
      }
    }
  }

  lemma AskedAll(n: Node, boot: Log, mtype: MessageType)
    requires !n.fatal && (mtype == MsgPreVote || mtype == MsgVote) && n.log.LastIndex() == |boot|
    requires n.log.LastTerm() == BootTerm(boot)
    ensures var n' := RequestVotes(n, mtype, First(boot), [], n.cfg.peers);
      && n' == n.(msgs := n'.msgs)
      && forall p :: p in n.cfg.peers && p != n.cfg.id ==> Ask(mtype, n.cfg.id, p, boot) in n'.msgs
  {
    hide RequestVotes;
    Requested(n, mtype, First(boot), n.cfg.peers);
    forall p | p in n.cfg.peers && p != n.cfg.id
      ensures Ask(mtype, n.cfg.id, p, boot) in RequestVotes(n, mtype, First(boot), [], n.cfg.peers).msgs
    {
      assert Ask(mtype, n.cfg.id, p, boot) == VoteRequest(n, mtype, First(boot), [], p).(from := n.cfg.id);
    }
  }

  lemma NoneIsChange()
    ensures !HasConfChange([])
  {
  }

  /** A tick of the election timer opens a campaign. */
  lemma HupOpens(cfg: Config, boot: Log)
    requires ValidConfig(cfg) && IsBoot(boot)
    ensures var n := Fresh(cfg, boot, |boot|);
      Shape(n) && Step(n, HUP, false) == Campaign(n, if cfg.preVote then CampaignPreElection else CampaignElection)
  {
    hide Campaign, HasConfChange, LimitSize, ValidConfig;
    FormSettled(cfg, boot, |boot|, {});
    BootLog(cfg, boot, |boot|);
    var n := Fresh(cfg, boot, |boot|);
    assert n.log.ents[|boot|..|boot|] == [];
    assert LimitSize([], 0xFFFF_FFFF_FFFF_FFFF) == [] by { LimitNone(0xFFFF_FFFF_FFFF_FFFF); }
    NoneIsChange();
  }

  lemma LimitNone(limit: nat)
    ensures LimitSize([], limit) == []
  {
  }

  lemma PreHup(cfg: Config, boot: Log)
    requires ValidConfig(cfg) && IsBoot(boot) && cfg.preVote && |cfg.peers| >= 2
    ensures var n := Fresh(cfg, boot, |boot|); Shape(n) && var n' := Step(n, HUP, false);
      && Drain(n') == Pre(cfg, boot, {cfg.id})
      && forall p :: p in cfg.peers && p != cfg.id ==> Ask(MsgPreVote, cfg.id, p, boot) in n'.msgs
  {
    hide RequestVotes, Step, Shape, ValidConfig, NodeSpec.Elect, IsBoot;
    HupOpens(cfg, boot);
    FormSettled(cfg, boot, |boot|, {cfg.id});
    AllGranted({cfg.id});
    var n := Fresh(cfg, boot, |boot|);
    var c := Poll(BecomePreCandidate(n), cfg.id, true);
    assert c.votes == All({cfg.id});
    assert c == Pre(cfg, boot, {cfg.id});
    BootLog(cfg, boot, |boot|);
    AskedAll(c, boot, MsgPreVote);
  }

  /** The real campaign: one vote in hand, requests out. */
  lemma ElectOpens(n: Node, cfg: Config, boot: Log)
    requires ValidConfig(cfg) && IsBoot(boot) && |cfg.peers| >= 2
    requires n == Fresh(cfg, boot, |boot|).(role := n.role, votes := n.votes) && n.role != Leader && Shape(n)
    ensures var n' := NodeSpec.Elect(n, false);
      && Drain(n') == Cand(cfg, boot, {cfg.id})
      && forall p :: p in cfg.peers && p != cfg.id ==> Ask(MsgVote, cfg.id, p, boot) in n'.msgs
  {
    hide RequestVotes, ValidConfig, BecomeLeader, IsBoot, BecomeCandidate, Poll, Shape, Cand, Fresh, Granted;
    CandIs(n, cfg, boot);
    var c := Cand(cfg, boot, {cfg.id});
    CandFacts(cfg, boot, {cfg.id});
    AskedAll(c, boot, MsgVote);
    FormSettled(cfg, boot, |boot|, {cfg.id});
  }

  lemma CandIs(n: Node, cfg: Config, boot: Log)
    requires n == Fresh(cfg, boot, |boot|).(role := n.role, votes := n.votes) && n.role != Leader
    ensures Poll(BecomeCandidate(n), n.cfg.id, true) == Cand(cfg, boot, {cfg.id}) && n.cfg == cfg && !n.fatal
  {
    var c := Poll(BecomeCandidate(n), cfg.id, true);
    assert c.votes == All({cfg.id});
  }

  lemma CandFacts(cfg: Config, boot: Log, s: set<Id>)
    requires IsBoot(boot)
    ensures var c := Cand(cfg, boot, s);
      && c.cfg == cfg && !c.fatal && c.role == Candidate && c.term == First(boot) && c.vote == cfg.id && c.lead == 0
      && Granted(c) == |s| && |c.votes| == |s| && (forall p :: p in c.votes <==> p in s)
      && c.log.LastIndex() == |boot| && c.log.LastTerm() == BootTerm(boot)
  {
    hide IsBoot;
    AllGranted(s);
    BootLog(cfg, boot, |boot|);
  }

  lemma PreFacts(cfg: Config, boot: Log, s: set<Id>)
    ensures var c := Pre(cfg, boot, s);
      && c.cfg == cfg && !c.fatal && c.role == PreCandidate && c.term == BootTerm(boot)
      && Granted(c) == |s| && |c.votes| == |s| && (forall p :: p in c.votes <==> p in s)
      && c == Fresh(cfg, boot, |boot|).(role := c.role, votes := c.votes)
  {
    AllGranted(s);
  }

  lemma CandHup(cfg: Config, boot: Log)
    requires ValidConfig(cfg) && IsBoot(boot) && !cfg.preVote && |cfg.peers| >= 2
    ensures var n := Fresh(cfg, boot, |boot|); Shape(n) && var n' := Step(n, HUP, false);
      && Drain(n') == Cand(cfg, boot, {cfg.id})
      && forall p :: p in cfg.peers && p != cfg.id ==> Ask(MsgVote, cfg.id, p, boot) in n'.msgs
  {
    hide Step, Shape, ValidConfig, NodeSpec.Elect, IsBoot, Fresh, Cand, Drain;
    HupOpens(cfg, boot);
    FormSettled(cfg, boot, |boot|, {});
    FreshLive(cfg, boot);
    ElectOpens(Fresh(cfg, boot, |boot|), cfg, boot);
  }

  lemma FreshLive(cfg: Config, boot: Log)
    ensures var n := Fresh(cfg, boot, |boot|);
      !n.fatal && n == n.(role := n.role, votes := n.votes) && n.role == Follower && n.lead == 0 && n.cfg == cfg
  {
  }

  lemma IdleFacts(n: Node, boot: Log)
    requires ValidConfig(n.cfg) && Idle(n, boot) && IsBoot(boot)
    ensures Settled(n) && n.term == BootTerm(boot) && n.lead == 0 && n.msgs == []
    ensures n.log.IsUpToDate(|boot|, BootTerm(boot))
  {
    hide ValidConfig, IsBoot;
    FormSettled(n.cfg, boot, n.log.applied, {n.cfg.id});
    BootLog(n.cfg, boot, n.log.applied);
  }

  /** Any idle node grants a pre-vote, and is not changed by it. */
  lemma PreGrantIs(n: Node, boot: Log, x: Id)
    requires ValidConfig(n.cfg) && Idle(n, boot) && IsBoot(boot)
    ensures Shape(n)
    ensures var n' := Step(n, Ask(MsgPreVote, x, n.cfg.id, boot), false);
      Drain(n') == n && Yes(MsgPreVoteResp, n.cfg.id, x, boot) in n'.msgs
  {
    hide ValidConfig, IsBoot, Idle, Shape, RLog.IsUpToDate;
    IdleFacts(n, boot);
    var m := Ask(MsgPreVote, x, n.cfg.id, boot);
    assert Step(n, m, false) == StepVote(n, m);
    assert StepVote(n, m) == n.(msgs := [Yes(MsgPreVoteResp, n.cfg.id, x, boot)]);
    DrainedMsgs(n, [Yes(MsgPreVoteResp, n.cfg.id, x, boot)]);
  }

  lemma DrainedMsgs(n: Node, ms: seq<Message>)
    requires Drain(n) == n
    ensures Drain(n.(msgs := ms)) == n
  {
  }

  /** A node that has done nothing votes for whoever asks first. */
  lemma VoteIs(n: Node, boot: Log, x: Id)
    requires ValidConfig(n.cfg) && IsFresh(n, boot) && IsBoot(boot)
    ensures Shape(n) && var n' := Step(n, Ask(MsgVote, x, n.cfg.id, boot), false);
      && Drain(n') == Supporter(n.cfg, boot, n.log.applied, x) && Yes(MsgVoteResp, n.cfg.id, x, boot) in n'.msgs
  {
    hide ValidConfig, IsBoot, FreshProgress;
    FormSettled(n.cfg, boot, n.log.applied, {n.cfg.id});
    BootLog(n.cfg, boot, n.log.applied);
  }

  // --------------------------------------------------------------------------
  // Counting answers

  lemma Tallied(n: Node, m: Message)
    requires Shape(n) && !n.fatal && (n.role == PreCandidate || n.role == Candidate) && !m.reject && m.term >= 1
    requires (m.mtype == MsgPreVoteResp && m.term >= n.term) || (m.mtype == MsgVoteResp && m.term == n.term)
    ensures Shape(Poll(n, m.from, true)) && Step(n, m, false) == Tally(Poll(n, m.from, true))
  {
    hide Tally, Poll, BecomeFollower;
    PolledSelf(n, m.from, true);
  }

  lemma PolledAre(cfg: Config, boot: Log, s: set<Id>, p: Id)
    requires p !in s
    ensures Poll(Pre(cfg, boot, s), p, true) == Pre(cfg, boot, s + {p})
    ensures Poll(Cand(cfg, boot, s), p, true) == Cand(cfg, boot, s + {p})
  {
  }

  /** A pre-vote response counted by a pre-candidate. */
  lemma PreCounted(cfg: Config, boot: Log, s: set<Id>, p: Id)
    requires ValidConfig(cfg) && IsBoot(boot) && cfg.id in s && p !in s && |s| < QuorumSize(|cfg.peers|)
    requires |cfg.peers| >= 2
    ensures Shape(Pre(cfg, boot, s))
    ensures var n' := Step(Pre(cfg, boot, s), Yes(MsgPreVoteResp, p, cfg.id, boot), false);
      if |s| + 1 == QuorumSize(|cfg.peers|) then
        && Drain(n') == Cand(cfg, boot, {cfg.id})
        && forall q :: q in cfg.peers && q != cfg.id ==> Ask(MsgVote, cfg.id, q, boot) in n'.msgs
      else Drain(n') == Pre(cfg, boot, s + {p})
  {
    hide Shape, ValidConfig, NodeSpec.Elect, Pre, Cand, Fresh, Poll, Step, Granted, BecomeLeader, BcastAppend, Drain,
      IsBoot, BecomeFollower;
    FormSettled(cfg, boot, |boot|, s);
    FormSettled(cfg, boot, |boot|, s + {p});
    PreFacts(cfg, boot, s);
    PreFacts(cfg, boot, s + {p});
    PolledAre(cfg, boot, s, p);
    Tallied(Pre(cfg, boot, s), Yes(MsgPreVoteResp, p, cfg.id, boot));
    if |s| + 1 == QuorumSize(|cfg.peers|) {
      ElectOpens(Pre(cfg, boot, s + {p}), cfg, boot);
    } else {
      Undecided(Pre(cfg, boot, s + {p}), |s| + 1);
    }
  }

  lemma Undecided(n: Node, k: nat)
    requires Shape(n) && Granted(n) == k < NodeQuorum(n) && |n.votes| == k && !n.fatal
    ensures Tally(n) == n
  {
  }

  /** ... and either kind of response by a candidate, which takes both for a vote. */
  lemma CandCounted(cfg: Config, boot: Log, s: set<Id>, kind: MessageType, p: Id)
    requires ValidConfig(cfg) && IsBoot(boot) && cfg.id in s && p !in s && |s| < QuorumSize(|cfg.peers|)
    requires |cfg.peers| >= 2
    requires kind == MsgVoteResp || kind == MsgPreVoteResp
    ensures Shape(Cand(cfg, boot, s)) && Shape(Cand(cfg, boot, s + {p}))
    ensures var n' := Step(Cand(cfg, boot, s), Yes(kind, p, cfg.id, boot), false);
      if |s| + 1 == QuorumSize(|cfg.peers|) then Wins(Cand(cfg, boot, s + {p}), n')
        else Drain(n') == Cand(cfg, boot, s + {p})
  {
    hide Shape, ValidConfig, NodeSpec.Elect, Pre, Cand, Fresh, Poll, Step, Granted, BecomeLeader, BcastAppend, Drain,
      IsBoot, BecomeFollower;
    FormSettled(cfg, boot, |boot|, s);
    FormSettled(cfg, boot, |boot|, s + {p});
    CandFacts(cfg, boot, s);
    CandFacts(cfg, boot, s + {p});
    PolledAre(cfg, boot, s, p);
    Tallied(Cand(cfg, boot, s), Yes(kind, p, cfg.id, boot));
    if |s| + 1 == QuorumSize(|cfg.peers|) {
      WinsNow(Cand(cfg, boot, s + {p}));
    } else {
      Undecided(Cand(cfg, boot, s + {p}), |s| + 1);
    }
  }

  /** n' is n after it won: leader of its term, with the first append out. */
  ghost predicate Wins(n: Node, n': Node)
    requires Shape(n)
  {
    && n'.role == Leader && n'.term == n.term && n'.cfg == n.cfg
    && (forall p :: p in n.cfg.peers ==> p in BecomeLeader(n).prs)
    && n' == BcastAppend(BecomeLeader(n), n.cfg.peers)
  }

  lemma WinsNow(n: Node)
    requires Shape(n) && !n.fatal && n.role == Candidate && Granted(n) == NodeQuorum(n)
    ensures Wins(n, Tally(n))
  {
    hide BecomeLeader, BcastAppend, Granted, NodeQuorum;
    BecomeLeaderKeepsShape(n);
    LeaderNow(n);
    BcastAhead(BecomeLeader(n), n.cfg.peers);
    BcastKeepsShape(BecomeLeader(n), n.cfg.peers);
  }

  /**
   In every state of a candidate: a granted pre-vote response, or a refused one of its own term, does what a response
   to its vote request does, and the node leads exactly when either kind together, this one included, makes a quorum.
   */
  lemma CountedAlike(n: Node, m: Message, lease: bool)
    requires Shape(n) && !n.fatal && n.role == Candidate && m.mtype == MsgPreVoteResp
    requires m.term == n.term || (m.term > n.term && !m.reject)
    ensures Step(n, m, lease) == Step(n, m.(mtype := MsgVoteResp, term := n.term), lease)
    ensures Step(n, m, lease).role == Leader <==> Granted(Poll(n, m.from, !m.reject)) == NodeQuorum(n)
    ensures Step(n, m, lease).role == Leader ==> Step(n, m, lease).term == n.term
  {
    hide Poll, Granted, NodeQuorum, Tally, Step, Shape;
    var c := Poll(n, m.from, !m.reject);
    CandidatePolls(n, m.from, !m.reject);
    ResponseTallied(n, m, lease);
    ResponseTallied(n, m.(mtype := MsgVoteResp, term := n.term), lease);
    TallyLeads(c);
    SameQuorum(n, c);
  }

  lemma SameQuorum(n: Node, c: Node)
    requires n.cfg == c.cfg
    ensures NodeQuorum(n) == NodeQuorum(c)
  {
  }

  lemma ResponseTallied(n: Node, m: Message, lease: bool)
    requires Shape(n) && !n.fatal && n.role == Candidate
    requires
      || (m.mtype == MsgPreVoteResp && m.term > n.term && !m.reject)
      || ((m.mtype == MsgVoteResp || m.mtype == MsgPreVoteResp) && m.term == n.term)
    ensures Shape(Poll(n, m.from, !m.reject)) && Step(n, m, lease) == Tally(Poll(n, m.from, !m.reject))
  {
    hide Tally, Poll, BecomeFollower, Shape;
    PolledSelf(n, m.from, !m.reject);
  }

  lemma CandidatePolls(n: Node, id: Id, v: bool)
    requires Shape(n) && !n.fatal
    ensures var c := Poll(n, id, v); Shape(c) && !c.fatal && c.role == n.role && c.cfg == n.cfg && c.term == n.term
  {
  }

  lemma TallyLeads(c: Node)
    requires Shape(c) && !c.fatal && c.role == Candidate
    ensures Tally(c).role == Leader <==> Granted(c) == NodeQuorum(c)
    ensures Tally(c).role == Leader ==> Tally(c).term == c.term
  {
    hide Granted, NodeQuorum, BecomeLeader, BcastAppend, BecomeFollower, Shape;
    if NodeQuorum(c) == Granted(c) { WinsNow(c); }
    FollowsAgain(c);
  }

  lemma FollowsAgain(n: Node)
    requires !n.fatal
    ensures BecomeFollower(n, n.term, 0).role == Follower
  {
  }

  lemma LeaderNow(n: Node)
    requires Shape(n) && !n.fatal && n.role == Candidate
    ensures BecomeLeader(n).role == Leader && BecomeLeader(n).term == n.term
  {
    hide AppendEntry, Stamp, FitsUncommitted, PayloadSize32;
    AppendAhead(StartLeader(n), [EMPTY_ENTRY]);
  }

  // --------------------------------------------------------------------------
  // Runs

  ghost predicate Stage(c0: State, boot: Log, c: State, clean: bool) {
    && StartsWith(c0, boot) && Reaches(c0, c, clean) && c.nodes.Keys == c0.nodes.Keys
    && forall i :: i in c.nodes ==> c.nodes[i].cfg == c0.nodes[i].cfg
  }

  /** c' only differs in node x and in having sent more. */
  ghost predicate Only(c: State, c': State, x: Id) {
    && c'.nodes.Keys == c.nodes.Keys && c.net <= c'.net
    && forall i :: i in c.nodes && i != x ==> c'.nodes[i] == c.nodes[i]
  }

  lemma StageConfig(c0: State, boot: Log, c: State, clean: bool, x: Id)
    requires Stage(c0, boot, c, clean) && x in c.nodes
    ensures var cfg := c.nodes[x].cfg;
      && ValidConfig(cfg) && cfg == c0.nodes[x].cfg && cfg.id == x && |cfg.peers| == |c.nodes.Keys|
      && forall p :: p in cfg.peers <==> p in c.nodes
    ensures IsBoot(boot) && c.nodes.Keys == c0.nodes.Keys
  {
    hide Reaches, ValidConfig, IsBoot;
    StartConfig(c0, boot, x);
  }

  lemma StartConfig(c0: State, boot: Log, x: Id)
    requires StartsWith(c0, boot) && x in c0.nodes
    ensures var cfg := c0.nodes[x].cfg;
      && ValidConfig(cfg) && cfg.id == x && |cfg.peers| == |c0.nodes.Keys| == |c0.nodes|
      && forall p :: p in cfg.peers <==> p in c0.nodes
  {
    hide InitialNode, IsBoot;
    var cfg := c0.nodes[x].cfg;
    DistinctSize(cfg.peers);
    assert Members(cfg.peers) == c0.nodes.Keys;
    NodesSize(c0.nodes);
  }

  lemma {:induction false} NodesSize(m: map<Id, Node>)
    ensures |m| == |m.Keys|
  {
  }

  lemma Moved(c0: State, boot: Log, c: State, clean: bool, e: Event, x: Id, n: Node)
    requires Stage(c0, boot, c, clean) && x in c.nodes && Next(c, e, Replace(c, x, n)) && n.cfg == c.nodes[x].cfg
    requires clean ==> Counted(c, e)
    ensures var c' := Replace(c, x, n);
      Stage(c0, boot, c', clean) && Only(c, c', x) && c'.nodes[x] == Drain(n) && Outbox(n) <= c'.net
  {
    hide StartsWith, Next, Reaches, Counted;
    ReachNext(c0, c, e, Replace(c, x, n), clean);
  }

  lemma Delivered(c0: State, boot: Log, c: State, clean: bool, m: Message) returns (c': State)
    requires Stage(c0, boot, c, clean) && m in c.net && m.to in c.nodes && Shape(c.nodes[m.to])
    requires clean ==> m.mtype != MsgPreVoteResp || c.nodes[m.to].role != Candidate
    ensures var n' := Step(c.nodes[m.to], m, false);
      Stage(c0, boot, c', clean) && Only(c, c', m.to) && c'.nodes[m.to] == Drain(n') && Outbox(n') <= c'.net
  {
    hide Stage, Step, Shape;
    var n' := Step(c.nodes[m.to], m, false);
    c' := Replace(c, m.to, n');
    ConfigProofs.StepKeepsConfig(c.nodes[m.to], m, false);
    assert Next(c, Deliver(m, false), c');
    Moved(c0, boot, c, clean, Deliver(m, false), m.to, n');
  }

  lemma Called(c0: State, boot: Log, c: State, clean: bool, x: Id, m: Message) returns (c': State)
    requires Stage(c0, boot, c, clean) && x in c.nodes && Shape(c.nodes[x]) && StepProofs.IsLocal(m)
    ensures var n' := Step(c.nodes[x], m, false);
      Stage(c0, boot, c', clean) && Only(c, c', x) && c'.nodes[x] == Drain(n') && Outbox(n') <= c'.net
  {
    hide Stage, Step, Shape;
    var n' := Step(c.nodes[x], m, false);
    c' := Replace(c, x, n');
    ConfigProofs.StepKeepsConfig(c.nodes[x], m, false);
    assert Next(c, Local(x, m), c');
    Moved(c0, boot, c, clean, Local(x, m), x, n');
  }

  /** The first entries go to the application. */
  lemma Applied(c0: State, boot: Log, c: State, clean: bool, x: Id) returns (c': State)
    requires Stage(c0, boot, c, clean) && x in c.nodes && c.nodes[x] == Fresh(c.nodes[x].cfg, boot, 0)
    ensures Stage(c0, boot, c', clean) && Only(c, c', x) && c'.nodes[x] == Fresh(c.nodes[x].cfg, boot, |boot|)
  {
    hide Stage, ValidConfig, IsBoot;
    StageConfig(c0, boot, c, clean, x);
    var n := c.nodes[x];
    BootLog(n.cfg, boot, 0);
    FormSettled(n.cfg, boot, |boot|, {});
    var n' := ApplyTo(n, |boot|);
    assert n' == Fresh(n.cfg, boot, |boot|);
    c' := Replace(c, x, n');
    assert Next(c, Apply(x, |boot|), c');
    Moved(c0, boot, c, clean, Apply(x, |boot|), x, n');
  }

  lemma OnlyTrans(a: State, b: State, c: State, x: Id)
    requires Only(a, b, x) && Only(b, c, x)
    ensures Only(a, c, x)
  {
  }

  // --------------------------------------------------------------------------
  // A campaign

  lemma RunPreHup(c0: State, boot: Log, c: State, clean: bool, x: Id) returns (c': State)
    requires |c.nodes.Keys| >= 2 && Stage(c0, boot, c, clean) && x in c.nodes
    requires c.nodes[x] == Fresh(c.nodes[x].cfg, boot, |boot|) && c.nodes[x].cfg.preVote
    ensures Stage(c0, boot, c', clean) && Only(c, c', x) && c'.nodes[x] == Pre(c.nodes[x].cfg, boot, {x})
    ensures forall p :: p in c.nodes && p != x ==> Ask(MsgPreVote, x, p, boot) in c'.net
  {
    hide Stage, ValidConfig, Step, Fresh, Pre, Shape, Ask, IsBoot, Drain;
    StageConfig(c0, boot, c, clean, x);
    PreHup(c.nodes[x].cfg, boot);
    c' := Called(c0, boot, c, clean, x, HUP);
    var n' := Step(c.nodes[x], HUP, false);
    assert forall p :: p in c.nodes && p != x ==> Ask(MsgPreVote, x, p, boot) in Outbox(n');
  }

  lemma RunCandHup(c0: State, boot: Log, c: State, clean: bool, x: Id) returns (c': State)
    requires |c.nodes.Keys| >= 2 && Stage(c0, boot, c, clean) && x in c.nodes
    requires c.nodes[x] == Fresh(c.nodes[x].cfg, boot, |boot|) && !c.nodes[x].cfg.preVote
    ensures Stage(c0, boot, c', clean) && Only(c, c', x) && c'.nodes[x] == Cand(c.nodes[x].cfg, boot, {x})
    ensures forall p :: p in c.nodes && p != x ==> Ask(MsgVote, x, p, boot) in c'.net
  {
    hide Stage, ValidConfig, Step, Fresh, Cand, Shape, Ask, IsBoot, Drain;
    StageConfig(c0, boot, c, clean, x);
    CandHup(c.nodes[x].cfg, boot);
    c' := Called(c0, boot, c, clean, x, HUP);
    var n' := Step(c.nodes[x], HUP, false);
    assert forall p :: p in c.nodes && p != x ==> Ask(MsgVote, x, p, boot) in Outbox(n');
  }

  /** The nodes of ps grant a pre-vote to x, and are not changed by it. */
  lemma {:induction false} RunPreGrants(c0: State, boot: Log, c: State, clean: bool, x: Id, ps: set<Id>)
    returns (c': State)
    requires Stage(c0, boot, c, clean) && ps <= c.nodes.Keys
    requires forall p :: p in ps ==> Idle(c.nodes[p], boot) && Ask(MsgPreVote, x, p, boot) in c.net
    ensures Stage(c0, boot, c', clean) && c'.nodes == c.nodes && c.net <= c'.net
    ensures forall p :: p in ps ==> Yes(MsgPreVoteResp, p, x, boot) in c'.net
    decreases |ps|
  {
    hide Stage, Idle, Ask, Yes, ValidConfig, Step, Shape, IsBoot, Drain;
    c' := c;
    if ps != {} {
      var p :| p in ps;
      StageConfig(c0, boot, c, clean, p);
      PreGrantIs(c.nodes[p], boot, x);
      AskIs(MsgPreVote, x, p, boot);
      var n' := Step(c.nodes[p], Ask(MsgPreVote, x, p, boot), false);
      var c1 := Delivered(c0, boot, c, clean, Ask(MsgPreVote, x, p, boot));
      assert Yes(MsgPreVoteResp, p, x, boot) in Outbox(n');
      assert c1.nodes == c.nodes;
      c' := RunPreGrants(c0, boot, c1, clean, x, ps - {p});
    }
  }

  lemma AskIs(kind: MessageType, x: Id, p: Id, boot: Log)
    ensures Ask(kind, x, p, boot).to == p && Ask(kind, x, p, boot).mtype == kind
    ensures Yes(kind, p, x, boot).to == x && Yes(kind, p, x, boot).mtype == kind
  {
  }

  /** c' differs from c only in nodes of ps, and in having sent more. */
  ghost predicate OnlyIn(c: State, c': State, ps: set<Id>) {
    && c'.nodes.Keys == c.nodes.Keys && c.net <= c'.net
    && forall i :: i in c.nodes && i !in ps ==> c'.nodes[i] == c.nodes[i]
  }

  lemma RunVote(c0: State, boot: Log, c: State, clean: bool, x: Id, p: Id) returns (c': State)
    requires Stage(c0, boot, c, clean) && p in c.nodes && IsFresh(c.nodes[p], boot) && Ask(MsgVote, x, p, boot) in c.net
    ensures Stage(c0, boot, c', clean) && Only(c, c', p) && Yes(MsgVoteResp, p, x, boot) in c'.net
    ensures c'.nodes[p] == Supporter(c.nodes[p].cfg, boot, c.nodes[p].log.applied, x)
  {
    hide Stage, IsFresh, Ask, Yes, ValidConfig, Step, Shape, IsBoot, Drain, Supporter;
    StageConfig(c0, boot, c, clean, p);
    VoteIs(c.nodes[p], boot, x);
    AskIs(MsgVote, x, p, boot);
    c' := Delivered(c0, boot, c, clean, Ask(MsgVote, x, p, boot));
    assert Yes(MsgVoteResp, p, x, boot) in Outbox(Step(c.nodes[p], Ask(MsgVote, x, p, boot), false));
  }

  /** The nodes of ps vote for x. */
  lemma {:induction false} RunVotes(c0: State, boot: Log, c: State, clean: bool, x: Id, ps: set<Id>) returns (c': State)
    requires Stage(c0, boot, c, clean) && ps <= c.nodes.Keys
    requires forall p :: p in ps ==> IsFresh(c.nodes[p], boot) && Ask(MsgVote, x, p, boot) in c.net
    ensures Stage(c0, boot, c', clean) && OnlyIn(c, c', ps)
    ensures forall p :: p in ps ==> Yes(MsgVoteResp, p, x, boot) in c'.net
    ensures forall p :: p in ps ==> c'.nodes[p] == Supporter(c.nodes[p].cfg, boot, c.nodes[p].log.applied, x)
    decreases |ps|
  {
    hide Stage, IsFresh, Ask, Yes, Supporter;
    c' := c;
    if ps != {} {
      var p :| p in ps;
      var c1 := RunVote(c0, boot, c, clean, x, p);
      c' := RunVotes(c0, boot, c1, clean, x, ps - {p});
    }
  }

  /** Somebody of ps is still missing from a count that is short of a majority. */
  lemma Room(ps: set<Id>, x: Id, s: set<Id>) returns (p: Id)
    requires s <= ps + {x} && x in s && x !in ps && |s| < |ps| + 1
    ensures p in ps && p !in s
  {
    assert |ps + {x}| == |ps| + 1;
    if ps <= s {
      SubsetSize(ps + {x}, s);
      assert false;
    }
    p :| p in ps && p !in s;
  }

  /** The pre-campaign of x, from the responses that are already there. */
  lemma {:induction false} RunPre(c0: State, boot: Log, c: State, clean: bool, x: Id, s: set<Id>, ps: set<Id>)
    returns (c': State)
    requires Stage(c0, boot, c, clean) && x in s && s <= ps + {x} && x !in ps
    requires |s| < QuorumSize(|c.nodes.Keys|) <= |ps| + 1 && |c.nodes.Keys| >= 2
    requires forall p :: p in ps ==> Yes(MsgPreVoteResp, p, x, boot) in c.net
    requires x in c.nodes && c.nodes[x] == Pre(c.nodes[x].cfg, boot, s)
    ensures Stage(c0, boot, c', clean) && Only(c, c', x) && c'.nodes[x] == Cand(c.nodes[x].cfg, boot, {x})
    ensures forall p :: p in c.nodes && p != x ==> Ask(MsgVote, x, p, boot) in c'.net
    decreases QuorumSize(|c.nodes.Keys|) - |s|
  {
    hide Stage, Step, Shape, ValidConfig, Pre, Cand, Yes, Ask, Drain, IsBoot;
    StageConfig(c0, boot, c, clean, x);
    var cfg := c.nodes[x].cfg;
    var p := Room(ps, x, s);
    var m := Yes(MsgPreVoteResp, p, x, boot);
    AskIs(MsgPreVoteResp, x, p, boot);
    PreCounted(cfg, boot, s, p);
    PreFacts(cfg, boot, s);
    var c1 := Delivered(c0, boot, c, clean, m);
    var n' := Step(c.nodes[x], m, false);
    if |s| + 1 == QuorumSize(|c.nodes.Keys|) {
      c' := c1;
      assert forall q :: q in c.nodes && q != x ==> Ask(MsgVote, x, q, boot) in Outbox(n');
    } else {
      PreFacts(cfg, boot, s + {p});
      c' := RunPre(c0, boot, c1, clean, x, s + {p}, ps);
      OnlyTrans(c, c1, c', x);
    }
  }

  /** The campaign of x, decided by responses of the given kind. A clean run takes votes only. */
  lemma {:induction false} RunWin(c0: State, boot: Log, c: State, clean: bool, x: Id, kind: MessageType, s: set<Id>,
      ps: set<Id>)
    returns (c': State, n': Node, won: set<Id>)
    requires Stage(c0, boot, c, clean) && x in s && s <= ps + {x} && x !in ps
    requires |s| < QuorumSize(|c.nodes.Keys|) <= |ps| + 1 && |c.nodes.Keys| >= 2
    requires kind == MsgVoteResp || (kind == MsgPreVoteResp && !clean)
    requires forall p :: p in ps ==> Yes(kind, p, x, boot) in c.net
    requires x in c.nodes && c.nodes[x] == Cand(c.nodes[x].cfg, boot, s)
    ensures Stage(c0, boot, c', clean) && Only(c, c', x) && c'.nodes[x] == Drain(n') && Outbox(n') <= c'.net
    ensures Shape(Cand(c.nodes[x].cfg, boot, won)) && Wins(Cand(c.nodes[x].cfg, boot, won), n')
    decreases QuorumSize(|c.nodes.Keys|) - |s|
  {
    hide Stage, Step, Shape, ValidConfig, Pre, Cand, Yes, Drain, IsBoot, Wins;
    StageConfig(c0, boot, c, clean, x);
    var cfg := c.nodes[x].cfg;
    var p := Room(ps, x, s);
    var m := Yes(kind, p, x, boot);
    AskIs(kind, x, p, boot);
    CandCounted(cfg, boot, s, kind, p);
    CandFacts(cfg, boot, s);
    var c1 := Delivered(c0, boot, c, clean, m);
    if |s| + 1 == QuorumSize(|c.nodes.Keys|) {
      c', n', won := c1, Step(c.nodes[x], m, false), s + {p};
    } else {
      CandFacts(cfg, boot, s + {p});
      c', n', won := RunWin(c0, boot, c1, clean, x, kind, s + {p}, ps);
      OnlyTrans(c, c1, c', x);
    }
  }

  lemma Started(c0: State, boot: Log, clean: bool)
    requires StartsWith(c0, boot)
    ensures Stage(c0, boot, c0, clean)
    ensures forall i :: i in c0.nodes ==> c0.nodes[i] == Fresh(c0.nodes[i].cfg, boot, 0) && IsFresh(c0.nodes[i], boot)
  {
    hide ValidConfig, Reaches, IsBoot;
    ReachStart(c0, clean);
  }

  lemma StageReached(c0: State, boot: Log, c: State, clean: bool)
    requires Stage(c0, boot, c, clean)
    ensures Reaches(c0, c, clean) && c.nodes.Keys == c0.nodes.Keys
  {
    hide Reaches;
  }

  lemma OthersCount(all: set<Id>, x: Id)
    requires x in all
    ensures |all - {x}| == |all| - 1 && QuorumSize(|all|) <= |all - {x}| + 1
  {
  }
}
