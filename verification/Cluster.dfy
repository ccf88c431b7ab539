/**
 A cluster: one node per voter and the set of all messages ever sent. A message stays in the set after it is
 delivered and need never be delivered, so messages are lost, duplicated and reordered freely.
 */
module Cluster {
  import opened Proto
  import opened Logs
  import opened Protocol
  import opened Steps
  import opened Actions
  import opened RaftLogSpec
  import opened NodeSpec
  import opened NodeInv
  import opened LeaderProofs
  import opened VoterProofs
  import opened FollowerProofs
  import opened StepProofs
  import opened ConfigProofs
  import P = ProgressSpec
  import R = ReadOnlySpec

  datatype State = State(nodes: map<Id, Node>, net: set<Message>)

  datatype Event =
    | Deliver(m: Message, lease: bool)        // a message of the network reaches its addressee
    | Local(id: Id, m: Message)               // the server calls step() itself
    | Apply(id: Id, to: nat)                  // committed entries up to `to` go to the application
    | Compact(id: Id, snap: nat, base: nat)   // the application's state at `snap` is saved, the log cut up to `base`
    | Restart(id: Id, commit: nat)            // a crash: only term, vote, entries, snapshot and a commit index survive

  // --------------------------------------------------------------------------
  // Steps

  /** The entries all nodes are started with: committed, of term 1, one for each voter's configuration. */
  ghost predicate IsBoot(boot: Log) {
    forall i :: 0 <= i < |boot| ==> boot[i].term == 1 && boot[i].index == i + 1
  }

  function BootTerm(boot: Log): nat { if boot == [] then 0 else 1 }

  /** start_node: the constructor alone (no entries, term 0), or a first start with its entries at term 1. */
  function InitialNode(cfg: Config, boot: Log): Node {
    var log := RLog(0, 0, boot, Snapshot(0, 0), |boot|, 0);
    var pr := P.NewProgress(0, |boot| + 1).(recentActive := boot != []);
    Node(cfg, BootTerm(boot), 0, 0, Follower, log, map p | p in cfg.peers :: pr, map[], [], 0, 0, 0, R.EMPTY, [], false)
  }

  ghost predicate StartsWith(c: State, boot: Log) {
    && c.net == {} && c.nodes.Keys != {} && IsBoot(boot)
    && forall i :: i in c.nodes ==>
      && ValidConfig(c.nodes[i].cfg) && c.nodes[i].cfg.id == i
      && (forall p :: p in c.nodes[i].cfg.peers <==> p in c.nodes)
      && c.nodes[i] == InitialNode(c.nodes[i].cfg, boot)
  }

  ghost predicate Init(c: State) {
    exists boot: Log :: StartsWith(c, boot)
  }

  /** After every step the server takes the messages and read states, and applies a restored snapshot. */
  function Drain(n: Node): Node {
    n.(msgs := [], readStates := [], log := n.log.(applied := Max(n.log.applied, n.log.base)))
  }

  function Outbox(n: Node): set<Message> { set m | m in n.msgs }

  function Replace(c: State, id: Id, n: Node): State {
    State(c.nodes[id := Drain(n)], c.net + Outbox(n))
  }

  predicate CanApply(n: Node, to: nat) { n.log.applied <= to <= n.log.committed }

  /** The order of a log's cursors; it holds in every reachable state (see FineIsSane). */
  predicate Sane(n: Node) {
    && n.log.base <= n.log.applied <= n.log.committed <= n.log.LastIndex() && n.log.base <= n.log.snap.index
  }

  function ApplyTo(n: Node, to: nat): Node
    requires Sane(n) && CanApply(n, to)
  {
    var n1 := ReduceUncommitted(n, n.log.ents[n.log.applied - n.log.base..to - n.log.base]);
    n1.(log := n1.log.(applied := to))
  }

  predicate CanCompact(n: Node, snap: nat, base: nat) {
    n.log.base <= base <= snap <= n.log.applied && n.log.snap.index <= snap && n.log.applied <= n.log.LastIndex()
  }

  function CompactTo(n: Node, snap: nat, base: nat): Node
    requires CanCompact(n, snap, base)
  {
    n.(log := n.log.(base := base, baseTerm := n.log.Term(base), ents := n.log.ents[base - n.log.base..],
                     snap := Snapshot(snap, n.log.Term(snap))))
  }

  predicate CanRestart(n: Node, commit: nat) { n.log.snap.index <= commit <= n.log.committed }

  /** What the server finds on disk, loaded into a new node: the log starts at the last snapshot. */
  function Restarted(n: Node, commit: nat): Node
    requires Sane(n) && CanRestart(n, commit)
  {
    var s := n.log.snap;
    var n1 := n.(log := RLog(s.index, s.term, n.log.ents[s.index - n.log.base..], s, commit, s.index));
    Reset(n1, n.term).(role := Follower, readStates := [], fatal := false)
  }

  ghost predicate Next(c: State, e: Event, c': State) {
    match e
    case Deliver(m, lease) =>
      m in c.net && m.to in c.nodes && Shape(c.nodes[m.to]) && c' == Replace(c, m.to, Step(c.nodes[m.to], m, lease))
    case Local(id, m) =>
      id in c.nodes && IsLocal(m) && Shape(c.nodes[id]) && c' == Replace(c, id, Step(c.nodes[id], m, false))
    case Apply(id, to) =>
      id in c.nodes && Sane(c.nodes[id]) && CanApply(c.nodes[id], to) && c' == Replace(c, id, ApplyTo(c.nodes[id], to))
    case Compact(id, snap, base) =>
      id in c.nodes && CanCompact(c.nodes[id], snap, base) && c' == Replace(c, id, CompactTo(c.nodes[id], snap, base))
    case Restart(id, commit) =>
      && id in c.nodes && Sane(c.nodes[id]) && CanRestart(c.nodes[id], commit)
      && c' == Replace(c, id, Restarted(c.nodes[id], commit))
  }

  function Actor(e: Event): Id {
    match e
    case Deliver(m, _) => m.to
    case Local(id, _) => id
    case Apply(id, _) => id
    case Compact(id, _, _) => id
    case Restart(id, _) => id
  }

  /** No candidate is handed a granted pre-vote response that it would count as a vote. */
  predicate Counted(c: State, e: Event) {
    e.Deliver? && e.m.to in c.nodes ==> !Miscounts(c.nodes[e.m.to], e.m)
  }

  /** A run: cs[i] steps to cs[i + 1] by es[i]. */
  ghost predicate Run(cs: seq<State>, es: seq<Event>) {
    && |cs| == |es| + 1 && Init(cs[0])
    && forall i :: 0 <= i < |es| ==> Next(cs[i], es[i], cs[i + 1])
  }

  ghost predicate AllCounted(cs: seq<State>, es: seq<Event>)
    requires |cs| == |es| + 1
  {
    forall i :: 0 <= i < |es| ==> Counted(cs[i], es[i])
  }

  // --------------------------------------------------------------------------
  // The invariant of a cluster

  ghost predicate NodeFine(h: History, i: Id, n: Node) {
    Good(h, n) && n.cfg.id == i && Drained(n.log) && n.msgs == []
  }

  ghost predicate NetOk(h: History, net: set<Message>) {
    forall m :: m in net ==> MsgOk(h, m)
  }

  ghost predicate Backed(h: History, c: State) {
    && Inv(h) && h.voters == c.nodes.Keys
    && (forall i :: i in c.nodes ==> NodeFine(h, i, c.nodes[i]))
    && NetOk(h, c.net)
  }

  lemma NetStays(h: History, h': History, id: Id, net: set<Message>)
    requires Extends(h, h', id) && NetOk(h, net)
    ensures NetOk(h', net)
  {
    hide Extends, MsgOk;
    forall m | m in net ensures MsgOk(h', m) {
      MsgStays(h, h', id, m);
    }
  }

  lemma DrainedGood(h: History, n: Node)
    requires Good(h, n)
    ensures NodeFine(h, n.cfg.id, Drain(n)) && NetOk(h, Outbox(n))
  {
  }

  /** A step of one node that the history backs is a step of the cluster that the history backs. */
  lemma ReplaceBacked(h: History, h': History, c: State, id: Id, n: Node)
    requires Backed(h, c) && id in c.nodes && Inv(h') && Extends(h, h', id) && Good(h', n) && n.cfg.id == id
    ensures Backed(h', Replace(c, id, n))
  {
    hide Inv, Extends, Good, NetOk, Drain, MsgOk;
    var c' := Replace(c, id, n);
    DrainedGood(h', n);
    NetStays(h, h', id, c.net);
    NetUnion(h', c.net, Outbox(n));
    SameVoters(h, h', id);
    forall i | i in c'.nodes ensures NodeFine(h', i, c'.nodes[i]) {
      if i != id { GoodStays(h, h', id, c.nodes[i]); }
    }
    assert c'.nodes.Keys == c.nodes.Keys;
  }

  lemma SameVoters(h: History, h': History, id: Id)
    requires Extends(h, h', id)
    ensures h'.voters == h.voters && h'.boot == h.boot
  {
  }

  lemma NetUnion(h: History, a: set<Message>, b: set<Message>)
    requires NetOk(h, a) && NetOk(h, b)
    ensures NetOk(h, a + b)
  {
  }

  // --------------------------------------------------------------------------
  // The server's own steps

  lemma ReducedGood(h: History, n: Node, es: seq<Entry>)
    requires Good(h, n)
    ensures Good(h, ReduceUncommitted(n, es)) && ReduceUncommitted(n, es).log == n.log
  {
    var n' := ReduceUncommitted(n, es);
    assert n' == n.(uncommitted := n'.uncommitted);
    hide ReduceUncommitted, PayloadSize32, MsgOk, VotedFor, LeaderIs, Shows, ValidConfig, R.Consistent;
    assert Granted(n') == Granted(n);
    if n.role == Leader { LeadingFrame(h, n, n'); }
  }

  /** Moving the base, the snapshot or the applied cursor within the committed part changes nothing else. */
  lemma RebasedGood(h: History, n: Node, l: RLog)
    requires Good(h, n) && l.committed == n.log.committed && l.LastIndex() == n.log.LastIndex()
    requires n.cfg.id in h.log && Shows(l, h.log[n.cfg.id]) && l.Numbered()
    ensures Good(h, n.(log := l))
  {
  }

  lemma ApplyGood(h: History, n: Node, to: nat)
    requires Good(h, n) && Sane(n) && CanApply(n, to)
    ensures Good(h, ApplyTo(n, to)) && ApplyTo(n, to).cfg == n.cfg
  {
    hide Good, Shows, Shape, ReduceUncommitted;
    var es := n.log.ents[n.log.applied - n.log.base..to - n.log.base];
    ReducedGood(h, n, es);
    var n1 := ReduceUncommitted(n, es);
    GoodLog(h, n1);
    AppliedShows(n1.log, h.log[n1.cfg.id], to);
    RebasedGood(h, n1, n1.log.(applied := to));
    SameConfig(n, es);
  }

  lemma SameConfig(n: Node, es: seq<Entry>)
    ensures ReduceUncommitted(n, es).cfg == n.cfg
  {
  }

  lemma GoodLog(h: History, n: Node)
    requires Good(h, n)
    ensures n.cfg.id in h.log && Shows(n.log, h.log[n.cfg.id]) && n.log.Numbered()
    ensures n.log.committed <= n.log.LastIndex()
    ensures n.log.base <= n.log.snap.index <= n.log.committed && n.log.applied <= n.log.committed
  {
  }

  lemma AppliedShows(l: RLog, log: Log, to: nat)
    requires Shows(l, log) && l.Numbered() && to <= l.committed
    ensures Shows(l.(applied := to), log) && l.(applied := to).Numbered()
  {
  }

  /** A log cut at a later base still shows the same complete log. */
  lemma CutShows(l: RLog, log: Log, base: nat, snap: Snapshot, commit: nat, applied: nat)
    requires Shows(l, log) && l.Numbered() && l.base <= base <= snap.index <= commit <= |log| && applied <= commit
    requires snap.term == TermAt(log, snap.index)
    ensures var l' := RLog(base, TermAt(log, base), l.ents[base - l.base..], snap, commit, applied);
      Shows(l', log) && l'.Numbered() && l'.LastIndex() == l.LastIndex()
  {
  }

  lemma CompactGood(h: History, n: Node, snap: nat, base: nat)
    requires Good(h, n) && CanCompact(n, snap, base)
    ensures Good(h, CompactTo(n, snap, base))
  {
    hide Good, Shows;
    GoodLog(h, n);
    var log := h.log[n.cfg.id];
    LastOf(n.log, log);
    ShownTerm(n.log, log, base);
    ShownTerm(n.log, log, snap);
    CutShows(n.log, log, base, Snapshot(snap, TermAt(log, snap)), n.log.committed, n.log.applied);
    RebasedGood(h, n, CompactTo(n, snap, base).log);
  }

  /** A crash may lose the tail of the commit index; the entries, the term and the vote survive. */
  lemma RestartKept(h: History, n: Node, commit: nat) returns (h': History)
    requires Inv(h) && Good(h, n) && Sane(n) && CanRestart(n, commit)
    ensures Kept(h, h', n.cfg.id, Restarted(n, commit)) && Restarted(n, commit).cfg == n.cfg
  {
    hide Inv, RoleOk, Core, SentOk, Extends, Shows, SetCommit, Reset, Safe;
    CoreFacts(h, n);
    LogOf(h, n);
    CommitOf(h, n);
    var me, log, s := n.cfg.id, h.log[n.cfg.id], n.log.snap;
    LastOf(n.log, log);
    SnapTerm(n.log, log);
    CutShows(n.log, log, s.index, s, commit, s.index);
    var l := RLog(s.index, s.term, n.log.ents[s.index - n.log.base..], s, commit, s.index);
    EarlierCommit(h, me, commit);
    h' := SetCommit(h, me, commit);
    SetCommitInv(h, me, commit);
    SetIs(h, me, commit);
    LogCore(h, h', n, l);
    ResetMsgs(n.(log := l), n.term);
    RestartedGood(h, h', n, l);
  }

  lemma SnapTerm(l: RLog, log: Log)
    requires Shows(l, log)
    ensures l.snap.index <= |log| && l.snap.term == TermAt(log, l.snap.index)
  {
  }

  lemma SetIs(h: History, n: Id, k: nat)
    ensures var h' := SetCommit(h, n, k);
      && h'.votes == h.votes && h'.term == h.term && h'.log == h.log && h'.voters == h.voters
      && h'.boot == h.boot && n in h'.commit && h'.commit[n] == k
  {
  }

  lemma EarlierCommit(h: History, n: Id, k: nat)
    requires Inv(h) && n in h.voters && n in h.commit && n in h.log && n in h.term && k <= h.commit[n]
    ensures k <= |h.log[n]| && Safe(h, h.log[n][..k], h.term[n])
  {
    hide *;
    InvElim(h);
    CommitBound(h, n);
    assert h.log[n][..k] <= h.log[n][..h.commit[n]];
    SafeShorter(h, h.log[n][..k], h.log[n][..h.commit[n]], h.term[n]);
  }

  lemma RestartedGood(h: History, h': History, n: Node, l: RLog)
    requires SentOk(h, n) && Extends(h, h', n.cfg.id) && Core(h', n.(log := l)) && n.cfg.id != 0
    ensures Good(h', Reset(n.(log := l), n.term).(role := Follower, readStates := [], fatal := false))
  {
    var n1 := n.(log := l);
    hide Extends, Shows, MsgOk, ValidConfig;
    SentStays(h, h', n.cfg.id, n);
    ResetCore(h', n1, 0, Follower);
  }

  // --------------------------------------------------------------------------
  // Every step, every run

  function Same<K, T>(keys: set<K>, v: T): (r: map<K, T>)
    ensures r.Keys == keys && forall i :: i in keys ==> r[i] == v
  {
    map i | i in keys :: v
  }

  /** Before any step. The entries of the start count as the log of a leader of term 1 that all voters elected. */
  function StartHistory(ids: set<Id>, boot: Log, boss: Id): History {
    if boot == [] then
      History(ids, 0, Same(ids, 0), Same(ids, []), Same(ids, 0), map[], map[], map[], map[], map[], map[], map[])
    else
      var all := set i | i in ids :: (i, 1);
      History(ids, 1, Same(ids, 1), Same(ids, boot), Same(ids, |boot|), map[(boss, 1) := []], Same(all, Vote(boss, [])),
        map[1 := boss], map[1 := ids], map[1 := boot], map[1 := |boot|], Same(all, |boot|))
  }

  lemma StartBacked(c: State) returns (h: History)
    requires Init(c)
    ensures Backed(h, c) && c.nodes.Keys != {}
  {
    hide Inv, InitialNode, NodeFine, ValidConfig, MsgOk, StartHistory, IsBoot, Init;
    var boot := BootOf(c);
    var boss :| boss in c.nodes;
    h := StartHistory(c.nodes.Keys, boot, boss);
    StartInv(c.nodes.Keys, boot, boss);
    forall i | i in c.nodes ensures NodeFine(h, i, c.nodes[i]) {
      StartGood(c.nodes.Keys, boot, boss, c.nodes[i]);
    }
  }

  lemma BootOf(c: State) returns (boot: Log)
    requires Init(c)
    ensures StartsWith(c, boot)
  {
    boot :| StartsWith(c, boot);
  }

  lemma StartInv(ids: set<Id>, boot: Log, boss: Id)
    requires IsBoot(boot) && boss in ids
    ensures Inv(StartHistory(ids, boot, boss)) && StartHistory(ids, boot, boss).voters == ids
  {
    hide Nodes, Cands, Votes, Leaders, Acks, AcksKept, AcksVoted, Commits, IsBoot, Booted;
    var h := StartHistory(ids, boot, boss);
    if boot == [] {
      NothingYet(h);
    } else {
      StartBooted(ids, boot, boss);
      BootedVoters(h, boot, boss);
      BootedLeader(h, boot, boss);
      BootedAcks(h, boot, boss);
      BootedCommits(h, boot, boss);
    }
  }

  lemma NothingYet(h: History)
    requires h.voters != {} && h.term.Keys == h.voters && h.log.Keys == h.voters && h.commit.Keys == h.voters
    requires (forall n :: n in h.voters ==> h.log[n] == [] && h.commit[n] == 0)
    requires h.cands == map[] && h.votes == map[] && h.leader == map[] && h.electors == map[]
    requires h.ll == map[] && h.lc == map[] && h.acks == map[]
    ensures Inv(h)
  {
  }

  lemma StartLog(boot: Log)
    requires IsBoot(boot)
    ensures LogOk(map[1 := boot], boot, 1) && LogOk(map[1 := boot], [], 0) && LogOk(map[1 := boot], [], 1)
  {
  }

  /** The history of a start with entries. */
  ghost predicate Booted(h: History, boot: Log, boss: Id) {
    && IsBoot(boot) && boot != [] && boss in h.voters && h.boot == 1
    && h.term == Same(h.voters, 1) && h.log == Same(h.voters, boot) && h.commit == Same(h.voters, |boot|)
    && h.cands == map[(boss, 1) := []]
    && (forall n, t :: (n, t) in h.votes <==> n in h.voters && t == 1)
    && (forall n, t :: (n, t) in h.votes ==> h.votes[(n, t)] == Vote(boss, []))
    && h.leader == map[1 := boss] && h.electors == map[1 := h.voters]
    && h.ll == map[1 := boot] && h.lc == map[1 := |boot|]
    && (forall n, t :: (n, t) in h.acks <==> n in h.voters && t == 1)
    && (forall n, t :: (n, t) in h.acks ==> h.acks[(n, t)] == |boot|)
  }

  lemma StartBooted(ids: set<Id>, boot: Log, boss: Id)
    requires IsBoot(boot) && boss in ids && boot != []
    ensures Booted(StartHistory(ids, boot, boss), boot, boss) && StartHistory(ids, boot, boss).voters == ids
  {
  }

  lemma BootedVoters(h: History, boot: Log, boss: Id)
    requires Booted(h, boot, boss)
    ensures Nodes(h) && Cands(h) && Votes(h)
  {
    hide LogOk;
    StartLog(boot);
  }

  lemma BootedLeader(h: History, boot: Log, boss: Id)
    requires Booted(h, boot, boss)
    ensures Leaders(h) && Acks(h) && AcksVoted(h)
  {
    hide LogOk;
    StartLog(boot);
    forall n | n in h.voters ensures VotedFor(h, n, 1, boss) { assert (n, 1) in h.votes; }
    assert (boss, 1) in h.cands && h.cands[(boss, 1)] <= boot;
  }

  lemma BootedAcks(h: History, boot: Log, boss: Id)
    requires Booted(h, boot, boss) && Nodes(h) && Acks(h)
    ensures AcksKept(h)
  {
    hide LogOk, Nodes, Acks;
    forall n, t, i: nat | Acked(h, n, t, i) ensures AckOk(h, n, t) && AckKept(h, n, t, i) {
      assert h.ll[1][..i] <= boot;
    }
  }

  lemma BootedCommits(h: History, boot: Log, boss: Id)
    requires Booted(h, boot, boss) && Nodes(h) && Leaders(h)
    ensures Commits(h)
  {
    hide Nodes, Leaders, IsBoot;
    assert boot[|boot| - 1].term == 1 by { BootTerms(boot); }
    assert forall n :: n in h.voters ==> Acked(h, n, 1, |boot|) by {
      forall n | n in h.voters ensures Acked(h, n, 1, |boot|) { assert (n, 1) in h.acks; }
    }
    assert ChosenBy(h, 1, |boot|, h.voters);
    assert boot[..|boot|] == boot;
    assert SafeVia(h, boot, 1, 1, |boot|);
  }

  lemma BootTerms(boot: Log)
    requires IsBoot(boot)
    ensures forall i :: 0 <= i < |boot| ==> boot[i].term == 1
  {
  }

  lemma StartGood(ids: set<Id>, boot: Log, boss: Id, n: Node)
    requires ValidConfig(n.cfg) && n == InitialNode(n.cfg, boot) && IsBoot(boot)
    requires n.cfg.id in ids && (forall p :: p in n.cfg.peers <==> p in ids)
    ensures NodeFine(StartHistory(ids, boot, boss), n.cfg.id, n)
  {
  }

  lemma FineIsSane(h: History, i: Id, n: Node)
    requires NodeFine(h, i, n)
    ensures Sane(n) && Shape(n)
  {
  }

  lemma NextBacked(h: History, c: State, e: Event, c': State) returns (h': History)
    requires Backed(h, c) && Next(c, e, c') && Counted(c, e)
    ensures Backed(h', c') && Extends(h, h', Actor(e)) && Actor(e) in c.nodes
    ensures c'.nodes.Keys == c.nodes.Keys && c'.nodes[Actor(e)].cfg == c.nodes[Actor(e)].cfg
    ensures forall i :: i in c.nodes && i != Actor(e) ==> c'.nodes[i] == c.nodes[i]
  {
    hide Inv, Extends, Good, NetOk, Drain, MsgOk, Step, Restarted, CompactTo, ApplyTo, Miscounts, IsLocal, Shape,
      Sane, CanCompact, CanApply, CanRestart;
    var id := Actor(e);
    var n := c.nodes[id];
    assert NodeFine(h, id, n);
    h' := h;
    var n';
    match e {
      case Deliver(m, lease) =>
        n' := Step(n, m, lease);
        NetMessage(h, c.net, m);
        h' := StepKept(h, n, m, lease);
        StepKeepsConfig(n, m, lease);
      case Local(_, m) =>
        n' := Step(n, m, false);
        LocalCounts(n, m);
        h' := StepKept(h, n, m, false);
        StepKeepsConfig(n, m, false);
      case Apply(_, to) =>
        n' := ApplyTo(n, to);
        ExtendsRefl(h, id);
        ApplyGood(h, n, to);
      case Compact(_, snap, base) =>
        n' := CompactTo(n, snap, base);
        ExtendsRefl(h, id);
        CompactGood(h, n, snap, base);
        CompactConfig(n, snap, base);
      case Restart(_, commit) =>
        n' := Restarted(n, commit);
        h' := RestartKept(h, n, commit);
    }
    ReplaceBacked(h, h', c, id, n');
    DrainConfig(n');
  }

  lemma NetMessage(h: History, net: set<Message>, m: Message)
    requires NetOk(h, net) && m in net
    ensures MsgOk(h, m)
  {
  }

  lemma LocalCounts(n: Node, m: Message)
    requires IsLocal(m)
    ensures !Miscounts(n, m)
  {
  }

  lemma CompactConfig(n: Node, snap: nat, base: nat)
    requires CanCompact(n, snap, base)
    ensures CompactTo(n, snap, base).cfg == n.cfg
  {
  }

  lemma DrainConfig(n: Node)
    ensures Drain(n).cfg == n.cfg
  {
  }
}
