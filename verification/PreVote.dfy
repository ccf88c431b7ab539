/**
 The pre-vote phase and Election Safety. A candidate counts a granted pre-vote response as a vote, so two nodes can
 lead one term - unless the phase is off everywhere, or there are too few voters for it.
 */
module PreVote {
  import opened Proto
  import opened Quorum
  import opened Logs
  import opened NodeSpec
  import opened LocalInv
  import opened Cluster
  import opened EveryRun
  import opened Schedules
  import Safety

  ghost predicate OneLeaderPerTerm(c: State) {
    forall m, n :: Leads(c, m) && Leads(c, n) && c.nodes[m].term == c.nodes[n].term ==> m == n
  }

  predicate Leads(c: State, n: Id) {
    n in c.nodes && c.nodes[n].role == Leader
  }

  predicate Rivals(c: State, x: Id, y: Id) {
    && x in c.nodes && y in c.nodes && x != y
    && c.nodes[x].cfg.preVote && (c.nodes[y].cfg.preVote || |c.nodes| >= 3)
  }

  /** Some node runs the pre-vote phase, and either another one does too or there are three voters or more. */
  ghost predicate Exposed(c: State) {
    exists x, y :: Rivals(c, x, y)
  }

  // --------------------------------------------------------------------------
  // The run that breaks the property

  /** x opens a pre-campaign, and everybody grants it. */
  lemma Courted(c0: State, boot: Log, c: State, x: Id) returns (c': State)
    requires |c.nodes.Keys| >= 2 && Stage(c0, boot, c, false) && x in c.nodes
    requires c.nodes[x] == Fresh(c.nodes[x].cfg, boot, |boot|) && c.nodes[x].cfg.preVote
    requires forall p :: p in c.nodes && p != x ==> Idle(c.nodes[p], boot)
    ensures Stage(c0, boot, c', false) && Only(c, c', x) && c'.nodes[x] == Pre(c.nodes[x].cfg, boot, {x})
    ensures forall p :: p in c.nodes && p != x ==> Yes(MsgPreVoteResp, p, x, boot) in c'.net
  {
    hide Stage, Idle, Fresh, Pre, Ask, Yes;
    var c1 := RunPreHup(c0, boot, c, false, x);
    c' := RunPreGrants(c0, boot, c1, false, x, c.nodes.Keys - {x});
  }

  /** x comes to lead on pre-vote responses alone: they are counted twice. */
  lemma LeadsUnvoted(c0: State, boot: Log, c: State, x: Id) returns (c': State)
    requires |c.nodes.Keys| >= 2 && Stage(c0, boot, c, false) && x in c.nodes
    requires c.nodes[x] == Pre(c.nodes[x].cfg, boot, {x})
    requires forall p :: p in c.nodes && p != x ==> Yes(MsgPreVoteResp, p, x, boot) in c.net
    ensures Stage(c0, boot, c', false) && Only(c, c', x) && c'.nodes[x].role == Leader
    ensures c'.nodes[x].term == First(boot)
  {
    hide Stage, Pre, Cand, Yes, Ask, Wins, Shape, ValidConfig, IsBoot, First;
    StageConfig(c0, boot, c, false, x);
    var cfg := c.nodes[x].cfg;
    var others := c.nodes.Keys - {x};
    OthersCount(c.nodes.Keys, x);
    var c1 := RunPre(c0, boot, c, false, x, {x}, others);
    CandFacts(cfg, boot, {x});
    var c2, n', won := RunWin(c0, boot, c1, false, x, MsgPreVoteResp, {x}, others);
    c' := c2;
    OnlyTrans(c, c1, c', x);
    Won(cfg, boot, won, n');
  }

  lemma Won(cfg: Config, boot: Log, won: set<Id>, n': Node)
    requires IsBoot(boot) && Shape(Cand(cfg, boot, won)) && Wins(Cand(cfg, boot, won), n')
    ensures Drain(n').role == Leader && Drain(n').term == First(boot)
  {
    hide BecomeLeader, BcastAppend, Cand, IsBoot;
    CandFacts(cfg, boot, won);
  }

  /** y comes to lead on the votes of the nodes that have done nothing yet. */
  lemma LeadsVoted(c0: State, boot: Log, c: State, y: Id, ps: set<Id>) returns (c': State)
    requires |c.nodes.Keys| >= 2 && Stage(c0, boot, c, false) && y in c.nodes
    requires c.nodes[y] == Fresh(c.nodes[y].cfg, boot, |boot|) && !c.nodes[y].cfg.preVote
    requires y !in ps && ps <= c.nodes.Keys && (forall p :: p in ps ==> IsFresh(c.nodes[p], boot))
    requires QuorumSize(|c.nodes.Keys|) <= |ps| + 1
    ensures Stage(c0, boot, c', false) && OnlyIn(c, c', ps + {y}) && c'.nodes[y].role == Leader
    ensures c'.nodes[y].term == First(boot)
  {
    hide Stage, Fresh, Cand, Yes, Ask, Wins, Shape, ValidConfig, IsBoot, First, IsFresh, Supporter;
    StageConfig(c0, boot, c, false, y);
    var cfg := c.nodes[y].cfg;
    var c1 := RunCandHup(c0, boot, c, false, y);
    var c2 := RunVotes(c0, boot, c1, false, y, ps);
    CandFacts(cfg, boot, {y});
    var c3, n', won := RunWin(c0, boot, c2, false, y, MsgVoteResp, {y}, ps);
    c' := c3;
    Won(cfg, boot, won, n');
  }

  lemma FreshIsIdle(n: Node, boot: Log)
    ensures IsFresh(n, boot) ==> Idle(n, boot)
    ensures n == Fresh(n.cfg, boot, |boot|) ==> IsFresh(n, boot)
    ensures n == Pre(n.cfg, boot, {n.cfg.id}) ==> Idle(n, boot)
  {
  }

  /** x and y are about to campaign, nobody else has done anything. */
  ghost predicate Ready(boot: Log, c: State, x: Id, y: Id) {
    && x in c.nodes && y in c.nodes && x != y
    && c.nodes[y] == Fresh(c.nodes[y].cfg, boot, |boot|)
    && forall i :: i in c.nodes && i != x ==> IsFresh(c.nodes[i], boot)
  }

  lemma ReadyIdle(boot: Log, c: State, x: Id, y: Id)
    requires Ready(boot, c, x, y)
    ensures forall i :: i in c.nodes && i != x ==> Idle(c.nodes[i], boot)
  {
    hide IsFresh, Idle;
    forall i | i in c.nodes && i != x ensures Idle(c.nodes[i], boot) { FreshIsIdle(c.nodes[i], boot); }
  }

  lemma Prepared(c0: State, boot: Log, x: Id, y: Id) returns (c: State)
    requires StartsWith(c0, boot) && x in c0.nodes && y in c0.nodes && x != y
    ensures Stage(c0, boot, c, false) && Ready(boot, c, x, y) && c.nodes[x] == Fresh(c.nodes[x].cfg, boot, |boot|)
    ensures c.nodes[x].cfg == c0.nodes[x].cfg && c.nodes[y].cfg == c0.nodes[y].cfg && c.nodes.Keys == c0.nodes.Keys
  {
    hide StartsWith, Stage, Fresh, IsFresh;
    Started(c0, boot, false);
    var c1 := Applied(c0, boot, c0, false, x);
    c := Applied(c0, boot, c1, false, y);
    StageConfig(c0, boot, c, false, x);
    StageConfig(c0, boot, c, false, y);
    FreshConfig(boot);
    FreshIsIdle(c.nodes[y], boot);
  }

  /** With x waiting for its pre-votes, y comes to lead. */
  lemma RivalLeads(c0: State, boot: Log, c: State, x: Id, y: Id) returns (c': State)
    requires |c.nodes.Keys| >= 2 && Stage(c0, boot, c, false) && Ready(boot, c, x, y)
    requires c.nodes[x] == Pre(c.nodes[x].cfg, boot, {x}) && c.nodes[x].cfg.id == x
    requires c.nodes[y].cfg.preVote || |c.nodes.Keys| >= 3
    ensures Stage(c0, boot, c', false) && c'.nodes.Keys == c.nodes.Keys && c.net <= c'.net && c'.nodes[x] == c.nodes[x]
    ensures c'.nodes[y].role == Leader && c'.nodes[y].term == First(boot)
  {
    hide Stage, Fresh, Pre, Idle, IsFresh, Yes, First;
    if c.nodes[y].cfg.preVote {
      ReadyIdle(boot, c, x, y);
      FreshIsIdle(c.nodes[x], boot);
      c' := Courted(c0, boot, c, y);
      FreshConfig(boot);
      PreConfig(boot);
      c' := LeadsUnvoted(c0, boot, c', y);
    } else {
      var ps := c.nodes.Keys - {x} - {y};
      TheRest(c.nodes.Keys, x, y);
      c' := LeadsVoted(c0, boot, c, y, ps);
    }
  }

  lemma ReadyStays(boot: Log, c: State, c': State, x: Id, y: Id)
    requires Ready(boot, c, x, y) && Only(c, c', x)
    ensures Ready(boot, c', x, y) && c'.nodes[y] == c.nodes[y] && c'.nodes.Keys == c.nodes.Keys
  {
    hide IsFresh, Fresh;
  }

  lemma ReadyThere(boot: Log, c: State, x: Id, y: Id)
    requires Ready(boot, c, x, y)
    ensures x in c.nodes && y in c.nodes
  {
  }

  /** x leads without a vote, and y - on pre-votes as well, or on the votes of the rest - leads the same term. */
  lemma TwoLeaders(c0: State, x: Id, y: Id) returns (c: State)
    requires Init(c0) && Rivals(c0, x, y)
    ensures Reachable(c0, c) && Leads(c, x) && Leads(c, y) && c.nodes[x].term == c.nodes[y].term
  {
    hide Init, Stage, Pre, Fresh, Yes, Idle, IsFresh, StartsWith, First, Ready, Only;
    var boot := BootOf(c0);
    NodesSize(c0.nodes);
    TwoOf(c0.nodes.Keys, x, y);
    var c1 := Prepared(c0, boot, x, y);
    ReadyIdle(boot, c1, x, y);
    var c2 := Courted(c0, boot, c1, x);
    ReadyStays(boot, c1, c2, x, y);
    StageConfig(c0, boot, c2, false, x);
    c := Meet(c0, boot, c2, x, y);
  }

  lemma Meet(c0: State, boot: Log, c: State, x: Id, y: Id) returns (c': State)
    requires |c.nodes.Keys| >= 2 && Stage(c0, boot, c, false) && Ready(boot, c, x, y) && x in c.nodes && y in c.nodes
    requires c.nodes[x] == Pre(c.nodes[x].cfg, boot, {x}) && c.nodes[x].cfg.id == x
    requires c.nodes[y].cfg.preVote || |c.nodes.Keys| >= 3
    requires forall p :: p in c.nodes && p != x ==> Yes(MsgPreVoteResp, p, x, boot) in c.net
    ensures Reachable(c0, c') && Leads(c', x) && Leads(c', y) && c'.nodes[x].term == c'.nodes[y].term
  {
    hide Stage, Pre, Fresh, Yes, First, Ready;
    ReadyThere(boot, c, x, y);
    var c3 := RivalLeads(c0, boot, c, x, y);
    c' := LeadsUnvoted(c0, boot, c3, x);
    StageReached(c0, boot, c', false);
  }

  lemma FreshConfig(boot: Log)
    ensures forall cfg, a :: Fresh(cfg, boot, a).cfg == cfg
  {
  }

  lemma PreConfig(boot: Log)
    ensures forall cfg, s :: Pre(cfg, boot, s).cfg == cfg
  {
  }

  lemma TwoOf(all: set<Id>, x: Id, y: Id)
    requires x in all && y in all && x != y
    ensures |all| >= 2
  {
    SubsetSize({x, y}, all);
  }

  lemma TheRest(all: set<Id>, x: Id, y: Id)
    requires x in all && y in all && x != y && |all| >= 3
    ensures QuorumSize(|all|) <= |all - {x} - {y}| + 1
  {
    OthersCount(all, x);
    OthersCount(all - {x}, y);
  }

  // --------------------------------------------------------------------------
  // The clusters that are safe

  lemma SafeWithout(c0: State, c: State)
    requires Reachable(c0, c) && !RunsPreVote(c0)
    ensures OneLeaderPerTerm(c)
  {
    hide Run, RunsPreVote, AllCounted;
    var cs: seq<State>, es: seq<Event> :| Ends(cs, es, c0, c, false);
    RunLong(cs, es);
    PreVoteOffCounted(cs, es);
    var k := |cs| - 1;
    forall m, n | Leads(c, m) && Leads(c, n) && c.nodes[m].term == c.nodes[n].term ensures m == n {
      Safety.ElectionSafety(cs, es, k, k, m, n);
    }
  }

  lemma RunLong(cs: seq<State>, es: seq<Event>)
    requires Run(cs, es)
    ensures |cs| == |es| + 1 && |cs| > 0 && Init(cs[0])
  {
  }

  /** With a single voter, or with two of which one runs the phase. */
  lemma SafeFew(c0: State, c: State)
    requires Reachable(c0, c) && RunsPreVote(c0) && !Exposed(c0)
    ensures OneLeaderPerTerm(c)
  {
    hide Run, Held, Grown, Init, Rivals;
    var cs: seq<State>, es: seq<Event> :| Ends(cs, es, c0, c, false);
    RunLong(cs, es);
    var gs := RunTracked(cs, es);
    var k := |cs| - 1;
    forall m, n | Leads(c, m) && Leads(c, n) && c.nodes[m].term == c.nodes[n].term ensures m == n {
      HeldAt(gs[k], c, m);
      HeldAt(gs[k], c, n);
      assert Grown(gs[0], gs[k]);
      if m != n {
        SameKeys(gs[k], c, c0);
        Few(c0, m, n);
        NoTwo(gs[k], c0, c, m, n);
      }
    }
  }

  lemma SameKeys(g: Ledger, c: State, c0: State)
    requires Held(g, c) && Grown(StartLedger(c0), g)
    ensures c.nodes.Keys == c0.nodes.Keys == g.voters && g.pre == StartLedger(c0).pre
  {
    hide Fit, FitMsg;
  }

  lemma Few(c0: State, m: Id, n: Id)
    requires RunsPreVote(c0) && !Exposed(c0) && m in c0.nodes && n in c0.nodes && m != n
    ensures c0.nodes.Keys == {m, n}
    ensures !c0.nodes[m].cfg.preVote || !c0.nodes[n].cfg.preVote
  {
    assert !Rivals(c0, m, n) && !Rivals(c0, n, m);
    var x :| x in c0.nodes && c0.nodes[x].cfg.preVote;
    var y := if x == m then n else m;
    assert !Rivals(c0, x, y);
    NodesSize(c0.nodes);
    var rest := c0.nodes.Keys - {m, n};
    assert |c0.nodes.Keys| == |rest| + |{m, n}|;
    assert |{m, n}| == 2;
    assert rest == {};
  }

  /** The one without the phase needs the other's vote, which that one gave to itself. */
  lemma NoTwo(g: Ledger, c0: State, c: State, m: Id, n: Id)
    requires g.voters == {m, n} && m != n && c.nodes.Keys == {m, n} && c0.nodes.Keys == {m, n}
    requires g.pre == StartLedger(c0).pre
    requires !c0.nodes[m].cfg.preVote || !c0.nodes[n].cfg.preVote
    requires Fit(g, c.nodes[m]) && Fit(g, c.nodes[n]) && c.nodes[m].cfg.id == m && c.nodes[n].cfg.id == n
    requires c.nodes[m].role == Leader && c.nodes[n].role == Leader
    ensures c.nodes[m].term != c.nodes[n].term
  {
    hide FitCore;
    if c.nodes[m].term == c.nodes[n].term {
      var t := c.nodes[m].term;
      if !c0.nodes[m].cfg.preVote { BothVotes(g, m, n, t); } else { BothVotes(g, n, m, t); }
      assert false;
    }
  }

  lemma BothVotes(g: Ledger, m: Id, n: Id, t: nat)
    requires g.voters == {m, n} && m != n && Elected(g, m, t)
    ensures Voted(g, n, t, m)
  {
    var q: set<Id> :| ElectedBy(g, m, t, q);
    assert |{m, n}| == 2;
    if n !in q { SubsetSize(q, {m}); assert false; }
  }

  /**
   At most one node leads each term in every reachable state if and only if the cluster is not exposed: no node runs
   the pre-vote phase, or there is one voter, or there are two and only one of them runs it.
   */
  lemma ElectionSafeIff(c0: State)
    requires Init(c0)
    ensures (forall c :: Reachable(c0, c) ==> OneLeaderPerTerm(c)) <==> !Exposed(c0)
  {
    hide Init, Reachable, OneLeaderPerTerm, RunsPreVote, Rivals;
    if x, y :| Rivals(c0, x, y) {
      var c := TwoLeaders(c0, x, y);
      Broken(c0, c, x, y);
    } else {
      forall c | Reachable(c0, c) ensures OneLeaderPerTerm(c) {
        if RunsPreVote(c0) { SafeFew(c0, c); } else { SafeWithout(c0, c); }
      }
    }
  }

  lemma Broken(c0: State, c: State, x: Id, y: Id)
    requires Rivals(c0, x, y) && Leads(c, x) && Leads(c, y) && c.nodes[x].term == c.nodes[y].term
    ensures !OneLeaderPerTerm(c)
  {
  }
}
