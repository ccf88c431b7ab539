/**
 What holds in every run of a cluster, also in one where a pre-vote response is counted as a vote: the checks of
 LocalInv, one vote per node and term, and which runs miscount or answer reads at all.
 */
module EveryRun {
  import opened Proto
  import opened Logs
  import opened RaftLogSpec
  import opened NodeSpec
  import opened LocalInv
  import opened StepProofs
  import opened Cluster
  import Q = ReadQueue
  import R = ReadOnlySpec

  predicate RunsPreVote(c: State) {
    exists i :: i in c.nodes && c.nodes[i].cfg.preVote
  }

  /** Some node answers reads on a lease, or is alone. */
  predicate AnswersReads(c: State) {
    exists i :: i in c.nodes && MayAnswer(c.nodes[i].cfg)
  }

  // --------------------------------------------------------------------------
  // The invariant of a cluster

  ghost predicate FitNet(g: Ledger, net: set<Message>) {
    forall m :: m in net ==> FitMsg(g, m)
  }

  ghost predicate FitAt(g: Ledger, i: Id, n: Node) {
    Fit(g, n) && n.cfg.id == i && n.msgs == [] && n.readStates == []
  }

  ghost predicate Held(g: Ledger, c: State) {
    && g.voters == c.nodes.Keys && FitNet(g, c.net)
    && forall i :: i in c.nodes ==> FitAt(g, i, c.nodes[i])
  }

  function StartLedger(c: State): Ledger {
    var pre := set i | i in c.nodes && c.nodes[i].cfg.preVote;
    Ledger(c.nodes.Keys, pre, AnswersReads(c), map[])
  }

  lemma StartFits(g: Ledger, boot: Log, n: Node)
    requires n == InitialNode(n.cfg, boot) && IsBoot(boot) && FitConfig(g, n.cfg) && g.votes == map[]
    ensures Fit(g, n) && n.msgs == [] && n.readStates == []
  {
  }

  lemma StartConfig(c: State, i: Id)
    requires Init(c) && i in c.nodes
    ensures FitConfig(StartLedger(c), c.nodes[i].cfg) && c.nodes[i].cfg.id == i
  {
    hide InitialNode, IsBoot;
  }

  lemma StartHeld(c: State)
    requires Init(c)
    ensures Held(StartLedger(c), c)
  {
    hide Fit, FitConfig, IsBoot, InitialNode, Init, StartLedger, ValidConfig;
    var boot := BootOf(c);
    var g := StartLedger(c);
    StartIs(c);
    forall i | i in c.nodes ensures FitAt(g, i, c.nodes[i]) {
      StartConfig(c, i);
      StartFits(g, boot, c.nodes[i]);
    }
  }

  lemma StartIs(c: State)
    ensures var g := StartLedger(c); g.votes == map[] && g.voters == c.nodes.Keys && g.answers == AnswersReads(c)
  {
  }

  // --------------------------------------------------------------------------
  // One event

  lemma DrainFits(g: Ledger, n: Node)
    requires Fit(g, n)
    ensures FitAt(g, n.cfg.id, Drain(n)) && FitNet(g, Outbox(n))
  {
    hide FitMsg, FitConfig, Q.Ordered, FitLedger, FitRole;
    RoleSame(g, n, Drain(n));
  }

  lemma RoleSame(g: Ledger, n: Node, n': Node)
    requires FitLedger(g, n) && FitRole(g, n) && SameVote(n, n')
    ensures FitLedger(g, n') && FitRole(g, n')
  {
  }

  lemma ReplaceHeld(g: Ledger, g': Ledger, c: State, id: Id, n: Node)
    requires Held(g, c) && id in c.nodes && Moves(g, g', c.nodes[id], n)
    ensures Held(g', Replace(c, id, n))
  {
    hide Fit, FitMsg, Drain, Grown;
    assert FitAt(g, id, c.nodes[id]);
    DrainFits(g', n);
    MovedVoters(g, g', c.nodes[id], n);
    var c' := Replace(c, id, n);
    forall m | m in c.net ensures FitMsg(g', m) { MsgFits(g, g', m); }
    forall i | i in c'.nodes ensures FitAt(g', i, c'.nodes[i]) {
      if i != id {
        assert FitAt(g, i, c.nodes[i]);
        OtherFits(g, g', c.nodes[i]);
      }
    }
  }

  lemma MovedVoters(g: Ledger, g': Ledger, n: Node, n': Node)
    requires Moves(g, g', n, n')
    ensures g'.voters == g.voters
  {
  }

  lemma ApplyFits(g: Ledger, n: Node, to: nat)
    requires Fit(g, n) && Sane(n) && CanApply(n, to)
    ensures Moves(g, g, n, ApplyTo(n, to))
  {
    hide FitCore, ReduceUncommitted, Shape;
    FitShape(g, n);
    var n1 := ReduceUncommitted(n, n.log.ents[n.log.applied - n.log.base..to - n.log.base]);
    ReducedFits(g, n, n.log.ents[n.log.applied - n.log.base..to - n.log.base]);
    CoreFacts(g, n1);
    ShapeLog(n1, n1.log.(applied := to));
    LogFits(g, n1, n1.log.(applied := to));
    VoteKeeps(g, n, ApplyTo(n, to));
    StepsSame(g, n, ApplyTo(n, to));
  }

  lemma ShapeLog(n: Node, l: RLog)
    requires Shape(n) && l == n.log.(applied := l.applied)
    ensures l.Numbered()
  {
  }

  lemma CompactFits(g: Ledger, n: Node, snap: nat, base: nat)
    requires Fit(g, n) && CanCompact(n, snap, base)
    ensures Moves(g, g, n, CompactTo(n, snap, base))
  {
    hide FitCore, RLog.Term;
    FitShape(g, n);
    LogFits(g, n, CompactTo(n, snap, base).log);
    VoteKeeps(g, n, CompactTo(n, snap, base));
    StepsSame(g, n, CompactTo(n, snap, base));
  }

  lemma RestartFits(g: Ledger, n: Node, commit: nat)
    requires Fit(g, n) && Sane(n) && CanRestart(n, commit)
    ensures Moves(g, g, n, Restarted(n, commit))
  {
    hide FitMsgs, FitConfig, Q.Ordered, Granted, Elected, VotesBacked;
    EmptyOrdered(commit);
  }

  lemma NextHeld(g: Ledger, c: State, e: Event, c': State) returns (g': Ledger)
    requires Held(g, c) && Next(c, e, c')
    ensures Held(g', c') && Grown(g, g')
    ensures (forall i :: i in c.nodes ==> i in c'.nodes && c'.nodes[i].cfg == c.nodes[i].cfg)
  {
    hide Fit, FitMsg, Drain, Grown, Step, Restarted, CompactTo, ApplyTo, IsLocal, Shape, Sane, CanCompact, CanApply,
      CanRestart;
    var id := Actor(e);
    var n := c.nodes[id];
    assert FitAt(g, id, n);
    g' := g;
    var n';
    match e {
      case Deliver(m, lease) =>
        n' := Step(n, m, lease);
        g' := StepFits(g, n, m, lease);
      case Local(_, m) =>
        n' := Step(n, m, false);
        g' := StepFits(g, n, m, false);
      case Apply(_, to) =>
        n' := ApplyTo(n, to);
        ApplyFits(g, n, to);
      case Compact(_, snap, base) =>
        n' := CompactTo(n, snap, base);
        CompactFits(g, n, snap, base);
      case Restart(_, commit) =>
        n' := Restarted(n, commit);
        RestartFits(g, n, commit);
    }
    ReplaceHeld(g, g', c, id, n');
    DrainConfig(n');
  }

  // --------------------------------------------------------------------------
  // Runs

  ghost predicate Tracks(gs: seq<Ledger>, cs: seq<State>) {
    && |gs| == |cs| > 0 && gs[0] == StartLedger(cs[0])
    && (forall i :: 0 <= i < |gs| ==> Held(gs[i], cs[i]))
    && (forall i, j :: 0 <= i <= j < |gs| ==> Grown(gs[i], gs[j]))
    && (forall i, n :: 0 <= i < |cs| && n in cs[0].nodes ==>
      n in cs[i].nodes && cs[i].nodes[n].cfg == cs[0].nodes[n].cfg)
  }

  lemma {:induction false} RunTracked(cs: seq<State>, es: seq<Event>) returns (gs: seq<Ledger>)
    requires Run(cs, es)
    ensures Tracks(gs, cs)
    decreases |es|
  {
    hide Init, Next, Held, Grown, StartLedger;
    if es == [] {
      StartHeld(cs[0]);
      gs := [StartLedger(cs[0])];
      GrownSame(gs[0]);
    } else {
      var k := |es| - 1;
      var gs' := RunTracked(cs[..k + 1], es[..k]);
      assert Held(gs'[k], cs[k]);
      var g := NextHeld(gs'[k], cs[k], es[k], cs[k + 1]);
      gs := gs' + [g];
      GrownSame(g);
      forall i, j | 0 <= i <= j < |gs| ensures Grown(gs[i], gs[j]) {
        if i < k + 1 && j == k + 1 { GrownTrans(gs[i], gs[k], g); }
      }
      forall i, n | 0 <= i < |cs| && n in cs[0].nodes
        ensures n in cs[i].nodes && cs[i].nodes[n].cfg == cs[0].nodes[n].cfg
      {
        if i <= k { assert cs[..k + 1][i] == cs[i]; } else { assert cs[..k + 1][k] == cs[k]; }
      }
    }
  }

  lemma GrownSame(g: Ledger)
    ensures Grown(g, g)
  {
  }

  lemma GrownTrans(a: Ledger, b: Ledger, c: Ledger)
    requires Grown(a, b) && Grown(b, c)
    ensures Grown(a, c)
  {
  }

  lemma HeldAt(g: Ledger, c: State, n: Id)
    requires Held(g, c) && n in c.nodes
    ensures Fit(g, c.nodes[n]) && c.nodes[n].cfg.id == n
  {
    hide Fit;
  }

  /** In every run, every node keeps its own checks: its data are in shape, and its read requests queued in order. */
  lemma ReadsInOrder(cs: seq<State>, es: seq<Event>, a: nat, n: Id)
    requires Run(cs, es) && a < |cs| && n in cs[a].nodes
    ensures Shape(cs[a].nodes[n]) && Q.Ordered(cs[a].nodes[n].readOnly, cs[a].nodes[n].log.committed)
    ensures forall ctx :: !R.AdvanceFails(cs[a].nodes[n].readOnly, ctx)
  {
    hide Run, FitConfig, FitMsgs, Q.Ordered, FitLedger, FitRole, Shape, Held, R.AdvanceFails;
    var gs := RunTracked(cs, es);
    HeldAt(gs[a], cs[a], n);
    var r := cs[a].nodes[n].readOnly;
    OrderedIs(r, cs[a].nodes[n].log.committed);
    forall ctx ensures !R.AdvanceFails(r, ctx) { Q.AdvanceNeverFails(r, ctx); }
  }

  lemma OrderedIs(r: R.ReadOnly, committed: nat)
    requires Q.Ordered(r, committed)
    ensures R.Consistent(r)
  {
  }

  /**
   A candidate that is still one has not seen a majority, so that equality with the quorum catches the winning vote.
   */
  lemma CandidateBelowQuorum(cs: seq<State>, es: seq<Event>, a: nat, n: Id)
    requires Run(cs, es) && a < |cs| && n in cs[a].nodes
    ensures var k := cs[a].nodes[n];
      && (k.role == Candidate || k.role == PreCandidate ==> Granted(k) < NodeQuorum(k) && k.lead == 0)
      && (k.role == Candidate || k.role == Leader ==> k.vote == n)
  {
    hide Run, FitCore, FitLedger, Held, Granted, VotesBacked, Elected;
    var gs := RunTracked(cs, es);
    HeldAt(gs[a], cs[a], n);
  }

  /** A node casts at most one vote in a term, whatever is delivered, repeated or lost, and across restarts. */
  lemma OneVotePerTerm(cs: seq<State>, es: seq<Event>, a: nat, b: nat, n: Id)
    requires Run(cs, es) && a <= b < |cs| && n in cs[a].nodes && n in cs[b].nodes
    requires cs[a].nodes[n].term == cs[b].nodes[n].term && cs[a].nodes[n].vote != 0
    ensures cs[b].nodes[n].vote == cs[a].nodes[n].vote
  {
    hide Run, FitCore, FitRole, Held;
    var gs := RunTracked(cs, es);
    HeldAt(gs[a], cs[a], n);
    HeldAt(gs[b], cs[b], n);
    assert Grown(gs[a], gs[b]);
  }

  // --------------------------------------------------------------------------
  // Pre-votes

  /** Without the pre-vote phase no pre-vote response is ever sent, so none is miscounted. */
  lemma PreVoteOffCounted(cs: seq<State>, es: seq<Event>)
    requires Run(cs, es) && !RunsPreVote(cs[0])
    ensures AllCounted(cs, es)
  {
    hide Init, Held, Grown, FitMsg, RunsPreVote;
    var gs := RunTracked(cs, es);
    forall i | 0 <= i < |es| ensures Counted(cs[i], es[i]) {
      assert Next(cs[i], es[i], cs[i + 1]);
      assert Grown(gs[0], gs[i]);
      NonePre(cs[0]);
      GrownSets(gs[0], gs[i]);
      if es[i].Deliver? { NotPre(gs[i], cs[i], es[i].m); }
    }
  }

  lemma NonePre(c: State)
    requires !RunsPreVote(c)
    ensures StartLedger(c).pre == {}
  {
  }

  lemma GrownSets(g: Ledger, g': Ledger)
    requires Grown(g, g')
    ensures g'.pre == g.pre && g'.answers == g.answers && g'.voters == g.voters
  {
  }

  lemma NotPre(g: Ledger, c: State, m: Message)
    requires Held(g, c) && m in c.net && g.pre == {}
    ensures m.mtype != MsgPreVoteResp
  {
    assert FitMsg(g, m);
  }
}
