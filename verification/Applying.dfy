/**
 What the application of each node receives over a whole run: committed entries, snapshots installed from a leader,
 and, after a crash, the snapshot it starts again from. Entries come in index order, none missing and none twice,
 and no two nodes are ever given different entries for one index.
 */
module Applying {
  import opened Proto
  import opened Logs
  import opened Protocol
  import opened Deliveries
  import opened RaftLogSpec
  import opened NodeSpec
  import opened NodeInv
  import opened StepProofs
  import opened Cluster
  import opened Safety
  import opened Steps
  import opened VoterProofs
  import ConfigProofs

  /** After a step: a snapshot that starts above what was applied has to be loaded. */
  function AfterStep(n: Node): seq<Given> {
    if n.log.base > n.log.applied then [Loaded(Snapshot(n.log.base, n.log.baseTerm))] else []
  }

  /** What one event gives to the application of the node it happens at. */
  ghost function GivenBy(c: State, e: Event): seq<Given> {
    match e
    case Deliver(m, lease) =>
      if m.to in c.nodes && Shape(c.nodes[m.to]) then AfterStep(Step(c.nodes[m.to], m, lease)) else []
    case Local(id, m) => if id in c.nodes && Shape(c.nodes[id]) then AfterStep(Step(c.nodes[id], m, false)) else []
    case Apply(id, to) =>
      if id in c.nodes && Sane(c.nodes[id]) && CanApply(c.nodes[id], to)
      then Commands(Between(c.nodes[id].log, c.nodes[id].log.applied, to)) else []
    case Compact(_, _, _) => []
    case Restart(id, _) => if id in c.nodes then [Resumed(c.nodes[id].log.snap)] else []
  }

  /** Everything the application of node id received in the first k events of a run. */
  ghost function Handed(cs: seq<State>, es: seq<Event>, id: Id, k: nat): seq<Given>
    requires k <= |es| <= |cs|
  {
    if k == 0 then []
    else Handed(cs, es, id, k - 1) + if Actor(es[k - 1]) == id then GivenBy(cs[k - 1], es[k - 1]) else []
  }

  // --------------------------------------------------------------------------
  // In order, without gaps or repeats

  /** The node's own snapshot is one of what it has applied. */
  predicate Kept(l: RLog) {
    l.base <= l.applied <= l.committed <= l.LastIndex() && l.snap.index <= l.applied && l.Numbered()
  }

  /** One event: what is given fits on, and the node's cursor is the application's. */
  lemma EventInOrder(h: History, c: State, e: Event, c': State, gs: seq<Given>)
    requires Backed(h, c) && Next(c, e, c') && Counted(c, e) && Actor(e) in c.nodes && Actor(e) in c'.nodes
    requires InOrder(gs, 0) && Kept(c.nodes[Actor(e)].log) && Cursor(gs, 0) == c.nodes[Actor(e)].log.applied
    ensures var gs' := gs + GivenBy(c, e); InOrder(gs', 0) && Cursor(gs', 0) == c'.nodes[Actor(e)].log.applied
    ensures c'.nodes[Actor(e)].log.snap.index <= c'.nodes[Actor(e)].log.applied
  {
    hide Inv, Good, NetOk, Step, MsgOk, Miscounts, IsLocal, Shape, InOrder, Commands;
    var id := Actor(e);
    var n := c.nodes[id];
    assert NodeFine(h, id, n);
    match e {
      case Deliver(m, lease) => StepInOrder(n, m, lease, gs);
      case Local(_, m) => StepInOrder(n, m, false, gs);
      case Apply(_, to) => ApplyInOrder(n, to, gs);
      case Compact(_, snap, base) => assert gs + [] == gs;
      case Restart(_, commit) => RestartInOrder(n, commit, gs);
    }
  }

  lemma StepInOrder(n: Node, m: Message, lease: bool, gs: seq<Given>)
    requires Shape(n) && Kept(n.log) && InOrder(gs, 0) && Cursor(gs, 0) == n.log.applied
    ensures var n' := Step(n, m, lease); var gs' := gs + AfterStep(n');
      InOrder(gs', 0) && Cursor(gs', 0) == Drain(n').log.applied && Drain(n').log.snap.index <= Drain(n').log.applied
  {
    hide Step, Shape, InOrder;
    ConfigProofs.StepKeepsConfig(n, m, lease);
    var n' := Step(n, m, lease);
    if n'.log.base > n'.log.applied {
      OneInOrder(gs, 0, Loaded(Snapshot(n'.log.base, n'.log.baseTerm)));
    } else {
      assert gs + [] == gs;
    }
  }

  lemma ApplyInOrder(n: Node, to: nat, gs: seq<Given>)
    requires Sane(n) && CanApply(n, to) && Kept(n.log) && InOrder(gs, 0) && Cursor(gs, 0) == n.log.applied
    ensures var gs' := gs + Commands(Between(n.log, n.log.applied, to)); var n' := Drain(ApplyTo(n, to));
      InOrder(gs', 0) && Cursor(gs', 0) == n'.log.applied && n'.log.snap.index <= n'.log.applied
  {
    hide InOrder, PayloadSize32, Commands;
    CommandsInOrder(gs, 0, Between(n.log, n.log.applied, to));
  }

  lemma RestartInOrder(n: Node, commit: nat, gs: seq<Given>)
    requires Sane(n) && CanRestart(n, commit) && Kept(n.log) && InOrder(gs, 0) && Cursor(gs, 0) == n.log.applied
    ensures var gs' := gs + [Resumed(n.log.snap)]; var n' := Drain(Restarted(n, commit));
      InOrder(gs', 0) && Cursor(gs', 0) == n'.log.applied && n'.log.snap.index <= n'.log.applied
  {
    hide InOrder, Reset;
    OneInOrder(gs, 0, Resumed(n.log.snap));
    ResetMsgs(n.(log := RLog(
      n.log.snap.index, n.log.snap.term, n.log.ents[n.log.snap.index - n.log.base..], n.log.snap, commit,
                             n.log.snap.index)), n.term);
  }

  lemma StartsEmpty(c: State, id: Id)
    requires Init(c) && id in c.nodes
    ensures c.nodes[id].log.applied == 0 && c.nodes[id].log.snap.index == 0
  {
    hide ValidConfig, IsBoot;
  }

  lemma OthersStay(c: State, e: Event, c': State, id: Id)
    requires Next(c, e, c') && id in c.nodes && Actor(e) != id
    ensures id in c'.nodes && c'.nodes[id] == c.nodes[id]
  {
    hide Step, Restarted, CompactTo, ApplyTo, IsLocal, Shape;
  }

  lemma FineKept(h: History, c: State, id: Id)
    requires Backed(h, c) && id in c.nodes && c.nodes[id].log.snap.index <= c.nodes[id].log.applied
    ensures Kept(c.nodes[id].log)
  {
    hide Inv, Good, NetOk;
    assert NodeFine(h, id, c.nodes[id]);
    FineIsSane(h, id, c.nodes[id]);
  }

  lemma Starts(cs: seq<State>, es: seq<Event>)
    requires Run(cs, es)
    ensures |cs| == |es| + 1 && Init(cs[0])
  {
  }

  lemma {:induction false} RunInOrder(hs: seq<History>, cs: seq<State>, es: seq<Event>, id: Id, k: nat)
    requires Run(cs, es) && AllCounted(cs, es) && Explains(hs, cs, es) && k <= |es| && id in cs[0].nodes
    ensures InOrder(Handed(cs, es, id, k), 0) && id in cs[k].nodes
    ensures Cursor(Handed(cs, es, id, k), 0) == cs[k].nodes[id].log.applied && Kept(cs[k].nodes[id].log)
  {
    hide Run, AllCounted, Explains, Backed, Next, Counted, Kept, InOrder, GivenBy, Init, Extends;
    Starts(cs, es);
    Lengths(hs, cs, es);
    BackedAt(hs, cs, es, k);
    AlwaysThere(hs, cs, es, k);
    if k == 0 {
      StartsEmpty(cs[0], id);
      assert InOrder([], 0) by { EmptyInOrder(); }
    } else {
      RunInOrder(hs, cs, es, id, k - 1);
      RunStep(cs, es, k - 1);
      BackedAt(hs, cs, es, k - 1);
      if Actor(es[k - 1]) == id {
        EventInOrder(hs[k - 1], cs[k - 1], es[k - 1], cs[k], Handed(cs, es, id, k - 1));
      } else {
        OthersStay(cs[k - 1], es[k - 1], cs[k], id);
        assert Handed(cs, es, id, k - 1) + [] == Handed(cs, es, id, k - 1);
        KeptSnap(cs[k].nodes[id].log);
      }
    }
    FineKept(hs[k], cs[k], id);
  }

  lemma EmptyInOrder()
    ensures InOrder([], 0)
  {
  }

  lemma KeptSnap(l: RLog)
    requires Kept(l)
    ensures l.snap.index <= l.applied
  {
  }

  lemma BackedAt(hs: seq<History>, cs: seq<State>, es: seq<Event>, k: nat)
    requires Explains(hs, cs, es) && k < |cs|
    ensures |hs| == |cs| && Backed(hs[k], cs[k])
  {
    hide Backed, Extends;
  }

  /**
   Exactly once and in order, at every time of every run: each entry given to an application has the index right after
   what it had come to, a snapshot from the leader only ever jumps ahead, a restart only falls back to the node's own
   snapshot - and the place it has come to is the node's applied cursor.
   */
  lemma HandedInOrder(cs: seq<State>, es: seq<Event>, id: Id, k: nat)
    requires Run(cs, es) && AllCounted(cs, es) && k <= |es| && id in cs[k].nodes
    ensures InOrder(Handed(cs, es, id, k), 0) && Cursor(Handed(cs, es, id, k), 0) == cs[k].nodes[id].log.applied
  {
    hide Run, AllCounted, Explains, InOrder, Kept;
    var hs := RunExplained(cs, es);
    Starts(cs, es);
    StillThere(hs, cs, es, k, id);
    RunInOrder(hs, cs, es, id, k);
  }

  // --------------------------------------------------------------------------
  // Without jumps: all entries from the first, each once

  /** A node that neither crashed nor was sent a snapshot has given its application exactly the entries 1 to applied. */
  lemma HandedOnce(cs: seq<State>, es: seq<Event>, id: Id, k: nat)
    requires Run(cs, es) && AllCounted(cs, es) && k <= |es| && id in cs[k].nodes
    requires forall g :: g in Handed(cs, es, id, k) ==> g.Command?
    ensures var gs := Handed(cs, es, id, k);
      |gs| == cs[k].nodes[id].log.applied && forall i :: 0 <= i < |gs| ==> gs[i].Command? && gs[i].e.index == i + 1
  {
    hide Run, AllCounted, InOrder;
    Starts(cs, es);
    HandedInOrder(cs, es, id, k);
    NoJumps(Handed(cs, es, id, k), 0);
  }

  // --------------------------------------------------------------------------
  // The same entries everywhere

  /** An entry was given out at some time at which it was committed and in the log. */
  lemma {:induction false} HandedAt(cs: seq<State>, es: seq<Event>, id: Id, k: nat, i: nat) returns (a: nat)
    requires Run(cs, es) && k <= |es| && i < |Handed(cs, es, id, k)| && Handed(cs, es, id, k)[i].Command?
    requires forall j :: 0 <= j < k && id in cs[j].nodes ==> Kept(cs[j].nodes[id].log)
    ensures a < |es| && id in cs[a].nodes
    ensures var e := Handed(cs, es, id, k)[i].e; var n := cs[a].nodes[id];
      Visible(n, e.index) && At(n, e.index) == e && e.index <= n.log.committed
  {
    hide Run, Kept, GivenBy;
    Starts(cs, es);
    var before := Handed(cs, es, id, k - 1);
    if i < |before| {
      a := HandedAt(cs, es, id, k - 1, i);
    } else {
      a := k - 1;
      StepOf(cs, es, a);
      GivenEntry(cs[a], es[a], cs[a + 1], id, i - |before|);
    }
  }

  lemma StepOf(cs: seq<State>, es: seq<Event>, k: nat)
    requires Run(cs, es) && k < |es|
    ensures |cs| == |es| + 1 && Next(cs[k], es[k], cs[k + 1])
  {
    hide Next, Init;
  }

  lemma GivenEntry(c: State, e: Event, c': State, id: Id, i: nat)
    requires Next(c, e, c') && Actor(e) == id && i < |GivenBy(c, e)| && GivenBy(c, e)[i].Command?
    requires id in c.nodes ==> Kept(c.nodes[id].log)
    ensures id in c.nodes
    ensures var x := GivenBy(c, e)[i].e; var n := c.nodes[id];
      Visible(n, x.index) && At(n, x.index) == x && x.index <= n.log.committed
  {
    hide Step, Shape, Restarted, CompactTo, ApplyTo, IsLocal;
  }

  /**
   No two applications are ever given different entries for one index - nor one application before and after a crash -
   whatever has been compacted or replaced by snapshots in between.
   */
  lemma HandedAgree(cs: seq<State>, es: seq<Event>, m: Id, n: Id, j: nat, k: nat, i: nat, l: nat)
    requires Run(cs, es) && AllCounted(cs, es) && j <= |es| && k <= |es| && m in cs[j].nodes && n in cs[k].nodes
    requires i < |Handed(cs, es, m, j)| && l < |Handed(cs, es, n, k)|
    requires var g, g' := Handed(cs, es, m, j)[i], Handed(cs, es, n, k)[l];
      g.Command? && g'.Command? && g.e.index == g'.e.index
    ensures Handed(cs, es, m, j)[i] == Handed(cs, es, n, k)[l]
  {
    hide Run, AllCounted, Explains, Kept, Visible;
    var hs := RunExplained(cs, es);
    Starts(cs, es);
    StillThere(hs, cs, es, j, m);
    StillThere(hs, cs, es, k, n);
    AllKept(hs, cs, es, m);
    AllKept(hs, cs, es, n);
    var a := HandedAt(cs, es, m, j, i);
    var b := HandedAt(cs, es, n, k, l);
    var x := Handed(cs, es, m, j)[i].e.index;
    if a <= b {
      Safety.StateMachineSafety(cs, es, a, b, m, n, x);
    } else {
      Safety.StateMachineSafety(cs, es, b, a, n, m, x);
    }
  }

  lemma AllKept(hs: seq<History>, cs: seq<State>, es: seq<Event>, id: Id)
    requires Run(cs, es) && AllCounted(cs, es) && Explains(hs, cs, es) && id in cs[0].nodes
    ensures |cs| == |es| + 1 && forall j :: 0 <= j < |es| && id in cs[j].nodes ==> Kept(cs[j].nodes[id].log)
  {
    hide Run, AllCounted, Explains, Kept, InOrder;
    Starts(cs, es);
    forall j | 0 <= j < |es| && id in cs[j].nodes ensures Kept(cs[j].nodes[id].log) {
      RunInOrder(hs, cs, es, id, j);
    }
  }

  // --------------------------------------------------------------------------
  // Snapshots stand for what they replace

  lemma SafeOf(hs: seq<History>, cs: seq<State>, es: seq<Event>, a: nat, b: nat, m: Id)
    requires Explains(hs, cs, es) && a <= b < |cs| && m in cs[0].nodes
    ensures m in cs[a].nodes && m in hs[a].log && |hs| == |cs| && Core(hs[a], cs[a].nodes[m])
    ensures var k := cs[a].nodes[m].log.committed;
      k <= |hs[a].log[m]| && Safe(hs[b], hs[a].log[m][..k], cs[a].nodes[m].term)
  {
    hide Explains, Inv, Core, Safe, Later, LaterSafe, Good;
    Lengths(hs, cs, es);
    Known(hs, cs, es, a, m);
    TimePasses(hs, cs, es, a, b, m);
    CommittedIs(hs[a], cs[a].nodes[m]);
    LaterChosen(hs[a], hs[b], hs[a].log[m][..cs[a].nodes[m].log.committed], cs[a].nodes[m].term, cs[a].nodes[m].term);
  }

  /** Committed indices have one term in the whole cluster, also where a log starts at a snapshot. */
  lemma CommittedTerms(cs: seq<State>, es: seq<Event>, a: nat, b: nat, m: Id, n: Id, i: nat)
    requires Run(cs, es) && AllCounted(cs, es) && a < |cs| && b < |cs| && m in cs[a].nodes && n in cs[b].nodes
    requires cs[a].nodes[m].log.base <= i <= cs[a].nodes[m].log.committed
    requires cs[b].nodes[n].log.base <= i <= cs[b].nodes[n].log.committed
    ensures cs[a].nodes[m].log.Term(i) == cs[b].nodes[n].log.Term(i)
  {
    hide Run, AllCounted, Explains, Good, Inv, Core, Safe, RLog.Term;
    var hs := RunExplained(cs, es);
    Starts(cs, es);
    StillThere(hs, cs, es, a, m);
    StillThere(hs, cs, es, b, n);
    var t := if a <= b then b else a;
    SafeOf(hs, cs, es, a, t, m);
    SafeOf(hs, cs, es, b, t, n);
    Known(hs, cs, es, t, m);
    var p := hs[a].log[m][..cs[a].nodes[m].log.committed];
    var q := hs[b].log[n][..cs[b].nodes[n].log.committed];
    SafeComparable(hs[t], p, cs[a].nodes[m].term, q, cs[b].nodes[n].term);
    PrefixesAgree(hs[a].log[m], |p|, hs[b].log[n], |q|, i);
    SameFine(hs, cs, es, a, m);
    SameFine(hs, cs, es, b, n);
    SeenTerm(hs[a], cs[a].nodes[m], i);
    SeenTerm(hs[b], cs[b].nodes[n], i);
    SameTermAt(hs[a].log[m], hs[b].log[n], i);
  }

  lemma SameFine(hs: seq<History>, cs: seq<State>, es: seq<Event>, a: nat, m: Id)
    requires Explains(hs, cs, es) && a < |cs| && m in cs[0].nodes
    ensures m in cs[a].nodes && cs[a].nodes[m].log.committed <= cs[a].nodes[m].log.LastIndex() && |hs| == |cs|
    ensures Core(hs[a], cs[a].nodes[m])
    ensures cs[a].nodes[m].cfg.id == m
  {
    hide Explains, Inv, Good, Core;
    Lengths(hs, cs, es);
    Known(hs, cs, es, a, m);
    GoodLog(hs[a], cs[a].nodes[m]);
  }

  lemma SameTermAt(a: Log, b: Log, i: nat)
    requires i <= |a| && i <= |b| && a[..i] == b[..i]
    ensures TermAt(a, i) == TermAt(b, i)
  {
    if i > 0 { assert a[i - 1] == a[..i][i - 1]; }
  }

  /** A snapshot was loaded by a step that left the log starting at it. */
  lemma {:induction false} LoadedAt(cs: seq<State>, es: seq<Event>, id: Id, k: nat, i: nat) returns (a: nat)
    requires Run(cs, es) && k <= |es| && i < |Handed(cs, es, id, k)| && Handed(cs, es, id, k)[i].Loaded?
    ensures a < |cs| && id in cs[a].nodes
    ensures var s := Handed(cs, es, id, k)[i].s;
      s.index == cs[a].nodes[id].log.base && s.term == cs[a].nodes[id].log.baseTerm
  {
    hide Run, GivenBy, Next;
    Starts(cs, es);
    var before := Handed(cs, es, id, k - 1);
    if i < |before| {
      a := LoadedAt(cs, es, id, k - 1, i);
    } else {
      a := k;
      StepOf(cs, es, k - 1);
      GivenSnapshot(cs[k - 1], es[k - 1], cs[k], id, i - |before|);
    }
  }

  lemma GivenSnapshot(c: State, e: Event, c': State, id: Id, i: nat)
    requires Next(c, e, c') && Actor(e) == id && i < |GivenBy(c, e)| && GivenBy(c, e)[i].Loaded?
    ensures id in c'.nodes
    ensures var s := GivenBy(c, e)[i].s; s.index == c'.nodes[id].log.base && s.term == c'.nodes[id].log.baseTerm
  {
    hide Step, Shape, Restarted, CompactTo, ApplyTo, IsLocal;
  }

  /** A snapshot loaded by one node and an entry given to another - or the same - at that index are of one term. */
  lemma SnapshotAgrees(cs: seq<State>, es: seq<Event>, m: Id, n: Id, j: nat, k: nat, i: nat, l: nat)
    requires Run(cs, es) && AllCounted(cs, es) && j <= |es| && k <= |es| && m in cs[j].nodes && n in cs[k].nodes
    requires i < |Handed(cs, es, m, j)| && l < |Handed(cs, es, n, k)|
    requires var g, g' := Handed(cs, es, m, j)[i], Handed(cs, es, n, k)[l];
      g.Loaded? && g'.Command? && g.s.index == g'.e.index
    ensures Handed(cs, es, m, j)[i].s.term == Handed(cs, es, n, k)[l].e.term
  {
    hide Run, AllCounted, Explains, Kept, Inv, Good, Core, RLog.Term, Visible, At;
    var hs := RunExplained(cs, es);
    Starts(cs, es);
    StillThere(hs, cs, es, k, n);
    AllKept(hs, cs, es, n);
    var a := LoadedAt(cs, es, m, j, i);
    var b := HandedAt(cs, es, n, k, l);
    var x := Handed(cs, es, n, k)[l].e.index;
    StillThere(hs, cs, es, a, m);
    Known(hs, cs, es, a, m);
    GoodLog(hs[a], cs[a].nodes[m]);
    EntryTerm(cs[b].nodes[n], x);
    BaseTerm(cs[a].nodes[m].log);
    CommittedTerms(cs, es, a, b, m, n, x);
  }

  lemma EntryTerm(n: Node, i: nat)
    requires Visible(n, i)
    ensures n.log.Term(i) == At(n, i).term && n.log.base <= i
  {
  }

  lemma BaseTerm(l: RLog)
    ensures l.Term(l.base) == l.baseTerm
  {
  }

  // --------------------------------------------------------------------------
  // What a step leaves for the server's next round

  /** The node after the step that an event makes, before the server takes what it left. */
  function After(c: State, e: Event): Node
    requires (e.Deliver? || e.Local?) && Actor(e) in c.nodes && Shape(c.nodes[Actor(e)])
  {
    if e.Deliver? then Step(c.nodes[e.m.to], e.m, e.lease) else Step(c.nodes[e.id], e.m, false)
  }

  /** Every step of every run leaves one of the two states from which a round of the server starts. */
  lemma StepReestablishes(cs: seq<State>, es: seq<Event>, k: nat)
    requires Run(cs, es) && AllCounted(cs, es) && k < |es| && (es[k].Deliver? || es[k].Local?)
    ensures |cs| == |es| + 1 && Actor(es[k]) in cs[k].nodes && Shape(cs[k].nodes[Actor(es[k])])
    ensures var n := cs[k].nodes[Actor(es[k])]; var l := After(cs[k], es[k]).log;
      Awaits(l, n.log.applied) || JustRestored(l, n.log.applied)
  {
    hide Run, AllCounted, Explains, Kept, InOrder, Inv, Good, Step, IsLocal, Shape, Backed;
    var hs := RunExplained(cs, es);
    Starts(cs, es);
    RunStep(cs, es, k);
    var id := Actor(es[k]);
    StillThere(hs, cs, es, k, id);
    RunInOrder(hs, cs, es, id, k);
    RunInOrder(hs, cs, es, id, k + 1);
    LeavesReady(cs[k], es[k], cs[k + 1]);
  }

  lemma LeavesReady(c: State, e: Event, c': State)
    requires Next(c, e, c') && (e.Deliver? || e.Local?) && Actor(e) in c.nodes && Actor(e) in c'.nodes
    requires Kept(c.nodes[Actor(e)].log) && Kept(c'.nodes[Actor(e)].log)
    ensures Shape(c.nodes[Actor(e)]) && var n := c.nodes[Actor(e)]; var l := After(c, e).log;
      Awaits(l, n.log.applied) || JustRestored(l, n.log.applied)
  {
    hide Step, Shape, IsLocal;
    var n := c.nodes[Actor(e)];
    if e.Deliver? {
      ConfigProofs.StepKeepsConfig(n, e.m, e.lease);
    } else {
      ConfigProofs.StepKeepsConfig(n, e.m, false);
    }
  }
}
