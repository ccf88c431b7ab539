/**
 What becomes of a client's proposal: which entries the leader puts into its log, when it takes none, and that what
 applications are given under these indices is what was proposed.
 */
module Proposals {
  import opened Proto
  import opened RaftLogSpec
  import opened NodeSpec
  import opened Rounds
  import P = ProgressSpec

  // --------------------------------------------------------------------------
  // Configuration changes, one at a time

  predicate IsConf(e: Entry) { e.etype == EntryConfChange }

  /** A configuration change that comes too early: one is pending, or an earlier one of the batch will be. */
  predicate Waits(n: Node, es: seq<Entry>, i: nat)
    requires i < |es|
  {
    && IsConf(es[i])
    && (n.pendingConf > n.log.applied
        || exists k :: 0 <= k < i && IsConf(es[k]) && n.log.LastIndex() + 1 + k > n.log.applied)
  }

  /** What the leader takes of a batch. */
  function Taken(n: Node, es: seq<Entry>): (r: seq<Entry>)
    ensures |r| == |es|
  {
    seq(|es|, i requires 0 <= i < |es| => if Waits(n, es, i) then EMPTY_ENTRY else es[i])
  }

  /** The index under which a configuration change is pending afterwards: the last that was let through. */
  ghost predicate PendingIs(n: Node, es: seq<Entry>, pending: nat) {
    || (pending == n.pendingConf && forall i :: 0 <= i < |es| && IsConf(es[i]) ==> Waits(n, es, i))
    || (exists k :: 0 <= k < |es| && pending == n.log.LastIndex() + 1 + k && IsConf(es[k]) && !Waits(n, es, k)
         && forall i :: k < i < |es| && IsConf(es[i]) ==> Waits(n, es, i))
  }

  ghost predicate Busy(n: Node, es: seq<Entry>, i: nat)
    requires i <= |es|
  {
    || n.pendingConf > n.log.applied
    || exists k :: 0 <= k < i && IsConf(es[k]) && n.log.LastIndex() + 1 + k > n.log.applied
  }

  lemma {:induction false} FilterIs(n: Node, es: seq<Entry>)
    ensures var (r, pending) := FilterProposal(es, n.pendingConf, n.log.applied, n.log.LastIndex());
      r == Taken(n, es) && (pending > n.log.applied <==> Busy(n, es, |es|)) && PendingIs(n, es, pending)
  {
    if es != [] {
      var k := |es| - 1;
      var front := es[..k];
      FilterIs(n, front);
      var (r, pending) := FilterProposal(front, n.pendingConf, n.log.applied, n.log.LastIndex());
      forall i | 0 <= i < k ensures Waits(n, es, i) <==> Waits(n, front, i) { WaitsFront(n, es, k, i); }
      assert Taken(n, es)[..k] == Taken(n, front);
      BusyFront(n, es, k);
      assert Taken(n, es) == Taken(n, front) + [Taken(n, es)[k]];
      PendingNext(n, es, pending);
    } else {
      assert Taken(n, es) == [];
    }
  }

  lemma WaitsFront(n: Node, es: seq<Entry>, k: nat, i: nat)
    requires i < k <= |es|
    ensures Waits(n, es, i) <==> Waits(n, es[..k], i)
  {
    BusyTo(n, es, k, i);
  }

  lemma BusyTo(n: Node, es: seq<Entry>, k: nat, i: nat)
    requires i <= k <= |es|
    ensures Busy(n, es, i) <==> Busy(n, es[..k], i)
  {
    if j :| 0 <= j < i && IsConf(es[j]) && n.log.LastIndex() + 1 + j > n.log.applied { assert es[..k][j] == es[j]; }
  }

  lemma BusyFront(n: Node, es: seq<Entry>, k: nat)
    requires k + 1 == |es|
    ensures Busy(n, es, k) <==> Busy(n, es[..k], k)
    ensures Waits(n, es, k) <==> IsConf(es[k]) && Busy(n, es, k)
    ensures Busy(n, es, |es|) <==> Busy(n, es, k) || (IsConf(es[k]) && n.log.LastIndex() + 1 + k > n.log.applied)
  {
    BusyTo(n, es, k, k);
  }

  lemma PendingNext(n: Node, es: seq<Entry>, pending: nat)
    requires es != []
    requires var k := |es| - 1; PendingIs(n, es[..k], pending)
    ensures var k := |es| - 1;
      PendingIs(n, es, if IsConf(es[k]) && !Waits(n, es, k) then n.log.LastIndex() + |es| else pending)
  {
    var k := |es| - 1;
    var front := es[..k];
    forall i | 0 <= i < k ensures Waits(n, es, i) <==> Waits(n, front, i) { WaitsFront(n, es, k, i); }
    assert forall i :: 0 <= i < k ==> front[i] == es[i];
    hide Waits;
    if IsConf(es[k]) && !Waits(n, es, k) {
      assert n.log.LastIndex() + |es| == n.log.LastIndex() + 1 + k;
    }
  }

  // --------------------------------------------------------------------------
  // Payload

  /** Payloads add up. */
  lemma {:induction false} PayloadAdds(a: seq<Entry>, b: seq<Entry>)
    ensures PayloadSize(a + b) == PayloadSize(a) + PayloadSize(b)
    ensures forall e :: PayloadSize([e]) == |e.data|
  {
    forall e ensures PayloadSize([e]) == |e.data| { assert [e][..0] == []; }
    if b == [] {
      assert a + b == a;
    } else {
      PayloadAdds(a, b[..|b| - 1]);
      assert (a + b)[..|a + b| - 1] == a + b[..|b| - 1];
    }
  }

  lemma {:induction false} PayloadStamped(es: seq<Entry>, term: nat, last: nat)
    ensures PayloadSize(Stamp(es, term, last)) == PayloadSize(es)
  {
    if es != [] {
      PayloadStamped(es[..|es| - 1], term, last);
      assert Stamp(es, term, last)[..|es| - 1] == Stamp(es[..|es| - 1], term, last);
    }
  }

  /** What was applied no longer counts, and the counter stops at zero. */
  lemma Released(n: Node, es: seq<Entry>)
    requires !n.fatal
    ensures var size := PayloadSize(es) % 0x1_0000_0000;
      ReduceUncommitted(n, es) == n.(uncommitted := if size > n.uncommitted then 0 else n.uncommitted - size)
  {
    hide PayloadSize;
    assert n == n.(uncommitted := n.uncommitted);
  }

  // --------------------------------------------------------------------------
  // What the leader does

  /** Room for more uncommitted payload: there is none yet, or the running sum stays within the limit. */
  predicate HasRoom(n: Node, es: seq<Entry>) {
    n.uncommitted == 0 || n.uncommitted + PayloadSize(Taken(n, es)) % 0x1_0000_0000 <= n.cfg.maxUncommitted
  }

  /** The entry as it was proposed, under the next index of the leader's term. */
  predicate Logged(e: Entry, was: Entry, term: nat, index: nat) {
    e.etype == was.etype && e.data == was.data && e.term == term && e.index == index
  }

  /** The log with a batch at its end, everything before it untouched. */
  ghost predicate LogsBatch(n: Node, l: RLog, es: seq<Entry>) {
    && l.base == n.log.base && |l.ents| == |n.log.ents| + |es| && l.ents[..|n.log.ents|] == n.log.ents
    && forall i :: 0 <= i < |es| ==>
      Logged(l.ents[|n.log.ents| + i], Taken(n, es)[i], n.term, n.log.LastIndex() + 1 + i)
  }

  /**
   A proposal on a leader. While leadership is being transferred, and when there is no room, nothing is logged or sent.
   Otherwise the log ends in the entries of the batch, each with the type and data it came with - except that a
   configuration change that comes too early, and only that, becomes an empty normal entry - and nothing else is lost.
   */
  lemma Proposed(n: Node, m: Message, lease: bool)
    requires Shape(n) && !n.fatal && m.entries != [] && n.log.committed <= n.log.LastIndex()
    requires n.role == Leader && m.mtype == MsgProp && m.term == 0
    ensures var n' := Step(n, m, lease);
      if n.transferee != 0 || !HasRoom(n, m.entries) then
        n'.log == n.log && n'.msgs == n.msgs && !n'.fatal && n'.uncommitted == n.uncommitted
      else
        && LogsBatch(n, n'.log, m.entries) && PendingIs(n, m.entries, n'.pendingConf)
        && n'.uncommitted == n.uncommitted + PayloadSize(Taken(n, m.entries)) % 0x1_0000_0000
  {
    hide FilterProposal, Taken, PendingIs, PayloadSize, Busy, BcastAppend, NodeSpec.MaybeCommit, P.MaybeUpdate, Step;
    LeaderHandles(n, m, lease);
    FilterIs(n, m.entries);
    if n.transferee == 0 {
      var (es, pending) := FilterProposal(m.entries, n.pendingConf, n.log.applied, n.log.LastIndex());
      var n1 := n.(pendingConf := pending);
      PayloadStamped(es, n1.term, n1.log.LastIndex());
      if HasRoom(n, m.entries) {
        Stored(n1, es);
        AppendKeepsShape(n1, es);
        ShapeCovers(AppendEntry(n1, es));
        BroadcastSends(AppendEntry(n1, es), n.cfg.peers);
      }
    }
  }

  lemma Stored(n: Node, es: seq<Entry>)
    requires Shape(n) && !n.fatal && es != [] && n.log.committed <= n.log.LastIndex()
    requires FitsUncommitted(n, Stamp(es, n.term, n.log.LastIndex()))
    ensures var n' := AppendEntry(n, es); var stamped := Stamp(es, n.term, n.log.LastIndex());
      && n'.log.base == n.log.base && n'.log.ents == n.log.ents + stamped && n'.pendingConf == n.pendingConf
      && n'.uncommitted == n.uncommitted + PayloadSize32(stamped)
  {
    hide CommitIndex, P.MaybeUpdate, PayloadSize;
  }

  /** Not paused, and its next entries are still in the log. */
  predicate Reachable(n: Node, to: Id) {
    to in n.prs && n.prs[to].next > n.log.base && !P.IsPaused(n.prs[to], n.cfg.maxInflight)
  }

  /**
   A batch that was taken: the leader has it itself, commits by the rule - at once when it is alone - and tells every
   follower that is not waiting for something else.
   */
  lemma ProposalSpreads(n: Node, m: Message, lease: bool)
    requires Shape(n) && Voters(n) && !n.fatal && m.entries != [] && n.log.committed <= n.log.LastIndex()
    requires n.prs[n.cfg.id].matched <= n.log.LastIndex() && n.transferee == 0 && HasRoom(n, m.entries)
    requires n.role == Leader && m.mtype == MsgProp && m.term == 0 && !Step(n, m, lease).fatal
    ensures var n' := Step(n, m, lease);
      && n.cfg.id in n'.prs && n'.prs[n.cfg.id].matched == n.log.LastIndex() + |m.entries|
      && CommitsFrom(n', n.log.committed)
    ensures forall to :: to in n.cfg.peers && to != n.cfg.id && Reachable(n, to) ==> Told(n, Step(n, m, lease), to)
  {
    hide Taken, PendingIs, PayloadSize, Busy, BcastAppend, CommitsFrom, Told, AppendEntry, FilterProposal, Shape, Sends,
      Waits, Step;
    LeaderHandles(n, m, lease);
    FilterIs(n, m.entries);
    var (es, pending) := FilterProposal(m.entries, n.pendingConf, n.log.applied, n.log.LastIndex());
    var n1 := n.(pendingConf := pending);
    PayloadStamped(es, n1.term, n1.log.LastIndex());
    ShapePending(n, pending);
    AppendKeepsShape(n1, es);
    var n2 := AppendEntry(n1, es);
    ShapeCovers(n2);
    BroadcastSends(n2, n.cfg.peers);
    SentSame(n2, BcastAppend(n2, n.cfg.peers));
    Entered(n1, es);
    CommitAfter(n2, BcastAppend(n2, n.cfg.peers));
    forall to | to in n.cfg.peers && to != n.cfg.id && Reachable(n, to) ensures Told(n, Step(n, m, lease), to) {
      WillSend(n2, to);
      BroadcastTells(n2, n.cfg.peers, to);
      ToldStays(n, n2, BcastAppend(n2, n.cfg.peers), BcastAppend(n2, n.cfg.peers), to);
    }
  }

  lemma ShapePending(n: Node, pending: nat)
    requires Shape(n)
    ensures Shape(n.(pendingConf := pending)) && n.cfg.id in n.cfg.peers && n.cfg.id in n.prs
  {
  }

  lemma WillSend(n: Node, to: Id)
    requires to in n.prs && Reachable(n, to)
    ensures SendsAppend(n, to, true)
  {
    hide LimitSize;
  }

  /** The leader's own record, and the commit rule, after entries were appended. */
  lemma Entered(n: Node, es: seq<Entry>)
    requires Shape(n) && Voters(n) && !n.fatal && es != [] && n.log.committed <= n.log.LastIndex()
    requires n.prs[n.cfg.id].matched <= n.log.LastIndex()
    requires FitsUncommitted(n, Stamp(es, n.term, n.log.LastIndex())) && !AppendEntry(n, es).fatal
    ensures var n' := AppendEntry(n, es);
      && n'.cfg == n.cfg && n'.term == n.term && n'.msgs == n.msgs && n'.log.base == n.log.base
      && n'.prs.Keys == n.prs.Keys && n'.prs[n.cfg.id].matched == n.log.LastIndex() + |es|
      && (forall p :: p in n.prs && p != n.cfg.id ==> n'.prs[p] == n.prs[p])
      && CommitsFrom(n', n.log.committed)
  {
    hide CommitIndex, PayloadSize32, CommitsFrom, NodeSpec.MaybeCommit;
    var stamped := Stamp(es, n.term, n.log.LastIndex());
    var l := n.log.(ents := n.log.ents + stamped);
    var n1 := n.(uncommitted := n.uncommitted + PayloadSize32(stamped), log := l,
                 prs := n.prs[n.cfg.id := P.MaybeUpdate(n.prs[n.cfg.id], l.LastIndex())]);
    assert n.log.ents[..|n.log.ents|] == n.log.ents;
    assert Append(n.log, stamped) == Some(l);
    assert AppendEntry(n, es) == NodeSpec.MaybeCommit(n1);
    CommitLeft(n1);
    CommitOnly(n1);
  }

  lemma CommitOnly(n: Node)
    requires n.cfg.peers != [] && !n.fatal && !NodeSpec.MaybeCommit(n).fatal
    ensures var n' := NodeSpec.MaybeCommit(n); n' == n.(log := n.log.(committed := n'.log.committed))
  {
    hide CommitIndex, RLog.Term;
  }
}

/** From a client's proposal to the applications: what is served is what was proposed. */
module Clients {
  import opened Proto
  import opened RaftLogSpec
  import opened NodeSpec
  import opened Proposals
  import opened Deliveries
  import opened StepProofs
  import opened Cluster
  import opened Safety
  import opened Applying
  import opened NodeInv
  import opened Protocol

  /** The event hands proposal m to node id, by its own client or forwarded by another node. */
  predicate Hands(e: Event, id: Id, m: Message) {
    m.mtype == MsgProp && (e == Local(id, m) || (e.Deliver? && e.m == m && m.to == id))
  }

  /** ... which leads, and takes it. */
  ghost predicate Accepted(c: State, e: Event, id: Id, m: Message) {
    && Hands(e, id, m) && id in c.nodes && c.nodes[id].role == Leader
    && c.nodes[id].transferee == 0 && HasRoom(c.nodes[id], m.entries)
  }

  lemma HandsPlain(hs: seq<History>, cs: seq<State>, es: seq<Event>, k: nat, id: Id, m: Message)
    requires Explains(hs, cs, es) && |cs| == |es| + 1 && k < |es| && Next(cs[k], es[k], cs[k + 1])
    requires Hands(es[k], id, m)
    ensures m.term == 0 && m.entries != [] && id in cs[k].nodes && Shape(cs[k].nodes[id])
    ensures cs[k + 1] == Replace(cs[k], id, Step(cs[k].nodes[id], m, if es[k].Deliver? then es[k].lease else false))
  {
    hide Explains, Shape, Step;
    if es[k].Deliver? { ExplainedNet(hs, cs, es, k, m); }
  }

  /** Entry i of a batch that n took is in the log of n'. */
  predicate TakenAt(n: Node, n': Node, es: seq<Entry>, i: nat)
    requires i < |es|
  {
    var x := n.log.LastIndex() + 1 + i;
    Visible(n', x) && Logged(At(n', x), Taken(n, es)[i], n.term, x)
  }

  /** Right after it was taken, the batch is in the leader's log. */
  lemma AcceptedLogged(hs: seq<History>, cs: seq<State>, es: seq<Event>, k: nat, id: Id, m: Message, i: nat)
    requires Explains(hs, cs, es) && |cs| == |es| + 1 && k < |es| && Next(cs[k], es[k], cs[k + 1])
    requires Accepted(cs[k], es[k], id, m) && i < |m.entries|
    ensures id in cs[k + 1].nodes && TakenAt(cs[k].nodes[id], cs[k + 1].nodes[id], m.entries, i)
  {
    hide Explains, Shape, Step, Propose, HasRoom, Taken, Replace, PendingIs, Next, Core, Good, Logged;
    HandsPlain(hs, cs, es, k, id, m);
    var n := cs[k].nodes[id];
    StillThere(hs, cs, es, k, id);
    Known(hs, cs, es, k, id);
    LiveLog(hs[k], n);
    var lease := if es[k].Deliver? then es[k].lease else false;
    Proposed(n, m, lease);
    ReplacedLog(cs[k], id, Step(n, m, lease));
    BatchAt(n, cs[k + 1].nodes[id], m.entries, i);
  }

  lemma ReplacedLog(c: State, id: Id, n: Node)
    ensures id in Replace(c, id, n).nodes
    ensures var n' := Replace(c, id, n).nodes[id]; n'.log.ents == n.log.ents && n'.log.base == n.log.base
  {
  }

  lemma BatchAt(n: Node, n': Node, es: seq<Entry>, i: nat)
    requires LogsBatch(n, n'.log, es) && i < |es|
    ensures TakenAt(n, n', es, i)
  {
    hide Taken, Logged;
  }

  lemma LiveLog(h: History, n: Node)
    requires Core(h, n)
    ensures !n.fatal && n.log.committed <= n.log.LastIndex()
  {
  }

  /**
   If any application is ever given an entry under an index and term at which a leader logged a proposal, it is given
   what was proposed: the same type and data, or an empty entry for a configuration change that came too early.
   */
  lemma ServedAsProposed(cs: seq<State>, es: seq<Event>, k: nat, id: Id, m: Message, i: nat, x: Id, j: nat, l: nat)
    requires Run(cs, es) && AllCounted(cs, es) && k < |es| && j <= |es| && x in cs[j].nodes
    requires Accepted(cs[k], es[k], id, m) && i < |m.entries|
    requires l < |Handed(cs, es, x, j)| && Handed(cs, es, x, j)[l].Command?
    requires Under(Handed(cs, es, x, j)[l].e, cs[k].nodes[id], i)
    ensures Logged(Handed(cs, es, x, j)[l].e, Taken(cs[k].nodes[id], m.entries)[i], cs[k].nodes[id].term,
      cs[k].nodes[id].log.LastIndex() + 1 + i)
  {
    hide Run, AllCounted, HasRoom, Taken, Logged, Handed, Visible, TakenAt, Shape;
    AcceptedLater(cs, es, k, id, m, i);
    var a := ServedAt(cs, es, x, j, l);
    SameEntry(cs, es, a, k + 1, x, id, cs[k].nodes[id], m.entries, i, Handed(cs, es, x, j)[l].e);
  }

  lemma AcceptedLater(cs: seq<State>, es: seq<Event>, k: nat, id: Id, m: Message, i: nat)
    requires Run(cs, es) && AllCounted(cs, es) && k < |es| && Accepted(cs[k], es[k], id, m) && i < |m.entries|
    ensures |cs| == |es| + 1 && id in cs[k + 1].nodes
    ensures TakenAt(cs[k].nodes[id], cs[k + 1].nodes[id], m.entries, i)
  {
    hide Run, AllCounted, Explains, HasRoom, Next, Taken, Logged, TakenAt;
    var hs := RunExplained(cs, es);
    RunStep(cs, es, k);
    AcceptedLogged(hs, cs, es, k, id, m, i);
  }

  lemma ServedAt(cs: seq<State>, es: seq<Event>, x: Id, j: nat, l: nat) returns (a: nat)
    requires Run(cs, es) && AllCounted(cs, es) && j <= |es| && x in cs[j].nodes
    requires l < |Handed(cs, es, x, j)| && Handed(cs, es, x, j)[l].Command?
    ensures a < |es| && |cs| == |es| + 1 && x in cs[a].nodes
    ensures var e := Handed(cs, es, x, j)[l].e; Visible(cs[a].nodes[x], e.index) && At(cs[a].nodes[x], e.index) == e
  {
    hide Run, AllCounted, Explains, Applying.Kept, Visible;
    var hs := RunExplained(cs, es);
    Starts(cs, es);
    StillThere(hs, cs, es, j, x);
    AllKept(hs, cs, es, x);
    a := HandedAt(cs, es, x, j, l);
  }

  /** An entry with the term and index of entry i of a batch. */
  predicate Under(e: Entry, n: Node, i: nat) {
    e.term == n.term && e.index == n.log.LastIndex() + 1 + i
  }

  lemma SameEntry(cs: seq<State>, es: seq<Event>, a: nat, b: nat, x: Id, id: Id, n: Node, batch: seq<Entry>, i: nat,
    e: Entry)
    requires Run(cs, es) && AllCounted(cs, es) && a < |cs| && b < |cs| && x in cs[a].nodes && id in cs[b].nodes
    requires i < |batch| && TakenAt(n, cs[b].nodes[id], batch, i) && Under(e, n, i)
    requires Visible(cs[a].nodes[x], e.index) && At(cs[a].nodes[x], e.index) == e
    ensures Logged(e, Taken(n, batch)[i], n.term, n.log.LastIndex() + 1 + i)
  {
    hide Run, AllCounted, Taken;
    EntryTerm(cs[a].nodes[x], e.index);
    EntryTerm(cs[b].nodes[id], e.index);
    if a <= b {
      Safety.LogMatching(cs, es, a, b, x, id, e.index, e.index);
    } else {
      Safety.LogMatching(cs, es, b, a, id, x, e.index, e.index);
    }
  }
}
