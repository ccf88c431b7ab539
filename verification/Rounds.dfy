/**
 What one exchange between a leader and a follower achieves: what an append, a heartbeat or a snapshot says, what the
 follower makes of it, and what the leader makes of the answer.
 */
module Rounds {
  import opened Proto
  import opened Quorum
  import opened QuorumIndex
  import opened RaftLogSpec
  import opened EntrySizes
  import opened NodeSpec
  import opened LeaderProofs
  import MatchProofs
  import P = ProgressSpec

  // --------------------------------------------------------------------------
  // What sending leaves alone

  /** Only outbox and progress move, and no progress loses or gains what a follower acknowledged. */
  ghost predicate Sends(n: Node, n': Node) {
    && n' == n.(prs := n'.prs, msgs := n'.msgs, fatal := n'.fatal)
    && n.msgs <= n'.msgs && (n.fatal ==> n'.fatal) && n'.prs.Keys == n.prs.Keys
    && forall p :: p in n.prs ==> n'.prs[p].matched == n.prs[p].matched
                                  && n'.prs[p].recentActive == n.prs[p].recentActive
  }

  lemma SendsTrans(a: Node, b: Node, c: Node)
    requires Sends(a, b) && Sends(b, c)
    ensures Sends(a, c)
  {
  }

  lemma SetSends(n: Node, to: Id, p: P.Progress, m: Message)
    requires to in n.prs && p.matched == n.prs[to].matched && p.recentActive == n.prs[to].recentActive
    ensures Sends(n, Send(SetPr(n, to, p), m))
    ensures forall q :: q in n.prs && q != to ==> Send(SetPr(n, to, p), m).prs[q] == n.prs[q]
  {
  }

  lemma AppendSends(n: Node, to: Id, sendIfEmpty: bool)
    requires to in n.prs
    ensures var n' := MaybeSendAppend(n, to, sendIfEmpty);
      Sends(n, n') && forall p :: p in n.prs && p != to ==> n'.prs[p] == n.prs[p]
  {
    hide SendsAppend, NextEntries, AppendMessage;
    if !n.fatal && SendsAppend(n, to, sendIfEmpty) {
      match NextEntries(n, to) {
        case None =>
          SetSends(n, to, P.BecomeSnapshot(n.prs[to], n.log.snap.index), Blank(MsgSnap, to).(snapshot := n.log.snap));
        case Some(es) => SetSends(n, to, SentProgress(n.prs[to], es), AppendMessage(n, to, es));
      }
    }
  }

  lemma {:induction false} BroadcastSends(n: Node, peers: seq<Id>)
    requires forall p :: p in peers ==> p in n.prs
    ensures Sends(n, BcastAppend(n, peers))
    decreases |peers|
  {
    hide MaybeSendAppend;
    if !n.fatal && peers != [] {
      var n1 := if peers[0] == n.cfg.id then n else SendAppend(n, peers[0]);
      if peers[0] != n.cfg.id { AppendSends(n, peers[0], true); }
      BroadcastSends(n1, peers[1..]);
      SendsTrans(n, n1, BcastAppend(n, peers));
    }
  }

  lemma {:induction false} LoopSends(n: Node, to: Id)
    requires Shape(n) && to in n.prs
    ensures Sends(n, SendAll(n, to))
    decreases Backlog(n, to), if n.fatal then 0 else if P.IsPaused(n.prs[to], n.cfg.maxInflight) then 1 else 2
  {
    hide MaybeSendAppend, Shape, Sends;
    if !n.fatal && SendsAppend(n, to, false) {
      SendMakesProgress(n, to);
      AppendSends(n, to, false);
      LoopSends(MaybeSendAppend(n, to, false), to);
      SendsTrans(n, MaybeSendAppend(n, to, false), SendAll(n, to));
    } else {
      SendsSelf(n);
    }
  }

  lemma SendsSelf(n: Node)
    ensures Sends(n, n)
  {
  }

  // --------------------------------------------------------------------------
  // Who handles what

  /** In its own term a leader handles everything but election timeouts and vote requests by itself. */
  lemma LeaderHandles(n: Node, m: Message, lease: bool)
    requires Shape(n) && !n.fatal && n.role == Leader && (m.term == 0 || m.term == n.term)
    requires m.mtype != MsgHup && m.mtype != MsgVote && m.mtype != MsgPreVote
    ensures Step(n, m, lease) == StepLeader(n, m)
  {
    hide StepLeader;
  }

  /** What a leader's message finds: the node as it was, but following the sender in its term. */
  ghost predicate Follows(f: Node, g: Node, m: Message) {
    && g.cfg == f.cfg && g.log == f.log && g.msgs == f.msgs && !g.fatal && g.role == Follower && g.lead == m.from
    && g.term == m.term && g.prs.Keys == f.prs.Keys && Shape(g)
  }

  predicate FromLeader(m: Message) { m.mtype == MsgApp || m.mtype == MsgHeartbeat || m.mtype == MsgSnap }

  lemma FollowerHandles(f: Node, m: Message, lease: bool) returns (g: Node)
    requires Shape(f) && !f.fatal && f.role != Leader && m.term >= f.term && m.term >= 1 && FromLeader(m)
    ensures Follows(f, g, m)
    ensures m.mtype == MsgApp ==> Step(f, m, lease) == HandleAppend(g, m)
    ensures m.mtype == MsgHeartbeat ==> Step(f, m, lease) == HandleHeartbeat(g, m)
    ensures m.mtype == MsgSnap ==> Step(f, m, lease) == HandleSnapshot(g, m)
  {
    hide HandleAppend, HandleHeartbeat, HandleSnapshot, StepHup, StepVote, StepLeader, Campaign, Tally, Poll;
    g := if m.term > f.term || f.role != Follower then BecomeFollower(f, m.term, m.from) else f.(lead := m.from);
    assert m.term > f.term ==> g == g.(lead := m.from);
  }

  // --------------------------------------------------------------------------
  // What the messages say

  /** The entries of the log behind an index, as many as fit; none only when there are none. */
  ghost predicate PieceFrom(l: RLog, index: nat, es: seq<Entry>, limit: nat) {
    l.base <= index && (if index <= l.LastIndex() then Longest(es, l.ents[index - l.base..], limit) else es == [])
  }

  /** An append: from right before the follower's next index, with the leader's commit index. */
  ghost predicate IsAppend(n: Node, to: Id, m: Message)
    requires to in n.prs
  {
    && m.mtype == MsgApp && m.from == n.cfg.id && m.to == to && m.term == n.term
    && m.index == PrevIndex(n.prs[to]) && m.logTerm == n.log.Term(m.index) && m.commit == n.log.committed
    && (n.prs[to].next >= 1 ==> PieceFrom(n.log, m.index, m.entries, n.cfg.maxMsgSize))
  }

  /** The stored snapshot, for a follower whose next entries are gone. */
  predicate IsSnap(n: Node, to: Id, m: Message)
    requires to in n.prs
  {
    && m.mtype == MsgSnap && m.from == n.cfg.id && m.to == to && m.term == n.term
    && m.snapshot == n.log.snap && n.log.snap.index != 0 && n.prs[to].next <= n.log.base
  }

  ghost predicate SentOne(n: Node, n': Node, to: Id)
    requires to in n.prs
  {
    && |n'.msgs| == |n.msgs| + 1 && n'.msgs[..|n.msgs|] == n.msgs
    && (IsAppend(n, to, n'.msgs[|n.msgs|]) || IsSnap(n, to, n'.msgs[|n.msgs|]))
  }

  /** Sending to a follower: nothing, or one append, or one snapshot; and something whenever it may be sent. */
  lemma SentIs(n: Node, to: Id, sendIfEmpty: bool)
    requires Shape(n) && to in n.prs && !n.fatal
    ensures var n' := MaybeSendAppend(n, to, sendIfEmpty);
      if SendsAppend(n, to, sendIfEmpty) then n'.fatal || SentOne(n, n', to) else n' == n
  {
    hide LimitSize, P.IsPaused;
    if SendsAppend(n, to, sendIfEmpty) {
      match NextEntries(n, to) {
        case None =>
        case Some(es) => PieceIs(n, to, es);
      }
    }
  }

  lemma PieceIs(n: Node, to: Id, es: seq<Entry>)
    requires to in n.prs && NextEntries(n, to) == Some(es) && n.prs[to].next >= 1
    ensures PieceFrom(n.log, PrevIndex(n.prs[to]), es, n.cfg.maxMsgSize)
  {
    hide Longest;
    var prev := PrevIndex(n.prs[to]);
    if prev < n.log.LastIndex() {
      var rest := n.log.ents[prev - n.log.base..];
      LimitIsLongest(rest, n.cfg.maxMsgSize);
      assert rest == n.log.ents[prev + 1 - n.log.FirstIndex()..n.log.LastIndex() + 1 - n.log.FirstIndex()];
    } else if prev == n.log.LastIndex() {
      NothingLeft(n.cfg.maxMsgSize);
      assert es == [] && n.log.ents[prev - n.log.base..] == [];
    }
  }

  lemma NothingLeft(limit: nat)
    ensures Longest([], [], limit)
  {
  }

  /**
   What the leader notes when it sends an append with entries: replicating, next moves behind them and their end joins
   the window; probing, it waits for the answer. An empty append is not noted.
   */
  lemma SentMarks(n: Node, to: Id, sendIfEmpty: bool)
    requires Shape(n) && to in n.prs && !n.fatal && n.prs[to].next >= 1 && !MaybeSendAppend(n, to, sendIfEmpty).fatal
    requires SendsAppend(n, to, sendIfEmpty) && NextEntries(n, to).Some?
    ensures var p, n', es := n.prs[to], MaybeSendAppend(n, to, sendIfEmpty), NextEntries(n, to).value;
      && to in n'.prs
      && n'.prs[to] ==
           if es == [] then p
           else if p.state == P.Replicate then
             p.(next := p.next + |es|, inflights := p.inflights + [p.next + |es| - 1])
           else p.(paused := true)
  {
    hide SendsAppend, LimitSize, RLog.Term;
    EndOf(n, to);
  }

  lemma EndOf(n: Node, to: Id)
    requires Shape(n) && to in n.prs && n.prs[to].next >= 1 && NextEntries(n, to).Some?
    ensures var es := NextEntries(n, to).value; es != [] ==> es[|es| - 1].index == n.prs[to].next + |es| - 1
  {
    hide LimitSize;
  }

  lemma SameFor(n: Node, n1: Node, to: Id)
    requires Sends(n, n1) && to in n.prs && n1.prs[to] == n.prs[to]
    ensures SendsAppend(n1, to, true) == SendsAppend(n, to, true)
  {
  }

  // --------------------------------------------------------------------------
  // An append and its answer

  /** All offered entries are in the log, by term. */
  ghost predicate HasAll(l: RLog, index: nat, es: seq<Entry>) {
    forall i :: 0 <= i < |es| ==> l.Term(index + 1 + i) == es[i].term
  }

  lemma {:induction false} NoConflict(l: RLog, index: nat, es: seq<Entry>)
    requires forall i :: 0 <= i < |es| ==> es[i].index == index + 1 + i
    ensures var c := FindConflict(l, es);
      if c == 0 then HasAll(l, index, es)
      else index < c <= index + |es| && HasAll(l, index, es[..c - 1 - index])
    decreases |es|
  {
    hide RLog.Term;
    if es != [] && l.MatchTerm(es[0].index, es[0].term) {
      NoConflict(l, index + 1, es[1..]);
      var c := FindConflict(l, es[1..]);
      var n := if c == 0 then |es| else c - 1 - index;
      forall i | 0 <= i < n ensures l.Term(index + 1 + i) == es[i].term {
        if i > 0 { assert es[1..][i - 1] == es[i] && (c != 0 ==> es[1..][..n - 1][i - 1] == es[i]); }
      }
    }
  }

  lemma AppendHas(l: RLog, index: nat, es: seq<Entry>)
    requires forall i :: 0 <= i < |es| ==> es[i].index == index + 1 + i
    requires index >= l.base && AppendFrom(l, index, es).Some?
    ensures var l' := AppendFrom(l, index, es).value;
      && HasAll(l', index, es) && l'.committed == l.committed && l'.base == l.base && l'.applied == l.applied
      && (l' == l || l'.LastIndex() == index + |es|)
  {
    NoConflict(l, index, es);
    var c := FindConflict(l, es);
    if c != 0 {
      var k := c - 1 - index;
      var l' := AppendFrom(l, index, es).value;
      forall i | 0 <= i < |es| ensures l'.Term(index + 1 + i) == es[i].term {
        if i < k {
          assert es[..k][i] == es[i];
        } else {
          assert es[k..][i - k] == es[i];
        }
      }
    }
  }

  /** The answer to an append, as the last message in the follower's outbox. */
  predicate Answered(f: Node, f': Node, m: Message, index: nat, reject: bool, hint: nat) {
    f'.msgs == f.msgs + [Blank(MsgAppResp, m.from).(from := f.cfg.id, term := m.term, index := index, reject := reject,
                                                    rejectHint := hint)]
  }

  /** The follower's part, once it follows the sender. */
  lemma AppendHandled(f: Node, m: Message)
    requires !f.fatal && f.log.base <= f.log.committed && f.term == m.term && m.mtype == MsgApp
    requires forall i :: 0 <= i < |m.entries| ==> m.entries[i].index == m.index + 1 + i
    ensures var f' := HandleAppend(f, m); var end := m.index + |m.entries|;
      f'.fatal || (
        if m.index < f.log.committed then f'.log == f.log && Answered(f, f', m, f.log.committed, false, 0)
        else if f.log.Term(m.index) != m.logTerm then
          f'.log == f.log && Answered(f, f', m, m.index, true, f.log.LastIndex())
        else
          && f'.log.committed == Max(f.log.committed, Min(m.commit, end))
          && HasAll(f'.log, m.index, m.entries) && Answered(f, f', m, end, false, 0))
  {
    hide MaybeAppend, RLog.Term, HasAll;
    if m.index >= f.log.committed { OfferTaken(f.log, m.index, m.logTerm, m.commit, m.entries); }
  }

  /**
   One append: a follower that is past it tells its commit index; one that does not have the entry before it refuses and
   tells its end; any other ends up with all offered entries, and knows of every commit among them that the leader knew
   of - exactly these, on top of its own.
   */
  lemma AppendRound(n: Node, to: Id, m: Message, f: Node, lease: bool)
    requires to in n.prs && n.prs[to].next >= 1 && IsAppend(n, to, m) && Shape(n) && Shape(f) && !f.fatal
    requires f.log.base <= f.log.committed && f.role != Leader && n.term >= f.term && n.term >= 1
    ensures var f' := Step(f, m, lease); var end := m.index + |m.entries|;
      f'.fatal || (
        if m.index < f.log.committed then f'.log == f.log && Answered(f, f', m, f.log.committed, false, 0)
        else if f.log.Term(m.index) != n.log.Term(m.index) then
          f'.log == f.log && Answered(f, f', m, m.index, true, f.log.LastIndex())
        else
          && f'.log.committed == Max(f.log.committed, Min(n.log.committed, end))
          && HasAll(f'.log, m.index, m.entries) && Answered(f, f', m, end, false, 0))
  {
    hide HandleAppend, RLog.Term, HasAll, PieceFrom, Step, RLog.Numbered;
    var g := FollowerHandles(f, m, lease);
    PieceNumbered(n.log, m.index, m.entries, n.cfg.maxMsgSize);
    AppendHandled(g, m);
  }

  lemma OfferTaken(l: RLog, index: nat, logTerm: nat, commit: nat, es: seq<Entry>)
    requires l.base <= l.committed <= index && forall i :: 0 <= i < |es| ==> es[i].index == index + 1 + i
    ensures match MaybeAppend(l, index, logTerm, commit, es)
      case Fatal => true
      case Rejected => l.Term(index) != logTerm
      case Accepted(l', last) =>
        && l.Term(index) == logTerm && last == index + |es| && HasAll(l', index, es)
        && l'.committed == Max(l.committed, Min(commit, last))
  {
    hide AppendFrom, RLog.Term, HasAll;
    if AppendFrom(l, index, es).Some? {
      AppendHas(l, index, es);
      var l1, to := AppendFrom(l, index, es).value, Min(commit, index + |es|);
      if CommitTo(l1, to).Some? { CommitHas(l1, to, index, es); }
    }
  }

  lemma PieceNumbered(l: RLog, index: nat, es: seq<Entry>, limit: nat)
    requires l.Numbered() && PieceFrom(l, index, es, limit)
    ensures forall i :: 0 <= i < |es| ==> es[i].index == index + 1 + i
  {
  }

  lemma CommitHas(l: RLog, to: nat, index: nat, es: seq<Entry>)
    requires HasAll(l, index, es) && CommitTo(l, to).Some?
    ensures HasAll(CommitTo(l, to).value, index, es) && CommitTo(l, to).value.committed == Max(l.committed, to)
  {
    hide RLog.Term;
    forall i ensures l.Term(i) == CommitTo(l, to).value.Term(i) { SameTerms(l, CommitTo(l, to).value, i); }
  }

  lemma SameTerms(l: RLog, l': RLog, i: nat)
    requires l' == l.(committed := l'.committed)
    ensures l'.Term(i) == l.Term(i)
  {
  }

  // --------------------------------------------------------------------------
  // A heartbeat and its answer

  ghost predicate IsBeat(n: Node, to: Id, ctx: seq<byte>, m: Message)
    requires to in n.prs
  {
    && m.mtype == MsgHeartbeat && m.from == n.cfg.id && m.to == to && m.term == n.term && m.context == ctx
    && m.commit == Min(n.prs[to].matched, n.log.committed)
  }

  /** Every other voter is sent a heartbeat, and nothing else happens. */
  lemma {:induction false} BeatsReach(n: Node, ctx: seq<byte>, peers: seq<Id>)
    requires !n.fatal && forall p :: p in peers ==> p in n.prs
    ensures var n' := BcastHeartbeat(n, ctx, peers); n' == n.(msgs := n'.msgs) && n.msgs <= n'.msgs
    ensures forall to :: to in peers && to != n.cfg.id ==>
      exists m :: m in BcastHeartbeat(n, ctx, peers).msgs && IsBeat(n, to, ctx, m)
    decreases |peers|
  {
    hide IsBeat;
    if peers != [] {
      var n1 := if peers[0] == n.cfg.id then n else Heartbeat(n, peers[0], ctx);
      var n' := BcastHeartbeat(n, ctx, peers);
      if peers[0] != n.cfg.id { BeatIs(n, peers[0], ctx); }
      BeatsReach(n1, ctx, peers[1..]);
      forall to | to in peers && to != n.cfg.id ensures exists m :: m in n'.msgs && IsBeat(n, to, ctx, m) {
        if to == peers[0] {
          assert n1.msgs[|n.msgs|] in n'.msgs;
        } else {
          assert to in peers[1..];
          var m :| m in n'.msgs && IsBeat(n1, to, ctx, m);
          SameBeat(n, n1, to, ctx, m);
        }
      }
    }
  }

  lemma SameBeat(n: Node, n1: Node, to: Id, ctx: seq<byte>, m: Message)
    requires to in n.prs && n1 == n.(msgs := n1.msgs)
    ensures IsBeat(n1, to, ctx, m) == IsBeat(n, to, ctx, m)
  {
  }

  lemma BeatIs(n: Node, to: Id, ctx: seq<byte>)
    requires to in n.prs && !n.fatal
    ensures var n' := Heartbeat(n, to, ctx);
      && n' == n.(msgs := n'.msgs) && |n'.msgs| == |n.msgs| + 1 && n.msgs <= n'.msgs
      && IsBeat(n, to, ctx, n'.msgs[|n.msgs|])
  {
  }

  /** One heartbeat: the follower's commit index becomes exactly what it shares and the leader has committed. */
  lemma HeartbeatRound(n: Node, to: Id, ctx: seq<byte>, m: Message, f: Node, lease: bool)
    requires to in n.prs && IsBeat(n, to, ctx, m) && Shape(f) && !f.fatal
    requires f.role != Leader && n.term >= f.term && n.term >= 1
    ensures var f' := Step(f, m, lease);
      f'.fatal || (
        && f'.log == f.log.(committed := Max(f.log.committed, Min(n.prs[to].matched, n.log.committed)))
        && f'.msgs == f.msgs + [Blank(MsgHeartbeatResp, n.cfg.id).(from := f.cfg.id, term := n.term)])
  {
    hide Step, Shape;
    var g := FollowerHandles(f, m, lease);
  }

  // --------------------------------------------------------------------------
  // A snapshot and its answer

  /** Sending a snapshot makes the follower wait for it. */
  lemma SnapshotSent(n: Node, to: Id, sendIfEmpty: bool)
    requires Shape(n) && to in n.prs && !n.fatal && SendsAppend(n, to, sendIfEmpty) && NextEntries(n, to).None?
    ensures var n' := MaybeSendAppend(n, to, sendIfEmpty);
      n'.fatal || (n'.prs[to].state == P.Snapshotting && n'.prs[to].pendingSnapshot == n.log.snap.index)
  {
    hide SendsAppend;
  }

  /** The log starts anew at a snapshot, and so does what the node knows of the others. */
  ghost predicate StartsAt(f: Node, f': Node, s: Snapshot) {
    && f'.log == RLog(s.index, s.term, [], s, s.index, f.log.applied) && f'.prs.Keys == f.prs.Keys
    && forall p :: p in f.prs ==> f'.prs[p] == P.NewProgress(if p == f.cfg.id then s.index else 0, s.index + 1)
  }

  /**
   One snapshot: a follower that has committed past it keeps its log; one that has the snapshot's entry keeps its log
   and commits up to it; any other starts its log at the snapshot.
   */
  lemma SnapshotRound(n: Node, to: Id, m: Message, f: Node, lease: bool)
    requires to in n.prs && IsSnap(n, to, m) && Shape(f) && !f.fatal
    requires f.role != Leader && n.term >= f.term && n.term >= 1
    ensures var f' := Step(f, m, lease); var s := n.log.snap;
      f'.fatal || (
        && f'.msgs == f.msgs + [Blank(MsgAppResp, n.cfg.id).(from := f.cfg.id, term := n.term)]
        && if s.index <= f.log.committed then f'.log == f.log
           else if f.log.Term(s.index) == s.term then f'.log == f.log.(committed := s.index)
           else StartsAt(f, f', s))
  {
    hide RLog.Term, Step, Shape;
    var g := FollowerHandles(f, m, lease);
  }

  /** The report on a snapshot: back to probing, right above the snapshot if it arrived, above the match if not. */
  lemma SnapshotReported(n: Node, m: Message, lease: bool)
    requires Shape(n) && n.role == Leader && m.mtype == MsgSnapStatus && m.term == 0
    requires m.from in n.prs && !n.fatal && n.prs[m.from].state == P.Snapshotting
    ensures m.from in Step(n, m, lease).prs
    ensures var p, q := n.prs[m.from], Step(n, m, lease).prs[m.from];
      && Step(n, m, lease) == n.(prs := n.prs[m.from := q])
      && q.state == P.Probe && q.paused && q.matched == p.matched && q.inflights == []
      && q.next == (if m.reject then p.matched else Max(p.matched, p.pendingSnapshot)) + 1
  {
    hide Step, Shape;
    LeaderHandles(n, m, lease);
  }

  lemma UnreachableProbes(n: Node, m: Message, lease: bool)
    requires Shape(n) && n.role == Leader && m.mtype == MsgUnreachable && m.term == 0 && m.from in n.prs && !n.fatal
    ensures m.from in Step(n, m, lease).prs
    ensures var p, n' := n.prs[m.from], Step(n, m, lease);
      if p.state != P.Replicate then n' == n
      else
        && n' == n.(prs := n.prs[m.from := n'.prs[m.from]]) && n'.prs[m.from].state == P.Probe
        && n'.prs[m.from].next == p.matched + 1 && n'.prs[m.from].matched == p.matched && !n'.prs[m.from].paused
  {
    hide Step, Shape;
    LeaderHandles(n, m, lease);
  }

  // --------------------------------------------------------------------------
  // What the leader makes of an answer

  /** The greatest index that a quorum of voters has reached. */
  ghost predicate QuorumReached(n: Node, k: nat) {
    && |Reached(n.prs, n.cfg.peers, k)| >= NodeQuorum(n)
    && forall j: nat :: j > k ==> |Reached(n.prs, n.cfg.peers, j)| < NodeQuorum(n)
  }

  ghost predicate Voters(n: Node) {
    n.cfg.peers != [] && Distinct(n.cfg.peers) && forall p :: p in n.cfg.peers ==> p in n.prs
  }

  lemma CommitIndexIs(n: Node)
    requires Voters(n)
    ensures QuorumReached(n, CommitIndex(n))
  {
    hide CommitIndex, QuorumMatch, MatchBuf, Reached;
    var buf := MatchBuf(n.prs, n.cfg.peers);
    assert CommitIndex(n) == QuorumMatch(buf) by { CommitIndexDef(n); }
    QuorumMatchIsGreatest(buf);
    forall v: nat ensures |Reached(n.prs, n.cfg.peers, v)| == CountGE(buf, v) { ReachedCount(n.prs, n.cfg.peers, v); }
  }

  lemma CommitIndexDef(n: Node)
    requires n.cfg.peers != []
    ensures CommitIndex(n) == QuorumMatch(MatchBuf(n.prs, n.cfg.peers))
  {
  }

  /** The same rule, on the state in which it left the matches. */
  ghost predicate CommitsFrom(n: Node, committed: nat) {
    exists k: nat :: QuorumReached(n, k)
      && n.log.committed == if k > committed && n.log.Term(k) == n.term then k else committed
  }

  lemma CommitAfter(n: Node, n': Node)
    requires n'.log == n.log && n'.term == n.term && n'.cfg == n.cfg && n'.prs.Keys == n.prs.Keys
    requires forall p :: p in n.prs ==> n'.prs[p].matched == n.prs[p].matched
    ensures forall committed :: CommitsFrom(n, committed) ==> CommitsFrom(n', committed)
  {
    forall k: nat ensures Reached(n'.prs, n'.cfg.peers, k) == Reached(n.prs, n.cfg.peers, k) {}
    hide Reached, RLog.Term;
    forall committed | CommitsFrom(n, committed) ensures CommitsFrom(n', committed) {
      var k: nat :| QuorumReached(n, k)
        && n.log.committed == if k > committed && n.log.Term(k) == n.term then k else committed;
      assert QuorumReached(n', k);
    }
  }

  lemma CommitLeft(n: Node)
    requires Voters(n) && !n.fatal && !NodeSpec.MaybeCommit(n).fatal
    ensures CommitsFrom(NodeSpec.MaybeCommit(n), n.log.committed)
  {
    CommitIs(n);
    var n' := NodeSpec.MaybeCommit(n);
    forall k: nat ensures Reached(n'.prs, n'.cfg.peers, k) == Reached(n.prs, n.cfg.peers, k) {}
    forall k: nat ensures n'.log.Term(k) == n.log.Term(k) {}
    hide Reached, RLog.Term, NodeSpec.MaybeCommit;
    var k: nat :| QuorumReached(n, k)
      && n'.log == n.log.(committed := if k > n.log.committed && n.log.Term(k) == n.term then k else n.log.committed);
    assert QuorumReached(n', k);
  }

  /** The commit rule: the greatest index of a quorum, if it is news and its entry is of the leader's own term. */
  ghost predicate CommitsBy(n: Node, l: RLog) {
    exists k: nat :: QuorumReached(n, k)
      && l == n.log.(committed := if k > n.log.committed && n.log.Term(k) == n.term then k else n.log.committed)
  }

  lemma CommitIs(n: Node)
    requires Voters(n) && !n.fatal
    ensures var n' := NodeSpec.MaybeCommit(n); n'.fatal || (n' == n.(log := n'.log) && CommitsBy(n, n'.log))
  {
    hide CommitIndex, QuorumReached, RLog.Term;
    CommitIndexIs(n);
    assert QuorumReached(n, CommitIndex(n));
  }

  lemma CommitSame(n: Node)
    requires Voters(n) && !CommitsMore(n)
    ensures CommitsBy(n, n.log)
  {
    hide CommitIndex, QuorumReached, RLog.Term;
    CommitIndexIs(n);
    assert QuorumReached(n, CommitIndex(n));
  }

  /** The leader after it took note of an acceptance, before it acts on it. */
  function Noted(n: Node, r: Message): Node
    requires r.from in n.prs
  {
    SetPr(n, r.from, AcceptedProgress(n.prs[r.from].(recentActive := true), r.index))
  }

  lemma AcceptPath(n: Node, r: Message)
    requires Shape(n) && !n.fatal && r.from in n.prs && !r.reject && n.prs[r.from].matched < r.index
    ensures var n1 := Noted(n, r); Shape(n1)
    ensures var paused := P.IsPaused(n.prs[r.from].(recentActive := true), n.cfg.maxInflight);
      var n2 := AfterAccept(Noted(n, r), r.from, paused);
      Shape(n2) && r.from in n2.prs && r.from in SendAll(n2, r.from).prs
      && var n3 := SendAll(n2, r.from);
        AppResp(n, r) ==
          if !n3.fatal && r.from == n3.transferee && n3.prs[r.from].matched == n3.log.LastIndex()
          then SendTimeoutNow(n3, r.from) else n3
  {
    hide AfterAccept, SendAll, AcceptedProgress, P.IsPaused, P.MaybeDecreaseTo, P.MaybeUpdate, SendTimeoutNow;
    var p := n.prs[r.from].(recentActive := true);
    AfterAcceptKeepsShape(Noted(n, r), r.from, P.IsPaused(p, n.cfg.maxInflight));
    SendAllKeepsShape(AfterAccept(Noted(n, r), r.from, P.IsPaused(p, n.cfg.maxInflight)), r.from);
  }

  /**
   An accepted append that is news: the follower's match is its index, nobody else's moves, the leader commits by the
   rule, the follower is sent all that may be sent, and one that leadership is being transferred to is told to campaign
   as soon as it has the whole log.
   */
  lemma AcceptTaken(n: Node, r: Message, lease: bool)
    requires Shape(n) && Voters(n) && !n.fatal && n.role == Leader && r.mtype == MsgAppResp && r.term == n.term
    requires r.from in n.prs && !r.reject && n.prs[r.from].matched < r.index
    ensures var n' := Step(n, r, lease);
      n'.fatal || (
        && n'.prs.Keys == n.prs.Keys && n'.prs[r.from].matched == r.index && n'.prs[r.from].recentActive
        && (forall p :: p in n.prs && p != r.from ==> n'.prs[p].matched == n.prs[p].matched)
        && CommitsBy(Noted(n, r), n'.log) && n.msgs <= n'.msgs && !SendsAppend(n', r.from, false)
        && (n.transferee == r.from && r.index == n.log.LastIndex() ==> TellsToCampaign(n', r.from)))
  {
    hide Shape, AfterAccept, SendAll, AcceptedProgress, CommitsBy, Sends, AppResp, P.IsPaused, SendsAppend, Step;
    var p := n.prs[r.from].(recentActive := true);
    LeaderHandles(n, r, lease);
    AcceptPath(n, r);
    ShapeTaken(n, r.from, AcceptedProgress(p, r.index));
    AcceptedIs(p, r.index);
    var n1 := Noted(n, r);
    AfterAcceptIs(n1, r.from, P.IsPaused(p, n.cfg.maxInflight));
    var n2 := AfterAccept(n1, r.from, P.IsPaused(p, n.cfg.maxInflight));
    LoopSends(n2, r.from);
    var n3 := SendAll(n2, r.from);
    SentSame(n2, n3);
    MatchProofs.SendAllDrains(n2, r.from);
    TimeoutSent(n3, r.from);
    StillNothing(n3, SendTimeoutNow(n3, r.from), r.from);
    if !n2.fatal { CommitsSameEnd(n1, n3.log); }
  }

  /** The newest message tells a follower to campaign at once. */
  predicate TellsToCampaign(n: Node, to: Id) {
    n.msgs != [] && n.msgs[|n.msgs| - 1] == Blank(MsgTimeoutNow, to).(from := n.cfg.id, term := n.term)
  }

  lemma TimeoutSent(n: Node, to: Id)
    ensures var n' := SendTimeoutNow(n, to);
      n' == n.(msgs := n'.msgs) && n.msgs <= n'.msgs && (n.fatal || TellsToCampaign(n', to))
  {
  }

  lemma StillNothing(n: Node, n': Node, to: Id)
    requires to in n.prs && n' == n.(msgs := n'.msgs)
    ensures SendsAppend(n', to, false) == SendsAppend(n, to, false)
  {
  }

  lemma CommitsSameEnd(n: Node, l: RLog)
    requires CommitsBy(n, l)
    ensures l.LastIndex() == n.log.LastIndex()
  {
  }

  lemma ShapeTaken(n: Node, to: Id, p: P.Progress)
    requires Shape(n) && to in n.prs
    ensures Shape(SetPr(n, to, p)) && (Voters(n) ==> Voters(SetPr(n, to, p)))
  {
  }

  lemma SentSame(n: Node, n': Node)
    requires Sends(n, n')
    ensures n'.log == n.log && n'.cfg == n.cfg && n'.term == n.term && n'.transferee == n.transferee
    ensures n'.prs.Keys == n.prs.Keys
    ensures n.msgs <= n'.msgs && (n.fatal ==> n'.fatal)
    ensures forall p :: p in n.prs ==> n'.prs[p].matched == n.prs[p].matched
    ensures forall p :: p in n.prs ==> n'.prs[p].recentActive == n.prs[p].recentActive
  {
  }

  lemma AcceptedIs(p: P.Progress, index: nat)
    requires p.matched < index
    ensures var q := AcceptedProgress(p, index);
      && q.matched == index && q.recentActive == p.recentActive && q.next > index
      && (p.state == P.Probe ==> q.state == P.Replicate && q.next == index + 1 && q.inflights == [])
      && (p.state == P.Snapshotting ==>
            if index >= p.pendingSnapshot then q.state == P.Probe && q.next == index + 1 && !q.paused
            else q.state == P.Snapshotting && q.pendingSnapshot == p.pendingSnapshot)
      && (p.state == P.Replicate ==>
            q.state == P.Replicate && q.next == Max(p.next, index + 1) && q.inflights == P.FreeTo(p.inflights, index))
  {
  }

  lemma AfterAcceptIs(n: Node, from: Id, oldPaused: bool)
    requires Shape(n) && Voters(n) && from in n.prs && !n.fatal
    ensures var n' := AfterAccept(n, from, oldPaused);
      n'.fatal || (
        && CommitsBy(n, n'.log) && n.msgs <= n'.msgs && n'.prs.Keys == n.prs.Keys && n'.cfg == n.cfg
        && n'.transferee == n.transferee
        && forall p :: p in n.prs ==> n'.prs[p].matched == n.prs[p].matched
                                      && n'.prs[p].recentActive == n.prs[p].recentActive)
  {
    hide Shape, CommitsMore, NodeSpec.MaybeCommit, CommitsBy, Sends, MaybeSendAppend, BcastAppend;
    if CommitsMore(n) {
      CommitIs(n);
      MaybeCommitKeepsShape(n);
      ShapeCovers(NodeSpec.MaybeCommit(n));
      BroadcastSends(NodeSpec.MaybeCommit(n), n.cfg.peers);
      SentSame(NodeSpec.MaybeCommit(n), BcastAppend(NodeSpec.MaybeCommit(n), n.cfg.peers));
    } else {
      CommitSame(n);
      AppendSends(n, from, true);
      SentSame(n, SendAppend(n, from));
    }
  }

  lemma ShapeCovers(n: Node)
    requires Shape(n)
    ensures forall p :: p in n.cfg.peers ==> p in n.prs
  {
  }

  // --------------------------------------------------------------------------
  // Who hears of it

  /** A message since then that tells a follower where the leader is: an append with its commit index, or a snapshot. */
  ghost predicate Told(n: Node, n': Node, to: Id) {
    exists i :: |n.msgs| <= i < |n'.msgs| && n'.msgs[i].to == to
      && (n'.msgs[i].mtype == MsgSnap || (n'.msgs[i].mtype == MsgApp && n'.msgs[i].commit == n'.log.committed))
  }

  lemma SentTells(n: Node, n': Node, to: Id)
    requires to in n.prs && SentOne(n, n', to) && n'.log.committed == n.log.committed
    ensures Told(n, n', to)
  {
    assert n'.msgs[|n.msgs|].to == to;
  }

  lemma ToldStays(a: Node, b: Node, c: Node, d: Node, to: Id)
    requires Told(b, c, to) && a.msgs <= b.msgs && c.msgs <= d.msgs && d.log.committed == c.log.committed
    ensures Told(a, d, to)
  {
    var i :| |b.msgs| <= i < |c.msgs| && c.msgs[i].to == to
      && (c.msgs[i].mtype == MsgSnap || (c.msgs[i].mtype == MsgApp && c.msgs[i].commit == c.log.committed));
    assert d.msgs[i] == c.msgs[i];
  }

  lemma {:induction false} BroadcastTells(n: Node, peers: seq<Id>, to: Id)
    requires Shape(n) && !n.fatal && (forall p :: p in peers ==> p in n.prs)
    requires to in peers && to != n.cfg.id && SendsAppend(n, to, true) && !BcastAppend(n, peers).fatal
    ensures Told(n, BcastAppend(n, peers), to)
    decreases |peers|
  {
    hide MaybeSendAppend, SendsAppend, Shape, SentOne, Told;
    var n1 := if peers[0] == n.cfg.id then n else SendAppend(n, peers[0]);
    if peers[0] != n.cfg.id {
      AppendSends(n, peers[0], true);
      SendAppendKeepsShape(n, peers[0], true);
    }
    BroadcastSends(n1, peers[1..]);
    if peers[0] == to {
      SentIs(n, to, true);
      SentTells(n, n1, to);
      ToldStays(n, n, n1, BcastAppend(n, peers), to);
    } else {
      SameFor(n, n1, to);
      BroadcastTells(n1, peers[1..], to);
      ToldStays(n, n1, BcastAppend(n, peers), BcastAppend(n, peers), to);
    }
  }

  /** When the commit index moves, every follower that may be sent something hears of it; else at least a freed one. */
  lemma AcceptTells(n: Node, r: Message, lease: bool, to: Id)
    requires Shape(n) && Voters(n) && !n.fatal && n.role == Leader && r.mtype == MsgAppResp && r.term == n.term
    requires r.from in n.prs && !r.reject && n.prs[r.from].matched < r.index
    requires to in n.cfg.peers && to != n.cfg.id && SendsAppend(Noted(n, r), to, true) && !Step(n, r, lease).fatal
    requires
      || Step(n, r, lease).log.committed != n.log.committed
      || (to == r.from && P.IsPaused(n.prs[to], n.cfg.maxInflight))
    ensures Told(n, Step(n, r, lease), to)
  {
    hide Shape, AfterAccept, SendAll, AcceptedProgress, CommitsBy, Sends, AppResp, P.IsPaused, SendsAppend, Told,
      Step;
    LeaderHandles(n, r, lease);
    AcceptPath(n, r);
    var p := n.prs[r.from].(recentActive := true);
    SamePause(n.prs[r.from], n.cfg.maxInflight);
    ShapeTaken(n, r.from, AcceptedProgress(p, r.index));
    var n1, paused := Noted(n, r), P.IsPaused(p, n.cfg.maxInflight);
    var n2 := AfterAccept(n1, r.from, paused);
    AfterAcceptIs(n1, r.from, paused);
    LoopSends(n2, r.from);
    SentSame(n2, SendAll(n2, r.from));
    TimeoutSent(SendAll(n2, r.from), r.from);
    if n2.fatal {
      assert false;
    } else {
      AfterAcceptTells(n1, r.from, paused, to);
      ToldStays(n, n1, n2, AppResp(n, r), to);
    }
  }

  lemma SamePause(p: P.Progress, size: nat)
    ensures P.IsPaused(p.(recentActive := true), size) == P.IsPaused(p, size)
  {
  }

  lemma AfterAcceptTells(n: Node, from: Id, paused: bool, to: Id)
    requires Shape(n) && Voters(n) && from in n.prs && !n.fatal && !AfterAccept(n, from, paused).fatal
    requires to in n.cfg.peers && to != n.cfg.id && SendsAppend(n, to, true)
    requires AfterAccept(n, from, paused).log.committed != n.log.committed || (to == from && paused)
    ensures Told(n, AfterAccept(n, from, paused), to)
  {
    hide Shape, CommitsMore, NodeSpec.MaybeCommit, CommitsBy, Sends, MaybeSendAppend, BcastAppend, SendsAppend, SentOne,
      Told;
    if CommitsMore(n) {
      CommitIs(n);
      MaybeCommitKeepsShape(n);
      var n1 := NodeSpec.MaybeCommit(n);
      ShapeCovers(n1);
      BroadcastSends(n1, n.cfg.peers);
      SentSame(n1, BcastAppend(n1, n.cfg.peers));
      SameAfterCommit(n, n1, to);
      BroadcastTells(n1, n.cfg.peers, to);
      ToldStays(n, n1, BcastAppend(n1, n.cfg.peers), BcastAppend(n1, n.cfg.peers), to);
    } else {
      AppendSends(n, from, true);
      SentSame(n, SendAppend(n, from));
      SentIs(n, from, true);
      SentTells(n, SendAppend(n, from), from);
    }
  }

  lemma SameAfterCommit(n: Node, n': Node, to: Id)
    requires to in n.prs && n' == n.(log := n'.log) && CommitsBy(n, n'.log)
    ensures SendsAppend(n', to, true) == SendsAppend(n, to, true)
  {
    hide QuorumReached, RLog.Term;
  }

  // --------------------------------------------------------------------------
  // A refusal

  /** A refusal that is news: of an index above the match while replicating, or of the outstanding probe. */
  predicate IsNews(p: P.Progress, index: nat) {
    if p.state == P.Replicate then index > p.matched else p.next >= 1 && index == p.next - 1
  }

  /**
   A refusal that is news brings next down - while probing, to the refused index or right behind the follower's end,
   whichever is less - and sends the follower something at once, unless it waits for a snapshot. Any other changes
   nothing.
   */
  lemma RefusalTaken(n: Node, r: Message, lease: bool)
    requires Shape(n) && !n.fatal && n.role == Leader && r.mtype == MsgAppResp && r.term == n.term
    requires r.from in n.prs && r.reject
    ensures var p, n' := n.prs[r.from], Step(n, r, lease);
      && r.from in n'.prs && n'.prs[r.from].matched == p.matched && n'.prs[r.from].recentActive
      && (!IsNews(p, r.index) ==> n' == n.(prs := n.prs[r.from := p.(recentActive := true)]))
      && (IsNews(p, r.index) && !n'.fatal ==>
            && n'.prs[r.from].next ==
                 (if p.state == P.Replicate then p.matched + 1 else Max(1, Min(r.index, r.rejectHint + 1)))
            && (p.state != P.Snapshotting ==> Told(n, n', r.from)))
  {
    hide Shape, NextEntries, MaybeSendAppend, Told, SentOne, AppendMessage, Step;
    LeaderHandles(n, r, lease);
    var p := n.prs[r.from].(recentActive := true);
    if P.Decreases(p, r.index) {
      var q := P.MaybeDecreaseTo(p, r.index, r.rejectHint);
      var q' := if q.state == P.Replicate then P.BecomeProbe(q) else q;
      var n1 := SetPr(n, r.from, q');
      ShapeTaken(n, r.from, q');
      AppendSends(n1, r.from, true);
      ProbeKeepsNext(n1, r.from);
      SentIs(n1, r.from, true);
      if p.state != P.Snapshotting && !SendAppend(n1, r.from).fatal {
        SentTells(n1, SendAppend(n1, r.from), r.from);
        ToldStays(n, n1, SendAppend(n1, r.from), SendAppend(n1, r.from), r.from);
      }
    }
  }

  /** Outside Replicate state sending does not move next. */
  lemma ProbeKeepsNext(n: Node, to: Id)
    requires to in n.prs && n.prs[to].state != P.Replicate
    ensures var n' := SendAppend(n, to); to in n'.prs && n'.prs[to].next == n.prs[to].next
  {
    hide SendsAppend, NextEntries, AppendMessage;
  }
}
