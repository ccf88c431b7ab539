/** What the leader's handlers keep: replication messages and progress stay truthful, commits are majorities. */
module LeaderProofs {
  import opened Proto
  import opened Quorum
  import opened QuorumIndex
  import opened Logs
  import opened Protocol
  import opened Steps
  import opened Actions
  import opened RaftLogSpec
  import opened NodeSpec
  import opened NodeInv
  import P = ProgressSpec
  import R = ReadOnlySpec

  ghost predicate Base(h: History, n: Node) {
    Core(h, n) && SentOk(h, n)
  }

  ghost predicate Leading(h: History, n: Node) {
    Base(h, n) && IsLeading(h, n)
  }

  /** A message as send() puts it into the outbox. */
  function Stamped(n: Node, m: Message): Message {
    if IsVoteKind(m.mtype) then m.(from := n.cfg.id)
    else m.(from := n.cfg.id, term := if m.mtype == MsgProp || m.mtype == MsgReadIndex then 0 else n.term)
  }

  predicate Sendable(m: Message) {
    if IsVoteKind(m.mtype) then m.term != 0 else m.term == 0
  }

  lemma SendIs(n: Node, m: Message)
    requires !n.fatal && Sendable(m)
    ensures Send(n, m) == n.(msgs := n.msgs + [Stamped(n, m)])
  {
  }

  lemma SendBase(h: History, n: Node, m: Message)
    requires Base(h, n) && Sendable(m) && MsgOk(h, Stamped(n, m))
    ensures Base(h, Send(n, m)) && Send(n, m) == n.(msgs := n.msgs + [Stamped(n, m)])
  {
  }

  lemma SendLeading(h: History, n: Node, m: Message)
    requires Leading(h, n) && Sendable(m) && MsgOk(h, Stamped(n, m))
    ensures Leading(h, Send(n, m)) && Send(n, m) == n.(msgs := n.msgs + [Stamped(n, m)])
  {
  }

  /** Leading does not depend on the outbox, the read queue and the like. */
  lemma LeadingFrame(h: History, n: Node, n': Node)
    requires IsLeading(h, n)
    requires n'.cfg == n.cfg && n'.role == n.role && n'.lead == n.lead && n'.term == n.term && n'.prs == n.prs
    requires n'.log == n.log
    ensures IsLeading(h, n')
  {
  }

  // --------------------------------------------------------------------------
  // Progress updates

  lemma SetPrLeading(h: History, n: Node, to: Id, r: P.Progress)
    requires Leading(h, n) && to in n.prs && PrOk(h, SetPr(n, to, r), to) && (to == n.cfg.id ==> r.inflights == [])
    ensures Leading(h, SetPr(n, to, r))
  {
  }

  // --------------------------------------------------------------------------
  // Sending entries

  /** What the leader reads for a follower is a piece of the leader log. */
  lemma EntriesRead(h: History, n: Node, to: Id)
    requires Core(h, n) && IsLeading(h, n) && to in n.prs && PrOk(h, n, to)
    ensures match NextEntries(n, to)
      case None => n.log.base >= 1
      case Some(es) =>
        var prev := n.prs[to].next - 1;
        var l := h.ll[n.term];
        && n.log.base <= prev && prev + |es| <= |l| && |l| == n.log.LastIndex() && es == l[prev..prev + |es|]
        && n.log.Term(prev) == TermAt(l, prev)
        && (es != [] ==> es[|es| - 1].index == prev + |es|)
  {
    hide ValidConfig, R.Consistent, Acked, P.WindowOk, LeaderIs, Shows, Entries;
    assert n.log.LastIndex() == |h.log[n.cfg.id]| by { ShownTerm(n.log, h.log[n.cfg.id], 0); }
    ReadFrom(n.log, h.log[n.cfg.id], n.prs[to].next, n.cfg.maxMsgSize);
  }

  lemma AppMessageOk(h: History, n: Node, to: Id)
    requires Core(h, n) && IsLeading(h, n) && to in n.prs && PrOk(h, n, to) && to != n.cfg.id
    requires NextEntries(n, to).Some?
    ensures var m := AppendMessage(n, to, NextEntries(n, to).value); Sendable(m) && MsgOk(h, Stamped(n, m))
  {
    EntriesRead(h, n, to);
    hide ValidConfig, R.Consistent, Acked, P.WindowOk, Shows;
  }

  lemma SnapMessageOk(h: History, n: Node, to: Id)
    requires Core(h, n) && IsLeading(h, n) && to in n.prs && to != n.cfg.id && n.log.snap.index >= 1
    ensures var m := Blank(MsgSnap, to).(snapshot := n.log.snap); Sendable(m) && MsgOk(h, Stamped(n, m))
  {
  }

  lemma SentProgressOk(h: History, n: Node, to: Id)
    requires Core(h, n) && IsLeading(h, n) && to in n.prs && PrOk(h, n, to)
    requires NextEntries(n, to).Some? && !P.IsPaused(n.prs[to], n.cfg.maxInflight)
    ensures PrOk(h, SetPr(n, to, SentProgress(n.prs[to], NextEntries(n, to).value)), to)
  {
    hide ValidConfig, R.Consistent, Acked, Shows, P.WindowOk, NextEntries;
    EntriesRead(h, n, to);
    var es := NextEntries(n, to).value;
    var r := n.prs[to];
    if es != [] && r.state == P.Replicate {
      P.WindowPush(r, es[|es| - 1].index, n.cfg.maxInflight);
    } else {
      WindowPaused(r, n.cfg.maxInflight);
    }
  }

  lemma WindowPaused(r: P.Progress, size: nat)
    requires P.WindowOk(r, size)
    ensures P.WindowOk(r.(paused := true), size)
  {
  }

  lemma MaybeSendLeading(h: History, n: Node, to: Id, e: bool)
    requires Leading(h, n) && to in n.prs && to != n.cfg.id
    ensures Leading(h, MaybeSendAppend(n, to, e))
  {
    if SendsAppend(n, to, e) {
      EntriesRead(h, n, to);
      var r := n.prs[to];
      if NextEntries(n, to).None? {
        assert n.log.snap.index >= 1;
        SnapMessageOk(h, n, to);
        var r' := P.BecomeSnapshot(r, n.log.snap.index);
        assert PrOk(h, SetPr(n, to, r'), to);
        SetPrLeading(h, n, to, r');
        SendLeading(h, SetPr(n, to, r'), Blank(MsgSnap, to).(snapshot := n.log.snap));
      } else {
        SendEntriesLeading(h, n, to, e);
      }
    }
  }

  lemma SendEntriesLeading(h: History, n: Node, to: Id, e: bool)
    requires Leading(h, n) && to in n.prs && to != n.cfg.id && SendsAppend(n, to, e) && NextEntries(n, to).Some?
    ensures Leading(h, MaybeSendAppend(n, to, e))
  {
    var es := NextEntries(n, to).value;
    var r' := SentProgress(n.prs[to], es);
    AppMessageOk(h, n, to);
    SentProgressOk(h, n, to);
    SetPrLeading(h, n, to, r');
    hide MsgOk, PrOk;
    SendLeading(h, SetPr(n, to, r'), AppendMessage(n, to, es));
  }

  /** Nothing a leader sends changes who it is, its term or its log. */
  ghost predicate SameSelf(n: Node, n': Node) {
    && n'.cfg == n.cfg && n'.log == n.log && n'.term == n.term && n'.role == n.role && n'.vote == n.vote
    && n'.prs.Keys == n.prs.Keys && n'.transferee == n.transferee
  }

  lemma MaybeSendSame(n: Node, to: Id, e: bool)
    requires to in n.prs
    ensures SameSelf(n, MaybeSendAppend(n, to, e))
  {
  }

  lemma {:induction false} BcastLeading(h: History, n: Node, peers: seq<Id>)
    requires Leading(h, n) && forall p :: p in peers ==> p in n.prs
    ensures Leading(h, BcastAppend(n, peers)) && SameSelf(n, BcastAppend(n, peers))
    decreases |peers|
  {
    hide Leading, MaybeSendAppend;
    if !n.fatal && peers != [] {
      var n1 := if peers[0] == n.cfg.id then n else SendAppend(n, peers[0]);
      if peers[0] != n.cfg.id {
        MaybeSendLeading(h, n, peers[0], true);
        MaybeSendSame(n, peers[0], true);
      }
      BcastLeading(h, n1, peers[1..]);
    }
  }

  lemma {:induction false} SendAllLeading(h: History, n: Node, to: Id)
    requires Leading(h, n) && to in n.prs && to != n.cfg.id && Shape(n)
    ensures Leading(h, SendAll(n, to)) && SameSelf(n, SendAll(n, to))
    decreases Backlog(n, to), if n.fatal then 0 else if P.IsPaused(n.prs[to], n.cfg.maxInflight) then 1 else 2
  {
    hide Leading, MaybeSendAppend, Shape;
    if !n.fatal && SendsAppend(n, to, false) {
      SendMakesProgress(n, to);
      MaybeSendLeading(h, n, to, false);
      MaybeSendSame(n, to, false);
      SendAllLeading(h, MaybeSendAppend(n, to, false), to);
    }
  }

  lemma HeartbeatLeading(h: History, n: Node, to: Id, ctx: seq<byte>)
    requires Leading(h, n) && to in n.prs && to != n.cfg.id
    ensures Leading(h, Heartbeat(n, to, ctx)) && SameSelf(n, Heartbeat(n, to, ctx))
  {
    var m := Blank(MsgHeartbeat, to).(commit := Min(n.prs[to].matched, n.log.committed), context := ctx);
    assert MsgOk(h, Stamped(n, m)) by {
      assert PrOk(h, n, to);
      hide Core, P.WindowOk, SentOk;
    }
    hide MsgOk;
    SendLeading(h, n, m);
  }

  lemma {:induction false} BcastHeartbeatLeading(h: History, n: Node, ctx: seq<byte>, peers: seq<Id>)
    requires Leading(h, n) && forall p :: p in peers ==> p in n.prs
    ensures Leading(h, BcastHeartbeat(n, ctx, peers)) && SameSelf(n, BcastHeartbeat(n, ctx, peers))
    decreases |peers|
  {
    hide Leading, Heartbeat;
    if !n.fatal && peers != [] {
      var n1 := if peers[0] == n.cfg.id then n else Heartbeat(n, peers[0], ctx);
      if peers[0] != n.cfg.id { HeartbeatLeading(h, n, peers[0], ctx); }
      BcastHeartbeatLeading(h, n1, ctx, peers[1..]);
    }
  }

  // --------------------------------------------------------------------------
  // Committing

  function Reached(prs: map<Id, P.Progress>, peers: seq<Id>, v: nat): set<Id> {
    set p | p in peers && p in prs && prs[p].matched >= v
  }

  ghost predicate Distinct(s: seq<Id>) {
    forall i, j :: 0 <= i < j < |s| ==> s[i] != s[j]
  }

  lemma ReachedSplits(prs: map<Id, P.Progress>, front: seq<Id>, last: Id, v: nat)
    requires last in prs
    ensures Reached(prs, front + [last], v) == Reached(prs, front, v) + if prs[last].matched >= v then {last} else {}
  {
  }

  /** Counting match values is counting voters. */
  lemma {:induction false} ReachedCount(prs: map<Id, P.Progress>, peers: seq<Id>, v: nat)
    requires Distinct(peers) && forall p :: p in peers ==> p in prs
    ensures |Reached(prs, peers, v)| == CountGE(MatchBuf(prs, peers), v)
  {
    if peers != [] {
      var front, last := peers[..|peers| - 1], peers[|peers| - 1];
      assert peers == front + [last];
      ReachedCount(prs, front, v);
      ReachedSplits(prs, front, last, v);
      assert last !in Reached(prs, front, v);
      BufSplits(prs, front, last);
      hide Reached, MatchBuf;
      CountConcat(MatchBuf(prs, front), [prs[last].matched], v);
      CountOne(prs[last].matched, v);
    } else {
      assert Reached(prs, peers, v) == {};
    }
  }

  lemma BufSplits(prs: map<Id, P.Progress>, front: seq<Id>, last: Id)
    requires last in prs
    ensures MatchBuf(prs, front + [last]) == MatchBuf(prs, front) + [prs[last].matched]
  {
  }

  function Members(s: seq<Id>): set<Id> { set p | p in s }

  lemma {:induction false} DistinctSize(s: seq<Id>)
    requires Distinct(s)
    ensures |Members(s)| == |s|
  {
    if s != [] {
      var front, last := s[..|s| - 1], s[|s| - 1];
      DistinctSize(front);
      assert s == front + [last];
      assert last !in front;
      assert Members(s) == Members(front) + {last};
    } else {
      assert Members(s) == {};
    }
  }

  lemma VoterCount(h: History, n: Node)
    requires Core(h, n)
    ensures |h.voters| == |n.cfg.peers| && QuorumSize(|h.voters|) == NodeQuorum(n) && n.cfg.peers != []
  {
    hide Shows, R.Consistent;
    DistinctSize(n.cfg.peers);
    assert h.voters == Members(n.cfg.peers);
  }

  /** The commit rule of section 5.4.2: a majority holds it, and the entry is of the leader's own term. */
  lemma CommitIndexChosen(h: History, n: Node)
    requires Core(h, n) && IsLeading(h, n) && n.cfg.peers != [] && CommitsMore(n)
    ensures n.log.committed < CommitIndex(n) <= |h.ll[n.term]|
    ensures Safe(h, h.ll[n.term][..CommitIndex(n)], n.term)
  {
    var j := CommitIndex(n);
    var q := Reached(n.prs, n.cfg.peers, j);
    VoterCount(h, n);
    ReachedIsQuorum(h, n, j);
    ShownTerm(n.log, h.log[n.cfg.id], j);
    forall p | p in q ensures Acked(h, p, n.term, j) {
      assert PrOk(h, n, p);
    }
    hide Core, PrOk;
    assert ChosenBy(h, n.term, j, q);
    MajorityIsSafe(h, n.term, j, q);
  }

  lemma ReachedIsQuorum(h: History, n: Node, j: nat)
    requires Core(h, n) && n.cfg.peers != [] && j == CommitIndex(n)
    ensures IsQuorum(h.voters, Reached(n.prs, n.cfg.peers, j))
  {
    VoterCount(h, n);
    ReachedCount(n.prs, n.cfg.peers, j);
    QuorumMatchIsGreatest(MatchBuf(n.prs, n.cfg.peers));
  }

  /** The history after the leader moved its commit index. */
  function Announce(h: History, c: Id, t: nat, k: nat): History {
    SetLeaderCommit(SetCommit(h, c, k), t, k)
  }

  lemma AnnounceInv(h: History, n: Node, k: nat)
    requires Inv(h) && Core(h, n) && IsLeading(h, n)
    requires n.log.committed <= k <= |h.ll[n.term]| && Safe(h, h.ll[n.term][..k], n.term)
    ensures var h' := Announce(h, n.cfg.id, n.term, k); Inv(h') && Extends(h, h', n.cfg.id)
  {
    var me := n.cfg.id;
    var h1 := SetCommit(h, me, k);
    assert me in h.voters && me in h.log && me in h.term && h.term[me] == n.term && h.log[me] == h.ll[n.term];
    assert me in h1.commit;
    assert LeaderIs(h, n.term, me) && h.lc[n.term] == n.log.committed;
    hide Inv, Core, IsLeading, Safe, Extends, Chosen;
    SetCommitInv(h, me, k);
    SafeGrows(h, h1, me, h.ll[n.term][..k], n.term, n.term);
    SetLeaderCommitInv(h1, me, k);
    ExtendsTrans(h, h1, Announce(h, me, n.term, k), me);
  }

  lemma CommittedShows(l: RLog, log: Log, k: nat)
    requires Shows(l, log) && l.committed <= k <= |log|
    ensures Shows(l.(committed := k), log)
  {
  }

  lemma AnnouncedLeading(h: History, n: Node, k: nat)
    requires Leading(h, n) && n.log.committed <= k <= |h.ll[n.term]|
    requires Extends(h, Announce(h, n.cfg.id, n.term, k), n.cfg.id)
    ensures Leading(Announce(h, n.cfg.id, n.term, k), n.(log := n.log.(committed := k)))
  {
    hide Extends, Shows, ValidConfig, R.Consistent, SentOk, PrOk, Core;
    var h', n' := Announce(h, n.cfg.id, n.term, k), n.(log := n.log.(committed := k));
    SentStays(h, h', n.cfg.id, n);
    AnnouncedCore(h, n, k);
    SentFrameOf(h', n, n');
    forall p | p in n'.prs ensures PrOk(h', n', p) { AnnouncedPr(h, n, k, p); }
  }

  lemma SentFrameOf(h: History, n: Node, n': Node)
    requires SentOk(h, n) && n'.msgs == n.msgs
    ensures SentOk(h, n')
  {
    hide MsgOk;
  }

  lemma AnnouncedCore(h: History, n: Node, k: nat)
    requires Leading(h, n) && n.log.committed <= k <= |h.ll[n.term]|
    ensures Core(Announce(h, n.cfg.id, n.term, k), n.(log := n.log.(committed := k)))
  {
    hide Shows, ValidConfig, R.Consistent, SentOk, PrOk;
    CommittedShows(n.log, h.log[n.cfg.id], k);
  }

  lemma AnnouncedPr(h: History, n: Node, k: nat, p: Id)
    requires p in n.prs && PrOk(h, n, p) && n.log.committed <= k
    ensures PrOk(Announce(h, n.cfg.id, n.term, k), n.(log := n.log.(committed := k)), p)
  {
    hide P.WindowOk;
  }

  /** maybe_commit on a leader: a sound new commit index, or nothing. */
  lemma CommitLeading(h: History, n: Node) returns (h': History)
    requires Inv(h) && Leading(h, n) && n.cfg.peers != []
    ensures Inv(h') && Extends(h, h', n.cfg.id) && Leading(h', NodeSpec.MaybeCommit(n))
    ensures NodeSpec.MaybeCommit(n) == n.(log := NodeSpec.MaybeCommit(n).log)
  {
    hide Inv, Core, SentOk, IsLeading, Extends, CommitIndex, NodeSpec.MaybeCommit, Safe;
    LeadingFacts(h, n);
    MaybeCommitIs(n);
    var k := CommitIndex(n);
    if CommitsMore(n) {
      CommitIndexChosen(h, n);
      h' := Announce(h, n.cfg.id, n.term, k);
      AnnounceInv(h, n, k);
      AnnouncedLeading(h, n, k);
    } else {
      h' := h;
      ExtendsRefl(h, n.cfg.id);
    }
  }

  lemma MaybeCommitIs(n: Node)
    requires !n.fatal && n.cfg.peers != []
    ensures !CommitsMore(n) ==> NodeSpec.MaybeCommit(n) == n
    ensures CommitsMore(n) && CommitIndex(n) <= n.log.LastIndex() ==>
      NodeSpec.MaybeCommit(n) == n.(log := n.log.(committed := CommitIndex(n)))
  {
  }

  lemma LeadingFacts(h: History, n: Node)
    requires Core(h, n) && IsLeading(h, n)
    ensures !n.fatal && n.term in h.ll && n.log.LastIndex() == |h.ll[n.term]|
    ensures n.cfg.id in h.voters && n.cfg.id in h.term && h.term[n.cfg.id] == n.term && n.cfg.id in n.prs
    ensures n.cfg.id in h.log && h.log[n.cfg.id] == h.ll[n.term] && LeaderIs(h, n.term, n.cfg.id) && n.term >= 1
  {
  }

  // --------------------------------------------------------------------------
  // Appending

  ghost predicate StampedFor(es: seq<Entry>, t: nat, last: nat) {
    forall i :: 0 <= i < |es| ==> es[i].term == t && es[i].index == last + 1 + i
  }

  lemma AppendAtEnd(l: RLog, log: Log, es: seq<Entry>, t: nat)
    requires Shows(l, log) && l.Numbered() && StampedFor(es, t, l.LastIndex())
    ensures var l' := l.(ents := l.ents + es);
      Append(l, es) == Some(l') && Shows(l', log + es) && l'.Numbered() && l'.LastIndex() == |log + es|
  {
    ShownTerm(l, log, 0);
    AppendedShows(l, log, es);
    hide Shows;
    assert l.ents[..l.LastIndex() - l.base] == l.ents;
    assert l.ents + [] == l.ents;
    ShownBounds(l, log);
  }

  lemma ShownBounds(l: RLog, log: Log)
    requires Shows(l, log)
    ensures l.LastIndex() == |log| && l.committed <= |log|
  {
  }

  lemma AppendedShows(l: RLog, log: Log, es: seq<Entry>)
    requires Shows(l, log)
    ensures Shows(l.(ents := l.ents + es), log + es)
  {
  }

  /** The history after the leader appended es and confirmed its own log. */
  function Appended(h: History, c: Id, es: seq<Entry>): History
    requires c in h.term && c in h.log
  {
    Confirm(Actions.Extend(h, c, es), c, |h.log[c] + es|)
  }

  lemma AppendedInv(h: History, n: Node, es: seq<Entry>)
    requires Inv(h) && Core(h, n) && IsLeading(h, n) && StampedFor(es, n.term, n.log.LastIndex())
    ensures n.cfg.id in h.term && n.cfg.id in h.log
    ensures var h' := Appended(h, n.cfg.id, es); Inv(h') && Extends(h, h', n.cfg.id)
  {
    var me := n.cfg.id;
    LeadingFacts(h, n);
    AfterExtend(h, me, es);
    hide Inv, Core, IsLeading, Extends, Confirm, Actions.Extend, CanExtend, CanConfirm;
    ExtendInv(h, me, es);
    var h1 := Actions.Extend(h, me, es);
    ConfirmInv(h1, me, |h1.log[me]|);
    ExtendsTrans(h, h1, Confirm(h1, me, |h1.log[me]|), me);
  }

  lemma AfterExtend(h: History, c: Id, es: seq<Entry>)
    requires c in h.voters && c in h.term && c in h.log && LeaderIs(h, h.term[c], c) && h.term[c] >= 1
    requires h.log[c] == h.ll[h.term[c]] && StampedFor(es, h.term[c], |h.log[c]|)
    ensures CanExtend(h, c, es)
    ensures var h1 := Actions.Extend(h, c, es);
      c in h1.term && c in h1.log && h1.log[c] == h.log[c] + es && CanConfirm(h1, c, |h1.log[c]|)
  {
  }

  lemma AppendedIs(h: History, n: Node, es: seq<Entry>)
    requires Core(h, n) && IsLeading(h, n)
    ensures n.cfg.id in h.term && n.cfg.id in h.log
    ensures var h' := Appended(h, n.cfg.id, es); var me := n.cfg.id;
      && h'.voters == h.voters && h'.term == h.term && h'.votes == h.votes && h'.commit == h.commit && h'.lc == h.lc
      && h'.leader == h.leader && h'.boot == h.boot
      && me in h'.log && h'.log[me] == h.log[me] + es && n.term in h'.ll && h'.ll[n.term] == h'.log[me]
      && Acked(h', me, n.term, |h'.log[me]|)
  {
  }

  /** The leader after append_entry has stored es, before it tries to commit. */
  function Stored(n: Node, es: seq<Entry>): Node
    requires n.cfg.id in n.prs
  {
    var me := n.cfg.id;
    n.(uncommitted := n.uncommitted + PayloadSize32(es), log := n.log.(ents := n.log.ents + es),
       prs := n.prs[me := P.MaybeUpdate(n.prs[me], n.log.LastIndex() + |es|)])
  }

  lemma StoredCore(h: History, n: Node, es: seq<Entry>)
    requires Core(h, n) && IsLeading(h, n) && StampedFor(es, n.term, n.log.LastIndex())
    ensures n.cfg.id in h.term && n.cfg.id in h.log && n.cfg.id in n.prs
    ensures Core(Appended(h, n.cfg.id, es), Stored(n, es))
  {
    LeadingFacts(h, n);
    AppendedIs(h, n, es);
    AppendAtEnd(n.log, h.log[n.cfg.id], es, n.term);
    hide Appended, Shows, ValidConfig, R.Consistent, PayloadSize32, P.MaybeUpdate, PrOk;
  }

  lemma StoredPrs(h: History, n: Node, es: seq<Entry>)
    requires Core(h, n) && IsLeading(h, n) && StampedFor(es, n.term, n.log.LastIndex())
    requires n.cfg.id in h.term && n.cfg.id in h.log && n.cfg.id in n.prs
    requires Extends(h, Appended(h, n.cfg.id, es), n.cfg.id)
    ensures IsLeading(Appended(h, n.cfg.id, es), Stored(n, es))
  {
    LeadingFacts(h, n);
    AppendedIs(h, n, es);
    var h', n' := Appended(h, n.cfg.id, es), Stored(n, es);
    forall p | p in n'.prs ensures PrOk(h', n', p) {
      StoredPr(h, n, es, p);
    }
    hide Appended, Core, PayloadSize32, PrOk, Extends, StampedFor, P.MaybeUpdate;
  }

  lemma StoredPr(h: History, n: Node, es: seq<Entry>, p: Id)
    requires Core(h, n) && IsLeading(h, n) && p in n.prs && n.cfg.id in n.prs && n.cfg.id in h.log && n.cfg.id in h.term
    requires Extends(h, Appended(h, n.cfg.id, es), n.cfg.id)
    ensures PrOk(Appended(h, n.cfg.id, es), Stored(n, es), p)
  {
    hide Appended, Core, PayloadSize32, PrOk, Stored, Extends, LeaderIs;
    LeadingFacts(h, n);
    AppendedIs(h, n, es);
    assert PrOk(h, n, p);
    PrStays(h, Appended(h, n.cfg.id, es), n.cfg.id, n, p);
    PrLonger(Appended(h, n.cfg.id, es), n, es, p);
  }

  lemma PrLonger(h: History, n: Node, es: seq<Entry>, p: Id)
    requires n.cfg.id in n.prs && p in n.prs && PrOk(h, n, p)
    requires p == n.cfg.id ==> Acked(h, p, n.term, n.log.LastIndex() + |es|) && n.prs[p].inflights == []
    ensures PrOk(h, Stored(n, es), p)
  {
    hide Acked, PayloadSize32;
  }

  /** append_entry on a leader. */
  lemma AppendLeading(h: History, n: Node, es: seq<Entry>) returns (h': History)
    requires Inv(h) && Leading(h, n)
    ensures Shape(n) && Inv(h') && Extends(h, h', n.cfg.id) && Leading(h', AppendEntry(n, es))
  {
    hide Inv, Core, SentOk, IsLeading, Extends, Shape, Stamp, FitsUncommitted, AppendEntry;
    CoreShape(h, n);
    if FitsUncommitted(n, Stamp(es, n.term, n.log.LastIndex())) {
      h' := AppendStored(h, n, es);
    } else {
      TooBig(n, es);
      h' := h;
      ExtendsRefl(h, n.cfg.id);
    }
  }

  lemma CoreShape(h: History, n: Node)
    requires Core(h, n)
    ensures Shape(n)
  {
  }

  lemma TooBig(n: Node, es: seq<Entry>)
    requires Shape(n) && !FitsUncommitted(n, Stamp(es, n.term, n.log.LastIndex()))
    ensures AppendEntry(n, es) == n
  {
  }

  lemma AppendStored(h: History, n: Node, es: seq<Entry>) returns (h': History)
    requires Inv(h) && Leading(h, n) && Shape(n) && FitsUncommitted(n, Stamp(es, n.term, n.log.LastIndex()))
    ensures Inv(h') && Extends(h, h', n.cfg.id) && Leading(h', AppendEntry(n, es))
  {
    hide Inv, Core, SentOk, IsLeading, Extends, NodeSpec.MaybeCommit, AppendEntry, Stored, Appended, PayloadSize32,
      P.MaybeUpdate, Shape, Stamp;
    hide FitsUncommitted, LeaderIs;
    var me := n.cfg.id;
    var stamped := Stamp(es, n.term, n.log.LastIndex());
    LeadingFacts(h, n);
    AppendIs(h, n, es);
    StoredCore(h, n, stamped);
    AppendedInv(h, n, stamped);
    StoredPrs(h, n, stamped);
    var h1 := Appended(h, me, stamped);
    SentStays(h, h1, me, n);
    StoredSent(h1, n, stamped);
    h' := CommitLeading(h1, Stored(n, stamped));
    ExtendsTrans(h, h1, h', me);
  }

  lemma StoredSent(h: History, n: Node, es: seq<Entry>)
    requires n.cfg.id in n.prs && SentOk(h, n)
    ensures SentOk(h, Stored(n, es))
  {
  }

  lemma AppendIs(h: History, n: Node, es: seq<Entry>)
    requires Core(h, n) && IsLeading(h, n) && Shape(n) && FitsUncommitted(n, Stamp(es, n.term, n.log.LastIndex()))
    ensures Shape(n) && n.cfg.id in n.prs && n.cfg.peers != []
    ensures AppendEntry(n, es) == NodeSpec.MaybeCommit(Stored(n, Stamp(es, n.term, n.log.LastIndex())))
    ensures var n1 := Stored(n, Stamp(es, n.term, n.log.LastIndex())); n1.cfg == n.cfg && n1.prs.Keys == n.prs.Keys
  {
    LeadingFacts(h, n);
    AppendAtEnd(n.log, h.log[n.cfg.id], Stamp(es, n.term, n.log.LastIndex()), n.term);
    hide Core, IsLeading;
    AppendAt(n, es);
  }

  lemma AppendAt(n: Node, es: seq<Entry>)
    requires Shape(n) && !n.fatal && FitsUncommitted(n, Stamp(es, n.term, n.log.LastIndex()))
    requires var stamped := Stamp(es, n.term, n.log.LastIndex());
      Append(n.log, stamped) == Some(n.log.(ents := n.log.ents + stamped))
    ensures AppendEntry(n, es) == NodeSpec.MaybeCommit(Stored(n, Stamp(es, n.term, n.log.LastIndex())))
  {
  }
}
