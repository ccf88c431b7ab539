/**
 What becomes of a read request: what is recorded for it, when it is released, what index and context its answer
 carries, and where the answer goes.
 */
module Answers {
  import opened Proto
  import opened RaftLogSpec
  import opened NodeSpec
  import opened LeaderProofs
  import opened Rounds
  import Q = ReadQueue
  import P = ProgressSpec
  import R = ReadOnlySpec

  // --------------------------------------------------------------------------
  // Answers

  /** The requests of this node's own clients. */
  function Own(n: Node, ss: seq<R.ReadIndexStatus>): seq<R.ReadState>
    requires forall s :: s in ss ==> s.req.entries != []
  {
    if ss == [] then []
    else
      var s := ss[0];
      (if s.req.from == 0 || s.req.from == n.cfg.id then [R.ReadState(s.index, s.req.entries[0].data)] else [])
      + Own(n, ss[1..])
  }

  /** Those of others, each answered to the node that forwarded it, with its own entries. */
  function Others(n: Node, ss: seq<R.ReadIndexStatus>): seq<Message> {
    if ss == [] then []
    else
      var s := ss[0];
      (if s.req.from == 0 || s.req.from == n.cfg.id then []
       else [Blank(MsgReadIndexResp, s.req.from).(from := n.cfg.id, term := n.term, index := s.index,
                                                  entries := s.req.entries)])
      + Others(n, ss[1..])
  }

  /** Every released request is answered once, in order, with the index recorded for it. */
  lemma {:induction false} AnswersAre(n: Node, ss: seq<R.ReadIndexStatus>)
    requires !n.fatal && forall s :: s in ss ==> s.req.entries != []
    ensures AnswerReads(n, ss) ==
      n.(readStates := n.readStates + Own(n, ss), msgs := n.msgs + Others(n, ss))
    decreases |ss|
  {
    if ss == [] {
      assert n.readStates + Own(n, ss) == n.readStates && n.msgs + Others(n, ss) == n.msgs;
    } else {
      FirstAnswer(n, ss);
      hide AnswerRead, Own, Others;
      var n1 := AnswerRead(n, ss[0].req, ss[0].index);
      AnswersAre(n1, ss[1..]);
      SameAnswers(n, n1, ss[1..]);
    }
  }

  lemma FirstAnswer(n: Node, ss: seq<R.ReadIndexStatus>)
    requires !n.fatal && ss != [] && forall s :: s in ss ==> s.req.entries != []
    ensures ss[0].req.entries != [] && var n1 := AnswerRead(n, ss[0].req, ss[0].index);
      && n1 == n.(readStates := n1.readStates, msgs := n1.msgs)
      && n1.readStates + Own(n, ss[1..]) == n.readStates + Own(n, ss)
      && n1.msgs + Others(n, ss[1..]) == n.msgs + Others(n, ss)
  {
    hide Own, Others, Send;
    assert ss[0] in ss;
    FirstSplit(n, ss);
    var s := ss[0];
    if s.req.from == 0 || s.req.from == n.cfg.id {
      Regroup(n.readStates, R.ReadState(s.index, s.req.entries[0].data), Own(n, ss[1..]));
      assert [] + Others(n, ss[1..]) == Others(n, ss[1..]);
    } else {
      var m := Blank(MsgReadIndexResp, s.req.from).(index := s.index, entries := s.req.entries);
      SendIs(n, m);
      Regroup(n.msgs, Stamped(n, m), Others(n, ss[1..]));
      assert [] + Own(n, ss[1..]) == Own(n, ss[1..]);
    }
  }

  lemma FirstSplit(n: Node, ss: seq<R.ReadIndexStatus>)
    requires ss != [] && forall s :: s in ss ==> s.req.entries != []
    ensures var s, mine := ss[0], ss[0].req.from == 0 || ss[0].req.from == n.cfg.id;
      && ss[0] in ss
      && Own(n, ss) ==
           (if mine then [R.ReadState(s.index, s.req.entries[0].data)] else []) + Own(n, ss[1..])
      && Others(n, ss) ==
           (if mine then []
            else [Stamped(n, Blank(MsgReadIndexResp, s.req.from).(index := s.index, entries := s.req.entries))])
           + Others(n, ss[1..])
  {
  }

  lemma Regroup<T>(a: seq<T>, x: T, b: seq<T>)
    ensures (a + [x]) + b == a + ([x] + b)
  {
  }

  lemma {:induction false} SameAnswers(n: Node, n': Node, ss: seq<R.ReadIndexStatus>)
    requires n'.cfg == n.cfg && n'.term == n.term && forall s :: s in ss ==> s.req.entries != []
    ensures Own(n', ss) == Own(n, ss) && Others(n', ss) == Others(n, ss)
  {
    if ss != [] { SameAnswers(n, n', ss[1..]); }
  }

  // --------------------------------------------------------------------------
  // Release

  /** With one more acknowledgement a quorum, the leader included, has confirmed the request. */
  predicate Confirmed(n: Node, m: Message) {
    m.context in n.readOnly.pending && |n.readOnly.pending[m.context].acks + {m.from}| + 1 >= NodeQuorum(n)
  }

  /** The requests at the front of the queue up to a context, as they were recorded. */
  ghost predicate FrontUpTo(r: R.ReadOnly, ctx: R.Context, k: nat, ss: seq<R.ReadIndexStatus>) {
    && 0 < k <= |r.queue| && r.queue[k - 1] == ctx && |ss| == k
    && forall i :: 0 <= i < k ==> r.queue[i] in r.pending && ss[i].req == r.pending[r.queue[i]].req
                                  && ss[i].index == r.pending[r.queue[i]].index
  }

  /**
   The context of a heartbeat reply: if it completes a quorum for a waiting request, that request and all before it are
   answered, in order, and leave the queue; if not, only the acknowledgement is recorded.
   */
  lemma ReadsReleased(n: Node, m: Message) returns (k: nat, ss: seq<R.ReadIndexStatus>)
    requires Q.Ordered(n.readOnly, n.log.committed) && !n.fatal
    requires n.cfg.readOnlyOption == ReadOnlySafe && m.context != []
    ensures var n' := HeartbeatReads(n, m);
      if Confirmed(n, m) then
        && FrontUpTo(n.readOnly, m.context, k, ss) && n'.readOnly.queue == n.readOnly.queue[k..]
        && (forall s :: s in ss ==> s.req.entries != [])
        && n'.readStates == n.readStates + Own(n, ss) && n'.msgs == n.msgs + Others(n, ss) && !n'.fatal
      else
        && n' == n.(readOnly := n'.readOnly) && n'.readOnly.queue == n.readOnly.queue
        && (m.context in n.readOnly.pending ==>
              m.context in n'.readOnly.pending
              && n'.readOnly.pending[m.context].acks == n.readOnly.pending[m.context].acks + {m.from})
  {
    hide HeartbeatReads, FrontUpTo, Own, Others, Q.Ordered;
    k, ss := 0, [];
    if Confirmed(n, m) { k, ss := ReleasedNow(n, m); } else { StillWaits(n, m); }
  }

  lemma StillWaits(n: Node, m: Message)
    requires !Confirmed(n, m) && !n.fatal && n.cfg.readOnlyOption == ReadOnlySafe && m.context != []
    ensures HeartbeatReads(n, m) == n.(readOnly := R.RecvAck(n.readOnly, m))
    ensures var r := R.RecvAck(n.readOnly, m);
      && r.queue == n.readOnly.queue
      && (m.context in n.readOnly.pending ==>
            m.context in r.pending && r.pending[m.context].acks == n.readOnly.pending[m.context].acks + {m.from})
  {
    hide AnswerReads, R.Advance, R.AdvanceStatuses, R.AdvanceFails;
  }

  lemma ReleasedNow(n: Node, m: Message) returns (k: nat, ss: seq<R.ReadIndexStatus>)
    requires Confirmed(n, m) && Q.Ordered(n.readOnly, n.log.committed) && !n.fatal
    requires n.cfg.readOnlyOption == ReadOnlySafe && m.context != []
    ensures var n' := HeartbeatReads(n, m);
      && FrontUpTo(n.readOnly, m.context, k, ss) && n'.readOnly.queue == n.readOnly.queue[k..]
      && (forall s :: s in ss ==> s.req.entries != [])
      && n'.readStates == n.readStates + Own(n, ss) && n'.msgs == n.msgs + Others(n, ss) && !n'.fatal
  {
    hide R.Released, R.Advance, R.AdvanceStatuses, R.AdvanceFails, R.RecvAck, AnswerReads, Q.IndexOf, Q.Ordered, Own,
      Others, FrontUpTo;
    var r1 := R.RecvAck(n.readOnly, m);
    Q.AckKeeps(n.readOnly, m, n.log.committed);
    AckedSame(n.readOnly, m);
    Q.OrderedFacts(r1, n.log.committed);
    Q.AdvanceReleases(r1, m.context, n.log.committed);
    Q.AdvanceNeverFails(r1, m.context);
    k, ss := R.Released(r1.queue, m.context), R.AdvanceStatuses(r1, m.context);
    FrontIs(n.readOnly, r1, m.context, k, ss);
    var n2 := n.(readOnly := R.Advance(r1, m.context));
    AnswersAre(n2, ss);
    SameAnswers(n, n2, ss);
    assert HeartbeatReads(n, m) == AnswerReads(n2, ss);
  }

  ghost predicate SameRequests(r: R.ReadOnly, r1: R.ReadOnly) {
    && r1.queue == r.queue && r1.pending.Keys == r.pending.Keys
    && forall c :: c in r.pending ==>
      r1.pending[c].req == r.pending[c].req && r1.pending[c].index == r.pending[c].index
  }

  /** An acknowledgement changes nothing of a request but who confirmed it. */
  lemma AckedSame(r: R.ReadOnly, m: Message)
    ensures SameRequests(r, R.RecvAck(r, m))
  {
  }

  lemma FrontIs(r: R.ReadOnly, r1: R.ReadOnly, ctx: R.Context, k: nat, ss: seq<R.ReadIndexStatus>)
    requires R.Consistent(r1) && SameRequests(r, r1)
    requires 0 < k <= |r1.queue| && r1.queue[k - 1] == ctx && |ss| == k
    requires forall i :: 0 <= i < k ==> r1.queue[i] in r1.pending && ss[i] == r1.pending[r1.queue[i]]
    ensures FrontUpTo(r, ctx, k, ss) && forall s :: s in ss ==> s.req.entries != []
  {
  }

  // --------------------------------------------------------------------------
  // Requests

  /** A reply to a heartbeat frees a window slot and a paused probe; a follower that is behind is sent something. */
  lemma ReplyTaken(n: Node, m: Message, lease: bool) returns (n2: Node)
    requires Shape(n) && m.from in n.prs && !n.fatal && n.cfg.maxInflight > 0
    requires n.role == Leader && m.mtype == MsgHeartbeatResp && m.term == n.term
    ensures Step(n, m, lease) == HeartbeatReads(n2, m) && Sends(n.(prs := n2.prs), n2)
    ensures var p, n' := n.prs[m.from], Step(n, m, lease);
      && n'.prs.Keys == n.prs.Keys && n'.prs[m.from].recentActive && n'.prs[m.from].matched == p.matched
      && (forall q :: q in n.prs && q != m.from ==> n'.prs[q] == n.prs[q]) && n'.log == n.log
      && (p.matched < n.log.LastIndex() && p.state != P.Snapshotting && !n'.fatal ==> Told(n, n', m.from))
  {
    hide Shape, HeartbeatReads, MaybeSendAppend, HeartbeatProgress, Told, SentOne, Step;
    LeaderHandles(n, m, lease);
    var p := HeartbeatProgress(n, n.prs[m.from]);
    FreedIs(n, n.prs[m.from]);
    var n1 := SetPr(n, m.from, p);
    ShapeTaken(n, m.from, p);
    AppendSends(n1, m.from, true);
    SentIs(n1, m.from, true);
    n2 := if p.matched < n1.log.LastIndex() then SendAppend(n1, m.from) else n1;
    ReadsLeave(n2, m);
    if p.matched < n.log.LastIndex() && p.state != P.Snapshotting && !n2.fatal {
      FreedSends(n1, m.from);
      SentTells(n1, n2, m.from);
      ToldStays(n, n1, n2, HeartbeatReads(n2, m), m.from);
    }
  }

  lemma FreedIs(n: Node, p: P.Progress)
    ensures var q := HeartbeatProgress(n, p);
      && q.recentActive && !q.paused && q.matched == p.matched && q.state == p.state && q.next == p.next
      && (p.state == P.Replicate && n.cfg.maxInflight > 0 ==> !P.IsFull(q.inflights, n.cfg.maxInflight))
  {
  }

  lemma FreedSends(n: Node, to: Id)
    requires to in n.prs && n.prs[to].recentActive && !n.prs[to].paused && n.prs[to].state != P.Snapshotting
    requires n.prs[to].state == P.Replicate ==> !P.IsFull(n.prs[to].inflights, n.cfg.maxInflight)
    ensures SendsAppend(n, to, true)
  {
  }

  lemma ReadsLeave(n: Node, m: Message)
    ensures var n' := HeartbeatReads(n, m);
      n'.prs == n.prs && n'.log == n.log && n.msgs <= n'.msgs && (n.fatal ==> n'.fatal)
  {
    hide R.RecvAck, R.Advance, R.AdvanceStatuses, R.AdvanceFails, R.AckCount, AnswerReads;
    var r1 := R.RecvAck(n.readOnly, m);
    AnswersLeave(n.(readOnly := R.Advance(r1, m.context)), R.AdvanceStatuses(r1, m.context));
  }

  lemma {:induction false} AnswersLeave(n: Node, ss: seq<R.ReadIndexStatus>)
    ensures var n' := AnswerReads(n, ss);
      n'.prs == n.prs && n'.log == n.log && n.msgs <= n'.msgs && (n.fatal ==> n'.fatal)
    decreases |ss|
  {
    if !n.fatal && ss != [] && ss[0].req.entries != [] {
      AnswersLeave(AnswerRead(n, ss[0].req, ss[0].index), ss[1..]);
    }
  }

  /** The heartbeat tick: every other voter is asked to confirm the newest waiting request, and with it all before. */
  lemma BeatRule(n: Node, m: Message, lease: bool)
    requires Shape(n) && !n.fatal && n.role == Leader && m.mtype == MsgBeat && m.term == 0
    ensures var n', queue := Step(n, m, lease), n.readOnly.queue;
      var ctx := if queue == [] then [] else queue[|queue| - 1];
      && n' == n.(msgs := n'.msgs) && n.msgs <= n'.msgs
      && forall to :: to in n.cfg.peers && to != n.cfg.id ==> exists x :: x in n'.msgs && IsBeat(n, to, ctx, x)
  {
    hide Shape, BcastHeartbeat, IsBeat, Step;
    LeaderHandles(n, m, lease);
    ShapeCovers(n);
    BeatsReach(n, R.LastPendingCtx(n.readOnly), n.cfg.peers);
  }

  /** One read answered: as a read state of this node, or in a message to the one that forwarded it. */
  ghost predicate AnsweredTo(n: Node, n': Node, m: Message, index: nat)
    requires m.entries != []
  {
    if m.from == 0 || m.from == n.cfg.id
    then n' == n.(readStates := n.readStates + [R.ReadState(index, m.entries[0].data)])
    else n' == n.(msgs := n.msgs + [Blank(MsgReadIndexResp, m.from).(from := n.cfg.id, term := n.term, index := index,
                                                                      entries := m.entries)])
  }

  /**
   A read request at a leader. Alone it answers at once; otherwise it ignores the request until it has committed in its
   term. Then, on a lease, it answers with its commit index; or it queues the request with that index and asks every
   other voter, by heartbeats with its context, to confirm.
   */
  lemma ReadTaken(n: Node, m: Message, lease: bool)
    requires Shape(n) && !n.fatal && m.entries != [] && n.role == Leader && m.mtype == MsgReadIndex && m.term == 0
    ensures var n' := Step(n, m, lease); var ctx := m.entries[0].data;
      if NodeQuorum(n) <= 1 then n' == n.(readStates := n.readStates + [R.ReadState(n.log.committed, ctx)])
      else if n.log.Term(n.log.committed) != n.term then n' == n
      else if n.cfg.readOnlyOption == ReadOnlyLeaseBased then AnsweredTo(n, n', m, n.log.committed)
      else Queued(n, n', m)
  {
    hide Shape, RLog.Term, BcastHeartbeat, IsBeat, Step;
    LeaderHandles(n, m, lease);
    if NodeQuorum(n) > 1 && n.log.Term(n.log.committed) == n.term && n.cfg.readOnlyOption == ReadOnlySafe {
      var n1 := n.(readOnly := R.AddRequest(n.readOnly, n.log.committed, m));
      ShapeCovers(n);
      BeatsReach(n1, R.CtxOf(m), n.cfg.peers);
      forall to | to in n.cfg.peers && to != n.cfg.id
        ensures exists x :: x in LeaderReadIndex(n, m).msgs && IsBeat(n, to, R.CtxOf(m), x)
      {
        var x :| x in LeaderReadIndex(n, m).msgs && IsBeat(n1, to, R.CtxOf(m), x);
        SameBeatFor(n, n1, to, R.CtxOf(m), x);
      }
    }
  }

  lemma SameBeatFor(n: Node, n1: Node, to: Id, ctx: seq<byte>, x: Message)
    requires n1 == n.(readOnly := n1.readOnly) && to in n.prs
    ensures IsBeat(n1, to, ctx, x) == IsBeat(n, to, ctx, x)
  {
  }

  /** The request waits at the end of the queue, unless its context is known, and every other voter is asked. */
  ghost predicate Queued(n: Node, n': Node, m: Message)
    requires Shape(n) && m.entries != []
  {
    var ctx := m.entries[0].data;
    && n' == n.(readOnly := n'.readOnly, msgs := n'.msgs) && n.msgs <= n'.msgs
    && (if ctx in n.readOnly.pending then n'.readOnly == n.readOnly
        else n'.readOnly == R.ReadOnly(
          n.readOnly.pending[ctx := R.ReadIndexStatus(m, n.log.committed, {})], n.readOnly.queue + [ctx]))
    && forall to :: to in n.cfg.peers && to != n.cfg.id ==> exists x :: x in n'.msgs && IsBeat(n, to, ctx, x)
  }

  /**
   A forwarded read: the follower passes a client's request on, a leader with a lease answers it, and the answer becomes
   a read state of the follower with the client's context and the leader's commit index.
   */
  lemma ForwardedRead(f: Node, m: Message, l: Node)
    requires Shape(f) && Shape(l) && !f.fatal && !l.fatal && f.role == Follower && f.lead == l.cfg.id != 0
    requires f.cfg.id != l.cfg.id && f.cfg.id != 0 && m.mtype == MsgReadIndex && m.term == 0 && |m.entries| == 1
    requires l.role == Leader && NodeQuorum(l) > 1 && l.log.Term(l.log.committed) == l.term
    requires l.cfg.readOnlyOption == ReadOnlyLeaseBased && f.term == l.term && f.msgs == [] && l.msgs == []
    ensures var f1 := Step(f, m, false); |f1.msgs| == 1 && f1.msgs[0].to == l.cfg.id && f1.readStates == f.readStates
    ensures var f1 := Step(f, m, false); var l1 := Step(l, f1.msgs[0], false);
      && |l1.msgs| == 1 && l1.msgs[0].to == f.cfg.id
      && Step(f, l1.msgs[0], false) ==
           f.(readStates := f.readStates + [R.ReadState(l.log.committed, m.entries[0].data)])
  {
    hide RLog.Term, HandleAppend, HandleHeartbeat, HandleSnapshot, BecomeFollower, Campaign;
    var f1 := Step(f, m, false);
    assert f1.msgs == [m.(to := l.cfg.id, from := f.cfg.id)];
  }
}
