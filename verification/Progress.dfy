/** progress.cpp: a leader's record of one follower, with its growing, wrapping window of unacknowledged messages. */
module Flow {
  import P = ProgressSpec

  function Window(buffer: seq<nat>, start: nat, count: nat, size: nat): (w: seq<nat>)
    requires start + count <= |buffer| || (start < size == |buffer| && count <= size)
    ensures |w| == count
    ensures forall i :: 0 <= i < count ==>
      w[i] == buffer[if start + i >= size && start + count > |buffer| then start + i - size else start + i]
  {
    if start + count <= |buffer| then buffer[start..start + count]
    else buffer[start..] + buffer[..start + count - size]
  }

  predicate Ring(len: nat, start: nat, count: nat, size: nat) {
    && size > 0 && count <= size && start < size && len <= size
    && (start + count <= size ==> start + count <= len)
    && (start + count > size ==> len == size)
    && (count == 0 ==> start == 0)
  }

  function Skipped(start: nat, count: nat, size: nat, i: nat): nat
    requires i <= count <= size && start < size
  {
    if i == count then 0 else if start + i >= size then start + i - size else start + i
  }

  /** Skipping the first i of a window leaves the rest of it. */
  lemma WindowRest(buffer: seq<nat>, start: nat, count: nat, size: nat, i: nat)
    requires Ring(|buffer|, start, count, size) && i <= count
    ensures var from := Skipped(start, count, size, i);
      && Ring(|buffer|, from, count - i, size)
      && Window(buffer, from, count - i, size) == Window(buffer, start, count, size)[i..]
  {
  }

  lemma FreeToEmpty(to: nat)
    ensures P.FreeTo([], to) == []
  {
  }

  lemma FreeToHead(s: seq<nat>, to: nat)
    requires s != []
    ensures P.FreeTo(s, to) == if to < s[0] then s else P.FreeTo(s[1..], to)
  {
  }

  class InFlights {
    var start: nat
    var count: nat
    const size: nat
    var buffer: seq<nat>

    /** Where the i-th message of the window is kept. */
    function Slot(i: nat): nat
      reads this
    {
      if start + i >= size then start + i - size else start + i
    }

    /** The buffer grows only as far as it is used; it wraps at size, and only once it has grown that far. */
    ghost predicate Valid()
      reads this
    {
      Ring(|buffer|, start, count, size)
    }

    /** The window, oldest message first. */
    function Contents(): seq<nat>
      requires Valid()
      reads this
    {
      Window(buffer, start, count, size)
    }

    constructor (size: nat)
      requires size > 0
      ensures Valid() && this.size == size && Contents() == []
    {
      start := 0;
      count := 0;
      this.size := size;
      buffer := [];
    }

    method Reset()
      requires Valid()
      modifies this`start, this`count
      ensures Valid() && Contents() == []
    {
      start := 0;
      count := 0;
    }

    method IsFull() returns (b: bool)
      requires Valid()
      ensures b <==> P.IsFull(Contents(), size)
    {
      b := size == count;
    }

    /** Adding to a full window stops the process; otherwise the message goes to the end. */
    method Add(inflight: nat) returns (died: bool)
      requires Valid()
      modifies this`count, this`buffer
      ensures Valid()
      ensures died <==> P.IsFull(old(Contents()), size)
      ensures Contents() == if died then old(Contents()) else old(Contents()) + [inflight]
    {
      died := size == count;
      if died { return; }
      var next := start + count;
      if next >= size { next := next - size; }
      if next >= |buffer| {
        var newSize := |buffer| * 2;
        if newSize == 0 {
          newSize := 1;
        } else if newSize > size {
          newSize := size;
        }
        buffer := buffer + seq(newSize - |buffer|, _ => 0);
      }
      buffer := buffer[next := inflight];
      count := count + 1;
    }

    /** The loop of free_to: how many messages at the front are at most `to`, and the slot after them. */
    method Scan(to: nat) returns (i: nat, idx: nat)
      requires Valid()
      ensures i <= count && idx == Slot(i)
      ensures P.FreeTo(Contents(), to) == Contents()[i..]
    {
      hide Window, P.FreeTo, Ring;
      ghost var c := Contents();
      ContentsSize();
      FreeToEmpty(to);
      idx := start;
      i := 0;
      while i < count
        invariant i <= count && idx == Slot(i)
        invariant P.FreeTo(c, to) == P.FreeTo(c[i..], to)
      {
        ScanTurn(i, to);
        if to < buffer[idx] { break; }
        idx := idx + 1;
        if idx >= size { idx := idx - size; }
        i := i + 1;
      }
    }

    lemma ScanTurn(i: nat, to: nat)
      requires Valid() && i < count
      ensures i < |Contents()| && Slot(i) < |buffer|
      ensures to < buffer[Slot(i)] ==> P.FreeTo(Contents()[i..], to) == Contents()[i..]
      ensures to >= buffer[Slot(i)] ==> P.FreeTo(Contents()[i..], to) == P.FreeTo(Contents()[i + 1..], to)
    {
      hide Window, P.FreeTo, Ring;
      ContentsSize();
      ContentsAt(i);
      var c := Contents();
      FreeToHead(c[i..], to);
      assert c[i..][1..] == c[i + 1..];
    }

    method Drop(i: nat, idx: nat)
      requires Valid() && i <= count && idx == Slot(i)
      modifies this`start, this`count
      ensures Valid() && Contents() == old(Contents())[i..]
    {
      WindowRest(buffer, start, count, size, i);
      hide Window, Ring;
      count := count - i;
      start := idx;
      if count == 0 {
        start := 0;
      }
    }

    /** Drops the messages up to `to` at the front of the window. */
    method FreeTo(to: nat)
      requires Valid()
      modifies this`start, this`count
      ensures Valid() && Contents() == P.FreeTo(old(Contents()), to)
    {
      if count == 0 || to < buffer[start] { return; }
      var i, idx := Scan(to);
      Drop(i, idx);
    }

    lemma ContentsSize()
      requires Valid()
      ensures |Contents()| == count <= size && start < size
      ensures (count > 0 ==> start + count <= |buffer| || (start < size == |buffer| && count <= size))
    {
    }

    lemma ContentsAt(i: nat)
      requires Valid() && i < count
      ensures Slot(i) < |buffer| && Contents()[i] == buffer[Slot(i)]
    {
    }

    method FreeFirstOne()
      requires Valid() && count > 0
      modifies this`start, this`count
      ensures Valid() && Contents() == P.FreeFirstOne(old(Contents()))
    {
      assert Contents()[0] == buffer[start];
      FreeTo(buffer[start]);
    }
  }

  class Progress {
    var matched: nat
    var next: nat
    var state: P.ProgressState
    var paused: bool
    var pendingSnapshot: nat
    var recentActive: bool
    const inflights: InFlights

    ghost predicate Valid()
      reads this, inflights
    {
      inflights.Valid()
    }

    function State(): P.Progress
      requires Valid()
      reads this, inflights
    {
      P.Progress(matched, next, state, paused, pendingSnapshot, recentActive, inflights.Contents())
    }

    constructor (maxInflight: nat, matched: nat, next: nat)
      requires maxInflight > 0
      ensures Valid() && fresh(inflights) && inflights.size == maxInflight && State() == P.NewProgress(matched, next)
    {
      this.matched := matched;
      this.next := next;
      state := P.Probe;
      paused := false;
      pendingSnapshot := 0;
      recentActive := false;
      var w := new InFlights(maxInflight);
      inflights := w;
    }

    method ResetState(st: P.ProgressState)
      requires Valid()
      modifies this`paused, this`pendingSnapshot, this`state, inflights`start, inflights`count
      ensures Valid() && State() == P.ResetState(old(State()), st)
    {
      paused := false;
      pendingSnapshot := 0;
      state := st;
      inflights.Reset();
    }

    method BecomeReplicate()
      requires Valid()
      modifies this, inflights`start, inflights`count
      ensures Valid() && State() == P.BecomeReplicate(old(State()))
    {
      ResetState(P.Replicate);
      next := matched + 1;
    }

    method BecomeProbe()
      requires Valid()
      modifies this, inflights`start, inflights`count
      ensures Valid() && State() == P.BecomeProbe(old(State()))
    {
      if state == P.Snapshotting {
        var pending := pendingSnapshot;
        ResetState(P.Probe);
        next := if matched + 1 >= pending + 1 then matched + 1 else pending + 1;
      } else {
        ResetState(P.Probe);
        next := matched + 1;
      }
    }

    method BecomeSnapshot(index: nat)
      requires Valid()
      modifies this, inflights`start, inflights`count
      ensures Valid() && State() == P.BecomeSnapshot(old(State()), index)
    {
      ResetState(P.Snapshotting);
      pendingSnapshot := index;
    }

    method IsPaused() returns (b: bool)
      requires Valid()
      ensures b <==> P.IsPaused(State(), inflights.size)
    {
      match state {
        case Probe => b := paused;
        case Replicate => b := inflights.IsFull();
        case Snapshotting => b := true;
      }
    }

    method MaybeUpdate(n: nat) returns (updated: bool)
      requires Valid()
      modifies this`matched, this`next, this`paused
      ensures Valid() && State() == P.MaybeUpdate(old(State()), n) && updated == P.Updates(old(State()), n)
    {
      updated := false;
      if matched < n {
        matched := n;
        updated := true;
        paused := false;
      }
      if next < n + 1 { next := n + 1; }
    }

    method MaybeDecreaseTo(rejected: nat, last: nat) returns (news: bool)
      requires Valid()
      modifies this`next, this`paused
      ensures Valid() && State() == P.MaybeDecreaseTo(old(State()), rejected, last)
      ensures news == P.Decreases(old(State()), rejected)
    {
      if state == P.Replicate {
        if rejected <= matched { return false; }
        next := matched + 1;
        return true;
      }
      if next == 0 || next - 1 != rejected { return false; }
      next := if rejected <= last + 1 then rejected else last + 1;
      if next < 1 { next := 1; }
      paused := false;
      news := true;
    }

    method NeedSnapshotAbort() returns (b: bool)
      requires Valid()
      ensures b <==> P.NeedSnapshotAbort(State())
    {
      b := state == P.Snapshotting && matched >= pendingSnapshot;
    }
  }
}

/** Probing: how a leader finds the last index at which a follower's log agrees with its own. */
module Probing {
  import opened Proto
  import opened Logs
  import opened RaftLogSpec
  import opened NodeSpec
  import opened FollowerProofs
  import P = ProgressSpec

  /** The follower turns down the probe at next - 1. */
  predicate Rejects(l: RLog, leader: Log, next: nat)
    requires 1 <= next <= |leader| + 1
  {
    l.committed <= next - 1 && !l.MatchTerm(next - 1, TermAt(leader, next - 1))
  }

  /** A fresh rejection strictly lowers next, but not to or below the last index on which the logs agree. */
  lemma RejectionLowers(l: RLog, log: Log, leader: Log, p: P.Progress, agreed: nat)
    requires Shows(l, log) && p.state == P.Probe && 1 <= p.next <= |leader| + 1 && Rejects(l, leader, p.next)
    requires agreed <= |log| && agreed <= |leader| && log[..agreed] == leader[..agreed]
    ensures P.Decreases(p, p.next - 1)
    ensures var q := P.MaybeDecreaseTo(p, p.next - 1, l.LastIndex());
      agreed + 1 <= q.next < p.next && !q.paused && q.matched == p.matched
  {
  }

  /** Where the next probe goes after a rejection. */
  function NextProbe(l: RLog, next: nat): nat
    requires next >= 1
  {
    P.MaybeDecreaseTo(P.NewProgress(0, next), next - 1, l.LastIndex()).next
  }

  /** Where the sequence of probes that starts at next is accepted. */
  function Settles(l: RLog, leader: Log, next: nat): (n: nat)
    requires 1 <= next <= |leader| + 1 && l.Term(0) == 0
    ensures 1 <= n <= next && !Rejects(l, leader, n)
    decreases next
  {
    if !Rejects(l, leader, next) then next
    else Settles(l, leader, NextProbe(l, next))
  }

  /** The probe that is accepted lies above everything the two logs share: no agreed entry is sent again below it. */
  lemma {:induction false} SettlesAbove(l: RLog, log: Log, leader: Log, next: nat, agreed: nat)
    requires Shows(l, log) && 1 <= next <= |leader| + 1 && l.Term(0) == 0
    requires agreed < next && agreed <= |log| && agreed <= |leader| && log[..agreed] == leader[..agreed]
    ensures agreed < Settles(l, leader, next)
    decreases next
  {
    if Rejects(l, leader, next) {
      var p := P.NewProgress(0, next);
      RejectionLowers(l, log, leader, p, agreed);
      SettlesAbove(l, log, leader, P.MaybeDecreaseTo(p, next - 1, l.LastIndex()).next, agreed);
    }
  }

  /** ... and is the end of a common prefix, unless the follower has committed past it. */
  lemma SettlesShared(ll: map<nat, Log>, l: RLog, log: Log, leader: Log, next: nat)
    requires Shows(l, log) && AllFromLeaders(ll, log) && AllFromLeaders(ll, leader) && WellFormed(leader)
    requires 1 <= next <= |leader| + 1 && l.Term(0) == 0
    ensures var prev := Settles(l, leader, next) - 1;
      prev < l.committed || (prev <= |log| && log[..prev] == leader[..prev])
  {
    var prev := Settles(l, leader, next) - 1;
    if prev >= l.committed {
      SharesIndex(ll, l, log, leader, prev, TermAt(leader, prev));
    }
  }

  // --------------------------------------------------------------------------
  // One round of messages is one step of Settles

  /** The leader may send a probe to this follower, from entries it still has. */
  ghost predicate Probes(n: Node, to: Id, leader: Log) {
    && Shape(n) && !n.fatal && n.term >= 1 && to in n.prs && to != n.cfg.id && Shows(n.log, leader)
    && n.prs[to].state == P.Probe && !n.prs[to].paused && n.log.base < n.prs[to].next <= |leader| + 1
  }

  function Probe(n: Node, to: Id): Message
    requires to in n.prs && NextEntries(n, to).Some?
  {
    AppendMessage(n, to, NextEntries(n, to).value).(from := n.cfg.id, term := n.term)
  }

  lemma ProbeGoes(n: Node, to: Id)
    requires Shape(n) && !n.fatal && to in n.prs && n.prs[to].state == P.Probe && !n.prs[to].paused
    requires NextEntries(n, to).Some?
    ensures var n' := SendAppend(n, to); Probe(n, to) in n'.msgs && !n'.fatal && to in n'.prs
    ensures var n' := SendAppend(n, to);
      n'.prs[to].next == n.prs[to].next && n'.prs[to].state == P.Probe && n'.log == n.log
    ensures Probe(n, to).mtype == MsgApp && Probe(n, to).index == PrevIndex(n.prs[to])
    ensures Probe(n, to).logTerm == n.log.Term(PrevIndex(n.prs[to]))
  {
    hide Entries, RLog.Term, Shape;
  }

  lemma ProbeSent(n: Node, to: Id, leader: Log)
    requires Probes(n, to, leader)
    ensures NextEntries(n, to).Some? && Probe(n, to).mtype == MsgApp
    ensures Probe(n, to).index == n.prs[to].next - 1 && Probe(n, to).logTerm == TermAt(leader, n.prs[to].next - 1)
    ensures var n' := SendAppend(n, to);
      && Probe(n, to) in n'.msgs && Shape(n') && !n'.fatal && to in n'.prs && n'.prs[to].next == n.prs[to].next
      && n'.prs[to].state == P.Probe
  {
    hide Entries, RLog.Term, SendAppend, Probe;
    ReadFrom(n.log, leader, n.prs[to].next, n.cfg.maxMsgSize);
    ProbeGoes(n, to);
    SendKeepsShape(n, to);
  }

  lemma SendKeepsShape(n: Node, to: Id)
    requires Shape(n) && to in n.prs
    ensures Shape(SendAppend(n, to))
  {
    hide MaybeSendAppend;
    SendAppendKeepsShape(n, to, true);
  }

  /** The follower's reply, in its own words. */
  lemma ProbeAnswered(f: Node, m: Message)
    requires !f.fatal && m.mtype == MsgApp
    ensures var f' := HandleAppend(f, m);
      f'.fatal || (|f'.msgs| > 0 && var r := f'.msgs[|f'.msgs| - 1];
        && r.mtype == MsgAppResp && r.from == f.cfg.id && r.to == m.from && r.term == f.term
        && (r.reject <==> f.log.committed <= m.index && !f.log.MatchTerm(m.index, m.logTerm))
        && (r.reject ==> r.index == m.index && r.rejectHint == f.log.LastIndex()))
  {
    hide AppendFrom, CommitTo, RLog.Term;
  }

  /** Taking a fresh rejection in Probe state: next goes where the rule says, and the next probe is out. */
  lemma RejectionTaken(n: Node, to: Id, r: Message)
    requires Shape(n) && !n.fatal && to in n.prs && n.prs[to].state == P.Probe && n.prs[to].next >= 1
    requires r.mtype == MsgAppResp && r.from == to && r.reject && r.index == n.prs[to].next - 1
    ensures var n' := AppResp(n, r);
      to in n'.prs && n'.prs[to].next == P.MaybeDecreaseTo(P.NewProgress(0, n.prs[to].next), r.index, r.rejectHint).next
  {
    hide Entries, RLog.Term;
  }

  /**
   A probe, the follower's answer, and what the leader makes of it are one turn of Settles: a probe is rejected exactly
   when Rejects says so, and next goes to NextProbe.
   */
  lemma ProbeRound(n: Node, f: Node, to: Id, leader: Log) returns (f': Node, r: Message, n1: Node)
    requires Probes(n, to, leader) && !f.fatal && f.cfg.id == to
    ensures NextEntries(n, to).Some? && f' == HandleAppend(f, Probe(n, to))
    ensures n1 == SendAppend(n, to) && Shape(n1) && to in n1.prs && Probe(n, to) in n1.msgs
    ensures f'.fatal || (r in f'.msgs && r.mtype == MsgAppResp && r.from == to)
    ensures f'.fatal || (r.reject <==> Rejects(f.log, leader, n.prs[to].next))
    ensures !f'.fatal && r.reject ==>
      to in AppResp(n1, r).prs && AppResp(n1, r).prs[to].next == NextProbe(f.log, n.prs[to].next)
  {
    hide HandleAppend, SendAppend, AppResp, AppendMessage, RLog.Term, Probe, Shape, NextEntries, P.MaybeDecreaseTo;
    ProbeSent(n, to, leader);
    ProbeAnswered(f, Probe(n, to));
    f', n1 := HandleAppend(f, Probe(n, to)), SendAppend(n, to);
    r := Probe(n, to);
    if !f'.fatal {
      r := f'.msgs[|f'.msgs| - 1];
      if r.reject { RejectionTaken(n1, to, r); }
    }
  }
}
