/** What a follower does with entries, heartbeats and snapshots of its leader. */
module FollowerProofs {
  import opened Proto
  import opened Logs
  import opened Protocol
  import opened Steps
  import opened Actions
  import opened RaftLogSpec
  import opened NodeSpec
  import opened NodeInv
  import opened LeaderProofs
  import opened VoterProofs

  // --------------------------------------------------------------------------
  // maybe_append against the complete logs

  /** A follower's log and its leader's, and a piece (index, q] of the latter offered to the former. */
  ghost predicate Offer(ll: map<nat, Log>, l: RLog, log: Log, leader: Log, index: nat, es: seq<Entry>) {
    && Shows(l, log) && l.Numbered()
    && AllFromLeaders(ll, log) && AllFromLeaders(ll, leader) && WellFormed(leader)
    && index + |es| <= |leader| && es == leader[index..index + |es|]
    && l.committed <= index
  }

  predicate Agree(log: Log, leader: Log, i: nat) {
    i <= |log| && i <= |leader| && TermAt(log, i) == TermAt(leader, i)
  }

  /** The conflict search stops at the first index where the two logs differ. */
  lemma {:induction false} ConflictIs(l: RLog, log: Log, leader: Log, index: nat, es: seq<Entry>, from: nat)
    requires Shows(l, log) && WellFormed(leader) && index + |es| <= |leader| && es == leader[index..index + |es|]
    requires l.base <= index && from <= |es|
    ensures var ci := FindConflict(l, es[from..]);
      if ci == 0 then
        forall i: nat :: index + from < i <= index + |es| ==> Agree(log, leader, i)
      else
        && index + from < ci <= index + |es|
        && (forall i: nat :: index + from < i < ci ==> Agree(log, leader, i))
        && !Agree(log, leader, ci)
    decreases |es| - from
  {
    if from < |es| {
      var i := index + from + 1;
      assert es[from] == leader[i - 1];
      assert es[from..][0] == es[from] && es[from..][1..] == es[from + 1..];
      ShownTerm(l, log, i);
      assert l.MatchTerm(i, leader[i - 1].term) == Agree(log, leader, i);
      if l.MatchTerm(i, leader[i - 1].term) {
        ConflictIs(l, log, leader, index, es, from + 1);
      }
    }
  }

  /** Accepting a piece: nothing happens to a log that has it all, otherwise the log is cut back to it. */
  lemma AppendIsAdopt(ll: map<nat, Log>, l: RLog, log: Log, leader: Log, index: nat, logTerm: nat, es: seq<Entry>)
    requires Offer(ll, l, log, leader, index, es) && logTerm == TermAt(leader, index) && l.MatchTerm(index, logTerm)
    requires log[..l.committed] <= leader
    ensures match AppendFrom(l, index, es)
      case None => false
      case Some(l') =>
        && Shows(l', Adopted(log, leader, index + |es|)) && l'.Numbered()
        && l' == l.(ents := l'.ents)
        && index + |es| <= |Adopted(log, leader, index + |es|)|
        && leader[..index + |es|] <= Adopted(log, leader, index + |es|)
  {
    var q := index + |es|;
    SharesIndex(ll, l, log, leader, index, logTerm);
    assert es[0..] == es;
    ConflictIs(l, log, leader, index, es, 0);
    var ci := FindConflict(l, es);
    if ci == 0 {
      SharedUpTo(ll, log, leader, index, q);
      assert leader[..q] <= log;
    } else {
      SharedUpTo(ll, log, leader, index, ci - 1);
      Truncated(l, log, leader, index, es, ci);
      PrefixAgrees(log, leader, q, ci);
    }
  }

  lemma PrefixAgrees(log: Log, leader: Log, q: nat, i: nat)
    requires i <= q <= |leader|
    ensures leader[..q] <= log ==> Agree(log, leader, i)
  {
  }

  lemma SharesIndex(ll: map<nat, Log>, l: RLog, log: Log, leader: Log, index: nat, logTerm: nat)
    requires Shows(l, log) && AllFromLeaders(ll, log) && AllFromLeaders(ll, leader) && WellFormed(leader)
    requires l.base <= index <= |leader| && logTerm == TermAt(leader, index) && l.MatchTerm(index, logTerm)
    ensures index <= |log| && log[..index] == leader[..index]
  {
    ShownTerm(l, log, index);
    if index > 0 { assert leader[index - 1].term >= 1; }
    Matching(ll, log, leader, index);
  }

  lemma SharedUpTo(ll: map<nat, Log>, log: Log, leader: Log, index: nat, k: nat)
    requires AllFromLeaders(ll, log) && AllFromLeaders(ll, leader) && index <= k <= |leader|
    requires index <= |log| && log[..index] == leader[..index]
    requires forall i: nat :: index < i <= k ==> Agree(log, leader, i)
    ensures k <= |log| && log[..k] == leader[..k]
  {
    if index < k { assert Agree(log, leader, k); Matching(ll, log, leader, k); }
  }

  /** What append() makes of a log that agrees with the leader's below the conflict. */
  lemma Truncated(l: RLog, log: Log, leader: Log, index: nat, es: seq<Entry>, ci: nat)
    requires Shows(l, log) && l.Numbered() && WellFormed(leader)
    requires index + |es| <= |leader| && es == leader[index..index + |es|]
    requires l.committed <= index < ci <= index + |es|
    requires ci - 1 <= |log| && log[..ci - 1] == leader[..ci - 1]
    ensures match Append(l, es[ci - (index + 1)..])
      case None => false
      case Some(l') => Shows(l', leader[..index + |es|]) && l'.Numbered() && l' == l.(ents := l'.ents)
  {
    var q := index + |es|;
    var tail := es[ci - (index + 1)..];
    assert tail == leader[ci - 1..q];
    ShownTerm(l, log, 0);
    assert tail[0] == leader[ci - 1];
    var l' := l.(ents := l.ents[..ci - 1 - l.base] + tail);
    assert l.ents[..ci - 1 - l.base] == log[l.base..ci - 1];
    assert log[l.base..ci - 1] == leader[..ci - 1][l.base..];
    assert l'.ents == leader[..q][l.base..];
    assert TermAt(log, l.base) == TermAt(leader[..q], l.base) by { SameTerm(log, leader, ci - 1, l.base, q); }
    SameTerm(log, leader, ci - 1, l.snap.index, q);
    assert Append(l, tail) == Some(l');
  }

  lemma SameTerm(a: Log, b: Log, k: nat, i: nat, q: nat)
    requires k <= |a| && k <= q <= |b| && a[..k] == b[..k] && i <= k
    ensures TermAt(a, i) == TermAt(b[..q], i)
  {
  }

  // --------------------------------------------------------------------------
  // Common ground of the three messages

  /** A follower of the sender of m, in the term of m. */
  ghost predicate Following(h: History, n: Node, m: Message) {
    && Base(h, n) && IsFollowing(h, n)
    && n.lead == m.from && m.from != 0 && m.to == n.cfg.id && m.term == n.term && LeaderIs(h, m.term, m.from)
  }

  /** A change of the log and the commit index that the history has made too. */
  lemma LogCore(h: History, h': History, n: Node, l: RLog)
    requires Core(h, n) && n.cfg.id in h'.log && n.cfg.id in h'.commit && n.cfg.id in h'.term
    requires Shows(l, h'.log[n.cfg.id]) && l.Numbered() && h'.commit[n.cfg.id] == l.committed
    requires h'.votes == h.votes && h'.term == h.term && h'.voters == h.voters && h'.boot == h.boot
    ensures Core(h', n.(log := l))
  {
  }

  lemma FollowingStays(h: History, h': History, n: Node, n': Node)
    requires IsFollowing(h, n) && Extends(h, h', n.cfg.id)
    requires n'.role == n.role && n'.lead == n.lead && n'.term == n.term && n'.cfg == n.cfg
    ensures IsFollowing(h', n')
  {
  }

  /** The reply to an append or a snapshot, when the history already backs it. */
  lemma ReplyKept(h: History, n: Node, r: Message)
    requires Base(h, n) && IsFollowing(h, n) && Sendable(r) && MsgOk(h, Stamped(n, r))
    ensures Good(h, Send(n, r))
  {
  }

  lemma TermReal(h: History, t: nat, c: Id)
    requires Inv(h) && LeaderIs(h, t, c)
    ensures t >= 1 && LogOk(h.ll, h.ll[t], t) && h.lc[t] <= |h.ll[t]|
  {
    InvElim(h);
    hide AcksKept, AcksVoted, Acks, Votes, Nodes, LogOk, Safe;
    assert LeaderOk(h, t);
    assert CandOk(h, h.leader[t], t);
    assert LeaderCommitOk(h, t);
  }

  /** A follower's committed prefix is in its leader's log. */
  lemma CommittedShared(h: History, n: Id, t: nat)
    requires Inv(h) && n in h.voters && n in h.term && n in h.log && n in h.commit && h.term[n] == t && t in h.ll
    ensures h.commit[n] <= |h.log[n]| && h.log[n][..h.commit[n]] <= h.ll[t]
    ensures h.commit[n] <= |h.ll[t]| && h.ll[t][..h.commit[n]] <= h.log[n]
  {
    hide *;
    InvElim(h);
    CommitBound(h, n);
    SafeInLeader(h, h.log[n][..h.commit[n]], t, t);
    var p := h.log[n][..h.commit[n]];
    assert h.ll[t][..|p|] == p;
  }

  // --------------------------------------------------------------------------
  // Appends

  lemma OldAppendKept(h: History, n: Node, m: Message) returns (h': History)
    requires Inv(h) && Following(h, n, m) && m.index < n.log.committed && m.to != m.from
    ensures Kept(h, h', n.cfg.id, HandleAppend(n, m))
  {
    hide Inv, Core, SentOk, Extends, Send, Confirm, IsFollowing, LeaderIs, Acked;
    var me, k := n.cfg.id, n.log.committed;
    CoreFacts(h, n);
    CommitOf(h, n);
    h' := Confirm(h, me, k);
    TermReal(h, n.term, m.from);
    LeaderHasLog(h, m.term, m.from);
    CommittedShared(h, me, n.term);
    ConfirmInv(h, me, k);
    ConfirmedBase(h, n, k);
    FollowingStays(h, h', n, n);
    ReplyKept(h', n, Blank(MsgAppResp, m.from).(index := k));
  }

  lemma LeaderHasLog(h: History, t: nat, c: Id)
    requires LeaderIs(h, t, c)
    ensures t in h.ll && t in h.lc
  {
  }

  lemma CommitOf(h: History, n: Node)
    requires Core(h, n)
    ensures n.cfg.id in h.commit && h.commit[n.cfg.id] == n.log.committed
  {
  }

  lemma ConfirmedBase(h: History, n: Node, k: nat)
    requires Base(h, n) && CanConfirm(h, n.cfg.id, k) && Extends(h, Confirm(h, n.cfg.id, k), n.cfg.id)
    ensures Base(Confirm(h, n.cfg.id, k), n)
  {
    var h' := Confirm(h, n.cfg.id, k);
    SentStays(h, h', n.cfg.id, n);
    hide SentOk, Extends, Raise;
    LogCore(h, h', n, n.log);
  }

  /** The history of an accepted append: adopt, commit, confirm. */
  function AcceptHistory(h: History, n: Id, q: nat, k: nat): History
    requires n in h.term && n in h.log && n in h.commit && h.term[n] in h.ll && q <= |h.ll[h.term[n]]|
  {
    Confirm(SetCommit(Adopt(h, n, q), n, k), n, q)
  }

  lemma AcceptHistoryInv(h: History, n: Id, q: nat, k: nat)
    requires Inv(h) && CanAdopt(h, n, q) && n in h.commit && h.commit[n] <= k
    requires k == h.commit[n] || (k <= q && h.term[n] in h.lc && k <= h.lc[h.term[n]])
    requires h.ll[h.term[n]][..q] <= Adopt(h, n, q).log[n]
    ensures var h' := AcceptHistory(h, n, q, k); Inv(h') && Extends(h, h', n) && Acked(h', n, h.term[n], q)
  {
    hide Inv, Extends, Safe, Confirm, Acked, Adopt, SetCommit;
    var h1 := Adopt(h, n, q);
    var h2 := SetCommit(h1, n, k);
    var t := h.term[n];
    AdoptIs(h, n, q, k);
    AdoptInv(h, n, q);
    NodesHave(h, n);
    if k == h.commit[n] {
      InvElim(h1);
      CommitBound(h1, n);
    } else {
      AnnouncedIsSafe(h, t, k);
      SafeGrows(h, h1, n, h.ll[t][..k], t, t);
      SamePrefix(h1.log[n], h.ll[t], q, k);
    }
    SetCommitInv(h1, n, k);
    ConfirmInv(h2, n, q);
    ExtendsTrans(h, h1, h2, n);
    ExtendsTrans(h, h2, AcceptHistory(h, n, q, k), n);
  }

  lemma SamePrefix(a: Log, b: Log, q: nat, k: nat)
    requires k <= q <= |b| && b[..q] <= a
    ensures k <= |a| && a[..k] == b[..k]
  {
  }

  lemma AdoptIs(h: History, n: Id, q: nat, k: nat)
    requires CanAdopt(h, n, q) && n in h.commit
    requires h.ll[h.term[n]][..q] <= Adopt(h, n, q).log[n]
    ensures var h1 := Adopt(h, n, q);
      && h1.term == h.term && h1.voters == h.voters && h1.ll == h.ll && h1.lc == h.lc && h1.commit == h.commit
      && n in h1.log
    ensures var h2 := SetCommit(Adopt(h, n, q), n, k); CanConfirm(h2, n, q) && h2.term == h.term
    ensures var h3 := AcceptHistory(h, n, q, k);
      && h3.votes == h.votes && h3.term == h.term && h3.voters == h.voters && h3.boot == h.boot
      && n in h3.log && h3.log[n] == Adopted(h.log[n], h.ll[h.term[n]], q)
      && n in h3.commit && h3.commit[n] == k
      && h3.ll == h.ll && h3.leader == h.leader && h3.lc == h.lc
  {
  }

  /** The commit index after an accepted append. */
  function NewCommit(l: RLog, commit: nat, q: nat): nat {
    if l.committed < Min(commit, q) then Min(commit, q) else l.committed
  }

  lemma AcceptIs(ll: map<nat, Log>, l: RLog, log: Log, leader: Log, index: nat, logTerm: nat, commit: nat,
      es: seq<Entry>)
    requires Offer(ll, l, log, leader, index, es) && logTerm == TermAt(leader, index) && l.MatchTerm(index, logTerm)
    requires log[..l.committed] <= leader
    ensures var q := index + |es|;
      match MaybeAppend(l, index, logTerm, commit, es)
      case Rejected => false
      case Fatal => false
      case Accepted(l', last) =>
        && last == q && Shows(l', Adopted(log, leader, q)) && l'.Numbered() && l'.committed == NewCommit(l, commit, q)
        && leader[..q] <= Adopted(log, leader, q)
  {
    hide Shows, Adopted, AppendFrom, AllFromLeaders, WellFormed, TermAt, RLog.MatchTerm;
    AppendIsAdopt(ll, l, log, leader, index, logTerm, es);
    var l1 := AppendFrom(l, index, es).value;
    var q := index + |es|;
    LastOf(l1, Adopted(log, leader, q));
    CommittedBelow(l1, Adopted(log, leader, q), commit, q);
  }

  lemma LastOf(l: RLog, log: Log)
    requires Shows(l, log)
    ensures l.LastIndex() == |log| && l.committed <= |log|
  {
  }

  lemma CommittedBelow(l: RLog, log: Log, commit: nat, q: nat)
    requires Shows(l, log) && q <= |log|
    ensures Shows(l.(committed := NewCommit(l, commit, q)), log)
  {
  }

  lemma OfferOk(h: History, n: Node, m: Message)
    requires Inv(h) && Following(h, n, m) && AppOk(h, m) && m.index >= n.log.committed
    ensures n.cfg.id in h.log && m.term in h.ll
    ensures Offer(h.ll, n.log, h.log[n.cfg.id], h.ll[m.term], m.index, m.entries)
    ensures n.log.committed <= |h.log[n.cfg.id]| && h.log[n.cfg.id][..n.log.committed] <= h.ll[m.term]
  {
    hide Inv, Core, SentOk, IsFollowing, AllFromLeaders, WellFormed, Shows;
    CoreFacts(h, n);
    CommitOf(h, n);
    LogOf(h, n);
    TermReal(h, n.term, m.from);
    FollowerLog(h, n.cfg.id);
    CommittedShared(h, n.cfg.id, n.term);
  }

  lemma LogOf(h: History, n: Node)
    requires Core(h, n)
    ensures n.cfg.id in h.log && Shows(n.log, h.log[n.cfg.id]) && n.log.Numbered() && n.log.base <= n.log.committed
  {
  }

  lemma FollowerLog(h: History, n: Id)
    requires Inv(h) && n in h.voters
    ensures n in h.log && AllFromLeaders(h.ll, h.log[n])
  {
  }

  lemma AcceptKept(h: History, n: Node, m: Message) returns (h': History)
    requires Inv(h) && Following(h, n, m) && AppOk(h, m) && m.index >= n.log.committed
    requires n.log.MatchTerm(m.index, m.logTerm)
    ensures Kept(h, h', n.cfg.id, HandleAppend(n, m))
  {
    hide Inv, Core, SentOk, Extends, Send, IsFollowing, AcceptHistory, Shows, Offer, MaybeAppend, Acked, LeaderIs;
    CoreFacts(h, n);
    CommitOf(h, n);
    OfferOk(h, n, m);
    var me, t, q := n.cfg.id, n.term, m.index + |m.entries|;
    var k := NewCommit(n.log, m.commit, q);
    AcceptIs(h.ll, n.log, h.log[me], h.ll[t], m.index, m.logTerm, m.commit, m.entries);
    var l' := MaybeAppend(n.log, m.index, m.logTerm, m.commit, m.entries).log;
    LeaderHasLog(h, t, m.from);
    AdoptIs(h, me, q, k);
    h' := AcceptHistory(h, me, q, k);
    AcceptHistoryInv(h, me, q, k);
    LogCore(h, h', n, l');
    FinishKept(h, h', n, l', Blank(MsgAppResp, m.from).(index := q));
  }

  /** After the log moved with the history, the reply makes the step complete. */
  lemma FinishKept(h: History, h': History, n: Node, l: RLog, r: Message)
    requires Base(h, n) && IsFollowing(h, n) && Inv(h') && Extends(h, h', n.cfg.id) && Core(h', n.(log := l))
    requires Sendable(r) && MsgOk(h', Stamped(n, r))
    ensures Kept(h, h', n.cfg.id, Send(n.(log := l), r))
  {
    hide Inv, Core, SentOk, Extends, Send, IsFollowing, MsgOk;
    var n' := n.(log := l);
    SentStays(h, h', n.cfg.id, n);
    SentFrame(h', n, n');
    FollowingStays(h, h', n, n');
    ReplyKept(h', n', r);
  }

  lemma AppendKept(h: History, n: Node, m: Message) returns (h': History)
    requires Inv(h) && Following(h, n, m) && AppOk(h, m)
    ensures Kept(h, h', n.cfg.id, HandleAppend(n, m))
  {
    hide Inv, Core, SentOk, Extends, Send, IsFollowing, LeaderIs, MaybeAppend;
    CoreFacts(h, n);
    if m.index < n.log.committed {
      h' := OldAppendKept(h, n, m);
    } else if n.log.MatchTerm(m.index, m.logTerm) {
      h' := AcceptKept(h, n, m);
    } else {
      h' := h;
      ExtendsRefl(h, n.cfg.id);
      RejectIs(n.log, m);
      ReplyKept(h, n, Blank(MsgAppResp, m.from).(index := m.index, reject := true, rejectHint := n.log.LastIndex()));
    }
  }

  lemma RejectIs(l: RLog, m: Message)
    requires !l.MatchTerm(m.index, m.logTerm)
    ensures MaybeAppend(l, m.index, m.logTerm, m.commit, m.entries) == Rejected
  {
  }

  // --------------------------------------------------------------------------
  // Heartbeats

  /** A follower may move its commit index to a prefix it shares with its leader and the leader announced. */
  lemma CommitSharedInv(h: History, n: Id, k: nat)
    requires Inv(h) && n in h.voters && n in h.term && n in h.log && n in h.commit
    requires h.term[n] in h.ll && h.term[n] in h.lc && k <= h.lc[h.term[n]]
    requires k <= |h.log[n]| && k <= |h.ll[h.term[n]]| && h.log[n][..k] == h.ll[h.term[n]][..k]
    ensures Inv(SetCommit(h, n, k)) && Extends(h, SetCommit(h, n, k), n)
  {
    hide Inv, Safe, Extends;
    AnnouncedIsSafe(h, h.term[n], k);
    SetCommitInv(h, n, k);
  }

  lemma CommitCore(h: History, n: Node, k: nat)
    requires Core(h, n) && n.log.committed <= k <= |h.log[n.cfg.id]|
    ensures Core(SetCommit(h, n.cfg.id, k), n.(log := n.log.(committed := k)))
  {
  }

  /** What a node acknowledged in its current term it holds, so a heartbeat never commits past its log. */
  lemma BeatShared(h: History, n: Node, m: Message)
    requires Inv(h) && Following(h, n, m) && HeartbeatOk(h, m)
    ensures n.cfg.id in h.log && m.term in h.ll && m.commit <= |h.log[n.cfg.id]| && m.commit <= |h.ll[m.term]|
    ensures h.log[n.cfg.id][..m.commit] == h.ll[m.term][..m.commit]
  {
    hide Inv, Core, SentOk, IsFollowing, Acked;
    CoreFacts(h, n);
    if m.commit != 0 {
      AckHeld(h, n.cfg.id, m.term, m.commit);
      var p := h.ll[m.term][..m.commit];
      assert h.log[n.cfg.id][..|p|] == p;
    }
  }

  lemma HeartbeatKept(h: History, n: Node, m: Message) returns (h': History)
    requires Inv(h) && Following(h, n, m) && HeartbeatOk(h, m)
    ensures Kept(h, h', n.cfg.id, HandleHeartbeat(n, m))
  {
    hide Inv, Core, SentOk, Extends, Send, IsFollowing, SetCommit, Acked, Shows, LeaderIs;
    CoreFacts(h, n);
    CommitOf(h, n);
    TermReal(h, n.term, m.from);
    LeaderHasLog(h, m.term, m.from);
    BeatShared(h, n, m);
    var me, k := n.cfg.id, if n.log.committed < m.commit then m.commit else n.log.committed;
    if n.log.committed < m.commit {
      CommitSharedInv(h, me, k);
      h' := SetCommit(h, me, k);
      CommitCore(h, n, k);
    } else {
      h' := h;
      ExtendsRefl(h, me);
    }
    FinishKept(h, h', n, n.log.(committed := k), Blank(MsgHeartbeatResp, m.from));
  }

  // --------------------------------------------------------------------------
  // Snapshots

  lemma OkIndexTerm(h: History, m: Message)
    requires SnapOk(h, m) && WellFormed(h.ll[m.term])
    ensures m.snapshot.term >= 1
  {
  }

  /** A log that already has the snapshot's last entry shares everything up to it with the leader. */
  lemma SnapShared(h: History, n: Node, m: Message)
    requires Inv(h) && Following(h, n, m) && SnapOk(h, m) && m.snapshot.index > n.log.committed
    requires n.log.MatchTerm(m.snapshot.index, m.snapshot.term)
    ensures n.cfg.id in h.log && m.term in h.ll
    ensures var k := m.snapshot.index; k <= |h.log[n.cfg.id]| && h.log[n.cfg.id][..k] == h.ll[m.term][..k]
  {
    hide Inv, Core, SentOk, IsFollowing, AllFromLeaders, Shows;
    CoreFacts(h, n);
    LogOf(h, n);
    TermReal(h, n.term, m.from);
    FollowerLog(h, n.cfg.id);
    OkIndexTerm(h, m);
    var k := m.snapshot.index;
    ShownTerm(n.log, h.log[n.cfg.id], k);
    Matching(h.ll, h.log[n.cfg.id], h.ll[m.term], k);
  }

  /** Restoring a snapshot is adopting the leader's log up to it. */
  lemma RestoreShows(l: RLog, log: Log, leader: Log, s: Snapshot)
    requires Shows(l, log) && l.committed < s.index <= |leader| && s.term == TermAt(leader, s.index)
    requires !l.MatchTerm(s.index, s.term)
    ensures Shows(Restore(l, s), Adopted(log, leader, s.index)) && Restore(l, s).Numbered()
    ensures leader[..s.index] <= Adopted(log, leader, s.index)
  {
  }

  lemma RestoredCore(h: History, n: Node)
    requires Base(h, n)
    ensures Base(h, n.(prs := RestoredProgress(n, n.log.LastIndex())))
  {
  }

  lemma RestoreKept(h: History, n: Node, m: Message) returns (h': History)
    requires Inv(h) && Following(h, n, m) && SnapOk(h, m) && Restores(n, m.snapshot) && m.to != m.from
    ensures Kept(h, h', n.cfg.id, HandleSnapshot(n, m))
  {
    hide Inv, Core, SentOk, Extends, Send, IsFollowing, AcceptHistory, Shows, Acked, LeaderIs, RestoredProgress,
      Restore;
    CoreFacts(h, n);
    CommitOf(h, n);
    LogOf(h, n);
    LeaderHasLog(h, m.term, m.from);
    TermReal(h, n.term, m.from);
    var me, s := n.cfg.id, m.snapshot;
    RestoreShows(n.log, h.log[me], h.ll[m.term], s);
    AdoptIs(h, me, s.index, s.index);
    h' := AcceptHistory(h, me, s.index, s.index);
    AcceptHistoryInv(h, me, s.index, s.index);
    RestoreFields(n.log, s);
    LogCore(h, h', n, Restore(n.log, s));
    var n1 := n.(log := Restore(n.log, s));
    SentStays(h, h', me, n);
    SentFrame(h', n, n1);
    RestoredCore(h', n1);
    var n2 := n1.(prs := RestoredProgress(n1, n1.log.LastIndex()));
    FollowingStays(h, h', n, n2);
    ReplyKept(h', n2, Blank(MsgAppResp, m.from));
    SamePrs(n, n1);
  }

  lemma SamePrs(n: Node, n1: Node)
    requires n1.prs == n.prs && n1.cfg == n.cfg
    ensures forall last: nat :: RestoredProgress(n1, last) == RestoredProgress(n, last)
  {
  }

  lemma RestoreFields(l: RLog, s: Snapshot)
    ensures Restore(l, s).committed == s.index && Restore(l, s).LastIndex() == s.index
  {
  }

  lemma SnapshotKept(h: History, n: Node, m: Message) returns (h': History)
    requires Inv(h) && Following(h, n, m) && SnapOk(h, m)
    ensures Kept(h, h', n.cfg.id, HandleSnapshot(n, m))
  {
    hide Inv, Core, SentOk, Extends, Send, IsFollowing, SetCommit, Acked, Shows, LeaderIs, Restore, RestoredProgress;
    CoreFacts(h, n);
    CommitOf(h, n);
    TermReal(h, n.term, m.from);
    LeaderHasLog(h, m.term, m.from);
    var s := m.snapshot;
    if s.index <= n.log.committed {
      h' := h;
      ExtendsRefl(h, n.cfg.id);
      ReplyKept(h, n, Blank(MsgAppResp, m.from));
    } else if n.log.MatchTerm(s.index, s.term) {
      SnapShared(h, n, m);
      CommitSharedInv(h, n.cfg.id, s.index);
      h' := SetCommit(h, n.cfg.id, s.index);
      CommitCore(h, n, s.index);
      FinishKept(h, h', n, n.log.(committed := s.index), Blank(MsgAppResp, m.from));
    } else {
      h' := RestoreKept(h, n, m);
    }
  }
}
