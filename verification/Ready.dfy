/**
 The server's loop over Ready: save, apply, maybe compact, advance. Whatever the pages and compactions, the
 application receives exactly the committed entries above its cursor, once each and in index order.
 */
module ReadyLoop {
  import opened Proto
  import opened Deliveries
  import opened RaftLogSpec
  import opened TwoLevel
  import opened EntrySizes
  import opened Storage
  import opened RaftLog

  // --------------------------------------------------------------------------
  // Snapshots and compaction, in indices

  /** maybe_trigger_snapshot: where the log is cut after a snapshot at applied. */
  function CompactIndex(applied: nat, catchUp: nat): nat {
    if applied > catchUp then applied - catchUp else 1
  }

  /**
   A snapshot is due, and compacting to the computed index would be refused: at or below the base, or past applied.
   */
  predicate Refused(base: nat, snapshotIndex: nat, applied: nat, snapCount: nat, catchUp: nat) {
    && base <= snapshotIndex <= applied && applied - snapshotIndex > snapCount
    && !(base < CompactIndex(applied, catchUp) <= applied)
  }

  /** Compaction is never refused (which would stop the process) if and only if snapshots are at least catchUp apart. */
  lemma CompactionAccepted(snapCount: nat, catchUp: nat)
    ensures (forall base: nat, snapshotIndex: nat, applied: nat ::
      !Refused(base, snapshotIndex, applied, snapCount, catchUp))
      <==> snapCount >= catchUp
  {
    if snapCount < catchUp {
      var s := catchUp + 1;
      assert Refused(s, s, s + snapCount + 1, snapCount, catchUp);
    }
  }

  /** The constants of the server. */
  const SNAP_COUNT := 100000
  const CATCH_UP := 100000

  /** They are equal, which is just enough. */
  lemma ServerNeverRefused(base: nat, snapshotIndex: nat, applied: nat)
    ensures !Refused(base, snapshotIndex, applied, SNAP_COUNT, CATCH_UP)
  {
    CompactionAccepted(SNAP_COUNT, CATCH_UP);
  }

  // --------------------------------------------------------------------------
  // What compaction leaves of a log

  /** The same log, cut at a later base, with another snapshot to send. */
  ghost predicate CutOf(v: RLog, v': RLog) {
    && v.base <= v'.base <= v.LastIndex()
    && v'.ents == v.ents[v'.base - v.base..]
    && (v'.base > v.base ==> v'.baseTerm == v.Term(v'.base)) && (v'.base == v.base ==> v'.baseTerm == v.baseTerm)
    && v'.committed == v.committed
  }

  lemma CutRefl(v: RLog)
    ensures CutOf(v, v)
  {
  }

  lemma CutTrans(a: RLog, b: RLog, c: RLog)
    requires CutOf(a, b) && CutOf(b, c)
    ensures CutOf(a, c)
  {
  }

  /** The committed entries above a cursor. */
  function Pending(v: RLog, applied: nat): seq<Entry>
    requires v.base <= applied <= v.committed <= v.LastIndex()
  {
    v.ents[applied - v.base..v.committed - v.base]
  }

  lemma CutPending(v: RLog, v': RLog, applied: nat)
    requires CutOf(v, v') && v'.base <= applied <= v.committed <= v.LastIndex()
    ensures v'.committed <= v'.LastIndex() && Pending(v', applied) == Pending(v, applied)
  {
  }

  // --------------------------------------------------------------------------
  // Saving and compacting the two levels

  lemma SavedIs(l: Levels, c: nat, a: nat)
    requires Layered(l) && l.usnap.None?
    ensures StoreAppend(l.s, l.us).Some?
    ensures var l' := l.(s := StoreAppend(l.s, l.us).value); Layered(l') && View(l', c, a) == View(l, c, a) && Saved(l')
    ensures var l' := l.(s := StoreAppend(l.s, l.us).value); l'.s[0] == l.s[0] && Last(l') == Last(l)
  {
    if l.us == [] {
      assert forall i: nat :: SavedAt(l, i);
    } else {
      SaveView(l, c, a);
      StoredTail(l, c, a);
      hide StoreAppend;
      LastIs(l, c, a);
      LastIs(l.(s := StoreAppend(l.s, l.us).value), c, a);
    }
  }

  lemma SavedCovers(l: Levels)
    requires Layered(l) && l.usnap.None? && Saved(l)
    ensures l.s[0].index + |l.s| - 1 == Last(l) && Base(l) == l.s[0].index
  {
  }

  lemma SavedTerm(l: Levels, i: nat, c: nat, a: nat)
    requires Layered(l) && l.usnap.None? && Saved(l) && Base(l) <= i <= Last(l)
    ensures l.s[0].index <= i < l.s[0].index + |l.s| && l.s[i - l.s[0].index].term == View(l, c, a).Term(i)
  {
    hide Tail;
    SavedCovers(l);
    LastIs(l, c, a);
    if i > Base(l) {
      TailAt(l, i);
      assert SavedAt(l, i);
    }
  }

  lemma CompactSaved(l: Levels, j: nat, sn: Snapshot, c: nat, a: nat)
    requires Layered(l) && l.usnap.None? && Saved(l) && l.s[0].index < j < l.s[0].index + |l.s|
    ensures var l' := l.(s := StoreCompact(l.s, j), snap := sn);
      && Layered(l') && Saved(l') && CutOf(View(l, c, a), View(l', c, a)) && View(l', c, a).applied == a
      && l'.s[0].index == j
  {
    hide Tail, SavedAt, Saved, View, NumberedFrom, StoreCompact, CutOf;
    CompactView(l, j, c, a);
    var l1 := l.(s := StoreCompact(l.s, j));
    CompactStarts(l.s, j);
    CompactedSaved(l, j);
    SnapOnly(l1, sn, c, a);
    LastIs(l, c, a);
    SnapSaved(l1, sn);
    SavedCovers(l);
    ViewBase(l, c, a);
    CutAt(View(l, c, a), j, sn);
  }

  lemma ViewBase(l: Levels, c: nat, a: nat)
    requires Layered(l)
    ensures View(l, c, a).base == Base(l) && View(l, c, a).applied == a
  {
  }

  lemma CutAt(v: RLog, j: nat, sn: Snapshot)
    requires v.base < j <= v.LastIndex()
    ensures var v' := v.(base := j, baseTerm := v.Term(j), ents := v.ents[j - v.base..], snap := sn);
      CutOf(v, v') && v'.applied == v.applied
  {
    hide RLog.Term;
  }

  lemma CompactStarts(s: seq<Entry>, j: nat)
    requires s != [] && s[0].index < j < s[0].index + |s| && NumberedFrom(s, s[0].index)
    ensures StoreCompact(s, j) != [] && StoreCompact(s, j)[0].index == j
  {
  }

  lemma CompactedSaved(l: Levels, j: nat)
    requires Layered(l) && Saved(l) && l.s[0].index < j < l.s[0].index + |l.s|
    ensures Saved(l.(s := StoreCompact(l.s, j)))
  {
    hide Layered, Tail;
    var l1 := l.(s := StoreCompact(l.s, j));
    SavedNumbered(l);
    CompactedLength(l.s, j);
    forall i: nat ensures SavedAt(l1, i) { assert SavedAt(l, i); }
  }

  lemma SavedNumbered(l: Levels)
    requires Layered(l)
    ensures l.s != [] && NumberedFrom(l.s, l.s[0].index)
  {
  }

  lemma SnapSaved(l: Levels, sn: Snapshot)
    requires l.s != [] && Saved(l)
    ensures Saved(l.(snap := sn))
  {
    hide SavedAt;
    forall i: nat ensures SavedAt(l.(snap := sn), i) { SavedSnap(l, sn, i); }
  }

  lemma SavedSnap(l: Levels, sn: Snapshot, i: nat)
    requires l.s != []
    ensures SavedAt(l.(snap := sn), i) == SavedAt(l, i)
  {
  }

  lemma SnapOnly(l: Levels, sn: Snapshot, c: nat, a: nat)
    requires Layered(l) && l.usnap.None?
    ensures var l' := l.(snap := sn); Layered(l') && View(l', c, a) == View(l, c, a).(snap := sn)
  {
  }

  lemma CompactedLength(s: seq<Entry>, j: nat)
    requires s != [] && s[0].index < j < s[0].index + |s| && NumberedFrom(s, s[0].index)
    ensures var s' := StoreCompact(s, j); s'[0].index + |s'| == s[0].index + |s|
  {
  }

  // --------------------------------------------------------------------------
  // Publishing a page

  /** The entries right after an index. */
  ghost predicate Continues(page: seq<Entry>, at: nat) {
    forall i :: 0 <= i < |page| ==> page[i].index == at + 1 + i
  }

  lemma PageNumbered(page: seq<Entry>, at: nat)
    requires Continues(page, at)
    ensures page != [] ==> NumberedFrom(page, page[0].index) && page[0].index == at + 1
  {
  }

  lemma ContinuesOrder(gs: seq<Given>, from: nat, page: seq<Entry>)
    requires InOrder(gs, from) && Continues(page, Cursor(gs, from))
    ensures InOrder(gs + Commands(page), from) && Cursor(gs + Commands(page), from) == Cursor(gs, from) + |page|
  {
    hide InOrder, Cursor;
    CommandsInOrder(gs, from, page);
  }

  /** publish_entries can do something with the entry: only a configuration change may fail to decode. */
  predicate Sound(e: Entry, decodes: seq<byte> -> bool) {
    e.etype == EntryConfChange ==> decodes(e.data)
  }

  /** The entries of a page that reach the application: one that cannot be decoded is skipped. */
  function Published(es: seq<Entry>, decodes: seq<byte> -> bool): seq<Entry> {
    if es == [] then []
    else
      var e := es[|es| - 1];
      Published(es[..|es| - 1], decodes) + if Sound(e, decodes) then [e] else []
  }

  /** Where that leaves the server's cursor: a skipped entry does not move it. */
  function CursorAfter(at: nat, es: seq<Entry>, decodes: seq<byte> -> bool): nat {
    if es == [] then at
    else if Sound(es[|es| - 1], decodes) then es[|es| - 1].index
    else CursorAfter(at, es[..|es| - 1], decodes)
  }

  lemma {:induction false} CursorWithin(at: nat, es: seq<Entry>, decodes: seq<byte> -> bool)
    requires forall i :: 0 <= i < |es| ==> es[i].index == at + 1 + i
    ensures at <= CursorAfter(at, es, decodes) <= at + |es|
  {
    if es != [] { CursorWithin(at, es[..|es| - 1], decodes); }
  }

  lemma {:induction false} PublishedFew(es: seq<Entry>, decodes: seq<byte> -> bool)
    ensures |Published(es, decodes)| <= |es|
  {
    if es != [] { PublishedFew(es[..|es| - 1], decodes); }
  }

  /** Everything is published if and only if every entry can be. */
  lemma {:induction false} PublishedAre(es: seq<Entry>, decodes: seq<byte> -> bool)
    ensures Published(es, decodes) == es <==> forall e :: e in es ==> Sound(e, decodes)
  {
    if es != [] {
      var front, e := es[..|es| - 1], es[|es| - 1];
      PublishedAre(front, decodes);
      PublishedFew(front, decodes);
      PublishedLast(es, decodes);
      assert es == front + [e];
      hide Published, Sound;
      assert forall x :: x in es <==> x in front || x == e;
    }
  }

  /** Each entry by itself is published or skipped, whatever comes before and after it. */
  lemma {:induction false} PublishedEach(a: seq<Entry>, e: Entry, b: seq<Entry>, decodes: seq<byte> -> bool)
    ensures Published(a + [e] + b, decodes) ==
      Published(a, decodes) + (if Sound(e, decodes) then [e] else []) + Published(b, decodes)
    decreases |b|
  {
    PublishedLast(a + [e] + b, decodes);
    hide Sound;
    if b == [] {
      assert a + [e] + b == a + [e] && (a + [e])[..|a|] == a;
    } else {
      var k := |b| - 1;
      PublishedLast(b, decodes);
      PublishedEach(a, e, b[..k], decodes);
      assert (a + [e] + b)[..|a| + 1 + k] == a + [e] + b[..k];
    }
  }

  /** The cursor ends at the last entry that was published, and stays if none was. */
  lemma {:induction false} CursorIsLast(at: nat, es: seq<Entry>, decodes: seq<byte> -> bool)
    ensures if Published(es, decodes) == [] then CursorAfter(at, es, decodes) == at
      else CursorAfter(at, es, decodes) == Published(es, decodes)[|Published(es, decodes)| - 1].index
  {
    if es != [] { CursorIsLast(at, es[..|es| - 1], decodes); }
  }

  lemma PublishedLast(es: seq<Entry>, decodes: seq<byte> -> bool)
    requires es != []
    ensures var front, e := es[..|es| - 1], es[|es| - 1];
      Published(es, decodes) == Published(front, decodes) + if Sound(e, decodes) then [e] else []
  {
  }

  /**
   The next page is accepted if and only if the last entry of this one could be decoded: otherwise the log's cursor has
   passed an entry that the server's has not, and entries_to_apply stops the process at the gap.
   */
  lemma NextPageAcceptedIff(at: nat, es: seq<Entry>, decodes: seq<byte> -> bool)
    requires es != [] && forall i :: 0 <= i < |es| ==> es[i].index == at + 1 + i
    ensures at + |es| + 1 <= CursorAfter(at, es, decodes) + 1 <==> Sound(es[|es| - 1], decodes)
  {
    CursorWithin(at, es[..|es| - 1], decodes);
  }

  // --------------------------------------------------------------------------
  // The loop

  /** What a step does to a log, by the log's own methods. */
  datatype Change =
    | Adopt(index: nat, logTerm: nat, commit: nat, es: seq<Entry>)   // an append from a leader
    | Grow(es: seq<Entry>)                                           // a leader's own entries
    | CommitUpTo(to: nat)                                            // a heartbeat, or a snapshot that is already there
    | CommitAt(index: nat, term: nat)                                // a leader's quorum index
    | Install(s: Snapshot)                                           // a snapshot past everything committed

  /** What step() makes of a message: entries numbered from where they go, which the server can publish. */
  ghost predicate Formed(ch: Change, decodes: seq<byte> -> bool) {
    match ch
    case Adopt(index, _, _, es) => NumberedFrom(es, index + 1) && forall e :: e in es ==> Sound(e, decodes)
    case Grow(es) =>
      (es != [] ==> NumberedFrom(es, es[0].index) && es[0].index >= 1) && forall e :: e in es ==> Sound(e, decodes)
    case _ => true
  }

  /** The log after a change: it starts where it did, and what was committed is still there. */
  ghost predicate Keeps(v: RLog, v': RLog, es: seq<Entry>) {
    && v'.base == v.base && v'.applied == v.applied && v.base <= v.committed <= v'.committed
    && v.committed <= v.LastIndex()
    && v.committed <= v'.LastIndex() && v'.ents[..v.committed - v.base] == v.ents[..v.committed - v.base]
    && forall e :: e in v'.ents ==> e in v.ents || e in es
  }

  lemma AppendKeeps(v: RLog, es: seq<Entry>)
    requires v.base <= v.committed <= v.LastIndex()
    ensures var r := RaftLogSpec.Append(v, es); r.Some? ==> Keeps(v, r.value, es)
  {
  }

  lemma CommitKeeps(v: RLog, to: nat)
    requires v.base <= v.committed <= v.LastIndex()
    ensures var r := RaftLogSpec.CommitTo(v, to); r.Some? ==> Keeps(v, r.value, [])
  {
  }

  lemma MaybeCommitKeeps(v: RLog, index: nat, term: nat)
    requires v.base <= v.committed <= v.LastIndex()
    ensures var r := RaftLogSpec.MaybeCommit(v, index, term); r.Some? ==> Keeps(v, r.value, [])
  {
    hide RaftLogSpec.CommitTo, RLog.Term;
    CommitKeeps(v, index);
  }

  lemma MaybeAppendKeeps(v: RLog, index: nat, logTerm: nat, commit: nat, es: seq<Entry>)
    requires v.base <= v.committed <= v.LastIndex()
    ensures var r := RaftLogSpec.MaybeAppend(v, index, logTerm, commit, es); r.Accepted? ==> Keeps(v, r.log, es)
  {
    hide RaftLogSpec.CommitTo, RLog.Term, RaftLogSpec.Append, RaftLogSpec.FindConflict, Keeps;
    KeepsSelf(v, es);
    var ci := RaftLogSpec.FindConflict(v, es);
    if index + 1 <= ci && ci - (index + 1) <= |es| {
      AppendKeeps(v, es[ci - (index + 1)..]);
      KeepsMore(v, es, ci - (index + 1));
    }
    if AppendFrom(v, index, es).Some? {
      var l := AppendFrom(v, index, es).value;
      KeepsBounds(v, l, es);
      CommitAfter(v, l, es, Min(commit, index + |es|));
    }
  }

  lemma KeepsSelf(v: RLog, es: seq<Entry>)
    requires v.base <= v.committed <= v.LastIndex()
    ensures Keeps(v, v, es)
  {
  }

  lemma KeepsMore(v: RLog, es: seq<Entry>, n: nat)
    requires n <= |es|
    ensures var r := RaftLogSpec.Append(v, es[n..]); r.Some? && Keeps(v, r.value, es[n..]) ==> Keeps(v, r.value, es)
  {
    hide RaftLogSpec.Append;
  }

  lemma KeepsBounds(v: RLog, l: RLog, es: seq<Entry>)
    requires Keeps(v, l, es)
    ensures l.base <= v.committed <= l.LastIndex()
  {
  }

  lemma CommitAfter(v: RLog, l: RLog, es: seq<Entry>, to: nat)
    requires Keeps(v, l, es)
    ensures var r := RaftLogSpec.CommitTo(l, to); r.Some? ==> Keeps(v, r.value, es)
  {
  }

  lemma StillPending(v: RLog, v': RLog, applied: nat, es: seq<Entry>)
    requires v.base <= applied <= v.committed <= v.LastIndex() && v'.committed <= v'.LastIndex()
    requires Keeps(v, v', es)
    ensures v'.base == v.base && v'.applied == v.applied && applied <= v'.committed
    ensures Pending(v, applied) <= Pending(v', applied)
  {
    var n := v.committed - v.base;
    assert v'.ents[applied - v.base..n] == v'.ents[..n][applied - v.base..];
    assert v.ents[applied - v.base..n] == v.ents[..n][applied - v.base..];
  }

  class Server {
    const log: RaftLog
    const snapCount: nat
    const catchUp: nat
    var appliedIndex: nat
    var snapshotIndex: nat
    const decodes: seq<byte> -> bool
    const start: nat             // where the application started
    var given: seq<Given>        // everything it has been given since

    /** The application has been given everything up to the cursor, once and in order. */
    ghost predicate Ordered()
      reads this
    {
      snapCount >= catchUp && InOrder(given, start) && Cursor(given, start) == appliedIndex
    }

    /**
     Between rounds: no snapshot pending, the cursors agree. The stored snapshot is at most snapCount behind what was
     applied, and the log reaches back from it by at most catchUp entries.
     */
    ghost predicate Valid()
      reads this, log, log.storage, log.unstable
    {
      && log.Valid() && Ordered()
      && log.unstable.snapshot.None?
      && appliedIndex == log.applied <= log.committed
      && Base(log.Levels()) <= snapshotIndex == log.storage.snapshot.index <= appliedIndex
      && appliedIndex - snapshotIndex <= snapCount && snapshotIndex - Base(log.Levels()) <= catchUp
    }

    /** The committed entries that the application has not seen. */
    ghost function Rest(): seq<Entry>
      requires Valid()
      reads this, log, log.storage, log.unstable
    {
      StateFacts(log.Levels(), log.committed, log.applied);
      Pending(log.State(), appliedIndex)
    }

    /** Every configuration change in the log can be decoded. */
    ghost predicate AllSound()
      requires log.Valid()
      reads this, log, log.storage, log.unstable
    {
      forall e :: e in log.State().ents ==> Sound(e, decodes)
    }

    /** Right after a step restored a snapshot from the leader: nothing above it, nothing of it applied. */
    ghost predicate Restored()
      reads this, log, log.storage, log.unstable
    {
      && log.Valid() && Ordered()
      && log.unstable.snapshot.Some? && log.unstable.entries == []
      && var s := log.unstable.snapshot.value;
      && log.committed == s.index && log.applied <= appliedIndex < s.index
      && log.storage.snapshot.index < s.index
    }

    /**
     A round, seen from its snapshots: when more than snapCount entries were applied since the last one, there is a new
     one at what was applied, with the term of the log there, and the log goes catchUp entries back from it; otherwise
     snapshot and log start stay.
     */
    ghost predicate Trimmed(v: RLog, was: nat, stored: Snapshot)
      reads this, log, log.storage, log.unstable
    {
      && log.Valid()
      && if appliedIndex > was + snapCount then
           && snapshotIndex == appliedIndex
           && log.storage.snapshot == Snapshot(appliedIndex, v.Term(appliedIndex))
           && Base(log.Levels()) == if appliedIndex > catchUp then appliedIndex - catchUp else 1
         else
           snapshotIndex == was && log.storage.snapshot == stored && Base(log.Levels()) == v.base
    }

    /** The two states a round starts from, in terms of the one log: they are what every step leaves. */
    lemma ReadyIff()
      requires log.Valid() && Ordered() && log.storage.snapshot.index == snapshotIndex <= appliedIndex
      requires appliedIndex - snapshotIndex <= snapCount
      ensures Valid() <==>
        && log.unstable.snapshot.None? && Awaits(log.State(), appliedIndex)
        && log.State().base <= snapshotIndex <= log.State().base + catchUp
      ensures Restored() <==> log.unstable.snapshot.Some? && JustRestored(log.State(), appliedIndex)
    {
      StateFacts(log.Levels(), log.committed, log.applied);
    }

    /** schedule(): the application starts at the stored snapshot. */
    constructor (log: RaftLog, snapCount: nat, catchUp: nat, decodes: seq<byte> -> bool)
      requires log.Valid() && log.unstable.snapshot.None? && snapCount >= catchUp
      requires Base(log.Levels()) == log.applied == log.storage.snapshot.index
      ensures Valid() && this.log == log && this.snapCount == snapCount && this.catchUp == catchUp
      ensures this.decodes == decodes
      ensures appliedIndex == snapshotIndex == start == log.storage.snapshot.index && given == []
    {
      this.log := log;
      this.snapCount := snapCount;
      this.catchUp := catchUp;
      appliedIndex := log.storage.snapshot.index;
      snapshotIndex := log.storage.snapshot.index;
      start := log.storage.snapshot.index;
      given := [];
      this.decodes := decodes;
    }

    /** entries_to_apply: skips what has been applied; a gap would stop the process. */
    method EntriesToApply(es: seq<Entry>) returns (died: bool, r: seq<Entry>)
      requires es != [] ==> NumberedFrom(es, es[0].index) && es[0].index >= 1
      ensures died <==> es != [] && es[0].index > appliedIndex + 1
      ensures !died && es != [] ==>
        r == if appliedIndex + 1 < es[0].index + |es| then es[appliedIndex + 1 - es[0].index..] else []
      ensures es == [] ==> r == []
    {
      died, r := false, [];
      if es == [] { return; }
      var first := es[0].index;
      if first > appliedIndex + 1 { return true, []; }
      if appliedIndex + 1 - first < |es| {
        r := es[appliedIndex + 1 - first..];
      }
    }

    /** publish_entries: a configuration change that cannot be decoded is skipped, and the cursor with it. */
    method PublishEntries(es: seq<Entry>)
      modifies this`appliedIndex, this`given
      ensures given == old(given) + Commands(Published(es, decodes))
      ensures appliedIndex == CursorAfter(old(appliedIndex), es, decodes)
    {
      var i := 0;
      while i < |es|
        invariant 0 <= i <= |es|
        invariant given == old(given) + Commands(Published(es[..i], decodes))
        invariant appliedIndex == CursorAfter(old(appliedIndex), es[..i], decodes)
      {
        var e := es[i];
        assert es[..i + 1][..i] == es[..i] && es[..i + 1][i] == e;
        i := i + 1;
        if e.etype == EntryConfChange && !decodes(e.data) { continue; }
        CommandsOne(given, Published(es[..i - 1], decodes), e);
        given := given + [Command(e)];
        appliedIndex := e.index;
      }
      assert es[..i] == es;
    }

    lemma CommandsOne(gs: seq<Given>, es: seq<Entry>, e: Entry)
      ensures Commands(es) + [Command(e)] == Commands(es + [e])
    {
    }

    method MaybeTriggerSnapshot() returns (died: bool)
      requires log.Valid() && log.unstable.snapshot.None? && Saved(log.Levels()) && snapCount >= catchUp
      requires Base(log.Levels()) <= snapshotIndex <= appliedIndex <= log.committed
      requires log.storage.snapshot.index <= snapshotIndex
      modifies this`snapshotIndex, log.storage`entries, log.storage`snapshot
      ensures !died
      ensures log.Valid() && Saved(log.Levels())
      ensures CutOf(old(log.State()), log.State()) && log.State().applied == old(log.State()).applied
      ensures if old(appliedIndex - snapshotIndex) > snapCount then
          && snapshotIndex == appliedIndex
          && log.storage.snapshot == Snapshot(appliedIndex, old(log.State()).Term(appliedIndex))
          && Base(log.Levels()) == if appliedIndex > catchUp then appliedIndex - catchUp else 1
        else
          && snapshotIndex == old(snapshotIndex) && log.storage.snapshot == old(log.storage.snapshot)
          && log.State() == old(log.State()) && Base(log.Levels()) == old(Base(log.Levels()))
    {
      hide Layered, View, Tail, Last, NumberedFrom, StoreCompact, Saved, CutOf, RLog.Term;
      died := false;
      CutRefl(log.State());
      if appliedIndex - snapshotIndex <= snapCount { return; }
      ghost var l := log.Levels();
      SavedNumbered(l);
      SavedCovers(l);
      SavedTerm(l, appliedIndex, log.committed, log.applied);
      LastIs(l, log.committed, log.applied);
      var st := log.storage.CreateSnapshot(appliedIndex);
      if st != Ok { return true; }
      var compactIndex := 1;
      if appliedIndex > catchUp { compactIndex := appliedIndex - catchUp; }
      CompactionAccepted(snapCount, catchUp);
      assert !Refused(Base(l), snapshotIndex, appliedIndex, snapCount, catchUp);
      CompactSaved(l, compactIndex, log.storage.snapshot, log.committed, log.applied);
      st := log.storage.Compact(compactIndex);
      if st != Ok { return true; }
      snapshotIndex := appliedIndex;
      assert log.Levels() == l.(s := StoreCompact(l.s, compactIndex), snap := log.storage.snapshot);
      CompactedLength(l.s, compactIndex);
      SavedCovers(log.Levels());
      ViewBase(l, log.committed, log.applied);
    }

    /** wal and storage_->append: the unstable tail is saved, and stays in place until advance. */
    method SaveEntries() returns (died: bool)
      requires log.Valid() && log.unstable.snapshot.None?
      modifies log.storage`entries
      ensures !died && log.Valid() && Saved(log.Levels())
      ensures log.State() == old(log.State()) && Base(log.Levels()) == old(Base(log.Levels()))
    {
      ghost var l := log.Levels();
      SavedIs(l, log.committed, log.applied);
      EntriesNumbered(l);
      var st := log.storage.Append(log.unstable.entries);
      assert log.Levels() == l.(s := StoreAppend(l.s, l.us).value);
      died := st != Ok;
    }

    /** One turn of pull_ready_events without a snapshot: the tail is saved and the next page applied. */
    method Round() returns (died: bool)
      requires Valid() && AllSound()
      modifies this`appliedIndex, this`given, this`snapshotIndex, log`applied, log.storage`entries,
               log.storage`snapshot, log.unstable`entries, log.unstable`offset
      ensures !died && Valid() && AllSound()
      ensures log.unstable.entries == []
      ensures CutOf(old(log.State()), log.State())
      ensures var page := NextPage(old(log.State()), log.maxNextSize);
        && given == old(given) + Commands(page) && appliedIndex == old(appliedIndex) + |page|
        && page <= Pending(old(log.State()), old(appliedIndex))
        && Longest(page, Pending(old(log.State()), old(appliedIndex)), log.maxNextSize)
        && (page == [] ==> old(appliedIndex) == log.committed)
      ensures Trimmed(old(log.State()), old(snapshotIndex), old(log.storage.snapshot))
    {
      hide Trimmed, Layered, View, Tail, NextPage, Last, StoreAppend, Saved, InOrder, Cursor, CursorAfter, Published,
        Commands, RLog.Term, NumberedFrom, Longest;
      ghost var v := log.State();
      StateFacts(log.Levels(), log.committed, log.applied);
      var entries := log.unstable.entries;
      var page;
      died, page := log.NextEntries();
      PageIs(v, log.maxNextSize);
      PageSound(v, page);
      died := SaveEntries();
      ApplyPage(page);
      died := Finish(entries, page);
      StillBounded(v, old(snapshotIndex), old(log.storage.snapshot));
      StateFacts(log.Levels(), log.committed, log.applied);
    }

    /** The end of a round: perhaps a snapshot, and the cursors of the log follow. */
    method Finish(entries: seq<Entry>, page: seq<Entry>) returns (died: bool)
      requires log.Valid() && log.unstable.snapshot.None? && Saved(log.Levels()) && snapCount >= catchUp
      requires Base(log.Levels()) <= snapshotIndex == log.storage.snapshot.index <= appliedIndex <= log.committed
      requires entries == log.unstable.entries && (page != [] ==> page[|page| - 1].index > 0)
      requires appliedIndex == if page == [] then log.applied else page[|page| - 1].index
      modifies this`snapshotIndex, log`applied, log.storage`entries, log.storage`snapshot, log.unstable`entries,
               log.unstable`offset
      ensures !died && log.Valid() && log.unstable.entries == [] && log.applied == appliedIndex
      ensures CutOf(old(log.State()), log.State())
      ensures Trimmed(old(log.State()), old(snapshotIndex), old(log.storage.snapshot))
    {
      hide Layered, View, Tail, Last, Saved, CutOf, RLog.Term, InOrder, Cursor;
      ghost var v := log.State();
      StateFacts(log.Levels(), log.committed, log.applied);
      died := MaybeTriggerSnapshot();
      ghost var v2 := log.State();
      Advance(entries, page);
      CutApplied(v, v2, log.applied);
      StateFacts(log.Levels(), log.committed, log.applied);
    }

    lemma StillBounded(v: RLog, was: nat, stored: Snapshot)
      requires Trimmed(v, was, stored) && Ordered() && log.unstable.snapshot.None?
      requires v.base <= was == stored.index <= appliedIndex == log.applied <= log.committed && was - v.base <= catchUp
      ensures Valid()
    {
      hide InOrder, Cursor, RLog.Term;
    }

    /** The page goes through both cursors' checks to the application. */
    method ApplyPage(page: seq<Entry>)
      requires Ordered() && Continues(page, appliedIndex)
      requires Published(page, decodes) == page && CursorAfter(appliedIndex, page, decodes) == appliedIndex + |page|
      modifies this`appliedIndex, this`given
      ensures Ordered() && given == old(given) + Commands(page) && appliedIndex == old(appliedIndex) + |page|
    {
      hide InOrder, Cursor, CursorAfter, Published, Commands, NumberedFrom, Continues;
      PageNumbered(page, appliedIndex);
      ContinuesOrder(given, start, page);
      var died, todo := EntriesToApply(page);
      assert todo == page;
      PublishEntries(todo);
    }

    /** Pages of a sound log are published whole. */
    lemma PageSound(v: RLog, page: seq<Entry>)
      requires v.base <= appliedIndex <= v.committed <= v.LastIndex() && page <= Pending(v, appliedIndex)
      requires forall e :: e in v.ents ==> Sound(e, decodes)
      requires forall i :: 0 <= i < |page| ==> page[i].index == appliedIndex + 1 + i
      ensures Published(page, decodes) == page && CursorAfter(appliedIndex, page, decodes) == appliedIndex + |page|
    {
      hide Published, CursorAfter;
      PublishedAre(page, decodes);
      CursorWithin(appliedIndex, page, decodes);
      PageWithin(v, appliedIndex, page);
      if page != [] { NextPageAcceptedIff(appliedIndex, page, decodes); }
    }

    /** A round with a snapshot: stored, loaded into the application, and the cursors jump over it. */
    method LoadSnapshot() returns (died: bool)
      requires Restored()
      modifies this`appliedIndex, this`snapshotIndex, this`given, log`applied, log.storage`entries,
               log.storage`snapshot, log.unstable`snapshot
      ensures !died && Valid() && log.unstable.entries == []
      ensures log.State() == old(log.State()).(applied := log.committed)
      ensures given == old(given) + [Loaded(old(log.State()).snap)] && appliedIndex == log.committed > old(appliedIndex)
    {
      died := false;
      ghost var l := log.Levels();
      SnapshotView(l, log.committed, log.applied);
      var s := log.unstable.snapshot.value;
      var st := log.storage.ApplySnapshot(s);
      if s.index <= appliedIndex { return true; }
      OneInOrder(given, start, Loaded(s));
      snapshotIndex := s.index;
      appliedIndex := s.index;
      given := given + [Loaded(s)];
      log.AppliedTo(s.index);
      log.unstable.StableSnapTo(s.index);
    }

    /** A round moves entries from the rest to the application, and uses up the rest or the unsaved tail. */
    method Turn() returns (died: bool, more: bool)
      requires Valid() && AllSound()
      modifies this`appliedIndex, this`snapshotIndex, this`given, log`applied, log.storage`entries,
               log.storage`snapshot, log.unstable`entries, log.unstable`offset
      ensures !died && Valid() && AllSound() && log.unstable.entries == []
      ensures CutOf(old(log.State()), log.State())
      ensures given + Commands(Rest()) == old(given) + Commands(old(Rest()))
      ensures more <==> Rest() != []
      ensures |Rest()| <= old(|Rest()|) && (old(Rest()) != [] ==> |Rest()| < old(|Rest()|))
    {
      hide Longest, Trimmed, Layered, View, Tail, NextPage, Last, StoreAppend, Saved, InOrder, Commands;
      StateFacts(log.Levels(), log.committed, log.applied);
      ghost var was, at := log.State(), appliedIndex;
      died := Round();
      StateFacts(log.Levels(), log.committed, log.applied);
      CutPending(was, log.State(), appliedIndex);
      PendingRest(was, at, appliedIndex - at);
      assert NextPage(was, log.maxNextSize) == Pending(was, at)[..appliedIndex - at];
      CommandsSplit(Pending(was, at)[..appliedIndex - at], Rest());
      Regroup(old(given), Commands(Pending(was, at)[..appliedIndex - at]), Commands(Rest()));
      more := log.HasNextEntries();
      PageIs(log.State(), log.maxNextSize);
    }

    method Pull() returns (died: bool)
      requires Valid() && AllSound()
      modifies this`appliedIndex, this`snapshotIndex, this`given, log`applied, log.storage`entries,
               log.storage`snapshot, log.unstable`entries, log.unstable`offset
      ensures !died && Valid() && AllSound() && log.unstable.entries == [] && Rest() == []
      ensures CutOf(old(log.State()), log.State()) && given == old(given) + Commands(old(Rest()))
    {
      hide Layered, View, Tail, NextPage, Last, StoreAppend, Saved, CutOf, Pending, InOrder;
      died := false;
      ghost var v := log.State();
      CutRefl(v);
      var more := log.HasNextEntries();
      PageRest(more);
      while log.unstable.entries != [] || more
        invariant Valid() && AllSound() && !died && (more <==> Rest() != [])
        invariant CutOf(v, log.State()) && given + Commands(Rest()) == old(given) + Commands(old(Rest()))
        decreases |Rest()|, |log.unstable.entries|
      {
        ghost var was := log.State();
        died, more := Turn();
        CutTrans(v, was, log.State());
      }
    }

    lemma PageRest(more: bool)
      requires Valid() && (more <==> NextPage(log.State(), log.maxNextSize) != [])
      ensures more <==> Rest() != []
    {
      StateFacts(log.Levels(), log.committed, log.applied);
      hide Layered, View, Tail, NextPage, Last;
      PageIs(log.State(), log.maxNextSize);
    }

    /** pull_ready_events: turn until there is nothing left to load, to save or to apply. */
    method PullReady() returns (died: bool)
      requires Valid() || Restored()
      requires AllSound()
      modifies this`appliedIndex, this`snapshotIndex, this`given, log`applied, log.storage`entries,
               log.storage`snapshot, log.unstable`snapshot, log.unstable`entries, log.unstable`offset
      ensures !died && Valid() && AllSound()
      ensures log.unstable.entries == [] && appliedIndex == log.committed == old(log.committed)
      ensures old(Valid()) ==> given == old(given) + Commands(old(Rest()))
      ensures old(Valid()) ==> CutOf(old(log.State()), log.State())
      ensures old(Restored()) ==> given == old(given) + [Loaded(old(log.State()).snap)]
    {
      hide Layered, View, Tail, NextPage, Last, StoreAppend, Saved, InOrder;
      died := false;
      if log.unstable.snapshot.Some? {
        died := LoadSnapshot();
        StateFacts(log.Levels(), log.committed, log.applied);
        assert Rest() == [];
        assert Commands([]) == [];
      }
      StateFacts(log.Levels(), log.committed, log.applied);
      died := Pull();
      StateFacts(log.Levels(), log.committed, log.applied);
    }

    /** One step, seen from the log: what waits for the application still waits, or a snapshot takes its place. */
    method TakeStep(ch: Change) returns (died: bool)
      requires Valid() && AllSound() && Formed(ch, decodes)
      modifies log`committed, log.unstable
      ensures !died ==> (Valid() || Restored()) && AllSound()
      ensures !died && Valid() ==> old(Rest()) <= Rest()
      ensures !died && ch.Install? && ch.s.index > old(log.committed) ==> Restored()
    {
      hide Layered, View, Tail, Last, InOrder, Cursor, NumberedFrom, RaftLogSpec.MaybeAppend, RaftLogSpec.Append,
        RaftLogSpec.CommitTo, RaftLogSpec.MaybeCommit;
      died := false;
      ghost var v := log.State();
      ghost var added: seq<Entry> := [];
      StateFacts(log.Levels(), log.committed, log.applied);
      KeepsSelf(v, []);
      match ch {
        case Adopt(index, logTerm, commit, es) =>
          added := es;
          KeepsSelf(v, es);
          MaybeAppendKeeps(v, index, logTerm, commit, es);
          var ok, last;
          ok, last, died := log.MaybeAppend(index, logTerm, commit, es);
        case Grow(es) =>
          added := es;
          AppendKeeps(v, es);
          died := log.Append(es);
        case CommitUpTo(to) =>
          CommitKeeps(v, to);
          died := log.CommitTo(to);
        case CommitAt(index, term) =>
          MaybeCommitKeeps(v, index, term);
          var moved;
          moved, died := log.MaybeCommit(index, term);
        case Install(s) =>
          if s.index > log.committed { log.Restore(s); }
      }
      StateFacts(log.Levels(), log.committed, log.applied);
      if !died && log.unstable.snapshot.None? { StillPending(v, log.State(), appliedIndex, added); }
    }

    /** Any run of steps, each followed by the rounds it calls for: the application is served once and in order. */
    method Serve(changes: seq<Change>) returns (died: bool)
      requires Valid() && AllSound() && forall ch :: ch in changes ==> Formed(ch, decodes)
      modifies this`appliedIndex, this`snapshotIndex, this`given, log`committed, log`applied, log.storage`entries,
               log.storage`snapshot, log.unstable
      ensures !died ==> Valid() && AllSound() && old(given) <= given
      ensures !died && changes != [] ==> appliedIndex == log.committed
      ensures !died ==> appliedIndex - log.State().base <= snapCount + catchUp
    {
      hide Layered, View, Tail, InOrder, Cursor, CutOf, Pending;
      died := false;
      var i := 0;
      while i < |changes|
        invariant 0 <= i <= |changes| && Valid() && AllSound() && !died && old(given) <= given
        invariant i > 0 ==> appliedIndex == log.committed
      {
        died := TakeStep(changes[i]);
        if died { return; }
        died := PullReady();
        i := i + 1;
      }
      ViewBase(log.Levels(), log.committed, log.applied);
    }

    /** RawNode::advance, after everything of a Ready has been saved and applied. */
    method Advance(entries: seq<Entry>, page: seq<Entry>)
      requires log.Valid() && log.unstable.snapshot.None? && Saved(log.Levels()) && entries == log.unstable.entries
      requires page != [] ==> page[|page| - 1].index > 0
      modifies log`applied, log.unstable`entries, log.unstable`offset
      ensures log.Valid() && log.unstable.entries == []
      ensures log.State() ==
        old(log.State()).(applied := if page == [] then old(log.applied) else page[|page| - 1].index)
      ensures Base(log.Levels()) == old(Base(log.Levels()))
    {
      ghost var l := log.Levels();
      EntriesNumbered(l);
      if page != [] { log.AppliedTo(page[|page| - 1].index); }
      if entries != [] {
        var last := entries[|entries| - 1];
        StableView(l, last.index, last.term, log.committed, log.applied);
        LastIs(l, log.committed, log.applied);
        log.unstable.StableTo(last.index, last.term);
        assert log.Levels() == StableTo(l, last.index, last.term);
        LastIs(log.Levels(), log.committed, log.applied);
      }
    }
  }

  lemma Regroup(a: seq<Given>, b: seq<Given>, c: seq<Given>)
    ensures (a + b) + c == a + (b + c)
  {
  }

  lemma PageWithin(v: RLog, applied: nat, page: seq<Entry>)
    requires v.base <= applied <= v.committed <= v.LastIndex() && page <= Pending(v, applied)
    ensures forall e :: e in page ==> e in v.ents
  {
    forall i | 0 <= i < |page| ensures page[i] in v.ents { assert page[i] == v.ents[applied - v.base + i]; }
  }

  lemma CommandsSplit(a: seq<Entry>, b: seq<Entry>)
    ensures Commands(a + b) == Commands(a) + Commands(b)
  {
  }

  lemma StateFacts(l: Levels, c: nat, a: nat)
    requires Layered(l)
    ensures var v := View(l, c, a);
      v.committed == c && v.applied == a && v.base == Base(l) && v.LastIndex() == Last(l) && v.Numbered()
  {
  }

  lemma PendingRest(v: RLog, applied: nat, n: nat)
    requires v.base <= applied && applied + n <= v.committed <= v.LastIndex()
    ensures Pending(v, applied) == Pending(v, applied)[..n] + Pending(v, applied + n)
  {
  }

  lemma CutApplied(v: RLog, v': RLog, applied: nat)
    requires CutOf(v, v')
    ensures CutOf(v, v'.(applied := applied))
  {
  }

  lemma EntriesNumbered(l: Levels)
    requires Layered(l)
    ensures NumberedFrom(l.us, l.off)
    ensures (l.us != [] ==> l.us[0].index == l.off && l.us[|l.us| - 1].index == l.off + |l.us| - 1)
  {
  }

  /** A page starts right above the cursor and is numbered. */
  lemma PageIs(v: RLog, limit: nat)
    requires v.base <= v.applied <= v.committed <= v.LastIndex() && v.Numbered()
    ensures var page := NextPage(v, limit);
      && page <= Pending(v, v.applied) && Longest(page, Pending(v, v.applied), limit)
      && (forall i :: 0 <= i < |page| ==> page[i].index == v.applied + 1 + i)
      && (page == [] <==> v.applied == v.committed)
  {
    hide Longest;
    LimitIsLongest(Pending(v, v.applied), limit);
  }
}

/** Which saves must reach the disk before messages leave: the two places that decide it. */
module Durability {
  import opened Storage

  const EMPTY_STATE := HardState(0, 0, 0)

  /** is_must_sync: term, vote and entries are what a reply depends on. */
  predicate IsMustSync(st: HardState, prev: HardState, entries: nat) {
    entries != 0 || st.vote != prev.vote || st.term != prev.term
  }

  /** A Ready carries the hard state only when it changed. */
  function ReadyState(hs: HardState, prev: HardState): HardState {
    if hs == prev then EMPTY_STATE else hs
  }

  /** Ready::must_sync compares the new state with the field that was just set to it. */
  predicate ReadyMustSync(hs: HardState, prev: HardState, entries: nat) {
    IsMustSync(hs, ReadyState(hs, prev), entries)
  }

  /** WAL::save decides by the last state it wrote, and does nothing for an empty Ready. */
  predicate WalSyncs(ready: HardState, written: HardState, entries: nat) {
    !(ready == EMPTY_STATE && entries == 0) && IsMustSync(ready, written, entries)
  }

  /** The flag of Ready is right exactly when there are entries, or neither term nor vote is at stake. */
  lemma ReadyFlagIff(hs: HardState, prev: HardState, entries: nat)
    ensures ReadyMustSync(hs, prev, entries) == IsMustSync(hs, prev, entries) <==>
      || entries != 0
      || (if hs == prev then hs.term == 0 && hs.vote == 0 else hs.term == prev.term && hs.vote == prev.vote)
  {
  }

  /** A new vote without entries: the flag says that nothing needs to be synced. */
  lemma VoteNotFlagged()
    ensures IsMustSync(HardState(2, 1, 0), HardState(2, 0, 0), 0)
    ensures !ReadyMustSync(HardState(2, 1, 0), HardState(2, 0, 0), 0)
  {
  }

  predicate Differs(a: HardState, b: HardState) { a.term != b.term || a.vote != b.vote }

  /**
   The write-ahead log does not rely on the flag but on the state it wrote last. It decides like is_must_sync on the
   node's own previous state exactly when the two previous states tell the same of the new one.
   */
  lemma WalDecidesRight(hs: HardState, prev: HardState, written: HardState, entries: nat)
    ensures (WalSyncs(ReadyState(hs, prev), written, entries) <==> IsMustSync(hs, prev, entries)) <==>
      entries != 0 || if hs == EMPTY_STATE then !Differs(hs, prev)
        else hs == prev || (Differs(hs, written) <==> Differs(hs, prev))
  {
  }

  /**
   So nothing that must be durable is left unsynced: the two states are the same while a process runs, and after a
   restart, when the log has written nothing yet, it can only sync more.
   */
  lemma WalNeverLess(hs: HardState, prev: HardState, written: HardState, entries: nat)
    requires hs.term > 0 && (written == prev || written == EMPTY_STATE)
    ensures IsMustSync(hs, prev, entries) ==> WalSyncs(ReadyState(hs, prev), written, entries)
    ensures written == prev ==> (WalSyncs(ReadyState(hs, prev), written, entries) <==> IsMustSync(hs, prev, entries))
  {
  }
}
