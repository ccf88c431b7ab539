/**
 Recovery from the write-ahead log: replaying the records from a snapshot index on, compared with the
 MemoryStorage that was fed the same saves.
 */
module WalReplay {
  import opened Proto
  import opened RaftLogSpec
  import opened TwoLevel
  import opened Storage
  import WalFile

  /** The kinds of records; the last one is a checksum record or anything else, which the server never writes. */
  datatype WalRec = EntryRec(e: Entry) | StateRec(hs: HardState) | SnapRec(s: Snapshot) | OtherRec

  /** What the server writes: a Ready's hard state and entries, or a snapshot made from its own state. */
  datatype Op = Save(hs: HardState, es: seq<Entry>) | LocalSnap(s: Snapshot)

  const NO_STATE := HardState(0, 0, 0)

  /** A vector grown by resize holds null pointers, which stand as this entry. */
  const NO_ENTRY := Entry(EntryNormal, 0, 0, [])

  function EntryRecs(es: seq<Entry>): (r: seq<WalRec>)
    ensures |r| == |es|
  {
    seq(|es|, i requires 0 <= i < |es| => EntryRec(es[i]))
  }

  function RecordsOf(op: Op): seq<WalRec> {
    match op
    case Save(hs, es) => EntryRecs(es) + if hs == NO_STATE then [] else [StateRec(hs)]
    case LocalSnap(s) => [SnapRec(s)]
  }

  function Records(ops: seq<Op>): seq<WalRec> {
    if ops == [] then [] else Records(ops[..|ops| - 1]) + RecordsOf(ops[|ops| - 1])
  }

  function Resize(s: seq<Entry>, n: nat): seq<Entry> {
    if n <= |s| then s[..n] else s + seq(n - |s|, _ => NO_ENTRY)
  }

  /** handle_record_wal_record, for entries. */
  function Feed(start: nat, ents: seq<Entry>, r: WalRec): seq<Entry> {
    if r.EntryRec? && r.e.index > start then Resize(ents, r.e.index - start - 1) + [r.e] else ents
  }

  function Replayed(start: nat, rs: seq<WalRec>): seq<Entry> {
    if rs == [] then [] else Feed(start, Replayed(start, rs[..|rs| - 1]), rs[|rs| - 1])
  }

  function LastState(rs: seq<WalRec>): HardState {
    if rs == [] then NO_STATE
    else if rs[|rs| - 1].StateRec? then rs[|rs| - 1].hs
    else LastState(rs[..|rs| - 1])
  }

  /**
   A record on which replay stops the process: of no known type, or a snapshot at the start's index of another term.
   */
  predicate Refused(start: Snapshot, r: WalRec) {
    r.OtherRec? || (r.SnapRec? && r.s.index == start.index && r.s.term != start.term)
  }

  /** Replay also stops it at the end of a log without any snapshot record. */
  predicate Stops(start: Snapshot, rs: seq<WalRec>) {
    (exists r :: r in rs && Refused(start, r)) || !(exists r :: r in rs && r.SnapRec?)
  }

  /** The replay loop of read_all over the records of a log. */
  method Replay(start: Snapshot, rs: seq<WalRec>) returns (died: bool, hs: HardState, ents: seq<Entry>)
    ensures died <==> Stops(start, rs)
    ensures !died ==> ents == Replayed(start.index, rs) && hs == LastState(rs)
  {
    died, hs, ents := false, NO_STATE, [];
    var matchSnap := false;
    var i := 0;
    while i < |rs|
      invariant 0 <= i <= |rs|
      invariant ents == Replayed(start.index, rs[..i]) && hs == LastState(rs[..i])
      invariant !exists r :: r in rs[..i] && Refused(start, r)
      invariant matchSnap <==> exists r :: r in rs[..i] && r.SnapRec?
    {
      assert rs[..i + 1][..i] == rs[..i] && rs[..i + 1] == rs[..i] + [rs[i]] && rs[i] in rs;
      match rs[i] {
        case EntryRec(e) =>
          if e.index > start.index {
            ents := Resize(ents, e.index - start.index - 1);
            ents := ents + [e];
          }
        case StateRec(h) => hs := h;
        case SnapRec(s) =>
          if s.index == start.index && s.term != start.term { return true, hs, ents; }
          matchSnap := true;
        case OtherRec => return true, hs, ents;
      }
      i := i + 1;
    }
    assert rs[..i] == rs;
    died := !matchSnap;
  }

  // --------------------------------------------------------------------------
  // The memory fed with the same saves

  const FRESH := [Entry(EntryNormal, 0, 0, [])]

  predicate Numbers(op: Op) {
    op.Save? && op.es != [] ==>
      op.es[0].index >= 1 && forall i :: 0 <= i < |op.es| ==> op.es[i].index == op.es[0].index + i
  }

  /** None when a save leaves a gap, which stops the process. */
  function Memory(ops: seq<Op>): (m: Option<seq<Entry>>)
    ensures m.Some? ==> m.value != []
  {
    if ops == [] then Some(FRESH)
    else
      match Memory(ops[..|ops| - 1])
      case None => None
      case Some(s) =>
        match ops[|ops| - 1]
        case LocalSnap(_) => Some(s)
        case Save(_, es) =>
          var r := StoreAppend(s, es);
          if r.Some? && r.value == [] then None else r
  }

  ghost predicate History(ops: seq<Op>) {
    (forall i :: 0 <= i < |ops| ==> Numbers(ops[i])) && Memory(ops).Some?
  }

  function Above(s: seq<Entry>, start: nat): seq<Entry> {
    if start + 1 <= |s| then s[start + 1..] else []
  }

  /** Some save carried an entry above the start. */
  ghost predicate SavedAbove(ops: seq<Op>, start: nat) {
    exists i :: 0 <= i < |ops| && ops[i].Save? && ops[i].es != [] && ops[i].es[|ops[i].es| - 1].index > start
  }

  lemma {:induction false} FeedSkips(start: nat, ents: seq<Entry>, rs: seq<WalRec>, base: seq<WalRec>)
    requires ents == Replayed(start, base) && forall r :: r in rs ==> !(r.EntryRec? && r.e.index > start)
    ensures Replayed(start, base + rs) == ents
  {
    if rs == [] {
      assert base + rs == base;
    } else {
      var k := |rs| - 1;
      FeedSkips(start, ents, rs[..k], base);
      assert (base + rs)[..|base| + k] == base + rs[..k];
    }
  }

  lemma EntryRecsSnoc(es: seq<Entry>)
    requires es != []
    ensures EntryRecs(es) == EntryRecs(es[..|es| - 1]) + [EntryRec(es[|es| - 1])]
  {
  }

  lemma NumberedPart(es: seq<Entry>, first: nat, lo: nat, hi: nat)
    requires NumberedFrom(es, first) && lo <= hi <= |es|
    ensures NumberedFrom(es[lo..hi], first + lo)
  {
  }

  /** Feeding numbered entries that continue or overwrite what is there. */
  lemma {:induction false} FeedEntries(start: nat, base: seq<WalRec>, es: seq<Entry>, first: nat)
    requires es != [] && NumberedFrom(es, first)
    requires first > start && first - start - 1 <= |Replayed(start, base)|
    ensures Replayed(start, base + EntryRecs(es)) == Replayed(start, base)[..first - start - 1] + es
    decreases |es|
  {
    hide Replayed, EntryRecs, Resize;
    var k := |es| - 1;
    var was := Replayed(start, base)[..first - start - 1];
    if k == 0 {
      NoRecs(base);
      ResizeTo(Replayed(start, base), |was|);
      assert es[..0] == [] && was + [] == was;
    } else {
      NumberedPart(es, first, 0, k);
      assert es[0..k] == es[..k];
      FeedEntries(start, base, es[..k], first);
      ResizeAll(was + es[..k]);
    }
    FeedOne(start, base, es, was);
  }

  lemma FeedOne(start: nat, base: seq<WalRec>, es: seq<Entry>, was: seq<Entry>)
    requires es != [] && es[|es| - 1].index == start + |was| + |es|
    requires Resize(Replayed(start, base + EntryRecs(es[..|es| - 1])), |was| + |es| - 1) == was + es[..|es| - 1]
    ensures Replayed(start, base + EntryRecs(es)) == was + es
  {
    hide Replayed, EntryRecs, Resize;
    var k := |es| - 1;
    EntryRecsSnoc(es);
    ReplaySnoc(start, base + EntryRecs(es[..k]), EntryRec(es[k]));
    assert base + EntryRecs(es) == base + EntryRecs(es[..k]) + [EntryRec(es[k])];
    assert was + es == was + es[..k] + [es[k]];
  }

  lemma ResizeTo(s: seq<Entry>, n: nat)
    requires n <= |s|
    ensures Resize(s, n) == s[..n]
  {
  }

  lemma NoRecs(base: seq<WalRec>)
    ensures base + EntryRecs([]) == base
  {
  }

  lemma ResizeAll(s: seq<Entry>)
    ensures Resize(s, |s|) == s
  {
  }

  lemma ReplaySnoc(start: nat, rs: seq<WalRec>, r: WalRec)
    ensures Replayed(start, rs + [r]) == Feed(start, Replayed(start, rs), r)
  {
  }

  /** The entries of a save at or below the start leave nothing behind. */
  lemma SkipLow(start: nat, base: seq<WalRec>, es: seq<Entry>, first: nat, n: nat)
    requires NumberedFrom(es, first) && n <= |es| && first + n <= start + 1
    ensures Replayed(start, base + EntryRecs(es[..n])) == Replayed(start, base)
    ensures base + EntryRecs(es) == (base + EntryRecs(es[..n])) + EntryRecs(es[n..])
  {
    forall r | r in EntryRecs(es[..n]) ensures !(r.EntryRec? && r.e.index > start) {
      var i :| 0 <= i < n && r == EntryRec(es[i]);
    }
    FeedSkips(start, Replayed(start, base), EntryRecs(es[..n]), base);
  }

  /** A save that begins above the start. */
  lemma SaveOver(start: nat, base: seq<WalRec>, s: seq<Entry>, es: seq<Entry>, first: nat)
    requires es != [] && first > start && NumberedFrom(es, first) && first <= |s|
    requires |s| > start + 1 ==> Replayed(start, base) == Above(s, start)
    ensures Replayed(start, base + EntryRecs(es)) == Above(s[..first] + es, start)
    ensures first + |es| - 1 > start && |s[..first] + es| > start + 1
  {
    hide Replayed, EntryRecs, NumberedFrom;
    FeedEntries(start, base, es, first);
    assert Above(s[..first] + es, start) == s[..first][start + 1..] + es;
    if |s| > start + 1 { assert Above(s, start)[..first - start - 1] == s[..first][start + 1..]; }
  }

  /** A save that begins at or below it. */
  lemma SaveAcross(start: nat, base: seq<WalRec>, s: seq<Entry>, es: seq<Entry>, first: nat)
    requires es != [] && 1 <= first <= start && NumberedFrom(es, first) && first <= |s|
    ensures var s' := s[..first] + es; var e' := Replayed(start, base + EntryRecs(es));
      && (|s'| > start + 1 ==> e' == Above(s', start) && e' != [])
      && (|s'| <= start + 1 ==> e' == Replayed(start, base))
  {
    var n := if start + 1 - first <= |es| then start + 1 - first else |es|;
    SkipLow(start, base, es, first, n);
    var base', rest := base + EntryRecs(es[..n]), es[n..];
    if n == |es| {
      assert rest == [];
      NoRecs(base');
    } else {
      NumberedPart(es, first, n, |es|);
      assert es[n..] == es[n..|es|];
      FeedEntries(start, base', rest, first + n);
      hide Replayed, EntryRecs, NumberedFrom;
      assert Replayed(start, base')[..0] == [];
      assert (s[..first] + es)[start + 1..] == rest;
    }
  }

  /** What one save does to the replayed entries, when they agree with the memory above the start. */
  lemma SaveReplays(start: nat, base: seq<WalRec>, s: seq<Entry>, es: seq<Entry>, first: nat)
    requires es != [] && first >= 1 && NumberedFrom(es, first) && first <= |s|
    requires |s| > start + 1 ==> Replayed(start, base) == Above(s, start)
    ensures var s' := s[..first] + es; var e' := Replayed(start, base + EntryRecs(es));
      && (|s'| > start + 1 ==> e' == Above(s', start) && e' != [])
      && (|s'| <= start + 1 ==> e' == Replayed(start, base))
  {
    if first > start {
      SaveOver(start, base, s, es, first);
    } else {
      SaveAcross(start, base, s, es, first);
    }
  }

  /** The memory is numbered from its dummy at 0. */
  lemma {:induction false} MemoryNumbered(ops: seq<Op>)
    requires History(ops)
    ensures var s := Memory(ops).value; s != [] && s[0].index == 0 && NumberedFrom(s, 0)
  {
    if ops != [] {
      var k := |ops| - 1;
      FrontHistory(ops);
      MemoryNumbered(ops[..k]);
      if ops[k].Save? && ops[k].es != [] {
        assert Numbers(ops[k]);
        StoreIs(Memory(ops[..k]).value, ops[k].es);
      }
    }
  }

  lemma FrontHistory(ops: seq<Op>)
    requires History(ops) && ops != []
    ensures History(ops[..|ops| - 1])
  {
  }

  /** Over a dummy at 0 storage simply overwrites from the first new index. */
  lemma StoreIs(s: seq<Entry>, es: seq<Entry>)
    requires s != [] && s[0].index == 0 && NumberedFrom(s, 0)
    requires es != [] && es[0].index >= 1 && forall i :: 0 <= i < |es| ==> es[i].index == es[0].index + i
    ensures StoreAppend(s, es) == if es[0].index <= |s| then Some(s[..es[0].index] + es) else None
    ensures es[0].index <= |s| ==> NumberedFrom(s[..es[0].index] + es, 0) && (s[..es[0].index] + es)[0] == s[0]
  {
  }

  /** Replay and memory agree above the start as soon as the log reaches past it; before that replay may lag. */
  lemma {:induction false} ReplayFollows(ops: seq<Op>, start: nat)
    requires History(ops)
    ensures var s := Memory(ops).value; var e := Replayed(start, Records(ops));
      && (|s| > start + 1 ==> e == Above(s, start))
      && (e == [] <==> !SavedAbove(ops, start))
    decreases |ops|
  {
    if ops != [] {
      var k := |ops| - 1;
      var front := ops[..k];
      FrontHistory(ops);
      ReplayFollows(front, start);
      MemoryNumbered(front);
      AboveSplit(ops, start);
      LastRecords(ops);
      hide Replayed, Records, SavedAbove, StoreAppend, NumberedFrom;
      var base := Records(front);
      match ops[k] {
        case LocalSnap(sn) =>
          SnapSkips(start, base, sn);
        case Save(hs, es) =>
          SaveTail(start, base, hs, es);
          assert Numbers(ops[k]);
          if es == [] {
            NoRecs(base);
            StoreNothing(Memory(front).value);
          } else {
            SaveStep(ops, start, Memory(front).value, base, es);
          }
      }
    }
  }

  lemma LastRecords(ops: seq<Op>)
    requires ops != []
    ensures Records(ops) == Records(ops[..|ops| - 1]) + RecordsOf(ops[|ops| - 1])
  {
  }

  lemma StoreNothing(s: seq<Entry>)
    requires s != []
    ensures StoreAppend(s, []) == Some(s)
  {
  }

  lemma SnapSkips(start: nat, base: seq<WalRec>, s: Snapshot)
    ensures Replayed(start, base + RecordsOf(LocalSnap(s))) == Replayed(start, base)
  {
  }

  lemma SaveTail(start: nat, base: seq<WalRec>, hs: HardState, es: seq<Entry>)
    ensures Replayed(start, base + RecordsOf(Save(hs, es))) == Replayed(start, base + EntryRecs(es))
  {
    var tail := if hs == NO_STATE then [] else [StateRec(hs)];
    var mid := base + EntryRecs(es);
    FeedSkips(start, Replayed(start, mid), tail, mid);
    assert base + RecordsOf(Save(hs, es)) == mid + tail;
  }

  lemma SaveStep(ops: seq<Op>, start: nat, s: seq<Entry>, base: seq<WalRec>, es: seq<Entry>)
    requires History(ops) && ops != [] && ops[|ops| - 1].Save? && ops[|ops| - 1].es == es != []
    requires Numbers(ops[|ops| - 1])
    requires Memory(ops[..|ops| - 1]) == Some(s) && s != [] && s[0].index == 0 && NumberedFrom(s, 0)
    requires |s| > start + 1 ==> Replayed(start, base) == Above(s, start)
    ensures var s' := Memory(ops).value; var e' := Replayed(start, base + EntryRecs(es));
      && (|s'| > start + 1 ==> e' == Above(s', start))
      && (es[|es| - 1].index <= start ==> e' == Replayed(start, base))
      && (es[|es| - 1].index > start ==> e' != [])
  {
    StoreIs(s, es);
    assert es[|es| - 1].index == es[0].index + |es| - 1;
    SaveReplays(start, base, s, es, es[0].index);
  }

  lemma AboveSplit(ops: seq<Op>, start: nat)
    requires ops != []
    ensures var k := |ops| - 1; var op := ops[k];
      SavedAbove(ops, start) <==>
        SavedAbove(ops[..k], start) || (op.Save? && op.es != [] && op.es[|op.es| - 1].index > start)
  {
  }

  /**
   Recovery equals memory, exactly when the recovered log reaches past the snapshot or nothing above it was ever
   saved: entries that a later save cut off at or below the snapshot are dropped only by a new entry above it.
   */
  lemma RecoveryIff(ops: seq<Op>, start: nat)
    requires History(ops)
    ensures var s := Memory(ops).value;
      Replayed(start, Records(ops)) == Above(s, start) <==> (|s| > start + 1 || !SavedAbove(ops, start))
  {
    ReplayFollows(ops, start);
  }

  /**
   The other case is real: a save cuts the log back to an entry of a later term, a snapshot is made there, and a restart
   from that snapshot brings back, above it, an entry of the earlier term that had been overwritten away.
   */
  lemma StaleEntryReturns()
    ensures var e1, e2, f1 := Entry(EntryNormal, 1, 1, []), Entry(EntryNormal, 1, 2, []), Entry(EntryNormal, 2, 1, []);
      var snap := Snapshot(1, 2);
      var ops := [Save(NO_STATE, [e1, e2]), Save(NO_STATE, [f1]), LocalSnap(snap)];
      && History(ops) && Memory(ops) == Some(FRESH + [f1]) && Replayed(snap.index, Records(ops)) == [e2]
      && !Stops(snap, [CREATED] + Records(ops))
  {
    var e1, e2, f1 := Entry(EntryNormal, 1, 1, []), Entry(EntryNormal, 1, 2, []), Entry(EntryNormal, 2, 1, []);
    var snap := Snapshot(1, 2);
    StaleMemory(e1, e2, f1, snap);
    StaleRecords(e1, e2, f1, snap);
    StaleReplay(e1, e2, f1, snap);
    var ops := [Save(NO_STATE, [e1, e2]), Save(NO_STATE, [f1]), LocalSnap(snap)];
    StopsIff(ops, snap);
    assert forall op :: op in ops ==> !Conflicts(op, snap);
  }

  lemma StaleRecords(e1: Entry, e2: Entry, f1: Entry, snap: Snapshot)
    ensures Records([Save(NO_STATE, [e1, e2]), Save(NO_STATE, [f1]), LocalSnap(snap)]) ==
      [EntryRec(e1), EntryRec(e2), EntryRec(f1), SnapRec(snap)]
  {
    hide Records;
    var ops1 := [Save(NO_STATE, [e1, e2])];
    var ops2 := ops1 + [Save(NO_STATE, [f1])];
    var ops := ops2 + [LocalSnap(snap)];
    assert ops1[..0] == [] && ops2[..1] == ops1 && ops[..2] == ops2;
    LastRecords(ops1);
    LastRecords(ops2);
    LastRecords(ops);
    NoRecords();
    assert ops == [Save(NO_STATE, [e1, e2]), Save(NO_STATE, [f1]), LocalSnap(snap)];
    assert EntryRecs([e1, e2]) == [EntryRec(e1), EntryRec(e2)] && EntryRecs([f1]) == [EntryRec(f1)];
  }

  /** What WAL::create writes into a new log. */
  const CREATED := SnapRec(Snapshot(0, 0))

  predicate Conflicts(op: Op, start: Snapshot) { op.LocalSnap? && op.s.index == start.index && op.s.term != start.term }

  lemma {:induction false} RefusedIn(ops: seq<Op>, start: Snapshot)
    ensures (exists r :: r in Records(ops) && Refused(start, r)) <==> exists op :: op in ops && Conflicts(op, start)
  {
    if ops != [] {
      var k := |ops| - 1;
      RefusedIn(ops[..k], start);
      LastRecords(ops);
      RefusedOne(ops[k], start);
      assert ops == ops[..k] + [ops[k]];
      hide Records, RecordsOf, Refused, Conflicts;
      assert forall r :: r in Records(ops) <==> r in Records(ops[..k]) || r in RecordsOf(ops[k]);
      assert forall op :: op in ops <==> op in ops[..k] || op == ops[k];
    }
  }

  lemma RefusedOne(op: Op, start: Snapshot)
    ensures (exists r :: r in RecordsOf(op) && Refused(start, r)) <==> Conflicts(op, start)
  {
    if op.LocalSnap? { assert RecordsOf(op)[0] in RecordsOf(op); }
  }

  /**
   Replay of the server's own log stops the process if and only if it holds another snapshot for the start's index.
   */
  lemma StopsIff(ops: seq<Op>, start: Snapshot)
    ensures Stops(start, [CREATED] + Records(ops)) <==>
      (start.index == 0 && start.term != 0) || exists op :: op in ops && Conflicts(op, start)
  {
    hide Records, Conflicts;
    RefusedIn(ops, start);
    var rs := [CREATED] + Records(ops);
    assert CREATED in rs && CREATED.SnapRec?;
    assert forall r :: r in rs <==> r == CREATED || r in Records(ops);
  }

  lemma NoRecords()
    ensures Records([]) == []
  {
  }

  lemma StaleMemory(e1: Entry, e2: Entry, f1: Entry, snap: Snapshot)
    requires e1.index == 1 && e2.index == 2 && f1.index == 1
    ensures Memory([Save(NO_STATE, [e1, e2]), Save(NO_STATE, [f1]), LocalSnap(snap)]) == Some(FRESH + [f1])
  {
    var ops1 := [Save(NO_STATE, [e1, e2])];
    var ops2 := ops1 + [Save(NO_STATE, [f1])];
    var ops := ops2 + [LocalSnap(snap)];
    assert ops1[..0] == [] && ops2[..1] == ops1 && ops[..2] == ops2;
    assert Memory([]) == Some(FRESH);
    StoreIs(FRESH, [e1, e2]);
    assert FRESH[..1] == FRESH;
    assert Memory(ops1) == Some(FRESH + [e1, e2]);
    StoreIs(FRESH + [e1, e2], [f1]);
    assert (FRESH + [e1, e2])[..1] == FRESH;
    assert Memory(ops2) == Some(FRESH + [f1]);
    assert ops == [Save(NO_STATE, [e1, e2]), Save(NO_STATE, [f1]), LocalSnap(snap)];
  }

  lemma StaleReplay(e1: Entry, e2: Entry, f1: Entry, snap: Snapshot)
    requires e1.index == 1 && e2.index == 2 && f1.index == 1
    ensures Replayed(1, [EntryRec(e1), EntryRec(e2), EntryRec(f1), SnapRec(snap)]) == [e2]
  {
    var rs := [EntryRec(e1), EntryRec(e2), EntryRec(f1), SnapRec(snap)];
    assert rs[..3] == [EntryRec(e1), EntryRec(e2), EntryRec(f1)] && rs[..3][..2] == [EntryRec(e1), EntryRec(e2)];
    assert rs[..3][..2][..1] == [EntryRec(e1)] && rs[..3][..2][..1][..0] == [];
    assert Replayed(1, [EntryRec(e1)]) == [];
    assert Replayed(1, [EntryRec(e1), EntryRec(e2)]) == Resize([], 0) + [e2];
  }

  /** The last hard state that was saved comes back. */
  lemma {:induction false} StateComesBack(ops: seq<Op>)
    ensures LastState(Records(ops)) == LastSaved(ops)
  {
    if ops != [] {
      var k := |ops| - 1;
      StateComesBack(ops[..k]);
      LastRecords(ops);
      StateAfter(Records(ops[..k]), ops[k]);
    }
  }

  lemma StateSnoc(rs: seq<WalRec>, r: WalRec)
    ensures LastState(rs + [r]) == if r.StateRec? then r.hs else LastState(rs)
  {
  }

  lemma StateAfter(base: seq<WalRec>, op: Op)
    ensures LastState(base + RecordsOf(op)) == if op.Save? && op.hs != NO_STATE then op.hs else LastState(base)
  {
    match op {
      case LocalSnap(s) => StateSnoc(base, SnapRec(s));
      case Save(hs, es) =>
        EntriesNoState(base, EntryRecs(es));
        var mid := base + EntryRecs(es);
        StateSnoc(mid, StateRec(hs));
        hide LastState;
        if hs == NO_STATE {
          assert base + RecordsOf(op) == mid;
        } else {
          assert base + RecordsOf(op) == mid + [StateRec(hs)];
        }
    }
  }

  lemma {:induction false} EntriesNoState(base: seq<WalRec>, rs: seq<WalRec>)
    requires forall r :: r in rs ==> r.EntryRec?
    ensures LastState(base + rs) == LastState(base)
  {
    if rs == [] {
      assert base + rs == base;
    } else {
      var k := |rs| - 1;
      EntriesNoState(base, rs[..k]);
      assert (base + rs)[..|base| + k] == base + rs[..k];
      assert (base + rs)[|base| + k] == rs[k] && rs[k] in rs;
    }
  }

  function LastSaved(ops: seq<Op>): HardState {
    if ops == [] then NO_STATE
    else if ops[|ops| - 1].Save? && ops[|ops| - 1].hs != NO_STATE then ops[|ops| - 1].hs
    else LastSaved(ops[..|ops| - 1])
  }

  // --------------------------------------------------------------------------
  // Down to bytes

  function Coded(enc: WalRec -> WalFile.Record, rs: seq<WalRec>): (r: seq<WalFile.Record>)
    ensures |r| == |rs| && forall i :: 0 <= i < |rs| ==> r[i] == enc(rs[i])
  {
    seq(|rs|, i requires 0 <= i < |rs| => enc(rs[i]))
  }

  function Decoded(dec: WalFile.Record -> WalRec, rs: seq<WalFile.Record>): (r: seq<WalRec>)
    ensures |r| == |rs| && forall i :: 0 <= i < |rs| ==> r[i] == dec(rs[i])
  {
    seq(|rs|, i requires 0 <= i < |rs| => dec(rs[i]))
  }

  /** Written through any faithful serializer and read back from the file, a history gives its own records. */
  lemma BytesComeBack(sum: WalFile.Checksum, enc: WalRec -> WalFile.Record, dec: WalFile.Record -> WalRec, ops: seq<Op>)
    requires forall r :: dec(enc(r)) == r
    requires forall i :: 0 <= i < |Records(ops)| ==> WalFile.Fits(enc(Records(ops)[i]))
    ensures Decoded(dec, WalFile.Parse(sum, WalFile.Stream(sum, Coded(enc, Records(ops)))).0) == Records(ops)
  {
    var rs := Coded(enc, Records(ops));
    WalFile.RoundTrip(sum, rs);
    hide Records, WalFile.Parse, WalFile.Stream;
    assert Decoded(dec, rs) == Records(ops);
  }
}
