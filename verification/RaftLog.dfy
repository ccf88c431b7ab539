/** raft_log.cpp over the two levels, proved to behave like the one log of RaftLogSpec. */
module RaftLog {
  import opened Proto
  import opened RaftLogSpec
  import opened TwoLevel
  import opened EntrySizes
  import opened Storage
  import U = Unstable

  class RaftLog {
    const storage: MemoryStorage
    const unstable: U.Unstable
    var committed: nat
    var applied: nat
    const maxNextSize: nat

    function Levels(): Levels
      reads this, storage, unstable
    {
      TwoLevel.Levels(storage.entries, storage.snapshot, unstable.offset, unstable.entries, unstable.snapshot)
    }

    ghost predicate Valid()
      reads this, storage, unstable
    {
      Layered(Levels()) && Base(Levels()) <= committed <= Last(Levels())
    }

    /** The one log that readers see. */
    function State(): RLog
      requires Valid()
      reads this, storage, unstable
    {
      View(Levels(), committed, applied)
    }

    constructor (storage: MemoryStorage, maxNextSize: nat)
      requires storage.Valid()
      ensures Valid() && fresh(unstable) && this.storage == storage && this.maxNextSize == maxNextSize
      ensures State() == RLog(storage.entries[0].index, storage.entries[0].term, storage.entries[1..], storage.snapshot,
                              storage.entries[0].index, storage.entries[0].index)
    {
      this.storage := storage;
      this.maxNextSize := maxNextSize;
      var first := storage.FirstIndex();
      var last := storage.LastIndex();
      var u := new U.Unstable(last + 1);
      unstable := u;
      applied := first - 1;
      committed := first - 1;
      new;
      assert Tail(Levels()) == storage.entries[1..];
    }

    method FirstIndex() returns (i: nat)
      requires Valid()
      ensures i == State().FirstIndex()
    {
      var m := unstable.MaybeFirstIndex();
      if m.Some? { return m.value; }
      i := storage.FirstIndex();
    }

    method LastIndex() returns (i: nat)
      requires Valid()
      ensures i == State().LastIndex() == Last(Levels())
    {
      LastIs(Levels(), committed, applied);
      var m := unstable.MaybeLastIndex();
      if m.Some? { return m.value; }
      i := storage.LastIndex();
    }

    /** Never an error: outside the log the answer is 0. */
    method Term(index: nat) returns (st: Status, t: nat)
      requires Valid()
      ensures st == Ok && t == State().Term(index)
    {
      hide Layered, View, Tail, Last, Base;
      TermIs(Levels(), committed, applied, index);
      StorageValid(Levels());
      var first := FirstIndex();
      var last := LastIndex();
      if index < first - 1 || index > last { return Ok, 0; }
      var m := unstable.MaybeTerm(index);
      if m.Some? { return Ok, m.value; }
      st, t := storage.Term(index);
    }

    method MatchTerm(index: nat, term: nat) returns (b: bool)
      requires Valid()
      ensures b == State().MatchTerm(index, term)
    {
      var st, t := Term(index);
      b := st == Ok && t == term;
    }

    method LastTerm() returns (t: nat)
      requires Valid()
      ensures t == State().LastTerm()
    {
      var last := LastIndex();
      var st;
      st, t := Term(last);
    }

    method IsUpToDate(lasti: nat, term: nat) returns (b: bool)
      requires Valid()
      ensures b == State().IsUpToDate(lasti, term)
    {
      var lt := LastTerm();
      var last := LastIndex();
      b := term > lt || (term == lt && lasti >= last);
    }

    method FindConflict(es: seq<Entry>) returns (ci: nat)
      requires Valid()
      ensures ci == RaftLogSpec.FindConflict(State(), es)
    {
      var i := 0;
      while i < |es|
        invariant 0 <= i <= |es|
        invariant RaftLogSpec.FindConflict(State(), es) == RaftLogSpec.FindConflict(State(), es[i..])
      {
        var b := MatchTerm(es[i].index, es[i].term);
        if !b { return es[i].index; }
        i := i + 1;
      }
      ci := 0;
    }

    method CommitTo(to: nat) returns (died: bool)
      requires Valid()
      modifies this`committed
      ensures Valid()
      ensures died <==> RaftLogSpec.CommitTo(old(State()), to).None?
      ensures State() == if died then old(State()) else RaftLogSpec.CommitTo(old(State()), to).value
    {
      died := false;
      if committed < to {
        var last := LastIndex();
        if last < to { return true; }
        committed := to;
      }
    }

    method Append(es: seq<Entry>) returns (died: bool)
      requires Valid() && (es != [] ==> NumberedFrom(es, es[0].index) && es[0].index >= 1)
      modifies unstable`entries, unstable`offset
      ensures Valid()
      ensures died <==> RaftLogSpec.Append(old(State()), es).None?
      ensures State() == if died then old(State()) else RaftLogSpec.Append(old(State()), es).value
    {
      hide Layered, Tail, NumberedFrom, TwoLevel.TruncateAndAppend;
      died := false;
      if es == [] { return; }
      var after := es[0].index - 1;
      if after < committed { return true; }
      ghost var l := Levels();
      AppendView(l, es, committed, applied);
      died := unstable.TruncateAndAppend(es);
      if !died {
        assert Levels() == l.(off := unstable.offset, us := unstable.entries);
        LastIs(l, committed, applied);
        LastIs(Levels(), committed, applied);
      }
    }

    method MaybeAppend(index: nat, logTerm: nat, toCommit: nat, es: seq<Entry>)
      returns (ok: bool, last: nat, died: bool)
      requires Valid() && NumberedFrom(es, index + 1)
      modifies this`committed, unstable`entries, unstable`offset
      ensures Valid()
      ensures match RaftLogSpec.MaybeAppend(old(State()), index, logTerm, toCommit, es)
        case Rejected => !ok && !died && State() == old(State()) && last == 0
        case Accepted(l, newLast) => ok && !died && State() == l && last == newLast
        case Fatal => died
    {
      hide Layered, Tail, RaftLogSpec.Append, RaftLogSpec.CommitTo, RaftLogSpec.FindConflict;
      ok, last, died := false, 0, false;
      ghost var v := State();
      var b := MatchTerm(index, logTerm);
      if !b { return; }
      var lastNew := index + |es|;
      var ci := FindConflict(es);
      ConflictRange(State(), es, index + 1);
      if ci == 0 {
      } else if ci <= committed {
        assert AppendFrom(v, index, es) == None;
        died := true;
        return;
      } else {
        var n := ci - (index + 1);
        var rest := es[n..];
        assert rest == es[ci - (index + 1)..] && rest[0] == es[n];
        assert AppendFrom(v, index, es) == RaftLogSpec.Append(v, rest);
        died := Append(rest);
        if died { return; }
      }
      assert AppendFrom(v, index, es) == Some(State());
      died := CommitTo(Min(toCommit, lastNew));
      if died { return; }
      ok, last := true, lastNew;
    }

    method MaybeCommit(maxIndex: nat, term: nat) returns (moved: bool, died: bool)
      requires Valid()
      modifies this`committed
      ensures Valid()
      ensures died <==> RaftLogSpec.MaybeCommit(old(State()), maxIndex, term).None?
      ensures !died ==> State() == RaftLogSpec.MaybeCommit(old(State()), maxIndex, term).value
      ensures !died ==> moved == WouldCommit(old(State()), maxIndex, term)
    {
      moved, died := false, false;
      if maxIndex > committed {
        var st, t := Term(maxIndex);
        if t == term {
          died := CommitTo(maxIndex);
          moved := true;
        }
      }
    }

    method Restore(s: Snapshot)
      requires Valid() && s.index >= storage.entries[0].index
      modifies this`committed, unstable
      ensures Valid() && State() == RaftLogSpec.Restore(old(State()), s)
      ensures unstable.entries == [] && unstable.snapshot == Some(s)
    {
      committed := s.index;
      unstable.Restore(s);
    }

    method AppliedTo(index: nat)
      requires Valid()
      modifies this`applied
      ensures Valid() && State() == old(State()).(applied := if index == 0 then old(applied) else index)
    {
      if index == 0 { return; }
      applied := index;
    }

    /** The snapshot to send: the pending one before the stored one. */
    method GetSnapshot() returns (s: Snapshot)
      requires Valid()
      ensures s == State().snap
    {
      if unstable.snapshot.Some? { return unstable.snapshot.value; }
      s := storage.snapshot;
    }

    /** [low, high) read from both levels is the size-limited slice of the one log. */
    method Slice(low: nat, high: nat, maxSize: nat) returns (st: Status, es: seq<Entry>)
      requires Valid() && low <= high
      ensures st == Died <==> low >= State().FirstIndex() && high > State().LastIndex() + 1
      ensures high <= State().LastIndex() + 1 ==>
        match RaftLogSpec.Slice(State(), low, high, maxSize)
        case None => st == Compacted
        case Some(want) => st == Ok && es == want
    {
      hide Layered, Tail;
      es := [];
      var first := FirstIndex();
      var last := LastIndex();
      if low < first { return Compacted, []; }
      if high > last + 1 { return Died, []; }
      if low == high { return Ok, []; }
      st, es := ReadBoth(low, high, maxSize, State().ents[low - first..high - first]);
    }

    /** What slice() takes from storage, already limited there. */
    method ReadStored(low: nat, high: nat, maxSize: nat, ghost whole: seq<Entry>) returns (st: Status, es: seq<Entry>)
      requires Valid() && Base(Levels()) < low < high <= Last(Levels()) + 1 && low < unstable.offset
      requires |State().ents| == Last(Levels()) - Base(Levels())
      requires whole == State().ents[low - (Base(Levels()) + 1)..high - (Base(Levels()) + 1)]
      ensures st == Ok && es == LimitSize(whole[..Min(high, unstable.offset) - low], maxSize)
    {
      hide View, Layered, Tail, LimitSize, Last, Base, NumberedFrom;
      StorageValid(Levels());
      StoredPart(Levels(), low, high, committed, applied);
      st, es := storage.Entries(low, Min(high, unstable.offset), maxSize);
    }

    /** The reads of slice() once its bounds are checked. */
    method ReadBoth(low: nat, high: nat, maxSize: nat, ghost whole: seq<Entry>) returns (st: Status, es: seq<Entry>)
      requires Valid() && Base(Levels()) < low < high <= Last(Levels()) + 1
      requires |State().ents| == Last(Levels()) - Base(Levels())
      requires whole == State().ents[low - (Base(Levels()) + 1)..high - (Base(Levels()) + 1)]
      ensures st == Ok && es == LimitSize(whole, maxSize)
    {
      hide View, Layered, Tail, LimitSize, Last, Base, NumberedFrom;
      es := [];
      ghost var l := Levels();
      var mid := Min(high, unstable.offset);
      if low < unstable.offset {
        st, es := ReadStored(low, high, maxSize, whole);
        LimitFront(whole, mid - low, maxSize);
        if |es| < mid - low { return; }
      }
      if high > unstable.offset {
        UnstablePart(l, low, high, committed, applied);
        var died, more := unstable.Slice(Max(low, unstable.offset), high);
        es := es + more;
      }
      assert es == whole;
      es := EntryLimitSize(maxSize, es);
      st := Ok;
    }

    method Entries(index: nat, maxSize: nat) returns (st: Status, es: seq<Entry>)
      requires Valid()
      ensures match RaftLogSpec.Entries(State(), index, maxSize)
        case None => st == Compacted
        case Some(want) => st == Ok && es == want
    {
      var last := LastIndex();
      if index > last { return Ok, []; }
      st, es := Slice(index, last + 1, maxSize);
    }

    /** The next page of committed entries for the application. */
    method NextEntries() returns (died: bool, es: seq<Entry>)
      requires Valid()
      ensures !died
      ensures es == NextPage(State(), maxNextSize)
    {
      hide Layered, Tail, LimitSize, Last, NumberedFrom;
      died, es := false, [];
      LastIs(Levels(), committed, applied);
      ghost var v := State();
      var first := FirstIndex();
      var off := Max(applied + 1, first);
      if committed + 1 > off {
        var st;
        st, es := Slice(off, committed + 1, maxNextSize);
        died := st != Ok;
      }
    }

    method HasNextEntries() returns (b: bool)
      requires Valid()
      ensures b <==> NextPage(State(), maxNextSize) != []
    {
      var first := FirstIndex();
      LastIs(Levels(), committed, applied);
      b := committed + 1 > Max(applied + 1, first);
    }
  }

  /** Committed entries above the applied cursor, cut to a page. */
  function NextPage(l: RLog, limit: nat): seq<Entry>
    requires l.committed <= l.LastIndex()
  {
    var off := Max(l.applied + 1, l.FirstIndex());
    if l.committed + 1 > off then LimitSize(l.ents[off - l.FirstIndex()..l.committed + 1 - l.FirstIndex()], limit)
      else []
  }

  /** Where the term of an index is found: a level that has it, or the snapshot in front. */
  lemma TermIs(l: Levels, c: nat, a: nat, index: nat)
    requires Layered(l)
    ensures var v := View(l, c, a); v.FirstIndex() == Base(l) + 1 && v.LastIndex() == Last(l)
    ensures l.us == [] && l.usnap.Some? ==> l.usnap.value.index < l.off
    ensures index < Base(l) || index > Last(l) ==> View(l, c, a).Term(index) == 0
    ensures Base(l) <= index <= Last(l) ==>
      var t := View(l, c, a).Term(index);
      && (l.off <= index < l.off + |l.us| ==> t == l.us[index - l.off].term)
      && (index < l.off && l.usnap.Some? && l.usnap.value.index == index ==> t == l.usnap.value.term)
      && (!(l.off <= index < l.off + |l.us|) && !(index < l.off && l.usnap.Some? && l.usnap.value.index == index) ==>
            l.s[0].index <= index < l.s[0].index + |l.s| && t == l.s[index - l.s[0].index].term)
  {
  }

  lemma StorageValid(l: Levels)
    requires Layered(l)
    ensures l.s != [] && NumberedFrom(l.s, l.s[0].index)
  {
  }

  /** Limiting a front part: either it is cut, and then it is the limited whole, or it is left alone. */
  lemma LimitFront(whole: seq<Entry>, n: nat, limit: nat)
    requires n <= |whole|
    ensures |LimitSize(whole[..n], limit)| < n ==> LimitSize(whole[..n], limit) == LimitSize(whole, limit)
    ensures |LimitSize(whole[..n], limit)| >= n ==> LimitSize(whole[..n], limit) == whole[..n]
  {
    LimitIsPrefix(whole[..n], limit);
    assert whole == whole[..n] + whole[n..];
    if LimitSize(whole[..n], limit) != whole[..n] { LimitPart(whole[..n], whole[n..], limit); }
  }

  lemma LimitIsPrefix(es: seq<Entry>, limit: nat)
    ensures LimitSize(es, limit) <= es && |LimitSize(es, limit)| <= |es|
    ensures |LimitSize(es, limit)| == |es| ==> LimitSize(es, limit) == es
  {
  }

  lemma {:induction false} ConflictRange(l: RLog, es: seq<Entry>, first: nat)
    requires NumberedFrom(es, first) && first >= 1
    ensures var ci := FindConflict(l, es); ci == 0 || first <= ci < first + |es|
    decreases |es|
  {
    if es != [] {
      assert forall i :: 0 <= i < |es| - 1 ==> es[1..][i] == es[i + 1];
      ConflictRange(l, es[1..], first + 1);
    }
  }

  /** Entry i of a slice comes from the level that holds index i. */
  lemma SliceAt(l: Levels, low: nat, high: nat, c: nat, a: nat, i: nat)
    requires Layered(l) && Base(l) < low <= i < high <= Last(l) + 1
    ensures |View(l, c, a).ents| == Last(l) - Base(l) && Has(l, i)
    ensures View(l, c, a).ents[low - (Base(l) + 1)..high - (Base(l) + 1)][i - low] == AtLevel(l, i)
  {
  }

  /** The part of a slice that storage holds ... */
  lemma StoredPart(l: Levels, low: nat, high: nat, c: nat, a: nat)
    requires Layered(l) && Base(l) < low < high <= Last(l) + 1 && low < l.off
    ensures |View(l, c, a).ents| == Last(l) - Base(l)
    ensures var mid := Min(high, l.off); l.s[0].index < low <= mid <= l.s[0].index + |l.s|
    ensures var mid := Min(high, l.off);
      View(l, c, a).ents[low - (Base(l) + 1)..high - (Base(l) + 1)][..mid - low] ==
        l.s[low - l.s[0].index..mid - l.s[0].index]
  {
    hide Layered, View, Tail, Last, Base;
    var mid := Min(high, l.off);
    BaseBelow(l);
    SliceAt(l, low, high, c, a, low);
    SliceAt(l, low, high, c, a, mid - 1);
    var whole := View(l, c, a).ents[low - (Base(l) + 1)..high - (Base(l) + 1)];
    var left, right := whole[..mid - low], l.s[low - l.s[0].index..mid - l.s[0].index];
    forall k | 0 <= k < |left| ensures left[k] == right[k] {
      SliceAt(l, low, high, c, a, low + k);
    }
    assert left == right;
  }

  lemma BaseBelow(l: Levels)
    requires Layered(l)
    ensures l.s != [] && l.s[0].index <= Base(l)
  {
  }

  /** ... and the part that is still unstable. */
  lemma UnstablePart(l: Levels, low: nat, high: nat, c: nat, a: nat)
    requires Layered(l) && Base(l) < low < high <= Last(l) + 1 && high > l.off
    ensures |View(l, c, a).ents| == Last(l) - Base(l) && high - l.off <= |l.us|
    ensures var from := Max(low, l.off);
      View(l, c, a).ents[low - (Base(l) + 1)..high - (Base(l) + 1)][from - low..] == l.us[from - l.off..high - l.off]
  {
    hide Layered, View, Tail, Last, Base;
    var from := Max(low, l.off);
    SliceAt(l, low, high, c, a, high - 1);
    var whole := View(l, c, a).ents[low - (Base(l) + 1)..high - (Base(l) + 1)];
    var left, right := whole[from - low..], l.us[from - l.off..high - l.off];
    forall k | 0 <= k < |left| ensures left[k] == right[k] {
      SliceAt(l, low, high, c, a, from + k);
    }
    assert left == right;
  }
}
