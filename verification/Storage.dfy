/**
 storage.cpp: the entries and the snapshot that have been saved, behind a dummy entry for the last compacted index.
 */
module Storage {
  import opened Proto
  import opened RaftLogSpec
  import opened TwoLevel
  import opened EntrySizes

  datatype Status = Ok | Compacted | Unavailable | SnapOutOfDate | Died

  datatype HardState = HardState(term: nat, vote: Id, commit: nat)

  class MemoryStorage {
    var entries: seq<Entry>
    var snapshot: Snapshot
    var hardState: HardState

    ghost predicate Valid()
      reads this
    {
      entries != [] && NumberedFrom(entries, entries[0].index)
    }

    constructor ()
      ensures Valid() && entries == [Entry(EntryNormal, 0, 0, [])] && snapshot == Snapshot(0, 0)
      ensures hardState == HardState(0, 0, 0)
    {
      entries := [Entry(EntryNormal, 0, 0, [])];
      snapshot := Snapshot(0, 0);
      hardState := HardState(0, 0, 0);
    }

    method FirstIndex() returns (i: nat)
      requires Valid()
      ensures i == entries[0].index + 1
    {
      i := entries[0].index + 1;
    }

    method LastIndex() returns (i: nat)
      requires Valid()
      ensures i == entries[0].index + |entries| - 1
    {
      i := entries[0].index + |entries| - 1;
    }

    method Term(i: nat) returns (st: Status, t: nat)
      requires Valid()
      ensures st == Ok <==> entries[0].index <= i < entries[0].index + |entries|
      ensures st == Ok ==> t == entries[i - entries[0].index].term
      ensures st == Compacted <==> i < entries[0].index
    {
      t := 0;
      var offset := entries[0].index;
      if i < offset { return Compacted, 0; }
      if i - offset >= |entries| { return Unavailable, 0; }
      return Ok, entries[i - offset].term;
    }

    /** [low, high), cut to maxSize. */
    method Entries(low: nat, high: nat, maxSize: nat) returns (st: Status, es: seq<Entry>)
      requires Valid() && low < high
      ensures st == Compacted <==> low <= entries[0].index
      ensures st == Died <==> low > entries[0].index && high > entries[0].index + |entries|
      ensures st == Ok <==> entries[0].index < low && high <= entries[0].index + |entries|
      ensures st == Ok ==> es == LimitSize(entries[low - entries[0].index..high - entries[0].index], maxSize)
    {
      es := [];
      var offset := entries[0].index;
      if low <= offset { return Compacted, []; }
      if high > offset + |entries| { return Died, []; }
      if |entries| == 1 { return Unavailable, []; }
      var i := low - offset;
      while i < high - offset
        invariant low - offset <= i <= high - offset
        invariant es == entries[low - offset..i]
      {
        es := es + [entries[i]];
        i := i + 1;
      }
      es := EntryLimitSize(maxSize, es);
      st := Ok;
    }

    method Compact(j: nat) returns (st: Status)
      requires Valid()
      modifies this`entries
      ensures Valid()
      ensures st == Compacted <==> j <= old(entries[0].index)
      ensures st == Died <==> j > old(entries[0].index + |entries| - 1)
      ensures st == Ok <==> old(entries[0].index < j < entries[0].index + |entries|)
      ensures entries == if st == Ok then StoreCompact(old(entries), j) else old(entries)
    {
      var offset := entries[0].index;
      if j <= offset { return Compacted; }
      if j > offset + |entries| - 1 { return Died; }
      var i := j - offset;
      entries := entries[0 := entries[0].(index := entries[i].index, term := entries[i].term)];
      entries := entries[..1] + entries[i + 1..];
      st := Ok;
    }

    method Append(es: seq<Entry>) returns (st: Status)
      requires Valid() && (es != [] ==> NumberedFrom(es, es[0].index))
      modifies this`entries
      ensures Valid()
      ensures st == Ok || st == Died
      ensures st == Died <==> StoreAppend(old(entries), es).None?
      ensures entries == if st == Ok then StoreAppend(old(entries), es).value else old(entries)
    {
      hide NumberedFrom;
      if es == [] { return Ok; }
      StoredNumbered(entries, es);
      var first := entries[0].index + 1;
      var last := es[0].index + |es| - 1;
      if last < first { return Ok; }
      var rest := es;
      ghost var n := if first > es[0].index then first - es[0].index else 0;
      if first > es[0].index { rest := es[first - es[0].index..]; }
      assert rest == es[n..] && rest[0] == es[n];
      var offset := rest[0].index - entries[0].index;
      if |entries| > offset {
        entries := entries[..offset];
        entries := entries + rest;
      } else if |entries| == offset {
        assert entries[..offset] == entries;
        entries := entries + rest;
      } else {
        return Died;
      }
      assert StoreAppend(old(entries), es) == Some(entries);
      st := Ok;
    }

    method CreateSnapshot(index: nat) returns (st: Status)
      requires Valid() && index >= entries[0].index
      modifies this`snapshot
      ensures st == SnapOutOfDate <==> index <= old(snapshot.index)
      ensures st == Died <==> index > old(snapshot.index) && index > entries[0].index + |entries| - 1
      ensures st == Ok || st == SnapOutOfDate || st == Died
      ensures snapshot == if st == Ok then Snapshot(index, entries[index - entries[0].index].term) else old(snapshot)
    {
      if index <= snapshot.index { return SnapOutOfDate; }
      if index > entries[0].index + |entries| - 1 { return Died; }
      snapshot := Snapshot(index, entries[index - entries[0].index].term);
      st := Ok;
    }

    method ApplySnapshot(s: Snapshot) returns (st: Status)
      requires Valid()
      modifies this`entries, this`snapshot
      ensures Valid()
      ensures st == if s.index <= old(snapshot.index) then SnapOutOfDate else Ok
      ensures st == Ok ==> snapshot == s && entries == [Entry(EntryNormal, s.term, s.index, [])]
      ensures st != Ok ==> snapshot == old(snapshot) && entries == old(entries)
    {
      if snapshot.index >= s.index { return SnapOutOfDate; }
      snapshot := s;
      entries := entries[..1];
      entries := entries[0 := Entry(EntryNormal, s.term, s.index, [])];
      st := Ok;
    }
  }
}

/** unstable.cpp: the tail and the snapshot that have not been saved yet. */
module Unstable {
  import opened Proto
  import opened RaftLogSpec
  import opened TwoLevel

  class Unstable {
    var snapshot: Option<Snapshot>
    var entries: seq<Entry>
    var offset: nat

    constructor (offset: nat)
      ensures this.offset == offset && entries == [] && snapshot == None
    {
      this.offset := offset;
      entries := [];
      snapshot := None;
    }

    method MaybeFirstIndex() returns (i: Option<nat>)
      ensures i == match snapshot case Some(s) => Some(s.index + 1) case None => None
    {
      if snapshot.Some? { return Some(snapshot.value.index + 1); }
      i := None;
    }

    method MaybeLastIndex() returns (i: Option<nat>)
      ensures entries != [] ==> i == Some(offset + |entries| - 1)
      ensures entries == [] && snapshot.Some? ==> i == Some(snapshot.value.index)
      ensures entries == [] && snapshot.None? ==> i == None
    {
      if entries != [] { return Some(offset + |entries| - 1); }
      if snapshot.Some? { return Some(snapshot.value.index); }
      i := None;
    }

    /** The term of an unstable entry or of the pending snapshot; None for everything else. */
    method MaybeTerm(index: nat) returns (t: Option<nat>)
      requires entries == [] && snapshot.Some? ==> snapshot.value.index < offset
      ensures offset <= index < offset + |entries| ==> t == Some(entries[index - offset].term)
      ensures index < offset && snapshot.Some? && snapshot.value.index == index ==> t == Some(snapshot.value.term)
      ensures
        && !(offset <= index < offset + |entries|)
        && !(index < offset && snapshot.Some? && snapshot.value.index == index)
        ==> t == None
    {
      t := None;
      if index < offset {
        if snapshot.None? { return; }
        if snapshot.value.index == index { t := Some(snapshot.value.term); }
        return;
      }
      var last := MaybeLastIndex();
      if last.None? || index > last.value { return; }
      t := Some(entries[index - offset].term);
    }

    method StableTo(index: nat, term: nat)
      requires entries == [] && snapshot.Some? ==> snapshot.value.index < offset
      modifies this`entries, this`offset
      ensures forall l: Levels :: l.off == old(offset) && l.us == old(entries) ==>
        TwoLevel.StableTo(l, index, term) == l.(off := offset, us := entries)
    {
      var t := MaybeTerm(index);
      if t.None? { return; }
      if t.value == term && index >= offset {
        var n := index + 1 - offset;
        entries := entries[n..];
        offset := index + 1;
      }
    }

    method StableSnapTo(index: nat)
      modifies this`snapshot
      ensures snapshot == if old(snapshot).Some? && old(snapshot).value.index == index then None else old(snapshot)
    {
      if snapshot.Some? && snapshot.value.index == index { snapshot := None; }
    }

    method Restore(s: Snapshot)
      modifies this
      ensures offset == s.index + 1 && entries == [] && snapshot == Some(s)
    {
      offset := s.index + 1;
      entries := [];
      snapshot := Some(s);
    }

    /** Fatal when the entries leave a gap. */
    method TruncateAndAppend(es: seq<Entry>) returns (died: bool)
      modifies this`entries, this`offset
      ensures match TwoLevel.TruncateAndAppend(old(offset), old(entries), es)
        case None => died && offset == old(offset) && entries == old(entries)
        case Some(p) => !died && offset == p.0 && entries == p.1
    {
      died := false;
      if es == [] { return; }
      var after := es[0].index;
      if after == offset + |entries| {
        entries := entries + es;
      } else if after <= offset {
        offset := after;
        entries := es;
      } else {
        var kept;
        died, kept := Slice(offset, after);
        if died { return; }
        entries := kept + es;
      }
    }

    method Slice(low: nat, high: nat) returns (died: bool, es: seq<Entry>)
      requires low < high
      ensures died <==> low < offset || high > offset + |entries|
      ensures !died ==> es == entries[low - offset..high - offset]
    {
      es := [];
      died := low < offset || high > offset + |entries|;
      if !died { es := entries[low - offset..high - offset]; }
    }
  }
}

