/**
 The two levels of a log: Unstable, the tail and the snapshot that are not yet saved, over MemoryStorage, what
 is saved. Read together they are one simple log (View), and saving or compacting does not change it.
 */
module TwoLevel {
  import opened Proto
  import opened RaftLogSpec

  /** s: the stored entries with the dummy in front; off, us, usnap: the unstable part. */
  datatype Levels = Levels(s: seq<Entry>, snap: Snapshot, off: nat, us: seq<Entry>, usnap: Option<Snapshot>)

  ghost predicate NumberedFrom(es: seq<Entry>, first: nat) {
    forall i :: 0 <= i < |es| ==> es[i].index == first + i
  }

  function Base(l: Levels): nat
    requires l.s != []
  {
    if l.usnap.Some? then l.usnap.value.index else l.s[0].index
  }

  function BaseTerm(l: Levels): nat
    requires l.s != []
  {
    if l.usnap.Some? then l.usnap.value.term else l.s[0].term
  }

  /** What every operation keeps. */
  ghost predicate Layered(l: Levels) {
    && l.s != [] && NumberedFrom(l.s, l.s[0].index) && NumberedFrom(l.us, l.off)
    && (l.usnap.Some? ==> l.s[0].index <= l.usnap.value.index < l.off)
    && (l.usnap.Some? && l.us == [] ==> l.off == l.usnap.value.index + 1)
    && (l.usnap.Some? && l.off > l.usnap.value.index + 1 ==>
          l.s[0].index == l.usnap.value.index && l.s[0].term == l.usnap.value.term)
    && (l.off > Base(l) + 1 ==> l.off <= l.s[0].index + |l.s|)
    && (l.off <= Base(l) ==> Base(l) - l.off < |l.us| && l.us[Base(l) - l.off].term == BaseTerm(l))
    && (l.off <= Base(l) && l.off + |l.us| == Base(l) + 1 ==> |l.s| == 1)
    && (l.us == [] && l.usnap.None? ==> l.off == l.s[0].index + |l.s|)
  }

  /** Stored entries below the offset, unstable ones from it on. */
  function Tail(l: Levels): seq<Entry>
    requires Layered(l)
  {
    if l.off > Base(l) + 1 then l.s[Base(l) + 1 - l.s[0].index..l.off - l.s[0].index] + l.us
    else l.us[Base(l) + 1 - l.off..]
  }

  function View(l: Levels, committed: nat, applied: nat): RLog
    requires Layered(l)
  {
    RLog(Base(l), BaseTerm(l), Tail(l), if l.usnap.Some? then l.usnap.value else l.snap, committed, applied)
  }

  function Last(l: Levels): nat
    requires l.s != []
  {
    if l.us != [] then l.off + |l.us| - 1
    else if l.usnap.Some? then l.usnap.value.index
    else l.s[0].index + |l.s| - 1
  }

  lemma TailSize(l: Levels)
    requires Layered(l)
    ensures Base(l) <= Last(l) && |Tail(l)| == Last(l) - Base(l)
  {
  }

  /** The last index, as the two levels compute it, is the last index of the one log. */
  lemma LastIs(l: Levels, c: nat, a: nat)
    requires Layered(l)
    ensures View(l, c, a).LastIndex() == Last(l)
    ensures View(l, c, a).Numbered()
  {
  }

  predicate Has(l: Levels, i: nat) {
    && l.s != []
    && (i >= l.off ==> i - l.off < |l.us|)
    && (i < l.off ==> l.s[0].index <= i < l.s[0].index + |l.s|)
  }

  /** Where an index of the one log is found. */
  function AtLevel(l: Levels, i: nat): Entry
    requires Has(l, i)
  {
    if i >= l.off then l.us[i - l.off] else l.s[i - l.s[0].index]
  }

  lemma TailAt(l: Levels, i: nat)
    requires Layered(l) && Base(l) < i <= Last(l)
    ensures |Tail(l)| == Last(l) - Base(l) && Has(l, i) && Tail(l)[i - Base(l) - 1] == AtLevel(l, i)
  {
  }

  // --------------------------------------------------------------------------
  // truncate_and_append

  function TruncateAndAppend(off: nat, us: seq<Entry>, es: seq<Entry>): Option<(nat, seq<Entry>)>
  {
    if es == [] then Some((off, us))
    else
      var after := es[0].index;
      if after == off + |us| then Some((off, us + es))
      else if after <= off then Some((after, es))
      else if after > off + |us| then None
      else Some((off, us[..after - off] + es))
  }

  lemma AppendView(l: Levels, es: seq<Entry>, c: nat, a: nat)
    requires Layered(l) && es != [] && NumberedFrom(es, es[0].index) && es[0].index >= 1
    requires Base(l) <= c <= es[0].index - 1
    ensures match TruncateAndAppend(l.off, l.us, es)
      case None => Append(View(l, c, a), es) == None
      case Some(p) =>
        var l' := l.(off := p.0, us := p.1); Layered(l') && Append(View(l, c, a), es) == Some(View(l', c, a))
  {
    LastIs(l, c, a);
    var after := es[0].index;
    var v := View(l, c, a);
    if after > Last(l) + 1 {
      assert after > l.off + |l.us|;
    } else {
      AppendCase(l, es, c, a);
    }
  }

  lemma AppendCase(l: Levels, es: seq<Entry>, c: nat, a: nat)
    requires Layered(l) && es != [] && NumberedFrom(es, es[0].index) && es[0].index >= 1
    requires Base(l) <= c <= es[0].index - 1 <= Last(l)
    ensures match TruncateAndAppend(l.off, l.us, es)
      case None => false
      case Some(p) =>
        var l' := l.(off := p.0, us := p.1); Layered(l') && Append(View(l, c, a), es) == Some(View(l', c, a))
  {
    hide Layered, Tail, TruncateAndAppend, NumberedFrom;
    LastIs(l, c, a);
    AppendLayered(l, es);
    AppendedTail(l, es);
  }

  lemma AppendedTail(l: Levels, es: seq<Entry>)
    requires Layered(l) && es != [] && NumberedFrom(es, es[0].index) && es[0].index >= 1
    requires Base(l) < es[0].index <= Last(l) + 1 && TruncateAndAppend(l.off, l.us, es).Some?
    requires var p := TruncateAndAppend(l.off, l.us, es).value; Layered(l.(off := p.0, us := p.1))
    ensures |Tail(l)| == Last(l) - Base(l)
    ensures var p := TruncateAndAppend(l.off, l.us, es).value;
      Tail(l.(off := p.0, us := p.1)) == Tail(l)[..es[0].index - 1 - Base(l)] + es
  {
    hide Layered, Tail, TruncateAndAppend, NumberedFrom;
    AppendLayered(l, es);
    var after := es[0].index;
    var p := TruncateAndAppend(l.off, l.us, es).value;
    var l' := l.(off := p.0, us := p.1);
    LastIs(l, 0, 0);
    LastIs(l', 0, 0);
    var want := Tail(l)[..after - 1 - Base(l)] + es;
    forall k | 0 <= k < |want| ensures Tail(l')[k] == want[k] { AppendedAt(l, es, Base(l) + 1 + k); }
    assert Tail(l') == want;
  }

  /** Below the appended entries the tail is as it was, from there on it is the entries. */
  lemma AppendedAt(l: Levels, es: seq<Entry>, i: nat)
    requires Layered(l) && es != [] && NumberedFrom(es, es[0].index) && es[0].index >= 1
    requires Base(l) < es[0].index <= Last(l) + 1 && TruncateAndAppend(l.off, l.us, es).Some?
    requires var p := TruncateAndAppend(l.off, l.us, es).value; Layered(l.(off := p.0, us := p.1))
    requires Base(l) < i < es[0].index + |es|
    ensures |Tail(l)| == Last(l) - Base(l)
    ensures var p := TruncateAndAppend(l.off, l.us, es).value; var l' := l.(off := p.0, us := p.1);
      && |Tail(l')| == es[0].index + |es| - 1 - Base(l)
      && Tail(l')[i - Base(l) - 1] == if i < es[0].index then Tail(l)[i - Base(l) - 1] else es[i - es[0].index]
  {
    hide Layered, Tail, TruncateAndAppend, NumberedFrom;
    AppendLayered(l, es);
    var after := es[0].index;
    var p := TruncateAndAppend(l.off, l.us, es).value;
    var l' := l.(off := p.0, us := p.1);
    LastIs(l, 0, 0);
    LastIs(l', 0, 0);
    TailAt(l', i);
    if i < after { TailAt(l, i); } else { assert es[i - after] == p.1[after - p.0..][i - after]; }
    if p.0 < after && p.0 <= i < after { assert p.1[..after - p.0][i - p.0] == l.us[..after - p.0][i - p.0]; }
  }

  lemma AppendLayered(l: Levels, es: seq<Entry>)
    requires Layered(l) && es != [] && NumberedFrom(es, es[0].index) && es[0].index >= 1
    requires Base(l) < es[0].index <= Last(l) + 1
    ensures match TruncateAndAppend(l.off, l.us, es)
      case None => false
      case Some(p) =>
        var l' := l.(off := p.0, us := p.1);
        && Layered(l') && Last(l') == es[0].index + |es| - 1
        && p.0 <= es[0].index && p.0 + |p.1| == es[0].index + |es| && p.1[es[0].index - p.0..] == es
        && (p.0 < es[0].index ==> p.0 == l.off && p.1[..es[0].index - p.0] == l.us[..es[0].index - p.0])
        && (p.0 == es[0].index ==> es[0].index <= l.off || (l.us == [] && l.off == es[0].index))
  {
  }

  // --------------------------------------------------------------------------
  // Saving

  /** MemoryStorage::append: entries already compacted are dropped, a conflicting tail is overwritten. */
  function StoreAppend(s: seq<Entry>, es: seq<Entry>): Option<seq<Entry>>
    requires s != []
  {
    if es == [] || es[0].index + |es| - 1 < s[0].index + 1 then Some(s)
    else
      var n := if s[0].index + 1 > es[0].index then s[0].index + 1 - es[0].index else 0;
      var rest := es[n..];
      if es[0].index + n < s[0].index || es[0].index + n - s[0].index > |s| then None
      else Some(s[..es[0].index + n - s[0].index] + rest)
  }

  lemma StoredNumbered(s: seq<Entry>, es: seq<Entry>)
    requires s != [] && NumberedFrom(s, s[0].index) && es != [] && NumberedFrom(es, es[0].index)
    ensures StoreAppend(s, es).Some? ==>
      var r := StoreAppend(s, es).value; r != [] && NumberedFrom(r, r[0].index)
    ensures forall n: nat :: n < |es| ==> es[n].index == es[0].index + n
  {
  }

  predicate SavedAt(l: Levels, i: nat)
    requires l.s != []
  {
    l.off <= i < l.off + |l.us| && l.s[0].index < i < l.s[0].index + |l.s| ==> l.s[i - l.s[0].index] == l.us[i - l.off]
  }

  /** The unstable tail has been written to storage. */
  ghost predicate Saved(l: Levels)
    requires l.s != []
  {
    && l.s[0].index + |l.s| == l.off + |l.us|
    && forall i: nat :: SavedAt(l, i)
  }

  lemma StoredTail(l: Levels, c: nat, a: nat)
    requires Layered(l) && l.us != [] && l.usnap.None?
    ensures StoreAppend(l.s, l.us).Some?
    ensures var s' := StoreAppend(l.s, l.us).value;
      && s' != [] && s'[0] == l.s[0] && NumberedFrom(s', s'[0].index) && Saved(l.(s := s'))
      && (l.off > l.s[0].index + 1 ==>
        l.off - l.s[0].index <= |s'| && s'[..l.off - l.s[0].index] == l.s[..l.off - l.s[0].index])
  {
  }

  /** Saving the whole unstable tail into storage leaves the log as it was; the tail may then be dropped. */
  lemma SaveView(l: Levels, c: nat, a: nat)
    requires Layered(l) && l.us != [] && l.usnap.None?
    ensures match StoreAppend(l.s, l.us)
      case None => false
      case Some(s') =>
        && Layered(l.(s := s')) && View(l.(s := s'), c, a) == View(l, c, a) && Saved(l.(s := s'))
  {
    StoredTail(l, c, a);
    var s' := StoreAppend(l.s, l.us).value;
    hide StoreAppend;
    assert Layered(l.(s := s')) by { if l.off <= Base(l) && l.off + |l.us| == Base(l) + 1 { assert |s'| == 1; } }
    assert Tail(l.(s := s')) == Tail(l);
  }

  /** Unstable::stable_to for an index and term of the tail. */
  function StableTo(l: Levels, index: nat, term: nat): Levels {
    if l.off <= index < l.off + |l.us| && l.us[index - l.off].term == term
    then l.(us := l.us[index + 1 - l.off..], off := index + 1) else l
  }

  /** Dropping what has been saved does not change the log. */
  lemma StableView(l: Levels, index: nat, term: nat, c: nat, a: nat)
    requires Layered(l) && l.usnap.None? && Saved(l)
    ensures var l' := StableTo(l, index, term); Layered(l') && View(l', c, a) == View(l, c, a)
  {
    StableLayered(l, index, term);
    var l' := StableTo(l, index, term);
    TailSize(l);
    TailSize(l');
    hide Layered, Tail;
    forall k | 0 <= k < |Tail(l)| ensures Tail(l')[k] == Tail(l)[k] {
      StableAt(l, index, term, Base(l) + 1 + k);
    }
    assert Tail(l') == Tail(l);
  }

  lemma StableLayered(l: Levels, index: nat, term: nat)
    requires Layered(l) && l.usnap.None? && Saved(l)
    ensures var l' := StableTo(l, index, term); Layered(l') && Last(l') == Last(l) && Base(l') == Base(l)
  {
  }

  lemma StableAt(l: Levels, index: nat, term: nat, i: nat)
    requires Layered(l) && l.usnap.None? && Saved(l) && Base(l) < i <= Last(l)
    requires Layered(StableTo(l, index, term)) && Last(StableTo(l, index, term)) == Last(l)
    ensures var l' := StableTo(l, index, term); |Tail(l)| == |Tail(l')| == Last(l) - Base(l)
    ensures var l' := StableTo(l, index, term); Tail(l')[i - Base(l) - 1] == Tail(l)[i - Base(l) - 1]
  {
    TailAt(l, i);
    TailAt(StableTo(l, index, term), i);
    hide Layered, Tail, Last;
    assert SavedAt(l, i);
  }

  /** MemoryStorage::compact: the entry at j becomes the dummy. */
  function StoreCompact(s: seq<Entry>, j: nat): seq<Entry>
    requires s != [] && s[0].index < j < s[0].index + |s|
  {
    var i := j - s[0].index;
    [s[0].(index := s[i].index, term := s[i].term)] + s[i + 1..]
  }

  /** Compacting forgets exactly the entries up to j and remembers the term of j. */
  lemma CompactView(l: Levels, j: nat, c: nat, a: nat)
    requires Layered(l) && l.usnap.None? && l.s[0].index < j < l.s[0].index + |l.s|
    requires j < l.off || Saved(l)
    ensures var l', v := l.(s := StoreCompact(l.s, j)), View(l, c, a);
      && Layered(l') && j <= v.LastIndex()
      && View(l', c, a) == v.(base := j, baseTerm := v.Term(j), ents := v.ents[j - v.base..])
  {
    hide Layered, Tail;
    LastIs(l, c, a);
    CompactLayered(l, j);
    CompactedTail(l, j);
    CompactTerm(l, j);
  }

  lemma CompactTerm(l: Levels, j: nat)
    requires Layered(l) && l.usnap.None? && l.s[0].index < j < l.s[0].index + |l.s| && j <= Last(l)
    requires j < l.off || Saved(l)
    ensures |Tail(l)| == Last(l) - Base(l) && Base(l) == l.s[0].index && l.s[j - l.s[0].index].index == j
    ensures l.s[j - l.s[0].index].term == Tail(l)[j - Base(l) - 1].term
  {
    TailAt(l, j);
    assert NumberedFrom(l.s, l.s[0].index);
    hide Layered, Tail;
    assert SavedAt(l, j);
  }

  lemma CompactedTail(l: Levels, j: nat)
    requires Layered(l) && l.usnap.None? && l.s[0].index < j < l.s[0].index + |l.s| && j <= Last(l)
    requires Layered(l.(s := StoreCompact(l.s, j)))
    ensures |Tail(l)| == Last(l) - Base(l) && Tail(l.(s := StoreCompact(l.s, j))) == Tail(l)[j - Base(l)..]
  {
    hide Tail, NumberedFrom;
    var l' := l.(s := StoreCompact(l.s, j));
    CompactFirst(l.s, j);
    LastIs(l, 0, 0);
    LastIs(l', 0, 0);
    var want := Tail(l)[j - Base(l)..];
    forall k | 0 <= k < |want| ensures Tail(l')[k] == want[k] {
      TailAt(l, j + 1 + k);
      TailAt(l', j + 1 + k);
    }
    assert Tail(l') == want;
  }

  lemma CompactFirst(s: seq<Entry>, j: nat)
    requires s != [] && NumberedFrom(s, s[0].index) && s[0].index < j < s[0].index + |s|
    ensures StoreCompact(s, j) != [] && StoreCompact(s, j)[0].index == j
  {
  }

  lemma CompactLayered(l: Levels, j: nat)
    requires Layered(l) && l.usnap.None? && l.s[0].index < j < l.s[0].index + |l.s|
    requires j < l.off || Saved(l)
    ensures Layered(l.(s := StoreCompact(l.s, j))) && j <= Last(l)
  {
    assert SavedAt(l, j);
  }

  /** A pending snapshot moves to storage (apply_snapshot, stable_snap_to): the log stays the same. */
  lemma SnapshotView(l: Levels, c: nat, a: nat)
    requires Layered(l) && l.usnap.Some? && l.off == l.usnap.value.index + 1
    ensures var sn := l.usnap.value; var s' := [Entry(EntryNormal, sn.term, sn.index, [])];
      && Layered(l.(s := s', snap := sn)) && View(l.(s := s', snap := sn), c, a) == View(l, c, a)
      && Layered(l.(s := s', snap := sn, usnap := None))
      && View(l.(s := s', snap := sn, usnap := None), c, a) == View(l, c, a)
  {
  }
}

/** util.cpp: how many entries fit into one message or page. */
module EntrySizes {
  import opened Proto
  import opened RaftLogSpec

  /** entry_limit_size: the longest prefix within the limit, but at least one entry. */
  method EntryLimitSize(maxSize: nat, es: seq<Entry>) returns (r: seq<Entry>)
    ensures r == LimitSize(es, maxSize)
  {
    if es == [] { return []; }
    assert es[..1] == [es[0]] && [es[0]][..0] == [];
    var size := SerializeSize(es[0]);
    var limit := 1;
    while limit < |es|
      invariant 1 <= limit <= |es|
      invariant size == TotalSize(es[..limit])
      invariant FitCount(es, maxSize, limit) == FitCount(es, maxSize, 1)
    {
      assert es[..limit + 1][..limit] == es[..limit];
      size := size + SerializeSize(es[limit]);
      if size > maxSize { break; }
      limit := limit + 1;
    }
    r := es[..limit];
  }

  lemma {:induction false} FitPrefix(a: seq<Entry>, b: seq<Entry>, limit: nat, k: nat)
    requires 1 <= k <= |a| && FitCount(a, limit, k) < |a|
    ensures FitCount(a + b, limit, k) == FitCount(a, limit, k)
    decreases |a| - k
  {
    assert (a + b)[..k + 1] == a[..k + 1];
    if TotalSize(a[..k + 1]) <= limit {
      FitPrefix(a, b, limit, k + 1);
    }
  }

  /** Limiting a part that does not fit is limiting the whole. */
  lemma LimitPart(a: seq<Entry>, b: seq<Entry>, limit: nat)
    requires LimitSize(a, limit) != a
    ensures LimitSize(a + b, limit) == LimitSize(a, limit)
  {
    FitPrefix(a, b, limit, 1);
    var n := FitCount(a, limit, 1);
    assert (a + b)[..n] == a[..n];
  }

  lemma {:induction false} PrefixGrows(es: seq<Entry>, j: nat, k: nat)
    requires j <= k <= |es|
    ensures TotalSize(es[..j]) <= TotalSize(es[..k])
    decreases k - j
  {
    if j < k {
      PrefixGrows(es, j, k - 1);
      assert es[..k][..k - 1] == es[..k - 1];
    }
  }

  /** The page is the longest prefix within the limit, but at least one entry. */
  lemma {:induction false} FitIsLongest(es: seq<Entry>, limit: nat, k: nat, j: nat)
    requires 1 <= k <= |es| && (k == 1 || TotalSize(es[..k]) <= limit) && k < j <= |es|
    ensures var n := FitCount(es, limit, k);
      (n == 1 || TotalSize(es[..n]) <= limit) && (n < j ==> TotalSize(es[..j]) > limit)
    decreases |es| - k
  {
    if TotalSize(es[..k + 1]) > limit {
      PrefixGrows(es, k + 1, j);
    } else if k + 1 < j {
      FitIsLongest(es, limit, k + 1, j);
    } else if k + 1 < |es| {
      FitIsLongest(es, limit, k + 1, |es|);
      FitAtLeast(es, limit, k + 1);
    }
  }

  lemma FitAtLeast(es: seq<Entry>, limit: nat, k: nat)
    requires 1 <= k <= |es|
    ensures k <= FitCount(es, limit, k) <= |es|
  {
  }

  /** The longest front that is within the limit, but at least one entry if there is any. */
  ghost predicate Longest(page: seq<Entry>, all: seq<Entry>, limit: nat) {
    && page <= all && (all != [] ==> page != [])
    && (|page| <= 1 || TotalSize(page) <= limit)
    && forall k :: |page| < k <= |all| ==> TotalSize(all[..k]) > limit
  }

  lemma LimitIsLongest(es: seq<Entry>, limit: nat)
    ensures Longest(LimitSize(es, limit), es, limit)
  {
    hide FitCount, TotalSize;
    if es != [] {
      var n := FitCount(es, limit, 1);
      if |es| > 1 { FitIsLongest(es, limit, 1, |es|); }
      forall k | n < k <= |es| ensures TotalSize(es[..k]) > limit { FitIsLongest(es, limit, 1, k); }
    }
  }
}
