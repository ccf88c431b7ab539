/**
 What raft.cpp sees of a log: a base index and term (everything up to it lives in a snapshot), the entries
 above it, and the commit and applied cursors. The two-level structure of RaftLog is shown to behave like
 this; a complete log of the protocol relates to it through Shows.
 */
module RaftLogSpec {
  import opened Proto
  import opened Logs

  datatype RLog = RLog(
    base: nat, baseTerm: nat, ents: seq<Entry>,   // entry i is ents[i - base - 1]
    snap: Snapshot,                               // the snapshot that can be sent to a follower
    committed: nat, applied: nat)
  {
    function FirstIndex(): nat { base + 1 }

    function LastIndex(): nat { base + |ents| }

    /** Outside the log the answer is term 0, without an error. */
    function Term(i: nat): nat {
      if i < base || i > LastIndex() then 0
      else if i == base then baseTerm
      else ents[i - base - 1].term
    }

    function LastTerm(): nat { Term(LastIndex()) }

    predicate MatchTerm(i: nat, t: nat) { Term(i) == t }

    predicate IsUpToDate(lasti: nat, term: nat) {
      term > LastTerm() || (term == LastTerm() && lasti >= LastIndex())
    }

    /** The entries are numbered consecutively from the base. */
    predicate Numbered() {
      forall i :: 0 <= i < |ents| ==> ents[i].index == base + 1 + i
    }
  }

  datatype Option<+T> = None | Some(value: T)

  // --------------------------------------------------------------------------
  // Sizes on the wire

  function U64Size(d: nat): nat {
    if d < 0x80 then 1 else if d < 0x100 then 2 else if d < 0x1_0000 then 3
    else if d < 0x1_0000_0000 then 5 else 9
  }

  function DataSize(len: nat): nat {
    if len < 0x100 then 2 + len else if len < 0x1_0000 then 3 + len else 5 + len
  }

  function SerializeSize(e: Entry): nat {
    1 + 1 + U64Size(e.term) + U64Size(e.index) + DataSize(|e.data|)
  }

  function TotalSize(es: seq<Entry>): nat {
    if es == [] then 0 else TotalSize(es[..|es| - 1]) + SerializeSize(es[|es| - 1])
  }

  /** How many of the first entries fit: at least one, and no more once the sum of sizes passes the limit. */
  function FitCount(es: seq<Entry>, limit: nat, k: nat): (n: nat)
    requires 1 <= k <= |es|
    ensures k <= n <= |es|
    decreases |es| - k
  {
    if k == |es| || TotalSize(es[..k + 1]) > limit then k else FitCount(es, limit, k + 1)
  }

  function LimitSize(es: seq<Entry>, limit: nat): (r: seq<Entry>)
    ensures r <= es
    ensures es != [] ==> r != []
  {
    if es == [] then [] else es[..FitCount(es, limit, 1)]
  }

  // --------------------------------------------------------------------------
  // Reads

  /** [low, high) of the log, cut to a size; none when low has been compacted away. */
  function Slice(l: RLog, low: nat, high: nat, limit: nat): Option<seq<Entry>>
    requires low <= high <= l.LastIndex() + 1
  {
    if low < l.FirstIndex() then None
    else Some(LimitSize(l.ents[low - l.FirstIndex()..high - l.FirstIndex()], limit))
  }

  function Entries(l: RLog, i: nat, limit: nat): Option<seq<Entry>> {
    if i > l.LastIndex() then Some([]) else Slice(l, i, l.LastIndex() + 1, limit)
  }

  /** The first entry that is not in the log, by index and term; 0 if all are. */
  function FindConflict(l: RLog, es: seq<Entry>): nat
    decreases |es|
  {
    if es == [] then 0
    else if !l.MatchTerm(es[0].index, es[0].term) then es[0].index
    else FindConflict(l, es[1..])
  }

  // --------------------------------------------------------------------------
  // Writes; None stands for the fatal stop of the source

  function Append(l: RLog, es: seq<Entry>): Option<RLog> {
    if es == [] then Some(l)
    else if es[0].index < 1 || es[0].index - 1 < l.committed then None
    else if es[0].index - 1 < l.base || es[0].index - 1 > l.LastIndex() then None
    else Some(l.(ents := l.ents[..es[0].index - 1 - l.base] + es))
  }

  function CommitTo(l: RLog, to: nat): Option<RLog> {
    if l.committed < to then
      if l.LastIndex() < to then None else Some(l.(committed := to))
    else Some(l)
  }

  datatype AppendResult = Rejected | Accepted(log: RLog, last: nat) | Fatal

  function Min(a: nat, b: nat): nat { if a <= b then a else b }
  function Max(a: nat, b: nat): nat { if a >= b then a else b }

  function AppendFrom(l: RLog, index: nat, es: seq<Entry>): Option<RLog> {
    var ci := FindConflict(l, es);
    if ci == 0 then Some(l)
    else if ci <= l.committed then None
    else if ci < index + 1 || ci - (index + 1) > |es| then None
    else Append(l, es[ci - (index + 1)..])
  }

  function MaybeAppend(l: RLog, index: nat, logTerm: nat, committed: nat, es: seq<Entry>): AppendResult {
    if !l.MatchTerm(index, logTerm) then Rejected
    else
      var last := index + |es|;
      match AppendFrom(l, index, es)
      case None => Fatal
      case Some(l1) =>
        match CommitTo(l1, Min(committed, last))
        case None => Fatal
        case Some(l2) => Accepted(l2, last)
  }

  /** Commits max only when the entry there is of the given term. */
  function MaybeCommit(l: RLog, max: nat, term: nat): Option<RLog> {
    if max > l.committed && l.Term(max) == term then CommitTo(l, max) else Some(l)
  }

  predicate WouldCommit(l: RLog, max: nat, term: nat) {
    max > l.committed && l.Term(max) == term
  }

  function Restore(l: RLog, s: Snapshot): RLog {
    RLog(s.index, s.term, [], s, s.index, l.applied)
  }

  // --------------------------------------------------------------------------
  // The complete log behind the visible part

  ghost predicate Shows(l: RLog, log: Log) {
    && l.base <= |log| && l.baseTerm == TermAt(log, l.base)
    && l.ents == log[l.base..]
    && l.base <= l.committed <= |log| && l.applied <= l.committed
    && l.base <= l.snap.index <= l.committed && l.snap.term == TermAt(log, l.snap.index)
  }

  /** A restored snapshot has been handed to the application. */
  predicate Drained(l: RLog) { l.base <= l.applied }

  /** Between rounds of the server: the cursors are in order, nothing is pending but entries above applied. */
  predicate Awaits(l: RLog, applied: nat) {
    l.base <= l.applied == applied <= l.committed <= l.LastIndex()
  }

  /** A snapshot from the leader has replaced the log, and the application has not seen it. */
  predicate JustRestored(l: RLog, applied: nat) {
    l.ents == [] && l.base == l.committed == l.snap.index && l.applied <= applied < l.base
  }

  /** The entries between two cursors. */
  function Between(l: RLog, applied: nat, to: nat): seq<Entry>
    requires l.base <= applied <= to <= l.LastIndex()
  {
    l.ents[applied - l.base..to - l.base]
  }

  lemma ShownTerm(l: RLog, log: Log, i: nat)
    requires Shows(l, log)
    ensures l.LastIndex() == |log|
    ensures l.base <= i <= |log| ==> l.Term(i) == TermAt(log, i)
    ensures !(l.base <= i <= |log|) ==> l.Term(i) == 0
  {
  }

  /** Entries from next on, as read for a follower, are the piece of the complete log that starts there. */
  lemma ReadFrom(l: RLog, log: Log, next: nat, limit: nat)
    requires Shows(l, log) && l.Numbered() && 1 <= next <= l.LastIndex() + 1
    ensures match Entries(l, next, limit)
      case None => next <= l.base
      case Some(es) =>
        && l.base <= next - 1 && next - 1 + |es| <= |log|
        && es == log[next - 1..next - 1 + |es|]
        && l.Term(next - 1) == TermAt(log, next - 1)
        && (next <= l.LastIndex() ==> es != [])
        && (es != [] ==> es[|es| - 1].index == next - 1 + |es|)
  {
    hide LimitSize, FitCount;
  }
}
