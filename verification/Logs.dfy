/** Complete logs: the entry with index i sits at position i - 1. */
module Logs {
  import opened Proto

  type Log = seq<Entry>

  function TermAt(log: Log, i: nat): nat
    requires i <= |log|
  {
    if i == 0 then 0 else log[i - 1].term
  }

  function LastTerm(log: Log): nat { TermAt(log, |log|) }

  /** The voting rule of section 5.4.1 of the Raft paper. */
  predicate UpToDate(cand: Log, voter: Log) {
    LastTerm(cand) > LastTerm(voter) || (LastTerm(cand) == LastTerm(voter) && |cand| >= |voter|)
  }

  /** Indices are consecutive from 1, terms are real and never decrease. */
  ghost predicate WellFormed(log: Log) {
    && (forall i :: 0 <= i < |log| ==> log[i].term >= 1 && log[i].index == i + 1)
    && (forall i, j :: 0 <= i < j < |log| ==> log[i].term <= log[j].term)
  }

  ghost predicate TermsUpTo(log: Log, t: nat) {
    forall i :: 0 <= i < |log| ==> log[i].term <= t
  }

  /** Position i of log is where the leader of its term put it, with the same history below. */
  ghost predicate FromLeader(ll: map<nat, Log>, log: Log, i: nat)
    requires i < |log|
  {
    log[i].term in ll && log[..i + 1] <= ll[log[i].term]
  }

  ghost predicate AllFromLeaders(ll: map<nat, Log>, log: Log) {
    forall i :: 0 <= i < |log| ==> FromLeader(ll, log, i)
  }

  /** A log any replica may hold: well formed, terms at most t, every entry traceable to a leader's log. */
  ghost predicate LogOk(ll: map<nat, Log>, log: Log, t: nat) {
    WellFormed(log) && TermsUpTo(log, t) && AllFromLeaders(ll, log)
  }

  /** Two logs with the same term at an index agree up to that index (Log Matching, section 5.3). */
  lemma Matching(ll: map<nat, Log>, a: Log, b: Log, i: nat)
    requires AllFromLeaders(ll, a) && AllFromLeaders(ll, b)
    requires i <= |a| && i <= |b| && TermAt(a, i) == TermAt(b, i)
    ensures a[..i] == b[..i]
  {
    if i > 0 {
      assert FromLeader(ll, a, i - 1) && FromLeader(ll, b, i - 1);
      var l := ll[a[i - 1].term];
      assert a[..i] == l[..i] && b[..i] == l[..i];
    }
  }

  lemma PrefixTrans(a: Log, b: Log, c: Log)
    requires a <= b && b <= c
    ensures a <= c
  {
  }

  lemma PrefixOrder(a: Log, b: Log, c: Log)
    requires a <= c && b <= c
    ensures if |a| <= |b| then a <= b else b <= a
  {
  }

  /** A prefix of a good log is a good log. */
  lemma PrefixOk(ll: map<nat, Log>, log: Log, k: nat, t: nat)
    requires LogOk(ll, log, t) && k <= |log|
    ensures LogOk(ll, log[..k], t)
  {
    var p := log[..k];
    forall i | 0 <= i < |p| ensures FromLeader(ll, p, i) {
      assert FromLeader(ll, log, i);
      assert p[..i + 1] == log[..i + 1];
    }
  }

  /** Leader logs only grow. */
  ghost predicate Grows(ll: map<nat, Log>, ll': map<nat, Log>) {
    forall t :: t in ll ==> t in ll' && ll[t] <= ll'[t]
  }

  lemma OkGrows(ll: map<nat, Log>, ll': map<nat, Log>, log: Log, t: nat, t': nat)
    requires LogOk(ll, log, t) && Grows(ll, ll') && t <= t'
    ensures LogOk(ll', log, t')
  {
    forall i | 0 <= i < |log| ensures FromLeader(ll', log, i) {
      assert FromLeader(ll, log, i);
      PrefixTrans(log[..i + 1], ll[log[i].term], ll'[log[i].term]);
    }
  }

  /** What accepting a piece of the leader log that ends at q does: nothing if already held, else cut to it. */
  function Adopted(log: Log, leader: Log, q: nat): Log
    requires q <= |leader|
  {
    if leader[..q] <= log then log else leader[..q]
  }

  lemma AdoptedKeepsPrefix(log: Log, leader: Log, q: nat, p: Log)
    requires q <= |leader| && p <= log && p <= leader
    ensures p <= Adopted(log, leader, q)
  {
  }
}
