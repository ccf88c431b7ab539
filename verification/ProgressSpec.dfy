/** The leader's view of one follower, as a value: what the methods of Progress and InFlights compute. */
module ProgressSpec {
  datatype ProgressState = Probe | Replicate | Snapshotting

  datatype Progress = Progress(
    matched: nat, next: nat, state: ProgressState,
    paused: bool, pendingSnapshot: nat, recentActive: bool,
    inflights: seq<nat>)   // the last index of each unacknowledged message, oldest first

  function NewProgress(matched: nat, next: nat): Progress {
    Progress(matched, next, Probe, false, 0, false, [])
  }

  predicate IsFull(inflights: seq<nat>, size: nat) { |inflights| == size }

  /** Drops the acknowledged messages at the front of the window. */
  function FreeTo(inflights: seq<nat>, to: nat): (r: seq<nat>)
    ensures |r| <= |inflights| && r == inflights[|inflights| - |r|..]
  {
    if inflights == [] || to < inflights[0] then inflights else FreeTo(inflights[1..], to)
  }

  function FreeFirstOne(inflights: seq<nat>): (r: seq<nat>)
    ensures |r| <= |inflights|
  {
    if inflights == [] then [] else FreeTo(inflights, inflights[0])
  }

  function ResetState(p: Progress, st: ProgressState): Progress {
    p.(paused := false, pendingSnapshot := 0, state := st, inflights := [])
  }

  function BecomeReplicate(p: Progress): Progress {
    ResetState(p, Replicate).(next := p.matched + 1)
  }

  function BecomeProbe(p: Progress): Progress {
    if p.state == Snapshotting then
      ResetState(p, Probe).(next := if p.matched >= p.pendingSnapshot then p.matched + 1 else p.pendingSnapshot + 1)
    else
      ResetState(p, Probe).(next := p.matched + 1)
  }

  function BecomeSnapshot(p: Progress, index: nat): Progress {
    ResetState(p, Snapshotting).(pendingSnapshot := index)
  }

  predicate IsPaused(p: Progress, size: nat) {
    match p.state
    case Probe => p.paused
    case Replicate => IsFull(p.inflights, size)
    case Snapshotting => true
  }

  predicate Updates(p: Progress, n: nat) { p.matched < n }

  function MaybeUpdate(p: Progress, n: nat): Progress {
    var q := if p.matched < n then p.(matched := n, paused := false) else p;
    if q.next < n + 1 then q.(next := n + 1) else q
  }

  /** Whether a rejection of index rejected is news. */
  predicate Decreases(p: Progress, rejected: nat) {
    if p.state == Replicate then rejected > p.matched else p.next >= 1 && p.next - 1 == rejected
  }

  function MaybeDecreaseTo(p: Progress, rejected: nat, last: nat): Progress {
    if !Decreases(p, rejected) then p
    else if p.state == Replicate then p.(next := p.matched + 1)
    else
      var next := if rejected <= last + 1 then rejected else last + 1;
      p.(next := if next < 1 then 1 else next, paused := false)
  }

  predicate NeedSnapshotAbort(p: Progress) {
    p.state == Snapshotting && p.matched >= p.pendingSnapshot
  }

  // --------------------------------------------------------------------------
  // The window of unacknowledged messages

  ghost predicate Increasing(s: seq<nat>) {
    forall i, j :: 0 <= i < j < |s| ==> s[i] < s[j]
  }

  /** While replicating, the window rises strictly between matched and next; otherwise it is empty. */
  ghost predicate WindowOk(p: Progress, size: nat) {
    && |p.inflights| <= size
    && Increasing(p.inflights)
    && (p.state == Replicate ==> p.matched < p.next && forall x :: x in p.inflights ==> p.matched < x < p.next)
    && (p.state != Replicate ==> p.inflights == [])
  }

  /** Sending in Replicate state keeps the window in order. */
  lemma WindowPush(p: Progress, x: nat, size: nat)
    requires WindowOk(p, size) && p.state == Replicate && !IsFull(p.inflights, size) && x >= p.next
    ensures WindowOk(p.(next := x + 1, inflights := p.inflights + [x]), size)
  {
    var s := p.inflights + [x];
    forall i, j | 0 <= i < j < |s| ensures s[i] < s[j] {
      assert s[i] in p.inflights;
    }
    forall y | y in s ensures p.matched < y < x + 1 {
      assert y in p.inflights || y == x;
    }
  }

  /** An increasing window is split where its values pass `to`. */
  lemma {:induction false} FreeToSplits(s: seq<nat>, to: nat)
    requires Increasing(s)
    ensures var k := |s| - |FreeTo(s, to)|;
      (forall i :: 0 <= i < k ==> s[i] <= to) && (forall i :: k <= i < |s| ==> s[i] > to)
  {
    if s != [] && to >= s[0] {
      var t := s[1..];
      FreeToSplits(t, to);
      var k := |t| - |FreeTo(t, to)|;
      forall i | 0 <= i < |s| ensures if i < k + 1 then s[i] <= to else s[i] > to {
        if i > 0 { assert s[i] == t[i - 1]; }
      }
    }
  }

  /** Acknowledging up to `to` drops exactly the messages up to it. */
  lemma FreeToDropsExactly(s: seq<nat>, to: nat)
    requires Increasing(s)
    ensures var r := FreeTo(s, to);
      Increasing(r) && forall x :: x in s ==> (x in r <==> x > to)
  {
  }

  lemma FreeToSubset(s: seq<nat>, to: nat)
    ensures forall x :: x in FreeTo(s, to) ==> x in s
  {
  }

  /** The window survives every method of Progress that a leader calls. */
  lemma AcceptWindow(p: Progress, n: nat, size: nat)
    requires WindowOk(p, size) && p.state == Replicate
    ensures var q := MaybeUpdate(p, n); WindowOk(q.(inflights := FreeTo(q.inflights, n)), size)
  {
    FreeToDropsExactly(p.inflights, n);
    FreeToSubset(p.inflights, n);
  }

  lemma FreeFirstWindow(p: Progress, size: nat)
    requires WindowOk(p, size)
    ensures WindowOk(p.(inflights := FreeFirstOne(p.inflights)), size)
  {
    if p.inflights != [] {
      FreeToDropsExactly(p.inflights, p.inflights[0]);
      FreeToSubset(p.inflights, p.inflights[0]);
    }
  }
}
