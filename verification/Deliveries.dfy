/** What an application receives, as one stream, and what it means for the stream to be in order. */
module Deliveries {
  import opened Proto

  datatype Given =
    | Command(e: Entry)       // a committed entry; an empty one does nothing to the store
    | Loaded(s: Snapshot)     // a snapshot from the leader replaces the state
    | Resumed(s: Snapshot)    // a restart: the state is that of the node's own snapshot

  function Commands(es: seq<Entry>): (r: seq<Given>)
    ensures |r| == |es|
  {
    seq(|es|, i requires 0 <= i < |es| => Command(es[i]))
  }

  /** How far an application that started at from has come. */
  function Cursor(gs: seq<Given>, from: nat): nat {
    if gs == [] then from
    else
      match gs[|gs| - 1]
      case Command(e) => e.index
      case Loaded(s) => s.index
      case Resumed(s) => s.index
  }

  /** The next index, a snapshot further on, or back to a snapshot of what was there. */
  predicate Fits(g: Given, cursor: nat) {
    match g
    case Command(e) => e.index == cursor + 1
    case Loaded(s) => s.index > cursor
    case Resumed(s) => s.index <= cursor
  }

  /** Exactly once and in order: no entry is missing and none comes twice, except across snapshots. */
  ghost predicate InOrder(gs: seq<Given>, from: nat) {
    forall i :: 0 <= i < |gs| ==> Fits(gs[i], Cursor(gs[..i], from))
  }

  lemma CommandsInOrder(gs: seq<Given>, from: nat, es: seq<Entry>)
    requires InOrder(gs, from) && forall i :: 0 <= i < |es| ==> es[i].index == Cursor(gs, from) + 1 + i
    ensures InOrder(gs + Commands(es), from) && Cursor(gs + Commands(es), from) == Cursor(gs, from) + |es|
  {
    var all := gs + Commands(es);
    forall i | 0 <= i < |all| ensures Fits(all[i], Cursor(all[..i], from)) {
      if i < |gs| {
        assert all[..i] == gs[..i];
      } else if i == |gs| {
        assert all[..i] == gs;
      } else {
        assert all[..i][i - 1] == Command(es[i - 1 - |gs|]);
      }
    }
  }

  lemma OneInOrder(gs: seq<Given>, from: nat, g: Given)
    requires InOrder(gs, from) && Fits(g, Cursor(gs, from))
    ensures InOrder(gs + [g], from)
  {
    var all := gs + [g];
    forall i | 0 <= i < |all| ensures Fits(all[i], Cursor(all[..i], from)) {
      assert all[..i] == if i < |gs| then gs[..i] else gs;
    }
  }

  /** A stream in order and without snapshots is the entries right after from, each once. */
  lemma {:induction false} NoJumps(gs: seq<Given>, from: nat)
    requires InOrder(gs, from) && forall g :: g in gs ==> g.Command?
    ensures Cursor(gs, from) == from + |gs|
    ensures forall i :: 0 <= i < |gs| ==> gs[i].Command? && gs[i].e.index == from + i + 1
  {
    if gs != [] {
      var front := gs[..|gs| - 1];
      forall i | 0 <= i < |front| ensures Fits(front[i], Cursor(front[..i], from)) { assert front[..i] == gs[..i]; }
      NoJumps(front, from);
      assert gs[|gs| - 1] in gs && Fits(gs[|gs| - 1], Cursor(front, from));
      forall i | 0 <= i < |gs| ensures gs[i].Command? && gs[i].e.index == from + i + 1 {
        if i < |front| { assert gs[i] == front[i]; }
      }
    }
  }
}
