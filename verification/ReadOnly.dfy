/** readonly.cpp: the queue of read requests, each waiting for a round of heartbeats. */
module ReadQueue {
  import opened Proto
  import opened ReadOnlySpec

  /** Requests were recorded with the commit index of their time, which never falls. */
  ghost predicate Ordered(r: ReadOnly, committed: nat) {
    && Consistent(r)
    && (forall c :: c in r.pending ==> r.pending[c].index <= committed)
    && (forall i, j :: 0 <= i < j < |r.queue| ==> IndexOf(r, i) <= IndexOf(r, j))
  }

  function IndexOf(r: ReadOnly, i: int): nat
    requires 0 <= i < |r.queue|
  {
    if r.queue[i] in r.pending then r.pending[r.queue[i]].index else 0
  }

  lemma AddKeeps(r: ReadOnly, index: nat, m: Message, committed: nat)
    requires Ordered(r, committed) && m.entries != [] && committed <= index
    ensures Ordered(AddRequest(r, index, m), index)
  {
    var r' := AddRequest(r, index, m);
    if CtxOf(m) !in r.pending {
      forall i, j | 0 <= i < j < |r'.queue| ensures IndexOf(r', i) <= IndexOf(r', j) {
        assert r.queue[i] in r.pending;
        if j < |r.queue| { assert IndexOf(r, i) <= IndexOf(r, j); assert r.queue[j] in r.pending; }
      }
    }
  }

  lemma AckKeeps(r: ReadOnly, m: Message, committed: nat)
    requires Ordered(r, committed)
    ensures Ordered(RecvAck(r, m), committed) && RecvAck(r, m).queue == r.queue
  {
    var r' := RecvAck(r, m);
    forall i, j | 0 <= i < j < |r'.queue| ensures IndexOf(r', i) <= IndexOf(r', j) {
      assert IndexOf(r, i) <= IndexOf(r, j);
    }
  }

  /** The missing-entry stop of advance() cannot happen. */
  lemma AdvanceNeverFails(r: ReadOnly, ctx: Context)
    requires Consistent(r)
    ensures !AdvanceFails(r, ctx)
  {
  }

  lemma {:induction false} StatusesAre(r: ReadOnly, cs: seq<Context>)
    requires forall c :: c in cs ==> c in r.pending
    ensures |StatusesOf(r, cs)| == |cs|
    ensures forall i :: 0 <= i < |cs| ==> StatusesOf(r, cs)[i] == r.pending[cs[i]]
  {
    if cs != [] {
      StatusesAre(r, cs[1..]);
    }
  }

  lemma {:induction false} ErasedAre(pending: map<Context, ReadIndexStatus>, ss: seq<ReadIndexStatus>)
    requires forall s :: s in ss ==> s.req.entries != []
    ensures forall c :: c in Erase(pending, ss) <==> c in pending && forall s :: s in ss ==> CtxOf(s.req) != c
    ensures forall c :: c in Erase(pending, ss) ==> Erase(pending, ss)[c] == pending[c]
  {
    if ss != [] {
      ErasedAre(pending - {CtxOf(ss[0].req)}, ss[1..]);
      assert ss == [ss[0]] + ss[1..];
    }
  }

  /**
   Advancing on a pending context releases exactly the front of the queue up to it, each request once and in
   order, and keeps exactly the rest pending.
   */
  lemma AdvanceReleases(r: ReadOnly, ctx: Context, committed: nat)
    requires Ordered(r, committed) && ctx in r.pending
    ensures var n := Released(r.queue, ctx); var ss := AdvanceStatuses(r, ctx);
      && n > 0 && r.queue[n - 1] == ctx
      && |ss| == n && (forall i :: 0 <= i < n ==> r.queue[i] in r.pending && ss[i] == r.pending[r.queue[i]])
      && (forall i, j :: 0 <= i < j < n ==> ss[i].index <= ss[j].index)
    ensures var n := Released(r.queue, ctx); var r' := Advance(r, ctx);
      && r'.queue == r.queue[n..] && Ordered(r', committed)
      && (forall c :: c in r'.pending ==> r'.pending[c] == r.pending[c])
  {
    hide StatusesOf, Erase, Ordered, Released;
    OrderedFacts(r, committed);
    var n := Released(r.queue, ctx);
    FrontReleased(r, n, committed);
    AdvanceKeeps(r, ctx, committed);
  }

  lemma OrderedFacts(r: ReadOnly, committed: nat)
    requires Ordered(r, committed)
    ensures Consistent(r) && forall c :: c in r.queue <==> c in r.pending
  {
  }

  /** The first n requests of the queue, and the order of their indices. */
  lemma FrontReleased(r: ReadOnly, n: nat, committed: nat)
    requires Ordered(r, committed) && n <= |r.queue|
    ensures var ss := StatusesOf(r, r.queue[..n]);
      && |ss| == n && (forall i :: 0 <= i < n ==> r.queue[i] in r.pending && ss[i] == r.pending[r.queue[i]])
      && (forall i, j :: 0 <= i < j < n ==> ss[i].index <= ss[j].index)
  {
    hide StatusesOf;
    StatusesAre(r, r.queue[..n]);
    var ss := StatusesOf(r, r.queue[..n]);
    forall i, j | 0 <= i < j < n ensures ss[i].index <= ss[j].index {
      assert IndexOf(r, i) <= IndexOf(r, j);
    }
  }

  lemma StatusesCtx(r: ReadOnly, n: nat)
    requires Consistent(r) && n <= |r.queue|
    ensures forall s :: s in StatusesOf(r, r.queue[..n]) ==> s.req.entries != []
    ensures forall c :: c in r.queue[..n] <==>
      exists s :: s in StatusesOf(r, r.queue[..n]) && s.req.entries != [] && CtxOf(s.req) == c
  {
    var cs := r.queue[..n];
    forall c | c in cs ensures c in r.pending { assert c in r.queue; }
    StatusesAre(r, cs);
    var ss := StatusesOf(r, cs);
    forall s | s in ss ensures s.req.entries != [] {
      var i :| 0 <= i < |ss| && ss[i] == s;
      assert ss[i] == r.pending[cs[i]];
    }
    forall c ensures c in cs <==> exists s :: s in ss && s.req.entries != [] && CtxOf(s.req) == c {
      if c in cs {
        var i :| 0 <= i < |cs| && cs[i] == c;
        assert ss[i] in ss && CtxOf(ss[i].req) == c;
      }
      if s :| s in ss && s.req.entries != [] && CtxOf(s.req) == c {
        var i :| 0 <= i < |ss| && ss[i] == s;
        assert ss[i] == r.pending[cs[i]] && cs[i] == c;
      }
    }
  }

  lemma RestIs(r: ReadOnly, n: nat)
    requires Consistent(r) && n <= |r.queue|
    ensures forall c :: c in r.queue[n..] <==> c in r.pending && c !in r.queue[..n]
  {
  }

  /** Exactly the requests behind the first n stay pending, unchanged. */
  lemma ErasedRest(r: ReadOnly, n: nat)
    requires Consistent(r) && n <= |r.queue|
    ensures var p := Erase(r.pending, StatusesOf(r, r.queue[..n]));
      forall c :: (c in p <==> c in r.queue[n..]) && (c in p ==> c in r.pending && p[c] == r.pending[c])
  {
    StatusesCtx(r, n);
    RestIs(r, n);
    var ss := StatusesOf(r, r.queue[..n]);
    ErasedAre(r.pending, ss);
    hide StatusesOf, Erase, Consistent;
    forall c ensures c in Erase(r.pending, ss) <==> c in r.queue[n..] {
      if c in r.pending {
        assert c in r.queue[..n] <==> exists s :: s in ss && s.req.entries != [] && CtxOf(s.req) == c;
      }
    }
  }

  lemma AdvanceKeeps(r: ReadOnly, ctx: Context, committed: nat)
    requires Ordered(r, committed) && ctx in r.queue
    ensures Ordered(Advance(r, ctx), committed)
    ensures forall c :: c in Advance(r, ctx).pending ==> c in r.pending && Advance(r, ctx).pending[c] == r.pending[c]
  {
    var n := Released(r.queue, ctx);
    ErasedRest(r, n);
    RestOrdered(r, Advance(r, ctx), n, committed);
  }

  lemma RestOrdered(r: ReadOnly, r': ReadOnly, n: nat, committed: nat)
    requires Ordered(r, committed) && n <= |r.queue| && r'.queue == r.queue[n..]
    requires forall c ::
      && (c in r'.pending <==> c in r'.queue)
      && (c in r'.pending ==> c in r.pending && r'.pending[c] == r.pending[c])
    ensures Ordered(r', committed)
  {
    forall i | 0 <= i < |r'.queue| ensures IndexOf(r', i) == IndexOf(r, n + i) {
      assert r'.queue[i] in r'.queue;
    }
    assert Consistent(r');
    hide Consistent;
    forall i, j | 0 <= i < j < |r'.queue| ensures IndexOf(r', i) <= IndexOf(r', j) {
      assert IndexOf(r, n + i) <= IndexOf(r, n + j);
    }
  }

  lemma {:induction false} StatusesSnoc(r: ReadOnly, cs: seq<Context>, c: Context)
    ensures StatusesOf(r, cs + [c]) == StatusesOf(r, cs) + if c in r.pending then [r.pending[c]] else []
  {
    if cs == [] {
      assert [] + [c] == [c];
      assert StatusesOf(r, [c]) == (if c in r.pending then [r.pending[c]] else []) + StatusesOf(r, []);
    } else {
      StatusesSnoc(r, cs[1..], c);
      assert (cs + [c])[1..] == cs[1..] + [c];
    }
  }

  lemma NoStatuses(r: ReadOnly)
    ensures StatusesOf(r, []) == []
  {
  }

  lemma QueuedPending(r: ReadOnly, i: nat)
    requires Consistent(r) && i < |r.queue|
    ensures r.queue[i] in r.pending
  {
  }

  /** Where the walk of advance() stops. */
  lemma WalkedIs(r: ReadOnly, ctx: Context, i: nat, found: bool)
    requires i <= |r.queue| && (found ==> i > 0 && r.queue[i - 1] == ctx && ctx !in r.queue[..i - 1])
    requires !found ==> i == |r.queue| && ctx !in r.queue
    ensures found <==> ctx in r.queue
    ensures Walked(r, ctx) == r.queue[..i] && (found ==> Released(r.queue, ctx) == i)
  {
  }
}

/** The object of readonly.cpp, changed in place, proved against the value above. */
module ReadOnlyObject {
  import opened Proto
  import opened ReadOnlySpec
  import opened ReadQueue

  class ReadIndexQueue {
    var pending: map<Context, ReadIndexStatus>
    var queue: seq<Context>

    function State(): ReadOnly
      reads this
    {
      ReadOnly(pending, queue)
    }

    constructor ()
      ensures State() == EMPTY
    {
      pending := map[];
      queue := [];
    }

    method LastPendingRequestCtx() returns (ctx: Context)
      ensures ctx == LastPendingCtx(State())
    {
      if queue == [] { return []; }
      ctx := queue[|queue| - 1];
    }

    method RecvAck(m: Message) returns (n: nat)
      modifies this`pending
      ensures State() == ReadOnlySpec.RecvAck(old(State()), m) && n == AckCount(old(State()), m)
    {
      if m.context !in pending { return 0; }
      var s := pending[m.context];
      s := s.(acks := s.acks + {m.from});
      pending := pending[m.context := s];
      n := |s.acks| + 1;
    }

    method AddRequest(index: nat, m: Message)
      requires m.entries != []
      modifies this
      ensures State() == ReadOnlySpec.AddRequest(old(State()), index, m)
    {
      var ctx := CtxOf(m);
      if ctx in pending { return; }
      pending := pending[ctx := ReadIndexStatus(m, index, {})];
      queue := queue + [ctx];
    }

    /** The walk of advance(): the requests up to the context, or all of them when it is not there. */
    method Walk(ctx: Context) returns (died: bool, found: bool, i: nat, rss: seq<ReadIndexStatus>)
      requires Consistent(State())
      ensures !died && rss == AdvanceStatuses(State(), ctx) && i <= |queue| && rss == StatusesOf(State(), queue[..i])
      ensures (found <==> ctx in queue) && (found ==> Released(queue, ctx) == i)
    {
      hide Consistent, StatusesOf, Released;
      died, found, i, rss := false, false, 0, [];
      ghost var r := State();
      AdvanceNeverFails(r, ctx);
      NoStatuses(r);
      while i < |queue|
        invariant 0 <= i <= |queue| && ctx !in queue[..i]
        invariant rss == StatusesOf(r, queue[..i])
      {
        var okctx := queue[i];
        StatusesSnoc(r, queue[..i], okctx);
        assert queue[..i] + [okctx] == queue[..i + 1];
        QueuedPending(r, i);
        i := i + 1;
        if okctx !in pending { return true, found, i, rss; }
        rss := rss + [pending[okctx]];
        if okctx == ctx {
          found := true;
          break;
        }
      }
      WalkedIs(r, ctx, i, found);
    }

    /** Takes the walked requests out of the map. */
    method Drop(rss: seq<ReadIndexStatus>)
      requires forall s :: s in rss ==> s.req.entries != []
      modifies this`pending
      ensures pending == Erase(old(pending), rss)
    {
      var j := 0;
      while j < |rss|
        invariant 0 <= j <= |rss|
        invariant Erase(old(pending), rss) == Erase(pending, rss[j..])
      {
        assert rss[j] in rss && rss[j..][0] == rss[j] && rss[j..][1..] == rss[j + 1..];
        pending := pending - {CtxOf(rss[j].req)};
        j := j + 1;
      }
    }

    /** Walks the queue up to the context; the walked requests are removed only if it is there. */
    method Advance(ctx: Context) returns (died: bool, rss: seq<ReadIndexStatus>)
      requires Consistent(State())
      modifies this
      ensures !died && rss == AdvanceStatuses(old(State()), ctx)
      ensures State() == ReadOnlySpec.Advance(old(State()), ctx)
    {
      hide Consistent, StatusesOf, Released, Erase;
      var found, i;
      died, found, i, rss := Walk(ctx);
      if found {
        StatusesCtx(State(), i);
        Drop(rss);
        queue := queue[i..];
      }
    }
  }
}
