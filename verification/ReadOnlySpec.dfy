/** The queue of read requests that wait for a round of heartbeats, as a value. */
module ReadOnlySpec {
  import opened Proto

  type Context = seq<byte>

  datatype ReadIndexStatus = ReadIndexStatus(req: Message, index: nat, acks: set<Id>)

  datatype ReadState = ReadState(index: nat, requestCtx: Context)

  datatype ReadOnly = ReadOnly(pending: map<Context, ReadIndexStatus>, queue: seq<Context>)

  const EMPTY := ReadOnly(map[], [])

  /** The context that identifies a request: the payload of its first entry. */
  function CtxOf(m: Message): Context
    requires m.entries != []
  {
    m.entries[0].data
  }

  function LastPendingCtx(r: ReadOnly): Context {
    if r.queue == [] then [] else r.queue[|r.queue| - 1]
  }

  function AddRequest(r: ReadOnly, index: nat, m: Message): ReadOnly
    requires m.entries != []
  {
    if CtxOf(m) in r.pending then r
    else ReadOnly(r.pending[CtxOf(m) := ReadIndexStatus(m, index, {})], r.queue + [CtxOf(m)])
  }

  /** Acknowledgements of a request after one more, counting the leader itself; 0 for an unknown request. */
  function AckCount(r: ReadOnly, m: Message): nat {
    if m.context !in r.pending then 0 else |r.pending[m.context].acks + {m.from}| + 1
  }

  function RecvAck(r: ReadOnly, m: Message): ReadOnly {
    if m.context !in r.pending then r
    else
      var s := r.pending[m.context];
      r.(pending := r.pending[m.context := s.(acks := s.acks + {m.from})])
  }

  /** How many requests at the front of the queue are released by reaching ctx; none when ctx is not queued. */
  function Released(queue: seq<Context>, ctx: Context): (n: nat)
    ensures n <= |queue|
    ensures ctx !in queue ==> n == 0
    ensures ctx in queue ==> n > 0 && queue[n - 1] == ctx && ctx !in queue[..n - 1]
  {
    if queue == [] then 0
    else if queue[0] == ctx then 1
    else
      var n := Released(queue[1..], ctx);
      if n == 0 then 0 else n + 1
  }

  /** The queue and the pending map describe the same requests, each once. */
  ghost predicate Consistent(r: ReadOnly) {
    && (forall c :: c in r.queue <==> c in r.pending)
    && (forall i, j :: 0 <= i < j < |r.queue| ==> r.queue[i] != r.queue[j])
    && (forall c :: c in r.pending ==> r.pending[c].req.entries != [] && CtxOf(r.pending[c].req) == c)
  }

  /** The requests advance() walks over: up to ctx, or all of them when ctx is not there. */
  function Walked(r: ReadOnly, ctx: Context): seq<Context> {
    if ctx in r.queue then r.queue[..Released(r.queue, ctx)] else r.queue
  }

  /** advance() stops the process when a walked request is missing from the map. */
  predicate AdvanceFails(r: ReadOnly, ctx: Context) {
    exists c :: c in Walked(r, ctx) && c !in r.pending
  }

  function AdvanceStatuses(r: ReadOnly, ctx: Context): seq<ReadIndexStatus> {
    StatusesOf(r, Walked(r, ctx))
  }

  function StatusesOf(r: ReadOnly, cs: seq<Context>): (s: seq<ReadIndexStatus>) {
    if cs == [] then []
    else (if cs[0] in r.pending then [r.pending[cs[0]]] else []) + StatusesOf(r, cs[1..])
  }

  function Erase(pending: map<Context, ReadIndexStatus>, ss: seq<ReadIndexStatus>): map<Context, ReadIndexStatus> {
    if ss == [] then pending
    else if ss[0].req.entries == [] then Erase(pending, ss[1..])
    else Erase(pending - {CtxOf(ss[0].req)}, ss[1..])
  }

  function Advance(r: ReadOnly, ctx: Context): ReadOnly {
    if ctx in r.queue then
      ReadOnly(Erase(r.pending, AdvanceStatuses(r, ctx)), r.queue[Released(r.queue, ctx)..])
    else r
  }
}
