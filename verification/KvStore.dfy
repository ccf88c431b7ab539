/** The key-value state machine: its two backends, snapshots of it, and replay of operations after a restart. */
module KvStore {
  type Store = map<string, string>

  datatype Op = Set(key: string, value: string) | Del(keys: seq<string>)

  function DeleteAll(m: Store, keys: seq<string>): Store {
    if keys == [] then m else DeleteAll(m - {keys[0]}, keys[1..])
  }

  function Apply(m: Store, op: Op): Store {
    match op
    case Set(k, v) => m[k := v]
    case Del(keys) => DeleteAll(m, keys)
  }

  function Run(m: Store, ops: seq<Op>): Store
    decreases |ops|
  {
    if ops == [] then m else Run(Apply(m, ops[0]), ops[1..])
  }

  // --------------------------------------------------------------------------
  // What a store holds

  predicate Holds(m: Store, key: string, value: string) { key in m && m[key] == value }

  predicate Touches(op: Op, key: string) {
    match op
    case Set(k, _) => k == key
    case Del(keys) => key in keys
  }

  predicate Touched(ops: seq<Op>, key: string) {
    exists i :: 0 <= i < |ops| && Touches(ops[i], key)
  }

  predicate SameAt(a: Store, b: Store, key: string) {
    (key in a <==> key in b) && (key in a && key in b ==> a[key] == b[key])
  }

  lemma {:induction false} DeletedAre(m: Store, keys: seq<string>)
    ensures forall k :: k in DeleteAll(m, keys) <==> k in m && k !in keys
    ensures forall k :: k in DeleteAll(m, keys) ==> DeleteAll(m, keys)[k] == m[k]
  {
    if keys != [] {
      DeletedAre(m - {keys[0]}, keys[1..]);
      assert keys == [keys[0]] + keys[1..];
    }
  }

  /** One operation: a Set leaves its value under its key, a Del nothing under its keys, and all other keys stay. */
  lemma ApplyHolds(m: Store, op: Op)
    ensures forall key, v ::
      Holds(Apply(m, op), key, v) <==> op == Set(key, v) || (!Touches(op, key) && Holds(m, key, v))
  {
    if op.Del? { DeletedAre(m, op.keys); }
  }

  /**
   The law of the store, over any history: a key has a value if and only if the last operation that touches the key set
   it to that value, or none touches it and it had the value before.
   */
  lemma {:induction false} RunHolds(m: Store, ops: seq<Op>, key: string, v: string)
    ensures Holds(Run(m, ops), key, v) <==>
      || (exists i :: 0 <= i < |ops| && ops[i] == Set(key, v) && !Touched(ops[i + 1..], key))
      || (!Touched(ops, key) && Holds(m, key, v))
    decreases |ops|
  {
    if ops != [] {
      hide Apply, Holds;
      RunHolds(Apply(m, ops[0]), ops[1..], key, v);
      ApplyHolds(m, ops[0]);
      TouchedFirst(ops, key);
      forall i | 0 <= i < |ops| ensures i > 0 ==> ops[i] == ops[1..][i - 1] && ops[i + 1..] == ops[1..][i..] {}
      if i :| 0 <= i < |ops[1..]| && ops[1..][i] == Set(key, v) && !Touched(ops[1..][i + 1..], key) {
        assert ops[i + 1] == Set(key, v) && ops[i + 2..] == ops[1..][i + 1..];
      }
    }
  }

  lemma TouchedFirst(ops: seq<Op>, key: string)
    requires ops != []
    ensures Touched(ops, key) <==> Touches(ops[0], key) || Touched(ops[1..], key)
  {
    if k :| 0 <= k < |ops[1..]| && Touches(ops[1..][k], key) { assert Touches(ops[k + 1], key); }
    if k :| 0 <= k < |ops| && Touches(ops[k], key) {
      if k > 0 { assert Touches(ops[1..][k - 1], key); }
    }
  }

  // --------------------------------------------------------------------------
  // Replay

  /** One operation decides the keys it touches and leaves the others alone. */
  lemma ApplySame(a: Store, b: Store, op: Op, key: string)
    ensures Touches(op, key) ==> SameAt(Apply(a, op), Apply(b, op), key)
    ensures !Touches(op, key) ==> SameAt(Apply(a, op), a, key)
  {
    if op.Del? {
      DeletedAre(a, op.keys);
      DeletedAre(b, op.keys);
    }
  }

  /** After the same operations, two stores agree wherever they agreed before or something was done. */
  lemma {:induction false} RunSame(a: Store, b: Store, ops: seq<Op>, key: string)
    requires SameAt(a, b, key) || Touched(ops, key)
    ensures SameAt(Run(a, ops), Run(b, ops), key)
    decreases |ops|
  {
    if ops != [] {
      var a', b' := Apply(a, ops[0]), Apply(b, ops[0]);
      ApplySame(a, b, ops[0], key);
      ApplySame(b, a, ops[0], key);
      if !SameAt(a', b', key) {
        var i :| 0 <= i < |ops| && Touches(ops[i], key);
        assert i > 0 && Touches(ops[1..][i - 1], key);
      }
      RunSame(a', b', ops[1..], key);
    }
  }

  lemma {:induction false} RunUntouched(m: Store, ops: seq<Op>, key: string)
    requires !Touched(ops, key)
    ensures SameAt(Run(m, ops), m, key)
    decreases |ops|
  {
    if ops != [] {
      assert !Touches(ops[0], key);
      ApplySame(m, m, ops[0], key);
      forall i | 0 <= i < |ops[1..]| ensures !Touches(ops[1..][i], key) { assert !Touches(ops[i + 1], key); }
      RunUntouched(Apply(m, ops[0]), ops[1..], key);
    }
  }

  lemma {:induction false} RunConcat(m: Store, a: seq<Op>, b: seq<Op>)
    ensures Run(m, a + b) == Run(Run(m, a), b)
    decreases |a|
  {
    if a == [] {
      assert a + b == b;
    } else {
      assert (a + b)[0] == a[0] && (a + b)[1..] == a[1..] + b;
      RunConcat(Apply(m, a[0]), a[1..], b);
    }
  }

  lemma SameStore(a: Store, b: Store)
    requires forall key :: SameAt(a, b, key)
    ensures a == b
  {
    forall key ensures (key in a <==> key in b) && (key in a ==> a[key] == b[key]) { assert SameAt(a, b, key); }
  }

  /** Replaying a longer history onto a store that already holds a part of it gives the longer history's store. */
  lemma ReplayIdempotent(m: Store, ops: seq<Op>, j: nat)
    requires j <= |ops|
    ensures Run(Run(m, ops[..j]), ops) == Run(m, ops)
  {
    var held := Run(m, ops[..j]);
    forall key ensures SameAt(Run(held, ops), Run(m, ops), key) {
      if Touched(ops[..j], key) {
        var i :| 0 <= i < j && Touches(ops[..j][i], key);
        assert Touches(ops[i], key);
      } else {
        RunUntouched(m, ops[..j], key);
      }
      RunSame(held, m, ops, key);
    }
    SameStore(Run(held, ops), Run(m, ops));
  }

  // --------------------------------------------------------------------------
  // Snapshots

  function FromPairs(kvs: seq<(string, string)>): Store {
    if kvs == [] then map[]
    else FromPairs(kvs[..|kvs| - 1])[kvs[|kvs| - 1].0 := kvs[|kvs| - 1].1]
  }

  predicate HasKey(kvs: seq<(string, string)>, key: string) {
    exists i :: 0 <= i < |kvs| && kvs[i].0 == key
  }

  datatype BatchOp = Delete(key: string) | Put(key: string, value: string)

  /** A write batch takes effect in the order in which it was filled. */
  function Write(m: Store, batch: seq<BatchOp>): Store {
    if batch == [] then m
    else
      var m' := Write(m, batch[..|batch| - 1]);
      match batch[|batch| - 1]
      case Delete(k) => m' - {k}
      case Put(k, v) => m'[k := v]
  }

  function Deletes(keys: seq<string>): (b: seq<BatchOp>)
    ensures |b| == |keys|
  {
    seq(|keys|, i requires 0 <= i < |keys| => Delete(keys[i]))
  }

  function Puts(kvs: seq<(string, string)>): (b: seq<BatchOp>)
    ensures |b| == |kvs|
  {
    seq(|kvs|, i requires 0 <= i < |kvs| => Put(kvs[i].0, kvs[i].1))
  }

  lemma {:induction false} WriteDeletes(m: Store, keys: seq<string>)
    ensures forall k :: k in Write(m, Deletes(keys)) <==> k in m && k !in keys
    ensures forall k :: k in Write(m, Deletes(keys)) ==> Write(m, Deletes(keys))[k] == m[k]
  {
    if keys != [] {
      var n := |keys| - 1;
      WriteDeletes(m, keys[..n]);
      assert Deletes(keys)[..n] == Deletes(keys[..n]);
      assert keys == keys[..n] + [keys[n]];
    }
  }

  lemma WritePut(m: Store, batch: seq<BatchOp>, k: string, v: string)
    ensures Write(m, batch + [Put(k, v)]) == Write(m, batch)[k := v]
  {
    var all := batch + [Put(k, v)];
    assert all[..|all| - 1] == batch;
  }

  lemma {:induction false} WritePuts(m: Store, batch: seq<BatchOp>, kvs: seq<(string, string)>)
    ensures Write(m, batch + Puts(kvs)) == Write(m, batch) + FromPairs(kvs)
  {
    hide Write;
    if kvs == [] {
      assert batch + Puts(kvs) == batch;
    } else {
      var n := |kvs| - 1;
      WritePuts(m, batch, kvs[..n]);
      var before := batch + Puts(kvs[..n]);
      WritePut(m, before, kvs[n].0, kvs[n].1);
      assert batch + Puts(kvs) == before + [Put(kvs[n].0, kvs[n].1)];
    }
  }

  lemma {:induction false} PairsKeys(kvs: seq<(string, string)>)
    ensures forall k :: k in FromPairs(kvs) <==> HasKey(kvs, k)
  {
    if kvs != [] {
      var n := |kvs| - 1;
      PairsKeys(kvs[..n]);
      forall k ensures k in FromPairs(kvs) <==> HasKey(kvs, k) {
        if HasKey(kvs[..n], k) {
          var i :| 0 <= i < n && kvs[..n][i].0 == k;
          assert kvs[i].0 == k;
        }
        if HasKey(kvs, k) {
          var i :| 0 <= i <= n && kvs[i].0 == k;
          if i < n { assert kvs[..n][i].0 == k; } else { assert kvs[n].0 == k; }
        }
      }
    }
  }

  /**
   What the nested loops of load_kv_to_rocksdb collect: only keys of the store, and every stale one if there is a
   pair.
   */
  predicate StaleKeys(m: Store, kvs: seq<(string, string)>, del: seq<string>) {
    && (forall k :: k in del ==> k in m)
    && (forall k :: k in m && !HasKey(kvs, k) && kvs != [] ==> k in del)
    && (kvs == [] ==> del == [])
  }

  /** The store after a load: nothing is deleted when there is nothing to put. */
  function Loaded(m: Store, kvs: seq<(string, string)>): Store {
    if kvs == [] then m else FromPairs(kvs)
  }

  /**
   The deletes and puts of one batch, whatever else is on the delete list, leave just the pairs - if there are any.
   */
  lemma BatchLoads(m: Store, kvs: seq<(string, string)>, del: seq<string>)
    requires StaleKeys(m, kvs, del)
    ensures Write(m, Deletes(del) + Puts(kvs)) == Loaded(m, kvs)
  {
    hide Write, Deletes, Puts;
    WriteDeletes(m, del);
    WritePuts(m, Deletes(del), kvs);
    PairsKeys(kvs);
    if kvs == [] {
      assert Write(m, Deletes(del)) == m;
    } else {
      assert Write(m, Deletes(del)) + FromPairs(kvs) == FromPairs(kvs);
    }
  }

  /** Loading a snapshot leaves exactly its pairs if and only if it has any or the store was empty before. */
  lemma LoadExactIff(m: Store, kvs: seq<(string, string)>, del: seq<string>)
    requires StaleKeys(m, kvs, del)
    ensures Write(m, Deletes(del) + Puts(kvs)) == FromPairs(kvs) <==> (kvs != [] || m == map[])
  {
    hide Write, Deletes, Puts, StaleKeys;
    BatchLoads(m, kvs, del);
  }

  /** The batch of an empty snapshot does nothing: a store that should become empty keeps all it had. */
  lemma EmptySnapshotKeeps(m: Store, del: seq<string>)
    requires StaleKeys(m, [], del)
    ensures Write(m, Deletes(del) + Puts([])) == m
  {
    hide Write, Deletes, Puts, StaleKeys;
    BatchLoads(m, [], del);
  }

  /** The pairs of a store, each key once. */
  predicate PairsOf(m: Store, kvs: seq<(string, string)>) { FromPairs(kvs) == m }

  /**
   A snapshot of the first i operations, loaded over any store whatever, and then the operations after it, give the
   store of all operations if and only if the snapshot has a pair, or those operations touch every key that was there.
   */
  lemma SnapshotPlusRest(m: Store, ops: seq<Op>, i: nat, kvs: seq<(string, string)>)
    requires i <= |ops| && PairsOf(Run(map[], ops[..i]), kvs)
    ensures Run(Loaded(m, kvs), ops[i..]) == Run(map[], ops) <==>
      kvs != [] || forall key :: key in m ==> Touched(ops[i..], key)
  {
    hide Run, Touched;
    var rest := ops[i..];
    assert ops == ops[..i] + rest;
    RunConcat(map[], ops[..i], rest);
    if kvs == [] {
      OverTouched(m, rest);
    }
  }

  /** Operations give the same over a store as over nothing if and only if they touch all its keys. */
  lemma OverTouched(m: Store, ops: seq<Op>)
    ensures Run(m, ops) == Run(map[], ops) <==> forall key :: key in m ==> Touched(ops, key)
  {
    hide Run, Touched;
    forall key | key in m && !Touched(ops, key) ensures Run(m, ops) != Run(map[], ops) {
      RunUntouched(m, ops, key);
      RunUntouched(map[], ops, key);
    }
    if forall key :: key in m ==> Touched(ops, key) {
      forall key ensures SameAt(Run(m, ops), Run(map[], ops), key) { RunSame(m, map[], ops, key); }
      SameStore(Run(m, ops), Run(map[], ops));
    }
  }

  /** After a restart the store holds no fewer operations than the snapshot: recovery then always gives the whole. */
  lemma RestartRecovers(ops: seq<Op>, i: nat, j: nat, kvs: seq<(string, string)>)
    requires i <= j <= |ops| && PairsOf(Run(map[], ops[..i]), kvs)
    ensures Run(Loaded(Run(map[], ops[..j]), kvs), ops[i..]) == Run(map[], ops)
  {
    hide Run, Touched;
    var m := Run(map[], ops[..j]);
    SnapshotPlusRest(m, ops, i, kvs);
    if kvs == [] {
      assert ops[..j] == ops[..i] + ops[i..j];
      RunConcat(map[], ops[..i], ops[i..j]);
      forall key | key in m ensures Touched(ops[i..], key) {
        if !Touched(ops[i..j], key) { RunUntouched(map[], ops[i..j], key); }
        TouchedMore(ops, i, j, key);
      }
    }
  }

  lemma TouchedMore(ops: seq<Op>, i: nat, j: nat, key: string)
    requires i <= j <= |ops| && Touched(ops[i..j], key)
    ensures Touched(ops[i..], key)
  {
    var k :| 0 <= k < j - i && Touches(ops[i..j][k], key);
    assert ops[i..][k] == ops[i..j][k];
  }

  /** A lagging follower is sent a snapshot ahead of it: an empty one leaves a key that has long been deleted. */
  lemma LaggingFollowerKeeps(x: string, v: string)
    ensures var ops := [Set(x, v), Del([x])];
      PairsOf(Run(map[], ops[..2]), []) && Run(Loaded(Run(map[], ops[..1]), []), ops[2..]) != Run(map[], ops)
  {
    hide Run;
    var ops := [Set(x, v), Del([x])];
    assert ops[..2] == ops && ops[2..] == [] && ops[..1] == [Set(x, v)] && ops == [Set(x, v)] + [Del([x])];
    RunOne(map[], Set(x, v));
    RunOne(map[x := v], Del([x]));
    RunConcat(map[], [Set(x, v)], [Del([x])]);
    DeletedAre(map[x := v], [x]);
    assert DeleteAll(map[x := v], [x]) == map[];
    RunNone(map[x := v]);
    assert Run(map[], ops[..1]) == map[x := v];
    assert Run(map[], ops) == map[];
    assert x in map[x := v];
  }

  lemma RunOne(m: Store, op: Op)
    ensures Run(m, [op]) == Apply(m, op)
  {
    assert [op][1..] == [];
  }

  lemma RunNone(m: Store)
    ensures Run(m, []) == m
  {
  }

  // --------------------------------------------------------------------------
  // The two backends

  datatype Act = Do(op: Op) | Load(kvs: seq<(string, string)>)

  /** The hash map is replaced by a snapshot's pairs, whatever they are. */
  function RunHash(m: Store, acts: seq<Act>): Store
    decreases |acts|
  {
    if acts == [] then m
    else RunHash(if acts[0].Do? then Apply(m, acts[0].op) else FromPairs(acts[0].kvs), acts[1..])
  }

  function RunRocks(m: Store, acts: seq<Act>): Store
    decreases |acts|
  {
    if acts == [] then m
    else RunRocks(if acts[0].Do? then Apply(m, acts[0].op) else Loaded(m, acts[0].kvs), acts[1..])
  }

  /** An empty snapshot is only loaded into an empty store. */
  predicate CleanLoads(m: Store, acts: seq<Act>)
    decreases |acts|
  {
    acts == []
    || (acts[0].Do? && CleanLoads(Apply(m, acts[0].op), acts[1..]))
    || (acts[0].Load? && (acts[0].kvs != [] || m == map[]) && CleanLoads(FromPairs(acts[0].kvs), acts[1..]))
  }

  ghost predicate AgreeAlong(m: Store, acts: seq<Act>) {
    forall k :: 0 <= k <= |acts| ==> RunRocks(m, acts[..k]) == RunHash(m, acts[..k])
  }

  /** The two backends hold the same store all along a run if and only if empty snapshots only meet empty stores. */
  lemma {:induction false} BackendsAgree(m: Store, acts: seq<Act>)
    ensures AgreeAlong(m, acts) <==> CleanLoads(m, acts)
    decreases |acts|
  {
    hide Apply, FromPairs;
    if acts != [] {
      FirstAct(m, acts);
      var m' := if acts[0].Do? then Apply(m, acts[0].op) else FromPairs(acts[0].kvs);
      BackendsAgree(m', acts[1..]);
      if acts[0].Do? || Loaded(m, acts[0].kvs) == FromPairs(acts[0].kvs) { AgreeFirst(m, acts); }
    }
  }

  lemma FirstAct(m: Store, acts: seq<Act>)
    requires acts != []
    ensures var a := acts[0]; AgreeAlong(m, acts) ==> (a.Load? ==> Loaded(m, a.kvs) == FromPairs(a.kvs))
    ensures var a := acts[0]; a.Load? ==> (Loaded(m, a.kvs) == FromPairs(a.kvs) <==> a.kvs != [] || m == map[])
  {
    hide Apply;
    var one := acts[..1];
    assert one[1..] == [] && one[0] == acts[0];
    if AgreeAlong(m, acts) { assert RunRocks(m, one) == RunHash(m, one); }
  }

  /** Agreement along a run is agreement on its first act and along the rest. */
  lemma AgreeFirst(m: Store, acts: seq<Act>)
    requires acts != [] && (acts[0].Load? ==> Loaded(m, acts[0].kvs) == FromPairs(acts[0].kvs))
    ensures var m' := if acts[0].Do? then Apply(m, acts[0].op) else FromPairs(acts[0].kvs);
      AgreeAlong(m, acts) <==> AgreeAlong(m', acts[1..])
  {
    hide Apply, FromPairs, Loaded;
    var m' := if acts[0].Do? then Apply(m, acts[0].op) else FromPairs(acts[0].kvs);
    forall k | 0 <= k < |acts|
      ensures RunRocks(m, acts[..k + 1]) == RunRocks(m', acts[1..][..k])
      ensures RunHash(m, acts[..k + 1]) == RunHash(m', acts[1..][..k])
    {
      assert acts[..k + 1][1..] == acts[1..][..k] && acts[..k + 1][0] == acts[0];
    }
    assert RunRocks(m, acts[..0]) == RunHash(m, acts[..0]);
    if AgreeAlong(m, acts) {
      forall k | 0 <= k <= |acts[1..]| ensures RunRocks(m', acts[1..][..k]) == RunHash(m', acts[1..][..k]) {
        assert RunRocks(m, acts[..k + 1]) == RunHash(m, acts[..k + 1]);
      }
    }
    if AgreeAlong(m', acts[1..]) {
      forall k | 0 <= k <= |acts| ensures RunRocks(m, acts[..k]) == RunHash(m, acts[..k]) {
        if k > 0 { assert RunRocks(m', acts[1..][..k - 1]) == RunHash(m', acts[1..][..k - 1]); }
      }
    }
  }

  /** raft-kv-master: a hash map. */
  class HashStore {
    var data: Store

    constructor ()
      ensures data == map[]
    {
      data := map[];
    }

    method ReadCommit(op: Op)
      modifies this
      ensures data == Apply(old(data), op)
      ensures forall key, v ::
        Holds(data, key, v) <==> op == Set(key, v) || (!Touches(op, key) && Holds(old(data), key, v))
    {
      ApplyHolds(data, op);
      match op {
        case Set(k, v) => data := data[k := v];
        case Del(keys) =>
          var i := 0;
          while i < |keys|
            invariant 0 <= i <= |keys| && DeleteAll(old(data), keys) == DeleteAll(data, keys[i..])
          {
            assert keys[i..][1..] == keys[i + 1..];
            data := data - {keys[i]};
            i := i + 1;
          }
      }
    }

    method RecoverFromSnapshot(kvs: seq<(string, string)>)
      modifies this
      ensures data == FromPairs(kvs)
    {
      var kv: Store := map[];
      var i := 0;
      while i < |kvs|
        invariant 0 <= i <= |kvs| && kv == FromPairs(kvs[..i])
      {
        assert kvs[..i + 1][..i] == kvs[..i];
        kv := kv[kvs[i].0 := kvs[i].1];
        i := i + 1;
      }
      assert kvs[..i] == kvs;
      data := kv;
    }
  }

  /** raft-kv: RocksDB, as an ordered map with batches. */
  class RocksStore {
    var db: Store

    constructor (db: Store)
      ensures this.db == db
    {
      this.db := db;
    }

    method ReadCommit(op: Op)
      modifies this
      ensures db == Apply(old(db), op)
      ensures forall key, v ::
        Holds(db, key, v) <==> op == Set(key, v) || (!Touches(op, key) && Holds(old(db), key, v))
    {
      ApplyHolds(db, op);
      match op {
        case Set(k, v) => db := db[k := v];
        case Del(keys) =>
          var i := 0;
          while i < |keys|
            invariant 0 <= i <= |keys| && DeleteAll(old(db), keys) == DeleteAll(db, keys[i..])
          {
            assert keys[i..][1..] == keys[i + 1..];
            db := db - {keys[i]};
            i := i + 1;
          }
      }
    }

    /** get_all_key_value: every pair of the database, once. */
    method GetAllKeyValue() returns (kvs: seq<(string, string)>)
      ensures PairsOf(db, kvs)
    {
      kvs := [];
      var rest := db.Keys;
      while rest != {}
        invariant rest <= db.Keys
        invariant FromPairs(kvs) == map k | k in db && k !in rest :: db[k]
        decreases |rest|
      {
        var k :| k in rest;
        rest := rest - {k};
        assert (kvs + [(k, db[k])])[..|kvs|] == kvs;
        kvs := kvs + [(k, db[k])];
      }
    }

    /**
     The delete list of load_kv_to_rocksdb: a key goes on it once for every pair before its own, or for every pair.
     */
    method KeysToDelete(kvs: seq<(string, string)>) returns (del: seq<string>)
      ensures StaleKeys(db, kvs, del)
    {
      del := [];
      var rest := db.Keys;
      while rest != {}
        invariant rest <= db.Keys
        invariant forall k :: k in del ==> k in db
        invariant forall k :: k in db && k !in rest && !HasKey(kvs, k) && kvs != [] ==> k in del
        invariant kvs == [] ==> del == []
        decreases |rest|
      {
        var key :| key in rest;
        rest := rest - {key};
        var found := false;
        var i := 0;
        ghost var before := del;
        while i < |kvs| && !found
          invariant 0 <= i <= |kvs|
          invariant before <= del && (forall k :: k in del ==> k in before || k == key)
          invariant !found && i > 0 ==> key in del
          invariant found ==> HasKey(kvs, key)
          invariant kvs == [] ==> del == before
        {
          if kvs[i].0 == key {
            found := true;
          } else {
            del := del + [key];
          }
          i := i + 1;
        }
      }
    }

    method LoadKv(kvs: seq<(string, string)>)
      modifies this
      ensures db == Loaded(old(db), kvs)
    {
      var del := KeysToDelete(kvs);
      var batch := Deletes(del) + Puts(kvs);
      BatchLoads(db, kvs, del);
      db := Write(db, batch);
    }
  }
}
