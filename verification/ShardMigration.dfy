/** The migration's jobs, carried out by shard objects on stores without expiry. */
module ShardMigration {
  import opened Seqs
  import opened Values
  import opened Timed
  import opened Shards
  import opened Migration
  import opened MigrationInvariant
  import opened MigrationClients
  import opened MigrationTask

  /** The store holds what the cluster's data has at node `n`, and nothing that expires. */
  ghost predicate Holds(t: TimedMap, data: map<Loc, Value>, n: Node) {
    forall k :: CellAt(t, k) == match Slot(data, n, k) case None => None case Some(v) => Some(Cell(v, None))
  }

  lemma {:induction false} HoldsAt(t: TimedMap, data: map<Loc, Value>, n: Node, k: Key, now: nat)
    requires Holds(t, data, n)
    ensures ReadAt(t, k, now) == Slot(data, n, k) && (k in t ==> !Expired(t[k], now))
  {
    assert CellAt(t, k) == match Slot(data, n, k) case None => None case Some(v) => Some(Cell(v, None));
  }

  ghost function Travelling(c: Conf, o: Overlay, chunk: set<nat>, j: CopyJob): set<nat> {
    set b | b in chunk && Travels(c, o, chunk, j, b)
  }

  ghost function Going(c: Conf, o: Overlay, chunk: set<nat>, j: DropJob): set<nat> {
    set b | b in chunk && Goes(c, o, chunk, j, b)
  }

  /** An export of the travelling buckets is the job's export. */
  lemma {:induction false} ExportIsJob(c: Conf, o: Overlay, chunk: set<nat>, j: CopyJob, data: map<Loc, Value>,
                                       t: TimedMap, entries: seq<(Key, Value)>, now: nat, k: Key)
    requires Holds(t, data, j.from)
    requires Exports(entries, t, j.coll, Travelling(c, o, chunk, j), c.bucketOf, now)
    ensures At(Export(c, o, chunk, j, data), k).Some? <==> k in Shards.KeysOf(entries)
    ensures forall v :: (k, v) in entries ==> At(Export(c, o, chunk, j, data), k) == Some(v)
  {
    HoldsAt(t, data, j.from, k, now);
    ExportAt(c, o, chunk, j, data, k);
    if At(Export(c, o, chunk, j, data), k).Some? { assert (k, data[Loc(j.from, k)]) in entries; }
    forall e | e in entries && e.0 == k ensures At(Export(c, o, chunk, j, data), k) == Some(e.1) {
      assert (e.0, e.1) in entries;
    }
  }

  /** What the target holds of one key after the import. */
  lemma {:induction false} CopyAt(c: Conf, o: Overlay, chunk: set<nat>, j: CopyJob, data: map<Loc, Value>,
                                  t: TimedMap, u: TimedMap, entries: seq<(Key, Value)>, now: nat, k: Key)
    requires Holds(t, data, j.from) && Holds(u, data, j.to)
    requires Exports(entries, t, j.coll, Travelling(c, o, chunk, j), c.bucketOf, now)
    ensures CellAt(PutAll(u, entries), k)
            == match Slot(Import(data, j.to, Export(c, o, chunk, j, data)), j.to, k)
               case None => None
               case Some(v) => Some(Cell(v, None))
  {
    ExportIsJob(c, o, chunk, j, data, t, entries, now, k);
    SlotAfterImport(data, j.to, Export(c, o, chunk, j, data), j.to, k);
    PutAllAt(u, entries, k);
    assert CellAt(u, k) == match Slot(data, j.to, k) case None => None case Some(v) => Some(Cell(v, None));
    if k in Shards.KeysOf(entries) {
      var x :| x in entries && x.0 == k;
      assert (k, x.1) in entries;
    }
  }

  /** Whoever held a node's data holds it as long as that node does not change. */
  lemma {:induction false} OthersHold(data: map<Loc, Value>, data': map<Loc, Value>, m: Node)
    requires forall n, k :: n != m ==> Slot(data', n, k) == Slot(data, n, k)
    ensures forall w, n :: n != m && Holds(w, data, n) ==> Holds(w, data', n)
  {}

  /** Export at the source and import at the target are the job's copy; no other node changes. */
  lemma {:induction false} CopyIsJob(c: Conf, o: Overlay, chunk: set<nat>, j: CopyJob, data: map<Loc, Value>,
                                     t: TimedMap, u: TimedMap, entries: seq<(Key, Value)>, now: nat)
    requires Holds(t, data, j.from) && Holds(u, data, j.to)
    requires Exports(entries, t, j.coll, Travelling(c, o, chunk, j), c.bucketOf, now)
    ensures var data' := Import(data, j.to, Export(c, o, chunk, j, data));
            && Holds(PutAll(u, entries), data', j.to)
            && forall w, n :: n != j.to && Holds(w, data, n) ==> Holds(w, data', n)
  {
    var e := Export(c, o, chunk, j, data);
    var data' := Import(data, j.to, e);
    forall k ensures CellAt(PutAll(u, entries), k)
                  == match Slot(data', j.to, k) case None => None case Some(v) => Some(Cell(v, None))
    {
      CopyAt(c, o, chunk, j, data, t, u, entries, now, k);
    }
    forall n, k | n != j.to ensures Slot(data', n, k) == Slot(data, n, k) { SlotAfterImport(data, j.to, e, n, k); }
    OthersHold(data, data', j.to);
  }

  /** Dropping the going buckets at their node is the job's drop; no other node changes. */
  lemma {:induction false} DropIsJob(c: Conf, o: Overlay, chunk: set<nat>, j: DropJob, data: map<Loc, Value>,
                                     t: TimedMap, now: nat)
    requires Holds(t, data, j.node)
    ensures var data' := DropBuckets(c, o, chunk, j, data);
            && Holds(Dropped(t, j.coll, Going(c, o, chunk, j), c.bucketOf, now), data', j.node)
            && forall w, n :: n != j.node && Holds(w, data, n) ==> Holds(w, data', n)
  {
    var data' := DropBuckets(c, o, chunk, j, data);
    forall k ensures CellAt(Dropped(t, j.coll, Going(c, o, chunk, j), c.bucketOf, now), k)
                  == match Slot(data', j.node, k) case None => None case Some(v) => Some(Cell(v, None))
    {
      HoldsAt(t, data, j.node, k, now);
    }
    forall n, k | n != j.node ensures Slot(data', n, k) == Slot(data, n, k) {}
    OthersHold(data, data', j.node);
  }

  /** One copy job, as the migration runs it: export from one shard, import into the other. */
  method RunCopyJob(c: Conf, ghost o: Overlay, ghost chunk: set<nat>, j: CopyJob, ghost data: map<Loc, Value>,
                    from: Shard, to: Shard, buckets: seq<nat>, now: nat)
    returns (copied: nat)
    requires from.store.Parts() !! to.store.Parts() && from.store.Valid() && to.store.Valid()
    requires from.bucketOf == c.bucketOf && from.store.Opens(j.coll) && to.store.Opens(j.coll)
    requires Holds(from.store.Model(), data, j.from) && Holds(to.store.Model(), data, j.to)
    requires Elems(buckets) == Travelling(c, o, chunk, j)
    modifies to.store.Parts()
    ensures to.store.Valid() && copied == |Export(c, o, chunk, j, data)|
    ensures Holds(to.store.Model(), Import(data, j.to, Export(c, o, chunk, j, data)), j.to)
  {
    var entries := from.ExportEntries(j.coll, buckets, now);
    copied := |entries|;
    CopyIsJob(c, o, chunk, j, data, from.store.Model(), to.store.Model(), entries, now);
    EntriesCount(entries, Export(c, o, chunk, j, data)) by {
      forall k ensures k in Shards.KeysOf(entries) <==> k in Export(c, o, chunk, j, data) {
        ExportIsJob(c, o, chunk, j, data, from.store.Model(), entries, now, k);
        assert At(Export(c, o, chunk, j, data), k).Some? <==> k in Export(c, o, chunk, j, data);
      }
    }
    forall e | e in entries ensures e.0.coll == j.coll { assert (e.0, e.1) in entries; }
    if entries != [] {
      to.ImportEntries(entries);
    } else {
      assert PutAll(to.store.Model(), entries) == to.store.Model();
    }
  }

  lemma {:induction false} EntriesCount(entries: seq<(Key, Value)>, e: map<Key, Value>)
    requires forall i, j :: 0 <= i < j < |entries| ==> entries[i].0 != entries[j].0
    requires forall k :: k in Shards.KeysOf(entries) <==> k in e
    ensures |entries| == |e|
  {
    var keys := seq(|entries|, i requires 0 <= i < |entries| => entries[i].0);
    NoDupCard(keys);
    assert Elems(keys) == Shards.KeysOf(entries) by {
      forall x | x in entries ensures x.0 in Elems(keys) {
        var i :| 0 <= i < |entries| && entries[i] == x;
        assert keys[i] == x.0;
      }
      forall k | k in Elems(keys) ensures k in Shards.KeysOf(entries) {
        var i :| 0 <= i < |keys| && keys[i] == k;
        assert entries[i] in entries;
      }
    }
    assert Shards.KeysOf(entries) == e.Keys;
  }

  /** One drop job. */
  method RunDropJob(c: Conf, ghost o: Overlay, ghost chunk: set<nat>, j: DropJob, ghost data: map<Loc, Value>,
                    at: Shard, buckets: seq<nat>, now: nat)
    returns (dropped: nat)
    requires at.store.Valid() && at.store.Opens(j.coll) && at.bucketOf == c.bucketOf
    requires Holds(at.store.Model(), data, j.node)
    requires Elems(buckets) == Going(c, o, chunk, j)
    modifies at.store.Parts()
    ensures at.store.Valid() && Holds(at.store.Model(), DropBuckets(c, o, chunk, j, data), j.node)
    ensures dropped == |old(at.store.Model())| - |at.store.Model()|
  {
    DropIsJob(c, o, chunk, j, data, at.store.Model(), now);
    dropped := at.DropBuckets(j.coll, buckets, now);
  }
}
