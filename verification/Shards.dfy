/** One shard's part in a migration: export, import and drop of buckets over its store. */
module Shards {
  import opened Seqs
  import opened Values
  import opened Timed
  import opened Nested
  import opened KeyOrder
  import opened MemoryObject
  import opened ExpiryKeys
  import L = LmdbObject

  /** Either store behind a shard, as the operations of a shard see it. */
  datatype Store = InMemory(m: MemoryStore) | Durable(l: L.LmdbStore) {
    ghost function Parts(): set<object> {
      match this
      case InMemory(m) => {m}
      case Durable(l) => {l}
    }

    ghost predicate Valid()
      reads Parts()
    {
      match this
      case InMemory(m) => m.Valid()
      case Durable(l) => l.Valid()
    }

    ghost function Model(): TimedMap
      reads Parts()
    {
      match this
      case InMemory(m) => m.model
      case Durable(l) => l.model
    }

    /** The durable store opens a database per collection, and its name cannot carry a NUL. */
    predicate Opens(coll: string) { Durable? ==> NulFree(coll) }

    /** The keys of a collection's objects, expired ones included. */
    method Ids(coll: string) returns (ids: set<string>)
      requires Valid() && Opens(coll)
      ensures forall k :: k in Model() && k.coll == coll ==> k.id in ids
    {
      match this
      case InMemory(m) =>
        ids := if coll in m.objects then m.objects[coll].Keys else {};
        forall k | k in m.model && k.coll == coll ensures k.id in ids {
          assert CellAt(m.model, Key(k.coll, k.id))
              == CellOf(Get2(m.objects, k.coll, k.id), Get2(m.expiry, k.coll, k.id));
        }
      case Durable(l) =>
        ids := if coll in l.objects then l.objects[coll].Keys else {};
        forall k | k in l.model && k.coll == coll ensures k.id in ids {
          L.ReadAgrees(l.model, l.objects, l.exp, k, 0);
        }
    }

    method Get(k: Key, now: nat) returns (o: Option<Value>)
      requires Valid() && Opens(k.coll)
      ensures o == ReadAt(Model(), k, now)
    {
      match this
      case InMemory(m) => o := m.GetObject(k, now);
      case Durable(l) => o := l.GetObject(k, now);
    }

    method Put(k: Key, v: Value)
      requires Valid() && Opens(k.coll)
      modifies Parts()
      ensures Valid() && Model() == PutPlain(old(Model()), k, v)
    {
      match this
      case InMemory(m) => m.PutObject(k, v);
      case Durable(l) => l.PutObject(k, v);
    }

    method Delete(k: Key)
      requires Valid() && Opens(k.coll)
      modifies Parts()
      ensures Valid() && Model() == old(Model()) - {k}
    {
      match this
      case InMemory(m) => m.DeleteObject(k);
      case Durable(l) => l.DeleteObject(k);
    }
  }

  /** The object at `k` travels with the buckets `want` of collection `coll`. */
  predicate Wanted(k: Key, coll: string, want: set<nat>, bucketOf: string -> nat) {
    k.coll == coll && bucketOf(k.id) in want
  }

  /** `entries` lists, each once, the objects of the buckets that a reader sees. */
  ghost predicate Exports(entries: seq<(Key, Value)>, t: TimedMap, coll: string, want: set<nat>,
                          bucketOf: string -> nat, now: nat) {
    && (forall i, j :: 0 <= i < j < |entries| ==> entries[i].0 != entries[j].0)
    && (forall k, v :: (k, v) in entries <==> Wanted(k, coll, want, bucketOf) && ReadAt(t, k, now) == Some(v))
  }

  /** What dropping buckets leaves: everything but the objects of the buckets that have not expired. */
  function Dropped(t: TimedMap, coll: string, want: set<nat>, bucketOf: string -> nat, now: nat): TimedMap {
    map k | k in t && !(Wanted(k, coll, want, bucketOf) && !Expired(t[k], now)) :: t[k]
  }

  class Shard {
    const store: Store
    const bucketOf: string -> nat

    constructor (store: Store, bucketOf: string -> nat)
      ensures this.store == store && this.bucketOf == bucketOf
    {
      this.store, this.bucketOf := store, bucketOf;
    }

    /** Filters the entries of a collection, which come in the store's own order. */
    method ExportEntries(coll: string, buckets: seq<nat>, now: nat) returns (entries: seq<(Key, Value)>)
      requires store.Valid() && store.Opens(coll)
      ensures Exports(entries, store.Model(), coll, Elems(buckets), bucketOf, now)
    {
      var ids := store.Ids(coll);
      var order := ListInAnyOrder(ids);
      entries := [];
      for i := 0 to |order|
        invariant ListsUpTo(entries, store.Model(), coll, order[..i], Elems(buckets), bucketOf, now)
      {
        var k := Key(coll, order[i]);
        var o := store.Get(k, now);
        var take := o.Some? && bucketOf(k.id) in buckets;
        ListsMore(entries, store.Model(), coll, order, i, Elems(buckets), bucketOf, now);
        if take { entries := entries + [(k, o.value)]; }
      }
      assert order[..|order|] == order;
      forall k | Wanted(k, coll, Elems(buckets), bucketOf) && ReadAt(store.Model(), k, now).Some?
        ensures k.id in order
      {
        assert k.id in Elems(order);
      }
    }

    /** Puts the entries one by one; a plain put, so none keeps an expiry. */
    method ImportEntries(entries: seq<(Key, Value)>)
      requires store.Valid() && forall e :: e in entries ==> store.Opens(e.0.coll)
      modifies store.Parts()
      ensures store.Valid() && store.Model() == PutAll(old(store.Model()), entries)
    {
      for i := 0 to |entries|
        invariant store.Valid() && store.Model() == PutAll(old(store.Model()), entries[..i])
      {
        assert entries[..i + 1][..i] == entries[..i];
        store.Put(entries[i].0, entries[i].1);
      }
      assert entries[..|entries|] == entries;
    }

    method ToDrop(coll: string, buckets: seq<nat>, now: nat) returns (entries: seq<(Key, Value)>)
      requires store.Valid() && store.Opens(coll)
      ensures store.Model() - KeysOf(entries) == Dropped(store.Model(), coll, Elems(buckets), bucketOf, now)
      ensures |store.Model() - KeysOf(entries)| == |store.Model()| - |entries|
      ensures forall e :: e in entries ==> e.0.coll == coll
    {
      entries := ExportEntries(coll, buckets, now);
      DropIsExact(store.Model(), entries, coll, Elems(buckets), bucketOf, now);
    }

    method DeleteAll(entries: seq<(Key, Value)>)
      requires store.Valid() && forall e :: e in entries ==> store.Opens(e.0.coll)
      modifies store.Parts()
      ensures store.Valid() && store.Model() == old(store.Model()) - KeysOf(entries)
    {
      ghost var was := store.Model();
      for i := 0 to |entries|
        invariant store.Valid() && store.Model() == was - KeysOf(entries[..i])
      {
        DropOne(was, entries, i);
        store.Delete(entries[i].0);
      }
      assert entries[..|entries|] == entries;
    }

    /** Deletes what an export of the same buckets would list, and counts it. */
    method DropBuckets(coll: string, buckets: seq<nat>, now: nat) returns (n: nat)
      requires store.Valid() && store.Opens(coll)
      modifies store.Parts()
      ensures store.Valid() && store.Model() == Dropped(old(store.Model()), coll, Elems(buckets), bucketOf, now)
      ensures n == |old(store.Model())| - |store.Model()|
    {
      var entries := ToDrop(coll, buckets, now);
      DeleteAll(entries);
      n := |entries|;
    }
  }

  ghost function KeysOf(entries: seq<(Key, Value)>): set<Key> { set e | e in entries :: e.0 }

  /** The export of the keys looked at so far. */
  ghost predicate ListsUpTo(entries: seq<(Key, Value)>, t: TimedMap, coll: string, done: seq<string>, want: set<nat>,
                            bucketOf: string -> nat, now: nat) {
    && (forall i, j :: 0 <= i < j < |entries| ==> entries[i].0 != entries[j].0)
    && (forall k, v :: (k, v) in entries <==>
          k.id in done && Wanted(k, coll, want, bucketOf) && ReadAt(t, k, now) == Some(v))
  }

  lemma {:induction false} ListsMore(entries: seq<(Key, Value)>, t: TimedMap, coll: string, order: seq<string>, i: nat,
                                     want: set<nat>, bucketOf: string -> nat, now: nat)
    requires i < |order| && NoDup(order) && ListsUpTo(entries, t, coll, order[..i], want, bucketOf, now)
    ensures var k := Key(coll, order[i]);
            var o := ReadAt(t, k, now);
            ListsUpTo(if o.Some? && bucketOf(k.id) in want then entries + [(k, o.value)] else entries,
                      t, coll, order[..i + 1], want, bucketOf, now)
  {
    var k := Key(coll, order[i]);
    var o := ReadAt(t, k, now);
    assert order[..i + 1] == order[..i] + [order[i]];
    if o.Some? && bucketOf(k.id) in want {
      var more := entries + [(k, o.value)];
      forall j | 0 <= j < |entries| ensures entries[j].0 != k {
        assert (entries[j].0, entries[j].1) in entries;
      }
      assert forall x, v :: (x, v) in more <==> (x, v) in entries || (x == k && v == o.value);
    }
  }

  lemma {:induction false} DropOne(t: TimedMap, entries: seq<(Key, Value)>, i: nat)
    requires i < |entries|
    ensures t - KeysOf(entries[..i + 1]) == t - KeysOf(entries[..i]) - {entries[i].0}
  {
    assert entries[..i + 1] == entries[..i] + [entries[i]];
    assert KeysOf(entries[..i + 1]) == KeysOf(entries[..i]) + {entries[i].0};
  }

  lemma {:induction false} DropCount(t: TimedMap, entries: seq<(Key, Value)>)
    requires forall i, j :: 0 <= i < j < |entries| ==> entries[i].0 != entries[j].0
    requires KeysOf(entries) <= t.Keys
    ensures |t - KeysOf(entries)| == |t| - |entries|
  {
    if entries == [] {
      assert t - KeysOf(entries) == t;
    } else {
      var n := |entries| - 1;
      assert entries[..n + 1] == entries;
      DropOne(t, entries, n);
      assert forall e :: e in entries[..n] ==> e in entries;
      DropCount(t, entries[..n]);
      var rest := t - KeysOf(entries[..n]);
      assert entries[n].0 in KeysOf(entries) && entries[n].0 !in KeysOf(entries[..n]);
      assert (rest - {entries[n].0}).Keys == rest.Keys - {entries[n].0};
    }
  }

  lemma {:induction false} DropIsExact(t: TimedMap, entries: seq<(Key, Value)>, coll: string, want: set<nat>,
                                       bucketOf: string -> nat, now: nat)
    requires Exports(entries, t, coll, want, bucketOf, now)
    ensures t - KeysOf(entries) == Dropped(t, coll, want, bucketOf, now)
    ensures |t - KeysOf(entries)| == |t| - |entries| && forall e :: e in entries ==> e.0.coll == coll
  {
    forall e | e in entries ensures e.0.coll == coll && e.0 in t { assert (e.0, e.1) in entries; }
    forall k | k in t ensures k in KeysOf(entries) <==> Wanted(k, coll, want, bucketOf) && !Expired(t[k], now) {
      if Wanted(k, coll, want, bucketOf) && !Expired(t[k], now) { assert (k, t[k].v) in entries; }
      if k in KeysOf(entries) {
        var e :| e in entries && e.0 == k;
        assert (e.0, e.1) in entries;
      }
    }
    DropCount(t, entries);
  }

  // ---------------------------------------------------------------- what a copy preserves

  lemma {:induction false} PutAllAt(t: TimedMap, entries: seq<(Key, Value)>, k: Key)
    requires forall i, j :: 0 <= i < j < |entries| ==> entries[i].0 != entries[j].0
    ensures k !in KeysOf(entries) ==> CellAt(PutAll(t, entries), k) == CellAt(t, k)
    ensures forall v :: (k, v) in entries ==> CellAt(PutAll(t, entries), k) == Some(Cell(v, None))
  {
    if entries != [] {
      var n := |entries| - 1;
      PutAllAt(t, entries[..n], k);
      assert entries == entries[..n] + [entries[n]];
    }
  }

  /**
   * Copying buckets from one store to another: a reader of the target then sees what a reader of
   * the source saw when the copy was made, and sees the same ever after exactly when the object
   * has no expiry. Objects outside the buckets, and those not visible at the source, are untouched.
   */
  lemma {:induction false} CopyCarriesReads(source: TimedMap, target: TimedMap, entries: seq<(Key, Value)>,
                                            coll: string, want: set<nat>, bucketOf: string -> nat, now: nat,
                                            k: Key)
    requires Exports(entries, source, coll, want, bucketOf, now)
    ensures var after := PutAll(target, entries);
            if Wanted(k, coll, want, bucketOf) && ReadAt(source, k, now).Some? then
              && ReadAt(after, k, now) == ReadAt(source, k, now)
              && ((forall t: nat :: t >= now ==> ReadAt(after, k, t) == ReadAt(source, k, t))
                  <==> source[k].expiry.None?)
            else CellAt(after, k) == CellAt(target, k)
  {
    PutAllAt(target, entries, k);
    var after := PutAll(target, entries);
    if Wanted(k, coll, want, bucketOf) && ReadAt(source, k, now).Some? {
      assert (k, source[k].v) in entries;
      assert CellAt(after, k) == Some(Cell(source[k].v, None));
      if source[k].expiry.Some? {
        var end := source[k].expiry.value;
        assert end >= now && ReadAt(after, k, end) != ReadAt(source, k, end);
      }
    } else {
      forall e | e in entries ensures e.0 != k { assert (e.0, e.1) in entries; }
    }
  }

  /** Dropping buckets hides exactly their objects from every reader from then on. */
  lemma {:induction false} DropHidesBuckets(t: TimedMap, coll: string, want: set<nat>, bucketOf: string -> nat,
                                            now: nat, k: Key, later: nat)
    requires later >= now
    ensures ReadAt(Dropped(t, coll, want, bucketOf, now), k, later) ==
            if Wanted(k, coll, want, bucketOf) then None else ReadAt(t, k, later)
  {}
}
