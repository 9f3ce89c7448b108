/** Reading all partitions in parallel: each shard scans the buckets it is the primary of. */
module Partitions {
  import opened Seqs
  import opened Replication
  import opened Values
  import opened Ranking
  import opened Placement
  import opened PartitionerObject
  import opened KeyOrder
  import opened Scans
  import opened PagedScans
  import opened ClusterScans
  import opened ClusterPlacement
  import M = Migration
  import T = MigrationTheorems
  import opened MigrationInvariant

  /** Which buckets each node reads. */
  type PartitionMap = map<NodeId, seq<nat>>

  /** The primary of each bucket, as a list of at most one node. */
  function PrimaryOf(nodes: seq<NodeId>, topo: Topology): nat -> seq<NodeId> { (b: nat) => OwnersOf(nodes, topo, 1, b) }

  function BucketsFor(plan: PartitionMap, x: NodeId): seq<nat> { if x in plan then plan[x] else [] }

  predicate Reads(plan: PartitionMap, x: NodeId, b: nat) { b in BucketsFor(plan, x) }

  /** Every bucket below `n` is read by its primary, once, and by nobody else. */
  ghost predicate Tiles(plan: PartitionMap, primary: nat -> seq<NodeId>, n: nat) {
    && (forall x, b: nat :: Reads(plan, x, b) <==> b < n && primary(b) == [x])
    && (forall x :: NoDup(BucketsFor(plan, x)))
  }

  /** Nobody is listed for nothing. */
  ghost predicate NoIdlers(plan: PartitionMap) { forall x :: x in plan ==> plan[x] != [] }

  function Assigned(plan: PartitionMap, o: seq<NodeId>, b: nat): PartitionMap {
    if o == [] then plan else plan[o[0] := BucketsFor(plan, o[0]) + [b]]
  }

  lemma {:induction false} TileBelow(plan: PartitionMap, primary: nat -> seq<NodeId>, n: nat, x: NodeId, c: nat)
    requires Tiles(plan, primary, n) && c in BucketsFor(plan, x)
    ensures c < n && primary(c) == [x]
  {
    assert Reads(plan, x, c);
  }

  lemma {:induction false} AssignedTo(plan: PartitionMap, primary: nat -> seq<NodeId>, b: nat, x: NodeId)
    requires Tiles(plan, primary, b) && |primary(b)| <= 1
    ensures BucketsFor(Assigned(plan, primary(b), b), x)
            == BucketsFor(plan, x) + (if primary(b) == [x] then [b] else [])
    ensures NoDup(BucketsFor(Assigned(plan, primary(b), b), x))
  {
    var was := BucketsFor(plan, x);
    forall i | 0 <= i < |was| ensures was[i] != b { TileBelow(plan, primary, b, x, was[i]); }
    if primary(b) != [] { assert primary(b) == [primary(b)[0]]; }
    assert NoDup(was);
  }

  lemma {:induction false} TilesMore(plan: PartitionMap, primary: nat -> seq<NodeId>, b: nat)
    requires Tiles(plan, primary, b) && |primary(b)| <= 1
    ensures Tiles(Assigned(plan, primary(b), b), primary, b + 1)
  {
    var next := Assigned(plan, primary(b), b);
    forall x ensures NoDup(BucketsFor(next, x)) { AssignedTo(plan, primary, b, x); }
    forall x, c: nat ensures Reads(next, x, c) <==> c < b + 1 && primary(c) == [x] {
      AssignedTo(plan, primary, b, x);
      assert Reads(plan, x, c) <==> c < b && primary(c) == [x];
    }
  }

  method AssignBucket(p: Partitioner, b: nat, before: PartitionMap) returns (plan: PartitionMap)
    requires p.Valid() && b < NUM_BUCKETS && Tiles(before, PrimaryOf(p.nodes, p.topology), b)
    ensures Tiles(plan, PrimaryOf(p.nodes, p.topology), b + 1) && (NoIdlers(before) ==> NoIdlers(plan))
  {
    AtMostOnePrimary(p.nodes, p.topology, b);
    TilesMore(before, PrimaryOf(p.nodes, p.topology), b);
    var o := p.OwnersOfBucket(b, 1);
    plan := if o == [] then before else before[o[0] := (if o[0] in before then before[o[0]] else []) + [b]];
  }

  /** Assigns every bucket to its primary and groups by node. */
  method GroupByPrimary(p: Partitioner) returns (plan: PartitionMap)
    requires p.Valid()
    ensures Tiles(plan, PrimaryOf(p.nodes, p.topology), NUM_BUCKETS) && NoIdlers(plan)
  {
    ghost var primary := PrimaryOf(p.nodes, p.topology);
    plan := map[];
    NothingTiled(primary);
    for b := 0 to NUM_BUCKETS
      invariant Tiles(plan, primary, b) && NoIdlers(plan)
    {
      plan := AssignBucket(p, b, plan);
    }
  }

  datatype Partition = Partition(id: NodeId, endpoint: string, buckets: seq<nat>)

  function Ids(plan: seq<Partition>): seq<NodeId> { seq(|plan|, i requires 0 <= i < |plan| => plan[i].id) }

  function EndpointOf(endpoints: map<NodeId, string>, id: NodeId): string {
    if id in endpoints then endpoints[id] else ""
  }

  /** One partition per node, in the order of the node ids. */
  method ListPartitions(grouped: PartitionMap, endpoints: map<NodeId, string>) returns (plan: seq<Partition>)
    ensures Ids(plan) == Listing(grouped.Keys)
    ensures forall x :: x in plan ==>
              x.id in grouped && x.buckets == grouped[x.id] && x.endpoint == EndpointOf(endpoints, x.id)
  {
    var ids := ListInOrder(grouped.Keys);
    plan := [];
    for i := 0 to |ids|
      invariant |plan| == i && forall j :: 0 <= j < i ==>
                  ids[j] in grouped && plan[j] == Partition(ids[j], EndpointOf(endpoints, ids[j]), grouped[ids[j]])
    {
      assert ids[i] in Elems(ids);
      plan := plan + [Partition(ids[i], EndpointOf(endpoints, ids[i]), grouped[ids[i]])];
    }
    assert Ids(plan) == ids;
  }

  /** A partition of the buckets that its node is the primary of. */
  ghost predicate IsShare(x: Partition, primary: nat -> seq<NodeId>, n: nat) {
    && x.buckets != [] && NoDup(x.buckets)
    && forall b: nat :: b in x.buckets <==> b < n && primary(b) == [x.id]
  }

  /** In the order of their ids, exactly the nodes that are a primary, each with its share. */
  ghost predicate Plans(plan: seq<Partition>, primary: nat -> seq<NodeId>, n: nat) {
    && SortedBy(Ids(plan), Less) && (forall x :: x in plan ==> IsShare(x, primary, n))
    && (forall id, b: nat :: b < n && primary(b) == [id] ==> id in Ids(plan))
  }

  lemma {:induction false} SharesListed(grouped: PartitionMap, plan: seq<Partition>, primary: nat -> seq<NodeId>,
                                        n: nat)
    requires Tiles(grouped, primary, n) && NoIdlers(grouped) && Ids(plan) == Listing(grouped.Keys)
    requires forall x :: x in plan ==> x.id in grouped && x.buckets == grouped[x.id]
    ensures forall x :: x in plan ==> IsShare(x, primary, n)
    ensures forall id, b: nat :: b < n && primary(b) == [id] ==> id in Ids(plan)
  {
    forall x | x in plan ensures IsShare(x, primary, n) {
      assert x.buckets == BucketsFor(grouped, x.id);
      forall b: nat ensures b in x.buckets <==> b < n && primary(b) == [x.id] {
        assert Reads(grouped, x.id, b) <==> b < n && primary(b) == [x.id];
      }
    }
    forall id, b: nat | b < n && primary(b) == [id] ensures id in Ids(plan) {
      assert Reads(grouped, id, b);
      assert id in Elems(Listing(grouped.Keys));
    }
  }

  /** In the order of their ids, exactly the nodes that are the primary of a bucket, each with those buckets. */
  method PartitionPlan(p: Partitioner, endpoints: map<NodeId, string>) returns (plan: seq<Partition>)
    requires p.Valid()
    ensures Plans(plan, PrimaryOf(p.nodes, p.topology), NUM_BUCKETS)
    ensures forall x :: x in plan ==> x.endpoint == EndpointOf(endpoints, x.id)
  {
    var grouped := GroupByPrimary(p);
    plan := ListPartitions(grouped, endpoints);
    SharesListed(grouped, plan, PrimaryOf(p.nodes, p.topology), NUM_BUCKETS);
  }

  lemma {:induction false} NothingTiled(primary: nat -> seq<NodeId>)
    ensures Tiles(map[], primary, 0)
  {
    forall x ensures BucketsFor(map[], x) == [] {}
  }

  lemma {:induction false} AtMostOnePrimary(nodes: seq<NodeId>, topo: Topology, b: nat)
    ensures |PrimaryOf(nodes, topo)(b)| <= 1
  {}

  /** The primary does not depend on the replication. */
  lemma {:induction false} PrimaryAtAnyReplication(nodes: seq<NodeId>, topo: Topology, r: nat, b: nat)
    requires NoDup(nodes) && nodes != [] && r > 0
    ensures OwnersOf(nodes, topo, r, b) != [] && OwnersOf(nodes, topo, 1, b) == [OwnersOf(nodes, topo, r, b)[0]]
  {
    PreferenceFacts(nodes, topo, b);
  }

  /** The keys a shard holds in a collection. */
  ghost function KeysAt(data: map<M.Loc, Value>, x: NodeId, coll: string): set<string> {
    set l | l in data && l.node == x && l.key.coll == coll :: l.key.id
  }

  function Mine(bucketOf: string -> nat, buckets: seq<nat>): string -> bool { k => bucketOf(k) in buckets }

  /** What a node's partition holds of a collection, in key order. */
  ghost function PartitionKeys(data: map<M.Loc, Value>, bucketOf: string -> nat, buckets: seq<nat>, x: NodeId,
                               coll: string): seq<string> {
    Filter(Listing(KeysAt(data, x, coll)), Mine(bucketOf, buckets))
  }

  /** The shard serves no more than this many keys in one call. */
  const PARTITION_CAP: nat := 100_000

  function PageLimit(limit: nat): nat { if Min(limit, PARTITION_CAP) == 0 then 1 else Min(limit, PARTITION_CAP) }

  /** The page above the last key read is the next stretch of the partition. */
  method ReadPartitionPage(keys: seq<string>, bucketOf: string -> nat, buckets: seq<nat>, limit: nat,
                           ghost out: seq<string>, after: Option<string>)
    returns (page: seq<string>)
    requires SortedBy(keys, Less) && ReadUpTo(Filter(keys, Mine(bucketOf, buckets)), out, after, 1)
    ensures var want := Filter(keys, Mine(bucketOf, buckets));
            page == want[|out|..Min(|want|, |out| + PageLimit(limit))]
  {
    page := ScanBuckets(keys, bucketOf, buckets, after, Min(limit, PARTITION_CAP));
    ghost var above := (k: string) => Above(k, after);
    ghost var both := k => Above(k, after) && bucketOf(k) in buckets;
    FilterTwice(keys, Mine(bucketOf, buckets), above, both);
    FilterSorted(keys, Mine(bucketOf, buckets));
    TailPage(Filter(keys, Mine(bucketOf, buckets)), |out|, after, above, PageLimit(limit));
  }

  /** Reading page after page, until one comes back empty, returns the whole partition at every limit. */
  method ReadPartition(keys: seq<string>, bucketOf: string -> nat, buckets: seq<nat>, limit: nat)
    returns (out: seq<string>)
    requires SortedBy(keys, Less)
    ensures out == Filter(keys, Mine(bucketOf, buckets))
  {
    ghost var want := Filter(keys, Mine(bucketOf, buckets));
    out := [];
    var after := None;
    while true
      invariant ReadUpTo(want, out, after, 1)
      decreases |want| - |out|
    {
      var page := ReadPartitionPage(keys, bucketOf, buckets, limit, out, after);
      PageReads(want, out, after, page, PageLimit(limit));
      if page == [] { return; }
      after := Some(page[|page| - 1]);
      out := out + page;
    }
  }

  lemma {:induction false} PartitionHas(data: map<M.Loc, Value>, bucketOf: string -> nat, buckets: seq<nat>,
                                        x: NodeId, coll: string, id: string)
    ensures id in PartitionKeys(data, bucketOf, buckets, x, coll)
       <==> bucketOf(id) in buckets && M.Slot(data, x, Key(coll, id)).Some?
    ensures NoDup(PartitionKeys(data, bucketOf, buckets, x, coll))
  {
    var keys := Listing(KeysAt(data, x, coll));
    FilterElems(keys, Mine(bucketOf, buckets));
    FilterSorted(keys, Mine(bucketOf, buckets));
    SortedNoDup(Filter(keys, Mine(bucketOf, buckets)));
    assert id in keys <==> id in Elems(keys);
    assert id in Filter(keys, Mine(bucketOf, buckets)) <==> id in Elems(Filter(keys, Mine(bucketOf, buckets)));
    assert M.Slot(data, x, Key(coll, id)).Some? <==> M.Loc(x, Key(coll, id)) in data;
    if M.Loc(x, Key(coll, id)) in data { assert id in KeysAt(data, x, coll); }
  }

  /** The partition at position `i` of the plan reads the key. */
  ghost predicate ReadAtPosition(data: map<M.Loc, Value>, plan: seq<Partition>, i: nat, k: Key)
    requires i < |plan|
  {
    k.id in PartitionKeys(data, BucketOf, plan[i].buckets, plan[i].id, k.coll)
  }

  /** Under the placement invariant, a share reads what its node is the primary of. */
  lemma {:induction false} ShareReads(c: M.Conf, s: M.State, m: map<Key, Value>, x: Partition,
                                      primary: nat -> seq<NodeId>, k: Key)
    requires T.PlacedOn(c, s, s.nodes, m) && M.Managed(c, k) && IsShare(x, primary, c.buckets)
    requires var o := M.Own(c, s.nodes, M.Bucket(c, k)); o != [] && primary(M.Bucket(c, k)) == [o[0]]
    ensures k.id in PartitionKeys(s.data, c.bucketOf, x.buckets, x.id, k.coll)
            <==> primary(M.Bucket(c, k)) == [x.id] && k in m
  {
    var b := M.Bucket(c, k);
    PartitionHas(s.data, c.bucketOf, x.buckets, x.id, k.coll, k.id);
    assert M.Slot(s.data, x.id, k) == if x.id in M.Own(c, s.nodes, b) then At(m, k) else None;
    assert b in x.buckets <==> primary(b) == [x.id];
  }

  /** Where the plan lists the primary of a bucket, and nowhere else. */
  lemma {:induction false} PrimaryListed(plan: seq<Partition>, primary: nat -> seq<NodeId>, n: nat, b: nat)
    returns (i: nat)
    requires Plans(plan, primary, n) && b < n && |primary(b)| == 1
    ensures i < |plan| && forall j :: 0 <= j < |plan| ==> (primary(b) == [plan[j].id] <==> j == i)
  {
    var id := primary(b)[0];
    assert primary(b) == [id];
    i :| 0 <= i < |plan| && Ids(plan)[i] == id;
    SortedNoDup(Ids(plan));
    forall j | 0 <= j < |plan| ensures primary(b) == [plan[j].id] <==> j == i { assert Ids(plan)[j] == plan[j].id; }
  }

  /**
   * Outside migrations, at any replication: each key of a managed collection is read by exactly one
   * partition of the plan, once, and nothing that is not in the map is read.
   */
  lemma {:induction false} EveryKeyReadOnce(colls: set<string>, target: nat, topo: Topology, universe: set<NodeId>,
                                            ss: seq<M.State>, es: seq<M.Step>, n: nat, plan: seq<Partition>, k: Key)
    returns (i: nat)
    requires DistinctHashes(universe) && k.coll in colls
    requires M.Run(ClusterConf(colls, target, topo, universe), ss, es) && n <= |es|
    requires T.Quiescent(ClusterConf(colls, target, topo, universe), ss[n])
    requires Plans(plan, PrimaryOf(ss[n].nodes, topo), NUM_BUCKETS)
    ensures i < |plan| && OwnersOf(ss[n].nodes, topo, 1, BucketOf(k.id)) == [plan[i].id]
    ensures forall j: nat :: j < |plan| ==>
              && NoDup(PartitionKeys(ss[n].data, BucketOf, plan[j].buckets, plan[j].id, k.coll))
              && (ReadAtPosition(ss[n].data, plan, j, k) <==> j == i && k in T.Plain(es[..n]))
  {
    var c, primary := ClusterConf(colls, target, topo, universe), PrimaryOf(ss[n].nodes, topo);
    PartitionerIsLawful(colls, target, topo, universe);
    T.QuiescentPlacement(c, ss, es, n);
    PrimaryAtAnyReplication(ss[n].nodes, topo, Clamp(target, |ss[n].nodes|), BucketOf(k.id));
    i := PrimaryListed(plan, primary, NUM_BUCKETS, BucketOf(k.id));
    forall j: nat | j < |plan|
      ensures NoDup(PartitionKeys(ss[n].data, BucketOf, plan[j].buckets, plan[j].id, k.coll))
      ensures ReadAtPosition(ss[n].data, plan, j, k) <==> j == i && k in T.Plain(es[..n])
    {
      PartitionHas(ss[n].data, BucketOf, plan[j].buckets, plan[j].id, k.coll, k.id);
      ShareReads(c, ss[n], T.Plain(es[..n]), plan[j], primary, k);
    }
  }
}
