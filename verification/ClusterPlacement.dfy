/** The partitioner and the planner, as the migration uses them. */
module ClusterPlacement {
  import opened Seqs
  import opened Replication
  import opened Ranking
  import opened Placement
  import Reshard
  import M = Migration
  import T = MigrationTheorems

  /** The migration's parameters for a cluster with the given rack map. */
  function ClusterConf(colls: set<string>, target: nat, topo: Topology, universe: set<NodeId>): M.Conf {
    M.Conf(colls, target, NUM_BUCKETS, BucketOf,
           (nodes: seq<NodeId>, r: nat, b: nat) => OwnersOf(nodes, topo, r, b), universe)
  }

  /** With distinct node hashes, the partitioner gives the migration what it relies on. */
  lemma {:induction false} PartitionerIsLawful(colls: set<string>, target: nat, topo: Topology, universe: set<NodeId>)
    requires DistinctHashes(universe)
    ensures M.Lawful(ClusterConf(colls, target, topo, universe))
  {
    var c := ClusterConf(colls, target, topo, universe);
    forall ns, r, b | M.Membership(c, ns) && r > 0
      ensures var o := c.owners(ns, r, b); NoDup(o) && |o| == Min(r, |ns|) && Elems(o) <= Elems(ns)
    {
      OwnersFacts(ns, topo, r, b);
    }
    forall ns, ms, r, b | M.Membership(c, ns) && M.Membership(c, ms) && Elems(ns) == Elems(ms)
      ensures c.owners(ns, r, b) == c.owners(ms, r, b)
    {
      OwnersOrderFree(ns, ms, topo, r, b);
    }
    forall ns, ms, r, q, b | M.Membership(c, ns) && M.Membership(c, ms)
        && Elems(c.owners(ns, r, b)) == Elems(c.owners(ms, q, b))
      ensures c.owners(ns, r, b) == c.owners(ms, q, b)
    {
      SameOwnersSameOrder(ns, ms, topo, r, q, b);
    }
  }

  /** A chunk's copies are exactly those the planner lists for its buckets. */
  lemma {:induction false} CopiesFollowPlan(c: M.Conf, plan: Reshard.Plan, o: M.Overlay, chunk: set<nat>)
    requires Reshard.PlanFor(plan, (b: nat) => M.Own(c, o.prev, b), (b: nat) => M.Own(c, o.next, b))
    requires c.buckets == NUM_BUCKETS && (forall b :: b in chunk ==> b < c.buckets && M.Own(c, o.prev, b) != [])
    ensures M.CopyJobs(c, o, chunk)
            == set x, coll | x in plan.copies && x.bucket in chunk && coll in c.colls :: M.CopyJob(x.from, x.to, coll)
  {
    var was, will := (b: nat) => M.Own(c, o.prev, b), (b: nat) => M.Own(c, o.next, b);
    forall j | j in M.CopyJobs(c, o, chunk)
      ensures exists x, coll ::
                x in plan.copies && x.bucket in chunk && coll in c.colls && j == M.CopyJob(x.from, x.to, coll)
    {
      var b, to, coll :| b in chunk && to in Elems(M.Own(c, o.next, b)) - Elems(M.Own(c, o.prev, b)) && coll in c.colls
                         && j == M.CopyJob(M.First(M.Own(c, o.prev, b)), to, coll);
      assert Reshard.WantsCopy(was(b), will(b), Reshard.Copy(b, was(b)[0], to));
      assert Reshard.Copy(b, was(b)[0], to) in plan.copies;
    }
    forall x, coll | x in plan.copies && x.bucket in chunk && coll in c.colls
      ensures M.CopyJob(x.from, x.to, coll) in M.CopyJobs(c, o, chunk)
    {
      assert x.to in Elems(M.Own(c, o.next, x.bucket)) - Elems(M.Own(c, o.prev, x.bucket));
    }
  }

  /** And so are its drops. */
  lemma {:induction false} DropsFollowPlan(c: M.Conf, plan: Reshard.Plan, o: M.Overlay, chunk: set<nat>)
    requires Reshard.PlanFor(plan, (b: nat) => M.Own(c, o.prev, b), (b: nat) => M.Own(c, o.next, b))
    requires c.buckets == NUM_BUCKETS && (forall b :: b in chunk ==> b < c.buckets && M.Own(c, o.prev, b) != [])
    ensures M.DropJobs(c, o, chunk)
            == set d, coll | d in plan.drops && d.bucket in chunk && coll in c.colls :: M.DropJob(d.node, coll)
  {
    forall j | j in M.DropJobs(c, o, chunk)
      ensures exists d, coll :: d in plan.drops && d.bucket in chunk && coll in c.colls && j == M.DropJob(d.node, coll)
    {
      var b, n, coll :| b in chunk && n in Elems(M.Own(c, o.prev, b)) - Elems(M.Own(c, o.next, b)) && coll in c.colls
                        && j == M.DropJob(n, coll);
      assert Reshard.Drop(b, n) in plan.drops;
    }
    forall d, coll | d in plan.drops && d.bucket in chunk && coll in c.colls
      ensures M.DropJob(d.node, coll) in M.DropJobs(c, o, chunk)
    {
      assert d.node in Elems(M.Own(c, o.prev, d.bucket)) - Elems(M.Own(c, o.next, d.bucket));
    }
  }

  /** The buckets that move are those the plan has an action for. */
  lemma {:induction false} MovingIsPlanned(c: M.Conf, plan: Reshard.Plan, o: M.Overlay, b: nat)
    requires Reshard.PlanFor(plan, (b: nat) => M.Own(c, o.prev, b), (b: nat) => M.Own(c, o.next, b))
    requires c.buckets == NUM_BUCKETS && b < c.buckets && M.Own(c, o.prev, b) != []
    ensures b in M.Moving(c, o.prev, o.next)
            <==> (exists x :: x in plan.copies && x.bucket == b) || (exists d :: d in plan.drops && d.bucket == b)
  {
    var was, will := (b: nat) => M.Own(c, o.prev, b), (b: nat) => M.Own(c, o.next, b);
    Reshard.PlanReachesTarget(plan, was, will, b);
    var targets := set x | x in plan.copies && x.bucket == b :: x.to;
    var dropped := set d | d in plan.drops && d.bucket == b :: d.node;
    assert targets == {} <==> !exists x :: x in plan.copies && x.bucket == b by {
      if x :| x in plan.copies && x.bucket == b { assert x.to in targets; }
    }
    assert dropped == {} <==> !exists d :: d in plan.drops && d.bucket == b by {
      if d :| d in plan.drops && d.bucket == b { assert d.node in dropped; }
    }
    assert Elems(was(b)) == Elems(will(b)) <==> targets == {} && dropped == {};
  }

  /** The whole cluster: rack-aware HRW placement, online rebalance and concurrent clients. */
  lemma {:induction false} ClusterAnswersLikePlainMap(colls: set<string>, target: nat, topo: Topology,
                                                      universe: set<NodeId>, ss: seq<M.State>, es: seq<M.Step>)
    requires DistinctHashes(universe) && M.Run(ClusterConf(colls, target, topo, universe), ss, es)
    ensures T.AnswersLikePlainMap(es)
  {
    PartitionerIsLawful(colls, target, topo, universe);
    T.RunsAnswerLikePlainMap(ClusterConf(colls, target, topo, universe), ss, es);
  }
}
