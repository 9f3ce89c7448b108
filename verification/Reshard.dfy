/** The reshard planner: per bucket, what to copy and what to drop between two memberships. */
module Reshard {
  import opened Seqs
  import opened Replication
  import opened Ranking
  import opened Placement
  import opened PartitionerObject

  datatype Copy = Copy(bucket: nat, from: NodeId, to: NodeId)
  datatype Drop = Drop(bucket: nat, node: NodeId)
  datatype Plan = Plan(copies: seq<Copy>, drops: seq<Drop>, buckets: nat, moved: nat)

  /** Both memberships' owners as the planner and the routing overlay compute them. */
  function Owners(nodes: seq<NodeId>, topo: Topology, replication: nat, b: nat): seq<NodeId> {
    OwnersOf(nodes, topo, Clamp(replication, |nodes|), b)
  }

  predicate WantsCopy(was: seq<NodeId>, will: seq<NodeId>, c: Copy) {
    was != [] && c.from == was[0] && c.to in will && c.to !in was
  }

  predicate WantsDrop(was: seq<NodeId>, will: seq<NodeId>, d: Drop) {
    d.node in was && d.node !in will
  }

  /** The buckets below `n` whose owner set differs. */
  ghost function Moved(was: nat -> seq<NodeId>, will: nat -> seq<NodeId>, n: nat): set<nat> {
    set b: nat | b < n && was(b) != [] && Elems(was(b)) != Elems(will(b))
  }

  /** How often a copy is due: as often as the new owners name its target. */
  ghost function CopiesDue(was: seq<NodeId>, will: seq<NodeId>, c: Copy): nat {
    if was != [] && c.from == was[0] && c.to !in was then multiset(will)[c.to] else 0
  }

  /** How often a drop is due: as often as the old owners name its node. */
  ghost function DropsDue(was: seq<NodeId>, will: seq<NodeId>, d: Drop): nat {
    if d.node !in will then multiset(was)[d.node] else 0
  }

  /** Every copy and drop of the buckets below `n` is listed as often as it is due, and nothing else is. */
  ghost predicate Counted(copies: seq<Copy>, drops: seq<Drop>, was: nat -> seq<NodeId>, will: nat -> seq<NodeId>,
                          n: nat) {
    && (forall c :: multiset(copies)[c]
          == if c.bucket < n then CopiesDue(was(c.bucket), will(c.bucket), c) else 0)
    && (forall d :: multiset(drops)[d]
          == if d.bucket < n then DropsDue(was(d.bucket), will(d.bucket), d) else 0)
  }

  /** The plan lists exactly the copies and drops of all buckets. */
  ghost predicate PlanFor(plan: Plan, was: nat -> seq<NodeId>, will: nat -> seq<NodeId>) {
    && (forall c :: c in plan.copies <==> c.bucket < NUM_BUCKETS && WantsCopy(was(c.bucket), will(c.bucket), c))
    && (forall d :: d in plan.drops <==> d.bucket < NUM_BUCKETS && WantsDrop(was(d.bucket), will(d.bucket), d))
    && plan.moved == |Moved(was, will, NUM_BUCKETS)|
    && plan.buckets == NUM_BUCKETS
  }

  ghost predicate EachOnce(plan: Plan) { NoDup(plan.copies) && NoDup(plan.drops) }

  ghost function OwnersUnder(nodes: seq<NodeId>, topo: Topology, replication: nat): nat -> seq<NodeId> {
    (b: nat) => Owners(nodes, topo, replication, b)
  }

  method PlanReshard(prev: seq<NodeId>, next: seq<NodeId>, replication: nat, topo: Topology) returns (plan: Plan)
    ensures PlanFor(plan, OwnersUnder(prev, topo, replication), OwnersUnder(next, topo, replication))
    ensures NoDup(prev) && NoDup(next) ==> EachOnce(plan)
    ensures Counted(plan.copies, plan.drops, OwnersUnder(prev, topo, replication),
                    OwnersUnder(next, topo, replication), NUM_BUCKETS)
  {
    var prevP := new Partitioner(prev);
    var nextP := new Partitioner(next);
    if topo != map[] {
      prevP.SetTopology(topo);
      nextP.SetTopology(topo);
    }
    plan := DiffAll(prevP, Clamp(replication, |prev|), nextP, Clamp(replication, |next|),
                    OwnersUnder(prev, topo, replication), OwnersUnder(next, topo, replication));
    if NoDup(prev) && NoDup(next) {
      forall b: nat
        ensures NoDup(OwnersUnder(prev, topo, replication)(b)) && NoDup(OwnersUnder(next, topo, replication)(b))
      {
        OwnersFacts(prev, topo, Clamp(replication, |prev|), b);
        OwnersFacts(next, topo, Clamp(replication, |next|), b);
      }
      CountedOnce(plan, OwnersUnder(prev, topo, replication), OwnersUnder(next, topo, replication));
    }
  }

  method DiffAll(prevP: Partitioner, rPrev: nat, nextP: Partitioner, rNext: nat,
                 ghost was: nat -> seq<NodeId>, ghost will: nat -> seq<NodeId>) returns (plan: Plan)
    requires prevP.Valid() && nextP.Valid()
    requires forall b: nat :: was(b) == OwnersOf(prevP.nodes, prevP.topology, rPrev, b)
    requires forall b: nat :: will(b) == OwnersOf(nextP.nodes, nextP.topology, rNext, b)
    ensures PlanFor(plan, was, will) && Counted(plan.copies, plan.drops, was, will, NUM_BUCKETS)
  {
    var copies: seq<Copy>, drops: seq<Drop>, moved := [], [], 0;
    for b := 0 to NUM_BUCKETS
      invariant Counted(copies, drops, was, will, b)
      invariant moved == |Moved(was, will, b)|
    {
      var prevOwners := BucketOwners(prevP, rPrev, b);
      var nextOwners := BucketOwners(nextP, rNext, b);
      var cs, ds, changed := DiffBucket(b, prevOwners, nextOwners);
      CountMore(copies, drops, cs, ds, was, will, b);
      MovedStep(was, will, b);
      copies, drops := copies + cs, drops + ds;
      if changed { moved := moved + 1; }
    }
    CountedMembers(copies, drops, was, will, NUM_BUCKETS);
    plan := Plan(copies, drops, NUM_BUCKETS, moved);
  }

  method BucketOwners(p: Partitioner, r: nat, b: nat) returns (owners: seq<NodeId>)
    requires p.Valid() && b < NUM_BUCKETS
    ensures owners == OwnersOf(p.nodes, p.topology, r, b)
  {
    if p.nodes == [] {
      assert Preference(p.nodes, p.topology, b)[..0] == [];
      owners := [];
    } else {
      owners := p.OwnersOfBucket(b, r);
    }
  }

  /** One turn of the bucket loop. */
  method DiffBucket(b: nat, was: seq<NodeId>, will: seq<NodeId>)
    returns (copies: seq<Copy>, drops: seq<Drop>, changed: bool)
    ensures CopiesCounted(copies, b, was, will) && DropsCounted(drops, b, was, will)
    ensures changed <==> was != [] && Elems(was) != Elems(will)
  {
    copies, changed := CopiesFor(b, was, will);
    drops, changed := DropsFor(b, was, will, changed);
    DiffEmpty(b, was, will, copies, drops);
  }

  ghost predicate CopiesCounted(copies: seq<Copy>, b: nat, was: seq<NodeId>, will: seq<NodeId>) {
    forall c :: multiset(copies)[c] == if c.bucket == b then CopiesDue(was, will, c) else 0
  }

  ghost predicate DropsCounted(drops: seq<Drop>, b: nat, was: seq<NodeId>, will: seq<NodeId>) {
    forall d :: multiset(drops)[d] == if d.bucket == b then DropsDue(was, will, d) else 0
  }

  method CopiesFor(b: nat, was: seq<NodeId>, will: seq<NodeId>) returns (copies: seq<Copy>, changed: bool)
    ensures CopiesCounted(copies, b, was, will) && (changed <==> copies != [])
  {
    copies, changed := [], false;
    for i := 0 to |will|
      invariant CopiesCounted(copies, b, was, will[..i]) && (changed <==> copies != [])
    {
      CopiesTurn(copies, b, was, will[..i], will[i]);
      assert will[..i + 1] == will[..i] + [will[i]];
      if will[i] !in was && was != [] {
        copies := copies + [Copy(b, was[0], will[i])];
        changed := true;
      }
    }
    assert will[..|will|] == will;
  }

  lemma {:induction false} CopiesTurn(copies: seq<Copy>, b: nat, was: seq<NodeId>, seen: seq<NodeId>, n: NodeId)
    requires CopiesCounted(copies, b, was, seen)
    ensures var more := if n !in was && was != [] then copies + [Copy(b, was[0], n)] else copies;
            CopiesCounted(more, b, was, seen + [n])
  {}

  method DropsFor(b: nat, was: seq<NodeId>, will: seq<NodeId>, already: bool)
    returns (drops: seq<Drop>, changed: bool)
    ensures DropsCounted(drops, b, was, will) && (changed <==> already || drops != [])
  {
    drops, changed := [], already;
    for i := 0 to |was|
      invariant DropsCounted(drops, b, was[..i], will) && (changed <==> already || drops != [])
    {
      DropsTurn(drops, b, was[..i], will, was[i]);
      assert was[..i + 1] == was[..i] + [was[i]];
      if was[i] !in will {
        drops := drops + [Drop(b, was[i])];
        changed := true;
      }
    }
    assert was[..|was|] == was;
  }

  lemma {:induction false} DropsTurn(drops: seq<Drop>, b: nat, seen: seq<NodeId>, will: seq<NodeId>, n: NodeId)
    requires DropsCounted(drops, b, seen, will)
    ensures var more := if n !in will then drops + [Drop(b, n)] else drops;
            DropsCounted(more, b, seen + [n], will)
  {}

  lemma {:induction false} InCounts<T>(s: seq<T>, x: T)
    ensures x in s <==> multiset(s)[x] > 0
  {}

  lemma {:induction false} DiffEmpty(b: nat, was: seq<NodeId>, will: seq<NodeId>, copies: seq<Copy>, drops: seq<Drop>)
    requires CopiesCounted(copies, b, was, will) && DropsCounted(drops, b, was, will)
    ensures copies == [] && drops == [] <==> was == [] || Elems(was) == Elems(will)
  {
    if copies != [] {
      InCounts(copies, copies[0]);
      assert copies[0].to in Elems(will) && copies[0].to !in Elems(was);
    } else if drops != [] {
      InCounts(drops, drops[0]);
      assert drops[0].node in Elems(was) && drops[0].node !in Elems(will);
    } else if was != [] {
      forall n | n in will ensures n in was { InCounts(copies, Copy(b, was[0], n)); }
      forall n | n in was ensures n in will { InCounts(drops, Drop(b, n)); }
    }
  }

  lemma {:induction false} CountMore(copies: seq<Copy>, drops: seq<Drop>, cs: seq<Copy>, ds: seq<Drop>,
                                     was: nat -> seq<NodeId>, will: nat -> seq<NodeId>, b: nat)
    requires Counted(copies, drops, was, will, b)
    requires CopiesCounted(cs, b, was(b), will(b)) && DropsCounted(ds, b, was(b), will(b))
    ensures Counted(copies + cs, drops + ds, was, will, b + 1)
  {
    forall c: Copy ensures multiset(copies + cs)[c] == multiset(copies)[c] + multiset(cs)[c] {}
    forall d: Drop ensures multiset(drops + ds)[d] == multiset(drops)[d] + multiset(ds)[d] {}
  }

  lemma {:induction false} CountedMembers(copies: seq<Copy>, drops: seq<Drop>,
                                          was: nat -> seq<NodeId>, will: nat -> seq<NodeId>, n: nat)
    requires Counted(copies, drops, was, will, n)
    ensures forall c :: c in copies <==> c.bucket < n && WantsCopy(was(c.bucket), will(c.bucket), c)
    ensures forall d :: d in drops <==> d.bucket < n && WantsDrop(was(d.bucket), will(d.bucket), d)
  {
    forall c ensures c in copies <==> c.bucket < n && WantsCopy(was(c.bucket), will(c.bucket), c) {
      InCounts(copies, c);
      InCounts(will(c.bucket), c.to);
    }
    forall d ensures d in drops <==> d.bucket < n && WantsDrop(was(d.bucket), will(d.bucket), d) {
      InCounts(drops, d);
      InCounts(was(d.bucket), d.node);
    }
  }

  /** Memberships without duplicates give a plan without duplicates. */
  lemma {:induction false} CountedOnce(plan: Plan, was: nat -> seq<NodeId>, will: nat -> seq<NodeId>)
    requires Counted(plan.copies, plan.drops, was, will, NUM_BUCKETS)
    requires forall b: nat :: NoDup(was(b)) && NoDup(will(b))
    ensures EachOnce(plan)
  {
    forall c: Copy ensures multiset(plan.copies)[c] <= 1 { NoDupCounts(will(c.bucket), c.to); }
    forall d: Drop ensures multiset(plan.drops)[d] <= 1 { NoDupCounts(was(d.bucket), d.node); }
    CountsNoDup(plan.copies);
    CountsNoDup(plan.drops);
  }

  lemma {:induction false} MovedStep(was: nat -> seq<NodeId>, will: nat -> seq<NodeId>, b: nat)
    ensures |Moved(was, will, b + 1)|
            == |Moved(was, will, b)| + if was(b) != [] && Elems(was(b)) != Elems(will(b)) then 1 else 0
  {
    var more := if was(b) != [] && Elems(was(b)) != Elems(will(b)) then {b} else {};
    assert Moved(was, will, b + 1) == Moved(was, will, b) + more;
  }

  /** Carrying a plan out turns the old owners of every bucket into the new ones. */
  lemma {:induction false} PlanReachesTarget(plan: Plan, was: nat -> seq<NodeId>, will: nat -> seq<NodeId>, b: nat)
    requires PlanFor(plan, was, will) && b < NUM_BUCKETS && was(b) != []
    ensures var targets := set c | c in plan.copies && c.bucket == b :: c.to;
            var dropped := set d | d in plan.drops && d.bucket == b :: d.node;
            targets == Elems(will(b)) - Elems(was(b)) && dropped == Elems(was(b)) - Elems(will(b)) &&
            Elems(was(b)) + targets - dropped == Elems(will(b))
    ensures forall c :: c in plan.copies ==> c.from in was(c.bucket)
  {
    var targets := set c | c in plan.copies && c.bucket == b :: c.to;
    var dropped := set d | d in plan.drops && d.bucket == b :: d.node;
    forall n | n in Elems(will(b)) - Elems(was(b)) ensures n in targets {
      assert Copy(b, was(b)[0], n) in plan.copies;
    }
    forall n | n in Elems(was(b)) - Elems(will(b)) ensures n in dropped {
      assert Drop(b, n) in plan.drops;
    }
  }

  lemma {:induction false} OnlyNew(few: seq<NodeId>, more: seq<NodeId>, n: NodeId, x: NodeId)
    requires Elems(more) <= Elems(few) + {x} && n in more && n !in few
    ensures n == x
  {
    assert n in Elems(more);
  }

  /** Without racks a join copies to the newcomer only. */
  lemma {:induction false} JoinCopiesToNewcomer(plan: Plan, prev: seq<NodeId>, next: seq<NodeId>, x: NodeId,
                                                replication: nat)
    requires NoDup(prev) && NoDup(next) && prev != [] && DistinctHashes(Elems(next))
    requires PlanFor(plan, OwnersUnder(prev, map[], replication), OwnersUnder(next, map[], replication))
    requires x !in prev && Elems(next) == Elems(prev) + {x}
    ensures forall c :: c in plan.copies ==> c.to == x
  {
    var was, will := OwnersUnder(prev, map[], replication), OwnersUnder(next, map[], replication);
    forall c | c in plan.copies ensures c.to == x {
      JoinOnlyMovesToNewcomer(prev, next, x, replication, c.bucket);
      OnlyNew(was(c.bucket), will(c.bucket), c.to, x);
    }
  }

  /** Without racks a leave drops from the leaver only. */
  lemma {:induction false} LeaveDropsFromLeaver(plan: Plan, prev: seq<NodeId>, next: seq<NodeId>, x: NodeId,
                                                replication: nat)
    requires NoDup(prev) && NoDup(next) && next != [] && DistinctHashes(Elems(prev))
    requires PlanFor(plan, OwnersUnder(prev, map[], replication), OwnersUnder(next, map[], replication))
    requires x !in next && Elems(prev) == Elems(next) + {x}
    ensures forall d :: d in plan.drops ==> d.node == x
  {
    var was, will := OwnersUnder(prev, map[], replication), OwnersUnder(next, map[], replication);
    forall d | d in plan.drops ensures d.node == x {
      LeaveOnlyMovesFromLeaver(prev, next, x, replication, d.bucket);
      OnlyNew(will(d.bucket), was(d.bucket), d.node, x);
    }
  }
}
