/** Client steps keep the invariant; the primary's answer is the plain map's answer. */
module MigrationClients {
  import opened Seqs
  import opened Replication
  import opened Values
  import opened Gates
  import opened Migration
  import opened MigrationInvariant

  // ---------------------------------------------------------------- the gate counts tokens

  lemma {:induction false} LiveWith(c: Conf, ops: map<nat, Client>, id: nat, x: Client, b: nat)
    requires id !in ops
    ensures |LiveOn(c, ops[id := x], b)| == |LiveOn(c, ops, b)| + (if b == Bucket(c, x.key) then 1 else 0)
  {
    assert LiveOn(c, ops[id := x], b) == LiveOn(c, ops, b) + (if b == Bucket(c, x.key) then {id} else {});
  }

  lemma {:induction false} EnterCounts(c: Conf, s: State, id: nat, x: Client)
    requires GateInv(c, s) && id !in s.ops
    ensures GateInv(c, WithOp(s, id, x).(gate := Entered(s.gate, Bucket(c, x.key))))
  {
    forall b: nat
      ensures |LiveOn(c, s.ops[id := x], b)| == |LiveOn(c, s.ops, b)| + (if b == Bucket(c, x.key) then 1 else 0)
    {
      LiveWith(c, s.ops, id, x, b);
    }
  }

  lemma {:induction false} StayCounts(c: Conf, s: State, s': State, id: nat, x: Client)
    requires GateInv(c, s) && id in s.ops && s.ops[id].key == x.key
    requires s'.gate == s.gate && s'.ops == s.ops[id := x]
    ensures GateInv(c, s')
  {
    forall b: nat ensures LiveOn(c, s'.ops, b) == LiveOn(c, s.ops, b) {}
  }

  lemma {:induction false} LeaveCounts(c: Conf, s: State, id: nat)
    requires GateInv(c, s) && id in s.ops
    ensures GateInv(c, s.(ops := s.ops - {id}, gate := Left(s.gate, Bucket(c, s.ops[id].key))))
  {
    var b0 := Bucket(c, s.ops[id].key);
    assert id in LiveOn(c, s.ops, b0);
    forall b: nat
      ensures |LiveOn(c, s.ops - {id}, b)| == |LiveOn(c, s.ops, b)| - (if b == b0 then 1 else 0)
    {
      assert LiveOn(c, s.ops - {id}, b) == LiveOn(c, s.ops, b) - (if b == b0 then {id} else {});
    }
  }

  /** A drained bucket has no live token. */
  lemma {:induction false} DrainedMeansNobody(c: Conf, s: State, bs: set<nat>)
    requires GateInv(c, s) && Drained(s.gate, bs)
    ensures forall id :: id in s.ops ==> Bucket(c, s.ops[id].key) !in bs
  {
    forall id | id in s.ops ensures Bucket(c, s.ops[id].key) !in bs {
      assert id in LiveOn(c, s.ops, Bucket(c, s.ops[id].key));
    }
  }

  // ---------------------------------------------------------------- what is owed

  lemma {:induction false} OwedKeeps(ops: map<nat, Client>, id: nat, x: Client, k: Key, n: Node)
    requires id in ops ==> (Owes(ops[id], k, n) ==> Owes(x, k, n))
    ensures Owed(ops, k, n) ==> Owed(ops[id := x], k, n)
  {
    if i :| i in ops && Owes(ops[i], k, n) {
      assert Owes(ops[id := x][i], k, n);
    }
  }

  /** The primary of a settled bucket holds the map's value. */
  lemma {:induction false} PrimaryCurrent(c: Conf, s: State, g: Ghost, k: Key)
    requires Settled(c, s, g) && ClientsOk(c, s, g)
    requires Managed(c, k) && Bucket(c, k) !in g.torn && Route(c, s, Bucket(c, k)) != []
    ensures Slot(s.data, Route(c, s, Bucket(c, k))[0], k) == At(g.m, k)
  {
    var n := Route(c, s, Bucket(c, k))[0];
    assert SlotOk(c, s, g, k, n);
    forall i | i in s.ops ensures !Owes(s.ops[i], k, n) {
      assert ClientOk(c, s, g, s.ops[i]);
    }
  }

  /** With no other mutator on the key, every owner is up to date before an operation starts. */
  lemma {:induction false} OwnersCurrent(c: Conf, s: State, g: Ghost, id: nat, n: Node)
    requires Settled(c, s, g) && ClientsOk(c, s, g) && NoRivals(s)
    requires id in s.ops && s.ops[id].Running? && s.ops[id].pos == 0 && Mutates(s.ops[id].op) && n in s.ops[id].route
    ensures Slot(s.data, n, s.ops[id].key) == At(g.m, s.ops[id].key)
  {
    var x := s.ops[id];
    assert ClientOk(c, s, g, x);
    assert SlotOk(c, s, g, x.key, n);
    assert forall i :: i in s.ops ==> !Owes(s.ops[i], x.key, n);
  }

  // ---------------------------------------------------------------- steps that leave the data alone

  /** Changing one operation's bookkeeping, with nothing owed before, keeps the data invariants. */
  lemma {:induction false} BookkeepingKeeps(c: Conf, s: State, g: Ghost, s': State, id: nat, x: Client)
    requires Settled(c, s, g) && ClientsOk(c, s, g) && TornOk(c, s, g) && ChunkOk(c, s, g)
    requires id in s.ops ==> forall k, n :: !Owes(s.ops[id], k, n)
    requires s'.ops == s.ops[id := x] && ClientOk(c, s', g, x)
    requires s' == s.(ops := s'.ops, gate := s'.gate)
    ensures Settled(c, s', g) && ClientsOk(c, s', g) && TornOk(c, s', g) && ChunkOk(c, s', g)
  {
    forall k, n | Managed(c, k) && Bucket(c, k) !in g.torn ensures SlotOk(c, s', g, k, n) {
      assert SlotOk(c, s, g, k, n);
      OwedKeeps(s.ops, id, x, k, n);
    }
    forall i | i in s'.ops ensures ClientOk(c, s', g, s'.ops[i]) {
      if i != id { assert ClientOk(c, s, g, s.ops[i]); }
    }
  }

  lemma {:induction false} TaskFrame(c: Conf, s: State, g: Ghost, s': State)
    requires TaskOk(c, s, g)
    requires s' == s.(ops := s'.ops, gate := s'.gate, data := s'.data) && s'.gate.frozen == s.gate.frozen
    ensures TaskOk(c, s', g)
  {}

  lemma {:induction false} RouteFacts(c: Conf, s: State, g: Ghost, b: nat)
    requires Lawful(c) && TaskOk(c, s, g)
    ensures Route(c, s, b) != [] && NoDup(Route(c, s, b))
  {
    match s.overlay
    case None => OwnFacts(c, s.nodes, b);
    case Some(o) => OwnFacts(c, o.prev, b); OwnFacts(c, o.next, b);
  }

  lemma {:induction false} RivalsKeep(s: State, s': State, id: nat, x: Client)
    requires NoRivals(s) && s'.ops == s.ops[id := x]
    requires if id in s.ops then s.ops[id].key == x.key && s.ops[id].op == x.op else NoRival(s, x.key, x.op)
    ensures NoRivals(s')
  {}

  lemma {:induction false} EnterKeeps(c: Conf, s: State, g: Ghost, id: nat, key: Key, op: Op)
    requires Inv(c, s, g) && ClientGuard(c, s, Enter(id, key, op)) && NoRival(s, key, op)
    ensures Inv(c, ClientStep(c, s, Enter(id, key, op)), g)
  {
    var x := Inside(key, op);
    var s' := ClientStep(c, s, Enter(id, key, op));
    EnterCounts(c, s, id, x);
    BookkeepingKeeps(c, s, g, s', id, x);
    RivalsKeep(s, s', id, x);
    TaskFrame(c, s, g, s');
  }

  lemma {:induction false} ReadOverlayKeeps(c: Conf, s: State, g: Ghost, id: nat)
    requires Inv(c, s, g) && ClientGuard(c, s, ReadOverlay(id)) && Lawful(c)
    ensures Inv(c, ClientStep(c, s, ReadOverlay(id)), g)
  {
    var s' := ClientStep(c, s, ReadOverlay(id));
    var x := s'.ops[id];
    assert ClientOk(c, s, g, s.ops[id]);
    RouteFacts(c, s, g, Bucket(c, x.key));
    StayCounts(c, s, s', id, x);
    BookkeepingKeeps(c, s, g, s', id, x);
    RivalsKeep(s, s', id, x);
    TaskFrame(c, s, g, s');
  }

  // ---------------------------------------------------------------- owners

  lemma {:induction false} OwnFacts(c: Conf, nodes: seq<Node>, b: nat)
    requires Lawful(c) && Membership(c, nodes)
    ensures var o := Own(c, nodes, b);
            o != [] && NoDup(o) && |o| == Clamp(c.target, |nodes|) && Elems(o) <= Elems(nodes)
  {}

  /** Same members, same owners, however they are listed. */
  lemma {:induction false} OwnListing(c: Conf, ns: seq<Node>, ms: seq<Node>, b: nat)
    requires Lawful(c) && Membership(c, ns) && Membership(c, ms) && Elems(ns) == Elems(ms)
    ensures Own(c, ns, b) == Own(c, ms, b) && |ns| == |ms|
  {
    NoDupCard(ns);
    NoDupCard(ms);
  }

  /** A bucket that does not move keeps its owner list, and the two replication factors agree. */
  lemma {:induction false} OwnStays(c: Conf, prev: seq<Node>, next: seq<Node>, b: nat)
    requires Lawful(c) && Membership(c, prev) && Membership(c, next)
    requires b < c.buckets && b !in Moving(c, prev, next)
    ensures Own(c, prev, b) == Own(c, next, b) && Clamp(c.target, |prev|) == Clamp(c.target, |next|)
  {
    OwnFacts(c, prev, b);
    OwnFacts(c, next, b);
  }

  /** Reading the committed membership, at whatever point of a commit, gives the routed owners. */
  lemma {:induction false} PartitionerRoutesAlike(c: Conf, s: State, g: Ghost, b: nat)
    requires Lawful(c) && TaskOk(c, s, g) && b < c.buckets
    requires s.overlay.Some? ==> b !in s.overlay.value.migrated
    ensures c.owners(s.nodes, s.repl, b) == Route(c, s, b)
    ensures Route(c, s, b) != [] && NoDup(Route(c, s, b))
  {
    OwnFacts(c, s.nodes, b);
    if s.overlay.Some? {
      var o := s.overlay.value;
      OwnFacts(c, o.prev, b);
      if s.task.Committing? {
        OwnStays(c, o.prev, o.next, b);
        if s.task.stage < 2 { OwnListing(c, s.nodes, o.prev, b); }
      } else {
        OwnListing(c, s.nodes, o.prev, b);
      }
    }
  }

  lemma {:induction false} ReadPartitionerKeeps(c: Conf, s: State, g: Ghost, id: nat)
    requires Inv(c, s, g) && ClientGuard(c, s, ReadPartitioner(id)) && Lawful(c)
    ensures Inv(c, ClientStep(c, s, ReadPartitioner(id)), g)
  {
    var s' := ClientStep(c, s, ReadPartitioner(id));
    var x := s'.ops[id];
    assert ClientOk(c, s, g, s.ops[id]);
    PartitionerRoutesAlike(c, s, g, Bucket(c, x.key));
    StayCounts(c, s, s', id, x);
    BookkeepingKeeps(c, s, g, s', id, x);
    RivalsKeep(s, s', id, x);
    TaskFrame(c, s, g, s');
  }

  // ---------------------------------------------------------------- steps that write

  lemma {:induction false} SlotAfterWrite(data: map<Loc, Value>, n: Node, k: Key, o: Option<Value>, n': Node, k': Key)
    ensures Slot(Write(data, n, k, o), n', k') == if n' == n && k' == k then o else Slot(data, n', k')
  {}

  lemma {:induction false} ExportAt(c: Conf, o: Overlay, chunk: set<nat>, j: CopyJob, data: map<Loc, Value>, k: Key)
    ensures var e := Export(c, o, chunk, j, data);
            At(e, k) == if k.coll == j.coll && Travels(c, o, chunk, j, Bucket(c, k))
                        then Slot(data, j.from, k) else None
  {
    if Loc(j.from, k) in data {
      assert k in set l | l in data && l.node == j.from :: l.key;
    }
  }

  /** An export sees its chunk only. */
  lemma {:induction false} ExportFrame(c: Conf, o: Overlay, chunk: set<nat>, j: CopyJob, d: map<Loc, Value>,
                                       d': map<Loc, Value>)
    requires forall n, k :: Bucket(c, k) in chunk ==> Slot(d', n, k) == Slot(d, n, k)
    ensures Export(c, o, chunk, j, d') == Export(c, o, chunk, j, d)
  {
    var e, e' := Export(c, o, chunk, j, d), Export(c, o, chunk, j, d');
    forall k ensures At(e, k) == At(e', k) {
      ExportAt(c, o, chunk, j, d, k);
      ExportAt(c, o, chunk, j, d', k);
    }
    assert forall k :: k in e <==> At(e, k).Some?;
    assert forall k :: k in e' <==> At(e', k).Some?;
    assert forall k :: k in e ==> At(e, k).value == e[k];
    assert forall k :: k in e' ==> At(e', k).value == e'[k];
    assert e.Keys == e'.Keys;
  }

  /** A write outside the torn buckets does not disturb the chunk at work. */
  lemma {:induction false} ChunkFrame(c: Conf, s: State, g: Ghost, s': State, g': Ghost)
    requires TornOk(c, s, g) && ChunkOk(c, s, g) && TaskOk(c, s, g)
    requires s' == s.(ops := s'.ops, data := s'.data) && g'.torn == g.torn
    requires forall n, k :: Bucket(c, k) in g.torn ==> Slot(s'.data, n, k) == Slot(s.data, n, k)
    requires forall k :: Bucket(c, k) in g.torn ==> At(g'.m, k) == At(g.m, k)
    ensures TornOk(c, s', g') && ChunkOk(c, s', g')
  {
    if s.overlay.Some? {
      var o := s.overlay.value;
      forall k | Managed(c, k) && Bucket(c, k) in g.torn
        ensures BeforeCut(c, o, s.data, g.m, k) ==> BeforeCut(c, o, s'.data, g'.m, k)
        ensures AfterCut(c, o, s.data, g.m, k) ==> AfterCut(c, o, s'.data, g'.m, k)
      {}
      if s.task.Copying? {
        if s.task.held.Some? { ExportFrame(c, o, s.task.chunk, s.task.held.value.job, s.data, s'.data); }
        forall k, n | Managed(c, k) && Bucket(c, k) in s.task.chunk
          ensures CopyProgress(c, o, s'.task, s'.data, g'.m, k, n)
        {
          assert CopyProgress(c, o, s.task, s.data, g.m, k, n);
        }
      }
      if s.task.Dropping? {
        forall k | Managed(c, k) && Bucket(c, k) in s.task.chunk
          ensures AfterCut(c, o, s'.data, g'.m, k) && forall n :: DropProgress(c, o, s'.task, s'.data, k, n)
        {
          assert AfterCut(c, o, s.data, g.m, k);
          forall n ensures DropProgress(c, o, s'.task, s'.data, k, n) {
            assert DropProgress(c, o, s.task, s.data, k, n);
          }
        }
      }
    }
  }

  /** A write by operation `id` at node `n` that brings the node to the map's value. */
  lemma {:induction false} WriteSettles(c: Conf, s: State, g: Ghost, s': State, g': Ghost, id: nat, x': Client, n: Node)
    requires Settled(c, s, g) && ClientsOk(c, s, g) && id in s.ops
    requires var k := s.ops[id].key;
             && n in Route(c, s, Bucket(c, k)) && x'.key == k && x'.Running?
             && s'.data == Write(s.data, n, k, At(g'.m, k)) && s'.ops == s.ops[id := x']
             && (forall k' :: k' != k ==> At(g'.m, k') == At(g.m, k'))
             && (forall n' :: n' != n && n' in Route(c, s, Bucket(c, k)) ==>
                   Slot(s.data, n', k) == At(g'.m, k) || Owed(s'.ops, k, n'))
             && (forall k', n' :: k' != k ==> !Owes(s.ops[id], k', n'))
    requires s' == s.(ops := s'.ops, data := s'.data) && g'.torn == g.torn
    ensures Settled(c, s', g')
  {
    var k := s.ops[id].key;
    forall k', n' | Managed(c, k') && Bucket(c, k') !in g.torn ensures SlotOk(c, s', g', k', n') {
      assert SlotOk(c, s, g, k', n');
      SlotAfterWrite(s.data, n, k, At(g'.m, k), n', k');
      if k' != k { OwedKeeps(s.ops, id, x', k', n'); }
    }
  }

  /** Other operations do not notice such a write. */
  lemma {:induction false} OthersKeep(c: Conf, s: State, g: Ghost, s': State, g': Ghost, id: nat, x': Client, n: Node)
    requires ClientsOk(c, s, g) && NoRivals(s) && id in s.ops && Mutates(s.ops[id].op)
    requires var k := s.ops[id].key;
             && s'.data == Write(s.data, n, k, At(g'.m, k)) && s'.ops == s.ops[id := x']
             && (forall k' :: k' != k ==> At(g'.m, k') == At(g.m, k'))
    requires s' == s.(ops := s'.ops, data := s'.data) && g'.torn == g.torn
    requires ClientOk(c, s', g', x')
    ensures ClientsOk(c, s', g')
  {
    var k := s.ops[id].key;
    forall i | i in s'.ops ensures ClientOk(c, s', g', s'.ops[i]) {
      if i != id {
        var y := s.ops[i];
        assert ClientOk(c, s, g, y);
        if y.key != k && y.Running? {
          forall h | 0 <= h < |y.route| ensures Slot(s'.data, y.route[h], y.key) == Slot(s.data, y.route[h], y.key) {
            SlotAfterWrite(s.data, n, k, At(g'.m, k), y.route[h], y.key);
          }
        }
      }
    }
  }

  lemma {:induction false} WriteBack(data: map<Loc, Value>, m: map<Key, Value>, n: Node, k: Key)
    ensures Write(data, n, k, Slot(data, n, k)) == data && Store(m, k, At(m, k)) == m
  {}

  /** What the primary answers is what the plain map answers. */
  lemma {:induction false} PrimaryAnswers(c: Conf, s: State, g: Ghost, id: nat, key: Key, op: Op, res: Result)
    requires Inv(c, s, g) && ClientGuard(c, s, AtPrimary(id, key, op, res))
    ensures s.ops[id].route == Route(c, s, Bucket(c, key)) && Managed(c, key) && Bucket(c, key) !in g.torn
    ensures Slot(s.data, s.ops[id].route[0], key) == At(g.m, key) && res == Apply(op, At(g.m, key)).1
  {
    assert ClientOk(c, s, g, s.ops[id]);
    PrimaryCurrent(c, s, g, key);
  }

  /** An operation that stops at the primary changes nothing. */
  lemma {:induction false} PrimaryOnlyKeeps(c: Conf, s: State, g: Ghost, id: nat, key: Key, op: Op, res: Result)
    requires Inv(c, s, g) && ClientGuard(c, s, AtPrimary(id, key, op, res)) && !Replicates(op, res)
    ensures Inv(c, ClientStep(c, s, AtPrimary(id, key, op, res)), GhostStep(g, s, AtPrimary(id, key, op, res)))
  {
    var e := AtPrimary(id, key, op, res);
    var s' := ClientStep(c, s, e);
    var x := s.ops[id];
    PrimaryAnswers(c, s, g, id, key, op, res);
    ReplicaAgrees(op, At(g.m, key));
    WriteBack(s.data, g.m, x.route[0], key);
    assert ClientOk(c, s, g, x);
    StayCounts(c, s, s', id, s'.ops[id]);
    BookkeepingKeeps(c, s, g, s', id, s'.ops[id]);
    RivalsKeep(s, s', id, s'.ops[id]);
    TaskFrame(c, s, g, s');
  }

  /** After the primary's write, the other owners are owed exactly what they will store. */
  lemma {:induction false} ReplicasWillAgree(c: Conf, s: State, g: Ghost, id: nat, data': map<Loc, Value>,
                                             o: Option<Value>, i: nat)
    requires Settled(c, s, g) && ClientsOk(c, s, g) && NoRivals(s) && id in s.ops
    requires var x := s.ops[id];
             && x.Running? && x.pos == 0 && Mutates(x.op) && 0 < i < |x.route| && NoDup(x.route)
             && data' == Write(s.data, x.route[0], x.key, o) && o == Apply(x.op, At(g.m, x.key)).0
    ensures var x := s.ops[id]; ReplicaEffect(x.op, Apply(x.op, At(g.m, x.key)).1, Slot(data', x.route[i], x.key)) == o
  {
    var x := s.ops[id];
    OwnersCurrent(c, s, g, id, x.route[i]);
    SlotAfterWrite(s.data, x.route[0], x.key, o, x.route[i], x.key);
    ReplicaAgrees(x.op, At(g.m, x.key));
  }

  lemma {:induction false} PrimaryWriteKeeps(c: Conf, s: State, g: Ghost, id: nat, key: Key, op: Op, res: Result)
    requires Inv(c, s, g) && ClientGuard(c, s, AtPrimary(id, key, op, res)) && Replicates(op, res)
    ensures Inv(c, ClientStep(c, s, AtPrimary(id, key, op, res)), GhostStep(g, s, AtPrimary(id, key, op, res)))
  {
    var e := AtPrimary(id, key, op, res);
    var s', g' := ClientStep(c, s, e), GhostStep(g, s, e);
    var x, x' := s.ops[id], s'.ops[id];
    var n := x.route[0];
    PrimaryAnswers(c, s, g, id, key, op, res);
    assert ClientOk(c, s, g, x);
    assert At(g'.m, key) == Apply(op, At(g.m, key)).0;
    forall n' | n' != n && n' in x.route ensures Owed(s'.ops, key, n') {
      assert n' in x.route[1..];
      assert Owes(s'.ops[id], key, n');
    }
    WriteSettles(c, s, g, s', g', id, x', n);
    forall i | 1 <= i < |x.route| ensures ReplicaEffect(op, res, Slot(s'.data, x.route[i], key)) == At(g'.m, key) {
      ReplicasWillAgree(c, s, g, id, s'.data, At(g'.m, key), i);
    }
    assert Route(c, s', Bucket(c, key)) == Route(c, s, Bucket(c, key));
    OthersKeep(c, s, g, s', g', id, x', n);
    forall n', k | Bucket(c, k) in g.torn ensures Slot(s'.data, n', k) == Slot(s.data, n', k) {
      SlotAfterWrite(s.data, n, key, At(g'.m, key), n', k);
    }
    ChunkFrame(c, s, g, s', g');
    StayCounts(c, s, s', id, x');
    RivalsKeep(s, s', id, x');
    TaskFrame(c, s, g, s');
    assert TaskOk(c, s', g');
  }

  lemma {:induction false} ReplicaKeeps(c: Conf, s: State, g: Ghost, id: nat)
    requires Inv(c, s, g) && ClientGuard(c, s, AtReplica(id)) && Lawful(c)
    ensures Inv(c, ClientStep(c, s, AtReplica(id)), g)
  {
    var s' := ClientStep(c, s, AtReplica(id));
    var x, x' := s.ops[id], s'.ops[id];
    var n := x.route[x.pos];
    assert ClientOk(c, s, g, x);
    RoutedServed(c, s, g, Bucket(c, x.key), n);
    if Mutates(x.op) {
      assert s'.data == Write(s.data, n, x.key, At(g.m, x.key));
      forall n' | n' != n && n' in x.route
        ensures Slot(s.data, n', x.key) == At(g.m, x.key) || Owed(s'.ops, x.key, n')
      {
        assert SlotOk(c, s, g, x.key, n');
        OwedSteps(s.ops, id, x', x.key, n');
      }
      WriteSettles(c, s, g, s', g, id, x', n);
      forall i | x'.pos <= i < |x.route|
        ensures ReplicaEffect(x.op, x.res.value, Slot(s'.data, x.route[i], x.key)) == At(g.m, x.key)
      {
        SlotAfterWrite(s.data, n, x.key, At(g.m, x.key), x.route[i], x.key);
      }
      OthersKeep(c, s, g, s', g, id, x', n);
      forall n', k | Bucket(c, k) in g.torn ensures Slot(s'.data, n', k) == Slot(s.data, n', k) {
        SlotAfterWrite(s.data, n, x.key, At(g.m, x.key), n', k);
      }
      ChunkFrame(c, s, g, s', g);
    } else {
      WriteBack(s.data, g.m, n, x.key);
      BookkeepingKeeps(c, s, g, s', id, x');
    }
    StayCounts(c, s, s', id, x');
    RivalsKeep(s, s', id, x');
    TaskFrame(c, s, g, s');
  }

  /** One replica further, an operation owes everyone it owed but that replica. */
  lemma {:induction false} OwedSteps(ops: map<nat, Client>, id: nat, x': Client, k: Key, n: Node)
    requires id in ops && ops[id].Running? && ops[id].pos < |ops[id].route| && x' == ops[id].(pos := ops[id].pos + 1)
    requires n != ops[id].route[ops[id].pos]
    ensures Owed(ops, k, n) ==> Owed(ops[id := x'], k, n)
  {
    var x := ops[id];
    assert x.route[x.pos..] == [x.route[x.pos]] + x'.route[x'.pos..];
    OwedKeeps(ops, id, x', k, n);
  }

  /** Every routed owner has a client. */
  lemma {:induction false} RoutedServed(c: Conf, s: State, g: Ghost, b: nat, n: Node)
    requires Lawful(c) && TaskOk(c, s, g) && b < c.buckets && b !in g.torn && n in Route(c, s, b)
    ensures n in s.clients
  {
    match s.overlay
    case None =>
      OwnFacts(c, s.nodes, b);
      assert n in Elems(Own(c, s.nodes, b));
    case Some(o) =>
      OwnFacts(c, o.prev, b);
      OwnFacts(c, o.next, b);
      assert n in Elems(Route(c, s, b));
      if s.task.Committing? && b !in o.migrated {
        OwnStays(c, o.prev, o.next, b);
      }
  }

  lemma {:induction false} LeaveKeeps(c: Conf, s: State, g: Ghost, id: nat)
    requires Inv(c, s, g) && ClientGuard(c, s, Leave(id))
    ensures Inv(c, ClientStep(c, s, Leave(id)), g)
  {
    var s' := ClientStep(c, s, Leave(id));
    LeaveCounts(c, s, id);
    forall k, n | Managed(c, k) && Bucket(c, k) !in g.torn ensures SlotOk(c, s', g, k, n) {
      assert SlotOk(c, s, g, k, n);
      if i :| i in s.ops && Owes(s.ops[i], k, n) {
        assert i != id;
        assert Owes(s'.ops[i], k, n);
      }
    }
    forall i | i in s'.ops ensures ClientOk(c, s', g, s'.ops[i]) {
      assert ClientOk(c, s, g, s.ops[i]);
    }
    TaskFrame(c, s, g, s');
    assert TornOk(c, s', g) && ChunkOk(c, s', g);
  }

  lemma {:induction false} PrimaryKeeps(c: Conf, s: State, g: Ghost, e: Step)
    requires Inv(c, s, g) && ClientGuard(c, s, e) && e.AtPrimary?
    ensures Inv(c, ClientStep(c, s, e), GhostStep(g, s, e))
    ensures e.res == Apply(e.op, At(g.m, e.key)).1
  {
    PrimaryAnswers(c, s, g, e.id, e.key, e.op, e.res);
    if Replicates(e.op, e.res) {
      PrimaryWriteKeeps(c, s, g, e.id, e.key, e.op, e.res);
    } else {
      PrimaryOnlyKeeps(c, s, g, e.id, e.key, e.op, e.res);
    }
  }

  /** Every client step keeps the invariant, and the primary answers as the plain map would. */
  lemma {:induction false} ClientStepKeeps(c: Conf, s: State, g: Ghost, e: Step)
    requires Lawful(c) && Inv(c, s, g) && ClientGuard(c, s, e) && Orderly(s, e)
    ensures Inv(c, ClientStep(c, s, e), GhostStep(g, s, e))
    ensures e.AtPrimary? ==> e.res == Apply(e.op, At(g.m, e.key)).1
  {
    if e.AtPrimary? {
      PrimaryKeeps(c, s, g, e);
    } else {
      match e
      case Enter(id, key, op) => EnterKeeps(c, s, g, id, key, op);
      case ReadOverlay(id) => ReadOverlayKeeps(c, s, g, id);
      case ReadPartitioner(id) => ReadPartitionerKeeps(c, s, g, id);
      case AtReplica(id) => ReplicaKeeps(c, s, g, id);
      case Leave(id) => LeaveKeeps(c, s, g, id);
    }
  }
}
