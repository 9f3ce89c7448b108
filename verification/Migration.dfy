/**
 * The online rebalance as a transition system: client operations go through the gate and touch
 * their owners one replica at a time while a migration freezes, drains, copies, cuts over and
 * drops one chunk of buckets after another. Every lock-protected access is a step of its own.
 */
module Migration {
  import opened Seqs
  import opened Replication
  import opened Values
  import opened Gates

  type Node = string
  datatype Loc = Loc(node: Node, key: Key)

  /**
   * What does not change during a run. `owners(nodes, r, b)` is the partitioner's answer for
   * bucket `b`; `colls` are the collections the cluster manages.
   */
  datatype Conf = Conf(
    colls: set<string>,
    target: nat,
    buckets: nat,
    bucketOf: string -> nat,
    owners: (seq<Node>, nat, nat) -> seq<Node>,
    universe: set<Node>)

  /** Owners of a bucket under a membership at the replication that membership allows. */
  function Own(c: Conf, nodes: seq<Node>, b: nat): seq<Node> {
    c.owners(nodes, Clamp(c.target, |nodes|), b)
  }

  function Bucket(c: Conf, k: Key): nat { c.bucketOf(k.id) }

  ghost predicate Managed(c: Conf, k: Key) { k.coll in c.colls && Bucket(c, k) < c.buckets }

  ghost predicate Membership(c: Conf, nodes: seq<Node>) {
    nodes != [] && NoDup(nodes) && Elems(nodes) <= c.universe
  }

  /** What the partitioner guarantees for memberships drawn from the universe. */
  ghost predicate Lawful(c: Conf) {
    && (forall ns, r, b :: Membership(c, ns) && r > 0 ==>
          var o := c.owners(ns, r, b); NoDup(o) && |o| == Min(r, |ns|) && Elems(o) <= Elems(ns))
    && (forall ns, ms, r, b :: Membership(c, ns) && Membership(c, ms) && Elems(ns) == Elems(ms) ==>
          c.owners(ns, r, b) == c.owners(ms, r, b))
    && (forall ns, ms, r, q, b ::
          Membership(c, ns) && Membership(c, ms) && Elems(c.owners(ns, r, b)) == Elems(c.owners(ms, q, b)) ==>
            c.owners(ns, r, b) == c.owners(ms, q, b))
  }

  /** The buckets whose owner set differs between two memberships: those the plan acts on. */
  ghost function Moving(c: Conf, prev: seq<Node>, next: seq<Node>): set<nat> {
    set b: nat | b < c.buckets && Elems(Own(c, prev, b)) != Elems(Own(c, next, b))
  }

  datatype Overlay = Overlay(prev: seq<Node>, next: seq<Node>, migrated: set<nat>)

  datatype Record = Record(prev: seq<Node>, next: seq<Node>, done: set<nat>)

  /** An operation in flight; all of these hold a gate token for their key's bucket. */
  datatype Client =
    | Inside(key: Key, op: Op)
    | SawNoOverlay(key: Key, op: Op)
    | Running(key: Key, op: Op, route: seq<Node>, pos: nat, res: Option<Result>)

  datatype CopyJob = CopyJob(from: Node, to: Node, coll: string)
  datatype DropJob = DropJob(node: Node, coll: string)
  datatype Exported = Exported(job: CopyJob, entries: map<Key, Value>)

  /** Where the migration task stands. */
  datatype Task =
    | Idle
    | Between(done: set<nat>)
    | Draining(done: set<nat>, chunk: set<nat>)
    | Copying(done: set<nat>, chunk: set<nat>, jobs: set<CopyJob>, held: Option<Exported>)
    | Dropping(done: set<nat>, chunk: set<nat>, drops: set<DropJob>)
    | Unfrozen(done: set<nat>, chunk: set<nat>)
    | Committing(stage: nat, next: seq<Node>)

  datatype State = State(
    data: map<Loc, Value>,
    nodes: seq<Node>,
    repl: nat,
    clients: set<Node>,
    overlay: Option<Overlay>,
    gate: Gate,
    ops: map<nat, Client>,
    journal: Option<Record>,
    task: Task)

  function Slot(data: map<Loc, Value>, n: Node, k: Key): Option<Value> {
    if Loc(n, k) in data then Some(data[Loc(n, k)]) else None
  }

  function Write(data: map<Loc, Value>, n: Node, k: Key, o: Option<Value>): map<Loc, Value> {
    if o.Some? then data[Loc(n, k) := o.value] else data - {Loc(n, k)}
  }

  /** The owners a request for bucket `b` is routed to. */
  function Route(c: Conf, s: State, b: nat): seq<Node> {
    match s.overlay
    case None => c.owners(s.nodes, s.repl, b)
    case Some(o) => if b in o.migrated then Own(c, o.next, b) else Own(c, o.prev, b)
  }

  // ---------------------------------------------------------------- a chunk's moves

  /** The chunk's copies, one per (source, target, collection). */
  ghost function CopyJobs(c: Conf, o: Overlay, chunk: set<nat>): set<CopyJob> {
    set b, to, coll | b in chunk && to in Elems(Own(c, o.next, b)) - Elems(Own(c, o.prev, b)) && coll in c.colls
      :: CopyJob(First(Own(c, o.prev, b)), to, coll)
  }

  function First(s: seq<Node>): Node { if s == [] then "" else s[0] }

  ghost function DropJobs(c: Conf, o: Overlay, chunk: set<nat>): set<DropJob> {
    set b, n, coll | b in chunk && n in Elems(Own(c, o.prev, b)) - Elems(Own(c, o.next, b)) && coll in c.colls
      :: DropJob(n, coll)
  }

  /** The chunk's buckets that travel on a copy, and those dropped from a node. */
  ghost predicate Travels(c: Conf, o: Overlay, chunk: set<nat>, j: CopyJob, b: nat) {
    b in chunk && First(Own(c, o.prev, b)) == j.from && j.to in Own(c, o.next, b) && j.to !in Own(c, o.prev, b)
  }

  ghost predicate Goes(c: Conf, o: Overlay, chunk: set<nat>, j: DropJob, b: nat) {
    b in chunk && j.node in Own(c, o.prev, b) && j.node !in Own(c, o.next, b)
  }

  ghost function Export(c: Conf, o: Overlay, chunk: set<nat>, j: CopyJob, data: map<Loc, Value>): map<Key, Value> {
    map k | k in (set l | l in data && l.node == j.from :: l.key) && k.coll == j.coll
        && Travels(c, o, chunk, j, Bucket(c, k))
      :: data[Loc(j.from, k)]
  }

  ghost function Import(data: map<Loc, Value>, to: Node, entries: map<Key, Value>): map<Loc, Value> {
    data + map l | l in (set k | k in entries :: Loc(to, k)) :: entries[l.key]
  }

  ghost function DropBuckets(c: Conf, o: Overlay, chunk: set<nat>, j: DropJob, data: map<Loc, Value>): map<Loc, Value> {
    data - set l | l in data && l.node == j.node && l.key.coll == j.coll && Goes(c, o, chunk, j, Bucket(c, l.key))
  }

  // ---------------------------------------------------------------- steps

  datatype Step =
    // a client operation
    | Enter(id: nat, key: Key, op: Op)
    | ReadOverlay(id: nat)
    | ReadPartitioner(id: nat)
    | AtPrimary(id: nat, key: Key, op: Op, res: Result)
    | AtReplica(id: nat)
    | Leave(id: nat)
    // membership and the migration task
    | AddClient(node: Node)
    | Start(prev: seq<Node>, next: seq<Node>)
    | Resume
    | Freeze(chunk: set<nat>)
    | FinishDrain
    | ExportJob(job: CopyJob)
    | ImportHeld
    | CutOver
    | DropOne(drop: DropJob)
    | Unfreeze
    | SaveRecord
    | FinishChunks
    | Commit
    | Abort
    // what the migration relies on not happening
    | Restart(prev: seq<Node>, next: seq<Node>)
    | Crash

  /** No other mutator is in flight on the key. */
  ghost predicate NoRival(s: State, key: Key, op: Op) {
    Mutates(op) ==> forall i :: i in s.ops && s.ops[i].key == key ==> !Mutates(s.ops[i].op)
  }

  function Finished(x: Client): bool { x.Running? && x.pos >= |x.route| && x.res.Some? }

  function WithOp(s: State, id: nat, x: Client): State { s.(ops := s.ops[id := x]) }

  ghost predicate ClientGuard(c: Conf, s: State, e: Step) {
    match e
    case Enter(id, key, op) => id !in s.ops && Managed(c, key) && MayEnter(s.gate, Bucket(c, key))
    case ReadOverlay(id) => id in s.ops && s.ops[id].Inside?
    case ReadPartitioner(id) => id in s.ops && s.ops[id].SawNoOverlay?
    case AtPrimary(id, key, op, res) =>
      && id in s.ops && s.ops[id].Running? && s.ops[id].pos == 0 && s.ops[id].key == key && s.ops[id].op == op
      && s.ops[id].route != []
      && s.ops[id].route[0] in s.clients && res == Apply(op, Slot(s.data, s.ops[id].route[0], key)).1
    case AtReplica(id) => id in s.ops && s.ops[id].Running? && 0 < s.ops[id].pos < |s.ops[id].route|
        && s.ops[id].res.Some?
    case Leave(id) => id in s.ops && Finished(s.ops[id])
    case _ => false
  }

  ghost function ClientStep(c: Conf, s: State, e: Step): State
    requires ClientGuard(c, s, e)
  {
    match e
    case Enter(id, key, op) => WithOp(s, id, Inside(key, op)).(gate := Entered(s.gate, Bucket(c, key)))
    case ReadOverlay(id) =>
      var x := s.ops[id];
      if s.overlay.None? then WithOp(s, id, SawNoOverlay(x.key, x.op))
      else WithOp(s, id, Running(x.key, x.op, Route(c, s, Bucket(c, x.key)), 0, None))
    case ReadPartitioner(id) =>
      var x := s.ops[id];
      WithOp(s, id, Running(x.key, x.op, c.owners(s.nodes, s.repl, Bucket(c, x.key)), 0, None))
    case AtPrimary(id, key, op, res) =>
      var x := s.ops[id];
      var n := x.route[0];
      WithOp(s, id, x.(pos := if Replicates(op, res) then 1 else |x.route|, res := Some(res)))
        .(data := Write(s.data, n, key, Apply(op, Slot(s.data, n, key)).0))
    case AtReplica(id) =>
      var x := s.ops[id];
      var n := x.route[x.pos];
      var s' := WithOp(s, id, x.(pos := x.pos + 1));
      if n in s.clients
      then s'.(data := Write(s.data, n, x.key, ReplicaEffect(x.op, x.res.value, Slot(s.data, n, x.key))))
      else s'
    case Leave(id) => s.(ops := s.ops - {id}, gate := Left(s.gate, Bucket(c, s.ops[id].key)))
  }

  ghost predicate TaskGuard(c: Conf, s: State, e: Step) {
    match e
    case AddClient(node) => true
    case Start(prev, next) =>
      && s.task.Idle? && s.overlay.None? && s.journal.None?
      && NoDup(prev) && Elems(prev) == Elems(s.nodes) && Membership(c, next) && Elems(next) <= s.clients
    case Resume => s.task.Idle? && s.overlay.Some? && s.journal.Some?
    case Freeze(chunk) =>
      && s.task.Between? && s.overlay.Some? && chunk != {}
      && chunk <= Moving(c, s.overlay.value.prev, s.overlay.value.next) - s.task.done
    case FinishDrain => s.task.Draining? && s.overlay.Some? && Drained(s.gate, s.task.chunk)
    case ExportJob(job) => s.task.Copying? && s.overlay.Some? && s.task.held.None? && job in s.task.jobs
        && job.from in s.clients
    case ImportHeld => s.task.Copying? && s.overlay.Some? && s.task.held.Some? && s.task.held.value.job.to in s.clients
    case CutOver => s.task.Copying? && s.overlay.Some? && s.task.jobs == {} && s.task.held.None?
    case DropOne(drop) => s.task.Dropping? && s.overlay.Some? && drop in s.task.drops && drop.node in s.clients
    case Unfreeze => s.task.Dropping? && s.task.drops == {}
    case SaveRecord => s.task.Unfrozen? && s.overlay.Some?
    case FinishChunks =>
      s.task.Between? && s.overlay.Some? && Moving(c, s.overlay.value.prev, s.overlay.value.next) <= s.task.done
    case Commit => s.task.Committing?
    case Abort => s.task.Between? || s.task.Draining? || s.task.Copying? || s.task.Dropping?
    case _ => false
  }

  /** `commit_membership` and what surrounds it, one access at a time. */
  function CommitStep(c: Conf, s: State): State
    requires s.task.Committing?
  {
    var next, t := s.task.next, s.task;
    match t.stage
    case 0 => s.(journal := None, task := t.(stage := 1))
    case 1 => s.(nodes := next, task := t.(stage := 2))
    case 2 => s.(repl := Clamp(c.target, |next|), task := t.(stage := 3))
    case 3 => s.(clients := s.clients * Elems(next), task := t.(stage := 4))
    case _ => s.(overlay := None, task := Idle)
  }

  ghost function TaskStep(c: Conf, s: State, e: Step): State
    requires TaskGuard(c, s, e)
  {
    match e
    case AddClient(node) => s.(clients := s.clients + {node})
    case Start(prev, next) =>
      if Elems(prev) == Elems(next) then s.(task := Committing(0, next))
      else s.(overlay := Some(Overlay(prev, next, {})), journal := Some(Record(prev, next, {})), task := Between({}))
    case Resume =>
      var r := s.journal.value;
      s.(overlay := Some(Overlay(r.prev, r.next, r.done)), task := Between(r.done))
    case Freeze(chunk) => s.(gate := Froze(s.gate, chunk), task := Draining(s.task.done, chunk))
    case FinishDrain => s.(task := Copying(s.task.done, s.task.chunk, CopyJobs(c, s.overlay.value, s.task.chunk), None))
    case ExportJob(job) =>
      var entries := Export(c, s.overlay.value, s.task.chunk, job, s.data);
      s.(task := s.task.(jobs := s.task.jobs - {job}, held := Some(Exported(job, entries))))
    case ImportHeld =>
      var h := s.task.held.value;
      s.(data := Import(s.data, h.job.to, h.entries), task := s.task.(held := None))
    case CutOver =>
      var o, t := s.overlay.value, s.task;
      s.(overlay := Some(o.(migrated := o.migrated + t.chunk)),
         task := Dropping(t.done, t.chunk, DropJobs(c, o, t.chunk)))
    case DropOne(drop) =>
      s.(data := DropBuckets(c, s.overlay.value, s.task.chunk, drop, s.data),
         task := s.task.(drops := s.task.drops - {drop}))
    case Unfreeze => s.(gate := Thawed(s.gate, s.task.chunk), task := Unfrozen(s.task.done, s.task.chunk))
    case SaveRecord =>
      var o, done := s.overlay.value, s.task.done + s.task.chunk;
      s.(journal := Some(Record(o.prev, o.next, done)), task := Between(done))
    case FinishChunks => s.(task := Committing(0, s.overlay.value.next))
    case Commit => CommitStep(c, s)
    case Abort => s.(task := Idle)
  }

  /** An operation enters only when no other mutator is in flight on its key. */
  ghost predicate Orderly(s: State, e: Step) { e.Enter? ==> NoRival(s, e.key, e.op) }

  ghost predicate Next(c: Conf, s: State, e: Step, s': State) {
    || (ClientGuard(c, s, e) && Orderly(s, e) && s' == ClientStep(c, s, e))
    || (TaskGuard(c, s, e) && s' == TaskStep(c, s, e))
  }

  ghost predicate Init(c: Conf, s: State) {
    && Membership(c, s.nodes) && s.repl == Clamp(c.target, |s.nodes|) && Elems(s.nodes) <= s.clients
    && s.data == map[] && s.overlay.None? && s.gate == Open && s.ops == map[] && s.journal.None? && s.task.Idle?
  }

  ghost predicate Run(c: Conf, ss: seq<State>, es: seq<Step>) {
    |ss| == |es| + 1 && Init(c, ss[0]) && forall i :: 0 <= i < |es| ==> Next(c, ss[i], es[i], ss[i + 1])
  }
}
