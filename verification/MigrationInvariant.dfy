/** The invariant that ties every reachable cluster state to one plain map. */
module MigrationInvariant {
  import opened Seqs
  import opened Replication
  import opened Values
  import opened Gates
  import opened Migration

  /**
   * The proof's view of a state: the plain map the cluster stands for, and the buckets whose
   * chunk has started copying and is not unfrozen yet.
   */
  datatype Ghost = Ghost(m: map<Key, Value>, torn: set<nat>)

  ghost function At(m: map<Key, Value>, k: Key): Option<Value> { if k in m then Some(m[k]) else None }

  ghost function Store(m: map<Key, Value>, k: Key, o: Option<Value>): map<Key, Value> {
    if o.Some? then m[k := o.value] else m - {k}
  }

  // ---------------------------------------------------------------- the gate

  ghost function LiveOn(c: Conf, ops: map<nat, Client>, b: nat): set<nat> {
    set id | id in ops && Bucket(c, ops[id].key) == b
  }

  /** The in-flight count of a bucket is the number of its live tokens, and no zero is kept. */
  ghost predicate GateInv(c: Conf, s: State) {
    forall b: nat ::
      && Count(s.gate, b) == |LiveOn(c, s.ops, b)|
      && (b in s.gate.inFlight ==> s.gate.inFlight[b] > 0)
  }

  // ---------------------------------------------------------------- data outside the chunk at work

  /** The operation has changed the primary and has yet to reach node `n`. */
  ghost predicate Owes(x: Client, k: Key, n: Node) {
    x.Running? && x.key == k && Mutates(x.op) && 0 < x.pos <= |x.route| && n in x.route[x.pos..]
  }

  ghost predicate Owed(ops: map<nat, Client>, k: Key, n: Node) {
    exists id :: id in ops && Owes(ops[id], k, n)
  }

  /** An owner holds the map's value, or is about to receive it; nobody else holds anything. */
  ghost predicate SlotOk(c: Conf, s: State, g: Ghost, k: Key, n: Node) {
    if n in Route(c, s, Bucket(c, k))
    then Slot(s.data, n, k) == At(g.m, k) || Owed(s.ops, k, n)
    else Slot(s.data, n, k) == None
  }

  ghost predicate Settled(c: Conf, s: State, g: Ghost) {
    forall k, n :: Managed(c, k) && Bucket(c, k) !in g.torn ==> SlotOk(c, s, g, k, n)
  }

  // ---------------------------------------------------------------- operations in flight

  ghost predicate ClientOk(c: Conf, s: State, g: Ghost, x: Client) {
    && Managed(c, x.key) && Bucket(c, x.key) !in g.torn
    && (x.SawNoOverlay? && s.overlay.Some? ==> Bucket(c, x.key) !in s.overlay.value.migrated)
    && (x.Running? ==>
          && x.route == Route(c, s, Bucket(c, x.key)) && x.route != [] && NoDup(x.route)
          && (x.pos > 0 ==> x.pos <= |x.route| && x.res.Some?)
          && (Mutates(x.op) && x.pos > 0 ==>
                forall i :: x.pos <= i < |x.route| ==>
                    ReplicaEffect(x.op, x.res.value, Slot(s.data, x.route[i], x.key)) == At(g.m, x.key)))
  }

  ghost predicate ClientsOk(c: Conf, s: State, g: Ghost) {
    forall id :: id in s.ops ==> ClientOk(c, s, g, s.ops[id])
  }

  ghost predicate NoRivals(s: State) {
    forall i, j :: i in s.ops && j in s.ops && i != j && s.ops[i].key == s.ops[j].key ==>
      !(Mutates(s.ops[i].op) && Mutates(s.ops[j].op))
  }

  // ---------------------------------------------------------------- data of the chunk at work

  /** Not cut over yet: the old owners are complete, targets hold a value or nothing. */
  ghost predicate BeforeCut(c: Conf, o: Overlay, data: map<Loc, Value>, m: map<Key, Value>, k: Key) {
    var was, will := Own(c, o.prev, Bucket(c, k)), Own(c, o.next, Bucket(c, k));
    forall n ::
      if n in was then Slot(data, n, k) == At(m, k)
      else if n in will then Slot(data, n, k) == At(m, k) || Slot(data, n, k) == None
      else Slot(data, n, k) == None
  }

  /** Every copy is in place: the new owners are complete, leavers hold a value or nothing. */
  ghost predicate AfterCut(c: Conf, o: Overlay, data: map<Loc, Value>, m: map<Key, Value>, k: Key) {
    var was, will := Own(c, o.prev, Bucket(c, k)), Own(c, o.next, Bucket(c, k));
    forall n ::
      if n in will then Slot(data, n, k) == At(m, k)
      else if n in was then Slot(data, n, k) == At(m, k) || Slot(data, n, k) == None
      else Slot(data, n, k) == None
  }

  ghost predicate TornOk(c: Conf, s: State, g: Ghost) {
    && (g.torn != {} ==> s.overlay.Some?)
    && forall k :: Managed(c, k) && Bucket(c, k) in g.torn ==>
         || BeforeCut(c, s.overlay.value, s.data, g.m, k)
         || AfterCut(c, s.overlay.value, s.data, g.m, k)
  }

  /** How far the current chunk has come. */
  ghost predicate ChunkOk(c: Conf, s: State, g: Ghost) {
    && (s.task.Copying? && s.overlay.Some? ==>
          && (forall k, n :: Managed(c, k) && Bucket(c, k) in s.task.chunk ==>
                CopyProgress(c, s.overlay.value, s.task, s.data, g.m, k, n))
          && (s.task.held.Some? ==>
                s.task.held.value.entries == Export(c, s.overlay.value, s.task.chunk, s.task.held.value.job, s.data)))
    && (s.task.Dropping? && s.overlay.Some? ==>
          forall k :: Managed(c, k) && Bucket(c, k) in s.task.chunk ==>
            && AfterCut(c, s.overlay.value, s.data, g.m, k)
            && (forall n :: DropProgress(c, s.overlay.value, s.task, s.data, k, n)))
  }

  /** A target is complete unless its copy is still to come. */
  ghost predicate CopyProgress(c: Conf, o: Overlay, t: Task, data: map<Loc, Value>, m: map<Key, Value>, k: Key, n: Node)
    requires t.Copying?
  {
    var was, will := Own(c, o.prev, Bucket(c, k)), Own(c, o.next, Bucket(c, k));
    var job := CopyJob(First(was), n, k.coll);
    n in will && n !in was ==>
      Slot(data, n, k) == At(m, k) || job in t.jobs || (t.held.Some? && t.held.value.job == job)
  }

  /** A leaver is empty unless its drop is still to come. */
  ghost predicate DropProgress(c: Conf, o: Overlay, t: Task, data: map<Loc, Value>, k: Key, n: Node)
    requires t.Dropping?
  {
    var was, will := Own(c, o.prev, Bucket(c, k)), Own(c, o.next, Bucket(c, k));
    n in was && n !in will ==> Slot(data, n, k) == None || DropJob(n, k.coll) in t.drops
  }

  // ---------------------------------------------------------------- the migration task

  /** The committed membership is still the one the overlay starts from. */
  ghost predicate OnPrev(c: Conf, s: State, o: Overlay) {
    Elems(s.nodes) == Elems(o.prev) && s.repl == Clamp(c.target, |s.nodes|)
  }

  ghost predicate Recorded(s: State, o: Overlay, done: set<nat>) {
    s.journal == Some(Record(o.prev, o.next, done))
  }

  /** Outside the torn buckets, cut over means journalled. */
  ghost predicate CutIsDone(o: Overlay, torn: set<nat>, done: set<nat>) {
    done <= o.migrated && o.migrated <= done + torn && done !! torn
  }

  ghost predicate TaskOk(c: Conf, s: State, g: Ghost) {
    && Membership(c, s.nodes) && g.torn <= s.gate.frozen
    && match s.overlay
       case None => RestOk(c, s, g)
       case Some(o) => OverlayOk(c, s, g, o)
  }

  /** No overlay: nothing is under way but the commit of an unchanged membership. */
  ghost predicate RestOk(c: Conf, s: State, g: Ghost) {
    && g.torn == {} && Elems(s.nodes) <= s.clients && s.repl == Clamp(c.target, |s.nodes|) && s.journal.None?
    && match s.task
       case Idle => true
       case Committing(_, next) => Membership(c, next) && Elems(next) == Elems(s.nodes)
       case _ => false
  }

  ghost predicate OverlayOk(c: Conf, s: State, g: Ghost, o: Overlay) {
    && Membership(c, o.prev) && Membership(c, o.next)
    && g.torn <= Moving(c, o.prev, o.next) && o.migrated <= Moving(c, o.prev, o.next)
    && Elems(o.next) <= s.clients
    && match s.task
       case Committing(stage, next) => CommitOk(c, s, g, o, stage, next)
       case _ => OnPrev(c, s, o) && Elems(o.prev) <= s.clients && WorkOk(c, s, g, o)
  }

  ghost predicate WorkOk(c: Conf, s: State, g: Ghost, o: Overlay) {
    match s.task
    case Idle => s.journal.Some? && Recorded(s, o, s.journal.value.done) && CutIsDone(o, g.torn, s.journal.value.done)
    case Between(done) => Recorded(s, o, done) && o.migrated == done && done !! g.torn
    case Draining(done, chunk) =>
      && Recorded(s, o, done) && o.migrated == done && done !! g.torn
      && chunk <= Moving(c, o.prev, o.next) && chunk !! done && chunk <= s.gate.frozen
    case Copying(done, chunk, jobs, held) =>
      && Recorded(s, o, done) && o.migrated == done && done !! g.torn && chunk <= g.torn
      && jobs <= CopyJobs(c, o, chunk) && (held.Some? ==> held.value.job in CopyJobs(c, o, chunk))
    case Dropping(done, chunk, drops) =>
      && Recorded(s, o, done) && o.migrated == done + chunk && done !! g.torn && chunk <= g.torn
      && drops <= DropJobs(c, o, chunk)
    case Unfrozen(done, chunk) =>
      Recorded(s, o, done) && o.migrated == done + chunk && (done + chunk) !! g.torn
    case Committing(_, _) => true
  }

  ghost predicate CommitOk(c: Conf, s: State, g: Ghost, o: Overlay, stage: nat, next: seq<Node>) {
    && next == o.next && g.torn == {} && o.migrated == Moving(c, o.prev, o.next)
    && (stage == 0 ==> Recorded(s, o, o.migrated)) && (stage > 0 ==> s.journal.None?)
    && (stage < 2 ==> OnPrev(c, s, o))
    && (stage >= 2 ==> s.nodes == next)
    && (stage == 2 ==> s.repl == Clamp(c.target, |o.prev|))
    && (stage > 2 ==> s.repl == Clamp(c.target, |next|))
    && (stage < 4 ==> Elems(o.prev) <= s.clients)
  }

  ghost predicate Inv(c: Conf, s: State, g: Ghost) {
    && GateInv(c, s) && Settled(c, s, g) && ClientsOk(c, s, g) && NoRivals(s)
    && TornOk(c, s, g) && ChunkOk(c, s, g) && TaskOk(c, s, g)
  }

  /** How the proof's view follows a step. */
  ghost function GhostStep(g: Ghost, s: State, e: Step): Ghost {
    match e
    case AtPrimary(id, key, op, res) => g.(m := Store(g.m, key, Apply(op, At(g.m, key)).0))
    case FinishDrain => if s.task.Draining? then g.(torn := g.torn + s.task.chunk) else g
    case Unfreeze => if s.task.Dropping? then g.(torn := g.torn - s.task.chunk) else g
    case _ => g
  }
}
