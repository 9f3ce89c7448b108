/** Calling a rebalance after an interruption instead of resuming. */
module MigrationRestart {
  import opened Seqs
  import opened Replication
  import opened Values
  import opened Gates
  import opened Migration
  import opened MigrationInvariant
  import opened MigrationClients
  import opened MigrationTask
  import opened MigrationTheorems
  import opened MigrationLapses
  import opened SmallRuns
  import opened ClusterPlacement

  // ---------------------------------------------------------------- to other members

  /**
   * A restart sends a finished bucket back to its old primary. That primary still answers correctly
   * exactly when it stayed an owner or there is nothing to answer.
   */
  lemma {:induction false} RestartInsteadOfResume(c: Conf, ss: seq<State>, es: seq<Step>, n: nat,
                                                  prev: seq<Node>, next: seq<Node>, k: Key)
    requires Lawful(c) && Run(c, ss, es) && n <= |es| && Managed(c, k)
    requires RestartGuard(c, ss[n], prev, next) && Elems(prev) != Elems(next) && ss[n].ops == map[]
    requires Bucket(c, k) in ss[n].overlay.value.migrated && Bucket(c, k) !in ss[n].gate.frozen
    ensures var s, m, b := ss[n], Plain(es[..n]), Bucket(c, k);
            var route := Route(c, Restarted(c, s, prev, next), b);
            && route != []
            && (Slot(s.data, route[0], k) == At(m, k)
                <==> At(m, k) == None || route[0] in Own(c, s.overlay.value.next, b))
  {
    var g := RunHolds(c, ss, es, n);
    var o, b := ss[n].overlay.value, Bucket(c, k);
    EmptyElems(prev);
    EmptyElems(o.prev);
    assert Membership(c, prev);
    OwnListing(c, prev, o.prev, b);
    OwnFacts(c, o.prev, b);
    assert SlotOk(c, ss[n], g, k, Own(c, o.prev, b)[0]);
  }

  /**
   * A restart forgets which buckets the interrupted chunk froze. Those that move to the new members
   * too are thawed when their turn comes. The others stay frozen, in every state of the restarted
   * migration and after its commit.
   */
  lemma {:induction false} RestartLeavesFrozen(c: Conf, s: State, prev: seq<Node>, next: seq<Node>,
                                               ss: seq<State>, es: seq<Step>, n: nat)
    requires |ss| == |es| + 1 && ss[0] == StartedOver(s, prev, next) && n <= |es|
    requires forall i :: 0 <= i < |es| ==> Next(c, ss[i], es[i], ss[i + 1]) && !es[i].Start?
    ensures var stuck := s.gate.frozen - Moving(c, prev, next);
            && FrozenOk(c, ss[n], stuck) && stuck <= ss[n].gate.frozen
            && (ss[n].overlay.None? ==> ss[n].gate.frozen == stuck)
  {
    if n > 0 {
      RestartLeavesFrozen(c, s, prev, next, ss, es, n - 1);
      assert Next(c, ss[n - 1], es[n - 1], ss[n]);
      StepFrozen(c, ss[n - 1], es[n - 1], ss[n], s.gate.frozen - Moving(c, prev, next));
    }
  }

  // ---------------------------------------------------------------- back to the committed members

  lemma {:induction false} ServedFacts(route: seq<Node>, clients: set<Node>)
    ensures Elems(Served(route, clients)) == Elems(route) * clients
    ensures Elems(route) <= clients ==> Served(route, clients) == route
  {
    if route != [] {
      ServedFacts(route[1..], clients);
      assert route == [route[0]] + route[1..];
      ElemsConcat([route[0]], route[1..]);
      ElemsConcat(if route[0] in clients then [route[0]] else [], Served(route[1..], clients));
      assert Elems([route[0]]) == {route[0]};
    }
  }

  /** The new owners of a bucket that are committed members. */
  ghost function Stayers(c: Conf, s: State, b: nat): set<Node>
    requires s.overlay.Some?
  {
    Elems(Own(c, s.overlay.value.next, b)) * Elems(s.nodes)
  }

  lemma {:induction false} RolledBackRoutes(c: Conf, s: State, g: Ghost, next: seq<Node>, b: nat)
    requires Lawful(c) && TaskOk(c, s, g) && s.task.Idle? && s.overlay.Some?
    requires Elems(next) == Elems(s.nodes) && Elems(next) <= s.clients
    ensures var t, o := RolledBack(c, s, next), s.overlay.value;
            && Route(c, t, b) != []
            && (b !in o.migrated ==> Served(Route(c, t, b), t.clients) == Route(c, t, b))
            && (b in o.migrated ==> Elems(Served(Route(c, t, b), t.clients)) == Stayers(c, s, b))
  {
    var t, o := RolledBack(c, s, next), s.overlay.value;
    OwnFacts(c, o.prev, b);
    OwnFacts(c, o.next, b);
    ServedFacts(Route(c, t, b), t.clients);
    assert t.clients == Elems(s.nodes);
  }

  /**
   * A call back to the committed members clears the journal, so that nothing can be resumed, and
   * removes the clients of all other nodes, but leaves the overlay. A frozen bucket then stays
   * frozen. Of the others, a bucket is still served exactly when it was not cut over or a new owner
   * is a committed member, and a get still answers exactly when that holds or there is nothing to answer.
   */
  lemma {:induction false} RollBackInsteadOfResume(c: Conf, ss: seq<State>, es: seq<Step>, n: nat,
                                                   prev: seq<Node>, next: seq<Node>, k: Key)
    requires Lawful(c) && Run(c, ss, es) && n <= |es| && Managed(c, k)
    requires RestartGuard(c, ss[n], prev, next) && Elems(prev) == Elems(next) && ss[n].ops == map[]
    ensures var s, m, b := ss[n], Plain(es[..n]), Bucket(c, k);
            var t := Restarted(c, s, prev, next);
            var served := Served(Route(c, t, b), t.clients);
            var kept := b !in s.overlay.value.migrated || Stayers(c, s, b) != {};
            && !TaskGuard(c, t, Resume) && t.gate == s.gate
            && (served != [] <==> kept)
            && (b !in s.gate.frozen ==> (GetFrom(t.data, served, k) == At(m, k) <==> kept || At(m, k) == None))
  {
    var g := RunHolds(c, ss, es, n);
    var s, b := ss[n], Bucket(c, k);
    var t := Restarted(c, s, prev, next);
    RolledBackRoutes(c, s, g, next, b);
    var served := Served(Route(c, t, b), t.clients);
    ServedFacts(Route(c, t, b), t.clients);
    if served != [] {
      assert served[0] in Elems(served) && served[0] in Elems(Route(c, t, b));
      if b !in s.gate.frozen { assert SlotOk(c, s, g, k, served[0]); }
    }
  }

  /** Put, delete and the set operations go to every owner that has a client, and answer in any case. */
  predicate Broadcasts(op: Op) { op.Put? || op.Delete? || op.SetAdd? || op.SetRemove? }

  function Broadcast(data: map<Loc, Value>, served: seq<Node>, k: Key, op: Op): map<Loc, Value>
    decreases served
  {
    if served == [] then data
    else Broadcast(Write(data, served[0], k, Apply(op, Slot(data, served[0], k)).0), served[1..], k, op)
  }

  lemma {:induction false} BroadcastElsewhere(data: map<Loc, Value>, served: seq<Node>, k: Key, op: Op, n: Node)
    requires n !in served
    ensures Slot(Broadcast(data, served, k, op), n, k) == Slot(data, n, k)
    decreases served
  {
    if served != [] {
      BroadcastElsewhere(Write(data, served[0], k, Apply(op, Slot(data, served[0], k)).0), served[1..], k, op, n);
    }
  }

  lemma {:induction false} BroadcastFirst(data: map<Loc, Value>, served: seq<Node>, k: Key, op: Op)
    requires served != [] && NoDup(served)
    ensures GetFrom(Broadcast(data, served, k, op), served, k) == Apply(op, GetFrom(data, served, k)).0
  {
    BroadcastElsewhere(Write(data, served[0], k, Apply(op, Slot(data, served[0], k)).0), served[1..], k, op, served[0]);
  }

  lemma {:induction false} ServedOnce(route: seq<Node>, clients: set<Node>)
    requires NoDup(route)
    ensures NoDup(Served(route, clients))
  {
    if route != [] {
      ServedOnce(route[1..], clients);
      ServedFacts(route[1..], clients);
      var rest := Served(route[1..], clients);
      forall i | 0 <= i < |rest| ensures rest[i] != route[0] { assert rest[i] in Elems(rest); }
    }
  }

  /**
   * After such a call a put, delete or set operation answers as ever. A get after it finds what the
   * plain map holds exactly when the bucket is still served or the operation leaves nothing.
   */
  lemma {:induction false} WriteAfterRollBack(c: Conf, ss: seq<State>, es: seq<Step>, n: nat,
                                              prev: seq<Node>, next: seq<Node>, k: Key, op: Op)
    requires Lawful(c) && Run(c, ss, es) && n <= |es| && Managed(c, k) && Broadcasts(op)
    requires RestartGuard(c, ss[n], prev, next) && Elems(prev) == Elems(next) && ss[n].ops == map[]
    requires Bucket(c, k) !in ss[n].gate.frozen
    ensures var s, b := ss[n], Bucket(c, k);
            var t, o := Restarted(c, s, prev, next), Apply(op, At(Plain(es[..n]), k)).0;
            var served := Served(Route(c, t, b), t.clients);
            GetFrom(Broadcast(t.data, served, k, op), served, k) == o
            <==> o == None || b !in s.overlay.value.migrated || Stayers(c, s, b) != {}
  {
    var g := RunHolds(c, ss, es, n);
    var t, b := Restarted(c, ss[n], prev, next), Bucket(c, k);
    RollBackInsteadOfResume(c, ss, es, n, prev, next, k);
    RouteFacts(c, ss[n], g, b);
    ServedOnce(Route(c, t, b), t.clients);
    if Served(Route(c, t, b), t.clients) != [] {
      BroadcastFirst(t.data, Served(Route(c, t, b), t.clients), k, op);
    }
  }

  /** What a compare-and-set or a counter answers when the primary has no client. */
  function Refusal(op: Op): Result { if op.Cas? then Swapped(false) else Counted(None) }

  /**
   * A compare-and-set or a counter asks the primary alone. It is asked exactly when the bucket was
   * not cut over or the new primary is a committed member, and the answer is the plain map's
   * exactly then or when the plain map refuses too.
   */
  lemma {:induction false} ArbitrateAfterRollBack(c: Conf, ss: seq<State>, es: seq<Step>, n: nat,
                                                  prev: seq<Node>, next: seq<Node>, k: Key, op: Op)
    requires Lawful(c) && Run(c, ss, es) && n <= |es| && Managed(c, k) && (op.Cas? || op.Incr?)
    requires RestartGuard(c, ss[n], prev, next) && Elems(prev) == Elems(next) && ss[n].ops == map[]
    requires Bucket(c, k) !in ss[n].gate.frozen
    ensures var s, b := ss[n], Bucket(c, k);
            var t, plain := Restarted(c, s, prev, next), Apply(op, At(Plain(es[..n]), k)).1;
            var p := First(Route(c, t, b));
            var answer := if p in t.clients then Apply(op, Slot(t.data, p, k)).1 else Refusal(op);
            && (p in t.clients
                <==> b !in s.overlay.value.migrated || First(Own(c, s.overlay.value.next, b)) in s.nodes)
            && (answer == plain <==> p in t.clients || plain == Refusal(op))
  {
    var g := RunHolds(c, ss, es, n);
    var s, b := ss[n], Bucket(c, k);
    RolledBackRoutes(c, s, g, next, b);
    RouteFacts(c, s, g, b);
    PrimaryCurrent(c, s, g, k);
    PrimaryServed(c, s, g, b);
  }

  lemma {:induction false} PrimaryServed(c: Conf, s: State, g: Ghost, b: nat)
    requires Lawful(c) && TaskOk(c, s, g) && s.task.Idle? && s.overlay.Some?
    ensures Route(c, s, b) != [] && First(Route(c, s, b)) in s.clients
    ensures First(Route(c, s, b)) in Elems(s.nodes)
            <==> b !in s.overlay.value.migrated || First(Own(c, s.overlay.value.next, b)) in s.nodes
  {
    OwnFacts(c, s.overlay.value.prev, b);
    OwnFacts(c, s.overlay.value.next, b);
    assert First(Route(c, s, b)) in Elems(Route(c, s, b));
  }

  // ---------------------------------------------------------------- carrying the restarted migration on

  /** The steps between a chunk's drain and its unfreeze. */
  predicate MovesChunk(e: Step) { e.ExportJob? || e.ImportHeld? || e.CutOver? || e.DropOne? }

  /** A chunk at work: from the drain to the last drop, without an interruption. */
  ghost predicate ChunkPath(c: Conf, ss: seq<State>, es: seq<Step>) {
    && |ss| == |es| + 1
    && (forall i :: 0 <= i < |es| ==>
          MovesChunk(es[i]) && TaskGuard(c, ss[i], es[i]) && ss[i + 1] == TaskStep(c, ss[i], es[i]))
  }

  /** The copy to a node is still to come. */
  ghost predicate Pending(t: Task, job: CopyJob)
    requires t.Copying?
  {
    job in t.jobs || (t.held.Some? && t.held.value.job == job)
  }

  /** One key of a chunk: its bucket's old and new owners, and what the nodes had of it before. */
  datatype Case = Case(k: Key, was: seq<Node>, will: seq<Node>, d: map<Loc, Value>) {
    function Source(): Option<Value> { Slot(d, First(was), k) }

    /** What a node has of the key once its copy, if one is due, has been made. */
    function Copied(n: Node): Option<Value> {
      if n in will && n !in was && Source().Some? then Source() else Slot(d, n, k)
    }

    /** And once it has been dropped where it is no longer wanted. */
    function Carried(n: Node): Option<Value> { if n in was && n !in will then None else Copied(n) }
  }

  ghost predicate About(c: Conf, s: State, x: Case) {
    && Managed(c, x.k) && x.was != [] && s.overlay.Some?
    && x.was == Own(c, s.overlay.value.prev, Bucket(c, x.k)) && x.will == Own(c, s.overlay.value.next, Bucket(c, x.k))
    && (s.task.Copying? || s.task.Dropping?) && Bucket(c, x.k) in s.task.chunk
  }

  /** How far the chunk has come with the key at a node. */
  ghost predicate KeyAt(x: Case, s: State, n: Node) {
    match s.task
    case Copying(_, _, _, _) =>
      Slot(s.data, n, x.k)
      == if Pending(s.task, CopyJob(First(x.was), n, x.k.coll)) then Slot(x.d, n, x.k) else x.Copied(n)
    case Dropping(_, _, drops) =>
      Slot(s.data, n, x.k) == if DropJob(n, x.k.coll) in drops then x.Copied(n) else x.Carried(n)
    case _ => false
  }

  /** What is held is what the source has, and is not to be exported again. */
  ghost predicate HeldOk(c: Conf, x: Case, s: State) {
    s.task.Copying? && s.task.held.Some? && s.overlay.Some? ==>
      var j := s.task.held.value.job;
      && j !in s.task.jobs
      && At(s.task.held.value.entries, x.k)
         == if x.k.coll == j.coll && Travels(c, s.overlay.value, s.task.chunk, j, Bucket(c, x.k))
            then x.Source() else None
  }

  ghost predicate KeyOk(c: Conf, x: Case, s: State) {
    About(c, s, x) && HeldOk(c, x, s) && forall n :: KeyAt(x, s, n)
  }

  lemma {:induction false} KeyDrained(c: Conf, s: State, x: Case)
    requires About(c, s, x) && x.d == s.data && s.task.Copying? && s.task.held.None?
    requires s.task.jobs == CopyJobs(c, s.overlay.value, s.task.chunk)
    ensures KeyOk(c, x, s)
  {
    forall n ensures KeyAt(x, s, n) {
      if n in x.will && n !in x.was {
        assert n in Elems(x.will) - Elems(x.was);
        assert CopyJob(First(x.was), n, x.k.coll) in s.task.jobs;
      }
    }
  }

  lemma {:induction false} KeyExported(c: Conf, s: State, x: Case, j: CopyJob)
    requires KeyOk(c, x, s) && TaskGuard(c, s, ExportJob(j))
    ensures KeyOk(c, x, TaskStep(c, s, ExportJob(j)))
  {
    var t := TaskStep(c, s, ExportJob(j));
    ExportAt(c, s.overlay.value, s.task.chunk, j, s.data, x.k);
    assert KeyAt(x, s, First(x.was));
    forall n ensures KeyAt(x, t, n) { assert KeyAt(x, s, n); }
  }

  lemma {:induction false} KeyImported(c: Conf, s: State, x: Case)
    requires KeyOk(c, x, s) && TaskGuard(c, s, ImportHeld)
    ensures KeyOk(c, x, TaskStep(c, s, ImportHeld))
  {
    var t, h := TaskStep(c, s, ImportHeld), s.task.held.value;
    forall n ensures KeyAt(x, t, n) {
      assert KeyAt(x, s, n);
      SlotAfterImport(s.data, h.job.to, h.entries, n, x.k);
    }
  }

  lemma {:induction false} KeyCutOver(c: Conf, s: State, x: Case)
    requires KeyOk(c, x, s) && TaskGuard(c, s, CutOver)
    ensures KeyOk(c, x, TaskStep(c, s, CutOver))
  {
    var t := TaskStep(c, s, CutOver);
    forall n ensures KeyAt(x, t, n) {
      assert KeyAt(x, s, n);
      if n in x.was && n !in x.will {
        assert n in Elems(x.was) - Elems(x.will);
        assert DropJob(n, x.k.coll) in t.task.drops;
      }
    }
  }

  lemma {:induction false} KeyDropped(c: Conf, s: State, x: Case, j: DropJob)
    requires KeyOk(c, x, s) && TaskGuard(c, s, DropOne(j))
    ensures KeyOk(c, x, TaskStep(c, s, DropOne(j)))
  {
    var t := TaskStep(c, s, DropOne(j));
    forall n ensures KeyAt(x, t, n) {
      assert KeyAt(x, s, n);
      SlotAfterDrop(c, s.overlay.value, s.task.chunk, j, s.data, n, x.k);
    }
  }

  lemma {:induction false} KeyMovesOn(c: Conf, ss: seq<State>, es: seq<Step>, x: Case, i: nat)
    requires ChunkPath(c, ss, es) && KeyOk(c, x, ss[0]) && i <= |es|
    ensures KeyOk(c, x, ss[i])
  {
    if i > 0 {
      KeyMovesOn(c, ss, es, x, i - 1);
      assert MovesChunk(es[i - 1]);
      match es[i - 1]
      case ExportJob(j) => KeyExported(c, ss[i - 1], x, j);
      case ImportHeld => KeyImported(c, ss[i - 1], x);
      case CutOver => KeyCutOver(c, ss[i - 1], x);
      case DropOne(j) => KeyDropped(c, ss[i - 1], x, j);
    }
  }

  /**
   * Whatever the nodes hold, a chunk takes the old primary's object to the new owners, leaves what
   * they have where the old primary has none, and empties the old owners that are no longer wanted.
   */
  lemma {:induction false} ChunkCarries(c: Conf, ss: seq<State>, es: seq<Step>, x: Case, n: Node)
    requires ChunkPath(c, ss, es) && About(c, ss[0], x) && x.d == ss[0].data && ss[0].task.Copying?
    requires ss[0].task.held.None? && ss[0].task.jobs == CopyJobs(c, ss[0].overlay.value, ss[0].task.chunk)
    requires ss[|es|].task.Dropping? && ss[|es|].task.drops == {}
    ensures Slot(ss[|es|].data, n, x.k) == x.Carried(n)
  {
    KeyDrained(c, ss[0], x);
    KeyMovesOn(c, ss, es, x, |es|);
    assert KeyAt(x, ss[|es|], n);
  }

  /** What clients last made of the key: nothing since the restart, or a put or delete at the old owners. */
  function Latest(m: map<Key, Value>, k: Key, wrote: Option<Option<Value>>): Option<Value> {
    match wrote
    case None => if k in m then Some(m[k]) else None
    case Some(o) => o
  }

  /**
   * The same rebalance called again and carried on over a finished bucket. Without a write in
   * between, the new primary has the key's object again. A put at the old owners reaches it. A
   * delete does if and only if the new primary was an old owner or there was nothing to delete;
   * otherwise the copy left at the new primary brings the deleted object back.
   */
  lemma {:induction false} RestartCarriedOn(c: Conf, ss: seq<State>, es: seq<Step>, n: nat, k: Key,
                                            wrote: Option<Option<Value>>, us: seq<State>, fs: seq<Step>)
    requires Lawful(c) && Run(c, ss, es) && n <= |es| && Managed(c, k)
    requires ss[n].task.Idle? && ss[n].overlay.Some? && ss[n].ops == map[]
    requires Bucket(c, k) in ss[n].overlay.value.migrated && Bucket(c, k) !in ss[n].gate.frozen
    requires ChunkPath(c, us, fs) && Again(c, ss[n], us[0], k, wrote)
    requires us[|fs|].task.Dropping? && us[|fs|].task.drops == {}
    ensures var m, o, b := Plain(es[..n]), ss[n].overlay.value, Bucket(c, k);
            var w := First(Own(c, o.next, b));
            var undone := wrote == Some(None) && w !in Own(c, o.prev, b);
            && Slot(us[|fs|].data, w, k) == (if undone then At(m, k) else Latest(m, k, wrote))
            && (Slot(us[|fs|].data, w, k) == Latest(m, k, wrote) <==> !undone || At(m, k) == None)
  {
    var g := RunHolds(c, ss, es, n);
    var s, b := ss[n], Bucket(c, k);
    var o := s.overlay.value;
    OwnFacts(c, o.prev, b);
    OwnFacts(c, o.next, b);
    OwnListing(c, us[0].overlay.value.prev, o.prev, b);
    OwnListing(c, us[0].overlay.value.next, o.next, b);
    var x := Case(k, Own(c, o.prev, b), Own(c, o.next, b), us[0].data);
    var w, p := First(x.will), First(x.was);
    ChunkCarries(c, us, fs, x, w);
    assert SlotOk(c, s, g, k, w) && SlotOk(c, s, g, k, p);
  }

  /** The chunk of the key's bucket is drained in a migration between the same members, after a write or none. */
  ghost predicate Again(c: Conf, s: State, u: State, k: Key, wrote: Option<Option<Value>>)
    requires s.overlay.Some?
  {
    var o, was := s.overlay.value, Own(c, s.overlay.value.prev, Bucket(c, k));
    && u.overlay.Some? && Membership(c, u.overlay.value.prev) && Membership(c, u.overlay.value.next)
    && Elems(u.overlay.value.prev) == Elems(o.prev) && Elems(u.overlay.value.next) == Elems(o.next)
    && u.task.Copying? && Bucket(c, k) in u.task.chunk
    && u.task.held.None? && u.task.jobs == CopyJobs(c, u.overlay.value, u.task.chunk)
    && forall x :: Slot(u.data, x, k) == if wrote.Some? && x in was then wrote.value else Slot(s.data, x, k)
  }

  // ---------------------------------------------------------------- runs in which that happens

  /** The interrupted migration is started over. */
  lemma {:induction false} StartsOver(c: Conf, p: Node, q: Node, k: Key, d: map<Loc, Value>, s0: State, es: seq<Step>)
    requires Small(c, p, q, k) && From(c, Restarts, s0)(es, SmallRuns.Moved(p, q, d, Bucket(c, k), Idle))
    ensures From(c, Restarts, s0)(es + [Restart([p], [q])], Mid(p, q, d, {}, {}, Between({})))
  {
    SoleOwner(c, q, 0);
    assert Elems([p]) == {p} && Elems([q]) == {q};
    LeadsOn(c, Restarts, s0, es, SmallRuns.Moved(p, q, d, Bucket(c, k), Idle), Restart([p], [q]),
            Mid(p, q, d, {}, {}, Between({})));
  }

  /** A put, its bucket moved and journalled, an interruption, a restart, and a get that answers with nothing. */
  lemma {:induction false} RestartLosesAnAnswer(c: Conf, p: Node, q: Node, k: Key, v: Value)
    returns (asked: seq<Step>, es: seq<Step>, t: State)
    requires Small(c, p, q, k)
    ensures Init(c, Calm(p, q, map[])) && From(c, Restarts, Calm(p, q, map[]))(es, t) && !AnswersLikePlainMap(es)
    ensures es == asked + OpSteps(2, k, Get, Got(None)) && At(Plain(asked), k) == Some(v)
  {
    var s0, d := Calm(p, q, map[]), One(q, k, v);
    var es1 := UpToInterruption(c, Restarts, p, q, k, v);
    StartsOver(c, p, q, k, d, s0, es1);
    var es2, s := es1 + [Restart([p], [q])], Mid(p, q, d, {}, {}, Between({}));
    PlainSilent(es1, [Restart([p], [q])]);
    SoleOwner(c, p, Bucket(c, k));
    SoleOp(c, Restarts, s0, es2, s, 2, k, Get, p);
    WrongAnswer(es2, 2, k, Get, Got(None));
    asked, es, t := es2, es2 + OpSteps(2, k, Get, Got(None)), s.(data := Write(d, p, k, None));
  }

  /** A delete at the old owner, who has nothing. */
  lemma {:induction false} DeleteNothing(c: Conf, p: Node, q: Node, k: Key, v: Value, s0: State, es: seq<Step>)
    requires Small(c, p, q, k) && From(c, Restarts, s0)(es, Mid(p, q, One(q, k, v), {}, {}, Between({})))
    ensures From(c, Restarts, s0)(es + OpSteps(2, k, Delete, Done), Mid(p, q, One(q, k, v), {}, {}, Between({})))
    ensures At(Plain(es + OpSteps(2, k, Delete, Done)), k) == None
  {
    SoleOwner(c, p, Bucket(c, k));
    SoleOp(c, Restarts, s0, es, Mid(p, q, One(q, k, v), {}, {}, Between({})), 2, k, Delete, p);
    assert Write(One(q, k, v), p, k, None) == One(q, k, v);
    PlainOp(es, 2, k, Delete, Done);
  }

  /** The restarted migration up to the bucket's second cut-over. */
  lemma {:induction false} MoveAgain(c: Conf, p: Node, q: Node, k: Key, v: Value, s0: State, es: seq<Step>)
    returns (fs: seq<Step>)
    requires Small(c, p, q, k) && From(c, Restarts, s0)(es, Mid(p, q, One(q, k, v), {}, {}, Between({})))
    ensures From(c, Restarts, s0)(es + fs, SmallRuns.Moved(p, q, One(q, k, v), Bucket(c, k), Between({Bucket(c, k)})))
    ensures Silent(fs)
  {
    var b, chunk := Bucket(c, k), ChunkSteps(p, q, k, Bucket(c, k));
    KeyStays(c, Restarts, p, q, k, v, s0, es);
    ThawMove(c, Restarts, p, q, One(q, k, v), b, s0, es + chunk);
    ChunkSilent(p, q, k, b);
    fs := chunk + [Step.Unfreeze] + [SaveRecord];
    assert es + fs == es + chunk + [Step.Unfreeze] + [SaveRecord];
  }

  /** The same, with a delete after the restart: once the bucket has moved again, a get finds the deleted object. */
  lemma {:induction false} RestartUndoesADelete(c: Conf, p: Node, q: Node, k: Key, v: Value)
    returns (asked: seq<Step>, es: seq<Step>, t: State)
    requires Small(c, p, q, k)
    ensures Init(c, Calm(p, q, map[])) && From(c, Restarts, Calm(p, q, map[]))(es, t) && !AnswersLikePlainMap(es)
    ensures es == asked + OpSteps(3, k, Get, Got(Some(v))) && At(Plain(asked), k) == None
  {
    var s0, d, b := Calm(p, q, map[]), One(q, k, v), Bucket(c, k);
    var es1 := UpToInterruption(c, Restarts, p, q, k, v);
    StartsOver(c, p, q, k, d, s0, es1);
    var gone := es1 + [Restart([p], [q])] + OpSteps(2, k, Delete, Done);
    DeleteNothing(c, p, q, k, v, s0, es1 + [Restart([p], [q])]);
    var fs := MoveAgain(c, p, q, k, v, s0, gone);
    PlainSilent(gone, fs);
    var es2, s := gone + fs, SmallRuns.Moved(p, q, d, b, Between({b}));
    SoleOwner(c, q, b);
    SoleOp(c, Restarts, s0, es2, s, 3, k, Get, q);
    WrongAnswer(es2, 3, k, Get, Got(Some(v)));
    asked, es, t := es2, es2 + OpSteps(3, k, Get, Got(Some(v))), s.(data := Write(d, q, k, Some(v)));
  }

  /** The members are committed again under the overlay that has moved the bucket away from them. */
  lemma {:induction false} RollsBack(c: Conf, p: Node, q: Node, k: Key, d: map<Loc, Value>, s0: State, es: seq<Step>)
    returns (s: State)
    requires Small(c, p, q, k) && From(c, Restarts, s0)(es, SmallRuns.Moved(p, q, d, Bucket(c, k), Idle))
    ensures From(c, Restarts, s0)(es + [Restart([p], [p])], s)
    ensures s == SmallRuns.Moved(p, q, d, Bucket(c, k), Idle).(journal := None, clients := {p})
  {
    SoleOwner(c, p, 0);
    assert Elems([p]) == {p} && {p, q} * {p} == {p};
    s := SmallRuns.Moved(p, q, d, Bucket(c, k), Idle).(journal := None, clients := {p});
    LeadsOn(c, Restarts, s0, es, SmallRuns.Moved(p, q, d, Bucket(c, k), Idle), Restart([p], [p]), s);
  }

  /** A get at owners that have no client. */
  lemma {:induction false} UnservedGet(c: Conf, s0: State, es: seq<Step>, s: State, id: nat, k: Key, x: Node)
    returns (t: State)
    requires From(c, Restarts, s0)(es, s) && s.overlay.Some? && s.ops == map[]
    requires Managed(c, k) && MayEnter(s.gate, Bucket(c, k)) && Route(c, s, Bucket(c, k)) == [x] && x !in s.clients
    ensures From(c, Restarts, s0)(es + OpSteps(id, k, Get, Got(None)), t)
  {
    var e1, e2, e3, e4 := Step.Enter(id, k, Get), ReadOverlay(id), AtPrimary(id, k, Get, Got(None)), Step.Leave(id);
    SoleEntry(c, Restarts, s0, es, s, id, k, Get, x);
    var u := GotInside(s, id, Running(k, Get, [x], 0, None), Bucket(c, k));
    assert Served([x], s.clients) == [] by { ServedFacts([x], s.clients); assert Elems([x]) == {x}; }
    var u' := GetStep(u, e3);
    LeadsOn(c, Restarts, s0, es + [e1] + [e2], u, e3, u');
    t := ClientStep(c, u', e4);
    LeadsClient(c, Restarts, s0, es + [e1] + [e2] + [e3], u', e4, t);
    assert es + OpSteps(id, k, Get, Got(None)) == es + [e1] + [e2] + [e3] + [e4];
  }

  /** A put, its bucket moved and journalled, an interruption, the old members again, and a get that finds nobody. */
  lemma {:induction false} RollBackLosesAnAnswer(c: Conf, p: Node, q: Node, k: Key, v: Value)
    returns (asked: seq<Step>, es: seq<Step>, t: State)
    requires Small(c, p, q, k)
    ensures Init(c, Calm(p, q, map[])) && From(c, Restarts, Calm(p, q, map[]))(es, t) && !AnswersLikePlainMap(es)
    ensures es == asked + OpSteps(2, k, Get, Got(None)) && At(Plain(asked), k) == Some(v)
  {
    var s0, d := Calm(p, q, map[]), One(q, k, v);
    var es1 := UpToInterruption(c, Restarts, p, q, k, v);
    var s := RollsBack(c, p, q, k, d, s0, es1);
    PlainSilent(es1, [Restart([p], [p])]);
    SoleOwner(c, q, Bucket(c, k));
    t := UnservedGet(c, s0, es1 + [Restart([p], [p])], s, 2, k, q);
    asked := es1 + [Restart([p], [p])];
    es := asked + OpSteps(2, k, Get, Got(None));
    WrongAnswer(asked, 2, k, Get, Got(None));
  }

  /** All three with the real hashes and ranking: nodes "a" and "b", one replica. */
  lemma {:induction false} RestartsOnTheCluster(v: Value) returns (es: seq<seq<Step>>, ts: seq<State>)
    ensures |es| == 3 && |ts| == 3
    ensures forall i :: 0 <= i < 3 ==>
              && From(ClusterConf({"c"}, 1, map[], {"a", "b"}), Restarts, Calm("a", "b", map[]))(es[i], ts[i])
              && !AnswersLikePlainMap(es[i])
  {
    var c, k := ClusterConf({"c"}, 1, map[], {"a", "b"}), Key("c", "k");
    ClusterIsSmall(c, k);
    var _, e1, t1 := RestartLosesAnAnswer(c, "a", "b", k, v);
    var _, e2, t2 := RestartUndoesADelete(c, "a", "b", k, v);
    var _, e3, t3 := RollBackLosesAnAnswer(c, "a", "b", k, v);
    es, ts := [e1, e2, e3], [t1, t2, t3];
  }
}
