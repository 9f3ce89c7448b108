/** What holds over every run of the online rebalance. */
module MigrationTheorems {
  import opened Seqs
  import opened Replication
  import opened Values
  import opened Gates
  import opened Migration
  import opened MigrationInvariant
  import opened MigrationClients
  import opened MigrationTask

  // ---------------------------------------------------------------- the plain map

  /** One map, changed by the client operations in the order in which they reach a primary. */
  ghost function Plain(es: seq<Step>): map<Key, Value> {
    if es == [] then map[]
    else
      var m, e := Plain(es[..|es| - 1]), es[|es| - 1];
      if e.AtPrimary? then Store(m, e.key, Apply(e.op, At(m, e.key)).0) else m
  }

  /** Every answer is the one the plain map gives at that point. */
  ghost predicate AnswersLikePlainMap(es: seq<Step>) {
    forall i :: 0 <= i < |es| && es[i].AtPrimary? ==> es[i].res == Apply(es[i].op, At(Plain(es[..i]), es[i].key)).1
  }

  lemma {:induction false} InitHolds(c: Conf, s: State)
    requires Init(c, s)
    ensures Inv(c, s, Ghost(map[], {}))
  {
    forall b: nat ensures LiveOn(c, s.ops, b) == {} {}
  }

  lemma {:induction false} StepHolds(c: Conf, s: State, g: Ghost, e: Step, s': State)
    requires Lawful(c) && Inv(c, s, g) && Next(c, s, e, s')
    ensures Inv(c, s', GhostStep(g, s, e))
    ensures e.AtPrimary? ==> e.res == Apply(e.op, At(g.m, e.key)).1
  {
    if ClientGuard(c, s, e) {
      ClientStepKeeps(c, s, g, e);
    } else {
      TaskStepKeeps(c, s, g, e);
    }
  }

  /** Every state of a run satisfies the invariant for the plain map reached so far. */
  lemma {:induction false} RunHolds(c: Conf, ss: seq<State>, es: seq<Step>, n: nat) returns (g: Ghost)
    requires Lawful(c) && Run(c, ss, es) && n <= |es|
    ensures Inv(c, ss[n], g) && g.m == Plain(es[..n])
    ensures forall i :: 0 <= i < n && es[i].AtPrimary? ==> es[i].res == Apply(es[i].op, At(Plain(es[..i]), es[i].key)).1
  {
    if n == 0 {
      InitHolds(c, ss[0]);
      g := Ghost(map[], {});
    } else {
      var h := RunHolds(c, ss, es, n - 1);
      g := NextHolds(c, ss[n - 1], h, es, n - 1, ss[n]);
    }
  }

  lemma {:induction false} NextHolds(c: Conf, s: State, g: Ghost, es: seq<Step>, n: nat, s': State) returns (g': Ghost)
    requires Lawful(c) && Inv(c, s, g) && n < |es| && g.m == Plain(es[..n]) && Next(c, s, es[n], s')
    ensures Inv(c, s', g') && g'.m == Plain(es[..n + 1])
    ensures es[n].AtPrimary? ==> es[n].res == Apply(es[n].op, At(Plain(es[..n]), es[n].key)).1
  {
    StepHolds(c, s, g, es[n], s');
    PlainStep(g, s, es, n);
    g' := GhostStep(g, s, es[n]);
  }

  lemma {:induction false} PlainStep(g: Ghost, s: State, es: seq<Step>, n: nat)
    requires n < |es| && g.m == Plain(es[..n])
    ensures GhostStep(g, s, es[n]).m == Plain(es[..n + 1])
  {
    assert es[..n + 1][..n] == es[..n];
  }

  /** Whatever the interleaving, every get, put, delete, set, cas and incr answers as one plain map would. */
  lemma {:induction false} RunsAnswerLikePlainMap(c: Conf, ss: seq<State>, es: seq<Step>)
    requires Lawful(c) && Run(c, ss, es)
    ensures AnswersLikePlainMap(es)
  {
    var _ := RunHolds(c, ss, es, |es|);
  }

  // ---------------------------------------------------------------- what is frozen

  /** The buckets that the migration under way will not freeze again. */
  ghost function Past(c: Conf, s: State): set<nat> {
    match s.task
    case Idle => if s.journal.Some? then s.journal.value.done else {}
    case Unfrozen(done, chunk) => done + chunk
    case Committing(_, _) => if s.overlay.Some? then Moving(c, s.overlay.value.prev, s.overlay.value.next) else {}
    case _ => s.task.done
  }

  /** The journal names the overlay's members and, during the work, what is done. */
  ghost predicate Journalled(s: State, o: Overlay) {
    match s.task
    case Committing(_, _) => true
    case Idle => s.journal.Some? && s.journal.value.prev == o.prev && s.journal.value.next == o.next
    case _ => Recorded(s, o, s.task.done)
  }

  /**
   * Beside buckets that no chunk of this migration will come to, only buckets that are still to be
   * moved are frozen.
   */
  ghost predicate FrozenOk(c: Conf, s: State, stuck: set<nat>) {
    match s.overlay
    case None => s.gate.frozen == stuck && (s.task.Idle? || s.task.Committing?)
    case Some(o) =>
      var moving := Moving(c, o.prev, o.next);
      && Journalled(s, o) && stuck !! moving && stuck <= s.gate.frozen <= stuck + (moving - Past(c, s))
      && (s.task.Draining? || s.task.Copying? || s.task.Dropping? ==> s.task.chunk <= moving)
  }

  lemma {:induction false} TaskStepFrozen(c: Conf, s: State, e: Step, stuck: set<nat>)
    requires FrozenOk(c, s, stuck) && TaskGuard(c, s, e) && (e.Start? ==> stuck == {})
    ensures FrozenOk(c, TaskStep(c, s, e), stuck)
  {
    match e
    case FinishChunks => assert Moving(c, s.overlay.value.prev, s.overlay.value.next) - s.task.done == {};
    case Commit => CommitFrozen(c, s, stuck);
    case _ =>
  }

  lemma {:induction false} CommitFrozen(c: Conf, s: State, stuck: set<nat>)
    requires FrozenOk(c, s, stuck) && s.task.Committing?
    ensures FrozenOk(c, CommitStep(c, s), stuck)
  {
    if s.overlay.Some? {
      var moving := Moving(c, s.overlay.value.prev, s.overlay.value.next);
      assert moving - moving == {};
    }
  }

  lemma {:induction false} StepFrozen(c: Conf, s: State, e: Step, s': State, stuck: set<nat>)
    requires FrozenOk(c, s, stuck) && Next(c, s, e, s') && (e.Start? ==> stuck == {})
    ensures FrozenOk(c, s', stuck)
  {
    if TaskGuard(c, s, e) { TaskStepFrozen(c, s, e, stuck); }
  }

  /** In every run, only buckets that the migration under way is still to move are frozen. */
  lemma {:induction false} RunFrozen(c: Conf, ss: seq<State>, es: seq<Step>, n: nat)
    requires Run(c, ss, es) && n <= |es|
    ensures FrozenOk(c, ss[n], {})
  {
    if n > 0 {
      RunFrozen(c, ss, es, n - 1);
      assert Next(c, ss[n - 1], es[n - 1], ss[n]);
      StepFrozen(c, ss[n - 1], es[n - 1], ss[n], {});
    }
  }

  // ---------------------------------------------------------------- placement

  ghost predicate Quiescent(c: Conf, s: State) { s.task.Idle? && s.overlay.None? && s.ops == map[] }

  /** Every node holds the map's value for the buckets it owns, and nothing else. */
  ghost predicate PlacedOn(c: Conf, s: State, nodes: seq<Node>, m: map<Key, Value>) {
    forall k, n :: Managed(c, k) ==> Slot(s.data, n, k) == if n in Own(c, nodes, Bucket(c, k)) then At(m, k) else None
  }

  /** The primary of a key whose bucket is not frozen holds the plain map's value, migration or not. */
  lemma {:induction false} PrimaryHoldsPlainValue(c: Conf, ss: seq<State>, es: seq<Step>, n: nat, k: Key)
    requires Lawful(c) && Run(c, ss, es) && n <= |es| && Managed(c, k) && Bucket(c, k) !in ss[n].gate.frozen
    ensures Route(c, ss[n], Bucket(c, k)) != []
    ensures Slot(ss[n].data, Route(c, ss[n], Bucket(c, k))[0], k) == At(Plain(es[..n]), k)
  {
    var g := RunHolds(c, ss, es, n);
    RouteFacts(c, ss[n], g, Bucket(c, k));
    PrimaryCurrent(c, ss[n], g, k);
  }

  /** With no migration and nobody in flight, the gate is open, whatever was interrupted before. */
  lemma {:induction false} QuiescentIsOpen(c: Conf, ss: seq<State>, es: seq<Step>, n: nat)
    requires Lawful(c) && Run(c, ss, es) && n <= |es| && Quiescent(c, ss[n])
    ensures ss[n].gate == Open
  {
    var g := RunHolds(c, ss, es, n);
    RunFrozen(c, ss, es, n);
    forall b: nat ensures LiveOn(c, ss[n].ops, b) == {} {}
    assert ss[n].gate.inFlight == map[];
  }

  /** With no migration and nobody in flight, every bucket sits on exactly its owners, all agreeing. */
  lemma {:induction false} QuiescentPlacement(c: Conf, ss: seq<State>, es: seq<Step>, n: nat)
    requires Lawful(c) && Run(c, ss, es) && n <= |es| && Quiescent(c, ss[n])
    ensures PlacedOn(c, ss[n], ss[n].nodes, Plain(es[..n]))
    ensures Membership(c, ss[n].nodes) && forall b: nat :: Route(c, ss[n], b) == Own(c, ss[n].nodes, b)
    ensures ss[n].gate == Open
  {
    QuiescentIsOpen(c, ss, es, n);
    var g := RunHolds(c, ss, es, n);
    forall k, x | Managed(c, k)
      ensures Slot(ss[n].data, x, k) == if x in Own(c, ss[n].nodes, Bucket(c, k)) then At(g.m, k) else None
    {
      assert SlotOk(c, ss[n], g, k, x);
    }
  }

  /**
   * Interrupted and resumed as often as you like, a migration ends where an uninterrupted one does:
   * the final placement and routing depend on the client history and the final members only.
   */
  lemma {:induction false} SameHistorySameEnd(c: Conf, ss: seq<State>, es: seq<Step>, ss': seq<State>, es': seq<Step>)
    requires Lawful(c) && Run(c, ss, es) && Run(c, ss', es')
    requires Quiescent(c, ss[|es|]) && Quiescent(c, ss'[|es'|])
    requires Plain(es) == Plain(es') && Elems(ss[|es|].nodes) == Elems(ss'[|es'|].nodes)
    ensures forall n, k :: Managed(c, k) ==> Slot(ss[|es|].data, n, k) == Slot(ss'[|es'|].data, n, k)
    ensures forall b: nat :: b < c.buckets ==> Route(c, ss[|es|], b) == Route(c, ss'[|es'|], b)
  {
    var s, s' := ss[|es|], ss'[|es'|];
    assert es[..|es|] == es && es'[..|es'|] == es';
    QuiescentPlacement(c, ss, es, |es|);
    QuiescentPlacement(c, ss', es', |es'|);
    forall b: nat ensures Own(c, s.nodes, b) == Own(c, s'.nodes, b) {
      OwnListing(c, s.nodes, s'.nodes, b);
    }
  }

  // ---------------------------------------------------------------- routing

  /**
   * Only a cut-over re-routes a bucket that is open to traffic, and only its own chunk: installing
   * the overlay, committing the membership and removing the overlay change no route, and resuming
   * re-routes frozen buckets at most.
   */
  lemma {:induction false} RoutingContinuity(c: Conf, ss: seq<State>, es: seq<Step>, n: nat, b: nat)
    requires Lawful(c) && Run(c, ss, es) && n < |es| && b < c.buckets
    requires es[n].CutOver? && ss[n].task.Copying? ==> b !in ss[n].task.chunk
    requires es[n].Resume? ==> b !in ss[n].gate.frozen
    ensures Route(c, ss[n + 1], b) == Route(c, ss[n], b)
  {
    var g := RunHolds(c, ss, es, n);
    assert Next(c, ss[n], es[n], ss[n + 1]);
    if ClientGuard(c, ss[n], es[n]) {
      ClientStepRoutes(c, ss[n], es[n], b);
    } else {
      TaskStepRoutes(c, ss[n], g, es[n], b);
    }
  }

  lemma {:induction false} ClientStepRoutes(c: Conf, s: State, e: Step, b: nat)
    requires ClientGuard(c, s, e)
    ensures Route(c, ClientStep(c, s, e), b) == Route(c, s, b)
  {}

  lemma {:induction false} TaskStepRoutes(c: Conf, s: State, g: Ghost, e: Step, b: nat)
    requires Lawful(c) && TaskOk(c, s, g) && TaskGuard(c, s, e) && b < c.buckets
    requires e.CutOver? ==> b !in s.task.chunk
    requires e.Resume? ==> b !in s.gate.frozen
    ensures Route(c, TaskStep(c, s, e), b) == Route(c, s, b)
  {
    match e
    case Start(prev, next) => StartRoutesAlike(c, s, g, prev, next, b);
    case Commit => CommitRoutesAlike(c, s, g, b);
    case _ =>
  }

  // ---------------------------------------------------------------- the gate

  /** Counts are tokens, none is zero, and from drain to unfreeze nobody is inside the chunk. */
  lemma {:induction false} GateExclusion(c: Conf, ss: seq<State>, es: seq<Step>, n: nat)
    requires Lawful(c) && Run(c, ss, es) && n <= |es|
    ensures forall b: nat :: Count(ss[n].gate, b) == |LiveOn(c, ss[n].ops, b)|
    ensures forall b :: b in ss[n].gate.inFlight ==> ss[n].gate.inFlight[b] > 0
    ensures ss[n].task.Copying? || ss[n].task.Dropping? ==>
              forall b :: b in ss[n].task.chunk ==> b in ss[n].gate.frozen && LiveOn(c, ss[n].ops, b) == {}
  {
    var g := RunHolds(c, ss, es, n);
    var s := ss[n];
    if s.task.Copying? || s.task.Dropping? {
      forall b | b in s.task.chunk ensures LiveOn(c, s.ops, b) == {} {
        assert forall id :: id in s.ops ==> ClientOk(c, s, g, s.ops[id]);
      }
    }
  }

  /** No operation is ever routed to a node without a client; at commit none holds a removed node. */
  lemma {:induction false} RoutesStayServed(c: Conf, ss: seq<State>, es: seq<Step>, n: nat, id: nat)
    requires Lawful(c) && Run(c, ss, es) && n <= |es| && id in ss[n].ops && ss[n].ops[id].Running?
    ensures Elems(ss[n].ops[id].route) <= ss[n].clients
    ensures ss[n].task.Committing? ==> Elems(ss[n].ops[id].route) <= Elems(ss[n].task.next)
  {
    var g := RunHolds(c, ss, es, n);
    var s := ss[n];
    var x := s.ops[id];
    var b := Bucket(c, x.key);
    assert ClientOk(c, s, g, x);
    forall m | m in x.route ensures m in s.clients { RoutedServed(c, s, g, b, m); }
    if s.task.Committing? {
      CommitRoutes(c, s, g, b);
    }
  }

  lemma {:induction false} CommitRoutes(c: Conf, s: State, g: Ghost, b: nat)
    requires Lawful(c) && TaskOk(c, s, g) && s.task.Committing? && b < c.buckets
    ensures Elems(Route(c, s, b)) <= Elems(s.task.next)
  {
    OwnFacts(c, s.task.next, b);
    match s.overlay
    case None => OwnListing(c, s.nodes, s.task.next, b);
    case Some(o) => if b !in o.migrated { OwnStays(c, o.prev, o.next, b); }
  }

  /** The migration can always go on, except while an operation is still inside the frozen chunk. */
  lemma {:induction false} TaskNeverStuck(c: Conf, ss: seq<State>, es: seq<Step>, n: nat) returns (e: Step)
    requires Lawful(c) && Run(c, ss, es) && n <= |es| && (!ss[n].task.Idle? || ss[n].overlay.Some?)
    requires ss[n].task.Draining? ==> forall b :: b in ss[n].task.chunk ==> LiveOn(c, ss[n].ops, b) == {}
    ensures TaskGuard(c, ss[n], e) && !e.Abort? && !e.AddClient?
  {
    var g := RunHolds(c, ss, es, n);
    e := NextTaskStep(c, ss[n], g);
  }

  lemma {:induction false} NextTaskStep(c: Conf, s: State, g: Ghost) returns (e: Step)
    requires Lawful(c) && GateInv(c, s) && TaskOk(c, s, g) && (!s.task.Idle? || s.overlay.Some?)
    requires s.task.Draining? ==> forall b :: b in s.task.chunk ==> LiveOn(c, s.ops, b) == {}
    ensures TaskGuard(c, s, e) && !e.Abort? && !e.AddClient?
  {
    match s.task
    case Idle => e := Resume;
    case Between(done) =>
      var moving := Moving(c, s.overlay.value.prev, s.overlay.value.next);
      if moving <= done {
        e := FinishChunks;
      } else {
        var b :| b in moving && b !in done;
        e := Freeze({b});
      }
    case Draining(_, chunk) =>
      assert forall b :: b in chunk ==> Count(s.gate, b) == 0;
      e := FinishDrain;
    case Copying(_, _, _, _) => e := NextCopyStep(c, s, g);
    case Dropping(_, _, _) => e := NextDropStep(c, s, g);
    case Unfrozen(_, _) => e := SaveRecord;
    case Committing(_, _) => e := Commit;
  }

  lemma {:induction false} NextCopyStep(c: Conf, s: State, g: Ghost) returns (e: Step)
    requires Lawful(c) && TaskOk(c, s, g) && s.task.Copying?
    ensures TaskGuard(c, s, e) && !e.Abort? && !e.AddClient?
  {
    if s.task.held.Some? {
      JobServed(c, s, g, s.task.held.value.job);
      e := ImportHeld;
    } else if s.task.jobs == {} {
      e := CutOver;
    } else {
      var j :| j in s.task.jobs;
      JobServed(c, s, g, j);
      e := ExportJob(j);
    }
  }

  lemma {:induction false} NextDropStep(c: Conf, s: State, g: Ghost) returns (e: Step)
    requires Lawful(c) && TaskOk(c, s, g) && s.task.Dropping?
    ensures TaskGuard(c, s, e) && !e.Abort? && !e.AddClient?
  {
    if s.task.drops == {} {
      e := Unfreeze;
    } else {
      var j :| j in s.task.drops;
      var o := s.overlay.value;
      var b, m, coll :| b in s.task.chunk && m in Elems(Own(c, o.prev, b)) - Elems(Own(c, o.next, b))
          && coll in c.colls && j == DropJob(m, coll);
      OwnFacts(c, o.prev, b);
      e := DropOne(j);
    }
  }

  lemma {:induction false} JobServed(c: Conf, s: State, g: Ghost, j: CopyJob)
    requires Lawful(c) && TaskOk(c, s, g) && s.task.Copying? && s.overlay.Some?
            && j in CopyJobs(c, s.overlay.value, s.task.chunk)
    ensures j.from in s.clients && j.to in s.clients
  {
    var o := s.overlay.value;
    var b, to, coll :| b in s.task.chunk && to in Elems(Own(c, o.next, b)) - Elems(Own(c, o.prev, b)) && coll in c.colls
                       && j == CopyJob(First(Own(c, o.prev, b)), to, coll);
    OwnFacts(c, o.prev, b);
    OwnFacts(c, o.next, b);
    assert First(Own(c, o.prev, b)) in Elems(Own(c, o.prev, b));
  }
}
