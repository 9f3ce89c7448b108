/** Runs without an interruption: every key, frozen or not, is always at its current primary. */
module MigrationSmooth {
  import opened Seqs
  import opened Replication
  import opened Values
  import opened Gates
  import opened Migration
  import opened MigrationInvariant
  import opened MigrationClients
  import opened MigrationTask
  import opened MigrationTheorems

  /** The buckets that are being copied or dropped. */
  ghost function InWork(t: Task): set<nat> { if t.Copying? || t.Dropping? then t.chunk else {} }

  /** Nothing is left over from an earlier attempt: a chunk being copied has not been cut over before. */
  ghost predicate Smooth(c: Conf, s: State, g: Ghost) {
    && g.torn == InWork(s.task)
    && (s.task.Idle? ==> s.overlay.None?)
    && (s.task.Copying? && s.overlay.Some? ==>
          forall k :: Managed(c, k) && Bucket(c, k) in s.task.chunk ==> BeforeCut(c, s.overlay.value, s.data, g.m, k))
  }

  lemma {:induction false} BeforeCutStays(c: Conf, o: Overlay, data: map<Loc, Value>, m: map<Key, Value>,
                                          data': map<Loc, Value>, m': map<Key, Value>, k: Key)
    requires BeforeCut(c, o, data, m, k)
    requires At(m', k) == At(m, k) && forall n :: Slot(data', n, k) == Slot(data, n, k)
    ensures BeforeCut(c, o, data', m', k)
  {}

  /** An operation touches only its own key, whose bucket is not in work. */
  lemma {:induction false} ClientLeavesChunk(c: Conf, s: State, g: Ghost, e: Step, k: Key)
    requires ClientsOk(c, s, g) && ClientGuard(c, s, e) && Bucket(c, k) in g.torn
    ensures At(GhostStep(g, s, e).m, k) == At(g.m, k)
    ensures forall n :: Slot(ClientStep(c, s, e).data, n, k) == Slot(s.data, n, k)
  {
    if e.AtPrimary? || e.AtReplica? {
      assert ClientOk(c, s, g, s.ops[e.id]);
    }
  }

  lemma {:induction false} ClientStepSmooth(c: Conf, s: State, g: Ghost, e: Step)
    requires ClientsOk(c, s, g) && Smooth(c, s, g) && ClientGuard(c, s, e)
    ensures Smooth(c, ClientStep(c, s, e), GhostStep(g, s, e))
  {
    var s', g' := ClientStep(c, s, e), GhostStep(g, s, e);
    assert s'.task == s.task && s'.overlay == s.overlay && g'.torn == g.torn;
    if s.task.Copying? && s.overlay.Some? {
      forall k | Managed(c, k) && Bucket(c, k) in s.task.chunk
        ensures BeforeCut(c, s'.overlay.value, s'.data, g'.m, k)
      {
        ClientLeavesChunk(c, s, g, e, k);
        BeforeCutStays(c, s.overlay.value, s.data, g.m, s'.data, g'.m, k);
      }
    }
  }

  lemma {:induction false} DrainSmooth(c: Conf, s: State, g: Ghost)
    requires Inv(c, s, g) && Smooth(c, s, g) && TaskGuard(c, s, FinishDrain)
    ensures Smooth(c, TaskStep(c, s, FinishDrain), GhostStep(g, s, FinishDrain))
  {
    DrainedMeansNobody(c, s, s.task.chunk);
    forall k | Managed(c, k) && Bucket(c, k) in s.task.chunk ensures BeforeCut(c, s.overlay.value, s.data, g.m, k) {
      SettledBeforeCut(c, s, g, k);
    }
  }

  lemma {:induction false} ImportSmooth(c: Conf, s: State, g: Ghost)
    requires Lawful(c) && ChunkOk(c, s, g) && TaskOk(c, s, g) && Smooth(c, s, g) && TaskGuard(c, s, ImportHeld)
    ensures Smooth(c, TaskStep(c, s, ImportHeld), g)
  {
    var s' := TaskStep(c, s, ImportHeld);
    var o, chunk, j := s.overlay.value, s.task.chunk, s.task.held.value.job;
    forall k | Managed(c, k) && Bucket(c, k) in chunk ensures BeforeCut(c, o, s'.data, g.m, k) {
      OwnFacts(c, o.prev, Bucket(c, k));
      forall n ensures Slot(s'.data, n, k) == Slot(s.data, n, k)
                    || (n !in Own(c, o.prev, Bucket(c, k)) && n in Own(c, o.next, Bucket(c, k))
                        && Slot(s'.data, n, k) == At(g.m, k))
      {
        ImportKey(c, o, chunk, j, s.data, g.m, k, n);
      }
    }
  }

  lemma {:induction false} TaskStepSmooth(c: Conf, s: State, g: Ghost, e: Step)
    requires Lawful(c) && Inv(c, s, g) && Smooth(c, s, g) && TaskGuard(c, s, e) && !e.Abort?
    ensures Smooth(c, TaskStep(c, s, e), GhostStep(g, s, e))
  {
    match e
    case FinishDrain => DrainSmooth(c, s, g);
    case ImportHeld => ImportSmooth(c, s, g);
    case _ =>
  }

  lemma {:induction false} StepSmooth(c: Conf, s: State, g: Ghost, e: Step, s': State)
    requires Lawful(c) && Inv(c, s, g) && Smooth(c, s, g) && Next(c, s, e, s') && !e.Abort?
    ensures Smooth(c, s', GhostStep(g, s, e))
  {
    if ClientGuard(c, s, e) {
      ClientStepSmooth(c, s, g, e);
    } else {
      TaskStepSmooth(c, s, g, e);
    }
  }

  lemma {:induction false} RunSmooth(c: Conf, ss: seq<State>, es: seq<Step>, n: nat) returns (g: Ghost)
    requires Lawful(c) && Run(c, ss, es) && n <= |es| && forall i :: 0 <= i < n ==> !es[i].Abort?
    ensures Inv(c, ss[n], g) && Smooth(c, ss[n], g) && g.m == Plain(es[..n])
  {
    if n == 0 {
      InitHolds(c, ss[0]);
      g := Ghost(map[], {});
    } else {
      var h := RunSmooth(c, ss, es, n - 1);
      assert Next(c, ss[n - 1], es[n - 1], ss[n]);
      StepHolds(c, ss[n - 1], h, es[n - 1], ss[n]);
      StepSmooth(c, ss[n - 1], h, es[n - 1], ss[n]);
      PlainStep(h, ss[n - 1], es, n - 1);
      g := GhostStep(h, ss[n - 1], es[n - 1]);
    }
  }

  lemma {:induction false} ChunkAtPrimary(c: Conf, s: State, g: Ghost, k: Key)
    requires Lawful(c) && ChunkOk(c, s, g) && TaskOk(c, s, g) && Smooth(c, s, g) && Managed(c, k)
            && Bucket(c, k) in g.torn
    ensures Route(c, s, Bucket(c, k)) != [] && Slot(s.data, Route(c, s, Bucket(c, k))[0], k) == At(g.m, k)
  {
    RouteFacts(c, s, g, Bucket(c, k));
  }

  /**
   * In every state of an uninterrupted run, the current primary of every managed key holds the plain
   * map's value, also while the key's bucket is being copied, cut over and dropped.
   */
  lemma {:induction false} PrimaryAlwaysCurrent(c: Conf, ss: seq<State>, es: seq<Step>, n: nat, k: Key)
    requires Lawful(c) && Run(c, ss, es) && n <= |es| && Managed(c, k) && forall i :: 0 <= i < n ==> !es[i].Abort?
    ensures Route(c, ss[n], Bucket(c, k)) != []
    ensures Slot(ss[n].data, Route(c, ss[n], Bucket(c, k))[0], k) == At(Plain(es[..n]), k)
  {
    var g := RunSmooth(c, ss, es, n);
    if Bucket(c, k) in g.torn {
      ChunkAtPrimary(c, ss[n], g, k);
    } else {
      RouteFacts(c, ss[n], g, Bucket(c, k));
      PrimaryCurrent(c, ss[n], g, k);
    }
  }

  /** So no migration step changes what any key's current primary holds, even where it changes the primary. */
  lemma {:induction false} MigrationStepsStutter(c: Conf, ss: seq<State>, es: seq<Step>, n: nat, k: Key)
    requires Lawful(c) && Run(c, ss, es) && n < |es| && Managed(c, k)
    requires !es[n].AtPrimary? && forall i :: 0 <= i <= n ==> !es[i].Abort?
    ensures var p, q := Route(c, ss[n], Bucket(c, k)), Route(c, ss[n + 1], Bucket(c, k));
            p != [] && q != [] && Slot(ss[n + 1].data, q[0], k) == Slot(ss[n].data, p[0], k)
  {
    PrimaryAlwaysCurrent(c, ss, es, n, k);
    PrimaryAlwaysCurrent(c, ss, es, n + 1, k);
    assert es[..n + 1][..n] == es[..n];
  }
}
