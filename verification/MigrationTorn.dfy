/** Interrupted chunks: what the owners of a torn bucket hold, and what resuming makes of it. */
module MigrationTorn {
  import opened Seqs
  import opened Replication
  import opened Values
  import opened Gates
  import opened Migration
  import opened MigrationInvariant
  import opened MigrationClients
  import opened MigrationTask
  import opened MigrationTheorems
  import opened MigrationSmooth
  import opened MigrationLapses
  import opened SmallRuns

  /** A node has dropped a collection's objects in a bucket. */
  datatype Lost = Lost(node: Node, coll: string, bucket: nat)

  /** The drops made in chunks that have not been unfrozen since. */
  ghost function LostBy(c: Conf, ss: seq<State>, es: seq<Step>, n: nat): set<Lost>
    requires |ss| == |es| + 1 && n <= |es|
  {
    if n == 0 then {} else LostStep(c, ss[n - 1], es[n - 1], LostBy(c, ss, es, n - 1))
  }

  ghost function LostStep(c: Conf, s: State, e: Step, lost: set<Lost>): set<Lost> {
    match e
    case DropOne(j) =>
      if s.task.Dropping? && s.overlay.Some?
      then lost + set b | b in s.task.chunk && Goes(c, s.overlay.value, s.task.chunk, j, b) :: Lost(j.node, j.coll, b)
      else lost
    case Unfreeze => if s.task.Dropping? then set x | x in lost && x.bucket !in s.task.chunk else lost
    case _ => lost
  }

  /** What a former owner holds of a key in a torn bucket. */
  ghost predicate LeaverOk(c: Conf, o: Overlay, data: map<Loc, Value>, m: map<Key, Value>, lost: set<Lost>, k: Key,
                           n: Node) {
    var b := Bucket(c, k);
    n in Own(c, o.prev, b) && n !in Own(c, o.next, b) ==>
      Slot(data, n, k) == if Lost(n, k.coll, b) in lost then None else At(m, k)
  }

  ghost predicate TornKey(c: Conf, o: Overlay, data: map<Loc, Value>, m: map<Key, Value>, lost: set<Lost>, k: Key) {
    && (forall n :: LeaverOk(c, o, data, m, lost, k, n))
    && (Bucket(c, k) in o.migrated ==> AfterCut(c, o, data, m, k))
  }

  ghost predicate LostOk(c: Conf, o: Overlay, torn: set<nat>, lost: set<Lost>) {
    forall x :: x in lost ==>
      x.bucket in torn && x.node in Own(c, o.prev, x.bucket) && x.node !in Own(c, o.next, x.bucket)
  }

  ghost predicate TornInv(c: Conf, s: State, g: Ghost, lost: set<Lost>) {
    && (g.torn == {} ==> lost == {})
    && (s.overlay.Some? ==>
          && LostOk(c, s.overlay.value, g.torn, lost)
          && forall k :: Managed(c, k) && Bucket(c, k) in g.torn ==>
               TornKey(c, s.overlay.value, s.data, g.m, lost, k))
  }

  // ---------------------------------------------------------------- every step keeps that

  lemma {:induction false} TornKeyStays(c: Conf, o: Overlay, data: map<Loc, Value>, m: map<Key, Value>,
                                        data': map<Loc, Value>, m': map<Key, Value>, lost: set<Lost>, k: Key)
    requires TornKey(c, o, data, m, lost, k)
    requires At(m', k) == At(m, k) && forall n :: Slot(data', n, k) == Slot(data, n, k)
    ensures TornKey(c, o, data', m', lost, k)
  {
    forall n ensures LeaverOk(c, o, data', m', lost, k, n) { assert LeaverOk(c, o, data, m, lost, k, n); }
  }

  lemma {:induction false} ClientStepTorn(c: Conf, s: State, g: Ghost, lost: set<Lost>, e: Step)
    requires ClientsOk(c, s, g) && TornInv(c, s, g, lost) && ClientGuard(c, s, e)
    ensures TornInv(c, ClientStep(c, s, e), GhostStep(g, s, e), lost)
  {
    var s', g' := ClientStep(c, s, e), GhostStep(g, s, e);
    assert s'.overlay == s.overlay && g'.torn == g.torn;
    if s.overlay.Some? {
      forall k | Managed(c, k) && Bucket(c, k) in g.torn ensures TornKey(c, s.overlay.value, s'.data, g'.m, lost, k) {
        ClientLeavesChunk(c, s, g, e, k);
        TornKeyStays(c, s.overlay.value, s.data, g.m, s'.data, g'.m, lost, k);
      }
    }
  }

  lemma {:induction false} DrainTorn(c: Conf, s: State, g: Ghost, lost: set<Lost>)
    requires Inv(c, s, g) && TornInv(c, s, g, lost) && TaskGuard(c, s, FinishDrain)
    ensures TornInv(c, TaskStep(c, s, FinishDrain), GhostStep(g, s, FinishDrain), lost)
  {
    var o, g' := s.overlay.value, GhostStep(g, s, FinishDrain);
    DrainedMeansNobody(c, s, s.task.chunk);
    forall k | Managed(c, k) && Bucket(c, k) in g'.torn ensures TornKey(c, o, s.data, g.m, lost, k) {
      if Bucket(c, k) !in g.torn {
        SettledBeforeCut(c, s, g, k);
        forall n ensures LeaverOk(c, o, s.data, g.m, lost, k, n) {}
      }
    }
  }

  lemma {:induction false} ImportTorn(c: Conf, s: State, g: Ghost, lost: set<Lost>)
    requires Lawful(c) && Inv(c, s, g) && TornInv(c, s, g, lost) && TaskGuard(c, s, ImportHeld)
    ensures TornInv(c, TaskStep(c, s, ImportHeld), g, lost)
  {
    var s' := TaskStep(c, s, ImportHeld);
    var o, chunk, j := s.overlay.value, s.task.chunk, s.task.held.value.job;
    forall k | Managed(c, k) && Bucket(c, k) in g.torn ensures TornKey(c, o, s'.data, g.m, lost, k) {
      OwnFacts(c, o.prev, Bucket(c, k));
      forall n ensures LeaverOk(c, o, s'.data, g.m, lost, k, n) {
        assert LeaverOk(c, o, s.data, g.m, lost, k, n);
        ImportKey(c, o, chunk, j, s.data, g.m, k, n);
      }
    }
  }

  lemma {:induction false} CutTorn(c: Conf, s: State, g: Ghost, lost: set<Lost>)
    requires TaskOk(c, s, g) && TornInv(c, s, g, lost) && TaskGuard(c, s, CutOver)
    requires ChunkOk(c, TaskStep(c, s, CutOver), g)
    ensures TornInv(c, TaskStep(c, s, CutOver), g, lost)
  {
    var s' := TaskStep(c, s, CutOver);
    var o, o' := s.overlay.value, s'.overlay.value;
    forall k | Managed(c, k) && Bucket(c, k) in g.torn ensures TornKey(c, o', s.data, g.m, lost, k) {
      forall n ensures LeaverOk(c, o', s.data, g.m, lost, k, n) { assert LeaverOk(c, o, s.data, g.m, lost, k, n); }
    }
  }

  lemma {:induction false} DropTorn(c: Conf, s: State, g: Ghost, lost: set<Lost>, j: DropJob)
    requires TaskOk(c, s, g) && TornInv(c, s, g, lost) && TaskGuard(c, s, DropOne(j))
    requires ChunkOk(c, TaskStep(c, s, DropOne(j)), g)
    ensures TornInv(c, TaskStep(c, s, DropOne(j)), g, LostStep(c, s, DropOne(j), lost))
  {
    var s', more := TaskStep(c, s, DropOne(j)), LostStep(c, s, DropOne(j), lost);
    var o := s.overlay.value;
    forall k | Managed(c, k) && Bucket(c, k) in g.torn ensures TornKey(c, o, s'.data, g.m, more, k) {
      forall n ensures LeaverOk(c, o, s'.data, g.m, more, k, n) {
        assert LeaverOk(c, o, s.data, g.m, lost, k, n);
        SlotAfterDrop(c, o, s.task.chunk, j, s.data, n, k);
      }
    }
  }

  lemma {:induction false} ThawTorn(c: Conf, s: State, g: Ghost, lost: set<Lost>)
    requires TornInv(c, s, g, lost) && TaskGuard(c, s, Unfreeze) && s.overlay.Some?
    ensures TornInv(c, TaskStep(c, s, Unfreeze), GhostStep(g, s, Unfreeze), LostStep(c, s, Unfreeze, lost))
  {
    var o, g', less := s.overlay.value, GhostStep(g, s, Unfreeze), LostStep(c, s, Unfreeze, lost);
    assert forall x :: x in less ==> x.bucket in g'.torn;
    assert g'.torn == {} ==> less == {};
    forall k | Managed(c, k) && Bucket(c, k) in g'.torn ensures TornKey(c, o, s.data, g.m, less, k) {
      forall n ensures LeaverOk(c, o, s.data, g.m, less, k, n) { assert LeaverOk(c, o, s.data, g.m, lost, k, n); }
    }
  }

  lemma {:induction false} ResumeTorn(c: Conf, s: State, g: Ghost, lost: set<Lost>)
    requires TaskOk(c, s, g) && TornInv(c, s, g, lost) && TaskGuard(c, s, Resume)
    ensures TornInv(c, TaskStep(c, s, Resume), g, lost)
  {
    var o, o' := s.overlay.value, TaskStep(c, s, Resume).overlay.value;
    forall k | Managed(c, k) && Bucket(c, k) in g.torn ensures TornKey(c, o', s.data, g.m, lost, k) {
      forall n ensures LeaverOk(c, o', s.data, g.m, lost, k, n) { assert LeaverOk(c, o, s.data, g.m, lost, k, n); }
    }
  }

  lemma {:induction false} TaskStepTorn(c: Conf, s: State, g: Ghost, lost: set<Lost>, e: Step)
    requires Lawful(c) && Inv(c, s, g) && TornInv(c, s, g, lost) && TaskGuard(c, s, e)
    requires ChunkOk(c, TaskStep(c, s, e), GhostStep(g, s, e))
    ensures TornInv(c, TaskStep(c, s, e), GhostStep(g, s, e), LostStep(c, s, e, lost))
  {
    match e
    case FinishDrain => DrainTorn(c, s, g, lost);
    case ImportHeld => ImportTorn(c, s, g, lost);
    case CutOver => CutTorn(c, s, g, lost);
    case DropOne(j) => DropTorn(c, s, g, lost, j);
    case Unfreeze => ThawTorn(c, s, g, lost);
    case Resume => ResumeTorn(c, s, g, lost);
    case _ =>
  }

  lemma {:induction false} StepTorn(c: Conf, s: State, g: Ghost, lost: set<Lost>, e: Step, s': State)
    requires Lawful(c) && Inv(c, s, g) && TornInv(c, s, g, lost) && Next(c, s, e, s')
    ensures Inv(c, s', GhostStep(g, s, e)) && TornInv(c, s', GhostStep(g, s, e), LostStep(c, s, e, lost))
  {
    StepHolds(c, s, g, e, s');
    if ClientGuard(c, s, e) {
      ClientStepTorn(c, s, g, lost, e);
    } else {
      TaskStepTorn(c, s, g, lost, e);
    }
  }

  lemma {:induction false} RunTorn(c: Conf, ss: seq<State>, es: seq<Step>, n: nat) returns (g: Ghost)
    requires Lawful(c) && Run(c, ss, es) && n <= |es|
    ensures Inv(c, ss[n], g) && TornInv(c, ss[n], g, LostBy(c, ss, es, n)) && g.m == Plain(es[..n])
  {
    if n == 0 {
      InitHolds(c, ss[0]);
      g := Ghost(map[], {});
    } else {
      var h := RunTorn(c, ss, es, n - 1);
      assert Next(c, ss[n - 1], es[n - 1], ss[n]);
      StepTorn(c, ss[n - 1], h, LostBy(c, ss, es, n - 1), es[n - 1], ss[n]);
      PlainStep(h, ss[n - 1], es, n - 1);
      g := GhostStep(h, ss[n - 1], es[n - 1]);
    }
  }

  // ---------------------------------------------------------------- when a routed primary is stale

  /** The old primary has dropped the key's bucket in a chunk that has not been unfrozen since. */
  ghost predicate PrimaryDropped(c: Conf, o: Overlay, lost: set<Lost>, k: Key) {
    Lost(First(Own(c, o.prev, Bucket(c, k))), k.coll, Bucket(c, k)) in lost
  }

  /** Whoever the overlay routes a key to, old owners or new, holds it unless the old primary has dropped it. */
  lemma {:induction false} OldPrimary(c: Conf, s: State, g: Ghost, lost: set<Lost>, k: Key)
    requires Lawful(c) && Inv(c, s, g) && TornInv(c, s, g, lost) && Managed(c, k) && s.overlay.Some?
    requires Bucket(c, k) in g.torn
    ensures var o, b := s.overlay.value, Bucket(c, k);
            && Slot(s.data, First(Own(c, o.prev, b)), k) == (if PrimaryDropped(c, o, lost, k) then None else At(g.m, k))
            && (b in o.migrated ==> Slot(s.data, First(Own(c, o.next, b)), k) == At(g.m, k))
  {
    var o, b := s.overlay.value, Bucket(c, k);
    var p := First(Own(c, o.prev, b));
    OwnFacts(c, o.prev, b);
    OwnFacts(c, o.next, b);
    assert TornKey(c, o, s.data, g.m, lost, k) && LeaverOk(c, o, s.data, g.m, lost, k, p);
    assert BeforeCut(c, o, s.data, g.m, k) || AfterCut(c, o, s.data, g.m, k);
  }

  /**
   * In every reachable state the routed primary of a key holds the plain map's value, unless the
   * bucket is routed to its old owners after the old primary has dropped it: then it holds nothing.
   */
  lemma {:induction false} StalePrimaryIff(c: Conf, ss: seq<State>, es: seq<Step>, n: nat, k: Key)
    requires Lawful(c) && Run(c, ss, es) && n <= |es| && Managed(c, k)
    ensures var s, m, b := ss[n], Plain(es[..n]), Bucket(c, k);
            && Route(c, s, b) != []
            && (Slot(s.data, Route(c, s, b)[0], k) == At(m, k)
                <==> (At(m, k) == None || s.overlay.None? || b in s.overlay.value.migrated
                      || !PrimaryDropped(c, s.overlay.value, LostBy(c, ss, es, n), k)))
  {
    var g := RunTorn(c, ss, es, n);
    var s, b, lost := ss[n], Bucket(c, k), LostBy(c, ss, es, n);
    RouteFacts(c, s, g, b);
    if b in g.torn {
      OldPrimary(c, s, g, lost, k);
    } else {
      PrimaryCurrent(c, s, g, k);
    }
  }

  /** It happens: a drop, an interruption before the journal is written, and a resume. */
  lemma {:induction false} StaleIsReached(c: Conf, p: Node, q: Node, k: Key, v: Value)
    returns (ss: seq<State>, es: seq<Step>)
    requires Small(c, p, q, k)
    ensures Run(c, ss, es) && Route(c, ss[|es|], Bucket(c, k)) == [p]
    ensures Slot(ss[|es|].data, p, k) == None && At(Plain(es), k) == Some(v)
  {
    var s0, b, d := Calm(p, q, map[]), Bucket(c, k), One(q, k, v);
    var es1 := UpToDrop(c, NoLapse, p, q, k, v);
    LeadsTask(c, NoLapse, s0, es1, Mid(p, q, d, {b}, {b}, Dropping({}, {b}, {})), Abort, Mid(p, q, d, {b}, {b}, Idle));
    LeadsTask(c, NoLapse, s0, es1 + [Abort], Mid(p, q, d, {b}, {b}, Idle), Resume, Mid(p, q, d, {}, {b}, Between({})));
    PlainSilent(es1, [Abort]);
    PlainSilent(es1 + [Abort], [Resume]);
    es := es1 + [Abort] + [Resume];
    ss := LeadsIsRun(c, s0, es, Mid(p, q, d, {}, {b}, Between({})));
    SoleOwner(c, p, b);
  }

  // ---------------------------------------------------------------- a crash of the process

  /** The bucket is unfrozen and not journalled yet. */
  ghost predicate Unsaved(s: State, b: nat) { s.task.Unfrozen? && b in s.task.chunk && b !in s.task.done }

  /** The same, and its old primary is no longer wanted. */
  ghost predicate Unjournalled(c: Conf, s: State, k: Key) {
    && s.overlay.Some? && Unsaved(s, Bucket(c, k))
    && First(Own(c, s.overlay.value.prev, Bucket(c, k))) !in Own(c, s.overlay.value.next, Bucket(c, k))
  }

  /** Away from the chunk at work the journal routes as the lost overlay did; there it routes to the old owners. */
  lemma {:induction false} CrashRoutes(c: Conf, s: State, g: Ghost, b: nat)
    requires TaskOk(c, s, g) && CrashGuard(s)
    ensures var o, t := s.overlay.value, Crashed(s);
            && t.overlay.value.prev == o.prev && t.overlay.value.next == o.next
            && Route(c, t, b) == (if b in g.torn || Unsaved(s, b) then Own(c, o.prev, b) else Route(c, s, b))
            && (Unsaved(s, b) ==> b !in g.torn && b in o.migrated)
  {}

  /** The old primary of a key whose bucket is torn, or unfrozen and not journalled. */
  lemma {:induction false} ExposedPrimary(c: Conf, s: State, g: Ghost, lost: set<Lost>, k: Key)
    requires Lawful(c) && Inv(c, s, g) && TornInv(c, s, g, lost) && CrashGuard(s) && Managed(c, k)
    requires Bucket(c, k) in g.torn || (Unsaved(s, Bucket(c, k)) && Bucket(c, k) in s.overlay.value.migrated)
    ensures Slot(s.data, First(Own(c, s.overlay.value.prev, Bucket(c, k))), k)
            == if PrimaryDropped(c, s.overlay.value, lost, k) || Unjournalled(c, s, k) then None else At(g.m, k)
  {
    if Bucket(c, k) in g.torn {
      OldPrimary(c, s, g, lost, k);
    } else {
      assert SlotOk(c, s, g, k, First(Own(c, s.overlay.value.prev, Bucket(c, k))));
    }
  }

  /**
   * After a crash the journal's overlay is back but the gate is open, and every key is served at
   * once. Its primary then answers correctly exactly when there is nothing to answer, or the old
   * primary had not dropped it in a chunk that was not journalled.
   */
  lemma {:induction false} CrashAnswersIff(c: Conf, ss: seq<State>, es: seq<Step>, n: nat, k: Key)
    requires Lawful(c) && Run(c, ss, es) && n <= |es| && Managed(c, k) && CrashGuard(ss[n])
    ensures var t, m, b := Crashed(ss[n]), Plain(es[..n]), Bucket(c, k);
            var lost := PrimaryDropped(c, t.overlay.value, LostBy(c, ss, es, n), k) || Unjournalled(c, ss[n], k);
            && MayEnter(t.gate, b) && Route(c, t, b) != []
            && (Slot(t.data, Route(c, t, b)[0], k) == At(m, k) <==> At(m, k) == None || !lost)
  {
    var g := RunTorn(c, ss, es, n);
    CrashAnswer(c, ss[n], g, LostBy(c, ss, es, n), k);
  }

  lemma {:induction false} CrashAnswer(c: Conf, s: State, g: Ghost, lost: set<Lost>, k: Key)
    requires Lawful(c) && Inv(c, s, g) && TornInv(c, s, g, lost) && Managed(c, k) && CrashGuard(s)
    ensures var t, b := Crashed(s), Bucket(c, k);
            && Route(c, t, b) != []
            && Slot(t.data, Route(c, t, b)[0], k)
               == if PrimaryDropped(c, t.overlay.value, lost, k) || Unjournalled(c, s, k) then None else At(g.m, k)
  {
    var b := Bucket(c, k);
    OwnFacts(c, s.overlay.value.prev, b);
    RouteFacts(c, s, g, b);
    CrashRoutes(c, s, g, b);
    if b in g.torn || Unsaved(s, b) {
      ExposedPrimary(c, s, g, lost, k);
    } else {
      PrimaryCurrent(c, s, g, k);
    }
  }

  lemma {:induction false} CrashTaskOk(c: Conf, s: State, g: Ghost)
    requires TaskOk(c, s, g) && CrashGuard(s) && g.torn == {} && !s.task.Unfrozen?
    ensures TaskOk(c, Crashed(s), g)
  {}

  /** Outside a chunk a crash is a resume: the invariant holds again, for the same plain map. */
  lemma {:induction false} CrashOutsideChunk(c: Conf, s: State, g: Ghost)
    requires Lawful(c) && Inv(c, s, g) && CrashGuard(s) && g.torn == {} && !s.task.Unfrozen?
    ensures Inv(c, Crashed(s), g)
  {
    var t := Crashed(s);
    CrashTaskOk(c, s, g);
    assert GateInv(c, t) by { forall b: nat ensures LiveOn(c, t.ops, b) == {} {} }
    forall k, n | Managed(c, k) ensures SlotOk(c, t, g, k, n) {
      CrashRoutes(c, s, g, Bucket(c, k));
      assert SlotOk(c, s, g, k, n);
    }
  }

  /** And inside one it can lose an answer: a drop, a crash, and a get that finds nothing. */
  lemma {:induction false} CrashLosesAnAnswer(c: Conf, p: Node, q: Node, k: Key, v: Value)
    returns (asked: seq<Step>, es: seq<Step>, t: State)
    requires Small(c, p, q, k)
    ensures Init(c, Calm(p, q, map[])) && From(c, Crashes, Calm(p, q, map[]))(es, t) && !AnswersLikePlainMap(es)
    ensures es == asked + OpSteps(2, k, Get, Got(None)) && At(Plain(asked), k) == Some(v)
  {
    var s0, b, d := Calm(p, q, map[]), Bucket(c, k), One(q, k, v);
    var es1 := UpToDrop(c, Crashes, p, q, k, v);
    var s := Mid(p, q, d, {}, {}, Between({}));
    LeadsOn(c, Crashes, s0, es1, Mid(p, q, d, {b}, {b}, Dropping({}, {b}, {})), Crash, s);
    PlainSilent(es1, [Crash]);
    asked := es1 + [Crash];
    SoleOwner(c, p, b);
    SoleOp(c, Crashes, s0, asked, s, 2, k, Get, p);
    WrongAnswer(asked, 2, k, Get, Got(None));
    es, t := asked + OpSteps(2, k, Get, Got(None)), s.(data := Write(d, p, k, None));
  }
}
