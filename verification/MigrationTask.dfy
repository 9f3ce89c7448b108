/** Migration steps keep the invariant and never change the plain map the cluster stands for. */
module MigrationTask {
  import opened Seqs
  import opened Replication
  import opened Values
  import opened Gates
  import opened Migration
  import opened MigrationInvariant
  import opened MigrationClients

  /** A step that keeps the data, the operations and the routes of untorn buckets. */
  ghost predicate Quiet(c: Conf, s: State, g: Ghost, s': State) {
    && s'.data == s.data && s'.ops == s.ops && s'.gate.inFlight == s.gate.inFlight
    && (forall b: nat :: b < c.buckets && b !in g.torn ==> Route(c, s', b) == Route(c, s, b))
  }

  lemma {:induction false} QuietKeeps(c: Conf, s: State, g: Ghost, s': State)
    requires GateInv(c, s) && Settled(c, s, g) && ClientsOk(c, s, g) && NoRivals(s) && Quiet(c, s, g, s')
    requires forall id :: id in s.ops && s.ops[id].SawNoOverlay? && s'.overlay.Some? ==>
               Bucket(c, s.ops[id].key) !in s'.overlay.value.migrated
    ensures GateInv(c, s') && Settled(c, s', g) && ClientsOk(c, s', g) && NoRivals(s')
  {
    forall k, n | Managed(c, k) && Bucket(c, k) !in g.torn ensures SlotOk(c, s', g, k, n) {
      assert SlotOk(c, s, g, k, n);
    }
    forall id | id in s'.ops ensures ClientOk(c, s', g, s'.ops[id]) {
      assert ClientOk(c, s, g, s.ops[id]);
    }
    assert forall b: nat :: Count(s'.gate, b) == Count(s.gate, b);
  }

  lemma {:induction false} SawNothing(c: Conf, s: State, g: Ghost, s': State)
    requires ClientsOk(c, s, g) && s'.ops == s.ops && s.overlay.Some?
    requires s'.overlay.Some?
             && forall b :: b in s'.overlay.value.migrated && b !in g.torn ==> b in s.overlay.value.migrated
    ensures forall id :: id in s.ops && s.ops[id].SawNoOverlay? && s'.overlay.Some? ==>
              Bucket(c, s.ops[id].key) !in s'.overlay.value.migrated
  {
    forall id | id in s.ops && s.ops[id].SawNoOverlay? ensures Bucket(c, s.ops[id].key) !in s'.overlay.value.migrated {
      assert ClientOk(c, s, g, s.ops[id]);
    }
  }

  // ---------------------------------------------------------------- starting, resuming, stopping

  lemma {:induction false} AddClientKeeps(c: Conf, s: State, g: Ghost, n: Node)
    requires Inv(c, s, g)
    ensures Inv(c, s.(clients := s.clients + {n}), g)
  {
    var s' := s.(clients := s.clients + {n});
    assert forall id :: id in s.ops ==> ClientOk(c, s, g, s.ops[id]);
    QuietKeeps(c, s, g, s');
    assert TornOk(c, s', g) && ChunkOk(c, s', g) && TaskOk(c, s', g);
  }

  /** Installing the overlay routes every bucket as before. */
  lemma {:induction false} StartRoutesAlike(c: Conf, s: State, g: Ghost, prev: seq<Node>, next: seq<Node>, b: nat)
    requires Lawful(c) && TaskOk(c, s, g) && TaskGuard(c, s, Start(prev, next))
    ensures Route(c, TaskStep(c, s, Start(prev, next)), b) == Route(c, s, b)
    ensures Membership(c, prev)
  {
    EmptyElems(prev);
    EmptyElems(s.nodes);
    OwnListing(c, prev, s.nodes, b);
  }

  lemma {:induction false} StartKeeps(c: Conf, s: State, g: Ghost, prev: seq<Node>, next: seq<Node>)
    requires Lawful(c) && Inv(c, s, g) && TaskGuard(c, s, Start(prev, next))
    ensures Inv(c, TaskStep(c, s, Start(prev, next)), g)
  {
    var s' := TaskStep(c, s, Start(prev, next));
    forall b: nat ensures Route(c, s', b) == Route(c, s, b) {
      StartRoutesAlike(c, s, g, prev, next, b);
    }
    StartRoutesAlike(c, s, g, prev, next, 0);
    NoDupCard(prev);
    NoDupCard(s.nodes);
    QuietKeeps(c, s, g, s');
    assert TornOk(c, s', g) && ChunkOk(c, s', g);
    assert TaskOk(c, s', g);
  }

  /** Re-installing the overlay from the journal re-routes torn buckets at most. */
  lemma {:induction false} ResumeKeeps(c: Conf, s: State, g: Ghost)
    requires Inv(c, s, g) && TaskGuard(c, s, Resume)
    ensures Inv(c, TaskStep(c, s, Resume), g)
  {
    var s' := TaskStep(c, s, Resume);
    SawNothing(c, s, g, s');
    QuietKeeps(c, s, g, s');
    assert TornOk(c, s', g) && ChunkOk(c, s', g);
    assert TaskOk(c, s', g);
  }

  lemma {:induction false} AbortKeeps(c: Conf, s: State, g: Ghost)
    requires Inv(c, s, g) && TaskGuard(c, s, Abort)
    ensures Inv(c, TaskStep(c, s, Abort), g)
  {
    var s' := TaskStep(c, s, Abort);
    if s.overlay.Some? { SawNothing(c, s, g, s'); }
    QuietKeeps(c, s, g, s');
    assert TornOk(c, s', g) && ChunkOk(c, s', g);
    assert TaskOk(c, s', g);
  }

  // ---------------------------------------------------------------- one chunk

  lemma {:induction false} FreezeKeeps(c: Conf, s: State, g: Ghost, chunk: set<nat>)
    requires Inv(c, s, g) && TaskGuard(c, s, Freeze(chunk))
    ensures Inv(c, TaskStep(c, s, Freeze(chunk)), g)
  {
    var s' := TaskStep(c, s, Freeze(chunk));
    SawNothing(c, s, g, s');
    QuietKeeps(c, s, g, s');
    assert TornOk(c, s', g) && ChunkOk(c, s', g);
    assert TaskOk(c, s', g);
  }

  /** A settled bucket nobody is in is complete on its old owners. */
  lemma {:induction false} SettledBeforeCut(c: Conf, s: State, g: Ghost, k: Key)
    requires Settled(c, s, g) && ClientsOk(c, s, g) && s.overlay.Some?
    requires Managed(c, k) && Bucket(c, k) !in g.torn && Bucket(c, k) !in s.overlay.value.migrated
    requires forall id :: id in s.ops ==> Bucket(c, s.ops[id].key) != Bucket(c, k)
    ensures BeforeCut(c, s.overlay.value, s.data, g.m, k)
  {
    var was := Own(c, s.overlay.value.prev, Bucket(c, k));
    forall n ensures Slot(s.data, n, k) == if n in was then At(g.m, k) else None {
      assert SlotOk(c, s, g, k, n);
    }
  }

  /** Once drained, nobody is inside the chunk and every key of it is ready to be copied. */
  lemma {:induction false} FinishDrainKeeps(c: Conf, s: State, g: Ghost)
    requires Inv(c, s, g) && TaskGuard(c, s, FinishDrain)
    ensures Inv(c, TaskStep(c, s, FinishDrain), GhostStep(g, s, FinishDrain))
  {
    var s', g' := TaskStep(c, s, FinishDrain), GhostStep(g, s, FinishDrain);
    var o, chunk := s.overlay.value, s.task.chunk;
    DrainedMeansNobody(c, s, chunk);
    forall k | Managed(c, k) && Bucket(c, k) in g'.torn
      ensures BeforeCut(c, o, s.data, g.m, k) || AfterCut(c, o, s.data, g.m, k)
    {
      if Bucket(c, k) !in g.torn { SettledBeforeCut(c, s, g, k); }
    }
    forall k, n | Managed(c, k) && Bucket(c, k) in chunk ensures CopyProgress(c, o, s'.task, s'.data, g'.m, k, n) {
      var was, will := Own(c, o.prev, Bucket(c, k)), Own(c, o.next, Bucket(c, k));
      if n in will && n !in was {
        assert n in Elems(will) - Elems(was);
        assert CopyJob(First(was), n, k.coll) in CopyJobs(c, o, chunk);
      }
    }
    assert TornOk(c, s', g') && ChunkOk(c, s', g');
    TornGrows(c, s, g, s', g');
    assert TaskOk(c, s', g');
  }

  lemma {:induction false} TornGrows(c: Conf, s: State, g: Ghost, s': State, g': Ghost)
    requires GateInv(c, s) && Settled(c, s, g) && ClientsOk(c, s, g) && NoRivals(s)
    requires s' == s.(task := s'.task) && g'.m == g.m && g.torn <= g'.torn
    requires forall id :: id in s.ops ==> Bucket(c, s.ops[id].key) !in g'.torn - g.torn
    ensures GateInv(c, s') && Settled(c, s', g') && ClientsOk(c, s', g') && NoRivals(s')
  {
    forall k, n | Managed(c, k) && Bucket(c, k) !in g'.torn ensures SlotOk(c, s', g', k, n) {
      assert SlotOk(c, s, g, k, n);
    }
    forall id | id in s'.ops ensures ClientOk(c, s', g', s'.ops[id]) {
      assert ClientOk(c, s, g, s.ops[id]);
    }
  }

  lemma {:induction false} ExportKeeps(c: Conf, s: State, g: Ghost, job: CopyJob)
    requires Inv(c, s, g) && TaskGuard(c, s, ExportJob(job))
    ensures Inv(c, TaskStep(c, s, ExportJob(job)), g)
  {
    var s' := TaskStep(c, s, ExportJob(job));
    var o := s.overlay.value;
    SawNothing(c, s, g, s');
    QuietKeeps(c, s, g, s');
    forall k, n | Managed(c, k) && Bucket(c, k) in s'.task.chunk
      ensures CopyProgress(c, o, s'.task, s'.data, g.m, k, n)
    {
      assert CopyProgress(c, o, s.task, s.data, g.m, k, n);
    }
    assert TornOk(c, s', g) && ChunkOk(c, s', g);
    assert TaskOk(c, s', g);
  }

  // ---------------------------------------------------------------- copying

  lemma {:induction false} SlotAfterImport(data: map<Loc, Value>, to: Node, entries: map<Key, Value>, n: Node, k: Key)
    ensures Slot(Import(data, to, entries), n, k)
            == if n == to && k in entries then Some(entries[k]) else Slot(data, n, k)
  {
    if k in entries { assert Loc(to, k) in set k' | k' in entries :: Loc(to, k'); }
  }

  /** The data of untorn buckets is untouched. */
  lemma {:induction false} UntornKeeps(c: Conf, s: State, g: Ghost, s': State)
    requires GateInv(c, s) && Settled(c, s, g) && ClientsOk(c, s, g) && NoRivals(s)
    requires s' == s.(data := s'.data, task := s'.task)
    requires forall n, k :: Bucket(c, k) !in g.torn ==> Slot(s'.data, n, k) == Slot(s.data, n, k)
    ensures GateInv(c, s') && Settled(c, s', g) && ClientsOk(c, s', g) && NoRivals(s')
  {
    forall k, n | Managed(c, k) && Bucket(c, k) !in g.torn ensures SlotOk(c, s', g, k, n) {
      assert SlotOk(c, s, g, k, n);
    }
    forall id | id in s'.ops ensures ClientOk(c, s', g, s'.ops[id]) {
      assert ClientOk(c, s, g, s.ops[id]);
    }
  }

  /** What an import does to one key of the chunk: the target gets the map's value or stays as it is. */
  lemma {:induction false} ImportKey(c: Conf, o: Overlay, chunk: set<nat>, j: CopyJob, data: map<Loc, Value>,
                                     m: map<Key, Value>, k: Key, n: Node)
    requires Own(c, o.prev, Bucket(c, k)) != []
    requires BeforeCut(c, o, data, m, k) || AfterCut(c, o, data, m, k)
    ensures var d := Import(data, j.to, Export(c, o, chunk, j, data));
            var travels := n == j.to && k.coll == j.coll && Travels(c, o, chunk, j, Bucket(c, k));
            && (!travels ==> Slot(d, n, k) == Slot(data, n, k))
            && (travels ==> Slot(d, n, k) == At(m, k))
  {
    var e := Export(c, o, chunk, j, data);
    SlotAfterImport(data, j.to, e, n, k);
    ExportAt(c, o, chunk, j, data, k);
    assert k in e <==> At(e, k).Some?;
    assert j.from == First(Own(c, o.prev, Bucket(c, k))) ==> j.from in Own(c, o.prev, Bucket(c, k));
  }

  lemma {:induction false} ImportKeeps(c: Conf, s: State, g: Ghost)
    requires Lawful(c) && Inv(c, s, g) && TaskGuard(c, s, ImportHeld)
    ensures Inv(c, TaskStep(c, s, ImportHeld), g)
  {
    var s' := TaskStep(c, s, ImportHeld);
    var o, chunk, j := s.overlay.value, s.task.chunk, s.task.held.value.job;
    forall n, k | Bucket(c, k) !in g.torn ensures Slot(s'.data, n, k) == Slot(s.data, n, k) {
      SlotAfterImport(s.data, j.to, s.task.held.value.entries, n, k);
      ExportAt(c, o, chunk, j, s.data, k);
    }
    UntornKeeps(c, s, g, s');
    ImportTorn(c, s, g);
    assert TaskOk(c, s', g);
  }

  lemma {:induction false} ImportTorn(c: Conf, s: State, g: Ghost)
    requires Lawful(c) && TornOk(c, s, g) && ChunkOk(c, s, g) && TaskOk(c, s, g) && TaskGuard(c, s, ImportHeld)
    ensures TornOk(c, TaskStep(c, s, ImportHeld), g) && ChunkOk(c, TaskStep(c, s, ImportHeld), g)
  {
    var s' := TaskStep(c, s, ImportHeld);
    var o, chunk, j := s.overlay.value, s.task.chunk, s.task.held.value.job;
    forall k | Managed(c, k) && Bucket(c, k) in g.torn
      ensures BeforeCut(c, o, s'.data, g.m, k) || AfterCut(c, o, s'.data, g.m, k)
      ensures Bucket(c, k) in chunk ==> forall n :: CopyProgress(c, o, s'.task, s'.data, g.m, k, n)
    {
      OwnFacts(c, o.prev, Bucket(c, k));
      forall n
        ensures var travels := n == j.to && k.coll == j.coll && Travels(c, o, chunk, j, Bucket(c, k));
                && (!travels ==> Slot(s'.data, n, k) == Slot(s.data, n, k))
                && (travels ==> Slot(s'.data, n, k) == At(g.m, k))
      {
        ImportKey(c, o, chunk, j, s.data, g.m, k, n);
      }
      if BeforeCut(c, o, s.data, g.m, k) {
        assert BeforeCut(c, o, s'.data, g.m, k);
      } else {
        assert AfterCut(c, o, s'.data, g.m, k);
      }
      if Bucket(c, k) in chunk {
        forall n ensures CopyProgress(c, o, s'.task, s'.data, g.m, k, n) {
          assert CopyProgress(c, o, s.task, s.data, g.m, k, n);
        }
      }
    }
  }

  /** With every copy made, the new owners of a chunk are complete. */
  lemma {:induction false} CopiedIsAfterCut(c: Conf, s: State, g: Ghost, k: Key)
    requires TornOk(c, s, g) && ChunkOk(c, s, g) && TaskOk(c, s, g) && TaskGuard(c, s, CutOver)
    requires Managed(c, k) && Bucket(c, k) in s.task.chunk
    ensures AfterCut(c, s.overlay.value, s.data, g.m, k)
  {
    var o := s.overlay.value;
    var was, will := Own(c, o.prev, Bucket(c, k)), Own(c, o.next, Bucket(c, k));
    if BeforeCut(c, o, s.data, g.m, k) {
      forall n
        ensures if n in will || n in was then Slot(s.data, n, k) == At(g.m, k) else Slot(s.data, n, k) == None
      {
        assert CopyProgress(c, o, s.task, s.data, g.m, k, n);
      }
    }
  }

  lemma {:induction false} CutOverKeeps(c: Conf, s: State, g: Ghost)
    requires Inv(c, s, g) && TaskGuard(c, s, CutOver)
    ensures Inv(c, TaskStep(c, s, CutOver), g)
  {
    var s' := TaskStep(c, s, CutOver);
    var o, o', chunk := s.overlay.value, s'.overlay.value, s.task.chunk;
    SawNothing(c, s, g, s');
    QuietKeeps(c, s, g, s');
    forall k | Managed(c, k) && Bucket(c, k) in chunk
      ensures AfterCut(c, o', s'.data, g.m, k) && forall n :: DropProgress(c, o', s'.task, s'.data, k, n)
    {
      CopiedIsAfterCut(c, s, g, k);
      forall n ensures DropProgress(c, o', s'.task, s'.data, k, n) {
        var was, will := Own(c, o.prev, Bucket(c, k)), Own(c, o.next, Bucket(c, k));
        if n in was && n !in will {
          assert n in Elems(was) - Elems(will);
          assert DropJob(n, k.coll) in DropJobs(c, o, chunk);
        }
      }
    }
    assert TornOk(c, s', g) && ChunkOk(c, s', g);
    assert TaskOk(c, s', g);
  }

  // ---------------------------------------------------------------- dropping

  lemma {:induction false} SlotAfterDrop(c: Conf, o: Overlay, chunk: set<nat>, j: DropJob, data: map<Loc, Value>,
                                         n: Node, k: Key)
    ensures Slot(DropBuckets(c, o, chunk, j, data), n, k) ==
            if n == j.node && k.coll == j.coll && Goes(c, o, chunk, j, Bucket(c, k)) then None else Slot(data, n, k)
  {}

  lemma {:induction false} DropKeeps(c: Conf, s: State, g: Ghost, j: DropJob)
    requires Inv(c, s, g) && TaskGuard(c, s, DropOne(j))
    ensures Inv(c, TaskStep(c, s, DropOne(j)), g)
  {
    var s' := TaskStep(c, s, DropOne(j));
    var o, chunk := s.overlay.value, s.task.chunk;
    forall n, k ensures Slot(s'.data, n, k) ==
                        if n == j.node && k.coll == j.coll && Goes(c, o, chunk, j, Bucket(c, k))
                        then None else Slot(s.data, n, k)
    {
      SlotAfterDrop(c, o, chunk, j, s.data, n, k);
    }
    UntornKeeps(c, s, g, s');
    DropTorn(c, s, g, j);
    assert TaskOk(c, s', g);
  }

  lemma {:induction false} DropTorn(c: Conf, s: State, g: Ghost, j: DropJob)
    requires TornOk(c, s, g) && ChunkOk(c, s, g) && TaskOk(c, s, g) && TaskGuard(c, s, DropOne(j))
    ensures TornOk(c, TaskStep(c, s, DropOne(j)), g) && ChunkOk(c, TaskStep(c, s, DropOne(j)), g)
  {
    var s' := TaskStep(c, s, DropOne(j));
    var o, chunk := s.overlay.value, s.task.chunk;
    forall k | Managed(c, k) && Bucket(c, k) in g.torn
      ensures BeforeCut(c, o, s'.data, g.m, k) || AfterCut(c, o, s'.data, g.m, k)
      ensures Bucket(c, k) in chunk ==>
                AfterCut(c, o, s'.data, g.m, k) && forall n :: DropProgress(c, o, s'.task, s'.data, k, n)
    {
      forall n ensures Slot(s'.data, n, k) ==
                       if n == j.node && k.coll == j.coll && Goes(c, o, chunk, j, Bucket(c, k))
                       then None else Slot(s.data, n, k)
      {
        SlotAfterDrop(c, o, chunk, j, s.data, n, k);
      }
      if Bucket(c, k) in chunk {
        assert AfterCut(c, o, s.data, g.m, k);
        assert AfterCut(c, o, s'.data, g.m, k);
        forall n ensures DropProgress(c, o, s'.task, s'.data, k, n) {
          assert DropProgress(c, o, s.task, s.data, k, n);
        }
      } else {
        assert BeforeCut(c, o, s.data, g.m, k) ==> BeforeCut(c, o, s'.data, g.m, k);
        assert AfterCut(c, o, s.data, g.m, k) ==> AfterCut(c, o, s'.data, g.m, k);
      }
    }
  }

  /** A finished chunk sits on exactly its new owners, and goes back to normal traffic. */
  lemma {:induction false} UnfreezeKeeps(c: Conf, s: State, g: Ghost)
    requires Inv(c, s, g) && TaskGuard(c, s, Unfreeze)
    ensures Inv(c, TaskStep(c, s, Unfreeze), GhostStep(g, s, Unfreeze))
  {
    var s', g' := TaskStep(c, s, Unfreeze), GhostStep(g, s, Unfreeze);
    var chunk := s.task.chunk;
    forall k, n | Managed(c, k) && Bucket(c, k) !in g'.torn ensures SlotOk(c, s', g', k, n) {
      if Bucket(c, k) in chunk {
        var o := s.overlay.value;
        assert AfterCut(c, o, s.data, g.m, k) && DropProgress(c, o, s.task, s.data, k, n);
      } else {
        assert SlotOk(c, s, g, k, n);
      }
    }
    forall id | id in s'.ops ensures ClientOk(c, s', g', s'.ops[id]) {
      assert ClientOk(c, s, g, s.ops[id]);
    }
    assert forall b: nat :: Count(s'.gate, b) == Count(s.gate, b);
    assert TornOk(c, s', g') && ChunkOk(c, s', g');
    assert TaskOk(c, s', g');
  }

  lemma {:induction false} SaveKeeps(c: Conf, s: State, g: Ghost)
    requires Inv(c, s, g) && TaskGuard(c, s, SaveRecord)
    ensures Inv(c, TaskStep(c, s, SaveRecord), g)
  {
    var s' := TaskStep(c, s, SaveRecord);
    SawNothing(c, s, g, s');
    QuietKeeps(c, s, g, s');
    assert TornOk(c, s', g) && ChunkOk(c, s', g);
    assert TaskOk(c, s', g);
  }

  lemma {:induction false} FinishChunksKeeps(c: Conf, s: State, g: Ghost)
    requires Inv(c, s, g) && TaskGuard(c, s, FinishChunks)
    ensures Inv(c, TaskStep(c, s, FinishChunks), g)
  {
    var s' := TaskStep(c, s, FinishChunks);
    SawNothing(c, s, g, s');
    QuietKeeps(c, s, g, s');
    assert g.torn == {};
    assert TornOk(c, s', g) && ChunkOk(c, s', g);
    assert TaskOk(c, s', g);
  }

  // ---------------------------------------------------------------- committing

  /** Committing the membership and removing the overlay route every bucket as before. */
  lemma {:induction false} CommitRoutesAlike(c: Conf, s: State, g: Ghost, b: nat)
    requires Lawful(c) && TaskOk(c, s, g) && s.task.Committing? && b < c.buckets
    ensures Route(c, CommitStep(c, s), b) == Route(c, s, b)
  {
    match s.overlay
    case None => OwnListing(c, s.nodes, s.task.next, b);
    case Some(o) => if b !in o.migrated { OwnStays(c, o.prev, o.next, b); }
  }

  lemma {:induction false} CommitKeeps(c: Conf, s: State, g: Ghost)
    requires Lawful(c) && Inv(c, s, g) && TaskGuard(c, s, Commit)
    ensures Inv(c, TaskStep(c, s, Commit), g)
  {
    var s' := TaskStep(c, s, Commit);
    forall b: nat | b < c.buckets ensures Route(c, s', b) == Route(c, s, b) {
      CommitRoutesAlike(c, s, g, b);
    }
    if s.overlay.Some? && s'.overlay.Some? { SawNothing(c, s, g, s'); }
    QuietKeeps(c, s, g, s');
    assert TornOk(c, s', g) && ChunkOk(c, s', g);
    CommitTaskOk(c, s, g);
  }

  lemma {:induction false} CommitTaskOk(c: Conf, s: State, g: Ghost)
    requires Lawful(c) && TaskOk(c, s, g) && s.task.Committing?
    ensures TaskOk(c, CommitStep(c, s), g)
  {
    NoDupCard(s.nodes);
    NoDupCard(s.task.next);
    if s.overlay.Some? { NoDupCard(s.overlay.value.prev); }
  }

  ghost predicate ChunkStep(e: Step) {
    e.Freeze? || e.FinishDrain? || e.ExportJob? || e.ImportHeld? || e.CutOver? || e.DropOne? || e.Unfreeze?
  }

  lemma {:induction false} ChunkStepKeeps(c: Conf, s: State, g: Ghost, e: Step)
    requires Lawful(c) && Inv(c, s, g) && TaskGuard(c, s, e) && ChunkStep(e)
    ensures Inv(c, TaskStep(c, s, e), GhostStep(g, s, e))
  {
    match e
    case Freeze(chunk) => FreezeKeeps(c, s, g, chunk);
    case FinishDrain => FinishDrainKeeps(c, s, g);
    case ExportJob(job) => ExportKeeps(c, s, g, job);
    case ImportHeld => ImportKeeps(c, s, g);
    case CutOver => CutOverKeeps(c, s, g);
    case DropOne(j) => DropKeeps(c, s, g, j);
    case Unfreeze => UnfreezeKeeps(c, s, g);
  }

  /** Every migration step keeps the invariant, with the same plain map before and after. */
  lemma {:induction false} TaskStepKeeps(c: Conf, s: State, g: Ghost, e: Step)
    requires Lawful(c) && Inv(c, s, g) && TaskGuard(c, s, e)
    ensures Inv(c, TaskStep(c, s, e), GhostStep(g, s, e)) && GhostStep(g, s, e).m == g.m
  {
    if ChunkStep(e) {
      ChunkStepKeeps(c, s, g, e);
    } else {
      match e
      case AddClient(n) => AddClientKeeps(c, s, g, n);
      case Start(prev, next) => StartKeeps(c, s, g, prev, next);
      case Resume => ResumeKeeps(c, s, g);
      case SaveRecord => SaveKeeps(c, s, g);
      case FinishChunks => FinishChunksKeeps(c, s, g);
      case Commit => CommitKeeps(c, s, g);
      case Abort => AbortKeeps(c, s, g);
    }
  }
}
