/** Runs of the smallest cluster that has something to move: one replica, one collection, two nodes. */
module SmallRuns {
  import opened Seqs
  import opened Replication
  import opened Values
  import opened Gates
  import opened Migration
  import opened MigrationInvariant
  import opened MigrationClients
  import opened MigrationTheorems
  import opened MigrationLapses
  import opened Ranking
  import opened Placement
  import opened ClusterPlacement

  ghost predicate Small(c: Conf, p: Node, q: Node, k: Key) {
    && Lawful(c) && c.target == 1 && c.colls == {k.coll} && Managed(c, k)
    && p != q && p in c.universe && q in c.universe
  }

  lemma {:induction false} SoleOwner(c: Conf, p: Node, b: nat)
    requires Lawful(c) && c.target == 1 && p in c.universe
    ensures Membership(c, [p]) && Own(c, [p], b) == [p] && c.owners([p], 1, b) == [p]
  {
    assert Elems([p]) == {p};
    OwnFacts(c, [p], b);
    var o := Own(c, [p], b);
    assert o[0] in Elems(o);
  }

  // ---------------------------------------------------------------- what there is to move

  function Job(p: Node, q: Node, k: Key): CopyJob { CopyJob(p, q, k.coll) }

  function Gone(p: Node, k: Key): DropJob { DropJob(p, k.coll) }

  lemma {:induction false} SmallJobs(c: Conf, p: Node, q: Node, k: Key, done: set<nat>)
    requires Small(c, p, q, k)
    ensures var o, b := Overlay([p], [q], done), Bucket(c, k);
            && CopyJobs(c, o, {b}) == {Job(p, q, k)} && DropJobs(c, o, {b}) == {Gone(p, k)}
            && Travels(c, o, {b}, Job(p, q, k), b) && Goes(c, o, {b}, Gone(p, k), b)
            && b in Moving(c, [p], [q])
  {
    var o, b := Overlay([p], [q], done), Bucket(c, k);
    SoleOwner(c, p, b);
    SoleOwner(c, q, b);
    assert Elems([p]) == {p} && Elems([q]) == {q};
    assert q in Elems(Own(c, o.next, b)) - Elems(Own(c, o.prev, b));
    assert Job(p, q, k) in CopyJobs(c, o, {b});
    forall j | j in CopyJobs(c, o, {b}) ensures j == Job(p, q, k) {}
    assert p in Elems(Own(c, o.prev, b)) - Elems(Own(c, o.next, b));
    assert Gone(p, k) in DropJobs(c, o, {b});
    forall j | j in DropJobs(c, o, {b}) ensures j == Gone(p, k) {}
  }

  function One(p: Node, k: Key, v: Value): map<Loc, Value> { map[Loc(p, k) := v] }

  function Both(p: Node, q: Node, k: Key, v: Value): map<Loc, Value> { map[Loc(p, k) := v, Loc(q, k) := v] }

  /** What an export takes from the old owner: the key if it is there. */
  ghost predicate Takes(c: Conf, p: Node, q: Node, k: Key, d: map<Loc, Value>, x: map<Key, Value>) {
    Export(c, Overlay([p], [q], {}), {Bucket(c, k)}, Job(p, q, k), d) == x
  }

  /** What a drop leaves. */
  ghost predicate Leaves(c: Conf, p: Node, q: Node, k: Key, d: map<Loc, Value>, d': map<Loc, Value>) {
    DropBuckets(c, Overlay([p], [q], {Bucket(c, k)}), {Bucket(c, k)}, Gone(p, k), d) == d'
  }

  lemma {:induction false} TakesKey(c: Conf, p: Node, q: Node, k: Key, v: Value)
    requires Small(c, p, q, k)
    ensures Takes(c, p, q, k, One(p, k, v), map[k := v])
  {
    var o, b := Overlay([p], [q], {}), Bucket(c, k);
    SmallJobs(c, p, q, k, {});
    var one := One(p, k, v);
    assert (set l | l in one && l.node == p :: l.key) == {k};
    var x := Export(c, o, {b}, Job(p, q, k), one);
    assert x.Keys == {k} && x[k] == v;
  }

  lemma {:induction false} TakesNothing(c: Conf, p: Node, q: Node, k: Key, v: Value)
    requires p != q
    ensures Takes(c, p, q, k, One(q, k, v), map[])
  {
    var one := One(q, k, v);
    assert (set l | l in one && l.node == p :: l.key) == {};
    assert Export(c, Overlay([p], [q], {}), {Bucket(c, k)}, Job(p, q, k), one).Keys == {};
  }

  lemma {:induction false} ImportsKey(p: Node, q: Node, k: Key, v: Value)
    ensures Import(One(p, k, v), q, map[k := v]) == Both(p, q, k, v)
  {
    assert (set x | x in map[k := v] :: Loc(q, x)) == {Loc(q, k)};
  }

  lemma {:induction false} ImportsNothing(q: Node, d: map<Loc, Value>)
    ensures Import(d, q, map[]) == d
  {
    var none: map<Key, Value> := map[];
    assert (set x | x in none :: Loc(q, x)) == {};
  }

  lemma {:induction false} LeavesKey(c: Conf, p: Node, q: Node, k: Key, v: Value, d: map<Loc, Value>)
    requires Small(c, p, q, k) && (d == Both(p, q, k, v) || d == One(q, k, v))
    ensures Leaves(c, p, q, k, d, One(q, k, v))
  {
    var o, b := Overlay([p], [q], {Bucket(c, k)}), Bucket(c, k);
    SmallJobs(c, p, q, k, {b});
    var left := DropBuckets(c, o, {b}, Gone(p, k), d);
    assert left.Keys == {Loc(q, k)} && left[Loc(q, k)] == v;
  }

  // ---------------------------------------------------------------- states

  /** The cluster of `p` alone, `q` reachable, nothing going on. */
  function Calm(p: Node, q: Node, d: map<Loc, Value>): State {
    State(d, [p], 1, {p, q}, None, Open, map[], None, Idle)
  }

  /** On the way from `p` to `q`, nothing journalled as done. */
  function Mid(p: Node, q: Node, d: map<Loc, Value>, migrated: set<nat>, frozen: set<nat>, t: Task): State {
    State(d, [p], 1, {p, q}, Some(Overlay([p], [q], migrated)), Gate(frozen, map[]), map[],
          Some(Record([p], [q], {})), t)
  }

  /** Bucket `b` is moved and journalled. */
  function Moved(p: Node, q: Node, d: map<Loc, Value>, b: nat, t: Task): State {
    State(d, [p], 1, {p, q}, Some(Overlay([p], [q], {b})), Open, map[], Some(Record([p], [q], {b})), t)
  }

  // ---------------------------------------------------------------- client steps

  /** Steps that no client answer depends on. */
  ghost predicate Silent(es: seq<Step>) { forall i :: 0 <= i < |es| ==> !es[i].AtPrimary? }

  lemma {:induction false} PlainSilent(es: seq<Step>, fs: seq<Step>)
    requires Silent(fs)
    ensures Plain(es + fs) == Plain(es)
    decreases |fs|
  {
    if fs == [] {
      assert es + fs == es;
    } else {
      var n := |fs| - 1;
      PlainSilent(es, fs[..n]);
      assert (es + fs)[..|es| + n] == es + fs[..n];
    }
  }

  /** One operation after silent steps. */
  lemma {:induction false} PlainOp(es: seq<Step>, id: nat, k: Key, op: Op, res: Result)
    ensures At(Plain(es + OpSteps(id, k, op, res)), k) == Apply(op, At(Plain(es), k)).0
  {
    var fs, e := [Step.Enter(id, k, op)] + [ReadOverlay(id)], AtPrimary(id, k, op, res);
    PlainSilent(es, fs);
    assert (es + fs + [e])[..|es + fs|] == es + fs;
    PlainSilent(es + fs + [e], [Step.Leave(id)]);
    assert es + OpSteps(id, k, op, res) == es + fs + [e] + [Step.Leave(id)];
  }

  /** A put into the empty cluster. */
  lemma {:induction false} PutPhase(c: Conf, lapse: Lapse, p: Node, q: Node, k: Key, v: Value) returns (es: seq<Step>)
    requires Small(c, p, q, k)
    ensures From(c, lapse, Calm(p, q, map[]))(es, Calm(p, q, One(p, k, v))) && At(Plain(es), k) == Some(v)
    ensures Init(c, Calm(p, q, map[]))
  {
    var s0, b := Calm(p, q, map[]), Bucket(c, k);
    SoleOwner(c, p, b);
    assert Elems([p]) == {p};
    LeadsNowhere(c, lapse, s0);
    GetInside(c, lapse, s0, [], s0, 1, k, Put(v));
    var x := Running(k, Put(v), [p], 0, None);
    var s1, es1 := GotInside(s0, 1, x, b), [] + EntrySteps(1, k, Put(v));
    var e2 := AtPrimary(1, k, Put(v), Done);
    var s2 := s1.(data := One(p, k, v), ops := s1.ops[1 := x.(pos := 1, res := Some(Done))]);
    LeadsClient(c, lapse, s0, es1, s1, e2, s2);
    var s3 := Calm(p, q, One(p, k, v));
    assert s2.ops - {1} == map[] && Gates.Left(Entered(Open, b), b) == Open;
    LeadsClient(c, lapse, s0, es1 + [e2], s2, Step.Leave(1), s3);
    es := es1 + [e2] + [Step.Leave(1)];
    assert (es1 + [e2])[..|es1|] == es1;
    PlainSilent(es1 + [e2], [Step.Leave(1)]);
  }

  // ---------------------------------------------------------------- migration steps

  lemma {:induction false} BeginMove(c: Conf, lapse: Lapse, p: Node, q: Node, k: Key, d: map<Loc, Value>, s0: State,
                                     es: seq<Step>)
    requires Small(c, p, q, k) && From(c, lapse, s0)(es, Calm(p, q, d))
    ensures From(c, lapse, s0)(es + [Start([p], [q])], Mid(p, q, d, {}, {}, Between({})))
  {
    SoleOwner(c, q, 0);
    assert Elems([p]) == {p} && Elems([q]) == {q};
    LeadsTask(c, lapse, s0, es, Calm(p, q, d), Start([p], [q]), Mid(p, q, d, {}, {}, Between({})));
  }

  lemma {:induction false} DrainMove(c: Conf, lapse: Lapse, p: Node, q: Node, k: Key, d: map<Loc, Value>, s0: State,
                                     es: seq<Step>)
    requires Small(c, p, q, k) && From(c, lapse, s0)(es, Mid(p, q, d, {}, {}, Between({})))
    ensures var b := Bucket(c, k);
            From(c, lapse, s0)(es + [Step.Freeze({b})] + [FinishDrain],
              Mid(p, q, d, {}, {b}, Copying({}, {b}, {Job(p, q, k)}, None)))
  {
    var b := Bucket(c, k);
    SmallJobs(c, p, q, k, {});
    var s1 := Mid(p, q, d, {}, {b}, Draining({}, {b}));
    assert {} + {b} == {b};
    LeadsTask(c, lapse, s0, es, Mid(p, q, d, {}, {}, Between({})), Step.Freeze({b}), s1);
    LeadsTask(c, lapse, s0, es + [Step.Freeze({b})], s1, FinishDrain,
              Mid(p, q, d, {}, {b}, Copying({}, {b}, {Job(p, q, k)}, None)));
  }

  lemma {:induction false} CopyMove(c: Conf, lapse: Lapse, p: Node, q: Node, k: Key, d: map<Loc, Value>,
                                    x: map<Key, Value>, s0: State, es: seq<Step>)
    requires Small(c, p, q, k) && Takes(c, p, q, k, d, x)
    requires var b := Bucket(c, k);
             From(c, lapse, s0)(es, Mid(p, q, d, {}, {b}, Copying({}, {b}, {Job(p, q, k)}, None)))
    ensures var b := Bucket(c, k);
            From(c, lapse, s0)(es + [ExportJob(Job(p, q, k))] + [ImportHeld],
              Mid(p, q, Import(d, q, x), {}, {b}, Copying({}, {b}, {}, None)))
  {
    var b, j := Bucket(c, k), Job(p, q, k);
    var s1 := Mid(p, q, d, {}, {b}, Copying({}, {b}, {}, Some(Exported(j, x))));
    assert {j} - {j} == {};
    LeadsTask(c, lapse, s0, es, Mid(p, q, d, {}, {b}, Copying({}, {b}, {j}, None)), ExportJob(j), s1);
    LeadsTask(c, lapse, s0, es + [ExportJob(j)], s1, ImportHeld,
              Mid(p, q, Import(d, q, x), {}, {b}, Copying({}, {b}, {}, None)));
  }

  lemma {:induction false} DropMove(c: Conf, lapse: Lapse, p: Node, q: Node, k: Key, d: map<Loc, Value>,
                                    d': map<Loc, Value>, s0: State, es: seq<Step>)
    requires Small(c, p, q, k) && Leaves(c, p, q, k, d, d')
    requires var b := Bucket(c, k); From(c, lapse, s0)(es, Mid(p, q, d, {}, {b}, Copying({}, {b}, {}, None)))
    ensures var b := Bucket(c, k);
            From(c, lapse, s0)(es + [CutOver] + [DropOne(Gone(p, k))], Mid(p, q, d', {b}, {b}, Dropping({}, {b}, {})))
  {
    var b, g := Bucket(c, k), Gone(p, k);
    SmallJobs(c, p, q, k, {});
    var s1 := Mid(p, q, d, {b}, {b}, Dropping({}, {b}, {g}));
    assert {} + {b} == {b} && {g} - {g} == {};
    LeadsTask(c, lapse, s0, es, Mid(p, q, d, {}, {b}, Copying({}, {b}, {}, None)), CutOver, s1);
    LeadsTask(c, lapse, s0, es + [CutOver], s1, DropOne(g), Mid(p, q, d', {b}, {b}, Dropping({}, {b}, {})));
  }

  lemma {:induction false} ThawMove(c: Conf, lapse: Lapse, p: Node, q: Node, d: map<Loc, Value>, b: nat, s0: State,
                                    es: seq<Step>)
    requires From(c, lapse, s0)(es, Mid(p, q, d, {b}, {b}, Dropping({}, {b}, {})))
    ensures From(c, lapse, s0)(es + [Step.Unfreeze] + [SaveRecord], Moved(p, q, d, b, Between({b})))
  {
    var s1 := Mid(p, q, d, {b}, {}, Unfrozen({}, {b}));
    assert {b} - {b} == {} && {} + {b} == {b};
    LeadsTask(c, lapse, s0, es, Mid(p, q, d, {b}, {b}, Dropping({}, {b}, {})), Step.Unfreeze, s1);
    LeadsTask(c, lapse, s0, es + [Step.Unfreeze], s1, SaveRecord, Moved(p, q, d, b, Between({b})));
  }

  /** The steps of one chunk up to its drop. */
  function ChunkSteps(p: Node, q: Node, k: Key, b: nat): seq<Step> {
    [Step.Freeze({b})] + [FinishDrain] + [ExportJob(Job(p, q, k))] + [ImportHeld] + [CutOver] + [DropOne(Gone(p, k))]
  }

  /** A whole chunk up to its drop, whatever the nodes hold. */
  lemma {:induction false} ChunkMove(c: Conf, lapse: Lapse, p: Node, q: Node, k: Key, d: map<Loc, Value>,
                                     x: map<Key, Value>, d': map<Loc, Value>, s0: State, es: seq<Step>)
    requires Small(c, p, q, k) && Takes(c, p, q, k, d, x) && Leaves(c, p, q, k, Import(d, q, x), d')
    requires From(c, lapse, s0)(es, Mid(p, q, d, {}, {}, Between({})))
    ensures var b := Bucket(c, k);
            From(c, lapse, s0)(es + ChunkSteps(p, q, k, b), Mid(p, q, d', {b}, {b}, Dropping({}, {b}, {})))
  {
    var b, j := Bucket(c, k), Job(p, q, k);
    var e1, e2, e3, e4, e5, e6 := Step.Freeze({b}), FinishDrain, ExportJob(j), ImportHeld, CutOver, DropOne(Gone(p, k));
    DrainMove(c, lapse, p, q, k, d, s0, es);
    CopyMove(c, lapse, p, q, k, d, x, s0, es + [e1] + [e2]);
    DropMove(c, lapse, p, q, k, Import(d, q, x), d', s0, es + [e1] + [e2] + [e3] + [e4]);
    assert es + ChunkSteps(p, q, k, b) == es + [e1] + [e2] + [e3] + [e4] + [e5] + [e6];
  }

  lemma {:induction false} ChunkSilent(p: Node, q: Node, k: Key, b: nat)
    ensures Silent(ChunkSteps(p, q, k, b)) && Silent([Start([p], [q])] + ChunkSteps(p, q, k, b))
  {}

  /** The key moves from the old owner to the new one. */
  lemma {:induction false} KeyMoves(c: Conf, lapse: Lapse, p: Node, q: Node, k: Key, v: Value, s0: State, es: seq<Step>)
    requires Small(c, p, q, k) && From(c, lapse, s0)(es, Mid(p, q, One(p, k, v), {}, {}, Between({})))
    ensures var b := Bucket(c, k);
            From(c, lapse, s0)(es + ChunkSteps(p, q, k, b), Mid(p, q, One(q, k, v), {b}, {b}, Dropping({}, {b}, {})))
  {
    TakesKey(c, p, q, k, v);
    ImportsKey(p, q, k, v);
    LeavesKey(c, p, q, k, v, Both(p, q, k, v));
    ChunkMove(c, lapse, p, q, k, One(p, k, v), map[k := v], One(q, k, v), s0, es);
  }

  /** A key that only the new owner has is not taken, not overwritten and not dropped. */
  lemma {:induction false} KeyStays(c: Conf, lapse: Lapse, p: Node, q: Node, k: Key, v: Value, s0: State, es: seq<Step>)
    requires Small(c, p, q, k) && From(c, lapse, s0)(es, Mid(p, q, One(q, k, v), {}, {}, Between({})))
    ensures var b := Bucket(c, k);
            From(c, lapse, s0)(es + ChunkSteps(p, q, k, b), Mid(p, q, One(q, k, v), {b}, {b}, Dropping({}, {b}, {})))
  {
    TakesNothing(c, p, q, k, v);
    ImportsNothing(q, One(q, k, v));
    LeavesKey(c, p, q, k, v, One(q, k, v));
    ChunkMove(c, lapse, p, q, k, One(q, k, v), map[], One(q, k, v), s0, es);
  }

  /** A put, and its bucket moved up to the drop at the old owner. */
  lemma {:induction false} UpToDrop(c: Conf, lapse: Lapse, p: Node, q: Node, k: Key, v: Value) returns (es: seq<Step>)
    requires Small(c, p, q, k)
    ensures Init(c, Calm(p, q, map[])) && At(Plain(es), k) == Some(v)
    ensures var b := Bucket(c, k);
            From(c, lapse, Calm(p, q, map[]))(es, Mid(p, q, One(q, k, v), {b}, {b}, Dropping({}, {b}, {})))
  {
    var s0, b := Calm(p, q, map[]), Bucket(c, k);
    var es1 := PutPhase(c, lapse, p, q, k, v);
    BeginMove(c, lapse, p, q, k, One(p, k, v), s0, es1);
    KeyMoves(c, lapse, p, q, k, v, s0, es1 + [Start([p], [q])]);
    ChunkSilent(p, q, k, b);
    PlainSilent(es1, [Start([p], [q])] + ChunkSteps(p, q, k, b));
    es := es1 + [Start([p], [q])] + ChunkSteps(p, q, k, b);
    assert es == es1 + ([Start([p], [q])] + ChunkSteps(p, q, k, b));
  }

  /** The same, journalled, and then interrupted. */
  lemma {:induction false} UpToInterruption(c: Conf, lapse: Lapse, p: Node, q: Node, k: Key, v: Value)
    returns (es: seq<Step>)
    requires Small(c, p, q, k)
    ensures Init(c, Calm(p, q, map[])) && At(Plain(es), k) == Some(v)
    ensures From(c, lapse, Calm(p, q, map[]))(es, Moved(p, q, One(q, k, v), Bucket(c, k), Idle))
  {
    var s0, b, d := Calm(p, q, map[]), Bucket(c, k), One(q, k, v);
    var es1 := UpToDrop(c, lapse, p, q, k, v);
    ThawMove(c, lapse, p, q, d, b, s0, es1);
    var es2 := es1 + [Step.Unfreeze] + [SaveRecord];
    LeadsTask(c, lapse, s0, es2, Moved(p, q, d, b, Between({b})), Abort, Moved(p, q, d, b, Idle));
    es := es2 + [Abort];
    PlainSilent(es1, [Step.Unfreeze]);
    PlainSilent(es1 + [Step.Unfreeze], [SaveRecord]);
    PlainSilent(es2, [Abort]);
  }

  // ---------------------------------------------------------------- a wrong answer

  /** The last operation of a run answers otherwise than the plain map. */
  lemma {:induction false} WrongAnswer(es: seq<Step>, id: nat, k: Key, op: Op, res: Result)
    requires res != Apply(op, At(Plain(es), k)).1
    ensures !AnswersLikePlainMap(es + OpSteps(id, k, op, res))
  {
    var fs, e := [Step.Enter(id, k, op)] + [ReadOverlay(id)], AtPrimary(id, k, op, res);
    PlainSilent(es, fs);
    var all := es + OpSteps(id, k, op, res);
    assert all[..|es| + 2] == es + fs && all[|es| + 2] == e;
  }

  // ---------------------------------------------------------------- the real hashes

  /** A cluster of nodes "a" and "b" is such a cluster. */
  lemma {:induction false} ClusterIsSmall(c: Conf, k: Key)
    requires c == ClusterConf({"c"}, 1, map[], {"a", "b"}) && k == Key("c", "k")
    ensures Small(c, "a", "b", k)
  {
    HashOfA();
    HashOfB();
    PartitionerIsLawful({"c"}, 1, map[], {"a", "b"});
    assert Managed(c, k);
  }
}
