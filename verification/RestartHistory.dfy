/** What a restarted migration makes of a key, whatever clients do to it in between. */
module RestartHistory {
  import opened Seqs
  import opened Replication
  import opened Values
  import opened Gates
  import opened Migration
  import opened MigrationInvariant
  import opened MigrationClients
  import opened MigrationTask
  import opened MigrationTheorems
  import opened MigrationLapses
  import opened MigrationRestart

  // ---------------------------------------------------------------- histories

  /** The object at a key's primary after some steps, from what it was before. */
  ghost function Seen(es: seq<Step>, k: Key, o: Option<Value>): Option<Value> {
    if es == [] then o
    else
      var e, before := es[|es| - 1], Seen(es[..|es| - 1], k, o);
      if e.AtPrimary? && e.key == k then Apply(e.op, before).0 else before
  }

  /** The object at another replica once everything has reached it. */
  ghost function Followed(es: seq<Step>, k: Key, o: Option<Value>): Option<Value> {
    if es == [] then o
    else
      var e, before := es[|es| - 1], Followed(es[..|es| - 1], k, o);
      if e.AtPrimary? && e.key == k && Mutates(e.op) && Replicates(e.op, e.res) then ReplicaEffect(e.op, e.res, before)
      else before
  }

  lemma {:induction false} OneMore(es: seq<Step>, e: Step, k: Key, o: Option<Value>)
    ensures Seen(es + [e], k, o) == if e.AtPrimary? && e.key == k then Apply(e.op, Seen(es, k, o)).0 else Seen(es, k, o)
    ensures Followed(es + [e], k, o)
            == if e.AtPrimary? && e.key == k && Mutates(e.op) && Replicates(e.op, e.res)
               then ReplicaEffect(e.op, e.res, Followed(es, k, o)) else Followed(es, k, o)
  {
    assert (es + [e])[..|es|] == es;
  }

  // ---------------------------------------------------------------- before the key's turn

  /** The migration goes from `prev` to `next` and has not come to bucket `b`. */
  ghost predicate Waiting(u: State, prev: seq<Node>, next: seq<Node>, b: nat, k: Key) {
    && u.overlay.Some? && u.overlay.value.prev == prev && u.overlay.value.next == next && b !in u.overlay.value.migrated
    && u.journal.Some? && u.journal.value.prev == prev && u.journal.value.next == next && b !in u.journal.value.done
    && match u.task
       case Idle => true
       case Between(done) => b !in done
       case Draining(done, _) => b !in done
       case Copying(done, chunk, _, held) => b !in done + chunk && (held.Some? ==> k !in held.value.entries)
       case Dropping(done, chunk, _) => b !in done + chunk
       case Unfrozen(done, chunk) => b !in done + chunk
       case Committing(_, _) => false
  }

  /** The operations in flight on the key go to its old owners, and at most one of them mutates. */
  ghost predicate Routed(c: Conf, u: State, x: Case) {
    && GateInv(c, u) && NoRivals(u) && Elems(x.was) <= u.clients
    && forall id :: id in u.ops && u.ops[id].key == x.k ==>
         !u.ops[id].SawNoOverlay? && (u.ops[id].Running? ==> u.ops[id].route == x.was)
  }

  /** The operation has yet to reach the owner at position `i`. */
  ghost predicate Owing(y: Client, k: Key, i: nat) {
    y.Running? && y.key == k && Mutates(y.op) && 0 < y.pos <= i < |y.route|
  }

  /** What the owner at position `i` holds, or will hold after the operation that is still to reach it. */
  ghost predicate Follows(u: State, x: Case, es: seq<Step>, i: nat)
    requires i < |x.was|
  {
    var n := x.was[i];
    var now, held := Followed(es, x.k, Slot(x.d, n, x.k)), Slot(u.data, n, x.k);
    && (forall id :: id in u.ops && Owing(u.ops[id], x.k, i) ==>
          u.ops[id].res.Some? && ReplicaEffect(u.ops[id].op, u.ops[id].res.value, held) == now)
    && ((forall id :: id in u.ops ==> !Owing(u.ops[id], x.k, i)) ==> held == now)
  }

  ghost predicate DataOk(u: State, x: Case, es: seq<Step>)
    requires x.was != []
  {
    && Slot(u.data, x.was[0], x.k) == Seen(es, x.k, x.Source())
    && (forall i :: 0 < i < |x.was| ==> Follows(u, x, es, i))
    && (forall n :: n !in x.was ==> Slot(u.data, n, x.k) == Slot(x.d, n, x.k))
  }

  // ---------------------------------------------------------------- steps

  /** A step that no node notices as far as the key goes. */
  lemma {:induction false} Unnoticed(u: State, u': State, x: Case, es: seq<Step>, e: Step)
    requires x.was != [] && DataOk(u, x, es) && !(e.AtPrimary? && e.key == x.k && Mutates(e.op))
    requires forall n :: Slot(u'.data, n, x.k) == Slot(u.data, n, x.k)
    requires forall id, i :: id in u'.ops && Owing(u'.ops[id], x.k, i) ==>
               id in u.ops && Owing(u.ops[id], x.k, i)
               && u'.ops[id].op == u.ops[id].op && u'.ops[id].res == u.ops[id].res
    requires forall id, i :: id in u.ops && Owing(u.ops[id], x.k, i) ==> id in u'.ops && Owing(u'.ops[id], x.k, i)
    ensures DataOk(u', x, es + [e])
  {
    OneMore(es, e, x.k, x.Source());
    forall i | 0 < i < |x.was| ensures Follows(u', x, es + [e], i) {
      assert Follows(u, x, es, i);
      OneMore(es, e, x.k, Slot(x.d, x.was[i], x.k));
    }
  }

  lemma {:induction false} BookkeepingUnnoticed(c: Conf, u: State, x: Case, es: seq<Step>, e: Step)
    requires x.was != [] && DataOk(u, x, es) && Routed(c, u, x) && ClientGuard(c, u, e)
    requires e.Enter? || e.ReadOverlay? || e.ReadPartitioner? || e.Leave?
    ensures DataOk(ClientStep(c, u, e), x, es + [e])
  {
    Unnoticed(u, ClientStep(c, u, e), x, es, e);
  }

  lemma {:induction false} OtherKeyUnnoticed(c: Conf, u: State, x: Case, es: seq<Step>, e: Step)
    requires x.was != [] && DataOk(u, x, es) && ClientGuard(c, u, e) && (e.AtPrimary? || e.AtReplica?)
    requires u.ops[e.id].key != x.k
    ensures DataOk(ClientStep(c, u, e), x, es + [e])
  {
    Unnoticed(u, ClientStep(c, u, e), x, es, e);
  }

  lemma {:induction false} ReadUnnoticed(c: Conf, u: State, x: Case, es: seq<Step>, e: Step)
    requires x.was != [] && DataOk(u, x, es) && ClientGuard(c, u, e) && e.AtPrimary? && e.key == x.k && !Mutates(e.op)
    ensures DataOk(ClientStep(c, u, e), x, es + [e])
  {
    Unnoticed(u, ClientStep(c, u, e), x, es, e);
  }

  lemma {:induction false} PrimaryWritten(c: Conf, u: State, x: Case, es: seq<Step>, e: Step)
    requires x.was != [] && NoDup(x.was) && DataOk(u, x, es) && Routed(c, u, x) && ClientGuard(c, u, e)
    requires e.AtPrimary? && e.key == x.k && Mutates(e.op)
    ensures DataOk(ClientStep(c, u, e), x, es + [e])
  {
    var u' := ClientStep(c, u, e);
    OneMore(es, e, x.k, x.Source());
    forall i | 0 < i < |x.was| ensures Follows(u', x, es + [e], i) {
      OneMore(es, e, x.k, Slot(x.d, x.was[i], x.k));
      assert Follows(u, x, es, i);
      assert forall id :: id in u.ops ==> !Owing(u.ops[id], x.k, i);
      SlotAfterWrite(u.data, x.was[0], x.k, Apply(e.op, Slot(u.data, x.was[0], x.k)).0, x.was[i], x.k);
      if !Replicates(e.op, e.res) { assert !Owing(u'.ops[e.id], x.k, i); } else { assert Owing(u'.ops[e.id], x.k, i); }
    }
  }

  lemma {:induction false} ReplicaWritten(c: Conf, u: State, x: Case, es: seq<Step>, e: Step)
    requires x.was != [] && NoDup(x.was) && DataOk(u, x, es) && Routed(c, u, x) && ClientGuard(c, u, e)
    requires e.AtReplica? && u.ops[e.id].key == x.k
    ensures DataOk(ClientStep(c, u, e), x, es + [e])
  {
    var u', y := ClientStep(c, u, e), u.ops[e.id];
    var n := x.was[y.pos];
    assert n in Elems(x.was);
    OneMore(es, e, x.k, x.Source());
    forall i | 0 < i < |x.was| ensures Follows(u', x, es + [e], i) {
      OneMore(es, e, x.k, Slot(x.d, x.was[i], x.k));
      assert Follows(u, x, es, i);
      SlotAfterWrite(u.data, n, x.k, ReplicaEffect(y.op, y.res.value, Slot(u.data, n, x.k)), x.was[i], x.k);
      ReplicaTurn(u, u', x, es, e.id, i);
    }
  }

  /** One replica's part of that. */
  lemma {:induction false} ReplicaTurn(u: State, u': State, x: Case, es: seq<Step>, id: nat, i: nat)
    requires 0 < i < |x.was| && Follows(u, x, es, i) && NoRivals(u) && id in u.ops && u.ops[id].key == x.k
    requires u.ops[id].Running? && u.ops[id].route == x.was && 0 < u.ops[id].pos < |x.was| && u.ops[id].res.Some?
    requires u'.ops == u.ops[id := u.ops[id].(pos := u.ops[id].pos + 1)]
    requires var y, held := u.ops[id], Slot(u.data, x.was[i], x.k);
             Slot(u'.data, x.was[i], x.k)
             == if i == y.pos then ReplicaEffect(y.op, y.res.value, held) else held
    ensures Follows(u', x, es, i)
  {
    var y := u.ops[id];
    if Mutates(y.op) && y.pos <= i {
      assert Owing(y, x.k, i);
      assert forall j :: j in u.ops && j != id ==> !Owing(u.ops[j], x.k, i);
      assert i > y.pos ==> Owing(u'.ops[id], x.k, i);
    } else {
      assert forall j :: j in u.ops ==> (Owing(u'.ops[j], x.k, i) <==> Owing(u.ops[j], x.k, i));
    }
  }

  lemma {:induction false} ClientData(c: Conf, u: State, x: Case, es: seq<Step>, e: Step)
    requires x.was != [] && NoDup(x.was) && DataOk(u, x, es) && Routed(c, u, x) && ClientGuard(c, u, e)
    ensures DataOk(ClientStep(c, u, e), x, es + [e])
  {
    if e.AtPrimary? && e.key == x.k {
      if Mutates(e.op) { PrimaryWritten(c, u, x, es, e); } else { ReadUnnoticed(c, u, x, es, e); }
    } else if e.AtReplica? && u.ops[e.id].key == x.k {
      ReplicaWritten(c, u, x, es, e);
    } else if e.AtPrimary? || e.AtReplica? {
      OtherKeyUnnoticed(c, u, x, es, e);
    } else {
      BookkeepingUnnoticed(c, u, x, es, e);
    }
  }

  lemma {:induction false} ClientRouted(c: Conf, u: State, x: Case, e: Step)
    requires Routed(c, u, x) && ClientGuard(c, u, e) && Orderly(u, e)
    requires u.overlay.Some? && Route(c, u, Bucket(c, x.k)) == x.was
    ensures Routed(c, ClientStep(c, u, e), x)
  {
    var u' := ClientStep(c, u, e);
    match e
    case Enter(id, key, op) =>
      EnterCounts(c, u, id, Inside(key, op));
      RivalsKeep(u, u', id, Inside(key, op));
    case Leave(id) => LeaveCounts(c, u, id);
    case ReadOverlay(id) =>
      StayCounts(c, u, u', id, u'.ops[id]);
      RivalsKeep(u, u', id, u'.ops[id]);
    case ReadPartitioner(id) =>
      StayCounts(c, u, u', id, u'.ops[id]);
      RivalsKeep(u, u', id, u'.ops[id]);
    case AtPrimary(id, _, _, _) =>
      StayCounts(c, u, u', id, u'.ops[id]);
      RivalsKeep(u, u', id, u'.ops[id]);
    case AtReplica(id) =>
      StayCounts(c, u, u', id, u'.ops[id]);
      RivalsKeep(u, u', id, u'.ops[id]);
  }

  lemma {:induction false} TaskWaiting(c: Conf, u: State, prev: seq<Node>, next: seq<Node>, k: Key, e: Step)
    requires Waiting(u, prev, next, Bucket(c, k), k) && Bucket(c, k) in Moving(c, prev, next) && TaskGuard(c, u, e)
    requires e.FinishDrain? ==> Bucket(c, k) !in u.task.chunk
    ensures Waiting(TaskStep(c, u, e), prev, next, Bucket(c, k), k)
  {
    match e
    case ExportJob(j) => ExportAt(c, u.overlay.value, u.task.chunk, j, u.data, k);
    case _ =>
  }

  lemma {:induction false} TaskRouted(c: Conf, u: State, x: Case, e: Step)
    requires Routed(c, u, x) && TaskGuard(c, u, e) && !u.task.Committing?
    ensures Routed(c, TaskStep(c, u, e), x)
  {
    var u' := TaskStep(c, u, e);
    assert u'.ops == u.ops && u'.gate.inFlight == u.gate.inFlight;
    assert forall b: nat :: Count(u'.gate, b) == Count(u.gate, b);
  }

  lemma {:induction false} TaskData(c: Conf, u: State, x: Case, es: seq<Step>, e: Step, prev: seq<Node>,
                                    next: seq<Node>)
    requires x.was != [] && DataOk(u, x, es) && TaskGuard(c, u, e)
    requires Waiting(u, prev, next, Bucket(c, x.k), x.k)
    ensures DataOk(TaskStep(c, u, e), x, es + [e])
  {
    var u' := TaskStep(c, u, e);
    forall n ensures Slot(u'.data, n, x.k) == Slot(u.data, n, x.k) {
      if e.ImportHeld? {
        SlotAfterImport(u.data, u.task.held.value.job.to, u.task.held.value.entries, n, x.k);
      } else if e.DropOne? {
        SlotAfterDrop(c, u.overlay.value, u.task.chunk, e.drop, u.data, n, x.k);
      }
    }
    assert u'.ops == u.ops;
    Unnoticed(u, u', x, es, e);
  }

  // ---------------------------------------------------------------- from the restart to the key's turn

  /** Steps after a restart that have not drained the key's bucket. */
  ghost predicate Until(c: Conf, us: seq<State>, fs: seq<Step>, b: nat) {
    && |us| == |fs| + 1
    && forall i :: 0 <= i < |fs| ==>
         Next(c, us[i], fs[i], us[i + 1]) && (fs[i].FinishDrain? && us[i].task.Draining? ==> b !in us[i].task.chunk)
  }

  ghost predicate HistoryOk(c: Conf, u: State, x: Case, prev: seq<Node>, next: seq<Node>, es: seq<Step>) {
    && x.was != [] && Waiting(u, prev, next, Bucket(c, x.k), x.k) && Routed(c, u, x) && DataOk(u, x, es)
  }

  lemma {:induction false} HistoryStep(c: Conf, u: State, e: Step, u': State, x: Case, prev: seq<Node>,
                                       next: seq<Node>, es: seq<Step>)
    requires HistoryOk(c, u, x, prev, next, es) && NoDup(x.was) && x.was == Own(c, prev, Bucket(c, x.k))
    requires Next(c, u, e, u') && Bucket(c, x.k) in Moving(c, prev, next)
    requires e.FinishDrain? && u.task.Draining? ==> Bucket(c, x.k) !in u.task.chunk
    ensures HistoryOk(c, u', x, prev, next, es + [e])
  {
    if ClientGuard(c, u, e) {
      ClientData(c, u, x, es, e);
      ClientRouted(c, u, x, e);
    } else {
      TaskData(c, u, x, es, e, prev, next);
      TaskRouted(c, u, x, e);
      TaskWaiting(c, u, prev, next, x.k, e);
    }
  }

  lemma {:induction false} HistoryHolds(c: Conf, us: seq<State>, fs: seq<Step>, x: Case, prev: seq<Node>,
                                        next: seq<Node>, n: nat)
    requires Until(c, us, fs, Bucket(c, x.k)) && n <= |fs| && HistoryOk(c, us[0], x, prev, next, [])
    requires NoDup(x.was) && x.was == Own(c, prev, Bucket(c, x.k)) && Bucket(c, x.k) in Moving(c, prev, next)
    ensures HistoryOk(c, us[n], x, prev, next, fs[..n])
  {
    if n > 0 {
      HistoryHolds(c, us, fs, x, prev, next, n - 1);
      HistoryStep(c, us[n - 1], fs[n - 1], us[n], x, prev, next, fs[..n - 1]);
      assert fs[..n] == fs[..n - 1] + [fs[n - 1]];
    }
  }

  /** What the nodes hold of the key when its bucket is drained. */
  lemma {:induction false} DrainedHistory(c: Conf, u: State, x: Case, prev: seq<Node>, next: seq<Node>, es: seq<Step>,
                                          n: Node)
    requires HistoryOk(c, u, x, prev, next, es) && TaskGuard(c, u, FinishDrain) && Bucket(c, x.k) in u.task.chunk
    ensures Slot(u.data, n, x.k)
            == if n == x.was[0] then Seen(es, x.k, x.Source())
               else if n in x.was then Followed(es, x.k, Slot(x.d, n, x.k)) else Slot(x.d, n, x.k)
  {
    DrainedMeansNobody(c, u, u.task.chunk);
    if n in x.was && n != x.was[0] {
      var i :| 0 <= i < |x.was| && x.was[i] == n;
      assert Follows(u, x, es, i);
    }
  }

  // ---------------------------------------------------------------- the restarted migration carried on

  /** What a node held of a key when nobody was in flight and its bucket was not frozen. */
  ghost function HeldAt(c: Conf, s: State, m: map<Key, Value>, k: Key, n: Node): Option<Value> {
    if n in Route(c, s, Bucket(c, k)) then At(m, k) else None
  }

  /** What it holds after a restart to other members has moved the bucket, with steps `fs` before its drain. */
  ghost function Ends(c: Conf, s: State, m: map<Key, Value>, k: Key, was: seq<Node>, will: seq<Node>, fs: seq<Step>,
                      n: Node): Option<Value>
    requires was != []
  {
    var seen := Seen(fs, k, HeldAt(c, s, m, k, was[0]));
    if n in was && n !in will then None
    else if n == was[0] then seen
    else if n in was then Followed(fs, k, HeldAt(c, s, m, k, n))
    else if n in will && seen.Some? then seen
    else HeldAt(c, s, m, k, n)
  }

  /** A key at the restart: no history yet. */
  lemma {:induction false} NoHistory(c: Conf, s: State, g: Ghost, x: Case, prev: seq<Node>, next: seq<Node>)
    requires Lawful(c) && Inv(c, s, g) && RestartGuard(c, s, prev, next) && Elems(prev) != Elems(next)
    requires s.ops == map[] && x.d == s.data && x.was == Own(c, prev, Bucket(c, x.k))
    ensures x.was != [] && NoDup(x.was) && HistoryOk(c, Restarted(c, s, prev, next), x, prev, next, [])
  {
    EmptyElems(prev);
    EmptyElems(s.nodes);
    assert Membership(c, prev);
    OwnFacts(c, prev, Bucket(c, x.k));
    var t := Restarted(c, s, prev, next);
    forall b: nat ensures LiveOn(c, t.ops, b) == {} {}
    assert Routed(c, t, x);
    forall i | 0 < i < |x.was| ensures Follows(t, x, [], i) {}
  }

  /**
   * After a restart to any other members, with any interleaving of client operations and migration
   * steps until the key's bucket is drained: what every node holds of the key once the bucket has
   * moved. The new primary then has what clients last saw at the old one if and only if it is the
   * old primary, or it was an old owner whose copy came out the same, or clients last saw an object,
   * or it held nothing at the restart.
   */
  lemma {:induction false} RestartFollowed(c: Conf, ss: seq<State>, es: seq<Step>, n: nat, prev: seq<Node>,
                                           next: seq<Node>, k: Key, us: seq<State>, fs: seq<Step>,
                                           vs: seq<State>, gs: seq<Step>)
    requires Lawful(c) && Run(c, ss, es) && n <= |es| && Managed(c, k) && Bucket(c, k) in Moving(c, prev, next)
    requires RestartGuard(c, ss[n], prev, next) && Elems(prev) != Elems(next)
    requires ss[n].ops == map[] && Bucket(c, k) !in ss[n].gate.frozen
    requires Until(c, us, fs, Bucket(c, k)) && us[0] == Restarted(c, ss[n], prev, next)
    requires TaskGuard(c, us[|fs|], FinishDrain) && Bucket(c, k) in us[|fs|].task.chunk
    requires ChunkPath(c, vs, gs) && vs[0] == TaskStep(c, us[|fs|], FinishDrain)
    requires vs[|gs|].task.Dropping? && vs[|gs|].task.drops == {}
    ensures var m, was, will := Plain(es[..n]), Own(c, prev, Bucket(c, k)), Own(c, next, Bucket(c, k));
            && was != [] && will != []
            && (forall x :: Slot(vs[|gs|].data, x, k) == Ends(c, ss[n], m, k, was, will, fs, x))
            && var w, seen := will[0], Seen(fs, k, HeldAt(c, ss[n], m, k, was[0]));
               (Slot(vs[|gs|].data, w, k) == seen
                <==> if w == was[0] then true
                     else if w in was then Followed(fs, k, HeldAt(c, ss[n], m, k, w)) == seen
                     else seen.Some? || HeldAt(c, ss[n], m, k, w) == None)
  {
    var g := RunHolds(c, ss, es, n);
    var s, b := ss[n], Bucket(c, k);
    var x := Case(k, Own(c, prev, b), Own(c, next, b), s.data);
    NoHistory(c, s, g, x, prev, next);
    OwnFacts(c, next, b);
    HistoryHolds(c, us, fs, x, prev, next, |fs|);
    assert fs[..|fs|] == fs;
    forall y ensures Slot(vs[|gs|].data, y, k) == Ends(c, s, g.m, k, x.was, x.will, fs, y) {
      MovedEnd(c, s, g, us[|fs|], x, prev, next, fs, vs, gs, y);
    }
  }

  /** One node's part of that. */
  lemma {:induction false} MovedEnd(c: Conf, s: State, g: Ghost, u: State, x: Case, prev: seq<Node>, next: seq<Node>,
                                    fs: seq<Step>, vs: seq<State>, gs: seq<Step>, y: Node)
    requires Settled(c, s, g) && s.ops == map[] && Managed(c, x.k) && Bucket(c, x.k) !in g.torn && x.d == s.data
    requires HistoryOk(c, u, x, prev, next, fs) && TaskGuard(c, u, FinishDrain) && Bucket(c, x.k) in u.task.chunk
    requires x.was == Own(c, prev, Bucket(c, x.k)) && x.will == Own(c, next, Bucket(c, x.k))
    requires ChunkPath(c, vs, gs) && vs[0] == TaskStep(c, u, FinishDrain)
    requires vs[|gs|].task.Dropping? && vs[|gs|].task.drops == {}
    ensures Slot(vs[|gs|].data, y, x.k) == Ends(c, s, g.m, x.k, x.was, x.will, fs, y)
  {
    var p := x.was[0];
    assert SlotOk(c, s, g, x.k, y) && SlotOk(c, s, g, x.k, p);
    DrainedHistory(c, u, x, prev, next, fs, y);
    DrainedHistory(c, u, x, prev, next, fs, p);
    ChunkCarries(c, vs, gs, x.(d := u.data), y);
  }
}
