/**
 * What goes wrong where the rebalance relies on its callers: the transition system with one of its
 * hypotheses dropped.
 */
module MigrationLapses {
  import opened Seqs
  import opened Replication
  import opened Values
  import opened Gates
  import opened Migration
  import opened MigrationInvariant
  import opened MigrationClients
  import opened MigrationTheorems

  /**
   * Nothing out of order, mutators that race on one key, a rebalance called instead of resuming an
   * interrupted one, or a crash of the process.
   */
  datatype Lapse = NoLapse | Rivals | Restarts | Crashes

  /** A rebalance called while an interrupted one has left its overlay. */
  ghost predicate RestartGuard(c: Conf, s: State, prev: seq<Node>, next: seq<Node>) {
    && s.task.Idle? && s.overlay.Some?
    && NoDup(prev) && Elems(prev) == Elems(s.nodes) && Membership(c, next) && Elems(next) <= s.clients
  }

  /** It starts from the committed members with nothing done; back to those members it only commits them. */
  function Restarted(c: Conf, s: State, prev: seq<Node>, next: seq<Node>): State {
    if Elems(prev) == Elems(next) then RolledBack(c, s, next) else StartedOver(s, prev, next)
  }

  function StartedOver(s: State, prev: seq<Node>, next: seq<Node>): State {
    s.(overlay := Some(Overlay(prev, next, {})), journal := Some(Record(prev, next, {})), task := Between({}))
  }

  /** The journal is cleared and the members are committed; the overlay stays. */
  function RolledBack(c: Conf, s: State, next: seq<Node>): State {
    s.(journal := None, nodes := next, repl := Clamp(c.target, |next|), clients := s.clients * Elems(next))
  }

  /** The owners that have a client, in order. */
  function Served(route: seq<Node>, clients: set<Node>): seq<Node> {
    if route == [] then []
    else (if route[0] in clients then [route[0]] else []) + Served(route[1..], clients)
  }

  /** What a get finds: it asks the first owner that has a client. */
  function GetFrom(data: map<Loc, Value>, served: seq<Node>, k: Key): Option<Value> {
    if served == [] then None else Slot(data, served[0], k)
  }

  /** A get whose owners may have lost their clients. */
  ghost predicate GetGuard(s: State, e: Step) {
    && e.AtPrimary? && e.op.Get? && e.id in s.ops
    && s.ops[e.id].Running? && s.ops[e.id].pos == 0 && s.ops[e.id].key == e.key && s.ops[e.id].op == e.op
    && e.res == Got(GetFrom(s.data, Served(s.ops[e.id].route, s.clients), e.key))
  }

  ghost function GetStep(s: State, e: Step): State
    requires GetGuard(s, e)
  {
    WithOp(s, e.id, s.ops[e.id].(pos := |s.ops[e.id].route|, res := Some(e.res)))
  }

  /** The process dies with nobody in flight; the journal survives, and the first call resumes. */
  ghost predicate CrashGuard(s: State) {
    s.ops == map[] && s.overlay.Some? && s.journal.Some?
  }

  /** Overlay and gate are lost with the process, and the overlay is built again from the journal. */
  function Crashed(s: State): State
    requires s.journal.Some?
  {
    var r := s.journal.value;
    s.(overlay := Some(Overlay(r.prev, r.next, r.done)), gate := Open, task := Between(r.done))
  }

  ghost predicate LapseNext(c: Conf, lapse: Lapse, s: State, e: Step, s': State) {
    || Next(c, s, e, s')
    || (lapse.Rivals? && ClientGuard(c, s, e) && s' == ClientStep(c, s, e))
    || (lapse.Restarts? && e.Restart? && RestartGuard(c, s, e.prev, e.next) && s' == Restarted(c, s, e.prev, e.next))
    || (lapse.Restarts? && GetGuard(s, e) && s' == GetStep(s, e))
    || (lapse.Crashes? && e.Crash? && CrashGuard(s) && s' == Crashed(s))
  }

  ghost function Steps(c: Conf, lapse: Lapse): (State, Step, State) -> bool {
    (s: State, e: Step, s': State) => LapseNext(c, lapse, s, e, s')
  }

  ghost predicate Path(c: Conf, lapse: Lapse, ss: seq<State>, es: seq<Step>) {
    |ss| == |es| + 1 && forall i :: 0 <= i < |es| ==> Steps(c, lapse)(ss[i], es[i], ss[i + 1])
  }

  /** The steps lead from `s` to `t`. */
  ghost predicate Leads(c: Conf, lapse: Lapse, s: State, es: seq<Step>, t: State) {
    exists ss :: Path(c, lapse, ss, es) && ss[0] == s && ss[|es|] == t
  }

  /** Where the steps can lead from `s`. */
  ghost function From(c: Conf, lapse: Lapse, s: State): (seq<Step>, State) -> bool {
    (es: seq<Step>, t: State) => Leads(c, lapse, s, es, t)
  }

  lemma {:induction false} LeadsNowhere(c: Conf, lapse: Lapse, s: State)
    ensures From(c, lapse, s)([], s)
  {
    assert Path(c, lapse, [s], []);
  }

  lemma {:induction false} LeadsOn(c: Conf, lapse: Lapse, s: State, es: seq<Step>, m: State, e: Step, t: State)
    requires From(c, lapse, s)(es, m) && LapseNext(c, lapse, m, e, t)
    ensures From(c, lapse, s)(es + [e], t)
  {
    var ss :| Path(c, lapse, ss, es) && ss[0] == s && ss[|es|] == m;
    var more, steps := ss + [t], es + [e];
    var next := Steps(c, lapse);
    assert next(m, e, t);
    forall i | 0 <= i < |steps| ensures next(more[i], steps[i], more[i + 1]) {
      if i < |es| { assert next(ss[i], es[i], ss[i + 1]); }
    }
    assert Path(c, lapse, more, steps);
  }

  lemma {:induction false} LeadsClient(c: Conf, lapse: Lapse, s: State, es: seq<Step>, m: State, e: Step, t: State)
    requires From(c, lapse, s)(es, m) && ClientGuard(c, m, e) && (lapse.Rivals? || Orderly(m, e))
    requires t == ClientStep(c, m, e)
    ensures From(c, lapse, s)(es + [e], t)
  {
    LeadsOn(c, lapse, s, es, m, e, t);
  }

  lemma {:induction false} LeadsTask(c: Conf, lapse: Lapse, s: State, es: seq<Step>, m: State, e: Step, t: State)
    requires From(c, lapse, s)(es, m) && TaskGuard(c, m, e) && t == TaskStep(c, m, e)
    ensures From(c, lapse, s)(es + [e], t)
  {
    LeadsOn(c, lapse, s, es, m, e, t);
  }

  lemma {:induction false} LeadsThrough(c: Conf, lapse: Lapse, s: State, es: seq<Step>, m: State, fs: seq<Step>,
                                        t: State)
    requires From(c, lapse, s)(es, m) && From(c, lapse, m)(fs, t)
    ensures From(c, lapse, s)(es + fs, t)
  {
    var ss :| Path(c, lapse, ss, es) && ss[0] == s && ss[|es|] == m;
    var ts :| Path(c, lapse, ts, fs) && ts[0] == m && ts[|fs|] == t;
    JoinedPath(c, lapse, ss, es, ts, fs);
  }

  lemma {:induction false} JoinedPath(c: Conf, lapse: Lapse, ss: seq<State>, es: seq<Step>, ts: seq<State>,
                                      fs: seq<Step>)
    requires Path(c, lapse, ss, es) && Path(c, lapse, ts, fs) && ss[|es|] == ts[0]
    ensures var all := ss + ts[1..]; Path(c, lapse, all, es + fs) && all[0] == ss[0] && all[|es + fs|] == ts[|fs|]
  {
    var all, steps := ss + ts[1..], es + fs;
    assert forall j :: |es| <= j < |all| ==> all[j] == ts[j - |es|];
    var next := Steps(c, lapse);
    forall i | 0 <= i < |steps| ensures next(all[i], steps[i], all[i + 1]) {
      if i < |es| {
        assert next(ss[i], es[i], ss[i + 1]);
      } else {
        assert next(ts[i - |es|], fs[i - |es|], ts[i - |es| + 1]);
      }
    }
  }

  /** Without a lapse, a path from an initial state is a run. */
  lemma {:induction false} LeadsIsRun(c: Conf, s: State, es: seq<Step>, t: State) returns (ss: seq<State>)
    requires Init(c, s) && From(c, NoLapse, s)(es, t)
    ensures Run(c, ss, es) && ss[|es|] == t
  {
    ss :| Path(c, NoLapse, ss, es) && ss[0] == s && ss[|es|] == t;
    forall i | 0 <= i < |es| ensures Next(c, ss[i], es[i], ss[i + 1]) {
      assert Steps(c, NoLapse)(ss[i], es[i], ss[i + 1]);
    }
  }

  // ---------------------------------------------------------------- getting inside

  function GotInside(s: State, id: nat, x: Client, b: nat): State { WithOp(s, id, x).(gate := Entered(s.gate, b)) }

  function EntrySteps(id: nat, k: Key, op: Op): seq<Step> {
    [Step.Enter(id, k, op)] + [ReadOverlay(id)] + [ReadPartitioner(id)]
  }

  lemma {:induction false} Advance(s: State, id: nat, x: Client, y: Client, b: nat)
    ensures WithOp(GotInside(s, id, x, b), id, y) == GotInside(s, id, y, b)
  {
    assert s.ops[id := x][id := y] == s.ops[id := y];
  }

  /** Without an overlay an operation gets inside in three steps. */
  lemma {:induction false} GetInside(c: Conf, lapse: Lapse, s0: State, es: seq<Step>, s: State, id: nat, k: Key, op: Op)
    requires From(c, lapse, s0)(es, s) && s.overlay.None? && (lapse.Rivals? || NoRival(s, k, op))
    requires id !in s.ops && Managed(c, k) && MayEnter(s.gate, Bucket(c, k))
    ensures From(c, lapse, s0)(es + EntrySteps(id, k, op),
      GotInside(s, id, Running(k, op, c.owners(s.nodes, s.repl, Bucket(c, k)), 0, None), Bucket(c, k)))
  {
    var b := Bucket(c, k);
    var x, y, z := Inside(k, op), SawNoOverlay(k, op), Running(k, op, c.owners(s.nodes, s.repl, b), 0, None);
    var e1, e2, e3 := Step.Enter(id, k, op), ReadOverlay(id), ReadPartitioner(id);
    LeadsClient(c, lapse, s0, es, s, e1, GotInside(s, id, x, b));
    Advance(s, id, x, y, b);
    LeadsClient(c, lapse, s0, es + [e1], GotInside(s, id, x, b), e2, GotInside(s, id, y, b));
    Advance(s, id, y, z, b);
    LeadsClient(c, lapse, s0, es + [e1] + [e2], GotInside(s, id, y, b), e3, GotInside(s, id, z, b));
    assert es + [e1] + [e2] + [e3] == es + EntrySteps(id, k, op);
  }

  // ---------------------------------------------------------------- one operation at a sole owner

  /** An operation from entry to exit, answering `res`. */
  function OpSteps(id: nat, k: Key, op: Op, res: Result): seq<Step> {
    [Step.Enter(id, k, op)] + [ReadOverlay(id)] + [AtPrimary(id, k, op, res)] + [Step.Leave(id)]
  }

  /** Up to the answer. */
  lemma {:induction false} SoleEntry(c: Conf, lapse: Lapse, s0: State, es: seq<Step>, s: State, id: nat, k: Key, op: Op,
                                     x: Node)
    requires From(c, lapse, s0)(es, s) && s.overlay.Some? && s.ops == map[]
    requires Managed(c, k) && MayEnter(s.gate, Bucket(c, k)) && Route(c, s, Bucket(c, k)) == [x]
    ensures From(c, lapse, s0)(es + [Step.Enter(id, k, op)] + [ReadOverlay(id)],
                               GotInside(s, id, Running(k, op, [x], 0, None), Bucket(c, k)))
  {
    var b, at, run := Bucket(c, k), Inside(k, op), Running(k, op, [x], 0, None);
    LeadsClient(c, lapse, s0, es, s, Step.Enter(id, k, op), GotInside(s, id, at, b));
    Advance(s, id, at, run, b);
    LeadsClient(c, lapse, s0, es + [Step.Enter(id, k, op)], GotInside(s, id, at, b), ReadOverlay(id),
                GotInside(s, id, run, b));
  }

  /** From the answer on. */
  lemma {:induction false} SoleExit(c: Conf, lapse: Lapse, s0: State, es: seq<Step>, s: State, id: nat, k: Key, op: Op,
                                    x: Node, b: nat)
    requires From(c, lapse, s0)(es, GotInside(s, id, Running(k, op, [x], 0, None), b)) && b == Bucket(c, k)
    requires s.ops == map[] && s.gate.inFlight == map[] && x in s.clients
    ensures var o := Apply(op, Slot(s.data, x, k));
            From(c, lapse, s0)(es + [AtPrimary(id, k, op, o.1)] + [Step.Leave(id)],
                               s.(data := Write(s.data, x, k, o.0)))
  {
    var o, run := Apply(op, Slot(s.data, x, k)), Running(k, op, [x], 0, None);
    var e, done := AtPrimary(id, k, op, o.1), Running(k, op, [x], 1, Some(o.1));
    var t := s.(data := Write(s.data, x, k, o.0));
    Advance(s, id, run, done, b);
    assert ClientStep(c, GotInside(s, id, run, b), e) == GotInside(t, id, done, b);
    LeadsClient(c, lapse, s0, es, GotInside(s, id, run, b), e, GotInside(t, id, done, b));
    assert GotInside(t, id, done, b).ops - {id} == map[] && Gates.Left(Entered(t.gate, b), b) == t.gate;
    LeadsClient(c, lapse, s0, es + [e], GotInside(t, id, done, b), Step.Leave(id), t);
  }

  /** With an overlay, nobody in flight and one owner, an operation runs from entry to exit. */
  lemma {:induction false} SoleOp(c: Conf, lapse: Lapse, s0: State, es: seq<Step>, s: State, id: nat, k: Key, op: Op,
                                  x: Node)
    requires From(c, lapse, s0)(es, s) && s.overlay.Some? && s.ops == map[] && s.gate.inFlight == map[]
    requires Managed(c, k) && MayEnter(s.gate, Bucket(c, k)) && Route(c, s, Bucket(c, k)) == [x] && x in s.clients
    ensures var o := Apply(op, Slot(s.data, x, k));
            From(c, lapse, s0)(es + OpSteps(id, k, op, o.1), s.(data := Write(s.data, x, k, o.0)))
  {
    var o := Apply(op, Slot(s.data, x, k));
    var e1, e2, e3, e4 := Step.Enter(id, k, op), ReadOverlay(id), AtPrimary(id, k, op, o.1), Step.Leave(id);
    SoleEntry(c, lapse, s0, es, s, id, k, op, x);
    SoleExit(c, lapse, s0, es + [e1] + [e2], s, id, k, op, x, Bucket(c, k));
    assert es + OpSteps(id, k, op, o.1) == es + [e1] + [e2] + [e3] + [e4];
  }
}
