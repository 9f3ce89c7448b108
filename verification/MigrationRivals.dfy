/** Racing mutators in the transition system: exactly when owners can end in disagreement. */
module MigrationRivals {
  import opened Seqs
  import opened Replication
  import opened Values
  import opened Gates
  import opened Races
  import opened Migration
  import opened MigrationLapses
  import opened MigrationTheorems

  /** Two operations on `key`, both routed along `route`. */
  ghost predicate InPlace(s: State, key: Key, route: seq<Node>, a: nat, b: nat) {
    && a != b && a in s.ops && b in s.ops && s.ops[a].Running? && s.ops[b].Running?
    && s.ops[a].key == key == s.ops[b].key && s.ops[a].route == route == s.ops[b].route
    && |route| >= 2 && NoDup(route) && forall i :: 0 <= i < |route| ==> route[i] in s.clients
  }

  ghost function SideOf(x: Client): Side
    requires x.Running?
  {
    Side(x.op, x.pos, x.res)
  }

  ghost function SlotsOf(data: map<Loc, Value>, key: Key, route: seq<Node>): seq<Option<Value>> {
    seq(|route|, i requires 0 <= i < |route| => Slot(data, route[i], key))
  }

  ghost function ViewOf(s: State, key: Key, route: seq<Node>, a: nat, b: nat): View
    requires InPlace(s, key, route, a, b)
  {
    View(SideOf(s.ops[a]), SideOf(s.ops[b]), SlotsOf(s.data, key, route))
  }

  ghost predicate RaceStep(e: Step, a: nat, b: nat) { (e.AtPrimary? || e.AtReplica?) && e.id in {a, b} }

  ghost predicate RaceSteps(es: seq<Step>, a: nat, b: nat) { forall i :: 0 <= i < |es| ==> RaceStep(es[i], a, b) }

  lemma {:induction false} SlotsWritten(data: map<Loc, Value>, key: Key, route: seq<Node>, i: nat, o: Option<Value>)
    requires NoDup(route) && i < |route|
    ensures SlotsOf(Write(data, route[i], key, o), key, route) == SlotsOf(data, key, route)[i := o]
  {
    forall j | 0 <= j < |route|
      ensures Slot(Write(data, route[i], key, o), route[j], key) == SlotsOf(data, key, route)[i := o][j]
    {
      assert j != i ==> route[j] != route[i];
    }
  }

  /** A step of one of the two is its turn in the race. */
  lemma {:induction false} StepIsTurn(c: Conf, s: State, e: Step, key: Key, route: seq<Node>, a: nat, b: nat)
    requires InPlace(s, key, route, a, b) && RaceStep(e, a, b) && ClientGuard(c, s, e)
    ensures CanTurn(SideOf(s.ops[e.id]), |route|) && InPlace(ClientStep(c, s, e), key, route, a, b)
    ensures ViewOf(ClientStep(c, s, e), key, route, a, b) == Turned(ViewOf(s, key, route, a, b), e.id == a)
  {
    var x := s.ops[e.id];
    if e.AtPrimary? {
      SlotsWritten(s.data, key, route, 0, Apply(x.op, Slot(s.data, route[0], key)).0);
    } else {
      SlotsWritten(s.data, key, route, x.pos, ReplicaEffect(x.op, x.res.value, Slot(s.data, route[x.pos], key)));
    }
  }

  /** The step that takes an operation to its next owner. */
  ghost function NextStep(s: State, id: nat): Step
    requires id in s.ops && s.ops[id].Running? && s.ops[id].route != []
  {
    var x := s.ops[id];
    if x.pos == 0 then AtPrimary(id, x.key, x.op, Apply(x.op, Slot(s.data, x.route[0], x.key)).1) else AtReplica(id)
  }

  lemma {:induction false} TurnIsStep(c: Conf, s0: State, es: seq<Step>, s: State, id: nat, key: Key,
                                      route: seq<Node>, a: nat, b: nat)
    returns (es': seq<Step>, s': State)
    requires From(c, Rivals, s0)(es, s) && RaceSteps(es, a, b) && InPlace(s, key, route, a, b) && id in {a, b}
    requires CanTurn(SideOf(s.ops[id]), |route|)
    ensures From(c, Rivals, s0)(es', s') && RaceSteps(es', a, b) && InPlace(s', key, route, a, b)
    ensures ViewOf(s', key, route, a, b) == Turned(ViewOf(s, key, route, a, b), id == a)
  {
    var e := NextStep(s, id);
    assert ClientGuard(c, s, e);
    s' := ClientStep(c, s, e);
    es' := es + [e];
    LeadsClient(c, Rivals, s0, es, s, e, s');
    StepIsTurn(c, s, e, key, route, a, b);
  }

  /** An operation that has been at the primary goes on to all other owners. */
  lemma {:induction false} FinishSide(c: Conf, s0: State, es: seq<Step>, s: State, id: nat, key: Key,
                                      route: seq<Node>, a: nat, b: nat)
    returns (es': seq<Step>, s': State)
    requires From(c, Rivals, s0)(es, s) && RaceSteps(es, a, b) && InPlace(s, key, route, a, b) && id in {a, b}
    requires SideOf(s.ops[id]).res.Some? && SideOf(s.ops[id]).pos > 0
    ensures From(c, Rivals, s0)(es', s') && RaceSteps(es', a, b) && InPlace(s', key, route, a, b)
    ensures ViewOf(s', key, route, a, b) == BroadcastBy(ViewOf(s, key, route, a, b), id == a)
    decreases |route| - s.ops[id].pos
  {
    var v := ViewOf(s, key, route, a, b);
    if s.ops[id].pos < |route| {
      TurnThenFinish(v, id == a);
      var es1, s1 := TurnIsStep(c, s0, es, s, id, key, route, a, b);
      es', s' := FinishSide(c, s0, es1, s1, id, key, route, a, b);
    } else {
      es', s' := es, s;
      assert Visited(Mine(v, id == a), v.slots) == v.slots;
    }
  }

  /** Both at position 0, all owners holding `o`. */
  ghost predicate AtStart(s: State, key: Key, route: seq<Node>, a: nat, b: nat, x: Op, y: Op, o: Option<Value>) {
    && InPlace(s, key, route, a, b) && Mutates(x) && Mutates(y)
    && NobodyYet(ViewOf(s, key, route, a, b), x, y, o)
  }

  ghost predicate EndsApart(t: State, key: Key, route: seq<Node>, a: nat, b: nat) {
    InPlace(t, key, route, a, b) && Over(ViewOf(t, key, route, a, b)) && Disagree(SlotsOf(t.data, key, route))
  }

  /** With a clash, `b` overtakes `a` on the way to the other owners. */
  lemma {:induction false} ClashIsReached(c: Conf, s: State, key: Key, route: seq<Node>, a: nat, b: nat, x: Op,
                                          y: Op, o: Option<Value>)
    returns (es: seq<Step>, t: State)
    requires AtStart(s, key, route, a, b, x, y, o) && Clash(x, y, o)
    ensures From(c, Rivals, s)(es, t) && RaceSteps(es, a, b) && EndsApart(t, key, route, a, b)
  {
    var v := ViewOf(s, key, route, a, b);
    ClashSchedule(v, x, y, o);
    LeadsNowhere(c, Rivals, s);
    var es1, s1 := TurnIsStep(c, s, [], s, a, key, route, a, b);
    var es2, s2 := TurnIsStep(c, s, es1, s1, b, key, route, a, b);
    var es3, s3 := FinishSide(c, s, es2, s2, b, key, route, a, b);
    es, t := FinishSide(c, s, es3, s3, a, key, route, a, b);
  }

  lemma {:induction false} RaceStepKeeps(c: Conf, s: State, e: Step, t: State, key: Key, route: seq<Node>,
                                         a: nat, b: nat, x: Op, y: Op, o: Option<Value>)
    requires LapseNext(c, Rivals, s, e, t) && RaceStep(e, a, b) && Mutates(x) && Mutates(y)
    requires InPlace(s, key, route, a, b) && InRace(ViewOf(s, key, route, a, b), x, y, o)
    ensures InPlace(t, key, route, a, b) && InRace(ViewOf(t, key, route, a, b), x, y, o)
  {
    StepIsTurn(c, s, e, key, route, a, b);
    TurnKeepsRace(ViewOf(s, key, route, a, b), x, y, o, e.id == a);
  }

  lemma {:induction false} PathInRace(c: Conf, ss: seq<State>, es: seq<Step>, n: nat, key: Key, route: seq<Node>,
                                      a: nat, b: nat, x: Op, y: Op, o: Option<Value>)
    requires Path(c, Rivals, ss, es) && RaceSteps(es, a, b) && AtStart(ss[0], key, route, a, b, x, y, o) && n <= |es|
    ensures InPlace(ss[n], key, route, a, b) && InRace(ViewOf(ss[n], key, route, a, b), x, y, o)
  {
    if n > 0 {
      PathInRace(c, ss, es, n - 1, key, route, a, b, x, y, o);
      assert Steps(c, Rivals)(ss[n - 1], es[n - 1], ss[n]) && RaceStep(es[n - 1], a, b);
      RaceStepKeeps(c, ss[n - 1], es[n - 1], ss[n], key, route, a, b, x, y, o);
    }
  }

  /** Some interleaving of the two leaves owners of the key in disagreement. */
  ghost predicate CanEndApart(c: Conf, s: State, key: Key, route: seq<Node>, a: nat, b: nat) {
    exists es, t :: RaceSteps(es, a, b) && From(c, Rivals, s)(es, t) && EndsApart(t, key, route, a, b)
  }

  /**
   * For any two mutators on their way to the same owners, all holding `o`: some interleaving leaves
   * the owners in disagreement if and only if the replica effects do not commute on `o`, for one of
   * the two orders in which they can reach the primary.
   */
  lemma {:induction false} RivalsDisagreeIff(c: Conf, s: State, key: Key, route: seq<Node>, a: nat, b: nat, x: Op,
                                             y: Op, o: Option<Value>)
    requires AtStart(s, key, route, a, b, x, y, o)
    ensures CanEndApart(c, s, key, route, a, b) <==> MayDiverge(x, y, o)
  {
    if CanEndApart(c, s, key, route, a, b) {
      var es, t :| RaceSteps(es, a, b) && From(c, Rivals, s)(es, t) && EndsApart(t, key, route, a, b);
      ApartMeansClash(c, s, es, t, key, route, a, b, x, y, o);
    }
    if Clash(x, y, o) {
      var es, t := ClashIsReached(c, s, key, route, a, b, x, y, o);
    } else if Clash(y, x, o) {
      var es, t := ClashIsReached(c, s, key, route, b, a, y, x, o);
      assert EndsApart(t, key, route, a, b) && RaceSteps(es, a, b);
    }
  }

  lemma {:induction false} ApartMeansClash(c: Conf, s: State, es: seq<Step>, t: State, key: Key, route: seq<Node>,
                                           a: nat, b: nat, x: Op, y: Op, o: Option<Value>)
    requires AtStart(s, key, route, a, b, x, y, o) && RaceSteps(es, a, b) && From(c, Rivals, s)(es, t)
    requires EndsApart(t, key, route, a, b)
    ensures MayDiverge(x, y, o)
  {
    var ss :| Path(c, Rivals, ss, es) && ss[0] == s && ss[|es|] == t;
    PathInRace(c, ss, es, |es|, key, route, a, b, x, y, o);
    OverDisagreesOnClash(ViewOf(t, key, route, a, b), x, y, o);
  }

  // ---------------------------------------------------------------- from the start

  /** A race changes nothing but the data and how far the two have come. */
  ghost predicate SameOtherwise(s: State, t: State) {
    && t.ops.Keys == s.ops.Keys && t.overlay == s.overlay && t.task == s.task && t.nodes == s.nodes && t.repl == s.repl
  }

  lemma {:induction false} PathOtherwise(c: Conf, ss: seq<State>, es: seq<Step>, n: nat, a: nat, b: nat)
    requires Path(c, Rivals, ss, es) && RaceSteps(es, a, b) && n <= |es|
    ensures SameOtherwise(ss[0], ss[n])
  {
    if n > 0 {
      PathOtherwise(c, ss, es, n - 1, a, b);
      assert Steps(c, Rivals)(ss[n - 1], es[n - 1], ss[n]) && RaceStep(es[n - 1], a, b);
    }
  }

  /** The race is run: nothing else has changed and both can leave. */
  lemma {:induction false} RaceIsRun(c: Conf, s: State, es: seq<Step>, t: State, key: Key, route: seq<Node>,
                                     a: nat, b: nat, x: Op, y: Op, o: Option<Value>)
    requires AtStart(s, key, route, a, b, x, y, o) && RaceSteps(es, a, b) && From(c, Rivals, s)(es, t)
    requires EndsApart(t, key, route, a, b)
    ensures SameOtherwise(s, t) && Finished(t.ops[a]) && Finished(t.ops[b])
  {
    var ss :| Path(c, Rivals, ss, es) && ss[0] == s && ss[|es|] == t;
    PathOtherwise(c, ss, es, |es|, a, b);
    PathInRace(c, ss, es, |es|, key, route, a, b, x, y, o);
  }

  lemma {:induction false} BothLeave(c: Conf, s0: State, es: seq<Step>, t: State, a: nat, b: nat)
    returns (es': seq<Step>, t': State)
    requires From(c, Rivals, s0)(es, t) && a != b && t.ops.Keys == {a, b}
    requires Finished(t.ops[a]) && Finished(t.ops[b])
    ensures From(c, Rivals, s0)(es', t') && t'.ops == map[] && t'.data == t.data
    ensures t'.overlay == t.overlay && t'.task == t.task && t'.nodes == t.nodes
  {
    var t1 := ClientStep(c, t, Step.Leave(a));
    LeadsClient(c, Rivals, s0, es, t, Step.Leave(a), t1);
    assert t1.ops.Keys == {b};
    t' := ClientStep(c, t1, Step.Leave(b));
    LeadsClient(c, Rivals, s0, es + [Step.Leave(a)], t1, Step.Leave(b), t');
    es' := es + [Step.Leave(a)] + [Step.Leave(b)];
    assert t'.ops.Keys == {};
  }

  /** Two mutators let in one after the other, before either has reached the primary. */
  lemma {:induction false} BothInside(c: Conf, s0: State, k: Key, x: Op, y: Op, route: seq<Node>)
    returns (es: seq<Step>, s: State)
    requires Lawful(c) && Init(c, s0) && Managed(c, k) && Mutates(x) && Mutates(y)
    requires route == Own(c, s0.nodes, Bucket(c, k)) && |route| >= 2
    ensures From(c, Rivals, s0)(es, s) && AtStart(s, k, route, 1, 2, x, y, None)
    ensures s.ops.Keys == {1, 2} && s.overlay.None? && s.task.Idle? && s.nodes == s0.nodes
  {
    var b := Bucket(c, k);
    var u, w := Running(k, x, route, 0, None), Running(k, y, route, 0, None);
    LeadsNowhere(c, Rivals, s0);
    GetInside(c, Rivals, s0, [], s0, 1, k, x);
    var s1 := GotInside(s0, 1, u, b);
    es := [] + EntrySteps(1, k, x);
    GetInside(c, Rivals, s0, es, s1, 2, k, y);
    s := GotInside(s1, 2, w, b);
    es := es + EntrySteps(2, k, y);
    assert forall i :: 0 <= i < |route| ==> route[i] in Elems(route) && route[i] in s.clients;
  }

  ghost predicate OwnersDisagree(c: Conf, s: State, k: Key) {
    exists p, q :: p in Own(c, s.nodes, Bucket(c, k)) && q in Own(c, s.nodes, Bucket(c, k))
        && Slot(s.data, p, k) != Slot(s.data, q, k)
  }

  /**
   * From the empty cluster, without any migration: two mutators whose effects do not commute on an
   * absent object can leave a key of at least two owners in disagreement, with nobody in flight.
   */
  lemma {:induction false} RivalsFromTheStart(c: Conf, s0: State, k: Key, x: Op, y: Op)
    returns (es: seq<Step>, t: State)
    requires Lawful(c) && Init(c, s0) && Managed(c, k) && |Own(c, s0.nodes, Bucket(c, k))| >= 2
    requires Mutates(x) && Mutates(y) && MayDiverge(x, y, None)
    ensures From(c, Rivals, s0)(es, t) && Quiescent(c, t) && OwnersDisagree(c, t, k)
  {
    var route := Own(c, s0.nodes, Bucket(c, k));
    var es1, s := BothInside(c, s0, k, x, y, route);
    RivalsDisagreeIff(c, s, k, route, 1, 2, x, y, None);
    var es2, u :| RaceSteps(es2, 1, 2) && From(c, Rivals, s)(es2, u) && EndsApart(u, k, route, 1, 2);
    RaceIsRun(c, s, es2, u, k, route, 1, 2, x, y, None);
    LeadsThrough(c, Rivals, s0, es1, s, es2, u);
    es, t := BothLeave(c, s0, es1 + es2, u, 1, 2);
    var slots := SlotsOf(u.data, k, route);
    var i :| 0 < i < |slots| && slots[i] != slots[0];
    assert route[i] in route && route[0] in route;
  }
}
