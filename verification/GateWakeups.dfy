/**
 * Waiting at the gate: tasks that enter, leave, freeze, drain and unfreeze concurrently, with the
 * watch channel that wakes them. A state change and the bump that announces it are two steps, and
 * so are the subscription of a waiter, its look at the gate and its going to sleep.
 */
module GateWakeups {
  import opened Gates

  /** What a waiting loop waits for. */
  datatype Want = Entry(b: nat) | Clear(bs: set<nat>)

  /** `seen` is the channel version at the time of the subscription. */
  datatype Task =
    | Looping(want: Want)
    | Subscribed(want: Want, seen: nat)
    | Blocked(want: Want, seen: nat)
    | Holding(b: nat)
    | Bumping

  datatype State = State(gate: Gate, version: nat, tasks: map<nat, Task>)

  datatype Step =
    | Call(id: nat, want: Want)
    | Subscribe(id: nat)
    | Look(id: nat)
    | Wake(id: nat)
    | Cancel(id: nat)
    | Release(id: nat)
    | Freeze(bs: set<nat>)
    | Unfreeze(id: nat, bs: set<nat>)
    | Bump(id: nat)

  const Start := State(Open, 0, map[])

  predicate Ready(g: Gate, w: Want) {
    match w
    case Entry(b) => MayEnter(g, b)
    case Clear(bs) => Drained(g, bs)
  }

  predicate Enabled(s: State, e: Step) {
    match e
    case Call(id, _) => id !in s.tasks
    case Subscribe(id) => id in s.tasks && s.tasks[id].Looping?
    case Look(id) => id in s.tasks && s.tasks[id].Subscribed?
    case Wake(id) => id in s.tasks && s.tasks[id].Blocked? && s.tasks[id].seen < s.version
    case Cancel(id) => id in s.tasks && s.tasks[id].Blocked?
    case Release(id) => id in s.tasks && s.tasks[id].Holding?
    case Freeze(_) => true
    case Unfreeze(id, _) => id !in s.tasks
    case Bump(id) => id in s.tasks && s.tasks[id].Bumping?
  }

  function With(s: State, id: nat, t: Task): State { s.(tasks := s.tasks[id := t]) }

  /** One look at the gate: a ready entry takes a token, a ready drain returns, anything else sleeps. */
  function Looked(s: State, id: nat, w: Want, seen: nat): State {
    if !Ready(s.gate, w) then With(s, id, Blocked(w, seen))
    else match w
      case Entry(b) => With(s, id, Holding(b)).(gate := Entered(s.gate, b))
      case Clear(_) => s.(tasks := s.tasks - {id})
  }

  function After(s: State, e: Step): State
    requires Enabled(s, e)
  {
    match e
    case Call(id, w) => With(s, id, Looping(w))
    case Subscribe(id) => With(s, id, Subscribed(s.tasks[id].want, s.version))
    case Look(id) => Looked(s, id, s.tasks[id].want, s.tasks[id].seen)
    case Wake(id) => With(s, id, Looping(s.tasks[id].want))
    case Cancel(id) => s.(tasks := s.tasks - {id})
    case Release(id) => With(s, id, Bumping).(gate := Left(s.gate, s.tasks[id].b))
    case Freeze(bs) => s.(gate := Froze(s.gate, bs))
    case Unfreeze(id, bs) => With(s, id, Bumping).(gate := Thawed(s.gate, bs))
    case Bump(id) => State(s.gate, s.version + 1, s.tasks - {id})
  }

  /** `es` can be taken from `s`, one step after the other. */
  predicate CanRun(s: State, es: seq<Step>)
    decreases |es|
  {
    es == [] || (Enabled(s, es[0]) && CanRun(After(s, es[0]), es[1..]))
  }

  function Ran(s: State, es: seq<Step>): State
    requires CanRun(s, es)
    decreases |es|
  {
    if es == [] then s else Ran(After(s, es[0]), es[1..])
  }

  // ---------------------------------------------------------------- the invariant

  /** Some task has changed the gate and has yet to announce it. */
  ghost predicate BumpDue(s: State) { exists id :: id in s.tasks && s.tasks[id].Bumping? }

  /** The sleeper's condition does not hold, or it has been or will be told to look again. */
  ghost predicate NotForgotten(s: State, t: Task) {
    t.Blocked? && Ready(s.gate, t.want) ==> t.seen < s.version || BumpDue(s)
  }

  ghost predicate SeenOk(s: State, t: Task) { t.Subscribed? || t.Blocked? ==> t.seen <= s.version }

  ghost function Holders(s: State, b: nat): set<nat> { set id | id in s.tasks && s.tasks[id] == Holding(b) }

  ghost predicate CountOk(s: State) {
    forall b: nat ::
      && Count(s.gate, b) == |Holders(s, b)|
      && (b in s.gate.inFlight ==> s.gate.inFlight[b] > 0)
  }

  ghost predicate NoLostWakeup(s: State) {
    forall id :: id in s.tasks ==> SeenOk(s, s.tasks[id]) && NotForgotten(s, s.tasks[id])
  }

  /** Entering and freezing never make a condition true; leaving and unfreezing are announced. */
  lemma {:induction false} WakeupStep(s: State, e: Step)
    requires NoLostWakeup(s) && Enabled(s, e)
    ensures NoLostWakeup(After(s, e))
  {
    var s' := After(s, e);
    forall id | id in s'.tasks ensures SeenOk(s', s'.tasks[id]) && NotForgotten(s', s'.tasks[id]) {
      if id in s.tasks && s'.tasks[id] == s.tasks[id] {
        Undisturbed(s, e, id);
      }
    }
  }

  lemma {:induction false} Undisturbed(s: State, e: Step, id: nat)
    requires NoLostWakeup(s) && Enabled(s, e)
    requires id in s.tasks && id in After(s, e).tasks && After(s, e).tasks[id] == s.tasks[id]
    ensures NotForgotten(After(s, e), s.tasks[id])
  {
    var s' := After(s, e);
    assert NotForgotten(s, s.tasks[id]);
    match e
    case Release(j) => assert s'.tasks[j].Bumping?;
    case Unfreeze(j, _) => assert s'.tasks[j].Bumping?;
    case Bump(_) => assert SeenOk(s, s.tasks[id]);
    case Freeze(_) => SameBumpers(s, s');
    case _ => NotReadier(s, e, s.tasks[id]); SameBumpers(s, s');
  }

  lemma {:induction false} SameBumpers(s: State, s': State)
    requires forall j :: j in s.tasks && s.tasks[j].Bumping? ==> j in s'.tasks && s'.tasks[j].Bumping?
    ensures BumpDue(s) ==> BumpDue(s')
  {
    if j :| j in s.tasks && s.tasks[j].Bumping? {
      assert s'.tasks[j].Bumping?;
    }
  }

  lemma {:induction false} NotReadier(s: State, e: Step, t: Task)
    requires Enabled(s, e) && !e.Release? && !e.Unfreeze?
    ensures t.Blocked? && Ready(After(s, e).gate, t.want) ==> Ready(s.gate, t.want)
  {
    if t.Blocked? && t.want.Clear? && Ready(After(s, e).gate, t.want) {
      forall b | b in t.want.bs ensures Count(s.gate, b) == 0 {
        assert Count(After(s, e).gate, b) == 0;
      }
    }
  }

  lemma {:induction false} HoldersChange(s: State, s': State, id: nat, b: nat)
    requires forall j :: j != id ==> (j in s.tasks <==> j in s'.tasks) && (j in s.tasks ==> s.tasks[j] == s'.tasks[j])
    ensures |Holders(s', b)| + (if id in s.tasks && s.tasks[id] == Holding(b) then 1 else 0)
         == |Holders(s, b)| + (if id in s'.tasks && s'.tasks[id] == Holding(b) then 1 else 0)
  {
    forall j ensures j in Holders(s, b) - {id} <==> j in Holders(s', b) - {id} {}
    assert Holders(s, b) - {id} == Holders(s', b) - {id};
    assert id in Holders(s, b) <==> id in s.tasks && s.tasks[id] == Holding(b);
    assert id in Holders(s', b) <==> id in s'.tasks && s'.tasks[id] == Holding(b);
    WithoutOne(Holders(s, b), id);
    WithoutOne(Holders(s', b), id);
  }

  lemma {:induction false} WithoutOne(xs: set<nat>, x: nat)
    ensures |xs| == |xs - {x}| + (if x in xs then 1 else 0)
  {
    if x !in xs { assert xs - {x} == xs; }
  }

  lemma {:induction false} CountStep(s: State, e: Step)
    requires CountOk(s) && Enabled(s, e)
    ensures CountOk(After(s, e))
  {
    var s' := After(s, e);
    forall b: nat
      ensures Count(s'.gate, b) == |Holders(s', b)| && (b in s'.gate.inFlight ==> s'.gate.inFlight[b] > 0)
    {
      if e.Freeze? {
        assert Holders(s', b) == Holders(s, b);
      } else {
        HoldersChange(s, s', e.id, b);
        if e.Release? { assert e.id in Holders(s, s.tasks[e.id].b); }
      }
    }
  }

  /**
   * In every reachable state a sleeping `enter` or `drain` whose condition holds has a newer channel
   * version to wake up to, or a bump is on its way; and counts are exactly the tokens held.
   */
  lemma {:induction false} RunsLoseNoWakeup(s: State, es: seq<Step>)
    requires NoLostWakeup(s) && CountOk(s) && CanRun(s, es)
    ensures NoLostWakeup(Ran(s, es)) && CountOk(Ran(s, es))
    decreases |es|
  {
    if es != [] {
      WakeupStep(s, es[0]);
      CountStep(s, es[0]);
      RunsLoseNoWakeup(After(s, es[0]), es[1..]);
    }
  }

  lemma {:induction false} NoLostWakeupEver(es: seq<Step>)
    requires CanRun(Start, es)
    ensures NoLostWakeup(Ran(Start, es)) && CountOk(Ran(Start, es))
  {
    forall b: nat ensures Holders(Start, b) == {} {}
    RunsLoseNoWakeup(Start, es);
  }

  // ---------------------------------------------------------------- what the invariant buys

  /** The waiter got what it waited for. */
  predicate Served(s: State, id: nat, w: Want) {
    match w
    case Entry(b) => id in s.tasks && s.tasks[id] == Holding(b)
    case Clear(_) => id !in s.tasks
  }

  lemma {:induction false} RanCons(s: State, e: Step, es: seq<Step>)
    requires Enabled(s, e) && CanRun(After(s, e), es)
    ensures CanRun(s, [e] + es) && Ran(s, [e] + es) == Ran(After(s, e), es)
  {
    assert ([e] + es)[1..] == es;
  }

  lemma {:induction false} TurnServes(s: State, id: nat, w: Want, seen: nat)
    requires id in s.tasks && s.tasks[id] == Blocked(w, seen) && seen < s.version && Ready(s.gate, w)
    ensures CanRun(s, [Wake(id), Subscribe(id), Look(id)])
    ensures Served(Ran(s, [Wake(id), Subscribe(id), Look(id)]), id, w)
  {
    var s1 := After(s, Wake(id));
    var s2 := After(s1, Subscribe(id));
    RanCons(s2, Look(id), []);
    RanCons(s1, Subscribe(id), [Look(id)] + []);
    RanCons(s, Wake(id), [Subscribe(id)] + ([Look(id)] + []));
    assert [Wake(id)] + ([Subscribe(id)] + ([Look(id)] + [])) == [Wake(id), Subscribe(id), Look(id)];
  }

  /**
   * From every reachable state, a sleeper whose condition holds is served by at most one pending
   * bump and one turn of its own loop: nobody else has to act again.
   */
  lemma {:induction false} SleeperCanFinish(es: seq<Step>, id: nat) returns (more: seq<Step>)
    requires CanRun(Start, es)
    requires var s := Ran(Start, es); id in s.tasks && s.tasks[id].Blocked? && Ready(s.gate, s.tasks[id].want)
    ensures var s := Ran(Start, es); CanRun(s, more) && Served(Ran(s, more), id, s.tasks[id].want)
    ensures |more| <= 4 && forall i :: 0 < i < |more| ==> more[i] in {Wake(id), Subscribe(id), Look(id)}
    ensures more != [] && (more[0].Bump? || more[0] == Wake(id))
  {
    NoLostWakeupEver(es);
    var s := Ran(Start, es);
    var t := s.tasks[id];
    var turn := [Wake(id), Subscribe(id), Look(id)];
    assert SeenOk(s, t) && NotForgotten(s, t);
    if t.seen < s.version {
      TurnServes(s, id, t.want, t.seen);
      more := turn;
    } else {
      var j :| j in s.tasks && s.tasks[j].Bumping?;
      TurnServes(After(s, Bump(j)), id, t.want, t.seen);
      RanCons(s, Bump(j), turn);
      more := [Bump(j)] + turn;
    }
  }
}
