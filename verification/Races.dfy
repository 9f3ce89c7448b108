/**
 * Two mutators in flight on one key: each goes to the primary and then to the other owners in
 * order, and nothing keeps their visits to one owner in the order of the primary.
 */
module Races {
  import opened Seqs
  import opened Values

  /** One of the two operations: how many owners it has passed, and what the primary answered. */
  datatype Side = Side(op: Op, pos: nat, res: Option<Result>)

  /** The two operations and what each owner, primary first, holds for the key. */
  datatype View = View(a: Side, b: Side, slots: seq<Option<Value>>)

  predicate CanTurn(p: Side, n: nat) { p.pos == 0 || (p.pos < n && p.res.Some?) }

  /** The operation after its next owner. An outcome that is not replicated ends it at the primary. */
  function SideAfter(p: Side, slots: seq<Option<Value>>): Side
    requires 0 < |slots|
  {
    if p.pos > 0 then p.(pos := p.pos + 1)
    else
      var r := Apply(p.op, slots[0]).1;
      p.(pos := if Replicates(p.op, r) then 1 else |slots|, res := Some(r))
  }

  /** The owners after the operation's next one. */
  function SlotsAfter(p: Side, slots: seq<Option<Value>>): seq<Option<Value>>
    requires 0 < |slots| && CanTurn(p, |slots|)
  {
    if p.pos == 0 then slots[0 := Apply(p.op, slots[0]).0]
    else slots[p.pos := ReplicaEffect(p.op, p.res.value, slots[p.pos])]
  }

  predicate Over(v: View) { v.a.pos >= |v.slots| && v.b.pos >= |v.slots| }

  ghost predicate Disagree(slots: seq<Option<Value>>) { exists i :: 0 < i < |slots| && slots[i] != slots[0] }

  // ---------------------------------------------------------------- the condition

  function FirstAnswer(x: Op, o: Option<Value>): Result { Apply(x, o).1 }

  function SecondAnswer(x: Op, y: Op, o: Option<Value>): Result { Apply(y, Apply(x, o).0).1 }

  function ByFirst(x: Op, o: Option<Value>, w: Option<Value>): Option<Value> { ReplicaEffect(x, FirstAnswer(x, o), w) }

  function BySecond(x: Op, y: Op, o: Option<Value>, w: Option<Value>): Option<Value> {
    ReplicaEffect(y, SecondAnswer(x, y, o), w)
  }

  /** With `x` first at the primary, the two replica effects do not commute on `o`. */
  predicate Clash(x: Op, y: Op, o: Option<Value>) {
    ByFirst(x, o, BySecond(x, y, o, o)) != BySecond(x, y, o, ByFirst(x, o, o))
  }

  lemma {:induction false} NotReplicatedIsIdentity(op: Op, r: Result, w: Option<Value>)
    requires Mutates(op) && !Replicates(op, r)
    ensures ReplicaEffect(op, r, w) == w
  {}

  /** Owners visited in the order of the primary end like the primary. */
  lemma {:induction false} InOrderAgrees(x: Op, y: Op, o: Option<Value>)
    ensures ByFirst(x, o, o) == Apply(x, o).0
    ensures BySecond(x, y, o, ByFirst(x, o, o)) == Apply(y, Apply(x, o).0).0
  {
    ReplicaAgrees(x, o);
    ReplicaAgrees(y, Apply(x, o).0);
  }

  // ---------------------------------------------------------------- every interleaving

  ghost predicate NobodyYet(v: View, x: Op, y: Op, o: Option<Value>) {
    v.a == Side(x, 0, None) && v.b == Side(y, 0, None) && forall i :: 0 <= i < |v.slots| ==> v.slots[i] == o
  }

  /** What an owner can hold, given which of the two has visited it. */
  predicate CanHold(w: Option<Value>, x: Op, y: Op, o: Option<Value>, byX: bool, byY: bool) {
    if byX && byY then
      w == BySecond(x, y, o, ByFirst(x, o, o)) || w == ByFirst(x, o, BySecond(x, y, o, o))
    else if byX then w == ByFirst(x, o, o)
    else if byY then w == BySecond(x, y, o, o)
    else w == o
  }

  /** `p`, doing `x`, was first at the primary; `q`, doing `y`, comes or came second. */
  ghost predicate Led(p: Side, q: Side, slots: seq<Option<Value>>, x: Op, y: Op, o: Option<Value>) {
    && p.op == x && 0 < p.pos <= |slots| && p.res == Some(FirstAnswer(x, o))
    && q.op == y && q.pos <= |slots| && q.res == (if q.pos == 0 then None else Some(SecondAnswer(x, y, o)))
    && slots[0] == (if q.pos == 0 then Apply(x, o).0 else Apply(y, Apply(x, o).0).0)
    && forall i :: 0 < i < |slots| ==> CanHold(slots[i], x, y, o, i < p.pos, i < q.pos)
  }

  lemma {:induction false} LeaderTurns(p: Side, q: Side, slots: seq<Option<Value>>, x: Op, y: Op, o: Option<Value>)
    requires Led(p, q, slots, x, y, o) && CanTurn(p, |slots|)
    ensures Led(SideAfter(p, slots), q, SlotsAfter(p, slots), x, y, o)
  {}

  lemma {:induction false} FollowerTurns(p: Side, q: Side, slots: seq<Option<Value>>, x: Op, y: Op, o: Option<Value>)
    requires Led(p, q, slots, x, y, o) && CanTurn(q, |slots|) && Mutates(y)
    ensures Led(p, SideAfter(q, slots), SlotsAfter(q, slots), x, y, o)
  {
    if q.pos == 0 && !Replicates(y, SecondAnswer(x, y, o)) {
      NotReplicatedIsIdentity(y, SecondAnswer(x, y, o), o);
      NotReplicatedIsIdentity(y, SecondAnswer(x, y, o), ByFirst(x, o, o));
    }
  }

  lemma {:induction false} FirstTurn(p: Side, q: Side, slots: seq<Option<Value>>, x: Op, y: Op, o: Option<Value>)
    requires p == Side(x, 0, None) && q == Side(y, 0, None) && Mutates(x) && |slots| > 0
    requires forall i :: 0 <= i < |slots| ==> slots[i] == o
    ensures Led(SideAfter(p, slots), q, SlotsAfter(p, slots), x, y, o)
  {
    if !Replicates(x, FirstAnswer(x, o)) { NotReplicatedIsIdentity(x, FirstAnswer(x, o), o); }
  }

  /** All the states two racing mutators can be in. */
  ghost predicate InRace(v: View, x: Op, y: Op, o: Option<Value>) {
    NobodyYet(v, x, y, o) || Led(v.a, v.b, v.slots, x, y, o) || Led(v.b, v.a, v.slots, y, x, o)
  }

  lemma {:induction false} TurnKeepsRace(v: View, x: Op, y: Op, o: Option<Value>, byA: bool)
    requires InRace(v, x, y, o) && Mutates(x) && Mutates(y) && |v.slots| > 0
    requires CanTurn(if byA then v.a else v.b, |v.slots|)
    ensures InRace(Turned(v, byA), x, y, o)
  {
    if NobodyYet(v, x, y, o) {
      if byA { FirstTurn(v.a, v.b, v.slots, x, y, o); } else { FirstTurn(v.b, v.a, v.slots, y, x, o); }
    } else if Led(v.a, v.b, v.slots, x, y, o) {
      if byA { LeaderTurns(v.a, v.b, v.slots, x, y, o); } else { FollowerTurns(v.a, v.b, v.slots, x, y, o); }
    } else {
      if byA { FollowerTurns(v.b, v.a, v.slots, y, x, o); } else { LeaderTurns(v.b, v.a, v.slots, y, x, o); }
    }
  }

  function Turned(v: View, byA: bool): View
    requires 0 < |v.slots| && CanTurn(if byA then v.a else v.b, |v.slots|)
  {
    if byA then View(SideAfter(v.a, v.slots), v.b, SlotsAfter(v.a, v.slots))
    else View(v.a, SideAfter(v.b, v.slots), SlotsAfter(v.b, v.slots))
  }

  lemma {:induction false} LedOver(p: Side, q: Side, slots: seq<Option<Value>>, x: Op, y: Op, o: Option<Value>, i: nat)
    requires Led(p, q, slots, x, y, o) && p.pos >= |slots| && q.pos >= |slots| && 0 < i < |slots|
            && slots[i] != slots[0]
    ensures Clash(x, y, o)
  {
    InOrderAgrees(x, y, o);
    assert CanHold(slots[i], x, y, o, true, true);
  }

  /** However they interleave, owners end in disagreement only where the effects clash. */
  lemma {:induction false} OverDisagreesOnClash(v: View, x: Op, y: Op, o: Option<Value>)
    requires InRace(v, x, y, o) && Over(v) && |v.slots| > 0 && Disagree(v.slots)
    ensures MayDiverge(x, y, o)
  {
    var i :| 0 < i < |v.slots| && v.slots[i] != v.slots[0];
    if Led(v.a, v.b, v.slots, x, y, o) {
      LedOver(v.a, v.b, v.slots, x, y, o, i);
    } else if Led(v.b, v.a, v.slots, y, x, o) {
      LedOver(v.b, v.a, v.slots, y, x, o, i);
    }
  }

  /** A clash is between two outcomes that are both replicated. */
  lemma {:induction false} ClashReplicates(x: Op, y: Op, o: Option<Value>)
    requires Clash(x, y, o) && Mutates(x) && Mutates(y)
    ensures Replicates(x, FirstAnswer(x, o)) && Replicates(y, SecondAnswer(x, y, o))
  {
    if !Replicates(x, FirstAnswer(x, o)) {
      NotReplicatedIsIdentity(x, FirstAnswer(x, o), BySecond(x, y, o, o));
      NotReplicatedIsIdentity(x, FirstAnswer(x, o), o);
    }
    if !Replicates(y, SecondAnswer(x, y, o)) {
      NotReplicatedIsIdentity(y, SecondAnswer(x, y, o), ByFirst(x, o, o));
      NotReplicatedIsIdentity(y, SecondAnswer(x, y, o), o);
    }
  }

  /** What the owners hold once an operation has visited them from position `j` on. */
  function Visited(p: Side, slots: seq<Option<Value>>): seq<Option<Value>>
    requires p.res.Some?
  {
    seq(|slots|, i requires 0 <= i < |slots| => if i < p.pos then
        slots[i] else ReplicaEffect(p.op, p.res.value, slots[i]))
  }

  function Mine(v: View, byA: bool): Side { if byA then v.a else v.b }

  function BroadcastBy(v: View, byA: bool): View
    requires Mine(v, byA).res.Some?
  {
    var p := Mine(v, byA);
    var q := p.(pos := if p.pos < |v.slots| then |v.slots| else p.pos);
    if byA then View(q, v.b, Visited(p, v.slots)) else View(v.a, q, Visited(p, v.slots))
  }

  lemma {:induction false} TurnThenFinish(v: View, byA: bool)
    requires |v.slots| > 0 && Mine(v, byA).res.Some? && 0 < Mine(v, byA).pos < |v.slots|
    ensures Mine(Turned(v, byA), byA).res.Some? && BroadcastBy(Turned(v, byA), byA) == BroadcastBy(v, byA)
  {
    var p := Mine(v, byA);
    assert Visited(SideAfter(p, v.slots), SlotsAfter(p, v.slots)) == Visited(p, v.slots);
  }

  /** With a clash it is enough that `b` overtakes `a` on the way to the other owners. */
  lemma {:induction false} ClashSchedule(v: View, x: Op, y: Op, o: Option<Value>)
    requires NobodyYet(v, x, y, o) && Clash(x, y, o) && Mutates(x) && Mutates(y) && |v.slots| >= 2
    ensures CanTurn(v.b, |v.slots|)
    ensures var v2 := Turned(Turned(v, true), false);
            && v2.a.res.Some? && v2.a.pos > 0 && v2.b.res.Some? && v2.b.pos > 0
            && var t := BroadcastBy(BroadcastBy(v2, false), true);
               Over(t) && Disagree(t.slots)
  {
    ClashReplicates(x, y, o);
    InOrderAgrees(x, y, o);
    var v2 := Turned(Turned(v, true), false);
    assert v2.a == Side(x, 1, Some(FirstAnswer(x, o))) && v2.b == Side(y, 1, Some(SecondAnswer(x, y, o)));
    assert v2.slots[0] == Apply(y, Apply(x, o).0).0 && v2.slots[1] == o;
    var v3 := BroadcastBy(v2, false);
    assert v3.slots[0] == v2.slots[0] && v3.slots[1] == BySecond(x, y, o, o) && v3.a == v2.a;
    var t := BroadcastBy(v3, true);
    assert t.slots[0] == v2.slots[0] && t.slots[1] == ByFirst(x, o, BySecond(x, y, o, o));
  }

  // ---------------------------------------------------------------- which pairs clash

  /** The two operations can leave owners in disagreement. */
  predicate MayDiverge(x: Op, y: Op, o: Option<Value>) { Clash(x, y, o) || Clash(y, x, o) }

  lemma {:induction false} PutsRace(u: Value, v: Value, o: Option<Value>)
    ensures MayDiverge(Put(u), Put(v), o) <==> u != v
  {}

  lemma {:induction false} PutAndDeleteRace(u: Value, o: Option<Value>)
    ensures MayDiverge(Put(u), Delete, o) && !MayDiverge(Delete, Delete, o)
  {}

  /** Two additions leave arrays in different order, not with different members. */
  lemma {:induction false} SetAddsRace(m: string, n: string, o: Option<Value>)
    ensures MayDiverge(SetAdd(m), SetAdd(n), o) <==> m != n && m !in Members(o) && n !in Members(o)
  {
    var xs := Members(o);
    if m != n && m !in xs && n !in xs {
      assert (xs + [m] + [n])[|xs|] == m && (xs + [n] + [m])[|xs|] == n;
    }
  }

  lemma {:induction false} WrapAddFixed(a: int, d: int)
    requires InI64(a) && InI64(d)
    ensures InI64(WrapAdd(a, d)) && (WrapAdd(a, d) == a <==> d == 0)
  {}

  lemma {:induction false} IncrsRace(d: int, e: int, o: Option<Value>)
    requires InI64(d) && InI64(e) && (AsCounter(o).Some? ==> InI64(AsCounter(o).value))
    ensures MayDiverge(Incr(d), Incr(e), o) <==> AsCounter(o).Some? && (d != 0 || e != 0)
  {
    if AsCounter(o).Some? {
      var n := AsCounter(o).value;
      WrapAddFixed(n, d);
      WrapAddFixed(n, e);
      WrapAddFixed(WrapAdd(n, d), e);
      WrapAddFixed(WrapAdd(n, e), d);
    }
  }

  /** A compare-and-set races a put exactly when it can win and would leave something else. */
  lemma {:induction false} CasAndPutRace(want: Option<Value>, update: Value, v: Value, o: Option<Value>)
    ensures MayDiverge(Cas(want, update), Put(v), o) <==> update != v && (o == want || Some(v) == want)
  {}
}
