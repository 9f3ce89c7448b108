/**
 * The queued writes as an algebra. Stored sets are compared by membership; under that view every
 * write absorbs earlier copies of itself, which is what makes replay safe.
 */
module IngestWrites {
  import opened Seqs
  import opened Values

  datatype Write =
    | PutValue(key: Key, value: Value)
    | AddMember(key: Key, member: string)
    | RemoveMember(key: Key, member: string)
    | Erase(key: Key)

  /** The store operation a queued write runs. */
  function OpOf(w: Write): Op {
    match w
    case PutValue(_, v) => Put(v)
    case AddMember(_, m) => SetAdd(m)
    case RemoveMember(_, m) => SetRemove(m)
    case Erase(_) => Delete
  }

  type Store = map<Key, Value>

  function Lookup(s: Store, k: Key): Option<Value> { if k in s then Some(s[k]) else None }

  /** The store after one write. */
  function Do(w: Write, s: Store): Store {
    match Apply(OpOf(w), Lookup(s, w.key)).0
    case Some(v) => s[w.key := v]
    case None => s - {w.key}
  }

  /** The store after the writes, first to last. */
  function DoAll(ws: seq<Write>, s: Store): Store {
    if ws == [] then s else Do(ws[|ws| - 1], DoAll(ws[..|ws| - 1], s))
  }

  // ---------------------------------------------------------------- what a reader of sets can see

  datatype Shape = Missing | Whole(v: Value) | Group(members: set<string>)

  function ShapeOf(o: Option<Value>): Shape {
    match o
    case None => Missing
    case Some(v) => if v.Strings? then Group(Elems(v.items)) else Whole(v)
  }

  /** Two stores no reader that takes arrays as sets can tell apart. */
  ghost predicate Same(s: Store, t: Store) {
    forall k :: ShapeOf(Lookup(s, k)) == ShapeOf(Lookup(t, k))
  }

  function Mem(s: Shape): set<string> { if s.Group? then s.members else {} }

  /** What a write does to the shape at its key. */
  function Act(w: Write, s: Shape): Shape {
    match w
    case PutValue(_, v) => ShapeOf(Some(v))
    case AddMember(_, m) => Group(Mem(s) + {m})
    case RemoveMember(_, m) =>
      if m !in Mem(s) then s else if Mem(s) == {m} then Missing else Group(Mem(s) - {m})
    case Erase(_) => Missing
  }

  lemma {:induction false} WithoutElems(xs: seq<string>, m: string)
    ensures Elems(Without(xs, m)) == Elems(xs) - {m}
    ensures |Without(xs, m)| <= |xs|
    ensures |Without(xs, m)| == |xs| <==> m !in xs
  {
    if xs != [] {
      WithoutElems(xs[1..], m);
      assert xs == [xs[0]] + xs[1..];
      ElemsConcat([xs[0]], xs[1..]);
      ElemsConcat(if xs[0] == m then [] else [xs[0]], Without(xs[1..], m));
    }
  }

  /** The store operation does to the shape exactly what `Act` says. */
  lemma {:induction false} ApplyActs(w: Write, o: Option<Value>)
    ensures ShapeOf(Apply(OpOf(w), o).0) == Act(w, ShapeOf(o))
  {
    match w
    case AddMember(_, m) =>
      ElemsConcat(Members(o), [m]);
      assert Mem(ShapeOf(o)) == Elems(Members(o));
      assert m in Members(o) ==> Mem(ShapeOf(o)) + {m} == Mem(ShapeOf(o));
    case RemoveMember(_, m) =>
      var xs := Members(o);
      WithoutElems(xs, m);
      EmptyElems(Without(xs, m));
      assert Mem(ShapeOf(o)) == Elems(xs);
      assert m in xs ==> (Elems(xs) == {m} <==> Elems(xs) - {m} == {});
    case _ =>
  }

  lemma {:induction false} DoLooks(w: Write, s: Store, k: Key)
    ensures ShapeOf(Lookup(Do(w, s), k)) == if k == w.key then Act(w, ShapeOf(Lookup(s, k))) else ShapeOf(Lookup(s, k))
  {
    if k == w.key { ApplyActs(w, Lookup(s, k)); }
  }

  // ---------------------------------------------------------------- the absorption law

  /** Shapes that `x` makes equal are still made equal by `x` after any other write. */
  lemma {:induction false} ActCongruent(x: Write, y: Write, s: Shape, t: Shape)
    requires Act(x, s) == Act(x, t)
    ensures Act(x, Act(y, s)) == Act(x, Act(y, t))
  {
    if x.AddMember? {
      assert Mem(Act(x, Act(y, s))) == Mem(Act(x, Act(y, t))) by {
        assert Mem(s) + {x.member} == Mem(t) + {x.member};
        ActMembers(y, s);
        ActMembers(y, t);
      }
    } else if x.RemoveMember? {
      ActMembers(x, s);
      ActMembers(x, t);
      if y.AddMember? {
        RemoveAfterAdd(x, y, s, t);
      } else if y.RemoveMember? {
        RemoveAfterRemove(x, y, s, t);
      }
    }
  }

  lemma {:induction false} ActMembers(y: Write, s: Shape)
    ensures y.AddMember? ==> Mem(Act(y, s)) == Mem(s) + {y.member}
    ensures y.RemoveMember? ==> Mem(Act(y, s)) == Mem(s) - {y.member}
  {}

  lemma {:induction false} RemoveAfterAdd(x: Write, y: Write, s: Shape, t: Shape)
    requires x.RemoveMember? && y.AddMember? && Mem(s) - {x.member} == Mem(t) - {x.member}
    ensures Act(x, Act(y, s)) == Act(x, Act(y, t))
  {
    var a, b := Mem(s) + {y.member}, Mem(t) + {y.member};
    assert a - {x.member} == (Mem(s) - {x.member}) + ({y.member} - {x.member});
    assert b - {x.member} == (Mem(t) - {x.member}) + ({y.member} - {x.member});
    if x.member == y.member {
      assert a == {x.member} <==> a - {x.member} == {};
      assert b == {x.member} <==> b - {x.member} == {};
    } else {
      assert y.member in a - {x.member} && y.member in b - {x.member};
      assert x.member !in a ==> a == a - {x.member};
      assert x.member !in b ==> b == b - {x.member};
    }
  }

  lemma {:induction false} RemoveAfterRemove(x: Write, y: Write, s: Shape, t: Shape)
    requires x.RemoveMember? && y.RemoveMember? && Act(x, s) == Act(x, t)
    ensures Act(x, Act(y, s)) == Act(x, Act(y, t))
  {
    RemoveTwice(x, y, s);
    RemoveTwice(x, y, t);
  }

  /** Removals of two members commute. */
  lemma {:induction false} RemoveTwice(x: Write, y: Write, s: Shape)
    requires x.RemoveMember? && y.RemoveMember?
    ensures Act(x, Act(y, s)) == Act(y, Act(x, s))
  {
    var a := Mem(s);
    assert a - {x.member} - {y.member} == a - {y.member} - {x.member};
    if x.member in a && y.member in a && x.member != y.member {
      assert y.member in a - {x.member} && x.member in a - {y.member};
      assert a == (a - {x.member}) + {x.member} && a == (a - {y.member}) + {y.member};
    }
  }

  lemma {:induction false} ActIdempotent(x: Write, s: Shape)
    ensures Act(x, Act(x, s)) == Act(x, s)
  {}

  // ---------------------------------------------------------------- lists of writes

  lemma {:induction false} DoSame(w: Write, s: Store, t: Store)
    requires Same(s, t)
    ensures Same(Do(w, s), Do(w, t))
  {
    forall k ensures ShapeOf(Lookup(Do(w, s), k)) == ShapeOf(Lookup(Do(w, t), k)) {
      DoLooks(w, s, k);
      DoLooks(w, t, k);
    }
  }

  lemma {:induction false} DoAllSame(ws: seq<Write>, s: Store, t: Store)
    requires Same(s, t)
    ensures Same(DoAll(ws, s), DoAll(ws, t))
  {
    if ws != [] {
      var n := |ws| - 1;
      DoAllSame(ws[..n], s, t);
      DoSame(ws[n], DoAll(ws[..n], s), DoAll(ws[..n], t));
    }
  }

  lemma {:induction false} DoAllSnoc(a: seq<Write>, x: Write, s: Store)
    ensures DoAll(a + [x], s) == Do(x, DoAll(a, s))
  {
    assert (a + [x])[..|a|] == a;
  }

  lemma {:induction false} DoAllConcat(a: seq<Write>, b: seq<Write>, s: Store)
    ensures DoAll(a + b, s) == DoAll(b, DoAll(a, s))
  {
    if b == [] {
      assert a + b == a;
    } else {
      var c, x := b[..|b| - 1], b[|b| - 1];
      DoAllConcat(a, c, s);
      assert a + b == a + c + [x] && b == c + [x];
      DoAllSnoc(a + c, x, s);
      DoAllSnoc(c, x, DoAll(a, s));
    }
  }

  lemma {:induction false} DoCongruent(x: Write, y: Write, s: Store, t: Store)
    requires Same(Do(x, s), Do(x, t))
    ensures Same(Do(x, Do(y, s)), Do(x, Do(y, t)))
  {
    forall k ensures ShapeOf(Lookup(Do(x, Do(y, s)), k)) == ShapeOf(Lookup(Do(x, Do(y, t)), k)) {
      DoLooks(x, s, k);
      DoLooks(x, t, k);
      DoLooks(y, s, k);
      DoLooks(y, t, k);
      DoLooks(x, Do(y, s), k);
      DoLooks(x, Do(y, t), k);
      if k == x.key && k == y.key { ActCongruent(x, y, ShapeOf(Lookup(s, k)), ShapeOf(Lookup(t, k))); }
    }
  }

  lemma {:induction false} RunCongruent(x: Write, ys: seq<Write>, s: Store, t: Store)
    requires Same(Do(x, s), Do(x, t))
    ensures Same(Do(x, DoAll(ys, s)), Do(x, DoAll(ys, t)))
  {
    if ys != [] {
      var n := |ys| - 1;
      RunCongruent(x, ys[..n], s, t);
      DoCongruent(x, ys[n], DoAll(ys[..n], s), DoAll(ys[..n], t));
    }
  }

  lemma {:induction false} DoIdempotent(x: Write, s: Store)
    ensures Same(Do(x, Do(x, s)), Do(x, s))
  {
    forall k ensures ShapeOf(Lookup(Do(x, Do(x, s)), k)) == ShapeOf(Lookup(Do(x, s), k)) {
      DoLooks(x, s, k);
      DoLooks(x, Do(x, s), k);
      ActIdempotent(x, ShapeOf(Lookup(s, k)));
    }
  }

  /** A write that runs again at the end makes an earlier copy of itself invisible. */
  lemma {:induction false} EarlierCopyInvisible(x: Write, ys: seq<Write>, s: Store)
    ensures Same(Do(x, DoAll(ys, Do(x, s))), Do(x, DoAll(ys, s)))
  {
    DoIdempotent(x, s);
    RunCongruent(x, ys, Do(x, s), s);
  }

  lemma {:induction false} DoAllSplit(a: seq<Write>, x: Write, b: seq<Write>, s: Store)
    ensures DoAll(a + [x] + b, s) == DoAll(b, Do(x, DoAll(a, s)))
  {
    DoAllConcat(a + [x], b, s);
    DoAllSnoc(a, x, s);
  }

  lemma {:induction false} AbsorbInMiddle(a: seq<Write>, x: Write, b: seq<Write>, s: Store)
    ensures Same(DoAll(a + [x] + b, Do(x, s)), DoAll(a + [x] + b, s))
  {
    DoAllSplit(a, x, b, s);
    DoAllSplit(a, x, b, Do(x, s));
    EarlierCopyInvisible(x, a, s);
    DoAllSame(b, Do(x, DoAll(a, Do(x, s))), Do(x, DoAll(a, s)));
  }

  /** Doing first any one of the writes that a list is going to do changes nothing. */
  lemma {:induction false} AbsorbOne(zs: seq<Write>, i: nat, s: Store)
    requires i < |zs|
    ensures Same(DoAll(zs, Do(zs[i], s)), DoAll(zs, s))
  {
    assert zs == zs[..i] + [zs[i]] + zs[i + 1..];
    AbsorbInMiddle(zs[..i], zs[i], zs[i + 1..], s);
  }

  /** Doing first any writes of a list, in any order and number, changes nothing. */
  lemma {:induction false} AbsorbAll(ys: seq<Write>, zs: seq<Write>, s: Store)
    requires Elems(ys) <= Elems(zs)
    ensures Same(DoAll(zs, DoAll(ys, s)), DoAll(zs, s))
  {
    if ys != [] {
      var n := |ys| - 1;
      assert ys[n] in Elems(ys) && forall y :: y in Elems(ys[..n]) ==> y in Elems(ys);
      AbsorbAll(ys[..n], zs, s);
      var i :| 0 <= i < |zs| && zs[i] == ys[n];
      AbsorbOne(zs, i, DoAll(ys[..n], s));
    }
  }

  /** Replaying a prefix of a list of writes and then the whole list equals the list alone. */
  lemma {:induction false} ReplayPrefix(ws: seq<Write>, p: nat, s: Store)
    requires p <= |ws|
    ensures Same(DoAll(ws, DoAll(ws[..p], s)), DoAll(ws, s))
  {
    AbsorbAll(ws[..p], ws, s);
  }
}
