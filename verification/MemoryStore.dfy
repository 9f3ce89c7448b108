/** Two-level maps: collection, then key. */
module Nested {
  import opened Seqs
  import opened Values

  type Two<T> = map<string, map<string, T>>

  function Get2<T>(m: Two<T>, c: string, i: string): Option<T> {
    if c in m && i in m[c] then Some(m[c][i]) else None
  }

  function Put2<T>(m: Two<T>, c: string, i: string, v: T): Two<T> {
    m[c := (if c in m then m[c] else map[])[i := v]]
  }

  function Del2<T>(m: Two<T>, c: string, i: string): Two<T> {
    if c in m then m[c := m[c] - {i}] else m
  }

  lemma {:induction false} Put2Get<T>(m: Two<T>, c: string, i: string, v: T)
    ensures forall c', i' :: Get2(Put2(m, c, i, v), c', i') == if c' == c && i' == i then Some(v) else Get2(m, c', i')
  {}

  lemma {:induction false} Del2Get<T>(m: Two<T>, c: string, i: string)
    ensures forall c', i' :: Get2(Del2(m, c, i), c', i') == if c' == c && i' == i then None else Get2(m, c', i')
  {}
}

/** The in-memory store object against the reference store. */
module MemoryObject {
  import opened Seqs
  import opened Values
  import opened Timed
  import opened Operations
  import opened Nested
  import opened KeyOrder
  import opened Scans

  function CellOf(v: Option<Value>, expiry: Option<nat>): Option<Cell> {
    if v.Some? then Some(Cell(v.value, expiry)) else None
  }

  ghost predicate Models(t: TimedMap, objects: Two<Value>, expiry: Two<nat>) {
    forall c, i :: CellAt(t, Key(c, i)) == CellOf(Get2(objects, c, i), Get2(expiry, c, i))
  }

  /** An expiry is only kept for an object that is there. */
  ghost predicate NoStrays(objects: Two<Value>, expiry: Two<nat>) {
    forall c, i :: Get2(expiry, c, i).Some? ==> Get2(objects, c, i).Some?
  }

  class MemoryStore {
    var objects: Two<Value>
    var expiry: Two<nat>
    ghost var model: TimedMap

    ghost predicate Valid()
      reads this
    {
      Models(model, objects, expiry) && NoStrays(objects, expiry)
    }

    constructor ()
      ensures Valid() && model == map[]
    {
      objects, expiry, model := map[], map[], map[];
    }

    method IsExpired(k: Key, now: nat) returns (b: bool)
      ensures b == (Get2(expiry, k.coll, k.id).Some? && Get2(expiry, k.coll, k.id).value <= now)
    {
      b := k.coll in expiry && k.id in expiry[k.coll] && expiry[k.coll][k.id] <= now;
    }

    method PutObject(k: Key, v: Value)
      requires Valid()
      modifies this
      ensures Valid() && model == PutPlain(old(model), k, v)
    {
      Del2Get(expiry, k.coll, k.id);
      Put2Get(objects, k.coll, k.id, v);
      expiry := Del2(expiry, k.coll, k.id);
      objects := Put2(objects, k.coll, k.id, v);
      model := PutPlain(model, k, v);
    }

    method PutBatch(items: seq<(Key, Value)>)
      requires Valid()
      modifies this
      ensures Valid() && model == PutAll(old(model), items)
    {
      for i := 0 to |items|
        invariant Valid() && model == PutAll(old(model), items[..i])
      {
        assert items[..i + 1][..i] == items[..i];
        PutObject(items[i].0, items[i].1);
      }
      assert items[..|items|] == items;
    }

    method GetObject(k: Key, now: nat) returns (o: Option<Value>)
      requires Valid()
      ensures o == ReadAt(model, k, now)
    {
      assert CellAt(model, Key(k.coll, k.id)) == CellOf(Get2(objects, k.coll, k.id), Get2(expiry, k.coll, k.id));
      var gone := IsExpired(k, now);
      if gone { return None; }
      o := if k.coll in objects && k.id in objects[k.coll] then Some(objects[k.coll][k.id]) else None;
    }

    method ClearCollection(coll: string)
      requires Valid()
      modifies this
      ensures Valid() && model == Cleared(old(model), coll)
    {
      objects := objects - {coll};
      expiry := expiry - {coll};
      model := Cleared(model, coll);
      assert forall c, i :: Get2(objects, c, i) == if c == coll then None else old(Get2(objects, c, i));
      assert forall c, i :: Get2(expiry, c, i) == if c == coll then None else old(Get2(expiry, c, i));
    }

    method DeleteObject(k: Key)
      requires Valid()
      modifies this
      ensures Valid() && model == old(model) - {k}
    {
      Del2Get(objects, k.coll, k.id);
      Del2Get(expiry, k.coll, k.id);
      objects := Del2(objects, k.coll, k.id);
      expiry := Del2(expiry, k.coll, k.id);
      model := model - {k};
    }

    method PutObjectAt(k: Key, v: Value, at: nat)
      requires Valid()
      modifies this
      ensures Valid() && model == old(model)[k := Cell(v, Some(at))]
    {
      Put2Get(objects, k.coll, k.id, v);
      Put2Get(expiry, k.coll, k.id, at);
      objects := Put2(objects, k.coll, k.id, v);
      expiry := Put2(expiry, k.coll, k.id, at);
      model := model[k := Cell(v, Some(at))];
    }

    /** The operations that read, decide and write back under the store lock. */
    method OnObject(k: Key, op: Op, now: nat) returns (res: Result)
      requires Valid()
      modifies this
      ensures Valid() && model == Exec(old(model), Cmd.OnObject(k, op), now)
      ensures res == Answer(old(model), Cmd.OnObject(k, op), now)
      ensures Promised(op, ReadAt(old(model), k, now), res, ReadAt(model, k, now))
    {
      var o := GetObject(k, now);
      PromiseKept(op, o);
      ObjectOpsReadPlainly(model, k, op, now, k);
      res := AnswerOf(op, o);
      match EffectOf(op, o)
      case Keep =>
      case Save(v) => PutObject(k, v);
      case Drop => DeleteObject(k);
    }

    /** Collects the live keys in whatever order the hash map has them, then sorts, filters and cuts. */
    method ScanRange(coll: string, r: Range, limit: nat, now: nat) returns (out: seq<string>)
      requires Valid()
      ensures out == Scans.ScanRange(Listing(LiveKeys(model, coll, now)), r, limit)
      ensures ScanOf(out, LiveKeys(model, coll, now), r.after, r.prefix, r.end, limit)
    {
      var order := ListInAnyOrder(if coll in objects then objects[coll].Keys else {});
      var exp := if coll in expiry then expiry[coll] else map[];
      var live := (k: string) => !(k in exp && exp[k] <= now);
      FilterElems(order, live);
      assert LiveKeys(model, coll, now) == Elems(Filter(order, live)) by {
        forall i ensures i in LiveKeys(model, coll, now) <==> i in order && live(i) {
          assert CellAt(model, Key(coll, i)) == CellOf(Get2(objects, coll, i), Get2(expiry, coll, i));
          assert i in order <==> i in Elems(order);
          if i in LiveKeys(model, coll, now) { assert Key(coll, i) in model; }
        }
      }
      out := DefaultScan(Filter(order, live), r, limit);
    }

    method ExpiryOf(k: Key) returns (at: Option<nat>)
      requires Valid()
      ensures at == if k in model then model[k].expiry else None
    {
      assert CellAt(model, Key(k.coll, k.id)) == CellOf(Get2(objects, k.coll, k.id), Get2(expiry, k.coll, k.id));
      at := if k.coll in expiry && k.id in expiry[k.coll] then Some(expiry[k.coll][k.id]) else None;
    }

    /** Drops what has expired, and says how many objects that were. */
    method SweepExpired(now: nat) returns (n: nat)
      requires Valid()
      modifies this
      ensures Valid() && model == Swept(old(model), now)
      ensures n == |Due(old(model), now)|
    {
      var dead := set c, i | c in expiry && i in expiry[c] && expiry[c][i] <= now :: Key(c, i);
      assert dead == Due(model, now) by {
        forall k ensures k in dead <==> k in Due(model, now) {
          var kk := Key(k.coll, k.id);
          assert CellAt(model, kk) == CellOf(Get2(objects, k.coll, k.id), Get2(expiry, k.coll, k.id));
        }
      }
      var todo := dead;
      while todo != {}
        invariant Valid() && todo <= dead && model == old(model) - (dead - todo)
      {
        var k :| k in todo;
        DeleteObject(k);
        todo := todo - {k};
      }
      SweptIsRest(old(model), now);
      n := |dead|;
    }
  }
}
