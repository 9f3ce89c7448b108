/** The expiry database is keyed by one string: collection, NUL, key. */
module ExpiryKeys {
  import opened Seqs

  function ExpKey(coll: string, id: string): string { coll + ['\0'] + id }

  predicate NulFree(s: string) { '\0' !in s }

  /** The parts before and after the first NUL. */
  function SplitOnce(s: string): Option<(string, string)> {
    if s == [] then None
    else if s[0] == '\0' then Some(([], s[1..]))
    else match SplitOnce(s[1..])
      case None => None
      case Some(p) => Some(([s[0]] + p.0, p.1))
  }

  lemma {:induction false} SplitBack(coll: string, id: string)
    requires NulFree(coll)
    ensures SplitOnce(ExpKey(coll, id)) == Some((coll, id))
  {
    if coll == [] {
      assert ExpKey(coll, id)[1..] == id;
    } else {
      SplitBack(coll[1..], id);
      assert ExpKey(coll, id)[1..] == ExpKey(coll[1..], id);
      assert coll == [coll[0]] + coll[1..];
    }
  }

  lemma {:induction false} SplitParts(s: string)
    ensures SplitOnce(s).Some? ==>
              NulFree(SplitOnce(s).value.0) && s == ExpKey(SplitOnce(s).value.0, SplitOnce(s).value.1)
  {
    if s != [] {
      SplitParts(s[1..]);
      assert s == [s[0]] + s[1..];
    }
  }

  lemma {:induction false} SplitSome(s: string)
    ensures SplitOnce(s).Some? <==> !NulFree(s)
  {
    if s != [] {
      SplitSome(s[1..]);
      assert s == [s[0]] + s[1..];
    }
  }

  /** The collection and key can be read back exactly for collections without a NUL. */
  lemma {:induction false} SplitsBackIff(coll: string)
    ensures (forall id :: SplitOnce(ExpKey(coll, id)) == Some((coll, id))) <==> NulFree(coll)
  {
    SplitParts(ExpKey(coll, []));
    if NulFree(coll) {
      forall id ensures SplitOnce(ExpKey(coll, id)) == Some((coll, id)) { SplitBack(coll, id); }
    } else {
      assert SplitOnce(ExpKey(coll, [])) != Some((coll, []));
    }
  }

  lemma {:induction false} ExpKeyInjective(c: string, i: string, c': string, i': string)
    requires NulFree(c) && NulFree(c') && ExpKey(c, i) == ExpKey(c', i')
    ensures c == c' && i == i'
  {
    SplitBack(c, i);
    SplitBack(c', i');
  }

  type Expiries = map<string, nat>

  function ExpAt(exp: Expiries, c: string, i: string): Option<nat> {
    if ExpKey(c, i) in exp then Some(exp[ExpKey(c, i)]) else None
  }

  lemma {:induction false} ExpDelAt(exp: Expiries, c: string, i: string)
    requires NulFree(c)
    ensures forall c', i' :: NulFree(c') ==>
              ExpAt(exp - {ExpKey(c, i)}, c', i') == if c' == c && i' == i then None else ExpAt(exp, c', i')
  {
    forall c', i' | NulFree(c')
      ensures ExpAt(exp - {ExpKey(c, i)}, c', i') == if c' == c && i' == i then None else ExpAt(exp, c', i')
    {
      if ExpKey(c', i') == ExpKey(c, i) { ExpKeyInjective(c', i', c, i); }
    }
  }

  lemma {:induction false} ExpPutAt(exp: Expiries, c: string, i: string, at: nat, exp': Expiries)
    requires NulFree(c) && exp' == exp[ExpKey(c, i) := at]
    ensures forall c', i' :: NulFree(c') ==>
              ExpAt(exp', c', i') == if c' == c && i' == i then Some(at) else ExpAt(exp, c', i')
  {
    forall c', i' | NulFree(c')
      ensures ExpAt(exp', c', i') == if c' == c && i' == i then Some(at) else ExpAt(exp, c', i')
    {
      if ExpKey(c', i') == ExpKey(c, i) { ExpKeyInjective(c', i', c, i); }
    }
  }
}

/** The LMDB store object against the reference store; every committed transaction is atomic. */
module LmdbObject {
  import opened Seqs
  import opened Values
  import opened Timed
  import opened Operations
  import opened Nested
  import opened ExpiryKeys
  import opened MemoryObject
  import opened KeyOrder
  import opened Scans

  ghost predicate Stores(t: TimedMap, objects: Two<Value>, exp: Expiries) {
    forall c, i :: NulFree(c) ==> CellAt(t, Key(c, i)) == CellOf(Get2(objects, c, i), ExpAt(exp, c, i))
  }

  /** Every expiry entry belongs to a collection that has a sub-database. */
  ghost predicate Homed(objects: Two<Value>, exp: Expiries) {
    forall e :: e in exp ==> SplitOnce(e).Some? && SplitOnce(e).value.0 in objects
  }

  ghost predicate Named(t: TimedMap) { forall k :: k in t ==> NulFree(k.coll) }

  /** The databases hold what the reference store holds; collection names have no NUL. */
  ghost predicate Agree(t: TimedMap, objects: Two<Value>, exp: Expiries) {
    Stores(t, objects, exp) && Homed(objects, exp) && Named(t)
  }

  lemma {:induction false} PutAgrees(t: TimedMap, objects: Two<Value>, exp: Expiries, k: Key, v: Value)
    requires Agree(t, objects, exp) && NulFree(k.coll)
    ensures Agree(PutPlain(t, k, v), Put2(objects, k.coll, k.id, v), exp - {ExpKey(k.coll, k.id)})
  {
    Put2Get(objects, k.coll, k.id, v);
    ExpDelAt(exp, k.coll, k.id);
  }

  lemma {:induction false} DeleteAgrees(t: TimedMap, objects: Two<Value>, exp: Expiries, k: Key)
    requires Agree(t, objects, exp) && NulFree(k.coll)
    ensures Agree(t - {k}, Del2(objects, k.coll, k.id), exp - {ExpKey(k.coll, k.id)})
  {
    Del2Get(objects, k.coll, k.id);
    ExpDelAt(exp, k.coll, k.id);
  }

  lemma {:induction false} PutUntilAgrees(t: TimedMap, objects: Two<Value>, exp: Expiries, k: Key, v: Value, at: nat)
    requires Agree(t, objects, exp) && NulFree(k.coll)
    ensures Agree(t[k := Cell(v, Some(at))], Put2(objects, k.coll, k.id, v), exp[ExpKey(k.coll, k.id) := at])
  {
    Put2Get(objects, k.coll, k.id, v);
    ExpPutAt(exp, k.coll, k.id, at, exp[ExpKey(k.coll, k.id) := at]);
    SplitBack(k.coll, k.id);
  }

  function Emptied<T>(m: Two<T>, coll: string): Two<T> { if coll in m then m[coll := map[]] else m }

  lemma {:induction false} ClearAgrees(t: TimedMap, objects: Two<Value>, exp: Expiries, coll: string)
    requires Agree(t, objects, exp)
    ensures Agree(Cleared(t, coll), Emptied(objects, coll), exp)
  {
    var cleared := Emptied(objects, coll);
    assert forall c, i :: Get2(cleared, c, i) == if c == coll then None else Get2(objects, c, i);
  }

  lemma {:induction false} ReadAgrees(t: TimedMap, objects: Two<Value>, exp: Expiries, k: Key, now: nat)
    requires Agree(t, objects, exp) && NulFree(k.coll)
    ensures CellAt(t, k) == CellOf(Get2(objects, k.coll, k.id), ExpAt(exp, k.coll, k.id))
    ensures ReadAt(t, k, now) == if DueAt(exp, k, now) then None else Get2(objects, k.coll, k.id)
  {
    assert Key(k.coll, k.id) == k;
    assert CellAt(t, Key(k.coll, k.id)) == CellOf(Get2(objects, k.coll, k.id), ExpAt(exp, k.coll, k.id));
  }

  predicate DueAt(exp: Expiries, k: Key, now: nat) {
    ExpAt(exp, k.coll, k.id).Some? && ExpAt(exp, k.coll, k.id).value <= now
  }

  function NotDue(exp: Expiries, coll: string, now: nat): string -> bool { i => !DueAt(exp, Key(coll, i), now) }

  function KeysIn<T>(m: Two<T>, coll: string): set<string> { if coll in m then m[coll].Keys else {} }

  class LmdbStore {
    var objects: Two<Value>
    var exp: Expiries
    var hasAnyTtl: bool
    // What the same calls make of the reference store.
    ghost var model: TimedMap

    /** The databases hold what the reference store holds; while the flag is down there is no expiry entry. */
    ghost predicate Valid()
      reads this
    {
      Agree(model, objects, exp) && (!hasAnyTtl ==> exp == map[])
    }

    constructor ()
      ensures Valid() && model == map[] && objects == map[] && exp == map[]
    {
      objects, exp, hasAnyTtl, model := map[], map[], false, map[];
    }

    /** Closing cleanly and opening again: the flag is recovered from the disk. */
    method Reopen()
      requires Valid()
      modifies this`hasAnyTtl
      ensures Valid() && (hasAnyTtl <==> exp != map[])
    {
      hasAnyTtl := exp != map[];
    }

    method ReadExpiry(k: Key) returns (at: Option<nat>)
      ensures at == ExpAt(exp, k.coll, k.id)
    {
      var e := ExpKey(k.coll, k.id);
      at := if e in exp then Some(exp[e]) else None;
    }

    method IsExpired(k: Key, now: nat) returns (b: bool)
      requires Valid()
      ensures b == DueAt(exp, k, now)
    {
      if !hasAnyTtl { return false; }
      var at := ReadExpiry(k);
      b := at.Some? && at.value <= now;
    }

    method ClearExpiry(k: Key)
      modifies this`exp
      ensures exp == old(exp) - {ExpKey(k.coll, k.id)}
    {
      exp := exp - {ExpKey(k.coll, k.id)};
    }

    /** A write in a transaction; the expiry is only looked for when some key ever had one. */
    method PutInTxn(k: Key, v: Value, ttl: bool)
      requires Valid() && NulFree(k.coll) && ttl == hasAnyTtl
      modifies this`objects, this`exp, this`model
      ensures Valid() && objects == Put2(old(objects), k.coll, k.id, v) && exp == old(exp) - {ExpKey(k.coll, k.id)}
      ensures model == PutPlain(old(model), k, v)
    {
      PutAgrees(model, objects, exp, k, v);
      objects := Put2(objects, k.coll, k.id, v);
      if ttl { ClearExpiry(k); }
      assert exp == old(exp) - {ExpKey(k.coll, k.id)};
      model := PutPlain(model, k, v);
    }

    method PutObject(k: Key, v: Value)
      requires Valid() && NulFree(k.coll)
      modifies this`objects, this`exp, this`model
      ensures Valid() && objects == Put2(old(objects), k.coll, k.id, v) && exp == old(exp) - {ExpKey(k.coll, k.id)}
      ensures model == PutPlain(old(model), k, v)
    {
      PutInTxn(k, v, hasAnyTtl);
    }

    method PutBatch(items: seq<(Key, Value)>)
      requires Valid() && forall x :: x in items ==> NulFree(x.0.coll)
      modifies this`objects, this`exp, this`model
      ensures Valid() && objects == Put2All(old(objects), items) && exp == old(exp) - ExpKeysOf(items)
      ensures model == PutAll(old(model), items)
    {
      if items == [] {
        assert exp - ExpKeysOf(items) == exp;
        return;
      }
      var ttl := hasAnyTtl;
      assert exp - ExpKeysOf(items[..0]) == exp;
      for i := 0 to |items|
        invariant Valid() && objects == Put2All(old(objects), items[..i]) && exp == old(exp) - ExpKeysOf(items[..i])
        invariant model == PutAll(old(model), items[..i])
      {
        BatchStep(old(exp), items, i);
        assert items[..i + 1][..i] == items[..i];
        PutInTxn(items[i].0, items[i].1, ttl);
      }
      assert items[..|items|] == items;
    }

    method GetObject(k: Key, now: nat) returns (o: Option<Value>)
      requires Valid() && NulFree(k.coll)
      ensures o == ReadAt(model, k, now)
    {
      ReadAgrees(model, objects, exp, k, now);
      var gone := IsExpired(k, now);
      if gone { return None; }
      o := if k.coll in objects && k.id in objects[k.coll] then Some(objects[k.coll][k.id]) else None;
    }

    /** Empties the sub-database; its entries in the expiry database stay behind. */
    method ClearCollection(coll: string)
      requires Valid() && NulFree(coll)
      modifies this`objects, this`model
      ensures Valid() && objects == Emptied(old(objects), coll) && model == Cleared(old(model), coll)
    {
      ClearAgrees(model, objects, exp, coll);
      if coll in objects { objects := objects[coll := map[]]; }
      model := Cleared(model, coll);
    }

    method DeleteObject(k: Key)
      requires Valid() && NulFree(k.coll)
      modifies this`objects, this`exp, this`model
      ensures Valid() && objects == Del2(old(objects), k.coll, k.id) && exp == old(exp) - {ExpKey(k.coll, k.id)}
      ensures model == old(model) - {k}
    {
      DeleteAgrees(model, objects, exp, k);
      objects := Del2(objects, k.coll, k.id);
      if hasAnyTtl { ClearExpiry(k); }
      assert exp == old(exp) - {ExpKey(k.coll, k.id)};
      model := model - {k};
    }

    method PutObjectAt(k: Key, v: Value, at: nat)
      requires Valid() && NulFree(k.coll)
      modifies this
      ensures Valid() && hasAnyTtl
      ensures objects == Put2(old(objects), k.coll, k.id, v) && exp == old(exp)[ExpKey(k.coll, k.id) := at]
      ensures model == old(model)[k := Cell(v, Some(at))]
    {
      PutUntilAgrees(model, objects, exp, k, v, at);
      objects := Put2(objects, k.coll, k.id, v);
      exp := exp[ExpKey(k.coll, k.id) := at];
      hasAnyTtl := true;
      model := model[k := Cell(v, Some(at))];
    }

    /** The operations that read, decide and write back under the store lock. */
    method OnObject(k: Key, op: Op, now: nat) returns (res: Result)
      requires Valid() && NulFree(k.coll)
      modifies this
      ensures Valid() && model == Exec(old(model), Cmd.OnObject(k, op), now)
      ensures res == Answer(old(model), Cmd.OnObject(k, op), now)
      ensures Promised(op, ReadAt(old(model), k, now), res, ReadAt(model, k, now))
      ensures exp == if EffectOf(op, ReadAt(old(model), k, now)).Keep? then old(exp)
                     else old(exp) - {ExpKey(k.coll, k.id)}
    {
      var o := GetObject(k, now);
      PromiseKept(op, o);
      ObjectOpsReadPlainly(model, k, op, now, k);
      res := AnswerOf(op, o);
      match EffectOf(op, o)
      case Keep =>
      case Save(v) => PutObject(k, v);
      case Drop => DeleteObject(k);
    }

    /** Walks the sub-database's own cursor, which lists its keys in order. */
    method ScanRange(coll: string, r: Range, limit: nat, now: nat) returns (out: seq<string>)
      requires Valid() && NulFree(coll)
      ensures out == Scans.ScanRange(Listing(LiveKeys(model, coll, now)), r, limit)
      ensures ScanOf(out, LiveKeys(model, coll, now), r.after, r.prefix, r.end, limit)
    {
      var cursor := ListInOrder(KeysIn(objects, coll));
      var checkTtl, due := hasAnyTtl, NotDue(exp, coll, now);
      var live := (k: string) => !checkTtl || due(k);
      LiveAreListed(model, objects, exp, coll, cursor, live, now);
      FilteredListing(cursor, live, LiveKeys(model, coll, now));
      out := CursorScan(cursor, r, limit, live);
    }

    /**
     * The recorded expiry. It is the reference store's if and only if the object is there or no
     * entry is left behind for it. No database of the collection is opened, so any name will do.
     */
    method ExpiryOf(k: Key) returns (at: Option<nat>)
      requires Valid()
      ensures at == ExpAt(exp, k.coll, k.id)
      ensures NulFree(k.coll) ==>
                ((at == if k in model then model[k].expiry else None) <==> k in model || ExpKey(k.coll, k.id) !in exp)
    {
      if NulFree(k.coll) { ReadAgrees(model, objects, exp, k, 0); }
      at := ReadExpiry(k);
    }

    /** Removes one expired entry and its object in one transaction, if the collection has a sub-database. */
    method Reclaim(e: string)
      requires Valid() && e in exp
      modifies this`objects, this`exp, this`model
      ensures Valid() && exp == old(exp) - {e} && model == old(model) - {KeyOf(e)}
    {
      var c, i := KeyOf(e).coll, KeyOf(e).id;
      SplitParts(e);
      DeleteAgrees(model, objects, exp, Key(c, i));
      if c in objects {
        objects := Del2(objects, c, i);
        exp := exp - {e};
        model := model - {Key(c, i)};
      }
    }

    method ReclaimAll(dead: set<string>)
      requires Valid() && dead <= exp.Keys
      modifies this`objects, this`exp, this`model
      ensures Valid() && exp == old(exp) - dead && model == old(model) - KeysOf(dead)
    {
      ghost var exp0, model0 := exp, model;
      var rest := dead;
      assert exp0 - {} == exp0 && model0 - KeysOf({}) == model0 && dead - rest == {};
      while rest != {}
        invariant rest <= dead && Valid() && rest <= exp.Keys
        invariant exp == exp0 - (dead - rest) && model == model0 - KeysOf(dead - rest)
        decreases |rest|
      {
        var e :| e in rest;
        ghost var done := dead - rest;
        Reclaim(e);
        rest := rest - {e};
        assert dead - rest == done + {e};
        MinusMore(exp0, done, {e});
        KeysOfMore(done, e);
        MinusMore(model0, KeysOf(done), {KeyOf(e)});
      }
      assert dead - rest == dead;
    }

    /** Drops what has expired; counts the expiry entries, also those left behind by a clear. */
    method SweepExpired(now: nat) returns (n: nat)
      requires Valid()
      modifies this`objects, this`exp, this`model
      ensures Valid() && model == Swept(old(model), now)
      ensures n == |DueEntries(old(exp), now)| && exp == old(exp) - DueEntries(old(exp), now)
    {
      SweepCovers(model, objects, exp, now);
      if !hasAnyTtl {
        assert DueEntries(exp, now) == {} && KeysOf({}) == {} && exp - {} == exp;
        return 0;
      }
      var dead := set e | e in exp && exp[e] <= now && SplitOnce(e).Some?;
      assert dead == DueEntries(exp, now);
      ReclaimAll(dead);
      n := |dead|;
    }
  }

  function Put2All(m: Two<Value>, items: seq<(Key, Value)>): Two<Value> {
    if items == [] then m
    else
      var n := |items| - 1;
      Put2(Put2All(m, items[..n]), items[n].0.coll, items[n].0.id, items[n].1)
  }

  ghost function ExpKeysOf(items: seq<(Key, Value)>): set<string> { set x | x in items :: ExpKey(x.0.coll, x.0.id) }

  lemma {:induction false} BatchStep(exp: Expiries, items: seq<(Key, Value)>, i: nat)
    requires i < |items|
    ensures exp - ExpKeysOf(items[..i + 1]) == exp - ExpKeysOf(items[..i]) - {ExpKey(items[i].0.coll, items[i].0.id)}
  {
    SliceSnoc(items, 0, i);
    assert ExpKeysOf(items[..i] + [items[i]]) == ExpKeysOf(items[..i]) + {ExpKey(items[i].0.coll, items[i].0.id)};
    MinusMore(exp, ExpKeysOf(items[..i]), {ExpKey(items[i].0.coll, items[i].0.id)});
  }

  lemma {:induction false} LiveAreListed(t: TimedMap, objects: Two<Value>, exp: Expiries, coll: string,
                                         cursor: seq<string>, live: string -> bool, now: nat)
    requires Stores(t, objects, exp) && NulFree(coll) && Elems(cursor) == KeysIn(objects, coll)
    requires forall i :: live(i) <==> !DueAt(exp, Key(coll, i), now)
    ensures LiveKeys(t, coll, now) == set i | i in cursor && live(i)
  {
    forall i ensures i in LiveKeys(t, coll, now) <==> i in cursor && live(i) {
      assert CellAt(t, Key(coll, i)) == CellOf(Get2(objects, coll, i), ExpAt(exp, coll, i));
      assert i in cursor <==> i in Elems(cursor);
      if i in LiveKeys(t, coll, now) { assert Key(coll, i) in t; }
    }
  }

  function KeyOf(e: string): Key {
    match SplitOnce(e)
    case Some(p) => Key(p.0, p.1)
    case None => Key([], e)
  }

  ghost function KeysOf(es: set<string>): set<Key> { set e | e in es :: KeyOf(e) }

  lemma {:induction false} MinusMore<K, V>(m: map<K, V>, a: set<K>, b: set<K>)
    ensures m - a - b == m - (a + b)
  {}

  lemma {:induction false} KeysOfMore(es: set<string>, e: string)
    ensures KeysOf(es + {e}) == KeysOf(es) + {KeyOf(e)}
  {}

  ghost function DueEntries(exp: Expiries, now: nat): set<string> { set e | e in exp && exp[e] <= now }

  /** The due entries name every object that is due, and no object that is not. */
  lemma {:induction false} SweepCovers(t: TimedMap, objects: Two<Value>, exp: Expiries, now: nat)
    requires Stores(t, objects, exp) && Homed(objects, exp) && Named(t)
    ensures t - KeysOf(DueEntries(exp, now)) == Swept(t, now)
  {
    var gone := KeysOf(DueEntries(exp, now));
    forall k | k in t ensures k in gone <==> Expired(t[k], now) {
      assert CellAt(t, Key(k.coll, k.id)) == CellOf(Get2(objects, k.coll, k.id), ExpAt(exp, k.coll, k.id));
      SplitBack(k.coll, k.id);
      if Expired(t[k], now) {
        assert ExpKey(k.coll, k.id) in DueEntries(exp, now) && KeyOf(ExpKey(k.coll, k.id)) == k;
      }
      if k in gone {
        var e :| e in DueEntries(exp, now) && KeyOf(e) == k;
        SplitParts(e);
      }
    }
    SweptIsRest(t, now);
  }

  lemma {:induction false} KeysOfCard(es: set<string>)
    requires forall e :: e in es ==> SplitOnce(e).Some?
    ensures |KeysOf(es)| == |es|
  {
    if es != {} {
      var e :| e in es;
      KeysOfCard(es - {e});
      assert es == (es - {e}) + {e};
      KeysOfMore(es - {e}, e);
      forall e' | e' in es - {e} ensures KeyOf(e') != KeyOf(e) {
        SplitParts(e);
        SplitParts(e');
      }
    }
  }

  /** The two stores count the same sweep alike exactly when no due entry was left behind by a clear. */
  lemma {:induction false} SweepCountsAgreeIff(t: TimedMap, objects: Two<Value>, exp: Expiries, now: nat)
    requires Stores(t, objects, exp) && Homed(objects, exp) && Named(t)
    ensures |DueEntries(exp, now)| == |Due(t, now)| <==> forall e :: e in DueEntries(exp, now) ==> KeyOf(e) in t
  {
    var es := DueEntries(exp, now);
    var ks := KeysOf(es);
    SweepCovers(t, objects, exp, now);
    SweptIsRest(t, now);
    KeysOfCard(es);
    forall k | k in Due(t, now) ensures k in ks {
      assert k !in Swept(t, now) && k in t;
    }
    forall k | k in ks && k in t ensures k in Due(t, now) {
      assert k !in t - ks;
    }
    assert Due(t, now) == set k | k in ks && k in t;
    SubsetCard(Due(t, now), ks);
    if forall e :: e in es ==> KeyOf(e) in t {
      assert ks == Due(t, now);
    } else {
      var e :| e in es && KeyOf(e) !in t;
      assert KeyOf(e) in ks && KeyOf(e) !in Due(t, now);
    }
  }

  /** They do differ: an expiring object in a collection that is cleared before the sweep. */
  method ClearThenSweep() returns (inMemory: nat, inLmdb: nat)
    ensures inMemory == 0 && inLmdb == 1
  {
    var k := Key("c", "k");
    var m := new MemoryStore();
    m.PutObjectAt(k, Int(0), 5);
    m.ClearCollection("c");
    assert Due(m.model, 5) == {};
    inMemory := m.SweepExpired(5);
    var l := new LmdbStore();
    l.PutObjectAt(k, Int(0), 5);
    l.ClearCollection("c");
    assert DueEntries(l.exp, 5) == {ExpKey("c", "k")};
    inLmdb := l.SweepExpired(5);
  }

  /**
   * A NUL in a collection name makes two objects share an expiry key. No database of that name can
   * be opened, but the expiry can be asked for, and then the durable store gives another object's.
   */
  method NulNamesDiverge(coll: string, id: string) returns (inMemory: Option<nat>, inLmdb: Option<nat>)
    requires !NulFree(coll)
    ensures inMemory == None && inLmdb == Some(5)
  {
    var p := SplitOnce(coll);
    SplitSome(coll);
    SplitParts(coll);
    var other := Key(p.value.0, ExpKey(p.value.1, id));
    assert ExpKey(other.coll, other.id) == ExpKey(coll, id);
    assert other.coll != coll;
    var m := new MemoryStore();
    m.PutObjectAt(other, Int(0), 5);
    inMemory := m.ExpiryOf(Key(coll, id));
    var l := new LmdbStore();
    l.PutObjectAt(other, Int(0), 5);
    inLmdb := l.ExpiryOf(Key(coll, id));
  }
}
