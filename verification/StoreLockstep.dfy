/** The two stores driven by the same commands at the same clock. */
module StoreLockstep {
  import opened Seqs
  import opened Values
  import opened Timed
  import opened KeyOrder
  import opened Scans
  import opened ExpiryKeys
  import opened MemoryObject
  import opened LmdbObject

  /** A command and the clock it runs at. */
  datatype Tick = Tick(cmd: Cmd, now: nat)

  predicate PlainNames(cmd: Cmd) {
    match cmd
    case OnObject(k, _) => NulFree(k.coll)
    case PutBatch(items) => forall x :: x in items ==> NulFree(x.0.coll)
    case PutUntil(k, _, _) => NulFree(k.coll)
    case ClearCollection(coll) => NulFree(coll)
    case _ => true
  }

  /** What the reference store holds after the commands. */
  function ExecAll(t: TimedMap, ticks: seq<Tick>): TimedMap {
    if ticks == [] then t
    else Exec(ExecAll(t, ticks[..|ticks| - 1]), ticks[|ticks| - 1].cmd, ticks[|ticks| - 1].now)
  }

  /** What the reference store answers to the commands. */
  function AnswerAll(t: TimedMap, ticks: seq<Tick>): (rs: seq<Result>)
    ensures |rs| == |ticks|
  {
    if ticks == [] then []
    else
      var n := |ticks| - 1;
      AnswerAll(t, ticks[..n]) + [Answer(ExecAll(t, ticks[..n]), ticks[n].cmd, ticks[n].now)]
  }

  // ---------------------------------------------------------------- the expiry entries

  /** The expiry entries that the durable store has for a map's keys after a command: a clear leaves them. */
  function Mark(t: TimedMap, marks: map<Key, nat>, cmd: Cmd, now: nat): map<Key, nat> {
    match cmd
    case OnObject(k, op) => if EffectOf(op, ReadAt(t, k, now)).Keep? then marks else marks - {k}
    case PutBatch(items) => marks - set x | x in items :: x.0
    case PutUntil(k, _, at) => marks[k := at]
    case SweepExpired => map k | k in marks && marks[k] > now :: marks[k]
    case _ => marks
  }

  function MarkAll(t: TimedMap, marks: map<Key, nat>, ticks: seq<Tick>): map<Key, nat> {
    if ticks == [] then marks
    else
      var n := |ticks| - 1;
      Mark(ExecAll(t, ticks[..n]), MarkAll(t, marks, ticks[..n]), ticks[n].cmd, ticks[n].now)
  }

  function MarkAt(marks: map<Key, nat>, k: Key): Option<nat> { if k in marks then Some(marks[k]) else None }

  /** The expiry database has exactly these entries. */
  ghost predicate Marked(exp: Expiries, marks: map<Key, nat>) {
    && (forall c, i :: NulFree(c) ==> ExpAt(exp, c, i) == MarkAt(marks, Key(c, i)))
    && (forall e :: e in exp ==> SplitOnce(e).Some?)
    && (forall k :: k in marks ==> NulFree(k.coll))
  }

  lemma {:induction false} MarkedAt(exp: Expiries, marks: map<Key, nat>, e: string)
    requires Marked(exp, marks) && e in exp
    ensures KeyOf(e) in marks && exp[e] == marks[KeyOf(e)]
  {
    SplitParts(e);
    assert ExpAt(exp, KeyOf(e).coll, KeyOf(e).id) == MarkAt(marks, Key(KeyOf(e).coll, KeyOf(e).id));
  }

  lemma {:induction false} EntryOf(exp: Expiries, marks: map<Key, nat>, k: Key)
    requires Marked(exp, marks) && k in marks
    ensures var e := ExpKey(k.coll, k.id); e in exp && exp[e] == marks[k] && KeyOf(e) == k
  {
    SplitBack(k.coll, k.id);
    assert ExpAt(exp, k.coll, k.id) == MarkAt(marks, Key(k.coll, k.id));
  }

  lemma {:induction false} MarkedPut(exp: Expiries, marks: map<Key, nat>, k: Key, at: nat)
    requires Marked(exp, marks) && NulFree(k.coll)
    ensures Marked(exp[ExpKey(k.coll, k.id) := at], marks[k := at])
  {
    SplitBack(k.coll, k.id);
    ExpPutAt(exp, k.coll, k.id, at, exp[ExpKey(k.coll, k.id) := at]);
  }

  lemma {:induction false} MarkedDelete(exp: Expiries, marks: map<Key, nat>, k: Key)
    requires Marked(exp, marks) && NulFree(k.coll)
    ensures Marked(exp - {ExpKey(k.coll, k.id)}, marks - {k})
  {
    ExpDelAt(exp, k.coll, k.id);
  }

  lemma {:induction false} InBatch(items: seq<(Key, Value)>, k: Key)
    requires NulFree(k.coll) && forall x :: x in items ==> NulFree(x.0.coll)
    ensures ExpKey(k.coll, k.id) in ExpKeysOf(items) <==> k in set x | x in items :: x.0
  {
    if ExpKey(k.coll, k.id) in ExpKeysOf(items) {
      var x :| x in items && ExpKey(x.0.coll, x.0.id) == ExpKey(k.coll, k.id);
      ExpKeyInjective(x.0.coll, x.0.id, k.coll, k.id);
    }
  }

  lemma {:induction false} MarkedBatch(exp: Expiries, marks: map<Key, nat>, items: seq<(Key, Value)>)
    requires Marked(exp, marks) && forall x :: x in items ==> NulFree(x.0.coll)
    ensures Marked(exp - ExpKeysOf(items), marks - set x | x in items :: x.0)
  {
    var es, ks := ExpKeysOf(items), set x | x in items :: x.0;
    forall c, i | NulFree(c) ensures ExpAt(exp - es, c, i) == MarkAt(marks - ks, Key(c, i)) {
      InBatch(items, Key(c, i));
      assert ExpAt(exp, c, i) == MarkAt(marks, Key(c, i));
    }
  }

  ghost function DueMarks(marks: map<Key, nat>, now: nat): set<Key> { set k | k in marks && marks[k] <= now }

  lemma {:induction false} MarkedSweep(exp: Expiries, marks: map<Key, nat>, now: nat)
    requires Marked(exp, marks)
    ensures Marked(exp - DueEntries(exp, now), map k | k in marks && marks[k] > now :: marks[k])
  {
    var rest, left := exp - DueEntries(exp, now), map k | k in marks && marks[k] > now :: marks[k];
    forall c, i | NulFree(c) ensures ExpAt(rest, c, i) == MarkAt(left, Key(c, i)) {
      assert ExpAt(exp, c, i) == MarkAt(marks, Key(c, i));
    }
  }

  /** The due entries are those of the due keys, and as many. */
  lemma {:induction false} MarkedDue(exp: Expiries, marks: map<Key, nat>, now: nat)
    requires Marked(exp, marks)
    ensures LmdbObject.KeysOf(DueEntries(exp, now)) == DueMarks(marks, now)
    ensures |DueEntries(exp, now)| == |DueMarks(marks, now)|
  {
    var es := DueEntries(exp, now);
    KeysOfCard(es);
    forall k | k in DueMarks(marks, now) ensures k in LmdbObject.KeysOf(es) {
      EntryOf(exp, marks, k);
      assert ExpKey(k.coll, k.id) in es;
    }
    forall e | e in es ensures KeyOf(e) in DueMarks(marks, now) { MarkedAt(exp, marks, e); }
  }

  // ---------------------------------------------------------------- both stores

  method OnMemory(m: MemoryStore, cmd: Cmd, now: nat) returns (r: Result)
    requires m.Valid()
    modifies m
    ensures m.Valid() && m.model == Exec(old(m.model), cmd, now) && r == Answer(old(m.model), cmd, now)
  {
    r := Done;
    match cmd
    case OnObject(k, op) => r := m.OnObject(k, op, now);
    case PutBatch(items) => m.PutBatch(items);
    case PutUntil(k, v, at) => m.PutObjectAt(k, v, at);
    case ClearCollection(coll) => m.ClearCollection(coll);
    case SweepExpired => var n := m.SweepExpired(now);
    case Reopen =>
  }

  method OnLmdb(l: LmdbStore, cmd: Cmd, now: nat, ghost marks: map<Key, nat>) returns (r: Result)
    requires l.Valid() && PlainNames(cmd) && Marked(l.exp, marks)
    modifies l
    ensures l.Valid() && l.model == Exec(old(l.model), cmd, now) && r == Answer(old(l.model), cmd, now)
    ensures Marked(l.exp, Mark(old(l.model), marks, cmd, now))
  {
    r := Done;
    ghost var exp := l.exp;
    match cmd
    case OnObject(k, op) =>
      r := l.OnObject(k, op, now);
      MarkedDelete(exp, marks, k);
    case PutBatch(items) =>
      l.PutBatch(items);
      MarkedBatch(exp, marks, items);
    case PutUntil(k, v, at) =>
      l.PutObjectAt(k, v, at);
      MarkedPut(exp, marks, k, at);
    case ClearCollection(coll) => l.ClearCollection(coll);
    case SweepExpired =>
      var n := l.SweepExpired(now);
      MarkedSweep(exp, marks, now);
    case Reopen => l.Reopen();
  }

  /**
   * After any commands, reopens of the durable store included, both stores have given the reference
   * store's answers and hold what it holds.
   */
  method Lockstep(m: MemoryStore, l: LmdbStore, ticks: seq<Tick>, ghost marks: map<Key, nat>)
    returns (ma: seq<Result>, la: seq<Result>)
    requires m.Valid() && l.Valid() && m.model == l.model && Marked(l.exp, marks)
    requires forall x :: x in ticks ==> PlainNames(x.cmd)
    modifies m, l
    ensures m.Valid() && l.Valid() && m.model == l.model == ExecAll(old(m.model), ticks)
    ensures ma == la == AnswerAll(old(m.model), ticks) && Marked(l.exp, MarkAll(old(m.model), marks, ticks))
  {
    ma, la := [], [];
    for i := 0 to |ticks|
      invariant m.Valid() && l.Valid() && m.model == l.model == ExecAll(old(m.model), ticks[..i])
      invariant ma == la == AnswerAll(old(m.model), ticks[..i])
      invariant Marked(l.exp, MarkAll(old(m.model), marks, ticks[..i]))
    {
      assert ticks[..i + 1][..i] == ticks[..i];
      var a := OnMemory(m, ticks[i].cmd, ticks[i].now);
      var b := OnLmdb(l, ticks[i].cmd, ticks[i].now, MarkAll(old(m.model), marks, ticks[..i]));
      ma, la := ma + [a], la + [b];
    }
    assert ticks[..|ticks|] == ticks;
  }

  /** Both stores read the same object at the same clock after any commands. */
  method SameReads(ticks: seq<Tick>, k: Key, now: nat) returns (inMemory: Option<Value>, inLmdb: Option<Value>)
    requires forall x :: x in ticks ==> PlainNames(x.cmd)
    requires NulFree(k.coll)
    ensures inMemory == inLmdb == ReadAt(ExecAll(map[], ticks), k, now)
  {
    var m := new MemoryStore();
    var l := new LmdbStore();
    var ma, la := Lockstep(m, l, ticks, map[]);
    inMemory := m.GetObject(k, now);
    inLmdb := l.GetObject(k, now);
  }

  /** And both scan every range alike. */
  method SameScans(ticks: seq<Tick>, coll: string, r: Range, limit: nat, now: nat)
    returns (inMemory: seq<string>, inLmdb: seq<string>)
    requires forall x :: x in ticks ==> PlainNames(x.cmd)
    requires NulFree(coll)
    ensures inMemory == inLmdb == ScanRange(Listing(LiveKeys(ExecAll(map[], ticks), coll, now)), r, limit)
    ensures ScanOf(inLmdb, LiveKeys(ExecAll(map[], ticks), coll, now), r.after, r.prefix, r.end, limit)
  {
    var m := new MemoryStore();
    var l := new LmdbStore();
    var ma, la := Lockstep(m, l, ticks, map[]);
    inMemory := m.ScanRange(coll, r, limit, now);
    inLmdb := l.ScanRange(coll, r, limit, now);
  }

  /** What a sweep reports after any commands: the due objects here, the due expiry entries there. */
  method SweepAfter(ticks: seq<Tick>, now: nat) returns (inMemory: nat, inLmdb: nat)
    requires forall x :: x in ticks ==> PlainNames(x.cmd)
    ensures inMemory == |Due(ExecAll(map[], ticks), now)| && inLmdb == |DueMarks(MarkAll(map[], map[], ticks), now)|
    ensures inMemory == inLmdb <==>
            forall k :: k in DueMarks(MarkAll(map[], map[], ticks), now) ==> k in ExecAll(map[], ticks)
  {
    var m := new MemoryStore();
    var l := new LmdbStore();
    var ma, la := Lockstep(m, l, ticks, map[]);
    ghost var marks := MarkAll(map[], map[], ticks);
    MarkedDue(l.exp, marks, now);
    SweepCountsAgreeIff(l.model, l.objects, l.exp, now);
    DueAlike(l.exp, marks, l.model, now);
    inMemory := m.SweepExpired(now);
    inLmdb := l.SweepExpired(now);
  }

  lemma {:induction false} DueAlike(exp: Expiries, marks: map<Key, nat>, t: TimedMap, now: nat)
    requires LmdbObject.KeysOf(DueEntries(exp, now)) == DueMarks(marks, now)
    ensures (forall e :: e in DueEntries(exp, now) ==> KeyOf(e) in t) <==>
            (forall k :: k in DueMarks(marks, now) ==> k in t)
  {
    forall e | e in DueEntries(exp, now) ensures KeyOf(e) in DueMarks(marks, now) {
      assert KeyOf(e) in LmdbObject.KeysOf(DueEntries(exp, now));
    }
  }
}
