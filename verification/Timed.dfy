/** The reference store: a plain map from keys to values with an optional expiry time. */
module Timed {
  import opened Seqs
  import opened Values

  datatype Cell = Cell(v: Value, expiry: Option<nat>)

  type TimedMap = map<Key, Cell>

  predicate Expired(c: Cell, now: nat) { c.expiry.Some? && c.expiry.value <= now }

  function CellAt(t: TimedMap, k: Key): Option<Cell> { if k in t then Some(t[k]) else None }

  /** What a reader sees at a clock value. */
  function ReadAt(t: TimedMap, k: Key, now: nat): Option<Value> {
    if k in t && !Expired(t[k], now) then Some(t[k].v) else None
  }

  /** What the store answers; set changes answer whether they changed anything. */
  function AnswerOf(op: Op, o: Option<Value>): Result {
    if op.SetAdd? || op.SetRemove? then Swapped(!EffectOf(op, o).Keep?) else ResultOf(op, o)
  }

  datatype Cmd =
    | OnObject(key: Key, op: Op)
    | PutBatch(items: seq<(Key, Value)>)
    | PutUntil(key: Key, v: Value, expiry: nat)
    | ClearCollection(coll: string)
    | SweepExpired
    | Reopen

  function PutPlain(t: TimedMap, k: Key, v: Value): TimedMap { t[k := Cell(v, None)] }

  function PutAll(t: TimedMap, items: seq<(Key, Value)>): TimedMap {
    if items == [] then t
    else PutPlain(PutAll(t, items[..|items| - 1]), items[|items| - 1].0, items[|items| - 1].1)
  }

  function Cleared(t: TimedMap, coll: string): TimedMap { map k | k in t && k.coll != coll :: t[k] }

  function Swept(t: TimedMap, now: nat): TimedMap { map k | k in t && !Expired(t[k], now) :: t[k] }

  /** A command at a clock value. A plain write drops the expiry; an expired object reads as absent. */
  function Exec(t: TimedMap, cmd: Cmd, now: nat): TimedMap {
    match cmd
    case OnObject(k, op) => Written(t, k, EffectOf(op, ReadAt(t, k, now)))
    case PutBatch(items) => PutAll(t, items)
    case PutUntil(k, v, expiry) => t[k := Cell(v, Some(expiry))]
    case ClearCollection(coll) => Cleared(t, coll)
    case SweepExpired => Swept(t, now)
    case Reopen => t
  }

  function Written(t: TimedMap, k: Key, e: Effect): TimedMap {
    match e
    case Keep => t
    case Save(v) => PutPlain(t, k, v)
    case Drop => t - {k}
  }

  function Answer(t: TimedMap, cmd: Cmd, now: nat): Result {
    if cmd.OnObject? then AnswerOf(cmd.op, ReadAt(t, cmd.key, now)) else Done
  }

  /** The store as one reads it is a plain map that every object operation treats as a plain map. */
  lemma {:induction false} ObjectOpsReadPlainly(t: TimedMap, k: Key, op: Op, now: nat, k': Key)
    ensures ReadAt(Exec(t, OnObject(k, op), now), k', now)
         == if k' == k then Apply(op, ReadAt(t, k, now)).0 else ReadAt(t, k', now)
  {}

  // ---------------------------------------------------------------- sweeping

  /** A sweep at `at` goes unnoticed by every reader whose clock has reached `at`. */
  lemma {:induction false} SweepUnnoticed(t: TimedMap, at: nat, k: Key, now: nat)
    requires now >= at
    ensures ReadAt(Swept(t, at), k, now) == ReadAt(t, k, now)
  {}

  predicate ExpiresBetween(t: TimedMap, k: Key, now: nat, at: nat) {
    k in t && t[k].expiry.Some? && now < t[k].expiry.value <= at
  }

  /** A reader whose clock is behind notices exactly when some object expires in between. */
  lemma {:induction false} SweepNoticedEarlier(t: TimedMap, at: nat, now: nat)
    ensures (forall k :: ReadAt(Swept(t, at), k, now) == ReadAt(t, k, now))
            <==> (forall k :: !ExpiresBetween(t, k, now, at))
  {
    forall k ensures ReadAt(Swept(t, at), k, now) == ReadAt(t, k, now) <==> !ExpiresBetween(t, k, now, at) {}
  }

  /** What a sweep removes. */
  ghost function Due(t: TimedMap, now: nat): set<Key> { set k | k in t && Expired(t[k], now) }

  lemma {:induction false} SweptIsRest(t: TimedMap, now: nat)
    ensures Swept(t, now) == t - Due(t, now)
  {}

  /** The keys of a collection that a reader sees. */
  ghost function LiveKeys(t: TimedMap, coll: string, now: nat): set<string> {
    set k | k in t && k.coll == coll && !Expired(t[k], now) :: k.id
  }
}
