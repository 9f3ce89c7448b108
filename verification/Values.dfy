/** Stored values and what each data operation does to one stored object. */
module Values {
  import opened Seqs

  /** Where an object lives: its collection, and its key there. */
  datatype Key = Key(coll: string, id: string)

  /** A JSON value: a 64-bit integer, a string, an array of strings, or anything else. */
  datatype Value = Int(i: int) | Text(s: string) | Strings(items: seq<string>) | Opaque(id: int)

  datatype Op =
    | Get
    | Put(v: Value)
    | Delete
    | SetAdd(member: string)
    | SetRemove(member: string)
    | Cas(want: Option<Value>, update: Value)
    | Incr(delta: int)

  datatype Result = Got(o: Option<Value>) | Done | Swapped(ok: bool) | Counted(n: Option<int>)

  const MIN_I64: int := -0x8000_0000_0000_0000
  const MAX_I64: int := 0x7fff_ffff_ffff_ffff

  predicate InI64(i: int) { MIN_I64 <= i <= MAX_I64 }

  /** 64-bit addition that wraps. */
  function WrapAdd(a: int, b: int): int {
    (a + b - MIN_I64) % 0x1_0000_0000_0000_0000 + MIN_I64
  }

  function Without(xs: seq<string>, m: string): seq<string> {
    if xs == [] then [] else (if xs[0] == m then [] else [xs[0]]) + Without(xs[1..], m)
  }

  /** A stored object read as a set: anything that is not an array of strings reads as empty. */
  function Members(o: Option<Value>): seq<string> {
    if o.Some? && o.value.Strings? then o.value.items else []
  }

  predicate IsDigit(c: char) { '0' <= c <= '9' }

  function Digits(s: string): Option<nat> {
    if s == [] || !IsDigit(s[|s| - 1]) then None
    else
      var d := s[|s| - 1] as int - '0' as int;
      if |s| == 1 then Some(d)
      else match Digits(s[..|s| - 1]) case None => None case Some(n) => Some(10 * n + d)
  }

  predicate IsSpace(c: char) {
    || c == ' ' || '\t' <= c <= '\r' || 0x2000 <= c as int <= 0x200a
    || c as int in {0x85, 0xa0, 0x1680, 0x2028, 0x2029, 0x202f, 0x205f, 0x3000}
  }

  function Trim(s: string): string {
    if s == [] then s
    else if IsSpace(s[0]) then Trim(s[1..])
    else if IsSpace(s[|s| - 1]) then Trim(s[..|s| - 1])
    else s
  }

  /** Decimal text as a 64-bit integer, with an optional sign. */
  function ParseInt(s: string): Option<int> {
    if s == [] then None
    else
      var n := if s[0] == '-' || s[0] == '+' then Digits(s[1..]) else Digits(s);
      match n
      case None => None
      case Some(a) =>
        var sign: int := if s[0] == '-' then -1 else 1;
        var i := sign * a;
        if MIN_I64 <= i <= MAX_I64 then Some(i) else None
  }

  /** The counter a stored object stands for; an absent object counts as zero. */
  function AsCounter(o: Option<Value>): Option<int> {
    match o
    case None => Some(0)
    case Some(Int(i)) => Some(i)
    case Some(Text(s)) => ParseInt(Trim(s))
    case Some(_) => None
  }

  /** What an operation writes back. */
  datatype Effect = Keep | Save(v: Value) | Drop

  function EffectOf(op: Op, o: Option<Value>): Effect {
    match op
    case Get => Keep
    case Put(v) => Save(v)
    case Delete => Drop
    case SetAdd(m) => if m in Members(o) then Keep else Save(Strings(Members(o) + [m]))
    case SetRemove(m) =>
      var rest := Without(Members(o), m);
      if |rest| == |Members(o)| then Keep else if rest == [] then Drop else Save(Strings(rest))
    case Cas(want, update) => if o == want then Save(update) else Keep
    case Incr(delta) => if AsCounter(o).Some? then Save(Int(WrapAdd(AsCounter(o).value, delta))) else Keep
  }

  /** What an operation answers. */
  function ResultOf(op: Op, o: Option<Value>): Result {
    match op
    case Get => Got(o)
    case Cas(want, _) => Swapped(o == want)
    case Incr(delta) => Counted(if AsCounter(o).Some? then Some(WrapAdd(AsCounter(o).value, delta)) else None)
    case _ => Done
  }

  function Stored(e: Effect, o: Option<Value>): Option<Value> {
    match e
    case Keep => o
    case Save(v) => Some(v)
    case Drop => None
  }

  /** The object after an operation, and what the operation answers. */
  function Apply(op: Op, o: Option<Value>): (Option<Value>, Result) {
    (Stored(EffectOf(op, o), o), ResultOf(op, o))
  }

  predicate Mutates(op: Op) { op != Get }

  /** Whether an operation that answered `res` at the primary goes on to the other replicas. */
  predicate Replicates(op: Op, res: Result) {
    match op
    case Get => false
    case Cas(_, _) => res == Swapped(true)
    case Incr(_) => res.Counted? && res.n.Some?
    case _ => true
  }

  /**
   * What a replica stores once the primary has answered `res`: broadcast operations are applied
   * again, the outcome of a compare-and-set or a counter is written as a plain object.
   */
  function ReplicaEffect(op: Op, res: Result, o: Option<Value>): Option<Value> {
    match op
    case Cas(_, update) => if res == Swapped(true) then Some(update) else o
    case Incr(_) => if res.Counted? && res.n.Some? then Some(Int(res.n.value)) else o
    case _ => Apply(op, o).0
  }

  /** A replica that starts from the primary's object ends with the primary's object. */
  lemma {:induction false} ReplicaAgrees(op: Op, o: Option<Value>)
    ensures ReplicaEffect(op, Apply(op, o).1, o) == Apply(op, o).0
    ensures !Replicates(op, Apply(op, o).1) ==> Apply(op, o).0 == o
  {}
}
