/** The per-bucket freeze/drain gate. */
module Gates {

  /** Frozen buckets, and how many operations are inside each bucket that has any. */
  datatype Gate = Gate(frozen: set<nat>, inFlight: map<nat, nat>)

  const Open := Gate({}, map[])

  predicate MayEnter(g: Gate, b: nat) { b !in g.frozen }

  function Count(g: Gate, b: nat): nat { if b in g.inFlight then g.inFlight[b] else 0 }

  function Entered(g: Gate, b: nat): Gate { g.(inFlight := g.inFlight[b := Count(g, b) + 1]) }

  function Left(g: Gate, b: nat): Gate {
    if Count(g, b) > 1 then g.(inFlight := g.inFlight[b := Count(g, b) - 1]) else g.(inFlight := g.inFlight - {b})
  }

  function Froze(g: Gate, bs: set<nat>): Gate { g.(frozen := g.frozen + bs) }

  function Thawed(g: Gate, bs: set<nat>): Gate { g.(frozen := g.frozen - bs) }

  predicate Drained(g: Gate, bs: set<nat>) { forall b :: b in bs ==> Count(g, b) == 0 }

  /** The gate object; `gen` is the generation its watch channel publishes. */
  class GateObject {
    var frozen: set<nat>
    var inFlight: map<nat, nat>
    var gen: nat

    function State(): Gate
      reads this
    {
      Gate(frozen, inFlight)
    }

    constructor ()
      ensures State() == Open && gen == 0
    {
      frozen, inFlight, gen := {}, map[], 0;
    }

    method Bump()
      modifies this`gen
      ensures gen == old(gen) + 1
    {
      gen := gen + 1;
    }

    /** One turn of the entry loop: enters unless the bucket is frozen. */
    method TryEnter(b: nat) returns (entered: bool)
      modifies this`inFlight
      ensures entered == MayEnter(old(State()), b)
      ensures State() == if entered then Entered(old(State()), b) else old(State())
    {
      entered := b !in frozen;
      if entered {
        inFlight := inFlight[b := (if b in inFlight then inFlight[b] else 0) + 1];
      }
    }

    /** Gives a token back; the count of a bucket nobody is in is not kept. */
    method Leave(b: nat)
      requires b in inFlight ==> inFlight[b] > 0
      modifies this`inFlight, this`gen
      ensures State() == Left(old(State()), b) && gen == old(gen) + 1
    {
      if b in inFlight {
        var n := inFlight[b] - 1;
        inFlight := inFlight[b := n];
        if n == 0 { inFlight := inFlight - {b}; }
      } else {
        assert inFlight - {b} == inFlight;
      }
      Bump();
    }

    method Freeze(buckets: seq<nat>)
      modifies this`frozen
      ensures State() == Froze(old(State()), set b | b in buckets)
    {
      for i := 0 to |buckets|
        invariant frozen == old(frozen) + set b | b in buckets[..i]
      {
        frozen := frozen + {buckets[i]};
      }
    }

    /** One turn of the drain loop. */
    method IsDrained(buckets: seq<nat>) returns (clear: bool)
      ensures clear == Drained(State(), set b | b in buckets)
    {
      for i := 0 to |buckets|
        invariant forall b :: b in buckets[..i] ==> Count(State(), b) == 0
      {
        if buckets[i] in inFlight && inFlight[buckets[i]] != 0 {
          assert Count(State(), buckets[i]) != 0 && buckets[i] in buckets;
          return false;
        }
      }
      return true;
    }

    method Unfreeze(buckets: seq<nat>)
      modifies this`frozen, this`gen
      ensures State() == Thawed(old(State()), set b | b in buckets) && gen == old(gen) + 1
    {
      for i := 0 to |buckets|
        invariant frozen == old(frozen) - set b | b in buckets[..i]
        invariant gen == old(gen)
      {
        frozen := frozen - {buckets[i]};
      }
      Bump();
    }
  }
}
