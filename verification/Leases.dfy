/** Leader leases on the one shard that arbitrates them. */
module Leases {
  import opened Seqs

  /** The fencing token is the leadership term. */
  datatype Lease = Lease(holder: string, expires: nat, token: nat)

  datatype Outcome = Outcome(granted: bool, lease: Lease)

  function Evaluate(current: Option<Lease>, holder: string, ttl: nat, now: nat): Outcome {
    match current
    case None => Outcome(true, Lease(holder, now + ttl, 1))
    case Some(l) =>
      if now < l.expires then
        if l.holder == holder then Outcome(true, Lease(holder, now + ttl, l.token)) else Outcome(false, l)
      else Outcome(true, Lease(holder, now + ttl, l.token + 1))
  }

  datatype Call = Call(holder: string, ttl: nat, now: nat)

  /** The stored lease after the first `n` calls. */
  function Stored(calls: seq<Call>, n: nat): Option<Lease>
    requires n <= |calls|
    decreases n, 0
  {
    if n == 0 then None
    else if Answer(calls, n - 1).granted then Some(Answer(calls, n - 1).lease)
    else Stored(calls, n - 1)
  }

  function Answer(calls: seq<Call>, i: nat): Outcome
    requires i < |calls|
    decreases i, 1
  {
    Evaluate(Stored(calls, i), calls[i].holder, calls[i].ttl, calls[i].now)
  }

  /** The shard's lease records; the whole of an acquire runs under the shard lock. */
  class LeaseShard {
    var leases: map<string, Lease>
    ghost var history: map<string, seq<Call>>

    ghost function CallsOn(key: string): seq<Call>
      reads this
    {
      if key in history then history[key] else []
    }

    function Current(key: string): Option<Lease>
      reads this
    {
      if key in leases then Some(leases[key]) else None
    }

    ghost predicate Valid()
      reads this
    {
      forall key :: Current(key) == Stored(CallsOn(key), |CallsOn(key)|)
    }

    constructor ()
      ensures Valid() && history == map[]
    {
      leases, history := map[], map[];
    }

    method LeaseAcquire(key: string, holder: string, ttl: nat, now: nat) returns (r: Outcome)
      requires Valid()
      modifies this
      ensures Valid()
      ensures CallsOn(key) == old(CallsOn(key)) + [Call(holder, ttl, now)]
              && r == Answer(CallsOn(key), |CallsOn(key)| - 1)
      ensures forall k :: k != key ==> CallsOn(k) == old(CallsOn(k))
      ensures r.granted <==> old(Current(key)).None? || old(Current(key)).value.expires <= now
                             || old(Current(key)).value.holder == holder
      ensures r.granted ==> r.lease.holder == holder && r.lease.expires == now + ttl && Current(key) == Some(r.lease)
      ensures !r.granted ==> Current(key) == old(Current(key)) == Some(r.lease)
      ensures r.lease.token == match old(Current(key))
                               case None => 1
                               case Some(l) => if l.expires <= now then l.token + 1 else l.token
    {
      ghost var calls := CallsOn(key);
      ghost var more := calls + [Call(holder, ttl, now)];
      StoredLonger(calls, Call(holder, ttl, now), |calls|);
      r := Evaluate(if key in leases then Some(leases[key]) else None, holder, ttl, now);
      assert Current(key) == Stored(calls, |calls|);
      assert r == Answer(more, |calls|);
      if r.granted { leases := leases[key := r.lease]; }
      history := history[key := more];
      assert forall k :: k != key ==> Current(k) == old(Current(k)) && CallsOn(k) == old(CallsOn(k));
    }
  }

  lemma {:induction false} StoredLonger(calls: seq<Call>, c: Call, n: nat)
    requires n <= |calls|
    ensures Stored(calls + [c], n) == Stored(calls, n)
  {
    if n > 0 { StoredLonger(calls, c, n - 1); }
  }

  // ---------------------------------------------------------------- histories

  ghost predicate ClockForward(calls: seq<Call>) {
    forall i, j :: 0 <= i <= j < |calls| ==> calls[i].now <= calls[j].now
  }

  /** A renewal that ends the lease before the end it was granted until. */
  predicate Shortens(calls: seq<Call>, i: nat)
    requires i < |calls|
  {
    && Stored(calls, i).Some?
    && var l := Stored(calls, i).value;
       l.holder == calls[i].holder && calls[i].now < l.expires && calls[i].now + calls[i].ttl < l.expires
  }

  ghost predicate NeverShortens(calls: seq<Call>) {
    forall i :: 0 <= i < |calls| ==> !Shortens(calls, i)
  }

  /** A grant that does not extend the running term of the same holder. */
  predicate NewTerm(calls: seq<Call>, i: nat)
    requires i < |calls|
  {
    Stored(calls, i).None? || Stored(calls, i).value.expires <= calls[i].now
  }

  /**
   * A call is granted exactly when no lease is running or the caller holds the one that is. A grant
   * names the caller and runs for its time-to-live from now. A refusal shows the lease in the way,
   * which stays.
   */
  lemma {:induction false} GrantedIff(calls: seq<Call>, i: nat)
    requires i < |calls|
    ensures Answer(calls, i).granted <==> NewTerm(calls, i) || Stored(calls, i).value.holder == calls[i].holder
    ensures Answer(calls, i).granted ==>
              && Answer(calls, i).lease.holder == calls[i].holder
              && Answer(calls, i).lease.expires == calls[i].now + calls[i].ttl
              && Stored(calls, i + 1) == Some(Answer(calls, i).lease)
    ensures !Answer(calls, i).granted ==> Stored(calls, i + 1) == Stored(calls, i) == Some(Answer(calls, i).lease)
  {
    assert Answer(calls, i) == Evaluate(Stored(calls, i), calls[i].holder, calls[i].ttl, calls[i].now);
    assert Stored(calls, i + 1) == if Answer(calls, i).granted then Some(Answer(calls, i).lease) else Stored(calls, i);
  }

  function TokenAfter(calls: seq<Call>, n: nat): nat
    requires n <= |calls|
  {
    if Stored(calls, n).Some? then Stored(calls, n).value.token else 0
  }

  /** The stored token counts the terms: it rises by one at each new term and never otherwise. */
  lemma {:induction false} TokenCountsTerms(calls: seq<Call>, i: nat)
    requires i < |calls|
    ensures TokenAfter(calls, i + 1) == TokenAfter(calls, i) + (if NewTerm(calls, i) then 1 else 0)
    ensures Answer(calls, i).lease.token == TokenAfter(calls, i + 1)
  {
    assert Answer(calls, i) == Evaluate(Stored(calls, i), calls[i].holder, calls[i].ttl, calls[i].now);
    assert Stored(calls, i + 1) == if Answer(calls, i).granted then Some(Answer(calls, i).lease) else Stored(calls, i);
  }

  lemma {:induction false} TokensNeverDecrease(calls: seq<Call>, i: nat, j: nat)
    requires i <= j < |calls|
    ensures Answer(calls, i).lease.token <= Answer(calls, j).lease.token
  {
    TokenCountsTerms(calls, i);
    TokenCountsTerms(calls, j);
    if i < j {
      TokensNeverDecrease(calls, i, j - 1);
      TokenCountsTerms(calls, j - 1);
    }
  }

  /** What the stored lease knows about the grant made by call `i`. */
  ghost predicate Remembers(calls: seq<Call>, n: nat, i: nat)
    requires i < n <= |calls|
  {
    Answer(calls, i).granted ==>
      && Stored(calls, n).Some?
      && var g, l := Answer(calls, i).lease, Stored(calls, n).value;
         && g.token <= l.token && (g.token == l.token ==> g.holder == l.holder)
         && g.expires <= l.expires
         && (g.holder != l.holder ==> g.expires <= calls[n - 1].now)
  }

  lemma {:induction false} StoredRemembers(calls: seq<Call>, n: nat, i: nat)
    requires ClockForward(calls) && i < n <= |calls|
    requires forall j :: 0 <= j < n ==> !Shortens(calls, j)
    ensures Remembers(calls, n, i)
  {
    if i < n - 1 {
      StoredRemembers(calls, n - 1, i);
      assert calls[n - 2].now <= calls[n - 1].now && !Shortens(calls, n - 1);
    }
  }

  /** A token names one holder. */
  lemma {:induction false} OneHolderPerToken(calls: seq<Call>, i: nat, j: nat)
    requires i < |calls| && j < |calls|
    requires Answer(calls, i).granted && Answer(calls, j).granted
    requires Answer(calls, i).lease.token == Answer(calls, j).lease.token
    ensures Answer(calls, i).lease.holder == Answer(calls, j).lease.holder
  {
    if i <= j { SameTermSameHolder(calls, i, j + 1); } else { SameTermSameHolder(calls, j, i + 1); }
  }

  lemma {:induction false} SameTermSameHolder(calls: seq<Call>, i: nat, n: nat)
    requires i < n <= |calls| && Answer(calls, i).granted
    ensures Stored(calls, n).Some?
    ensures var g, l := Answer(calls, i).lease, Stored(calls, n).value;
            g.token <= l.token && (g.token == l.token ==> g.holder == l.holder)
  {
    if i < n - 1 { SameTermSameHolder(calls, i, n - 1); }
  }

  /** Windows granted to different holders never overlap: the later begins after the earlier ends. */
  ghost predicate Disjoint(calls: seq<Call>) {
    forall i, j :: 0 <= i < j < |calls| ==> Apart(calls, i, j)
  }

  predicate Apart(calls: seq<Call>, i: nat, j: nat)
    requires i < |calls| && j < |calls|
  {
    var a, b := Answer(calls, i), Answer(calls, j);
    a.granted && b.granted && a.lease.holder != b.lease.holder ==> a.lease.expires <= calls[j].now
  }

  /** Two windows are apart as long as no call before the later one shortened a lease. */
  lemma {:induction false} WindowsApart(calls: seq<Call>, i: nat, j: nat)
    requires ClockForward(calls) && i < j < |calls|
    requires forall m :: 0 <= m < j ==> !Shortens(calls, m)
    ensures Apart(calls, i, j)
  {
    StoredRemembers(calls, j, i);
    assert calls[j - 1].now <= calls[j].now;
  }

  lemma {:induction false} WindowsDisjoint(calls: seq<Call>)
    requires ClockForward(calls) && NeverShortens(calls)
    ensures Disjoint(calls)
  {
    forall i, j | 0 <= i < j < |calls| ensures Apart(calls, i, j) { WindowsApart(calls, i, j); }
  }

  // ---------------------------------------------------------------- when windows can overlap

  /** The first `n` calls, and then `c`. */
  function Extended(calls: seq<Call>, n: nat, c: Call): seq<Call>
    requires n <= |calls|
  {
    calls[..n] + [c]
  }

  lemma {:induction false} StoredAlike(calls: seq<Call>, more: seq<Call>, n: nat)
    requires n <= |calls| && n <= |more| && calls[..n] == more[..n]
    ensures Stored(calls, n) == Stored(more, n)
  {
    if n > 0 {
      var k := n - 1;
      assert calls[..k] == calls[..n][..k] && more[..k] == more[..n][..k];
      assert calls[k] == calls[..n][k] && more[k] == more[..n][k];
      StoredAlike(calls, more, k);
    }
  }

  /** The stored lease is what the last grant gave. */
  lemma {:induction false} StoredWasGranted(calls: seq<Call>, n: nat) returns (i: nat)
    requires n <= |calls| && Stored(calls, n).Some?
    ensures i < n && Answer(calls, i) == Outcome(true, Stored(calls, n).value)
  {
    if Answer(calls, n - 1).granted {
      i := n - 1;
    } else {
      i := StoredWasGranted(calls, n - 1);
    }
  }

  function OtherThan(h: string): string { h + "x" }

  /** After a call that shortens, somebody else can be granted time that was promised before. */
  lemma {:induction false} ShorteningOverlaps(calls: seq<Call>, i: nat) returns (c: Call, j: nat)
    requires ClockForward(calls) && i < |calls| && Shortens(calls, i)
    ensures ClockForward(Extended(calls, i + 1, c)) && j <= i
    ensures var more := Extended(calls, i + 1, c);
            && Answer(more, i + 1).granted && Answer(more, j).granted
            && Answer(more, j).lease.holder != Answer(more, i + 1).lease.holder
            && calls[j].now <= c.now < Answer(more, j).lease.expires && c.now < Answer(more, i + 1).lease.expires
  {
    j := StoredWasGranted(calls, i);
    c := Call(OtherThan(calls[i].holder), 1, calls[i].now + calls[i].ttl);
    var more := Extended(calls, i + 1, c);
    assert forall m :: 0 <= m <= i ==> more[m] == calls[m];
    assert calls[..j] == more[..j] && calls[..i + 1] == more[..i + 1];
    StoredAlike(calls, more, j);
    StoredAlike(calls, more, i + 1);
    assert Stored(calls, i + 1) == Some(Answer(calls, i).lease);
    assert OtherThan(calls[i].holder)[|calls[i].holder|..] == "x";
  }

  /**
   * The exact condition: along a history with a clock that does not go back, no next call can ever
   * be granted time promised to another holder if and only if no call shortened a lease.
   */
  lemma {:induction false} DisjointIffNeverShortens(calls: seq<Call>)
    requires ClockForward(calls)
    ensures NeverShortens(calls) <==>
            forall n, c :: 0 <= n <= |calls| && ClockForward(Extended(calls, n, c)) ==> Disjoint(Extended(calls, n, c))
  {
    if NeverShortens(calls) {
      forall n, c | 0 <= n <= |calls| && ClockForward(Extended(calls, n, c)) ensures Disjoint(Extended(calls, n, c)) {
        ExtensionDisjoint(calls, n, c);
      }
    } else {
      var i :| 0 <= i < |calls| && Shortens(calls, i);
      var c, j := ShorteningOverlaps(calls, i);
      assert !Apart(Extended(calls, i + 1, c), j, i + 1);
    }
  }

  lemma {:induction false} ExtensionDisjoint(calls: seq<Call>, n: nat, c: Call)
    requires NeverShortens(calls) && n <= |calls| && ClockForward(Extended(calls, n, c))
    ensures Disjoint(Extended(calls, n, c))
  {
    var more := Extended(calls, n, c);
    forall i, j | 0 <= i < j < |more| ensures Apart(more, i, j) {
      forall m | 0 <= m < j ensures !Shortens(more, m) {
        assert more[..m] == calls[..m] && more[m] == calls[m];
        StoredAlike(calls, more, m);
        assert !Shortens(calls, m);
      }
      WindowsApart(more, i, j);
    }
  }

  ghost predicate CommonTtl(calls: seq<Call>) {
    forall i, j :: 0 <= i < |calls| && 0 <= j < |calls| ==> calls[i].ttl == calls[j].ttl
  }

  /** With a clock that does not go back and one time-to-live for all, no call shortens. */
  lemma {:induction false} CommonTtlNeverShortens(calls: seq<Call>)
    requires ClockForward(calls) && CommonTtl(calls)
    ensures NeverShortens(calls) && Disjoint(calls)
  {
    forall i | 0 <= i < |calls| ensures !Shortens(calls, i) {
      if Stored(calls, i).Some? {
        var j := StoredWasGranted(calls, i);
        assert Stored(calls, i).value.expires == calls[j].now + calls[j].ttl;
        assert calls[j].now <= calls[i].now && calls[j].ttl == calls[i].ttl;
      }
    }
    WindowsDisjoint(calls);
  }

  /** A renewal with a shorter time-to-live that shortens, and the overlap that follows. */
  lemma {:induction false} ShorterRenewalOverlaps()
    ensures var calls := [Call("a", 100, 0), Call("a", 1, 1), Call("b", 100, 2)];
            ClockForward(calls) && Shortens(calls, 1) && !Apart(calls, 0, 2)
  {
    var calls := [Call("a", 100, 0), Call("a", 1, 1), Call("b", 100, 2)];
    assert Stored(calls, 0) == None && Answer(calls, 0) == Outcome(true, Lease("a", 100, 1));
    assert Stored(calls, 1) == Some(Lease("a", 100, 1)) && Answer(calls, 1) == Outcome(true, Lease("a", 2, 1));
    assert Stored(calls, 2) == Some(Lease("a", 2, 1)) && Answer(calls, 2) == Outcome(true, Lease("b", 102, 2));
  }
}
