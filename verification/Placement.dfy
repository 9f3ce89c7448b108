/** Where a bucket lives: hashing, scores and the owners of a bucket under a membership. */
module Placement {
  import opened Seqs
  import opened Replication
  import opened Ranking
  import opened Racks
  import opened Mixing
  import opened Words

  const NUM_BUCKETS: nat := 4096

  type Topology = map<NodeId, string>

  /** The UTF-16 code units of one character: itself, or a high and a low surrogate that give it back. */
  function Units(c: char): (us: seq<nat>)
    ensures |us| == 1 || |us| == 2
    ensures |us| == 1 ==> us[0] == c as int < 0x1_0000
    ensures |us| == 2 ==> 0xd800 <= us[0] < 0xdc00 <= us[1] < 0xe000
    ensures |us| == 2 ==> c as int == 0x1_0000 + 0x400 * (us[0] - 0xd800) + (us[1] - 0xdc00)
  {
    var n := c as int;
    if n < 0x1_0000 then [n] else [0xd800 + (n - 0x1_0000) / 0x400, 0xdc00 + (n - 0x1_0000) % 0x400]
  }

  function Utf16(c: char): seq<bv32> {
    var us := Units(c);
    if |us| == 1 then [us[0] as bv32] else [us[0] as bv32, us[1] as bv32]
  }

  function MixUnit(h: bv32, u: bv32): bv32 { (h ^ u) * 0x0100_0193 }

  function MixUnits(h: bv32, units: seq<bv32>): bv32
    decreases |units|
  {
    if units == [] then h else MixUnits(MixUnit(h, units[0]), units[1..])
  }

  function Fnv1a(s: string): bv32 {
    if s == [] then 0x811c_9dc5 else MixUnits(Fnv1a(s[..|s| - 1]), Utf16(s[|s| - 1]))
  }

  function BucketOf(key: string): (b: nat)
    ensures b < NUM_BUCKETS
  {
    LowPartBelow(Fnv1a(key));
    LowPart(Fnv1a(key)) as int
  }

  function LowPart(h: bv32): bv32 { h % 4096 }

  lemma {:induction false} LowPartBelow(h: bv32)
    ensures LowPart(h) as int < NUM_BUCKETS
  {}

  lemma {:induction false} LowPartBits(h: bv32)
    ensures LowPart(h) == h & 0xfff
  {}

  function BucketScore(nodeHash: bv32, bucket: nat): bv32 {
    Mix(nodeHash, BucketMix(bucket))
  }

  function BucketMix(bucket: nat): bv32 {
    Golden(Word(bucket))
  }

  /** For each bucket the score is injective in the 32-bit node hash. */
  lemma {:induction false} BucketScoreInjective(x: bv32, y: bv32, bucket: nat)
    requires BucketScore(x, bucket) == BucketScore(y, bucket)
    ensures x == y
  {
    MixInjective(x, y, BucketMix(bucket));
  }

  function Score(n: NodeId, b: nat): int { BucketScore(Fnv1a(n), b) as int }

  /** The ranking score of bucket `b`. */
  function ScoreAt(b: nat): NodeId -> int { n => Score(n, b) }

  /** No two members share a node hash. */
  ghost predicate DistinctHashes(ns: set<NodeId>) {
    forall x, y :: x in ns && y in ns && Fnv1a(x) == Fnv1a(y) ==> x == y
  }

  lemma {:induction false} ScoresDistinct(ns: set<NodeId>, b: nat)
    ensures InjectiveOn(ns, ScoreAt(b)) <==> DistinctHashes(ns)
  {
    if DistinctHashes(ns) {
      forall x, y | x in ns && y in ns && ScoreAt(b)(x) == ScoreAt(b)(y) ensures x == y {
        BitsFromInt(BucketScore(Fnv1a(x), b), BucketScore(Fnv1a(y), b));
        BucketScoreInjective(Fnv1a(x), Fnv1a(y), b);
      }
    } else {
      var x, y :| x in ns && y in ns && Fnv1a(x) == Fnv1a(y) && x != y;
      assert ScoreAt(b)(x) == ScoreAt(b)(y);
    }
  }

  // ---------------------------------------------------------------- from bucket to bucket

  lemma {:induction false} BucketMixInjective(b: nat, b': nat)
    requires b < 0x1_0000_0000 && b' < 0x1_0000_0000 && BucketMix(b) == BucketMix(b')
    ensures b == b'
  {
    UndoGolden(Word(b));
    UndoGolden(Word(b'));
    WordInjective(b, b');
  }

  /** For each node hash the score is injective in the bucket, so no two buckets rank by the same scores. */
  lemma {:induction false} ScoreInjectiveInBucket(h: bv32, b: nat, b': nat)
    requires b < 0x1_0000_0000 && b' < 0x1_0000_0000 && BucketScore(h, b) == BucketScore(h, b')
    ensures b == b'
  {
    MixInjectiveInBucket(h, BucketMix(b), BucketMix(b'));
    BucketMixInjective(b, b');
  }

  lemma {:induction false} HashOfA()
    ensures Fnv1a("a") == 0xe40c_292c
  {
    var us: seq<bv32> := [0x61];
    assert "a"[..0] == [] && Utf16('a') == us && us[1..] == [];
    assert MixUnits(0x811c_9dc5, us) == MixUnits(0xe40c_292c, us[1..]);
  }

  lemma {:induction false} HashOfB()
    ensures Fnv1a("b") == 0xe70c_2de5
  {
    var us: seq<bv32> := [0x62];
    assert "b"[..0] == [] && Utf16('b') == us && us[1..] == [];
    assert MixUnits(0x811c_9dc5, us) == MixUnits(0xe70c_2de5, us[1..]);
  }

  lemma {:induction false} FirstGoldens()
    ensures Golden(0) == 0x9e37_79b1 && Golden(1) == 0x3c6e_f362
  {}

  lemma {:induction false} FirstBucketMixes()
    ensures BucketMix(0) == 0x9e37_79b1 && BucketMix(1) == 0x3c6e_f362
  {
    FirstWords();
    FirstGoldens();
  }

  lemma {:induction false} ScoreLiterals()
    ensures BucketScore(0xe40c_292c, 0) == 0xa1cd_527b && BucketScore(0xe40c_292c, 1) == 0xe83f_77d8
    ensures BucketScore(0xe70c_2de5, 0) == 0xe83c_05ec && BucketScore(0xe70c_2de5, 1) == 0x2167_aca3
  {
    FirstBucketMixes();
    MixSteps(0xe40c_292c, 0x9e37_79b1, 0x7a3b_509d, 0x7a3b_a4eb, 0xa1c8_5c39, 0xa1cd_527b);
    MixSteps(0xe40c_292c, 0x3c6e_f362, 0xd862_da4e, 0xd863_6a8b, 0xe838_3619, 0xe83f_77d8);
    MixSteps(0xe70c_2de5, 0x9e37_79b1, 0x793b_5454, 0x793b_a622, 0xe83b_4436, 0xe83c_05ec);
    MixSteps(0xe70c_2de5, 0x3c6e_f362, 0xdb62_de87, 0xdb63_6842, 0x2166_a796, 0x2167_aca3);
  }

  /** The scores of "a" and "b" in the first two buckets, which they win in turn. */
  lemma {:induction false} ScoresOfAB()
    ensures Score("a", 0) == 0xa1cd_527b && Score("a", 1) == 0xe83f_77d8
    ensures Score("b", 0) == 0xe83c_05ec && Score("b", 1) == 0x2167_aca3
  {
    HashOfA();
    HashOfB();
    ScoreLiterals();
  }

  lemma {:induction false} Mixed(s: string, c: char, t: string, h: bv32, u: bv32, h': bv32)
    requires s + [c] == t && Fnv1a(s) == h && Utf16(c) == [u] && MixUnit(h, u) == h'
    ensures Fnv1a(t) == h'
  {
    assert t[..|s|] == s && [u][1..] == [];
    assert MixUnits(h, [u]) == MixUnits(MixUnit(h, u), []);
  }

  /** Two published values of the hash. */
  lemma {:induction false} HashVectors()
    ensures Fnv1a("") == 0x811c_9dc5 && Fnv1a("foo") == 0xa9f3_7ed7
  {
    Mixed("", 'f', "f", 0x811c_9dc5, 0x66, 0xe30c_2799);
    Mixed("f", 'o', "fo", 0xe30c_2799, 0x6f, 0x6222_e842);
    Mixed("fo", 'o', "foo", 0x6222_e842, 0x6f, 0xa9f3_7ed7);
  }

  /** Keys share a bucket exactly when the low 12 bits of their hashes are the same. */
  lemma {:induction false} SameBucketIff(x: string, y: string)
    ensures BucketOf(x) == BucketOf(y) <==> Fnv1a(x) & 0xfff == Fnv1a(y) & 0xfff
  {
    LowPartBits(Fnv1a(x));
    LowPartBits(Fnv1a(y));
    if BucketOf(x) == BucketOf(y) { BitsFromInt(LowPart(Fnv1a(x)), LowPart(Fnv1a(y))); }
  }

  lemma {:induction false} BucketsOfAB()
    ensures BucketOf("a") == 2348 && BucketOf("b") == 3557
  {
    HashOfA();
    HashOfB();
  }

  /** A node's failure domain: its rack, or the node itself when it has none. */
  function DomainIn(topo: Topology): NodeId -> string { n => if n in topo then topo[n] else n }

  /** The nodes of a ranking, in the order in which replicas are placed on them. */
  function Placed(pl: seq<NodeId>, topo: Topology): seq<NodeId> {
    if topo == map[] then pl else Distinct(Leaders(pl, DomainIn(topo), {}) + pl)
  }

  function Preference(nodes: seq<NodeId>, topo: Topology, b: nat): seq<NodeId> {
    Placed(Ranked(nodes, ScoreAt(b)), topo)
  }

  /** Over a ranking without duplicates: leaders first, then followers, racks or no racks. */
  lemma {:induction false} PlacedIsSpread(pl: seq<NodeId>, topo: Topology)
    requires NoDup(pl)
    ensures Placed(pl, topo) == Spread(pl, DomainIn(topo))
  {
    if topo == map[] {
      SpreadPlain(pl, DomainIn(topo), {});
    } else {
      SpreadIsDistinct(pl, DomainIn(topo));
    }
  }

  /** The `r` owners of bucket `b` under membership `nodes`. */
  function OwnersOf(nodes: seq<NodeId>, topo: Topology, r: nat, b: nat): seq<NodeId> {
    var pref := Preference(nodes, topo, b);
    pref[..Min(Min(r, |nodes|), |pref|)]
  }

  lemma {:induction false} PreferenceFacts(nodes: seq<NodeId>, topo: Topology, b: nat)
    requires NoDup(nodes)
    ensures var p := Preference(nodes, topo, b);
            NoDup(p) && Elems(p) == Elems(nodes) && |p| == |nodes| && NoDup(Ranked(nodes, ScoreAt(b)))
    ensures Preference(nodes, topo, b) == Spread(Ranked(nodes, ScoreAt(b)), DomainIn(topo))
  {
    RankedFacts(nodes, ScoreAt(b));
    PlacedIsSpread(Ranked(nodes, ScoreAt(b)), topo);
    SpreadFacts(Ranked(nodes, ScoreAt(b)), DomainIn(topo));
  }

  /** Owners are distinct members, as many as asked for where the membership allows. */
  lemma {:induction false} OwnersFacts(nodes: seq<NodeId>, topo: Topology, r: nat, b: nat)
    requires NoDup(nodes)
    ensures var o := OwnersOf(nodes, topo, r, b);
            NoDup(o) && |o| == Min(r, |nodes|) && Elems(o) <= Elems(nodes) && o <= OwnersOf(nodes, topo, r + 1, b)
  {
    PreferenceFacts(nodes, topo, b);
    var p := Preference(nodes, topo, b);
    forall x | x in OwnersOf(nodes, topo, r, b) ensures x in Elems(p) {}
  }

  /** The primary is the HRW winner whatever the racks. */
  lemma {:induction false} PrimaryIsWinner(nodes: seq<NodeId>, topo: Topology, r: nat, b: nat)
    requires NoDup(nodes) && nodes != [] && r > 0
    ensures OwnersOf(nodes, topo, r, b) != [] && Ranked(nodes, ScoreAt(b)) != []
    ensures OwnersOf(nodes, topo, r, b)[0] == Ranked(nodes, ScoreAt(b))[0]
    ensures forall n :: n in nodes ==> Score(n, b) <= Score(OwnersOf(nodes, topo, r, b)[0], b)
  {
    PreferenceFacts(nodes, topo, b);
    RankedFacts(nodes, ScoreAt(b));
    SpreadFacts(Ranked(nodes, ScoreAt(b)), DomainIn(topo));
    var pl := Ranked(nodes, ScoreAt(b));
    forall n | n in nodes ensures Score(n, b) <= Score(pl[0], b) {
      assert n in Elems(pl);
      var i :| 0 <= i < |pl| && pl[i] == n;
      assert ScoreAt(b)(pl[0]) >= ScoreAt(b)(pl[i]);
    }
  }

  /** Without racks the owners are the top of the ranking. */
  lemma {:induction false} PlainOwners(nodes: seq<NodeId>, r: nat, b: nat)
    ensures |Ranked(nodes, ScoreAt(b))| == |nodes|
    ensures OwnersOf(nodes, map[], r, b) == Ranked(nodes, ScoreAt(b))[..Min(r, |nodes|)]
  {
    RankedSorts(nodes, ScoreAt(b));
    SameMultiset(nodes, Ranked(nodes, ScoreAt(b)));
  }

  /** Replicas cover as many racks as they can. */
  lemma {:induction false} OwnersCoverRacks(nodes: seq<NodeId>, topo: Topology, r: nat, b: nat)
    requires NoDup(nodes)
    ensures |Domains(OwnersOf(nodes, topo, r, b), DomainIn(topo))|
            == Min(Min(r, |nodes|), |Domains(nodes, DomainIn(topo))|)
  {
    PreferenceFacts(nodes, topo, b);
    RankedFacts(nodes, ScoreAt(b));
    var pl := Ranked(nodes, ScoreAt(b));
    SpreadCoversRacks(pl, DomainIn(topo), Min(r, |nodes|));
    assert forall n :: n in pl <==> n in Elems(nodes);
    assert Domains(pl, DomainIn(topo)) == Domains(nodes, DomainIn(topo));
  }

  /** The same with every failure domain written out: the node's rack, or the node itself when it has none. */
  lemma {:induction false} DomainsCovered(nodes: seq<NodeId>, topo: Topology, r: nat, b: nat)
    requires NoDup(nodes)
    ensures |set n | n in OwnersOf(nodes, topo, r, b) :: if n in topo then topo[n] else n|
            == Min(Min(r, |nodes|), |set n | n in nodes :: if n in topo then topo[n] else n|)
  {
    OwnersCoverRacks(nodes, topo, r, b);
    DomainsWritten(OwnersOf(nodes, topo, r, b), topo);
    DomainsWritten(nodes, topo);
  }

  lemma {:induction false} DomainsWritten(s: seq<NodeId>, topo: Topology)
    ensures Domains(s, DomainIn(topo)) == set n | n in s :: if n in topo then topo[n] else n
  {}

  /** When every member has a rack, the owners are on as many racks as there are, up to their number. */
  lemma {:induction false} RacksCovered(nodes: seq<NodeId>, topo: Topology, r: nat, b: nat)
    requires NoDup(nodes) && forall n :: n in nodes ==> n in topo
    ensures forall n :: n in OwnersOf(nodes, topo, r, b) ==> n in topo
    ensures |set n | n in OwnersOf(nodes, topo, r, b) :: topo[n]|
            == Min(Min(r, |nodes|), |set n | n in nodes :: topo[n]|)
  {
    OwnersFacts(nodes, topo, r, b);
    var o := OwnersOf(nodes, topo, r, b);
    forall n | n in o ensures n in topo { assert n in Elems(o); }
    DomainsCovered(nodes, topo, r, b);
    RacksWritten(o, topo);
    RacksWritten(nodes, topo);
  }

  lemma {:induction false} RacksWritten(s: seq<NodeId>, topo: Topology)
    requires forall n :: n in s ==> n in topo
    ensures (set n | n in s :: if n in topo then topo[n] else n) == set n | n in s :: topo[n]
  {
    forall n | n in s
      ensures topo[n] in (set m | m in s :: if m in topo then topo[m] else m)
    {
      assert (if n in topo then topo[n] else n) == topo[n];
    }
  }

  /** Of two members the one with the higher score is the primary, whatever the racks. */
  lemma {:induction false} HigherScoreLeads(x: NodeId, y: NodeId, topo: Topology, b: nat)
    requires ScoreAt(b)(x) > ScoreAt(b)(y)
    ensures OwnersOf([x, y], topo, 1, b) == [x] == OwnersOf([y, x], topo, 1, b)
  {
    assert x != y;
    OwnersFacts([x, y], topo, 1, b);
    OwnersFacts([y, x], topo, 1, b);
    PrimaryIsWinner([x, y], topo, 1, b);
    PrimaryIsWinner([y, x], topo, 1, b);
    assert x in [x, y] && x in [y, x];
    assert OwnersOf([x, y], topo, 1, b)[0] in Elems(OwnersOf([x, y], topo, 1, b));
    assert OwnersOf([y, x], topo, 1, b)[0] in Elems(OwnersOf([y, x], topo, 1, b));
  }

  /** The first two buckets of a cluster of "a" and "b" have different primaries. */
  lemma {:induction false} PrimariesOfAB(topo: Topology)
    ensures OwnersOf(["a", "b"], topo, 1, 0) == ["b"] && OwnersOf(["a", "b"], topo, 1, 1) == ["a"]
  {
    ScoresOfAB();
    HigherScoreLeads("b", "a", topo, 0);
    HigherScoreLeads("a", "b", topo, 1);
  }

  /** With distinct hashes, owners depend on who the members are and not on how they are listed. */
  lemma {:induction false} OwnersOrderFree(a: seq<NodeId>, b: seq<NodeId>, topo: Topology, r: nat, bucket: nat)
    requires NoDup(a) && NoDup(b) && Elems(a) == Elems(b) && DistinctHashes(Elems(a))
    ensures OwnersOf(a, topo, r, bucket) == OwnersOf(b, topo, r, bucket)
  {
    ScoresDistinct(Elems(a), bucket);
    RankedOrderFree(a, b, ScoreAt(bucket));
    NoDupCard(a);
    NoDupCard(b);
  }

  /** A bucket whose owner set is the same under two memberships has the same owner list. */
  lemma {:induction false} SameOwnersSameOrder(a: seq<NodeId>, b: seq<NodeId>, topo: Topology, r: nat, r': nat,
                                               bucket: nat)
    requires NoDup(a) && NoDup(b) && DistinctHashes(Elems(a) + Elems(b))
    requires Elems(OwnersOf(a, topo, r, bucket)) == Elems(OwnersOf(b, topo, r', bucket))
    ensures OwnersOf(a, topo, r, bucket) == OwnersOf(b, topo, r', bucket)
  {
    ScoresDistinct(Elems(a), bucket);
    ScoresDistinct(Elems(b), bucket);
    RankedStrict(a, ScoreAt(bucket));
    RankedStrict(b, ScoreAt(bucket));
    PreferenceFacts(a, topo, bucket);
    PreferenceFacts(b, topo, bucket);
    SamePicksSameOrder(Ranked(a, ScoreAt(bucket)), Ranked(b, ScoreAt(bucket)), DomainIn(topo), ScoreAt(bucket),
                       Min(r, |a|), Min(r', |b|));
  }

  /** The coordinator clamps its replication, a direct client does not; both pick the same owners. */
  lemma {:induction false} DirectClientRoutesAlike(coordinator: seq<NodeId>, client: seq<NodeId>, target: nat,
                                                   key: string)
    requires NoDup(coordinator) && NoDup(client) && coordinator != []
    requires Elems(coordinator) == Elems(client) && DistinctHashes(Elems(client)) && target > 0
    ensures OwnersOf(coordinator, map[], Clamp(target, |coordinator|), BucketOf(key))
            == OwnersOf(client, map[], target, BucketOf(key))
  {
    NoDupCard(coordinator);
    NoDupCard(client);
    OwnersOrderFree(coordinator, client, map[], target, BucketOf(key));
  }

  /** Without racks, a joining node is the only possible new owner. */
  lemma {:induction false} JoinOnlyMovesToNewcomer(prev: seq<NodeId>, next: seq<NodeId>, x: NodeId, target: nat, b: nat)
    requires NoDup(prev) && NoDup(next) && prev != [] && x !in prev && Elems(next) == Elems(prev) + {x}
    requires DistinctHashes(Elems(next))
    ensures Elems(OwnersOf(next, map[], Clamp(target, |next|), b))
            <= Elems(OwnersOf(prev, map[], Clamp(target, |prev|), b)) + {x}
  {
    var i := SplitAround(prev, next, x, b);
    InsertedFront(Ranked(prev, ScoreAt(b)), i, x, Ranked(next, ScoreAt(b)), Clamp(target, |prev|),
                  Clamp(target, |next|));
  }

  /** A front of a list with one more element has nothing but that element that the old front had not. */
  lemma {:induction false} InsertedFront(few: seq<NodeId>, i: nat, x: NodeId, more: seq<NodeId>, o: nat, n: nat)
    requires i <= |few| && more == few[..i] + [x] + few[i..] && o <= |few| && n <= |more| && n <= o + 1
    requires n <= o || o == |few|
    ensures Elems(more[..n]) <= Elems(few[..o]) + {x}
  {
    forall k | 0 <= k < n ensures more[k] in Elems(few[..o]) + {x} {
      if k < i {
        assert more[k] == few[..o][k];
      } else if k > i {
        assert more[k] == few[..o][k - 1];
      }
    }
  }

  /** Without racks, a leaving node is the only possible former owner. */
  lemma {:induction false} LeaveOnlyMovesFromLeaver(prev: seq<NodeId>, next: seq<NodeId>, x: NodeId, target: nat,
                                                    b: nat)
    requires NoDup(prev) && NoDup(next) && next != [] && x !in next && Elems(prev) == Elems(next) + {x}
    requires DistinctHashes(Elems(prev))
    ensures Elems(OwnersOf(prev, map[], Clamp(target, |prev|), b))
            <= Elems(OwnersOf(next, map[], Clamp(target, |next|), b)) + {x}
  {
    JoinOnlyMovesToNewcomer(next, prev, x, target, b);
  }

  lemma {:induction false} SplitAround(few: seq<NodeId>, more: seq<NodeId>, x: NodeId, b: nat) returns (i: nat)
    requires NoDup(few) && NoDup(more) && x !in few && Elems(more) == Elems(few) + {x} && DistinctHashes(Elems(more))
    ensures |more| == |few| + 1 == |Ranked(more, ScoreAt(b))| && |Ranked(few, ScoreAt(b))| == |few|
    ensures i <= |few|
    ensures Ranked(more, ScoreAt(b)) == Ranked(few, ScoreAt(b))[..i] + [x] + Ranked(few, ScoreAt(b))[i..]
    ensures forall r :: OwnersOf(more, map[], r, b) == Ranked(more, ScoreAt(b))[..Min(r, |more|)]
    ensures forall r :: OwnersOf(few, map[], r, b) == Ranked(few, ScoreAt(b))[..Min(r, |few|)]
  {
    ScoresDistinct(Elems(more), b);
    i := RankedAdd(few, more, x, ScoreAt(b));
    RankedFacts(few, ScoreAt(b));
    NoDupCard(few);
    NoDupCard(more);
    forall r: nat
      ensures OwnersOf(more, map[], r, b) == Ranked(more, ScoreAt(b))[..Min(r, |more|)]
      ensures OwnersOf(few, map[], r, b) == Ranked(few, ScoreAt(b))[..Min(r, |few|)]
    {
      PlainOwners(more, r, b);
      PlainOwners(few, r, b);
    }
  }
}
