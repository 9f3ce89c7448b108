/** The partitioner object: a membership, its per-bucket rankings and the rack map. */
module PartitionerObject {
  import opened Seqs
  import opened Ranking
  import opened Racks
  import opened Placement

  method HashName(s: string) returns (h: bv32)
    ensures h == Fnv1a(s)
  {
    h := 0x811c_9dc5;
    for i := 0 to |s|
      invariant h == Fnv1a(s[..i])
    {
      assert s[..i + 1][..i] == s[..i];
      h := MixUnits(h, Utf16(s[i]));
    }
    assert s[..|s|] == s;
  }

  method HashAll(names: seq<NodeId>) returns (hashes: seq<bv32>)
    ensures |hashes| == |names| && forall i :: 0 <= i < |names| ==> hashes[i] == Fnv1a(names[i])
  {
    hashes := [];
    for i := 0 to |names|
      invariant |hashes| == i && forall j :: 0 <= j < i ==> hashes[j] == Fnv1a(names[j])
    {
      var h := HashName(names[i]);
      hashes := hashes + [h];
    }
  }

  /** The members in descending score; `scoreOf` scores a node hash in one bucket. */
  method RankBucket(members: seq<NodeId>, hashes: seq<bv32>, scoreOf: bv32 -> int, ghost score: NodeId -> int)
    returns (ranking: seq<NodeId>)
    requires |hashes| == |members| && forall i :: 0 <= i < |members| ==> scoreOf(hashes[i]) == score(members[i])
    ensures ranking == Ranked(members, score)
  {
    var scores: seq<int> := [];
    for i := 0 to |members|
      invariant |scores| == i && forall j :: 0 <= j < i ==> scores[j] == score(members[j])
    {
      scores := scores + [scoreOf(hashes[i])];
    }
    ranking := SortByScore(members, scores, score);
  }

  function HashScore(b: nat): bv32 -> int { h => BucketScore(h, b) as int }

  lemma {:induction false} HashScores(members: seq<NodeId>, hashes: seq<bv32>, b: nat)
    requires |hashes| == |members| && forall i :: 0 <= i < |members| ==> hashes[i] == Fnv1a(members[i])
    ensures forall i :: 0 <= i < |members| ==> HashScore(b)(hashes[i]) == ScoreAt(b)(members[i])
  {}

  /** `rank` gives the ranking of the members in each bucket. */
  ghost predicate RanksBy(rank: nat -> seq<NodeId>, members: seq<NodeId>) {
    forall b: nat {:trigger Ranked(members, ScoreAt(b))} :: rank(b) == Ranked(members, ScoreAt(b))
  }

  method RankAt(members: seq<NodeId>, hashes: seq<bv32>, b: nat, ghost rank: nat -> seq<NodeId>)
    returns (ranking: seq<NodeId>)
    requires |hashes| == |members| && forall i :: 0 <= i < |members| ==> hashes[i] == Fnv1a(members[i])
    requires RanksBy(rank, members)
    ensures ranking == rank(b)
  {
    HashScores(members, hashes, b);
    ranking := RankBucket(members, hashes, HashScore(b), ScoreAt(b));
  }

  /** The ranking of every bucket. */
  method RankAll(members: seq<NodeId>, hashes: seq<bv32>, ghost rank: nat -> seq<NodeId>)
    returns (rankings: seq<seq<NodeId>>)
    requires |hashes| == |members| && forall i :: 0 <= i < |members| ==> hashes[i] == Fnv1a(members[i])
    requires RanksBy(rank, members)
    ensures |rankings| == NUM_BUCKETS && forall b :: 0 <= b < NUM_BUCKETS ==> rankings[b] == rank(b)
  {
    rankings := [];
    for b := 0 to NUM_BUCKETS
      invariant |rankings| == b && forall i :: 0 <= i < b ==> rankings[i] == rank(i)
    {
      var ranking := RankAt(members, hashes, b, rank);
      rankings := rankings + [ranking];
    }
  }

  lemma {:induction false} AllSorted(members: seq<NodeId>, rankings: seq<seq<NodeId>>, rank: nat -> seq<NodeId>)
    requires RanksBy(rank, members)
    requires forall b :: 0 <= b < |rankings| ==> rankings[b] == rank(b)
    ensures forall b :: 0 <= b < |rankings| ==> BestFirst(rankings[b], members, b)
  {
    forall b | 0 <= b < |rankings| ensures BestFirst(rankings[b], members, b) { RankedSorts(members, ScoreAt(b)); }
  }

  /** All members, in descending score for the bucket. */
  ghost predicate BestFirst(ranking: seq<NodeId>, members: seq<NodeId>, b: nat) {
    Desc(ranking, ScoreAt(b)) && multiset(ranking) == multiset(members)
  }

  lemma {:induction false} ScoresFollow(names: seq<NodeId>, scores: seq<int>, score: NodeId -> int, n: NodeId, p: nat)
    requires |scores| == |names| && (forall j :: 0 <= j < |names| ==> scores[j] == score(names[j])) && p <= |names|
    ensures var more, marks := names[..p] + [n] + names[p..], scores[..p] + [score(n)] + scores[p..];
            |marks| == |more| && forall j :: 0 <= j < |more| ==> marks[j] == score(more[j])
  {
    var more, marks := names[..p] + [n] + names[p..], scores[..p] + [score(n)] + scores[p..];
    forall j | 0 <= j < |more| ensures marks[j] == score(more[j]) {
      if j > p { assert more[j] == names[j - 1] && marks[j] == scores[j - 1]; }
    }
  }

  /** A stable sort, best score first: each member goes behind those that score at least as high. */
  method SortByScore(members: seq<NodeId>, scores: seq<int>, ghost score: NodeId -> int) returns (ranking: seq<NodeId>)
    requires |scores| == |members| && forall i :: 0 <= i < |members| ==> scores[i] == score(members[i])
    ensures ranking == Ranked(members, score)
  {
    ranking := [];
    var ranked: seq<int> := [];
    for i := 0 to |members|
      invariant ranking == Ranked(members[..i], score) && |ranked| == |ranking|
      invariant forall j :: 0 <= j < |ranked| ==> ranked[j] == score(ranking[j])
    {
      var p := 0;
      while p < |ranked| && ranked[p] >= scores[i]
        invariant p <= |ranked| && forall k :: 0 <= k < p ==> ranked[k] >= scores[i]
      {
        p := p + 1;
      }
      InsertRankedAt(ranking, members[i], score, p);
      ScoresFollow(ranking, ranked, score, members[i], p);
      assert members[..i + 1][..i] == members[..i];
      ranking := ranking[..p] + [members[i]] + ranking[p..];
      ranked := ranked[..p] + [scores[i]] + ranked[p..];
    }
    assert members[..|members|] == members;
  }

  class Partitioner {
    var nodes: seq<NodeId>
    var buckets: seq<seq<NodeId>>
    var topology: Topology

    ghost predicate Valid()
      reads this
    {
      |buckets| == NUM_BUCKETS &&
      forall b :: 0 <= b < NUM_BUCKETS ==> buckets[b] == Ranked(nodes, ScoreAt(b))
    }

    constructor (members: seq<NodeId>)
      ensures Valid() && nodes == members && topology == map[]
    {
      nodes, buckets, topology := [], [], map[];
      new;
      SetNodes(members);
    }

    method SetTopology(racks: Topology)
      requires Valid()
      modifies this`topology
      ensures Valid() && topology == racks
    {
      topology := racks;
    }

    /** Hashes every member once and ranks them all in every bucket. */
    method SetNodes(members: seq<NodeId>)
      modifies this`nodes, this`buckets
      ensures Valid() && nodes == members
      ensures forall b :: 0 <= b < NUM_BUCKETS ==> BestFirst(buckets[b], members, b)
    {
      ghost var rank := (b: nat) => Ranked(members, ScoreAt(b));
      nodes := members;
      var hashes := HashAll(members);
      buckets := RankAll(members, hashes, rank);
      AllSorted(members, buckets, rank);
    }

    /** The two passes over a preference list, cut off at `r` owners. */
    method Pick(pl: seq<NodeId>, r: nat) returns (chosen: seq<NodeId>)
      requires |pl| == |nodes|
      ensures var all := Placed(pl, topology); chosen == all[..Min(Min(r, |nodes|), |all|)]
    {
      var k := Min(r, |nodes|);
      if topology == map[] { return pl[..k]; }
      ghost var l, all := Leaders(pl, DomainIn(topology), {}), Placed(pl, topology);
      LeadersOnce(pl, DomainIn(topology));
      DistinctPrefix(l, pl);
      chosen := FirstPerRack(pl, k, DomainIn(topology));
      if |chosen| < k {
        assert chosen == l;
        chosen := FillRest(pl, k, chosen);
      } else {
        assert all[..|l|] == l && all[..k] == l[..k];
      }
    }

    /** Pass one: the first node of every rack, until `k` are chosen. */
    static method FirstPerRack(pl: seq<NodeId>, k: nat, dom: NodeId -> string) returns (chosen: seq<NodeId>)
      ensures var l := Leaders(pl, dom, {}); chosen == l[..Min(k, |l|)]
    {
      ghost var all := Leaders(pl, dom, {});
      chosen := [];
      var used: set<string> := {};
      var i := 0;
      while i < |pl| && |chosen| < k
        invariant i <= |pl| && |chosen| <= k
        invariant |chosen| <= |all| && chosen == all[..|chosen|]
        invariant Leaders(pl[i..], dom, used) == all[|chosen|..]
      {
        LeaderTurn(pl, dom, i, used, chosen, all);
        if dom(pl[i]) !in used {
          used := used + {dom(pl[i])};
          chosen := chosen + [pl[i]];
        }
        i := i + 1;
      }
    }

    /** Pass two: the remaining nodes in rank order, until `k` are chosen. */
    static method FillRest(pl: seq<NodeId>, k: nat, leaders: seq<NodeId>) returns (chosen: seq<NodeId>)
      requires NoDup(leaders) && |leaders| <= k
      ensures var all := Distinct(leaders + pl); chosen == all[..Min(k, |all|)]
    {
      DistinctAlready(leaders);
      assert leaders + pl[..0] == leaders;
      chosen := leaders;
      var i := 0;
      while i < |pl| && |chosen| < k
        invariant i <= |pl| && |chosen| <= k && chosen == Distinct(leaders + pl[..i])
      {
        assert leaders + pl[..i + 1] == (leaders + pl[..i]) + [pl[i]];
        DistinctSnoc(leaders + pl[..i], pl[i]);
        if pl[i] !in chosen {
          chosen := chosen + [pl[i]];
        }
        i := i + 1;
      }
      assert leaders + pl == (leaders + pl[..i]) + pl[i..];
      DistinctPrefix(leaders + pl[..i], pl[i..]);
      assert i == |pl| ==> pl[..i] == pl;
    }

    static lemma {:induction false} LeadersStep(pl: seq<NodeId>, dom: NodeId -> string, i: nat, used: set<string>)
      requires i < |pl|
      ensures Leaders(pl[i..], dom, used) ==
              if dom(pl[i]) in used then Leaders(pl[i + 1..], dom, used)
              else [pl[i]] + Leaders(pl[i + 1..], dom, used + {dom(pl[i])})
    {
      assert pl[i..][1..] == pl[i + 1..];
    }

    /** One turn of pass one. */
    static lemma {:induction false} LeaderTurn(pl: seq<NodeId>, dom: NodeId -> string, i: nat, used: set<string>,
                                               chosen: seq<NodeId>, all: seq<NodeId>)
      requires i < |pl| && |chosen| <= |all| && chosen == all[..|chosen|]
      requires Leaders(pl[i..], dom, used) == all[|chosen|..]
      ensures dom(pl[i]) in used ==> Leaders(pl[i + 1..], dom, used) == all[|chosen|..]
      ensures dom(pl[i]) !in used ==>
                && |chosen| < |all| && chosen + [pl[i]] == all[..|chosen| + 1]
                && Leaders(pl[i + 1..], dom, used + {dom(pl[i])}) == all[|chosen| + 1..]
    {
      LeadersStep(pl, dom, i, used);
      if dom(pl[i]) !in used {
        var rest := all[|chosen|..];
        assert rest[0] == all[|chosen|] && rest[1..] == all[|chosen| + 1..];
        assert rest[1..] == Leaders(pl[i + 1..], dom, used + {dom(pl[i])});
      }
    }

    method OwnersOfBucket(b: nat, r: nat) returns (owners: seq<NodeId>)
      requires Valid() && b < NUM_BUCKETS
      ensures owners == OwnersOf(nodes, topology, r, b)
      ensures NoDup(nodes) ==>
                |set n | n in owners :: if n in topology then topology[n] else n|
                == Min(Min(r, |nodes|), |set n | n in nodes :: if n in topology then topology[n] else n|)
    {
      RankedSorts(nodes, ScoreAt(b));
      SameMultiset(nodes, buckets[b]);
      owners := Pick(buckets[b], r);
      if NoDup(nodes) { DomainsCovered(nodes, topology, r, b); }
    }

    method ReplicaSet(key: string, r: nat) returns (owners: seq<NodeId>)
      requires Valid()
      ensures owners == OwnersOf(nodes, topology, r, BucketOf(key))
    {
      owners := OwnersOfBucket(BucketOf(key), r);
    }
  }
}
