/** Rendezvous ranking: per bucket, the nodes in descending score order (a stable sort). */
module Ranking {
  import opened Seqs

  type NodeId = string

  ghost predicate Desc(s: seq<NodeId>, score: NodeId -> int) {
    forall i, j :: 0 <= i < j < |s| ==> score(s[i]) >= score(s[j])
  }

  ghost predicate InjectiveOn(xs: set<NodeId>, score: NodeId -> int) {
    forall x, y :: x in xs && y in xs && score(x) == score(y) ==> x == y
  }

  function InsertRanked(s: seq<NodeId>, n: NodeId, score: NodeId -> int): seq<NodeId> {
    if s == [] then [n]
    else if score(s[0]) >= score(n) then [s[0]] + InsertRanked(s[1..], n, score)
    else [n] + s
  }

  /** The stable descending sort of `nodes`: ties keep their order in the list. */
  function Ranked(nodes: seq<NodeId>, score: NodeId -> int): seq<NodeId> {
    if nodes == [] then []
    else InsertRanked(Ranked(nodes[..|nodes| - 1], score), nodes[|nodes| - 1], score)
  }

  lemma {:induction false} InsertSplit(s: seq<NodeId>, n: NodeId, score: NodeId -> int) returns (i: nat)
    ensures i <= |s| && InsertRanked(s, n, score) == s[..i] + [n] + s[i..]
    ensures forall k :: 0 <= k < i ==> score(s[k]) >= score(n)
    ensures i < |s| ==> score(s[i]) < score(n)
  {
    if s != [] && score(s[0]) >= score(n) {
      var k := InsertSplit(s[1..], n, score);
      i := k + 1;
    } else {
      i := 0;
    }
  }

  /** Where an insertion goes: behind everything that scores at least as high. */
  lemma {:induction false} InsertRankedAt(s: seq<NodeId>, n: NodeId, score: NodeId -> int, p: nat)
    requires p <= |s| && (forall k :: 0 <= k < p ==> score(s[k]) >= score(n)) && (p < |s| ==> score(s[p]) < score(n))
    ensures InsertRanked(s, n, score) == s[..p] + [n] + s[p..]
  {
    if p > 0 {
      InsertRankedAt(s[1..], n, score, p - 1);
      assert s == [s[0]] + s[1..];
      assert s[1..][..p - 1] == s[1..p] && s[1..][p - 1..] == s[p..];
    }
  }

  lemma {:induction false} InsertRankedSorts(s: seq<NodeId>, n: NodeId, score: NodeId -> int)
    requires Desc(s, score)
    ensures Desc(InsertRanked(s, n, score), score)
    ensures multiset(InsertRanked(s, n, score)) == multiset(s) + multiset{n}
  {
    var i := InsertSplit(s, n, score);
    DescAround(s, i, n, score);
    MultisetAround(s, i, n);
  }

  lemma {:induction false} MultisetAround(s: seq<NodeId>, i: nat, n: NodeId)
    requires i <= |s|
    ensures multiset(s[..i] + [n] + s[i..]) == multiset(s) + multiset{n}
  {
    assert s == s[..i] + s[i..];
  }

  lemma {:induction false} DescAround(s: seq<NodeId>, i: nat, n: NodeId, score: NodeId -> int)
    requires i <= |s| && Desc(s, score)
    requires forall k :: 0 <= k < i ==> score(s[k]) >= score(n)
    requires i < |s| ==> score(s[i]) < score(n)
    ensures Desc(s[..i] + [n] + s[i..], score)
  {
    var l, r := s[..i], s[i..];
    assert forall k :: 0 <= k < |r| ==> r[k] == s[i + k];
    DescJoin(l, n, r, score);
  }

  lemma {:induction false} DescJoin(l: seq<NodeId>, n: NodeId, r: seq<NodeId>, score: NodeId -> int)
    requires Desc(l, score) && Desc(r, score)
    requires forall k :: 0 <= k < |l| ==> score(l[k]) >= score(n)
    requires forall k :: 0 <= k < |r| ==> score(r[k]) <= score(n)
    ensures Desc(l + [n] + r, score)
  {}

  lemma {:induction false} RankedSorts(nodes: seq<NodeId>, score: NodeId -> int)
    ensures Desc(Ranked(nodes, score), score)
    ensures multiset(Ranked(nodes, score)) == multiset(nodes)
  {
    if nodes != [] {
      var m := |nodes| - 1;
      RankedSorts(nodes[..m], score);
      InsertRankedSorts(Ranked(nodes[..m], score), nodes[m], score);
      assert nodes == nodes[..m] + [nodes[m]];
    }
  }

  /** What every ranking of a duplicate-free membership offers its users. */
  lemma {:induction false} RankedFacts(nodes: seq<NodeId>, score: NodeId -> int)
    requires NoDup(nodes)
    ensures var pl := Ranked(nodes, score);
            NoDup(pl) && Elems(pl) == Elems(nodes) && |pl| == |nodes| && Desc(pl, score)
  {
    RankedSorts(nodes, score);
    SameMultiset(nodes, Ranked(nodes, score));
  }

  lemma {:induction false} RankedStrict(nodes: seq<NodeId>, score: NodeId -> int)
    requires NoDup(nodes) && InjectiveOn(Elems(nodes), score)
    ensures SortedBy(Ranked(nodes, score), (x, y) => score(x) > score(y))
  {
    RankedFacts(nodes, score);
    var pl := Ranked(nodes, score);
    forall i, j | 0 <= i < j < |pl| ensures score(pl[i]) > score(pl[j]) {
      assert pl[i] in Elems(pl) && pl[j] in Elems(pl);
    }
  }

  /** With distinct scores the ranking depends on the set of nodes only. */
  lemma {:induction false} RankedOrderFree(a: seq<NodeId>, b: seq<NodeId>, score: NodeId -> int)
    requires NoDup(a) && NoDup(b) && Elems(a) == Elems(b) && InjectiveOn(Elems(a), score)
    ensures Ranked(a, score) == Ranked(b, score)
  {
    RankedFacts(a, score);
    RankedFacts(b, score);
    RankedStrict(a, score);
    RankedStrict(b, score);
    SortedListingUnique(Ranked(a, score), Ranked(b, score), (x, y) => score(x) > score(y));
  }

  /** The members of `s` with score `v`, in order. */
  function Ties(s: seq<NodeId>, score: NodeId -> int, v: int): seq<NodeId> {
    if s == [] then []
    else (if score(s[0]) == v then [s[0]] else []) + Ties(s[1..], score, v)
  }

  lemma {:induction false} TiesConcat(a: seq<NodeId>, b: seq<NodeId>, score: NodeId -> int, v: int)
    ensures Ties(a + b, score, v) == Ties(a, score, v) + Ties(b, score, v)
  {
    if a == [] {
      assert a + b == b;
    } else {
      var tl := a[1..];
      TiesConcat(tl, b, score, v);
      TiesStep(a, a[0], tl, score, v);
      TiesStep(a + b, a[0], tl + b, score, v);
    }
  }

  lemma {:induction false} TiesStep(s: seq<NodeId>, h: NodeId, t: seq<NodeId>, score: NodeId -> int, v: int)
    requires s == [h] + t
    ensures Ties(s, score, v) == if score(h) == v then [h] + Ties(t, score, v) else Ties(t, score, v)
  {
    assert s[1..] == t;
  }

  lemma {:induction false} TiesBelow(s: seq<NodeId>, score: NodeId -> int, v: int)
    requires forall i :: 0 <= i < |s| ==> score(s[i]) < v
    ensures Ties(s, score, v) == []
  {
    if s != [] { TiesBelow(s[1..], score, v); }
  }

  lemma {:induction false} InsertKeepsTies(s: seq<NodeId>, n: NodeId, score: NodeId -> int, v: int)
    requires Desc(s, score)
    ensures Ties(InsertRanked(s, n, score), score, v) == Ties(s + [n], score, v)
  {
    if s == [] {
      assert s + [n] == [n];
    } else if score(s[0]) >= score(n) {
      InsertKeepsTies(s[1..], n, score, v);
      assert (s + [n])[1..] == s[1..] + [n];
    } else {
      TiesConcat(s, [n], score, v);
      TiesConcat([n], s, score, v);
      if v == score(n) { TiesBelow(s, score, v); }
    }
  }

  /** Stability: equal-score nodes keep their list order. */
  lemma {:induction false} RankedStable(nodes: seq<NodeId>, score: NodeId -> int, v: int)
    ensures Ties(Ranked(nodes, score), score, v) == Ties(nodes, score, v)
  {
    if nodes != [] {
      var m := |nodes| - 1;
      RankedStable(nodes[..m], score, v);
      RankedSorts(nodes[..m], score);
      InsertKeepsTies(Ranked(nodes[..m], score), nodes[m], score, v);
      TiesConcat(Ranked(nodes[..m], score), [nodes[m]], score, v);
      TiesConcat(nodes[..m], [nodes[m]], score, v);
      assert nodes == nodes[..m] + [nodes[m]];
    }
  }

  /** Where a node stands among the nodes that tie with it. */
  lemma {:induction false} TiesAt(nodes: seq<NodeId>, score: NodeId -> int, i: nat)
    requires i < |nodes|
    ensures var v := score(nodes[i]);
            var k := |Ties(nodes[..i], score, v)|;
            k < |Ties(nodes, score, v)| && Ties(nodes, score, v)[k] == nodes[i]
  {
    var v := score(nodes[i]);
    assert nodes == nodes[..i] + nodes[i..];
    TiesConcat(nodes[..i], nodes[i..], score, v);
  }

  function Swapped(nodes: seq<NodeId>, i: nat, j: nat): seq<NodeId>
    requires i < j < |nodes|
  {
    nodes[i := nodes[j]][j := nodes[i]]
  }

  lemma {:induction false} TiedSwapReranks(nodes: seq<NodeId>, score: NodeId -> int, i: nat, j: nat)
    requires i < j < |nodes| && nodes[i] != nodes[j] && score(nodes[i]) == score(nodes[j])
    ensures Ranked(Swapped(nodes, i, j), score) != Ranked(nodes, score)
  {
    var v, swapped := score(nodes[i]), Swapped(nodes, i, j);
    RankedStable(nodes, score, v);
    RankedStable(swapped, score, v);
    TiesAt(nodes, score, i);
    TiesAt(swapped, score, i);
    assert swapped[..i] == nodes[..i];
  }

  ghost predicate OrderFree(nodes: seq<NodeId>, score: NodeId -> int) {
    forall p :: multiset(p) == multiset(nodes) ==> Ranked(p, score) == Ranked(nodes, score)
  }

  lemma {:induction false} TieBreaksOrder(nodes: seq<NodeId>, score: NodeId -> int, i: nat, j: nat)
    requires i < j < |nodes| && nodes[i] != nodes[j] && score(nodes[i]) == score(nodes[j])
    ensures !OrderFree(nodes, score)
  {
    TiedSwapReranks(nodes, score, i, j);
    assert multiset(Swapped(nodes, i, j)) == multiset(nodes);
  }

  /** Exactly when the ranking is independent of the order in which the members are listed. */
  lemma {:induction false} RankedOrderFreeIff(nodes: seq<NodeId>, score: NodeId -> int)
    requires NoDup(nodes)
    ensures OrderFree(nodes, score) <==> InjectiveOn(Elems(nodes), score)
  {
    if InjectiveOn(Elems(nodes), score) {
      forall p | multiset(p) == multiset(nodes) ensures Ranked(p, score) == Ranked(nodes, score) {
        SameMultiset(nodes, p);
        RankedOrderFree(p, nodes, score);
      }
    } else {
      var x, y :| x in Elems(nodes) && y in Elems(nodes) && score(x) == score(y) && x != y;
      var a :| 0 <= a < |nodes| && nodes[a] == x;
      var b :| 0 <= b < |nodes| && nodes[b] == y;
      if a < b { TieBreaksOrder(nodes, score, a, b); } else { TieBreaksOrder(nodes, score, b, a); }
    }
  }

  /** Adding one node leaves the relative order of the others alone. */
  lemma {:induction false} RankedAdd(nodes: seq<NodeId>, more: seq<NodeId>, x: NodeId, score: NodeId -> int)
    returns (i: nat)
    requires NoDup(nodes) && NoDup(more) && x !in nodes && Elems(more) == Elems(nodes) + {x}
    requires InjectiveOn(Elems(more), score)
    ensures i <= |Ranked(nodes, score)|
    ensures Ranked(more, score) == Ranked(nodes, score)[..i] + [x] + Ranked(nodes, score)[i..]
  {
    var pl := Ranked(nodes, score);
    RankedFacts(nodes, score);
    assert NoDup(nodes + [x]);
    ElemsConcat(nodes, [x]);
    RankedOrderFree(more, nodes + [x], score);
    assert (nodes + [x])[..|nodes|] == nodes;
    i := InsertSplit(pl, x, score);
  }
}
