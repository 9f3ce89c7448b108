/**
 * Rack-aware replica choice over a preference list: the first node of every rack in rank order,
 * then everybody else in rank order. `dom` gives a node's failure domain.
 */
module Racks {
  import opened Seqs
  import opened Ranking

  function Leaders(pl: seq<NodeId>, dom: NodeId -> string, used: set<string>): seq<NodeId> {
    if pl == [] then []
    else if dom(pl[0]) in used then Leaders(pl[1..], dom, used)
    else [pl[0]] + Leaders(pl[1..], dom, used + {dom(pl[0])})
  }

  function Followers(pl: seq<NodeId>, dom: NodeId -> string, used: set<string>): seq<NodeId> {
    if pl == [] then []
    else if dom(pl[0]) in used then [pl[0]] + Followers(pl[1..], dom, used)
    else Followers(pl[1..], dom, used + {dom(pl[0])})
  }

  function Spread(pl: seq<NodeId>, dom: NodeId -> string): seq<NodeId> {
    Leaders(pl, dom, {}) + Followers(pl, dom, {})
  }

  /** The list without the later occurrences of its elements. */
  function Distinct(s: seq<NodeId>): seq<NodeId> {
    if s == [] then []
    else
      var d, n := Distinct(s[..|s| - 1]), s[|s| - 1];
      if n in d then d else d + [n]
  }

  function Domains(s: seq<NodeId>, dom: NodeId -> string): set<string> {
    set n | n in s :: dom(n)
  }

  lemma {:induction false} DistinctFacts(s: seq<NodeId>)
    ensures NoDup(Distinct(s)) && Elems(Distinct(s)) == Elems(s) && |Distinct(s)| <= |s|
  {
    if s != [] {
      var m := |s| - 1;
      DistinctFacts(s[..m]);
      assert s == s[..m] + [s[m]];
      assert Elems(s) == Elems(s[..m]) + {s[m]};
      assert s[m] in Distinct(s[..m]) ==> s[m] in Elems(s[..m]);
    }
  }

  lemma {:induction false} DistinctAlready(s: seq<NodeId>)
    requires NoDup(s)
    ensures Distinct(s) == s
  {
    if s != [] { DistinctAlready(s[..|s| - 1]); }
  }

  lemma {:induction false} DistinctSnoc(s: seq<NodeId>, n: NodeId)
    ensures Distinct(s + [n]) == if n in Distinct(s) then Distinct(s) else Distinct(s) + [n]
  {
    assert (s + [n])[..|s|] == s;
  }

  lemma {:induction false} DistinctPrefix(s: seq<NodeId>, t: seq<NodeId>)
    ensures Distinct(s) <= Distinct(s + t)
  {
    if t == [] {
      assert s + t == s;
    } else {
      var m := |t| - 1;
      assert s + t == (s + t[..m]) + [t[m]];
      DistinctPrefix(s, t[..m]);
      DistinctSnoc(s + t[..m], t[m]);
    }
  }

  lemma {:induction false} SpreadPermutes(pl: seq<NodeId>, dom: NodeId -> string, used: set<string>)
    ensures multiset(Leaders(pl, dom, used)) + multiset(Followers(pl, dom, used)) == multiset(pl)
  {
    if pl != [] {
      assert pl == [pl[0]] + pl[1..];
      SpreadPermutes(pl[1..], dom, if dom(pl[0]) in used then used else used + {dom(pl[0])});
    }
  }

  /** Leaders are exactly the nodes with no better-placed node of their domain. */
  lemma {:induction false} LeadersAreFirst(pl: seq<NodeId>, dom: NodeId -> string, used: set<string>, n: NodeId)
    requires NoDup(pl)
    ensures n in Leaders(pl, dom, used) <==>
            exists i :: 0 <= i < |pl| && pl[i] == n && dom(n) !in used
                && forall j :: 0 <= j < i ==> dom(pl[j]) != dom(n)
  {
    if pl != [] {
      var used' := if dom(pl[0]) in used then used else used + {dom(pl[0])};
      var tl := pl[1..];
      LeadersAreFirst(tl, dom, used', n);
      if n in Leaders(pl, dom, used) {
        if n == pl[0] && dom(n) !in used {
          assert pl[0] == n;
        } else {
          var i :| 0 <= i < |tl| && tl[i] == n && dom(n) !in used' && forall j :: 0 <= j < i ==> dom(tl[j]) != dom(n);
          assert pl[i + 1] == n;
          assert forall j :: 0 <= j < i + 1 ==> dom(pl[j]) != dom(n);
        }
      }
      if i :| 0 <= i < |pl| && pl[i] == n && dom(n) !in used && forall j :: 0 <= j < i ==> dom(pl[j]) != dom(n) {
        if i > 0 {
          assert tl[i - 1] == n;
          assert dom(pl[0]) != dom(n);
          assert forall j :: 0 <= j < i - 1 ==> dom(tl[j]) != dom(n) by {
            assert forall j :: 0 <= j < i - 1 ==> tl[j] == pl[j + 1];
          }
        }
      }
    }
  }

  /** Both passes walk the list in order. */
  lemma {:induction false} PassesAscend(pl: seq<NodeId>, dom: NodeId -> string, used: set<string>, before: (NodeId,
                                        NodeId) -> bool)
    requires SortedBy(pl, before)
    ensures SortedBy(Leaders(pl, dom, used), before) && SortedBy(Followers(pl, dom, used), before)
  {
    if pl != [] {
      var used' := if dom(pl[0]) in used then used else used + {dom(pl[0])};
      PassesAscend(pl[1..], dom, used', before);
      SpreadPermutes(pl[1..], dom, used');
      PassMembers(pl[1..], dom, used');
      var l, f := Leaders(pl[1..], dom, used'), Followers(pl[1..], dom, used');
      forall x | x in Elems(pl[1..]) ensures before(pl[0], x) {}
      forall i | 0 <= i < |l| ensures before(pl[0], l[i]) { assert l[i] in Elems(l); }
      forall i | 0 <= i < |f| ensures before(pl[0], f[i]) { assert f[i] in Elems(f); }
    }
  }

  lemma {:induction false} PassMembers(pl: seq<NodeId>, dom: NodeId -> string, used: set<string>)
    ensures Elems(Leaders(pl, dom, used)) + Elems(Followers(pl, dom, used)) == Elems(pl)
  {
    SpreadPermutes(pl, dom, used);
    var l, f := Leaders(pl, dom, used), Followers(pl, dom, used);
    ElemsConcat(l, f);
    SameMultiset(l + f, pl);
  }

  lemma {:induction false} SpreadFacts(pl: seq<NodeId>, dom: NodeId -> string)
    requires NoDup(pl)
    ensures NoDup(Spread(pl, dom)) && Elems(Spread(pl, dom)) == Elems(pl) && |Spread(pl, dom)| == |pl|
    ensures pl != [] ==> Spread(pl, dom)[0] == pl[0]
  {
    SpreadPermutes(pl, dom, {});
    SameMultiset(pl, Spread(pl, dom));
  }

  /** When every node is its own domain the list is taken as it stands. */
  lemma {:induction false} SpreadPlain(pl: seq<NodeId>, dom: NodeId -> string, used: set<string>)
    requires NoDup(pl) && (forall n :: dom(n) == n) && (forall n :: n in pl ==> n !in used)
    ensures Leaders(pl, dom, used) == pl && Followers(pl, dom, used) == []
  {
    if pl != [] {
      SpreadPlain(pl[1..], dom, used + {dom(pl[0])});
    }
  }

  lemma {:induction false} FollowersSnoc(pl: seq<NodeId>, n: NodeId, dom: NodeId -> string, used: set<string>)
    ensures Followers(pl + [n], dom, used)
            == Followers(pl, dom, used) + if dom(n) in used + Domains(pl, dom) then [n] else []
  {
    if pl == [] {
      assert pl + [n] == [n] && [n][1..] == [];
    } else {
      var used' := if dom(pl[0]) in used then used else used + {dom(pl[0])};
      assert (pl + [n])[1..] == pl[1..] + [n];
      FollowersSnoc(pl[1..], n, dom, used');
      DomainsCons(pl, dom);
      assert used' + Domains(pl[1..], dom) == used + Domains(pl, dom);
    }
  }

  lemma {:induction false} LeadersOnce(pl: seq<NodeId>, dom: NodeId -> string)
    ensures NoDup(Leaders(pl, dom, {})) && Distinct(Leaders(pl, dom, {})) == Leaders(pl, dom, {})
  {
    LeadersCover(pl, dom, {});
    DistinctAlready(Leaders(pl, dom, {}));
  }

  /** Whoever the first pass did not choose is chosen by the second, in order. */
  lemma {:induction false} SecondPass(pl: seq<NodeId>, dom: NodeId -> string, i: nat)
    requires NoDup(pl) && i <= |pl|
    ensures var l := Leaders(pl, dom, {}); Distinct(l + pl[..i]) == l + Followers(pl[..i], dom, {})
  {
    var l := Leaders(pl, dom, {});
    if i == 0 {
      LeadersOnce(pl, dom);
      assert l + pl[..0] == l;
    } else {
      SecondPass(pl, dom, i - 1);
      LedOrSeen(pl, dom, i - 1);
      assert pl[..i] == pl[..i - 1] + [pl[i - 1]];
      SecondPassTurn(l, pl[..i - 1], pl[i - 1], dom);
    }
  }

  lemma {:induction false} SecondPassTurn(l: seq<NodeId>, before: seq<NodeId>, n: NodeId, dom: NodeId -> string)
    requires Distinct(l + before) == l + Followers(before, dom, {})
    requires n !in before && (n in l <==> dom(n) !in Domains(before, dom))
    ensures Distinct(l + (before + [n])) == l + Followers(before + [n], dom, {})
  {
    var f := Followers(before, dom, {});
    PassMembers(before, dom, {});
    assert n !in Elems(f);
    assert l + (before + [n]) == (l + before) + [n];
    DistinctSnoc(l + before, n);
    FollowersSnoc(before, n, dom, {});
    assert {} + Domains(before, dom) == Domains(before, dom);
  }

  /** A node leads exactly when nobody before it is of its domain. */
  lemma {:induction false} LedOrSeen(pl: seq<NodeId>, dom: NodeId -> string, i: nat)
    requires NoDup(pl) && i < |pl|
    ensures pl[i] in Leaders(pl, dom, {}) <==> dom(pl[i]) !in Domains(pl[..i], dom)
  {
    LeadersAreFirst(pl, dom, {}, pl[i]);
    assert forall j :: 0 <= j < i ==> pl[j] in pl[..i];
  }

  /** Over a list without duplicates the leaders, then all, each once, are leaders and followers. */
  lemma {:induction false} SpreadIsDistinct(pl: seq<NodeId>, dom: NodeId -> string)
    requires NoDup(pl)
    ensures Distinct(Leaders(pl, dom, {}) + pl) == Spread(pl, dom)
  {
    SecondPass(pl, dom, |pl|);
    assert pl[..|pl|] == pl;
  }

  // ---------------------------------------------------------------- rack coverage

  lemma {:induction false} LeadersCover(pl: seq<NodeId>, dom: NodeId -> string, used: set<string>)
    ensures Domains(Leaders(pl, dom, used), dom) == Domains(pl, dom) - used
    ensures forall i, j :: 0 <= i < j < |Leaders(pl, dom, used)| ==>
            dom(Leaders(pl, dom, used)[i]) != dom(Leaders(pl, dom, used)[j])
  {
    if pl != [] {
      var d := dom(pl[0]);
      var used' := if d in used then used else used + {d};
      var l := Leaders(pl[1..], dom, used');
      LeadersCover(pl[1..], dom, used');
      DomainsCons(pl, dom);
      if d !in used {
        DomainsCons([pl[0]] + l, dom);
        assert ([pl[0]] + l)[1..] == l;
        forall i | 0 <= i < |l| ensures dom(l[i]) != d {
          assert dom(l[i]) in Domains(l, dom);
        }
      }
    }
  }

  lemma {:induction false} DomainsCons(s: seq<NodeId>, dom: NodeId -> string)
    requires s != []
    ensures Domains(s, dom) == {dom(s[0])} + Domains(s[1..], dom)
  {
    assert s == [s[0]] + s[1..];
  }

  lemma {:induction false} DistinctDomainsCard(s: seq<NodeId>, dom: NodeId -> string)
    requires forall i, j :: 0 <= i < j < |s| ==> dom(s[i]) != dom(s[j])
    ensures |Domains(s, dom)| == |s|
  {
    if s != [] {
      DistinctDomainsCard(s[1..], dom);
      DomainsCons(s, dom);
    }
  }

  lemma {:induction false} PrefixDomains(pl: seq<NodeId>, dom: NodeId -> string, k: nat)
    requires NoDup(pl) && |Leaders(pl, dom, {})| <= k <= |Spread(pl, dom)|
    ensures Domains(Spread(pl, dom)[..k], dom) == Domains(pl, dom)
  {
    var l, sp := Leaders(pl, dom, {}), Spread(pl, dom);
    LeadersCover(pl, dom, {});
    SpreadFacts(pl, dom);
    assert l <= sp[..k];
    forall n | n in sp[..k] ensures n in pl {
      assert n in Elems(sp);
    }
    forall d | d in Domains(pl, dom) ensures d in Domains(sp[..k], dom) {
      assert d in Domains(l, dom);
      var n :| n in l && dom(n) == d;
      assert n in sp[..k];
    }
  }

  /** The first `k` picks cover as many racks as `k` nodes of this list can. */
  lemma {:induction false} SpreadCoversRacks(pl: seq<NodeId>, dom: NodeId -> string, k: nat)
    requires NoDup(pl) && k <= |pl|
    ensures k <= |Spread(pl, dom)|
    ensures |Domains(Spread(pl, dom)[..k], dom)| == Min(k, |Domains(pl, dom)|)
  {
    SpreadFacts(pl, dom);
    LeadersCover(pl, dom, {});
    var l, sp := Leaders(pl, dom, {}), Spread(pl, dom);
    DistinctDomainsCard(l, dom);
    if k <= |l| {
      assert sp[..k] == l[..k];
      DistinctDomainsCard(sp[..k], dom);
    } else {
      PrefixDomains(pl, dom, k);
    }
  }

  // ---------------------------------------------------------------- the set of picks fixes their order

  ghost predicate Leads(pl: seq<NodeId>, dom: NodeId -> string, n: NodeId) { n in Leaders(pl, dom, {}) }

  /** The order in which `Spread` lists nodes: leaders first, then by score. */
  ghost function PickOrder(lead: NodeId -> bool, score: NodeId -> int): (NodeId, NodeId) -> bool {
    (x, y) => if lead(x) != lead(y) then lead(x) else score(x) > score(y)
  }

  lemma {:induction false} SpreadSorted(pl: seq<NodeId>, dom: NodeId -> string, score: NodeId -> int)
    requires NoDup(pl) && SortedBy(pl, (x, y) => score(x) > score(y))
    ensures SortedBy(Spread(pl, dom), PickOrder(n => Leads(pl, dom, n), score))
  {
    var l, f, sp := Leaders(pl, dom, {}), Followers(pl, dom, {}), Spread(pl, dom);
    var ord := PickOrder(n => Leads(pl, dom, n), score);
    PassesAscend(pl, dom, {}, (x, y) => score(x) > score(y));
    SpreadFacts(pl, dom);
    forall i, j | 0 <= i < j < |sp| ensures ord(sp[i], sp[j]) {
      if j < |l| {
        assert sp[i] == l[i] && sp[j] == l[j];
      } else if i < |l| {
        assert sp[i] == l[i] && sp[j] == f[j - |l|];
        assert forall m :: 0 <= m < |l| ==> sp[m] == l[m];
      } else {
        assert sp[i] == f[i - |l|] && sp[j] == f[j - |l|];
        assert forall m :: 0 <= m < |l| ==> sp[m] == l[m];
      }
    }
  }

  /** A picked follower means every leader was picked. */
  lemma {:induction false} FollowerPicked(pl: seq<NodeId>, dom: NodeId -> string, k: nat, n: NodeId, m: NodeId)
    requires NoDup(pl) && k <= |Spread(pl, dom)|
    requires n in Spread(pl, dom)[..k] && !Leads(pl, dom, n) && Leads(pl, dom, m)
    ensures m in Spread(pl, dom)[..k]
  {
    var l, sp := Leaders(pl, dom, {}), Spread(pl, dom);
    var i :| 0 <= i < k && sp[i] == n;
    assert forall h :: 0 <= h < |l| ==> sp[h] == l[h];
    assert i >= |l|;
    var j :| 0 <= j < |l| && l[j] == m;
    assert sp[j] == m && sp[..k][j] == m;
  }

  lemma {:induction false} FirstOfDomain(pl: seq<NodeId>, dom: NodeId -> string, i: nat) returns (j: nat)
    requires i < |pl|
    ensures j <= i && dom(pl[j]) == dom(pl[i]) && forall k :: 0 <= k < j ==> dom(pl[k]) != dom(pl[i])
  {
    if k :| 0 <= k < i && dom(pl[k]) == dom(pl[i]) {
      j := FirstOfDomain(pl, dom, k);
    } else {
      j := i;
    }
  }

  /** A follower has a leader of the same domain and a higher score. */
  lemma {:induction false} LeaderAbove(pl: seq<NodeId>, dom: NodeId -> string, score: NodeId -> int, n: NodeId)
    returns (m: NodeId)
    requires NoDup(pl) && SortedBy(pl, (x, y) => score(x) > score(y))
    requires n in pl && !Leads(pl, dom, n)
    ensures Leads(pl, dom, m) && m in pl && dom(m) == dom(n) && score(m) > score(n)
  {
    var i :| 0 <= i < |pl| && pl[i] == n;
    LeadersAreFirst(pl, dom, {}, n);
    var k :| 0 <= k < i && dom(pl[k]) == dom(n);
    var j := FirstOfDomain(pl, dom, k);
    m := pl[j];
    LeadersAreFirst(pl, dom, {}, m);
  }

  /** A leader has nobody of its domain above it. */
  lemma {:induction false} NoneAboveLeader(pl: seq<NodeId>, dom: NodeId -> string, score: NodeId -> int, n: NodeId,
                                           m: NodeId)
    requires NoDup(pl) && SortedBy(pl, (x, y) => score(x) > score(y))
    requires Leads(pl, dom, n) && m in pl && dom(m) == dom(n)
    ensures score(m) <= score(n)
  {
    LeadersAreFirst(pl, dom, {}, n);
    var i :| 0 <= i < |pl| && pl[i] == n && forall j :: 0 <= j < i ==> dom(pl[j]) != dom(n);
    var j :| 0 <= j < |pl| && pl[j] == m;
    assert j >= i;
  }

  /** Two lists that pick the same set agree on which picks lead. */
  lemma {:induction false} SameLeaders(p: seq<NodeId>, q: seq<NodeId>, dom: NodeId -> string, score: NodeId -> int,
                                       j: nat, k: nat, n: NodeId)
    requires NoDup(p) && SortedBy(p, (x, y) => score(x) > score(y))
    requires NoDup(q) && SortedBy(q, (x, y) => score(x) > score(y))
    requires j <= |Spread(p, dom)| && k <= |Spread(q, dom)|
    requires Elems(Spread(p, dom)[..j]) == Elems(Spread(q, dom)[..k])
    requires n in Spread(p, dom)[..j] && Leads(p, dom, n)
    ensures Leads(q, dom, n)
  {
    SpreadFacts(p, dom);
    SpreadFacts(q, dom);
    assert n in Elems(Spread(q, dom)[..k]);
    assert n in Elems(Spread(q, dom));
    if !Leads(q, dom, n) {
      var m := LeaderAbove(q, dom, score, n);
      FollowerPicked(q, dom, k, n, m);
      assert m in Elems(Spread(p, dom)[..j]);
      assert m in Elems(Spread(p, dom));
      NoneAboveLeader(p, dom, score, n, m);
      assert false;
    }
  }

  /** If two preference lists pick the same set of nodes, they pick it in the same order. */
  lemma {:induction false} SamePicksSameOrder(p: seq<NodeId>, q: seq<NodeId>, dom: NodeId -> string,
                                              score: NodeId -> int, j: nat, k: nat)
    requires NoDup(p) && SortedBy(p, (x, y) => score(x) > score(y))
    requires NoDup(q) && SortedBy(q, (x, y) => score(x) > score(y))
    requires j <= |Spread(p, dom)| && k <= |Spread(q, dom)|
    requires Elems(Spread(p, dom)[..j]) == Elems(Spread(q, dom)[..k])
    ensures Spread(p, dom)[..j] == Spread(q, dom)[..k]
  {
    var a, b := Spread(p, dom)[..j], Spread(q, dom)[..k];
    var ord := PickOrder(n => Leads(p, dom, n), score);
    SpreadSorted(p, dom, score);
    SpreadSorted(q, dom, score);
    forall n | n in Elems(a) ensures Leads(p, dom, n) <==> Leads(q, dom, n) {
      if Leads(p, dom, n) {
        SameLeaders(p, q, dom, score, j, k, n);
      } else if Leads(q, dom, n) {
        SameLeaders(q, p, dom, score, k, j, n);
      }
    }
    assert SortedBy(b, ord) by {
      forall i, i' | 0 <= i < i' < |b| ensures ord(b[i], b[i']) {
        assert b[i] in Elems(b) && b[i'] in Elems(b);
        assert PickOrder(n => Leads(q, dom, n), score)(b[i], b[i']);
      }
    }
    SortedListingUnique(a, b, ord);
  }
}
